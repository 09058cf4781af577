/**
 * UTF-8, the byte form of Go strings: a Go string is its bytes, `string(b)`
 * keeps them as they are, and `[]byte(s)` of text is its UTF-8 encoding. A
 * Dafny `char` is a Unicode scalar value, so every string has one encoding.
 */
module Utf8 {
  import opened Wrappers

  newtype byte = x: int | 0 <= x < 256

  /** A Unicode scalar value: a code point that is not a surrogate. */
  predicate IsScalar(v: int) {
    (0 <= v < 0xD800) || (0xE000 <= v < 0x11_0000)
  }

  /** The one to four bytes of one character. */
  function EncodeChar(c: char): (b: seq<byte>)
    ensures 1 <= |b| <= 4
    ensures (c as int < 0x80) <==> |b| == 1
    ensures |b| == 1 ==> b[0] as int == c as int
  {
    var v := c as int;
    if v < 0x80 then [v as byte]
    else if v < 0x800 then [(0xC0 + v / 64) as byte, (0x80 + v % 64) as byte]
    else if v < 0x1_0000 then
      [(0xE0 + v / 4096) as byte, (0x80 + (v / 64) % 64) as byte, (0x80 + v % 64) as byte]
    else
      [(0xF0 + v / 262144) as byte, (0x80 + (v / 4096) % 64) as byte, (0x80 + (v / 64) % 64) as byte,
       (0x80 + v % 64) as byte]
  }

  /** The encoding of a string: its characters' encodings, in order. */
  function Encode(s: string): (b: seq<byte>)
    ensures |b| >= |s|
  {
    if s == [] then [] else EncodeChar(s[0]) + Encode(s[1..])
  }

  /** How many bytes a sequence starting with lead byte `b0` takes, or 0 for a byte no sequence starts with. */
  function SequenceLength(b0: byte): nat {
    if b0 < 0x80 then 1
    else if 0xC0 <= b0 < 0xE0 then 2
    else if 0xE0 <= b0 < 0xF0 then 3
    else if 0xF0 <= b0 < 0xF8 then 4
    else 0
  }

  predicate IsContinuation(b: byte) { 0x80 <= b < 0xC0 }

  /** The code point of one sequence of `n` bytes at the head of `b`, leading bits stripped. */
  function CodePoint(b: seq<byte>, n: nat): int
    requires 1 <= n <= 4 && n <= |b|
  {
    if n == 1 then b[0] as int
    else if n == 2 then (b[0] as int - 0xC0) * 64 + (b[1] as int - 0x80)
    else if n == 3 then (b[0] as int - 0xE0) * 4096 + (b[1] as int - 0x80) * 64 + (b[2] as int - 0x80)
    else (b[0] as int - 0xF0) * 262144 + (b[1] as int - 0x80) * 4096 + (b[2] as int - 0x80) * 64 + (b[3] as int - 0x80)
  }

  /** Decoding: each lead byte, its continuation bytes and a scalar value give one character; anything else fails. */
  function Decode(b: seq<byte>): (r: Option<string>)
    ensures r.Some? ==> |r.value| <= |b|
    decreases |b|
  {
    if b == [] then Some([])
    else
      var n := SequenceLength(b[0]);
      if n == 0 || n > |b| || exists i :: 1 <= i < n && !IsContinuation(b[i]) then None
      else
        var v := CodePoint(b, n);
        if !IsScalar(v) then None
        else
          match Decode(b[n..])
          case None => None
          case Some(rest) => Some([v as char] + rest)
  }

  /** One character's bytes decode back to it, whatever follows. */
  lemma EncodeCharDecodes(c: char, tail: seq<byte>)
    ensures var e := EncodeChar(c);
      SequenceLength(e[0]) == |e| &&
      (forall i :: 1 <= i < |e| ==> IsContinuation(e[i])) &&
      CodePoint(e + tail, |e|) == c as int
  {
    var v := c as int;
    var e := EncodeChar(c);
    if v < 0x80 {
    } else if v < 0x800 {
      assert v == (v / 64) * 64 + v % 64;
    } else if v < 0x1_0000 {
      Split64(v);
      assert v / 4096 < 16;
    } else {
      Split64(v);
      Split64(v / 64);
      assert v / 4096 == (v / 64) / 64;
      assert v / 262144 == (v / 4096) / 64;
      assert v / 262144 < 8;
    }
  }

  /** `v` in base 64: the last digit and the rest, and the rest's own last digit. */
  lemma Split64(v: nat)
    ensures v == (v / 64) * 64 + v % 64
    ensures v / 64 == (v / 4096) * 64 + (v / 64) % 64
    ensures v / 4096 == (v / 64) / 64
    ensures v / 262144 == (v / 4096) / 64
  {
  }

  /** Decoding the encoding of any string gives back that string. */
  lemma {:induction false} DecodeEncode(s: string)
    ensures Decode(Encode(s)) == Some(s)
  {
    if s != [] {
      var e := EncodeChar(s[0]);
      var rest := Encode(s[1..]);
      var b := e + rest;
      assert Encode(s) == b;
      EncodeCharDecodes(s[0], rest);
      assert b[0] == e[0];
      assert forall i :: 1 <= i < |e| ==> b[i] == e[i];
      assert b[|e|..] == rest;
      DecodeEncode(s[1..]);
      assert s == [s[0]] + s[1..];
    }
  }

  /** Different strings have different encodings. */
  lemma EncodeInjective(s: string, t: string)
    ensures Encode(s) == Encode(t) <==> s == t
  {
    DecodeEncode(s);
    DecodeEncode(t);
  }

  /** Text below U+0080 encodes as one byte per character, of the same value. */
  lemma {:induction false} AsciiEncodes(s: string)
    requires forall i :: 0 <= i < |s| ==> s[i] as int < 0x80
    ensures |Encode(s)| == |s| && forall i :: 0 <= i < |s| ==> Encode(s)[i] as int == s[i] as int
  {
    if s != [] {
      AsciiEncodes(s[1..]);
      assert forall i :: 1 <= i < |s| ==> Encode(s)[i] == Encode(s[1..])[i - 1];
    }
  }
}
