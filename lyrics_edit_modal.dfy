/**
 * The lyrics editor dialog: the `formatLyrics` clean-up pipeline (split into
 * lines, drop blank and bracketed metadata lines, expand literal `\n`, start
 * every tag on its own line, collapse blank-line runs, trim), the footer's
 * line count, the format button, and the save sequence.
 */
module LyricsEditModal {
  import opened Text

  // ---------------------------------------------------------------------------
  // Line filter
  // ---------------------------------------------------------------------------

  /** A timestamp `[dd:dd.dd]` or `[dd:dd.ddd]` starts at index `i` of `t`. */
  predicate StampAt(t: string, i: nat) {
    i + 10 <= |t| && t[i] == '[' && IsDigit(t[i + 1]) && IsDigit(t[i + 2]) && t[i + 3] == ':'
    && IsDigit(t[i + 4]) && IsDigit(t[i + 5]) && t[i + 6] == '.'
    && IsDigit(t[i + 7]) && IsDigit(t[i + 8])
    && (t[i + 9] == ']' || (i + 11 <= |t| && IsDigit(t[i + 9]) && t[i + 10] == ']'))
  }

  /** Some timestamp starts at or after index `i` (the unanchored regular-expression search). */
  predicate HasStampFrom(t: string, i: nat)
    decreases |t| - i
  {
    i < |t| && (StampAt(t, i) || HasStampFrom(t, i + 1))
  }

  predicate HasStamp(t: string) {
    HasStampFrom(t, 0)
  }

  /** The search finds a timestamp exactly when one starts somewhere at or after `i`. */
  lemma {:induction false} HasStampFromIff(t: string, i: nat)
    ensures HasStampFrom(t, i) <==> exists k :: i <= k && StampAt(t, k)
    decreases |t| - i
  {
    if i < |t| {
      HasStampFromIff(t, i + 1);
      if exists k :: i <= k && StampAt(t, k) {
        var k :| i <= k && StampAt(t, k);
      }
    } else {
      assert forall k :: i <= k ==> !StampAt(t, k);
    }
  }

  /** Characters that `.` in a JavaScript regular expression does not match. */
  predicate IsLineTerminator(c: char) {
    c == '\n' || c == '\r' || c == '\U{2028}' || c == '\U{2029}'
  }

  /**
   * Scanning `t` from index `j` without crossing a line terminator, a `]` is
   * reached after a `:` (or after one seen before `j`, when `sawColon`).
   */
  predicate MetaScan(t: string, j: nat, sawColon: bool)
    decreases |t| - j
  {
    j < |t| && !IsLineTerminator(t[j])
    && ((t[j] == ']' && sawColon) || MetaScan(t, j + 1, sawColon || t[j] == ':'))
  }

  /** `t` matches `/^\[.*:.*\]/`. */
  predicate IsBracketMetadata(t: string) {
    |t| > 0 && t[0] == '[' && MetaScan(t, 1, false)
  }

  /** The regular expression's meaning, written out: `[`, then a `:` and a later `]` on the same line. */
  ghost predicate BracketMetadataShape(t: string) {
    |t| > 0 && t[0] == '['
    && exists k :: 1 <= k < |t| && t[k] == ']' && ':' in t[1..k]
                   && forall m :: 1 <= m <= k ==> !IsLineTerminator(t[m])
  }

  /** Index `k` closes a scan from `j`: a `]` with a `:` before it and no line terminator on the way. */
  predicate ScanEnd(t: string, j: nat, sawColon: bool, k: int) {
    j <= k < |t| && t[k] == ']' && (sawColon || ':' in t[j..k])
    && forall m :: j <= m <= k ==> !IsLineTerminator(t[m])
  }

  lemma {:induction false} MetaScanIff(t: string, j: nat, sawColon: bool)
    requires 1 <= j
    ensures MetaScan(t, j, sawColon) <==> exists k :: ScanEnd(t, j, sawColon, k)
    decreases |t| - j
  {
    if j < |t| {
      var saw' := sawColon || t[j] == ':';
      MetaScanIff(t, j + 1, saw');
      if exists k :: ScanEnd(t, j, sawColon, k) {
        var k :| ScanEnd(t, j, sawColon, k);
        ScanEndLater(t, j, sawColon, k);
      }
      if t[j] == ']' && sawColon && !IsLineTerminator(t[j]) {
        assert ScanEnd(t, j, sawColon, j);
      } else if MetaScan(t, j, sawColon) {
        var k :| ScanEnd(t, j + 1, saw', k);
        ScanEndEarlier(t, j, sawColon, k);
      }
    }
  }

  /** A scan end from `j` is one from `j + 1` too, unless `t[j]` itself closes the scan. */
  lemma ScanEndLater(t: string, j: nat, sawColon: bool, k: int)
    requires ScanEnd(t, j, sawColon, k)
    ensures !IsLineTerminator(t[j])
    ensures (t[j] == ']' && sawColon) || ScanEnd(t, j + 1, sawColon || t[j] == ':', k)
  {
    if !(t[j] == ']' && sawColon) && k > j {
      assert t[j..k] == [t[j]] + t[j + 1..k];
    }
  }

  /** A scan end from `j + 1` is one from `j` when `t[j]` is not a line terminator. */
  lemma ScanEndEarlier(t: string, j: nat, sawColon: bool, k: int)
    requires j < |t| && !IsLineTerminator(t[j])
    requires ScanEnd(t, j + 1, sawColon || t[j] == ':', k)
    ensures ScanEnd(t, j, sawColon, k)
  {
    assert t[j..k] == [t[j]] + t[j + 1..k];
  }

  lemma IsBracketMetadataIff(t: string)
    ensures IsBracketMetadata(t) <==> BracketMetadataShape(t)
  {
    MetaScanIff(t, 1, false);
    if BracketMetadataShape(t) {
      var k :| 1 <= k < |t| && t[k] == ']' && ':' in t[1..k]
               && forall m :: 1 <= m <= k ==> !IsLineTerminator(t[m]);
      assert ScanEnd(t, 1, false, k);
    }
  }

  /**
   * The filter of the clean-up: a line survives unless it is blank, or it
   * contains `:`, has no `[dd:dd.dd(d)]` timestamp anywhere, and starts with
   * a bracketed `[…:…]` group.
   */
  predicate KeepLine(line: string): (b: bool)
    ensures b ==> TrimJs(line) != ""
    ensures ':' !in TrimJs(line) || HasStamp(TrimJs(line)) ==> (b <==> TrimJs(line) != "")
  {
    var t := TrimJs(line);
    t != "" && !(':' in t && !HasStamp(t) && IsBracketMetadata(t))
  }

  /**
   * `lines.filter(KeepLine)`: a single line is kept or dropped on its own, and
   * `KeptLinesAppend` states that the filter of a concatenation is the
   * concatenation of the filters, so order and repetitions are kept.
   */
  function KeptLines(lines: seq<string>): (r: seq<string>)
    ensures |r| <= |lines|
    ensures |lines| == 1 ==> r == (if KeepLine(lines[0]) then lines else [])
    ensures forall l :: l in r ==> l in lines && KeepLine(l)
    ensures forall l :: l in lines && KeepLine(l) ==> l in r
  {
    if lines == [] then []
    else (if KeepLine(lines[0]) then [lines[0]] else []) + KeptLines(lines[1..])
  }

  /** Filtering two runs of lines one after the other is filtering their concatenation. */
  lemma {:induction false} KeptLinesAppend(a: seq<string>, b: seq<string>)
    ensures KeptLines(a + b) == KeptLines(a) + KeptLines(b)
    decreases |a|
  {
    if a != [] {
      assert (a + b)[0] == a[0];
      assert (a + b)[1..] == a[1..] + b;
      KeptLinesAppend(a[1..], b);
    } else {
      assert a + b == b;
    }
  }

  /** No kept line is blank. */
  lemma KeptLinesNotBlank(lines: seq<string>)
    ensures forall l :: l in KeptLines(lines) ==> exists i :: 0 <= i < |l| && !IsJsSpace(l[i])
  {
    forall l | l in KeptLines(lines)
      ensures exists i :: 0 <= i < |l| && !IsJsSpace(l[i])
    {
      assert TrimJs(l) != "";
    }
  }

  lemma StampLineKept()
    ensures KeepLine("[00:12.34]x")
  {
    TrimUnpadded("[00:12.34]x", JsSpaces);
    StampedLineHasStamp();
  }

  lemma StampedLineHasStamp()
    ensures HasStamp("[00:12.34]x")
  {
    assert StampAt("[00:12.34]x", 0);
  }

  /** A fraction-less tag line is not a timestamp for this filter, so it is dropped. */
  lemma FractionlessTagLineDropped()
    ensures !KeepLine("[00:12]x")
  {
    var t := "[00:12]x";
    TrimUnpadded(t, JsSpaces);
    FractionlessTagNoStamp();
    FractionlessTagMetadata();
    assert t[3] == ':';
  }

  lemma FractionlessTagNoStamp()
    ensures !HasStamp("[00:12]x")
  {
    assert !HasStampFrom("[00:12]x", 0);
  }

  lemma FractionlessTagMetadata()
    ensures IsBracketMetadata("[00:12]x")
  {
    assert MetaScan("[00:12]x", 6, true);
  }

  /** A title tag is metadata, so it is dropped. */
  lemma TitleTagDropped()
    ensures !KeepLine("[ti:Song]")
  {
    var t := "[ti:Song]";
    TrimUnpadded(t, JsSpaces);
    TitleTagNoStamp();
    TitleTagMetadata();
    assert t[3] == ':';
  }

  lemma TitleTagNoStamp()
    ensures !HasStamp("[ti:Song]")
  {
    assert !HasStampFrom("[ti:Song]", 0);
  }

  lemma TitleTagMetadata()
    ensures IsBracketMetadata("[ti:Song]")
  {
    assert MetaScan("[ti:Song]", 8, true);
  }

  /** A credit line without brackets is kept although it contains a colon. */
  lemma CreditLineKept()
    ensures KeepLine("作词: 某人")
  {
    var t := "作词: 某人";
    TrimUnpadded(t, JsSpaces);
    assert t[0] != '[';
  }

  // ---------------------------------------------------------------------------
  // Escapes, tag breaks, blank-line collapse
  // ---------------------------------------------------------------------------

  /** A literal backslash followed by `n` starts at index `i`. */
  predicate EscapeAt(s: string, i: nat) {
    i + 1 < |s| && s[i] == '\\' && s[i + 1] == 'n'
  }

  /** `s.replace(/\\n/g, '\n')`: each literal backslash-`n` pair becomes a newline, left to right. */
  function ExpandEscapes(s: string): (r: string)
    ensures |r| <= |s|
    decreases |s|
  {
    if |s| == 0 then ""
    else if EscapeAt(s, 0) then "\n" + ExpandEscapes(s[2..])
    else [s[0]] + ExpandEscapes(s[1..])
  }

  /** No backslash-`n` pair is left after the expansion. */
  lemma {:induction false} NoEscapeLeft(s: string)
    ensures forall i :: 0 <= i < |ExpandEscapes(s)| ==> !EscapeAt(ExpandEscapes(s), i)
    decreases |s|
  {
    if |s| > 0 {
      var r := ExpandEscapes(s);
      var n := if EscapeAt(s, 0) then 2 else 1;
      var rest := ExpandEscapes(s[n..]);
      NoEscapeLeft(s[n..]);
      assert r == [r[0]] + rest;
      assert forall i :: 1 <= i < |r| ==> (EscapeAt(r, i) <==> EscapeAt(rest, i - 1));
      if |rest| > 0 && r[0] == '\\' {
        assert rest[0] == (if EscapeAt(s[1..], 0) then '\n' else s[1]);
      }
    }
  }

  /** Text without backslash-`n` pairs is left as it is. */
  lemma {:induction false} ExpandWithoutEscapes(s: string)
    requires forall i :: 0 <= i < |s| ==> !EscapeAt(s, i)
    ensures ExpandEscapes(s) == s
    decreases |s|
  {
    if |s| > 0 {
      assert !EscapeAt(s, 0);
      assert forall i :: 0 <= i < |s| - 1 ==> (EscapeAt(s[1..], i) <==> EscapeAt(s, i + 1));
      ExpandWithoutEscapes(s[1..]);
    }
  }

  /** `s.replace(/\]\s*\[/g, ']\n[')`: every `]`, optional whitespace, `[` becomes `]\n[`. */
  function BreakTags(s: string): (r: string)
    ensures '[' !in s ==> r == s
    decreases |s|
  {
    if |s| == 0 then ""
    else if s[0] == ']' then
      var k := SkipStart(s, JsSpaces, 1);
      if k < |s| && s[k] == '[' then "]\n[" + BreakTags(s[k + 1..])
      else "]" + BreakTags(s[1..])
    else [s[0]] + BreakTags(s[1..])
  }

  predicate AllSpaceBetween(r: string, i: nat, k: nat)
    requires i < k <= |r|
  {
    forall m :: i < m < k ==> IsJsSpace(r[m])
  }

  /** Every `]` that is followed, across whitespace only, by `[` is followed by exactly one newline and then `[`. */
  predicate TagsBroken(r: string) {
    forall i, k :: 0 <= i < k < |r| && r[i] == ']' && r[k] == '[' && AllSpaceBetween(r, i, k) ==>
      k == i + 2 && r[i + 1] == '\n'
  }

  /** The first character of the result is that of the input. */
  lemma BreakTagsHead(s: string)
    requires |s| > 0
    ensures |BreakTags(s)| > 0 && BreakTags(s)[0] == s[0]
  {
  }

  /** Leading whitespace is copied unchanged. */
  lemma {:induction false} BreakTagsSpacePrefix(s: string, j: nat)
    requires j <= |s|
    requires forall m :: 0 <= m < j ==> IsJsSpace(s[m])
    ensures BreakTags(s) == s[..j] + BreakTags(s[j..])
    decreases j
  {
    if j > 0 {
      var t := s[1..];
      BreakTagsCopiesSpace(s);
      SpacesShift(s, j);
      BreakTagsSpacePrefix(t, j - 1);
      PrefixRegroup(s, j);
      ConsConcat(s[0], s[1..j], BreakTags(s[j..]));
    }
  }

  /** A leading white-space character is not `]`, so it is copied. */
  lemma BreakTagsCopiesSpace(s: string)
    requires |s| > 0 && IsJsSpace(s[0])
    ensures BreakTags(s) == [s[0]] + BreakTags(s[1..])
  {
    assert s[0] != ']';
  }

  lemma SpacesShift(s: string, j: nat)
    requires 0 < j <= |s|
    requires forall m :: 0 <= m < j ==> IsJsSpace(s[m])
    ensures forall m :: 0 <= m < j - 1 ==> IsJsSpace(s[1..][m])
  {
    forall m | 0 <= m < j - 1 ensures IsJsSpace(s[1..][m]) {
      assert s[1..][m] == s[m + 1];
    }
  }

  lemma ConsConcat(c: char, x: string, y: string)
    ensures [c] + (x + y) == ([c] + x) + y
  {
  }

  lemma PrefixRegroup(s: string, j: nat)
    requires 0 < j <= |s|
    ensures s[1..][..j - 1] == s[1..j] && s[1..][j - 1..] == s[j..] && s[..j] == [s[0]] + s[1..j]
  {
  }

  /**
   * If `]` stands at index 0 of `[']'] + BreakTags(t)` and across whitespace
   * reaches `[`, then `t` itself starts with that whitespace and that `[`.
   */
  lemma BreakTagsNoNewMatch(t: string, k: nat)
    requires 0 < k < |BreakTags(t)| + 1
    requires BreakTags(t)[k - 1] == '['
    requires forall m :: 0 <= m < k - 1 ==> IsJsSpace(BreakTags(t)[m])
    ensures k - 1 < |t| && t[k - 1] == '[' && forall m :: 0 <= m < k - 1 ==> IsJsSpace(t[m])
  {
    var R := BreakTags(t);
    var s := [']'] + t;
    var j := SkipStart(t, JsSpaces, 0);
    BreakTagsSpacePrefix(t, j);
    if j < |t| {
      BreakTagsHead(t[j..]);
      assert R[j] == t[j];
      assert R[..j] == t[..j];
      if j > k - 1 {
        assert R[k - 1] == t[k - 1];
      }
    }
  }

  /** A pair inside the tail `R` of `p + R` is a pair of `R`. */
  lemma BrokenTail(p: string, R: string, i: nat, k: nat)
    requires TagsBroken(R)
    requires |p| <= i < k < |p + R|
    requires (p + R)[i] == ']' && (p + R)[k] == '[' && AllSpaceBetween(p + R, i, k)
    ensures k == i + 2 && (p + R)[i + 1] == '\n'
  {
    var r := p + R;
    assert R[i - |p|] == ']' && R[k - |p|] == '[';
    assert AllSpaceBetween(R, i - |p|, k - |p|) by {
      forall m | i - |p| < m < k - |p| ensures IsJsSpace(R[m]) {
        assert R[m] == r[m + |p|];
      }
    }
  }

  lemma BrokenAfterMatch(R: string)
    requires TagsBroken(R)
    ensures TagsBroken("]\n[" + R)
  {
    var r := "]\n[" + R;
    forall i, k | 0 <= i < k < |r| && r[i] == ']' && r[k] == '[' && AllSpaceBetween(r, i, k)
      ensures k == i + 2 && r[i + 1] == '\n'
    {
      if i >= 3 {
        BrokenTail("]\n[", R, i, k);
      } else {
        assert i == 0 && r[1] == '\n' && r[2] == '[';
      }
    }
  }

  lemma BrokenAfterCopy(c: char, R: string)
    requires c != ']'
    requires TagsBroken(R)
    ensures TagsBroken([c] + R)
  {
    var r := [c] + R;
    forall i, k | 0 <= i < k < |r| && r[i] == ']' && r[k] == '[' && AllSpaceBetween(r, i, k)
      ensures k == i + 2 && r[i + 1] == '\n'
    {
      BrokenTail([c], R, i, k);
    }
  }

  /** A `]` copied because no `[` follows it across whitespace starts no pair. */
  lemma BrokenAfterLoneBracket(s: string)
    requires |s| > 0 && s[0] == ']'
    requires var k := SkipStart(s, JsSpaces, 1); !(k < |s| && s[k] == '[')
    requires TagsBroken(BreakTags(s[1..]))
    ensures TagsBroken("]" + BreakTags(s[1..]))
  {
    var R := BreakTags(s[1..]);
    var r := "]" + R;
    forall i, k | 0 <= i < k < |r| && r[i] == ']' && r[k] == '[' && AllSpaceBetween(r, i, k)
      ensures k == i + 2 && r[i + 1] == '\n'
    {
      if i >= 1 {
        BrokenTail("]", R, i, k);
      } else {
        assert forall m :: 0 <= m < k - 1 ==> R[m] == r[m + 1];
        BreakTagsNoNewMatch(s[1..], k);
        assert s[k] == '[';
        assert forall m :: 1 <= m < k ==> IsJsSpace(s[m]) by {
          forall m | 1 <= m < k ensures IsJsSpace(s[m]) {
            assert s[m] == s[1..][m - 1];
          }
        }
        SkipStartAt(s, 1, k);
        assert false;
      }
    }
  }

  /** Where the rewrite has run, no `]`-whitespace-`[` is left except `]\n[`. */
  lemma {:induction false} BreakTagsBroken(s: string)
    ensures TagsBroken(BreakTags(s))
    decreases |s|
  {
    if |s| > 0 {
      if s[0] == ']' {
        var k := SkipStart(s, JsSpaces, 1);
        if k < |s| && s[k] == '[' {
          BreakTagsBroken(s[k + 1..]);
          BrokenAfterMatch(BreakTags(s[k + 1..]));
        } else {
          BreakTagsBroken(s[1..]);
          BrokenAfterLoneBracket(s);
        }
      } else {
        BreakTagsBroken(s[1..]);
        BrokenAfterCopy(s[0], BreakTags(s[1..]));
      }
    }
  }

  /** The whitespace skip from `i` stops at the first non-space index `k`. */
  lemma SkipStartAt(s: string, i: nat, k: nat)
    requires i <= k < |s|
    requires forall m :: i <= m < k ==> IsJsSpace(s[m])
    requires !IsJsSpace(s[k])
    ensures SkipStart(s, JsSpaces, i) == k
  {
  }

  /** Text without any `]` is left as it is. */
  lemma BreakTagsWithoutBracket(s: string)
    requires ']' !in s
    ensures BreakTags(s) == s
  {
  }

  /**
   * `s.replace(/\n{3,}/g, '\n\n')`: each run of three or more newlines becomes two,
   * so the text never grows and is empty only when it was.
   */
  function CollapseNewlines(s: string): (r: string)
    ensures |r| <= |s|
    ensures r == [] <==> s == []
    decreases |s|
  {
    if |s| == 0 then ""
    else if s[0] == '\n' then
      var k := SkipStart(s, Newlines, 0);
      (if k >= 3 then "\n\n" else s[..k]) + CollapseNewlines(s[k..])
    else [s[0]] + CollapseNewlines(s[1..])
  }

  predicate TripleNewlineAt(r: string, i: nat) {
    i + 2 < |r| && r[i] == '\n' && r[i + 1] == '\n' && r[i + 2] == '\n'
  }

  predicate NoTripleNewline(r: string) {
    forall i :: 0 <= i < |r| ==> !TripleNewlineAt(r, i)
  }

  /** A run of newlines collapsed or copied, followed by text not starting with a newline or empty. */
  lemma NoTripleAfterRun(a: string, b: string)
    requires |a| <= 2 && forall m :: 0 <= m < |a| ==> a[m] == '\n'
    requires NoTripleNewline(b)
    requires |b| > 0 ==> b[0] != '\n'
    ensures NoTripleNewline(a + b)
  {
    var r := a + b;
    forall i | 0 <= i < |r| ensures !TripleNewlineAt(r, i) {
      if i >= |a| {
        assert !TripleNewlineAt(b, i - |a|);
      } else if i + 2 < |r| {
        assert |a| - i <= 2;
        assert i + 2 >= |a|;
        if |b| > 0 {
          assert r[|a|] == b[0];
        }
      }
    }
  }

  /** The collapse leaves no three newlines in a row. */
  lemma {:induction false} CollapseNoTriple(s: string)
    ensures NoTripleNewline(CollapseNewlines(s))
    decreases |s|
  {
    if |s| > 0 {
      if s[0] == '\n' {
        var k := SkipStart(s, Newlines, 0);
        var rest := s[k..];
        CollapseNoTriple(rest);
        if |rest| > 0 {
          assert rest[0] != '\n';
          assert CollapseNewlines(rest)[0] == rest[0];
        }
        var a: string := if k >= 3 then "\n\n" else s[..k];
        NoTripleAfterRun(a, CollapseNewlines(rest));
      } else {
        var rest := s[1..];
        CollapseNoTriple(rest);
        var R := CollapseNewlines(rest);
        var r := [s[0]] + R;
        forall i | 0 <= i < |r| ensures !TripleNewlineAt(r, i) {
          if i >= 1 {
            assert !TripleNewlineAt(R, i - 1);
          }
        }
      }
    }
  }

  /** Text without three newlines in a row is left as it is. */
  lemma {:induction false} CollapseWithoutTriple(s: string)
    requires NoTripleNewline(s)
    ensures CollapseNewlines(s) == s
    decreases |s|
  {
    if |s| > 0 {
      var j := if s[0] == '\n' then SkipStart(s, Newlines, 0) else 1;
      if s[0] == '\n' && j >= 3 {
        assert TripleNewlineAt(s, 0);
      }
      var rest := s[j..];
      assert NoTripleNewline(rest) by {
        forall i | 0 <= i < |rest| ensures !TripleNewlineAt(rest, i) {
          assert !TripleNewlineAt(s, i + j);
        }
      }
      CollapseWithoutTriple(rest);
      assert s == s[..j] + rest;
    }
  }

  /** At a run of `k` newlines the collapse emits two newlines for a long run, the run itself for a short one. */
  lemma CollapseAtRun(s: string, k: nat)
    requires 0 < k <= |s| && (k == |s| || s[k] != '\n')
    requires forall m :: 0 <= m < k ==> s[m] == '\n'
    ensures CollapseNewlines(s) == (if k >= 3 then "\n\n" else s[..k]) + CollapseNewlines(s[k..])
  {
    SkipStartIs(s, Newlines, 0, k);
  }

  /** A run of three or more newlines, followed by text that does not start with one, becomes exactly two. */
  lemma CollapseRun(k: nat, b: string)
    requires k >= 3 && (|b| == 0 || b[0] != '\n')
    ensures CollapseNewlines(seq(k, _ => '\n') + b) == "\n\n" + CollapseNewlines(b)
  {
    var run := seq(k, _ => '\n');
    var s := run + b;
    assert forall m :: 0 <= m < k ==> s[m] == '\n';
    assert s[k..] == b;
    CollapseAtRun(s, k);
  }

  /** A run of one or two newlines, followed by text that does not start with one, is kept. */
  lemma CollapseShortRun(k: nat, b: string)
    requires 1 <= k <= 2 && (|b| == 0 || b[0] != '\n')
    ensures CollapseNewlines(seq(k, _ => '\n') + b) == seq(k, _ => '\n') + CollapseNewlines(b)
  {
    var run := seq(k, _ => '\n');
    var s := run + b;
    assert forall m :: 0 <= m < k ==> s[m] == '\n';
    assert s[k..] == b && s[..k] == run;
    CollapseAtRun(s, k);
  }

  /** `s` with every newline removed. */
  function WithoutNewlines(s: string): (r: string)
    ensures '\n' !in r
  {
    if |s| == 0 then "" else (if s[0] == '\n' then "" else [s[0]]) + WithoutNewlines(s[1..])
  }

  lemma {:induction false} WithoutNewlinesConcat(a: string, b: string)
    ensures WithoutNewlines(a + b) == WithoutNewlines(a) + WithoutNewlines(b)
    decreases |a|
  {
    if |a| > 0 {
      assert (a + b)[1..] == a[1..] + b;
      WithoutNewlinesConcat(a[1..], b);
    } else {
      assert a + b == b;
    }
  }

  lemma {:induction false} WithoutNewlinesOfRun(a: string)
    requires forall m :: 0 <= m < |a| ==> a[m] == '\n'
    ensures WithoutNewlines(a) == ""
    decreases |a|
  {
    if |a| > 0 {
      WithoutNewlinesOfRun(a[1..]);
    }
  }

  /** The collapse removes newlines and nothing else. */
  lemma {:induction false} CollapseOnlyRemovesNewlines(s: string)
    ensures WithoutNewlines(CollapseNewlines(s)) == WithoutNewlines(s)
    decreases |s|
  {
    if |s| > 0 {
      var j := if s[0] == '\n' then SkipStart(s, Newlines, 0) else 1;
      var rest := s[j..];
      CollapseOnlyRemovesNewlines(rest);
      assert s == s[..j] + rest;
      WithoutNewlinesConcat(s[..j], rest);
      if s[0] == '\n' {
        var a: string := if j >= 3 then "\n\n" else s[..j];
        WithoutNewlinesConcat(a, CollapseNewlines(rest));
        WithoutNewlinesOfRun(a);
        WithoutNewlinesOfRun(s[..j]);
      } else {
        WithoutNewlinesConcat([s[0]], CollapseNewlines(rest));
      }
    }
  }

  // ---------------------------------------------------------------------------
  // The whole clean-up
  // ---------------------------------------------------------------------------

  /** A slice of text without three newlines in a row has none either. */
  lemma NoTripleSlice(s: string, a: nat, b: nat)
    requires a <= b <= |s|
    requires NoTripleNewline(s)
    ensures NoTripleNewline(s[a..b])
  {
    var r := s[a..b];
    forall i | 0 <= i < |r| ensures !TripleNewlineAt(r, i) {
      assert !TripleNewlineAt(s, a + i);
    }
  }

  /** The text after the filter, the expansion and the tag breaks, before the collapse and the trim. */
  function Prepared(text: string): string {
    BreakTags(ExpandEscapes(Join(KeptLines(Split(text, '\n')), '\n')))
  }

  /**
   * `formatLyrics(text)`: empty input gives empty output; the output has no
   * leading or trailing whitespace and no three newlines in a row. The
   * collapse it trims removes newlines and nothing else, as
   * `CollapseOnlyRemovesNewlines` states.
   */
  function FormatLyrics(text: string): (r: string)
    ensures text == "" ==> r == ""
    ensures r != "" ==> !IsJsSpace(r[0]) && !IsJsSpace(r[|r| - 1])
    ensures NoTripleNewline(r)
  {
    if text == "" then ""
    else
      var c := CollapseNewlines(Prepared(text));
      CollapseNoTriple(Prepared(text));
      NoTripleSlice(c, SkipStart(c, JsSpaces, 0), SkipEnd(c, JsSpaces, SkipStart(c, JsSpaces, 0), |c|));
      TrimJs(c)
  }

  /** Filtering lines that already passed the filter keeps every one of them. */
  lemma {:induction false} KeptLinesIdempotent(lines: seq<string>)
    ensures KeptLines(KeptLines(lines)) == KeptLines(lines)
    decreases |lines|
  {
    if lines != [] {
      var head := if KeepLine(lines[0]) then [lines[0]] else [];
      assert KeptLines(lines) == head + KeptLines(lines[1..]);
      KeptLinesAppend(head, KeptLines(lines[1..]));
      KeptLinesIdempotent(lines[1..]);
      assert KeptLines(head) == head;
    }
  }

  /**
   * The formatted text depends only on the lines the filter keeps: a text none
   * of whose lines is kept formats to nothing, and otherwise formatting the
   * kept lines alone, joined by newlines, gives the same text.
   */
  lemma FormatLyricsOfKeptLines(text: string)
    ensures var kept := KeptLines(Split(text, '\n'));
      FormatLyrics(text) == (if kept == [] then "" else FormatLyrics(Join(kept, '\n')))
  {
    var kept := KeptLines(Split(text, '\n'));
    if text != "" {
      if kept == [] {
        assert Prepared(text) == "";
      } else {
        var joined := Join(kept, '\n');
        assert kept[0] in kept;
        assert joined != "" by {
          if |kept| > 1 {
            assert joined == kept[0] + ['\n'] + Join(kept[1..], '\n');
          }
        }
        assert forall i :: 0 <= i < |kept| ==> '\n' !in kept[i] by {
          forall i | 0 <= i < |kept| ensures '\n' !in kept[i] {
            assert kept[i] in kept;
          }
        }
        SplitJoin(kept, '\n');
        KeptLinesIdempotent(Split(text, '\n'));
        assert Prepared(joined) == Prepared(text);
      }
    }
  }

  // ---------------------------------------------------------------------------
  // Footer count, format button and save
  // ---------------------------------------------------------------------------

  predicate AllSpace(s: string) {
    forall i :: 0 <= i < |s| ==> IsJsSpace(s[i])
  }

  /** The number of lines whose trimmed text is non-empty. */
  function NonBlankCount(lines: seq<string>): (n: nat)
    ensures n <= |lines|
    ensures n == 0 <==> forall i :: 0 <= i < |lines| ==> AllSpace(lines[i])
  {
    if lines == [] then 0
    else
      assert forall i :: 1 <= i < |lines| ==> lines[i] == lines[1..][i - 1];
      (if TrimJs(lines[0]) != "" then 1 else 0) + NonBlankCount(lines[1..])
  }

  /**
   * The footer's "共 N 行": `text.split('\n').filter(line => line.trim()).length`.
   * It counts no lines exactly when the text is blank.
   */
  function LineCount(text: string): (n: nat)
    ensures n <= |Split(text, '\n')|
    ensures n == 0 <==> TrimJs(text) == ""
  {
    JoinSplit(text, '\n');
    AllSpaceJoin(Split(text, '\n'));
    NonBlankCount(Split(text, '\n'))
  }

  lemma AllSpaceConcat(a: string, b: string)
    ensures AllSpace(a + b) <==> AllSpace(a) && AllSpace(b)
  {
    if AllSpace(a + b) {
      forall i | 0 <= i < |b| ensures IsJsSpace(b[i]) {
        assert b[i] == (a + b)[|a| + i];
      }
      forall i | 0 <= i < |a| ensures IsJsSpace(a[i]) {
        assert a[i] == (a + b)[i];
      }
    }
  }

  /** Joined with newlines, the text is blank exactly when every part is. */
  lemma {:induction false} AllSpaceJoin(parts: seq<string>)
    ensures AllSpace(Join(parts, '\n')) <==> forall i :: 0 <= i < |parts| ==> AllSpace(parts[i])
    decreases |parts|
  {
    if |parts| > 1 {
      AllSpaceJoin(parts[1..]);
      AllSpaceConcat(parts[0] + "\n", Join(parts[1..], '\n'));
      AllSpaceConcat(parts[0], "\n");
      assert forall i :: 1 <= i < |parts| ==> parts[i] == parts[1..][i - 1];
    }
  }

  datatype Tab = LyricsTab | TranslationTab

  datatype Editor = Editor(lyrics: string, translation: string, error: string, activeTab: Tab)

  function ActiveText(e: Editor): string {
    if e.activeTab == LyricsTab then e.lyrics else e.translation
  }

  /**
   * Opening the dialog: both texts are the formatted current texts (a missing
   * text counts as empty), the error is cleared and the active tab is kept.
   */
  function Open(e: Editor, currentLyrics: string, currentTranslation: string): (o: Editor)
    ensures o.activeTab == e.activeTab && o.error == ""
    ensures currentLyrics == "" ==> o.lyrics == ""
    ensures currentTranslation == "" ==> o.translation == ""
    ensures o.lyrics == FormatLyrics(currentLyrics) && o.translation == FormatLyrics(currentTranslation)
  {
    Editor(FormatLyrics(currentLyrics), FormatLyrics(currentTranslation), "", e.activeTab)
  }

  /** The format button formats the active tab's text and leaves the other one and the error alone. */
  function FormatActive(e: Editor): (o: Editor)
    ensures o.activeTab == e.activeTab && o.error == e.error
    ensures ActiveText(o) == FormatLyrics(ActiveText(e))
    ensures e.activeTab == LyricsTab ==> o.translation == e.translation
    ensures e.activeTab == TranslationTab ==> o.lyrics == e.lyrics
  {
    if e.activeTab == LyricsTab then e.(lyrics := FormatLyrics(e.lyrics))
    else e.(translation := FormatLyrics(e.translation))
  }

  /**
   * A request the dialog sends: `api.lyrics.saveLyrics` posts the lyrics of
   * a track to `/lyrics/{id}/lyrics`, `api.lyrics.saveTranslationLyrics` the
   * translation to `/lyrics/{id}/tlyrics`, each as `{lyrics: text}`.
   */
  datatype SaveRequest = SaveLyricsRequest(musicId: string, lyrics: string)
                       | SaveTranslationRequest(musicId: string, translation: string)

  /** Requests sent, the error shown and whether the dialog closed (after `onSave`). */
  datatype SaveOutcome = SaveOutcome(requests: seq<SaveRequest>, error: string, closed: bool)

  const IncompleteMusic := "音乐信息不完整"
  const SaveFailed := "保存失败，请重试"

  /**
   * `handleSave` as written: it calls `api.musics.saveLyrics`, which the
   * API object does not have (the lyrics calls live under `api.lyrics`).
   * Calling the undefined member throws a TypeError before any request, the
   * `catch` shows the retry message, and the translation is never sent.
   */
  function HandleSaveAsWritten(musicId: string, lyrics: string, translation: string): (o: SaveOutcome)
    ensures o.requests == [] && !o.closed
    ensures o.error == (if musicId == "" then IncompleteMusic else SaveFailed)
  {
    if musicId == "" then SaveOutcome([], IncompleteMusic, false)
    else SaveOutcome([], SaveFailed, false)
  }

  /**
   * The dialog as written never saves: for every track with an id, however
   * the server would answer, the dialog stays open with the retry message,
   * while the corrected save closes it once the server accepts.
   */
  lemma SaveAlwaysFails(musicId: string, lyrics: string, translation: string)
    requires musicId != ""
    ensures HandleSaveAsWritten(musicId, lyrics, translation) == SaveOutcome([], SaveFailed, false)
    ensures HandleSave(musicId, lyrics, translation, true, true).closed
    ensures HandleSave(musicId, lyrics, translation, true, true).requests[0] == SaveLyricsRequest(musicId, lyrics)
  {
  }

  /**
   * `handleSave`, calling `api.lyrics.saveLyrics(music.id, lyrics)`: a music
   * without id sends nothing; otherwise the lyrics are saved, then the
   * translation when it is non-empty; any failure keeps the dialog open
   * with the retry message, and success closes it.
   */
  function HandleSave(musicId: string, lyrics: string, translation: string,
                      lyricsSaved: bool, translationSaved: bool): (o: SaveOutcome)
    ensures musicId == "" ==> o.requests == [] && o.error == IncompleteMusic && !o.closed
    ensures musicId != "" ==> |o.requests| >= 1 && o.requests[0] == SaveLyricsRequest(musicId, lyrics)
    ensures SaveTranslationRequest(musicId, translation) in o.requests <==>
              musicId != "" && lyricsSaved && translation != ""
    ensures |o.requests| <= 2
    ensures o.closed <==> musicId != "" && lyricsSaved && (translation == "" || translationSaved)
    ensures o.closed <==> o.error == ""
    ensures musicId != "" && !o.closed ==> o.error == SaveFailed
  {
    if musicId == "" then SaveOutcome([], IncompleteMusic, false)
    else if !lyricsSaved then SaveOutcome([SaveLyricsRequest(musicId, lyrics)], SaveFailed, false)
    else if translation == "" then SaveOutcome([SaveLyricsRequest(musicId, lyrics)], "", true)
    else
      var reqs := [SaveLyricsRequest(musicId, lyrics), SaveTranslationRequest(musicId, translation)];
      if translationSaved then SaveOutcome(reqs, "", true) else SaveOutcome(reqs, SaveFailed, false)
  }
}
