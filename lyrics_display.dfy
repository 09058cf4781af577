/**
 * The LRC reader of the lyrics panel (frontend/src/components/common/LyricsDisplay.jsx):
 * splitting the lyrics text into lines, recognising `[mm:ss.xx]` time tags with the
 * panel's regular expression, producing one timed line per tag, ordering them by time,
 * locating the line that is active at the current playback time, and the display rules
 * that follow from the active line.
 *
 * Times are whole milliseconds; the panel's `m * 60 + s + ms / 1000` seconds value is
 * that number divided by 1000.
 */
module LyricsDisplay {
  import opened Wrappers
  import opened Text

  /** One timed lyric line: start time in milliseconds and the line's text. */
  datatype LyricLine = LyricLine(time: nat, text: string)

  /** A time tag found at some position: its time and the index just past its `]`. */
  datatype TagMatch = TagMatch(time: nat, end: nat)

  /** The end of the run of decimal digits that starts at `i`. */
  function DigitRunEnd(s: string, i: nat): (k: nat)
    requires i <= |s|
    ensures i <= k <= |s|
    ensures AllDigits(s[i..k])
    ensures k == |s| || !IsDigit(s[k])
    decreases |s| - i
  {
    if i < |s| && IsDigit(s[i]) then
      var k := DigitRunEnd(s, i + 1);
      assert s[i..k] == [s[i]] + s[i + 1..k];
      k
    else i
  }

  predicate DigitsAt(s: string, i: nat, n: nat) {
    i + n <= |s| && AllDigits(s[i..i + n])
  }

  /**
   * What follows `[mm:ss` in the pattern `\.?(\d{2,3})?\]`, tried in the regular
   * expression's backtracking order: optional dot, then three digits, two digits or
   * none, then `]`. Gives the fraction in milliseconds (two digits are hundredths,
   * padded to three on the right) and the index after `]`.
   */
  function FractionAt(s: string, p: nat): (r: Option<(nat, nat)>)
    requires p <= |s|
    ensures r.Some? ==> p < r.value.1 <= |s| && r.value.0 < 1000
  {
    var q := if p < |s| && s[p] == '.' then p + 1 else p;
    if DigitsAt(s, q, 3) && q + 3 < |s| && s[q + 3] == ']' then
      DecimalBound(s[q..q + 3]);
      Some((DecimalValue(s[q..q + 3]), q + 4))
    else if DigitsAt(s, q, 2) && q + 2 < |s| && s[q + 2] == ']' then
      DecimalBound(s[q..q + 2]);
      Some((DecimalValue(s[q..q + 2]) * 10, q + 3))
    else if q < |s| && s[q] == ']' then
      Some((0, q + 1))
    else
      None
  }

  lemma DecimalBound(s: string)
    requires AllDigits(s)
    ensures DecimalValue(s) < Pow10(|s|)
  {
    if s != [] {
      DecimalBound(s[..|s| - 1]);
    }
  }

  function Pow10(n: nat): nat {
    if n == 0 then 1 else 10 * Pow10(n - 1)
  }

  /**
   * A match of `\[(\d{2,}):(\d{2})\.?(\d{2,3})?\]` starting exactly at `i`: at least two
   * minute digits (the whole digit run, since a colon must follow it), exactly two
   * second digits, then the fraction part.
   */
  function TagAt(s: string, i: nat): (m: Option<TagMatch>)
    requires i <= |s|
    ensures m.Some? ==> i + 7 <= m.value.end <= |s|
  {
    if i < |s| && s[i] == '[' then
      var k := DigitRunEnd(s, i + 1);
      if k - (i + 1) >= 2 && k + 2 < |s| && s[k] == ':' && DigitsAt(s, k + 1, 2) then
        var seconds := DecimalValue(s[i + 1..k]) * 60 + DecimalValue(s[k + 1..k + 3]);
        match FractionAt(s, k + 3)
        case Some(f) => Some(TagMatch(seconds * 1000 + f.0, f.1))
        case None => None
      else None
    else None
  }

  /**
   * The times of all tags of `s[i..]`, found left to right without overlap (`matchAll`);
   * every tag takes at least the seven characters of `[mm:ss]`.
   */
  function TagTimes(s: string, i: nat): (r: seq<nat>)
    requires i <= |s|
    ensures 7 * |r| <= |s| - i
    decreases |s| - i
  {
    if i == |s| then []
    else match TagAt(s, i)
      case Some(m) => [m.time] + TagTimes(s, m.end)
      case None => TagTimes(s, i + 1)
  }

  /** `s[i..]` with every tag removed (`replace` with the same global pattern): never longer. */
  function StripTags(s: string, i: nat): (r: string)
    requires i <= |s|
    ensures |r| <= |s| - i
    decreases |s| - i
  {
    if i == |s| then []
    else match TagAt(s, i)
      case Some(m) => StripTags(s, m.end)
      case None => [s[i]] + StripTags(s, i + 1)
  }

  const MetadataKeys: seq<string> := ["ti", "ar", "al", "by", "offset", "id"]

  /** `/^\[(ti|ar|al|by|offset|id):/i`: an ID tag such as `[ar:Someone]`, any letter case. */
  predicate IsMetadataLine(line: string) {
    |line| >= 1 && line[0] == '['
    && exists k :: 0 <= k < |MetadataKeys| && IsKeyAt(line, MetadataKeys[k])
  }

  predicate IsKeyAt(line: string, key: string) {
    1 + |key| < |line| && AsciiEqualIgnoreCase(line[1..1 + |key|], key) && line[1 + |key|] == ':'
  }

  /**
   * The entries of one line: none for a blank line, an ID tag line, a line without time
   * tags or a line whose text is blank once the tags are removed; otherwise one entry
   * per tag, in the order of the tags, all with the same trimmed text.
   */
  function LineEntries(line: string): (r: seq<LyricLine>)
    ensures TrimJs(line) == [] || IsMetadataLine(line) ==> r == []
    ensures r != [] ==> |r| == |TagTimes(line, 0)|
    ensures forall k :: 0 <= k < |r| ==> r[k].time == TagTimes(line, 0)[k]
    ensures forall k :: 0 <= k < |r| ==> r[k].text != [] && r[k].text == r[0].text
    ensures var text := TrimJs(StripTags(line, 0));
      TrimJs(line) != [] && !IsMetadataLine(line) && text != [] ==>
        |r| == |TagTimes(line, 0)| && forall k :: 0 <= k < |r| ==> r[k].text == text
  {
    if TrimJs(line) == [] || IsMetadataLine(line) then []
    else
      var times := TagTimes(line, 0);
      var text := TrimJs(StripTags(line, 0));
      if times == [] || text == [] then []
      else seq(|times|, k requires 0 <= k < |times| => LyricLine(times[k], text))
  }

  /** The entries of all lines, in line order (before sorting); each has a non-blank text. */
  function Entries(lines: seq<string>): (r: seq<LyricLine>)
    ensures forall k :: 0 <= k < |r| ==> r[k].text != []
  {
    if lines == [] then [] else Entries(lines[..|lines| - 1]) + LineEntries(lines[|lines| - 1])
  }

  /** The unsorted entries of a lyrics text; an empty text has none. */
  function RawEntries(lyrics: string): seq<LyricLine> {
    if lyrics == [] then [] else Entries(Split(lyrics, '\n'))
  }

  /** Inserts `x` before the first entry whose time is not smaller: a stable insertion step. */
  function Insert(x: LyricLine, s: seq<LyricLine>): (r: seq<LyricLine>)
    ensures |r| == |s| + 1
  {
    if s == [] || x.time <= s[0].time then [x] + s else [s[0]] + Insert(x, s[1..])
  }

  /** A stable sort by time, as `Array.prototype.sort` with `(a, b) => a.time - b.time`. */
  function SortByTime(s: seq<LyricLine>): (r: seq<LyricLine>)
    ensures |r| == |s|
  {
    if s == [] then [] else Insert(s[0], SortByTime(s[1..]))
  }

  /**
   * What `parseLyrics` returns for a lyrics text: its timed entries ordered by
   * time, every entry kept, entries of one time in their order in the text.
   */
  function ParsedLyrics(lyrics: string): (r: seq<LyricLine>)
    ensures SortedByTime(r)
    ensures multiset(r) == multiset(RawEntries(lyrics))
    ensures forall t :: WithTime(r, t) == WithTime(RawEntries(lyrics), t)
  {
    SortByTimeProperties(RawEntries(lyrics));
    SortByTime(RawEntries(lyrics))
  }

  predicate SortedByTime(s: seq<LyricLine>) {
    forall i, j :: 0 <= i < j < |s| ==> s[i].time <= s[j].time
  }

  /** The entries of `s` whose time is `t`, in their order in `s`. */
  function WithTime(s: seq<LyricLine>, t: nat): seq<LyricLine> {
    if s == [] then []
    else (if s[0].time == t then [s[0]] else []) + WithTime(s[1..], t)
  }

  lemma {:induction false} InsertMultiset(x: LyricLine, s: seq<LyricLine>)
    ensures multiset(Insert(x, s)) == multiset{x} + multiset(s)
  {
    if s != [] && x.time > s[0].time {
      InsertMultiset(x, s[1..]);
      assert s == [s[0]] + s[1..];
    }
  }

  lemma {:induction false} InsertSorted(x: LyricLine, s: seq<LyricLine>)
    requires SortedByTime(s)
    ensures SortedByTime(Insert(x, s))
  {
    if s != [] && x.time > s[0].time {
      InsertSorted(x, s[1..]);
      InsertAbove(x, s[1..], s[0].time);
      ConsSorted(s[0], Insert(x, s[1..]));
    }
  }

  /** A lower bound of `x` and of every entry of `s` bounds every entry after the insertion. */
  lemma {:induction false} InsertAbove(x: LyricLine, s: seq<LyricLine>, lo: nat)
    requires lo <= x.time && forall i :: 0 <= i < |s| ==> lo <= s[i].time
    ensures forall i :: 0 <= i < |Insert(x, s)| ==> lo <= Insert(x, s)[i].time
  {
    if s != [] && x.time > s[0].time {
      InsertAbove(x, s[1..], lo);
    }
  }

  lemma ConsSorted(h: LyricLine, r: seq<LyricLine>)
    requires SortedByTime(r) && forall i :: 0 <= i < |r| ==> h.time <= r[i].time
    ensures SortedByTime([h] + r)
  {
  }

  lemma {:induction false} InsertWithTime(x: LyricLine, s: seq<LyricLine>, t: nat)
    ensures WithTime(Insert(x, s), t) == (if x.time == t then [x] else []) + WithTime(s, t)
  {
    var mine: seq<LyricLine> := if x.time == t then [x] else [];
    if s == [] || x.time <= s[0].time {
      var u := [x] + s;
      assert Insert(x, s) == u;
      assert u[0] == x && u[1..] == s;
      assert WithTime(u, t) == mine + WithTime(s, t);
    } else {
      var r := Insert(x, s[1..]);
      var head: seq<LyricLine> := if s[0].time == t then [s[0]] else [];
      InsertWithTime(x, s[1..], t);
      var u := [s[0]] + r;
      assert Insert(x, s) == u;
      assert u[0] == s[0] && u[1..] == r;
      assert WithTime(u, t) == head + (mine + WithTime(s[1..], t));
      assert WithTime(s, t) == head + WithTime(s[1..], t);
      assert head == [] || mine == [];
    }
  }

  /**
   * Sorting by time orders the entries, keeps each of them, and keeps entries with
   * equal times in their original order.
   */
  lemma {:induction false} SortByTimeProperties(s: seq<LyricLine>)
    ensures SortedByTime(SortByTime(s))
    ensures multiset(SortByTime(s)) == multiset(s)
    ensures forall t :: WithTime(SortByTime(s), t) == WithTime(s, t)
  {
    if s != [] {
      SortByTimeProperties(s[1..]);
      InsertSorted(s[0], SortByTime(s[1..]));
      InsertMultiset(s[0], SortByTime(s[1..]));
      forall t ensures WithTime(SortByTime(s), t) == WithTime(s, t) {
        InsertWithTime(s[0], SortByTime(s[1..]), t);
      }
      assert s == [s[0]] + s[1..];
    }
  }

  /** Pushes one entry per tag time, all carrying `text` (the inner `forEach` of `parseLyrics`). */
  method PushEntries(collected: seq<LyricLine>, times: seq<nat>, text: string) returns (r: seq<LyricLine>)
    ensures r == collected + seq(|times|, j requires 0 <= j < |times| => LyricLine(times[j], text))
  {
    r := collected;
    var k := 0;
    while k < |times|
      invariant 0 <= k <= |times|
      invariant r == collected + seq(k, j requires 0 <= j < k => LyricLine(times[j], text))
    {
      r := r + [LyricLine(times[k], text)];
      k := k + 1;
    }
  }

  /**
   * The loop of `parseLyrics`: every line is read in order, each tag of a lyric line
   * pushes one entry, and the collected entries are sorted by time.
   */
  method ParseLyrics(lyrics: string) returns (parsed: seq<LyricLine>)
    ensures parsed == ParsedLyrics(lyrics)
    ensures SortedByTime(parsed)
    ensures multiset(parsed) == multiset(RawEntries(lyrics))
    ensures forall t :: WithTime(parsed, t) == WithTime(RawEntries(lyrics), t)
  {
    var collected: seq<LyricLine> := [];
    if lyrics != [] {
      var lines := Split(lyrics, '\n');
      var i := 0;
      while i < |lines|
        invariant 0 <= i <= |lines|
        invariant collected == Entries(lines[..i])
      {
        var line := lines[i];
        assert lines[..i + 1][..i] == lines[..i];
        if TrimJs(line) != [] && !IsMetadataLine(line) {
          var times := TagTimes(line, 0);
          var text := TrimJs(StripTags(line, 0));
          if times != [] && text != [] {
            collected := PushEntries(collected, times, text);
          }
        }
        i := i + 1;
      }
      assert lines[..|lines|] == lines;
    }
    SortByTimeProperties(collected);
    parsed := SortByTime(collected);
  }

  /** A zero-padded decimal field of at least `width` digits. */
  function Field(n: nat, width: nat): (s: string)
    ensures AllDigits(s) && |s| >= width && DecimalValue(s) == n
  {
    var d := NatToString(n);
    if |d| >= width then d
    else
      LeadingZeros(width - |d|, d);
      seq(width - |d|, _ => '0') + d
  }

  lemma {:induction false} LeadingZeros(z: nat, d: string)
    requires AllDigits(d)
    ensures AllDigits(seq(z, _ => '0') + d)
    ensures DecimalValue(seq(z, _ => '0') + d) == DecimalValue(d)
    decreases z + |d|
  {
    var s := seq(z, _ => '0') + d;
    assert AllDigits(s) by {
      forall i | 0 <= i < |s| ensures IsDigit(s[i]) {
        if i >= z { assert s[i] == d[i - z]; }
      }
    }
    if d == [] {
      if z > 0 {
        LeadingZeros(z - 1, d);
        assert s[..|s| - 1] == seq(z - 1, _ => '0') + d;
        assert s[|s| - 1] == '0';
      }
    } else {
      var front := d[..|d| - 1];
      LeadingZeros(z, front);
      assert s[..|s| - 1] == seq(z, _ => '0') + front;
      assert s[|s| - 1] == d[|d| - 1];
    }
  }

  lemma ShortNumeral(n: nat, width: nat)
    requires 1 <= width <= 3 && n < Pow10(width)
    ensures |NatToString(n)| <= width
  {
    if n >= 10 {
      assert n / 10 < 10 || (n / 10 < 100 && n / 100 < 10);
    }
  }

  /**
   * The `[mm:ss.xxx]` tag of a time in milliseconds: minutes of at least two digits,
   * seconds below 60 in two digits, milliseconds in three.
   */
  function FormatTag(t: nat): (r: string)
    ensures |r| >= 11 && r[0] == '[' && r[|r| - 1] == ']'
  {
    TagText(t / 60000, t / 1000 % 60, t % 1000)
  }

  function TagText(minutes: nat, seconds: nat, millis: nat): string {
    "[" + Field(minutes, 2) + ":" + Field(seconds, 2) + "." + Field(millis, 3) + "]"
  }

  lemma {:induction false} DigitRunEndAt(s: string, i: nat, j: nat)
    requires i <= j <= |s| && AllDigits(s[i..j]) && (j == |s| || !IsDigit(s[j]))
    ensures DigitRunEnd(s, i) == j
    decreases j - i
  {
    if i < j {
      assert IsDigit(s[i..j][0]);
      assert s[i + 1..j] == s[i..j][1..];
      DigitRunEndAt(s, i + 1, j);
    }
  }

  /** A well-formed `[mm:ss.xxx]` tag at the start of `s` is recognised in full. */
  lemma TagOfFields(s: string, k: nat)
    requires 3 <= k && k + 8 <= |s| && s[0] == '['
    requires AllDigits(s[1..k]) && s[k] == ':' && DigitsAt(s, k + 1, 2)
    requires s[k + 3] == '.' && DigitsAt(s, k + 4, 3) && s[k + 7] == ']'
    ensures TagAt(s, 0) == Some(TagMatch(
      Millis(DecimalValue(s[1..k]), DecimalValue(s[k + 1..k + 3]), DecimalValue(s[k + 4..k + 7])), k + 8))
  {
    DigitRunEndAt(s, 1, k);
    var f: (nat, nat) := (DecimalValue(s[k + 4..k + 7]), k + 8);
    assert FractionAt(s, k + 3) == Some(f);
  }

  /** The time in milliseconds of minutes, seconds and milliseconds. */
  function Millis(minutes: nat, seconds: nat, millis: nat): nat {
    (minutes * 60 + seconds) * 1000 + millis
  }

  lemma SplitMilliseconds(t: nat)
    ensures Millis(t / 60000, t / 1000 % 60, t % 1000) == t
  {
    var sec := t / 1000;
    assert t == sec * 1000 + t % 1000;
    assert sec == sec / 60 * 60 + sec % 60;
    assert sec / 60 == t / 60000;
  }

  /** Where the minutes of a formatted tag sit. */
  lemma MinutesPlace(s: string, mm: string, ss: string, ms: string, rest: string)
    requires s == "[" + mm + ":" + ss + "." + ms + "]" + rest
    ensures |s| == |mm| + |ss| + |ms| + 4 + |rest|
    ensures s[0] == '[' && s[1..1 + |mm|] == mm && s[1 + |mm|] == ':'
  {
    var p := "[" + mm;
    assert s == p + (":" + ss + "." + ms + "]" + rest);
    assert s[..|p|] == p;
  }

  /** Where the seconds of a formatted tag sit. */
  lemma SecondsPlace(s: string, mm: string, ss: string, ms: string, rest: string)
    requires s == "[" + mm + ":" + ss + "." + ms + "]" + rest && |ss| == 2
    ensures s[2 + |mm|..4 + |mm|] == ss && s[4 + |mm|] == '.'
  {
    var p := "[" + mm + ":";
    assert s == p + (ss + "." + ms + "]" + rest);
    assert s[|p|..|p| + 2] == ss;
  }

  /** Where the milliseconds of a formatted tag sit. */
  lemma MillisPlace(s: string, mm: string, ss: string, ms: string, rest: string)
    requires s == "[" + mm + ":" + ss + "." + ms + "]" + rest && |ss| == 2 && |ms| == 3
    ensures s[5 + |mm|..8 + |mm|] == ms && s[8 + |mm|] == ']'
  {
    var p := "[" + mm + ":" + ss + ".";
    assert s == p + (ms + "]" + rest);
    assert s[|p|..|p| + 3] == ms;
  }

  lemma TagTextRead(minutes: nat, seconds: nat, millis: nat, t: nat, rest: string)
    requires seconds < 60 && millis < 1000 && t == Millis(minutes, seconds, millis)
    ensures TagAt(TagText(minutes, seconds, millis) + rest, 0)
      == Some(TagMatch(t, |TagText(minutes, seconds, millis)|))
  {
    var mm := Field(minutes, 2);
    var ss := Field(seconds, 2);
    var ms := Field(millis, 3);
    ShortNumeral(seconds, 2);
    ShortNumeral(millis, 3);
    var s := TagText(minutes, seconds, millis) + rest;
    FieldPlaces(s, mm, ss, ms, rest);
    TagOfPlaces(s, mm, ss, ms);
  }

  /** Where the fields of a formatted tag sit in the text. */
  lemma FieldPlaces(s: string, mm: string, ss: string, ms: string, rest: string)
    requires s == "[" + mm + ":" + ss + "." + ms + "]" + rest && |ss| == 2 && |ms| == 3
    ensures |mm| + 9 <= |s| && s[0] == '[' && s[1..1 + |mm|] == mm && s[1 + |mm|] == ':'
    ensures s[2 + |mm|..4 + |mm|] == ss && s[4 + |mm|] == '.'
    ensures s[5 + |mm|..8 + |mm|] == ms && s[8 + |mm|] == ']'
  {
    MinutesPlace(s, mm, ss, ms, rest);
    SecondsPlace(s, mm, ss, ms, rest);
    MillisPlace(s, mm, ss, ms, rest);
  }

  /** A text holding the fields of a tag in their places reads as the tag of those fields. */
  lemma TagOfPlaces(s: string, mm: string, ss: string, ms: string)
    requires AllDigits(mm) && AllDigits(ss) && AllDigits(ms) && |mm| >= 2
    requires |mm| + 9 <= |s| && s[0] == '[' && s[1..1 + |mm|] == mm && s[1 + |mm|] == ':'
    requires s[2 + |mm|..4 + |mm|] == ss && s[4 + |mm|] == '.'
    requires s[5 + |mm|..8 + |mm|] == ms && s[8 + |mm|] == ']'
    ensures TagAt(s, 0) == Some(TagMatch(Millis(DecimalValue(mm), DecimalValue(ss), DecimalValue(ms)), |mm| + 9))
  {
    TagOfFields(s, 1 + |mm|);
  }

  /** Reading back a formatted tag gives the time it was made from, for any text after it. */
  lemma FormatTagRoundTrip(t: nat, rest: string)
    ensures TagAt(FormatTag(t) + rest, 0) == Some(TagMatch(t, |FormatTag(t)|))
  {
    SplitMilliseconds(t);
    TagTextRead(t / 60000, t / 1000 % 60, t % 1000, t, rest);
  }

  lemma {:induction false} NoTagsWithoutBracket(s: string, j: nat)
    requires j <= |s|
    requires forall m :: j <= m < |s| ==> s[m] != '['
    ensures TagTimes(s, j) == [] && StripTags(s, j) == s[j..]
    decreases |s| - j
  {
    if j < |s| {
      NoTagsWithoutBracket(s, j + 1);
      assert s[j..] == [s[j]] + s[j + 1..];
    }
  }

  /** A line whose tag starts with a digit is not an ID tag line. */
  lemma DigitTagNotMetadata(line: string)
    requires |line| >= 2 && line[0] == '[' && IsDigit(line[1])
    ensures !IsMetadataLine(line)
  {
    forall k | 0 <= k < |MetadataKeys| ensures !IsKeyAt(line, MetadataKeys[k]) {
      var key := MetadataKeys[k];
      assert AsciiFold(key[0]) != AsciiFold(line[1]);
    }
  }

  /**
   * A line made of one formatted tag and a text without further tags yields exactly
   * one entry: the tag's time with the trimmed text.
   */
  lemma FormattedLineEntries(t: nat, text: string)
    requires '[' !in text && TrimJs(text) != []
    ensures LineEntries(FormatTag(t) + text) == [LyricLine(t, TrimJs(text))]
  {
    var line := FormatTag(t) + text;
    FormattedLineTags(t, text, line);
    FormattedLineHead(t, text, line);
    var times := TagTimes(line, 0);
    var entries := seq(|times|, k requires 0 <= k < |times| => LyricLine(times[k], TrimJs(text)));
    assert entries == [LyricLine(t, TrimJs(text))];
  }

  /** The tags of a formatted line: the one time, and the text once it is removed. */
  lemma FormattedLineTags(t: nat, text: string, line: string)
    requires '[' !in text && line == FormatTag(t) + text
    ensures TagTimes(line, 0) == [t] && StripTags(line, 0) == text
  {
    var n := |FormatTag(t)|;
    FormatTagRoundTrip(t, text);
    assert line[n..] == text;
    NoTagsWithoutBracket(line, n);
  }

  /** A formatted line starts with a bracket and a digit, so it is neither blank nor an ID tag. */
  lemma FormattedLineHead(t: nat, text: string, line: string)
    requires line == FormatTag(t) + text
    ensures TrimJs(line) != [] && !IsMetadataLine(line)
  {
    FormattedLineStart(t, text, line);
    DigitTagNotMetadata(line);
    assert !IsSpace(JsSpaces, line[0]);
  }

  lemma FormattedLineStart(t: nat, text: string, line: string)
    requires line == FormatTag(t) + text
    ensures |line| >= 2 && line[0] == '[' && IsDigit(line[1])
  {
    var mm := Field(t / 60000, 2);
    MinutesPlace(line, mm, Field(t / 1000 % 60, 2), Field(t % 1000, 3), text);
    assert IsDigit(line[1..1 + |mm|][0]);
  }

  /** A one-digit fraction is not a time tag: the line is dropped. */
  lemma OneDigitFractionDropped()
    ensures LineEntries("[00:01.5]x") == []
  {
    var s := "[00:01.5]x";
    OneDigitTagRejected();
    OnlyLeadingBracket();
    NoTagsWithoutBracket(s, 1);
    assert TagTimes(s, 0) == TagTimes(s, 1);
  }

  lemma OneDigitTagRejected()
    ensures TagAt("[00:01.5]x", 0) == None
  {
    DigitRunEndAt("[00:01.5]x", 1, 3);
  }

  lemma OnlyLeadingBracket()
    ensures forall m :: 1 <= m < |"[00:01.5]x"| ==> "[00:01.5]x"[m] != '['
  {
    assert "[00:01.5]x"[1..] == "00:01.5]x";
  }

  /** The dot is optional: `[00:0150]` is read as 1.5 seconds. */
  lemma FractionWithoutDot()
    ensures LineEntries("[00:0150]x") == [LyricLine(1500, "x")]
  {
    var s := "[00:0150]x";
    UndottedTag(s);
    NoTagsWithoutBracket(s, 9);
    assert s[9..] == "x";
    assert TagTimes(s, 0) == [1500];
    assert StripTags(s, 0) == "x";
    assert !IsJsSpace(s[0]);
    DigitTagNotMetadata(s);
    assert TrimJs("x") == "x" by { assert !IsJsSpace("x"[0]); }
  }

  lemma UndottedTag(s: string)
    requires s == "[00:0150]x"
    ensures TagAt(s, 0) == Some(TagMatch(1500, 9))
  {
    DigitRunEndAt(s, 1, 3);
    assert s[1..3] == "00" && s[4..6] == "01" && s[6..8] == "50";
    TwoDigits(s[1..3]);
    TwoDigits(s[4..6]);
    TwoDigits(s[6..8]);
    assert !DigitsAt(s, 6, 3) by { assert s[6..9][2] == ']'; }
    var f: (nat, nat) := (500, 9);
    assert FractionAt(s, 6) == Some(f);
  }

  lemma TwoDigits(s: string)
    requires |s| == 2 && AllDigits(s)
    ensures DecimalValue(s) == DigitValue(s[0]) * 10 + DigitValue(s[1])
  {
    var a := s[..1];
    assert a[..0] == [];
    assert DecimalValue(a) == DigitValue(a[0]);
    assert s[..|s| - 1] == a;
  }

  /** ID tags are not lyrics, whatever their letter case. */
  lemma MetadataLineDropped()
    ensures LineEntries("[AR:Someone]") == []
  {
    assert IsKeyAt("[AR:Someone]", MetadataKeys[1]);
  }

  /** The length of the longest prefix of `s` whose lines have started by `now`. */
  function StartedPrefix(s: seq<LyricLine>, now: real): (n: nat)
    ensures n <= |s|
    ensures forall j :: 0 <= j < n ==> s[j].time as real <= now
    ensures n < |s| ==> s[n].time as real > now
  {
    if s == [] || s[0].time as real > now then 0
    else 1 + StartedPrefix(s[1..], now)
  }

  /** The index the panel highlights at playback time `now` (milliseconds), or -1. */
  function ActiveIndex(s: seq<LyricLine>, now: real): (idx: int)
    ensures -1 <= idx < |s|
    ensures forall j :: 0 <= j <= idx ==> s[j].time as real <= now
    ensures idx + 1 < |s| ==> s[idx + 1].time as real > now
  {
    StartedPrefix(s, now) - 1
  }

  /**
   * Effect ③ of the panel: scan the lines in order, remember the last one that has
   * started, stop at the first that has not.
   */
  method LocateLine(parsed: seq<LyricLine>, now: real) returns (idx: int)
    ensures idx == ActiveIndex(parsed, now)
    ensures -1 <= idx < |parsed|
  {
    idx := -1;
    var i := 0;
    while i < |parsed|
      invariant 0 <= i <= |parsed|
      invariant idx == i - 1
      invariant forall j :: 0 <= j < i ==> parsed[j].time as real <= now
    {
      if now >= parsed[i].time as real {
        idx := i;
      } else {
        break;
      }
      i := i + 1;
    }
    StartedPrefixIs(parsed, now, idx + 1);
  }

  lemma {:induction false} StartedPrefixIs(s: seq<LyricLine>, now: real, n: nat)
    requires n <= |s|
    requires forall j :: 0 <= j < n ==> s[j].time as real <= now
    requires n < |s| ==> s[n].time as real > now
    ensures StartedPrefix(s, now) == n
  {
    if n > 0 {
      StartedPrefixIs(s[1..], now, n - 1);
    }
  }

  /**
   * On time-ordered lines the highlighted line is the last one that has started:
   * every line up to it has started and none after it has.
   */
  lemma ActiveIndexSorted(s: seq<LyricLine>, now: real)
    requires SortedByTime(s)
    ensures var idx := ActiveIndex(s, now);
      (forall j :: 0 <= j <= idx ==> s[j].time as real <= now)
      && (forall j :: idx < j < |s| ==> s[j].time as real > now)
  {
    var n := StartedPrefix(s, now);
    if n < |s| {
      forall j | n < j < |s| ensures s[j].time as real > now {
        assert s[n].time <= s[j].time;
      }
    }
  }

  /** As playback advances the highlight never moves backwards. */
  lemma {:induction false} ActiveIndexMonotone(s: seq<LyricLine>, now1: real, now2: real)
    requires now1 <= now2
    ensures ActiveIndex(s, now1) <= ActiveIndex(s, now2)
  {
    if s != [] && s[0].time as real <= now1 {
      ActiveIndexMonotone(s[1..], now1, now2);
    }
  }

  /** Two lines with the same time: the later of them is highlighted once that time is reached. */
  lemma TiedLinesHighlightLast()
    ensures ActiveIndex([LyricLine(0, "Line1"), LyricLine(5000, "Line2"), LyricLine(5000, "Line2b")], 5000.0) == 2
  {
  }

  /** The panel's state: the parsed lines and the highlighted index. */
  class LyricsView {
    var parsedLyrics: seq<LyricLine>
    var currentLineIndex: int

    /** `useState([])` and `useState(-1)`. */
    constructor ()
      ensures parsedLyrics == [] && currentLineIndex == -1
    {
      parsedLyrics := [];
      currentLineIndex := -1;
    }

    /**
     * New lyrics: effect ② stores the parsed lines, then effect ③ runs for them.
     * With no lines effect ③ returns early and the old index stays.
     */
    method SetLyrics(lyrics: string, now: real)
      modifies this
      ensures parsedLyrics == ParsedLyrics(lyrics)
      ensures parsedLyrics == [] ==> currentLineIndex == old(currentLineIndex)
      ensures parsedLyrics != [] ==> currentLineIndex == ActiveIndex(parsedLyrics, now)
    {
      parsedLyrics := ParseLyrics(lyrics);
      Tick(now);
    }

    /** A new playback time: effect ③ alone. */
    method Tick(now: real)
      modifies this
      ensures parsedLyrics == old(parsedLyrics)
      ensures parsedLyrics == [] ==> currentLineIndex == old(currentLineIndex)
      ensures parsedLyrics != [] ==> currentLineIndex == ActiveIndex(parsedLyrics, now)
    {
      if |parsedLyrics| == 0 {
        return;
      }
      currentLineIndex := LocateLine(parsedLyrics, now);
    }
  }

  /** The scroll request of effect ④. */
  datatype Scroll = Stay | JumpToTop | GlideTo(top: real)

  /**
   * Effect ④: no container, nothing; no highlighted line, jump to the top; an unmounted
   * line, nothing; otherwise glide so that the line's middle meets the container's
   * middle, clamped to the scrollable range.
   */
  function ScrollTarget(hasContainer: bool, current: int, lineMounted: bool,
                        containerHeight: real, scrollHeight: real,
                        lineTop: real, lineHeight: real): (r: Scroll)
    ensures !hasContainer ==> r == Stay
    ensures hasContainer && current < 0 ==> r == JumpToTop
    ensures hasContainer && current >= 0 && !lineMounted ==> r == Stay
    ensures r.GlideTo? && scrollHeight >= containerHeight ==>
      0.0 <= r.top <= scrollHeight - containerHeight
    ensures r.GlideTo? ==> r.top <= scrollHeight - containerHeight
    ensures r.GlideTo? && 0.0 <= lineTop + lineHeight / 2.0 - containerHeight / 2.0 <= scrollHeight - containerHeight ==>
      r.top + containerHeight / 2.0 == lineTop + lineHeight / 2.0
    ensures hasContainer && current >= 0 && lineMounted ==> r.GlideTo?
  {
    if !hasContainer then Stay
    else if current < 0 then JumpToTop
    else if !lineMounted then Stay
    else
      var target := lineTop - containerHeight / 2.0 + lineHeight / 2.0;
      var low := if target > 0.0 then target else 0.0;
      var high := scrollHeight - containerHeight;
      GlideTo(if low < high then low else high)
  }

  /** Opacity of a line in percent, by its distance from the highlighted line. */
  function LineOpacity(index: int, current: int): (percent: nat)
    ensures percent == 100 <==> index == current
    ensures percent == 75 <==> (index == current + 1 || index == current - 1)
    ensures percent == 45 <==> (index == current + 2 || index == current - 2)
    ensures percent == 25 <==> (index > current + 2 || index < current - 2)
  {
    var distance := if index >= current then index - current else current - index;
    if distance == 0 then 100 else if distance == 1 then 75 else if distance == 2 then 45 else 25
  }

  /** Lines fade as they get further from the highlighted line. */
  lemma OpacityFades(current: int, near: int, far: int)
    requires current <= near <= far || far <= near <= current
    ensures LineOpacity(far, current) <= LineOpacity(near, current)
  {
  }

  /** Scale of a line in percent: only the highlighted line is enlarged. */
  function LineScale(index: int, current: int): (percent: nat)
    ensures percent == 125 <==> index == current
    ensures percent == 100 <==> index != current
  {
    if index == current then 125 else 100
  }
}
