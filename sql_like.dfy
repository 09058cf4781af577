/**
 * The `LIKE` operator of SQLite, the default database, without an ESCAPE
 * clause: `%` stands for any run of characters, `_` for any one character,
 * and every other character matches itself ignoring ASCII case (SQLite
 * folds only the 26 ASCII letters). The handlers search with the pattern
 * `%q%` built from the user's text, so the text's own `%` and `_` act as
 * wildcards too.
 */
module SqlLike {
  import opened Text

  /** `s LIKE p`; a pattern without `%` only matches text of its own length. */
  predicate Like(p: string, s: string): (b: bool)
    ensures b && '%' !in p ==> |s| == |p|
    decreases |p| + |s|
  {
    if p == [] then s == []
    else if p[0] == '%' then Like(p[1..], s) || (s != [] && Like(p, s[1..]))
    else s != [] && (p[0] == '_' || AsciiFold(p[0]) == AsciiFold(s[0])) && Like(p[1..], s[1..])
  }

  /** A pattern without wildcards: it only matches text equal to it up to ASCII case. */
  predicate Literal(q: string) {
    forall i :: 0 <= i < |q| ==> q[i] != '%' && q[i] != '_'
  }

  /** The search condition `col LIKE '%' + q + '%'`; an empty search text keeps every value. */
  predicate Search(col: string, q: string): (b: bool)
    ensures q == [] ==> b
  {
    assert q == [] ==> "%" + q + "%" == "%%" && "%%"[1..] == "%";
    PercentMatchesAll(col);
    Like("%" + q + "%", col)
  }

  /** The slice of `s` at `i` is `q` up to ASCII case. */
  predicate FoldedAt(s: string, q: string, i: int) {
    0 <= i <= |s| - |q| && AsciiEqualIgnoreCase(s[i..i + |q|], q)
  }

  /** `s` has a slice equal to `q` up to ASCII case. */
  ghost predicate ContainsFolded(s: string, q: string) {
    exists i :: FoldedAt(s, q, i)
  }

  /** A lone `%` matches every text. */
  lemma {:induction false} PercentMatchesAll(s: string)
    ensures Like("%", s)
    decreases |s|
  {
    assert "%"[1..] == [];
    if s != [] {
      PercentMatchesAll(s[1..]);
    }
  }

  /** A leading `%` matches when the rest matches some suffix, and only then. */
  lemma {:induction false} LeadingPercent(r: string, s: string)
    ensures Like("%" + r, s) <==> exists i :: 0 <= i <= |s| && Like(r, s[i..])
    decreases |s|
  {
    var p := "%" + r;
    assert p[1..] == r;
    assert s[0..] == s;
    if s != [] {
      LeadingPercent(r, s[1..]);
      if Like(p, s[1..]) {
        var i :| 0 <= i <= |s[1..]| && Like(r, s[1..][i..]);
        assert s[1..][i..] == s[i + 1..];
      }
      if exists i :: 0 <= i <= |s| && Like(r, s[i..]) {
        var i :| 0 <= i <= |s| && Like(r, s[i..]);
        if i > 0 {
          assert s[1..][i - 1..] == s[i..];
        }
      }
    }
  }

  /** A wildcard-free head matches exactly the same number of characters, equal up to case. */
  lemma {:induction false} LiteralHead(q: string, r: string, s: string)
    requires Literal(q)
    ensures Like(q + r, s) <==>
      |q| <= |s| && AsciiEqualIgnoreCase(s[..|q|], q) && Like(r, s[|q|..])
    decreases |q|
  {
    if q == [] {
      assert q + r == r;
    } else {
      var p := q + r;
      assert p[0] == q[0] && p[1..] == q[1..] + r;
      if s != [] {
        LiteralHead(q[1..], r, s[1..]);
        if |q| <= |s| {
          assert s[1..][..|q| - 1] == s[..|q|][1..];
          assert s[1..][|q| - 1..] == s[|q|..];
          assert AsciiEqualIgnoreCase(s[..|q|], q) <==>
            AsciiFold(s[0]) == AsciiFold(q[0]) && AsciiEqualIgnoreCase(s[1..][..|q| - 1], q[1..]) by {
            assert forall i :: 1 <= i < |q| ==> s[..|q|][i] == s[1..][..|q| - 1][i - 1];
          }
        }
      }
    }
  }

  /**
   * For a search text without `%` or `_`, the handlers' condition keeps
   * exactly the values that contain the text, ignoring ASCII case.
   */
  lemma SearchIsFoldedContains(col: string, q: string)
    requires Literal(q)
    ensures Search(col, q) <==> ContainsFolded(col, q)
  {
    assert "%" + q + "%" == "%" + (q + "%");
    LeadingPercent(q + "%", col);
    if Search(col, q) {
      var i :| 0 <= i <= |col| && Like(q + "%", col[i..]);
      LiteralHead(q, "%", col[i..]);
      assert col[i..][..|q|] == col[i..i + |q|];
      assert FoldedAt(col, q, i);
    }
    if ContainsFolded(col, q) {
      var i :| FoldedAt(col, q, i);
      assert col[i..][..|q|] == col[i..i + |q|];
      PercentMatchesAll(col[i..][|q|..]);
      LiteralHead(q, "%", col[i..]);
    }
  }

  /** The search ignores ASCII case: `beat` finds `The BEATLES`, by the slice at 4. */
  lemma SearchIgnoresCase(col: string, q: string)
    requires col == "The BEATLES" && q == "beat"
    ensures Search(col, q)
  {
    assert FoldedAt(col, q, 4);
    SearchIsFoldedContains(col, q);
  }

  /** A search for `_` is a wildcard: it keeps every non-empty value, whether or not it has an underscore. */
  lemma {:induction false} UnderscoreSearchMatchesAny(col: string)
    ensures Search(col, "_") <==> col != []
  {
    assert "%" + "_" + "%" == "%" + "_%";
    LeadingPercent("_%", col);
    if col != [] {
      var s := col[0..];
      assert "_%"[1..] == "%";
      PercentMatchesAll(s[1..]);
      assert Like("_%", s);
    }
    if Search(col, "_") {
      var i :| 0 <= i <= |col| && Like("_%", col[i..]);
    }
  }
}
