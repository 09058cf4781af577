/**
 * Go's `path/filepath` on a Unix system, where the separator is `/` and there
 * are no volume names: `Ext`, `Base`, `Dir`, `Clean` and `Join`.
 */
module GoPath {
  import opened Text

  /**
   * `filepath.Ext`: the suffix from the last `.` of the final element, or ""
   * when the final element has no `.`.
   */
  function Ext(p: string): (e: string)
    ensures e != "" ==> EndsWith(p, e) && e[0] == '.' && '/' !in e && '.' !in e[1..]
    ensures e == "" ==> forall i :: 0 <= i < |p| && p[i] == '.' ==> '/' in p[i..]
    decreases |p|
  {
    if p == [] then ""
    else
      var c := p[|p| - 1];
      var front := p[..|p| - 1];
      if c == '/' then ""
      else if c == '.' then "."
      else
        var e := Ext(front);
        if e == "" then
          assert forall i :: 0 <= i < |front| ==> p[i..] == front[i..] + [c];
          ""
        else
          assert p[|p| - |e| - 1..] == e + [c];
          e + [c]
  }

  /** The path without its extension, then the extension, make up the path. */
  lemma ExtSplits(p: string)
    ensures TrimSuffix(p, Ext(p)) + Ext(p) == p
  {
  }

  /** A final element ending in `.` and a suffix free of `.` and `/` has that suffix as its extension. */
  lemma {:induction false} ExtOfSuffix(front: string, e: string)
    requires forall i :: 0 <= i < |e| ==> e[i] != '.' && e[i] != '/'
    ensures Ext(front + "." + e) == "." + e
    decreases |e|
  {
    var p := front + "." + e;
    if e != [] {
      var e' := e[..|e| - 1];
      assert p[..|p| - 1] == front + "." + e';
      ExtOfSuffix(front, e');
      assert "." + e' + [e[|e| - 1]] == "." + e;
    }
  }

  /** `p` without its trailing slashes. */
  function StripTrailingSlashes(p: string): (r: string)
    ensures |r| <= |p| && r == p[..|r|]
    ensures r == [] || r[|r| - 1] != '/'
    ensures forall i :: |r| <= i < |p| ==> p[i] == '/'
    decreases |p|
  {
    if p != [] && p[|p| - 1] == '/' then StripTrailingSlashes(p[..|p| - 1]) else p
  }

  /** The part of `p` after its last `/` (all of `p` when it has none). */
  function AfterLastSlash(p: string): (r: string)
    ensures '/' !in r && EndsWith(p, r)
    ensures |r| < |p| ==> p[|p| - |r| - 1] == '/'
  {
    var k := LastIndexOf(p, '/');
    var r := p[k + 1..];
    assert '/' !in r by {
      forall j | 0 <= j < |r| ensures r[j] != '/' {
        assert r[j] == p[k + 1 + j];
      }
    }
    assert EndsWith(p, r) by {
      assert p[|p| - |r|..] == r;
    }
    r
  }

  /**
   * `filepath.Base`: the last element after trailing slashes are removed;
   * "." for the empty path and "/" for a path of slashes only.
   */
  function Base(p: string): (b: string)
    ensures b != ""
    ensures b == "/" || '/' !in b
    ensures p == "" ==> b == "."
    ensures p != "" && '/' !in p ==> b == p
  {
    if p == "" then "."
    else
      var s := StripTrailingSlashes(p);
      var r := AfterLastSlash(s);
      if r == "" then "/" else r
  }

  /**
   * One element applied to the directory stack: an empty element and `.` change
   * nothing, `..` drops the last directory (kept at the root of a rooted path,
   * and stacked when there is nothing to drop), and a name is pushed.
   */
  function ResolveStep(seg: string, rooted: bool, stack: seq<string>): (r: seq<string>)
    requires forall i :: 0 <= i < |stack| ==> stack[i] != "" && '/' !in stack[i]
    requires '/' !in seg
    ensures forall i :: 0 <= i < |r| ==> r[i] != "" && '/' !in r[i]
  {
    if seg == "" || seg == "." then stack
    else if seg == ".." then
      (if |stack| > 0 && stack[|stack| - 1] != ".." then stack[..|stack| - 1]
       else if rooted then stack
       else stack + [".."])
    else stack + [seg]
  }

  /** The directory stack after the `..`, `.` and empty elements of `segs` are resolved. */
  function Resolve(segs: seq<string>, rooted: bool, stack: seq<string>): (r: seq<string>)
    requires forall i :: 0 <= i < |stack| ==> stack[i] != "" && '/' !in stack[i]
    requires forall i :: 0 <= i < |segs| ==> '/' !in segs[i]
    ensures forall i :: 0 <= i < |r| ==> r[i] != "" && '/' !in r[i]
    decreases |segs|
  {
    if segs == [] then stack
    else Resolve(segs[1..], rooted, ResolveStep(segs[0], rooted, stack))
  }

  /**
   * A resolved stack: no `.` element, no `..` in a rooted path, and in a
   * relative path the `..` elements come before every name.
   */
  predicate Resolved(stack: seq<string>, rooted: bool) {
    (forall i :: 0 <= i < |stack| ==> stack[i] != "." && (rooted ==> stack[i] != ".."))
    && forall i, j :: 0 <= i < j < |stack| && stack[j] == ".." ==> stack[i] == ".."
  }

  /** Resolving more elements onto a resolved stack leaves it resolved. */
  lemma {:induction false} ResolveResolved(segs: seq<string>, rooted: bool, stack: seq<string>)
    requires forall i :: 0 <= i < |stack| ==> stack[i] != "" && '/' !in stack[i]
    requires forall i :: 0 <= i < |segs| ==> '/' !in segs[i]
    requires Resolved(stack, rooted)
    ensures Resolved(Resolve(segs, rooted, stack), rooted)
    decreases |segs|
  {
    if segs != [] {
      var st := ResolveStep(segs[0], rooted, stack);
      assert Resolved(st, rooted) by {
        var n := |stack|;
        if segs[0] == ".." && !(n > 0 && stack[n - 1] != "..") && !rooted {
          assert st == stack + [".."];
          forall i, j | 0 <= i < j < |st| && st[j] == ".." ensures st[i] == ".." {
            if j < n { assert st[j] == stack[j]; } else { assert stack[n - 1] == ".."; }
          }
        }
      }
      ResolveResolved(segs[1..], rooted, st);
    }
  }

  /** Non-empty elements without `/`, joined by `/`: no doubled slash, none at either end. */
  lemma {:induction false} JoinPlain(parts: seq<string>)
    requires forall i :: 0 <= i < |parts| ==> parts[i] != "" && '/' !in parts[i]
    ensures var j := Join(parts, '/'); forall i :: 0 <= i < |j| - 1 ==> !(j[i] == '/' && j[i + 1] == '/')
    ensures var j := Join(parts, '/'); j != "" ==> j[0] != '/' && j[|j| - 1] != '/'
    ensures Join(parts, '/') == "" <==> parts == []
    decreases |parts|
  {
    if |parts| == 1 {
      assert parts[0][0] in parts[0] && parts[0][|parts[0]| - 1] in parts[0];
    } else if |parts| > 1 {
      JoinPlain(parts[1..]);
      var h, t := parts[0], Join(parts[1..], '/');
      var j := h + ['/'] + t;
      assert Join(parts, '/') == j;
      assert h[0] in h && t[|t| - 1] == j[|j| - 1];
      forall i | 0 <= i < |j| - 1 ensures !(j[i] == '/' && j[i + 1] == '/') {
        if i < |h| {
          assert j[i] == h[i] && h[i] in h;
        } else if i > |h| {
          assert j[i] == t[i - |h| - 1] && j[i + 1] == t[i - |h|];
        }
      }
    }
  }

  /** Joined non-empty elements start with the first element's first character. */
  lemma JoinHead(parts: seq<string>)
    requires |parts| > 0 && parts[0] != ""
    ensures Join(parts, '/') != "" && Join(parts, '/')[0] == parts[0][0]
  {
  }

  /**
   * `filepath.Clean`: the shortest equivalent path, by resolving `.` and `..`
   * lexically and dropping repeated and trailing slashes; "." when nothing is
   * left. The result is rooted exactly when the input is.
   */
  function Clean(p: string): (r: string)
    ensures r != ""
    ensures (r[0] == '/') <==> (|p| > 0 && p[0] == '/')
  {
    var rooted := |p| > 0 && p[0] == '/';
    var stack := Resolve(Split(p, '/'), rooted, []);
    var body := Join(stack, '/');
    assert |stack| > 0 ==> body != "" && body[0] == stack[0][0] by {
      if |stack| > 0 {
        JoinHead(stack);
      }
    }
    if rooted then "/" + body else if body == "" then "." else body
  }

  /** The text `Clean` assembles from a resolved stack. */
  predicate Assembled(r: string, rooted: bool, stack: seq<string>) {
    r == (if rooted then "/" + Join(stack, '/') else if Join(stack, '/') == "" then "." else Join(stack, '/'))
  }

  lemma AssembledSlashes(r: string, rooted: bool, stack: seq<string>)
    requires forall i :: 0 <= i < |stack| ==> stack[i] != "" && '/' !in stack[i]
    requires Assembled(r, rooted, stack)
    ensures r != ""
    ensures forall i :: 0 <= i < |r| - 1 ==> !(r[i] == '/' && r[i + 1] == '/')
    ensures r[|r| - 1] == '/' ==> r == "/"
  {
    var body := Join(stack, '/');
    JoinPlain(stack);
    if rooted {
      forall i | 0 <= i < |r| - 1 ensures !(r[i] == '/' && r[i + 1] == '/') {
        if i > 0 { assert r[i] == body[i - 1] && r[i + 1] == body[i]; }
        else if body != "" { assert r[1] == body[0]; }
      }
      if body != "" { assert r[|r| - 1] == body[|body| - 1]; }
    }
  }

  lemma AssembledElements(r: string, rooted: bool, stack: seq<string>)
    requires forall i :: 0 <= i < |stack| ==> stack[i] != "" && '/' !in stack[i]
    requires Resolved(stack, rooted)
    requires Assembled(r, rooted, stack)
    ensures var parts := Split(r, '/');
      (r != "." ==> forall i :: 0 <= i < |parts| ==> parts[i] != ".") &&
      (rooted ==> forall i :: 0 <= i < |parts| ==> parts[i] != "..") &&
      forall i, j :: 0 <= i < j < |parts| && parts[j] == ".." ==> parts[i] == ".."
  {
    var body := Join(stack, '/');
    JoinPlain(stack);
    var parts := Split(r, '/');
    if stack != [] {
      SplitJoin(stack, '/');
    }
    if rooted {
      SplitAtFirst("", '/', body);
      assert r == "" + ['/'] + body;
      if stack == [] {
        assert Split(body, '/') == [""];
      }
      assert parts == [""] + Split(body, '/');
    } else if body == "" {
      assert parts == ["."];
    } else {
      assert parts == stack;
    }
  }

  /**
   * What `Clean` leaves: no doubled slash, no trailing slash other than the root
   * itself, no `.` element other than the whole result ".", no `..` element in a
   * rooted path, and in a relative path only leading `..` elements.
   */
  lemma CleanIsClean(p: string)
    ensures var r := Clean(p);
      forall i :: 0 <= i < |r| - 1 ==> !(r[i] == '/' && r[i + 1] == '/')
    ensures var r := Clean(p); r[|r| - 1] == '/' ==> r == "/"
    ensures var r := Clean(p); var parts := Split(r, '/');
      r != "." ==> forall i :: 0 <= i < |parts| ==> parts[i] != "."
    ensures var r := Clean(p); var parts := Split(r, '/');
      r[0] == '/' ==> forall i :: 0 <= i < |parts| ==> parts[i] != ".."
    ensures var r := Clean(p); var parts := Split(r, '/');
      forall i, j :: 0 <= i < j < |parts| && parts[j] == ".." ==> parts[i] == ".."
  {
    var rooted := |p| > 0 && p[0] == '/';
    var stack := Resolve(Split(p, '/'), rooted, []);
    ResolveResolved(Split(p, '/'), rooted, []);
    assert Assembled(Clean(p), rooted, stack);
    AssembledSlashes(Clean(p), rooted, stack);
    AssembledElements(Clean(p), rooted, stack);
  }

  /** `filepath.Dir`: everything up to the last `/`, cleaned. */
  function Dir(p: string): (d: string)
    ensures d != ""
  {
    var k := LastIndexOf(p, '/');
    Clean(p[..k + 1])
  }

  /** `filepath.Join(a, b)`: the non-empty elements joined by `/` and cleaned; "" when both are empty. */
  function Join2(a: string, b: string): string {
    if a != "" then Clean(a + "/" + b) else if b != "" then Clean(b) else ""
  }

  /** `filepath.Join(a, b, c)`. */
  function Join3(a: string, b: string, c: string): string {
    if a != "" then Clean(a + "/" + b + "/" + c)
    else if b != "" then Clean(b + "/" + c)
    else Join2("", c)
  }
}
