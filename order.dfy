/**
 * The order of strings used by Go's `sort.Strings` and `<` on strings:
 * lexicographic on characters, a proper prefix first. On code points this is
 * the byte order of the UTF-8 encodings.
 */
module StringOrder {

  predicate Less(a: string, b: string)
    decreases |a|
  {
    if a == [] then b != []
    else if b == [] then false
    else if a[0] != b[0] then a[0] < b[0]
    else Less(a[1..], b[1..])
  }

  lemma {:induction false} LessIrreflexive(a: string)
    ensures !Less(a, a)
    decreases |a|
  {
    if a != [] {
      LessIrreflexive(a[1..]);
    }
  }

  lemma {:induction false} LessTransitive(a: string, b: string, c: string)
    requires Less(a, b) && Less(b, c)
    ensures Less(a, c)
    decreases |a|
  {
    if a != [] && b != [] && c != [] && a[0] == b[0] && b[0] == c[0] {
      LessTransitive(a[1..], b[1..], c[1..]);
    }
  }

  /** Distinct strings are ordered one way or the other, never both. */
  lemma {:induction false} LessTotal(a: string, b: string)
    ensures a != b ==> Less(a, b) || Less(b, a)
    ensures !(Less(a, b) && Less(b, a))
    decreases |a|
  {
    if a != [] && b != [] && a[0] == b[0] {
      LessTotal(a[1..], b[1..]);
      if a != b {
        assert a == [a[0]] + a[1..] && b == [b[0]] + b[1..];
      }
    }
  }

  /** `s` is ordered by `key` (equal keys may stand in any order). */
  predicate SortedBy<T>(s: seq<T>, key: T -> string) {
    forall i, j :: 0 <= i < j < |s| ==> !Less(key(s[j]), key(s[i]))
  }

  /** `s` is strictly increasing by `key`. */
  predicate StrictlySortedBy<T>(s: seq<T>, key: T -> string) {
    forall i, j :: 0 <= i < j < |s| ==> Less(key(s[i]), key(s[j]))
  }

  function InsertBy<T>(x: T, s: seq<T>, key: T -> string): seq<T> {
    if s == [] || !Less(key(s[0]), key(x)) then [x] + s else [s[0]] + InsertBy(x, s[1..], key)
  }

  /** An insertion sort by `key`: a stand-in for a library sort, specified by the lemmas below. */
  function SortBy<T>(s: seq<T>, key: T -> string): seq<T> {
    if s == [] then [] else InsertBy(s[0], SortBy(s[1..], key), key)
  }

  lemma {:induction false} InsertByMultiset<T>(x: T, s: seq<T>, key: T -> string)
    ensures multiset(InsertBy(x, s, key)) == multiset{x} + multiset(s)
  {
    if s != [] && Less(key(s[0]), key(x)) {
      InsertByMultiset(x, s[1..], key);
      assert s == [s[0]] + s[1..];
    }
  }

  lemma {:induction false} InsertBySorted<T>(x: T, s: seq<T>, key: T -> string)
    requires SortedBy(s, key)
    ensures SortedBy(InsertBy(x, s, key), key)
  {
    if s == [] {
    } else if !Less(key(s[0]), key(x)) {
      var u := [x] + s;
      forall j | 0 < j < |u| ensures !Less(key(u[j]), key(x)) {
        if j > 1 && Less(key(u[j]), key(x)) {
          assert !Less(key(s[j - 1]), key(s[0]));
          LessTotal(key(s[0]), key(x));
          LessTotal(key(s[j - 1]), key(s[0]));
          if key(s[0]) != key(x) {
            LessTransitive(key(s[j - 1]), key(x), key(s[0]));
          }
        }
      }
    } else {
      var r := InsertBy(x, s[1..], key);
      InsertBySorted(x, s[1..], key);
      InsertByMultiset(x, s[1..], key);
      assert s == [s[0]] + s[1..];
      var u := [s[0]] + r;
      forall j | 0 < j < |u| ensures !Less(key(u[j]), key(s[0])) {
        assert u[j] == r[j - 1];
        assert r[j - 1] in multiset(r);
        if r[j - 1] == x {
          LessTotal(key(s[0]), key(x));
        } else {
          assert r[j - 1] in multiset(s[1..]);
          var m :| 0 <= m < |s[1..]| && s[1..][m] == r[j - 1];
          assert s[m + 1] == r[j - 1];
        }
      }
    }
  }

  /** Sorting orders by `key` and keeps every element. */
  lemma {:induction false} SortByProperties<T>(s: seq<T>, key: T -> string)
    ensures SortedBy(SortBy(s, key), key)
    ensures multiset(SortBy(s, key)) == multiset(s)
  {
    if s != [] {
      SortByProperties(s[1..], key);
      InsertBySorted(s[0], SortBy(s[1..], key), key);
      InsertByMultiset(s[0], SortBy(s[1..], key), key);
      assert s == [s[0]] + s[1..];
    }
  }

  /** Ordered with pairwise distinct keys means strictly increasing. */
  lemma SortedDistinctStrict<T>(s: seq<T>, key: T -> string)
    requires SortedBy(s, key)
    requires forall i, j :: 0 <= i < j < |s| ==> key(s[i]) != key(s[j])
    ensures StrictlySortedBy(s, key)
  {
    forall i, j | 0 <= i < j < |s| ensures Less(key(s[i]), key(s[j])) {
      LessTotal(key(s[i]), key(s[j]));
    }
  }

  predicate Distinct<T(==)>(s: seq<T>) {
    forall i, j :: 0 <= i < j < |s| ==> s[i] != s[j]
  }

  /** A sequence is free of repetitions exactly when its multiset counts every element at most once. */
  lemma {:induction false} DistinctIffCountsOne<T>(s: seq<T>)
    ensures Distinct(s) <==> forall x :: multiset(s)[x] <= 1
  {
    if s != [] {
      var t := s[1..];
      DistinctIffCountsOne(t);
      assert s == [s[0]] + t;
      assert forall x :: multiset(s)[x] == (if x == s[0] then 1 else 0) + multiset(t)[x];
      if Distinct(s) {
        assert forall j :: 0 <= j < |t| ==> t[j] == s[j + 1];
        assert s[0] !in t;
        assert Distinct(t) by {
          forall i, j | 0 <= i < j < |t| ensures t[i] != t[j] {
            assert t[i] == s[i + 1] && t[j] == s[j + 1];
          }
        }
      }
      if forall x :: multiset(s)[x] <= 1 {
        assert multiset(t)[s[0]] == 0;
        assert forall j :: 0 <= j < |t| ==> t[j] != s[0] by {
          forall j | 0 <= j < |t| ensures t[j] != s[0] {
            assert t[j] in multiset(t);
          }
        }
        forall i, j | 0 <= i < j < |s| ensures s[i] != s[j] {
          if i > 0 {
            assert s[i] == t[i - 1] && s[j] == t[j - 1];
          } else {
            assert s[j] == t[j - 1];
          }
        }
      }
    }
  }

  /** A permutation of a repetition-free sequence is repetition-free. */
  lemma PermutationDistinct<T>(a: seq<T>, b: seq<T>)
    requires multiset(a) == multiset(b)
    requires Distinct(a)
    ensures Distinct(b)
  {
    DistinctIffCountsOne(a);
    DistinctIffCountsOne(b);
  }

  /** Elements of `s` with equal keys are equal. */
  predicate KeyInjective<T(==)>(s: seq<T>, key: T -> string) {
    forall x, y :: x in s && y in s && key(x) == key(y) ==> x == y
  }

  /** Ordered, repetition-free and with a key that tells elements apart means strictly increasing. */
  lemma InjectiveDistinctStrict<T>(s: seq<T>, key: T -> string)
    requires SortedBy(s, key) && Distinct(s) && KeyInjective(s, key)
    ensures StrictlySortedBy(s, key)
  {
    SortedDistinctStrict(s, key);
  }

  function Id(s: string): string { s }

  /** Two strictly increasing string sequences with the same elements are equal. */
  lemma {:induction false} StrictlySortedUnique(a: seq<string>, b: seq<string>)
    requires StrictlySortedBy(a, Id) && StrictlySortedBy(b, Id)
    requires forall i :: 0 <= i < |a| ==> a[i] in b
    requires forall j :: 0 <= j < |b| ==> b[j] in a
    ensures a == b
    decreases |a|
  {
    if a != [] {
      assert a[0] in b;
    }
    if b != [] {
      assert b[0] in a;
    }
    if a != [] && b != [] {
      SortedHeadsEqual(a, b);
      SortedTailCovered(a, b);
      SortedTailCovered(b, a);
      StrictlySortedUnique(a[1..], b[1..]);
      assert a == [a[0]] + a[1..] && b == [b[0]] + b[1..];
    }
  }

  /** The least elements of two strictly increasing sequences with the same elements agree. */
  lemma SortedHeadsEqual(a: seq<string>, b: seq<string>)
    requires a != [] && b != []
    requires StrictlySortedBy(a, Id) && StrictlySortedBy(b, Id)
    requires a[0] in b && b[0] in a
    ensures a[0] == b[0]
  {
    var i :| 0 <= i < |b| && b[i] == a[0];
    var j :| 0 <= j < |a| && a[j] == b[0];
    if i > 0 {
      assert Less(b[0], a[0]);
      if j > 0 {
        assert Less(a[0], b[0]);
        LessTotal(a[0], b[0]);
      } else {
        LessIrreflexive(a[0]);
      }
    }
  }

  /** With equal heads, the rest of `a` lies in the rest of `b`. */
  lemma SortedTailCovered(a: seq<string>, b: seq<string>)
    requires a != [] && b != [] && a[0] == b[0]
    requires StrictlySortedBy(a, Id)
    requires forall i :: 0 <= i < |a| ==> a[i] in b
    ensures forall k :: 0 <= k < |a| - 1 ==> a[1..][k] in b[1..]
  {
    forall k | 1 <= k < |a| ensures a[k] in b[1..] {
      var m :| 0 <= m < |b| && b[m] == a[k];
      if m == 0 {
        assert Less(a[0], a[k]);
        LessIrreflexive(a[0]);
      }
    }
  }
}
