/** `Array.prototype.sort` with a numeric comparator `(a, b) => key(a) - key(b)`:
    an ascending sort by an integer key. The application sorts copies and
    local arrays only, so the sort is modelled on values. */
module Sorting {

  predicate SortedBy<T>(s: seq<T>, key: T -> int) {
    forall i, j :: 0 <= i < j < |s| ==> key(s[i]) <= key(s[j])
  }

  /** Inserts `x` into `s` after the trailing elements whose key is larger;
      on a sorted `s` that places it after every element with a key not larger. */
  function InsertBy<T>(x: T, s: seq<T>, key: T -> int): (r: seq<T>)
    ensures multiset(r) == multiset(s) + multiset{x}
    ensures |r| == |s| + 1
    decreases |s|
  {
    if s == [] then [x]
    else if key(s[|s| - 1]) <= key(x) then s + [x]
    else
      var init := s[..|s| - 1];
      assert s == init + [s[|s| - 1]];
      InsertBy(x, init, key) + [s[|s| - 1]]
  }

  /** Every element of an insertion is the inserted value or one of the old ones. */
  lemma {:induction false} InsertByElements<T>(x: T, s: seq<T>, key: T -> int, i: int)
    requires 0 <= i < |s| + 1
    ensures InsertBy(x, s, key)[i] == x || InsertBy(x, s, key)[i] in s
    decreases |s|
  {
    var r := InsertBy(x, s, key);
    if s != [] && key(s[|s| - 1]) > key(x) && i < |s| {
      var init := s[..|s| - 1];
      InsertByElements(x, init, key, i);
      assert r[i] == InsertBy(x, init, key)[i];
    }
  }

  /** Inserting into a sorted sequence keeps it sorted. */
  lemma {:induction false} InsertBySorted<T>(x: T, s: seq<T>, key: T -> int)
    requires SortedBy(s, key)
    ensures SortedBy(InsertBy(x, s, key), key)
    decreases |s|
  {
    if s != [] && key(s[|s| - 1]) > key(x) {
      var init, last := s[..|s| - 1], s[|s| - 1];
      var r0 := InsertBy(x, init, key);
      InsertBySorted(x, init, key);
      forall i | 0 <= i < |r0|
        ensures key(r0[i]) <= key(last)
      {
        InsertByElements(x, init, key, i);
      }
    }
  }

  /** The sorted copy of `s`: ascending by `key` and a permutation of `s`. */
  function SortBy<T>(s: seq<T>, key: T -> int): (r: seq<T>)
    ensures SortedBy(r, key)
    ensures multiset(r) == multiset(s)
    ensures |r| == |s|
    decreases |s|
  {
    if s == [] then []
    else
      var init := s[..|s| - 1];
      assert s == init + [s[|s| - 1]];
      InsertBySorted(s[|s| - 1], SortBy(init, key), key);
      InsertBy(s[|s| - 1], SortBy(init, key), key)
  }

  /** The key of a plain number: it sorts by its own value. */
  function IntKey(x: int): int { x }

  predicate Ascending(s: seq<int>) {
    SortedBy(s, IntKey)
  }

  /** `[...nums].sort((a, b) => a - b)`. */
  function SortInts(s: seq<int>): (r: seq<int>)
    ensures Ascending(r) && multiset(r) == multiset(s) && |r| == |s|
  {
    SortBy(s, IntKey)
  }

  /** The head of an ascending sequence is its least element. */
  lemma HeadIsLeast(a: seq<int>, v: int)
    requires Ascending(a) && v in multiset(a)
    ensures a[0] <= v
  {
    var j :| 0 <= j < |a| && a[j] == v;
    assert IntKey(a[0]) <= IntKey(a[j]);
  }

  /** An ascending sequence is determined by its elements: two ascending
      arrangements of the same multiset are the same sequence. */
  lemma {:induction false} AscendingUnique(a: seq<int>, b: seq<int>)
    requires Ascending(a) && Ascending(b)
    requires multiset(a) == multiset(b)
    ensures a == b
    decreases |a|
  {
    assert |a| == |multiset(a)| == |multiset(b)| == |b|;
    if a != [] {
      HeadIsLeast(a, b[0]);
      HeadIsLeast(b, a[0]);
      assert a == [a[0]] + a[1..];
      assert b == [b[0]] + b[1..];
      assert a[0] == b[0];
      assert multiset(a) == multiset{a[0]} + multiset(a[1..]);
      assert multiset(b) == multiset{b[0]} + multiset(b[1..]);
      assert forall v :: multiset(a[1..])[v] == multiset(b[1..])[v] by {
        forall v ensures multiset(a[1..])[v] == multiset(b[1..])[v] {
          assert multiset(a)[v] == multiset(b)[v];
        }
      }
      assert multiset(a[1..]) == multiset(b[1..]);
      assert Ascending(a[1..]) by {
        forall i, j | 0 <= i < j < |a[1..]| ensures IntKey(a[1..][i]) <= IntKey(a[1..][j]) {
          assert a[1..][i] == a[i + 1] && a[1..][j] == a[j + 1];
        }
      }
      assert Ascending(b[1..]) by {
        forall i, j | 0 <= i < j < |b[1..]| ensures IntKey(b[1..][i]) <= IntKey(b[1..][j]) {
          assert b[1..][i] == b[i + 1] && b[1..][j] == b[j + 1];
        }
      }
      AscendingUnique(a[1..], b[1..]);
    }
  }

  /** Sorting only depends on the elements, not on their order. */
  lemma SortIntsPermutationInvariant(s: seq<int>, t: seq<int>)
    requires multiset(s) == multiset(t)
    ensures SortInts(s) == SortInts(t)
  {
    AscendingUnique(SortInts(s), SortInts(t));
  }

  /** Sorting an ascending sequence leaves it as it is. */
  lemma SortIntsOfAscending(s: seq<int>)
    requires Ascending(s)
    ensures SortInts(s) == s
  {
    AscendingUnique(SortInts(s), s);
  }
}
