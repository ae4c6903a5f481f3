/** Grouping a list into a JavaScript `Map` from key to the items with that key.
    A `Map` iterates its keys in first-insertion order, so a grouping is the
    distinct keys in order of first occurrence plus, for each key, the items
    carrying it in their original order. */
module Grouping {

  /** The distinct keys of `items`, in order of first occurrence. */
  function KeysInOrder<T, K(==)>(items: seq<T>, key: T -> K): (ks: seq<K>)
    ensures forall i, j :: 0 <= i < j < |ks| ==> ks[i] != ks[j]
    ensures forall i :: 0 <= i < |items| ==> key(items[i]) in ks
    ensures forall k :: k in ks ==> exists i :: 0 <= i < |items| && key(items[i]) == k
    ensures |ks| <= |items|
    decreases |items|
  {
    if items == [] then []
    else
      var init := items[..|items| - 1];
      var k := key(items[|items| - 1]);
      var prev := KeysInOrder(init, key);
      assert forall j :: 0 <= j < |init| ==> init[j] == items[j];
      if k in prev then prev else prev + [k]
  }

  /** The items of `items` whose key is `k`, in their original order. */
  function Members<T, K(==)>(items: seq<T>, key: T -> K, k: K): (r: seq<T>)
    ensures |r| <= |items|
    ensures forall x :: x in r ==> x in items && key(x) == k
    ensures (exists i :: 0 <= i < |items| && key(items[i]) == k) <==> r != []
    decreases |items|
  {
    if items == [] then []
    else
      var init := items[..|items| - 1];
      var last := items[|items| - 1];
      assert forall j :: 0 <= j < |init| ==> init[j] == items[j];
      Members(init, key, k) + (if key(last) == k then [last] else [])
  }

  /** `new Map()` filled by one pass over `items`: for each item, append it to
      its key's list, or start a new list at the end of the key order. */
  method GroupBy<T, K(==)>(items: seq<T>, key: T -> K) returns (keys: seq<K>, groups: map<K, seq<T>>)
    ensures keys == KeysInOrder(items, key)
    ensures forall k :: k in groups <==> k in keys
    ensures forall k :: k in groups ==> groups[k] == Members(items, key, k)
  {
    keys, groups := [], map[];
    var i := 0;
    while i < |items|
      invariant 0 <= i <= |items|
      invariant keys == KeysInOrder(items[..i], key)
      invariant forall k :: k in groups <==> k in keys
      invariant forall k :: k in groups ==> groups[k] == Members(items[..i], key, k)
    {
      var item := items[i];
      var k := key(item);
      ghost var keysBefore, before := keys, groups;
      if k in groups {
        groups := groups[k := groups[k] + [item]];
      } else {
        keys := keys + [k];
        groups := groups[k := [item]];
      }
      GroupsStep(items, key, i, keysBefore, before, keys, groups);
      i := i + 1;
    }
    assert items[..i] == items;
  }

  lemma KeysStep<T, K>(items: seq<T>, key: T -> K, i: int)
    requires 0 <= i < |items|
    ensures KeysInOrder(items[..i + 1], key) ==
      var prev := KeysInOrder(items[..i], key);
      if key(items[i]) in prev then prev else prev + [key(items[i])]
  {
    assert items[..i + 1][..i] == items[..i];
  }

  /** Appending item `i` to its key's list, after adding the key to the key
      order if it is new, keeps the keys and the lists those of the prefix seen
      so far. */
  lemma GroupsStep<T, K>(items: seq<T>, key: T -> K, i: int, keys: seq<K>, before: map<K, seq<T>>,
                         keys': seq<K>, after: map<K, seq<T>>)
    requires 0 <= i < |items|
    requires keys == KeysInOrder(items[..i], key)
    requires forall k :: k in before <==> k in keys
    requires forall k :: k in before ==> before[k] == Members(items[..i], key, k)
    requires key(items[i]) in before ==> keys' == keys && after == before[key(items[i]) := before[key(items[i])] + [items[i]]]
    requires key(items[i]) !in before ==> keys' == keys + [key(items[i])] && after == before[key(items[i]) := [items[i]]]
    ensures keys' == KeysInOrder(items[..i + 1], key)
    ensures forall k :: k in after <==> k in keys'
    ensures forall k :: k in after ==> after[k] == Members(items[..i + 1], key, k)
  {
    KeysStep(items, key, i);
    forall k | k in after
      ensures after[k] == Members(items[..i + 1], key, k)
    {
      MembersStep(items, key, i, k);
      if k == key(items[i]) && k !in before {
        assert Members(items[..i], key, k) == [];
      }
    }
  }

  lemma MembersStep<T, K>(items: seq<T>, key: T -> K, i: int, k: K)
    requires 0 <= i < |items|
    ensures Members(items[..i + 1], key, k) ==
      Members(items[..i], key, k) + (if key(items[i]) == k then [items[i]] else [])
  {
    assert items[..i + 1][..i] == items[..i];
  }

  /** Sum of the group sizes over a list of keys. */
  function SizeSum<T, K(==)>(items: seq<T>, key: T -> K, ks: seq<K>): nat {
    if ks == [] then 0 else |Members(items, key, ks[0])| + SizeSum(items, key, ks[1..])
  }

  /** One more item adds one to exactly the group of its own key. */
  lemma {:induction false} SizeSumStep<T, K>(items: seq<T>, key: T -> K, x: T, ks: seq<K>)
    requires forall i, j :: 0 <= i < j < |ks| ==> ks[i] != ks[j]
    ensures SizeSum(items + [x], key, ks) == SizeSum(items, key, ks) + (if key(x) in ks then 1 else 0)
    decreases |ks|
  {
    if ks != [] {
      assert (items + [x])[..|items + [x]| - 1] == items;
      SizeSumStep(items, key, x, ks[1..]);
      assert key(x) == ks[0] ==> key(x) !in ks[1..];
      assert key(x) in ks <==> key(x) == ks[0] || key(x) in ks[1..];
    }
  }

  lemma {:induction false} SizeSumAppendKey<T, K>(items: seq<T>, key: T -> K, ks: seq<K>, k: K)
    ensures SizeSum(items, key, ks + [k]) == SizeSum(items, key, ks) + |Members(items, key, k)|
    decreases |ks|
  {
    if ks == [] {
      assert SizeSum(items, key, [k]) == |Members(items, key, k)| + SizeSum(items, key, []);
    } else {
      assert (ks + [k])[1..] == ks[1..] + [k];
      SizeSumAppendKey(items, key, ks[1..], k);
    }
  }

  /** The groups partition the items: every item lies in exactly one group, so
      the group sizes add up to the number of items. */
  lemma {:induction false} GroupsPartition<T, K>(items: seq<T>, key: T -> K)
    ensures SizeSum(items, key, KeysInOrder(items, key)) == |items|
    decreases |items|
  {
    if items != [] {
      var init, x := items[..|items| - 1], items[|items| - 1];
      assert items == init + [x];
      var prev := KeysInOrder(init, key);
      GroupsPartition(init, key);
      SizeSumStep(init, key, x, prev);
      if key(x) !in prev {
        SizeSumAppendKey(items, key, prev, key(x));
        assert Members(init, key, key(x)) == [];
        assert Members(items, key, key(x)) == [x];
      }
    }
  }
}
