/**
 * Python's `sorted(pairs, key=lambda x: x[0], reverse=True)` on (key, item)
 * pairs: a stable sort by descending key, written as an insertion sort.
 * Used by the vector store's query and by the optimizer's bullet reorder.
 */
module Sorting {

  /** Keys never increase from left to right. */
  predicate NonIncreasing<T>(s: seq<(real, T)>) {
    forall i, j :: 0 <= i < j < |s| ==> s[i].0 >= s[j].0
  }

  /** Places `x` after every element whose key is at least `x`'s key. */
  function Insert<T>(x: (real, T), s: seq<(real, T)>): (r: seq<(real, T)>)
    ensures |r| == |s| + 1
  {
    if s == [] then [x]
    else if s[0].0 >= x.0 then [s[0]] + Insert(x, s[1..])
    else [x] + s
  }

  /** The stable descending sort: each element in turn is inserted into the sorted prefix. */
  function SortDesc<T>(s: seq<(real, T)>): (r: seq<(real, T)>)
    ensures |r| == |s|
  {
    if s == [] then [] else Insert(s[|s| - 1], SortDesc(s[..|s| - 1]))
  }

  /** The elements with key `k`, in their order in `s`. */
  function WithKey<T>(s: seq<(real, T)>, k: real): seq<(real, T)> {
    if s == [] then []
    else WithKey(s[..|s| - 1], k) + (if s[|s| - 1].0 == k then [s[|s| - 1]] else [])
  }

  /** The items of the pairs, in order. */
  function Items<T>(s: seq<(real, T)>): (r: seq<T>)
    ensures |r| == |s|
    ensures forall i :: 0 <= i < |s| ==> r[i] == s[i].1
  {
    seq(|s|, i requires 0 <= i < |s| => s[i].1)
  }

  lemma {:induction false} InsertSorted<T>(x: (real, T), s: seq<(real, T)>)
    requires NonIncreasing(s)
    ensures NonIncreasing(Insert(x, s))
  {
    if s != [] && s[0].0 >= x.0 {
      InsertSorted(x, s[1..]);
      var t := Insert(x, s[1..]);
      InsertMembers(x, s[1..]);
      assert forall j :: 0 <= j < |t| ==> s[0].0 >= t[j].0 by {
        forall j | 0 <= j < |t|
          ensures s[0].0 >= t[j].0
        {
          assert t[j] in multiset(t);
          if t[j] != x {
            assert t[j] in multiset(s[1..]);
            var m :| 0 <= m < |s[1..]| && s[1..][m] == t[j];
            assert s[m + 1] == t[j];
          }
        }
      }
    }
  }

  lemma {:induction false} InsertMembers<T>(x: (real, T), s: seq<(real, T)>)
    ensures multiset(Insert(x, s)) == multiset(s) + multiset{x}
  {
    if s != [] && s[0].0 >= x.0 {
      InsertMembers(x, s[1..]);
      assert s == [s[0]] + s[1..];
    }
  }

  /** `SortDesc` is sorted by non-increasing key. */
  lemma {:induction false} SortDescSorted<T>(s: seq<(real, T)>)
    ensures NonIncreasing(SortDesc(s))
  {
    if s != [] {
      SortDescSorted(s[..|s| - 1]);
      InsertSorted(s[|s| - 1], SortDesc(s[..|s| - 1]));
    }
  }

  /** `SortDesc` is a permutation of its input. */
  lemma {:induction false} SortDescPermutation<T>(s: seq<(real, T)>)
    ensures multiset(SortDesc(s)) == multiset(s)
  {
    if s != [] {
      var init, last := s[..|s| - 1], s[|s| - 1];
      SortDescPermutation(init);
      InsertMembers(last, SortDesc(init));
      assert s == init + [last];
      assert multiset(s) == multiset(init) + multiset{last};
    }
  }

  lemma {:induction false} WithKeyConcat<T>(a: seq<(real, T)>, b: seq<(real, T)>, k: real)
    ensures WithKey(a + b, k) == WithKey(a, k) + WithKey(b, k)
  {
    if b != [] {
      WithKeyConcat(a, b[..|b| - 1], k);
      assert (a + b)[..|a + b| - 1] == a + b[..|b| - 1];
      assert (a + b)[|a + b| - 1] == b[|b| - 1];
    } else {
      assert a + b == a;
    }
  }

  lemma {:induction false} WithKeySingle<T>(x: (real, T), k: real)
    ensures WithKey([x], k) == if x.0 == k then [x] else []
  {
    assert [x][..0] == [];
  }

  /** Inserting into a sorted list puts `x` after every element of equal key. */
  lemma {:induction false} InsertWithKey<T>(x: (real, T), s: seq<(real, T)>, k: real)
    requires NonIncreasing(s)
    ensures WithKey(Insert(x, s), k) == WithKey(s, k) + (if x.0 == k then [x] else [])
    decreases |s|, 1
  {
    WithKeySingle(x, k);
    if s == [] {
      assert Insert(x, s) == [x];
    } else if s[0].0 >= x.0 {
      InsertWithKeyFront(x, s, k);
    } else {
      InsertWithKeyBefore(x, s, k);
    }
  }

  lemma {:induction false} InsertWithKeyFront<T>(x: (real, T), s: seq<(real, T)>, k: real)
    requires NonIncreasing(s) && s != [] && s[0].0 >= x.0
    ensures WithKey(Insert(x, s), k) == WithKey(s, k) + (if x.0 == k then [x] else [])
    decreases |s|, 0
  {
    var t := s[1..];
    assert NonIncreasing(t);
    InsertWithKey(x, t, k);
    assert Insert(x, s) == [s[0]] + Insert(x, t);
    WithKeyConcat([s[0]], Insert(x, t), k);
    WithKeyConcat([s[0]], t, k);
    assert s == [s[0]] + t;
  }

  lemma {:induction false} InsertWithKeyBefore<T>(x: (real, T), s: seq<(real, T)>, k: real)
    requires NonIncreasing(s) && s != [] && s[0].0 < x.0
    ensures WithKey(Insert(x, s), k) == WithKey(s, k) + (if x.0 == k then [x] else [])
  {
    WithKeySingle(x, k);
    assert Insert(x, s) == [x] + s;
    WithKeyConcat([x], s, k);
    if x.0 == k {
      assert forall i :: 0 <= i < |s| ==> s[i].0 < k by {
        forall i | 0 <= i < |s|
          ensures s[i].0 < k
        {
          assert i == 0 || s[0].0 >= s[i].0;
        }
      }
      WithKeyNone(s, k);
    }
  }

  lemma {:induction false} WithKeyNone<T>(s: seq<(real, T)>, k: real)
    requires forall i :: 0 <= i < |s| ==> s[i].0 < k
    ensures WithKey(s, k) == []
  {
    if s != [] {
      WithKeyNone(s[..|s| - 1], k);
    }
  }

  /** Stability: the elements of any one key keep their input order. */
  lemma {:induction false} SortDescStable<T>(s: seq<(real, T)>, k: real)
    ensures WithKey(SortDesc(s), k) == WithKey(s, k)
  {
    if s != [] {
      SortDescStable(s[..|s| - 1], k);
      SortDescSorted(s[..|s| - 1]);
      InsertWithKey(s[|s| - 1], SortDesc(s[..|s| - 1]), k);
    }
  }

  /** The items of the sorted pairs are a permutation of the input items. */
  lemma {:induction false} SortDescItems<T>(s: seq<(real, T)>)
    ensures multiset(Items(SortDesc(s))) == multiset(Items(s))
  {
    if s != [] {
      SortDescItems(s[..|s| - 1]);
      InsertItems(s[|s| - 1], SortDesc(s[..|s| - 1]));
      assert s == s[..|s| - 1] + [s[|s| - 1]];
      ItemsConcat(s[..|s| - 1], [s[|s| - 1]]);
    }
  }

  lemma {:induction false} InsertItems<T>(x: (real, T), s: seq<(real, T)>)
    ensures multiset(Items(Insert(x, s))) == multiset(Items(s)) + multiset{x.1}
  {
    ItemsSingle(x);
    if s != [] && s[0].0 >= x.0 {
      InsertItems(x, s[1..]);
      InsertItemsBehind(x, s);
    } else if s != [] {
      ItemsConcat([x], s);
    }
  }

  /** The step of `InsertItems` where `x` goes behind the head. */
  lemma {:induction false} InsertItemsBehind<T>(x: (real, T), s: seq<(real, T)>)
    requires s != [] && s[0].0 >= x.0
    requires multiset(Items(Insert(x, s[1..]))) == multiset(Items(s[1..])) + multiset{x.1}
    ensures multiset(Items(Insert(x, s))) == multiset(Items(s)) + multiset{x.1}
  {
    var t := Insert(x, s[1..]);
    var u := Items(t);
    var v := Items(s[1..]);
    assert Insert(x, s) == [s[0]] + t;
    assert Items([s[0]] + t) == [s[0].1] + u;
    assert Items(s) == [s[0].1] + v;
    assert multiset([s[0].1] + u) == multiset{s[0].1} + multiset(u);
    assert multiset([s[0].1] + v) == multiset{s[0].1} + multiset(v);
  }

  lemma {:induction false} ItemsSingle<T>(x: (real, T))
    ensures Items([x]) == [x.1]
  {
  }

  lemma {:induction false} ItemsConcat<T>(a: seq<(real, T)>, b: seq<(real, T)>)
    ensures Items(a + b) == Items(a) + Items(b)
  {
  }
}
