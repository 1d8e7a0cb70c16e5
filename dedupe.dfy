/**
 * First-occurrence deduplication with a `seen` set, as the pipeline's
 * `_dedupe_ranked` (keyed by the keyword) and `_dedupe_list` (keyed by the
 * string itself) do it.
 */
module Dedupe {

  /** The result of the loop when it starts with `seen` already filled. */
  function UniqueFrom<T, K(==)>(s: seq<T>, key: T -> K, seen: set<K>): seq<T> {
    if s == [] then []
    else if key(s[0]) in seen then UniqueFrom(s[1..], key, seen)
    else [s[0]] + UniqueFrom(s[1..], key, seen + {key(s[0])})
  }

  /** Deduplication from an empty `seen` set. */
  function Unique<T, K(==)>(s: seq<T>, key: T -> K): seq<T> {
    UniqueFrom(s, key, {})
  }

  /** The keys of a sequence. */
  function Keys<T, K(==)>(s: seq<T>, key: T -> K): set<K> {
    if s == [] then {} else Keys(s[..|s| - 1], key) + {key(s[|s| - 1])}
  }

  /**
   * Reference definition: the elements whose key does not occur earlier,
   * in their original order.
   */
  function FirstOccurrences<T, K(==)>(s: seq<T>, key: T -> K): seq<T> {
    if s == [] then []
    else
      var init := s[..|s| - 1];
      FirstOccurrences(init, key) + (if key(s[|s| - 1]) in Keys(init, key) then [] else [s[|s| - 1]])
  }

  /** No key occurs twice. */
  predicate DistinctKeys<T, K(==)>(s: seq<T>, key: T -> K) {
    forall i, j :: 0 <= i < j < |s| ==> key(s[i]) != key(s[j])
  }

  lemma {:induction false} KeysMembers<T, K>(s: seq<T>, key: T -> K)
    ensures forall k :: k in Keys(s, key) <==> exists i :: 0 <= i < |s| && key(s[i]) == k
  {
    if s != [] {
      KeysMembers(s[..|s| - 1], key);
    }
  }

  lemma {:induction false} KeysConcat<T, K>(a: seq<T>, b: seq<T>, key: T -> K)
    ensures Keys(a + b, key) == Keys(a, key) + Keys(b, key)
  {
    if b == [] {
      assert a + b == a;
    } else {
      KeysConcat(a, b[..|b| - 1], key);
      assert (a + b)[..|a + b| - 1] == a + b[..|b| - 1];
      assert (a + b)[|a + b| - 1] == b[|b| - 1];
    }
  }

  lemma {:induction false} KeysCons<T, K>(x: T, s: seq<T>, key: T -> K)
    ensures Keys([x] + s, key) == {key(x)} + Keys(s, key)
  {
    KeysConcat([x], s, key);
    assert [x][..0] == [];
  }

  lemma {:induction false} FirstOccurrencesAppend<T, K>(s: seq<T>, t: seq<T>, key: T -> K)
    ensures FirstOccurrences(s + t, key) == FirstOccurrences(s, key) + UniqueFrom(t, key, Keys(s, key))
    decreases |t|
  {
    if t == [] {
      assert s + t == s;
    } else {
      var s' := s + [t[0]];
      assert s + t == s' + t[1..];
      FirstOccurrencesAppend(s', t[1..], key);
      assert s'[..|s'| - 1] == s;
      assert s'[|s'| - 1] == t[0];
      assert Keys(s', key) == Keys(s, key) + {key(t[0])};
      var tail := UniqueFrom(t[1..], key, Keys(s', key));
      if key(t[0]) in Keys(s, key) {
        assert Keys(s', key) == Keys(s, key);
        assert FirstOccurrences(s', key) == FirstOccurrences(s, key);
        assert UniqueFrom(t, key, Keys(s, key)) == tail;
      } else {
        assert FirstOccurrences(s', key) == FirstOccurrences(s, key) + [t[0]];
        assert UniqueFrom(t, key, Keys(s, key)) == [t[0]] + tail;
      }
    }
  }

  /** The loop's result is exactly the first occurrence of every key, in order. */
  lemma {:induction false} UniqueIsFirstOccurrences<T, K>(s: seq<T>, key: T -> K)
    ensures Unique(s, key) == FirstOccurrences(s, key)
  {
    FirstOccurrencesAppend([], s, key);
    assert [] + s == s;
  }

  /** Deduplicating `s + t`: an element whose key occurs in `s` comes from `s`. */
  lemma {:induction false} FirstSourceWins<T, K>(s: seq<T>, t: seq<T>, key: T -> K, x: T)
    requires x in FirstOccurrences(s + t, key)
    requires key(x) in Keys(s, key)
    ensures x in s
  {
    FirstOccurrencesAppend(s, t, key);
    var tail := UniqueFrom(t, key, Keys(s, key));
    UniqueFromDistinct(t, key, Keys(s, key));
    assert x !in tail;
    UniqueIsFirstOccurrences(s, key);
    UniqueFromDistinct(s, key, {});
  }

  /** The kept elements have pairwise distinct keys, none of them already seen. */
  lemma {:induction false} UniqueFromDistinct<T, K>(s: seq<T>, key: T -> K, seen: set<K>)
    ensures DistinctKeys(UniqueFrom(s, key, seen), key)
    ensures forall i :: 0 <= i < |UniqueFrom(s, key, seen)| ==> key(UniqueFrom(s, key, seen)[i]) !in seen
    ensures forall x :: x in UniqueFrom(s, key, seen) ==> x in s
  {
    if s != [] {
      if key(s[0]) in seen {
        UniqueFromDistinct(s[1..], key, seen);
      } else {
        UniqueFromDistinct(s[1..], key, seen + {key(s[0])});
      }
    }
  }

  /** The kept keys are exactly the input's keys that were not already seen. */
  lemma {:induction false} UniqueFromKeys<T, K>(s: seq<T>, key: T -> K, seen: set<K>)
    ensures Keys(UniqueFrom(s, key, seen), key) == Keys(s, key) - seen
  {
    if s != [] {
      KeysCons(s[0], s[1..], key);
      assert s == [s[0]] + s[1..];
      if key(s[0]) in seen {
        UniqueFromKeys(s[1..], key, seen);
      } else {
        UniqueFromKeys(s[1..], key, seen + {key(s[0])});
        KeysCons(s[0], UniqueFrom(s[1..], key, seen + {key(s[0])}), key);
      }
    }
  }

  /** The result keeps exactly one element per distinct key of the input, taken from the input. */
  lemma {:induction false} UniqueKeysAndCoverage<T, K>(s: seq<T>, key: T -> K)
    ensures DistinctKeys(Unique(s, key), key)
    ensures forall x :: x in Unique(s, key) ==> x in s
    ensures Keys(Unique(s, key), key) == Keys(s, key)
  {
    UniqueFromDistinct(s, key, {});
    UniqueFromKeys(s, key, {});
  }

  /** On distinct, unseen keys the loop keeps everything. */
  lemma {:induction false} UniqueFromOfDistinct<T, K>(s: seq<T>, key: T -> K, seen: set<K>)
    requires DistinctKeys(s, key)
    requires forall i :: 0 <= i < |s| ==> key(s[i]) !in seen
    ensures UniqueFrom(s, key, seen) == s
  {
    if s != [] {
      var t := s[1..];
      var seen' := seen + {key(s[0])};
      assert DistinctKeys(t, key) by {
        forall i, j | 0 <= i < j < |t|
          ensures key(t[i]) != key(t[j])
        {
          assert t[i] == s[i + 1] && t[j] == s[j + 1];
        }
      }
      assert forall i :: 0 <= i < |t| ==> key(t[i]) !in seen' by {
        forall i | 0 <= i < |t|
          ensures key(t[i]) !in seen'
        {
          assert t[i] == s[i + 1];
          assert key(s[0]) != key(s[i + 1]);
        }
      }
      UniqueFromOfDistinct(t, key, seen');
      assert key(s[0]) !in seen;
      assert s == [s[0]] + t;
    }
  }

  /** Deduplicating twice changes nothing. */
  lemma {:induction false} UniqueIdempotent<T, K>(s: seq<T>, key: T -> K)
    ensures Unique(Unique(s, key), key) == Unique(s, key)
  {
    UniqueFromDistinct(s, key, {});
    UniqueFromOfDistinct(Unique(s, key), key, {});
  }
}
