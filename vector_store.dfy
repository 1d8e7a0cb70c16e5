/**
 * The in-memory vector store (backend/app/storage/vector_store.py).
 *
 * `LocalVectorStore` keeps its vectors and metadata in class-level lists,
 * so every instance reads and appends to the same two lists.  One object
 * of the class below stands for those lists, and every "instance" of the
 * source is that same object; a freshly allocated object is what a
 * per-instance store would be.
 * The cosine similarity (numpy norms and dot products) is a parameter.
 */
module VectorStore {
  import opened Wrappers
  import opened Strings
  import opened Sorting

  type Vector = seq<real>

  /** A metadata dictionary; the services store string values only. */
  type Meta = map<string, string>

  /** The similarity of a stored vector to the query vector. */
  type Similarity = (Vector, Vector) -> real

  /** `not any(meta.get(k) != v for k, v in filters.items())`, an empty filter matching everything. */
  predicate Matches(meta: Meta, filters: Meta) {
    forall k :: k in filters ==> k in meta && meta[k] == filters[k]
  }

  /** The (similarity, metadata) pairs of the stored entries that pass the filters, in insertion order. */
  function Candidates(vectors: seq<Vector>, metadata: seq<Meta>, q: Vector, filters: Meta, sim: Similarity): (r: seq<(real, Meta)>)
    requires |vectors| == |metadata|
    ensures |r| <= |vectors|
  {
    if vectors == [] then []
    else
      var n := |vectors| - 1;
      Candidates(vectors[..n], metadata[..n], q, filters, sim)
        + (if Matches(metadata[n], filters) then [(sim(vectors[n], q), metadata[n])] else [])
  }

  /** What `query` returns for the given store contents. */
  function QueryResult(vectors: seq<Vector>, metadata: seq<Meta>, q: Vector, topK: int, filters: Meta, sim: Similarity): seq<(real, Meta)>
    requires |vectors| == |metadata|
  {
    if vectors == [] then [] else Slice(SortDesc(Candidates(vectors, metadata, q, filters, sim)), topK)
  }

  /** The class-level lists `_store_vectors` and `_store_metadata`. */
  class LocalVectorStore {
    var vectors: seq<Vector>
    var metadata: seq<Meta>

    /** The two lists stay parallel. */
    ghost predicate Valid()
      reads this
    {
      |vectors| == |metadata|
    }

    /** The lists as the class body creates them: empty. */
    constructor ()
      ensures Valid()
      ensures vectors == [] && metadata == []
    {
      vectors := [];
      metadata := [];
    }

    /** `upsert`: appends the pairs of `zip(vs, ms)`, in order. */
    method Upsert(vs: seq<Vector>, ms: seq<Meta>)
      requires Valid()
      modifies this
      ensures Valid()
      ensures var n := if |vs| <= |ms| then |vs| else |ms|;
        vectors == old(vectors) + vs[..n] && metadata == old(metadata) + ms[..n]
    {
      var n := if |vs| <= |ms| then |vs| else |ms|;
      var i := 0;
      while i < n
        invariant 0 <= i <= n
        invariant vectors == old(vectors) + vs[..i] && metadata == old(metadata) + ms[..i]
      {
        vectors := vectors + [vs[i]];
        metadata := metadata + [ms[i]];
        assert vs[..i + 1] == vs[..i] + [vs[i]];
        assert ms[..i + 1] == ms[..i] + [ms[i]];
        i := i + 1;
      }
    }

    /** `query`: the filtered entries by descending similarity (ties in insertion order), cut to `top_k`. */
    method Query(q: Vector, topK: int, filters: Meta, sim: Similarity) returns (results: seq<(real, Meta)>)
      requires Valid()
      ensures results == QueryResult(vectors, metadata, q, topK, filters, sim)
    {
      if vectors == [] {
        return [];
      }
      results := [];
      for i := 0 to |vectors|
        invariant results == Candidates(vectors[..i], metadata[..i], q, filters, sim)
      {
        assert vectors[..i + 1][..i] == vectors[..i];
        assert metadata[..i + 1][..i] == metadata[..i];
        if !Matches(metadata[i], filters) {
          continue;
        }
        results := results + [(sim(vectors[i], q), metadata[i])];
      }
      assert vectors[..|vectors|] == vectors && metadata[..|metadata|] == metadata;
      results := Slice(SortDesc(results), topK);
    }
  }

  // ---------------------------------------------------------------- properties of a query

  /** Every candidate passes the filters and is the similarity and metadata of one stored entry. */
  lemma {:induction false} CandidatesFromStore(vectors: seq<Vector>, metadata: seq<Meta>, q: Vector, filters: Meta, sim: Similarity)
    requires |vectors| == |metadata|
    ensures forall c :: c in Candidates(vectors, metadata, q, filters, sim) ==>
      Matches(c.1, filters) && exists i :: 0 <= i < |vectors| && c == (sim(vectors[i], q), metadata[i])
  {
    if vectors != [] {
      var n := |vectors| - 1;
      CandidatesFromStore(vectors[..n], metadata[..n], q, filters, sim);
      forall c | c in Candidates(vectors, metadata, q, filters, sim)
        ensures Matches(c.1, filters) && exists i :: 0 <= i < |vectors| && c == (sim(vectors[i], q), metadata[i])
      {
        if c in Candidates(vectors[..n], metadata[..n], q, filters, sim) {
          var i :| 0 <= i < n && c == (sim(vectors[..n][i], q), metadata[..n][i]);
          assert vectors[..n][i] == vectors[i] && metadata[..n][i] == metadata[i];
        } else {
          assert c == (sim(vectors[n], q), metadata[n]);
        }
      }
    }
  }

  /** Every stored entry that passes the filters is a candidate. */
  lemma {:induction false} CandidatesComplete(vectors: seq<Vector>, metadata: seq<Meta>, q: Vector, filters: Meta, sim: Similarity, i: nat)
    requires |vectors| == |metadata|
    requires i < |vectors| && Matches(metadata[i], filters)
    ensures (sim(vectors[i], q), metadata[i]) in Candidates(vectors, metadata, q, filters, sim)
    decreases |vectors|
  {
    var n := |vectors| - 1;
    if i < n {
      CandidatesComplete(vectors[..n], metadata[..n], q, filters, sim, i);
      assert vectors[..n][i] == vectors[i] && metadata[..n][i] == metadata[i];
    }
  }

  /** An empty store answers every query with no results. */
  lemma {:induction false} QueryEmptyStore(q: Vector, topK: int, filters: Meta, sim: Similarity)
    ensures QueryResult([], [], q, topK, filters, sim) == []
  {
  }

  lemma {:induction false} WithKeyPrefix<T>(s: seq<(real, T)>, n: nat, k: real)
    requires n <= |s|
    ensures WithKey(s[..n], k) <= WithKey(s, k)
    decreases |s|
  {
    if n < |s| {
      var init := s[..|s| - 1];
      WithKeyPrefix(init, n, k);
      assert init[..n] == s[..n];
    } else {
      assert s[..n] == s;
    }
  }

  /**
   * The first `top_k` of the sorted pairs: at most `top_k` of them, by
   * non-increasing key, equal keys in their original order, each one of
   * the pairs, and all of them when `top_k` reaches their number.
   */
  lemma {:induction false} TopSorted<T>(cands: seq<(real, T)>, topK: int)
    ensures var r := Slice(SortDesc(cands), topK);
      && (topK >= 0 ==> |r| <= topK)
      && NonIncreasing(r)
      && (forall k :: WithKey(r, k) <= WithKey(cands, k))
      && (forall x :: x in r ==> x in cands)
      && (topK >= |cands| ==> multiset(r) == multiset(cands))
  {
    var sorted := SortDesc(cands);
    var r := Slice(sorted, topK);
    SortDescSorted(cands);
    SortDescPermutation(cands);
    var n := |r|;
    assert r == sorted[..n];
    forall k
      ensures WithKey(r, k) <= WithKey(cands, k)
    {
      WithKeyPrefix(sorted, n, k);
      SortDescStable(cands, k);
    }
    forall x | x in r
      ensures x in cands
    {
      assert x in multiset(sorted);
    }
    if topK >= |cands| {
      assert r == sorted;
    }
  }

  /**
   * The first `top_k` of the sorted pairs are exactly `min(top_k, len)` of
   * them, and no pair left out has a larger key than a pair kept.
   */
  lemma {:induction false} TopBest<T>(cands: seq<(real, T)>, topK: int)
    ensures var r := Slice(SortDesc(cands), topK);
      && (topK >= 0 ==> |r| == if topK <= |cands| then topK else |cands|)
      && (forall x, y :: x in cands && x !in r && y in r ==> x.0 <= y.0)
  {
    var sorted := SortDesc(cands);
    var r := Slice(sorted, topK);
    SortDescSorted(cands);
    SortDescPermutation(cands);
    var n := |r|;
    assert r == sorted[..n];
    forall x, y | x in cands && x !in r && y in r
      ensures x.0 <= y.0
    {
      assert x in multiset(sorted);
      var i :| 0 <= i < |sorted| && sorted[i] == x;
      var j :| 0 <= j < n && r[j] == y;
      forall k | 0 <= k < n
        ensures sorted[k] in r
      {
        assert r[k] == sorted[k];
      }
      assert i >= n;
      assert sorted[j] == y;
    }
  }

  /**
   * A query of a non-empty store returns `min(top_k, candidates)` results
   * (when `top_k` is not negative), by non-increasing similarity, with
   * equal similarities in insertion order, each from a stored entry that
   * passes the filters, and no candidate left out is more similar than a
   * candidate returned.
   */
  lemma {:induction false} QueryProperties(vectors: seq<Vector>, metadata: seq<Meta>, q: Vector, topK: int, filters: Meta, sim: Similarity)
    requires |vectors| == |metadata|
    ensures var r := QueryResult(vectors, metadata, q, topK, filters, sim);
      var cands := Candidates(vectors, metadata, q, filters, sim);
      && (topK >= 0 ==> |r| <= topK)
      && NonIncreasing(r)
      && (forall k :: WithKey(r, k) <= WithKey(cands, k))
      && (forall i :: 0 <= i < |r| ==>
            Matches(r[i].1, filters) && exists j :: 0 <= j < |vectors| && r[i] == (sim(vectors[j], q), metadata[j]))
      && (topK >= |cands| ==> multiset(r) == multiset(cands))
      && (vectors != [] && topK >= 0 ==> |r| == if topK <= |cands| then topK else |cands|)
      && (forall x, y :: x in cands && x !in r && y in r ==> x.0 <= y.0)
  {
    if vectors != [] {
      var r := QueryResult(vectors, metadata, q, topK, filters, sim);
      var cands := Candidates(vectors, metadata, q, filters, sim);
      TopSorted(cands, topK);
      TopBest(cands, topK);
      CandidatesFromStore(vectors, metadata, q, filters, sim);
      forall i | 0 <= i < |r|
        ensures Matches(r[i].1, filters) && exists j :: 0 <= j < |vectors| && r[i] == (sim(vectors[j], q), metadata[j])
      {
        assert r[i] in r;
      }
    }
  }
}
