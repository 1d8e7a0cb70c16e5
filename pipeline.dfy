/**
 * The stateful part of the ATS pipeline (backend/app/services/pipeline.py):
 * `extract_and_classify` and `semantic_map`, which besides their results
 * record which provider served them in the pipeline's audit fields.
 *
 * The language model's reply, the TF-IDF ranking, the embeddings and the
 * lexical fallback similarities are parameters; the providers that produce
 * them are not part of this model.
 */
module Pipeline {
  import opened Wrappers
  import opened Strings
  import opened Text
  import opened Schemas
  import opened Dedupe
  import K = Keywords
  import opened VectorStore
  import opened Mapping
  import opened Sorting

  /**
   * The embedding provider as `semantic_map` sees it: its name, what it
   * returns for a passage and for a query, and whether embedding the
   * chunks or the keywords raises.
   */
  datatype Embedder = Embedder(name: string, passage: string -> Vector, query: string -> Vector,
                               passageRaises: bool, queryRaises: bool)

  /** `embed(texts)`: one vector per text. */
  function Embedded(texts: seq<string>, f: string -> Vector): (r: seq<Vector>)
    ensures |r| == |texts|
  {
    if texts == [] then [] else Embedded(texts[..|texts| - 1], f) + [f(texts[|texts| - 1])]
  }

  /** Where `semantic_map` takes its hits from: the store when both embedding calls succeed, else the lexical fallback. */
  function SourceFor(embedder: Embedder, chunks: seq<Chunk>, vectors: seq<Vector>, metadata: seq<Meta>,
                     sim: Similarity, lexical: (string, string) -> real): (src: HitSource)
    requires |vectors| == |metadata|
    ensures WellFormed(src)
  {
    if embedder.passageRaises || embedder.queryRaises then LexicalHits(chunks, lexical)
    else StoreHits(vectors, metadata, embedder.query, sim)
  }

  /** The language model fields after a call: provider, fallback flag, latency, fallback reason. */
  datatype LlmAudit = LlmAudit(provider: Option<string>, fallback: Option<bool>, latency: Option<K.LlmValue>, reason: Option<string>)

  /** What `extract_and_classify` records about the model call. */
  function AuditOf(reply: K.LlmReply, providerName: string): LlmAudit {
    match reply
    case Raised(message) => LlmAudit(None, Some(true), None, Some(message))
    case Returned(entries) =>
      var rest := K.Remove(entries, K.LatencyKey);
      LlmAudit(Some(providerName), Some(rest == []), K.Lookup(entries, K.LatencyKey),
               if rest == [] then Some("empty_response") else None)
  }

  /**
   * The fallback flag is set exactly when the call raised or left nothing
   * but the latency, a reason is recorded exactly then, and in that case
   * the model contributes no keyword.
   */
  lemma {:induction false} AuditFallback(reply: K.LlmReply, providerName: string)
    ensures var a := AuditOf(reply, providerName);
      && a.fallback.Some?
      && (a.fallback.value <==> K.MergedReply(reply) == [])
      && (a.reason.Some? <==> a.fallback.value)
      && (a.provider.Some? <==> reply.Returned?)
      && (a.fallback.value ==> K.LlmKeywords(K.MergedReply(reply)) == [])
  {
  }

  lemma {:induction false} BucketizeSnoc(rs: seq<RankedKeyword>, rk: RankedKeyword)
    ensures K.Bucketize(rs + [rk]) == K.AddToBucket(K.Bucketize(rs), rk.keyword, rk.category)
  {
    assert (rs + [rk])[..|rs|] == rs;
  }

  /** The chunks of one section appended to `chunks`. */
  method AppendSection(chunks: seq<Chunk>, section: string, items: seq<string>) returns (r: seq<Chunk>)
    ensures r == chunks + SectionChunks(section, items)
  {
    var added: seq<Chunk> := [];
    for i := 0 to |items|
      invariant added == SectionChunks(section, items[..i])
    {
      SectionChunksStep(section, items, i);
      var text := Strip(items[i]);
      if text == [] {
        continue;
      }
      added := added + [Chunk(section, NormalizeText(text))];
    }
    assert items[..|items|] == items;
    r := chunks + added;
  }

  /** `_build_profile_chunks`. */
  method BuildProfileChunks(p: Profile) returns (chunks: seq<Chunk>)
    ensures chunks == ProfileChunks(p)
  {
    chunks := AppendSection([], "experience", p.experience);
    assert [] + SectionChunks("experience", p.experience) == SectionChunks("experience", p.experience);
    chunks := AppendSection(chunks, "projects", p.projects);
    chunks := AppendSection(chunks, "skills", p.skills);
    chunks := AppendSection(chunks, "education", p.education);
  }

  /** The TF-IDF loop: each term stripped, kept when at least two characters long, classified and bucketed. */
  method RankTfidf(top: seq<(string, real)>) returns (ranked: seq<RankedKeyword>, buckets: Buckets)
    ensures ranked == K.TfidfKeywords(top) && buckets == K.Bucketize(ranked)
  {
    ranked, buckets := [], EmptyBuckets();
    for i := 0 to |top|
      invariant ranked == K.TfidfKeywords(top[..i]) && buckets == K.Bucketize(ranked)
    {
      K.TfidfKeywordsStep(top, i);
      var keyword := Strip(top[i].0);
      if keyword == [] || |keyword| < 2 {
        continue;
      }
      var category := K.ClassifyKeyword(keyword);
      var rk := RankedKeyword(keyword, category, top[i].1);
      BucketizeSnoc(ranked, rk);
      ranked := ranked + [rk];
      buckets := K.AddToBucket(buckets, keyword, category);
    }
    assert top[..|top|] == top;
  }

  lemma {:induction false} BucketizeAppend(a: seq<RankedKeyword>, b: seq<RankedKeyword>, rk: RankedKeyword)
    ensures K.Bucketize(a + (b + [rk])) == K.AddToBucket(K.Bucketize(a + b), rk.keyword, rk.category)
  {
    assert a + (b + [rk]) == (a + b) + [rk];
    BucketizeSnoc(a + b, rk);
  }

  lemma {:induction false} LlmKeywordsStep(entries: seq<(string, K.LlmValue)>, j: nat)
    requires j < |entries|
    ensures K.LlmKeywords(entries[..j + 1]) == K.LlmKeywords(entries[..j]) + K.EntryKeywords(entries[j].0, entries[j].1)
  {
    assert entries[..j + 1][..j] == entries[..j] && entries[..j + 1][j] == entries[j];
  }

  /** The merge loop over the model's key/value pairs. */
  method MergeReply(ranked0: seq<RankedKeyword>, buckets0: Buckets, entries: seq<(string, K.LlmValue)>)
    returns (ranked: seq<RankedKeyword>, buckets: Buckets)
    requires buckets0 == K.Bucketize(ranked0)
    ensures ranked == ranked0 + K.LlmKeywords(entries) && buckets == K.Bucketize(ranked)
  {
    var added: seq<RankedKeyword> := [];
    buckets := buckets0;
    assert ranked0 + added == ranked0;
    for j := 0 to |entries|
      invariant added == K.LlmKeywords(entries[..j]) && buckets == K.Bucketize(ranked0 + added)
    {
      LlmKeywordsStep(entries, j);
      var more;
      more, buckets := MergeEntry(ranked0 + added, buckets, entries[j].0, entries[j].1);
      ConcatAssoc(ranked0, added, more);
      added := added + more;
    }
    assert entries[..|entries|] == entries;
    ranked := ranked0 + added;
  }

  /** One key/value pair of the reply: skipped when the key starts with `_` or the value is not a list. */
  method MergeEntry(ranked0: seq<RankedKeyword>, buckets0: Buckets, key: string, value: K.LlmValue)
    returns (added: seq<RankedKeyword>, buckets: Buckets)
    requires buckets0 == K.Bucketize(ranked0)
    ensures added == K.EntryKeywords(key, value) && buckets == K.Bucketize(ranked0 + added)
  {
    if "_" <= key || !value.List? {
      added, buckets := [], buckets0;
      assert ranked0 + added == ranked0;
      return;
    }
    added, buckets := MergeItems(ranked0, buckets0, key, value.items);
  }

  /**
   * The inner loop over one list: each item normalised, skipped when empty,
   * added with weight 1.0 under the key's category or the rule chain's.
   */
  method MergeItems(ranked0: seq<RankedKeyword>, buckets0: Buckets, key: string, items: seq<string>)
    returns (added: seq<RankedKeyword>, buckets: Buckets)
    requires buckets0 == K.Bucketize(ranked0)
    ensures added == K.ItemKeywords(key, items) && buckets == K.Bucketize(ranked0 + added)
  {
    added, buckets := [], buckets0;
    assert ranked0 + added == ranked0;
    for l := 0 to |items|
      invariant added == K.ItemKeywords(key, items[..l]) && buckets == K.Bucketize(ranked0 + added)
    {
      PrefixSnoc(items, l);
      K.ItemKeywordsSnoc(key, items[..l], items[l]);
      var kw := NormalizeText(items[l]);
      if kw == [] {
        continue;
      }
      var category := K.CategoryFor(key, kw);
      var rk := RankedKeyword(kw, category, 1.0);
      assert K.ItemTail(key, items[l]) == [rk];
      BucketizeAppend(ranked0, added, rk);
      added := added + [rk];
      buckets := K.AddToBucket(buckets, kw, category);
    }
    assert items[..|items|] == items;
  }

  /** The embedding loop: each keyword takes the store's top result, if any. */
  method MapByStore(keywords: seq<string>, store: LocalVectorStore, embedQuery: string -> Vector, sim: Similarity, th: Thresholds)
    returns (m: KeywordMapping)
    requires store.Valid()
    ensures m == MapKeywords(keywords, Hits(keywords, StoreHits(store.vectors, store.metadata, embedQuery, sim)), th)
  {
    ghost var hits := Hits(keywords, StoreHits(store.vectors, store.metadata, embedQuery, sim));
    m := EmptyMapping();
    for i := 0 to |keywords|
      invariant m == MapKeywords(keywords[..i], hits[..i], th)
    {
      assert keywords[..i + 1][..i] == keywords[..i] && keywords[..i + 1][i] == keywords[i];
      assert hits[..i + 1][..i] == hits[..i] && hits[..i + 1][i] == hits[i];
      var results := store.Query(embedQuery(keywords[i]), 1, map[], sim);
      var hit: Option<Hit> := if results == [] then None else Some((results[0].0, TextOf(results[0].1)));
      assert hit == hits[i];
      m := Place(m, keywords[i], hit, th);
    }
    assert keywords[..|keywords|] == keywords && hits[..|hits|] == hits;
  }

  /** The TF-IDF fallback loop: each keyword takes its most similar chunk (the first on ties). */
  method MapByLexical(keywords: seq<string>, chunks: seq<Chunk>, lexical: (string, string) -> real, th: Thresholds)
    returns (m: KeywordMapping)
    ensures m == MapKeywords(keywords, Hits(keywords, LexicalHits(chunks, lexical)), th)
  {
    ghost var hits := Hits(keywords, LexicalHits(chunks, lexical));
    var texts := CorpusTexts(chunks);
    m := EmptyMapping();
    for i := 0 to |keywords|
      invariant m == MapKeywords(keywords[..i], hits[..i], th)
    {
      assert keywords[..i + 1][..i] == keywords[..i] && keywords[..i + 1][i] == keywords[i];
      assert hits[..i + 1][..i] == hits[..i] && hits[..i + 1][i] == hits[i];
      var sims := Similarities(keywords[i], texts, lexical);
      var best := BestIndex(sims);
      var evidence := if chunks == [] then "" else chunks[best].text;
      var hit: Option<Hit> := Some((sims[best], evidence));
      assert hit == hits[i];
      m := Place(m, keywords[i], hit, th);
    }
    assert keywords[..|keywords|] == keywords && hits[..|hits|] == hits;
  }

  /** The constant similarity, used to show what an earlier call's chunks can do. */
  function AlwaysOne(a: Vector, b: Vector): real { 1.0 }

  class Pipeline {
    var lastLlmProvider: Option<string>
    var llmFallback: Option<bool>
    var llmLatency: Option<K.LlmValue>
    var llmFallbackReason: Option<string>
    var lastMappingProvider: Option<string>
    var lastMappingFallback: Option<bool>

    /** Every audit field starts out unset. */
    constructor ()
      ensures lastLlmProvider == None && llmFallback == None && llmLatency == None && llmFallbackReason == None
      ensures lastMappingProvider == None && lastMappingFallback == None
    {
      lastLlmProvider := None;
      llmFallback := None;
      llmLatency := None;
      llmFallbackReason := None;
      lastMappingProvider := None;
      lastMappingFallback := None;
    }

    /** The model call of `extract_and_classify`: the audit fields, and the object the merge loop reads. */
    method RecordLlmCall(reply: K.LlmReply, providerName: string) returns (entries: seq<(string, K.LlmValue)>)
      modifies this
      ensures entries == K.MergedReply(reply)
      ensures LlmAudit(lastLlmProvider, llmFallback, llmLatency, llmFallbackReason) == AuditOf(reply, providerName)
      ensures lastMappingProvider == old(lastMappingProvider) && lastMappingFallback == old(lastMappingFallback)
    {
      lastLlmProvider, llmFallback, llmLatency, llmFallbackReason := None, Some(false), None, None;
      match reply {
        case Raised(message) =>
          entries := [];
          llmFallback, llmFallbackReason := Some(true), Some(message);
        case Returned(raw) =>
          lastLlmProvider := Some(providerName);
          llmLatency := K.Lookup(raw, K.LatencyKey);
          entries := K.Remove(raw, K.LatencyKey);
          if entries == [] {
            llmFallback, llmFallbackReason := Some(true), Some("empty_response");
          }
      }
    }

    /**
     * `extract_and_classify`: `top` is the TF-IDF ranking (best first, weights
     * divided by the best score) and `reply` the model's answer.
     */
    method ExtractAndClassify(text: string, top: seq<(string, real)>, reply: K.LlmReply, providerName: string)
      returns (e: Schemas.Extraction)
      modifies this
      ensures e == K.Extraction(text, top, reply)
      ensures Tokenize(NormalizeText(text)) == [] ==>
        && lastLlmProvider == old(lastLlmProvider) && llmFallback == old(llmFallback)
        && llmLatency == old(llmLatency) && llmFallbackReason == old(llmFallbackReason)
      ensures Tokenize(NormalizeText(text)) != [] ==>
        LlmAudit(lastLlmProvider, llmFallback, llmLatency, llmFallbackReason) == AuditOf(reply, providerName)
      ensures lastMappingProvider == old(lastMappingProvider) && lastMappingFallback == old(lastMappingFallback)
    {
      var tokens := Tokenize(NormalizeText(text));
      if tokens == [] {
        return Schemas.Extraction(EmptyBuckets(), []);
      }
      var entries := RecordLlmCall(reply, providerName);

      var ranked, buckets := RankTfidf(top);
      if entries != [] {
        ranked, buckets := MergeReply(ranked, buckets, entries);
      }
      assert ranked == K.Merged(top, reply);

      ranked := K.DedupeRanked(ranked);
      buckets := K.DedupeBuckets(buckets);
      ranked := K.DedupeRanked(ranked);
      buckets := K.DedupeBuckets(buckets);
      e := Schemas.Extraction(buckets, ranked);
    }

    /**
     * The embedding half of `semantic_map`: the chunk texts (or `["empty
     * profile"]` for none) are embedded, and the store keeps one vector per
     * chunk, with the chunk's metadata (the extra vector of the
     * placeholder text has no metadata to pair with and is dropped).
     */
    static method StoreChunks(store: LocalVectorStore, chunks: seq<Chunk>, passage: string -> Vector)
      requires store.Valid()
      modifies store
      ensures store.Valid()
      ensures store.vectors == old(store.vectors) + Embedded(Texts(chunks), passage)
      ensures store.metadata == old(store.metadata) + Metas(chunks)
    {
      var texts := CorpusTexts(chunks);
      var chunkVectors := Embedded(texts, passage);
      assert chunkVectors[..|chunks|] == Embedded(Texts(chunks), passage) by {
        if chunks == [] {
          assert chunkVectors[..0] == [];
        } else {
          assert chunkVectors[..|chunks|] == chunkVectors;
        }
      }
      var metas := Metas(chunks);
      assert |metas| == |chunks| <= |chunkVectors| && metas[..|chunks|] == metas;
      store.Upsert(chunkVectors, metas);
    }

    /**
     * `semantic_map` against the given store object.  With the embedding
     * path the profile's chunks are appended to the store and each keyword
     * takes the store's top result; if embedding raises, the lexical
     * fallback decides (after the chunks were stored, when only the
     * keyword embedding raised).
     */
    method SemanticMap(ranked: seq<RankedKeyword>, profile: Profile, store: LocalVectorStore, embedder: Embedder,
                       sim: Similarity, lexical: (string, string) -> real, th: Thresholds)
      returns (m: KeywordMapping)
      requires store.Valid()
      modifies this, store
      ensures store.Valid()
      ensures var chunks := ProfileChunks(profile);
        && (embedder.passageRaises ==> store.vectors == old(store.vectors) && store.metadata == old(store.metadata))
        && (!embedder.passageRaises ==>
              && store.vectors == old(store.vectors) + Embedded(Texts(chunks), embedder.passage)
              && store.metadata == old(store.metadata) + Metas(chunks))
      ensures var keywords := QueryKeywords(ranked);
        var src := SourceFor(embedder, ProfileChunks(profile), store.vectors, store.metadata, sim, lexical);
        m == MapKeywords(keywords, Hits(keywords, src), th)
      ensures embedder.passageRaises || embedder.queryRaises ==>
        lastMappingProvider == Some("TFIDF_FALLBACK") && lastMappingFallback == Some(true)
      ensures !embedder.passageRaises && !embedder.queryRaises ==>
        lastMappingProvider == Some(embedder.name) && lastMappingFallback == Some(false)
      ensures lastLlmProvider == old(lastLlmProvider) && llmFallback == old(llmFallback)
      ensures llmLatency == old(llmLatency) && llmFallbackReason == old(llmFallbackReason)
    {
      RecordMapping(embedder);
      var keywords := QueryKeywords(ranked);
      var chunks := BuildProfileChunks(profile);
      if !embedder.passageRaises {
        StoreChunks(store, chunks, embedder.passage);
      }
      m := MapChunks(keywords, chunks, store, embedder, sim, lexical, th);
    }

    /** The mapping fields `semantic_map` sets: the fallback label and flag, or the embedding provider's name. */
    method RecordMapping(embedder: Embedder)
      modifies this
      ensures embedder.passageRaises || embedder.queryRaises ==>
        lastMappingProvider == Some("TFIDF_FALLBACK") && lastMappingFallback == Some(true)
      ensures !embedder.passageRaises && !embedder.queryRaises ==>
        lastMappingProvider == Some(embedder.name) && lastMappingFallback == Some(false)
      ensures lastLlmProvider == old(lastLlmProvider) && llmFallback == old(llmFallback)
      ensures llmLatency == old(llmLatency) && llmFallbackReason == old(llmFallbackReason)
    {
      if embedder.passageRaises || embedder.queryRaises {
        lastMappingProvider, lastMappingFallback := Some("TFIDF_FALLBACK"), Some(true);
      } else {
        lastMappingProvider, lastMappingFallback := Some(embedder.name), Some(false);
      }
    }

    /** The query half of `semantic_map`: the store when both embedding calls succeed, else the lexical fallback. */
    static method MapChunks(keywords: seq<string>, chunks: seq<Chunk>, store: LocalVectorStore, embedder: Embedder,
                            sim: Similarity, lexical: (string, string) -> real, th: Thresholds)
      returns (m: KeywordMapping)
      requires store.Valid()
      ensures m == MapKeywords(keywords, Hits(keywords, SourceFor(embedder, chunks, store.vectors, store.metadata, sim, lexical)), th)
    {
      if embedder.passageRaises || embedder.queryRaises {
        m := MapByLexical(keywords, chunks, lexical, th);
      } else {
        m := MapByStore(keywords, store, embedder.query, sim, th);
      }
    }

    /**
     * `semantic_map` with a store of its own for the call: every keyword is
     * placed in exactly one list, and all evidence is this profile's text.
     */
    method SemanticMapIsolated(ranked: seq<RankedKeyword>, profile: Profile, embedder: Embedder,
                               sim: Similarity, lexical: (string, string) -> real, th: Thresholds)
      returns (m: KeywordMapping)
      modifies this
      ensures |m.matched| + |m.partial| + |m.missing| == if ranked == [] then 1 else |ranked|
      ensures forall e :: e in m.matched + m.partial ==> e.evidence.Some? && FromChunks(e.evidence.value, ProfileChunks(profile))
      ensures forall e :: e in m.missing ==> e.evidence.None? && e.similarity.None?
      ensures ProfileChunks(profile) == [] && !embedder.passageRaises && !embedder.queryRaises ==>
        m.matched == [] && m.partial == [] && KeywordsIn(m.missing) == QueryKeywords(ranked)
    {
      var store := new LocalVectorStore();
      m := SemanticMap(ranked, profile, store, embedder, sim, lexical, th);
      var keywords := QueryKeywords(ranked);
      var chunks := ProfileChunks(profile);
      var src := SourceFor(embedder, chunks, store.vectors, store.metadata, sim, lexical);
      var hits := Hits(keywords, src);
      MapPartition(keywords, hits, th);
      MapEntries(keywords, hits, th);
      EvidenceFromChunks(keywords, src, chunks, th);
      if chunks == [] && !embedder.passageRaises && !embedder.queryRaises {
        assert store.vectors == [];
        forall i | 0 <= i < |hits|
          ensures hits[i].None?
        {
          HitIsBest(src, keywords[i]);
        }
        NoHitsAllMissing(keywords, hits, th);
      }
    }
  }

  /**
   * With the shared store, an empty profile's "placeholder" keyword is
   * matched with the text of a chunk an earlier call stored: the store
   * still holds it, since an empty profile adds nothing.
   */
  lemma {:induction false} SharedStoreLeaks(foreign: string, v: Vector, query: string -> Vector)
    requires foreign != []
    ensures ProfileChunks(EmptyProfile()) == []
    ensures var src := StoreHits([v], [ChunkMeta(Chunk("experience", foreign))], query, AlwaysOne);
      var m := MapKeywords(["placeholder"], Hits(["placeholder"], src), DefaultThresholds());
      && m.matched == [Entry("placeholder", (1.0, foreign))]
      && !FromChunks(foreign, ProfileChunks(EmptyProfile()))
  {
    var meta := ChunkMeta(Chunk("experience", foreign));
    var src := StoreHits([v], [meta], query, AlwaysOne);
    assert Matches(meta, map[]);
    assert [v][..0] == [] && [meta][..0] == [];
    assert Candidates([v], [meta], query("placeholder"), map[], AlwaysOne) == [(1.0, meta)];
    assert SortDesc([(1.0, meta)]) == [(1.0, meta)];
    assert QueryResult([v], [meta], query("placeholder"), 1, map[], AlwaysOne) == [(1.0, meta)];
    assert HitFor(src, "placeholder") == Some((1.0, foreign));
    var hits := Hits(["placeholder"], src);
    assert hits == [Some((1.0, foreign))];
    assert ["placeholder"][..0] == [] && hits[..0] == [];
  }
}
