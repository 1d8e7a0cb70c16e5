/**
 * The keyword-to-evidence mapping of `semantic_map` and the profile chunks
 * it searches (backend/app/services/pipeline.py).
 *
 * Each keyword gets at most one "hit": the best similarity and the text of
 * the chunk it came from.  A hit comes either from the vector store (the
 * embedding path) or from the lexical fallback, whose per-chunk TF-IDF
 * cosine similarities are an oracle.  The hit then decides, by the two
 * thresholds, which of matched / partial / missing the keyword joins.
 */
module Mapping {
  import opened Wrappers
  import opened Strings
  import opened Text
  import opened Schemas
  import opened VectorStore

  // ---------------------------------------------------------------- profile chunks

  /** A profile chunk: the `{"section": ..., "text": ...}` dictionary. */
  datatype Chunk = Chunk(section: string, text: string)

  /** The chunks of one section: every item that is not blank after stripping, normalised. */
  function SectionChunks(section: string, items: seq<string>): seq<Chunk> {
    if items == [] then []
    else
      SectionChunks(section, items[..|items| - 1]) + ItemChunk(section, items[|items| - 1])
  }

  /** One item's chunk: its normalised text, unless it is blank after stripping. */
  function ItemChunk(section: string, item: string): seq<Chunk> {
    var text := Strip(item);
    if text == [] then [] else [Chunk(section, NormalizeText(text))]
  }

  /** The chunks of one more item extend the chunks so far by that item's chunk. */
  lemma {:induction false} SectionChunksStep(section: string, items: seq<string>, i: nat)
    requires i < |items|
    ensures SectionChunks(section, items[..i + 1]) == SectionChunks(section, items[..i]) + ItemChunk(section, items[i])
  {
    PrefixStep(items, i);
  }

  /** `_build_profile_chunks`: experience, projects, skills, education, in that order. */
  function ProfileChunks(p: Profile): seq<Chunk> {
    SectionChunks("experience", p.experience) + SectionChunks("projects", p.projects)
      + SectionChunks("skills", p.skills) + SectionChunks("education", p.education)
  }

  /** Every chunk of a section carries the section name and the normalised text of a non-blank item. */
  lemma {:induction false} SectionChunksOrigin(section: string, items: seq<string>)
    ensures forall c :: c in SectionChunks(section, items) ==>
      c.section == section && IsNormal(c.text) && exists i :: 0 <= i < |items| && Strip(items[i]) != [] && c.text == NormalizeText(Strip(items[i]))
  {
    if items != [] {
      var init := items[..|items| - 1];
      SectionChunksOrigin(section, init);
      NormalizeIsNormal(Strip(items[|items| - 1]));
      forall c | c in SectionChunks(section, items)
        ensures c.section == section && IsNormal(c.text)
        ensures exists i :: 0 <= i < |items| && Strip(items[i]) != [] && c.text == NormalizeText(Strip(items[i]))
      {
        if c in SectionChunks(section, init) {
          var i :| 0 <= i < |init| && Strip(init[i]) != [] && c.text == NormalizeText(Strip(init[i]));
          assert init[i] == items[i];
        }
      }
    }
  }

  /** The chunk texts (`[c["text"] for c in chunks]`). */
  function Texts(chunks: seq<Chunk>): (r: seq<string>)
    ensures |r| == |chunks|
    ensures forall j :: 0 <= j < |r| ==> r[j] == chunks[j].text
  {
    if chunks == [] then [] else Texts(chunks[..|chunks| - 1]) + [chunks[|chunks| - 1].text]
  }

  /** The texts that are embedded or vectorised: the chunk texts, or "empty profile" when there are none. */
  function CorpusTexts(chunks: seq<Chunk>): (r: seq<string>)
    ensures |r| >= 1
    ensures chunks != [] ==> r == Texts(chunks)
  {
    if chunks == [] then ["empty profile"] else Texts(chunks)
  }

  /** The chunk as the metadata dictionary stored next to its vector. */
  function ChunkMeta(c: Chunk): (m: Meta)
    ensures "text" in m && m["text"] == c.text
  {
    map["section" := c.section, "text" := c.text]
  }

  function Metas(chunks: seq<Chunk>): (r: seq<Meta>)
    ensures |r| == |chunks|
    ensures forall j :: 0 <= j < |r| ==> r[j] == ChunkMeta(chunks[j])
  {
    if chunks == [] then [] else Metas(chunks[..|chunks| - 1]) + [ChunkMeta(chunks[|chunks| - 1])]
  }

  /** `meta.get("text", "")`. */
  function TextOf(meta: Meta): string {
    if "text" in meta then meta["text"] else ""
  }

  // ---------------------------------------------------------------- keywords and thresholds

  /** The keyword strings of the ranked list. */
  function Names(ranked: seq<RankedKeyword>): (r: seq<string>)
    ensures |r| == |ranked|
  {
    if ranked == [] then [] else Names(ranked[..|ranked| - 1]) + [ranked[|ranked| - 1].keyword]
  }

  /** The keywords that are mapped: the ranked keywords, or the single "placeholder" when there are none. */
  function QueryKeywords(ranked: seq<RankedKeyword>): (r: seq<string>)
    ensures |r| == if ranked == [] then 1 else |ranked|
    ensures ranked != [] ==> r == Names(ranked)
  {
    if ranked == [] then ["placeholder"] else Names(ranked)
  }

  datatype Thresholds = Thresholds(matchAt: real, partialAt: real)

  /** `_mapping_thresholds` when the environment sets neither variable. */
  function DefaultThresholds(): (t: Thresholds)
    ensures t.matchAt == 0.8 && t.partialAt == 0.65
  {
    Thresholds(0.8, 0.65)
  }

  // ---------------------------------------------------------------- hits

  /** A keyword's best similarity and the evidence text it came with. */
  type Hit = (real, string)

  /** The first index of the largest value (`np.argmax`). */
  function BestIndex(sims: seq<real>): (r: nat)
    requires |sims| > 0
    ensures r < |sims|
    ensures forall j :: 0 <= j < |sims| ==> sims[j] <= sims[r]
    ensures forall j :: 0 <= j < r ==> sims[j] < sims[r]
  {
    if |sims| == 1 then 0
    else
      var b := BestIndex(sims[..|sims| - 1]);
      if sims[|sims| - 1] > sims[b] then |sims| - 1 else b
  }

  /** The embedding path: the store's contents and the embedding of a keyword; the fallback: the chunks and the lexical similarity. */
  datatype HitSource =
    | StoreHits(vectors: seq<Vector>, metadata: seq<Meta>, embedQuery: string -> Vector, sim: Similarity)
    | LexicalHits(chunks: seq<Chunk>, lexical: (string, string) -> real)

  predicate WellFormed(src: HitSource) {
    src.StoreHits? ==> |src.vectors| == |src.metadata|
  }

  /** The lexical similarities of a keyword to every corpus text. */
  function Similarities(kw: string, texts: seq<string>, lexical: (string, string) -> real): (r: seq<real>)
    ensures |r| == |texts|
    ensures forall j :: 0 <= j < |texts| ==> r[j] == lexical(kw, texts[j])
  {
    if texts == [] then [] else Similarities(kw, texts[..|texts| - 1], lexical) + [lexical(kw, texts[|texts| - 1])]
  }

  /**
   * The hit of one keyword: the top query result with its metadata's text
   * (none when the store answers nothing), or the best lexical match with
   * the matching chunk's text ("" when the profile has no chunks).
   */
  function HitFor(src: HitSource, kw: string): Option<Hit>
    requires WellFormed(src)
  {
    match src
    case StoreHits(vectors, metadata, embedQuery, sim) =>
      var results := QueryResult(vectors, metadata, embedQuery(kw), 1, map[], sim);
      if results == [] then None else Some((results[0].0, TextOf(results[0].1)))
    case LexicalHits(chunks, lexical) =>
      var sims := Similarities(kw, CorpusTexts(chunks), lexical);
      var b := BestIndex(sims);
      Some((sims[b], if chunks == [] then "" else chunks[b].text))
  }

  /** The hits of all keywords, in order. */
  function Hits(keywords: seq<string>, src: HitSource): (r: seq<Option<Hit>>)
    requires WellFormed(src)
    ensures |r| == |keywords|
  {
    seq(|keywords|, j requires 0 <= j < |keywords| => HitFor(src, keywords[j]))
  }

  // ---------------------------------------------------------------- the partition

  datatype Band = Match | Partial | Miss

  /** Which list a keyword joins: at least `matchAt`, else at least `partialAt`, else missing. */
  function BandOf(hit: Option<Hit>, th: Thresholds): Band {
    if hit.None? then Miss
    else if hit.value.0 >= th.matchAt then Match
    else if hit.value.0 >= th.partialAt then Partial
    else Miss
  }

  /** The entry a keyword gets when its hit is matched or partial. */
  function Entry(kw: string, hit: Hit): (e: MappingEntry)
    ensures e.keyword == kw && e.evidence == Some(hit.1) && e.similarity == Some(hit.0)
  {
    MappingEntry(kw, Some(hit.1), Some(hit.0))
  }

  /** One step of the loop: the keyword's entry appended to the list its hit selects. */
  function Place(m: KeywordMapping, kw: string, hit: Option<Hit>, th: Thresholds): KeywordMapping {
    match BandOf(hit, th)
    case Match => m.(matched := m.matched + [Entry(kw, hit.value)])
    case Partial => m.(partial := m.partial + [Entry(kw, hit.value)])
    case Miss => m.(missing := m.missing + [BareEntry(kw)])
  }

  /** The mapping of all keywords, in order, each with its hit. */
  function MapKeywords(keywords: seq<string>, hits: seq<Option<Hit>>, th: Thresholds): KeywordMapping
    requires |hits| == |keywords|
  {
    if keywords == [] then EmptyMapping()
    else
      var n := |keywords| - 1;
      Place(MapKeywords(keywords[..n], hits[..n], th), keywords[n], hits[n], th)
  }

  /** Reference definition: the keywords whose hit falls in `band`, in input order. */
  function Select(keywords: seq<string>, hits: seq<Option<Hit>>, th: Thresholds, band: Band): seq<string>
    requires |hits| == |keywords|
  {
    if keywords == [] then []
    else
      var n := |keywords| - 1;
      Select(keywords[..n], hits[..n], th, band) + (if BandOf(hits[n], th) == band then [keywords[n]] else [])
  }

  /** The keywords of a list of entries. */
  function KeywordsIn(es: seq<MappingEntry>): (r: seq<string>)
    ensures |r| == |es|
  {
    if es == [] then [] else KeywordsIn(es[..|es| - 1]) + [es[|es| - 1].keyword]
  }

  lemma {:induction false} KeywordsInSnoc(es: seq<MappingEntry>, e: MappingEntry)
    ensures KeywordsIn(es + [e]) == KeywordsIn(es) + [e.keyword]
  {
    assert (es + [e])[..|es|] == es;
  }

  /** Placing one keyword appends it to the list of its band and to no other. */
  lemma {:induction false} PlaceKeywords(m: KeywordMapping, kw: string, hit: Option<Hit>, th: Thresholds)
    ensures var r := Place(m, kw, hit, th);
      && KeywordsIn(r.matched) == KeywordsIn(m.matched) + (if BandOf(hit, th) == Match then [kw] else [])
      && KeywordsIn(r.partial) == KeywordsIn(m.partial) + (if BandOf(hit, th) == Partial then [kw] else [])
      && KeywordsIn(r.missing) == KeywordsIn(m.missing) + (if BandOf(hit, th) == Miss then [kw] else [])
  {
    match BandOf(hit, th)
    case Match => KeywordsInSnoc(m.matched, Entry(kw, hit.value));
    case Partial => KeywordsInSnoc(m.partial, Entry(kw, hit.value));
    case Miss => KeywordsInSnoc(m.missing, BareEntry(kw));
  }

  /**
   * Each list holds exactly the keywords of its band, in input order, so
   * every keyword lands in exactly one of the three lists.
   */
  lemma {:induction false} MapPartition(keywords: seq<string>, hits: seq<Option<Hit>>, th: Thresholds)
    requires |hits| == |keywords|
    ensures var m := MapKeywords(keywords, hits, th);
      && KeywordsIn(m.matched) == Select(keywords, hits, th, Match)
      && KeywordsIn(m.partial) == Select(keywords, hits, th, Partial)
      && KeywordsIn(m.missing) == Select(keywords, hits, th, Miss)
      && |m.matched| + |m.partial| + |m.missing| == |keywords|
  {
    if keywords != [] {
      var n := |keywords| - 1;
      MapPartition(keywords[..n], hits[..n], th);
      PlaceKeywords(MapKeywords(keywords[..n], hits[..n], th), keywords[n], hits[n], th);
    }
  }

  /** Keywords without a hit are all missing: nothing is matched or partial, and every keyword has a missing entry. */
  lemma {:induction false} NoHitsAllMissing(keywords: seq<string>, hits: seq<Option<Hit>>, th: Thresholds)
    requires |hits| == |keywords|
    requires forall i :: 0 <= i < |hits| ==> hits[i].None?
    ensures var m := MapKeywords(keywords, hits, th);
      m.matched == [] && m.partial == [] && KeywordsIn(m.missing) == keywords
  {
    if keywords != [] {
      var n := |keywords| - 1;
      NoHitsAllMissing(keywords[..n], hits[..n], th);
      var m0 := MapKeywords(keywords[..n], hits[..n], th);
      KeywordsInSnoc(m0.missing, BareEntry(keywords[n]));
      assert keywords[..n] + [keywords[n]] == keywords;
    }
  }

  lemma {:induction false} SelectSnoc(keywords: seq<string>, hits: seq<Option<Hit>>, th: Thresholds, band: Band)
    requires |hits| == |keywords| > 0
    ensures var n := |keywords| - 1;
      Select(keywords, hits, th, band)
        == Select(keywords[..n], hits[..n], th, band) + (if BandOf(hits[n], th) == band then [keywords[n]] else [])
  {
  }

  /** Adding one element to exactly one of three parts of a split adds it to the whole. */
  lemma {:induction false} SplitSnoc<T>(a: seq<T>, b: seq<T>, c: seq<T>, full: seq<T>, a': seq<T>, b': seq<T>, c': seq<T>)
    requires full != []
    requires multiset(a) + multiset(b) + multiset(c) == multiset(full[..|full| - 1])
    requires var x := full[|full| - 1];
      || (a' == a + [x] && b' == b && c' == c) || (a' == a && b' == b + [x] && c' == c)
      || (a' == a && b' == b && c' == c + [x])
    ensures multiset(a') + multiset(b') + multiset(c') == multiset(full)
  {
    var whole, x := full[..|full| - 1], full[|full| - 1];
    assert full == whole + [x];
    assert multiset(full) == multiset(whole) + multiset{x};
    if a' == a + [x] {
      assert multiset(a') == multiset(a) + multiset{x};
    } else if b' == b + [x] {
      assert multiset(b') == multiset(b) + multiset{x};
    } else {
      assert multiset(c') == multiset(c) + multiset{x};
    }
  }

  /** The three selections together are a permutation of the keywords. */
  predicate Covers(keywords: seq<string>, hits: seq<Option<Hit>>, th: Thresholds)
    requires |hits| == |keywords|
  {
    multiset(Select(keywords, hits, th, Match)) + multiset(Select(keywords, hits, th, Partial))
      + multiset(Select(keywords, hits, th, Miss)) == multiset(keywords)
  }

  lemma {:induction false} CoversSnoc(keywords: seq<string>, hits: seq<Option<Hit>>, th: Thresholds)
    requires |hits| == |keywords| > 0
    requires Covers(keywords[..|keywords| - 1], hits[..|keywords| - 1], th)
    ensures Covers(keywords, hits, th)
  {
    var n := |keywords| - 1;
    var k0, h0, kw := keywords[..n], hits[..n], keywords[n];
    SelectSnoc(keywords, hits, th, Match);
    SelectSnoc(keywords, hits, th, Partial);
    SelectSnoc(keywords, hits, th, Miss);
    var a, b, c := Select(k0, h0, th, Match), Select(k0, h0, th, Partial), Select(k0, h0, th, Miss);
    var a', b', c' := Select(keywords, hits, th, Match), Select(keywords, hits, th, Partial), Select(keywords, hits, th, Miss);
    match BandOf(hits[n], th) {
      case Match => assert a' == a + [kw] && b' == b && c' == c;
      case Partial => assert a' == a && b' == b + [kw] && c' == c;
      case Miss => assert a' == a && b' == b && c' == c + [kw];
    }
    SplitSnoc(a, b, c, keywords, a', b', c');
  }

  /** Every keyword is in exactly one band: the three selections together are a permutation of the input. */
  lemma {:induction false} SelectCovers(keywords: seq<string>, hits: seq<Option<Hit>>, th: Thresholds)
    requires |hits| == |keywords|
    ensures multiset(Select(keywords, hits, th, Match)) + multiset(Select(keywords, hits, th, Partial))
      + multiset(Select(keywords, hits, th, Miss)) == multiset(keywords)
    decreases |keywords|
  {
    if keywords != [] {
      var n := |keywords| - 1;
      SelectCovers(keywords[..n], hits[..n], th);
      CoversSnoc(keywords, hits, th);
    }
  }

  /** `e` is the entry of the keyword at some position, built from that position's hit. */
  predicate EntryOfHit(e: MappingEntry, keywords: seq<string>, hits: seq<Option<Hit>>) {
    exists j :: 0 <= j < |keywords| && j < |hits| && keywords[j] == e.keyword
      && e.evidence.Some? && e.similarity.Some? && hits[j] == Some((e.similarity.value, e.evidence.value))
  }

  /**
   * Matched entries carry their hit's evidence and a similarity of at least
   * `matchAt`; partial entries one in [`partialAt`, `matchAt`); missing
   * entries carry neither evidence nor similarity.
   */
  lemma {:induction false} MapEntries(keywords: seq<string>, hits: seq<Option<Hit>>, th: Thresholds)
    requires |hits| == |keywords|
    ensures var m := MapKeywords(keywords, hits, th);
      && (forall e :: e in m.matched ==> EntryOfHit(e, keywords, hits) && e.similarity.value >= th.matchAt)
      && (forall e :: e in m.partial ==>
            EntryOfHit(e, keywords, hits) && th.partialAt <= e.similarity.value && !(e.similarity.value >= th.matchAt))
      && (forall e :: e in m.missing ==> e.evidence.None? && e.similarity.None?)
  {
    if keywords != [] {
      var n := |keywords| - 1;
      MapEntries(keywords[..n], hits[..n], th);
      var m0 := MapKeywords(keywords[..n], hits[..n], th);
      forall e | e in m0.matched + m0.partial
        ensures EntryOfHit(e, keywords, hits)
      {
        assert EntryOfHit(e, keywords[..n], hits[..n]);
        var j :| 0 <= j < n && keywords[..n][j] == e.keyword
          && e.evidence.Some? && e.similarity.Some? && hits[..n][j] == Some((e.similarity.value, e.evidence.value));
        assert keywords[j] == e.keyword && hits[j] == hits[..n][j];
      }
      if BandOf(hits[n], th) != Miss {
        var e := Entry(keywords[n], hits[n].value);
        assert EntryOfHit(e, keywords, hits);
      }
    }
  }

  // ---------------------------------------------------------------- where evidence comes from

  /** `ev` is the text of one of the chunks, or "" when there are no chunks. */
  predicate FromChunks(ev: string, chunks: seq<Chunk>) {
    (chunks == [] && ev == "") || exists j :: 0 <= j < |chunks| && chunks[j].text == ev
  }

  /**
   * A hit from a store holding exactly these chunks, or from the lexical
   * fallback over them, carries the text of one of these chunks; a store
   * holding no chunks gives no hit at all.
   */
  lemma {:induction false} HitEvidence(src: HitSource, chunks: seq<Chunk>, kw: string)
    requires WellFormed(src)
    requires src.StoreHits? ==> src.metadata == Metas(chunks)
    requires src.LexicalHits? ==> src.chunks == chunks
    ensures HitFor(src, kw).Some? ==> FromChunks(HitFor(src, kw).value.1, chunks)
    ensures src.StoreHits? && chunks == [] ==> HitFor(src, kw).None?
  {
    if src.StoreHits? {
      var results := QueryResult(src.vectors, src.metadata, src.embedQuery(kw), 1, map[], src.sim);
      QueryProperties(src.vectors, src.metadata, src.embedQuery(kw), 1, map[], src.sim);
      if results != [] {
        var j :| 0 <= j < |src.vectors| && results[0] == (src.sim(src.vectors[j], src.embedQuery(kw)), src.metadata[j]);
        assert TextOf(results[0].1) == chunks[j].text;
      }
    }
  }

  /**
   * The hit of a keyword is its best one: the store answers with a hit
   * exactly when it holds an entry, and that hit's similarity is at least
   * that of every stored entry; the fallback always answers, with the
   * largest lexical similarity over the corpus texts.
   */
  lemma {:induction false} HitIsBest(src: HitSource, kw: string)
    requires WellFormed(src)
    ensures src.StoreHits? ==> (HitFor(src, kw).Some? <==> src.vectors != [])
    ensures src.StoreHits? && HitFor(src, kw).Some? ==>
      forall j :: 0 <= j < |src.vectors| ==> src.sim(src.vectors[j], src.embedQuery(kw)) <= HitFor(src, kw).value.0
    ensures src.LexicalHits? ==> HitFor(src, kw).Some?
    ensures src.LexicalHits? ==>
      forall t :: t in CorpusTexts(src.chunks) ==> src.lexical(kw, t) <= HitFor(src, kw).value.0
  {
    match src
    case StoreHits(vectors, metadata, embedQuery, sim) =>
      if vectors != [] {
        var q := embedQuery(kw);
        var cands := Candidates(vectors, metadata, q, map[], sim);
        var r := QueryResult(vectors, metadata, q, 1, map[], sim);
        CandidatesComplete(vectors, metadata, q, map[], sim, 0);
        QueryProperties(vectors, metadata, q, 1, map[], sim);
        assert |r| == 1;
        forall j | 0 <= j < |vectors|
          ensures sim(vectors[j], q) <= r[0].0
        {
          CandidatesComplete(vectors, metadata, q, map[], sim, j);
          var c := (sim(vectors[j], q), metadata[j]);
          assert r[0] in r;
          if c in r {
            assert c == r[0];
          }
        }
      }
    case LexicalHits(chunks, lexical) =>
      var texts := CorpusTexts(chunks);
      var sims := Similarities(kw, texts, lexical);
      var b := BestIndex(sims);
      forall t | t in texts
        ensures lexical(kw, t) <= sims[b]
      {
        var j :| 0 <= j < |texts| && texts[j] == t;
        assert sims[j] == lexical(kw, t);
      }
  }

  /** Every matched or partial entry's evidence comes from these chunks. */
  lemma {:induction false} EvidenceFromChunks(keywords: seq<string>, src: HitSource, chunks: seq<Chunk>, th: Thresholds)
    requires WellFormed(src)
    requires src.StoreHits? ==> src.metadata == Metas(chunks)
    requires src.LexicalHits? ==> src.chunks == chunks
    ensures var m := MapKeywords(keywords, Hits(keywords, src), th);
      forall e :: e in m.matched + m.partial ==> e.evidence.Some? && FromChunks(e.evidence.value, chunks)
  {
    var hits := Hits(keywords, src);
    MapEntries(keywords, hits, th);
    var m := MapKeywords(keywords, hits, th);
    forall e | e in m.matched + m.partial
      ensures e.evidence.Some? && FromChunks(e.evidence.value, chunks)
    {
      assert EntryOfHit(e, keywords, hits);
      var j :| 0 <= j < |keywords| && j < |hits| && keywords[j] == e.keyword
        && e.evidence.Some? && e.similarity.Some? && hits[j] == Some((e.similarity.value, e.evidence.value));
      HitEvidence(src, chunks, keywords[j]);
    }
  }
}
