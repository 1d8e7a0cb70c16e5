/**
 * Keyword classification, bucketing, deduplication and the merge of the
 * TF-IDF ranking with the language model's reply
 * (backend/app/services/pipeline.py, `extract_and_classify` and helpers).
 *
 * The TF-IDF ranking itself is an input: the top terms, best first, each
 * with its weight already divided by the best score.
 */
module Keywords {
  import opened Wrappers
  import opened Strings
  import opened Text
  import opened Schemas
  import opened Dedupe

  const ActionVerbTerms: set<string> := {
    "led", "lead", "managed", "built", "designed", "implemented", "optimized", "delivered",
    "improved", "architected", "automated", "developed", "deployed", "migrated", "refactored", "mentored"
  }

  const EducationTerms: set<string> := {
    "bachelors", "bachelor", "masters", "master", "phd", "mba", "degree", "computer science",
    "information technology", "engineering", "certification", "aws certified", "azure certified",
    "google cloud certified"
  }

  const ToolTerms: set<string> := {
    "python", "java", "javascript", "typescript", "node", "react", "nextjs", "aws", "gcp", "azure",
    "docker", "kubernetes", "sql", "postgres", "mysql", "redis", "spark", "hadoop", "pytorch",
    "tensorflow", "scikit-learn", "sklearn", "pandas", "numpy", "airflow", "kafka"
  }

  const ResponsibilityTerms: set<string> := {
    "ownership", "collaboration", "communication", "roadmap", "planning", "delivery", "stakeholder",
    "requirements", "testing", "monitoring", "observability", "mentorship", "leadership"
  }

  predicate HasDigit(s: string) {
    exists i :: 0 <= i < |s| && IsDigit(s[i])
  }

  /** A phrase of several words whose first word is an action verb. */
  predicate IsVerbPhrase(key: string) {
    var ws := Words(key);
    |ws| > 1 && ws[0] in ActionVerbTerms
  }

  /** `classify_keyword`: the first rule of the chain that applies to the lower-cased keyword. */
  function ClassifyKeyword(keyword: string): Category
  {
    var key := Lower(keyword);
    if key in ActionVerbTerms then ActionVerbs
    else if key in EducationTerms then Education
    else if key in ToolTerms then Tools
    else if key in ResponsibilityTerms then Responsibilities
    else if HasDigit(key) then Tools
    else if IsVerbPhrase(key) then Responsibilities
    else Skills
  }

  /**
   * The rule chain read category by category: each category is returned
   * exactly when its own rule applies and no earlier rule does.
   */
  lemma {:induction false} ClassifyKeywordRules(keyword: string)
    ensures var key := Lower(keyword);
      var inSets := key in ActionVerbTerms || key in EducationTerms || key in ToolTerms || key in ResponsibilityTerms;
      && (ClassifyKeyword(keyword) == ActionVerbs <==> key in ActionVerbTerms)
      && (ClassifyKeyword(keyword) == Education <==> key in EducationTerms && key !in ActionVerbTerms)
      && (ClassifyKeyword(keyword) == Tools <==>
            key !in ActionVerbTerms && key !in EducationTerms && (key in ToolTerms || (!inSets && HasDigit(key))))
      && (ClassifyKeyword(keyword) == Responsibilities <==>
            key !in ActionVerbTerms && key !in EducationTerms && key !in ToolTerms
            && (key in ResponsibilityTerms || (!HasDigit(key) && IsVerbPhrase(key))))
      && (ClassifyKeyword(keyword) == Skills <==> !inSets && !HasDigit(key) && !IsVerbPhrase(key))
  {
  }

  lemma {:induction false} LowerIdempotent(s: string)
    ensures Lower(Lower(s)) == Lower(s)
  {
  }

  /** Classification ignores letter case. */
  lemma {:induction false} ClassifyIgnoresCase(keyword: string)
    ensures ClassifyKeyword(Lower(keyword)) == ClassifyKeyword(keyword)
  {
    LowerIdempotent(keyword);
  }

  /** `_add_to_bucket`: appends the keyword to its category's bucket and to no other. */
  function AddToBucket(b: Buckets, keyword: string, c: Category): (r: Buckets)
    ensures r.Get(c) == b.Get(c) + [keyword]
    ensures forall d :: d != c ==> r.Get(d) == b.Get(d)
  {
    match c
    case Skills => b.(skills := b.skills + [keyword])
    case Tools => b.(tools := b.tools + [keyword])
    case Responsibilities => b.(responsibilities := b.responsibilities + [keyword])
    case Education => b.(education := b.education + [keyword])
    case ActionVerbs => b.(actionVerbs := b.actionVerbs + [keyword])
  }

  /** The buckets built by adding every ranked keyword, in order, to its category. */
  function Bucketize(rs: seq<RankedKeyword>): Buckets {
    if rs == [] then EmptyBuckets()
    else AddToBucket(Bucketize(rs[..|rs| - 1]), rs[|rs| - 1].keyword, rs[|rs| - 1].category)
  }

  /** The keywords of the ranked entries of one category, in order. */
  function KeywordsOf(rs: seq<RankedKeyword>, c: Category): seq<string> {
    if rs == [] then []
    else KeywordsOf(rs[..|rs| - 1], c) + (if rs[|rs| - 1].category == c then [rs[|rs| - 1].keyword] else [])
  }

  /** Each bucket holds exactly the keywords ranked in its category, in ranking order. */
  lemma {:induction false} BucketizeGet(rs: seq<RankedKeyword>, c: Category)
    ensures Bucketize(rs).Get(c) == KeywordsOf(rs, c)
  {
    if rs != [] {
      BucketizeGet(rs[..|rs| - 1], c);
    }
  }

  // ---------------------------------------------------------------- deduplication

  function KeywordOf(rk: RankedKeyword): string { rk.keyword }

  function Same(s: string): string { s }

  /** `_dedupe_ranked`: the first entry of every keyword, in order. */
  method DedupeRanked(ranked: seq<RankedKeyword>) returns (unique: seq<RankedKeyword>)
    ensures unique == Unique(ranked, KeywordOf)
  {
    var seen: set<string> := {};
    unique := [];
    for i := 0 to |ranked|
      invariant unique + UniqueFrom(ranked[i..], KeywordOf, seen) == Unique(ranked, KeywordOf)
    {
      var rk := ranked[i];
      assert ranked[i..] == [rk] + ranked[i + 1..];
      if rk.keyword in seen {
        continue;
      }
      seen := seen + {rk.keyword};
      unique := unique + [rk];
    }
  }

  /** `_dedupe_list`: the first occurrence of every string, in order. */
  method DedupeList(items: seq<string>) returns (result: seq<string>)
    ensures result == Unique(items, Same)
  {
    var seen: set<string> := {};
    result := [];
    for i := 0 to |items|
      invariant result + UniqueFrom(items[i..], Same, seen) == Unique(items, Same)
    {
      var item := items[i];
      assert items[i..] == [item] + items[i + 1..];
      if item in seen {
        continue;
      }
      seen := seen + {item};
      result := result + [item];
    }
  }

  /** Every bucket deduplicated on its own. */
  function UniqueBuckets(b: Buckets): (r: Buckets)
    ensures forall c :: r.Get(c) == Unique(b.Get(c), Same)
  {
    Buckets(Unique(b.skills, Same), Unique(b.tools, Same), Unique(b.responsibilities, Same),
            Unique(b.education, Same), Unique(b.actionVerbs, Same))
  }

  /** `_dedupe_buckets`. */
  method DedupeBuckets(b: Buckets) returns (r: Buckets)
    ensures r == UniqueBuckets(b)
  {
    var skills := DedupeList(b.skills);
    var tools := DedupeList(b.tools);
    var responsibilities := DedupeList(b.responsibilities);
    var education := DedupeList(b.education);
    var actionVerbs := DedupeList(b.actionVerbs);
    r := Buckets(skills, tools, responsibilities, education, actionVerbs);
  }

  /** Deduplicating buckets a second time changes nothing. */
  lemma {:induction false} UniqueBucketsIdempotent(b: Buckets)
    ensures UniqueBuckets(UniqueBuckets(b)) == UniqueBuckets(b)
  {
    forall c: Category ensures Unique(Unique(b.Get(c), Same), Same) == Unique(b.Get(c), Same) {
      UniqueIdempotent(b.Get(c), Same);
    }
    var u := UniqueBuckets(b);
    var uu := UniqueBuckets(u);
    assert uu.skills == uu.Get(Skills) && u.skills == u.Get(Skills);
    assert uu.tools == uu.Get(Tools) && u.tools == u.Get(Tools);
    assert uu.responsibilities == uu.Get(Responsibilities) && u.responsibilities == u.Get(Responsibilities);
    assert uu.education == uu.Get(Education) && u.education == u.Get(Education);
    assert uu.actionVerbs == uu.Get(ActionVerbs) && u.actionVerbs == u.Get(ActionVerbs);
  }

  // ---------------------------------------------------------------- merge

  /** A value of the model's JSON reply: a list of strings, an integer, or anything else. */
  datatype LlmValue = List(items: seq<string>) | Number(n: int) | Other

  /** The language model call either raised or returned a JSON object (its key/value pairs, in order). */
  datatype LlmReply = Raised(message: string) | Returned(entries: seq<(string, LlmValue)>)

  const LatencyKey: string := "_latency_ms"

  /** `d.pop(k, None)`: the value stored under `k`. */
  function Lookup(entries: seq<(string, LlmValue)>, k: string): (r: Option<LlmValue>)
    ensures r.Some? <==> exists i :: 0 <= i < |entries| && entries[i].0 == k
  {
    if entries == [] then None
    else if entries[0].0 == k then Some(entries[0].1)
    else Lookup(entries[1..], k)
  }

  /** The object after `d.pop(k, None)`: the entries under `k` are gone and every other entry stays,
      as often as it occurred; without `k` the object is unchanged. */
  function Remove(entries: seq<(string, LlmValue)>, k: string): (r: seq<(string, LlmValue)>)
    ensures forall i :: 0 <= i < |r| ==> r[i].0 != k && r[i] in entries
    ensures forall e: (string, LlmValue) :: e in r <==> e in entries && e.0 != k
    ensures forall e: (string, LlmValue) :: e.0 != k ==> multiset(r)[e] == multiset(entries)[e]
    ensures |r| <= |entries|
    ensures (forall i :: 0 <= i < |entries| ==> entries[i].0 != k) ==> r == entries
  {
    if entries == [] then []
    else
      assert entries == [entries[0]] + entries[1..];
      (if entries[0].0 == k then [] else [entries[0]]) + Remove(entries[1..], k)
  }

  /** A TF-IDF term becomes a keyword when its stripped form has at least two characters. */
  function TfidfKeywords(top: seq<(string, real)>): seq<RankedKeyword> {
    if top == [] then []
    else TfidfKeywords(top[..|top| - 1]) + TermKeyword(top[|top| - 1].0, top[|top| - 1].1)
  }

  /** The keywords of one more term extend the keywords so far by that term's keyword. */
  lemma {:induction false} TfidfKeywordsStep(top: seq<(string, real)>, i: nat)
    requires i < |top|
    ensures TfidfKeywords(top[..i + 1]) == TfidfKeywords(top[..i]) + TermKeyword(top[i].0, top[i].1)
  {
    PrefixStep(top, i);
  }

  /** One TF-IDF term: its stripped form, classified, when that has at least two characters. */
  function TermKeyword(term: string, weight: real): seq<RankedKeyword> {
    var keyword := Strip(term);
    if keyword == [] || |keyword| < 2 then [] else [RankedKeyword(keyword, ClassifyKeyword(keyword), weight)]
  }

  /** The category of a model keyword: the key when it names a bucket, else the rule chain. */
  function CategoryFor(key: string, keyword: string): Category {
    match ParseCategory(key)
    case Some(c) => c
    case None => ClassifyKeyword(keyword)
  }

  /** The keywords contributed by the items of one list value. */
  function ItemKeywords(key: string, items: seq<string>): seq<RankedKeyword> {
    if items == [] then []
    else ItemKeywords(key, items[..|items| - 1]) + ItemTail(key, items[|items| - 1])
  }

  /** The keyword the merge loop emits for one item under `key`. */
  function ItemKeyword(key: string, item: string): RankedKeyword
  {
    RankedKeyword(NormalizeText(item), CategoryFor(key, NormalizeText(item)), 1.0)
  }

  /** One item's contribution: its keyword, unless its normalised form is empty. */
  function ItemTail(key: string, item: string): seq<RankedKeyword>
  {
    if NormalizeText(item) == [] then [] else [ItemKeyword(key, item)]
  }

  /** The keywords of one key/value pair: none for `_`-prefixed keys and non-list values. */
  function EntryKeywords(key: string, value: LlmValue): seq<RankedKeyword> {
    if "_" <= key then []
    else match value
      case List(items) => ItemKeywords(key, items)
      case _ => []
  }

  function LlmKeywords(entries: seq<(string, LlmValue)>): seq<RankedKeyword> {
    if entries == [] then []
    else LlmKeywords(entries[..|entries| - 1]) + EntryKeywords(entries[|entries| - 1].0, entries[|entries| - 1].1)
  }

  /** The object the merge loop reads: empty when the call raised, else the reply without its latency. */
  function MergedReply(reply: LlmReply): seq<(string, LlmValue)> {
    match reply
    case Raised(_) => []
    case Returned(entries) => Remove(entries, LatencyKey)
  }

  /** Ranked keywords before deduplication: TF-IDF terms first, then the model's items. */
  function Merged(top: seq<(string, real)>, reply: LlmReply): seq<RankedKeyword> {
    TfidfKeywords(top) + LlmKeywords(MergedReply(reply))
  }

  /** The extraction result `extract_and_classify` returns. */
  function Extraction(text: string, top: seq<(string, real)>, reply: LlmReply): Schemas.Extraction {
    if Tokenize(NormalizeText(text)) == [] then Schemas.Extraction(EmptyBuckets(), [])
    else
      var m := Merged(top, reply);
      Schemas.Extraction(UniqueBuckets(UniqueBuckets(Bucketize(m))), Unique(Unique(m, KeywordOf), KeywordOf))
  }

  // ---------------------------------------------------------------- properties of the merge

  /** A keyword as the merge loop emits it for a model item: normalised, non-empty, weight 1.0. */
  predicate ModelKeyword(rk: RankedKeyword) {
    rk.weight == 1.0 && rk.keyword != [] && IsNormal(rk.keyword)
  }

  /** `rk` comes from an item of a list stored under a key that does not start with `_`, and has that key's category. */
  predicate FromEntry(rk: RankedKeyword, key: string, value: LlmValue) {
    !("_" <= key) && value.List? && FromItems(rk, key, value.items)
  }

  /** `rk` is the normalised form of one of the items, with the key's category. */
  predicate FromItems(rk: RankedKeyword, key: string, items: seq<string>) {
    && rk.category == CategoryFor(key, rk.keyword)
    && exists x :: x in items && rk.keyword == NormalizeText(x)
  }

  /** Every model keyword comes from a list item of the reply, with weight 1.0 and its key's category. */
  lemma {:induction false} LlmKeywordsOrigin(entries: seq<(string, LlmValue)>)
    ensures forall rk :: rk in LlmKeywords(entries) ==>
      ModelKeyword(rk) && exists i :: 0 <= i < |entries| && FromEntry(rk, entries[i].0, entries[i].1)
  {
    forall rk | rk in LlmKeywords(entries)
      ensures ModelKeyword(rk) && exists i :: 0 <= i < |entries| && FromEntry(rk, entries[i].0, entries[i].1)
    {
      var i := LlmKeywordSource(entries, rk);
    }
  }

  /** The index of the reply entry a model keyword comes from. */
  lemma {:induction false} LlmKeywordSource(entries: seq<(string, LlmValue)>, rk: RankedKeyword) returns (i: nat)
    requires rk in LlmKeywords(entries)
    ensures i < |entries| && ModelKeyword(rk) && FromEntry(rk, entries[i].0, entries[i].1)
    decreases |entries|
  {
    var n := |entries| - 1;
    var init, last := entries[..n], entries[n];
    if rk in LlmKeywords(init) {
      i := LlmKeywordSource(init, rk);
      assert init[i] == entries[i];
    } else {
      EntryKeywordsOrigin(last.0, last.1);
      i := n;
    }
  }

  lemma {:induction false} EntryKeywordsOrigin(key: string, value: LlmValue)
    ensures forall rk :: rk in EntryKeywords(key, value) ==> ModelKeyword(rk) && FromEntry(rk, key, value)
  {
    if !("_" <= key) && value.List? {
      ItemKeywordsOrigin(key, value.items);
    }
  }

  lemma {:induction false} ItemKeywordsOrigin(key: string, items: seq<string>)
    ensures forall rk :: rk in ItemKeywords(key, items) ==> ModelKeyword(rk) && FromItems(rk, key, items)
  {
    if items != [] {
      var x := items[|items| - 1];
      ItemKeywordsOrigin(key, items[..|items| - 1]);
      NormalizeIsNormal(x);
      forall rk | rk in ItemKeywords(key, items)
        ensures ModelKeyword(rk) && FromItems(rk, key, items)
      {
        if rk in ItemKeywords(key, items[..|items| - 1]) {
          var y :| y in items[..|items| - 1] && rk.keyword == NormalizeText(y);
          assert y in items;
        } else {
          assert x in items;
        }
      }
    }
  }

  /** Every item whose normalised form is not empty yields its keyword. */
  lemma {:induction false} ItemKeywordsComplete(key: string, items: seq<string>, j: nat)
    requires j < |items| && NormalizeText(items[j]) != []
    ensures ItemKeyword(key, items[j]) in ItemKeywords(key, items)
  {
    var x := items[j];
    AroundIndex(items, j);
    ItemKeywordsAppend(key, items[..j] + [x], items[j + 1..]);
    ItemKeywordsAppend(key, items[..j], [x]);
    ItemKeywordsSnoc(key, [], x);
    assert [] + [x] == [x];
    assert ItemTail(key, x) == [ItemKeyword(key, x)];
    InMiddle(ItemKeywords(key, items[..j]), ItemTail(key, x), ItemKeywords(key, items[j + 1..]), ItemKeyword(key, x));
  }

  /** One more item adds its contribution at the end. */
  lemma {:induction false} ItemKeywordsSnoc(key: string, xs: seq<string>, x: string)
    ensures ItemKeywords(key, xs + [x]) == ItemKeywords(key, xs) + ItemTail(key, x)
  {
    SnocParts(xs, x);
  }

  /** The items' keywords keep the items' order: those of a first part come before those of the rest. */
  lemma {:induction false} ItemKeywordsAppend(key: string, a: seq<string>, b: seq<string>)
    ensures ItemKeywords(key, a + b) == ItemKeywords(key, a) + ItemKeywords(key, b)
    decreases |b|
  {
    if b != [] {
      var n := |b| - 1;
      var tail := ItemTail(key, b[n]);
      ConcatSnoc(a, b);
      ItemKeywordsSnoc(key, a + b[..n], b[n]);
      ItemKeywordsSnoc(key, b[..n], b[n]);
      ItemKeywordsAppend(key, a, b[..n]);
      ConcatAssoc(ItemKeywords(key, a), ItemKeywords(key, b[..n]), tail);
    } else {
      assert a + b == a;
    }
  }

  /**
   * The merge loop misses no item: every item of a list stored under a key
   * not starting with `_` whose normalised form is not empty appears, with
   * weight 1.0 and its key's category.
   */
  lemma {:induction false} LlmKeywordsComplete(entries: seq<(string, LlmValue)>, i: nat, j: nat)
    requires i < |entries| && !("_" <= entries[i].0) && entries[i].1.List?
    requires j < |entries[i].1.items| && NormalizeText(entries[i].1.items[j]) != []
    ensures ItemKeyword(entries[i].0, entries[i].1.items[j]) in LlmKeywords(entries)
  {
    var e := entries[i];
    ItemKeywordsComplete(e.0, e.1.items, j);
    assert EntryKeywords(e.0, e.1) == ItemKeywords(e.0, e.1.items);
    AroundIndex(entries, i);
    LlmKeywordsAppend(entries[..i] + [e], entries[i + 1..]);
    LlmKeywordsAppend(entries[..i], [e]);
    LlmKeywordsSingle(e);
    InMiddle(LlmKeywords(entries[..i]), EntryKeywords(e.0, e.1), LlmKeywords(entries[i + 1..]), ItemKeyword(e.0, e.1.items[j]));
  }

  lemma {:induction false} LlmKeywordsSingle(e: (string, LlmValue))
    ensures LlmKeywords([e]) == EntryKeywords(e.0, e.1)
  {
    SnocParts([], e);
    assert [] + [e] == [e];
  }

  /** The model's keywords keep the reply's key order: those of a first part come before those of the rest. */
  lemma {:induction false} LlmKeywordsAppend(a: seq<(string, LlmValue)>, b: seq<(string, LlmValue)>)
    ensures LlmKeywords(a + b) == LlmKeywords(a) + LlmKeywords(b)
    decreases |b|
  {
    if b != [] {
      var n := |b| - 1;
      var e := EntryKeywords(b[n].0, b[n].1);
      ConcatSnoc(a, b);
      SnocParts(a + b[..n], b[n]);
      SnocParts(b[..n], b[n]);
      LlmKeywordsAppend(a, b[..n]);
      ConcatAssoc(LlmKeywords(a), LlmKeywords(b[..n]), e);
    } else {
      assert a + b == a;
    }
  }

  /** One term yields nothing, or its stripped form of at least two characters, classified by the rule chain. */
  lemma {:induction false} TermKeywordShape(term: string, weight: real) returns (keyword: string)
    ensures keyword == Strip(term)
    ensures TermKeyword(term, weight) == []
      || (|keyword| >= 2 && TermKeyword(term, weight) == [RankedKeyword(keyword, ClassifyKeyword(keyword), weight)])
  {
    keyword := Strip(term);
  }

  /** Every TF-IDF keyword comes from one of the top terms. */
  lemma {:induction false} TfidfKeywordsFrom(top: seq<(string, real)>)
    ensures forall rk :: rk in TfidfKeywords(top) ==>
      exists i :: 0 <= i < |top| && rk in TermKeyword(top[i].0, top[i].1)
  {
    if top != [] {
      var n := |top| - 1;
      var init := top[..n];
      TfidfKeywordsFrom(init);
      forall rk | rk in TfidfKeywords(top)
        ensures exists i :: 0 <= i < |top| && rk in TermKeyword(top[i].0, top[i].1)
      {
        if rk in TfidfKeywords(init) {
          var i :| 0 <= i < |init| && rk in TermKeyword(init[i].0, init[i].1);
          assert top[i] == init[i];
        } else {
          assert rk in TermKeyword(top[n].0, top[n].1);
        }
      }
    }
  }

  /** A keyword of one term is the term stripped, at least two characters long and classified by the rule chain. */
  lemma {:induction false} TermKeywordMember(term: string, weight: real, rk: RankedKeyword)
    requires rk in TermKeyword(term, weight)
    ensures rk.keyword == Strip(term) && rk.weight == weight
    ensures |rk.keyword| >= 2 && !IsSpace(rk.keyword[0]) && !IsSpace(rk.keyword[|rk.keyword| - 1])
    ensures rk.category == ClassifyKeyword(rk.keyword)
  {
    TermKeywordIs(term, weight, rk);
    StripTrimmed(term);
  }

  lemma {:induction false} TermKeywordIs(term: string, weight: real, rk: RankedKeyword)
    requires rk in TermKeyword(term, weight)
    ensures |Strip(term)| >= 2 && rk == RankedKeyword(Strip(term), ClassifyKeyword(Strip(term)), weight)
  {
    var k := Strip(term);
    var x := RankedKeyword(k, ClassifyKeyword(k), weight);
    var s := TermKeyword(term, weight);
    assert s == [] || (|k| >= 2 && s == [x]);
    InSingleton(s, x, rk);
  }

  lemma InSingleton<T>(s: seq<T>, x: T, y: T)
    requires s == [] || s == [x]
    requires y in s
    ensures s == [x] && y == x
  {
  }

  /** TF-IDF keywords: stripped, at least two characters long, classified by the rule chain. */
  lemma {:induction false} TfidfKeywordsShape(top: seq<(string, real)>)
    ensures forall rk :: rk in TfidfKeywords(top) ==>
      && |rk.keyword| >= 2 && !IsSpace(rk.keyword[0]) && !IsSpace(rk.keyword[|rk.keyword| - 1])
      && rk.category == ClassifyKeyword(rk.keyword)
      && exists i :: 0 <= i < |top| && rk.keyword == Strip(top[i].0) && rk.weight == top[i].1
  {
    TfidfKeywordsFrom(top);
    forall rk | rk in TfidfKeywords(top)
      ensures && |rk.keyword| >= 2 && !IsSpace(rk.keyword[0]) && !IsSpace(rk.keyword[|rk.keyword| - 1])
        && rk.category == ClassifyKeyword(rk.keyword)
        && exists i :: 0 <= i < |top| && rk.keyword == Strip(top[i].0) && rk.weight == top[i].1
    {
      var i :| 0 <= i < |top| && rk in TermKeyword(top[i].0, top[i].1);
      TermKeywordMember(top[i].0, top[i].1, rk);
    }
  }

  /** The ranked list has one entry per keyword, the earliest one, and every merged keyword is present. */
  lemma {:induction false} ExtractionRanked(text: string, top: seq<(string, real)>, reply: LlmReply)
    requires Tokenize(NormalizeText(text)) != []
    ensures var e := Extraction(text, top, reply);
      && e.ranked == Unique(Merged(top, reply), KeywordOf)
      && e.ranked == FirstOccurrences(Merged(top, reply), KeywordOf)
      && DistinctKeys(e.ranked, KeywordOf)
      && Keys(e.ranked, KeywordOf) == Keys(Merged(top, reply), KeywordOf)
  {
    var m := Merged(top, reply);
    UniqueIdempotent(m, KeywordOf);
    UniqueIsFirstOccurrences(m, KeywordOf);
    UniqueKeysAndCoverage(m, KeywordOf);
  }

  /** A TF-IDF keyword keeps its TF-IDF entry: a later model duplicate is dropped. */
  lemma {:induction false} TfidfEntryWins(text: string, top: seq<(string, real)>, reply: LlmReply, rk: RankedKeyword)
    requires Tokenize(NormalizeText(text)) != []
    requires rk in Extraction(text, top, reply).ranked
    requires rk.keyword in Keys(TfidfKeywords(top), KeywordOf)
    ensures rk in TfidfKeywords(top)
  {
    ExtractionRanked(text, top, reply);
    FirstSourceWins(TfidfKeywords(top), LlmKeywords(MergedReply(reply)), KeywordOf, rk);
  }

  /** Each bucket holds the deduplicated keywords ranked in its category (so a keyword may sit in two buckets). */
  lemma {:induction false} ExtractionBuckets(text: string, top: seq<(string, real)>, reply: LlmReply, c: Category)
    requires Tokenize(NormalizeText(text)) != []
    ensures Extraction(text, top, reply).keywords.Get(c) == Unique(KeywordsOf(Merged(top, reply), c), Same)
  {
    var m := Merged(top, reply);
    UniqueBucketsIdempotent(Bucketize(m));
    BucketizeGet(m, c);
  }

  /** Text without tokens yields empty buckets and no ranked keywords, whatever the model says. */
  lemma {:induction false} ExtractionWithoutTokens(text: string, top: seq<(string, real)>, reply: LlmReply)
    requires Tokenize(NormalizeText(text)) == []
    ensures Extraction(text, top, reply).ranked == []
    ensures forall c :: Extraction(text, top, reply).keywords.Get(c) == []
  {
  }

  /** "python" is a tool. */
  lemma {:induction false} PythonIsTool()
    ensures ClassifyKeyword("python") == Tools
  {
    assert Lower("python") == "python";
    assert "python" !in ActionVerbTerms;
    assert "python" !in EducationTerms;
    assert "python" in ToolTerms;
  }

  lemma {:induction false} OneTerm(kw: string, w: real)
    requires |kw| >= 2 && !IsSpace(kw[0]) && !IsSpace(kw[|kw| - 1])
    ensures TfidfKeywords([(kw, w)]) == [RankedKeyword(kw, ClassifyKeyword(kw), w)]
  {
    var top := [(kw, w)];
    assert top[..0] == [];
    StripIdentity(kw);
  }

  lemma {:induction false} OneSkillItem(kw: string)
    requires NormalizeText(kw) == kw && kw != []
    ensures ItemKeywords("skills", [kw]) == [RankedKeyword(kw, Skills, 1.0)]
  {
    OneItem("skills", kw);
    assert ParseCategory("skills") == Some(Skills);
  }

  /** A one-item list contributes its normalised item, when that is not empty. */
  lemma {:induction false} OneItem(key: string, item: string)
    ensures var kw := NormalizeText(item);
      ItemKeywords(key, [item]) == if kw == [] then [] else [RankedKeyword(kw, CategoryFor(key, kw), 1.0)]
  {
    assert [item][..0] == [];
  }

  lemma {:induction false} SkillsEntry(items: seq<string>)
    ensures LlmKeywords(MergedReply(Returned([("skills", List(items))]))) == ItemKeywords("skills", items)
  {
    var entries := [("skills", List(items))];
    assert "skills" != LatencyKey;
    assert Remove(entries, LatencyKey) == entries;
    assert "skills"[0] == 's';
    assert entries[..0] == [];
  }

  lemma {:induction false} TwoSourcesMerged(kw: string, w: real)
    requires |kw| >= 2 && IsNormal(kw)
    ensures Merged([(kw, w)], Returned([("skills", List([kw]))]))
      == [RankedKeyword(kw, ClassifyKeyword(kw), w), RankedKeyword(kw, Skills, 1.0)]
  {
    assert !IsSpace(kw[0]) && !IsSpace(kw[|kw| - 1]);
    var reply := Returned([("skills", List([kw]))]);
    OneTerm(kw, w);
    NormalizeOfNormal(kw);
    OneSkillItem(kw);
    SkillsEntry([kw]);
    var a, b := TfidfKeywords([(kw, w)]), LlmKeywords(MergedReply(reply));
    assert b == [RankedKeyword(kw, Skills, 1.0)];
    assert Merged([(kw, w)], reply) == a + b;
    TwoSingles(a, b, RankedKeyword(kw, ClassifyKeyword(kw), w), RankedKeyword(kw, Skills, 1.0));
  }

  lemma {:induction false} TwoSingles<T>(a: seq<T>, b: seq<T>, x: T, y: T)
    requires a == [x] && b == [y]
    ensures a + b == [x, y]
  {
  }

  lemma {:induction false} TwoSourcesRanked(kw: string, c: Category, w: real)
    ensures var m := [RankedKeyword(kw, c, w), RankedKeyword(kw, Skills, 1.0)];
      Unique(Unique(m, KeywordOf), KeywordOf) == [RankedKeyword(kw, c, w)]
  {
    var tf := RankedKeyword(kw, c, w);
    var sk := RankedKeyword(kw, Skills, 1.0);
    var m := [tf, sk];
    assert KeywordOf(tf) == kw && KeywordOf(sk) == kw;
    assert UniqueFrom([sk], KeywordOf, {kw}) == [];
    assert m[1..] == [sk];
    assert {} + {kw} == {kw};
    assert Unique(m, KeywordOf) == [tf];
    assert UniqueFrom([tf], KeywordOf, {}) == [tf] + UniqueFrom([], KeywordOf, {kw});
  }

  lemma {:induction false} TwoSourcesBuckets(kw: string, w: real)
    ensures var m := [RankedKeyword(kw, Tools, w), RankedKeyword(kw, Skills, 1.0)];
      UniqueBuckets(UniqueBuckets(Bucketize(m))) == Buckets([kw], [kw], [], [], [])
  {
    var tf := RankedKeyword(kw, Tools, w);
    var m := [tf, RankedKeyword(kw, Skills, 1.0)];
    assert m[..1] == [tf];
    assert [tf][..0] == [];
    assert Bucketize([tf]) == Buckets([], [kw], [], [], []);
    var b := Bucketize(m);
    assert b == Buckets([kw], [kw], [], [], []);
    assert UniqueFrom([kw], Same, {}) == [kw] + UniqueFrom([], Same, {kw});
    assert UniqueBuckets(b) == b;
  }

  /**
   * A tool keyword (such as "python") ranked by TF-IDF and also listed by
   * the model under skills is ranked once, with its TF-IDF entry, yet sits
   * in both the tools and the skills bucket.
   */
  lemma {:induction false} KeywordInTwoBuckets(text: string, kw: string, w: real)
    requires Tokenize(NormalizeText(text)) != []
    requires |kw| >= 2 && IsNormal(kw) && ClassifyKeyword(kw) == Tools
    ensures var e := Extraction(text, [(kw, w)], Returned([("skills", List([kw]))]));
      && e.ranked == [RankedKeyword(kw, Tools, w)]
      && e.keywords == Buckets([kw], [kw], [], [], [])
  {
    TwoSourcesMerged(kw, w);
    TwoSourcesRanked(kw, Tools, w);
    TwoSourcesBuckets(kw, w);
  }

  /** The premises of `KeywordInTwoBuckets` hold for "python". */
  lemma {:induction false} PythonIsNormalTool()
    ensures IsNormal("python") && ClassifyKeyword("python") == Tools
  {
    PythonIsTool();
  }
}
