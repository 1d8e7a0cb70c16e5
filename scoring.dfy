/**
 * The ATS score (`compute_ats_score`, `_seniority_alignment`,
 * `_conciseness` and `_build_explanations` in
 * backend/app/services/pipeline.py).
 *
 * Scores are reals; the final `round(..., 2)` is not modelled.
 */
module Scoring {
  import opened Wrappers
  import opened Strings
  import opened Text
  import opened Schemas

  function Min(a: real, b: real): (r: real)
    ensures r <= a && r <= b && (r == a || r == b)
  {
    if a <= b then a else b
  }

  function Max(a: real, b: real): (r: real)
    ensures r >= a && r >= b && (r == a || r == b)
  {
    if a >= b then a else b
  }

  function Abs(x: real): (r: real)
    ensures r >= 0.0 && (r == x || r == -x)
  {
    if x >= 0.0 then x else -x
  }

  // ---------------------------------------------------------------- the weights dictionary

  /** A Python dict from keyword to weight: keys in first-insertion order with their values. */
  type Table = seq<(string, real)>

  /** `d.get(k)`. */
  function Get(d: Table, k: string): Option<real>
  {
    if d == [] then None else if d[0].0 == k then Some(d[0].1) else Get(d[1..], k)
  }

  /** No key occurs twice. */
  predicate IsDict(d: Table)
  {
    d == [] || (Get(d[1..], d[0].0) == None && IsDict(d[1..]))
  }

  /** `d[k] = v`: an existing key keeps its place and takes the new value; a new key goes last. */
  function Put(d: Table, k: string, v: real): (r: Table)
    ensures Get(r, k) == Some(v)
    ensures forall k' :: k' != k ==> Get(r, k') == Get(d, k')
    ensures IsDict(d) ==> IsDict(r)
    ensures forall p :: p in r ==> p == (k, v) || p in d
    ensures Get(d, k) == None ==> r == d + [(k, v)]
  {
    if d == [] then [(k, v)]
    else if d[0].0 == k then [(k, v)] + d[1..]
    else [d[0]] + Put(d[1..], k, v)
  }

  /** `{rk.keyword: rk.weight for rk in ranked}`. */
  function Weights(ranked: seq<RankedKeyword>): (r: Table)
    ensures IsDict(r)
  {
    if ranked == [] then []
    else
      var last := ranked[|ranked| - 1];
      Put(Weights(ranked[..|ranked| - 1]), last.keyword, last.weight)
  }

  /** `sum(d.values())`. */
  function Total(d: Table): real
  {
    if d == [] then 0.0 else Total(d[..|d| - 1]) + d[|d| - 1].1
  }

  /** `sum(weights.values()) or 1.0`. */
  function TotalWeight(ranked: seq<RankedKeyword>): real
  {
    var s := Total(Weights(ranked));
    if s == 0.0 then 1.0 else s
  }

  /** `weights.get(keyword, 0.0)`. */
  function WeightOf(weights: Table, keyword: string): real
  {
    Get(weights, keyword).GetOr(0.0)
  }

  /**
   * The dictionary holds, for each keyword, the weight of its LAST
   * occurrence in the ranked list, and nothing for an absent keyword.
   */
  lemma {:induction false} WeightsLastWins(ranked: seq<RankedKeyword>, k: string)
    ensures Get(Weights(ranked), k) == None <==> forall i :: 0 <= i < |ranked| ==> ranked[i].keyword != k
    ensures forall i :: 0 <= i < |ranked| && ranked[i].keyword == k && (forall j :: i < j < |ranked| ==> ranked[j].keyword != k) ==>
      Get(Weights(ranked), k) == Some(ranked[i].weight)
  {
    WeightsAbsent(ranked, k);
    WeightsLast(ranked, k);
  }

  lemma {:induction false} WeightsAbsent(ranked: seq<RankedKeyword>, k: string)
    ensures Get(Weights(ranked), k) == None <==> forall i :: 0 <= i < |ranked| ==> ranked[i].keyword != k
    decreases |ranked|
  {
    if ranked != [] {
      var n := |ranked| - 1;
      var init := ranked[..n];
      WeightsAbsent(init, k);
      var last := ranked[n];
      assert Weights(ranked) == Put(Weights(init), last.keyword, last.weight);
      if last.keyword == k {
        assert Get(Weights(ranked), k) == Some(last.weight);
      } else {
        assert Get(Weights(ranked), k) == Get(Weights(init), k);
        forall i | 0 <= i < n
          ensures init[i] == ranked[i]
        {
        }
      }
    }
  }

  lemma {:induction false} WeightsLast(ranked: seq<RankedKeyword>, k: string)
    ensures forall i :: 0 <= i < |ranked| && ranked[i].keyword == k && (forall j :: i < j < |ranked| ==> ranked[j].keyword != k) ==>
      Get(Weights(ranked), k) == Some(ranked[i].weight)
    decreases |ranked|
  {
    if ranked != [] {
      var n := |ranked| - 1;
      var init := ranked[..n];
      WeightsLast(init, k);
      forall i | 0 <= i < |ranked| && ranked[i].keyword == k && (forall j :: i < j < |ranked| ==> ranked[j].keyword != k)
        ensures Get(Weights(ranked), k) == Some(ranked[i].weight)
      {
        if i < n {
          assert ranked[n].keyword != k;
          assert init[i] == ranked[i];
          assert forall j :: i < j < |init| ==> init[j] == ranked[j];
        }
      }
    }
  }

  /** Every dictionary entry is the keyword and weight of one ranked keyword. */
  lemma {:induction false} WeightsFromRanked(ranked: seq<RankedKeyword>)
    ensures forall p :: p in Weights(ranked) ==> exists i :: 0 <= i < |ranked| && p == (ranked[i].keyword, ranked[i].weight)
    decreases |ranked|
  {
    if ranked != [] {
      var n := |ranked| - 1;
      WeightsFromRanked(ranked[..n]);
      forall p | p in Weights(ranked)
        ensures exists i :: 0 <= i < |ranked| && p == (ranked[i].keyword, ranked[i].weight)
      {
        if p in Weights(ranked[..n]) {
          var i :| 0 <= i < n && p == (ranked[..n][i].keyword, ranked[..n][i].weight);
          assert ranked[..n][i] == ranked[i];
        } else {
          assert p == (ranked[n].keyword, ranked[n].weight);
        }
      }
    }
  }

  lemma {:induction false} TotalNonNegative(d: Table)
    requires forall p :: p in d ==> p.1 >= 0.0
    ensures Total(d) >= 0.0
    decreases |d|
  {
    if d != [] {
      var init := d[..|d| - 1];
      assert forall p :: p in init ==> p in d;
      TotalNonNegative(init);
      assert d[|d| - 1] in d;
    }
  }

  predicate NonNegativeWeights(ranked: seq<RankedKeyword>)
  {
    forall i :: 0 <= i < |ranked| ==> ranked[i].weight >= 0.0
  }

  /** With non-negative weights the divisor of the coverage is positive. */
  lemma {:induction false} TotalWeightPositive(ranked: seq<RankedKeyword>)
    requires NonNegativeWeights(ranked)
    ensures TotalWeight(ranked) > 0.0
  {
    WeightsFromRanked(ranked);
    TotalNonNegative(Weights(ranked));
  }

  /** The sum of the ranked weights, duplicates included. */
  function RankedSum(ranked: seq<RankedKeyword>): real
  {
    if ranked == [] then 0.0 else RankedSum(ranked[..|ranked| - 1]) + ranked[|ranked| - 1].weight
  }

  predicate DistinctKeywords(ranked: seq<RankedKeyword>)
  {
    forall i, j :: 0 <= i < j < |ranked| ==> ranked[i].keyword != ranked[j].keyword
  }

  /** For a deduplicated ranked list (as extraction produces), the dictionary's total is the plain sum of the weights. */
  lemma {:induction false} TotalOfDistinct(ranked: seq<RankedKeyword>)
    requires DistinctKeywords(ranked)
    ensures Total(Weights(ranked)) == RankedSum(ranked)
    decreases |ranked|
  {
    if ranked != [] {
      var n := |ranked| - 1;
      var init := ranked[..n];
      assert DistinctKeywords(init) by {
        forall i, j | 0 <= i < j < |init|
          ensures init[i].keyword != init[j].keyword
        {
          assert init[i] == ranked[i] && init[j] == ranked[j];
        }
      }
      TotalOfDistinct(init);
      WeightsLastWins(init, ranked[n].keyword);
      forall i | 0 <= i < |init|
        ensures init[i].keyword != ranked[n].keyword
      {
        assert init[i] == ranked[i];
      }
      var w := Weights(init);
      assert Weights(ranked) == w + [(ranked[n].keyword, ranked[n].weight)];
      assert (w + [(ranked[n].keyword, ranked[n].weight)])[..|w|] == w;
    }
  }

  // ---------------------------------------------------------------- sub-scores

  /** The weighted coverage of a list of entries: full credit, or the entry's similarity (`or 0.0`). */
  function CoverageSum(weights: Table, entries: seq<MappingEntry>, full: bool): real
  {
    if entries == [] then 0.0
    else
      var e := entries[|entries| - 1];
      CoverageSum(weights, entries[..|entries| - 1], full)
        + WeightOf(weights, e.keyword) * (if full then 1.0 else e.similarity.GetOr(0.0))
  }

  function CoverageScore(ranked: seq<RankedKeyword>, m: KeywordMapping): real
  {
    var w := Weights(ranked);
    Min((CoverageSum(w, m.matched, true) + CoverageSum(w, m.partial, false)) / TotalWeight(ranked), 1.0)
  }

  predicate NonNegativeSimilarities(entries: seq<MappingEntry>)
  {
    forall i :: 0 <= i < |entries| ==> entries[i].similarity.GetOr(0.0) >= 0.0
  }

  lemma {:induction false} CoverageSumNonNegative(weights: Table, entries: seq<MappingEntry>, full: bool)
    requires forall p :: p in weights ==> p.1 >= 0.0
    requires full || NonNegativeSimilarities(entries)
    ensures CoverageSum(weights, entries, full) >= 0.0
    decreases |entries|
  {
    if entries != [] {
      var n := |entries| - 1;
      var e := entries[n];
      assert full || NonNegativeSimilarities(entries[..n]) by {
        if !full {
          forall i | 0 <= i < n
            ensures entries[..n][i].similarity.GetOr(0.0) >= 0.0
          {
            assert entries[..n][i] == entries[i];
          }
        }
      }
      CoverageSumNonNegative(weights, entries[..n], full);
      var w := WeightOf(weights, e.keyword);
      assert w >= 0.0 by {
        if Get(weights, e.keyword).Some? {
          GetIn(weights, e.keyword);
        }
      }
      var f := if full then 1.0 else e.similarity.GetOr(0.0);
      assert f >= 0.0;
      assert w * f >= 0.0;
    }
  }

  lemma {:induction false} GetIn(d: Table, k: string)
    requires Get(d, k).Some?
    ensures (k, Get(d, k).value) in d
    decreases |d|
  {
    if d[0].0 != k {
      GetIn(d[1..], k);
    }
  }

  /** `normalize_text(title + " " + (company or "")).split()` without the stop words. */
  function RoleTerms(job: Job): seq<string>
  {
    FilterTokens(Words(NormalizeText(job.title + " " + job.company.GetOr(""))))
  }

  /** `any(term in (entry.evidence or "") for term in role_terms)`. */
  predicate HitsRole(terms: seq<string>, e: MappingEntry)
  {
    exists t :: t in terms && Contains(e.evidence.GetOr(""), t)
  }

  /** The number of entries whose evidence contains a role term. */
  function RoleHits(terms: seq<string>, entries: seq<MappingEntry>): (n: nat)
    ensures n <= |entries|
  {
    if entries == [] then 0
    else RoleHits(terms, entries[..|entries| - 1]) + (if HitsRole(terms, entries[|entries| - 1]) then 1 else 0)
  }

  /** `min(hits / (terms or 1), 1.0)`. */
  function Fraction(hits: nat, terms: nat): real
  {
    Min(hits as real / (if terms == 0 then 1 else terms) as real, 1.0)
  }

  function RoleRelevance(job: Job, m: KeywordMapping): real
  {
    var terms := RoleTerms(job);
    Fraction(RoleHits(terms, m.matched + m.partial), |terms|)
  }

  /** The seniority table, in its declaration order. */
  const SeniorityTerms: seq<(string, real)> := [
    ("intern", 0.1), ("junior", 0.4), ("jr", 0.4), ("mid", 0.6), ("senior", 0.8),
    ("sr", 0.8), ("staff", 0.9), ("principal", 1.0), ("lead", 0.9), ("manager", 0.8)
  ]

  /** The value of the first term found in the text, 0.6 when none is. */
  function FirstLevel(text: string, terms: seq<(string, real)>): (r: real)
    ensures (forall i :: 0 <= i < |terms| ==> !Contains(text, terms[i].0)) ==> r == 0.6
  {
    if terms == [] then 0.6
    else if Contains(text, terms[0].0) then terms[0].1
    else FirstLevel(text, terms[1..])
  }

  /** The largest of 0.6 and the values of the terms found in the text. */
  function MaxLevel(text: string, terms: seq<(string, real)>): real
  {
    if terms == [] then 0.6
    else
      var m := MaxLevel(text, terms[..|terms| - 1]);
      var last := terms[|terms| - 1];
      if Contains(text, last.0) then Max(m, last.1) else m
  }

  function JobLevel(job: Job): real
  {
    FirstLevel(NormalizeText(job.title), SeniorityTerms)
  }

  function ProfileLevel(profile: Profile): real
  {
    MaxLevel(NormalizeText(Join(profile.experience + profile.projects, " ")), SeniorityTerms)
  }

  /** `max(0, 1 - |profile - job|)`. */
  function Alignment(profileLevel: real, jobLevel: real): real
  {
    Max(0.0, 1.0 - Abs(profileLevel - jobLevel))
  }

  /** `_seniority_alignment`. */
  function Seniority(job: Job, profile: Profile): real
  {
    Alignment(ProfileLevel(profile), JobLevel(job))
  }

  /** The length of `" ".join(experience + projects + education)`. */
  function TextLength(profile: Profile): nat
  {
    |Join(profile.experience + profile.projects + profile.education, " ")|
  }

  /** `_conciseness`. */
  function Conciseness(profile: Profile): real
  {
    var length := TextLength(profile);
    if length == 0 then 0.7
    else if length <= 1200 then 1.0
    else if length <= 2000 then 0.8
    else if length <= 2800 then 0.6
    else 0.4
  }

  /** `[m for m in entries if m.keyword in edu_keywords]`. */
  function InEducation(entries: seq<MappingEntry>, edu: seq<string>): (r: seq<MappingEntry>)
    ensures |r| <= |entries|
    ensures forall e :: e in r <==> e in entries && e.keyword in edu
  {
    if entries == [] then []
    else
      var rest := InEducation(entries[..|entries| - 1], edu);
      var e := entries[|entries| - 1];
      assert entries == entries[..|entries| - 1] + [e];
      if e.keyword in edu then rest + [e] else rest
  }

  function EducationScore(edu: seq<string>, m: KeywordMapping): real
  {
    if edu == [] then 1.0
    else
      var cov := (|InEducation(m.matched, edu)| as real + 0.5 * |InEducation(m.partial, edu)| as real) / |edu| as real;
      Max(0.0, Min(cov, 1.0))
  }

  // ---------------------------------------------------------------- explanations

  function MissingLines(missing: seq<MappingEntry>): seq<Explanation>
  {
    seq(|missing|, i requires 0 <= i < |missing| => MissingKeyword(missing[i].keyword))
  }

  function PartialLines(partial: seq<MappingEntry>): seq<Explanation>
  {
    seq(|partial|, i requires 0 <= i < |partial| => PartialMatch(partial[i].keyword, partial[i].similarity))
  }

  /** `any(m.keyword in edu_keywords for m in mapping.matched)`. */
  predicate EducationMatched(m: KeywordMapping, edu: seq<string>)
  {
    exists e :: e in m.matched && e.keyword in edu
  }

  /** The lines `_build_explanations` appends, before the "Good alignment" default. */
  function Lines(m: KeywordMapping, edu: seq<string>, conciseness: real, coverage: real): seq<Explanation>
  {
    MissingLines(m.missing) + PartialLines(m.partial) + Checks(m, edu, conciseness, coverage)
  }

  /** The coverage, education and verbosity lines, each when its condition holds. */
  function Checks(m: KeywordMapping, edu: seq<string>, conciseness: real, coverage: real): seq<Explanation>
  {
    (if m.missing == [] && coverage < 0.9 then [CoverageBelowTarget] else [])
      + (if edu != [] && !EducationMatched(m, edu) then [EducationNotSatisfied] else [])
      + (if conciseness < 0.8 then [Verbose] else [])
  }

  function Explanations(m: KeywordMapping, edu: seq<string>, conciseness: real, coverage: real): seq<Explanation>
  {
    var lines := Lines(m, edu, conciseness, coverage);
    if lines == [] then [GoodAlignment] else lines
  }

  // ---------------------------------------------------------------- the score

  /** The score from its five sub-scores: the weighted sum capped at 10, and each sub-score times 10. */
  function Combine(coverage: real, role: real, seniority: real, conciseness: real, edu: real, explanations: seq<Explanation>): AtsScore
  {
    var final := 10.0 * (0.5 * coverage + 0.2 * role + 0.1 * seniority + 0.1 * conciseness + 0.1 * edu);
    AtsScore(Min(final, 10.0),
             Breakdown(coverage * 10.0, role * 10.0, seniority * 10.0, conciseness * 10.0, edu * 10.0),
             explanations)
  }

  function AtsScoreOf(job: Job, profile: Profile, extraction: Schemas.Extraction, m: KeywordMapping): AtsScore
  {
    var coverage := CoverageScore(extraction.ranked, m);
    var conciseness := Conciseness(profile);
    Combine(coverage, RoleRelevance(job, m), Seniority(job, profile), conciseness,
            EducationScore(extraction.keywords.education, m),
            Explanations(m, extraction.keywords.education, conciseness, coverage))
  }

  // ---------------------------------------------------------------- the loops

  method BuildWeights(ranked: seq<RankedKeyword>) returns (weights: Table)
    ensures weights == Weights(ranked)
  {
    weights := [];
    for i := 0 to |ranked|
      invariant weights == Weights(ranked[..i])
    {
      assert ranked[..i + 1][..i] == ranked[..i];
      weights := Put(weights, ranked[i].keyword, ranked[i].weight);
    }
    assert ranked[..|ranked|] == ranked;
  }

  method SumValues(weights: Table) returns (total: real)
    ensures total == Total(weights)
  {
    total := 0.0;
    for i := 0 to |weights|
      invariant total == Total(weights[..i])
    {
      assert weights[..i + 1][..i] == weights[..i];
      total := total + weights[i].1;
    }
    assert weights[..|weights|] == weights;
  }

  method AddCoverage(wc0: real, weights: Table, entries: seq<MappingEntry>, full: bool) returns (wc: real)
    ensures wc == wc0 + CoverageSum(weights, entries, full)
  {
    wc := wc0;
    for i := 0 to |entries|
      invariant wc == wc0 + CoverageSum(weights, entries[..i], full)
    {
      assert entries[..i + 1][..i] == entries[..i];
      var value := if full then 1.0 else entries[i].similarity.GetOr(0.0);
      wc := wc + WeightOf(weights, entries[i].keyword) * value;
    }
    assert entries[..|entries|] == entries;
  }

  method CountRoleHits(terms: seq<string>, entries: seq<MappingEntry>) returns (hits: nat)
    ensures hits == RoleHits(terms, entries)
  {
    hits := 0;
    for i := 0 to |entries|
      invariant hits == RoleHits(terms, entries[..i])
    {
      assert entries[..i + 1][..i] == entries[..i];
      if HitsRole(terms, entries[i]) {
        hits := hits + 1;
      }
    }
    assert entries[..|entries|] == entries;
  }

  /** The title loop of `_seniority_alignment`: the first term found, 0.6 when none is. */
  method FindFirstLevel(text: string, terms: seq<(string, real)>) returns (level: real)
    ensures level == FirstLevel(text, terms)
  {
    level := 0.6;
    var i := 0;
    while i < |terms|
      invariant 0 <= i <= |terms|
      invariant FirstLevel(text, terms[i..]) == FirstLevel(text, terms)
    {
      assert terms[i..][1..] == terms[i + 1..];
      if Contains(text, terms[i].0) {
        level := terms[i].1;
        return;
      }
      i := i + 1;
    }
  }

  /** The profile loop of `_seniority_alignment`: the largest value found, at least 0.6. */
  method FindMaxLevel(text: string, terms: seq<(string, real)>) returns (level: real)
    ensures level == MaxLevel(text, terms)
  {
    level := 0.6;
    for j := 0 to |terms|
      invariant level == MaxLevel(text, terms[..j])
    {
      assert terms[..j + 1][..j] == terms[..j];
      if Contains(text, terms[j].0) {
        level := Max(level, terms[j].1);
      }
    }
    assert terms[..|terms|] == terms;
  }

  /** `_seniority_alignment`: the first table term in the title, and the maximum over the profile text. */
  method SeniorityAlignment(job: Job, profile: Profile) returns (score: real)
    ensures score == Seniority(job, profile)
  {
    var target := FindFirstLevel(NormalizeText(job.title), SeniorityTerms);
    var profileScore := FindMaxLevel(NormalizeText(Join(profile.experience + profile.projects, " ")), SeniorityTerms);
    score := Alignment(profileScore, target);
  }

  /** `_build_explanations`. */
  method BuildExplanations(m: KeywordMapping, edu: seq<string>, conciseness: real, coverage: real)
    returns (explanations: seq<Explanation>)
    ensures explanations == Explanations(m, edu, conciseness, coverage)
  {
    explanations := [];
    for i := 0 to |m.missing|
      invariant explanations == MissingLines(m.missing[..i])
    {
      explanations := explanations + [MissingKeyword(m.missing[i].keyword)];
    }
    assert m.missing[..|m.missing|] == m.missing;
    var partial := [];
    for i := 0 to |m.partial|
      invariant partial == PartialLines(m.partial[..i])
    {
      partial := partial + [PartialMatch(m.partial[i].keyword, m.partial[i].similarity)];
    }
    assert m.partial[..|m.partial|] == m.partial;
    explanations := explanations + partial;
    if m.missing == [] && coverage < 0.9 {
      explanations := explanations + [CoverageBelowTarget];
    }
    if edu != [] && !EducationMatched(m, edu) {
      explanations := explanations + [EducationNotSatisfied];
    }
    if conciseness < 0.8 {
      explanations := explanations + [Verbose];
    }
    if explanations == [] {
      explanations := [GoodAlignment];
    }
  }

  /** `compute_ats_score`: the weighted sum of the five sub-scores, capped at 10, with its breakdown and explanations. */
  method ComputeAtsScore(job: Job, profile: Profile, extraction: Schemas.Extraction, m: KeywordMapping) returns (score: AtsScore)
    ensures score == AtsScoreOf(job, profile, extraction, m)
  {
    var weights := BuildWeights(extraction.ranked);
    var sum := SumValues(weights);
    var totalWeight := if sum == 0.0 then 1.0 else sum;
    var wc := AddCoverage(0.0, weights, m.matched, true);
    wc := AddCoverage(wc, weights, m.partial, false);
    var coverage := Min(wc / totalWeight, 1.0);
    assert coverage == CoverageScore(extraction.ranked, m);

    var terms := RoleTerms(job);
    var hits := CountRoleHits(terms, m.matched + m.partial);
    var role := Min(hits as real / (if |terms| == 0 then 1 else |terms|) as real, 1.0);
    assert role == Fraction(hits, |terms|);

    var seniority := SeniorityAlignment(job, profile);
    var conciseness := Conciseness(profile);
    var edu := extraction.keywords.education;
    var education := EducationScore(edu, m);

    var explanations := BuildExplanations(m, edu, conciseness, coverage);
    score := Combine(coverage, role, seniority, conciseness, education, explanations);
  }

  // ---------------------------------------------------------------- properties

  /** With non-negative weights and similarities the coverage lies in [0, 1]. */
  lemma {:induction false} CoverageBounds(ranked: seq<RankedKeyword>, m: KeywordMapping)
    requires NonNegativeWeights(ranked) && NonNegativeSimilarities(m.partial)
    ensures 0.0 <= CoverageScore(ranked, m) <= 1.0
  {
    var w := Weights(ranked);
    WeightsFromRanked(ranked);
    CoverageSumNonNegative(w, m.matched, true);
    CoverageSumNonNegative(w, m.partial, false);
    TotalWeightPositive(ranked);
  }

  /** With non-negative weights every keyword's weight is non-negative (0 for an absent one). */
  lemma {:induction false} WeightOfNonNegative(ranked: seq<RankedKeyword>, k: string)
    requires NonNegativeWeights(ranked)
    ensures WeightOf(Weights(ranked), k) >= 0.0
  {
    var w := Weights(ranked);
    if Get(w, k).Some? {
      GetIn(w, k);
      WeightsFromRanked(ranked);
    }
  }

  lemma {:induction false} CoverageSumAppend(weights: Table, a: seq<MappingEntry>, b: seq<MappingEntry>, full: bool)
    ensures CoverageSum(weights, a + b, full) == CoverageSum(weights, a, full) + CoverageSum(weights, b, full)
    decreases |b|
  {
    if b != [] {
      var n := |b| - 1;
      CoverageSumAppend(weights, a, b[..n], full);
      assert (a + b)[..|a + b| - 1] == a + b[..n];
      assert (a + b)[|a + b| - 1] == b[n];
    } else {
      assert a + b == a;
    }
  }

  /** One entry more at the end adds its weight times its credit. */
  lemma {:induction false} CoverageSumSnoc(weights: Table, entries: seq<MappingEntry>, e: MappingEntry, full: bool)
    ensures CoverageSum(weights, entries + [e], full)
      == CoverageSum(weights, entries, full) + WeightOf(weights, e.keyword) * (if full then 1.0 else e.similarity.GetOr(0.0))
    ensures full ==> CoverageSum(weights, entries + [e], full) == CoverageSum(weights, entries, full) + WeightOf(weights, e.keyword)
  {
    var s := entries + [e];
    assert s[..|s| - 1] == entries;
  }

  /** Taking entry `i` out removes its weight times its similarity. */
  lemma {:induction false} CoverageSumRemove(weights: Table, entries: seq<MappingEntry>, i: nat)
    requires i < |entries|
    ensures CoverageSum(weights, entries, false)
      == CoverageSum(weights, entries[..i] + entries[i + 1..], false)
         + WeightOf(weights, entries[i].keyword) * entries[i].similarity.GetOr(0.0)
  {
    var pre, post := entries[..i], entries[i + 1..];
    AroundIndex(entries, i);
    CoverageSumAppend(weights, pre + [entries[i]], post, false);
    CoverageSumAppend(weights, pre, post, false);
    CoverageSumSnoc(weights, pre, entries[i], false);
  }

  /** A larger weighted sum over the same positive total never gives a lower capped score. */
  lemma {:induction false} CappedRatioMonotone(x: real, y: real, t: real)
    requires x <= y && t > 0.0
    ensures Min(x / t, 1.0) <= Min(y / t, 1.0)
  {
    assert x / t <= y / t by {
      assert (y - x) / t >= 0.0;
      assert y / t - x / t == (y - x) / t;
    }
  }

  /**
   * Moving a keyword from `missing` to `matched` never lowers the coverage:
   * its weight is added with full credit, and `missing` does not count.
   */
  lemma {:induction false} CoverageGrowsWithMatch(ranked: seq<RankedKeyword>, m: KeywordMapping, e: MappingEntry, missing': seq<MappingEntry>)
    requires NonNegativeWeights(ranked)
    ensures CoverageScore(ranked, m) <= CoverageScore(ranked, KeywordMapping(m.matched + [e], m.partial, missing'))
  {
    var w := Weights(ranked);
    var matched := m.matched + [e];
    assert matched[..|matched| - 1] == m.matched;
    WeightOfNonNegative(ranked, e.keyword);
    assert CoverageSum(w, matched, true) >= CoverageSum(w, m.matched, true);
    TotalWeightPositive(ranked);
    CappedRatioMonotone(CoverageSum(w, m.matched, true) + CoverageSum(w, m.partial, false),
                        CoverageSum(w, matched, true) + CoverageSum(w, m.partial, false), TotalWeight(ranked));
  }

  /** Moving a keyword from `missing` to `partial` with a non-negative similarity never lowers the coverage. */
  lemma {:induction false} CoverageGrowsWithPartial(ranked: seq<RankedKeyword>, m: KeywordMapping, e: MappingEntry, missing': seq<MappingEntry>)
    requires NonNegativeWeights(ranked) && e.similarity.GetOr(0.0) >= 0.0
    ensures CoverageScore(ranked, m) <= CoverageScore(ranked, KeywordMapping(m.matched, m.partial + [e], missing'))
  {
    var w := Weights(ranked);
    var partial := m.partial + [e];
    assert partial[..|partial| - 1] == m.partial;
    WeightOfNonNegative(ranked, e.keyword);
    var gain := WeightOf(w, e.keyword) * e.similarity.GetOr(0.0);
    assert gain >= 0.0;
    assert CoverageSum(w, partial, false) == CoverageSum(w, m.partial, false) + gain;
    TotalWeightPositive(ranked);
    CappedRatioMonotone(CoverageSum(w, m.matched, true) + CoverageSum(w, m.partial, false),
                        CoverageSum(w, m.matched, true) + CoverageSum(w, partial, false), TotalWeight(ranked));
  }

  lemma ScaledAtMost(k: real, f: real)
    requires k >= 0.0 && f <= 1.0
    ensures k * f <= k
  {
    assert k * (1.0 - f) >= 0.0;
  }

  /** Promoting a partial entry whose similarity is at most 1 to `matched` never lowers the coverage. */
  lemma {:induction false} CoveragePromote(ranked: seq<RankedKeyword>, m: KeywordMapping, i: nat, missing': seq<MappingEntry>)
    requires NonNegativeWeights(ranked)
    requires i < |m.partial| && m.partial[i].similarity.GetOr(0.0) <= 1.0
    ensures CoverageScore(ranked, m) <= CoverageScore(ranked, KeywordMapping(m.matched + [m.partial[i]], m.partial[..i] + m.partial[i + 1..], missing'))
  {
    var w := Weights(ranked);
    var e := m.partial[i];
    var rest := m.partial[..i] + m.partial[i + 1..];
    CoverageSumRemove(w, m.partial, i);
    CoverageSumSnoc(w, m.matched, e, true);
    WeightOfNonNegative(ranked, e.keyword);
    var k := WeightOf(w, e.keyword);
    var sim := e.similarity.GetOr(0.0);
    ScaledAtMost(k, sim);
    var before, after := CoverageSum(w, m.matched, true), CoverageSum(w, m.matched + [e], true);
    var partial, left := CoverageSum(w, m.partial, false), CoverageSum(w, rest, false);
    assert after == before + k;
    assert partial == left + k * sim;
    TotalWeightPositive(ranked);
    CappedRatioMonotone(before + partial, after + left, TotalWeight(ranked));
  }

  lemma {:induction false} RoleHitsWithoutTerms(entries: seq<MappingEntry>)
    ensures RoleHits([], entries) == 0
    decreases |entries|
  {
    if entries != [] {
      RoleHitsWithoutTerms(entries[..|entries| - 1]);
    }
  }

  /**
   * Role relevance lies in [0, 1], is the fraction of matched and partial
   * entries whose evidence holds a role term (per term, capped), and is 0
   * when the title and company leave no term.
   */
  lemma {:induction false} RoleRelevanceBounds(job: Job, m: KeywordMapping)
    ensures var terms := RoleTerms(job);
      var r := RoleRelevance(job, m);
      && 0.0 <= r <= 1.0
      && (terms == [] ==> r == 0.0)
      && (terms != [] && RoleHits(terms, m.matched + m.partial) >= |terms| ==> r == 1.0)
  {
    var terms := RoleTerms(job);
    var hits := RoleHits(terms, m.matched + m.partial);
    RoleHitsWithoutTerms(m.matched + m.partial);
    FractionBounds(hits, |terms|);
  }

  lemma {:induction false} FractionBounds(hits: nat, terms: nat)
    ensures 0.0 <= Fraction(hits, terms) <= 1.0
    ensures terms > 0 && hits >= terms ==> Fraction(hits, terms) == 1.0
  {
  }

  /** Education is 1 without education keywords, and always lies in [0, 1]. */
  lemma {:induction false} EducationBounds(edu: seq<string>, m: KeywordMapping)
    ensures 0.0 <= EducationScore(edu, m) <= 1.0
    ensures edu == [] ==> EducationScore(edu, m) == 1.0
    ensures edu != [] && InEducation(m.matched, edu) == [] && InEducation(m.partial, edu) == [] ==> EducationScore(edu, m) == 0.0
  {
  }

  /**
   * The job level is the value of the first table term found in the text
   * (0.6 when there is none).
   */
  lemma {:induction false} FirstLevelIsFirst(text: string, terms: seq<(string, real)>, i: nat)
    requires i < |terms| && Contains(text, terms[i].0)
    requires forall j :: 0 <= j < i ==> !Contains(text, terms[j].0)
    ensures FirstLevel(text, terms) == terms[i].1
    decreases i
  {
    if i > 0 {
      FirstLevelIsFirst(text, terms[1..], i - 1);
    }
  }

  /**
   * The profile level is the largest of 0.6 and the values of the table
   * terms found in the text: never below 0.6, never below a found term's
   * value, and equal to 0.6 or to one found term's value.
   */
  lemma {:induction false} MaxLevelIsMax(text: string, terms: seq<(string, real)>)
    ensures var r := MaxLevel(text, terms);
      && r >= 0.6
      && (forall i :: 0 <= i < |terms| && Contains(text, terms[i].0) ==> r >= terms[i].1)
      && (r == 0.6 || exists i :: 0 <= i < |terms| && Contains(text, terms[i].0) && r == terms[i].1)
    decreases |terms|
  {
    if terms != [] {
      var n := |terms| - 1;
      var init := terms[..n];
      MaxLevelIsMax(text, init);
      var m := MaxLevel(text, init);
      forall i | 0 <= i < n
        ensures init[i] == terms[i]
      {
      }
      if m != 0.6 {
        var i :| 0 <= i < n && Contains(text, init[i].0) && m == init[i].1;
        assert terms[i] == init[i];
      }
    }
  }

  lemma {:induction false} FirstLevelIn(text: string, terms: seq<(string, real)>)
    ensures FirstLevel(text, terms) == 0.6 || exists i :: 0 <= i < |terms| && FirstLevel(text, terms) == terms[i].1
    decreases |terms|
  {
    if terms != [] && !Contains(text, terms[0].0) {
      FirstLevelIn(text, terms[1..]);
      if FirstLevel(text, terms) != 0.6 {
        var i :| 0 <= i < |terms[1..]| && FirstLevel(text, terms) == terms[1..][i].1;
        assert terms[1..][i] == terms[i + 1];
      }
    }
  }

  lemma {:induction false} TableRange()
    ensures forall i :: 0 <= i < |SeniorityTerms| ==> 0.1 <= SeniorityTerms[i].1 <= 1.0
  {
  }

  /**
   * Seniority is `max(0, 1 - |profile - job|)` of a profile level of at
   * least 0.6 and a job level from the table; since every table value lies
   * in [0.1, 1], it never drops below 0.1 and never exceeds 1.
   */
  lemma {:induction false} SeniorityBounds(job: Job, profile: Profile)
    ensures ProfileLevel(profile) >= 0.6
    ensures 0.1 <= Seniority(job, profile) <= 1.0
    ensures Seniority(job, profile) == 1.0 - Abs(ProfileLevel(profile) - JobLevel(job))
  {
    ProfileLevelRange(profile);
    JobLevelRange(job);
    AlignmentRange(ProfileLevel(profile), JobLevel(job));
  }

  /** The profile level lies in [0.6, 1]. */
  lemma {:induction false} ProfileLevelRange(profile: Profile)
    ensures 0.6 <= ProfileLevel(profile) <= 1.0
  {
    TableRange();
    MaxLevelRange(NormalizeText(Join(profile.experience + profile.projects, " ")), SeniorityTerms);
  }

  /** The job level lies in [0.1, 1]. */
  lemma {:induction false} JobLevelRange(job: Job)
    ensures 0.1 <= JobLevel(job) <= 1.0
  {
    TableRange();
    FirstLevelRange(NormalizeText(job.title), SeniorityTerms);
  }

  /** With every table value in [0.1, 1], the profile level lies in [0.6, 1]. */
  lemma {:induction false} MaxLevelRange(text: string, terms: seq<(string, real)>)
    requires forall i :: 0 <= i < |terms| ==> 0.1 <= terms[i].1 <= 1.0
    ensures 0.6 <= MaxLevel(text, terms) <= 1.0
  {
    MaxLevelIsMax(text, terms);
  }

  /** With every table value in [0.1, 1], the job level lies in [0.1, 1]. */
  lemma {:induction false} FirstLevelRange(text: string, terms: seq<(string, real)>)
    requires forall i :: 0 <= i < |terms| ==> 0.1 <= terms[i].1 <= 1.0
    ensures 0.1 <= FirstLevel(text, terms) <= 1.0
  {
    FirstLevelIn(text, terms);
  }

  /** Levels 0.9 apart at most align to at least 0.1, so the clamp at 0 never applies. */
  lemma {:induction false} AlignmentRange(profileLevel: real, jobLevel: real)
    requires 0.6 <= profileLevel <= 1.0 && 0.1 <= jobLevel <= 1.0
    ensures 0.1 <= Alignment(profileLevel, jobLevel) <= 1.0
    ensures Alignment(profileLevel, jobLevel) == 1.0 - Abs(profileLevel - jobLevel)
  {
  }

  /**
   * Conciseness takes one of five values and falls as the joined text
   * grows past the empty case; the empty text (0.7) scores below 0.8 like a
   * text over 2000 characters, so it too draws the verbosity line.
   */
  lemma {:induction false} ConcisenessSteps(p: Profile, q: Profile)
    ensures Conciseness(p) in {0.7, 1.0, 0.8, 0.6, 0.4}
    ensures Conciseness(p) < 0.8 <==> TextLength(p) == 0 || TextLength(p) > 2000
    ensures 0 < TextLength(p) <= TextLength(q) ==> Conciseness(p) >= Conciseness(q)
  {
  }

  /**
   * With non-negative weights and similarities every sub-score lies in
   * [0, 1], so the final score and every breakdown value lie in [0, 10].
   */
  lemma {:induction false} ScoreBounds(job: Job, profile: Profile, extraction: Schemas.Extraction, m: KeywordMapping)
    requires NonNegativeWeights(extraction.ranked) && NonNegativeSimilarities(m.partial)
    ensures var s := AtsScoreOf(job, profile, extraction, m);
      && 0.0 <= s.score <= 10.0
      && 0.0 <= s.breakdown.keywordCoverage <= 10.0
      && 0.0 <= s.breakdown.roleRelevance <= 10.0
      && 0.0 <= s.breakdown.seniority <= 10.0
      && 0.0 <= s.breakdown.conciseness <= 10.0
      && 0.0 <= s.breakdown.education <= 10.0
  {
    CoverageBounds(extraction.ranked, m);
    RoleRelevanceBounds(job, m);
    SeniorityBounds(job, profile);
    ConcisenessSteps(profile, profile);
    EducationBounds(extraction.keywords.education, m);
  }

  /**
   * The explanations: one line per missing entry, then one per partial
   * entry, in order; the coverage, education and verbosity lines exactly
   * when their conditions hold; and "Good alignment" alone exactly when
   * none of those lines is produced.
   */
  lemma {:induction false} ExplanationsShape(m: KeywordMapping, edu: seq<string>, conciseness: real, coverage: real)
    ensures var r := Explanations(m, edu, conciseness, coverage);
      && 1 <= |r| <= |m.missing| + |m.partial| + 3
      && (r == [GoodAlignment] <==>
            m.missing == [] && m.partial == [] && coverage >= 0.9
            && (edu == [] || EducationMatched(m, edu)) && conciseness >= 0.8)
      && (GoodAlignment in r ==> r == [GoodAlignment])
      && (forall i :: 0 <= i < |m.missing| ==> r[i] == MissingKeyword(m.missing[i].keyword))
      && (forall j :: 0 <= j < |m.partial| ==>
            r[|m.missing| + j] == PartialMatch(m.partial[j].keyword, m.partial[j].similarity))
      && (CoverageBelowTarget in r <==> m.missing == [] && coverage < 0.9)
      && (EducationNotSatisfied in r <==> edu != [] && !EducationMatched(m, edu))
      && (Verbose in r <==> conciseness < 0.8)
  {
    var head := MissingLines(m.missing) + PartialLines(m.partial);
    var checks := Checks(m, edu, conciseness, coverage);
    HeadLines(m);
    ChecksShape(m, edu, conciseness, coverage);
    var lines := Lines(m, edu, conciseness, coverage);
    assert lines == head + checks;
    assert GoodAlignment !in lines;
    assert CoverageBelowTarget in lines <==> CoverageBelowTarget in checks;
    assert EducationNotSatisfied in lines <==> EducationNotSatisfied in checks;
    assert Verbose in lines <==> Verbose in checks;
    if lines != [] {
      assert forall i :: 0 <= i < |head| ==> lines[i] == head[i];
    }
  }

  /** The per-entry lines: missing ones then partial ones, none of them a fixed line. */
  lemma {:induction false} HeadLines(m: KeywordMapping)
    ensures var head := MissingLines(m.missing) + PartialLines(m.partial);
      && |head| == |m.missing| + |m.partial|
      && (forall x :: x in head ==> x.MissingKeyword? || x.PartialMatch?)
      && (forall i :: 0 <= i < |m.missing| ==> head[i] == MissingKeyword(m.missing[i].keyword))
      && (forall j :: 0 <= j < |m.partial| ==>
            head[|m.missing| + j] == PartialMatch(m.partial[j].keyword, m.partial[j].similarity))
  {
    var head := MissingLines(m.missing) + PartialLines(m.partial);
    forall x | x in head
      ensures x.MissingKeyword? || x.PartialMatch?
    {
      var i :| 0 <= i < |head| && head[i] == x;
      if i >= |m.missing| {
        assert head[i] == PartialLines(m.partial)[i - |m.missing|];
      }
    }
  }

  lemma {:induction false} ChecksShape(m: KeywordMapping, edu: seq<string>, conciseness: real, coverage: real)
    ensures var c := Checks(m, edu, conciseness, coverage);
      && |c| <= 3
      && GoodAlignment !in c
      && (c == [] <==> !(m.missing == [] && coverage < 0.9) && !(edu != [] && !EducationMatched(m, edu)) && conciseness >= 0.8)
      && (CoverageBelowTarget in c <==> m.missing == [] && coverage < 0.9)
      && (EducationNotSatisfied in c <==> edu != [] && !EducationMatched(m, edu))
      && (Verbose in c <==> conciseness < 0.8)
  {
  }
}
