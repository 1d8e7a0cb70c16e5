# resume_builder ATS engine in Dafny

This project models the deterministic core of the resume_builder backend, an
ATS-style résumé engine. Given a job description and a candidate profile, it:

- extracts and classifies the job's keywords;
- maps each keyword to evidence in the profile and scores the profile;
- runs a rule-based optimizer over the profile;
- lays the profile out as a LaTeX body within a line budget;
- compiles it, retrying with stricter trims until the PDF is one page.

Around this core sit:

- text normalisation and LaTeX escaping;
- a fixed-window rate limiter;
- an in-memory vector store;
- the ingest step that cleans résumé text, splits it into sections and chunks it.

One Dafny module per source file:

| module | source | form |
|---|---|---|
| `Text` | backend/app/utils/text.py | pure functions; `EscapeLatex` is the escape loop as a method |
| `Schemas` | backend/app/models/schemas.py | datatypes and their defaults |
| `Keywords`, `Dedupe`, `Mapping`, `Scoring`, `Pipeline` | backend/app/services/pipeline.py | reference functions, plus the loops as methods; class `Pipeline.Pipeline` holds the audit fields that `extract_and_classify` and `semantic_map` write |
| `Optimizer` | backend/app/services/optimizer.py | the four transforms and the bounded round loop as methods proved against functions |
| `Assembler` | backend/app/services/assembler.py | budget estimation, trimming, skill packing and the LaTeX body, as methods proved against functions |
| `Renderer` | backend/app/services/renderer.py | the compile / measure / trim-and-retry loop, the page-count text parse, `_tighten_for_overflow` |
| `RateLimit` | backend/app/services/ratelimit.py | class `RateLimiter` over a map of counters |
| `VectorStore`, `Sorting` | backend/app/storage/vector_store.py | class `LocalVectorStore` with the two parallel lists; the stable descending sort |
| `Ingest` | backend/app/services/ingest.py | clean-up, the line-driven section splitter, chunking with recency |

`Strings` and `Wrappers` hold the generic sequence and string helpers and `Option`.

The following are parameters:

- TF-IDF scores, embeddings and similarities;
- the LLM's reply;
- the compiler's output;
- the clock;
- the current year.

Profiles are values: `deepcopy` followed by in-place mutation is modelled as
building a new profile value.

Three places where the code does not do what it evidently means to do are modelled as written, next to a corrected version (see Findings):

- **Shared store.** `semantic_map` builds a fresh `self.vector_store_cls()` on every call (backend/app/services/pipeline.py:345), so each call evidently means to map against its own chunks only. The store's lists are class-level, though, so on the embedding path a query can return a chunk stored by an earlier call.
- **Skip regex.** The `^\s*` at the front of the skip test (backend/app/services/ingest.py:227) shows it was meant for lines that start with a bullet marker. As written, it drops every line that contains a hyphen or a bullet anywhere.
- **Flattening before splitting.** `ingest_text` and `ingest_pdf` pass the cleaned, single-line text to the section splitter (backend/app/services/ingest.py:63-64, 99-100), so the fallback splitter can never see a header followed by a line, and returns every section empty.

## Model

| member | source | states |
|---|---|---|
| Text.ReplaceOthers | backend/app/utils/text.py:33 | same length as the input; each character kept when it is a-z, 0-9, whitespace or `-`, else a space |
| Text.CollapseRunsShape | backend/app/utils/text.py:34 | after `re.sub(r"\s+", " ", ...)` only plain spaces remain and never two in a row |
| Text.CollapseRunsLength | backend/app/utils/text.py:34 | collapsing whitespace never lengthens the text |
| Text.NormalizeLength | backend/app/utils/text.py:30-35 | `normalize_text` never lengthens its input |
| Text.NormalizeIsNormal | backend/app/utils/text.py:30-35 | the result is in normal form: only a-z, 0-9, `-` and single inner spaces, nothing upper-case |
| Text.NormalizeOfNormal | backend/app/utils/text.py:30-35 | text already in normal form is its own normalisation |
| Text.NormalizeIdempotent | backend/app/utils/text.py:30-35 | normalising twice equals normalising once |
| Text.NormalCharsLower | backend/app/utils/text.py:32 | lower-casing leaves normal characters alone |
| Text.FilterTokensMembers | backend/app/utils/text.py:39 | a piece is kept exactly when it is non-empty and not a stop word |
| Text.TokenizeMembers | backend/app/utils/text.py:5-39 | a string is a token exactly when it is a non-empty, non-stop-word piece of `text.split(" ")` |
| Text.EscapeChar | backend/app/utils/text.py:46-57 | a non-special character maps to itself; each of the ten specials maps to a backslash sequence |
| Text.EscapeLatex | backend/app/utils/text.py:58-61 | the loop's result equals the per-character replacement `Escape` |
| Text.EscapeLength | backend/app/utils/text.py:42-61 | escaping never shortens the text |
| Text.EscapeIdentity | backend/app/utils/text.py:42-61 | text without special characters is unchanged |
| Text.EscapeSafe | backend/app/utils/text.py:42-61 | the escaped text has no unescaped LaTeX special character |
| Text.UnescapeCons | backend/app/utils/text.py:46-57 | each replacement decodes back to its character, whatever follows it |
| Text.UnescapeEscape | backend/app/utils/text.py:42-61 | round trip: unescaping the escaped text gives the original |
| Schemas.NewJob | backend/app/models/schemas.py:6-10 | company and location default to None |
| Schemas.EmptyProfile | backend/app/models/schemas.py:13-17 | all four sections default to empty |
| Schemas.EmptyBuckets | backend/app/models/schemas.py:20-25 | all five buckets default to empty |
| Schemas.BareEntry | backend/app/models/schemas.py:39-42 | a mapping entry without evidence or similarity |
| Schemas.EmptyMapping | backend/app/models/schemas.py:45-48 | matched, partial and missing default to empty |
| Schemas.NewBudgets | backend/app/models/schemas.py:80-86 | the line limit defaults to 55 |
| Schemas.NewRendererResult | backend/app/models/schemas.py:102-107 | the error defaults to None |
| Schemas.ParseCategory | backend/app/services/pipeline.py:259 | a recognised bucket name parses to the category with that name |
| Schemas.ParseCategoryName | backend/app/models/schemas.py:20-25 | every bucket's own name is recognised as that bucket |
| Keywords.ClassifyKeywordRules | backend/app/services/pipeline.py:270-286 | each category is returned exactly when its rule applies and no earlier rule does: action verbs, education, tools, responsibilities, a digit means tools, a multi-word phrase led by an action verb means responsibilities, else skills |
| Keywords.ClassifyIgnoresCase | backend/app/services/pipeline.py:271 | classification does not depend on letter case |
| Keywords.AddToBucket | backend/app/services/pipeline.py:288-300 | appends the keyword to its category's bucket and leaves every other bucket alone |
| Keywords.BucketizeGet | backend/app/services/pipeline.py:240-262 | each bucket holds exactly the keywords ranked in its category, in ranking order |
| Keywords.DedupeRanked | backend/app/services/pipeline.py:302-310 | the loop keeps the first entry of every keyword, in order |
| Keywords.DedupeList | backend/app/services/pipeline.py:321-329 | the loop keeps the first occurrence of every string, in order |
| Keywords.UniqueBuckets | backend/app/services/pipeline.py:312-319 | every bucket is deduplicated on its own |
| Keywords.DedupeBuckets | backend/app/services/pipeline.py:312-319 | the result equals the per-bucket deduplication |
| Keywords.UniqueBucketsIdempotent | backend/app/services/pipeline.py:264-267 | deduplicating the buckets a second time changes nothing |
| Keywords.Lookup | backend/app/services/pipeline.py:218 | `pop` finds a value exactly when the key is present |
| Keywords.Remove | backend/app/services/pipeline.py:218 | after `pop` no entry carries the key; every entry under another key is kept, as often as it occurred; an object without the key is unchanged |
| Keywords.TermKeywordShape | backend/app/services/pipeline.py:240-247 | one term yields nothing, or its stripped form of at least two characters, classified by the rule chain |
| Keywords.TfidfKeywordsStep | backend/app/services/pipeline.py:240-247 | one more term adds exactly that term's keyword at the end |
| Keywords.TfidfKeywordsFrom | backend/app/services/pipeline.py:240-247 | every TF-IDF keyword comes from one of the top terms |
| Keywords.TfidfKeywordsShape | backend/app/services/pipeline.py:240-247 | every TF-IDF keyword is stripped, at least two characters long, classified by the rule chain, and carries its term's weight |
| Keywords.LlmKeywordsOrigin | backend/app/services/pipeline.py:250-262 | every keyword from the model comes from a list item under a key not starting with `_`, with weight 1.0 and the key's category (or the rule chain's) |
| Keywords.LlmKeywordsComplete | backend/app/services/pipeline.py:250-262 | conversely, every such item whose normalised form is non-empty is merged |
| Keywords.ItemKeywordsComplete | backend/app/services/pipeline.py:255-262 | every item of one list with a non-empty normalised form yields its keyword |
| Keywords.ItemKeywordsAppend | backend/app/services/pipeline.py:255-262 | the items' keywords keep the items' order |
| Keywords.LlmKeywordsAppend | backend/app/services/pipeline.py:251-262 | the keywords keep the order of the reply's keys |
| Keywords.OneItem | backend/app/services/pipeline.py:256-260 | a one-item list contributes its normalised item, unless that is empty |
| Keywords.ExtractionRanked | backend/app/services/pipeline.py:264-268 | the ranked list keeps exactly the first entry of every merged keyword: keys are distinct and none is lost |
| Keywords.TfidfEntryWins | backend/app/services/pipeline.py:240-266 | a keyword found by TF-IDF keeps its TF-IDF entry; a later duplicate from the model is dropped |
| Keywords.ExtractionBuckets | backend/app/services/pipeline.py:264-268 | each bucket is the deduplicated list of keywords ranked in its category |
| Keywords.ExtractionWithoutTokens | backend/app/services/pipeline.py:203-207 | text without tokens yields empty buckets and no ranked keywords |
| Keywords.KeywordInTwoBuckets | backend/app/services/pipeline.py:312-319 | a tool keyword also listed by the model under skills is ranked once, with its TF-IDF entry, yet sits in both the tools and the skills bucket |
| Keywords.PythonIsNormalTool | backend/app/services/pipeline.py:76-77 | "python" is a tool, so the previous lemma's premises hold for it |
| Dedupe.UniqueIsFirstOccurrences | backend/app/services/pipeline.py:302-329 | the seen-set loop gives exactly the first occurrence of every key, in order |
| Dedupe.UniqueKeysAndCoverage | backend/app/services/pipeline.py:302-329 | the result has distinct keys, takes its elements from the input and keeps every key |
| Dedupe.UniqueIdempotent | backend/app/services/pipeline.py:264-267 | deduplicating twice changes nothing |
| Dedupe.FirstSourceWins | backend/app/services/pipeline.py:264 | deduplicating `s + t`: an element whose key occurs in `s` comes from `s` |
| Dedupe.UniqueFromKeys | backend/app/services/pipeline.py:302-310 | the kept keys are exactly the input's keys not already seen |
| Pipeline.AuditFallback | backend/app/services/pipeline.py:209-225 | the fallback flag is set exactly when the call raised or left nothing but the latency; a reason is recorded exactly then, and then the model adds no keyword |
| Pipeline.AppendSection | backend/app/services/pipeline.py:400-404 | appends one section's chunks |
| Pipeline.BuildProfileChunks | backend/app/services/pipeline.py:392-405 | equals the profile's chunks in the order experience, projects, skills, education |
| Pipeline.RankTfidf | backend/app/services/pipeline.py:235-247 | the TF-IDF loop produces the TF-IDF keywords and their buckets |
| Pipeline.MergeReply | backend/app/services/pipeline.py:250-262 | the merge loop appends exactly the model's keywords and keeps the buckets in step |
| Pipeline.MergeEntry | backend/app/services/pipeline.py:251-254 | a key starting with `_` or a non-list value adds nothing; a list adds its items' keywords |
| Pipeline.MergeItems | backend/app/services/pipeline.py:255-262 | the inner loop adds the items' keywords and buckets them |
| Pipeline.MapByStore | backend/app/services/pipeline.py:349-361 | each keyword takes the store's top result; the mapping equals the threshold partition of those hits |
| Pipeline.MapByLexical | backend/app/services/pipeline.py:375-386 | each keyword takes its most similar chunk (the first on ties); the mapping equals the threshold partition of those hits |
| Pipeline.Pipeline.constructor | backend/app/services/pipeline.py:125-129 | every audit field starts unset |
| Pipeline.Pipeline.RecordLlmCall | backend/app/services/pipeline.py:209-225 | sets the LLM audit fields as the call's outcome dictates; mapping fields are unchanged |
| Pipeline.Pipeline.ExtractAndClassify | backend/app/services/pipeline.py:202-268 | the result equals the reference extraction; without tokens the audit fields are untouched, otherwise they record the call |
| Pipeline.Pipeline.StoreChunks | backend/app/services/pipeline.py:345-347 | the store gains one vector per chunk with that chunk's metadata, appended in order |
| Pipeline.Pipeline.SemanticMap | backend/app/services/pipeline.py:331-390 | against the shared store: what the store gains, the mapping from store hits, or the lexical fallback when embedding raises, and the provider/fallback audit fields |
| Pipeline.Pipeline.SemanticMapIsolated | backend/app/services/pipeline.py:331-390 | with a store of its own: every keyword lands in exactly one list, all evidence is this profile's text, and missing entries carry nothing; on the embedding path a profile without chunks maps every keyword to `missing` |
| Pipeline.SharedStoreLeaks | backend/app/services/pipeline.py:345-350 | with the shared store, an empty profile's "placeholder" is matched with an earlier call's chunk text, which is not the profile's |
| Mapping.SectionChunksOrigin | backend/app/services/pipeline.py:400-404 | every chunk carries its section and the normalised text of a non-blank item |
| Mapping.CorpusTexts | backend/app/services/pipeline.py:334 | the chunk texts, or `["empty profile"]` when there are none |
| Mapping.QueryKeywords | backend/app/services/pipeline.py:332 | the ranked keywords, or the single "placeholder" when there are none |
| Mapping.DefaultThresholds | backend/app/services/pipeline.py:432-435 | match at 0.8, partial at 0.65 |
| Mapping.BestIndex | backend/app/services/pipeline.py:377 | `argmax`: the first index of the largest value |
| Mapping.Entry | backend/app/services/pipeline.py:355 | an entry carries its keyword, its hit's evidence and its similarity |
| Mapping.PlaceKeywords | backend/app/services/pipeline.py:356-361 | placing a keyword appends it to the list of its band and to no other |
| Mapping.NoHitsAllMissing | backend/app/services/pipeline.py:349-361 | keywords without a hit are all missing, in order, and none is matched or partial |
| Mapping.MapPartition | backend/app/services/pipeline.py:349-386 | each list holds exactly the keywords of its band, in input order, and the sizes add up to the number of keywords |
| Mapping.SelectCovers | backend/app/services/pipeline.py:356-361 | the three bands together are a permutation of the keywords |
| Mapping.MapEntries | backend/app/services/pipeline.py:350-386 | matched entries have similarity at least the match threshold; partial ones lie between the thresholds; missing ones have no evidence and no similarity |
| Mapping.HitEvidence | backend/app/services/pipeline.py:350-379 | a hit's evidence is the text of one of the stored or given chunks; an empty store gives no hit |
| Mapping.HitIsBest | backend/app/services/pipeline.py:350-378 | the store answers exactly when it holds an entry, with a similarity at least that of every entry; the fallback always answers, with the largest lexical similarity |
| Mapping.EvidenceFromChunks | backend/app/services/pipeline.py:331-390 | every matched or partial entry's evidence comes from the given chunks |
| Scoring.Put | backend/app/services/pipeline.py:440 | `d[k] = v`: an existing key keeps its place and takes the new value; a new key goes last |
| Scoring.WeightsLastWins | backend/app/services/pipeline.py:440 | the weight dictionary holds the weight of each keyword's last occurrence, and nothing for absent keywords |
| Scoring.WeightsFromRanked | backend/app/services/pipeline.py:440 | every dictionary entry is the keyword and weight of a ranked keyword |
| Scoring.TotalWeightPositive | backend/app/services/pipeline.py:441 | with non-negative weights the divisor (`sum or 1.0`) is positive |
| Scoring.TotalOfDistinct | backend/app/services/pipeline.py:440-441 | for a deduplicated ranked list the dictionary total is the plain sum of the weights |
| Scoring.BuildWeights | backend/app/services/pipeline.py:440 | the loop builds the weight dictionary |
| Scoring.SumValues | backend/app/services/pipeline.py:441 | the loop sums the dictionary's values |
| Scoring.AddCoverage | backend/app/services/pipeline.py:443-452 | the loop adds each entry's weight times its credit |
| Scoring.CountRoleHits | backend/app/services/pipeline.py:457-460 | the loop counts entries whose evidence contains a role term |
| Scoring.RoleHits | backend/app/services/pipeline.py:457-460 | never more hits than entries |
| Scoring.InEducation | backend/app/services/pipeline.py:467-468 | keeps exactly the entries whose keyword is an education keyword |
| Scoring.FindFirstLevel | backend/app/services/pipeline.py:509-513 | the title loop: the value of the first table term found, 0.6 when none is |
| Scoring.FindMaxLevel | backend/app/services/pipeline.py:515-519 | the profile loop: the largest value found, at least 0.6 |
| Scoring.SeniorityAlignment | backend/app/services/pipeline.py:495-521 | equals the reference seniority score |
| Scoring.BuildExplanations | backend/app/services/pipeline.py:536-550 | equals the reference explanation list |
| Scoring.ComputeAtsScore | backend/app/services/pipeline.py:437-493 | equals the reference score, breakdown and explanations |
| Scoring.CoverageBounds | backend/app/services/pipeline.py:448-453 | with non-negative weights and similarities coverage lies in [0, 1] |
| Scoring.CoverageSumSnoc | backend/app/services/pipeline.py:449-452 | one more entry adds its weight times its credit (1 for matched, its similarity for partial) |
| Scoring.CoverageGrowsWithMatch | backend/app/services/pipeline.py:448-453 | moving a keyword from missing to matched never lowers coverage |
| Scoring.CoverageGrowsWithPartial | backend/app/services/pipeline.py:448-453 | moving a keyword from missing to partial with a non-negative similarity never lowers coverage |
| Scoring.CoveragePromote | backend/app/services/pipeline.py:448-453 | promoting a partial entry with similarity at most 1 to matched never lowers coverage |
| Scoring.RoleRelevanceBounds | backend/app/services/pipeline.py:455-461 | role relevance lies in [0, 1]; it is 0 without terms and 1 when the hits reach the number of terms |
| Scoring.EducationBounds | backend/app/services/pipeline.py:466-473 | education lies in [0, 1]; it is 1 without education keywords and 0 when none is matched or partial |
| Scoring.FirstLevelIsFirst | backend/app/services/pipeline.py:509-513 | the job level is the value of the first table term found in the title |
| Scoring.MaxLevelIsMax | backend/app/services/pipeline.py:515-519 | the profile level is the largest of 0.6 and the values of the terms found |
| Scoring.SeniorityBounds | backend/app/services/pipeline.py:495-521 | the profile level is at least 0.6; seniority is `1 - abs(profile - job)` and lies in [0.1, 1] |
| Scoring.ConcisenessSteps | backend/app/services/pipeline.py:523-534 | one of five values; below 0.8 exactly for empty or over-2000-character text; non-increasing in length after the empty case |
| Scoring.ScoreBounds | backend/app/services/pipeline.py:475-491 | with non-negative weights and similarities the score and every breakdown value lie in [0, 10] |
| Scoring.ExplanationsShape | backend/app/services/pipeline.py:536-550 | missing lines, then partial lines, then the three checks exactly when their conditions hold; "Good alignment" alone exactly when no other line is produced |
| Scoring.ChecksShape | backend/app/services/pipeline.py:544-549 | each of the coverage, education and verbosity lines appears exactly when its condition holds |
| VectorStore.Candidates | backend/app/storage/vector_store.py:40-44 | never more candidates than stored entries |
| VectorStore.CandidatesFromStore | backend/app/storage/vector_store.py:40-44 | every candidate passes the filters and is the similarity and metadata of one stored entry |
| VectorStore.CandidatesComplete | backend/app/storage/vector_store.py:40-44 | every stored entry that passes the filters is a candidate |
| VectorStore.LocalVectorStore.constructor | backend/app/storage/vector_store.py:19-24 | the class-level lists start empty |
| VectorStore.LocalVectorStore.Upsert | backend/app/storage/vector_store.py:26-29 | appends the pairs of `zip(vectors, metadata)`, in order, to both lists |
| VectorStore.LocalVectorStore.Query | backend/app/storage/vector_store.py:31-46 | the result is the filtered entries by descending similarity, ties in insertion order, cut to `top_k` |
| VectorStore.QueryEmptyStore | backend/app/storage/vector_store.py:34-35 | an empty store answers every query with no results |
| VectorStore.TopSorted | backend/app/storage/vector_store.py:45-46 | at most `top_k` results, non-increasing, equal keys in original order, all from the candidates |
| VectorStore.TopBest | backend/app/storage/vector_store.py:45-46 | exactly `min(top_k, len)` results, and no candidate left out has a larger similarity than one kept |
| VectorStore.QueryProperties | backend/app/storage/vector_store.py:31-46 | a query returns sorted, stable, filtered results, each from a stored entry |
| Sorting.SortDescSorted | backend/app/storage/vector_store.py:45 | the sort gives a non-increasing list |
| Sorting.SortDescPermutation | backend/app/storage/vector_store.py:45 | the sort gives a permutation of its input |
| Sorting.SortDescStable | backend/app/storage/vector_store.py:45 | the elements of each key keep their input order |
| Sorting.SortDescItems | backend/app/services/optimizer.py:193-194 | the sorted items are a permutation of the input items |
| RateLimit.Windowed | backend/app/services/ratelimit.py:37-39 | the counter restarts at (0, now) or is kept |
| RateLimit.Step | backend/app/services/ratelimit.py:36-42 | accepted exactly when the windowed count is below the limit; then the count goes up by one, otherwise the counter stays |
| RateLimit.RateLimiter.constructor | backend/app/services/ratelimit.py:17-19 | the counter table starts empty |
| RateLimit.RateLimiter.Consume | backend/app/services/ratelimit.py:36-42 | the outcome and new table equal the reference `_consume`, including the insert-on-read of `defaultdict` |
| RateLimit.RateLimiter.Check | backend/app/services/ratelimit.py:21-34 | the outcome and new table equal the reference `check` |
| RateLimit.CheckWithoutUser | backend/app/services/ratelimit.py:22-23 | without a user id nothing is consumed and nothing is raised |
| RateLimit.CheckOtherPaths | backend/app/services/ratelimit.py:27-34 | paths outside the two limited prefixes consume nothing |
| RateLimit.ConsumeEffect | backend/app/services/ratelimit.py:36-42 | only the one pair's counter changes; rejection exactly at the limit leaves it as read; acceptance stores count + 1 |
| RateLimit.ConsumeAfterWindow | backend/app/services/ratelimit.py:38-39 | once the window has run out the counter restarts before the limit check |
| RateLimit.CheckIngestKeys | backend/app/services/ratelimit.py:30-31 | `/profile/ingest` touches only the ingest_day counter |
| RateLimit.CheckGenerateOrder | backend/app/services/ratelimit.py:27-29 | `/resume/generate` charges resume_day first, so a render_hour rejection leaves resume_day charged; only those two counters move |
| RateLimit.AcceptedWithinWindow | backend/app/services/ratelimit.py:36-42 | within one window at most `limit - count` consumes succeed |
| RateLimit.ConsumedStep | backend/app/services/ratelimit.py:36-42 | a pair's counter evolves by `Step`, whatever happens to other pairs |
| Optimizer.TightenTextWords | backend/app/services/optimizer.py:129-137 | the tightened text is the first 36 words of the lower-cased, filler-free text, joined by spaces and capitalised; at most 36 words |
| Optimizer.RewriteChangesEmpty | backend/app/services/optimizer.py:121-125 | no change line exactly when every bullet is left as it was |
| Optimizer.TightenedShape | backend/app/services/optimizer.py:115-127 | only experience and project bullets change, each to its tightened form; one change line per altered bullet |
| Optimizer.RewriteSection | backend/app/services/optimizer.py:118-126 | one section rewritten, with its change lines |
| Optimizer.TightenBullets | backend/app/services/optimizer.py:115-127 | equals the reference tightening |
| Optimizer.MissingHigh | backend/app/services/optimizer.py:147 | exactly the ranked keywords absent from matched and partial with weight at least the threshold |
| Optimizer.FirstAnnotatable | backend/app/services/optimizer.py:167-172 | the first bullet holding the keyword's first word but not the keyword |
| Optimizer.FindAnnotatable | backend/app/services/optimizer.py:167-172 | the `enumerate`/`break` loop finds that first bullet |
| Optimizer.InsertKeyword | backend/app/services/optimizer.py:154-174 | one keyword handled as the reference does |
| Optimizer.InsertKeywords | backend/app/services/optimizer.py:139-175 | the updated profile and change lines equal the reference insertion |
| Optimizer.AnnotateShape | backend/app/services/optimizer.py:162-174 | at most one bullet changes, the first experience (else project) bullet with the fragment and without the keyword, which gets ` (keyword)` appended |
| Optimizer.InsertOneShape | backend/app/services/optimizer.py:154-174 | without evidence nothing happens; a keyword not among the normalised skills is appended to skills; otherwise at most one bullet is annotated; nothing is removed |
| Optimizer.InsertedShape | backend/app/services/optimizer.py:139-175 | only missing high-weight keywords found in the normalised profile text are added; nothing is removed; at most one change line each |
| Optimizer.InsertOneCovers | backend/app/services/optimizer.py:155-174 | a keyword with evidence ends up in skills; when it was already there and a bullet can take it, a bullet takes it |
| Optimizer.InsertedCovers | backend/app/services/optimizer.py:139-175 | every eligible keyword (missing, heavy enough, with evidence) is in skills afterwards |
| Optimizer.Scored | backend/app/services/optimizer.py:189-192 | each bullet paired with the number of ranked keywords it contains |
| Optimizer.ReorderSectionShape | backend/app/services/optimizer.py:184-197 | a permutation by non-increasing relevance, ties in original order; sections of at most one bullet unchanged |
| Optimizer.ReorderedShape | backend/app/services/optimizer.py:177-198 | only experience and projects are permuted; change lines exactly for sections that moved |
| Optimizer.ReorderBullets | backend/app/services/optimizer.py:184-197 | one section reordered, with its change line when it moved |
| Optimizer.Reorder | backend/app/services/optimizer.py:177-198 | equals the reference reordering |
| Optimizer.TrimmedShape | backend/app/services/optimizer.py:200-224 | at most 2200 characters: unchanged; otherwise one project, then one experience entry and then one education entry only while still over; skills untouched; one line per pop |
| Optimizer.TrimSections | backend/app/services/optimizer.py:200-224 | equals the reference trimming |
| Optimizer.RunRound | backend/app/services/optimizer.py:64-84 | one round: tighten, insert, reorder, trim |
| Optimizer.IterateLog | backend/app/services/optimizer.py:63-105 | rounds numbered from `i`, never more than the rounds left, each with a change line; each starts from the previous score; all but the last went on |
| Optimizer.OptimizedIterate | backend/app/services/optimizer.py:50-113 | `optimize` is the loop from round 1 with the four transforms |
| Optimizer.OptimizeRounds | backend/app/services/optimizer.py:63-96 | rounds numbered 1, 2, … and never more than `max_iterations`, each reporting a line |
| Optimizer.OptimizeScores | backend/app/services/optimizer.py:89-105 | the first round starts from the input score, each later one from the previous one's end; every round but the last stayed below target and gained at least 0.2; the final score is the last round's |
| Optimizer.Optimize | backend/app/services/optimizer.py:50-113 | equals the reference optimizer loop |
| Assembler.BulletLines | backend/app/services/assembler.py:38-44 | a bullet costs 1 to 3 lines |
| Assembler.LinesForBullets | backend/app/services/assembler.py:35-45 | the inner loop counts the lines of the first `cap` bullets |
| Assembler.EstimateBudgets | backend/app/services/assembler.py:34-60 | equals the reference budgets |
| Assembler.BudgetsBounds | backend/app/services/assembler.py:34-60 | only the first 8 experience and 6 project bullets count, 1 to 3 lines each; skills one line when short; education `max(1, count)` |
| Assembler.SumLinesShorter | backend/app/services/assembler.py:38-44 | shorter bullets never cost more lines |
| Assembler.TightenTextWords | backend/app/services/assembler.py:104-112 | up to the case of its first letter, the first 28 normalised words joined by spaces; never longer than the input |
| Assembler.TightenShorter | backend/app/services/assembler.py:104-112 | tightening never lengthens the text |
| Assembler.ShortenBullets | backend/app/services/assembler.py:68-72 | the first `cap` bullets, each tightened |
| Assembler.TrimToFit | backend/app/services/assembler.py:62-102 | equals the reference trimming |
| Assembler.DropUntilFits | backend/app/services/assembler.py:77-102 | the drop sequence after shortening, as the reference |
| Assembler.DroppedShape | backend/app/services/assembler.py:81-102 | skills untouched; each list loses at most its last entry, education never its only one; one trim line per removal; budgets of the result |
| Assembler.ShortenedShape | backend/app/services/assembler.py:68-75 | at most 8 and 6 tightened bullets, nothing else touched |
| Assembler.FittedShape | backend/app/services/assembler.py:62-102 | tightened originals within the caps, skills untouched, at most three trims, budgets of the trimmed profile |
| Assembler.FittedShrinks | backend/app/services/assembler.py:62-102 | trimming never raises the line estimate |
| Assembler.ChunkSkills | backend/app/services/assembler.py:140-155 | the loop equals the reference packing |
| Assembler.PackCount | backend/app/services/assembler.py:143-151 | the loop breaks exactly when `max_lines` lines are closed |
| Assembler.PackLines | backend/app/services/assembler.py:144-149 | every line fits in `max_chars` or is a single skill |
| Assembler.PackOrder | backend/app/services/assembler.py:143-153 | the lines spell out the skills seen so far, in order, and all of them unless the loop broke |
| Assembler.ChunksShape | backend/app/services/assembler.py:140-155 | at least one line and at most `max_lines`; `[""]` without skills; an over-long line is a single skill |
| Assembler.ChunksOrder | backend/app/services/assembler.py:140-155 | the non-empty lines joined by ", " are a prefix of the joined skills, all of them when fewer than `max_lines` lines came out |
| Assembler.ChunksLongFirstSkill | backend/app/services/assembler.py:144-149 | an over-long first skill leaves an empty line before it |
| Assembler.AppendLines | backend/app/services/assembler.py:119-136 | one escaped line per entry appended in order |
| Assembler.AppendItemsBlock | backend/app/services/assembler.py:117-127 | marker, `\begin{itemize}`, one item per entry, `\end{itemize}` |
| Assembler.AppendHeadedBlock | backend/app/services/assembler.py:129-136 | marker, then one subheading per entry |
| Assembler.BuildLatexSource | backend/app/services/assembler.py:114-138 | equals the reference LaTeX body |
| Assembler.ExperienceLayout | backend/app/services/assembler.py:116-121 | the Experience marker follows the comment, then the first 8 bullets |
| Assembler.ProjectsLayout | backend/app/services/assembler.py:123-127 | the Projects marker follows, then the first 6 bullets |
| Assembler.SkillsLayout | backend/app/services/assembler.py:129-132 | the Skills marker follows, then one or two packed lines |
| Assembler.EducationLayout | backend/app/services/assembler.py:134-136 | the Education marker follows and its first 3 entries end the body |
| Assembler.ItemLineEscaped | backend/app/services/assembler.py:120 | each item carries its text escaped: safe, and decoding back to the text |
| Assembler.Assemble | backend/app/services/assembler.py:21-32 | equals the reference assembly |
| Assembler.AssembledShape | backend/app/services/assembler.py:21-32 | a fitting profile is laid out unchanged; budgets are those of the profile laid out; skills kept; the estimate never grows; at most three trims |
| Renderer.FirstIndex | backend/app/services/renderer.py:112 | the least qualifying position, or the end |
| Renderer.LastIndex | backend/app/services/renderer.py:118 | the greatest qualifying position, or the end |
| Renderer.LineEnd | backend/app/services/renderer.py:118 | where `.*` must stop: the next newline, or the end |
| Renderer.PageCountNoPdf | backend/app/services/renderer.py:102-103 | no PDF means 0 pages |
| Renderer.PagesRoundTrip | backend/app/services/renderer.py:112-114 | pdfinfo's "Pages:" line is read back as the printed number |
| Renderer.LogRoundTrip | backend/app/services/renderer.py:117-120 | without pdfinfo's answer the log's "Output written on … (N page" line is read back as N |
| Renderer.NoColonNoPages | backend/app/services/renderer.py:112 | text without a colon has no "Pages:" match |
| Renderer.Collapse | backend/app/services/renderer.py:149 | the degree name contains no comma |
| Renderer.CollapseIdempotent | backend/app/services/renderer.py:149 | collapsing a degree name again leaves it alone |
| Renderer.CollapseAll | backend/app/services/renderer.py:147-149 | every education entry collapsed, in order |
| Renderer.CollapseAllIdempotent | backend/app/services/renderer.py:146-152 | collapsing the collapsed list changes nothing |
| Renderer.NoBulletCuts | backend/app/services/renderer.py:127-133 | step 1 leaves short sections alone |
| Renderer.BulletCutsShape | backend/app/services/renderer.py:127-133 | step 1 cuts and says so, never with the no-op line |
| Renderer.FallbackShape | backend/app/services/renderer.py:135-155 | steps 2 to 4 report the no-op exactly when they change nothing |
| Renderer.DropProjectShape | backend/app/services/renderer.py:135-138 | step 2 drops the last project |
| Renderer.DropExperienceShape | backend/app/services/renderer.py:140-143 | step 3 drops the last experience entry |
| Renderer.CollapseShape | backend/app/services/renderer.py:145-152 | step 4 collapses education and reports it only when something changed |
| Renderer.TightenShape | backend/app/services/renderer.py:123-156 | at least one message; skills never change; the no-op line exactly when nothing changed; lists lose entries only at their ends |
| Renderer.TightenSteps | backend/app/services/renderer.py:123-156 | the two bullet cuts together when long enough; else one project, else one experience entry, else collapsed education |
| Renderer.TightenSettles | backend/app/services/renderer.py:145-155 | once only education is left, a second round does nothing |
| Renderer.CollapseEducation | backend/app/services/renderer.py:147-149 | the loop equals the collapsed list |
| Renderer.TightenOverflow | backend/app/services/renderer.py:123-156 | equals the reference tightening |
| Renderer.FallbackSteps | backend/app/services/renderer.py:135-155 | steps 2 to 4 as the reference |
| Renderer.PickSource | backend/app/services/renderer.py:33-38 | the first attempt uses the given LaTeX; later ones re-assemble and add the assembler's trims |
| Renderer.RenderStep | backend/app/services/renderer.py:33-60 | one pass of the loop body agrees with the reference loop |
| Renderer.Render | backend/app/services/renderer.py:27-68 | equals the reference render loop |
| Renderer.RenderAttempts | backend/app/services/renderer.py:32-49 | at most `max_attempts` attempts, numbered 1, 2, …, all used on failure |
| Renderer.RenderFirstAttempt | backend/app/services/renderer.py:33-49 | attempt 1 compiles the given LaTeX with the assembler's trims |
| Renderer.RenderOutcome | backend/app/services/renderer.py:50-68 | success exactly at one page, from the first attempt that measured one page; failure has no path, the error and the last page count (0 without attempts) |
| Renderer.RenderTrims | backend/app/services/renderer.py:30-60 | trims are cumulative from the assembler's to the final ones; on failure they hold one more, uncompiled, step |
| Ingest.NormalizeNoBullet | backend/app/services/ingest.py:139-142 | cleaned text holds no bullet |
| Ingest.NormalizePlainSpaces | backend/app/services/ingest.py:139-142 | only plain spaces, never two in a row nor at either end |
| Ingest.NormalizeResumeClean | backend/app/services/ingest.py:139-142 | the result is clean, one-line text |
| Ingest.NormalizeResumeIdempotent | backend/app/services/ingest.py:139-142 | cleaning twice equals cleaning once |
| Ingest.Add | backend/app/services/ingest.py:228 | appends the line to one section and to no other |
| Ingest.ExtractSections | backend/app/services/ingest.py:207-229 | the loop equals the reference splitter |
| Ingest.ScanIsKept | backend/app/services/ingest.py:210-228 | the state machine agrees with the section-by-section reading |
| Ingest.KeptOrigin | backend/app/services/ingest.py:212-228 | every line of a section was recorded after a header of that section and before any other header |
| Ingest.KeptComplete | backend/app/services/ingest.py:212-228 | every line recorded under a header lands in that section |
| Ingest.HeaderThenLine | backend/app/services/ingest.py:212-228 | a header and a content line: the content line is recorded unless it is blank or skipped |
| Ingest.CleanTextHasNoSections | backend/app/services/ingest.py:63-64 | the splitter finds no section in cleaned text, which is a single line |
| Ingest.AsWrittenDropsDashes | backend/app/services/ingest.py:227 | as written, no extracted line contains a hyphen or a bullet |
| Ingest.IntendedKeepsContent | backend/app/services/ingest.py:227 | with the grouped pattern, every content line after a header is kept |
| Ingest.HyphenatedLineDropped | backend/app/services/ingest.py:227 | "Go-based APIs" under "Experience" is lost as written |
| Ingest.HyphenatedLineKept | backend/app/services/ingest.py:227 | the same line is kept with the grouped pattern |
| Ingest.FlattenedLineLost | backend/app/services/ingest.py:63-64 | "Experience" then "Go APIs", cleaned before splitting, gives every section empty |
| Ingest.LinesKeptBeforeFlattening | backend/app/services/ingest.py:207-229 | the same two lines, split before cleaning, keep "Go APIs" under experience with the code's own patterns |
| Ingest.YearsInRange | backend/app/services/ingest.py:236 | every year found is a 19xx or 20xx year |
| Ingest.Latest | backend/app/services/ingest.py:239 | the largest of the years |
| Ingest.RecencyBounds | backend/app/services/ingest.py:235-241 | recency lies in (0, 1]; 0.5 without a year; 1 for a year not before the current one |
| Ingest.RecencyMonotone | backend/app/services/ingest.py:235-241 | a line whose latest year is later never scores lower |
| Ingest.AppendLineChunks | backend/app/services/ingest.py:243-252 | the chunks of one section's lines appended |
| Ingest.ChunkResume | backend/app/services/ingest.py:231-286 | equals the reference chunking |
| Ingest.LineChunksOfNonEmpty | backend/app/services/ingest.py:243-284 | one chunk per non-empty line, in order, carrying its line |
| Ingest.ChunkCount | backend/app/services/ingest.py:231-286 | one chunk per non-empty experience, project and education line, plus one for skills when there are any |
| Ingest.LineChunksWellFormed | backend/app/services/ingest.py:243-284 | every chunk has its section, the first 80 characters as title and the section's recency |
| Ingest.ChunksShape | backend/app/services/ingest.py:231-286 | chunks are well formed and come in the order experience, projects, skills, education |
| Ingest.ProfileFromStructuredRoundTrip | backend/app/services/ingest.py:299-306 | the four sections are copied and only certifications are lost |

## Left out

- Text.NormalizeText: Unicode NFKD decomposition is not modelled (backend/app/utils/text.py:31). Input is taken to be already decomposed, so an accented letter counts as one non-ASCII character and is replaced by a space rather than decomposed.
- Strings.Lower: maps A-Z only, while Python's `lower()` is Unicode-aware. This affects:
  - `Capitalize`;
  - the assembler's `TightenText` and the optimizer's `TightenText`;
  - `ClassifyKeyword`;
  - the ingest header test (`l.lower()`, backend/app/services/ingest.py:214).
- Assembler.TightenShorter: `|r| <= |text|` relies on ASCII lower-casing. Python's Unicode `capitalize()` can lengthen a string (for example "ß" becomes "Ss"), so this does not carry over to arbitrary Unicode input.
- Scoring.ComputeAtsScore: `round(..., 2)` of the final score and the five breakdown values is not modelled (backend/app/services/pipeline.py:482-491). The model's values are unrounded.
- Mapping.Entry: the similarity is stored unrounded, without `round(best_sim, 3)` (backend/app/services/pipeline.py:355). The same holds for the threshold tests. `CoverageScore` and the explanation lines therefore use the unrounded value.
- Keywords.TfidfKeywords: the (term, weight) pairs are an input. Not modelled:
  - the TF-IDF vectoriser;
  - `argsort()[::-1][:top_k]` with `top_k = 32`;
  - the division by the best score and `round(..., 3)` (backend/app/services/pipeline.py:227-245).

  The vectoriser keeps its default token pattern of two or more word characters. Text whose tokens are all one character long (for example "C R") passes the `if not tokens` exit (backend/app/services/pipeline.py:205) but leaves the vocabulary empty, and `fit_transform` (backend/app/services/pipeline.py:227-230) then raises `ValueError`, which escapes `extract_and_classify`. The model does not capture that error: `Keywords.Extraction` and `Pipeline.Pipeline.ExtractAndClassify` take the pairs as input, and with no pairs they return a result built from the model's keywords alone.
- Keywords.LlmKeywords: list items are strings. A non-string item makes `normalize_text` raise `TypeError` (backend/app/services/pipeline.py:256), which escapes `extract_and_classify`; `LlmValue.List` cannot express that input.
- Optimizer.Optimize: the mapper is a pure function of the profile, standing for `semantic_map`. The real `semantic_map` also appends each round's chunks to the shared store (backend/app/services/pipeline.py:345-347), so a round's mapping can depend on earlier rounds. `Pipeline.SharedStoreLeaks` shows that effect. `IterateLog` and `OptimizeScores` hold for any mapper.
- VectorStore: the base class `VectorStore` raises `NotImplementedError` (backend/app/storage/vector_store.py:8-15). Only `LocalVectorStore` is modelled, because nothing else is instantiated.
- VectorStore.LocalVectorStore.Query: the cosine similarity over numpy norms is an opaque similarity function.
- Pipeline.Pipeline.SemanticMap: not modelled:
  - provider initialisation;
  - the environment-driven thresholds (passed as parameters);
  - the TF-IDF fallback's vectoriser, which is a lexical similarity function.

  That vectoriser raises `ValueError` when its vocabulary is empty, that is when every keyword and every chunk text consists only of one-character tokens or stop words (`vectorizer.fit(keywords + chunk_texts)`, backend/app/services/pipeline.py:369-370). The model does not capture that error: `Pipeline.MapByLexical` always returns a mapping.

  The embedding provider is always present (both branches of `_init_embedding_provider` return one), so the "TFIDF" label is unreachable and is not modelled.
- Pipeline: `generate` and `score` (backend/app/services/pipeline.py:131-200) are not modelled. They chain the modelled stages and add file and audit I/O.
- Renderer.Render: pdflatex, pdfinfo, temporary files and the PDF copy (backend/app/services/renderer.py:70-111) are a compile function returning whether a PDF exists, pdfinfo's text and the log. A missing pdfinfo binary is a pdfinfo text of None. Every attempt copies its PDF to the same `artifacts/resume_{pid}.pdf` and returns that path even when it produced no PDF (backend/app/services/renderer.py:94-98), so the page count of a failed compile can come from an earlier attempt's stale file. The compile function depends on the source alone, so the model does not capture that; no proved property depends on it.
- Renderer.PageCount: `\d` is ASCII digits and `\s` is Python's whitespace set. Unicode digits in the log are not modelled.
- Ingest: not modelled:
  - PDF reading (pdfplumber);
  - the Gemini section extractor (backend/app/services/ingest.py:152-205), which `extract_sections` tries before the splitter;
  - the sha256 chunk id (288-292);
  - embedding and the FAISS add;
  - the audit file and `time.time()`.

  The current year is a parameter instead of `time.localtime()`.
- Ingest.ProfileFromStructuredRoundTrip: the conversion is a field copy, so its round trip is close to trivial.
- RateLimit.RateLimiter.Check: `time.time()` is a parameter. The per-day and per-hour limits are parameters because the settings class does not declare them. The exception is a `Fail` outcome carrying its message.
- Float arithmetic: `real` stands for Python's floats throughout, so overflow and binary rounding are not modelled.
- The HTTP routes, the orchestrator, the artifact store, FAISS persistence and the embedding and LLM clients are not part of this model.

## Findings

| source | as written | input that shows it | evidently intended | confidence | as-written member | corrected member |
|---|---|---|---|---|---|---|
| backend/app/services/pipeline.py:345-350 and backend/app/storage/vector_store.py:19-24 | `LocalVectorStore` keeps its vectors in class-level lists shared by every instance. `semantic_map` appends each profile's chunks to that store and queries it, so a query can return another profile's chunk. | an earlier call stored a chunk "x", then `semantic_map([], EmptyProfile())` with a similarity of 1.0 | every call maps against this profile's chunks only, so on the embedding path an empty profile maps everything to `missing` (the lexical fallback still scores keywords against its `"empty profile"` placeholder text) | medium, not executed | Pipeline.SharedStoreLeaks | Pipeline.Pipeline.SemanticMapIsolated |
| backend/app/services/ingest.py:227 | the skip test `^\s*\*|-|•` parses as `(^\s*\*)` or `-` or `•`, so every content line containing a hyphen or a bullet is dropped | "Experience\nGo-based APIs" passed to the splitter directly yields an empty experience section (the service paths flatten the text first, see the next row) | `^\s*(\*|-|•)`: skip only lines that open with a bullet marker | high, not executed | Ingest.HyphenatedLineDropped | Ingest.HyphenatedLineKept |
| backend/app/services/ingest.py:63-64 | `ingest_text` (and `ingest_pdf` at lines 99-100) run `_normalize_text`, which turns every line break into a space, before `extract_sections`; the fallback splitter then sees one line and records nothing | "Experience\nGo APIs" gives all five sections empty | split the text into lines before cleaning it, so the header opens its section and "Go APIs" is kept under experience | high, not executed | Ingest.FlattenedLineLost | Ingest.LinesKeptBeforeFlattening |
