/**
 * The rule-based optimizer (backend/app/services/optimizer.py): four list
 * transforms per round (tighten, insert, reorder, trim), then re-mapping
 * and re-scoring, for a bounded number of rounds.
 *
 * Profiles are values, so the caller's profile is never changed: the
 * source's `deepcopy` is implicit.  `semantic_map` and
 * `compute_ats_score` are function parameters.
 */
module Optimizer {
  import opened Wrappers
  import opened Strings
  import opened Text
  import opened Schemas
  import opened Sorting
  import Scoring

  // ---------------------------------------------------------------- _tighten_text

  const FillerPhrases: seq<string> := [
    "responsible for", "worked on", "helped", "participated in", "involved in",
    "leveraged", "utilized", "using", "with a focus on", "various"
  ]

  const MaxWords := 36

  /** Each phrase in turn, every occurrence deleted. */
  function DeletePhrases(s: string, phrases: seq<string>): string
    decreases |phrases|
  {
    if phrases == [] then s else DeletePhrases(ReplaceAll(s, phrases[0], ""), phrases[1..])
  }

  /** The words of the lower-cased text once the filler phrases are gone. */
  function PlainWords(text: string): seq<string>
  {
    Words(DeletePhrases(Lower(text), FillerPhrases))
  }

  /** The words single-spaced, then split on ' ' and cut to the first 36 tokens when longer. */
  function Kept(ws: seq<string>): string
  {
    var tightened := Join(ws, " ");
    var tokens := Split(tightened, ' ');
    if |tokens| > MaxWords then Join(tokens[..MaxWords], " ") else tightened
  }

  /** `_tighten_text`. */
  function TightenText(text: string): string
  {
    Capitalize(Strip(Kept(PlainWords(text))))
  }

  lemma {:induction false} KeptPrefix(ws: seq<string>)
    requires forall i :: 0 <= i < |ws| ==> ws[i] != [] && NoSpace(ws[i])
    ensures Kept(ws) == Join(Prefix(ws, MaxWords), " ")
    ensures Strip(Kept(ws)) == Kept(ws)
  {
    KeptJoin(ws);
    var p := Prefix(ws, MaxWords);
    assert forall i :: 0 <= i < |p| ==> p[i] == ws[i];
    JoinWordsShape(p);
    StripIdentity(Join(p, " "));
  }

  lemma {:induction false} KeptJoin(ws: seq<string>)
    requires forall i :: 0 <= i < |ws| ==> NoSpace(ws[i])
    ensures Kept(ws) == Join(Prefix(ws, MaxWords), " ")
  {
    if ws == [] {
      assert Join(ws, " ") == [];
      assert IndexOf([], ' ') == 0;
      assert Split([], ' ') == [[]];
    } else {
      SplitJoin(ws);
      var tokens := Split(Join(ws, " "), ' ');
      assert tokens == ws;
      if |ws| > MaxWords {
        assert Prefix(ws, MaxWords) == ws[..MaxWords];
        assert Kept(ws) == Join(tokens[..MaxWords], " ");
      } else {
        assert Prefix(ws, MaxWords) == ws;
        assert Kept(ws) == Join(ws, " ");
      }
    }
  }

  /**
   * The tightened text is the first 36 (at most) words of the lower-cased,
   * filler-free text joined by single spaces, capitalised; so it has at
   * most 36 words.
   */
  lemma {:induction false} TightenTextWords(text: string)
    ensures TightenText(text) == Capitalize(Join(Prefix(PlainWords(text), MaxWords), " "))
    ensures |Words(TightenText(text))| <= MaxWords
  {
    var ws := PlainWords(text);
    KeptPrefix(ws);
    var kept := Join(Prefix(ws, MaxWords), " ");
    CapitalizeShape(kept);
    WordsSameShape(Capitalize(kept), kept);
    WordsOfJoin(Prefix(ws, MaxWords));
  }

  // ---------------------------------------------------------------- _tighten_bullets

  function TightenMessage(section: string, bullet: string, tightened: string): string
  {
    "Tightened " + section + " bullet: '" + Prefix(bullet, 40) + "...' -> '" + Prefix(tightened, 40) + "...'"
  }

  /** One line per bullet that `f` alters, in order. */
  function RewriteChanges(section: string, bullets: seq<string>, f: string -> string): (r: seq<string>)
    ensures |r| <= |bullets|
  {
    if bullets == [] then []
    else
      var b := bullets[|bullets| - 1];
      var t := f(b);
      RewriteChanges(section, bullets[..|bullets| - 1], f) + (if t != b then [TightenMessage(section, b, t)] else [])
  }

  /** `_tighten_bullets`: experience and project bullets tightened, skills and education untouched. */
  function Tightened(p: Profile): (Profile, seq<string>)
  {
    (p.(experience := RewriteAll(p.experience, TightenText), projects := RewriteAll(p.projects, TightenText)),
     RewriteChanges("experience", p.experience, TightenText) + RewriteChanges("projects", p.projects, TightenText))
  }

  /** There is no change line exactly when every bullet of the section is left as it was. */
  lemma {:induction false} RewriteChangesEmpty(section: string, bullets: seq<string>, f: string -> string)
    ensures RewriteChanges(section, bullets, f) == [] <==> RewriteAll(bullets, f) == bullets
    decreases |bullets|
  {
    if bullets != [] {
      var n := |bullets| - 1;
      RewriteChangesEmpty(section, bullets[..n], f);
      if RewriteAll(bullets[..n], f) == bullets[..n] && f(bullets[n]) == bullets[n] {
        assert RewriteAll(bullets, f) == bullets;
      }
      if RewriteAll(bullets, f) == bullets {
        assert RewriteAll(bullets[..n], f) == bullets[..n] by {
          forall i | 0 <= i < n
            ensures RewriteAll(bullets[..n], f)[i] == bullets[..n][i]
          {
            assert RewriteAll(bullets, f)[i] == bullets[i];
          }
        }
        assert RewriteAll(bullets, f)[n] == f(bullets[n]);
      }
    }
  }

  /** Rewriting both bullet sections with any `f`: the shape shared by tightening. */
  lemma {:induction false} RewriteSectionsShape(p: Profile, f: string -> string, q: Profile, changes: seq<string>)
    requires q == p.(experience := RewriteAll(p.experience, f), projects := RewriteAll(p.projects, f))
    requires changes == RewriteChanges("experience", p.experience, f) + RewriteChanges("projects", p.projects, f)
    ensures q.skills == p.skills && q.education == p.education
    ensures |changes| <= |p.experience| + |p.projects|
    ensures changes == [] <==> q == p
  {
    RewriteChangesEmpty("experience", p.experience, f);
    RewriteChangesEmpty("projects", p.projects, f);
    if q == p {
      assert RewriteAll(p.experience, f) == p.experience;
      assert RewriteAll(p.projects, f) == p.projects;
    }
  }

  /**
   * Tightening: only experience and project bullets change, each to its
   * tightened form; there is one change line per altered bullet, and none
   * exactly when no bullet changed.
   */
  lemma {:induction false} TightenedShape(p: Profile)
    ensures var (q, changes) := Tightened(p);
      && q.skills == p.skills && q.education == p.education
      && |q.experience| == |p.experience| && |q.projects| == |p.projects|
      && (forall i :: 0 <= i < |p.experience| ==> q.experience[i] == TightenText(p.experience[i]))
      && (forall i :: 0 <= i < |p.projects| ==> q.projects[i] == TightenText(p.projects[i]))
      && |changes| <= |p.experience| + |p.projects|
      && (changes == [] <==> q == p)
  {
    var (q, changes) := Tightened(p);
    RewriteSectionsShape(p, TightenText, q, changes);
  }

  /** One section: `f` applied to every bullet, with a change line for each bullet it alters. */
  method RewriteSection(section: string, bullets: seq<string>, f: string -> string)
    returns (newBullets: seq<string>, changes: seq<string>)
    ensures newBullets == RewriteAll(bullets, f) && changes == RewriteChanges(section, bullets, f)
  {
    newBullets, changes := [], [];
    for i := 0 to |bullets|
      invariant newBullets == RewriteAll(bullets[..i], f) && changes == RewriteChanges(section, bullets[..i], f)
    {
      assert bullets[..i + 1][..i] == bullets[..i];
      var tightened := f(bullets[i]);
      if tightened != bullets[i] {
        changes := changes + [TightenMessage(section, bullets[i], tightened)];
      }
      newBullets := newBullets + [tightened];
    }
    assert bullets[..|bullets|] == bullets;
  }

  method TightenBullets(profile: Profile) returns (updated: Profile, changes: seq<string>)
    ensures (updated, changes) == Tightened(profile)
  {
    var experience, expChanges := RewriteSection("experience", profile.experience, TightenText);
    var projects, projChanges := RewriteSection("projects", profile.projects, TightenText);
    updated := profile.(experience := experience, projects := projects);
    changes := expChanges + projChanges;
  }

  // ---------------------------------------------------------------- _is_missing and _insert_keywords

  /** `_is_missing`: no matched and no partial entry carries the keyword. */
  predicate IsMissing(keyword: string, m: KeywordMapping)
  {
    (forall e :: e in m.matched ==> keyword != e.keyword) && (forall e :: e in m.partial ==> keyword != e.keyword)
  }

  const InsertThreshold := 0.6

  /** The ranked keywords missing from the mapping with weight at least the threshold, in order. */
  function MissingHigh(ranked: seq<RankedKeyword>, m: KeywordMapping, threshold: real): (r: seq<RankedKeyword>)
    ensures forall rk :: rk in r <==> rk in ranked && IsMissing(rk.keyword, m) && rk.weight >= threshold
  {
    if ranked == [] then []
    else
      var rest := MissingHigh(ranked[..|ranked| - 1], m, threshold);
      var rk := ranked[|ranked| - 1];
      assert ranked == ranked[..|ranked| - 1] + [rk];
      if IsMissing(rk.keyword, m) && rk.weight >= threshold then rest + [rk] else rest
  }

  /** The normalised text the keywords are looked up in. */
  function ProfileText(p: Profile): string
  {
    NormalizeText(Join(p.experience + p.projects + p.skills + p.education, " "))
  }

  function NormalizedSkills(skills: seq<string>): seq<string>
  {
    seq(|skills|, i requires 0 <= i < |skills| => NormalizeText(skills[i]))
  }

  /** A bullet that holds the fragment but not the keyword (both in normalised form). */
  predicate Annotatable(bullet: string, fragment: string, keyword: string)
  {
    Contains(NormalizeText(bullet), fragment) && !Contains(NormalizeText(bullet), keyword)
  }

  /** The index of the first element satisfying `ok`, or the length. */
  function FirstWhere<T>(xs: seq<T>, ok: T -> bool): (i: nat)
    ensures i <= |xs|
    ensures forall j :: 0 <= j < i ==> !ok(xs[j])
    ensures i < |xs| ==> ok(xs[i])
  {
    if xs == [] then 0
    else if ok(xs[0]) then 0
    else 1 + FirstWhere(xs[1..], ok)
  }

  /** The index of the first annotatable bullet, or the number of bullets. */
  function FirstAnnotatable(bullets: seq<string>, fragment: string, keyword: string): (i: nat)
    ensures i <= |bullets|
    ensures forall j :: 0 <= j < i ==> !Annotatable(bullets[j], fragment, keyword)
    ensures i < |bullets| ==> Annotatable(bullets[i], fragment, keyword)
  {
    FirstWhere(bullets, b => Annotatable(b, fragment, keyword))
  }

  function Annotated(bullet: string, keyword: string): string
  {
    bullet + " (" + keyword + ")"
  }

  function InsertedMessage(keyword: string, section: string, index: nat): string
  {
    "Inserted keyword '" + keyword + "' into " + section + " bullet " + NatToString(index + 1)
  }

  /** The first word of the keyword, `keyword.split(" ")[0]`. */
  function Fragment(keyword: string): string
  {
    Split(keyword, ' ')[0]
  }

  /** Annotate the first experience bullet that can take the keyword, else the first project bullet, else nothing. */
  function Annotate(p: Profile, keyword: string): (Profile, seq<string>)
  {
    var fragment := Fragment(keyword);
    var i := FirstAnnotatable(p.experience, fragment, keyword);
    if i < |p.experience| then
      (p.(experience := p.experience[i := Annotated(p.experience[i], keyword)]), [InsertedMessage(keyword, "experience", i)])
    else
      var j := FirstAnnotatable(p.projects, fragment, keyword);
      if j < |p.projects| then
        (p.(projects := p.projects[j := Annotated(p.projects[j], keyword)]), [InsertedMessage(keyword, "projects", j)])
      else (p, [])
  }

  /** One missing keyword: skipped without evidence, appended to skills when absent there, else annotated. */
  function InsertOne(p: Profile, text: string, keyword: string): (Profile, seq<string>)
  {
    if !Contains(text, keyword) then (p, [])
    else if keyword !in NormalizedSkills(p.skills) then
      (p.(skills := p.skills + [keyword]), ["Inserted missing keyword '" + keyword + "' into skills"])
    else Annotate(p, keyword)
  }

  function InsertAll(p: Profile, text: string, missing: seq<RankedKeyword>): (Profile, seq<string>)
  {
    if missing == [] then (p, [])
    else
      var r := InsertAll(p, text, missing[..|missing| - 1]);
      var s := InsertOne(r.0, text, missing[|missing| - 1].keyword);
      (s.0, r.1 + s.1)
  }

  /** `_insert_keywords`: the profile after the insertions, and the change lines. */
  function Inserted(p: Profile, ranked: seq<RankedKeyword>, m: KeywordMapping, threshold: real): (Profile, seq<string>)
  {
    InsertAll(p, ProfileText(p), MissingHigh(ranked, m, threshold))
  }

  lemma {:induction false} InsertAllStep(p: Profile, text: string, missing: seq<RankedKeyword>, k: nat)
    requires k < |missing|
    ensures var r := InsertAll(p, text, missing[..k]);
      var s := InsertOne(r.0, text, missing[k].keyword);
      InsertAll(p, text, missing[..k + 1]) == (s.0, r.1 + s.1)
  {
    assert missing[..k + 1][..k] == missing[..k];
  }

  /** Index of the first annotatable bullet, `enumerate` with `break`. */
  method FindAnnotatable(bullets: seq<string>, fragment: string, keyword: string) returns (index: nat)
    ensures index == FirstAnnotatable(bullets, fragment, keyword)
  {
    index := 0;
    while index < |bullets|
      invariant index <= |bullets|
      invariant FirstAnnotatable(bullets[index..], fragment, keyword) + index == FirstAnnotatable(bullets, fragment, keyword)
    {
      if Annotatable(bullets[index], fragment, keyword) {
        return;
      }
      assert bullets[index..][1..] == bullets[index + 1..];
      index := index + 1;
    }
  }

  method InsertKeyword(p: Profile, text: string, keyword: string) returns (updated: Profile, changes: seq<string>)
    ensures (updated, changes) == InsertOne(p, text, keyword)
  {
    updated, changes := p, [];
    if !Contains(text, keyword) {
      return;
    }
    if keyword !in NormalizedSkills(p.skills) {
      updated := p.(skills := p.skills + [keyword]);
      changes := ["Inserted missing keyword '" + keyword + "' into skills"];
      return;
    }
    var fragment := Fragment(keyword);
    var i := FindAnnotatable(p.experience, fragment, keyword);
    if i < |p.experience| {
      updated := p.(experience := p.experience[i := Annotated(p.experience[i], keyword)]);
      changes := [InsertedMessage(keyword, "experience", i)];
      return;
    }
    var j := FindAnnotatable(p.projects, fragment, keyword);
    if j < |p.projects| {
      updated := p.(projects := p.projects[j := Annotated(p.projects[j], keyword)]);
      changes := [InsertedMessage(keyword, "projects", j)];
    }
  }

  /** `_insert_keywords`, with the in-place updates of the profile returned as the updated value. */
  method InsertKeywords(profile: Profile, ranked: seq<RankedKeyword>, m: KeywordMapping, threshold: real)
    returns (updated: Profile, changes: seq<string>)
    ensures (updated, changes) == Inserted(profile, ranked, m, threshold)
  {
    var missingHigh := MissingHigh(ranked, m, threshold);
    updated, changes := profile, [];
    if missingHigh == [] {
      return;
    }
    var text := ProfileText(profile);
    for k := 0 to |missingHigh|
      invariant (updated, changes) == InsertAll(profile, text, missingHigh[..k])
    {
      InsertAllStep(profile, text, missingHigh, k);
      var added;
      updated, added := InsertKeyword(updated, text, missingHigh[k].keyword);
      changes := changes + added;
    }
    TakeAll(missingHigh);
  }

  // ---------------------------------------------------------------- properties of the insertion

  /** `q` only adds to `p`: skills appended, bullets extended in place, education untouched. */
  predicate Extends(p: Profile, q: Profile)
  {
    && q.education == p.education
    && p.skills <= q.skills
    && |q.experience| == |p.experience| && (forall i :: 0 <= i < |p.experience| ==> p.experience[i] <= q.experience[i])
    && |q.projects| == |p.projects| && (forall i :: 0 <= i < |p.projects| ==> p.projects[i] <= q.projects[i])
  }

  lemma {:induction false} ExtendsTransitive(p: Profile, q: Profile, r: Profile)
    requires Extends(p, q) && Extends(q, r)
    ensures Extends(p, r)
  {
    forall i | 0 <= i < |p.experience|
      ensures p.experience[i] <= r.experience[i]
    {
      assert q.experience[i] <= r.experience[i];
    }
    forall i | 0 <= i < |p.projects|
      ensures p.projects[i] <= r.projects[i]
    {
      assert q.projects[i] <= r.projects[i];
    }
  }

  /** Replacing one bullet by a proper extension of it extends every bullet and changes the list. */
  lemma {:induction false} ExtendOne(xs: seq<string>, i: nat, y: string)
    requires i < |xs| && xs[i] <= y && xs[i] != y
    ensures |xs[i := y]| == |xs| && xs[i := y] != xs
    ensures forall k :: 0 <= k < |xs| ==> xs[k] <= xs[i := y][k]
  {
    assert xs[i := y][i] != xs[i];
  }

  lemma {:induction false} AnnotatedExtends(bullet: string, keyword: string)
    ensures bullet <= Annotated(bullet, keyword) && bullet != Annotated(bullet, keyword)
  {
    assert |Annotated(bullet, keyword)| > |bullet|;
    assert Annotated(bullet, keyword)[..|bullet|] == bullet;
  }

  /**
   * Annotation changes at most one bullet: the first experience bullet
   * (else project bullet) holding the keyword's first word but not the
   * keyword, which gets the keyword appended in parentheses; one change
   * line exactly when a bullet changed.
   */
  lemma {:induction false} AnnotateShape(p: Profile, keyword: string)
    ensures var (q, changes) := Annotate(p, keyword);
      && Extends(p, q)
      && |changes| <= 1
      && (q == p <==> changes == [])
      && q.skills == p.skills
      && ((q.experience == p.experience && q.projects == p.projects)
          || (exists i :: 0 <= i < |p.experience| && q.experience == p.experience[i := Annotated(p.experience[i], keyword)]
                && q.projects == p.projects && Annotatable(p.experience[i], Fragment(keyword), keyword))
          || (exists j :: 0 <= j < |p.projects| && q.projects == p.projects[j := Annotated(p.projects[j], keyword)]
                && q.experience == p.experience && Annotatable(p.projects[j], Fragment(keyword), keyword)))
  {
    var fragment := Fragment(keyword);
    var i := FirstAnnotatable(p.experience, fragment, keyword);
    if i < |p.experience| {
      AnnotatedExtends(p.experience[i], keyword);
      ExtendOne(p.experience, i, Annotated(p.experience[i], keyword));
    } else {
      var j := FirstAnnotatable(p.projects, fragment, keyword);
      if j < |p.projects| {
        AnnotatedExtends(p.projects[j], keyword);
        ExtendOne(p.projects, j, Annotated(p.projects[j], keyword));
      }
    }
  }

  /**
   * One keyword: nothing happens without evidence in the profile text; the
   * keyword is appended to skills when no normalised skill equals it;
   * otherwise at most one bullet, the first experience bullet (else project
   * bullet) holding its first word but not the keyword, gets the keyword
   * appended in parentheses.  At most one change line, and nothing removed.
   */
  lemma {:induction false} InsertOneShape(p: Profile, text: string, keyword: string)
    ensures var (q, changes) := InsertOne(p, text, keyword);
      && Extends(p, q)
      && |changes| <= 1
      && (q == p <==> changes == [])
      && (!Contains(text, keyword) ==> q == p)
      && (Contains(text, keyword) && keyword !in NormalizedSkills(p.skills) ==> q == p.(skills := p.skills + [keyword]))
      && (keyword in NormalizedSkills(p.skills) ==>
            && q.skills == p.skills
            && ((q.experience == p.experience && q.projects == p.projects)
                || (exists i :: 0 <= i < |p.experience| && q.experience == p.experience[i := Annotated(p.experience[i], keyword)]
                      && q.projects == p.projects && Annotatable(p.experience[i], Fragment(keyword), keyword))
                || (exists j :: 0 <= j < |p.projects| && q.projects == p.projects[j := Annotated(p.projects[j], keyword)]
                      && q.experience == p.experience && Annotatable(p.projects[j], Fragment(keyword), keyword))))
  {
    if !Contains(text, keyword) {
    } else if keyword !in NormalizedSkills(p.skills) {
      var q := p.(skills := p.skills + [keyword]);
      assert q.skills != p.skills by { assert |q.skills| == |p.skills| + 1; }
    } else {
      AnnotateShape(p, keyword);
    }
  }

  /**
   * All the missing keywords in turn: nothing is removed, every skill added
   * is one of those keywords found in the profile text, and there is at
   * most one change line per keyword.
   */
  lemma {:induction false} InsertAllShape(p: Profile, text: string, missing: seq<RankedKeyword>)
    ensures var (q, changes) := InsertAll(p, text, missing);
      && Extends(p, q)
      && |changes| <= |missing|
      && (forall s :: s in q.skills[|p.skills|..] ==> exists k :: 0 <= k < |missing| && s == missing[k].keyword && Contains(text, s))
    decreases |missing|
  {
    if missing != [] {
      var n := |missing| - 1;
      InsertAllShape(p, text, missing[..n]);
      var r := InsertAll(p, text, missing[..n]);
      InsertOneShape(r.0, text, missing[n].keyword);
      var q := InsertOne(r.0, text, missing[n].keyword).0;
      ExtendsTransitive(p, r.0, q);
      forall s | s in q.skills[|p.skills|..]
        ensures exists k :: 0 <= k < |missing| && s == missing[k].keyword && Contains(text, s)
      {
        var i :| |p.skills| <= i < |q.skills| && q.skills[i] == s;
        if i < |r.0.skills| {
          assert s in r.0.skills[|p.skills|..];
          var k :| 0 <= k < n && s == missing[..n][k].keyword && Contains(text, s);
          assert missing[..n][k] == missing[k];
        } else {
          assert q.skills != r.0.skills;
          assert s == missing[n].keyword;
        }
      }
    }
  }

  /**
   * `_insert_keywords` handles only ranked keywords absent from matched and
   * partial with weight at least the threshold, adds only those found in
   * the normalised profile text, and never removes anything.
   */
  lemma {:induction false} InsertedShape(p: Profile, ranked: seq<RankedKeyword>, m: KeywordMapping, threshold: real)
    ensures var (q, changes) := Inserted(p, ranked, m, threshold);
      && Extends(p, q)
      && |changes| <= |MissingHigh(ranked, m, threshold)|
      && (forall s :: s in q.skills[|p.skills|..] ==>
            exists rk :: rk in ranked && rk.keyword == s && IsMissing(s, m) && rk.weight >= threshold && Contains(ProfileText(p), s))
  {
    var missing := MissingHigh(ranked, m, threshold);
    InsertAllShape(p, ProfileText(p), missing);
    var q := Inserted(p, ranked, m, threshold).0;
    forall s | s in q.skills[|p.skills|..]
      ensures exists rk :: rk in ranked && rk.keyword == s && IsMissing(s, m) && rk.weight >= threshold && Contains(ProfileText(p), s)
    {
      var k :| 0 <= k < |missing| && s == missing[k].keyword && Contains(ProfileText(p), s);
      assert missing[k] in missing;
    }
  }

  /** Appending skills keeps every normalised skill. */
  lemma {:induction false} NormalizedSkillsGrow(a: seq<string>, b: seq<string>)
    requires a <= b
    ensures forall x :: x in NormalizedSkills(a) ==> x in NormalizedSkills(b)
  {
    forall x | x in NormalizedSkills(a) ensures x in NormalizedSkills(b) {
      var i :| 0 <= i < |a| && NormalizedSkills(a)[i] == x;
      assert NormalizedSkills(b)[i] == NormalizeText(b[i]) == NormalizeText(a[i]);
    }
  }

  /** The keyword is in the skills list, as written or once normalised. */
  predicate InSkills(keyword: string, p: Profile)
  {
    keyword in p.skills || keyword in NormalizedSkills(p.skills)
  }

  /** Some bullet can take the keyword. */
  predicate SomeAnnotatable(bullets: seq<string>, keyword: string)
  {
    exists i :: 0 <= i < |bullets| && Annotatable(bullets[i], Fragment(keyword), keyword)
  }

  /**
   * One keyword with evidence in the profile text always ends up in the
   * skills list; and when it was already there, a bullet that can take it
   * does take it, with one change line.
   */
  lemma {:induction false} InsertOneCovers(p: Profile, text: string, keyword: string)
    requires Contains(text, keyword)
    ensures InSkills(keyword, InsertOne(p, text, keyword).0)
    ensures keyword in NormalizedSkills(p.skills) && (SomeAnnotatable(p.experience, keyword) || SomeAnnotatable(p.projects, keyword))
      ==> InsertOne(p, text, keyword).0 != p && |InsertOne(p, text, keyword).1| == 1
  {
    var fragment := Fragment(keyword);
    if keyword in NormalizedSkills(p.skills) {
      var i := FirstAnnotatable(p.experience, fragment, keyword);
      if i < |p.experience| {
        AnnotatedExtends(p.experience[i], keyword);
        ExtendOne(p.experience, i, Annotated(p.experience[i], keyword));
      } else {
        var j := FirstAnnotatable(p.projects, fragment, keyword);
        if j < |p.projects| {
          AnnotatedExtends(p.projects[j], keyword);
          ExtendOne(p.projects, j, Annotated(p.projects[j], keyword));
        }
      }
    } else {
      assert keyword == (p.skills + [keyword])[|p.skills|];
    }
  }

  /** Every missing keyword with evidence in the text ends up in the skills list, and stays there. */
  lemma {:induction false} InsertAllCovers(p: Profile, text: string, missing: seq<RankedKeyword>)
    ensures forall k :: 0 <= k < |missing| && Contains(text, missing[k].keyword) ==>
              InSkills(missing[k].keyword, InsertAll(p, text, missing).0)
    decreases |missing|
  {
    if missing != [] {
      var n := |missing| - 1;
      InsertAllCovers(p, text, missing[..n]);
      var r := InsertAll(p, text, missing[..n]).0;
      var q := InsertAll(p, text, missing).0;
      InsertOneShape(r, text, missing[n].keyword);
      NormalizedSkillsGrow(r.skills, q.skills);
      forall k | 0 <= k < |missing| && Contains(text, missing[k].keyword)
        ensures InSkills(missing[k].keyword, q)
      {
        if k < n {
          assert missing[..n][k] == missing[k];
          assert InSkills(missing[k].keyword, r);
        } else {
          InsertOneCovers(r, text, missing[n].keyword);
        }
      }
    }
  }

  /**
   * `_insert_keywords` misses no keyword it should handle: every ranked
   * keyword absent from the mapping, weighted at least the threshold and
   * found in the normalised profile text is in the skills list afterwards.
   */
  lemma {:induction false} InsertedCovers(p: Profile, ranked: seq<RankedKeyword>, m: KeywordMapping, threshold: real)
    ensures forall rk :: rk in ranked && IsMissing(rk.keyword, m) && rk.weight >= threshold && Contains(ProfileText(p), rk.keyword)
              ==> InSkills(rk.keyword, Inserted(p, ranked, m, threshold).0)
  {
    var missing := MissingHigh(ranked, m, threshold);
    InsertAllCovers(p, ProfileText(p), missing);
    forall rk | rk in ranked && IsMissing(rk.keyword, m) && rk.weight >= threshold && Contains(ProfileText(p), rk.keyword)
      ensures InSkills(rk.keyword, Inserted(p, ranked, m, threshold).0)
    {
      assert rk in missing;
      var k :| 0 <= k < |missing| && missing[k] == rk;
    }
  }

  // ---------------------------------------------------------------- _reorder

  /** `{rk.keyword for rk in ranked_keywords}`. */
  function KeywordSet(ranked: seq<RankedKeyword>): set<string>
  {
    set rk | rk in ranked :: rk.keyword
  }

  /** How many of the keywords the normalised bullet contains. */
  function Relevance(bullet: string, keys: set<string>): nat
  {
    |set k | k in keys && Contains(NormalizeText(bullet), k)|
  }

  /** The bullets with their relevance, in order. */
  function Scored(bullets: seq<string>, keys: set<string>): (r: seq<(real, string)>)
    ensures |r| == |bullets|
    ensures forall i :: 0 <= i < |bullets| ==> r[i] == (Relevance(bullets[i], keys) as real, bullets[i])
  {
    seq(|bullets|, i requires 0 <= i < |bullets| => (Relevance(bullets[i], keys) as real, bullets[i]))
  }

  /** One section: left alone with at most one bullet, else sorted by relevance, ties in order. */
  function ReorderSection(bullets: seq<string>, keys: set<string>): seq<string>
  {
    if |bullets| <= 1 then bullets else Items(SortDesc(Scored(bullets, keys)))
  }

  function ReorderMessage(section: string): string
  {
    "Reordered " + section + " to surface higher-relevance bullets"
  }

  /** `_reorder`: experience and projects reordered, one change line for each that moved. */
  function Reordered(p: Profile, ranked: seq<RankedKeyword>): (Profile, seq<string>)
  {
    var keys := KeywordSet(ranked);
    var experience := ReorderSection(p.experience, keys);
    var projects := ReorderSection(p.projects, keys);
    (p.(experience := experience, projects := projects),
     (if experience != p.experience then [ReorderMessage("experience")] else [])
       + (if projects != p.projects then [ReorderMessage("projects")] else []))
  }

  lemma {:induction false} ItemsOfScored(bullets: seq<string>, keys: set<string>)
    ensures Items(Scored(bullets, keys)) == bullets
  {
  }

  /** Sorting keeps each pair's relevance attached to its bullet. */
  lemma {:induction false} ScoredOfSorted(bullets: seq<string>, keys: set<string>)
    ensures var sorted := SortDesc(Scored(bullets, keys));
      Scored(Items(sorted), keys) == sorted
  {
    var scored := Scored(bullets, keys);
    var sorted := SortDesc(scored);
    SortDescPermutation(scored);
    forall i | 0 <= i < |sorted|
      ensures Scored(Items(sorted), keys)[i] == sorted[i]
    {
      assert sorted[i] in multiset(scored);
      var j :| 0 <= j < |scored| && scored[j] == sorted[i];
    }
  }

  /**
   * A reordered section is a permutation of the section, by non-increasing
   * relevance, and the bullets of each relevance keep their original
   * order; a section of at most one bullet is unchanged.
   */
  lemma {:induction false} ReorderSectionShape(bullets: seq<string>, keys: set<string>)
    ensures var r := ReorderSection(bullets, keys);
      && multiset(r) == multiset(bullets)
      && (|bullets| <= 1 ==> r == bullets)
      && (forall i, j :: 0 <= i < j < |r| ==> Relevance(r[i], keys) >= Relevance(r[j], keys))
      && (forall k :: WithKey(Scored(r, keys), k) == WithKey(Scored(bullets, keys), k))
  {
    if |bullets| > 1 {
      var scored := Scored(bullets, keys);
      var sorted := SortDesc(scored);
      var r := Items(sorted);
      SortDescItems(scored);
      ItemsOfScored(bullets, keys);
      ScoredOfSorted(bullets, keys);
      SortDescSorted(scored);
      forall i, j | 0 <= i < j < |r|
        ensures Relevance(r[i], keys) >= Relevance(r[j], keys)
      {
        assert Scored(r, keys)[i] == sorted[i] && Scored(r, keys)[j] == sorted[j];
      }
      forall k
        ensures WithKey(Scored(r, keys), k) == WithKey(scored, k)
      {
        SortDescStable(scored, k);
      }
    }
  }

  /** Reordering touches only experience and projects, and reports exactly the sections that moved. */
  lemma {:induction false} ReorderedShape(p: Profile, ranked: seq<RankedKeyword>)
    ensures var (q, changes) := Reordered(p, ranked);
      && q.skills == p.skills && q.education == p.education
      && multiset(q.experience) == multiset(p.experience) && multiset(q.projects) == multiset(p.projects)
      && (changes == [] <==> q == p)
      && |changes| <= 2
  {
    ReorderSectionShape(p.experience, KeywordSet(ranked));
    ReorderSectionShape(p.projects, KeywordSet(ranked));
  }

  method ScoreBullets(bullets: seq<string>, keys: set<string>) returns (scored: seq<(real, string)>)
    ensures scored == Scored(bullets, keys)
  {
    scored := [];
    for idx := 0 to |bullets|
      invariant |scored| == idx
      invariant forall i :: 0 <= i < idx ==> scored[i] == (Relevance(bullets[i], keys) as real, bullets[i])
    {
      var score := Relevance(bullets[idx], keys);
      scored := scored + [(score as real, bullets[idx])];
    }
    assert scored == Scored(bullets, keys);
  }

  /** `_reorder`; the list sort with `reverse=True` is the stable descending sort. */
  method Reorder(profile: Profile, ranked: seq<RankedKeyword>) returns (updated: Profile, changes: seq<string>)
    ensures (updated, changes) == Reordered(profile, ranked)
  {
    var keys := KeywordSet(ranked);
    var experience, expChanges := ReorderBullets("experience", profile.experience, keys);
    var projects, projChanges := ReorderBullets("projects", profile.projects, keys);
    updated := profile.(experience := experience, projects := projects);
    changes := expChanges + projChanges;
  }

  /** One section of `_reorder`. */
  method ReorderBullets(section: string, bullets: seq<string>, keys: set<string>) returns (reordered: seq<string>, changes: seq<string>)
    ensures reordered == ReorderSection(bullets, keys)
    ensures changes == if reordered != bullets then [ReorderMessage(section)] else []
  {
    reordered, changes := bullets, [];
    if |bullets| <= 1 {
      return;
    }
    var scored := ScoreBullets(bullets, keys);
    reordered := Items(SortDesc(scored));
    if reordered != bullets {
      changes := [ReorderMessage(section)];
    }
  }

  // ---------------------------------------------------------------- _trim_sections

  const TrimThreshold := 2200

  function DroppedMessage(what: string, removed: string): string
  {
    what + ": '" + Prefix(removed, 40) + "...'"
  }

  /** `_trim_sections`. */
  function Trimmed(p: Profile): (Profile, seq<string>)
  {
    if Scoring.TextLength(p) <= TrimThreshold then (p, [])
    else
      var p1 := if p.projects != [] then p.(projects := DropLast(p.projects)) else p;
      var c1 := if p.projects != [] then [DroppedMessage("Dropped low-priority project bullet", p.projects[|p.projects| - 1])] else [];
      var over1 := Scoring.TextLength(p1) > TrimThreshold && p1.experience != [];
      var p2 := if over1 then p1.(experience := DropLast(p1.experience)) else p1;
      var c2 := if over1 then [DroppedMessage("Dropped low-priority experience bullet", p1.experience[|p1.experience| - 1])] else [];
      var over2 := Scoring.TextLength(p2) > TrimThreshold && p2.education != [];
      var p3 := if over2 then p2.(education := DropLast(p2.education)) else p2;
      var c3 := if over2 then [DroppedMessage("Trimmed education entry", p2.education[|p2.education| - 1])] else [];
      (p3, c1 + c2 + c3)
  }

  /** A list either kept or with its last element popped. */
  predicate KeptOrPopped(before: seq<string>, after: seq<string>)
  {
    after == before || (before != [] && after == before[..|before| - 1])
  }

  /**
   * Short profiles are returned unchanged with no change lines; otherwise
   * at most one project, then one experience bullet (only if still over),
   * then one education entry (only if still over) are popped from the end,
   * one change line each; skills are never touched.
   */
  lemma {:induction false} TrimmedShape(p: Profile)
    ensures var (q, changes) := Trimmed(p);
      && (Scoring.TextLength(p) <= TrimThreshold ==> q == p && changes == [])
      && q.skills == p.skills
      && KeptOrPopped(p.projects, q.projects) && KeptOrPopped(p.experience, q.experience) && KeptOrPopped(p.education, q.education)
      && (Scoring.TextLength(p) > TrimThreshold && p.projects != [] ==> q.projects == DropLast(p.projects))
      && (q.experience != p.experience ==> Scoring.TextLength(p.(projects := q.projects)) > TrimThreshold)
      && (q.education != p.education ==> Scoring.TextLength(p.(projects := q.projects, experience := q.experience)) > TrimThreshold)
      && |changes| == (if q.projects != p.projects then 1 else 0) + (if q.experience != p.experience then 1 else 0)
                      + (if q.education != p.education then 1 else 0)
  {
  }

  method TrimSections(profile: Profile) returns (updated: Profile, changes: seq<string>)
    ensures (updated, changes) == Trimmed(profile)
  {
    if Scoring.TextLength(profile) <= TrimThreshold {
      return profile, [];
    }
    updated := profile;
    var projectLine, experienceLine, educationLine := [], [], [];
    if updated.projects != [] {
      var removed := updated.projects[|updated.projects| - 1];
      updated := updated.(projects := DropLast(updated.projects));
      projectLine := [DroppedMessage("Dropped low-priority project bullet", removed)];
    }
    if Scoring.TextLength(updated) > TrimThreshold && updated.experience != [] {
      var removed := updated.experience[|updated.experience| - 1];
      updated := updated.(experience := DropLast(updated.experience));
      experienceLine := [DroppedMessage("Dropped low-priority experience bullet", removed)];
    }
    if Scoring.TextLength(updated) > TrimThreshold && updated.education != [] {
      var removed := updated.education[|updated.education| - 1];
      updated := updated.(education := DropLast(updated.education));
      educationLine := [DroppedMessage("Trimmed education entry", removed)];
    }
    changes := projectLine + experienceLine + educationLine;
  }

  // ---------------------------------------------------------------- optimize

  /** `semantic_map(extraction.ranked_keywords, profile)` for a fixed extraction. */
  type Mapper = Profile -> KeywordMapping

  /** `compute_ats_score(job, profile, extraction, mapping)` for a fixed job and extraction. */
  type Scorer = (Profile, KeywordMapping) -> AtsScore

  /** One round of the four transforms, and every change line it reports. */
  function Round(p: Profile, ranked: seq<RankedKeyword>, baseline: KeywordMapping): (Profile, seq<string>)
  {
    var t := Tightened(p);
    var ins := Inserted(t.0, ranked, baseline, InsertThreshold);
    var r := Reordered(ins.0, ranked);
    var tr := Trimmed(r.0);
    (tr.0, t.1 + ins.1 + r.1 + tr.1)
  }

  /** The loop's stop rule after a round from `before` to `after`. */
  predicate Stops(before: real, after: real, target: real)
  {
    after >= target || after - before < 0.2
  }

  /** What is left of the loop: the final profile, score and mapping, and the iterations from `i` on. */
  datatype Outcome = Outcome(profile: Profile, score: AtsScore, mapping: KeywordMapping, iterations: seq<OptimizerIteration>)

  /** One round of transforms from a profile and the current mapping. */
  type Rounder = (Profile, KeywordMapping) -> (Profile, seq<string>)

  /** The rounds numbered `i` to `maxIterations`, stopping early by the stop rule. */
  function Iterate(p: Profile, score: AtsScore, mapping: KeywordMapping, i: int, maxIterations: int, target: real,
                   round: Rounder, mapFn: Mapper, scoreFn: Scorer): Outcome
    decreases if i <= maxIterations then maxIterations - i + 1 else 0
  {
    if i > maxIterations then Outcome(p, score, mapping, [])
    else
      var (q, changes) := round(p, mapping);
      var newMapping := mapFn(q);
      var newScore := scoreFn(q, newMapping);
      var it := OptimizerIteration(i, if changes == [] then ["No changes"] else changes, score.score, newScore.score);
      if Stops(score.score, newScore.score, target) then Outcome(q, newScore, newMapping, [it])
      else
        var rest := Iterate(q, newScore, newMapping, i + 1, maxIterations, target, round, mapFn, scoreFn);
        rest.(iterations := [it] + rest.iterations)
  }

  function Optimized(p: Profile, ranked: seq<RankedKeyword>, mapping: KeywordMapping, score: AtsScore,
                     maxIterations: int, target: real, mapFn: Mapper, scoreFn: Scorer): OptimizerResult
  {
    var o := Iterate(p, score, mapping, 1, maxIterations, target, (q, m) => Round(q, ranked, m), mapFn, scoreFn);
    OptimizerResult(o.profile, o.iterations, o.score.score, o.score, o.mapping)
  }

  /** The loop from round `i`, one round unfolded. */
  lemma {:induction false} IterateStep(p: Profile, score: AtsScore, mapping: KeywordMapping, i: int, maxIterations: int, target: real,
                    round: Rounder, mapFn: Mapper, scoreFn: Scorer, q: Profile, changes: seq<string>)
    requires i <= maxIterations && (q, changes) == round(p, mapping)
    ensures var newMapping := mapFn(q);
      var newScore := scoreFn(q, newMapping);
      var it := OptimizerIteration(i, if changes == [] then ["No changes"] else changes, score.score, newScore.score);
      Iterate(p, score, mapping, i, maxIterations, target, round, mapFn, scoreFn)
        == if Stops(score.score, newScore.score, target) then Outcome(q, newScore, newMapping, [it])
           else
             var rest := Iterate(q, newScore, newMapping, i + 1, maxIterations, target, round, mapFn, scoreFn);
             rest.(iterations := [it] + rest.iterations)
  {
  }

  /**
   * The log of the loop from round `i`: rounds numbered consecutively from
   * `i`, never more than the rounds left, each one starting from the score
   * the previous one reached and reporting at least one line; every round
   * but the last one went on (below target, gain of at least 0.2), and the
   * last one stopped or used up the rounds.  The final profile, mapping and
   * score are those of the last round, or the inputs when no round ran.
   */
  lemma {:induction false} IterateLog(p: Profile, score: AtsScore, mapping: KeywordMapping, i: int, maxIterations: int, target: real,
                                      round: Rounder, mapFn: Mapper, scoreFn: Scorer)
    ensures var o := Iterate(p, score, mapping, i, maxIterations, target, round, mapFn, scoreFn);
      var its := o.iterations;
      && (its == [] <==> i > maxIterations)
      && (i <= maxIterations ==> |its| <= maxIterations - i + 1)
      && (forall k :: 0 <= k < |its| ==> its[k].iteration == i + k && its[k].changes != [])
      && (its != [] ==> its[0].scoreBefore == score.score)
      && (forall k :: 0 < k < |its| ==> its[k].scoreBefore == its[k - 1].scoreAfter)
      && (forall k :: 0 <= k < |its| - 1 ==> !Stops(its[k].scoreBefore, its[k].scoreAfter, target))
      && (its != [] ==> var last := its[|its| - 1];
            Stops(last.scoreBefore, last.scoreAfter, target) || |its| == maxIterations - i + 1)
      && (its == [] ==> o.profile == p && o.score == score && o.mapping == mapping)
      && (its != [] ==> o.score.score == its[|its| - 1].scoreAfter
                        && o.mapping == mapFn(o.profile) && o.score == scoreFn(o.profile, o.mapping))
    decreases if i <= maxIterations then maxIterations - i + 1 else 0
  {
    if i <= maxIterations {
      var (q, changes) := round(p, mapping);
      var newMapping := mapFn(q);
      var newScore := scoreFn(q, newMapping);
      if !Stops(score.score, newScore.score, target) {
        IterateLog(q, newScore, newMapping, i + 1, maxIterations, target, round, mapFn, scoreFn);
        var rest := Iterate(q, newScore, newMapping, i + 1, maxIterations, target, round, mapFn, scoreFn);
        var it := OptimizerIteration(i, if changes == [] then ["No changes"] else changes, score.score, newScore.score);
        var its := [it] + rest.iterations;
        assert Iterate(p, score, mapping, i, maxIterations, target, round, mapFn, scoreFn).iterations == its;
        forall k | 0 < k < |its|
          ensures its[k] == rest.iterations[k - 1]
        {
        }
      }
    }
  }

  /** `optimize`'s result is the loop from round 1 with the four transforms as the round. */
  lemma {:induction false} OptimizedIterate(p: Profile, ranked: seq<RankedKeyword>, mapping: KeywordMapping, score: AtsScore,
                         maxIterations: int, target: real, mapFn: Mapper, scoreFn: Scorer)
    ensures var o := Iterate(p, score, mapping, 1, maxIterations, target, (q, m) => Round(q, ranked, m), mapFn, scoreFn);
      Optimized(p, ranked, mapping, score, maxIterations, target, mapFn, scoreFn)
        == OptimizerResult(o.profile, o.iterations, o.score.score, o.score, o.mapping)
  {
  }

  /** The optimizer's log: rounds 1, 2, ... and never more than `max_iterations`, each reporting a line. */
  lemma {:induction false} OptimizeRounds(p: Profile, ranked: seq<RankedKeyword>, mapping: KeywordMapping, score: AtsScore,
                       maxIterations: int, target: real, mapFn: Mapper, scoreFn: Scorer)
    ensures var its := Optimized(p, ranked, mapping, score, maxIterations, target, mapFn, scoreFn).iterations;
      && (its == [] <==> maxIterations < 1)
      && |its| <= (if maxIterations < 1 then 0 else maxIterations)
      && (forall k :: 0 <= k < |its| ==> its[k].iteration == k + 1 && its[k].changes != [])
  {
    var round: Rounder := (q, m) => Round(q, ranked, m);
    IterateLog(p, score, mapping, 1, maxIterations, target, round, mapFn, scoreFn);
    OptimizedIterate(p, ranked, mapping, score, maxIterations, target, mapFn, scoreFn);
  }

  /**
   * The optimizer's scores: the first round starts from the input score,
   * each later one from where the previous one ended, every round but the
   * last stayed below the target and gained at least 0.2, and the final
   * score is the last round's (the input score when no round ran).
   */
  lemma {:induction false} OptimizeScores(p: Profile, ranked: seq<RankedKeyword>, mapping: KeywordMapping, score: AtsScore,
                       maxIterations: int, target: real, mapFn: Mapper, scoreFn: Scorer)
    ensures var r := Optimized(p, ranked, mapping, score, maxIterations, target, mapFn, scoreFn);
      var its := r.iterations;
      && (its != [] ==> its[0].scoreBefore == score.score && r.finalScore == its[|its| - 1].scoreAfter)
      && (forall k :: 0 < k < |its| ==> its[k].scoreBefore == its[k - 1].scoreAfter)
      && (forall k :: 0 <= k < |its| - 1 ==> its[k].scoreAfter < target && its[k].scoreAfter - its[k].scoreBefore >= 0.2)
      && (its == [] ==> r.optimizedResume == p && r.finalScore == score.score)
  {
    var round: Rounder := (q, m) => Round(q, ranked, m);
    IterateLog(p, score, mapping, 1, maxIterations, target, round, mapFn, scoreFn);
    OptimizedIterate(p, ranked, mapping, score, maxIterations, target, mapFn, scoreFn);
    var its := Iterate(p, score, mapping, 1, maxIterations, target, round, mapFn, scoreFn).iterations;
    forall k | 0 <= k < |its| - 1
      ensures its[k].scoreAfter < target && its[k].scoreAfter - its[k].scoreBefore >= 0.2
    {
      assert !Stops(its[k].scoreBefore, its[k].scoreAfter, target);
    }
  }

  method RunRound(p: Profile, ranked: seq<RankedKeyword>, baseline: KeywordMapping) returns (q: Profile, changes: seq<string>)
    ensures (q, changes) == Round(p, ranked, baseline)
  {
    var tightenChanges, insertionChanges, reorderChanges, trimChanges;
    q, tightenChanges := TightenBullets(p);
    q, insertionChanges := InsertKeywords(q, ranked, baseline, InsertThreshold);
    q, reorderChanges := Reorder(q, ranked);
    q, trimChanges := TrimSections(q);
    changes := tightenChanges + insertionChanges + reorderChanges + trimChanges;
  }

  /** `optimize`: at most `max_iterations` rounds, each logged, until the score reaches the target or stalls. */
  method Optimize(profile: Profile, ranked: seq<RankedKeyword>, mapping: KeywordMapping, scoreDetail: AtsScore,
                  maxIterations: int, target: real, mapFn: Mapper, scoreFn: Scorer) returns (result: OptimizerResult)
    ensures result == Optimized(profile, ranked, mapping, scoreDetail, maxIterations, target, mapFn, scoreFn)
  {
    var currentProfile := profile;
    var currentScore := scoreDetail;
    var iterations: seq<OptimizerIteration> := [];
    var baseline := mapping;
    ghost var round: Rounder := (q, m) => Round(q, ranked, m);
    ghost var goal := Iterate(profile, scoreDetail, mapping, 1, maxIterations, target, round, mapFn, scoreFn);
    var i := 1;
    while i <= maxIterations
      invariant 1 <= i
      invariant var rest := Iterate(currentProfile, currentScore, baseline, i, maxIterations, target, round, mapFn, scoreFn);
        goal == rest.(iterations := iterations + rest.iterations)
      decreases maxIterations - i
    {
      var next, changes := RunRound(currentProfile, ranked, baseline);
      IterateStep(currentProfile, currentScore, baseline, i, maxIterations, target, round, mapFn, scoreFn, next, changes);
      currentProfile := next;
      var newMapping := mapFn(currentProfile);
      var newScore := scoreFn(currentProfile, newMapping);
      var it := OptimizerIteration(i, if changes == [] then ["No changes"] else changes, currentScore.score, newScore.score);
      ghost var rest := Iterate(currentProfile, newScore, newMapping, i + 1, maxIterations, target, round, mapFn, scoreFn);
      ConcatAssoc(iterations, [it], rest.iterations);
      iterations := iterations + [it];
      var delta := newScore.score - currentScore.score;
      currentScore := newScore;
      baseline := newMapping;
      if newScore.score >= target {
        break;
      }
      if delta < 0.2 {
        break;
      }
      i := i + 1;
    }
    ConcatEmpty(iterations);
    result := OptimizerResult(currentProfile, iterations, currentScore.score, currentScore, baseline);
  }
}
