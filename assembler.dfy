/**
 * The line-budget LaTeX assembler (backend/app/services/assembler.py):
 * estimate how many lines each section takes, trim a copy of the profile
 * step by step until the estimate fits the line limit, and lay the
 * profile out as a fixed-section LaTeX body.
 *
 * The assembler's only field, `line_limit`, is set once and never
 * changed, so it is a parameter here.  Profiles are values: the source's
 * `deepcopy` is implicit and its `pop()` calls are reassignments.
 */
module Assembler {
  import opened Strings
  import opened Text
  import opened Schemas

  /** `Assembler(line_limit=55)`. */
  const DefaultLineLimit := 55

  /** Only the first 8 experience and 6 project bullets are laid out or counted. */
  const ExperienceCap := 8
  const ProjectCap := 6

  /** At most 3 education entries and 2 skill lines are laid out. */
  const EducationCap := 3
  const SkillLineCap := 2

  /** Characters per skills line, both in the estimate and in the packing. */
  const SkillChars := 70

  /** `_tighten_text` keeps at most 28 words. */
  const MaxTightWords := 28

  /** Trim messages quote the first 50 characters of what was removed. */
  const QuoteWidth := 50

  function Max(a: int, b: int): (m: int)
    ensures m >= a && m >= b && (m == a || m == b)
  {
    if a >= b then a else b
  }

  // ---------------------------------------------------------------- _estimate_budgets

  /** A bullet of up to 90 characters takes 1 line, up to 170 takes 2, a longer one 3. */
  function BulletLines(b: string): (n: int)
    ensures 1 <= n <= 3
  {
    if |b| <= 90 then 1 else if |b| <= 170 then 2 else 3
  }

  /** The lines of all the bullets. */
  function SumLines(bullets: seq<string>): (n: int)
    ensures |bullets| <= n <= 3 * |bullets|
  {
    if bullets == [] then 0 else SumLines(DropLast(bullets)) + BulletLines(bullets[|bullets| - 1])
  }

  /** `lines_for_bullets(bullets, cap)`: the lines of the first `cap` bullets. */
  function LinesFor(bullets: seq<string>, cap: nat): int
  {
    SumLines(Prefix(bullets, cap))
  }

  /** `len(" ".join(skills)) // 70 + 1` (at least 1), and 1 for no skills. */
  function SkillsLines(skills: seq<string>): int
  {
    if skills != [] then Max(1, |Join(skills, " ")| / SkillChars + 1) else 1
  }

  /** `max(1, len(education))`. */
  function EducationLines(education: seq<string>): int
  {
    Max(1, |education|)
  }

  /** `_estimate_budgets`. */
  function Budgets(p: Profile, limit: int): AssemblerBudgets
  {
    var e := LinesFor(p.experience, ExperienceCap);
    var j := LinesFor(p.projects, ProjectCap);
    var s := SkillsLines(p.skills);
    var d := EducationLines(p.education);
    AssemblerBudgets(e + j + s + d, e, j, s, d, limit)
  }

  /** The estimate is within the line limit. */
  predicate Fits(p: Profile, limit: int)
  {
    Budgets(p, limit).totalLines <= limit
  }

  /** The inner `lines_for_bullets` loop. */
  method LinesForBullets(bullets: seq<string>, cap: nat) returns (total: int)
    ensures total == LinesFor(bullets, cap)
  {
    var counted := Prefix(bullets, cap);
    total := 0;
    for i := 0 to |counted|
      invariant total == SumLines(counted[..i])
    {
      assert DropLast(counted[..i + 1]) == counted[..i];
      var length := |counted[i]|;
      if length <= 90 {
        total := total + 1;
      } else if length <= 170 {
        total := total + 2;
      } else {
        total := total + 3;
      }
    }
    TakeAll(counted);
  }

  method EstimateBudgets(p: Profile, limit: int) returns (budgets: AssemblerBudgets)
    ensures budgets == Budgets(p, limit)
  {
    var expLines := LinesForBullets(p.experience, ExperienceCap);
    var projLines := LinesForBullets(p.projects, ProjectCap);
    var skillsLines := if p.skills != [] then Max(1, |Join(p.skills, " ")| / SkillChars + 1) else 1;
    var eduLines := Max(1, |p.education|);
    var total := expLines + projLines + skillsLines + eduLines;
    budgets := AssemblerBudgets(total, expLines, projLines, skillsLines, eduLines, limit);
  }

  /**
   * Each counted bullet costs 1 to 3 lines and only the first 8 experience
   * and 6 project bullets count; skills and education take at least one
   * line each, one skills line while the space-joined skills are shorter
   * than 70 characters; the total is the sum and the limit is recorded.
   */
  lemma {:induction false} BudgetsBounds(p: Profile, limit: int)
    ensures var b := Budgets(p, limit);
      var e := |Prefix(p.experience, ExperienceCap)|;
      var j := |Prefix(p.projects, ProjectCap)|;
      && e <= b.experienceLines <= 3 * e <= 24
      && j <= b.projectLines <= 3 * j <= 18
      && b.skillsLines >= 1
      && (|Join(p.skills, " ")| < SkillChars ==> b.skillsLines == 1)
      && b.educationLines == (if p.education == [] then 1 else |p.education|)
      && b.totalLines == b.experienceLines + b.projectLines + b.skillsLines + b.educationLines
      && b.totalLines >= 2
      && b.limit == limit
  {
  }

  /** Bullets no longer than others, one for one, never take more lines. */
  lemma {:induction false} SumLinesShorter(a: seq<string>, b: seq<string>)
    requires |a| == |b|
    requires forall i :: 0 <= i < |a| ==> |a[i]| <= |b[i]|
    ensures SumLines(a) <= SumLines(b)
  {
    if a != [] {
      SumLinesShorter(DropLast(a), DropLast(b));
    }
  }

  /** A list within the cap is counted whole. */
  lemma {:induction false} LinesForWithinCap(bullets: seq<string>, cap: nat)
    requires |bullets| <= cap
    ensures LinesFor(bullets, cap) == SumLines(bullets)
  {
    TakeAll(bullets);
    assert Prefix(bullets, cap) == bullets;
  }

  // ---------------------------------------------------------------- _tighten_text

  /** The first 28 words of the normalised text, single-spaced (cutting only a longer list is the slice `[:28]`). */
  function TightWords(text: string): string
  {
    var tokens := Words(NormalizeText(text));
    Join(Prefix(tokens, MaxTightWords), " ")
  }

  /** `_tighten_text`: normalise, keep at most 28 words, capitalise when it starts with a lower-case letter. */
  function TightenText(text: string): string
  {
    var tightened := TightWords(text);
    if tightened != [] && IsLower(tightened[0]) then Capitalize(tightened) else tightened
  }

  lemma {:induction false} LowerCapitalize(s: string)
    ensures Lower(Capitalize(s)) == Lower(s)
  {
    if s != [] {
      var c := Capitalize(s);
      assert c[1..] == Lower(s[1..]);
      forall i | 0 <= i < |s|
        ensures Lower(c)[i] == Lower(s)[i]
      {
        if i > 0 {
          assert c[i] == c[1..][i - 1];
        }
      }
    }
  }

  /**
   * Up to the case of its first letter, the tightened text is the first 28
   * words of the normalised text joined by single spaces; it has at most 28
   * words, and it is never longer than the original text.
   */
  lemma {:induction false} TightenTextWords(text: string)
    ensures var r := TightenText(text);
      && Lower(r) == Join(Prefix(Words(NormalizeText(text)), MaxTightWords), " ")
      && |Words(r)| == |Prefix(Words(NormalizeText(text)), MaxTightWords)| <= MaxTightWords
      && |r| <= |text|
  {
    TightenTextLower(text);
    TightenWordCount(text);
    TightenShorter(text);
  }

  lemma {:induction false} TightenTextLower(text: string)
    ensures Lower(TightenText(text)) == TightWords(text)
  {
    TightWordsLower(text);
    LowerCapitalize(TightWords(text));
  }

  /** Capitalisation keeps the word count of the kept words. */
  lemma {:induction false} TightenWordCount(text: string)
    ensures |Words(TightenText(text))| == |Prefix(Words(NormalizeText(text)), MaxTightWords)|
  {
    var kept := Prefix(Words(NormalizeText(text)), MaxTightWords);
    var t := TightWords(text);
    PrefixElems(Words(NormalizeText(text)), MaxTightWords);
    WordsOfJoin(kept);
    CapitalizeShape(t);
    WordsSameShape(TightenText(text), t);
  }

  /** The kept words come from normal text, so they hold no upper-case letter. */
  lemma {:induction false} TightWordsLower(text: string)
    ensures Lower(TightWords(text)) == TightWords(text)
  {
    TightWordsNormal(text);
    NormalCharsLower(TightWords(text));
  }

  lemma {:induction false} TightWordsNormal(text: string)
    ensures forall j :: 0 <= j < |TightWords(text)| ==> NormalChar(TightWords(text)[j])
  {
    var n := NormalizeText(text);
    NormalizeIsNormal(text);
    assert forall i :: 0 <= i < |n| ==> NormalChar(n[i]);
    assert NormalChar(' ');
    JoinedPrefixChars(n, MaxTightWords, NormalChar);
  }

  /** Tightening never lengthens the text. */
  lemma {:induction false} TightenShorter(text: string)
    ensures |TightenText(text)| <= |text|
  {
    var n := NormalizeText(text);
    KeptShorter(n);
    NormalizeLength(text);
    assert |TightenText(text)| == |TightWords(text)|;
  }

  lemma {:induction false} KeptShorter(n: string)
    ensures |Join(Prefix(Words(n), MaxTightWords), " ")| <= |n|
  {
    var tokens := Words(n);
    var kept := Prefix(tokens, MaxTightWords);
    JoinPrefix(tokens, |kept|, " ");
    assert tokens[..|kept|] == kept;
    WordsJoinLength(n);
  }

  // ---------------------------------------------------------------- _trim_to_fit

  /** `shorten_bullets(bullets, cap)`: the first `cap` bullets, each tightened. */
  function Shorten(bullets: seq<string>, cap: nat): seq<string>
  {
    RewriteAll(Prefix(bullets, cap), TightenText)
  }

  method ShortenBullets(bullets: seq<string>, cap: nat) returns (tightened: seq<string>)
    ensures tightened == Shorten(bullets, cap)
  {
    tightened := RewriteEach(Prefix(bullets, cap), TightenText);
  }

  /** The loop `for b in bullets: out.append(f(b))`. */
  method RewriteEach(bullets: seq<string>, f: string -> string) returns (out: seq<string>)
    ensures out == RewriteAll(bullets, f)
  {
    out := [];
    for i := 0 to |bullets|
      invariant out == RewriteAll(bullets[..i], f)
    {
      out := out + [f(bullets[i])];
    }
    TakeAll(bullets);
  }

  /** The trim line for one removed entry. */
  function TrimMessage(what: string, removed: string): string
  {
    what + ": '" + Prefix(removed, QuoteWidth) + "...'"
  }

  /** The first step of `_trim_to_fit`, which records no trim line. */
  function Shortened(p: Profile): Profile
  {
    p.(experience := Shorten(p.experience, ExperienceCap), projects := Shorten(p.projects, ProjectCap))
  }

  /** The last project bullet popped, if there is one. */
  function PopProject(p: Profile): (Profile, seq<string>)
  {
    if p.projects != [] then
      (p.(projects := DropLast(p.projects)), [TrimMessage("Dropped project bullet", p.projects[|p.projects| - 1])])
    else (p, [])
  }

  /** The last experience bullet popped, if there is one. */
  function PopExperience(p: Profile): (Profile, seq<string>)
  {
    if p.experience != [] then
      (p.(experience := DropLast(p.experience)), [TrimMessage("Dropped experience bullet", p.experience[|p.experience| - 1])])
    else (p, [])
  }

  /** The last education entry popped, only when there are at least two. */
  function PopEducation(p: Profile): (Profile, seq<string>)
  {
    if |p.education| > 1 then
      (p.(education := DropLast(p.education)), [TrimMessage("Trimmed education entry", p.education[|p.education| - 1])])
    else (p, [])
  }

  /** What `_trim_to_fit` returns: the trimmed profile, its budgets and the trim lines. */
  datatype Fit = Fit(profile: Profile, budgets: AssemblerBudgets, trims: seq<string>)

  /** The drops of `_trim_to_fit` from the shortened profile: a project, an experience bullet, an education entry, until it fits. */
  function Dropped(s0: Profile, limit: int): Fit
  {
    if Fits(s0, limit) then Fit(s0, Budgets(s0, limit), [])
    else
      var (s1, t1) := PopProject(s0);
      if Fits(s1, limit) then Fit(s1, Budgets(s1, limit), t1)
      else
        var (s2, t2) := PopExperience(s1);
        if Fits(s2, limit) then Fit(s2, Budgets(s2, limit), t1 + t2)
        else
          var (s3, t3) := PopEducation(s2);
          Fit(s3, Budgets(s3, limit), t1 + t2 + t3)
  }

  /** `_trim_to_fit`: shorten, then drop until the estimate fits. */
  function Fitted(p: Profile, limit: int): Fit
  {
    Dropped(Shortened(p), limit)
  }

  method TrimToFit(profile: Profile, limit: int) returns (updated: Profile, budgets: AssemblerBudgets, trims: seq<string>)
    ensures Fit(updated, budgets, trims) == Fitted(profile, limit)
  {
    updated := profile;
    var experience := ShortenBullets(updated.experience, ExperienceCap);
    var projects := ShortenBullets(updated.projects, ProjectCap);
    updated := updated.(experience := experience, projects := projects);
    updated, budgets, trims := DropUntilFits(updated, limit);
  }

  /** The part of `_trim_to_fit` after shortening. */
  method DropUntilFits(profile: Profile, limit: int) returns (updated: Profile, budgets: AssemblerBudgets, trims: seq<string>)
    ensures Fit(updated, budgets, trims) == Dropped(profile, limit)
  {
    updated := profile;
    trims := [];
    budgets := EstimateBudgets(updated, limit);
    if budgets.totalLines <= limit {
      return;
    }

    if updated.projects != [] {
      var removed := updated.projects[|updated.projects| - 1];
      updated := updated.(projects := DropLast(updated.projects));
      trims := trims + [TrimMessage("Dropped project bullet", removed)];
      assert trims == [TrimMessage("Dropped project bullet", removed)];
    }
    ghost var s1 := updated;
    ghost var t1 := trims;
    assert (s1, t1) == PopProject(profile);
    budgets := EstimateBudgets(updated, limit);
    if budgets.totalLines <= limit {
      return;
    }

    ghost var t2: seq<string> := [];
    if updated.experience != [] {
      var removed := updated.experience[|updated.experience| - 1];
      updated := updated.(experience := DropLast(updated.experience));
      t2 := [TrimMessage("Dropped experience bullet", removed)];
      trims := trims + [TrimMessage("Dropped experience bullet", removed)];
    }
    ghost var s2 := updated;
    assert (s2, t2) == PopExperience(s1);
    assert trims == t1 + t2;
    budgets := EstimateBudgets(updated, limit);
    if budgets.totalLines <= limit {
      return;
    }

    ghost var t3: seq<string> := [];
    if |updated.education| > 1 {
      var removed := updated.education[|updated.education| - 1];
      updated := updated.(education := DropLast(updated.education));
      t3 := [TrimMessage("Trimmed education entry", removed)];
      trims := trims + [TrimMessage("Trimmed education entry", removed)];
    }
    assert (updated, t3) == PopEducation(s2);
    assert trims == t1 + t2 + t3;
    budgets := EstimateBudgets(updated, limit);
  }

  /** Each pop takes at most the last entry of its own list, with one trim line per entry taken. */
  lemma {:induction false} PopShapes(p: Profile)
    ensures var (q, t) := PopProject(p);
      && q == p.(projects := q.projects) && q.projects <= p.projects
      && |q.projects| == Max(0, |p.projects| - 1) && |t| == |p.projects| - |q.projects|
    ensures var (q, t) := PopExperience(p);
      && q == p.(experience := q.experience) && q.experience <= p.experience
      && |q.experience| == Max(0, |p.experience| - 1) && |t| == |p.experience| - |q.experience|
    ensures var (q, t) := PopEducation(p);
      && q == p.(education := q.education) && q.education <= p.education
      && |q.education| == (if |p.education| > 1 then |p.education| - 1 else |p.education|)
      && |t| == |p.education| - |q.education|
  {
  }

  /**
   * What the drops keep: skills untouched; experience and projects lose
   * at most their last entry, education only its last one and never its
   * only one; one trim line per removed entry, so at most three; budgets
   * that are those of the resulting profile.  They stop as soon as the
   * estimate fits, and a profile that still does not fit has lost every
   * entry the fixed sequence allows.
   */
  lemma {:induction false} DroppedShape(s0: Profile, limit: int)
    ensures var f := Dropped(s0, limit);
      var q := f.profile;
      && f.budgets == Budgets(q, limit)
      && q.skills == s0.skills
      && q.experience <= s0.experience && |s0.experience| <= |q.experience| + 1
      && q.projects <= s0.projects && |s0.projects| <= |q.projects| + 1
      && q.education <= s0.education && |s0.education| <= |q.education| + 1
      && (s0.education != [] ==> q.education != [])
      && |f.trims| == (|s0.projects| - |q.projects|) + (|s0.experience| - |q.experience|) + (|s0.education| - |q.education|)
      && |f.trims| <= 3
      && (Fits(s0, limit) ==> q == s0 && f.trims == [])
      && (!Fits(q, limit) ==>
            && |q.projects| == Max(0, |s0.projects| - 1)
            && |q.experience| == Max(0, |s0.experience| - 1)
            && |q.education| == (if |s0.education| > 1 then |s0.education| - 1 else |s0.education|))
  {
    var (s1, t1) := PopProject(s0);
    var (s2, t2) := PopExperience(s1);
    var (s3, t3) := PopEducation(s2);
    PopShapes(s0);
    PopShapes(s1);
    PopShapes(s2);
    var f := Dropped(s0, limit);
    if Fits(s0, limit) {
      assert f == Fit(s0, Budgets(s0, limit), []);
    } else if Fits(s1, limit) {
      assert f == Fit(s1, Budgets(s1, limit), t1);
    } else if Fits(s2, limit) {
      assert f == Fit(s2, Budgets(s2, limit), t1 + t2);
    } else {
      assert f == Fit(s3, Budgets(s3, limit), t1 + t2 + t3);
    }
  }

  /** Shortening keeps at most 8 experience and 6 project bullets, each tightened, and touches nothing else. */
  lemma {:induction false} ShortenedShape(p: Profile)
    ensures var s0 := Shortened(p);
      && s0 == p.(experience := s0.experience, projects := s0.projects)
      && |s0.experience| == |Prefix(p.experience, ExperienceCap)| <= ExperienceCap
      && |s0.projects| == |Prefix(p.projects, ProjectCap)| <= ProjectCap
      && (forall i :: 0 <= i < |s0.experience| ==> s0.experience[i] == TightenText(p.experience[i]))
      && (forall i :: 0 <= i < |s0.projects| ==> s0.projects[i] == TightenText(p.projects[i]))
  {
  }

  /**
   * `_trim_to_fit` as a whole: the laid-out bullets are tightened
   * originals, at most 8 and 6 of them, skills are untouched, at most three
   * trim lines, and the budgets are those of the trimmed profile.
   */
  lemma {:induction false} FittedShape(p: Profile, limit: int)
    ensures var f := Fitted(p, limit);
      var q := f.profile;
      && f.budgets == Budgets(q, limit)
      && q.skills == p.skills
      && q.experience <= Shortened(p).experience && |q.experience| <= ExperienceCap
      && q.projects <= Shortened(p).projects && |q.projects| <= ProjectCap
      && q.education <= p.education && (p.education != [] ==> q.education != [])
      && |f.trims| <= 3
      && (Fits(Shortened(p), limit) ==> f.trims == [])
  {
    ShortenedShape(p);
    DroppedShape(Shortened(p), limit);
  }

  /** Popping the last bullet of a list within the cap saves that bullet's lines. */
  lemma {:induction false} PopSaves(bullets: seq<string>, cap: nat)
    requires bullets != [] && |bullets| <= cap
    ensures LinesFor(DropLast(bullets), cap) == LinesFor(bullets, cap) - BulletLines(bullets[|bullets| - 1])
  {
    LinesForWithinCap(bullets, cap);
    LinesForWithinCap(DropLast(bullets), cap);
  }

  /** Shortening never makes a section's estimate larger. */
  lemma {:induction false} ShortenSaves(bullets: seq<string>, cap: nat)
    ensures LinesFor(Shorten(bullets, cap), cap) <= LinesFor(bullets, cap)
  {
    var kept := Prefix(bullets, cap);
    var short := Shorten(bullets, cap);
    assert |short| == |kept| <= cap;
    forall i | 0 <= i < |short|
      ensures |short[i]| <= |kept[i]|
    {
      assert short[i] == TightenText(kept[i]);
      TightenShorter(kept[i]);
    }
    SumLinesShorter(short, kept);
    LinesForWithinCap(short, cap);
  }

  lemma {:induction false} PopProjectShrinks(s: Profile, limit: int)
    requires |s.projects| <= ProjectCap
    ensures Budgets(PopProject(s).0, limit).totalLines <= Budgets(s, limit).totalLines
  {
    PopShapes(s);
    if s.projects != [] {
      PopSaves(s.projects, ProjectCap);
    }
  }

  lemma {:induction false} PopExperienceShrinks(s: Profile, limit: int)
    requires |s.experience| <= ExperienceCap
    ensures Budgets(PopExperience(s).0, limit).totalLines <= Budgets(s, limit).totalLines
  {
    PopShapes(s);
    if s.experience != [] {
      PopSaves(s.experience, ExperienceCap);
    }
  }

  lemma {:induction false} PopEducationShrinks(s: Profile, limit: int)
    ensures Budgets(PopEducation(s).0, limit).totalLines <= Budgets(s, limit).totalLines
  {
    PopShapes(s);
  }

  /** The drops lower the estimate or leave it alone, for lists within the caps. */
  lemma {:induction false} DroppedShrinks(s0: Profile, limit: int)
    requires |s0.experience| <= ExperienceCap && |s0.projects| <= ProjectCap
    ensures Budgets(Dropped(s0, limit).profile, limit).totalLines <= Budgets(s0, limit).totalLines
  {
    var s1 := PopProject(s0).0;
    var s2 := PopExperience(s1).0;
    var s3 := PopEducation(s2).0;
    PopShapes(s0);
    PopProjectShrinks(s0, limit);
    PopExperienceShrinks(s1, limit);
    PopEducationShrinks(s2, limit);
    var q := Dropped(s0, limit).profile;
    assert q == s0 || q == s1 || q == s2 || q == s3;
  }

  /** Trimming never makes the estimate larger than that of the profile it started from. */
  lemma {:induction false} FittedShrinks(p: Profile, limit: int)
    ensures Budgets(Fitted(p, limit).profile, limit).totalLines <= Budgets(p, limit).totalLines
  {
    var s0 := Shortened(p);
    ShortenedShape(p);
    ShortenSaves(p.experience, ExperienceCap);
    ShortenSaves(p.projects, ProjectCap);
    assert Budgets(s0, limit).totalLines <= Budgets(p, limit).totalLines;
    DroppedShrinks(s0, limit);
  }

  // ---------------------------------------------------------------- _chunk_skills

  /** The packing loop's state: finished lines, the line being filled, and whether it broke off. */
  datatype Packing = Packing(lines: seq<string>, current: string, stopped: bool)

  /** The next skill appended to the current line, or the skill alone on an empty one. */
  function Candidate(current: string, skill: string): string
  {
    if current == "" then skill else current + ", " + skill
  }

  /** One pass of the loop body: extend the line if the candidate fits, else close it and start anew. */
  function PackStep(st: Packing, skill: string, maxChars: int, maxLines: int): Packing
  {
    var c := Candidate(st.current, skill);
    var next := if |c| <= maxChars then st.(current := c) else Packing(st.lines + [st.current], skill, false);
    next.(stopped := |next.lines| >= maxLines)
  }

  /** The loop over the skills, breaking once `max_lines` lines are closed. */
  function Pack(skills: seq<string>, maxChars: int, maxLines: int): Packing
  {
    if skills == [] then Packing([], "", false)
    else
      var st := Pack(DropLast(skills), maxChars, maxLines);
      if st.stopped then st else PackStep(st, skills[|skills| - 1], maxChars, maxLines)
  }

  /** `_chunk_skills`: the closed lines plus the open one if there is room, and `[""]` for none. */
  function Chunks(skills: seq<string>, maxChars: int, maxLines: int): seq<string>
  {
    var st := Pack(skills, maxChars, maxLines);
    var lines := if st.current != "" && |st.lines| < maxLines then st.lines + [st.current] else st.lines;
    if lines == [] then [""] else lines
  }

  /** Once the loop has broken off, later skills change nothing. */
  lemma {:induction false} PackStopped(skills: seq<string>, i: nat, maxChars: int, maxLines: int)
    requires i <= |skills|
    requires Pack(skills[..i], maxChars, maxLines).stopped
    ensures Pack(skills, maxChars, maxLines) == Pack(skills[..i], maxChars, maxLines)
    decreases |skills|
  {
    if i < |skills| {
      var init := DropLast(skills);
      assert init[..i] == skills[..i];
      PackStopped(init, i, maxChars, maxLines);
    } else {
      assert skills[..i] == skills;
    }
  }

  method ChunkSkills(skills: seq<string>, maxChars: int, maxLines: int) returns (lines: seq<string>)
    ensures lines == Chunks(skills, maxChars, maxLines)
  {
    lines := [];
    var current := "";
    var i := 0;
    while i < |skills|
      invariant 0 <= i <= |skills|
      invariant Pack(skills[..i], maxChars, maxLines) == Packing(lines, current, false)
    {
      assert DropLast(skills[..i + 1]) == skills[..i];
      var skill := skills[i];
      var candidate := if current == "" then skill else current + ", " + skill;
      if |candidate| <= maxChars {
        current := candidate;
      } else {
        lines := lines + [current];
        current := skill;
      }
      i := i + 1;
      if |lines| >= maxLines {
        PackStopped(skills, i, maxChars, maxLines);
        break;
      }
    }
    TakeAll(skills);
    if current != "" && |lines| < maxLines {
      lines := lines + [current];
    }
    if lines == [] {
      lines := [""];
    }
  }

  /** A line is short enough or is one whole skill. */
  predicate LineFits(line: string, skills: seq<string>, maxChars: int)
  {
    |line| <= maxChars || line in skills
  }

  /** The loop breaks off exactly when `max_lines` lines are closed, and never closes more than that. */
  lemma {:induction false} PackCount(skills: seq<string>, maxChars: int, maxLines: int)
    ensures var st := Pack(skills, maxChars, maxLines);
      && (st.stopped ==> |st.lines| >= maxLines)
      && (!st.stopped && skills != [] ==> |st.lines| < maxLines)
      && (maxLines >= 1 ==> |st.lines| <= maxLines)
      && (skills == [] ==> st == Packing([], "", false))
  {
    if skills != [] {
      PackCount(DropLast(skills), maxChars, maxLines);
    }
  }

  /** Every closed line and the open one are short enough or a single skill. */
  lemma {:induction false} PackLines(skills: seq<string>, maxChars: int, maxLines: int)
    requires maxChars >= 0
    ensures var st := Pack(skills, maxChars, maxLines);
      && (forall i :: 0 <= i < |st.lines| ==> LineFits(st.lines[i], skills, maxChars))
      && LineFits(st.current, skills, maxChars)
  {
    if skills != [] {
      var init := DropLast(skills);
      PackLines(init, maxChars, maxLines);
      assert forall s :: s in init ==> s in skills;
    }
  }

  /**
   * Closed lines and an open line account for the skills `done`: their
   * non-empty lines joined by ", " spell the skills joined by ", ", and the
   * open line is empty (with no closed non-empty line) exactly when none
   * was seen.
   */
  predicate Spells(lines: seq<string>, current: string, done: seq<string>)
  {
    && Join(NonEmpty(lines + [current]), ", ") == Join(done, ", ")
    && (current == "" <==> done == [])
    && (current == "" ==> NonEmpty(lines) == [])
  }

  /** The packing state accounts for the skills `done`. */
  predicate Tracks(st: Packing, done: seq<string>)
  {
    Spells(st.lines, st.current, done)
  }

  /** A skill that fits extends the open line and what the lines spell. */
  lemma {:induction false} ExtendSpells(lines: seq<string>, current: string, skill: string, done: seq<string>)
    requires skill != "" && Spells(lines, current, done)
    ensures Spells(lines, Candidate(current, skill), done + [skill])
  {
    var c := Candidate(current, skill);
    NonEmptySnoc(lines, current);
    NonEmptySnoc(lines, c);
    if current == "" {
      assert done + [skill] == [skill];
      assert NonEmpty(lines + [c]) == [skill];
    } else {
      JoinSnoc(done, skill, ", ");
      if NonEmpty(lines) == [] {
        assert Join([c], ", ") == c;
        assert Join([current], ", ") == current;
      } else {
        JoinSnoc(NonEmpty(lines), c, ", ");
        JoinSnoc(NonEmpty(lines), current, ", ");
      }
    }
  }

  /** A skill that does not fit closes the open line and starts a new one. */
  lemma {:induction false} BreakSpells(lines: seq<string>, current: string, skill: string, done: seq<string>)
    requires skill != "" && Spells(lines, current, done)
    ensures Spells(lines + [current], skill, done + [skill])
  {
    NonEmptySnoc(lines, current);
    NonEmptySnoc(lines + [current], skill);
    if current == "" {
      assert done + [skill] == [skill];
      assert NonEmpty(lines + [current]) == [];
      assert NonEmpty(lines + [current] + [skill]) == [skill];
    } else {
      var olds := NonEmpty(lines) + [current];
      JoinSnoc(done, skill, ", ");
      JoinSnoc(olds, skill, ", ");
    }
  }

  /** One pass of the loop extends what the lines spell by ", " and the skill. */
  lemma {:induction false} PackStepOrder(st: Packing, skill: string, done: seq<string>, maxChars: int, maxLines: int)
    requires skill != "" && Tracks(st, done)
    ensures Tracks(PackStep(st, skill, maxChars, maxLines), done + [skill])
  {
    var c := Candidate(st.current, skill);
    var next := PackStep(st, skill, maxChars, maxLines);
    if |c| <= maxChars {
      assert next.lines == st.lines && next.current == c;
      ExtendSpells(st.lines, st.current, skill, done);
    } else {
      assert next.lines == st.lines + [st.current] && next.current == skill;
      BreakSpells(st.lines, st.current, skill, done);
    }
  }

  /**
   * Skills without empty entries keep their order: the open and closed
   * non-empty lines, joined by ", ", spell out the skills seen so far
   * (`done`, a prefix of the skills) joined by ", ", and all of them
   * unless the loop broke off.  The open line is empty only before the
   * first skill.
   */
  lemma {:induction false} PackOrder(skills: seq<string>, maxChars: int, maxLines: int) returns (done: seq<string>)
    requires forall i :: 0 <= i < |skills| ==> skills[i] != ""
    ensures var st := Pack(skills, maxChars, maxLines);
      && done <= skills
      && Tracks(st, done)
      && (!st.stopped ==> done == skills)
  {
    if skills == [] {
      done := [];
      NonEmptySnoc([], "");
    } else {
      var init := DropLast(skills);
      assert forall i :: 0 <= i < |init| ==> init[i] == skills[i];
      var st := Pack(init, maxChars, maxLines);
      done := PackOrder(init, maxChars, maxLines);
      assert init <= skills;
      if st.stopped {
        assert Pack(skills, maxChars, maxLines) == st;
      } else {
        var skill := skills[|skills| - 1];
        var next := PackStep(st, skill, maxChars, maxLines);
        assert Pack(skills, maxChars, maxLines) == next;
        PackStepOrder(st, skill, init, maxChars, maxLines);
        assert init + [skill] == skills;
        done := skills;
      }
    }
  }

  /**
   * `_chunk_skills` gives at least one line and, for `max_lines >= 1`, at
   * most `max_lines`; `[""]` when there are no skills.  A line longer than
   * `max_chars` is a single skill.
   */
  lemma {:induction false} ChunksShape(skills: seq<string>, maxChars: int, maxLines: int)
    requires maxChars >= 0
    ensures var r := Chunks(skills, maxChars, maxLines);
      && (skills == [] ==> r == [""])
      && 1 <= |r|
      && (maxLines >= 1 ==> |r| <= maxLines)
      && (forall i :: 0 <= i < |r| ==> LineFits(r[i], skills, maxChars))
  {
    PackCount(skills, maxChars, maxLines);
    PackLines(skills, maxChars, maxLines);
  }

  /**
   * For skills without empty entries, the non-empty lines joined by ", "
   * are a prefix of all the skills joined by ", ", and all of them when
   * fewer than `max_lines` lines came out.
   */
  lemma {:induction false} ChunksOrder(skills: seq<string>, maxChars: int, maxLines: int)
    requires forall i :: 0 <= i < |skills| ==> skills[i] != ""
    ensures var r := Chunks(skills, maxChars, maxLines);
      && Join(NonEmpty(r), ", ") <= Join(skills, ", ")
      && (|r| < maxLines ==> Join(NonEmpty(r), ", ") == Join(skills, ", "))
  {
    var st := Pack(skills, maxChars, maxLines);
    var done := PackOrder(skills, maxChars, maxLines);
    PackCount(skills, maxChars, maxLines);
    JoinPrefix(skills, |done|, ", ");
    assert skills[..|done|] == done;
    var r := Chunks(skills, maxChars, maxLines);
    NonEmptySnoc(st.lines, st.current);
    NonEmptySnoc([], "");
    if st.current != "" && |st.lines| < maxLines {
      assert r == st.lines + [st.current];
    } else if st.current == "" {
      assert NonEmpty(r) == [];
    } else {
      // the open line is left out: what is left spells a prefix of what was there
      assert |st.lines| >= maxLines;
      if NonEmpty(st.lines) != [] {
        JoinSnoc(NonEmpty(st.lines), st.current, ", ");
        assert r == st.lines;
      } else {
        assert NonEmpty(r) == [];
      }
    }
  }

  /** An over-long first skill leaves an empty line before it when there is room for two lines. */
  lemma {:induction false} ChunksLongFirstSkill(skill: string, maxChars: int)
    requires |skill| > maxChars >= 0
    ensures Chunks([skill], maxChars, 2) == ["", skill]
  {
    assert DropLast([skill]) == [];
    assert Pack([], maxChars, 2) == Packing([], "", false);
    assert Pack([skill], maxChars, 2) == Packing([""], skill, false);
  }

  // ---------------------------------------------------------------- _build_latex_source

  /** One body line: a fixed opening, the escaped text, a fixed closing. */
  function Line(open: string, text: string, close: string): string
  {
    open + Escape(text) + close
  }

  /** `  \resumeItem{<escaped bullet>}`. */
  function ItemLine(bullet: string): string
  {
    Line("  \\resumeItem{", bullet, "}")
  }

  /** `\resumeSubheading{<escaped text>}{}`. */
  function SubheadingLine(text: string): string
  {
    Line("\\resumeSubheading{", text, "}{}")
  }

  /** The Experience block: its marker and the first 8 bullets as items. */
  function ExperienceBlock(p: Profile): seq<string>
  {
    ["\\section{Experience}", "\\begin{itemize}"] + RewriteAll(Prefix(p.experience, ExperienceCap), ItemLine) + ["\\end{itemize}"]
  }

  /** The Projects block: its marker and the first 6 bullets as items. */
  function ProjectsBlock(p: Profile): seq<string>
  {
    ["\\section{Projects}", "\\begin{itemize}"] + RewriteAll(Prefix(p.projects, ProjectCap), ItemLine) + ["\\end{itemize}"]
  }

  /** The Skills block: its marker and the packed skill lines as subheadings. */
  function SkillsBlock(p: Profile): seq<string>
  {
    ["\\section{Skills}"] + RewriteAll(Chunks(p.skills, SkillChars, SkillLineCap), SubheadingLine)
  }

  /** The Education block: its marker and the first 3 entries as subheadings. */
  function EducationBlock(p: Profile): seq<string>
  {
    ["\\section{Education}"] + RewriteAll(Prefix(p.education, EducationCap), SubheadingLine)
  }

  /** The body's lines: a comment, then the four fixed sections in order. */
  function Parts(p: Profile): seq<string>
  {
    ["% Auto-generated resume body"] + ExperienceBlock(p) + ProjectsBlock(p) + SkillsBlock(p) + EducationBlock(p)
  }

  /** `_build_latex_source`: the lines joined by newlines. */
  function Latex(p: Profile): string
  {
    Join(Parts(p), "\n")
  }

  /** The loop `for e in entries: parts.append(open + escape_latex(e) + close)`. */
  method AppendLines(parts: seq<string>, entries: seq<string>, open: string, close: string) returns (r: seq<string>)
    ensures |r| == |parts| + |entries|
    ensures forall i :: 0 <= i < |parts| ==> r[i] == parts[i]
    ensures forall i :: 0 <= i < |entries| ==> r[|parts| + i] == Line(open, entries[i], close)
  {
    r := parts;
    for i := 0 to |entries|
      invariant |r| == |parts| + i
      invariant forall j :: 0 <= j < |parts| ==> r[j] == parts[j]
      invariant forall j :: 0 <= j < i ==> r[|parts| + j] == Line(open, entries[j], close)
    {
      var escaped := EscapeLatex(entries[i]);
      r := r + [open + escaped + close];
    }
  }

  /** Lines appended one per entry, each `f` of its entry, extend the list by the rewritten entries. */
  lemma {:induction false} AppendedRewrite(parts: seq<string>, entries: seq<string>, f: string -> string, r: seq<string>)
    requires |r| == |parts| + |entries|
    requires forall i :: 0 <= i < |parts| ==> r[i] == parts[i]
    requires forall i :: 0 <= i < |entries| ==> r[|parts| + i] == f(entries[i])
    ensures r == parts + RewriteAll(entries, f)
  {
    var rw := RewriteAll(entries, f);
    forall i | 0 <= i < |r|
      ensures r[i] == (parts + rw)[i]
    {
      if i >= |parts| {
        assert r[|parts| + (i - |parts|)] == f(entries[i - |parts|]);
      }
    }
  }

  /** One bulleted section: its marker, `\begin{itemize}`, an escaped item per entry, `\end{itemize}`. */
  method AppendItemsBlock(parts: seq<string>, marker: string, entries: seq<string>) returns (r: seq<string>)
    ensures r == parts + ([marker, "\\begin{itemize}"] + RewriteAll(entries, ItemLine) + ["\\end{itemize}"])
  {
    var head := parts + [marker, "\\begin{itemize}"];
    var body := AppendLines(head, entries, "  \\resumeItem{", "}");
    AppendedRewrite(head, entries, ItemLine, body);
    r := body + ["\\end{itemize}"];
    var opening, items := [marker, "\\begin{itemize}"], RewriteAll(entries, ItemLine);
    ConcatAssoc(parts, opening, items);
    ConcatAssoc(parts, opening + items, ["\\end{itemize}"]);
  }

  /** One section of subheadings: its marker, then an escaped subheading per entry. */
  method AppendHeadedBlock(parts: seq<string>, marker: string, entries: seq<string>) returns (r: seq<string>)
    ensures r == parts + ([marker] + RewriteAll(entries, SubheadingLine))
  {
    var head := parts + [marker];
    r := AppendLines(head, entries, "\\resumeSubheading{", "}{}");
    AppendedRewrite(head, entries, SubheadingLine, r);
    ConcatAssoc(parts, [marker], RewriteAll(entries, SubheadingLine));
  }

  method BuildLatexSource(p: Profile) returns (latex: string)
    ensures latex == Latex(p)
  {
    var parts := ["% Auto-generated resume body"];
    parts := AppendItemsBlock(parts, "\\section{Experience}", Prefix(p.experience, ExperienceCap));
    parts := AppendItemsBlock(parts, "\\section{Projects}", Prefix(p.projects, ProjectCap));
    var skillLines := ChunkSkills(p.skills, SkillChars, SkillLineCap);
    parts := AppendHeadedBlock(parts, "\\section{Skills}", skillLines);
    parts := AppendHeadedBlock(parts, "\\section{Education}", Prefix(p.education, EducationCap));
    latex := Join(parts, "\n");
  }

  /** A bulleted block: its marker, `\begin{itemize}`, each entry as rewritten by `f`, `\end{itemize}`. */
  lemma {:induction false} ItemsBlockShape(marker: string, entries: seq<string>, f: string -> string, b: seq<string>)
    requires b == [marker, "\\begin{itemize}"] + RewriteAll(entries, f) + ["\\end{itemize}"]
    ensures |b| == |entries| + 3 && b[0] == marker
    ensures forall i :: 0 <= i < |entries| ==> b[2 + i] == f(entries[i])
  {
    var items := RewriteAll(entries, f);
    forall i | 0 <= i < |entries|
      ensures b[2 + i] == f(entries[i])
    {
      assert b[2 + i] == items[i];
    }
  }

  /** A block of subheadings: its marker, then each entry as rewritten by `f`. */
  lemma {:induction false} HeadedBlockShape(marker: string, entries: seq<string>, f: string -> string, b: seq<string>)
    requires b == [marker] + RewriteAll(entries, f)
    ensures |b| == |entries| + 1 && b[0] == marker
    ensures forall i :: 0 <= i < |entries| ==> b[1 + i] == f(entries[i])
  {
    var lines := RewriteAll(entries, f);
    forall i | 0 <= i < |entries|
      ensures b[1 + i] == f(entries[i])
    {
      assert b[1 + i] == lines[i];
    }
  }

  /** Where each block starts among the body's lines. */
  const ExperienceAt := 1

  function ProjectsAt(p: Profile): nat
  {
    ExperienceAt + |Prefix(p.experience, ExperienceCap)| + 3
  }

  function SkillsAt(p: Profile): nat
  {
    ProjectsAt(p) + |Prefix(p.projects, ProjectCap)| + 3
  }

  function EducationAt(p: Profile): nat
  {
    SkillsAt(p) + |Chunks(p.skills, SkillChars, SkillLineCap)| + 1
  }

  lemma {:induction false} PrefixOfAppend(a: seq<string>, b: seq<string>, c: seq<string>)
    requires a <= b
    ensures a <= b + c
  {
    assert forall i :: 0 <= i < |a| ==> (b + c)[i] == b[i];
  }

  /** A block placed at `at` in `parts` reads there as it reads alone. */
  lemma {:induction false} PlacedAt<T>(parts: seq<T>, pre: seq<T>, block: seq<T>, at: nat)
    requires pre + block <= parts && at == |pre|
    ensures at + |block| <= |parts|
    ensures forall j :: 0 <= j < |block| ==> parts[at + j] == block[j]
  {
    forall j | 0 <= j < |block|
      ensures parts[at + j] == block[j]
    {
      assert (pre + block)[at + j] == block[j];
    }
  }

  /** A bulleted block placed at `at`: its marker there, its entries' items from `at + 2` on. */
  lemma {:induction false} ItemsAt(parts: seq<string>, pre: seq<string>, block: seq<string>, marker: string,
                                   entries: seq<string>, src: seq<string>, f: string -> string, at: nat)
    requires pre + block <= parts && at == |pre| && entries <= src
    requires block == [marker, "\\begin{itemize}"] + RewriteAll(entries, f) + ["\\end{itemize}"]
    ensures at + |entries| + 3 <= |parts| && parts[at] == marker
    ensures forall i :: 0 <= i < |entries| ==> parts[at + 2 + i] == f(src[i])
  {
    ItemsBlockShape(marker, entries, f, block);
    PlacedAt(parts, pre, block, at);
    assert parts[at + 0] == block[0];
    forall i | 0 <= i < |entries|
      ensures parts[at + 2 + i] == f(src[i])
    {
      assert parts[at + (2 + i)] == block[2 + i];
      assert entries[i] == src[i];
    }
  }

  /** A block of subheadings placed at `at`: its marker there, its entries' lines from `at + 1` on. */
  lemma {:induction false} HeadedAt(parts: seq<string>, pre: seq<string>, block: seq<string>, marker: string,
                                    entries: seq<string>, src: seq<string>, f: string -> string, at: nat)
    requires pre + block <= parts && at == |pre| && entries <= src
    requires block == [marker] + RewriteAll(entries, f)
    ensures at + |entries| + 1 <= |parts| && parts[at] == marker
    ensures forall i :: 0 <= i < |entries| ==> parts[at + 1 + i] == f(src[i])
  {
    HeadedBlockShape(marker, entries, f, block);
    PlacedAt(parts, pre, block, at);
    assert parts[at + 0] == block[0];
    forall i | 0 <= i < |entries|
      ensures parts[at + 1 + i] == f(src[i])
    {
      assert parts[at + (1 + i)] == block[1 + i];
      assert entries[i] == src[i];
    }
  }

  /** The Experience marker comes right after the comment, then its items. */
  lemma {:induction false} ExperienceLayout(p: Profile)
    ensures var parts := Parts(p);
      var e := |Prefix(p.experience, ExperienceCap)|;
      && e <= ExperienceCap && ProjectsAt(p) <= |parts|
      && parts[ExperienceAt] == "\\section{Experience}"
      && (forall i :: 0 <= i < e ==> parts[ExperienceAt + 2 + i] == ItemLine(p.experience[i]))
  {
    var h, xb := ["% Auto-generated resume body"], ExperienceBlock(p);
    var parts := Parts(p);
    PrefixOfAppend(h + xb, h + xb, ProjectsBlock(p));
    PrefixOfAppend(h + xb, h + xb + ProjectsBlock(p), SkillsBlock(p));
    PrefixOfAppend(h + xb, h + xb + ProjectsBlock(p) + SkillsBlock(p), EducationBlock(p));
    ItemsAt(parts, h, xb, "\\section{Experience}", Prefix(p.experience, ExperienceCap), p.experience, ItemLine, ExperienceAt);
  }

  /** The Projects marker follows the Experience block, then its items. */
  lemma {:induction false} ProjectsLayout(p: Profile)
    ensures var parts := Parts(p);
      var j := |Prefix(p.projects, ProjectCap)|;
      && j <= ProjectCap && SkillsAt(p) <= |parts|
      && parts[ProjectsAt(p)] == "\\section{Projects}"
      && (forall i :: 0 <= i < j ==> parts[ProjectsAt(p) + 2 + i] == ItemLine(p.projects[i]))
  {
    var pre, pb := ["% Auto-generated resume body"] + ExperienceBlock(p), ProjectsBlock(p);
    var parts := Parts(p);
    ItemsBlockShape("\\section{Experience}", Prefix(p.experience, ExperienceCap), ItemLine, ExperienceBlock(p));
    PrefixOfAppend(pre + pb, pre + pb, SkillsBlock(p));
    PrefixOfAppend(pre + pb, pre + pb + SkillsBlock(p), EducationBlock(p));
    ItemsAt(parts, pre, pb, "\\section{Projects}", Prefix(p.projects, ProjectCap), p.projects, ItemLine, ProjectsAt(p));
  }

  /** The Skills marker follows the Projects block, then one or two packed lines. */
  lemma {:induction false} SkillsLayout(p: Profile)
    ensures var parts := Parts(p);
      var chunks := Chunks(p.skills, SkillChars, SkillLineCap);
      && 1 <= |chunks| <= SkillLineCap && EducationAt(p) <= |parts|
      && parts[SkillsAt(p)] == "\\section{Skills}"
      && (forall i :: 0 <= i < |chunks| ==> parts[SkillsAt(p) + 1 + i] == SubheadingLine(chunks[i]))
  {
    var pre, sb := ["% Auto-generated resume body"] + ExperienceBlock(p) + ProjectsBlock(p), SkillsBlock(p);
    var chunks := Chunks(p.skills, SkillChars, SkillLineCap);
    var parts := Parts(p);
    ChunksShape(p.skills, SkillChars, SkillLineCap);
    ItemsBlockShape("\\section{Experience}", Prefix(p.experience, ExperienceCap), ItemLine, ExperienceBlock(p));
    ItemsBlockShape("\\section{Projects}", Prefix(p.projects, ProjectCap), ItemLine, ProjectsBlock(p));
    PrefixOfAppend(pre + sb, pre + sb, EducationBlock(p));
    HeadedAt(parts, pre, sb, "\\section{Skills}", chunks, chunks, SubheadingLine, SkillsAt(p));
  }

  /** The Education marker follows the Skills block; its entries end the body. */
  lemma {:induction false} EducationLayout(p: Profile)
    ensures var parts := Parts(p);
      var d := |Prefix(p.education, EducationCap)|;
      && d <= EducationCap && |parts| == EducationAt(p) + d + 1
      && parts[EducationAt(p)] == "\\section{Education}"
      && (forall i :: 0 <= i < d ==> parts[EducationAt(p) + 1 + i] == SubheadingLine(p.education[i]))
  {
    var pre := ["% Auto-generated resume body"] + ExperienceBlock(p) + ProjectsBlock(p) + SkillsBlock(p);
    var eb := EducationBlock(p);
    var entries := Prefix(p.education, EducationCap);
    var parts := Parts(p);
    ItemsBlockShape("\\section{Experience}", Prefix(p.experience, ExperienceCap), ItemLine, ExperienceBlock(p));
    ItemsBlockShape("\\section{Projects}", Prefix(p.projects, ProjectCap), ItemLine, ProjectsBlock(p));
    HeadedBlockShape("\\section{Skills}", Chunks(p.skills, SkillChars, SkillLineCap), SubheadingLine, SkillsBlock(p));
    HeadedBlockShape("\\section{Education}", entries, SubheadingLine, eb);
    assert |parts| == |pre| + |eb|;
    HeadedAt(parts, pre, eb, "\\section{Education}", entries, p.education, SubheadingLine, EducationAt(p));
  }

  /** Every item carries its entry escaped: safe for LaTeX and decoding back to the entry. */
  lemma {:induction false} ItemLineEscaped(bullet: string)
    ensures var payload := Escape(bullet);
      && ItemLine(bullet) == "  \\resumeItem{" + payload + "}"
      && SafeForLatex(payload) && Unescape(payload) == bullet
  {
    EscapeSafe(bullet);
    UnescapeEscape(bullet);
  }

  // ---------------------------------------------------------------- assemble

  /** `assemble`: estimate, trim only when over the limit, lay out. */
  function Assembled(p: Profile, limit: int): AssemblerResult
  {
    var budgets := Budgets(p, limit);
    if budgets.totalLines > limit then
      var f := Fitted(p, limit);
      AssemblerResult(Latex(f.profile), f.budgets, f.trims)
    else AssemblerResult(Latex(p), budgets, [])
  }

  method Assemble(profile: Profile, limit: int) returns (result: AssemblerResult)
    ensures result == Assembled(profile, limit)
  {
    var working := profile;
    var trims: seq<string> := [];
    var budgets := EstimateBudgets(working, limit);
    if budgets.totalLines > limit {
      var trimChanges;
      working, budgets, trimChanges := TrimToFit(working, limit);
      trims := trims + trimChanges;
    }
    var latex := BuildLatexSource(working);
    result := AssemblerResult(latex, budgets, trims);
  }

  /**
   * A profile within the limit is laid out unchanged with no trims.  In
   * every case the budgets are those of the profile actually laid out,
   * which keeps the skills, the estimate never grows, and at most three
   * trim lines are recorded.
   */
  lemma {:induction false} AssembledShape(p: Profile, limit: int)
    ensures var r := Assembled(p, limit);
      && (Fits(p, limit) ==> r == AssemblerResult(Latex(p), Budgets(p, limit), []))
      && (exists q: Profile :: q.skills == p.skills && r.latexSource == Latex(q) && r.sectionBudgets == Budgets(q, limit))
      && r.sectionBudgets.totalLines <= Budgets(p, limit).totalLines
      && r.sectionBudgets.limit == limit
      && |r.trimsApplied| <= 3
  {
    if !Fits(p, limit) {
      FittedShape(p, limit);
      FittedShrinks(p, limit);
      var q := Fitted(p, limit).profile;
      assert q.skills == p.skills && Assembled(p, limit).latexSource == Latex(q);
    } else {
      assert Assembled(p, limit).latexSource == Latex(p);
    }
  }
}
