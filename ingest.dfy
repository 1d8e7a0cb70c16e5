/**
 * Résumé ingestion (backend/app/services/ingest.py): text clean-up, the
 * line-based fallback section splitter, chunking with a recency score, and
 * the conversion of the split sections into a profile. Reading PDFs, the
 * LLM-based splitter, embedding and storage are not part of this model; the
 * current year is a parameter.
 */
module Ingest {
  import opened Wrappers
  import opened Strings
  import opened Text
  import Schemas

  // ---------------------------------------------------------------- _normalize_text

  /** Step `text.replace("•", "-")`. */
  function DashBullets(s: string): (r: string)
  {
    seq(|s|, i requires 0 <= i < |s| => if s[i] == '•' then '-' else s[i])
  }

  /**
   * `_normalize_text`: bullets become dashes, every whitespace run becomes
   * one space, and the ends are stripped.
   */
  function NormalizeResumeText(text: string): string
  {
    Strip(CollapseRuns(DashBullets(text)))
  }

  /** The shape of cleaned text: one line, plain spaces only, no space at either end or twice in a row, no bullet. */
  predicate CleanText(r: string) {
    && (forall i :: 0 <= i < |r| ==> r[i] != '•' && (IsSpace(r[i]) ==> r[i] == ' '))
    && (forall i :: 0 <= i < |r| - 1 ==> !(r[i] == ' ' && r[i + 1] == ' '))
    && (r == [] || (r[0] != ' ' && r[|r| - 1] != ' '))
  }

  /** Collapsing whitespace adds no character that is not a space. */
  lemma {:induction false} CollapseRunsAvoids(t: string, c: char)
    requires !IsSpace(c)
    requires forall i :: 0 <= i < |t| ==> t[i] != c
    ensures forall i :: 0 <= i < |CollapseRuns(t)| ==> CollapseRuns(t)[i] != c
    decreases |t|
  {
    if t == [] {
    } else if IsSpace(t[0]) {
      var u := TrimStart(t);
      assert forall i :: 0 <= i < |u| ==> u[i] == t[|t| - |u| + i];
      CollapseRunsAvoids(u, c);
      var m := CollapseRuns(u);
      assert CollapseRuns(t) == " " + m;
      forall i | 0 <= i < |" " + m| ensures (" " + m)[i] != c {
        if i > 0 {
          assert (" " + m)[i] == m[i - 1];
        }
      }
    } else {
      var u := t[1..];
      CollapseRunsAvoids(u, c);
      var m := CollapseRuns(u);
      assert CollapseRuns(t) == [t[0]] + m;
      forall i | 0 <= i < |[t[0]] + m| ensures ([t[0]] + m)[i] != c {
        if i > 0 {
          assert ([t[0]] + m)[i] == m[i - 1];
        }
      }
    }
  }

  lemma {:induction false} BulletIsNotSpace()
    ensures !IsSpace('•')
  {
  }

  /** Stripping keeps every character's whitespace shape. */
  lemma {:induction false} StripKeepsPlainSpaces(c: string)
    requires forall i :: 0 <= i < |c| ==> IsSpace(c[i]) ==> c[i] == ' '
    ensures forall i :: 0 <= i < |Strip(c)| ==> IsSpace(Strip(c)[i]) ==> Strip(c)[i] == ' '
  {
    var a := StripSlice(c);
    var r := Strip(c);
    forall i | 0 <= i < |r| ensures IsSpace(r[i]) ==> r[i] == ' ' {
      assert r[i] == c[a + i];
    }
  }

  /** Cleaned text holds no bullet. */
  lemma {:induction false} NormalizeNoBullet(text: string)
    ensures forall i :: 0 <= i < |NormalizeResumeText(text)| ==> NormalizeResumeText(text)[i] != '•'
  {
    var d := DashBullets(text);
    BulletIsNotSpace();
    CollapseRunsAvoids(d, '•');
    StripAvoids(CollapseRuns(d), '•');
  }

  /** Cleaned text holds only plain spaces, never two in a row nor at either end. */
  lemma {:induction false} NormalizePlainSpaces(text: string)
    ensures var r := NormalizeResumeText(text);
      && (forall i :: 0 <= i < |r| ==> IsSpace(r[i]) ==> r[i] == ' ')
      && (forall i :: 0 <= i < |r| - 1 ==> !(r[i] == ' ' && r[i + 1] == ' '))
      && (r == [] || (r[0] != ' ' && r[|r| - 1] != ' '))
  {
    var c := CollapseRuns(DashBullets(text));
    CollapseRunsShape(DashBullets(text));
    StripKeepsPlainSpaces(c);
    StripNoDoubleSpace(c);
    StripEnds(c);
  }

  /** `_normalize_text` always yields clean text; in particular it holds no line break. */
  lemma {:induction false} NormalizeResumeClean(text: string)
    ensures CleanText(NormalizeResumeText(text))
  {
    NormalizeNoBullet(text);
    NormalizePlainSpaces(text);
  }

  /** Clean text has no line break, so it is a single line. */
  lemma {:induction false} CleanTextOneLine(r: string)
    requires CleanText(r)
    ensures Split(r, '\n') == [r]
  {
    forall i | 0 <= i < |r| ensures r[i] != '\n' {
      assert IsSpace('\n');
    }
    SplitAbsent(r, '\n');
  }

  /** Text without a bullet is left as it is by the bullet replacement. */
  lemma {:induction false} DashBulletsFixed(r: string)
    requires forall i :: 0 <= i < |r| ==> r[i] != '•'
    ensures DashBullets(r) == r
  {
  }

  /** Clean text is a fixed point of the clean-up. */
  lemma {:induction false} CleanIsFixed(r: string)
    requires CleanText(r)
    ensures NormalizeResumeText(r) == r
  {
    DashBulletsFixed(r);
    assert CollapsedShape(r);
    CollapseRunsOfNormal(r);
    StripIdentity(r);
  }

  /** Cleaning clean text changes nothing: `_normalize_text` is idempotent. */
  lemma {:induction false} NormalizeResumeIdempotent(text: string)
    ensures NormalizeResumeText(NormalizeResumeText(text)) == NormalizeResumeText(text)
  {
    NormalizeResumeClean(text);
    CleanIsFixed(NormalizeResumeText(text));
  }

  // ---------------------------------------------------------------- _extract_sections_regex

  /** The five section keys of the split résumé. */
  datatype Section = Experience | Projects | Skills | Education | Certifications

  /** The split résumé: one list of lines per section key. */
  datatype Structured = Structured(
    experience: seq<string>, projects: seq<string>, skills: seq<string>,
    education: seq<string>, certifications: seq<string>)
  {
    function Get(s: Section): seq<string> {
      match s
      case Experience => experience
      case Projects => projects
      case Skills => skills
      case Education => education
      case Certifications => certifications
    }

    /** `sections[current].append(line)`. */
    function Add(s: Section, line: string): (r: Structured)
      ensures forall t :: r.Get(t) == if t == s then Get(t) + [line] else Get(t)
    {
      match s
      case Experience => this.(experience := experience + [line])
      case Projects => this.(projects := projects + [line])
      case Skills => this.(skills := skills + [line])
      case Education => this.(education := education + [line])
      case Certifications => this.(certifications := certifications + [line])
    }
  }

  const NoSections := Structured([], [], [], [], [])

  /** Nothing but whitespace (the regex tail `\s*$`). */
  predicate AllSpace(t: string) {
    forall k :: 0 <= k < |t| ==> IsSpace(t[k])
  }

  /** `^word\s*$`. */
  predicate WordThenSpace(h: string, word: string) {
    word <= h && AllSpace(h[|word|..])
  }

  /** `^lead\s+word\s*$`. */
  predicate LedWord(h: string, lead: string, word: string) {
    lead <= h && var k := SpaceRun(h[|lead|..]); k > 0 && WordThenSpace(h[|lead| + k..], word)
  }

  /** The header patterns, tried in the source's order on the lower-cased line. */
  function HeaderOf(h: string): Option<Section>
  {
    if WordThenSpace(h, "experience") || LedWord(h, "work", "experience") then Some(Experience)
    else if WordThenSpace(h, "project") || WordThenSpace(h, "projects") then Some(Projects)
    else if WordThenSpace(h, "skill") || WordThenSpace(h, "skills")
      || LedWord(h, "technical", "skill") || LedWord(h, "technical", "skills") then Some(Skills)
    else if WordThenSpace(h, "education") then Some(Education)
    else if WordThenSpace(h, "certification") || WordThenSpace(h, "certifications") then Some(Certifications)
    else None
  }

  /** The header a raw line announces, if any. */
  function HeaderAt(line: string): Option<Section> {
    HeaderOf(Lower(Strip(line)))
  }

  /**
   * The skip test as written, `re.search(r"^\s*\*|-|•", l)`: the
   * alternation binds loosest, so a line is skipped when it opens with `*`
   * or holds a `-` or a `•` anywhere.
   */
  predicate SkippedAsWritten(l: string) {
    var k := SpaceRun(l);
    (k < |l| && l[k] == '*') || '-' in l || '•' in l
  }

  /** The skip test `^\s*(\*|-|•)`: a line that opens with a bullet marker. */
  predicate SkippedIntended(l: string) {
    var k := SpaceRun(l);
    k < |l| && (l[k] == '*' || l[k] == '-' || l[k] == '•')
  }

  /** The splitter's two tests: which header a raw line announces, and which stripped lines to skip. */
  datatype Rules = Rules(header: string -> Option<Section>, skip: string -> bool)

  /** The rules as written. */
  const AsWritten := Rules(HeaderAt, SkippedAsWritten)

  /** The rules with the skip pattern grouped as evidently meant. */
  const Intended := Rules(HeaderAt, SkippedIntended)

  /** The splitter's state between lines: the open section and the lines so far. */
  datatype ScanState = ScanState(current: Option<Section>, sections: Structured)

  /** One line of the splitter loop. */
  function ScanLine(st: ScanState, line: string, rules: Rules): ScanState
  {
    var l := Strip(line);
    var h := rules.header(line);
    if h.Some? then ScanState(h, st.sections)
    else if st.current.Some? && |l| > 0 && !rules.skip(l) then ScanState(st.current, st.sections.Add(st.current.value, l))
    else st
  }

  /** The splitter loop over the first lines. */
  function Scan(lines: seq<string>, rules: Rules): ScanState
    decreases |lines|
  {
    if lines == [] then ScanState(None, NoSections)
    else ScanLine(Scan(DropLast(lines), rules), lines[|lines| - 1], rules)
  }

  /** The sections the splitter returns for the given lines. */
  function Sections(lines: seq<string>, rules: Rules): Structured {
    Scan(lines, rules).sections
  }

  /** `_extract_sections_regex` as written. */
  function ExtractSectionsRegex(text: string): Structured {
    Sections(Split(text, '\n'), AsWritten)
  }

  /** `_extract_sections_regex` with the skip pattern grouped as evidently meant. */
  function ExtractSectionsIntended(text: string): Structured {
    Sections(Split(text, '\n'), Intended)
  }

  /** `_extract_sections_regex`: walks the lines once, tracking the open section. */
  method ExtractSections(text: string) returns (sections: Structured)
    ensures sections == ExtractSectionsRegex(text)
  {
    var lines := Split(text, '\n');
    var current: Option<Section> := None;
    sections := NoSections;
    for i := 0 to |lines|
      invariant Scan(lines[..i], AsWritten) == ScanState(current, sections)
    {
      assert DropLast(lines[..i + 1]) == lines[..i];
      var l := Strip(lines[i]);
      var header := Lower(l);
      var h := HeaderOf(header);
      assert h == AsWritten.header(lines[i]);
      if h.Some? {
        current := h;
      } else if current.Some? && |l| > 0 && !SkippedAsWritten(l) {
        sections := sections.Add(current.value, l);
      }
    }
    assert lines[..|lines|] == lines;
  }

  // Reference reading of the splitter: section by section.

  /** The section opened by the last header among the lines, if any. */
  function LastHeader(lines: seq<string>, rules: Rules): Option<Section>
    decreases |lines|
  {
    if lines == [] then None
    else if rules.header(lines[|lines| - 1]).Some? then rules.header(lines[|lines| - 1])
    else LastHeader(DropLast(lines), rules)
  }

  /** A line the splitter records: not a header, not blank, not skipped. */
  predicate Recorded(line: string, rules: Rules) {
    rules.header(line).None? && |Strip(line)| > 0 && !rules.skip(Strip(line))
  }

  /** The stripped recorded lines that follow a header of section `s`, in order. */
  function Kept(lines: seq<string>, s: Section, rules: Rules): seq<string>
    decreases |lines|
  {
    if lines == [] then []
    else
      var init := DropLast(lines);
      var line := lines[|lines| - 1];
      Kept(init, s, rules) + (if Recorded(line, rules) && LastHeader(init, rules) == Some(s) then [Strip(line)] else [])
  }

  /** The state machine agrees with the section-by-section reading. */
  lemma {:induction false} ScanIsKept(lines: seq<string>, rules: Rules)
    ensures Scan(lines, rules).current == LastHeader(lines, rules)
    ensures forall s :: Sections(lines, rules).Get(s) == Kept(lines, s, rules)
    decreases |lines|
  {
    if lines != [] {
      ScanIsKept(DropLast(lines), rules);
    }
  }

  /** Line `i` is a recorded line under a header of section `s`. */
  predicate RecordedUnder(lines: seq<string>, i: nat, s: Section, rules: Rules)
    requires i < |lines|
  {
    Recorded(lines[i], rules) && LastHeader(lines[..i], rules) == Some(s)
  }

  /** Every line of section `s` is a recorded line that came after a header of `s` and before any other header. */
  lemma {:induction false} KeptOrigin(lines: seq<string>, s: Section, rules: Rules, j: nat)
    requires j < |Kept(lines, s, rules)|
    ensures exists i :: 0 <= i < |lines| && RecordedUnder(lines, i, s, rules) && Kept(lines, s, rules)[j] == Strip(lines[i])
    decreases |lines|, 1
  {
    if j < |Kept(DropLast(lines), s, rules)| {
      KeptOriginEarlier(lines, s, rules, j);
    } else {
      KeptOriginLast(lines, s, rules, j);
    }
  }

  lemma {:induction false} KeptOriginEarlier(lines: seq<string>, s: Section, rules: Rules, j: nat)
    requires lines != [] && j < |Kept(DropLast(lines), s, rules)|
    ensures exists i :: 0 <= i < |lines| && RecordedUnder(lines, i, s, rules) && Kept(lines, s, rules)[j] == Strip(lines[i])
    decreases |lines|, 0
  {
    var init := DropLast(lines);
    KeptOrigin(init, s, rules, j);
    var i :| 0 <= i < |init| && RecordedUnder(init, i, s, rules) && Kept(init, s, rules)[j] == Strip(init[i]);
    RecordedUnderGrows(lines, i, s, rules);
    assert RecordedUnder(lines, i, s, rules) && Kept(lines, s, rules)[j] == Strip(lines[i]);
  }

  lemma {:induction false} KeptOriginLast(lines: seq<string>, s: Section, rules: Rules, j: nat)
    requires lines != [] && |Kept(DropLast(lines), s, rules)| <= j < |Kept(lines, s, rules)|
    ensures exists i :: 0 <= i < |lines| && RecordedUnder(lines, i, s, rules) && Kept(lines, s, rules)[j] == Strip(lines[i])
  {
    var init := DropLast(lines);
    var n := |lines| - 1;
    var line := lines[n];
    assert Recorded(line, rules) && LastHeader(init, rules) == Some(s);
    assert Kept(lines, s, rules) == Kept(init, s, rules) + [Strip(line)];
    assert lines[..n] == init;
    assert RecordedUnder(lines, n, s, rules) && Kept(lines, s, rules)[j] == Strip(lines[n]);
  }

  /** Adding a line leaves the earlier lines' status and section contents as they were. */
  lemma {:induction false} RecordedUnderGrows(lines: seq<string>, i: nat, s: Section, rules: Rules)
    requires lines != [] && i < |lines| - 1
    ensures RecordedUnder(DropLast(lines), i, s, rules) == RecordedUnder(lines, i, s, rules)
    ensures Kept(DropLast(lines), s, rules) <= Kept(lines, s, rules)
  {
    var init := DropLast(lines);
    assert init[..i] == lines[..i];
    assert lines[i] == init[i];
  }

  /** Every recorded line after a header of `s` (and before any other header) lands in section `s`. */
  lemma {:induction false} KeptComplete(lines: seq<string>, s: Section, rules: Rules, i: nat)
    requires i < |lines| && RecordedUnder(lines, i, s, rules)
    ensures Strip(lines[i]) in Kept(lines, s, rules)
    decreases |lines|
  {
    var init := DropLast(lines);
    if i < |init| {
      assert init[..i] == lines[..i];
      assert init[i] == lines[i];
      KeptComplete(init, s, rules, i);
    } else {
      assert lines[..i] == init;
    }
  }

  /** A single line never fills a section: it can only open one. */
  lemma {:induction false} OneLineNoSections(r: string, rules: Rules)
    ensures Sections([r], rules) == NoSections
  {
    assert DropLast([r]) == [];
    var st := Scan([], rules);
    assert st == ScanState(None, NoSections);
    assert Scan([r], rules) == ScanLine(st, r, rules);
  }

  /** A header line alone opens its section and records nothing. */
  lemma {:induction false} HeaderLineOpens(line: string, rules: Rules)
    requires rules.header(line).Some?
    ensures Scan([line], rules) == ScanState(rules.header(line), NoSections)
  {
    assert DropLast([line]) == [];
  }

  /** A header line then a content line: the content line is recorded in the header's section unless blank or skipped. */
  lemma {:induction false} HeaderThenLine(header: string, line: string, rules: Rules)
    requires rules.header(header).Some? && rules.header(line).None?
    ensures Sections([header, line], rules)
      == if |Strip(line)| > 0 && !rules.skip(Strip(line)) then NoSections.Add(rules.header(header).value, Strip(line))
         else NoSections
  {
    HeaderLineOpens(header, rules);
    assert DropLast([header, line]) == [header];
  }

  /** A header line then a skipped line: nothing is recorded. */
  lemma {:induction false} HeaderThenSkipped(header: string, line: string, rules: Rules)
    requires rules.header(header).Some? && rules.header(line).None? && rules.skip(Strip(line))
    ensures Sections([header, line], rules) == NoSections
  {
    HeaderThenLine(header, line, rules);
  }

  /** Splitting cleaned text finds no section: it is a single line, so no line can follow a header. */
  lemma {:induction false} CleanTextHasNoSections(text: string, rules: Rules)
    ensures Sections(Split(NormalizeResumeText(text), '\n'), rules) == NoSections
  {
    var r := NormalizeResumeText(text);
    NormalizeResumeClean(text);
    CleanTextOneLine(r);
    OneLineNoSections(r, rules);
  }

  // The skip pattern: as written against as meant.

  /** Under the rules as written, no extracted line holds a dash or a bullet, wherever it sits in the line. */
  lemma {:induction false} AsWrittenDropsDashes(text: string, s: Section, j: nat)
    requires j < |ExtractSectionsRegex(text).Get(s)|
    ensures var line := ExtractSectionsRegex(text).Get(s)[j]; '-' !in line && '•' !in line
  {
    var lines := Split(text, '\n');
    ScanIsKept(lines, AsWritten);
    KeptOrigin(lines, s, AsWritten, j);
  }

  /** Under the intended rules every content line after a header of `s` is kept, dashes inside it or not. */
  lemma {:induction false} IntendedKeepsContent(text: string, s: Section, i: nat)
    requires i < |Split(text, '\n')|
    requires var line := Split(text, '\n')[i];
      && HeaderAt(line).None? && |Strip(line)| > 0 && !SkippedIntended(Strip(line))
      && LastHeader(Split(text, '\n')[..i], Intended) == Some(s)
    ensures Strip(Split(text, '\n')[i]) in ExtractSectionsIntended(text).Get(s)
  {
    var lines := Split(text, '\n');
    ScanIsKept(lines, Intended);
    assert RecordedUnder(lines, i, s, Intended);
    KeptComplete(lines, s, Intended, i);
  }

  /** Two lines joined by a line break split back into the two. */
  lemma {:induction false} SplitTwoLines(a: string, b: string)
    requires '\n' !in a && '\n' !in b
    ensures Split(a + "\n" + b, '\n') == [a, b]
  {
    var t := a + "\n" + b;
    assert t[|a|] == '\n';
    var k := IndexOf(t, '\n');
    assert k == |a|;
    assert t[..k] == a;
    assert t[k + 1..] == b;
    SplitAbsent(b, '\n');
  }

  const SampleHeader := "Experience"
  const SampleLine := "Go-based APIs"

  lemma {:induction false} SampleSplit()
    ensures Split(SampleHeader + "\n" + SampleLine, '\n') == [SampleHeader, SampleLine]
  {
    SplitTwoLines(SampleHeader, SampleLine);
  }

  lemma {:induction false} SampleHeaderOpens()
    ensures HeaderAt(SampleHeader) == Some(Experience)
  {
    StripIdentity(SampleHeader);
    var h := Lower(SampleHeader);
    assert h == "experience";
    assert WordThenSpace(h, "experience");
  }

  /** A line opening with a letter no header word opens with is not a header. */
  lemma {:induction false} NotAHeader(h: string)
    requires h != [] && h[0] == 'g'
    ensures HeaderOf(h).None?
  {
    assert !("experience" <= h) && !("work" <= h);
    assert !("project" <= h) && !("projects" <= h);
    assert !("skill" <= h) && !("skills" <= h) && !("technical" <= h);
    assert !("education" <= h);
    assert !("certification" <= h) && !("certifications" <= h);
  }

  lemma {:induction false} SampleLineIsContent()
    ensures HeaderAt(SampleLine).None?
    ensures Strip(SampleLine) == SampleLine
  {
    StripIdentity(SampleLine);
    var h := Lower(SampleLine);
    assert h[0] == 'g';
    NotAHeader(h);
  }

  /** The sample line holds a dash, so the as-written test skips it; it opens with no bullet marker, so the intended test keeps it. */
  lemma {:induction false} SampleLineSkips()
    ensures AsWritten.skip(SampleLine)
    ensures !Intended.skip(SampleLine)
  {
    assert SampleLine[2] == '-';
    assert SpaceRun(SampleLine) == 0;
  }

  /** A content line with a hyphen under "Experience" is lost by the splitter as written. */
  lemma {:induction false} HyphenatedLineDropped()
    ensures ExtractSectionsRegex(SampleHeader + "\n" + SampleLine).experience == []
  {
    SampleSplit();
    SampleHeaderOpens();
    SampleLineIsContent();
    SampleLineSkips();
    HeaderThenSkipped(SampleHeader, SampleLine, AsWritten);
  }

  /** The same line is kept when the skip pattern is grouped as meant. */
  lemma {:induction false} HyphenatedLineKept()
    ensures ExtractSectionsIntended(SampleHeader + "\n" + SampleLine).experience == [SampleLine]
  {
    SampleSplit();
    SampleHeaderOpens();
    SampleLineIsContent();
    SampleLineSkips();
    HeaderThenLine(SampleHeader, SampleLine, Intended);
    assert ExtractSectionsIntended(SampleHeader + "\n" + SampleLine) == Sections([SampleHeader, SampleLine], Intended);
  }

  // Flattening before splitting: as written against as meant.

  const PlainLine := "Go APIs"

  lemma {:induction false} PlainLineIsContent()
    ensures HeaderAt(PlainLine).None?
    ensures Strip(PlainLine) == PlainLine
    ensures !AsWritten.skip(PlainLine)
  {
    StripIdentity(PlainLine);
    var h := Lower(PlainLine);
    assert h[0] == 'g';
    NotAHeader(h);
    assert SpaceRun(PlainLine) == 0;
    assert PlainLine == ['G', 'o', ' ', 'A', 'P', 'I', 's'];
  }

  /**
   * As written, `ingest_text` cleans the résumé before splitting it, so a
   * header and the line under it become one line and the splitter keeps
   * nothing, even with the code's own skip pattern.
   */
  lemma {:induction false} FlattenedLineLost()
    ensures Sections(Split(NormalizeResumeText(SampleHeader + "\n" + PlainLine), '\n'), AsWritten) == NoSections
  {
    CleanTextHasNoSections(SampleHeader + "\n" + PlainLine, AsWritten);
  }

  /**
   * Split before cleaning, the same résumé keeps its line under
   * "Experience", with the code's own skip pattern.
   */
  lemma {:induction false} LinesKeptBeforeFlattening()
    ensures ExtractSectionsRegex(SampleHeader + "\n" + PlainLine).experience == [PlainLine]
  {
    SplitTwoLines(SampleHeader, PlainLine);
    SampleHeaderOpens();
    PlainLineIsContent();
    HeaderThenLine(SampleHeader, PlainLine, AsWritten);
    assert ExtractSectionsRegex(SampleHeader + "\n" + PlainLine) == Sections([SampleHeader, PlainLine], AsWritten);
  }

  // ---------------------------------------------------------------- chunk: recency

  /** A year token starts the text: `20\d{2}` or `19\d{2}`. */
  predicate YearStart(s: string)
    requires |s| >= 4
  {
    ((s[0] == '2' && s[1] == '0') || (s[0] == '1' && s[1] == '9')) && IsDigit(s[2]) && IsDigit(s[3])
  }

  /** `int()` of a four-digit year token. */
  function YearValue(s: string): (y: nat)
    requires |s| >= 4 && YearStart(s)
    ensures 1900 <= y <= 2099
  {
    1000 * DigitValue(s[0]) + 100 * DigitValue(s[1]) + 10 * DigitValue(s[2]) + DigitValue(s[3])
  }

  /** `re.findall(r"(20\d{2}|19\d{2})", line)`, as numbers: matches left to right, never overlapping. */
  function Years(s: string): seq<nat>
    decreases |s|
  {
    if |s| < 4 then []
    else if YearStart(s) then [YearValue(s)] + Years(s[4..])
    else Years(s[1..])
  }

  /** Every year found is a 19xx or 20xx year. */
  lemma {:induction false} YearsInRange(s: string)
    ensures forall k :: 0 <= k < |Years(s)| ==> 1900 <= Years(s)[k] <= 2099
    decreases |s|
  {
    if |s| >= 4 {
      if YearStart(s) {
        YearsInRange(s[4..]);
      } else {
        YearsInRange(s[1..]);
      }
    }
  }

  /** The largest of the years. */
  function Latest(ys: seq<nat>): (m: nat)
    requires ys != []
    ensures m in ys
    ensures forall k :: 0 <= k < |ys| ==> ys[k] <= m
  {
    if |ys| == 1 then ys[0]
    else var m := Latest(ys[1..]); if ys[0] >= m then ys[0] else m
  }

  /** The score of a line whose latest year lies `diff` years back: 1 / (1 + max(0, diff)). */
  function AgeScore(diff: int): real
  {
    1.0 / (1 + (if diff > 0 then diff else 0)) as real
  }

  /** The inner `recency(line)` of `chunk`: 0.5 without a year, else the score of the latest year's age. */
  function Recency(line: string, currentYear: int): real
  {
    var ys := Years(line);
    if ys == [] then 0.5 else AgeScore(currentYear - Latest(ys))
  }

  /** Scores lie in (0, 1], are 1 for no age, and fall as the age grows. */
  lemma {:induction false} AgeScoreShape(older: int, newer: int)
    requires newer <= older
    ensures 0.0 < AgeScore(older) <= AgeScore(newer) <= 1.0
    ensures newer <= 0 ==> AgeScore(newer) == 1.0
  {
    var da := (1 + (if older > 0 then older else 0)) as real;
    var db := (1 + (if newer > 0 then newer else 0)) as real;
    assert 1.0 <= db <= da;
    ReciprocalAntitone(da, db);
  }

  /** `1 / a` lies in (0, 1] for `a >= 1` and falls as `a` grows. */
  lemma {:induction false} ReciprocalAntitone(a: real, b: real)
    requires 1.0 <= b <= a
    ensures 0.0 < 1.0 / a <= 1.0 / b <= 1.0
  {
    var x, y := 1.0 / a, 1.0 / b;
    assert x * a == 1.0 && y * b == 1.0;
    assert 0.0 < x && 0.0 < y;
    assert (a - b) * (x * y) == y * (a * x) - x * (b * y) == y - x;
    assert x * y > 0.0;
    assert (a - b) * (x * y) >= 0.0;
    assert y * (b - 1.0) >= 0.0;
  }

  /** A recency score lies in (0, 1]: 0.5 without a year, exactly 1 for a year not before the current one. */
  lemma {:induction false} RecencyBounds(line: string, currentYear: int)
    ensures 0.0 < Recency(line, currentYear) <= 1.0
    ensures Years(line) != [] && Latest(Years(line)) >= currentYear ==> Recency(line, currentYear) == 1.0
    ensures Years(line) == [] ==> Recency(line, currentYear) == 0.5
  {
    if Years(line) != [] {
      var d := currentYear - Latest(Years(line));
      AgeScoreShape(d, d);
    }
  }

  /** A line whose latest year is later never scores lower. */
  lemma {:induction false} RecencyMonotone(older: string, newer: string, currentYear: int)
    requires Years(older) != [] && Years(newer) != []
    requires Latest(Years(older)) <= Latest(Years(newer))
    ensures Recency(older, currentYear) <= Recency(newer, currentYear)
  {
    AgeScoreShape(currentYear - Latest(Years(older)), currentYear - Latest(Years(newer)));
  }

  // ---------------------------------------------------------------- chunk

  /** Chunk metadata (the content-hash id is not part of this model). */
  datatype ChunkMeta = ChunkMeta(section: Section, title: string, recencyScore: real, seniority: string)

  datatype Chunk = Chunk(text: string, meta: ChunkMeta)

  const TitleLength := 80
  const ProjectRecency := 0.8
  const Seniority := "mid"

  /** The chunk of one non-empty experience, project or education line. */
  function LineChunk(section: Section, line: string, currentYear: int): Chunk {
    var score := if section == Projects then ProjectRecency else Recency(line, currentYear);
    Chunk(line, ChunkMeta(section, Prefix(line, TitleLength), score, Seniority))
  }

  /** The chunks of one section's lines: empty lines are passed over. */
  function LineChunks(section: Section, lines: seq<string>, currentYear: int): seq<Chunk>
    decreases |lines|
  {
    if lines == [] then []
    else
      var line := lines[|lines| - 1];
      LineChunks(section, DropLast(lines), currentYear)
        + (if line == [] then [] else [LineChunk(section, line, currentYear)])
  }

  /** The single skills chunk: all skills joined by spaces, present only when there are skills. */
  function SkillsChunks(skills: seq<string>): seq<Chunk> {
    if skills == [] then [] else [Chunk(Join(skills, " "), ChunkMeta(Skills, "skills", 1.0, Seniority))]
  }

  /** `chunk`: experience, then projects, then skills, then education; certifications are not chunked. */
  function Chunks(st: Structured, currentYear: int): seq<Chunk> {
    LineChunks(Experience, st.experience, currentYear) + LineChunks(Projects, st.projects, currentYear)
      + SkillsChunks(st.skills) + LineChunks(Education, st.education, currentYear)
  }

  /** Appends the chunks of one section's lines. */
  method AppendLineChunks(chunks: seq<Chunk>, section: Section, lines: seq<string>, currentYear: int)
    returns (out: seq<Chunk>)
    ensures out == chunks + LineChunks(section, lines, currentYear)
  {
    out := chunks;
    for i := 0 to |lines|
      invariant out == chunks + LineChunks(section, lines[..i], currentYear)
    {
      assert DropLast(lines[..i + 1]) == lines[..i];
      var line := lines[i];
      if line != [] {
        out := out + [LineChunk(section, line, currentYear)];
      }
    }
    assert lines[..|lines|] == lines;
  }

  /** `chunk`, building the list section by section. */
  method ChunkResume(st: Structured, currentYear: int) returns (chunks: seq<Chunk>)
    ensures chunks == Chunks(st, currentYear)
  {
    var exp := AppendLineChunks([], Experience, st.experience, currentYear);
    var proj := AppendLineChunks(exp, Projects, st.projects, currentYear);
    var withSkills := proj;
    if st.skills != [] {
      withSkills := proj + [Chunk(Join(st.skills, " "), ChunkMeta(Skills, "skills", 1.0, Seniority))];
    }
    assert withSkills == proj + SkillsChunks(st.skills);
    chunks := AppendLineChunks(withSkills, Education, st.education, currentYear);
    assert exp == LineChunks(Experience, st.experience, currentYear);
  }

  /** A section yields exactly one chunk per non-empty line, in order, each carrying its line. */
  lemma {:induction false} LineChunksOfNonEmpty(section: Section, lines: seq<string>, currentYear: int)
    ensures |LineChunks(section, lines, currentYear)| == |NonEmpty(lines)|
    ensures forall k :: 0 <= k < |NonEmpty(lines)| ==>
              LineChunks(section, lines, currentYear)[k] == LineChunk(section, NonEmpty(lines)[k], currentYear)
    decreases |lines|
  {
    if lines != [] {
      LineChunksOfNonEmpty(section, DropLast(lines), currentYear);
    }
  }

  /** The number of chunks: one per non-empty experience, project and education line, plus one for skills. */
  lemma {:induction false} ChunkCount(st: Structured, currentYear: int)
    ensures |Chunks(st, currentYear)|
      == |NonEmpty(st.experience)| + |NonEmpty(st.projects)| + (if st.skills == [] then 0 else 1)
         + |NonEmpty(st.education)|
  {
    LineChunksOfNonEmpty(Experience, st.experience, currentYear);
    LineChunksOfNonEmpty(Projects, st.projects, currentYear);
    LineChunksOfNonEmpty(Education, st.education, currentYear);
  }

  /** What every chunk carries: a score in (0, 1], the fixed seniority, a short title and, for a line chunk, its line as text and its opening as title. */
  predicate WellFormedChunk(c: Chunk) {
    && 0.0 < c.meta.recencyScore <= 1.0
    && c.meta.seniority == Seniority
    && c.meta.section != Certifications
    && |c.meta.title| <= TitleLength
    && (c.meta.section != Skills ==> c.text != [] && c.meta.title == Prefix(c.text, TitleLength))
  }

  /** The chunks of one section's lines are well formed and all belong to that section. */
  lemma {:induction false} LineChunksWellFormed(section: Section, lines: seq<string>, currentYear: int)
    requires section != Skills && section != Certifications
    ensures forall k :: 0 <= k < |LineChunks(section, lines, currentYear)| ==>
              var c := LineChunks(section, lines, currentYear)[k]; WellFormedChunk(c) && c.meta.section == section
    decreases |lines|
  {
    if lines != [] {
      var line := lines[|lines| - 1];
      LineChunksWellFormed(section, DropLast(lines), currentYear);
      RecencyBounds(line, currentYear);
    }
  }

  /** Rank of a section in the chunk order. */
  function Rank(s: Section): nat {
    match s
    case Experience => 0
    case Projects => 1
    case Skills => 2
    case Education => 3
    case Certifications => 4
  }

  /** Every chunk is well formed, and sections come in the order experience, projects, skills, education. */
  lemma {:induction false} ChunksShape(st: Structured, currentYear: int)
    ensures forall k :: 0 <= k < |Chunks(st, currentYear)| ==> WellFormedChunk(Chunks(st, currentYear)[k])
    ensures forall i, j :: 0 <= i < j < |Chunks(st, currentYear)| ==>
              Rank(Chunks(st, currentYear)[i].meta.section) <= Rank(Chunks(st, currentYear)[j].meta.section)
  {
    var e := LineChunks(Experience, st.experience, currentYear);
    var p := LineChunks(Projects, st.projects, currentYear);
    var k := SkillsChunks(st.skills);
    var d := LineChunks(Education, st.education, currentYear);
    LineChunksWellFormed(Experience, st.experience, currentYear);
    LineChunksWellFormed(Projects, st.projects, currentYear);
    LineChunksWellFormed(Education, st.education, currentYear);
    var cs := Chunks(st, currentYear);
    assert cs == e + p + k + d;
    forall i | 0 <= i < |cs|
      ensures WellFormedChunk(cs[i])
      ensures Rank(cs[i].meta.section) == if i < |e| then 0 else if i < |e| + |p| then 1 else if i < |e| + |p| + |k| then 2 else 3
    {
      if i < |e| {
        assert cs[i] == e[i];
      } else if i < |e| + |p| {
        assert cs[i] == p[i - |e|];
      } else if i < |e| + |p| + |k| {
        assert cs[i] == k[i - |e| - |p|];
      } else {
        assert cs[i] == d[i - |e| - |p| - |k|];
      }
    }
  }

  // ---------------------------------------------------------------- _profile_from_structured

  /** `_profile_from_structured`: the four profile sections; certifications are dropped. */
  function ProfileFromStructured(st: Structured): Schemas.Profile {
    Schemas.Profile(st.experience, st.projects, st.skills, st.education)
  }

  /** A profile with a certifications list, as split sections. */
  function StructuredOf(p: Schemas.Profile, certifications: seq<string>): Structured {
    Structured(p.experience, p.projects, p.skills, p.education, certifications)
  }

  /** The conversion keeps the four sections and loses only the certifications. */
  lemma {:induction false} ProfileFromStructuredRoundTrip(st: Structured, p: Schemas.Profile, certifications: seq<string>)
    ensures ProfileFromStructured(StructuredOf(p, certifications)) == p
    ensures StructuredOf(ProfileFromStructured(st), st.certifications) == st
  {
  }
}
