/**
 * The records exchanged by the services (backend/app/models/schemas.py),
 * as immutable values, with the defaults the schema declares.
 */
module Schemas {
  import opened Wrappers

  /** A job posting: `company` and `location` are optional, `description` is required. */
  datatype Job = Job(title: string, company: Option<string>, location: Option<string>, description: string)

  /** A candidate profile: four ordered lists of free-text entries. */
  datatype Profile = Profile(experience: seq<string>, projects: seq<string>, skills: seq<string>, education: seq<string>)

  /** The five keyword categories (the bucket names). */
  datatype Category = Skills | Tools | Responsibilities | Education | ActionVerbs

  /** Keyword buckets, one list per category. */
  datatype Buckets = Buckets(skills: seq<string>, tools: seq<string>, responsibilities: seq<string>,
                             education: seq<string>, actionVerbs: seq<string>)
  {
    /** The bucket of one category. */
    function Get(c: Category): seq<string> {
      match c
      case Skills => skills
      case Tools => tools
      case Responsibilities => responsibilities
      case Education => education
      case ActionVerbs => actionVerbs
    }
  }

  datatype RankedKeyword = RankedKeyword(keyword: string, category: Category, weight: real)

  datatype Extraction = Extraction(keywords: Buckets, ranked: seq<RankedKeyword>)

  /** The best evidence for one keyword; `evidence` and `similarity` may be absent. */
  datatype MappingEntry = MappingEntry(keyword: string, evidence: Option<string>, similarity: Option<real>)

  datatype KeywordMapping = KeywordMapping(matched: seq<MappingEntry>, partial: seq<MappingEntry>, missing: seq<MappingEntry>)

  datatype Breakdown = Breakdown(keywordCoverage: real, roleRelevance: real, seniority: real,
                                 conciseness: real, education: real)

  /** One line of the score's explanation list. */
  datatype Explanation =
    | MissingKeyword(keyword: string)
    | PartialMatch(keyword: string, similarity: Option<real>)
    | CoverageBelowTarget
    | EducationNotSatisfied
    | Verbose
    | GoodAlignment
  {
    /** The line's text; `showSim` renders a similarity the way Python prints a float. */
    function Text(showSim: Option<real> -> string): string {
      match this
      case MissingKeyword(k) => "Missing keyword: " + k
      case PartialMatch(k, s) => "Partial match for " + k + " (sim=" + showSim(s) + ")"
      case CoverageBelowTarget => "Coverage below target despite all keywords mapped"
      case EducationNotSatisfied => "Education requirement not satisfied"
      case Verbose => "Profile may be verbose; tighten bullets"
      case GoodAlignment => "Good alignment"
    }
  }

  datatype AtsScore = AtsScore(score: real, breakdown: Breakdown, explanations: seq<Explanation>)

  datatype OptimizerIteration = OptimizerIteration(iteration: int, changes: seq<string>, scoreBefore: real, scoreAfter: real)

  datatype OptimizerResult = OptimizerResult(optimizedResume: Profile, iterations: seq<OptimizerIteration>,
                                             finalScore: real, finalScoreDetail: AtsScore, finalMapping: KeywordMapping)

  datatype AssemblerBudgets = AssemblerBudgets(totalLines: int, experienceLines: int, projectLines: int,
                                               skillsLines: int, educationLines: int, limit: int)

  datatype AssemblerResult = AssemblerResult(latexSource: string, sectionBudgets: AssemblerBudgets, trimsApplied: seq<string>)

  datatype RenderAttempt = RenderAttempt(attempt: int, pageCount: int, trims: seq<string>, logExcerpt: string)

  datatype RendererResult = RendererResult(pdfPath: string, pageCount: int, renderAttempts: seq<RenderAttempt>,
                                           finalTrims: seq<string>, error: Option<string>)

  // ---------------------------------------------------------------- defaults

  /** `JobInput(title=..., description=...)`: company and location default to None. */
  function NewJob(title: string, description: string): (j: Job)
    ensures j.company == None && j.location == None
    ensures j.title == title && j.description == description
  {
    Job(title, None, None, description)
  }

  /** `ProfileInput()`: every section defaults to the empty list. */
  function EmptyProfile(): (p: Profile)
    ensures p.experience == [] && p.projects == [] && p.skills == [] && p.education == []
  {
    Profile([], [], [], [])
  }

  /** `KeywordBuckets()`: all five buckets default to empty. */
  function EmptyBuckets(): (b: Buckets)
    ensures forall c :: b.Get(c) == []
  {
    Buckets([], [], [], [], [])
  }

  /** `MappingEntry(keyword=k)`: no evidence and no similarity. */
  function BareEntry(keyword: string): (e: MappingEntry)
    ensures e.keyword == keyword && e.evidence == None && e.similarity == None
  {
    MappingEntry(keyword, None, None)
  }

  /** `KeywordMapping()`: three empty lists. */
  function EmptyMapping(): (m: KeywordMapping)
    ensures m.matched == [] && m.partial == [] && m.missing == []
  {
    KeywordMapping([], [], [])
  }

  /** `AssemblerBudgets(...)` without `limit`: the limit defaults to 55. */
  function NewBudgets(total: int, experience: int, projects: int, skills: int, education: int): (b: AssemblerBudgets)
    ensures b.limit == 55
    ensures b.totalLines == total && b.experienceLines == experience && b.projectLines == projects
    ensures b.skillsLines == skills && b.educationLines == education
  {
    AssemblerBudgets(total, experience, projects, skills, education, 55)
  }

  /** `RendererResult(...)` without `error`: the error defaults to None. */
  function NewRendererResult(pdfPath: string, pageCount: int, attempts: seq<RenderAttempt>, trims: seq<string>): (r: RendererResult)
    ensures r.error == None
    ensures r.pdfPath == pdfPath && r.pageCount == pageCount && r.renderAttempts == attempts && r.finalTrims == trims
  {
    RendererResult(pdfPath, pageCount, attempts, trims, None)
  }

  // ---------------------------------------------------------------- category names

  /** The bucket name of a category, as the schema spells its field. */
  function CategoryName(c: Category): string {
    match c
    case Skills => "skills"
    case Tools => "tools"
    case Responsibilities => "responsibilities"
    case Education => "education"
    case ActionVerbs => "action_verbs"
  }

  /** `name in KeywordBuckets.model_fields`, and which bucket it names. */
  function ParseCategory(name: string): (r: Option<Category>)
    ensures r.Some? ==> CategoryName(r.value) == name
  {
    if name == "skills" then Some(Skills)
    else if name == "tools" then Some(Tools)
    else if name == "responsibilities" then Some(Responsibilities)
    else if name == "education" then Some(Education)
    else if name == "action_verbs" then Some(ActionVerbs)
    else None
  }

  /** Every bucket name is recognised as its own category. */
  lemma {:induction false} ParseCategoryName(c: Category)
    ensures ParseCategory(CategoryName(c)) == Some(c)
  {
  }
}
