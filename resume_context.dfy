/**
 * The builder's resume state: the empty initial resume, the sample resume, and the
 * five updates the rest of the builder calls. Each update computes the next resume
 * from the previous one by copying it with one part replaced; the store then holds
 * that new resume.
 */
module ResumeContext {
  import opened Text
  import opened Resume
  import AtsScoring

  // ---------------------------------------------------------------------------
  // The two fixed resumes

  /** Every personal field empty, no entries, skills the empty string. */
  const InitialState: ResumeData :=
    ResumeData(Personal("", "", "", "", "", "", ""), "", [], [], [], SkillsText(""))

  /** The words of the sample summary, which are separated by single spaces. */
  const SampleSummaryWords: seq<string> := [
    "Senior", "Software", "Engineer", "with", "6+", "years", "of", "experience", "in",
    "full-stack", "development.", "Passionate", "about", "building", "scalable", "web",
    "applications", "and", "intuitive", "user", "interfaces.", "Proven", "track",
    "record", "of", "leadership", "and", "technical", "excellence."
  ]

  /** The sample skills, which are separated by `", "`. */
  const SampleSkillNames: seq<string> := [
    "JavaScript", "React", "Node.js", "Python", "AWS", "Docker", "TypeScript", "GraphQL"
  ]

  const SamplePersonal: Personal := Personal(
    "Alex Morgan", "alex.morgan@example.com", "(555) 123-4567", "San Francisco, CA",
    "github.com/alexmorgan", "linkedin.com/in/alexmorgan", "alexmorgan.dev")

  const SampleImpactPrefix := "Leading a team of 5 developers. Improved site performance by "

  const SampleExperience: seq<Experience> := [
    Experience(1, "Senior Frontend Engineer", "TechFlow Inc.", "2022 - Present",
      SampleImpactPrefix + "40%."),
    Experience(2, "Software Developer", "BuildLite", "2020 - 2022",
      "Developed key features for the main product " + "securely and efficiently.")
  ]

  /** The sample project has only the older single link. */
  const SampleProjects: seq<Project> := [
    Project(1, "E-Commerce Platform",
      "A full-featured shopping platform " + "built with React and Node.js.",
      "github.com/alex/shop", "", "", [])
  ]

  const SampleData: ResumeData := ResumeData(
    SamplePersonal,
    JoinWith(SampleSummaryWords, " "),
    [Education(1, "University of California, Berkeley", "B.S. Computer Science", "2016 - 2020")],
    SampleExperience,
    SampleProjects,
    SkillsText(JoinWith(SampleSkillNames, ", ")))

  // ---------------------------------------------------------------------------
  // The updates, as functions of the previous resume

  /** `updatePersonal(field, value)` */
  function WithPersonal(r: ResumeData, f: PersonalField, v: string): ResumeData {
    r.(personal := r.personal.With(f, v))
  }

  /** The six top-level parts of a resume. */
  datatype Section = PersonalPart | SummaryPart | EducationPart | ExperiencePart | ProjectsPart | SkillsPart

  /** A value for one top-level part, tagged with the part it belongs to. */
  datatype SectionValue =
    | PersonalValue(personal: Personal)
    | SummaryValue(summary: string)
    | EducationValue(education: seq<Education>)
    | ExperienceValue(experience: seq<Experience>)
    | ProjectsValue(projects: seq<Project>)
    | SkillsValue(skills: Skills)
  {
    function Part(): Section {
      match this
      case PersonalValue(_) => PersonalPart
      case SummaryValue(_) => SummaryPart
      case EducationValue(_) => EducationPart
      case ExperienceValue(_) => ExperiencePart
      case ProjectsValue(_) => ProjectsPart
      case SkillsValue(_) => SkillsPart
    }
  }

  /** `resumeData[section]` */
  function Part(r: ResumeData, s: Section): (v: SectionValue)
    ensures v.Part() == s
  {
    match s
    case PersonalPart => PersonalValue(r.personal)
    case SummaryPart => SummaryValue(r.summary)
    case EducationPart => EducationValue(r.education)
    case ExperiencePart => ExperienceValue(r.experience)
    case ProjectsPart => ProjectsValue(r.projects)
    case SkillsPart => SkillsValue(r.skills)
  }

  /** `updateSection(section, value)` */
  function WithSection(r: ResumeData, v: SectionValue): ResumeData {
    match v
    case PersonalValue(p) => r.(personal := p)
    case SummaryValue(s) => r.(summary := s)
    case EducationValue(es) => r.(education := es)
    case ExperienceValue(xs) => r.(experience := xs)
    case ProjectsValue(ps) => r.(projects := ps)
    case SkillsValue(sk) => r.(skills := sk)
  }

  /** The three parts that hold lists of entries with ids. */
  datatype ListSection = EducationList | ExperienceList | ProjectList

  /** An entry for one of the three lists. */
  datatype Item =
    | EducationItem(education: Education)
    | ExperienceItem(experience: Experience)
    | ProjectItem(project: Project)
  {
    function List(): ListSection {
      match this
      case EducationItem(_) => EducationList
      case ExperienceItem(_) => ExperienceList
      case ProjectItem(_) => ProjectList
    }
  }

  function EducationId(e: Education): int { e.id }
  function ExperienceId(e: Experience): int { e.id }
  function ProjectId(p: Project): int { p.id }

  /** `addItem(section, item)`: the entry, with its id replaced by the fresh `id`,
      appended to its list. */
  function WithItem(r: ResumeData, item: Item, id: int): ResumeData {
    match item
    case EducationItem(e) => r.(education := r.education + [e.(id := id)])
    case ExperienceItem(x) => r.(experience := r.experience + [x.(id := id)])
    case ProjectItem(p) => r.(projects := r.projects + [p.(id := id)])
  }

  /** `xs.filter(item => item.id !== id)` */
  function Without<T>(xs: seq<T>, idOf: T -> int, id: int): (ys: seq<T>)
    ensures |ys| <= |xs|
  {
    if xs == [] then []
    else
      var last := xs[|xs| - 1];
      Without(xs[..|xs| - 1], idOf, id) + (if idOf(last) != id then [last] else [])
  }

  /** `removeItem(section, id)` */
  function WithoutItem(r: ResumeData, s: ListSection, id: int): ResumeData {
    match s
    case EducationList => r.(education := Without(r.education, EducationId, id))
    case ExperienceList => r.(experience := Without(r.experience, ExperienceId, id))
    case ProjectList => r.(projects := Without(r.projects, ProjectId, id))
  }

  /** No entry of list s has the given id. */
  predicate IdUnused(r: ResumeData, s: ListSection, id: int) {
    match s
    case EducationList => forall e :: e in r.education ==> e.id != id
    case ExperienceList => forall x :: x in r.experience ==> x.id != id
    case ProjectList => forall p :: p in r.projects ==> p.id != id
  }

  // ---------------------------------------------------------------------------
  // The store

  /** The single piece of state: the current resume, replaced by every update. */
  class ResumeStore {
    var resumeData: ResumeData

    constructor()
      ensures resumeData == InitialState
    {
      resumeData := InitialState;
    }

    method UpdatePersonal(f: PersonalField, v: string)
      modifies this
      ensures resumeData == WithPersonal(old(resumeData), f, v)
    {
      resumeData := resumeData.(personal := resumeData.personal.With(f, v));
    }

    method UpdateSection(v: SectionValue)
      modifies this
      ensures resumeData == WithSection(old(resumeData), v)
    {
      resumeData := WithSection(resumeData, v);
    }

    /** `id` is the caller's fresh id (the source takes the current time). */
    method AddItem(item: Item, id: int)
      modifies this
      ensures resumeData == WithItem(old(resumeData), item, id)
    {
      resumeData := WithItem(resumeData, item, id);
    }

    method RemoveItem(s: ListSection, id: int)
      modifies this
      ensures resumeData == WithoutItem(old(resumeData), s, id)
    {
      resumeData := WithoutItem(resumeData, s, id);
    }

    method LoadSampleData()
      modifies this
      ensures resumeData == SampleData
    {
      resumeData := SampleData;
    }
  }

  // ---------------------------------------------------------------------------
  // Properties of the updates

  /** The initial resume is empty in every part. */
  lemma InitialStateEmpty()
    ensures forall f :: InitialState.personal.Get(f) == ""
    ensures InitialState.summary == "" && InitialState.skills == SkillsText("")
    ensures InitialState.education == [] && InitialState.experience == [] && InitialState.projects == []
  {
  }

  /** Setting a personal field changes that field and nothing else. */
  lemma WithPersonalChangesOneField(r: ResumeData, f: PersonalField, v: string)
    ensures var r' := WithPersonal(r, f, v);
      && r'.personal.Get(f) == v
      && (forall g :: g != f ==> r'.personal.Get(g) == r.personal.Get(g))
      && (forall s :: s != PersonalPart ==> Part(r', s) == Part(r, s))
  {
  }

  /** Replacing a part changes that part and nothing else. */
  lemma WithSectionChangesOnePart(r: ResumeData, v: SectionValue)
    ensures var r' := WithSection(r, v);
      && Part(r', v.Part()) == v
      && forall s :: s != v.Part() ==> Part(r', s) == Part(r, s)
  {
  }

  /** Replacing a part with its current value leaves the resume as it was. */
  lemma WithSectionOwnValue(r: ResumeData, s: Section)
    ensures WithSection(r, Part(r, s)) == r
  {
  }

  /** Adding an entry appends it, with the fresh id, after the entries already there,
      and changes no other part. */
  lemma WithItemAppends(r: ResumeData, item: Item, id: int)
    ensures var r' := WithItem(r, item, id);
      match item
      case EducationItem(e) =>
        |r'.education| == |r.education| + 1 && r'.education[..|r.education|] == r.education
        && r'.education[|r.education|] == e.(id := id) && r'.education[|r.education|].id == id
        && forall s :: s != EducationPart ==> Part(r', s) == Part(r, s)
      case ExperienceItem(x) =>
        |r'.experience| == |r.experience| + 1 && r'.experience[..|r.experience|] == r.experience
        && r'.experience[|r.experience|] == x.(id := id) && r'.experience[|r.experience|].id == id
        && forall s :: s != ExperiencePart ==> Part(r', s) == Part(r, s)
      case ProjectItem(p) =>
        |r'.projects| == |r.projects| + 1 && r'.projects[..|r.projects|] == r.projects
        && r'.projects[|r.projects|] == p.(id := id) && r'.projects[|r.projects|].id == id
        && forall s :: s != ProjectsPart ==> Part(r', s) == Part(r, s)
  {
    match item
    case EducationItem(e) =>
      assert (r.education + [e.(id := id)])[..|r.education|] == r.education;
    case ExperienceItem(x) =>
      assert (r.experience + [x.(id := id)])[..|r.experience|] == r.experience;
    case ProjectItem(p) =>
      assert (r.projects + [p.(id := id)])[..|r.projects|] == r.projects;
  }

  /** Filtering distributes over concatenation, so the kept entries stay in order. */
  lemma {:induction false} WithoutAppend<T>(a: seq<T>, b: seq<T>, idOf: T -> int, id: int)
    ensures Without(a + b, idOf, id) == Without(a, idOf, id) + Without(b, idOf, id)
    decreases |b|
  {
    if b == [] {
      assert a + b == a;
    } else {
      var init, last := b[..|b| - 1], b[|b| - 1];
      var kept := if idOf(last) != id then [last] else [];
      assert (a + b)[..|a + b| - 1] == a + init && (a + b)[|a + b| - 1] == last;
      assert Without(b, idOf, id) == Without(init, idOf, id) + kept;
      WithoutAppend(a, init, idOf, id);
      assert Without(a + b, idOf, id) == Without(a, idOf, id) + Without(init, idOf, id) + kept;
    }
  }

  /** The filter keeps exactly the entries whose id differs from the removed one. */
  lemma {:induction false} WithoutKeeps<T>(xs: seq<T>, idOf: T -> int, id: int)
    ensures forall y :: y in Without(xs, idOf, id) ==> y in xs && idOf(y) != id
    ensures forall x :: x in xs && idOf(x) != id ==> x in Without(xs, idOf, id)
    decreases |xs|
  {
    if xs != [] {
      var init, last := xs[..|xs| - 1], xs[|xs| - 1];
      WithoutKeeps(init, idOf, id);
      assert xs == init + [last];
    }
  }

  /** Removing an id no entry has changes nothing. */
  lemma WithoutAbsent<T>(xs: seq<T>, idOf: T -> int, id: int)
    requires forall x :: x in xs ==> idOf(x) != id
    ensures Without(xs, idOf, id) == xs
  {
    WithoutAbsentAt(xs, idOf, id);
  }

  /** WithoutAbsent, with the absence stated position by position. */
  lemma {:induction false} WithoutAbsentAt<T>(xs: seq<T>, idOf: T -> int, id: int)
    requires forall i :: 0 <= i < |xs| ==> idOf(xs[i]) != id
    ensures Without(xs, idOf, id) == xs
    decreases |xs|
  {
    if xs != [] {
      var init, last := xs[..|xs| - 1], xs[|xs| - 1];
      assert forall i :: 0 <= i < |init| ==> init[i] == xs[i];
      WithoutAbsentAt(init, idOf, id);
      assert idOf(last) != id;
      assert Without(xs, idOf, id) == Without(init, idOf, id) + [last];
      assert init + [last] == xs;
    }
  }

  /** Removing twice is removing once. */
  lemma WithoutIdempotent<T>(xs: seq<T>, idOf: T -> int, id: int)
    ensures Without(Without(xs, idOf, id), idOf, id) == Without(xs, idOf, id)
  {
    WithoutKeeps(xs, idOf, id);
    WithoutAbsent(Without(xs, idOf, id), idOf, id);
  }

  /** Removing an id that no entry of the list has is a no-op. */
  lemma WithoutItemAbsent(r: ResumeData, s: ListSection, id: int)
    requires IdUnused(r, s, id)
    ensures WithoutItem(r, s, id) == r
  {
    match s
    case EducationList => WithoutAbsent(r.education, EducationId, id);
    case ExperienceList => WithoutAbsent(r.experience, ExperienceId, id);
    case ProjectList => WithoutAbsent(r.projects, ProjectId, id);
  }

  /** Removing keeps exactly the entries with other ids, in their order, and changes
      no other part. */
  lemma WithoutItemKeepsOthers(r: ResumeData, s: ListSection, id: int)
    ensures var r' := WithoutItem(r, s, id);
      && IdUnused(r', s, id)
      && WithoutItem(r', s, id) == r'
      && r'.personal == r.personal && r'.summary == r.summary && r'.skills == r.skills
      && (s != EducationList ==> r'.education == r.education)
      && (s != ExperienceList ==> r'.experience == r.experience)
      && (s != ProjectList ==> r'.projects == r.projects)
  {
    var r' := WithoutItem(r, s, id);
    match s {
      case EducationList => WithoutKeeps(r.education, EducationId, id);
      case ExperienceList => WithoutKeeps(r.experience, ExperienceId, id);
      case ProjectList => WithoutKeeps(r.projects, ProjectId, id);
    }
    WithoutItemAbsent(r', s, id);
  }

  lemma WithoutAfterFresh<T>(xs: seq<T>, x: T, idOf: T -> int, id: int)
    requires forall y :: y in xs ==> idOf(y) != id
    requires idOf(x) == id
    ensures Without(xs + [x], idOf, id) == xs
  {
    assert (xs + [x])[..|xs|] == xs;
    WithoutAbsent(xs, idOf, id);
  }

  /** Adding an entry under a fresh id and then removing that id restores the resume. */
  lemma RemoveUndoesAdd(r: ResumeData, item: Item, id: int)
    requires IdUnused(r, item.List(), id)
    ensures WithoutItem(WithItem(r, item, id), item.List(), id) == r
  {
    match item
    case EducationItem(e) => WithoutAfterFresh(r.education, e.(id := id), EducationId, id);
    case ExperienceItem(x) => WithoutAfterFresh(r.experience, x.(id := id), ExperienceId, id);
    case ProjectItem(p) => WithoutAfterFresh(r.projects, p.(id := id), ProjectId, id);
  }

  // ---------------------------------------------------------------------------
  // The two fixed resumes, scored

  /** The empty resume scores 0; its first three messages are the summary, projects
      and experience ones. */
  lemma InitialStateScore()
    ensures AtsScoring.AtsScore(InitialState) ==
      AtsScoring.ScoreResult(0, 80, [AtsScoring.StrongerSummary, AtsScoring.ProjectsMessage(0),
                                     AtsScoring.ExperienceMessage])
  {
    var r := InitialState;
    assert AtsScoring.CountWords(r.summary) == 0;
    assert AtsScoring.SkillItems("") == [] by {
      assert SplitOn("", ',') == [""];
      assert Trim("") == "" by { assert WsRunEnd("", 0) == 0; }
    }
    ScoreFromInputs(r, 0, 0, 0, 0, false, false, false);
    InitialTotals();
  }

  /** Every check fails on the empty resume's inputs. */
  lemma InitialTotals()
    ensures var cs := AtsScoring.Checks(0, 0, 0, 0, false, false, false);
      && AtsScoring.Earned(cs) == 0
      && AtsScoring.Take(AtsScoring.FailedMessages(cs), 3) ==
        [AtsScoring.StrongerSummary, AtsScoring.ProjectsMessage(0), AtsScoring.ExperienceMessage]
  {
    AtsScoring.EarnedOfChecks(0, 0, 0, 0, false, false, false);
    AtsScoring.FailedOfChecks(0, 0, 0, 0, false, false, false);
  }

  /** Printable ASCII other than the space: never white space. */
  predicate Visible(w: string) {
    w != [] && forall k :: 0 <= k < |w| ==> '!' <= w[k] <= '~'
  }

  lemma VisibleHasNoWs(w: string)
    requires Visible(w)
    ensures forall c :: c in w ==> !IsWs(c)
  {
  }

  lemma SummaryWordsVisible0()
    ensures forall i :: 0 <= i < 8 ==> Visible(SampleSummaryWords[i])
  {
  }

  lemma SummaryWordsVisible1()
    ensures forall i :: 8 <= i < 16 ==> Visible(SampleSummaryWords[i])
  {
  }

  lemma SummaryWordsVisible2()
    ensures forall i :: 16 <= i < 23 ==> Visible(SampleSummaryWords[i])
  {
  }

  lemma SummaryWordsVisible3()
    ensures forall i :: 23 <= i < 29 ==> Visible(SampleSummaryWords[i])
  {
  }

  lemma SkillNamesVisible()
    ensures forall i :: 0 <= i < |SampleSkillNames| ==> Visible(SampleSkillNames[i]) && ',' !in SampleSkillNames[i]
  {
  }

  /** The sample summary has 29 words. */
  lemma SampleSummaryWordCount()
    ensures AtsScoring.CountWords(SampleData.summary) == 29
  {
    SummaryWordsVisible0();
    SummaryWordsVisible1();
    SummaryWordsVisible2();
    SummaryWordsVisible3();
    forall w | w in SampleSummaryWords
      ensures w != [] && forall c :: c in w ==> !IsWs(c)
    {
      var i :| 0 <= i < |SampleSummaryWords| && SampleSummaryWords[i] == w;
      VisibleHasNoWs(w);
    }
    RunsOfJoinedWords(SampleSummaryWords);
  }

  /** The sample skills string names 8 skills. */
  lemma SampleSkillCount()
    ensures AtsScoring.TotalSkills(SampleData.skills) == 8
  {
    SkillNamesVisible();
    forall w | w in SampleSkillNames
      ensures w != [] && Trim(w) == w && ',' !in w
    {
      var i :| 0 <= i < |SampleSkillNames| && SampleSkillNames[i] == w;
      VisibleHasNoWs(w);
      TrimNoWs(w);
    }
    AtsScoring.SkillsTextCountsJoinedItems(SampleSkillNames);
  }

  /** "40%" in the first experience description is a measurable number. */
  lemma SampleHasImpact()
    ensures AtsScoring.HasNumbers(SampleExperience[0].description)
  {
    var d := SampleExperience[0].description;
    assert |SampleImpactPrefix| == 61;
    assert d[61] == '4' && d[62] == '0';
    assert AtsScoring.ImpactPatternAt(d, 61);
  }

  /** A measurable number in the first experience description passes the impact check. */
  lemma ImpactFromFirstEntry(r: ResumeData)
    requires r.experience != [] && AtsScoring.HasNumbers(r.experience[0].description)
    ensures AtsScoring.HasImpact(r)
  {
    assert AtsScoring.Bullets(r)[0] == r.experience[0].description;
  }

  /** The score and suggestions, from what the seven checks read. */
  lemma ScoreFromInputs(r: ResumeData, words: nat, projects: nat, experience: nat, skills: nat,
                        link: bool, impact: bool, education: bool)
    requires AtsScoring.CountWords(r.summary) == words && AtsScoring.TotalSkills(r.skills) == skills
    requires |r.projects| == projects && |r.experience| == experience
    requires AtsScoring.HasProfileLink(r.personal) == link && AtsScoring.HasImpact(r) == impact
    requires AtsScoring.HasCompleteEducation(r) == education
    ensures var cs := AtsScoring.Checks(words, projects, experience, skills, link, impact, education);
      AtsScoring.AtsScore(r) == AtsScoring.ScoreResult(AtsScoring.Earned(cs), 80, AtsScoring.Take(AtsScoring.FailedMessages(cs), 3))
  {
    AtsScoring.ScoreWithinMax(r);
  }

  /** The sample resume scores 55: it misses the summary length and the second
      project, and passes the other five checks. */
  lemma SampleDataScore()
    ensures AtsScoring.AtsScore(SampleData) ==
      AtsScoring.ScoreResult(55, 80, [AtsScoring.StrongerSummary, AtsScoring.ProjectsMessage(1)])
  {
    SampleCounts();
    SampleFlags();
    ScoreFromInputs(SampleData, 29, 1, 2, 8, true, true, true);
    SampleTotals();
  }

  /** The counts the checks read from the sample resume. */
  lemma SampleCounts()
    ensures AtsScoring.CountWords(SampleData.summary) == 29
    ensures |SampleData.projects| == 1 && |SampleData.experience| == 2
    ensures AtsScoring.TotalSkills(SampleData.skills) == 8
  {
    SampleSummaryWordCount();
    SampleSkillCount();
  }

  /** The sample resume has a profile link, a measurable number and a complete
      education entry. */
  lemma SampleFlags()
    ensures AtsScoring.HasProfileLink(SampleData.personal)
    ensures AtsScoring.HasImpact(SampleData)
    ensures AtsScoring.HasCompleteEducation(SampleData)
  {
    SampleHasImpact();
    ImpactFromFirstEntry(SampleData);
    assert SampleData.education[0] in SampleData.education;
  }

  /** Only the summary and projects checks fail on the sample's inputs. */
  lemma SampleTotals()
    ensures var cs := AtsScoring.Checks(29, 1, 2, 8, true, true, true);
      && AtsScoring.Earned(cs) == 55
      && AtsScoring.Take(AtsScoring.FailedMessages(cs), 3) == [AtsScoring.StrongerSummary, AtsScoring.ProjectsMessage(1)]
  {
    AtsScoring.EarnedOfChecks(29, 1, 2, 8, true, true, true);
    AtsScoring.FailedOfChecks(29, 1, 2, 8, true, true, true);
  }
}
