/**
 * The plain-text export of a resume: a name line, a contact line, then the sections
 * SUMMARY, EDUCATION, EXPERIENCE, PROJECTS, SKILLS and LINKS, each only when it has
 * content and each titled and underlined with forty dashes; and the one-line warning
 * shown when the resume looks incomplete.
 */
module ResumeExport {
  import opened Text
  import opened Wrappers
  import opened Resume
  import AtsScoring

  // ---------------------------------------------------------------------------
  // The lines, as functions of the resume

  /** `'-'.repeat(40)` */
  const Rule: string := Repeat('-', 40)

  /** `' — '` */
  const DashSep: string := " \U{2014} "

  const SectionTitles: seq<string> := ["SUMMARY", "EDUCATION", "EXPERIENCE", "PROJECTS", "SKILLS", "LINKS"]

  /** The non-empty values among xs, in order: a run of `if (x) parts.push(x)`. */
  function Present(xs: seq<string>): (ys: seq<string>)
    ensures |ys| <= |xs|
    ensures forall y :: y in ys ==> y != [] && y in xs
    ensures forall x :: x in xs && x != [] ==> x in ys
  {
    if xs == [] then []
    else (if xs[0] != [] then [xs[0]] else []) + Present(xs[1..])
  }

  lemma PresentOfThree(a: string, b: string, c: string)
    ensures Present([a, b, c]) == (if a != [] then [a] else []) + (if b != [] then [b] else []) + (if c != [] then [c] else [])
  {
    assert [a, b, c][1..] == [b, c];
    assert [b, c][1..] == [c];
    assert [c][1..] == [];
    assert Present([c]) == (if c != [] then [c] else []) + Present([]);
    assert Present([b, c]) == (if b != [] then [b] else []) + Present([c]);
  }

  function NameLines(p: Personal): seq<string> {
    if p.fullName != [] then [ToUpper(p.fullName), ""] else []
  }

  function ContactParts(p: Personal): seq<string> {
    Present([p.location, p.phone, p.email])
  }

  function ContactLines(p: Personal): seq<string> {
    var parts := ContactParts(p);
    if parts != [] then [JoinWith(parts, " | "), ""] else []
  }

  /** The lines before the first section. */
  function HeadLines(p: Personal): seq<string> {
    NameLines(p) + ContactLines(p)
  }

  function EducationLine(e: Education): string {
    JoinWith(Present([e.institution, e.degree, e.year]), DashSep)
  }

  function EducationBody(eds: seq<Education>): seq<string> {
    if eds == [] then [] else EducationBody(eds[..|eds| - 1]) + [EducationLine(eds[|eds| - 1])]
  }

  /** Role, then " at " and the company, then the duration in parentheses, each
      only when present. */
  function ExperienceHeader(e: Experience): string {
    var withRole := if e.role != [] then e.role else "";
    var withCompany := if e.company != [] then withRole + " at " + e.company else withRole;
    if e.duration != [] then withCompany + " (" + e.duration + ")" else withCompany
  }

  function ExperienceEntry(e: Experience): seq<string> {
    [ExperienceHeader(e)] + (if e.description != [] then ["  " + e.description] else []) + [""]
  }

  function ExperienceBody(xs: seq<Experience>): seq<string> {
    if xs == [] then [] else ExperienceBody(xs[..|xs| - 1]) + ExperienceEntry(xs[|xs| - 1])
  }

  /** The live URL, the GitHub URL, and the older single link only when there is no
      live URL. */
  function ProjectUrls(p: Project): seq<string> {
    (if p.liveUrl != [] then [p.liveUrl] else [])
      + (if p.githubUrl != [] then [p.githubUrl] else [])
      + (if p.link != [] && p.liveUrl == [] then [p.link] else [])
  }

  function ProjectHeader(p: Project): string {
    var urls := ProjectUrls(p);
    if urls != [] then p.name + DashSep + JoinWith(urls, " | ") else p.name
  }

  function ProjectEntry(p: Project): seq<string> {
    [ProjectHeader(p)]
      + (if p.description != [] then ["  " + p.description] else [])
      + (if p.techStack != [] then ["  Tech: " + JoinWith(p.techStack, ", ")] else [])
      + [""]
  }

  function ProjectBody(ps: seq<Project>): seq<string> {
    if ps == [] then [] else ProjectBody(ps[..|ps| - 1]) + ProjectEntry(ps[|ps| - 1])
  }

  /** A labelled line for a non-empty category. */
  function Labelled(heading: string, items: seq<string>): seq<string> {
    if items != [] then [heading + JoinWith(items, ", ")] else []
  }

  function SkillLines(skills: Skills): seq<string> {
    match skills
    case SkillsText(text) =>
      var list := AtsScoring.SkillItems(text);
      if list != [] then [JoinWith(list, ", ")] else []
    case SkillsByCategory(technical, soft, tools) =>
      Labelled("Technical: ", technical) + Labelled("Soft Skills: ", soft) + Labelled("Tools: ", tools)
    case NoSkills => []
  }

  function LinkParts(p: Personal): seq<string> {
    (if p.github != [] then ["GitHub: " + p.github] else [])
      + (if p.linkedin != [] then ["LinkedIn: " + p.linkedin] else [])
      + (if p.portfolio != [] then ["Portfolio: " + p.portfolio] else [])
  }

  /** A titled section: the title, the rule, then its lines. */
  datatype Block = Block(title: string, body: seq<string>)

  function Optional(present: bool, b: Block): seq<Block> {
    if present then [b] else []
  }

  /** Which of the six sections have content, in export order. */
  function Flags(r: ResumeData): seq<bool> {
    [ !IsBlank(r.summary), r.education != [], r.experience != [], r.projects != [],
      SkillLines(r.skills) != [], LinkParts(r.personal) != [] ]
  }

  /** The lines under each of the six section titles. */
  function Bodies(r: ResumeData): seq<seq<string>> {
    [ [Trim(r.summary), ""], EducationBody(r.education) + [""], ExperienceBody(r.experience),
      ProjectBody(r.projects), SkillLines(r.skills) + [""], LinkParts(r.personal) + [""] ]
  }

  /** The first n sections, keeping those whose flag is set. */
  function Choose(flags: seq<bool>, bodies: seq<seq<string>>, n: nat): seq<Block>
    requires |flags| == |bodies| == |SectionTitles| && n <= |SectionTitles|
  {
    if n == 0 then []
    else Choose(flags, bodies, n - 1) + Optional(flags[n - 1], Block(SectionTitles[n - 1], bodies[n - 1]))
  }

  /** The sections that have content, in export order. */
  function Sections(r: ResumeData): seq<Block> {
    Choose(Flags(r), Bodies(r), |SectionTitles|)
  }

  function Render(bs: seq<Block>): seq<string> {
    if bs == [] then []
    else Render(bs[..|bs| - 1]) + [bs[|bs| - 1].title, Rule] + bs[|bs| - 1].body
  }

  function PlainLines(r: ResumeData): seq<string> {
    HeadLines(r.personal) + Render(Sections(r))
  }

  /** `lines.join('\n').trim()` */
  function PlainText(r: ResumeData): string {
    Trim(JoinWith(PlainLines(r), "\n"))
  }

  // ---------------------------------------------------------------------------
  // The export as the source computes it

  lemma {:induction false} RenderAppend(a: seq<Block>, b: seq<Block>)
    ensures Render(a + b) == Render(a) + Render(b)
    decreases |b|
  {
    if b == [] {
      assert a + b == a;
    } else {
      var init := b[..|b| - 1];
      assert (a + b)[..|a + b| - 1] == a + init;
      RenderAppend(a, init);
    }
  }

  lemma RenderOne(b: Block)
    ensures Render([b]) == [b.title, Rule] + b.body
  {
    assert [b][..0] == [];
  }

  /** Appends section k when it has content: its title, the rule, then its lines. */
  method AddSection(lines: seq<string>, ghost head: seq<string>, ghost flags: seq<bool>,
                    ghost bodies: seq<seq<string>>, ghost k: nat, present: bool, title: string, body: seq<string>)
      returns (lines': seq<string>)
    requires |flags| == |bodies| == |SectionTitles| && k < |SectionTitles|
    requires present == flags[k] && title == SectionTitles[k] && body == bodies[k]
    requires lines == head + Render(Choose(flags, bodies, k))
    ensures lines' == head + Render(Choose(flags, bodies, k + 1))
  {
    lines' := lines;
    if present {
      lines' := lines' + [title, Rule] + body;
      RenderOne(Block(title, body));
    }
    RenderAppend(Choose(flags, bodies, k), Optional(present, Block(title, body)));
  }

  /** The name line and the contact line, each followed by a blank line. */
  method HeadOf(personal: Personal) returns (lines: seq<string>)
    ensures lines == HeadLines(personal)
  {
    lines := [];
    if personal.fullName != [] {
      lines := lines + [ToUpper(personal.fullName), ""];
    }
    var contactParts: seq<string> := [];
    if personal.location != [] { contactParts := contactParts + [personal.location]; }
    if personal.phone != [] { contactParts := contactParts + [personal.phone]; }
    if personal.email != [] { contactParts := contactParts + [personal.email]; }
    PresentOfThree(personal.location, personal.phone, personal.email);
    if |contactParts| > 0 {
      lines := lines + [JoinWith(contactParts, " | "), ""];
    }
    assert contactParts == ContactParts(personal);
  }

  /** The education lines: one joined line per entry. */
  method EducationLines(eds: seq<Education>) returns (out: seq<string>)
    ensures out == EducationBody(eds)
  {
    out := [];
    for i := 0 to |eds|
      invariant out == EducationBody(eds[..i])
    {
      var ed := eds[i];
      var parts: seq<string> := [];
      if ed.institution != [] { parts := parts + [ed.institution]; }
      if ed.degree != [] { parts := parts + [ed.degree]; }
      if ed.year != [] { parts := parts + [ed.year]; }
      PresentOfThree(ed.institution, ed.degree, ed.year);
      assert parts == Present([ed.institution, ed.degree, ed.year]);
      out := out + [JoinWith(parts, DashSep)];
      assert eds[..i + 1][..i] == eds[..i];
    }
    assert eds[..|eds|] == eds;
  }

  /** The lines of one experience entry: a header, the indented description, then a
      blank line. */
  method ExperienceEntryLines(exp: Experience) returns (entry: seq<string>)
    ensures entry == ExperienceEntry(exp)
  {
    var header := "";
    if exp.role != [] { header := header + exp.role; }
    if exp.company != [] { header := header + " at " + exp.company; }
    if exp.duration != [] { header := header + " (" + exp.duration + ")"; }
    assert header == ExperienceHeader(exp);
    entry := [header];
    if exp.description != [] {
      entry := entry + ["  " + exp.description];
    }
    entry := entry + [""];
  }

  method ExperienceLines(xs: seq<Experience>) returns (out: seq<string>)
    ensures out == ExperienceBody(xs)
  {
    out := [];
    for i := 0 to |xs|
      invariant out == ExperienceBody(xs[..i])
    {
      var entry := ExperienceEntryLines(xs[i]);
      out := out + entry;
      assert xs[..i + 1][..i] == xs[..i];
    }
    assert xs[..|xs|] == xs;
  }

  /** The lines of one project: a header with its links, the indented description, the
      tech stack, then a blank line. */
  method ProjectEntryLines(proj: Project) returns (entry: seq<string>)
    ensures entry == ProjectEntry(proj)
  {
    var header := proj.name;
    var urls: seq<string> := [];
    if proj.liveUrl != [] { urls := urls + [proj.liveUrl]; }
    if proj.githubUrl != [] { urls := urls + [proj.githubUrl]; }
    if proj.link != [] && proj.liveUrl == [] { urls := urls + [proj.link]; }
    assert urls == ProjectUrls(proj);
    if |urls| > 0 { header := header + DashSep + JoinWith(urls, " | "); }
    entry := [header];
    if proj.description != [] {
      entry := entry + ["  " + proj.description];
    }
    if |proj.techStack| > 0 {
      entry := entry + ["  Tech: " + JoinWith(proj.techStack, ", ")];
    }
    entry := entry + [""];
  }

  method ProjectLines(ps: seq<Project>) returns (out: seq<string>)
    ensures out == ProjectBody(ps)
  {
    out := [];
    for i := 0 to |ps|
      invariant out == ProjectBody(ps[..i])
    {
      var entry := ProjectEntryLines(ps[i]);
      out := out + entry;
      assert ps[..i + 1][..i] == ps[..i];
    }
    assert ps[..|ps|] == ps;
  }

  /** The skill lines: the cleaned comma list for text, one labelled line per
      non-empty category otherwise. */
  method SkillLinesOf(skills: Skills) returns (skillLines: seq<string>)
    ensures skillLines == SkillLines(skills)
  {
    skillLines := [];
    match skills {
      case SkillsText(text) =>
        var list := AtsScoring.SkillItems(text);
        if |list| > 0 { skillLines := skillLines + [JoinWith(list, ", ")]; }
      case SkillsByCategory(technical, soft, tools) =>
        if |technical| > 0 { skillLines := skillLines + ["Technical: " + JoinWith(technical, ", ")]; }
        if |soft| > 0 { skillLines := skillLines + ["Soft Skills: " + JoinWith(soft, ", ")]; }
        if |tools| > 0 { skillLines := skillLines + ["Tools: " + JoinWith(tools, ", ")]; }
      case NoSkills =>
    }
  }

  /** The labelled profile links, GitHub, LinkedIn then portfolio. */
  method LinkPartsOf(personal: Personal) returns (linkParts: seq<string>)
    ensures linkParts == LinkParts(personal)
  {
    linkParts := [];
    if personal.github != [] { linkParts := linkParts + ["GitHub: " + personal.github]; }
    if personal.linkedin != [] { linkParts := linkParts + ["LinkedIn: " + personal.linkedin]; }
    if personal.portfolio != [] { linkParts := linkParts + ["Portfolio: " + personal.portfolio]; }
  }

  /** SUMMARY: the trimmed summary, when it is not blank. */
  method SummarySection(r: ResumeData, ghost head: seq<string>, lines: seq<string>) returns (lines': seq<string>)
    requires lines == head + Render(Choose(Flags(r), Bodies(r), 0))
    ensures lines' == head + Render(Choose(Flags(r), Bodies(r), 1))
  {
    var summaryPresent := !IsBlank(r.summary);
    lines' := AddSection(lines, head, Flags(r), Bodies(r), 0, summaryPresent, "SUMMARY", [Trim(r.summary), ""]);
  }

  /** EDUCATION: one line per entry, when there is an entry. */
  method EducationSection(r: ResumeData, ghost head: seq<string>, lines: seq<string>) returns (lines': seq<string>)
    requires lines == head + Render(Choose(Flags(r), Bodies(r), 1))
    ensures lines' == head + Render(Choose(Flags(r), Bodies(r), 2))
  {
    var educationLines := EducationLines(r.education);
    lines' := AddSection(lines, head, Flags(r), Bodies(r), 1, |r.education| > 0, "EDUCATION", educationLines + [""]);
  }

  /** EXPERIENCE: the entries, when there is one. */
  method ExperienceSection(r: ResumeData, ghost head: seq<string>, lines: seq<string>) returns (lines': seq<string>)
    requires lines == head + Render(Choose(Flags(r), Bodies(r), 2))
    ensures lines' == head + Render(Choose(Flags(r), Bodies(r), 3))
  {
    var experienceLines := ExperienceLines(r.experience);
    lines' := AddSection(lines, head, Flags(r), Bodies(r), 2, |r.experience| > 0, "EXPERIENCE", experienceLines);
  }

  /** PROJECTS: the entries, when there is one. */
  method ProjectsSection(r: ResumeData, ghost head: seq<string>, lines: seq<string>) returns (lines': seq<string>)
    requires lines == head + Render(Choose(Flags(r), Bodies(r), 3))
    ensures lines' == head + Render(Choose(Flags(r), Bodies(r), 4))
  {
    var projectLines := ProjectLines(r.projects);
    lines' := AddSection(lines, head, Flags(r), Bodies(r), 3, |r.projects| > 0, "PROJECTS", projectLines);
  }

  /** SKILLS: the skill lines, when there is one. */
  method SkillsSection(r: ResumeData, ghost head: seq<string>, lines: seq<string>) returns (lines': seq<string>)
    requires lines == head + Render(Choose(Flags(r), Bodies(r), 4))
    ensures lines' == head + Render(Choose(Flags(r), Bodies(r), 5))
  {
    var skillLines := SkillLinesOf(r.skills);
    lines' := AddSection(lines, head, Flags(r), Bodies(r), 4, |skillLines| > 0, "SKILLS", skillLines + [""]);
  }

  /** LINKS: the profile links, when there is one. */
  method LinksSection(r: ResumeData, ghost head: seq<string>, lines: seq<string>) returns (lines': seq<string>)
    requires lines == head + Render(Choose(Flags(r), Bodies(r), 5))
    ensures lines' == head + Render(Choose(Flags(r), Bodies(r), 6))
  {
    var linkParts := LinkPartsOf(r.personal);
    lines' := AddSection(lines, head, Flags(r), Bodies(r), 5, |linkParts| > 0, "LINKS", linkParts + [""]);
  }

  /** `resumeToPlainText`: the lines pushed section by section, joined with newlines
      and trimmed. */
  method ResumeToPlainText(r: ResumeData) returns (text: string)
    ensures text == PlainText(r)
  {
    var lines := HeadOf(r.personal);
    ghost var head := lines;
    lines := SummarySection(r, head, lines);
    lines := EducationSection(r, head, lines);
    lines := ExperienceSection(r, head, lines);
    lines := ProjectsSection(r, head, lines);
    lines := SkillsSection(r, head, lines);
    lines := LinksSection(r, head, lines);
    text := Trim(JoinWith(lines, "\n"));
  }

  // ---------------------------------------------------------------------------
  // Properties of the export

  function Titles(bs: seq<Block>): (ts: seq<string>)
    ensures |ts| == |bs| && forall k :: 0 <= k < |bs| ==> ts[k] == bs[k].title
  {
    seq(|bs|, k requires 0 <= k < |bs| => bs[k].title)
  }

  /** The position of a section title in the export order. */
  function Rank(t: string): nat {
    if t == "SUMMARY" then 0 else if t == "EDUCATION" then 1 else if t == "EXPERIENCE" then 2
    else if t == "PROJECTS" then 3 else if t == "SKILLS" then 4 else 5
  }

  lemma RankOfTitles()
    ensures forall k :: 0 <= k < |SectionTitles| ==> Rank(SectionTitles[k]) == k
  {
  }

  /** The positions, among the first n titles, whose flag is set. */
  function Chosen(flags: seq<bool>, n: nat): (c: seq<nat>)
    requires n <= |flags|
    ensures forall k :: 0 <= k < |c| ==> c[k] < n
  {
    if n == 0 then [] else Chosen(flags, n - 1) + (if flags[n - 1] then [n - 1] else [])
  }

  lemma {:induction false} ChosenShape(flags: seq<bool>, n: nat)
    requires n <= |flags|
    ensures var c := Chosen(flags, n);
      && (forall i, j :: 0 <= i < j < |c| ==> c[i] < c[j])
      && (forall k :: 0 <= k < n ==> (k in c <==> flags[k]))
  {
    if n > 0 {
      ChosenShape(flags, n - 1);
    }
  }

  lemma {:induction false} NothingChosen(flags: seq<bool>, n: nat)
    requires n <= |flags| && forall k :: 0 <= k < n ==> !flags[k]
    ensures Chosen(flags, n) == []
  {
    if n > 0 {
      NothingChosen(flags, n - 1);
    }
  }

  /** The chosen sections are the titled bodies at the chosen positions. */
  lemma {:induction false} ChooseIsChosen(flags: seq<bool>, bodies: seq<seq<string>>, n: nat)
    requires |flags| == |bodies| == |SectionTitles| && n <= |SectionTitles|
    ensures var bs, c := Choose(flags, bodies, n), Chosen(flags, n);
      && |bs| == |c|
      && forall k :: 0 <= k < |bs| ==> bs[k] == Block(SectionTitles[c[k]], bodies[c[k]])
  {
    if n > 0 {
      ChooseIsChosen(flags, bodies, n - 1);
    }
  }

  /** Title k is chosen exactly when its flag is set. */
  lemma ChoosePresence(flags: seq<bool>, bodies: seq<seq<string>>, k: nat)
    requires |flags| == |bodies| == |SectionTitles| && k < |SectionTitles|
    ensures SectionTitles[k] in Titles(Choose(flags, bodies, |SectionTitles|)) <==> flags[k]
  {
    var n := |SectionTitles|;
    ChosenShape(flags, n);
    ChooseIsChosen(flags, bodies, n);
    RankOfTitles();
    var bs, c := Choose(flags, bodies, n), Chosen(flags, n);
    var ts := Titles(bs);
    if flags[k] {
      var i :| 0 <= i < |c| && c[i] == k;
      assert ts[i] == SectionTitles[k];
    }
    if SectionTitles[k] in ts {
      var i :| 0 <= i < |ts| && ts[i] == SectionTitles[k];
      assert Rank(SectionTitles[c[i]]) == c[i];
      assert c[i] == k;
    }
  }

  /** Sections come in the order SUMMARY, EDUCATION, EXPERIENCE, PROJECTS, SKILLS,
      LINKS, each at most once. */
  lemma SectionsInOrder(r: ResumeData)
    ensures var ts := Titles(Sections(r));
      && (forall k :: 0 <= k < |ts| ==> ts[k] in SectionTitles)
      && (forall i, j :: 0 <= i < j < |ts| ==> Rank(ts[i]) < Rank(ts[j]))
  {
    ChosenShape(Flags(r), |SectionTitles|);
    ChooseIsChosen(Flags(r), Bodies(r), |SectionTitles|);
    RankOfTitles();
  }

  /** Each section appears exactly when it has content. */
  lemma SectionPresence(r: ResumeData)
    ensures var ts := Titles(Sections(r));
      && ("SUMMARY" in ts <==> !IsBlank(r.summary))
      && ("EDUCATION" in ts <==> r.education != [])
      && ("EXPERIENCE" in ts <==> r.experience != [])
      && ("PROJECTS" in ts <==> r.projects != [])
      && ("SKILLS" in ts <==> SkillLines(r.skills) != [])
      && ("LINKS" in ts <==> r.personal.github != [] || r.personal.linkedin != [] || r.personal.portfolio != [])
  {
    var flags := Flags(r);
    forall k | 0 <= k < 6
      ensures SectionTitles[k] in Titles(Sections(r)) <==> flags[k]
    {
      ChoosePresence(flags, Bodies(r), k);
    }
    assert SectionTitles[0] == "SUMMARY" && SectionTitles[1] == "EDUCATION" && SectionTitles[2] == "EXPERIENCE";
    assert SectionTitles[3] == "PROJECTS" && SectionTitles[4] == "SKILLS" && SectionTitles[5] == "LINKS";
    assert flags[5] <==> r.personal.github != [] || r.personal.linkedin != [] || r.personal.portfolio != [];
  }

  /** Every rendered section opens with its title and a rule of exactly forty dashes. */
  lemma {:induction false} RenderedTitlesAndRules(bs: seq<Block>, k: nat)
    requires k < |bs|
    ensures var at := |Render(bs[..k])|;
      && at + 1 < |Render(bs)|
      && Render(bs)[at] == bs[k].title
      && Render(bs)[at + 1] == Rule && |Rule| == 40 && forall c :: c in Rule ==> c == '-'
  {
    assert bs == bs[..k] + bs[k..];
    RenderAppend(bs[..k], bs[k..]);
    assert bs[k..] == [bs[k]] + bs[k + 1..];
    RenderAppend([bs[k]], bs[k + 1..]);
    RenderOne(bs[k]);
  }

  /** The name line is the upper-cased full name, and only a non-empty name gives one. */
  lemma NameLine(r: ResumeData)
    ensures r.personal.fullName != [] ==>
      PlainLines(r)[0] == ToUpper(r.personal.fullName) && PlainLines(r)[1] == ""
    ensures r.personal.fullName == [] ==>
      PlainLines(r) == ContactLines(r.personal) + Render(Sections(r))
  {
  }

  /** The contact line joins location, phone and email in that order; it is omitted
      when all three are empty. */
  lemma ContactLine(p: Personal)
    ensures |ContactParts(p)| <= 3
    ensures ContactLines(p) == [] <==> p.location == [] && p.phone == [] && p.email == []
    ensures p.location != [] && p.phone != [] && p.email != [] ==>
      ContactLines(p)[0] == p.location + " | " + (p.phone + " | " + p.email)
  {
    PresentOfThree(p.location, p.phone, p.email);
    if p.location != [] && p.phone != [] && p.email != [] {
      assert ContactParts(p) == [p.location, p.phone, p.email];
      assert [p.location, p.phone, p.email][1..] == [p.phone, p.email];
      assert [p.phone, p.email][1..] == [p.email];
      assert JoinWith([p.phone, p.email], " | ") == p.phone + " | " + p.email;
    }
  }

  /** A header is empty only when role, company and duration are all empty; with all
      three it reads "role at company (duration)". */
  lemma ExperienceHeaderShape(e: Experience)
    ensures ExperienceHeader(e) == [] <==> e.role == [] && e.company == [] && e.duration == []
    ensures e.role != [] && e.company != [] && e.duration != [] ==>
      ExperienceHeader(e) == e.role + " at " + e.company + " (" + e.duration + ")"
  {
  }

  /** One line per education entry, in order. */
  lemma {:induction false} EducationBodyLines(eds: seq<Education>)
    ensures |EducationBody(eds)| == |eds|
    ensures forall k :: 0 <= k < |eds| ==> EducationBody(eds)[k] == EducationLine(eds[k])
    decreases |eds|
  {
    if eds != [] {
      var init := eds[..|eds| - 1];
      EducationBodyLines(init);
      assert forall k :: 0 <= k < |init| ==> init[k] == eds[k];
    }
  }

  /** An education line is empty only when institution, degree and year all are; with
      all three it reads "institution — degree — year". */
  lemma EducationLineShape(e: Education)
    ensures EducationLine(e) == [] <==> e.institution == [] && e.degree == [] && e.year == []
    ensures e.institution != [] && e.degree != [] && e.year != [] ==>
      EducationLine(e) == e.institution + DashSep + (e.degree + DashSep + e.year)
  {
    PresentOfThree(e.institution, e.degree, e.year);
    var parts := Present([e.institution, e.degree, e.year]);
    if parts != [] {
      assert parts[0] != [];
      assert JoinWith(parts, DashSep)[..|parts[0]|] == parts[0];
    }
    if e.institution != [] && e.degree != [] && e.year != [] {
      assert parts == [e.institution, e.degree, e.year];
      assert parts[1..] == [e.degree, e.year];
      assert [e.degree, e.year][1..] == [e.year];
      assert JoinWith([e.degree, e.year], DashSep) == e.degree + DashSep + e.year;
    }
  }

  /** Each of role, " at company" and " (duration)" is in the header exactly when its
      value is present, in that order. */
  lemma ExperienceHeaderParts(e: Experience)
    ensures ExperienceHeader(e) ==
      e.role + (if e.company != [] then " at " + e.company else "")
        + (if e.duration != [] then " (" + e.duration + ")" else "")
    ensures e.role != [] && e.company == [] && e.duration != [] ==>
      ExperienceHeader(e) == e.role + " (" + e.duration + ")"
    ensures e.role == [] && e.company != [] && e.duration == [] ==>
      ExperienceHeader(e) == " at " + e.company
  {
  }

  /** An experience entry is its header, the indented description when there is one,
      and a blank line. */
  lemma ExperienceEntryShape(e: Experience)
    ensures var en := ExperienceEntry(e);
      && |en| == (if e.description != [] then 3 else 2)
      && en[0] == ExperienceHeader(e) && en[|en| - 1] == ""
      && (e.description != [] ==> en[1] == "  " + e.description)
  {
  }

  /** A project entry is its header, then the indented description exactly when there
      is one, then the `Tech:` line exactly when the stack is not empty, then a blank
      line. */
  lemma ProjectEntryShape(p: Project)
    ensures var en := ProjectEntry(p);
      && |en| == 2 + (if p.description != [] then 1 else 0) + (if p.techStack != [] then 1 else 0)
      && en[0] == ProjectHeader(p) && en[|en| - 1] == ""
      && (p.description != [] ==> en[1] == "  " + p.description)
      && (p.techStack != [] ==> en[|en| - 2] == "  Tech: " + JoinWith(p.techStack, ", "))
  {
  }

  /** The header is the name, then " — " and the links joined by " | " when there are
      any. */
  lemma ProjectHeaderShape(p: Project)
    ensures ProjectUrls(p) == [] ==> ProjectHeader(p) == p.name
    ensures ProjectUrls(p) != [] ==> ProjectHeader(p)[..|p.name|] == p.name && |ProjectHeader(p)| > |p.name|
  {
  }

  lemma Regroup<T>(x: seq<T>, y: seq<T>, z: seq<T>, xy: seq<T>, yz: seq<T>)
    requires xy == x + y && yz == y + z
    ensures xy + z == x + yz
  {
  }

  /** The experience block of a list is the blocks of its parts, one after the other. */
  lemma {:induction false} ExperienceBodyAppend(a: seq<Experience>, b: seq<Experience>)
    ensures ExperienceBody(a + b) == ExperienceBody(a) + ExperienceBody(b)
    decreases |b|
  {
    if b == [] {
      assert a + b == a;
    } else {
      var init, last := b[..|b| - 1], b[|b| - 1];
      assert (a + b)[..|a + b| - 1] == a + init && (a + b)[|a + b| - 1] == last;
      assert ExperienceBody(a + b) == ExperienceBody(a + init) + ExperienceEntry(last);
      assert ExperienceBody(b) == ExperienceBody(init) + ExperienceEntry(last);
      ExperienceBodyAppend(a, init);
      Regroup(ExperienceBody(a), ExperienceBody(init), ExperienceEntry(last), ExperienceBody(a + init), ExperienceBody(b));
    }
  }

  /** The projects block of a list is the blocks of its parts, one after the other. */
  lemma {:induction false} ProjectBodyAppend(a: seq<Project>, b: seq<Project>)
    ensures ProjectBody(a + b) == ProjectBody(a) + ProjectBody(b)
    decreases |b|
  {
    if b == [] {
      assert a + b == a;
    } else {
      var init, last := b[..|b| - 1], b[|b| - 1];
      assert (a + b)[..|a + b| - 1] == a + init && (a + b)[|a + b| - 1] == last;
      assert ProjectBody(a + b) == ProjectBody(a + init) + ProjectEntry(last);
      assert ProjectBody(b) == ProjectBody(init) + ProjectEntry(last);
      ProjectBodyAppend(a, init);
      Regroup(ProjectBody(a), ProjectBody(init), ProjectEntry(last), ProjectBody(a + init), ProjectBody(b));
    }
  }

  /** A project lists at most two links; the older link shows only without a live URL,
      and no link at all shows only when all three are empty. */
  lemma ProjectUrlsShape(p: Project)
    ensures |ProjectUrls(p)| <= 2
    ensures ProjectUrls(p) == [] <==> p.liveUrl == [] && p.githubUrl == [] && p.link == []
    ensures p.liveUrl != [] ==> ProjectUrls(p) == [p.liveUrl] + (if p.githubUrl != [] then [p.githubUrl] else [])
    ensures p.liveUrl == [] && p.githubUrl == [] && p.link != [] ==> ProjectUrls(p) == [p.link]
  {
  }

  /** Exporting skills written as the exported line gives the same line again. */
  lemma SkillLineStable(text: string)
    ensures var ls := SkillLines(SkillsText(text));
      ls != [] ==> SkillLines(SkillsText(ls[0])) == ls
  {
    var list := AtsScoring.SkillItems(text);
    AtsScoring.SkillsTextCountsJoinedItems(list);
  }

  /** The categorised form gives one line per non-empty category, labelled in the
      order Technical, Soft Skills, Tools. */
  lemma CategoryLines(technical: seq<string>, soft: seq<string>, tools: seq<string>)
    ensures var ls := SkillLines(SkillsByCategory(technical, soft, tools));
      && |ls| == (if technical != [] then 1 else 0) + (if soft != [] then 1 else 0) + (if tools != [] then 1 else 0)
      && (technical != [] ==> StartsWith(ls[0], "Technical: "))
      && (tools != [] ==> StartsWith(ls[|ls| - 1], "Tools: "))
  {
    var ls := SkillLines(SkillsByCategory(technical, soft, tools));
    if technical != [] {
      assert ls[0] == "Technical: " + JoinWith(technical, ", ");
      assert ls[0][..11] == "Technical: ";
    }
    if tools != [] {
      assert ls[|ls| - 1] == "Tools: " + JoinWith(tools, ", ");
      assert ls[|ls| - 1][..7] == "Tools: ";
    }
  }

  /** A resume with nothing filled in exports as the empty text. */
  lemma EmptyResumeExportsNothing(r: ResumeData)
    requires r.personal == Personal("", "", "", "", "", "", "")
    requires IsBlank(r.summary) && r.education == [] && r.experience == [] && r.projects == []
    requires SkillLines(r.skills) == []
    ensures PlainText(r) == ""
  {
    NothingChosen(Flags(r), |SectionTitles|);
    ChooseIsChosen(Flags(r), Bodies(r), |SectionTitles|);
    assert Sections(r) == [];
    assert ContactParts(r.personal) == [];
    assert PlainLines(r) == [];
    assert Trim("") == "" by { assert WsRunEnd("", 0) == 0; }
  }

  // ---------------------------------------------------------------------------
  // Export warnings

  const IncompleteWarning := "Your resume may look incomplete."

  /** `getExportWarnings`: a warning when the name is blank or there is neither
      experience nor a project, `null` otherwise. */
  method GetExportWarnings(r: ResumeData) returns (warning: Option<string>)
    ensures warning == None <==> !IsBlank(r.personal.fullName) && (r.experience != [] || r.projects != [])
    ensures warning != None ==> warning.value == IncompleteWarning
  {
    var warnings: seq<string> := [];
    if r.personal.fullName == [] || IsBlank(r.personal.fullName) {
      warnings := warnings + ["Name is missing."];
    }
    if |r.experience| == 0 && |r.projects| == 0 {
      warnings := warnings + ["No projects or experience added."];
    }
    if |warnings| > 0 {
      return Some(IncompleteWarning);
    }
    return None;
  }
}
