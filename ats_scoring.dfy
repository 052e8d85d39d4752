/**
 * The deterministic ATS readiness score: seven checks of a resume, each worth fixed
 * points when it passes and recording one improvement message when it fails; the
 * score is the sum of the points earned (at most 80) and only the first three
 * recorded messages are returned.
 */
module AtsScoring {
  import opened Text
  import opened Resume

  // ---------------------------------------------------------------------------
  // Helpers

  /** `countWords`: 0 for blank text, otherwise the number of pieces of the trimmed
      text split on runs of white space. */
  function CountWords(text: string): (n: nat)
    ensures n == WordRuns(text)
    ensures n == 0 <==> IsBlank(text)
  {
    if IsBlank(text) then
      BlankHasNoRuns(text);
      0
    else
      SplitTrimmedCountsRuns(text);
      |SplitWs(Trim(text))|
  }

  /** At least `n` digits start at position i. */
  predicate DigitsAt(s: string, i: nat, n: nat) {
    i + n <= |s| && forall k :: i <= k < i + n ==> IsDigit(s[k])
  }

  /** `\d+c` matches at position i: one or more digits, then the character c. */
  predicate DigitsThen(s: string, i: nat, c: char) {
    exists j :: i < j < |s| && s[j] == c && forall k :: i <= k < j ==> IsDigit(s[k])
  }

  /** One alternative of `/\d+%|\d+x|\d+k|\$\d+|\d{2,}/` matches at position i. */
  predicate ImpactPatternAt(s: string, i: nat)
    requires i < |s|
  {
    || DigitsThen(s, i, '%')
    || DigitsThen(s, i, 'x')
    || DigitsThen(s, i, 'k')
    || (s[i] == '$' && DigitsAt(s, i + 1, 1))
    || DigitsAt(s, i, 2)
  }

  /** `hasNumbers`: the pattern `/\d+%|\d+x|\d+k|\$\d+|\d{2,}/` occurs somewhere in the text. */
  predicate HasNumbers(text: string) {
    exists i :: 0 <= i < |text| && ImpactPatternAt(text, i)
  }

  /** Two adjacent characters that make the pattern occur. */
  predicate ImpactPair(a: char, b: char) {
    || (IsDigit(a) && (b == '%' || b == 'x' || b == 'k'))
    || (a == '$' && IsDigit(b))
    || (IsDigit(a) && IsDigit(b))
  }

  /** The pattern occurs exactly when some digit is directly followed by `%`, `x`, `k`
      or a digit, or some `$` is directly followed by a digit. */
  lemma HasNumbersIff(text: string)
    ensures HasNumbers(text) <==> exists i :: 0 <= i < |text| - 1 && ImpactPair(text[i], text[i + 1])
  {
    if HasNumbers(text) {
      var i :| 0 <= i < |text| && ImpactPatternAt(text, i);
      if c :| c in "%xk" && DigitsThen(text, i, c) {
        var j :| i < j < |text| && text[j] == c && forall k :: i <= k < j ==> IsDigit(text[k]);
        assert ImpactPair(text[j - 1], text[j]);
      } else {
        assert ImpactPair(text[i], text[i + 1]);
      }
    }
    if i :| 0 <= i < |text| - 1 && ImpactPair(text[i], text[i + 1]) {
      assert ImpactPatternAt(text, i);
    }
  }

  /** The comma-separated skill names: `split(',')`, trimmed, empty ones dropped. */
  function SkillItems(text: string): (items: seq<string>)
    ensures forall p :: p in items ==> p != [] && Trim(p) == p && ',' !in p
  {
    var parts := SplitOn(text, ',');
    var items := TrimmedNonEmpty(parts);
    assert forall p :: p in items ==> ',' !in p by {
      TrimmedKeepsChar(parts, ',');
    }
    items
  }

  lemma {:induction false} TrimmedKeepsChar(parts: seq<string>, c: char)
    requires forall p :: p in parts ==> c !in p
    ensures forall p :: p in TrimmedNonEmpty(parts) ==> c !in p
  {
    if parts != [] {
      var t := Trim(parts[0]);
      assert parts[0] in parts;
      assert c !in t;
      assert forall p :: p in parts[1..] ==> p in parts;
      TrimmedKeepsChar(parts[1..], c);
    }
  }

  /** `getTotalSkills`: the number of skills, without removing duplicates. */
  function TotalSkills(skills: Skills): nat {
    match skills
    case SkillsText(text) => |SkillItems(text)|
    case SkillsByCategory(technical, soft, tools) => |technical| + |soft| + |tools|
    case NoSkills => 0
  }

  /** Skill names written as one `', '`-separated string are counted one each,
      repeated names included. */
  lemma SkillsTextCountsJoinedItems(items: seq<string>)
    requires forall p :: p in items ==> p != [] && Trim(p) == p && ',' !in p
    ensures SkillItems(JoinWith(items, ", ")) == items
    ensures TotalSkills(SkillsText(JoinWith(items, ", "))) == |items|
  {
    assert AllWs(" ", 0, 1);
    assert [','] + " " == ", ";
    assert [] + JoinWith(items, ", ") == JoinWith(items, ", ");
    SplitJoinedItems(items, ',', " ", []);
  }

  /** A skill listed twice counts twice. */
  lemma SkillsNotDeduplicated(name: string)
    requires name != [] && Trim(name) == name && ',' !in name
    ensures TotalSkills(SkillsText(name + ", " + name)) == 2
  {
    var items := [name, name];
    assert JoinWith(items, ", ") == name + ", " + name;
    SkillsTextCountsJoinedItems(items);
  }

  // ---------------------------------------------------------------------------
  // The rubric

  const MaxScore: nat := 80

  // The longer messages are written as two literals joined.
  const StrongerSummary := "Write a stronger summary " + "(target 40\U{2013}120 words)."
  const ShorterSummary := "Shorten your summary " + "to under 120 words for ATS clarity."
  const ExperienceMessage := "Add at least 1 work experience entry."
  const LinksMessage := "Add your GitHub or LinkedIn profile link."
  const ImpactMessage := "Add measurable impact " + "(numbers like %, X, k) in your bullets."
  const EducationMessage := "Complete your education " + "section (institution, degree, year)."

  function ProjectsMessage(count: nat): string {
    "Add at least 2 projects (you have " + NatToString(count) + ")."
  }

  function SkillsMessage(count: nat): string {
    "Add more skills (target 8+, you have " + NatToString(count) + ")."
  }

  /** The descriptions the impact check reads: every experience entry's, then every project's. */
  function Bullets(r: ResumeData): (bs: seq<string>)
    ensures |bs| == |r.experience| + |r.projects|
    ensures forall k :: 0 <= k < |r.experience| ==> bs[k] == r.experience[k].description
    ensures forall k :: 0 <= k < |r.projects| ==> bs[|r.experience| + k] == r.projects[k].description
  {
    seq(|r.experience|, k requires 0 <= k < |r.experience| => r.experience[k].description)
      + seq(|r.projects|, k requires 0 <= k < |r.projects| => r.projects[k].description)
  }

  predicate HasImpact(r: ResumeData) {
    exists b :: b in Bullets(r) && HasNumbers(b)
  }

  predicate IsCompleteEducation(e: Education) {
    e.institution != "" && e.degree != "" && e.year != ""
  }

  predicate HasCompleteEducation(r: ResumeData) {
    exists e :: e in r.education && IsCompleteEducation(e)
  }

  predicate HasProfileLink(p: Personal) {
    p.github != "" || p.linkedin != ""
  }

  /** One rubric check: whether it passed, what it is worth, and the message it
      records when it fails. */
  datatype Check = Check(passed: bool, points: nat, message: string)

  /** The seven checks, in the order they are evaluated. */
  function Rubric(r: ResumeData): (cs: seq<Check>)
    ensures |cs| == 7
  {
    Checks(CountWords(r.summary), |r.projects|, |r.experience|, TotalSkills(r.skills),
      HasProfileLink(r.personal), HasImpact(r), HasCompleteEducation(r))
  }

  /** The seven checks, from the summary's word count, the numbers of projects,
      experience entries and skills, and whether the profile link, impact and
      education tests hold. */
  function Checks(words: nat, projects: nat, experience: nat, skills: nat,
                  link: bool, impact: bool, education: bool): (cs: seq<Check>)
    ensures |cs| == 7
  {
    [ SummaryRule(words), ProjectsRule(projects), ExperienceRule(experience), SkillsRule(skills),
      LinksRule(link), ImpactRule(impact), EducationRule(education) ]
  }

  /** 15 points for a summary of 40 to 120 words; the message says which way it misses. */
  function SummaryRule(words: nat): Check {
    Check(40 <= words <= 120, 15, if words < 40 then StrongerSummary else ShorterSummary)
  }

  /** 10 points for at least two projects. */
  function ProjectsRule(count: nat): Check {
    Check(count >= 2, 10, ProjectsMessage(count))
  }

  /** 10 points for at least one experience entry. */
  function ExperienceRule(count: nat): Check {
    Check(count >= 1, 10, ExperienceMessage)
  }

  /** 10 points for at least eight skills. */
  function SkillsRule(count: nat): Check {
    Check(count >= 8, 10, SkillsMessage(count))
  }

  /** 10 points for a GitHub or LinkedIn link. */
  function LinksRule(hasLink: bool): Check {
    Check(hasLink, 10, LinksMessage)
  }

  /** 15 points for a measurable number in some description. */
  function ImpactRule(hasImpact: bool): Check {
    Check(hasImpact, 15, ImpactMessage)
  }

  /** 10 points for a complete education entry. */
  function EducationRule(hasCompleteEducation: bool): Check {
    Check(hasCompleteEducation, 10, EducationMessage)
  }

  /** The points of the passed checks. */
  function Earned(cs: seq<Check>): nat {
    if cs == [] then 0
    else Earned(cs[..|cs| - 1]) + (if cs[|cs| - 1].passed then cs[|cs| - 1].points else 0)
  }

  /** The points of all checks. */
  function Possible(cs: seq<Check>): nat {
    if cs == [] then 0 else Possible(cs[..|cs| - 1]) + cs[|cs| - 1].points
  }

  /** The messages of the failed checks, in check order. */
  function FailedMessages(cs: seq<Check>): seq<string> {
    if cs == [] then []
    else FailedMessages(cs[..|cs| - 1]) + (if cs[|cs| - 1].passed then [] else [cs[|cs| - 1].message])
  }

  function PassedCount(cs: seq<Check>): nat {
    if cs == [] then 0 else PassedCount(cs[..|cs| - 1]) + (if cs[|cs| - 1].passed then 1 else 0)
  }

  /** Every message the scorer records for r, before truncation. */
  function Recorded(r: ResumeData): seq<string> {
    FailedMessages(Rubric(r))
  }

  /** `suggestions.slice(0, n)` */
  function Take(xs: seq<string>, n: nat): (ys: seq<string>)
    ensures |ys| == if |xs| < n then |xs| else n
    ensures ys == xs[..|ys|]
  {
    if |xs| <= n then xs else xs[..n]
  }

  datatype ScoreResult = ScoreResult(score: int, maxScore: int, suggestions: seq<string>)

  /** `computeATSScore`, as the function of the resume it computes. */
  function AtsScore(r: ResumeData): ScoreResult {
    var earned := Earned(Rubric(r));
    ScoreResult(if earned < 100 then earned else 100, MaxScore, Take(Recorded(r), 3))
  }

  // ---------------------------------------------------------------------------
  // The scorer as the source computes it

  /** The points one check adds to the score. */
  function Gain(c: Check): nat {
    if c.passed then c.points else 0
  }

  /** What one check adds to the recorded messages. */
  function Contribution(c: Check): seq<string> {
    if c.passed then [] else [c.message]
  }

  /** One check of `computeATSScore`: its points are added to the running score when it
      passes, its message is pushed onto the suggestions when it fails. */
  method Tally(c: Check, score: nat, suggestions: seq<string>)
      returns (score': nat, suggestions': seq<string>)
    ensures score' == score + Gain(c) && suggestions' == suggestions + Contribution(c)
  {
    score', suggestions' := score, suggestions;
    if c.passed {
      score' := score' + c.points;
    } else {
      suggestions' := suggestions' + [c.message];
    }
  }

  /** `computeATSScore`: the checks run in order, adding points to a running score or
      pushing a message; the score is then capped at 100 and the messages cut to three. */
  method ComputeAtsScore(r: ResumeData) returns (result: ScoreResult)
    ensures result.score == Earned(Rubric(r))
    ensures result.maxScore == MaxScore
    ensures result.suggestions == Take(Recorded(r), 3)
  {
    var score := 0;
    var suggestions: seq<string> := [];

    // 1. a summary of 40 to 120 words; the message says which way it misses
    var c1 := SummaryRule(CountWords(r.summary));
    score, suggestions := Tally(c1, score, suggestions);

    // 2. at least two projects
    var c2 := ProjectsRule(|r.projects|);
    score, suggestions := Tally(c2, score, suggestions);

    // 3. at least one experience entry
    var c3 := ExperienceRule(|r.experience|);
    score, suggestions := Tally(c3, score, suggestions);

    // 4. at least eight skills
    var c4 := SkillsRule(TotalSkills(r.skills));
    score, suggestions := Tally(c4, score, suggestions);

    // 5. a GitHub or LinkedIn link
    var c5 := LinksRule(r.personal.github != "" || r.personal.linkedin != "");
    score, suggestions := Tally(c5, score, suggestions);

    // 6. a measurable number in some experience or project description
    var c6 := ImpactRule(HasImpact(r));
    score, suggestions := Tally(c6, score, suggestions);

    // 7. one education entry with institution, degree and year
    var c7 := EducationRule(HasCompleteEducation(r));
    score, suggestions := Tally(c7, score, suggestions);

    TallyOfSeven(c1, c2, c3, c4, c5, c6, c7);
    assert Rubric(r) == [c1, c2, c3, c4, c5, c6, c7];
    ScoreWithinMax(r);
    var finalScore := if score < 100 then score else 100;
    result := ScoreResult(finalScore, 80, Take(suggestions, 3));
  }

  // ---------------------------------------------------------------------------
  // Properties of the rubric

  lemma {:induction false} EarnedAtMostPossible(cs: seq<Check>)
    ensures Earned(cs) <= Possible(cs)
    ensures (forall k :: 0 <= k < |cs| ==> cs[k].points > 0) ==>
              (Earned(cs) == Possible(cs) <==> FailedMessages(cs) == [])
  {
    if cs != [] {
      var init := cs[..|cs| - 1];
      assert forall k :: 0 <= k < |init| ==> init[k] == cs[k];
      EarnedAtMostPossible(init);
    }
  }

  lemma {:induction false} EarnedMultipleOfFive(cs: seq<Check>)
    requires forall k :: 0 <= k < |cs| ==> cs[k].points % 5 == 0
    ensures Earned(cs) % 5 == 0
  {
    if cs != [] {
      var init := cs[..|cs| - 1];
      assert forall k :: 0 <= k < |init| ==> init[k] == cs[k];
      EarnedMultipleOfFive(init);
    }
  }

  lemma {:induction false} FailedPlusPassed(cs: seq<Check>)
    ensures |FailedMessages(cs)| + PassedCount(cs) == |cs|
  {
    if cs != [] {
      FailedPlusPassed(cs[..|cs| - 1]);
    }
  }

  /** The failed messages, such that a message that only check i records is recorded
      exactly when check i fails. */
  lemma {:induction false} RecordedIffFailed(cs: seq<Check>, i: nat)
    requires i < |cs|
    requires forall k :: 0 <= k < |cs| && k != i ==> cs[k].message != cs[i].message
    ensures cs[i].message in FailedMessages(cs) <==> !cs[i].passed
  {
    var init := cs[..|cs| - 1];
    if i < |cs| - 1 {
      assert forall k :: 0 <= k < |init| ==> init[k] == cs[k];
      RecordedIffFailed(init, i);
    } else {
      NotRecorded(init, cs[i].message);
    }
  }

  lemma {:induction false} NotRecorded(cs: seq<Check>, m: string)
    requires forall k :: 0 <= k < |cs| ==> cs[k].message != m
    ensures m !in FailedMessages(cs)
  {
    if cs != [] {
      var init := cs[..|cs| - 1];
      assert forall k :: 0 <= k < |init| ==> init[k] == cs[k];
      NotRecorded(init, m);
    }
  }

  /** The three sums over checks, one check further. */
  lemma SumsSnoc(cs: seq<Check>, c: Check)
    ensures Earned(cs + [c]) == Earned(cs) + Gain(c)
    ensures Possible(cs + [c]) == Possible(cs) + c.points
    ensures FailedMessages(cs + [c]) == FailedMessages(cs) + Contribution(c)
  {
    assert (cs + [c])[..|cs|] == cs;
  }

  lemma SumsOfFour(c0: Check, c1: Check, c2: Check, c3: Check)
    ensures Earned([c0, c1, c2, c3]) == Gain(c0) + Gain(c1) + Gain(c2) + Gain(c3)
    ensures Possible([c0, c1, c2, c3]) == c0.points + c1.points + c2.points + c3.points
    ensures FailedMessages([c0, c1, c2, c3]) ==
      Contribution(c0) + Contribution(c1) + Contribution(c2) + Contribution(c3)
  {
    SumsSnoc([], c0);
    SumsSnoc([c0], c1);
    SumsSnoc([c0] + [c1], c2);
    SumsSnoc([c0] + [c1] + [c2], c3);
    assert [] + [c0] == [c0];
    assert [c0] + [c1] + [c2] + [c3] == [c0, c1, c2, c3];
  }

  /** The score, the possible points and the recorded messages of seven checks in a row. */
  lemma SumsOfSeven(c0: Check, c1: Check, c2: Check, c3: Check, c4: Check, c5: Check, c6: Check)
    ensures Earned([c0, c1, c2, c3, c4, c5, c6]) ==
      Gain(c0) + Gain(c1) + Gain(c2) + Gain(c3) + Gain(c4) + Gain(c5) + Gain(c6)
    ensures Possible([c0, c1, c2, c3, c4, c5, c6]) ==
      c0.points + c1.points + c2.points + c3.points + c4.points + c5.points + c6.points
    ensures FailedMessages([c0, c1, c2, c3, c4, c5, c6]) ==
      Contribution(c0) + Contribution(c1) + Contribution(c2) + Contribution(c3)
      + Contribution(c4) + Contribution(c5) + Contribution(c6)
  {
    var p := [c0, c1, c2, c3];
    SumsOfFour(c0, c1, c2, c3);
    SumsSnoc(p, c4);
    SumsSnoc(p + [c4], c5);
    SumsSnoc(p + [c4] + [c5], c6);
    assert p + [c4] + [c5] + [c6] == [c0, c1, c2, c3, c4, c5, c6];
  }

  /** Seven checks tallied one after another from a zero score and no messages. */
  lemma TallyOfSeven(c0: Check, c1: Check, c2: Check, c3: Check, c4: Check, c5: Check, c6: Check)
    ensures Earned([c0, c1, c2, c3, c4, c5, c6]) ==
      0 + Gain(c0) + Gain(c1) + Gain(c2) + Gain(c3) + Gain(c4) + Gain(c5) + Gain(c6)
    ensures FailedMessages([c0, c1, c2, c3, c4, c5, c6]) ==
      [] + Contribution(c0) + Contribution(c1) + Contribution(c2) + Contribution(c3)
      + Contribution(c4) + Contribution(c5) + Contribution(c6)
  {
    SumsOfSeven(c0, c1, c2, c3, c4, c5, c6);
    assert [] + Contribution(c0) == Contribution(c0);
  }

  /** The score is the sum of the points of the checks that pass. */
  lemma EarnedOfChecks(words: nat, projects: nat, experience: nat, skills: nat,
                       link: bool, impact: bool, education: bool)
    ensures Earned(Checks(words, projects, experience, skills, link, impact, education)) ==
      (if 40 <= words <= 120 then 15 else 0) + (if projects >= 2 then 10 else 0)
      + (if experience >= 1 then 10 else 0) + (if skills >= 8 then 10 else 0)
      + (if link then 10 else 0) + (if impact then 15 else 0) + (if education then 10 else 0)
  {
    SumsOfSeven(SummaryRule(words), ProjectsRule(projects), ExperienceRule(experience), SkillsRule(skills),
      LinksRule(link), ImpactRule(impact), EducationRule(education));
  }

  /** The recorded messages are those of the failing checks, in check order. */
  lemma FailedOfChecks(words: nat, projects: nat, experience: nat, skills: nat,
                       link: bool, impact: bool, education: bool)
    ensures FailedMessages(Checks(words, projects, experience, skills, link, impact, education)) ==
      (if 40 <= words <= 120 then [] else [if words < 40 then StrongerSummary else ShorterSummary])
      + (if projects >= 2 then [] else [ProjectsMessage(projects)])
      + (if experience >= 1 then [] else [ExperienceMessage])
      + (if skills >= 8 then [] else [SkillsMessage(skills)])
      + (if link then [] else [LinksMessage])
      + (if impact then [] else [ImpactMessage])
      + (if education then [] else [EducationMessage])
  {
    SumsOfSeven(SummaryRule(words), ProjectsRule(projects), ExperienceRule(experience), SkillsRule(skills),
      LinksRule(link), ImpactRule(impact), EducationRule(education));
  }

  lemma ChecksPoints(words: nat, projects: nat, experience: nat, skills: nat,
                     link: bool, impact: bool, education: bool)
    ensures var cs := Checks(words, projects, experience, skills, link, impact, education);
      Possible(cs) == MaxScore && forall k :: 0 <= k < 7 ==> cs[k].points > 0 && cs[k].points % 5 == 0
  {
    SumsOfSeven(SummaryRule(words), ProjectsRule(projects), ExperienceRule(experience), SkillsRule(skills),
      LinksRule(link), ImpactRule(impact), EducationRule(education));
  }

  lemma RubricPoints(r: ResumeData)
    ensures Possible(Rubric(r)) == MaxScore
    ensures forall k :: 0 <= k < 7 ==> Rubric(r)[k].points > 0 && Rubric(r)[k].points % 5 == 0
  {
    ChecksPoints(CountWords(r.summary), |r.projects|, |r.experience|, TotalSkills(r.skills),
      HasProfileLink(r.personal), HasImpact(r), HasCompleteEducation(r));
  }

  /** The running score never exceeds 80, so the cap at 100 never applies. */
  lemma ScoreWithinMax(r: ResumeData)
    ensures Earned(Rubric(r)) <= MaxScore
    ensures AtsScore(r).score == Earned(Rubric(r))
  {
    RubricPoints(r);
    EarnedAtMostPossible(Rubric(r));
  }

  /** The score is a multiple of 5 between 0 and the maximum score 80. */
  lemma ScoreRange(r: ResumeData)
    ensures 0 <= AtsScore(r).score <= AtsScore(r).maxScore == 80
    ensures AtsScore(r).score % 5 == 0
  {
    ScoreWithinMax(r);
    RubricPoints(r);
    EarnedMultipleOfFive(Rubric(r));
  }

  /** At most three suggestions are returned: the first min(3, failed checks) recorded. */
  lemma SuggestionCount(r: ResumeData)
    ensures |Recorded(r)| + PassedCount(Rubric(r)) == 7
    ensures |AtsScore(r).suggestions| == if |Recorded(r)| < 3 then |Recorded(r)| else 3
    ensures AtsScore(r).suggestions == Recorded(r)[..|AtsScore(r).suggestions|]
  {
    FailedPlusPassed(Rubric(r));
  }

  /** The full score is reached exactly when there is nothing to suggest. */
  lemma FullScoreIffNoSuggestions(r: ResumeData)
    ensures AtsScore(r).score == MaxScore <==> AtsScore(r).suggestions == []
    ensures AtsScore(r).score == MaxScore <==> Recorded(r) == []
  {
    ScoreWithinMax(r);
    RubricPoints(r);
    EarnedAtMostPossible(Rubric(r));
  }

  // ---------------------------------------------------------------------------
  // What makes each check record its message

  /** The characters at positions 0, 4, 5 and 13 tell the seven messages apart. */
  function Signature(m: string): (char, char, char, char) {
    if |m| < 14 then (' ', ' ', ' ', ' ') else (m[0], m[4], m[5], m[13])
  }

  lemma FixedSignatures()
    ensures Signature(StrongerSummary).0 == 'W'
    ensures Signature(ShorterSummary).0 == 'S'
    ensures Signature(ExperienceMessage) == ('A', 'a', 't', '1')
    ensures Signature(LinksMessage).0 == 'A' && Signature(LinksMessage).1 == 'y'
    ensures Signature(ImpactMessage) == ('A', 'm', 'e', 'e')
    ensures Signature(EducationMessage).0 == 'C'
  {
  }

  lemma CountSignatures(projects: nat, skills: nat)
    ensures Signature(ProjectsMessage(projects)) == ('A', 'a', 't', '2')
    ensures Signature(SkillsMessage(skills)) == ('A', 'm', 'o', 'l')
  {
    var p := ProjectsMessage(projects);
    assert p[0] == 'A' && p[4] == 'a' && p[5] == 't' && p[13] == '2';
    var k := SkillsMessage(skills);
    assert k[0] == 'A' && k[4] == 'm' && k[5] == 'o' && k[13] == 'l';
  }

  lemma ChecksSignatures(words: nat, projects: nat, experience: nat, skills: nat,
                         link: bool, impact: bool, education: bool)
    ensures var cs := Checks(words, projects, experience, skills, link, impact, education);
      && (Signature(cs[0].message).0 == 'W' || Signature(cs[0].message).0 == 'S')
      && Signature(cs[1].message) == ('A', 'a', 't', '2')
      && Signature(cs[2].message) == ('A', 'a', 't', '1')
      && Signature(cs[3].message) == ('A', 'm', 'o', 'l')
      && Signature(cs[4].message).0 == 'A' && Signature(cs[4].message).1 == 'y'
      && Signature(cs[5].message) == ('A', 'm', 'e', 'e')
      && Signature(cs[6].message).0 == 'C'
  {
    FixedSignatures();
    CountSignatures(projects, skills);
  }

  /** The check whose message m is, read off its signature. */
  function MessageIndex(m: string): nat {
    var g := Signature(m);
    if g.0 == 'W' || g.0 == 'S' then 0
    else if g.0 == 'C' then 6
    else if g.1 == 'y' then 4
    else if g.3 == '2' then 1
    else if g.3 == '1' then 2
    else if g.3 == 'l' then 3
    else 5
  }

  lemma ChecksMessagesDistinct(words: nat, projects: nat, experience: nat, skills: nat,
                               link: bool, impact: bool, education: bool)
    ensures var cs := Checks(words, projects, experience, skills, link, impact, education);
      && (forall i, j :: 0 <= i < j < 7 ==> cs[i].message != cs[j].message)
      && (forall k :: 0 < k < 7 ==> cs[k].message != StrongerSummary && cs[k].message != ShorterSummary)
  {
    var cs := Checks(words, projects, experience, skills, link, impact, education);
    ChecksIndexed(cs, words, projects, experience, skills, link, impact, education);
    FixedSignatures();
    assert MessageIndex(StrongerSummary) == 0 && MessageIndex(ShorterSummary) == 0;
  }

  lemma ChecksIndexed(cs: seq<Check>, words: nat, projects: nat, experience: nat, skills: nat,
                      link: bool, impact: bool, education: bool)
    requires cs == Checks(words, projects, experience, skills, link, impact, education)
    ensures forall k :: 0 <= k < 7 ==> MessageIndex(cs[k].message) == k
  {
    ChecksSignatures(words, projects, experience, skills, link, impact, education);
  }

  /** The distinct messages of the seven checks, which make a recorded message name
      the check that failed. */
  lemma MessagesDistinct(r: ResumeData)
    ensures forall i, j :: 0 <= i < j < 7 ==> Rubric(r)[i].message != Rubric(r)[j].message
    ensures forall k :: 0 < k < 7 ==> Rubric(r)[k].message != StrongerSummary && Rubric(r)[k].message != ShorterSummary
  {
    ChecksMessagesDistinct(CountWords(r.summary), |r.projects|, |r.experience|, TotalSkills(r.skills),
      HasProfileLink(r.personal), HasImpact(r), HasCompleteEducation(r));
  }

  lemma RecordedIff(r: ResumeData, i: nat)
    requires i < 7
    ensures Rubric(r)[i].message in Recorded(r) <==> !Rubric(r)[i].passed
  {
    MessagesDistinct(r);
    RecordedIffFailed(Rubric(r), i);
  }

  /** The summary check passes for 40 to 120 words and otherwise asks for a stronger
      summary (fewer than 40 words) or a shorter one (more than 120). */
  lemma SummaryCheck(r: ResumeData)
    ensures StrongerSummary in Recorded(r) <==> WordRuns(r.summary) < 40
    ensures ShorterSummary in Recorded(r) <==> WordRuns(r.summary) > 120
  {
    RecordedIff(r, 0);
    var cs := Rubric(r);
    assert StrongerSummary != ShorterSummary;
    MessagesDistinct(r);
    assert cs[0] == SummaryRule(WordRuns(r.summary));
    if WordRuns(r.summary) < 40 {
      NotRecorded(cs, ShorterSummary);
    } else {
      NotRecorded(cs, StrongerSummary);
    }
  }

  /** Fewer than two projects records a message that states how many there are. */
  lemma ProjectsCheck(r: ResumeData)
    ensures ProjectsMessage(|r.projects|) in Recorded(r) <==> |r.projects| < 2
  {
    RecordedIff(r, 1);
  }

  /** Only the number of experience entries matters, not what they contain. */
  lemma ExperienceCheck(r: ResumeData)
    ensures ExperienceMessage in Recorded(r) <==> r.experience == []
  {
    RecordedIff(r, 2);
  }

  /** Fewer than eight skills records a message that states how many there are. */
  lemma SkillsCheck(r: ResumeData)
    ensures SkillsMessage(TotalSkills(r.skills)) in Recorded(r) <==> TotalSkills(r.skills) < 8
  {
    RecordedIff(r, 3);
  }

  /** A link counts when the field is non-empty; white space alone counts. */
  lemma LinksCheck(r: ResumeData)
    ensures LinksMessage in Recorded(r) <==> r.personal.github == [] && r.personal.linkedin == []
  {
    RecordedIff(r, 4);
  }

  /** The impact check fails exactly when no experience or project description has a
      digit followed by `%`, `x`, `k` or a digit, or a `$` followed by a digit. */
  lemma ImpactCheck(r: ResumeData)
    ensures ImpactMessage in Recorded(r) <==>
      forall b :: b in Bullets(r) ==> forall i :: 0 <= i < |b| - 1 ==> !ImpactPair(b[i], b[i + 1])
  {
    RecordedIff(r, 5);
    forall b | b in Bullets(r) {
      HasNumbersIff(b);
    }
  }

  /** Some single entry must have institution, degree and year all filled in. */
  lemma EducationCheck(r: ResumeData)
    ensures EducationMessage in Recorded(r) <==>
      forall e :: e in r.education ==> e.institution == [] || e.degree == [] || e.year == []
  {
    RecordedIff(r, 6);
  }
}
