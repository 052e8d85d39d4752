/**
 * The proof page that closes the build track: a ten-item checklist over the resume,
 * the count of steps with a saved artifact, three submission links with validation,
 * and the "Shipped" gate that needs all of them.
 */
module BuildTrackProof {
  import opened Text
  import opened Resume
  import opened Steps
  import AtsScoring
  import StepContext
  import ResumeContext

  // ---------------------------------------------------------------------------
  // Links

  /** `isValidUrl`. Blank text is never valid; anything else is read as a URL, with
      `https://` put in front unless it starts with "http", and `isHttpUrl` says
      whether that parses with an http or https protocol. */
  predicate IsValidUrl(s: string, isHttpUrl: string -> bool) {
    !IsBlank(s) && isHttpUrl(UrlCandidate(s))
  }

  /** The text handed to the URL parser. */
  function UrlCandidate(s: string): (u: string)
    ensures StartsWith(u, "http")
    ensures StartsWith(s, "http") ==> u == s
    ensures !StartsWith(s, "http") ==> u == "https://" + s
  {
    if StartsWith(s, "http") then s else "https://" + s
  }

  datatype LinkName = Lovable | GitHubLink | Deploy

  /** The three submission fields, as the `links` and the `errors` objects hold them. */
  datatype Fields = Fields(lovable: string, github: string, deploy: string)
  {
    function Get(n: LinkName): string {
      match n
      case Lovable => lovable
      case GitHubLink => github
      case Deploy => deploy
    }

    /** `{ ...prev, [name]: value }` */
    function With(n: LinkName, v: string): (f: Fields)
      ensures f.Get(n) == v
      ensures forall m :: m != n ==> f.Get(m) == Get(m)
    {
      match n
      case Lovable => this.(lovable := v)
      case GitHubLink => this.(github := v)
      case Deploy => this.(deploy := v)
    }
  }

  const NoFields := Fields("", "", "")

  const RequiredMessage := "This field is required."
  const InvalidUrlMessage := "Please enter a valid URL."

  /** The error `validateField` leaves for a value: required, invalid, or none. */
  function ValidationError(v: string, isHttpUrl: string -> bool): (e: string)
    ensures e == "" <==> IsValidUrl(v, isHttpUrl)
    ensures v == "" ==> e == RequiredMessage
    ensures v != "" && !IsValidUrl(v, isHttpUrl) ==> e == InvalidUrlMessage
  {
    if v == "" then RequiredMessage
    else if !IsValidUrl(v, isHttpUrl) then InvalidUrlMessage
    else ""
  }

  predicate AllLinksValid(links: Fields, isHttpUrl: string -> bool) {
    IsValidUrl(links.lovable, isHttpUrl) && IsValidUrl(links.github, isHttpUrl) &&
    IsValidUrl(links.deploy, isHttpUrl)
  }

  predicate AllLinksProvided(links: Fields) {
    links.lovable != "" && links.github != "" && links.deploy != ""
  }

  /** A valid URL is never blank, so valid links are always provided links. */
  lemma ValidLinksAreProvided(links: Fields, isHttpUrl: string -> bool)
    requires AllLinksValid(links, isHttpUrl)
    ensures AllLinksProvided(links)
  {
  }

  /** The page's link state. */
  class LinkForm {
    var links: Fields
    var errors: Fields

    /** The links start from what was saved (or all empty), with no errors. */
    constructor (saved: Fields)
      ensures links == saved && errors == NoFields
    {
      links := saved;
      errors := NoFields;
    }

    /** `handleChange`: set one link and clear that field's error. */
    method HandleChange(name: LinkName, value: string)
      modifies this
      ensures links == old(links).With(name, value)
      ensures errors.Get(name) == ""
      ensures forall m :: m != name ==> errors.Get(m) == old(errors).Get(m)
    {
      links := links.With(name, value);
      if errors.Get(name) != "" {
        errors := errors.With(name, "");
      }
    }

    /** `validateField`: record the field's error and say whether it is valid. */
    method ValidateField(name: LinkName, isHttpUrl: string -> bool) returns (ok: bool)
      modifies this
      ensures ok <==> IsValidUrl(links.Get(name), isHttpUrl)
      ensures links == old(links)
      ensures errors == old(errors).With(name, ValidationError(links.Get(name), isHttpUrl))
    {
      var v := links.Get(name);
      if v == "" {
        errors := errors.With(name, RequiredMessage);
        return false;
      }
      if !IsValidUrl(v, isHttpUrl) {
        errors := errors.With(name, InvalidUrlMessage);
        return false;
      }
      errors := errors.With(name, "");
      return true;
    }

    /** The guard of `handleCopySubmission`: all three fields are validated, each
        gets its error, and the copy proceeds only if all three are valid. */
    method ValidateAll(isHttpUrl: string -> bool) returns (proceed: bool)
      modifies this
      ensures proceed <==> AllLinksValid(links, isHttpUrl)
      ensures links == old(links)
      ensures errors == Fields(
        ValidationError(links.lovable, isHttpUrl),
        ValidationError(links.github, isHttpUrl),
        ValidationError(links.deploy, isHttpUrl))
    {
      var v1 := ValidateField(Lovable, isHttpUrl);
      var v2 := ValidateField(GitHubLink, isHttpUrl);
      var v3 := ValidateField(Deploy, isHttpUrl);
      proceed := v1 && v2 && v3;
    }
  }

  // ---------------------------------------------------------------------------
  // Checklist

  datatype ChecklistItem = ChecklistItem(text: string, pass: bool)

  /** The ten checklist items, given what each of them tests. */
  function ChecklistOf(named: bool, summarised: bool, educated: bool, accentStored: bool, scored: bool)
    : (c: seq<ChecklistItem>)
    ensures |c| == 10
    ensures c[0].pass == (named && summarised && educated) && c[1].pass == named
    ensures c[2].pass == (named && educated) && c[3].pass == accentStored
    ensures c[4].pass == scored && c[5].pass == scored
    ensures forall k :: 6 <= k < 10 ==> c[k].pass
  {
    [ ChecklistItem("All form sections save to localStorage", named && summarised && educated),
      ChecklistItem("Live preview updates in real-time", named),
      ChecklistItem("Template switching preserves data", named && educated),
      ChecklistItem("Color theme persists after refresh", accentStored),
      ChecklistItem("ATS score calculates correctly", scored),
      ChecklistItem("Score updates live on edit", scored),
      ChecklistItem("Export buttons work (copy/download)", true),
      ChecklistItem("Empty states handled gracefully", true),
      ChecklistItem("Mobile responsive layout works", true),
      ChecklistItem("No console errors on any page", true) ]
  }

  /** `getChecklistResults`; `accentStored` says whether an accent colour is saved. */
  function ChecklistResults(r: ResumeData, accentStored: bool): (c: seq<ChecklistItem>)
    ensures |c| == 10
    ensures c[0].pass <==> r.personal.fullName != "" && r.summary != "" && r.education != []
    ensures c[1].pass <==> r.personal.fullName != ""
    ensures c[2].pass <==> r.personal.fullName != "" && r.education != []
    ensures c[3].pass <==> accentStored
    ensures c[4].pass && c[5].pass <==> AtsScoring.AtsScore(r).score > 0
    ensures c[4].pass == c[5].pass
    ensures forall k :: 6 <= k < 10 ==> c[k].pass
  {
    ChecklistOf(r.personal.fullName != "", r.summary != "", |r.education| > 0, accentStored,
                AtsScoring.AtsScore(r).score > 0)
  }

  /** `checklist.filter(c => c.pass).length` */
  function PassedCount(items: seq<ChecklistItem>): (n: nat)
    ensures n <= |items|
    ensures n == |items| <==> forall k :: 0 <= k < |items| ==> items[k].pass
  {
    if items == [] then 0
    else PassedCount(items[..|items| - 1]) + Tick(items[|items| - 1])
  }

  function Tick(c: ChecklistItem): nat {
    if c.pass then 1 else 0
  }

  lemma PassedSnoc(cs: seq<ChecklistItem>, c: ChecklistItem)
    ensures PassedCount(cs + [c]) == PassedCount(cs) + Tick(c)
  {
    assert (cs + [c])[..|cs|] == cs;
  }

  lemma PassedOfFive(c0: ChecklistItem, c1: ChecklistItem, c2: ChecklistItem, c3: ChecklistItem,
                     c4: ChecklistItem)
    ensures PassedCount([c0, c1, c2, c3, c4]) == Tick(c0) + Tick(c1) + Tick(c2) + Tick(c3) + Tick(c4)
  {
    PassedSnoc([], c0);
    PassedSnoc([c0], c1);
    PassedSnoc([c0] + [c1], c2);
    PassedSnoc([c0] + [c1] + [c2], c3);
    PassedSnoc([c0] + [c1] + [c2] + [c3], c4);
    assert [] + [c0] == [c0];
    assert [c0] + [c1] + [c2] + [c3] + [c4] == [c0, c1, c2, c3, c4];
  }

  /** The number of passed items of a ten-item list is the sum of its ticks. */
  lemma PassedOfTen(c: seq<ChecklistItem>)
    requires |c| == 10
    ensures PassedCount(c) == Tick(c[0]) + Tick(c[1]) + Tick(c[2]) + Tick(c[3]) + Tick(c[4])
      + Tick(c[5]) + Tick(c[6]) + Tick(c[7]) + Tick(c[8]) + Tick(c[9])
  {
    var p := [c[0], c[1], c[2], c[3], c[4]];
    PassedOfFive(c[0], c[1], c[2], c[3], c[4]);
    PassedSnoc(p, c[5]);
    PassedSnoc(p + [c[5]], c[6]);
    PassedSnoc(p + [c[5]] + [c[6]], c[7]);
    PassedSnoc(p + [c[5]] + [c[6]] + [c[7]], c[8]);
    PassedSnoc(p + [c[5]] + [c[6]] + [c[7]] + [c[8]], c[9]);
    assert p + [c[5]] + [c[6]] + [c[7]] + [c[8]] + [c[9]] == c;
  }

  /** How many checks pass: four always do, the score counts twice. */
  lemma ChecklistPassed(r: ResumeData, accentStored: bool)
    ensures var named := r.personal.fullName != "";
      var educated := r.education != [];
      var scored := AtsScoring.AtsScore(r).score > 0;
      PassedCount(ChecklistResults(r, accentStored)) ==
        4 + (if named && r.summary != "" && educated then 1 else 0) + (if named then 1 else 0)
          + (if named && educated then 1 else 0) + (if accentStored then 1 else 0)
          + (if scored then 2 else 0)
  {
    PassedOfTen(ChecklistResults(r, accentStored));
  }

  /** All ten checks pass exactly when the resume has a name, a summary and an
      education entry, an accent colour is saved, and the score is above zero. */
  lemma AllChecksPassIff(r: ResumeData, accentStored: bool)
    ensures PassedCount(ChecklistResults(r, accentStored)) == 10 <==>
      && r.personal.fullName != "" && r.summary != "" && r.education != []
      && accentStored && AtsScoring.AtsScore(r).score > 0
  {
    ChecklistPassed(r, accentStored);
  }

  /** The empty resume passes only the four fixed items and, if saved, the colour. */
  lemma InitialChecklist(accentStored: bool)
    ensures PassedCount(ChecklistResults(ResumeContext.InitialState, accentStored)) ==
      if accentStored then 5 else 4
  {
    ResumeContext.InitialStateScore();
    ChecklistPassed(ResumeContext.InitialState, accentStored);
  }

  /** The sample resume passes every check once an accent colour is saved. */
  lemma SampleChecklist()
    ensures PassedCount(ChecklistResults(ResumeContext.SampleData, true)) == 10
  {
    ResumeContext.SampleDataScore();
    ResumeContext.SampleCounts();
    AllChecksPassIff(ResumeContext.SampleData, true);
  }

  // ---------------------------------------------------------------------------
  // Steps and the Shipped gate

  /** How many of the first n steps have a truthy artifact. */
  function CompletedAmong(artifacts: map<string, string>, n: nat): (c: nat)
    requires n <= |StepList|
    ensures c <= n
    ensures c == n <==> forall j :: 0 <= j < n ==> StepContext.HasArtifact(artifacts, StepList[j].number)
  {
    if n == 0 then 0
    else
      CompletedAmong(artifacts, n - 1) +
      (if StepContext.HasArtifact(artifacts, StepList[n - 1].number) then 1 else 0)
  }

  /** `stepsCompleted` */
  function StepsCompleted(artifacts: map<string, string>): (c: nat)
    ensures c <= |StepList|
    ensures c == |StepList| <==> forall j :: 0 <= j < |StepList| ==> StepContext.HasArtifact(artifacts, StepList[j].number)
  {
    CompletedAmong(artifacts, |StepList|)
  }

  /** `allStepsComplete` holds exactly when steps 1 to 8 all have an artifact. */
  lemma AllStepsCompleteIff(artifacts: map<string, string>)
    ensures StepsCompleted(artifacts) == |StepList| <==>
      forall i :: 1 <= i <= 8 ==> StepContext.HasArtifact(artifacts, i)
  {
    StepListShape();
    if StepsCompleted(artifacts) == |StepList| {
      forall i | 1 <= i <= 8
        ensures StepContext.HasArtifact(artifacts, i)
      {
        assert StepList[i - 1].number == i;
      }
    }
  }

  /** `isShipped` */
  predicate IsShipped(artifacts: map<string, string>, r: ResumeData, accentStored: bool,
                      links: Fields, isHttpUrl: string -> bool)
  {
    && StepsCompleted(artifacts) == |StepList|
    && PassedCount(ChecklistResults(r, accentStored)) == 10
    && AllLinksValid(links, isHttpUrl)
    && AllLinksProvided(links)
  }

  /** Shipped means: every step from 1 to 8 has an artifact, every check passes, and
      all three links are valid; the "provided" condition adds nothing. */
  lemma ShippedIff(artifacts: map<string, string>, r: ResumeData, accentStored: bool,
                   links: Fields, isHttpUrl: string -> bool)
    ensures IsShipped(artifacts, r, accentStored, links, isHttpUrl) <==>
      && (forall i :: 1 <= i <= 8 ==> StepContext.HasArtifact(artifacts, i))
      && (forall k :: 0 <= k < 10 ==> ChecklistResults(r, accentStored)[k].pass)
      && AllLinksValid(links, isHttpUrl)
  {
    AllStepsCompleteIff(artifacts);
    var c := ChecklistResults(r, accentStored);
    assert PassedCount(c) == 10 <==> forall k :: 0 <= k < 10 ==> c[k].pass;
    if AllLinksValid(links, isHttpUrl) {
      ValidLinksAreProvided(links, isHttpUrl);
    }
  }
}
