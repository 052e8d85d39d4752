/**
 * The footer under each build step: a Previous button, and a Next button that stays
 * disabled until the step's artifact is saved. On the proof page it only leads back
 * to the last step.
 */
module ProofFooter {
  import opened Wrappers
  import opened Steps
  import StepContext

  /** What the footer shows. */
  datatype Footer =
    | Hidden
    | ProofPageFooter(backRoute: string)
    | StepFooter(hasArtifact: bool, prevRoute: Option<string>, nextRoute: string, nextLabel: string)
  {
    predicate PreviousDisabled()
      requires StepFooter?
    {
      prevRoute.None?
    }

    predicate NextDisabled()
      requires StepFooter?
    {
      !hasArtifact
    }
  }

  const FinishLabel := "Finish & Proof"
  const NextLabel := "Next Step"

  /** The first step at or after i whose route is path. */
  function FindFrom(path: string, i: nat): (r: Option<nat>)
    requires i <= |StepList|
    ensures r.Some? ==> i <= r.value < |StepList| && StepList[r.value].route == path
    ensures r.Some? ==> forall j :: i <= j < r.value ==> StepList[j].route != path
    ensures r.None? ==> forall j :: i <= j < |StepList| ==> StepList[j].route != path
    decreases |StepList| - i
  {
    if i == |StepList| then None
    else if StepList[i].route == path then Some(i)
    else FindFrom(path, i + 1)
  }

  /** `STEPS.findIndex(step => step.route === path)`, with None for -1. */
  function FindStep(path: string): (r: Option<nat>)
    ensures r.Some? ==> r.value < |StepList| && StepList[r.value].route == path
    ensures r.None? ==> forall j :: 0 <= j < |StepList| ==> StepList[j].route != path
  {
    FindFrom(path, 0)
  }

  /** `ProofFooter` for the current path and artifact map. */
  function FooterFor(path: string, artifacts: map<string, string>): Footer {
    if path == ProofRoute then
      ProofPageFooter(StepList[|StepList| - 1].route)
    else
      match FindStep(path)
      case None => Hidden
      case Some(i) =>
        var isLast := i == |StepList| - 1;
        StepFooter(
          StepContext.HasArtifact(artifacts, StepList[i].number),
          if i > 0 then Some(StepList[i - 1].route) else None,
          if isLast then ProofRoute else StepList[i + 1].route,
          if isLast then FinishLabel else NextLabel)
  }

  /** A step's own route finds that step. */
  lemma FindOwnRoute(i: nat)
    requires i < |StepList|
    ensures FindStep(StepList[i].route) == Some(i)
  {
    StepsDistinct();
  }

  /** On the proof page the footer leads back to the last step. */
  lemma ProofPageLeadsBack(artifacts: map<string, string>)
    ensures FooterFor(ProofRoute, artifacts) == ProofPageFooter(StepList[7].route)
    ensures StepList[7].route == "/rb/08-ship"
  {
  }

  /** A path that is neither a step nor the proof page shows no footer. */
  lemma UnknownPathHidden(path: string, artifacts: map<string, string>)
    requires path != ProofRoute
    requires forall j :: 0 <= j < |StepList| ==> StepList[j].route != path
    ensures FooterFor(path, artifacts) == Hidden
  {
  }

  /** On step i: Previous leads to step i-1 and is disabled only on the first step;
      Next leads to step i+1, or to the proof page from the last step, is labelled
      accordingly, and is disabled exactly when step i has no artifact. */
  lemma OnStep(i: nat, artifacts: map<string, string>)
    requires i < |StepList|
    ensures var f := FooterFor(StepList[i].route, artifacts);
      && f.StepFooter?
      && f.prevRoute == (if i == 0 then None else Some(StepList[i - 1].route))
      && (f.PreviousDisabled() <==> i == 0)
      && f.nextRoute == (if i == |StepList| - 1 then ProofRoute else StepList[i + 1].route)
      && f.nextLabel == (if i == |StepList| - 1 then FinishLabel else NextLabel)
      && (f.NextDisabled() <==> !StepContext.HasArtifact(artifacts, i + 1))
  {
    ProofRouteIsNoStep();
    StepListShape();
    FindOwnRoute(i);
  }
}
