/**
 * The build panel beside each step: the build outcome (pending, success, error), a
 * screenshot upload that saves the step's artifact, and which controls it shows.
 */
module BuildPanel {
  import opened Wrappers
  import StepContext

  type Status = StepContext.Status

  /** `if (currentStep)`: a step number is set and is not zero. */
  predicate StepSelected(currentStep: Option<nat>) {
    currentStep.Some? && currentStep.value != 0
  }

  /** What the panel shows. */
  datatype View =
    | Placeholder
    | Controls(outcomeButtons: bool, successPanel: bool, upload: bool, saved: bool, errorNotice: bool)

  /** The panel's rendering for the current step, its artifacts and the status. */
  function ViewOf(currentStep: Option<nat>, artifacts: map<string, string>, status: Status): (v: View)
    ensures v.Placeholder? <==> !StepSelected(currentStep)
  {
    if !StepSelected(currentStep) then
      Placeholder
    else
      var has := StepContext.HasArtifact(artifacts, currentStep.value);
      var success := status == StepContext.Success || has;
      Controls(status == StepContext.Pending && !has, success, success && !has, success && has,
               status == StepContext.Error)
  }

  /** The outcome buttons and the success panel never show together, and neither do
      the outcome buttons and the error notice; the upload control shows only after a
      build succeeded without an artifact. */
  lemma ViewExclusions(currentStep: Option<nat>, artifacts: map<string, string>, status: Status)
    requires StepSelected(currentStep)
    ensures var v := ViewOf(currentStep, artifacts, status);
      && !(v.outcomeButtons && v.successPanel)
      && !(v.outcomeButtons && v.errorNotice)
      && (v.upload <==> status == StepContext.Success && !StepContext.HasArtifact(artifacts, currentStep.value))
      && (v.saved <==> StepContext.HasArtifact(artifacts, currentStep.value))
  {
  }

  /** A saved artifact hides the outcome buttons and the upload, whatever the status. */
  lemma ArtifactHidesControls(n: nat, artifacts: map<string, string>, status: Status)
    requires n != 0 && StepContext.HasArtifact(artifacts, n)
    ensures ViewOf(Some(n), artifacts, status) == Controls(false, true, false, true, status == StepContext.Error)
  {
  }

  class Panel {
    var screenshot: string
    var status: Status
    /** The build track's shared state this panel reads and writes. */
    var store: StepContext.StepStore

    ghost predicate Valid()
      reads this, store
    {
      store.Valid()
    }

    constructor (store: StepContext.StepStore)
      ensures this.store == store && screenshot == "" && status == StepContext.Pending
    {
      this.store := store;
      screenshot := "";
      status := StepContext.Pending;
    }

    /** The effect on a change of `currentStep`: back to pending, no screenshot. */
    method StepChanged()
      modifies this
      ensures store == old(store) && screenshot == "" && status == StepContext.Pending
    {
      screenshot := "";
      status := StepContext.Pending;
    }

    /** `handleItWorked` */
    method ItWorked()
      modifies this
      ensures store == old(store) && screenshot == old(screenshot) && status == StepContext.Success
    {
      status := StepContext.Success;
    }

    /** `handleError` */
    method Failed()
      modifies this
      ensures store == old(store) && screenshot == old(screenshot) && status == StepContext.Error
    {
      status := StepContext.Error;
    }

    /** Retry */
    method Retry()
      modifies this
      ensures store == old(store) && screenshot == old(screenshot) && status == StepContext.Pending
    {
      status := StepContext.Pending;
    }

    /** `handleScreenshotChange`. `file` is the object URL made for the chosen file, or
        None when no file was chosen; with a selected step the URL becomes its
        artifact. */
    method ScreenshotChange(file: Option<string>)
      requires Valid()
      modifies this, store
      ensures store == old(store) && status == old(status) && Valid()
      ensures file.None? ==> screenshot == old(screenshot)
      ensures file.Some? ==> screenshot == file.value
      ensures if file.Some? && StepSelected(store.currentStep) then
          var key := StepContext.ArtifactKey(store.currentStep.value);
          && store.artifacts == old(store.artifacts)[key := file.value]
          && store.storage == old(store.storage)[key := file.value]
        else
          store.artifacts == old(store.artifacts) && store.storage == old(store.storage)
      ensures store.currentStep == old(store.currentStep)
      ensures store.buildContent == old(store.buildContent) && store.buildStatus == old(store.buildStatus)
    {
      if file.Some? {
        screenshot := file.value;
        if store.currentStep.Some? && store.currentStep.value != 0 {
          store.UpdateArtifact(store.currentStep.value, file.value);
        }
      }
    }
  }

  /** Once a screenshot is saved for step n, the panel shows the saved state for n, and
      every other step's panel looks as it did. */
  lemma UploadShowsSaved(n: nat, artifacts: map<string, string>, url: string, status: Status, m: nat)
    requires n != 0 && url != ""
    ensures var after := artifacts[StepContext.ArtifactKey(n) := url];
      && ViewOf(Some(n), after, status) == Controls(false, true, false, true, status == StepContext.Error)
      && (m != n ==> ViewOf(Some(m), after, status) == ViewOf(Some(m), artifacts, status))
  {
    StepContext.UpdateAffectsOneStep(artifacts, n, url, n);
    StepContext.UpdateAffectsOneStep(artifacts, n, url, m);
  }
}
