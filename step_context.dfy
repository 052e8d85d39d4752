/**
 * The build track's shared state: the current step, the build text, the build status
 * and the saved artifacts, which mirror the browser's local storage under one key per
 * step.
 */
module StepContext {
  import opened Text
  import opened Wrappers

  datatype Status = Pending | Success | Error

  const KeyPrefix := "rb_step_"
  const KeySuffix := "_artifact"

  /** The number of steps whose artifact is read back when the track opens. */
  const LoadedSteps := 8

  /** `rb_step_${n}_artifact` */
  function ArtifactKey(n: nat): (k: string)
    ensures |k| == |KeyPrefix| + |NatToString(n)| + |KeySuffix|
    ensures k[..|KeyPrefix|] == KeyPrefix
    ensures k[|KeyPrefix|..|k| - |KeySuffix|] == NatToString(n)
  {
    KeyPrefix + NatToString(n) + KeySuffix
  }

  /** Different steps never share a key. */
  lemma ArtifactKeyInjective(a: nat, b: nat)
    requires ArtifactKey(a) == ArtifactKey(b)
    ensures a == b
  {
    NatToStringInjective(a, b);
  }

  lemma FirstArtifactKey()
    ensures ArtifactKey(1) == "rb_step_1_artifact"
  {
    assert NatToString(1) == "1";
  }

  /** Local storage holds a non-empty value for step i (a missing key reads as null). */
  predicate Stored(storage: map<string, string>, i: nat) {
    ArtifactKey(i) in storage && storage[ArtifactKey(i)] != ""
  }

  /** `artifacts[rb_step_${n}_artifact]` is truthy. */
  predicate HasArtifact(artifacts: map<string, string>, n: nat) {
    ArtifactKey(n) in artifacts && artifacts[ArtifactKey(n)] != ""
  }

  /** The initial artifact map: every step from 1 to 8 whose stored value is non-empty,
      mapped to that value, and nothing else. */
  method LoadArtifacts(storage: map<string, string>) returns (saved: map<string, string>)
    ensures forall i :: 1 <= i <= LoadedSteps ==> (ArtifactKey(i) in saved <==> Stored(storage, i))
    ensures forall k :: k in saved ==> exists i :: 1 <= i <= LoadedSteps && k == ArtifactKey(i)
    ensures forall k :: k in saved ==> k in storage && saved[k] == storage[k] && saved[k] != ""
  {
    saved := map[];
    var i := 1;
    while i <= LoadedSteps
      invariant 1 <= i <= LoadedSteps + 1
      invariant forall j :: 1 <= j < i ==> (ArtifactKey(j) in saved <==> Stored(storage, j))
      invariant forall k :: k in saved ==> exists j :: 1 <= j < i && k == ArtifactKey(j)
      invariant forall k :: k in saved ==> k in storage && saved[k] == storage[k] && saved[k] != ""
    {
      var key := ArtifactKey(i);
      forall j | 1 <= j < i
        ensures ArtifactKey(j) != key
      {
        if ArtifactKey(j) == key {
          ArtifactKeyInjective(j, i);
        }
      }
      if key in storage && storage[key] != "" {
        saved := saved[key := storage[key]];
      }
      i := i + 1;
    }
  }

  class StepStore {
    var currentStep: Option<nat>
    var buildContent: string
    var buildStatus: Status
    var artifacts: map<string, string>
    /** The browser's local storage. */
    var storage: map<string, string>

    /** Every artifact in memory is the value stored under its key. */
    ghost predicate Valid()
      reads this
    {
      forall k :: k in artifacts ==> k in storage && artifacts[k] == storage[k]
    }

    /** `StepProvider`'s initial state, reading artifacts back from storage. */
    constructor (storage: map<string, string>)
      ensures this.storage == storage
      ensures currentStep == None && buildContent == "" && buildStatus == Pending
      ensures forall i :: 1 <= i <= LoadedSteps ==> (HasArtifact(artifacts, i) <==> Stored(storage, i))
      ensures forall k :: k in artifacts ==> exists i :: 1 <= i <= LoadedSteps && k == ArtifactKey(i)
      ensures Valid()
    {
      var saved := LoadArtifacts(storage);
      this.storage := storage;
      currentStep := None;
      buildContent := "";
      buildStatus := Pending;
      artifacts := saved;
    }

    /** `updateArtifact`: write the step's key to storage and to the artifact map. */
    method UpdateArtifact(stepId: nat, artifact: string)
      requires Valid()
      modifies this
      ensures storage == old(storage)[ArtifactKey(stepId) := artifact]
      ensures artifacts == old(artifacts)[ArtifactKey(stepId) := artifact]
      ensures currentStep == old(currentStep) && buildContent == old(buildContent)
      ensures buildStatus == old(buildStatus)
      ensures Valid()
    {
      var key := ArtifactKey(stepId);
      storage := storage[key := artifact];
      artifacts := artifacts[key := artifact];
    }

    method SetCurrentStep(step: Option<nat>)
      modifies this
      ensures currentStep == step
      ensures buildContent == old(buildContent) && buildStatus == old(buildStatus)
      ensures artifacts == old(artifacts) && storage == old(storage)
    {
      currentStep := step;
    }

    method SetBuildContent(content: string)
      modifies this
      ensures buildContent == content
      ensures currentStep == old(currentStep) && buildStatus == old(buildStatus)
      ensures artifacts == old(artifacts) && storage == old(storage)
    {
      buildContent := content;
    }

    method SetBuildStatus(status: Status)
      modifies this
      ensures buildStatus == status
      ensures currentStep == old(currentStep) && buildContent == old(buildContent)
      ensures artifacts == old(artifacts) && storage == old(storage)
    {
      buildStatus := status;
    }
  }

  /** After an update, the step has an artifact exactly when the new value is
      non-empty, and every other step keeps what it had. */
  lemma UpdateAffectsOneStep(artifacts: map<string, string>, n: nat, a: string, m: nat)
    ensures HasArtifact(artifacts[ArtifactKey(n) := a], n) <==> a != ""
    ensures m != n ==> (HasArtifact(artifacts[ArtifactKey(n) := a], m) <==> HasArtifact(artifacts, m))
    ensures m != n && ArtifactKey(m) in artifacts ==>
      artifacts[ArtifactKey(n) := a][ArtifactKey(m)] == artifacts[ArtifactKey(m)]
  {
    if m != n && ArtifactKey(m) == ArtifactKey(n) {
      ArtifactKeyInjective(m, n);
    }
  }
}
