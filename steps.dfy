/**
 * The eight steps of the build track and the route of the proof page that follows them.
 */
module Steps {

  datatype Step = Step(id: string, number: nat, title: string, route: string)

  /** Every step lives under this route prefix. */
  const RoutePrefix := "/rb/"

  /** `STEPS` */
  const StepList: seq<Step> := [
    Step("01-problem", 1, "Define the Problem", "/rb/01-problem"),
    Step("02-market", 2, "Market Research", "/rb/02-market"),
    Step("03-architecture", 3, "System Architecture", "/rb/03-architecture"),
    Step("04-hld", 4, "High Level Design", "/rb/04-hld"),
    Step("05-lld", 5, "Low Level Design", "/rb/05-lld"),
    Step("06-build", 6, "Build Implementation", "/rb/06-build"),
    Step("07-test", 7, "Testing Strategy", "/rb/07-test"),
    Step("08-ship", 8, "Shipping & Deployment", "/rb/08-ship")
  ]

  /** `PROOF_ROUTE` */
  const ProofRoute := "/rb/proof"

  /** The two characters that open the id of step number n (1 to 8). */
  function IdDigits(n: nat): string
    requires 1 <= n <= 9
  {
    ['0', "123456789"[n - 1]]
  }

  /** There are eight steps, numbered from 1 in table order, each routed at its id
      under the common prefix, and each id opening with its two-digit number. */
  lemma StepListShape()
    ensures |StepList| == 8
    ensures forall i :: 0 <= i < |StepList| ==> StepList[i].number == i + 1
    ensures forall i :: 0 <= i < |StepList| ==> StepList[i].route == RoutePrefix + StepList[i].id
    ensures forall i :: 0 <= i < |StepList| ==>
      |StepList[i].id| >= 2 && StepList[i].id[..2] == IdDigits(i + 1)
  {
    StepRoutes();
    StepIds();
  }

  lemma StepRoutes()
    ensures forall i :: 0 <= i < |StepList| ==> StepList[i].route == RoutePrefix + StepList[i].id
  {
    FirstRoutes();
    LastRoutes();
  }

  lemma FirstRoutes()
    ensures forall i :: 0 <= i < 4 ==> StepList[i].route == RoutePrefix + StepList[i].id
  {
    assert StepList[0].route == RoutePrefix + StepList[0].id;
    assert StepList[1].route == RoutePrefix + StepList[1].id;
    assert StepList[2].route == RoutePrefix + StepList[2].id;
    assert StepList[3].route == RoutePrefix + StepList[3].id;
  }

  lemma LastRoutes()
    ensures forall i :: 4 <= i < 8 ==> StepList[i].route == RoutePrefix + StepList[i].id
  {
    assert StepList[4].route == RoutePrefix + StepList[4].id;
    assert StepList[5].route == RoutePrefix + StepList[5].id;
    assert StepList[6].route == RoutePrefix + StepList[6].id;
    assert StepList[7].route == RoutePrefix + StepList[7].id;
  }

  lemma StepIds()
    ensures forall i :: 0 <= i < |StepList| ==>
      |StepList[i].id| >= 2 && StepList[i].id[..2] == IdDigits(i + 1)
  {
  }

  /** No two steps share an id or a route. */
  lemma StepsDistinct()
    ensures forall i, j :: 0 <= i < j < |StepList| ==>
      StepList[i].id != StepList[j].id && StepList[i].route != StepList[j].route
  {
    StepListShape();
    forall i, j | 0 <= i < j < |StepList|
      ensures StepList[i].id != StepList[j].id && StepList[i].route != StepList[j].route
    {
      var a, b := StepList[i], StepList[j];
      assert a.id[1] == IdDigits(i + 1)[1] && b.id[1] == IdDigits(j + 1)[1];
      assert a.route[5] == a.id[1] && b.route[5] == b.id[1];
    }
  }

  /** The proof page is not one of the steps. */
  lemma ProofRouteIsNoStep()
    ensures forall i :: 0 <= i < |StepList| ==> StepList[i].route != ProofRoute
  {
    StepListShape();
    forall i | 0 <= i < |StepList|
      ensures StepList[i].route != ProofRoute
    {
      var s := StepList[i];
      assert s.route[4] == s.id[0] == '0';
      assert ProofRoute[4] == 'p';
    }
  }
}
