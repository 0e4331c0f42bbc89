/** The progress bar of src/components/BookingSteps.tsx: five steps whose
    completion, and the current step, are read off the current route path. */
module BookingSteps {
  import opened Text
  import FlightCard
  import opened Types

  datatype Step = Step(name: string, path: string, completed: bool)

  const StepNames: seq<string> := ["Search", "Select Flight", "Passenger Info", "Payment", "Confirmation"]
  const StepPaths: seq<string> := ["/search", "/flight", "/passenger-info", "/payment", "/confirmation"]

  /** The `steps` array for the route `currentPath`. */
  function Steps(currentPath: string): (r: seq<Step>)
    ensures |r| == 5
    ensures forall i :: 0 <= i < 5 ==> r[i].name == StepNames[i] && r[i].path == StepPaths[i]
    ensures r[0].completed
    ensures forall i :: 0 <= i < 4 ==> r[i + 1].completed ==> r[i].completed
    ensures forall i :: 1 <= i < 5 ==>
              (r[i].completed <==> exists k :: i <= k < 5 && Contains(currentPath, StepPaths[k]))
    ensures Contains(currentPath, "/confirmation") ==> forall i :: 0 <= i < 5 ==> r[i].completed
    ensures Contains(currentPath, "/payment") && !Contains(currentPath, "/confirmation") ==>
              (forall i :: 0 <= i < 4 ==> r[i].completed) && !r[4].completed
  {
    var flight := Contains(currentPath, "/flight");
    var passengerInfo := Contains(currentPath, "/passenger-info");
    var payment := Contains(currentPath, "/payment");
    var confirmation := Contains(currentPath, "/confirmation");
    assert flight == Contains(currentPath, StepPaths[1]) && passengerInfo == Contains(currentPath, StepPaths[2]);
    assert payment == Contains(currentPath, StepPaths[3]) && confirmation == Contains(currentPath, StepPaths[4]);
    [ Step("Search", "/search", true),
      Step("Select Flight", "/flight", flight || passengerInfo || payment || confirmation),
      Step("Passenger Info", "/passenger-info", passengerInfo || payment || confirmation),
      Step("Payment", "/payment", payment || confirmation),
      Step("Confirmation", "/confirmation", confirmation) ]
  }

  /** The `findIndex` test of a step against the route. */
  predicate IsCurrent(currentPath: string, step: Step) {
    if step.path == "/" then currentPath == "/" else Contains(currentPath, step.path)
  }

  /** `currentStepIndex`: the first step whose path occurs in the route, or
      -1 when none does. */
  function CurrentStepIndex(currentPath: string): (r: int)
    ensures -1 <= r < 5
    ensures r >= 0 ==> Contains(currentPath, StepPaths[r])
    ensures forall j :: 0 <= j < 5 && (r == -1 || j < r) ==> !Contains(currentPath, StepPaths[j])
  {
    var steps := Steps(currentPath);
    assert forall j :: 0 <= j < 5 ==> (IsCurrent(currentPath, steps[j]) <==> Contains(currentPath, StepPaths[j]));
    FindIndex(steps, s => IsCurrent(currentPath, s))
  }

  /** Selecting an offer leads to a route on which "Select Flight" is
      completed and the current step is "Search" or "Select Flight" (the
      former only when the offer id itself contains "/search"). */
  lemma SelectPathProgress(flight: Flight)
    ensures Steps(FlightCard.SelectPath(flight))[1].completed
    ensures CurrentStepIndex(FlightCard.SelectPath(flight)) in {0, 1}
  {
    var p := FlightCard.SelectPath(flight);
    assert OccursAt(p, "/flight", 0);
  }

  /** The anchored-prefix reading of `includes` for the five step paths
      against a route whose only slash is its first character. */
  lemma StepPathsAnchored(route: string)
    requires |route| > 0 && forall i :: 0 < i < |route| ==> route[i] != '/'
    ensures forall j :: 0 <= j < 5 ==>
      (Contains(route, StepPaths[j]) <==> |StepPaths[j]| <= |route| && route[..|StepPaths[j]|] == StepPaths[j])
  {
    forall j | 0 <= j < 5
      ensures Contains(route, StepPaths[j]) <==> |StepPaths[j]| <= |route| && route[..|StepPaths[j]|] == StepPaths[j]
    {
      ContainsAnchored(route, StepPaths[j], '/');
    }
  }

  /** On the route of the Search, Passenger Info, Payment and Confirmation
      pages the progress bar marks that page's own step as current. */
  lemma StepRouteIsCurrent(j: nat)
    requires j < 5 && j != 1
    ensures CurrentStepIndex(StepPaths[j]) == j
  {
    ContainsItself(StepPaths[j]);
    forall i | 0 <= i < j
      ensures !Contains(StepPaths[j], StepPaths[i])
    {
      StepPathNotInOther(i, j);
    }
  }

  /** No step path occurs in another step's path. */
  lemma StepPathNotInOther(i: nat, j: nat)
    requires i < j < 5
    ensures !Contains(StepPaths[j], StepPaths[i])
  {
    var route, t := StepPaths[j], StepPaths[i];
    assert forall k :: 0 < k < |route| ==> route[k] != '/';
    ContainsAnchored(route, t, '/');
    if i != 2 && |t| <= |route| {
      assert route[1] != t[1];
    }
  }

  /** The home page has no current step. */
  lemma HomeRouteHasNoStep()
    ensures CurrentStepIndex("/") == -1
  {
    StepPathsAnchored("/");
  }
}
