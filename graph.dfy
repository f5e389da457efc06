/**
 * The wiring of the pipeline graph: eight named steps, the entry point
 * `verify_request`, two conditional edges decided by the gates, and five
 * plain edges. `plan_output` has no outgoing edge, so the run stops there.
 */
module Graph {
  import opened Gates

  datatype Step =
    | VerifyRequest
    | RoomAllocator
    | ValidateAllocation
    | RoomPlanner
    | DoorPlanner
    | ValidatePlan
    | PlanRenderer
    | PlanOutput

  /** Where an edge leads: another step, or the end of the run. */
  datatype Target = Goto(step: Step) | Finish

  /** `set_entry_point("verify_request")`. */
  const Entry: Step := VerifyRequest

  /** The position of a step in the order the graph is wired. */
  function Rank(s: Step): nat {
    match s
    case VerifyRequest => 0
    case RoomAllocator => 1
    case ValidateAllocation => 2
    case RoomPlanner => 3
    case DoorPlanner => 4
    case ValidatePlan => 5
    case PlanRenderer => 6
    case PlanOutput => 7
  }

  /** The two steps whose outgoing edge is chosen by a gate. */
  predicate IsConditional(s: Step) {
    s == VerifyRequest || s == ValidateAllocation
  }

  /**
   * The edges. A conditional step goes on when its gate says "CONTINUE" and
   * ends the run otherwise; the others ignore the route. Every edge leads
   * forward in the wiring order, so the graph has no cycle.
   */
  function Next(s: Step, route: Route): (t: Target)
    ensures t.Goto? ==> Rank(s) < Rank(t.step)
    ensures IsConditional(s) ==> (t.Goto? <==> route == Continue)
    ensures s == PlanOutput ==> t == Finish
  {
    match s
    case VerifyRequest => if route == Continue then Goto(RoomAllocator) else Finish
    case RoomAllocator => Goto(ValidateAllocation)
    case ValidateAllocation => if route == Continue then Goto(RoomPlanner) else Finish
    case RoomPlanner => Goto(DoorPlanner)
    case DoorPlanner => Goto(ValidatePlan)
    case ValidatePlan => Goto(PlanRenderer)
    case PlanRenderer => Goto(PlanOutput)
    case PlanOutput => Finish
  }

  /** A step without a gate has one edge, whatever the route. */
  lemma PlainEdgesIgnoreRoute(s: Step)
    requires !IsConditional(s)
    ensures Next(s, Continue) == Next(s, End)
  {
  }

  /** The route the graph asks for after step `s`, given the two gates' answers. */
  function RouteAt(s: Step, gateA: Route, gateB: Route): (route: Route)
    ensures !IsConditional(s) ==> route == Continue
  {
    if s == VerifyRequest then gateA else if s == ValidateAllocation then gateB else Continue
  }

  /** The steps run from `s` onwards, following the edges until the run ends. */
  function Walk(s: Step, gateA: Route, gateB: Route): (run: seq<Step>)
    ensures run != [] && run[0] == s
    ensures |run| <= 8 - Rank(s)
    decreases 8 - Rank(s)
  {
    match Next(s, RouteAt(s, gateA, gateB))
    case Finish => [s]
    case Goto(t) => [s] + Walk(t, gateA, gateB)
  }

  /** A walk is its first step followed by the walk from wherever that step's edge leads. */
  function Remaining(t: Target, gateA: Route, gateB: Route): seq<Step> {
    if t.Goto? then Walk(t.step, gateA, gateB) else []
  }

  /** One step of a walk: `s`, then the rest of the walk after the edge taken with the gate's route. */
  lemma WalkUnfolds(s: Step, gateA: Route, gateB: Route)
    ensures Walk(s, gateA, gateB) == [s] + Remaining(Next(s, RouteAt(s, gateA, gateB)), gateA, gateB)
  {
  }

  /** A whole run of the graph from its entry point. */
  function Run(gateA: Route, gateB: Route): (run: seq<Step>)
    ensures run != [] && run[0] == VerifyRequest && |run| <= 8
  {
    Walk(Entry, gateA, gateB)
  }

  const EndedAtVerification: seq<Step> := [VerifyRequest]
  const EndedAtAllocation: seq<Step> := [VerifyRequest, RoomAllocator, ValidateAllocation]
  const FullChain: seq<Step> :=
    [VerifyRequest, RoomAllocator, ValidateAllocation, RoomPlanner, DoorPlanner, ValidatePlan, PlanRenderer, PlanOutput]

  /**
   * Every run is one of three: ended by Gate A right after `verify_request`,
   * ended by Gate B right after `validate_allocation`, or the full chain.
   */
  lemma RunIsOneOfThree(gateA: Route, gateB: Route)
    ensures gateA == End ==> Run(gateA, gateB) == EndedAtVerification
    ensures gateA == Continue && gateB == End ==> Run(gateA, gateB) == EndedAtAllocation
    ensures gateA == Continue && gateB == Continue ==> Run(gateA, gateB) == FullChain
  {
    var tail := Walk(RoomPlanner, gateA, gateB);
    assert Walk(PlanOutput, gateA, gateB) == [PlanOutput];
    assert Walk(PlanRenderer, gateA, gateB) == [PlanRenderer, PlanOutput];
    assert Walk(ValidatePlan, gateA, gateB) == [ValidatePlan, PlanRenderer, PlanOutput];
    assert Walk(DoorPlanner, gateA, gateB) == [DoorPlanner, ValidatePlan, PlanRenderer, PlanOutput];
    assert tail == [RoomPlanner, DoorPlanner, ValidatePlan, PlanRenderer, PlanOutput];
    if gateA == Continue {
      assert Walk(RoomAllocator, gateA, gateB) == [RoomAllocator] + Walk(ValidateAllocation, gateA, gateB);
      if gateB == Continue {
        assert Walk(ValidateAllocation, gateA, gateB) == [ValidateAllocation] + tail;
      }
    }
  }

  /** Along a walk the steps come strictly later and later in the wiring order. */
  lemma {:induction false} WalkMovesForward(s: Step, gateA: Route, gateB: Route)
    ensures forall i, j :: 0 <= i < j < |Walk(s, gateA, gateB)| ==>
              Rank(Walk(s, gateA, gateB)[i]) < Rank(Walk(s, gateA, gateB)[j])
    decreases 8 - Rank(s)
  {
    var run := Walk(s, gateA, gateB);
    match Next(s, RouteAt(s, gateA, gateB))
    case Finish =>
    case Goto(t) =>
      WalkMovesForward(t, gateA, gateB);
      var rest := Walk(t, gateA, gateB);
      assert run == [s] + rest;
      forall j | 0 <= j < |rest|
        ensures Rank(s) < Rank(rest[j])
      {
        if j > 0 {
          assert Rank(rest[0]) < Rank(rest[j]);
        }
      }
  }

  /** No step is run twice, and no run goes round a cycle. */
  lemma NoStepRunsTwice(gateA: Route, gateB: Route)
    ensures forall i, j :: 0 <= i < j < |Run(gateA, gateB)| ==> Run(gateA, gateB)[i] != Run(gateA, gateB)[j]
  {
    WalkMovesForward(Entry, gateA, gateB);
  }

  /** Every walk ends at a step whose edge ends the run. */
  lemma {:induction false} WalkEndsAtFinish(s: Step, gateA: Route, gateB: Route)
    ensures var run := Walk(s, gateA, gateB);
            Next(run[|run| - 1], RouteAt(run[|run| - 1], gateA, gateB)) == Finish
    ensures forall i :: 0 <= i < |Walk(s, gateA, gateB)| - 1 ==>
              Next(Walk(s, gateA, gateB)[i], RouteAt(Walk(s, gateA, gateB)[i], gateA, gateB))
                == Goto(Walk(s, gateA, gateB)[i + 1])
    decreases 8 - Rank(s)
  {
    match Next(s, RouteAt(s, gateA, gateB))
    case Finish =>
    case Goto(t) =>
      WalkEndsAtFinish(t, gateA, gateB);
      var rest := Walk(t, gateA, gateB);
      assert Walk(s, gateA, gateB) == [s] + rest;
  }

  /**
   * Whenever the renderer runs, the deduplication step ran just before it,
   * so the doors drawn are the deduplicated ones.
   */
  lemma DeduplicationPrecedesRendering(gateA: Route, gateB: Route, i: nat)
    requires i < |Run(gateA, gateB)| && Run(gateA, gateB)[i] == PlanRenderer
    ensures 0 < i && Run(gateA, gateB)[i - 1] == ValidatePlan
  {
    RunIsOneOfThree(gateA, gateB);
  }
}
