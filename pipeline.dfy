/**
 * The shared state (`FloorPlanState`) and the steps that update it, plus a
 * run of the compiled graph: starting at the entry point, run a step, ask
 * the graph for the next one, until the run ends. Every answer of the
 * language model is an input (`Gateway`).
 */
module Pipeline {
  import opened Models
  import opened Gates
  import opened Doors
  import opened Text
  import opened Graph

  /**
   * The state dictionary threaded through every step. A key the steps have
   * not written yet is `None` (or `null` for the door plan object).
   */
  class PipelineState {
    var input: string
    var totalArea: Option<Measure>
    var width: Option<int>
    var height: Option<int>
    var rooms: Option<seq<RoomEntry>>
    var plan: Option<LayoutPlan>
    var doorPlan: DoorPlan?
    var renderedPlan: Option<Rendering>
    var validationPassed: Option<bool>

    /** `graph.invoke({"input": user_request})`: only the request is present. */
    constructor (input: string)
      ensures this.input == input
      ensures totalArea == None && width == None && height == None && rooms == None
      ensures plan == None && doorPlan == null && renderedPlan == None && validationPassed == None
    {
      this.input := input;
      totalArea, width, height, rooms := None, None, None, None;
      plan, doorPlan, renderedPlan, validationPassed := None, null, None, None;
    }

    /** `room_allocator`: copies the allocation's dimensions, total area and rooms into the state. */
    method RoomAllocator(allocation: FloorPlan)
      modifies this`height, this`width, this`totalArea, this`rooms
      ensures height == Some(allocation.height) && width == Some(allocation.width)
      ensures totalArea == Some(allocation.totalArea)
      ensures rooms == Some(AsEntries(allocation.rooms))
    {
      height := Some(allocation.height);
      width := Some(allocation.width);
      totalArea := Some(allocation.totalArea);
      rooms := Some(AsEntries(allocation.rooms));
    }

    /** `validate_allocation`: resets the validation flag to false and changes nothing else. */
    method ValidateAllocation()
      modifies this`validationPassed
      ensures validationPassed == Some(false)
    {
      validationPassed := Some(false);
    }

    /**
     * `should_continue_after_allocation`: phase 1 on the state's fields, then
     * the model's answer. The route is Gate B's, and the flag becomes true
     * exactly when the route is "CONTINUE"; otherwise it is left as it was.
     */
    method ShouldContinueAfterAllocation(reply: Reply) returns (route: Route)
      modifies this`validationPassed
      ensures route == AllocationRoute(rooms, width, height, totalArea, reply)
      ensures validationPassed == if route == Continue then Some(true) else old(validationPassed)
    {
      if rooms.None? || rooms.value == [] {
        assert StructuralProblem(rooms, width, height, totalArea) == Some(MissingRooms);
        return End;
      }
      if width.None? || width.value == 0 || height.None? || height.value == 0 {
        assert StructuralProblem(rooms, width, height, totalArea) == Some(MissingDimensions);
        return End;
      }
      if totalArea.None? || totalArea.value == 0 {
        assert StructuralProblem(rooms, width, height, totalArea) == Some(MissingTotalArea);
        return End;
      }
      var bad := FindMalformedRoom(rooms.value);
      if bad.Some? {
        assert StructuralProblem(rooms, width, height, totalArea) == Some(RoomMissingFields(bad.value + 1));
        return End;
      }
      assert StructuralProblem(rooms, width, height, totalArea) == None;
      match reply {
        case Raised(_) =>
          route := End;
        case Answered(content) =>
          var text := Normalize(content);
          if Contains(text, Invalid) {
            route := End;
          } else {
            validationPassed := Some(true);
            route := Continue;
          }
      }
    }

    /** `room_planner`: stores the layout. */
    method RoomPlanner(layout: LayoutPlan)
      modifies this`plan
      ensures plan == Some(layout)
    {
      plan := Some(layout);
    }

    /** `door_planner`: stores a new door plan object holding the model's doors. */
    method DoorPlanner(doors: seq<DoorLayout>)
      modifies this`doorPlan
      ensures doorPlan != null && fresh(doorPlan) && doorPlan.doors == doors
    {
      doorPlan := new DoorPlan(doors);
    }

    /**
     * `validate_plan`: replaces the door plan's list, in place, by its
     * deduplication; the state itself and everything else are untouched.
     * A warning is issued exactly when doors were removed.
     */
    method ValidatePlan() returns (removedCount: int, warned: bool)
      requires doorPlan != null
      modifies doorPlan
      ensures doorPlan.doors == Dedup(old(doorPlan.doors))
      ensures removedCount == |old(doorPlan.doors)| - |doorPlan.doors| && removedCount >= 0
      ensures warned <==> !NoDuplicateKeys(old(doorPlan.doors))
      ensures warned <==> removedCount > 0
    {
      var filtered;
      filtered, removedCount := DedupDoors(doorPlan.doors);
      doorPlan.doors := filtered;
      warned := removedCount > 0;
    }

    /** `plan_renderer`: draws (here: records) the layout with the current door list. */
    method PlanRenderer()
      requires plan.Some? && doorPlan != null
      modifies this`renderedPlan
      ensures renderedPlan == Some(Rendering(plan.value, doorPlan.doors))
    {
      renderedPlan := Some(Rendering(plan.value, doorPlan.doors));
    }

    /** `plan_output`: the picture that is saved is the rendered one. */
    method PlanOutput() returns (image: Rendering)
      requires renderedPlan.Some?
      ensures image == renderedPlan.value
    {
      image := renderedPlan.value;
    }
  }

  /** The model's answers for one run, in the order the steps call for them. */
  datatype Gateway = Gateway(
    verification: Reply,      // Gate A's free-text answer
    allocation: FloorPlan,    // room_allocator's structured answer
    validation: Reply,        // Gate B's free-text answer
    layout: LayoutPlan,       // room_planner's structured answer
    doors: seq<DoorLayout>)   // door_planner's structured answer

  /** Gate A's route for these answers. */
  function GateA(gw: Gateway): Route {
    ShouldContinueAfterVerification(gw.verification)
  }

  /** Gate B's route for these answers, on the state the allocation step leaves. */
  function GateB(gw: Gateway): Route {
    AllocationRoute(Some(AsEntries(gw.allocation.rooms)), Some(gw.allocation.width), Some(gw.allocation.height),
                    Some(gw.allocation.totalArea), gw.validation)
  }

  /** What the state holds when step `s` is about to run. */
  ghost predicate ReadyFor(st: PipelineState, s: Step, gw: Gateway)
    reads st, st.doorPlan
  {
    && (Rank(s) >= 2 ==>
          && st.rooms == Some(AsEntries(gw.allocation.rooms))
          && st.width == Some(gw.allocation.width) && st.height == Some(gw.allocation.height)
          && st.totalArea == Some(gw.allocation.totalArea))
    && (Rank(s) >= 4 ==> st.plan == Some(gw.layout))
    && (Rank(s) == 5 ==> st.doorPlan != null && st.doorPlan.doors == gw.doors)
    && (Rank(s) >= 6 ==> st.doorPlan != null && st.doorPlan.doors == Dedup(gw.doors))
    && (Rank(s) == 7 ==> st.renderedPlan == Some(Rendering(gw.layout, Dedup(gw.doors))))
  }

  /**
   * Runs step `s` on a state ready for it. The route it hands the graph is
   * the one the gates give for these answers; the state is then ready for
   * whichever step comes next; only the allocation gate touches the flag, and
   * only the output step yields a picture.
   */
  method Execute(st: PipelineState, s: Step, gw: Gateway) returns (route: Route, image: Option<Rendering>)
    requires ReadyFor(st, s, gw)
    modifies st, st.doorPlan
    ensures route == RouteAt(s, GateA(gw), GateB(gw))
    ensures Next(s, route).Goto? ==> ReadyFor(st, Next(s, route).step, gw)
    ensures st.input == old(st.input)
    ensures st.doorPlan != null ==> st.doorPlan == old(st.doorPlan) || fresh(st.doorPlan)
    ensures st.validationPassed == if s == ValidateAllocation then Some(GateB(gw) == Continue)
                                   else old(st.validationPassed)
    ensures image.Some? <==> s == PlanOutput
    ensures image.Some? ==> image.value == Rendering(gw.layout, Dedup(gw.doors))
  {
    if Rank(s) <= 2 {
      route, image := RunValidationStep(st, s, gw);
    } else {
      route, image := RunDesignStep(st, s, gw);
    }
  }

  /** The steps up to and including Gate B. */
  method RunValidationStep(st: PipelineState, s: Step, gw: Gateway) returns (route: Route, image: Option<Rendering>)
    requires Rank(s) <= 2
    requires ReadyFor(st, s, gw)
    modifies st, st.doorPlan
    ensures route == RouteAt(s, GateA(gw), GateB(gw))
    ensures Next(s, route).Goto? ==> ReadyFor(st, Next(s, route).step, gw)
    ensures st.input == old(st.input)
    ensures st.doorPlan != null ==> st.doorPlan == old(st.doorPlan) || fresh(st.doorPlan)
    ensures st.validationPassed == if s == ValidateAllocation then Some(GateB(gw) == Continue)
                                   else old(st.validationPassed)
    ensures image.Some? <==> s == PlanOutput
    ensures image.Some? ==> image.value == Rendering(gw.layout, Dedup(gw.doors))
  {
    route, image := Continue, None;
    match s {
      case VerifyRequest =>
        route := ShouldContinueAfterVerification(gw.verification);
        assert Next(s, route).Goto? ==> Next(s, route).step == RoomAllocator;
      case RoomAllocator =>
        st.RoomAllocator(gw.allocation);
        assert ReadyFor(st, ValidateAllocation, gw);
      case ValidateAllocation =>
        st.ValidateAllocation();
        route := st.ShouldContinueAfterAllocation(gw.validation);
        assert Next(s, route).Goto? ==> Next(s, route).step == RoomPlanner;
        assert ReadyFor(st, RoomPlanner, gw);
    }
  }

  /** The steps after Gate B: layout, doors, deduplication, rendering and output. */
  method RunDesignStep(st: PipelineState, s: Step, gw: Gateway) returns (route: Route, image: Option<Rendering>)
    requires Rank(s) >= 3
    requires ReadyFor(st, s, gw)
    modifies st, st.doorPlan
    ensures route == RouteAt(s, GateA(gw), GateB(gw))
    ensures Next(s, route).Goto? ==> ReadyFor(st, Next(s, route).step, gw)
    ensures st.input == old(st.input)
    ensures st.doorPlan != null ==> st.doorPlan == old(st.doorPlan) || fresh(st.doorPlan)
    ensures st.validationPassed == if s == ValidateAllocation then Some(GateB(gw) == Continue)
                                   else old(st.validationPassed)
    ensures image.Some? <==> s == PlanOutput
    ensures image.Some? ==> image.value == Rendering(gw.layout, Dedup(gw.doors))
  {
    route, image := Continue, None;
    match s {
      case RoomPlanner =>
        st.RoomPlanner(gw.layout);
        assert ReadyFor(st, DoorPlanner, gw);
      case DoorPlanner =>
        st.DoorPlanner(gw.doors);
        assert ReadyFor(st, ValidatePlan, gw);
      case ValidatePlan =>
        var _, _ := st.ValidatePlan();
        assert ReadyFor(st, PlanRenderer, gw);
      case PlanRenderer =>
        st.PlanRenderer();
        assert ReadyFor(st, PlanOutput, gw);
      case PlanOutput =>
        var picture := st.PlanOutput();
        image := Some(picture);
    }
  }

  /**
   * How far a run has got: the steps run so far followed by the steps still
   * to come make up the graph's whole run; the state is ready for the next
   * step; the flag, once written, says whether Gate B passed; and a picture
   * has been saved exactly when the output step has run, showing the layout
   * and the deduplicated doors.
   */
  ghost predicate Progress(st: PipelineState, gw: Gateway, trace: seq<Step>, at: Target, saved: Option<Rendering>)
    reads st, st.doorPlan
  {
    && trace + Remaining(at, GateA(gw), GateB(gw)) == Run(GateA(gw), GateB(gw))
    && (at.Goto? ==> ReadyFor(st, at.step, gw))
    && (ValidateAllocation in trace ==> st.validationPassed == Some(GateB(gw) == Continue))
    && (saved.Some? <==> PlanOutput in trace)
    && (saved.Some? ==> saved.value == Rendering(gw.layout, Dedup(gw.doors)))
  }

  /** One turn of the graph's run loop: run the current step and follow its edge. */
  method Advance(st: PipelineState, gw: Gateway, trace: seq<Step>, at: Target, saved: Option<Rendering>)
    returns (trace': seq<Step>, at': Target, saved': Option<Rendering>)
    requires at.Goto? && Progress(st, gw, trace, at, saved)
    modifies st, st.doorPlan
    ensures Progress(st, gw, trace', at', saved')
    ensures trace' == trace + [at.step] && at' == Next(at.step, RouteAt(at.step, GateA(gw), GateB(gw)))
    ensures st.input == old(st.input)
    ensures st.doorPlan != null ==> st.doorPlan == old(st.doorPlan) || fresh(st.doorPlan)
  {
    var s := at.step;
    var route, image := Execute(st, s, gw);
    saved' := if image.Some? then image else saved;
    WalkUnfolds(s, GateA(gw), GateB(gw));
    ghost var later := Remaining(Next(s, route), GateA(gw), GateB(gw));
    assert (trace + [s]) + later == trace + ([s] + later);
    trace' := trace + [s];
    at' := Next(s, route);
  }

  /**
   * One request through the compiled graph. The steps run are exactly the
   * graph's run for the two gates' routes; a picture is saved exactly when
   * both gates continue, and it shows the layout with the deduplicated doors;
   * once the allocation gate has run, the flag records whether it passed.
   */
  method Invoke(input: string, gw: Gateway) returns (st: PipelineState, trace: seq<Step>, saved: Option<Rendering>)
    ensures st.input == input
    ensures trace == Run(GateA(gw), GateB(gw))
    ensures saved.Some? <==> GateA(gw) == Continue && GateB(gw) == Continue
    ensures saved.Some? ==> saved.value == Rendering(gw.layout, Dedup(gw.doors))
    ensures ValidateAllocation in trace ==> st.validationPassed == Some(GateB(gw) == Continue)
  {
    st := new PipelineState(input);
    trace, saved := [], None;
    var at := Goto(Entry);
    while at.Goto?
      invariant fresh(st) && (st.doorPlan != null ==> fresh(st.doorPlan))
      invariant st.input == input
      invariant Progress(st, gw, trace, at, saved)
      decreases |Run(GateA(gw), GateB(gw))| - |trace|
    {
      trace, at, saved := Advance(st, gw, trace, at, saved);
    }
    RunIsOneOfThree(GateA(gw), GateB(gw));
  }
}
