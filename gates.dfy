/**
 * The two validation gates. Both ask the language model for a free-text
 * verdict and route on the sentinel words it contains; the model is not part
 * of this model, so its answer (or the exception it raised) is an input.
 *
 * Gate A (`should_continue_after_verification`) routes on "UNREASONABLE" /
 * "REASONABLE". Gate B (`should_continue_after_allocation`) first checks the
 * allocation's structure locally and only then routes on "INVALID" /
 * "VALID". In both, the rejecting word contains the accepting one, so it
 * must be tested first.
 */
module Gates {
  import opened Text
  import opened Models

  /** What a call to the language model gives back: the text of its answer, or the exception raised. */
  datatype Reply = Answered(content: string) | Raised(error: string)

  /** The label a routing function returns: "CONTINUE" or "END". */
  datatype Route = Continue | End

  /** What phase 1 of the allocation gate reports, in the order it checks. */
  datatype Problem =
    | MissingRooms
    | MissingDimensions
    | MissingTotalArea
    | RoomMissingFields(roomNumber: nat)   // one-based, as in the message

  /** How a gate classified what it saw. */
  datatype Verdict =
    | Rejected                 // the rejecting word was found; an error is printed
    | Accepted                 // only the accepting word was found; a success is printed
    | Unclear                  // neither word; a warning is printed and the gate lets it pass
    | CallFailed               // the model call raised
    | Malformed(problem: Problem)

  /** The route each verdict takes: only an accepted or unclear verdict continues. */
  function RouteOf(v: Verdict): Route {
    if v.Accepted? || v.Unclear? then Continue else End
  }

  /**
   * `response.content.strip().upper()`: an answer with no white space at
   * either end and no lower-case ASCII letter, no longer than the reply.
   */
  function Normalize(content: string): (text: string)
    ensures |text| == |Strip(content)| <= |content|
    ensures IsStripped(text)
    ensures forall i :: 0 <= i < |text| ==> !('a' <= text[i] <= 'z')
  {
    Upper(Strip(content))
  }

  /** The classification both gates share: rejecting word first, then accepting word, else unclear. */
  function Classify(reply: Reply, reject: string, accept: string): (v: Verdict)
    ensures v == CallFailed <==> reply.Raised?
    ensures v == Rejected <==> reply.Answered? && Contains(Normalize(reply.content), reject)
    ensures v == Accepted <==> && reply.Answered? && !Contains(Normalize(reply.content), reject)
                               && Contains(Normalize(reply.content), accept)
    ensures v == Unclear <==> && reply.Answered? && !Contains(Normalize(reply.content), reject)
                              && !Contains(Normalize(reply.content), accept)
    ensures !v.Malformed?
  {
    match reply
    case Raised(_) => CallFailed
    case Answered(content) =>
      var text := Normalize(content);
      if Contains(text, reject) then Rejected
      else if Contains(text, accept) then Accepted
      else Unclear
  }

  const Unreasonable: string := "UNREASONABLE"
  const Reasonable: string := "REASONABLE"
  const Invalid: string := "INVALID"
  const Valid: string := "VALID"

  /** "UNREASONABLE" has "REASONABLE" inside it, and "INVALID" has "VALID". */
  lemma RejectingWordsContainAcceptingWords()
    ensures Contains(Unreasonable, Reasonable)
    ensures Contains(Invalid, Valid)
  {
    assert OccursAt(Unreasonable, Reasonable, 2);
    ContainsAt(Unreasonable, Reasonable);
    assert OccursAt(Invalid, Valid, 2);
    ContainsAt(Invalid, Valid);
  }

  /**
   * Any answer that has the rejecting word also has the accepting word,
   * which is why the gates must test the rejecting word first.
   */
  lemma RejectionAlsoMatchesAcceptance(text: string)
    ensures Contains(text, Unreasonable) ==> Contains(text, Reasonable)
    ensures Contains(text, Invalid) ==> Contains(text, Valid)
  {
    RejectingWordsContainAcceptingWords();
    if Contains(text, Unreasonable) {
      ContainsTransitive(text, Unreasonable, Reasonable);
    }
    if Contains(text, Invalid) {
      ContainsTransitive(text, Invalid, Valid);
    }
  }

  // ---- Gate A: is the request reasonable? ----

  /**
   * Gate A ends the run exactly when the call raised or the normalized
   * answer contains "UNREASONABLE"; an answer with "REASONABLE", or with
   * neither word, continues.
   */
  function ShouldContinueAfterVerification(reply: Reply): (route: Route)
    ensures route == End <==> reply.Raised? || Contains(Normalize(reply.content), Unreasonable)
  {
    RouteOf(Classify(reply, Unreasonable, Reasonable))
  }

  /** An "UNREASONABLE" answer ends the run although it also matches "REASONABLE". */
  lemma UnreasonableAnswerEnds(content: string)
    requires Contains(Normalize(content), Unreasonable)
    ensures Contains(Normalize(content), Reasonable)
    ensures Classify(Answered(content), Unreasonable, Reasonable) == Rejected
    ensures ShouldContinueAfterVerification(Answered(content)) == End
  {
    RejectionAlsoMatchesAcceptance(Normalize(content));
  }

  /**
   * The test is case-blind on the answer: a reply saying "unreasonable" in
   * lower case, anywhere after trimming, also ends the run.
   */
  lemma LowerCaseRejectionEnds(content: string)
    requires Contains(Strip(content), "unreasonable")
    ensures ShouldContinueAfterVerification(Answered(content)) == End
  {
    UpperKeepsContains(Strip(content), "unreasonable");
    assert Upper("unreasonable") == Unreasonable;
  }

  // ---- Gate B, phase 1: is the allocation well formed? ----

  /** Python truthiness of an optional number: present and not zero. */
  predicate Truthy(v: Option<Measure>) {
    v.Some? && v.value != 0
  }

  /**
   * Phase 1's per-room test. A dictionary needs a non-empty `name` and a
   * non-zero `area`; a `Room` record only needs to have the attributes,
   * which it always does, whatever their values.
   */
  predicate RoomEntryOk(e: RoomEntry) {
    match e
    case DictRoom(name, area) => name.Some? && name.value != "" && Truthy(area)
    case RecordRoom(_) => true
  }

  /** The position of the first room that fails the per-room test, if any. */
  function FirstMalformed(rooms: seq<RoomEntry>): (r: Option<nat>)
    ensures r.None? <==> forall i :: 0 <= i < |rooms| ==> RoomEntryOk(rooms[i])
    ensures r.Some? ==> r.value < |rooms| && !RoomEntryOk(rooms[r.value])
                        && forall j :: 0 <= j < r.value ==> RoomEntryOk(rooms[j])
    decreases |rooms|
  {
    if rooms == [] then None
    else if !RoomEntryOk(rooms[0]) then Some(0)
    else match FirstMalformed(rooms[1..])
      case None => None
      case Some(k) => Some(k + 1)
  }

  /** The loop of phase 1 over the rooms, stopping at the first room missing a field. */
  method FindMalformedRoom(rooms: seq<RoomEntry>) returns (bad: Option<nat>)
    ensures bad == FirstMalformed(rooms)
  {
    for i := 0 to |rooms|
      invariant forall j :: 0 <= j < i ==> RoomEntryOk(rooms[j])
    {
      var ok := match rooms[i]
        case DictRoom(name, area) => name.Some? && name.value != "" && area.Some? && area.value != 0
        case RecordRoom(_) => true;
      if !ok {
        return Some(i);
      }
    }
    return None;
  }

  /**
   * Phase 1: the first structural fault, in the order
   * `should_continue_after_allocation` checks them (rooms, then width and
   * height, then total area, then each room); none exactly when every check
   * passes.
   */
  function StructuralProblem(rooms: Option<seq<RoomEntry>>, width: Option<int>, height: Option<int>,
                             totalArea: Option<Measure>): (p: Option<Problem>)
    ensures p.None? <==> && rooms.Some? && rooms.value != []
                         && Truthy(width) && Truthy(height) && Truthy(totalArea)
                         && forall i :: 0 <= i < |rooms.value| ==> RoomEntryOk(rooms.value[i])
    ensures p == Some(MissingRooms) <==> rooms.None? || rooms.value == []
    ensures p == Some(MissingDimensions) <==> && rooms.Some? && rooms.value != []
                                              && (!Truthy(width) || !Truthy(height))
    ensures p == Some(MissingTotalArea) <==> && rooms.Some? && rooms.value != []
                                             && Truthy(width) && Truthy(height) && !Truthy(totalArea)
    ensures (p.Some? && p.value.RoomMissingFields?) <==>
              && rooms.Some? && rooms.value != [] && Truthy(width) && Truthy(height) && Truthy(totalArea)
              && FirstMalformed(rooms.value).Some?
    ensures p.Some? && p.value.RoomMissingFields? ==> FirstMalformed(rooms.value) == Some(p.value.roomNumber - 1)
    ensures p.Some? && p.value.RoomMissingFields? ==>
              && 1 <= p.value.roomNumber <= |rooms.value|
              && !RoomEntryOk(rooms.value[p.value.roomNumber - 1])
  {
    if rooms.None? || rooms.value == [] then Some(MissingRooms)
    else if !Truthy(width) || !Truthy(height) then Some(MissingDimensions)
    else if !Truthy(totalArea) then Some(MissingTotalArea)
    else match FirstMalformed(rooms.value)
      case Some(i) => Some(RoomMissingFields(i + 1))
      case None => None
  }

  // ---- Gate B: phase 1, then the model's verdict ----

  /** Gate B's verdict: a structural fault if there is one, else the model's answer classified. */
  function AllocationVerdict(rooms: Option<seq<RoomEntry>>, width: Option<int>, height: Option<int>,
                             totalArea: Option<Measure>, reply: Reply): (v: Verdict)
    ensures v.Malformed? <==> StructuralProblem(rooms, width, height, totalArea).Some?
    ensures v.Malformed? ==> StructuralProblem(rooms, width, height, totalArea) == Some(v.problem)
    ensures !v.Malformed? ==> v == Classify(reply, Invalid, Valid)
  {
    match StructuralProblem(rooms, width, height, totalArea)
    case Some(p) => Malformed(p)
    case None => Classify(reply, Invalid, Valid)
  }

  /**
   * Gate B ends the run exactly when phase 1 finds a fault, the call raised,
   * or the normalized answer contains "INVALID".
   */
  function AllocationRoute(rooms: Option<seq<RoomEntry>>, width: Option<int>, height: Option<int>,
                                         totalArea: Option<Measure>, reply: Reply): (route: Route)
    ensures route == End <==> || StructuralProblem(rooms, width, height, totalArea).Some?
                              || reply.Raised?
                              || Contains(Normalize(reply.content), Invalid)
  {
    RouteOf(AllocationVerdict(rooms, width, height, totalArea, reply))
  }

  /**
   * When phase 1 fails, the model's answer plays no part: the gate ends the
   * run with the same verdict whatever the model would have said, so the
   * model need not be called.
   */
  lemma StructuralFaultIgnoresModel(rooms: Option<seq<RoomEntry>>, width: Option<int>, height: Option<int>,
                                    totalArea: Option<Measure>, reply1: Reply, reply2: Reply)
    requires StructuralProblem(rooms, width, height, totalArea).Some?
    ensures AllocationVerdict(rooms, width, height, totalArea, reply1)
         == AllocationVerdict(rooms, width, height, totalArea, reply2)
    ensures AllocationVerdict(rooms, width, height, totalArea, reply1).Malformed?
    ensures AllocationRoute(rooms, width, height, totalArea, reply1) == End
  {
  }

  /** An "INVALID" answer ends the run although it also matches "VALID". */
  lemma InvalidAnswerEnds(rooms: Option<seq<RoomEntry>>, width: Option<int>, height: Option<int>,
                          totalArea: Option<Measure>, content: string)
    requires StructuralProblem(rooms, width, height, totalArea).None?
    requires Contains(Normalize(content), Invalid)
    ensures Contains(Normalize(content), Valid)
    ensures AllocationVerdict(rooms, width, height, totalArea, Answered(content)) == Rejected
  {
    RejectionAlsoMatchesAcceptance(Normalize(content));
  }

  /**
   * The allocation step stores `Room` records, which phase 1 checks only
   * for having the attributes: with non-zero dimensions and total area and
   * at least one room, phase 1 passes even for a room whose area is zero.
   */
  lemma RecordRoomsPassPhaseOne(plan: FloorPlan)
    requires plan.rooms != [] && plan.width != 0 && plan.height != 0 && plan.totalArea != 0
    ensures StructuralProblem(Some(AsEntries(plan.rooms)), Some(plan.width), Some(plan.height),
                              Some(plan.totalArea)).None?
  {
    var entries := AsEntries(plan.rooms);
    assert forall i :: 0 <= i < |entries| ==> RoomEntryOk(entries[i]);
  }

  /** An empty room list is reported as missing rooms, whatever else the state holds. */
  lemma EmptyRoomsReportedMissing(width: Option<int>, height: Option<int>, totalArea: Option<Measure>, reply: Reply)
    ensures AllocationVerdict(Some([]), width, height, totalArea, reply) == Malformed(MissingRooms)
  {
  }
}
