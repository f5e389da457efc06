/**
 * The records the pipeline passes around: what the language model is asked
 * to return at each structured step, and the shapes a room can take inside
 * the shared state.
 */
module Models {

  datatype Option<T> = None | Some(value: T)

  /**
   * Floating-point quantities (areas, proportions, coordinates). The model
   * never computes with them; the allocation gate only asks whether one is
   * zero, so an integer stands in for the float.
   */
  type Measure = int

  /** One room of the allocation: its name ("Bedroom 1"), share of the house and area. */
  datatype Room = Room(name: string, proportion: Measure, area: Measure)

  /** The allocation step's answer: the house's total area, its dimensions and its rooms. */
  datatype FloorPlan = FloorPlan(totalArea: Measure, width: int, height: int, rooms: seq<Room>)

  /** One positioned room of the layout step's answer. */
  datatype RoomLayout = RoomLayout(name: string, area: Measure, x: Measure, y: Measure, width: Measure, height: Measure)

  /** The layout step's answer. */
  datatype LayoutPlan = LayoutPlan(width: int, height: int, rooms: seq<RoomLayout>)

  datatype Orientation = Vertical | Horizontal

  /** One door between the rooms named `fromRoom` and `toRoom`; only the names matter to deduplication. */
  datatype DoorLayout = DoorLayout(
    fromRoom: string, toRoom: string,
    x: Measure, y: Measure, width: Measure, height: Measure,
    orientation: Orientation)

  /**
   * The door step's answer. It is an object in the shared state, and the
   * plan-validation step replaces its door list in place.
   */
  class DoorPlan {
    var doors: seq<DoorLayout>

    constructor (doors: seq<DoorLayout>)
      ensures this.doors == doors
    {
      this.doors := doors;
    }
  }

  /**
   * A room as the allocation gate finds it in the state: either a
   * dictionary, whose `name` and `area` keys may be absent, or a `Room`
   * record, which always has both attributes.
   */
  datatype RoomEntry =
    | DictRoom(name: Option<string>, area: Option<Measure>)
    | RecordRoom(room: Room)

  /** The rooms exactly as the allocation step stores them in the state. */
  function AsEntries(rooms: seq<Room>): (entries: seq<RoomEntry>)
    ensures |entries| == |rooms|
    ensures forall i :: 0 <= i < |rooms| ==> entries[i] == RecordRoom(rooms[i])
  {
    seq(|rooms|, i requires 0 <= i < |rooms| => RecordRoom(rooms[i]))
  }

  /** What the renderer is given to draw: the layout and the door list. */
  datatype Rendering = Rendering(plan: LayoutPlan, doors: seq<DoorLayout>)
}
