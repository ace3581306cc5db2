/** Rooms of the map and the query that picks the room owning a world position (`MapEditorObject.FindRoom`). */
module Rooms {
  import opened Wrappers
  import opened Vectors

  /** The facility's room types: `Unknown` and `Surface` are the two this core treats specially. */
  datatype RoomType = Unknown | Surface | Facility(code: nat)

  /** A room as the engine reports it: its type, world position and world euler angles. */
  datatype Room = Room(kind: RoomType, position: Vector3, eulerAngles: Vector3)

  /**
   * The map as this core consults it: `Map.Rooms` in enumeration order, the engine's structural lookup
   * `Map.FindParentRoom` (as a function of the object's world position) and each room's
   * `transform.InverseTransformPoint`.
   */
  datatype Level = Level(
    rooms: seq<Room>,
    parentRoom: Vector3 -> Room,
    inverseTransformPoint: (Room, Vector3) -> Vector3)

  /** Which rooms a nearest-room query ranges over: all of them, or those of one type (the `Where` clause). */
  datatype Filter = AnyRoom | OfType(kind: RoomType)

  predicate Admits(f: Filter, room: Room) {
    f.AnyRoom? || room.kind == f.kind
  }

  /** The key the query orders by: `(room.Position - position).sqrMagnitude`. */
  function SqrDistance(room: Room, p: Vector3): real {
    SqrMagnitude(Sub(room.position, p))
  }

  /** Height at or below which a `Surface` answer of the structural lookup is not trusted. */
  const FallbackHeight: real := -500.0

  /**
   * What `Where(f).OrderBy(SqrDistance).First()` yields: `i` is an admitted room no further than any
   * other admitted room, and strictly nearer than every admitted room before it (the sort is stable).
   */
  ghost predicate IsFirstNearest(rooms: seq<Room>, p: Vector3, f: Filter, i: int) {
    && 0 <= i < |rooms|
    && Admits(f, rooms[i])
    && (forall j :: 0 <= j < |rooms| && Admits(f, rooms[j]) ==> SqrDistance(rooms[i], p) <= SqrDistance(rooms[j], p))
    && (forall j :: 0 <= j < i && Admits(f, rooms[j]) ==> SqrDistance(rooms[i], p) < SqrDistance(rooms[j], p))
  }

  /** Index of the first nearest admitted room, or `None` when no room is admitted (`First()` throws). */
  function Nearest(rooms: seq<Room>, p: Vector3, f: Filter): (r: Option<nat>)
    ensures r.Some? ==> IsFirstNearest(rooms, p, f, r.value)
    ensures r.None? <==> forall j :: 0 <= j < |rooms| ==> !Admits(f, rooms[j])
    decreases |rooms|
  {
    if |rooms| == 0 then None
    else
      var best := Nearest(rooms[..|rooms| - 1], p, f);
      var last := |rooms| - 1;
      if !Admits(f, rooms[last]) then best
      else if best.None? || SqrDistance(rooms[last], p) < SqrDistance(rooms[best.value], p) then Some(last)
      else best
  }

  /** Ordering by distance and taking the first leaves no choice: at most one index is the first nearest. */
  lemma FirstNearestIsUnique(rooms: seq<Room>, p: Vector3, f: Filter, i: int, k: int)
    requires IsFirstNearest(rooms, p, f, i) && IsFirstNearest(rooms, p, f, k)
    ensures i == k
  {
  }

  /** `Nearest` finds exactly the first nearest admitted room. */
  lemma NearestIsFirstNearest(rooms: seq<Room>, p: Vector3, f: Filter, i: int)
    ensures Nearest(rooms, p, f) == Some(i) <==> IsFirstNearest(rooms, p, f, i)
  {
  }

  /** The room `Where(f).OrderBy(SqrDistance).First()` returns, or `None` where `First()` throws. */
  function NearestRoom(rooms: seq<Room>, p: Vector3, f: Filter): (r: Option<Room>)
    ensures r.None? <==> forall j :: 0 <= j < |rooms| ==> !Admits(f, rooms[j])
    ensures r.Some? ==> Admits(f, r.value)
    ensures r.Some? ==> exists i :: IsFirstNearest(rooms, p, f, i) && r.value == rooms[i]
  {
    match Nearest(rooms, p, f)
    case None => None
    case Some(i) => Some(rooms[i])
  }

  /**
   * `FindRoom` for an object at `position` whose forced room type is `forced`: the nearest room of the
   * forced type when one is set; otherwise the structural parent room, unless that is `Surface` at or
   * below the fallback height, in which case the nearest room of all. `None` is the exception `First()`
   * raises on an empty candidate list.
   */
  function FindRoom(forced: RoomType, position: Vector3, level: Level): (r: Option<Room>)
    ensures forced != Unknown ==>
      && (r.None? <==> forall j :: 0 <= j < |level.rooms| ==> level.rooms[j].kind != forced)
      && (r.Some? ==> r.value.kind == forced)
      && (r.Some? ==> exists i :: IsFirstNearest(level.rooms, position, OfType(forced), i) && r.value == level.rooms[i])
    ensures forced == Unknown && !(level.parentRoom(position).kind == Surface && position.y <= FallbackHeight) ==>
      r == Some(level.parentRoom(position))
    ensures forced == Unknown && level.parentRoom(position).kind == Surface && position.y <= FallbackHeight ==>
      && (r.None? <==> |level.rooms| == 0)
      && (r.Some? ==> exists i :: IsFirstNearest(level.rooms, position, AnyRoom, i) && r.value == level.rooms[i])
  {
    if forced != Unknown then
      NearestRoom(level.rooms, position, OfType(forced))
    else
      var room := level.parentRoom(position);
      if room.kind == Surface && position.y <= FallbackHeight then
        NearestRoom(level.rooms, position, AnyRoom)
      else
        Some(room)
  }
}
