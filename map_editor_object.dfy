/** `MapEditorObject`: a placed object, the room it is anchored to, and its transform relative to that room. */
module MapObjects {
  import opened Wrappers
  import opened Vectors
  import Rooms

  /** The axes an `ObjectRotationComponent` marks as randomly rotated; an object without the component has none. */
  datatype RandomAxes = RandomAxes(x: bool, y: bool, z: bool)

  /** The sentinel reported for a randomly rotated axis (a relative angle off `Surface` can also be -1). */
  const RandomAngle: real := -1.0

  /** The world position expressed in the room's frame: unchanged on the surface, else the room's inverse transform. */
  function PositionIn(room: Rooms.Room, worldPosition: Vector3, level: Rooms.Level): Vector3 {
    if room.kind == Rooms.Surface then worldPosition else level.inverseTransformPoint(room, worldPosition)
  }

  /**
   * The rotation reported for an object with euler angles `eulerAngles` anchored to `room`: the angles
   * themselves on the surface, the difference to the room's angles elsewhere, and `RandomAngle` on every
   * random axis.
   */
  function RotationIn(room: Rooms.Room, eulerAngles: Vector3, axes: RandomAxes): (r: Vector3)
    ensures r.x == if axes.x then RandomAngle else if room.kind == Rooms.Surface then eulerAngles.x else eulerAngles.x - room.eulerAngles.x
    ensures r.y == if axes.y then RandomAngle else if room.kind == Rooms.Surface then eulerAngles.y else eulerAngles.y - room.eulerAngles.y
    ensures r.z == if axes.z then RandomAngle else if room.kind == Rooms.Surface then eulerAngles.z else eulerAngles.z - room.eulerAngles.z
  {
    var rotation := if room.kind == Rooms.Surface then eulerAngles else Sub(eulerAngles, room.eulerAngles);
    Vector3(
      if axes.x then RandomAngle else rotation.x,
      if axes.y then RandomAngle else rotation.y,
      if axes.z then RandomAngle else rotation.z)
  }

  /** A random axis hides the actual angle: two rotations that differ only on random axes are reported alike. */
  lemma RandomAxesHideAngles(room: Rooms.Room, a: Vector3, b: Vector3, axes: RandomAxes)
    requires !axes.x ==> a.x == b.x
    requires !axes.y ==> a.y == b.y
    requires !axes.z ==> a.z == b.z
    ensures RotationIn(room, a, axes) == RotationIn(room, b, axes)
  {
  }

  class MapEditorObject {
    /** `transform.position` and `transform.eulerAngles`. */
    var position: Vector3
    var eulerAngles: Vector3
    /** The flags of the object's `ObjectRotationComponent`. */
    var randomAxes: RandomAxes
    /** `_forcedRoom`, read and written through `ForcedRoomType`. */
    var forcedRoom: Rooms.RoomType
    /** `currentRoom`: the lazily resolved room, `None` for the null reference. */
    var currentRoom: Option<Rooms.Room>
    /** How many times `UpdateObject` re-spawned the object on the network. */
    var updateCount: nat
    /** The world position at which `currentRoom` was resolved. */
    ghost var anchoredAt: Vector3

    constructor (position: Vector3, eulerAngles: Vector3, randomAxes: RandomAxes)
      ensures this.position == position && this.eulerAngles == eulerAngles && this.randomAxes == randomAxes
      ensures forcedRoom == Rooms.Unknown && currentRoom == None && updateCount == 0
    {
      this.position := position;
      this.eulerAngles := eulerAngles;
      this.randomAxes := randomAxes;
      forcedRoom := Rooms.Unknown;
      currentRoom := None;
      updateCount := 0;
      anchoredAt := position;
    }

    /**
     * The cache is never stale with respect to the forced room type: a cached room is what `FindRoom`
     * gave for the current forced type at the position where it was resolved. Moving the object does
     * not refresh it.
     */
    ghost predicate CacheValid(level: Rooms.Level)
      reads this
    {
      currentRoom.Some? ==> currentRoom == Rooms.FindRoom(forcedRoom, anchoredAt, level)
    }

    /** The room the next getter uses: the cached one, or a fresh `FindRoom`. */
    ghost function Anchor(level: Rooms.Level): Option<Rooms.Room>
      reads this
    {
      if currentRoom.Some? then currentRoom else Rooms.FindRoom(forcedRoom, position, level)
    }

    /** `UpdateObject`: un-spawns and re-spawns the object, modelled as a counter of re-spawns. */
    method UpdateObject()
      modifies this`updateCount
      ensures updateCount == old(updateCount) + 1
    {
      updateCount := updateCount + 1;
    }

    /** The `ForcedRoomType` setter: drops the cached room, then stores the new type. */
    method SetForcedRoomType(value: Rooms.RoomType)
      modifies this`currentRoom, this`forcedRoom
      ensures forcedRoom == value && currentRoom == None
      ensures forall level :: CacheValid(level) && Anchor(level) == Rooms.FindRoom(value, position, level)
    {
      currentRoom := None;
      forcedRoom := value;
    }

    /** The shared prologue of the three getters: fill `currentRoom` by `FindRoom` when it is null. */
    method ResolveRoom(level: Rooms.Level) returns (room: Option<Rooms.Room>)
      modifies this`currentRoom, this`anchoredAt
      ensures room == old(Anchor(level)) && currentRoom == room
      ensures old(currentRoom).Some? ==> currentRoom == old(currentRoom)
      ensures old(CacheValid(level)) ==> CacheValid(level)
    {
      if currentRoom.None? {
        currentRoom := Rooms.FindRoom(forcedRoom, position, level);
        anchoredAt := position;
      }
      room := currentRoom;
    }

    /** `RelativePosition`: the object's position in the frame of its anchor room. */
    method RelativePosition(level: Rooms.Level) returns (r: Option<Vector3>)
      modifies this`currentRoom, this`anchoredAt
      ensures currentRoom == old(Anchor(level))
      ensures currentRoom.None? ==> r.None?
      ensures currentRoom.Some? ==> r == Some(PositionIn(currentRoom.value, position, level))
      ensures old(CacheValid(level)) ==> CacheValid(level)
    {
      var room := ResolveRoom(level);
      if room.None? {
        return None;
      }
      r := Some(PositionIn(room.value, position, level));
    }

    /** `RelativeRotation`: the object's rotation relative to its anchor room, random axes reported as `RandomAngle`. */
    method RelativeRotation(level: Rooms.Level) returns (r: Option<Vector3>)
      modifies this`currentRoom, this`anchoredAt
      ensures currentRoom == old(Anchor(level))
      ensures currentRoom.None? ==> r.None?
      ensures currentRoom.Some? ==> r == Some(RotationIn(currentRoom.value, eulerAngles, randomAxes))
      ensures old(CacheValid(level)) ==> CacheValid(level)
    {
      var room := ResolveRoom(level);
      if room.None? {
        return None;
      }
      var rotation := if room.value.kind == Rooms.Surface then eulerAngles else Sub(eulerAngles, room.value.eulerAngles);
      if randomAxes.x {
        rotation := rotation.(x := RandomAngle);
      }
      if randomAxes.y {
        rotation := rotation.(y := RandomAngle);
      }
      if randomAxes.z {
        rotation := rotation.(z := RandomAngle);
      }
      r := Some(rotation);
    }

    /** `RoomType`: the type of the anchor room. */
    method RoomType(level: Rooms.Level) returns (r: Option<Rooms.RoomType>)
      modifies this`currentRoom, this`anchoredAt
      ensures currentRoom == old(Anchor(level))
      ensures currentRoom.None? ==> r.None?
      ensures currentRoom.Some? ==> r == Some(currentRoom.value.kind)
      ensures old(CacheValid(level)) ==> CacheValid(level)
    {
      var room := ResolveRoom(level);
      if room.None? {
        return None;
      }
      r := Some(room.value.kind);
    }
  }

  /**
   * The three getters agree on one room: the first resolves and caches it at the object's current
   * position, and the others reuse it even after the object has moved.
   */
  method GettersShareOneRoom(obj: MapEditorObject, level: Rooms.Level, moved: Vector3)
    returns (kind: Option<Rooms.RoomType>, pos: Option<Vector3>, rot: Option<Vector3>)
    modifies obj`position, obj`currentRoom, obj`anchoredAt
    ensures obj.position == moved
    ensures old(obj.Anchor(level)).Some? ==>
      && obj.currentRoom == old(obj.Anchor(level))
      && kind == Some(obj.currentRoom.value.kind)
      && pos == Some(PositionIn(obj.currentRoom.value, moved, level))
      && rot == Some(RotationIn(obj.currentRoom.value, obj.eulerAngles, obj.randomAxes))
  {
    kind := obj.RoomType(level);
    obj.position := moved;
    pos := obj.RelativePosition(level);
    rot := obj.RelativeRotation(level);
  }
}
