# MapEditorReborn: room anchoring and the rotate command, in Dafny

This project models two pieces of the MapEditorReborn plugin for SCP: Secret Laboratory servers.

- **Room anchoring** (`MapEditorObject`). A placed object belongs to a room. If the object has a forced room type, that room is the nearest room of that type. Otherwise it is the engine's structural parent room. There is one exception: a `Surface` answer at or below height -500 is replaced by the nearest room of the whole map. The room is resolved lazily and cached. Only the `ForcedRoomType` setter clears the cache. The object's relative position, relative rotation and room type are all computed against the cached room. A randomised rotation axis is reported as -1.
- **The `rotate` command** (`Rotate`). The command resolves the player's selected object: first the session variable, then the tool gun. It then toggles the player's entry in the `RotatingPlayers` dictionary. Adding an entry starts a per-frame coroutine. On each frame the coroutine advances a counter that shows a hint every 60 frames. If the player has moved, it turns the object by the rounded displacement times ten and puts the player back at the start position. When the round ends, the coroutine removes the player's entry.

`Timing.RunCoroutine` runs the new coroutine up to its first frame wait before `RotatingPlayers.Add` registers it. So a rotation started after the round has ended exits at once, its `Remove(player)` finds no entry yet, and `Add` then registers a coroutine that has already finished. The player stays registered with no loop running, and their next `rotate` answers "Ungrabbed". The model keeps this behaviour: a registered coroutine may have finished, and only a running coroutine is guaranteed to be the one registered for its player.

Files:

- `wrappers.dfy`: `Option`.
- `vectors.dfy`: `Vector3` as a triple of reals, and `Mathf.Round`.
- `rooms.dfy`: room records, the map as this core sees it (`Level`), the nearest-room query, and `FindRoom`.
- `map_editor_object.dfy`: the `MapEditorObject` class, with its cache, the `ForcedRoomType` setter and the three getters.
- `rotate.dfy`: the `Player`, `RotatingCoroutine` and `Rotate` classes, the frame counter and the per-frame step.

The engine's collaborators are inputs:

- `Map.Rooms`, `Map.FindParentRoom` and `Transform.InverseTransformPoint` are the fields of `Rooms.Level`.
- The permission check is a boolean argument of `Execute`.
- `ToolGunHandler.TryGetMapObject` is a nullable argument of `Execute`.
- The hint (`ShowGameObjectHint`) and the indicator refresh (`UpdateIndicator`) are boolean results of `Tick`.
- `UpdateObject`'s network re-spawn is a counter on the object.

`OrderBy(distance).First()` is a stable sort followed by taking the first element. So it returns the first room, in `Map.Rooms` order, whose squared distance is minimal. `Rooms.Nearest` computes exactly that, as a recursive argmin. `Rooms.IsFirstNearest` states it independently of the recursion. When `First()` throws on an empty candidate list, the model returns `None`, and the getters then leave the cache empty.

The code keeps the cached room while the object is rotated, and the model does the same. A rotation step changes the object's euler angles and nothing else about its anchoring.

## Model

| member | source | states |
|---|---|---|
| `Vectors.MathfRound` | MapEditorReborn/Commands/ModifyingCommands/Rotation/SubCommands/Rotate.cs:97-99 | the rounded value is an integer within 1/2 of its argument |
| `Rotation.Round` | MapEditorReborn/Commands/ModifyingCommands/Rotation/SubCommands/Rotate.cs:95-102 | each component of the result is whole and within 1/2 of the same component of the input; the components are rounded independently |
| `Rotation.SmallDisplacements` | MapEditorReborn/Commands/ModifyingCommands/Rotation/SubCommands/Rotate.cs:86 | a 0.03 displacement along x adds no rotation; a 0.07 displacement adds -1 on x |
| `Rotation.NextFrame` | MapEditorReborn/Commands/ModifyingCommands/Rotation/SubCommands/Rotate.cs:76-81 | from a counter in 0..59, the next counter is (i+1) mod 60 and stays in 0..59; the hint is shown exactly when the counter wraps to 0 |
| `Rotation.CounterAfter` | MapEditorReborn/Commands/ModifyingCommands/Rotation/SubCommands/Rotate.cs:70-81 | the counter, starting from 0, stays in 0..59 after any number of iterations |
| `Rotation.FrameCycle` | MapEditorReborn/Commands/ModifyingCommands/Rotation/SubCommands/Rotate.cs:70-81 | after n iterations the counter is n mod 60; iteration n shows the hint exactly when n is a multiple of 60 |
| `Rotation.RotatingCoroutine.constructor` | MapEditorReborn/Commands/ModifyingCommands/Rotation/SubCommands/Rotate.cs:67-70 | a new coroutine snapshots the player's position as its start and sets the counter to 0; it is running unless its first loop test already sees the round ended |
| `Rotation.RotatingCoroutine.Tick` | MapEditorReborn/Commands/ModifyingCommands/Rotation/SubCommands/Rotate.cs:72-92 | one resumption after the frame wait. The counter advances as in `NextFrame`, and the hint shows exactly on the session's iterations numbered by a multiple of 60; the registry invariant ties the counter to `CounterAfter` of the iteration count. If the player is at the start position, the rotation is unchanged and there is no update or indicator refresh. If not, the rotation grows by `Round((start - pos) * 10)`, the object is updated once and the indicator is refreshed. In both cases the player ends at the start position. Then the loop test: if the round has ended, the coroutine stops and the player's entry is removed; otherwise the dictionary is unchanged. The registry invariant is kept |
| `Rotation.Rotate.constructor` | MapEditorReborn/Commands/ModifyingCommands/Rotation/SubCommands/Rotate.cs:107 | `RotatingPlayers` starts empty |
| `Rotation.Rotate.Execute` | MapEditorReborn/Commands/ModifyingCommands/Rotation/SubCommands/Rotate.cs:31-65 | no permission: false with the permission message, nothing changed. No selected object and no tool-gun hit: false with "You haven't selected any object!", and the dictionary is unchanged, even for a player who is registered; a failed call changes no coroutine. Otherwise it succeeds and the tool-gun hit becomes the selection. A registered player's coroutine is killed and only that key is removed ("Ungrabbed"). An unregistered player gets exactly one new key, mapped to a fresh coroutine on the selected object that starts at the player's position and is running unless the round has already ended ("Grabbed"). Only the killed coroutine's `running` flag may change; each player maps to their own coroutine, and a running coroutine is the one registered for its player |
| `Rotation.EntryAfterRoundEnd` | MapEditorReborn/Commands/ModifyingCommands/Rotation/SubCommands/Rotate.cs:61-72 | a rotation started after the round has ended leaves the player registered, mapped to a coroutine that is no longer running |
| `Rotation.ToggleTwice` | MapEditorReborn/Commands/ModifyingCommands/Rotation/SubCommands/Rotate.cs:53-64 | for an unregistered player with a selection, two toggles answer "Grabbed" then "Ungrabbed" and leave the dictionary as it was |
| `Rooms.Nearest` | MapEditorReborn/API/Components/MapEditorObject.cs:101 | the result is an admitted room at least as near as every admitted room, and strictly nearer than every admitted room before it; `None` exactly when no room is admitted |
| `Rooms.FirstNearestIsUnique` | MapEditorReborn/API/Components/MapEditorObject.cs:101 | at most one index is the first nearest, so ordering then taking the first is deterministic |
| `Rooms.NearestIsFirstNearest` | MapEditorReborn/API/Components/MapEditorObject.cs:101 | `Nearest` returns index i if and only if i is the first nearest admitted room |
| `Rooms.NearestRoom` | MapEditorReborn/API/Components/MapEditorObject.cs:106 | the returned room is admitted and is the first nearest in enumeration order; `None` exactly when no room is admitted |
| `Rooms.FindRoom` | MapEditorReborn/API/Components/MapEditorObject.cs:98-109 | with a forced type: the first nearest room of exactly that type, or `None` exactly when no room has that type. Without one: the parent room unchanged, unless the parent is `Surface` and y <= -500. In that case: the first nearest of all rooms, or `None` exactly when the map has no rooms |
| `MapObjects.RotationIn` | MapEditorReborn/API/Components/MapEditorObject.cs:62-76 | each random axis is exactly -1. Every other axis is the object's euler angle on `Surface`, or the object's angle minus the room's elsewhere |
| `MapObjects.RandomAxesHideAngles` | MapEditorReborn/API/Components/MapEditorObject.cs:64-74 | two rotations that differ only on random axes are reported identically |
| `MapObjects.MapEditorObject.constructor` | MapEditorReborn/API/Components/MapEditorObject.cs:121-122 | a new object has no cached room and forced type `Unknown` |
| `MapObjects.MapEditorObject.UpdateObject` | MapEditorReborn/API/Components/MapEditorObject.cs:18-22 | each call re-spawns the object once, modelled as a counter |
| `MapObjects.MapEditorObject.SetForcedRoomType` | MapEditorReborn/API/Components/MapEditorObject.cs:27-35 | stores the new type and clears the cache, so for every map the next getter resolves `FindRoom` with the new type at the current position |
| `MapObjects.MapEditorObject.ResolveRoom` | MapEditorReborn/API/Components/MapEditorObject.cs:44-45 | an empty cache is filled by `FindRoom`; a full cache is reused unchanged; a cache that matches the forced type stays so |
| `MapObjects.MapEditorObject.RelativePosition` | MapEditorReborn/API/Components/MapEditorObject.cs:40-49 | afterwards the cache holds the room that was cached before, or `FindRoom`'s result. The result is `PositionIn` for that room (the world position on `Surface`, the room's inverse transform of it otherwise), or `None` when no room could be found |
| `MapObjects.MapEditorObject.RelativeRotation` | MapEditorReborn/API/Components/MapEditorObject.cs:55-78 | the axis-by-axis overwrite computes `RotationIn` for the cached or freshly found room, and the cache is updated as in `RelativePosition` |
| `MapObjects.MapEditorObject.RoomType` | MapEditorReborn/API/Components/MapEditorObject.cs:83-92 | the result is the type of the same room the other getters use, and the cache is updated as in `RelativePosition` |
| `MapObjects.GettersShareOneRoom` | MapEditorReborn/API/Components/MapEditorObject.cs:40-92 | once a getter has resolved a room, moving the object does not change it: the three getters answer for the room found at the old position |

## Left out

- Network replication: `NetworkServer.UnSpawn`/`Spawn` in `UpdateObject` is represented only by a counter of calls.
- `Scale` and `Destroy`: Unity object lifecycle, outside the anchoring logic.
- Engine geometry: `Map.FindParentRoom` and `InverseTransformPoint` are given functions, not implementations. `FindParentRoom` is taken to depend only on the object's world position. A null parent room is not modelled.
- Unity's euler-angle normalisation into [0, 360) on assignment is not modelled; rotation is plain component-wise addition and subtraction.
- Floating point: vectors are exact reals. Unity's `Vector3 ==` treats vectors closer than about 1e-5 as equal; the model compares exactly.
- Vectors.MathfRound: the contract states only the 1/2 bound. The body sends half-way values to the even integer, as `Mathf.Round` is documented to do, but no contract promises this.
- Coroutine scheduling: `Timing.RunCoroutine` and `WaitForOneFrame` are not modelled as a scheduler. The coroutine's run up to its first wait (the snapshot and the first loop test) is the `RotatingCoroutine` constructor. Each later resumption is one `Tick`: the body that follows the wait, then the loop test. `Timing.KillCoroutines` becomes clearing the coroutine's `running` flag, and `Tick` only runs on a running coroutine.
- Player lookup: `Player.Get(sender)` is the given `player`; a null player is not modelled.
- `ToolGunHandler.SelectObject` is modelled only as storing the object in the player's selection session variable. Its other effects are not part of this model.
- The command name, aliases and description (`Rotate.cs` lines 22-28) are constants with no behaviour.
