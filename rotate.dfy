/** The `rotate` command: toggles a per-player rotation session and steps its per-frame loop. */
module Rotation {
  import opened Vectors
  import MapObjects

  /** The parts of an Exiled player this command uses. */
  class Player {
    var position: Vector3
    /** The `SelectedObjectSessionVarName` session variable; null when absent or null. */
    var selectedObject: MapObjects.MapEditorObject?

    constructor (position: Vector3, selectedObject: MapObjects.MapEditorObject?)
      ensures this.position == position && this.selectedObject == selectedObject
    {
      this.position := position;
      this.selectedObject := selectedObject;
    }
  }

  const PermissionDenied: string := "You don't have permission to execute this command. Required permission: mpr.rotation"
  const NothingSelected: string := "You haven't selected any object!"
  const Grabbed: string := "Grabbed"
  const Ungrabbed: string := "Ungrabbed"

  /** The loop shows the object's hint once every `HintPeriod` frames. */
  const HintPeriod: int := 60

  /** The frame counter after one loop iteration, and whether that iteration shows the hint. */
  datatype FrameStep = FrameStep(counter: int, showHint: bool)

  /** `i++; if (i == 60) { i = 0; ShowGameObjectHint(...) }`. */
  function NextFrame(i: int): (s: FrameStep)
    requires 0 <= i < HintPeriod
    ensures 0 <= s.counter < HintPeriod
    ensures s.showHint <==> s.counter == 0
    ensures s.counter == (i + 1) % HintPeriod
  {
    if i + 1 == HintPeriod then FrameStep(0, true) else FrameStep(i + 1, false)
  }

  /** The frame counter after `n` iterations of a session that started at 0. */
  function CounterAfter(n: nat): (i: int)
    ensures 0 <= i < HintPeriod
  {
    if n == 0 then 0 else NextFrame(CounterAfter(n - 1)).counter
  }

  /** The counter cycles through 0..59, and the hint shows exactly on every 60th iteration. */
  lemma {:induction false} FrameCycle(n: nat)
    ensures CounterAfter(n) == n % HintPeriod
    ensures n > 0 ==> (NextFrame(CounterAfter(n - 1)).showHint <==> n % HintPeriod == 0)
  {
    if n > 0 {
      FrameCycle(n - 1);
    }
  }

  /** The class's `Round`: `Mathf.Round` on each component. */
  function Round(v: Vector3): (r: Vector3)
    ensures IsWhole(r.x) && -0.5 <= v.x - r.x <= 0.5
    ensures IsWhole(r.y) && -0.5 <= v.y - r.y <= 0.5
    ensures IsWhole(r.z) && -0.5 <= v.z - r.z <= 0.5
  {
    Vector3(MathfRound(v.x) as real, MathfRound(v.y) as real, MathfRound(v.z) as real)
  }

  /** The rotation added in one frame for a player displaced from `start` to `position`. */
  function RotationDelta(start: Vector3, position: Vector3): Vector3 {
    Round(Scale(Sub(start, position), 10.0))
  }

  /** Small moves: a 0.03 step along x turns nothing, a 0.07 step turns one degree the other way. */
  lemma SmallDisplacements(start: Vector3)
    ensures RotationDelta(start, Add(start, Vector3(0.03, 0.0, 0.0))) == Vector3(0.0, 0.0, 0.0)
    ensures RotationDelta(start, Add(start, Vector3(0.07, 0.0, 0.0))) == Vector3(-1.0, 0.0, 0.0)
  {
  }

  /** One `RotatingCoroutine`; the object itself serves as its `CoroutineHandle`. */
  class RotatingCoroutine {
    const player: Player
    const target: MapObjects.MapEditorObject
    /** `playerStartPos`, taken when the coroutine starts. */
    const start: Vector3
    /** The loop's counter `i`. */
    var frameCounter: int
    /** False once the loop has exited or the coroutine was killed: the scheduler never resumes it again. */
    var running: bool
    /** How many loop iterations have resumed after a frame wait. */
    ghost var ticks: nat

    /**
     * `Timing.RunCoroutine` runs the coroutine up to its first wait: the start snapshot, `i = 0`, and the
     * first loop test, which exits at once when the round has already ended.
     */
    constructor (player: Player, target: MapObjects.MapEditorObject, roundEnded: bool)
      ensures this.player == player && this.target == target
      ensures start == player.position && frameCounter == 0 && ticks == 0 && running == !roundEnded
    {
      this.player := player;
      this.target := target;
      start := player.position;
      frameCounter := 0;
      running := !roundEnded;
      ticks := 0;
    }

    /**
     * One resumption after the frame wait: the counter advances (showing the hint each 60th frame); a
     * player who has not moved leaves the object as it was, and a player who has turns the object by
     * the rounded displacement times ten and is put back at the start position. Then the loop test:
     * if the round has ended, the loop exits and removes the player's entry.
     */
    method Tick(roundEnded: bool, rotate: Rotate) returns (hintShown: bool, indicatorUpdated: bool)
      requires rotate.Valid() && this in rotate.sessions && running
      modifies this`frameCounter, this`running, this`ticks, player`position, target`eulerAngles, target`updateCount,
        rotate`rotatingPlayers
      ensures rotate.Valid()
      ensures frameCounter == NextFrame(old(frameCounter)).counter
      ensures hintShown == NextFrame(old(frameCounter)).showHint
      ensures ticks == old(ticks) + 1 && (hintShown <==> ticks % HintPeriod == 0)
      ensures player.position == start
      ensures old(player.position) == start ==>
        && target.eulerAngles == old(target.eulerAngles) && target.updateCount == old(target.updateCount)
        && !indicatorUpdated
      ensures old(player.position) != start ==>
        && target.eulerAngles == Add(old(target.eulerAngles), RotationDelta(start, old(player.position)))
        && target.updateCount == old(target.updateCount) + 1
        && indicatorUpdated
      ensures running == !roundEnded
      ensures rotate.rotatingPlayers == if roundEnded then old(rotate.rotatingPlayers) - {player} else old(rotate.rotatingPlayers)
    {
      var step := NextFrame(frameCounter);
      frameCounter := step.counter;
      hintShown := step.showHint;
      ticks := ticks + 1;
      FrameCycle(ticks);
      indicatorUpdated := false;
      if start != player.position {
        target.eulerAngles := Add(target.eulerAngles, RotationDelta(start, player.position));
        target.UpdateObject();
        indicatorUpdated := true;
        player.position := start;
      }
      if roundEnded {
        rotate.rotatingPlayers := rotate.rotatingPlayers - {player};
        running := false;
      }
    }
  }

  /** The command object; `rotatingPlayers` is its static `RotatingPlayers` dictionary. */
  class Rotate {
    var rotatingPlayers: map<Player, RotatingCoroutine>
    /** Every coroutine this command has started. */
    ghost var sessions: set<RotatingCoroutine>

    /**
     * Each player maps to a coroutine of their own, and a running coroutine is the one registered for
     * its player; a coroutine's frame counter is what `CounterAfter` gives for its iterations so far.
     * A registered coroutine may have finished: one started after the round ended exits before it is
     * registered, and its entry stays.
     */
    ghost predicate Valid()
      reads this, sessions
    {
      && (forall p :: p in rotatingPlayers ==> rotatingPlayers[p] in sessions && rotatingPlayers[p].player == p)
      && (forall c :: c in sessions ==>
            && c.frameCounter == CounterAfter(c.ticks)
            && (c.running ==> c.player in rotatingPlayers && rotatingPlayers[c.player] == c))
    }

    constructor ()
      ensures Valid() && rotatingPlayers == map[] && sessions == {}
    {
      rotatingPlayers := map[];
      sessions := {};
    }

    /**
     * `Execute`: after the permission check and the selection lookup (the session variable, else the
     * tool gun, which also selects the object), either stops the player's rotation or starts one.
     * `roundEnded` is `RoundSummary.singleton.RoundEnded` when the new coroutine makes its first loop test.
     */
    method Execute(hasPermission: bool, player: Player, toolGunHit: MapObjects.MapEditorObject?, roundEnded: bool)
      returns (success: bool, response: string)
      requires Valid()
      modifies this, player`selectedObject, (if player in rotatingPlayers then {rotatingPlayers[player]} else {})`running
      ensures Valid()
      ensures !hasPermission ==>
        && !success && response == PermissionDenied
        && rotatingPlayers == old(rotatingPlayers) && sessions == old(sessions)
        && player.selectedObject == old(player.selectedObject)
      ensures hasPermission && old(player.selectedObject) == null && toolGunHit == null ==>
        && !success && response == NothingSelected
        && rotatingPlayers == old(rotatingPlayers) && sessions == old(sessions)
        && player.selectedObject == null
      ensures !success && player in old(rotatingPlayers) ==>
        old(rotatingPlayers)[player].running == old(rotatingPlayers[player].running)
      ensures hasPermission && (old(player.selectedObject) != null || toolGunHit != null) ==>
        && success
        && player.selectedObject == (if old(player.selectedObject) != null then old(player.selectedObject) else toolGunHit)
      ensures hasPermission && (old(player.selectedObject) != null || toolGunHit != null) && player in old(rotatingPlayers) ==>
        && response == Ungrabbed
        && rotatingPlayers == old(rotatingPlayers) - {player} && sessions == old(sessions)
        && !old(rotatingPlayers)[player].running
      ensures hasPermission && (old(player.selectedObject) != null || toolGunHit != null) && player !in old(rotatingPlayers) ==>
        && response == Grabbed
        && player in rotatingPlayers
        && rotatingPlayers == old(rotatingPlayers)[player := rotatingPlayers[player]]
        && fresh(rotatingPlayers[player]) && sessions == old(sessions) + {rotatingPlayers[player]}
        && rotatingPlayers[player].player == player && rotatingPlayers[player].target == player.selectedObject
        && rotatingPlayers[player].start == player.position && rotatingPlayers[player].frameCounter == 0
        && rotatingPlayers[player].running == !roundEnded
    {
      if !hasPermission {
        return false, PermissionDenied;
      }
      var mapObject := player.selectedObject;
      if mapObject == null {
        if toolGunHit == null {
          return false, NothingSelected;
        }
        mapObject := toolGunHit;
        player.selectedObject := mapObject;
      }
      if player in rotatingPlayers {
        var handle := rotatingPlayers[player];
        handle.running := false;
        rotatingPlayers := rotatingPlayers - {player};
        return true, Ungrabbed;
      }
      var coroutine := new RotatingCoroutine(player, mapObject, roundEnded);
      sessions := sessions + {coroutine};
      if !coroutine.running {
        // The loop exited inside `RunCoroutine`: its `Remove(player)` runs before the entry is added.
        rotatingPlayers := rotatingPlayers - {player};
      }
      rotatingPlayers := rotatingPlayers[player := coroutine];
      return true, Grabbed;
    }
  }

  /** Two successful toggles in a row answer "Grabbed" then "Ungrabbed" and leave no entry for the player. */
  method ToggleTwice(rotate: Rotate, player: Player, toolGunHit: MapObjects.MapEditorObject?, roundEnded: bool)
    returns (first: string, second: string)
    requires rotate.Valid() && player !in rotate.rotatingPlayers
    requires player.selectedObject != null || toolGunHit != null
    modifies rotate, player`selectedObject
    ensures rotate.Valid()
    ensures first == Grabbed && second == Ungrabbed
    ensures rotate.rotatingPlayers == old(rotate.rotatingPlayers)
  {
    var ok;
    ok, first := rotate.Execute(true, player, toolGunHit, roundEnded);
    ok, second := rotate.Execute(true, player, toolGunHit, roundEnded);
  }

  /**
   * Starting a rotation after the round has ended registers a coroutine that has already finished: the
   * player stays registered with no loop running, and it is the next `rotate` that answers "Ungrabbed".
   */
  method EntryAfterRoundEnd(rotate: Rotate, player: Player, toolGunHit: MapObjects.MapEditorObject?)
    returns (handle: RotatingCoroutine)
    requires rotate.Valid() && player !in rotate.rotatingPlayers
    requires player.selectedObject != null || toolGunHit != null
    modifies rotate, player`selectedObject
    ensures rotate.Valid()
    ensures player in rotate.rotatingPlayers && rotate.rotatingPlayers[player] == handle && !handle.running
  {
    var ok, response := rotate.Execute(true, player, toolGunHit, true);
    handle := rotate.rotatingPlayers[player];
  }
}
