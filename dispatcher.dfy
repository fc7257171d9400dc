/** One frame of the game loop (src/main.rs): the window event is stored
    in the input slot, the dispatcher runs every system once in
    registration order, and `World::maintain` applies the inserts that
    `LazyUpdate` deferred. */
module Dispatcher {
  import opened Components
  import opened Input
  import opened Ecs
  import InputSys
  import AISys
  import SpriteMovementSys
  import UpdatePos
  import BlobInteractionSys
  import HealthSys
  import CleanupSys
  import GameInfoSys

  /** What the caller of a tick must provide: a window large enough for
      the unsigned `grid_columns() - 1` and `grid_rows() - 1`, and one
      random draw for every AI entity. */
  predicate TickOk(s: WorldState, dims: GridDimensions, rolls: map<Entity, AISys.AIRoll>)
  {
    GridOk(dims) && s.ais <= rolls.Keys
  }

  /** One tick with event `ev` at time `now`: the event is stored, the
      systems run in registration order (`input`, `ai_sys`,
      `sprite_updates`, `update_pos`, `blob_interaction`, `health`,
      `cleanup`, `game_info`), and then `World::maintain` runs. */
  function TickStep(s: WorldState, ev: Event, dims: GridDimensions, now: nat, rolls: map<Entity, AISys.AIRoll>): WorldState
    requires TickOk(s, dims, rolls)
  {
    var s0 := s.(inputEvent := Some(ev));
    var s1 := InputSys.Step(s0, dims, now);
    var s2 := AISys.Step(s1, dims, now, rolls);
    var s3 := SpriteMovementSys.Step(s2);
    var s4 := UpdatePos.Step(s3);
    var s5 := BlobInteractionSys.Step(s4);
    var s6 := HealthSys.Step(s5);
    var s7 := CleanupSys.Step(s6, now);
    var s8 := GameInfoSys.Step(s7);
    MaintainStep(s8)
  }

  /** One iteration of the game loop: `world.insert(InputEvent(Some(event)))`,
      `dispatcher.dispatch(&mut world)` and `world.maintain()`. */
  method Tick(w: World, ev: Event, dims: GridDimensions, now: nat, rolls: map<Entity, AISys.AIRoll>)
    requires w.Valid() && TickOk(w.View(), dims, rolls)
    modifies w
    ensures w.Valid()
    ensures w.View() == TickStep(old(w.View()), ev, dims, now, rolls)
  {
    w.inputEvent := Some(ev);
    InputSys.Run(w, dims, now);
    AISys.Run(w, dims, now, rolls);
    SpriteMovementSys.Run(w);
    UpdatePos.Run(w);
    BlobInteractionSys.Run(w);
    HealthSys.Run(w);
    CleanupSys.Run(w, now);
    GameInfoSys.Run(w);
    w.Maintain();
  }

  /** A tick keeps every storage within the live entities. */
  lemma TickKeepsWellFormed(s: WorldState, ev: Event, dims: GridDimensions, now: nat, rolls: map<Entity, AISys.AIRoll>)
    requires TickOk(s, dims, rolls) && WellFormed(s)
    ensures WellFormed(TickStep(s, ev, dims, now, rolls))
  {
    var s0 := s.(inputEvent := Some(ev));
    var s1 := InputSys.Step(s0, dims, now);
    var s2 := AISys.Step(s1, dims, now, rolls);
    var s3 := SpriteMovementSys.Step(s2);
    var s4 := UpdatePos.Step(s3);
    var s5 := BlobInteractionSys.Step(s4);
    var s6 := HealthSys.Step(s5);
    var s7 := CleanupSys.Step(s6, now);
    InputSys.StepKeepsWellFormed(s0, dims, now);
    AISys.StepKeepsWellFormed(s1, dims, now, rolls);
    SpriteMovementSys.StepKeepsWellFormed(s2);
    UpdatePos.StepKeepsWellFormed(s3);
    BlobInteractionSys.StepKeepsWellFormed(s4);
    HealthSys.StepKeepsWellFormed(s5);
    CleanupSys.StepKeepsWellFormed(s6, now);
    MaintainKeepsWellFormed(GameInfoSys.Step(s7));
  }

  /** Coordinates stay in bounds: when every held, proposed and deferred
      cell is on the grid before a tick, so is every one after it. */
  lemma TickKeepsInBounds(s: WorldState, ev: Event, dims: GridDimensions, now: nat, rolls: map<Entity, AISys.AIRoll>)
    requires TickOk(s, dims, rolls) && CoordsInBounds(s, GridColumns(dims) - 1, GridRows(dims) - 1)
    ensures CoordsInBounds(TickStep(s, ev, dims, now, rolls), GridColumns(dims) - 1, GridRows(dims) - 1)
  {
    var columns, rows := GridColumns(dims) - 1, GridRows(dims) - 1;
    var s0 := s.(inputEvent := Some(ev));
    var s1 := InputSys.Step(s0, dims, now);
    var s2 := AISys.Step(s1, dims, now, rolls);
    var s3 := SpriteMovementSys.Step(s2);
    var s8 := GameInfoSys.Step(CleanupSys.Step(HealthSys.Step(BlobInteractionSys.Step(UpdatePos.Step(s3))), now));
    InputSys.StepKeepsInBounds(s0, dims, now);
    AISys.StepKeepsInBounds(s1, dims, now, rolls);
    UpdatePos.StepKeepsInBounds(s3, columns, rows);
    MaintainKeepsInBounds(s8, columns, rows);
  }

  /** Across a tick health never increases, no health component appears or
      disappears, and death is never taken away. */
  lemma TickHealthAndDeath(s: WorldState, ev: Event, dims: GridDimensions, now: nat, rolls: map<Entity, AISys.AIRoll>)
    requires TickOk(s, dims, rolls)
    ensures TickStep(s, ev, dims, now, rolls).health.Keys == s.health.Keys
    ensures forall e :: e in s.health ==> TickStep(s, ev, dims, now, rolls).health[e] <= s.health[e]
    ensures s.deaths <= TickStep(s, ev, dims, now, rolls).deaths
  {
    var s5 := BlobInteractionSys.Step(UpdatePos.Step(SpriteMovementSys.Step(
      AISys.Step(InputSys.Step(s.(inputEvent := Some(ev)), dims, now), dims, now, rolls))));
    HealthSys.HealthAfterRun(s5);
    HealthSys.DeathAfterRun(s5);
  }

  /** The input slot is empty after every tick, whatever event came in. */
  lemma TickClearsInput(s: WorldState, ev: Event, dims: GridDimensions, now: nat, rolls: map<Entity, AISys.AIRoll>)
    requires TickOk(s, dims, rolls)
    ensures TickStep(s, ev, dims, now, rolls).inputEvent == None
    ensures TickStep(s, ev, dims, now, rolls).lazyActions == map[]
    ensures TickStep(s, ev, dims, now, rolls).lazyMoves == map[]
  {
  }

  /** A tick creates and deletes no entity, changes no player, AI or blob
      marker, and gives or takes no cell or position. */
  lemma TickKeepsEntities(s: WorldState, ev: Event, dims: GridDimensions, now: nat, rolls: map<Entity, AISys.AIRoll>)
    requires TickOk(s, dims, rolls)
    ensures var r := TickStep(s, ev, dims, now, rolls);
      && r.entities == s.entities && r.players == s.players && r.ais == s.ais && r.blobs == s.blobs
      && r.velocities == s.velocities
      && r.gridCoords.Keys == s.gridCoords.Keys && r.positions.Keys == s.positions.Keys
  {
    var s3 := SpriteMovementSys.Step(AISys.Step(InputSys.Step(s.(inputEvent := Some(ev)), dims, now), dims, now, rolls));
    UpdatePos.MovesApplied(s3);
  }

  /** An entity that is not an unlocked AI entity and holds a proposal, a
      cell and a position at the start of a tick ends the tick on the
      proposed cell, at its pixel position. */
  lemma PendingMoveLands(s: WorldState, ev: Event, dims: GridDimensions, now: nat, rolls: map<Entity, AISys.AIRoll>, e: Entity)
    requires TickOk(s, dims, rolls)
    requires e in s.newGridCoords && e in s.gridCoords && e in s.positions
    requires !AISys.Mover(s.ais, s.gridCoords, s.locks, e)
    ensures TickStep(s, ev, dims, now, rolls).gridCoords[e] == s.newGridCoords[e]
    ensures TickStep(s, ev, dims, now, rolls).positions[e] == UpdatePos.PixelOf(s.newGridCoords[e])
  {
    var s0 := s.(inputEvent := Some(ev));
    var s1 := InputSys.Step(s0, dims, now);
    var s2 := AISys.Step(s1, dims, now, rolls);
    var s3 := SpriteMovementSys.Step(s2);
    AISys.OthersUntouched(s1, dims, now, rolls, e);
    UpdatePos.MovesApplied(s3);
  }

  /** The player's move is deferred: an arrow press asks a joined player to
      move, the move is only pending (as a proposal) at the end of that
      tick, and the player's cell has not changed yet, provided it had no
      proposal before and is not an unlocked AI entity. */
  lemma PlayerMoveDeferred(s: WorldState, k: Key, dims: GridDimensions, now: nat, rolls: map<Entity, AISys.AIRoll>, e: Entity)
    requires TickOk(s, dims, rolls) && IsArrow(k)
    requires e in s.entities && InputSys.Joined(s, e) && e !in s.newGridCoords
    requires !AISys.Mover(s.ais, s.gridCoords, s.locks, e)
    requires KeyMove(s.gridCoords[e], k, GridColumns(dims) - 1, GridRows(dims) - 1).Some?
    ensures var r := TickStep(s, ButtonInput(Keyboard(k), Press), dims, now, rolls);
      && r.gridCoords[e] == s.gridCoords[e]
      && e in r.newGridCoords
      && r.newGridCoords[e] == KeyMove(s.gridCoords[e], k, GridColumns(dims) - 1, GridRows(dims) - 1).value
  {
    var s0 := s.(inputEvent := Some(ButtonInput(Keyboard(k), Press)));
    var s1 := InputSys.Step(s0, dims, now);
    var s2 := AISys.Step(s1, dims, now, rolls);
    var s3 := SpriteMovementSys.Step(s2);
    InputSys.ArrowQueuesMove(s0, dims, now, k, e);
    AISys.OthersUntouched(s1, dims, now, rolls, e);
    UpdatePos.MovesApplied(s3);
  }

  /** The player's move resolves on the next tick: whatever event that tick
      brings, the player ends it on the cell the arrow asked for. */
  lemma PlayerMoveResolvesNextTick(s: WorldState, k: Key, ev2: Event, dims: GridDimensions, now: nat, now2: nat,
                                   rolls: map<Entity, AISys.AIRoll>, rolls2: map<Entity, AISys.AIRoll>, e: Entity)
    requires TickOk(s, dims, rolls) && TickOk(s, dims, rolls2) && IsArrow(k)
    requires e in s.entities && InputSys.Joined(s, e) && e !in s.newGridCoords && e !in s.ais
    requires KeyMove(s.gridCoords[e], k, GridColumns(dims) - 1, GridRows(dims) - 1).Some?
    ensures var r := TickStep(s, ButtonInput(Keyboard(k), Press), dims, now, rolls);
      && TickOk(r, dims, rolls2)
      && TickStep(r, ev2, dims, now2, rolls2).gridCoords[e] ==
         KeyMove(s.gridCoords[e], k, GridColumns(dims) - 1, GridRows(dims) - 1).value
  {
    var r := TickStep(s, ButtonInput(Keyboard(k), Press), dims, now, rolls);
    PlayerMoveDeferred(s, k, dims, now, rolls, e);
    TickKeepsEntities(s, ButtonInput(Keyboard(k), Press), dims, now, rolls);
    PendingMoveLands(r, ev2, dims, now2, rolls2, e);
  }

  /** An AI move resolves in the same tick: an AI entity with a cell, a
      position and no lock ends the tick on the cell it proposed, at its
      pixel position, and locked for 500 ms from now. */
  lemma AIMoveResolvesSameTick(s: WorldState, ev: Event, dims: GridDimensions, now: nat, rolls: map<Entity, AISys.AIRoll>, e: Entity)
    requires TickOk(s, dims, rolls)
    requires AISys.Mover(s.ais, s.gridCoords, s.locks, e) && e in s.positions
    ensures var n := AISys.Proposal(s.gridCoords[e], rolls[e], GridColumns(dims) - 1, GridRows(dims) - 1);
      var r := TickStep(s, ev, dims, now, rolls);
      && r.gridCoords[e] == n
      && r.positions[e] == UpdatePos.PixelOf(n)
      && e in r.locks && r.locks[e] == NewActionLock(AISys.MoveLockDuration, now)
  {
    var s0 := s.(inputEvent := Some(ev));
    var s1 := InputSys.Step(s0, dims, now);
    var s2 := AISys.Step(s1, dims, now, rolls);
    var s3 := SpriteMovementSys.Step(s2);
    var s6 := BlobInteractionSys.Step(UpdatePos.Step(s3));
    AISys.MoversProposeAndLock(s1, dims, now, rolls, e);
    UpdatePos.MovesApplied(s3);
    CleanupSys.ExpiredRemoved(HealthSys.Step(s6), now);
  }

  /** A locked AI entity gets no proposal: with none pending, it ends the
      tick on its cell and keeps its lock unless the lock has expired. */
  lemma LockedAIStays(s: WorldState, ev: Event, dims: GridDimensions, now: nat, rolls: map<Entity, AISys.AIRoll>, e: Entity)
    requires TickOk(s, dims, rolls)
    requires e in s.ais && e in s.locks && e in s.gridCoords && e !in s.newGridCoords
    ensures TickStep(s, ev, dims, now, rolls).gridCoords[e] == s.gridCoords[e]
    ensures e in TickStep(s, ev, dims, now, rolls).locks <==> !LockIsExpired(s.locks[e], now)
  {
    var s0 := s.(inputEvent := Some(ev));
    var s1 := InputSys.Step(s0, dims, now);
    var s2 := AISys.Step(s1, dims, now, rolls);
    var s3 := SpriteMovementSys.Step(s2);
    var s6 := BlobInteractionSys.Step(UpdatePos.Step(s3));
    AISys.OthersUntouched(s1, dims, now, rolls, e);
    UpdatePos.MovesApplied(s3);
    CleanupSys.ExpiredRemoved(HealthSys.Step(s6), now);
  }

  /** Key D fires an action on every joined player; it is deferred, so it
      lands at `World::maintain`, still unhandled. */
  lemma ActionLandsAfterTick(s: WorldState, dims: GridDimensions, now: nat, rolls: map<Entity, AISys.AIRoll>, e: Entity)
    requires TickOk(s, dims, rolls)
    requires e in s.entities && InputSys.Joined(s, e)
    ensures var r := TickStep(s, ButtonInput(Keyboard(D), Press), dims, now, rolls);
      && e in r.actions && r.actions[e] == NewActionFired(ActionDuration, now) && !IsHandled(r.actions[e])
  {
    var s0 := s.(inputEvent := Some(ButtonInput(Keyboard(D), Press)));
    InputSys.KeyDFiresAction(s0, dims, now, e);
  }

  /** Damage is dealt and taken within one tick: a blob next to a player
      whose action is still unhandled takes `HitDamage` in the interaction
      system, and the health system, which runs after it, takes that off its
      health, marks it dead at 0, and consumes the damage. The player's
      action ends the tick handled. Neither entity may move during the tick
      (no pending proposal, not an AI entity), and no new key-D action may
      overwrite the player's at `World::maintain`. */
  lemma BlobHitResolvesSameTick(s: WorldState, ev: Event, dims: GridDimensions, now: nat,
                                rolls: map<Entity, AISys.AIRoll>, p: Entity, b: Entity)
    requires TickOk(s, dims, rolls) && s.lazyActions == map[] && PressedKey(Some(ev)) != Some(D)
    requires p in s.entities && p in s.players && p in s.gridCoords && p !in s.ais && p !in s.newGridCoords
    requires p in s.actions && !IsHandled(s.actions[p]) && !ActionIsExpired(s.actions[p], now)
    requires b in s.blobs && b in s.colors && b in s.health && b in s.gridCoords
    requires b !in s.ais && b !in s.newGridCoords
    requires IsNextTo(s.gridCoords[p], s.gridCoords[b])
    ensures var r := TickStep(s, ev, dims, now, rolls);
      && b in r.health && r.health[b] == Reduce(s.health[b], BlobInteractionSys.HitDamage)
      && b !in r.damage
      && (s.health[b] <= BlobInteractionSys.HitDamage ==> b in r.deaths)
      && p in r.actions && IsHandled(r.actions[p])
  {
    var s0 := s.(inputEvent := Some(ev));
    var s1 := InputSys.Step(s0, dims, now);
    var s2 := AISys.Step(s1, dims, now, rolls);
    var s3 := SpriteMovementSys.Step(s2);
    var s4 := UpdatePos.Step(s3);
    var s5 := BlobInteractionSys.Step(s4);
    var s6 := HealthSys.Step(s5);
    var s7 := CleanupSys.Step(s6, now);
    var s8 := GameInfoSys.Step(s7);
    NoActionDeferred(s0, dims, now, p);
    AISys.OthersUntouched(s1, dims, now, rolls, p);
    AISys.OthersUntouched(s1, dims, now, rolls, b);
    UpdatePos.MovesApplied(s3);
    BlobInteractionSys.PendingPlayerHitsBlob(s4, p, b);
    BlobInteractionSys.ActionsHandledAfterRun(s4);
    HealthSys.HealthAfterRun(s5);
    HealthSys.DeathAfterRun(s5);
    HealthSys.DamageConsumed(s5);
    CleanupSys.ExpiredRemoved(s6, now);
    DeferredInsertsLand(s8);
  }

  /** Without a key-D press the input system defers no action for `p`. */
  lemma NoActionDeferred(s: WorldState, dims: GridDimensions, now: nat, p: Entity)
    requires GridOk(dims) && p !in s.lazyActions && PressedKey(s.inputEvent) != Some(D)
    ensures p !in InputSys.Step(s, dims, now).lazyActions
  {
    match PressedKey(s.inputEvent)
    case None =>
    case Some(k) =>
      InputSys.FiredAt(s, s.entities, k, now, s.lazyActions, p);
  }
}
