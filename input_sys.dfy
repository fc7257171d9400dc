/** `InputSys` (src/input_sys.rs): a key pressed in the window asks, for
    every player, for a one-cell move in the arrow's direction, and key D
    fires a player action. Both are deferred through `LazyUpdate`: they
    reach the world only at the next `World::maintain`. */
module InputSys {
  import opened Components
  import opened Input
  import opened Ecs

  /** The join `(entities, position, velocity, grid coords, player)`. */
  predicate Joined(s: WorldState, e: Entity)
  {
    e in s.positions && e in s.velocities && e in s.gridCoords && e in s.players
  }

  /** The list `coords_to_update` after the join loop has visited `es`:
      `add_location_update` for every joined entity, in join order. */
  function Updates(s: WorldState, es: seq<Entity>, k: Key, dims: GridDimensions): (r: seq<(Entity, GridCoords)>)
    requires GridOk(dims)
    ensures |r| <= |es|
    decreases |es|
  {
    if es == [] then []
    else
      var rest := Updates(s, es[..|es| - 1], k, dims);
      var e := es[|es| - 1];
      if Joined(s, e) then AddLocationUpdate(rest, e, s.gridCoords[e], k, dims) else rest
  }

  /** The deferred `NewGridCoords` inserts after queueing `updates` in
      order; a later insert for the same entity overwrites an earlier one. */
  function Enqueue(m: map<Entity, GridCoords>, updates: seq<(Entity, GridCoords)>): map<Entity, GridCoords>
    decreases |updates|
  {
    if updates == [] then m
    else
      var last := updates[|updates| - 1];
      Enqueue(m, updates[..|updates| - 1])[last.0 := last.1]
  }

  /** The deferred `ActionFired` inserts after the join loop has visited
      `es`: with key D, a fresh 100 ms action for every joined entity. */
  function Fired(s: WorldState, es: seq<Entity>, k: Key, now: nat, m: map<Entity, ActionFired>): map<Entity, ActionFired>
    decreases |es|
  {
    if es == [] then m
    else
      var rest := Fired(s, es[..|es| - 1], k, now, m);
      var e := es[|es| - 1];
      if Joined(s, e) && k == D then rest[e := NewActionFired(ActionDuration, now)] else rest
  }

  /** One run at time `now`. Nothing happens unless the input slot holds a
      key press; then the only storages touched are the two deferred insert
      queues. */
  function Step(s: WorldState, dims: GridDimensions, now: nat): (r: WorldState)
    requires GridOk(dims)
    ensures PressedKey(s.inputEvent).None? ==> r == s
    ensures r == s.(lazyActions := r.lazyActions, lazyMoves := r.lazyMoves)
  {
    match PressedKey(s.inputEvent)
    case None => s
    case Some(k) =>
      s.(lazyActions := Fired(s, s.entities, k, now, s.lazyActions),
         lazyMoves := Enqueue(s.lazyMoves, Updates(s, s.entities, k, dims)))
  }

  /** What the join loop does to the deferred actions of one entity: a
      fresh action when it is joined, visited and the key is D, and no
      change otherwise. */
  lemma {:induction false} FiredAt(s: WorldState, es: seq<Entity>, k: Key, now: nat,
                                   m: map<Entity, ActionFired>, e: Entity)
    ensures var r := Fired(s, es, k, now, m);
      && (e in r <==> e in m || (e in es && Joined(s, e) && k == D))
      && (e in r ==> r[e] == if e in es && Joined(s, e) && k == D then NewActionFired(ActionDuration, now) else m[e])
    decreases |es|
  {
    if es != [] {
      FiredAt(s, es[..|es| - 1], k, now, m, e);
      assert e in es <==> e in es[..|es| - 1] || e == es[|es| - 1];
    }
  }

  /** The move the join loop asks for on behalf of `e`, if any. */
  function Asked(s: WorldState, e: Entity, k: Key, dims: GridDimensions): Option<GridCoords>
    requires GridOk(dims)
  {
    if Joined(s, e) then KeyMove(s.gridCoords[e], k, GridColumns(dims) - 1, GridRows(dims) - 1) else None
  }

  /** What the two loops do to the deferred move of one entity: when it is
      visited and asks for a move, the move; otherwise no change. Every
      entry of the list for an entity holds the same move, so the order of
      the queue does not matter. */
  lemma {:induction false} QueuedAt(s: WorldState, es: seq<Entity>, k: Key, dims: GridDimensions,
                                    m: map<Entity, GridCoords>, e: Entity)
    requires GridOk(dims)
    ensures var r := Enqueue(m, Updates(s, es, k, dims));
      && (e in r <==> e in m || (e in es && Asked(s, e, k, dims).Some?))
      && (e in r ==> r[e] == if e in es && Asked(s, e, k, dims).Some? then Asked(s, e, k, dims).value else m[e])
    decreases |es|
  {
    if es != [] {
      var init := es[..|es| - 1];
      var last := es[|es| - 1];
      QueuedAt(s, init, k, dims, m, e);
      assert e in es <==> e in init || e == last;
      var u := Updates(s, init, k, dims);
      var u' := Updates(s, es, k, dims);
      if Asked(s, last, k, dims).Some? {
        assert u' == u + [(last, Asked(s, last, k, dims).value)];
        assert u'[..|u'| - 1] == u;
        assert Enqueue(m, u') == Enqueue(m, u)[last := Asked(s, last, k, dims).value];
      } else {
        assert u' == u;
      }
    }
  }

  /** With key D, every joined player gets a fresh unhandled action of
      100 ms created now, and no move is asked for. */
  lemma KeyDFiresAction(s: WorldState, dims: GridDimensions, now: nat, e: Entity)
    requires GridOk(dims) && PressedKey(s.inputEvent) == Some(D)
    requires e in s.entities && Joined(s, e)
    ensures e in Step(s, dims, now).lazyActions
    ensures Step(s, dims, now).lazyActions[e] == NewActionFired(ActionDuration, now)
    ensures !IsHandled(Step(s, dims, now).lazyActions[e])
    ensures Step(s, dims, now).lazyMoves == s.lazyMoves
  {
    FiredAt(s, s.entities, D, now, s.lazyActions, e);
    var r := Step(s, dims, now);
    forall x | x in r.lazyMoves || x in s.lazyMoves
      ensures x in r.lazyMoves && x in s.lazyMoves && r.lazyMoves[x] == s.lazyMoves[x]
    {
      QueuedAt(s, s.entities, D, dims, s.lazyMoves, x);
    }
  }

  /** With an arrow key, every joined player whose move stays on the grid
      has that move queued, and no action is fired. A player on the edge
      that the arrow points out of gets nothing queued. */
  lemma ArrowQueuesMove(s: WorldState, dims: GridDimensions, now: nat, k: Key, e: Entity)
    requires GridOk(dims) && PressedKey(s.inputEvent) == Some(k) && IsArrow(k)
    requires e in s.entities && Joined(s, e)
    ensures var mv := KeyMove(s.gridCoords[e], k, GridColumns(dims) - 1, GridRows(dims) - 1);
      && (mv.Some? ==> e in Step(s, dims, now).lazyMoves && Step(s, dims, now).lazyMoves[e] == mv.value)
      && (mv.None? ==> (e in Step(s, dims, now).lazyMoves <==> e in s.lazyMoves))
      && (mv.None? && e in s.lazyMoves ==> Step(s, dims, now).lazyMoves[e] == s.lazyMoves[e])
    ensures Step(s, dims, now).lazyActions == s.lazyActions
  {
    QueuedAt(s, s.entities, k, dims, s.lazyMoves, e);
    var r := Step(s, dims, now);
    forall x | x in r.lazyActions || x in s.lazyActions
      ensures x in r.lazyActions && x in s.lazyActions && r.lazyActions[x] == s.lazyActions[x]
    {
      FiredAt(s, s.entities, k, now, s.lazyActions, x);
    }
  }

  /** An entity outside the join is untouched by the run. */
  lemma OthersUntouched(s: WorldState, dims: GridDimensions, now: nat, e: Entity)
    requires GridOk(dims) && !Joined(s, e)
    ensures e in Step(s, dims, now).lazyActions <==> e in s.lazyActions
    ensures e in s.lazyActions ==> Step(s, dims, now).lazyActions[e] == s.lazyActions[e]
    ensures e in Step(s, dims, now).lazyMoves <==> e in s.lazyMoves
    ensures e in s.lazyMoves ==> Step(s, dims, now).lazyMoves[e] == s.lazyMoves[e]
  {
    match PressedKey(s.inputEvent)
    case None =>
    case Some(k) =>
      FiredAt(s, s.entities, k, now, s.lazyActions, e);
      QueuedAt(s, s.entities, k, dims, s.lazyMoves, e);
  }

  /** The run keeps every storage within the live entities. */
  lemma StepKeepsWellFormed(s: WorldState, dims: GridDimensions, now: nat)
    requires GridOk(dims) && WellFormed(s)
    ensures WellFormed(Step(s, dims, now))
  {
    match PressedKey(s.inputEvent)
    case None =>
    case Some(k) =>
      FiredStaysLive(s, k, now);
      QueuedStaysLive(s, k, dims);
  }

  /** Actions are only fired on live entities. */
  lemma FiredStaysLive(s: WorldState, k: Key, now: nat)
    requires s.lazyActions.Keys <= Ids(s)
    ensures Fired(s, s.entities, k, now, s.lazyActions).Keys <= Ids(s)
  {
    forall e | e in Fired(s, s.entities, k, now, s.lazyActions)
      ensures e in Ids(s)
    {
      FiredAt(s, s.entities, k, now, s.lazyActions, e);
    }
  }

  /** Moves are only queued for live entities. */
  lemma QueuedStaysLive(s: WorldState, k: Key, dims: GridDimensions)
    requires GridOk(dims) && s.lazyMoves.Keys <= Ids(s)
    ensures Enqueue(s.lazyMoves, Updates(s, s.entities, k, dims)).Keys <= Ids(s)
  {
    forall e | e in Enqueue(s.lazyMoves, Updates(s, s.entities, k, dims))
      ensures e in Ids(s)
    {
      QueuedAt(s, s.entities, k, dims, s.lazyMoves, e);
    }
  }

  /** A player on the grid is only ever asked to move to a cell on the grid,
      so the run keeps every held or deferred cell in bounds. */
  lemma StepKeepsInBounds(s: WorldState, dims: GridDimensions, now: nat)
    requires GridOk(dims) && CoordsInBounds(s, GridColumns(dims) - 1, GridRows(dims) - 1)
    ensures CoordsInBounds(Step(s, dims, now), GridColumns(dims) - 1, GridRows(dims) - 1)
  {
    var r := Step(s, dims, now);
    match PressedKey(s.inputEvent)
    case None =>
    case Some(k) =>
      forall e | e in r.lazyMoves
        ensures r.lazyMoves[e].x <= GridColumns(dims) - 1 && r.lazyMoves[e].y <= GridRows(dims) - 1
      {
        QueuedAt(s, s.entities, k, dims, s.lazyMoves, e);
      }
  }

  /** `InputSys::run` at time `now`. */
  method Run(w: World, dims: GridDimensions, now: nat)
    requires w.Valid() && GridOk(dims)
    modifies w`lazyActions, w`lazyMoves
    ensures w.Valid()
    ensures w.View() == Step(old(w.View()), dims, now)
  {
    ghost var s := w.View();
    match ButtonOf(w.inputEvent)
    case Some((Keyboard(k), Press)) =>
      var updates, fired := JoinLoop(w.View(), w.entities, k, dims, now, w.lazyActions);
      var moves := InsertAll(w.lazyMoves, updates);
      w.lazyActions, w.lazyMoves := fired, moves;
      assert w.View() == s.(lazyActions := Fired(s, s.entities, k, now, s.lazyActions),
                            lazyMoves := Enqueue(s.lazyMoves, Updates(s, s.entities, k, dims)));
      StepKeepsWellFormed(s, dims, now);
    case _ =>
  }

  /** The join loop for a press of key `k`: each joined entity pushes its
      move, and with key D gets an action inserted. */
  method JoinLoop(s: WorldState, entities: seq<Entity>, k: Key, dims: GridDimensions, now: nat,
                  fired0: map<Entity, ActionFired>)
    returns (updates: seq<(Entity, GridCoords)>, fired: map<Entity, ActionFired>)
    requires GridOk(dims)
    ensures updates == Updates(s, entities, k, dims)
    ensures fired == Fired(s, entities, k, now, fired0)
  {
    updates, fired := [], fired0;
    var i := 0;
    while i < |entities|
      invariant 0 <= i <= |entities|
      invariant updates == Updates(s, entities[..i], k, dims)
      invariant fired == Fired(s, entities[..i], k, now, fired0)
    {
      var e := entities[i];
      assert entities[..i + 1][..i] == entities[..i];
      if e in s.positions && e in s.velocities && e in s.gridCoords && e in s.players {
        updates := AddLocationUpdate(updates, e, s.gridCoords[e], k, dims);
        if k == D {
          fired := fired[e := NewActionFired(ActionDuration, now)];
        }
      }
      i := i + 1;
    }
    assert entities[..|entities|] == entities;
  }

  /** The final loop: each collected move is inserted through the deferred
      queue, in list order. */
  method InsertAll(moves0: map<Entity, GridCoords>, updates: seq<(Entity, GridCoords)>)
    returns (moves: map<Entity, GridCoords>)
    ensures moves == Enqueue(moves0, updates)
  {
    moves := moves0;
    var j := 0;
    while j < |updates|
      invariant 0 <= j <= |updates|
      invariant moves == Enqueue(moves0, updates[..j])
    {
      assert updates[..j + 1][..j] == updates[..j];
      moves := moves[updates[j].0 := updates[j].1];
      j := j + 1;
    }
    assert updates[..|updates|] == updates;
  }
}
