/** `CleanupSys` (src/cleanup_sys.rs): the input slot is emptied, expired
    actions of players are removed, and expired locks are removed from
    every entity. */
module CleanupSys {
  import opened Components
  import opened Input
  import opened Ecs

  /** The actions that survive: all but the expired ones on players. */
  function ActionsLeft(actions: map<Entity, ActionFired>, players: set<Entity>, now: nat): map<Entity, ActionFired>
  {
    map e | e in actions && !(e in players && ActionIsExpired(actions[e], now)) :: actions[e]
  }

  /** The locks that survive: the unexpired ones. */
  function LocksLeft(locks: map<Entity, ActionLock>, now: nat): map<Entity, ActionLock>
  {
    map e | e in locks && !LockIsExpired(locks[e], now) :: locks[e]
  }

  /** One run at time `now`: the input slot is emptied, and nothing but it,
      the actions and the locks changes. */
  function Step(s: WorldState, now: nat): (r: WorldState)
    ensures r == s.(inputEvent := None, actions := r.actions, locks := r.locks)
  {
    s.(inputEvent := None, actions := ActionsLeft(s.actions, s.players, now),
       locks := LocksLeft(s.locks, now))
  }

  /** A player's action is removed exactly when it has expired, handled or
      not; other entities keep their actions. A lock is removed exactly when
      it has expired, whoever holds it. Whatever stays is unchanged. */
  lemma ExpiredRemoved(s: WorldState, now: nat)
    ensures forall e :: e in Step(s, now).actions <==>
      e in s.actions && !(e in s.players && ActionIsExpired(s.actions[e], now))
    ensures forall e :: e in Step(s, now).actions ==> Step(s, now).actions[e] == s.actions[e]
    ensures forall e :: e in Step(s, now).locks <==> e in s.locks && !LockIsExpired(s.locks[e], now)
    ensures forall e :: e in Step(s, now).locks ==> Step(s, now).locks[e] == s.locks[e]
  {
  }

  /** The run keeps every storage within the live entities. */
  lemma StepKeepsWellFormed(s: WorldState, now: nat)
    requires WellFormed(s)
    ensures WellFormed(Step(s, now))
  {
  }

  /** A second run at the same instant removes nothing more. */
  lemma StepIsIdempotent(s: WorldState, now: nat)
    ensures Step(Step(s, now), now) == Step(s, now)
  {
    var r := Step(s, now);
    assert ActionsLeft(r.actions, r.players, now) == r.actions;
    assert LocksLeft(r.locks, now) == r.locks;
  }

  /** A player's 100 ms action fired at time `t` and already handled by the
      blobs is still there 100 ms later, and gone 150 ms later. */
  lemma HandledActionExpires(s: WorldState, p: Entity, t: nat)
    requires p in s.players
    requires s.actions == map[p := MarkAsHandled(NewActionFired(ActionDuration, t))]
    ensures p in Step(s, t + 100).actions
    ensures p !in Step(s, t + 150).actions
  {
    var a := MarkAsHandled(NewActionFired(ActionDuration, t));
    assert !ActionIsExpired(a, t + 100);
    assert ActionIsExpired(a, t + 150);
  }

  /** `CleanupSys::run` at time `now`. */
  method Run(w: World, now: nat)
    requires w.Valid()
    modifies w`inputEvent, w`actions, w`locks
    ensures w.Valid()
    ensures w.View() == Step(old(w.View()), now)
  {
    ghost var s := w.View();
    w.inputEvent := None;
    var cleanActions := ExpiredActions(w.entities, w.actions, w.players, now);
    var actions := RemoveActions(w.actions, w.players, now, cleanActions);
    var locksToClean := ExpiredLocks(w.entities, w.locks, now);
    var locks := RemoveLocks(w.locks, now, locksToClean);
    w.actions, w.locks := actions, locks;
    assert w.View() == s.(inputEvent := None, actions := ActionsLeft(s.actions, s.players, now),
                          locks := LocksLeft(s.locks, now));
    StepKeepsWellFormed(s, now);
  }

  /** The join over actions and players, filtered on expiry: collects every
      player whose action has expired. */
  method ExpiredActions(entities: seq<Entity>, actions: map<Entity, ActionFired>, players: set<Entity>, now: nat)
    returns (clean: seq<Entity>)
    requires forall e :: e in actions ==> e in entities
    ensures forall e :: e in clean <==> e in actions && e in players && ActionIsExpired(actions[e], now)
  {
    clean := [];
    ghost var done: set<Entity> := {};
    var i := 0;
    while i < |entities|
      invariant 0 <= i <= |entities|
      invariant forall k :: 0 <= k < i ==> entities[k] in done
      invariant forall e :: e in clean <==>
        e in done && e in actions && e in players && ActionIsExpired(actions[e], now)
    {
      var e := entities[i];
      if e in actions && e in players && ActionIsExpired(actions[e], now) {
        clean := clean + [e];
      }
      done := done + {e};
      i := i + 1;
    }
  }

  /** Removes the collected actions one by one. */
  method RemoveActions(actions0: map<Entity, ActionFired>, players: set<Entity>, now: nat, clean: seq<Entity>)
    returns (actions: map<Entity, ActionFired>)
    requires forall e :: e in clean <==> e in actions0 && e in players && ActionIsExpired(actions0[e], now)
    ensures actions == ActionsLeft(actions0, players, now)
  {
    actions := actions0;
    var j := 0;
    while j < |clean|
      invariant 0 <= j <= |clean|
      invariant forall k :: 0 <= k < j ==> clean[k] !in actions
      invariant forall e :: e in actions0 && e !in clean ==> e in actions
      invariant forall e :: e in actions ==> e in actions0 && actions[e] == actions0[e]
    {
      actions := actions - {clean[j]};
      j := j + 1;
    }
  }

  /** The join over locks, filtered on expiry: collects every entity whose
      lock has expired. */
  method ExpiredLocks(entities: seq<Entity>, locks: map<Entity, ActionLock>, now: nat)
    returns (clean: seq<Entity>)
    requires forall e :: e in locks ==> e in entities
    ensures forall e :: e in clean <==> e in locks && LockIsExpired(locks[e], now)
  {
    clean := [];
    ghost var done: set<Entity> := {};
    var i := 0;
    while i < |entities|
      invariant 0 <= i <= |entities|
      invariant forall k :: 0 <= k < i ==> entities[k] in done
      invariant forall e :: e in clean <==> e in done && e in locks && LockIsExpired(locks[e], now)
    {
      var e := entities[i];
      if e in locks && LockIsExpired(locks[e], now) {
        clean := clean + [e];
      }
      done := done + {e};
      i := i + 1;
    }
  }

  /** Removes the collected locks one by one. */
  method RemoveLocks(locks0: map<Entity, ActionLock>, now: nat, clean: seq<Entity>)
    returns (locks: map<Entity, ActionLock>)
    requires forall e :: e in clean <==> e in locks0 && LockIsExpired(locks0[e], now)
    ensures locks == LocksLeft(locks0, now)
  {
    locks := locks0;
    var j := 0;
    while j < |clean|
      invariant 0 <= j <= |clean|
      invariant forall k :: 0 <= k < j ==> clean[k] !in locks
      invariant forall e :: e in locks0 && e !in clean ==> e in locks
      invariant forall e :: e in locks ==> e in locks0 && locks[e] == locks0[e]
    {
      locks := locks - {clean[j]};
      j := j + 1;
    }
  }
}
