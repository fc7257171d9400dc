/** `HealthSys` (src/health_sys.rs): pending damage is taken off health with
    saturating subtraction, an entity brought to 0 is marked dead, and the
    damage is consumed. */
module HealthSys {
  import opened Components
  import opened Ecs

  /** The health an entity has after its pending damage, if any. */
  function HealthAfter(health: map<Entity, u8>, damage: map<Entity, u8>, e: Entity): u8
    requires e in health
  {
    if e in damage then Reduce(health[e], damage[e]) else health[e]
  }

  /** Health after the run: every entity with pending damage takes it. */
  function HealthLeft(health: map<Entity, u8>, damage: map<Entity, u8>): map<Entity, u8>
  {
    map e | e in health :: HealthAfter(health, damage, e)
  }

  /** Death after the run: the old markers plus every damaged entity at 0. */
  function DeathsAfter(health: map<Entity, u8>, damage: map<Entity, u8>, deaths: set<Entity>): set<Entity>
  {
    deaths + (set e | e in health && e in damage && HealthAfter(health, damage, e) == 0)
  }

  /** Damage after the run: only damage on entities without health stays. */
  function DamageLeft(health: map<Entity, u8>, damage: map<Entity, u8>): map<Entity, u8>
  {
    map e | e in damage && e !in health :: damage[e]
  }

  /** One run of the system. Nothing but health, death and damage changes. */
  function Step(s: WorldState): (r: WorldState)
    ensures r == s.(health := r.health, deaths := r.deaths, damage := r.damage)
  {
    s.(health := HealthLeft(s.health, s.damage),
       deaths := DeathsAfter(s.health, s.damage, s.deaths),
       damage := DamageLeft(s.health, s.damage))
  }

  /** Health after a run: no health appears or disappears and none goes up;
      an entity with pending damage loses exactly that much or drops to 0
      (the subtraction saturates instead of wrapping), and one without keeps
      its health. */
  lemma HealthAfterRun(s: WorldState)
    ensures Step(s).health.Keys == s.health.Keys
    ensures forall e :: e in s.health ==> Step(s).health[e] <= s.health[e]
    ensures forall e :: e in s.health && e in s.damage ==> Step(s).health[e] == Reduce(s.health[e], s.damage[e])
    ensures forall e :: e in s.health && e in s.damage ==>
      Step(s).health[e] == 0 || s.health[e] - Step(s).health[e] == s.damage[e]
    ensures forall e :: e in s.health && e in s.damage && s.damage[e] > s.health[e] ==> Step(s).health[e] == 0
    ensures forall e :: e in s.health && e !in s.damage ==> Step(s).health[e] == s.health[e]
  {
  }

  /** Death after a run: never removed, and added exactly to the damaged
      entities that end at 0, including those already dead. */
  lemma DeathAfterRun(s: WorldState)
    ensures s.deaths <= Step(s).deaths
    ensures forall e :: e in s.health && e in s.damage && Step(s).health[e] == 0 ==> e in Step(s).deaths
    ensures forall e :: e in Step(s).deaths - s.deaths <==>
      e !in s.deaths && e in s.health && e in s.damage && Step(s).health[e] == 0
  {
  }

  /** Damage after a run: consumed wherever there is health to apply it to,
      and left alone elsewhere. */
  lemma DamageConsumed(s: WorldState)
    ensures forall e :: e in Step(s).damage <==> e in s.damage && e !in s.health
    ensures forall e :: e in Step(s).damage ==> Step(s).damage[e] == s.damage[e]
  {
    var d := DamageLeft(s.health, s.damage);
    assert Step(s).damage == d;
  }

  /** The run keeps every storage within the live entities. */
  lemma StepKeepsWellFormed(s: WorldState)
    requires WellFormed(s)
    ensures WellFormed(Step(s))
  {
  }

  /** Death is sticky: a dead entity is still dead after any number of
      runs, however much damage reaches it in between. */
  lemma {:induction false} DeathIsSticky(s: WorldState, hits: seq<map<Entity, u8>>, e: Entity)
    requires e in s.deaths
    ensures e in Repeat(s, hits).deaths
    decreases |hits|
  {
    if hits != [] {
      DeathIsSticky(s, hits[..|hits| - 1], e);
      DeathAfterRun(Repeat(s, hits[..|hits| - 1]).(damage := hits[|hits| - 1]));
    }
  }

  /** Runs of the system with fresh damage put in place before each one. */
  function Repeat(s: WorldState, hits: seq<map<Entity, u8>>): WorldState
    decreases |hits|
  {
    if hits == [] then s
    else Step(Repeat(s, hits[..|hits| - 1]).(damage := hits[|hits| - 1]))
  }

  /** A second run with no new damage changes nothing. */
  lemma StepIsIdempotent(s: WorldState)
    ensures Step(Step(s)) == Step(s)
  {
    var r := Step(s);
    assert HealthLeft(r.health, r.damage) == r.health;
    assert DamageLeft(r.health, r.damage) == r.damage;
    assert DeathsAfter(r.health, r.damage, r.deaths) == r.deaths;
  }

  /** `HealthSys::run`: the join over health and damage, then the removal
      of the damage it collected. */
  method Run(w: World)
    requires w.Valid()
    modifies w`health, w`deaths, w`damage
    ensures w.Valid()
    ensures w.View() == Step(old(w.View()))
  {
    ghost var s := w.View();
    var health, deaths, cleanup := ApplyDamage(w.entities, w.health, w.damage, w.deaths);
    var damage := RemoveDamage(w.health, w.damage, cleanup);
    w.health, w.deaths, w.damage := health, deaths, damage;
    assert w.View() == s.(health := HealthLeft(s.health, s.damage),
                          deaths := DeathsAfter(s.health, s.damage, s.deaths),
                          damage := DamageLeft(s.health, s.damage));
    StepKeepsWellFormed(s);
  }

  /** The join loop: every entity with both health and damage takes the
      damage, is marked dead if that leaves it at 0, and is collected for
      cleanup, in join order. */
  method ApplyDamage(entities: seq<Entity>, health0: map<Entity, u8>, damage: map<Entity, u8>,
                     deaths0: set<Entity>)
    returns (health: map<Entity, u8>, deaths: set<Entity>, cleanup: seq<Entity>)
    requires Distinct(entities) && health0.Keys <= set e | e in entities
    ensures health == HealthLeft(health0, damage)
    ensures deaths == DeathsAfter(health0, damage, deaths0)
    ensures forall e :: e in cleanup <==> e in health0 && e in damage
  {
    health, deaths, cleanup := health0, deaths0, [];
    ghost var done: set<Entity> := {};
    var i := 0;
    while i < |entities|
      invariant 0 <= i <= |entities|
      invariant forall k :: 0 <= k < i ==> entities[k] in done
      invariant forall k :: i <= k < |entities| ==> entities[k] !in done
      invariant health.Keys == health0.Keys
      invariant forall e :: e in health ==>
        health[e] == if e in done then HealthAfter(health0, damage, e) else health0[e]
      invariant forall e :: e in deaths <==>
        e in DeathsAfter(health0, damage, deaths0) && (e in deaths0 || e in done)
      invariant forall e :: e in cleanup <==> e in done && e in health0 && e in damage
    {
      var e := entities[i];
      if e in health && e in damage {
        health := health[e := Reduce(health[e], damage[e])];
        if health[e] == 0 {
          deaths := deaths + {e};
        }
        cleanup := cleanup + [e];
      }
      done := done + {e};
      i := i + 1;
    }
  }

  /** The cleanup loop: the collected entities, which are those with both
      health and damage, lose their damage and every other entity keeps it. */
  method RemoveDamage(health: map<Entity, u8>, damage0: map<Entity, u8>, cleanup: seq<Entity>)
    returns (damage: map<Entity, u8>)
    requires forall e :: e in cleanup <==> e in health && e in damage0
    ensures damage == DamageLeft(health, damage0)
  {
    damage := damage0;
    var j := 0;
    while j < |cleanup|
      invariant 0 <= j <= |cleanup|
      invariant forall k :: 0 <= k < j ==> cleanup[k] !in damage
      invariant forall e :: e in damage0 && e !in cleanup ==> e in damage
      invariant forall e :: e in damage ==> e in damage0 && damage[e] == damage0[e]
    {
      damage := damage - {cleanup[j]};
      j := j + 1;
    }
  }
}
