/** `AISys` (src/ai_sys.rs): every AI entity that is not locked proposes a
    random step along one axis, staying on the grid, and is then locked for
    500 ms. */
module AISys {
  import opened Components
  import opened Ecs

  /** How long the lock put on an AI entity that proposed a move lasts, in
      milliseconds. */
  const MoveLockDuration: nat := 500

  /** The random draws for one entity: the coin that picks the axis, and the
      choice the shuffle makes among the candidates (the candidate the
      shuffle puts first). A run is given one draw per AI entity. */
  datatype AIRoll = AIRoll(alongX: bool, pick: nat)

  /** The candidate values for one coordinate, in the order they are
      pushed: stay, then one up if below `max`, then one down if above 0.
      Staying is always a candidate, so the list is never empty. */
  function Candidates(v: nat, max: nat): (r: seq<nat>)
    ensures 1 <= |r| <= 3 && r[0] == v
    ensures forall u: nat :: u in r <==> u == v || (u == v + 1 && v < max) || u + 1 == v
    ensures forall u :: u in r ==> Dist(u, v) <= 1
    ensures v <= max ==> forall u :: u in r ==> u <= max
  {
    if v < max && v > 0 then [v, v + 1, v - 1]
    else if v < max then [v, v + 1]
    else if v > 0 then [v, v - 1]
    else [v]
  }

  /** The candidate the shuffle puts first. */
  function Pick(options: seq<nat>, pick: nat): (u: nat)
    requires options != []
    ensures u in options
  {
    options[pick % |options|]
  }

  /** The shuffle can put any candidate first: every candidate is the pick
      of some draw. */
  lemma AnyCandidateCanBePicked(options: seq<nat>, u: nat)
    requires u in options
    ensures exists pick: nat :: Pick(options, pick) == u
  {
    var i :| 0 <= i < |options| && options[i] == u;
    assert i % |options| == i;
    assert Pick(options, i) == u;
  }

  /** The move an unlocked AI entity at `c` proposes, given the largest
      column and row index. Along x, y is kept and x is one of its
      candidates; along y the other way round. So the proposal differs from
      `c` by at most 1 on at most one axis, and it stays on the grid when
      `c` is on it. */
  function Proposal(c: GridCoords, roll: AIRoll, columns: nat, rows: nat): (n: GridCoords)
    ensures roll.alongX ==> n.y == c.y && n.x in Candidates(c.x, columns)
    ensures !roll.alongX ==> n.x == c.x && n.y in Candidates(c.y, rows)
    ensures Dist(c.x, n.x) + Dist(c.y, n.y) <= 1
    ensures c.x <= columns && c.y <= rows ==> n.x <= columns && n.y <= rows
  {
    if roll.alongX then GridCoords(Pick(Candidates(c.x, columns), roll.pick), c.y)
    else GridCoords(c.x, Pick(Candidates(c.y, rows), roll.pick))
  }

  /** The join `(ai, grid coords, no lock)`: an AI entity with a cell and no
      lock at all, expired or not. */
  predicate Mover(ais: set<Entity>, coords: map<Entity, GridCoords>, locks: map<Entity, ActionLock>, e: Entity)
  {
    e in ais && e in coords && e !in locks
  }

  /** The proposals after the run: each mover's new proposal replaces
      whatever it had; other entities keep theirs. */
  function ProposalsAfter(newCoords: map<Entity, GridCoords>, ais: set<Entity>, coords: map<Entity, GridCoords>,
                          locks: map<Entity, ActionLock>, columns: nat, rows: nat,
                          rolls: map<Entity, AIRoll>): map<Entity, GridCoords>
    requires ais <= rolls.Keys
  {
    map e | e in newCoords.Keys + ais && (e in newCoords || Mover(ais, coords, locks, e)) ::
      if Mover(ais, coords, locks, e) then Proposal(coords[e], rolls[e], columns, rows) else newCoords[e]
  }

  /** The locks after the run: each mover gets a fresh 500 ms lock. */
  function LocksAfter(ais: set<Entity>, coords: map<Entity, GridCoords>, locks: map<Entity, ActionLock>,
                      now: nat): map<Entity, ActionLock>
  {
    map e | e in locks.Keys + ais && (e in locks || Mover(ais, coords, locks, e)) ::
      if e in locks then locks[e] else NewActionLock(MoveLockDuration, now)
  }

  /** One run at time `now` with window `dims` and draws `rolls`. The run
      needs at least one column and one row, since it subtracts 1 from both
      as unsigned numbers. Only the proposals and the locks change. */
  function Step(s: WorldState, dims: GridDimensions, now: nat, rolls: map<Entity, AIRoll>): (r: WorldState)
    requires GridOk(dims) && s.ais <= rolls.Keys
    ensures r == s.(newGridCoords := r.newGridCoords, locks := r.locks)
  {
    s.(newGridCoords := ProposalsAfter(s.newGridCoords, s.ais, s.gridCoords, s.locks,
                                       GridColumns(dims) - 1, GridRows(dims) - 1, rolls),
       locks := LocksAfter(s.ais, s.gridCoords, s.locks, now))
  }

  /** Each mover gets its proposal and a lock that lasts 500 ms from now,
      even when it proposes to stay. */
  lemma MoversProposeAndLock(s: WorldState, dims: GridDimensions, now: nat, rolls: map<Entity, AIRoll>, e: Entity)
    requires GridOk(dims) && s.ais <= rolls.Keys && Mover(s.ais, s.gridCoords, s.locks, e)
    ensures e in Step(s, dims, now, rolls).newGridCoords
    ensures Step(s, dims, now, rolls).newGridCoords[e] ==
      Proposal(s.gridCoords[e], rolls[e], GridColumns(dims) - 1, GridRows(dims) - 1)
    ensures e in Step(s, dims, now, rolls).locks
    ensures Step(s, dims, now, rolls).locks[e] == NewActionLock(MoveLockDuration, now)
    ensures !LockIsExpired(Step(s, dims, now, rolls).locks[e], now + MoveLockDuration)
  {
  }

  /** Every other entity, in particular every locked one, keeps its
      proposal and its lock, present or absent. */
  lemma OthersUntouched(s: WorldState, dims: GridDimensions, now: nat, rolls: map<Entity, AIRoll>, e: Entity)
    requires GridOk(dims) && s.ais <= rolls.Keys && !Mover(s.ais, s.gridCoords, s.locks, e)
    ensures e in Step(s, dims, now, rolls).newGridCoords <==> e in s.newGridCoords
    ensures e in s.newGridCoords ==> Step(s, dims, now, rolls).newGridCoords[e] == s.newGridCoords[e]
    ensures e in Step(s, dims, now, rolls).locks <==> e in s.locks
    ensures e in s.locks ==> Step(s, dims, now, rolls).locks[e] == s.locks[e]
  {
  }

  /** The run keeps every storage within the live entities. */
  lemma StepKeepsWellFormed(s: WorldState, dims: GridDimensions, now: nat, rolls: map<Entity, AIRoll>)
    requires GridOk(dims) && s.ais <= rolls.Keys && WellFormed(s)
    ensures WellFormed(Step(s, dims, now, rolls))
  {
  }

  /** When every cell the world holds is on the grid, so is every cell after
      the run. */
  lemma StepKeepsInBounds(s: WorldState, dims: GridDimensions, now: nat, rolls: map<Entity, AIRoll>)
    requires GridOk(dims) && s.ais <= rolls.Keys
    requires CoordsInBounds(s, GridColumns(dims) - 1, GridRows(dims) - 1)
    ensures CoordsInBounds(Step(s, dims, now, rolls), GridColumns(dims) - 1, GridRows(dims) - 1)
  {
  }

  /** Right after a run every AI entity with a cell is locked, so a second
      run in the same tick proposes nothing, whatever it draws. */
  lemma SecondRunDoesNothing(s: WorldState, dims: GridDimensions, now: nat,
                             rolls: map<Entity, AIRoll>, rolls2: map<Entity, AIRoll>)
    requires GridOk(dims) && s.ais <= rolls.Keys && s.ais <= rolls2.Keys
    ensures Step(Step(s, dims, now, rolls), dims, now, rolls2) == Step(s, dims, now, rolls)
  {
    var r := Step(s, dims, now, rolls);
    var columns, rows := GridColumns(dims) - 1, GridRows(dims) - 1;
    assert forall e :: !Mover(r.ais, r.gridCoords, r.locks, e);
    NoMoverKeepsProposals(r.newGridCoords, r.ais, r.gridCoords, r.locks, columns, rows, rolls2);
    NoMoverKeepsLocks(r.ais, r.gridCoords, r.locks, now);
    StepUnfolds(r, dims, now, rolls2);
  }

  /** The run written out with the largest column and row index. */
  lemma StepUnfolds(s: WorldState, dims: GridDimensions, now: nat, rolls: map<Entity, AIRoll>)
    requires GridOk(dims) && s.ais <= rolls.Keys
    ensures GridColumns(dims) >= 1 && GridRows(dims) >= 1
    ensures Step(s, dims, now, rolls) ==
      s.(newGridCoords := ProposalsAfter(s.newGridCoords, s.ais, s.gridCoords, s.locks,
                                         GridColumns(dims) - 1, GridRows(dims) - 1, rolls),
         locks := LocksAfter(s.ais, s.gridCoords, s.locks, now))
  {
  }

  /** With no mover, the proposals are left as they are. */
  lemma NoMoverKeepsProposals(newCoords: map<Entity, GridCoords>, ais: set<Entity>, coords: map<Entity, GridCoords>,
                              locks: map<Entity, ActionLock>, columns: nat, rows: nat, rolls: map<Entity, AIRoll>)
    requires ais <= rolls.Keys && forall e :: !Mover(ais, coords, locks, e)
    ensures ProposalsAfter(newCoords, ais, coords, locks, columns, rows, rolls) == newCoords
  {
    assert ProposalsAfter(newCoords, ais, coords, locks, columns, rows, rolls).Keys == newCoords.Keys;
  }

  /** With no mover, the locks are left as they are. */
  lemma NoMoverKeepsLocks(ais: set<Entity>, coords: map<Entity, GridCoords>, locks: map<Entity, ActionLock>, now: nat)
    requires forall e :: !Mover(ais, coords, locks, e)
    ensures LocksAfter(ais, coords, locks, now) == locks
  {
    assert LocksAfter(ais, coords, locks, now).Keys == locks.Keys;
  }

  /** `AISys::run` at time `now`, with window `dims` and draws `rolls`. */
  method Run(w: World, dims: GridDimensions, now: nat, rolls: map<Entity, AIRoll>)
    requires w.Valid() && GridOk(dims) && w.ais <= rolls.Keys
    modifies w`newGridCoords, w`locks
    ensures w.Valid()
    ensures w.View() == Step(old(w.View()), dims, now, rolls)
  {
    ghost var s := w.View();
    var columns, rows := GridColumns(dims) - 1, GridRows(dims) - 1;
    var newCoords, moved := ProposeMoves(w.entities, w.ais, w.gridCoords, w.locks, w.newGridCoords,
                                         columns, rows, rolls);
    var locks := LockMoved(w.ais, w.gridCoords, w.locks, moved, now);
    w.newGridCoords, w.locks := newCoords, locks;
    StepUnfolds(s, dims, now, rolls);
    assert w.View() == s.(newGridCoords := ProposalsAfter(s.newGridCoords, s.ais, s.gridCoords, s.locks,
                                                           columns, rows, rolls),
                          locks := LocksAfter(s.ais, s.gridCoords, s.locks, now));
    StepKeepsWellFormed(s, dims, now, rolls);
  }

  /** The join loop: each mover builds its candidate list by pushing, takes
      the candidate the shuffle puts first, inserts the proposal, and is
      collected. */
  method ProposeMoves(entities: seq<Entity>, ais: set<Entity>, coords: map<Entity, GridCoords>,
                      locks: map<Entity, ActionLock>, newCoords0: map<Entity, GridCoords>,
                      columns: nat, rows: nat, rolls: map<Entity, AIRoll>)
    returns (newCoords: map<Entity, GridCoords>, moved: seq<Entity>)
    requires forall e :: e in ais ==> e in entities
    requires ais <= rolls.Keys
    ensures newCoords == ProposalsAfter(newCoords0, ais, coords, locks, columns, rows, rolls)
    ensures forall e :: e in moved <==> Mover(ais, coords, locks, e)
  {
    newCoords, moved := newCoords0, [];
    ghost var done: set<Entity> := {};
    var i := 0;
    while i < |entities|
      invariant 0 <= i <= |entities|
      invariant forall k :: 0 <= k < i ==> entities[k] in done
      invariant forall e :: e in newCoords <==> e in newCoords0 || (e in done && Mover(ais, coords, locks, e))
      invariant forall e :: e in newCoords ==>
        newCoords[e] == if e in done && Mover(ais, coords, locks, e)
                        then Proposal(coords[e], rolls[e], columns, rows) else newCoords0[e]
      invariant forall e :: e in moved <==> e in done && Mover(ais, coords, locks, e)
    {
      var e := entities[i];
      if e in ais && e in coords && e !in locks {
        var n := ProposeOne(coords[e], rolls[e], columns, rows);
        newCoords := newCoords[e := n];
        moved := moved + [e];
      }
      done := done + {e};
      i := i + 1;
    }
  }

  /** The body of the join loop for one mover at `c`: push the candidates
      along the axis the coin picked, and take the one the shuffle puts
      first. */
  method ProposeOne(c: GridCoords, roll: AIRoll, columns: nat, rows: nat) returns (n: GridCoords)
    ensures n == Proposal(c, roll, columns, rows)
  {
    if roll.alongX {
      var options := [c.x];
      if c.x < columns {
        options := options + [c.x + 1];
      }
      if c.x > 0 {
        options := options + [c.x - 1];
      }
      assert options == Candidates(c.x, columns);
      n := GridCoords(options[roll.pick % |options|], c.y);
    } else {
      var options := [c.y];
      if c.y < rows {
        options := options + [c.y + 1];
      }
      if c.y > 0 {
        options := options + [c.y - 1];
      }
      assert options == Candidates(c.y, rows);
      n := GridCoords(c.x, options[roll.pick % |options|]);
    }
  }

  /** The second loop: every collected entity gets a fresh lock. */
  method LockMoved(ais: set<Entity>, coords: map<Entity, GridCoords>, locks0: map<Entity, ActionLock>,
                   moved: seq<Entity>, now: nat)
    returns (locks: map<Entity, ActionLock>)
    requires forall e :: e in moved <==> Mover(ais, coords, locks0, e)
    ensures locks == LocksAfter(ais, coords, locks0, now)
  {
    locks := locks0;
    var j := 0;
    while j < |moved|
      invariant 0 <= j <= |moved|
      invariant forall k :: 0 <= k < j ==> moved[k] in locks
      invariant forall e :: e in locks ==> e in locks0 || e in moved
      invariant forall e :: e in locks0 ==> e in locks
      invariant forall e :: e in locks ==>
        locks[e] == if e in locks0 then locks0[e] else NewActionLock(MoveLockDuration, now)
    {
      assert moved[j] in moved;
      locks := locks[moved[j] := NewActionLock(MoveLockDuration, now)];
      j := j + 1;
    }
  }
}
