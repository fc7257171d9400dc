/** `UpdatePos` (src/update_position_sys.rs): a pending move is applied to
    the entity's cell and pixel position, and then consumed. */
module UpdatePos {
  import opened Components
  import opened Ecs

  /** The entities the run moves: those with a proposal, a cell and a
      position. */
  predicate Moves(newCoords: map<Entity, GridCoords>, coords: map<Entity, GridCoords>,
                  positions: map<Entity, Position>, e: Entity)
  {
    e in newCoords && e in coords && e in positions
  }

  /** The pixel position the run gives to a cell. Both axes go through the
      column transform. */
  function PixelOf(n: GridCoords): Position
  {
    Position(FindPositionForGridX(n.x), FindPositionForGridX(n.y))
  }

  /** The cells after the run: a moved entity takes its proposal verbatim. */
  function CoordsAfter(newCoords: map<Entity, GridCoords>, coords: map<Entity, GridCoords>,
                       positions: map<Entity, Position>): map<Entity, GridCoords>
  {
    map e | e in coords :: if Moves(newCoords, coords, positions, e) then newCoords[e] else coords[e]
  }

  /** The positions after the run: a moved entity is placed on its new cell. */
  function PositionsAfter(newCoords: map<Entity, GridCoords>, coords: map<Entity, GridCoords>,
                          positions: map<Entity, Position>): map<Entity, Position>
  {
    map e | e in positions ::
      if Moves(newCoords, coords, positions, e) then PixelOf(newCoords[e]) else positions[e]
  }

  /** The proposals after the run: only those of entities that did not move
      are left. */
  function ProposalsLeft(newCoords: map<Entity, GridCoords>, coords: map<Entity, GridCoords>,
                         positions: map<Entity, Position>): map<Entity, GridCoords>
  {
    map e | e in newCoords && !Moves(newCoords, coords, positions, e) :: newCoords[e]
  }

  /** One run: only cells, positions and proposals change. */
  function Step(s: WorldState): (r: WorldState)
    ensures r == s.(gridCoords := r.gridCoords, positions := r.positions, newGridCoords := r.newGridCoords)
  {
    s.(gridCoords := CoordsAfter(s.newGridCoords, s.gridCoords, s.positions),
       positions := PositionsAfter(s.newGridCoords, s.gridCoords, s.positions),
       newGridCoords := ProposalsLeft(s.newGridCoords, s.gridCoords, s.positions))
  }

  /** Every entity with a proposal, a cell and a position ends on the
      proposed cell, copied verbatim, at its pixel position, and without a
      proposal. An entity lacking the cell or the position keeps its
      proposal untouched, and one without a proposal keeps its cell and
      position. No cell or position appears or disappears. */
  lemma MovesApplied(s: WorldState)
    ensures Step(s).gridCoords.Keys == s.gridCoords.Keys && Step(s).positions.Keys == s.positions.Keys
    ensures forall e :: Moves(s.newGridCoords, s.gridCoords, s.positions, e) ==>
      && Step(s).gridCoords[e] == s.newGridCoords[e]
      && Step(s).positions[e] == PixelOf(s.newGridCoords[e])
      && e !in Step(s).newGridCoords
    ensures forall e :: e in s.gridCoords && !Moves(s.newGridCoords, s.gridCoords, s.positions, e) ==>
      Step(s).gridCoords[e] == s.gridCoords[e]
    ensures forall e :: e in s.positions && !Moves(s.newGridCoords, s.gridCoords, s.positions, e) ==>
      Step(s).positions[e] == s.positions[e]
    ensures forall e :: e in s.newGridCoords && !Moves(s.newGridCoords, s.gridCoords, s.positions, e) ==>
      e in Step(s).newGridCoords && Step(s).newGridCoords[e] == s.newGridCoords[e]
    ensures Step(s).newGridCoords.Keys <= s.newGridCoords.Keys
  {
  }

  /** The run keeps every storage within the live entities. */
  lemma StepKeepsWellFormed(s: WorldState)
    requires WellFormed(s)
    ensures WellFormed(Step(s))
  {
  }

  /** After a run no entity that has a cell and a position still holds a
      proposal: the move is consumed by its consumer. */
  lemma ProposalsConsumed(s: WorldState)
    ensures forall e :: e in Step(s).newGridCoords ==>
      !(e in Step(s).gridCoords && e in Step(s).positions)
  {
    var r := Step(s);
    forall e | e in r.newGridCoords
      ensures !(e in r.gridCoords && e in r.positions)
    {
      assert e in s.newGridCoords && !Moves(s.newGridCoords, s.gridCoords, s.positions, e);
    }
  }

  /** A second run right after the first changes nothing. */
  lemma StepIsIdempotent(s: WorldState)
    ensures Step(Step(s)) == Step(s)
  {
    var r := Step(s);
    ProposalsConsumed(s);
    assert CoordsAfter(r.newGridCoords, r.gridCoords, r.positions) == r.gridCoords;
    assert PositionsAfter(r.newGridCoords, r.gridCoords, r.positions) == r.positions;
    assert ProposalsLeft(r.newGridCoords, r.gridCoords, r.positions) == r.newGridCoords;
  }

  /** No bounds are re-checked, so cells stay in bounds exactly when the
      proposals were. */
  lemma StepKeepsInBounds(s: WorldState, columns: nat, rows: nat)
    requires CoordsInBounds(s, columns, rows)
    ensures CoordsInBounds(Step(s), columns, rows)
  {
  }

  /** Placing the row with the column transform puts the entity on the same
      pixel the row transform would, because the tiles are square. */
  lemma PixelOfMatchesGrid(n: GridCoords)
    ensures PixelOf(n) == Position(FindPositionForGridX(n.x), FindPositionForGridY(n.y))
  {
  }

  /** `UpdatePos::run`. */
  method Run(w: World)
    requires w.Valid()
    modifies w`gridCoords, w`positions, w`newGridCoords
    ensures w.Valid()
    ensures w.View() == Step(old(w.View()))
  {
    ghost var s := w.View();
    var coords, pos, updated := MoveAll(w.entities, w.newGridCoords, w.gridCoords, w.positions);
    var newCoords := RemoveProposals(w.newGridCoords, w.gridCoords, w.positions, updated);
    w.gridCoords, w.positions, w.newGridCoords := coords, pos, newCoords;
    assert w.View() == s.(gridCoords := CoordsAfter(s.newGridCoords, s.gridCoords, s.positions),
                          positions := PositionsAfter(s.newGridCoords, s.gridCoords, s.positions),
                          newGridCoords := ProposalsLeft(s.newGridCoords, s.gridCoords, s.positions));
    StepKeepsWellFormed(s);
  }

  /** The join loop over proposals, cells and positions: each joined entity
      gets its new pixel position and cell, and is collected. */
  method MoveAll(entities: seq<Entity>, newCoords: map<Entity, GridCoords>,
                 coords0: map<Entity, GridCoords>, pos0: map<Entity, Position>)
    returns (coords: map<Entity, GridCoords>, pos: map<Entity, Position>, updated: seq<Entity>)
    requires forall e :: e in coords0 ==> e in entities
    ensures coords == CoordsAfter(newCoords, coords0, pos0)
    ensures pos == PositionsAfter(newCoords, coords0, pos0)
    ensures forall e :: e in updated <==> Moves(newCoords, coords0, pos0, e)
  {
    coords, pos, updated := coords0, pos0, [];
    ghost var done: set<Entity> := {};
    var i := 0;
    while i < |entities|
      invariant 0 <= i <= |entities|
      invariant forall k :: 0 <= k < i ==> entities[k] in done
      invariant coords.Keys == coords0.Keys && pos.Keys == pos0.Keys
      invariant forall e :: e in coords ==>
        coords[e] == if e in done && Moves(newCoords, coords0, pos0, e) then newCoords[e] else coords0[e]
      invariant forall e :: e in pos ==>
        pos[e] == if e in done && Moves(newCoords, coords0, pos0, e) then PixelOf(newCoords[e]) else pos0[e]
      invariant forall e :: e in updated <==> e in done && Moves(newCoords, coords0, pos0, e)
    {
      var e := entities[i];
      if e in newCoords && e in coords && e in pos {
        var n := newCoords[e];
        pos := pos[e := Position(FindPositionForGridX(n.x), FindPositionForGridX(n.y))];
        coords := coords[e := GridCoords(n.x, n.y)];
        updated := updated + [e];
      }
      done := done + {e};
      i := i + 1;
    }
  }

  /** Removes the collected proposals one by one. */
  method RemoveProposals(newCoords0: map<Entity, GridCoords>, coords: map<Entity, GridCoords>,
                         positions: map<Entity, Position>, updated: seq<Entity>)
    returns (newCoords: map<Entity, GridCoords>)
    requires forall e :: e in updated <==> Moves(newCoords0, coords, positions, e)
    ensures newCoords == ProposalsLeft(newCoords0, coords, positions)
  {
    newCoords := newCoords0;
    var j := 0;
    while j < |updated|
      invariant 0 <= j <= |updated|
      invariant forall k :: 0 <= k < j ==> updated[k] !in newCoords
      invariant forall e :: e in newCoords0 && e !in updated ==> e in newCoords
      invariant forall e :: e in newCoords ==> e in newCoords0 && newCoords[e] == newCoords0[e]
    {
      newCoords := newCoords - {updated[j]};
      j := j + 1;
    }
  }
}
