/** `SpriteMovementSys` (src/sprite_movement_sys.rs): a sprite whose
    entity has a pending move turns to face it. */
module SpriteMovementSys {
  import opened Components
  import opened Input
  import opened Ecs

  /** The frame after comparing the current cell with the proposed one: the
      x comparison first (right when x grows, left when it shrinks), then
      the y comparison, which sets the vertical frame on any change and so
      wins when both axes change. Equal coordinates leave the frame alone. */
  function Facing(sprite: PlayerSprite, cur: GridCoords, next: GridCoords): (r: PlayerSprite)
    ensures r.id == sprite.id
    ensures cur.y != next.y ==> r.currentFrame == VerticalFrame
    ensures cur.y == next.y && cur.x < next.x ==> r.currentFrame == RightFrame
    ensures cur.y == next.y && cur.x > next.x ==> r.currentFrame == LeftFrame
    ensures cur == next ==> r == sprite
  {
    var afterX :=
      if cur.x < next.x then UpdateFrame(sprite, RightFrame)
      else if cur.x > next.x then UpdateFrame(sprite, LeftFrame)
      else sprite;
    if cur.y != next.y then UpdateFrame(afterX, VerticalFrame) else afterX
  }

  /** Turning twice towards the same move is the same as turning once. */
  lemma FacingIsIdempotent(sprite: PlayerSprite, cur: GridCoords, next: GridCoords)
    ensures Facing(Facing(sprite, cur, next), cur, next) == Facing(sprite, cur, next)
  {
  }

  /** The frame for a move asked by an arrow key: right for Right, left for
      Left, and vertical for Up and Down. */
  lemma KeyMoveFacing(sprite: PlayerSprite, c: GridCoords, k: Key, columns: nat, rows: nat)
    requires KeyMove(c, k, columns, rows).Some?
    ensures k == Right ==> Facing(sprite, c, KeyMove(c, k, columns, rows).value).currentFrame == RightFrame
    ensures k == Left ==> Facing(sprite, c, KeyMove(c, k, columns, rows).value).currentFrame == LeftFrame
    ensures k == Up || k == Down ==>
      Facing(sprite, c, KeyMove(c, k, columns, rows).value).currentFrame == VerticalFrame
  {
  }

  /** The sprites after the run: those joined with a proposal and a current
      cell face the proposal, the others are left alone. */
  function SpritesAfter(sprites: map<Entity, PlayerSprite>, newCoords: map<Entity, GridCoords>,
                        coords: map<Entity, GridCoords>): map<Entity, PlayerSprite>
  {
    map e | e in sprites ::
      if e in newCoords && e in coords then Facing(sprites[e], coords[e], newCoords[e]) else sprites[e]
  }

  /** One run: only sprites change. */
  function Step(s: WorldState): (r: WorldState)
    ensures r == s.(sprites := r.sprites)
  {
    s.(sprites := SpritesAfter(s.sprites, s.newGridCoords, s.gridCoords))
  }

  /** Every sprite is still there with the same identity; one on an entity
      with both a proposal and a current cell faces the proposal, and every
      other sprite is unchanged. */
  lemma SpritesFaceProposals(s: WorldState)
    ensures Step(s).sprites.Keys == s.sprites.Keys
    ensures forall e :: e in s.sprites ==> Step(s).sprites[e].id == s.sprites[e].id
    ensures forall e :: e in s.sprites && e in s.newGridCoords && e in s.gridCoords ==>
      Step(s).sprites[e] == Facing(s.sprites[e], s.gridCoords[e], s.newGridCoords[e])
    ensures forall e :: e in s.sprites && !(e in s.newGridCoords && e in s.gridCoords) ==>
      Step(s).sprites[e] == s.sprites[e]
  {
  }

  /** The run keeps every storage within the live entities. */
  lemma StepKeepsWellFormed(s: WorldState)
    requires WellFormed(s)
    ensures WellFormed(Step(s))
  {
  }

  /** `SpriteMovementSys::run`. */
  method Run(w: World)
    requires w.Valid()
    modifies w`sprites
    ensures w.Valid()
    ensures w.View() == Step(old(w.View()))
  {
    ghost var s := w.View();
    var sprites := TurnSprites(w.entities, w.newGridCoords, w.gridCoords, w.sprites);
    w.sprites := sprites;
    assert w.View() == s.(sprites := SpritesAfter(s.sprites, s.newGridCoords, s.gridCoords));
    StepKeepsWellFormed(s);
  }

  /** The join loop over proposals, current cells and sprites, updating each
      joined sprite's frame in place. */
  method TurnSprites(entities: seq<Entity>, newCoords: map<Entity, GridCoords>,
                     coords: map<Entity, GridCoords>, sprites0: map<Entity, PlayerSprite>)
    returns (sprites: map<Entity, PlayerSprite>)
    requires Distinct(entities) && forall e :: e in sprites0 ==> e in entities
    ensures sprites == SpritesAfter(sprites0, newCoords, coords)
  {
    sprites := sprites0;
    ghost var done: set<Entity> := {};
    var i := 0;
    while i < |entities|
      invariant 0 <= i <= |entities|
      invariant forall k :: 0 <= k < i ==> entities[k] in done
      invariant forall k :: i <= k < |entities| ==> entities[k] !in done
      invariant sprites.Keys == sprites0.Keys
      invariant forall e :: e in sprites ==>
        sprites[e] == if e in done && e in newCoords && e in coords
                      then Facing(sprites0[e], coords[e], newCoords[e]) else sprites0[e]
    {
      var e := entities[i];
      if e in newCoords && e in coords && e in sprites {
        var sprite := sprites[e];
        var cur, next := coords[e], newCoords[e];
        if cur.x < next.x {
          sprite := UpdateFrame(sprite, RightFrame);
        } else if cur.x > next.x {
          sprite := UpdateFrame(sprite, LeftFrame);
        }
        if cur.y < next.y {
          sprite := UpdateFrame(sprite, VerticalFrame);
        } else if cur.y > next.y {
          sprite := UpdateFrame(sprite, VerticalFrame);
        }
        sprites := sprites[e := sprite];
      }
      done := done + {e};
      i := i + 1;
    }
  }
}
