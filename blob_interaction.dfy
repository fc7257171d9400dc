/** `BlobInteractionSys` (src/blob_interaction.rs): blobs next to a player
    turn blue, or red and take 5 damage when some player action is
    pending; blobs elsewhere turn green; then every pending action is
    marked handled. */
module BlobInteractionSys {
  import opened Components
  import opened Input
  import opened Ecs

  /** The damage a blob takes from a fired action. */
  const HitDamage: u8 := 5

  /** The players whose action is still unhandled. */
  predicate Pending(players: set<Entity>, actions: map<Entity, ActionFired>, e: Entity)
  {
    e in players && e in actions && !IsHandled(actions[e])
  }

  /** The cells of the players that have one, in join order. */
  function PlayerCells(es: seq<Entity>, players: set<Entity>, coords: map<Entity, GridCoords>): (r: seq<GridCoords>)
    ensures |r| <= |es|
    decreases |es|
  {
    if es == [] then []
    else
      var rest := PlayerCells(es[..|es| - 1], players, coords);
      var e := es[|es| - 1];
      if e in players && e in coords then rest + [coords[e]] else rest
  }

  /** The colour a blob is given by one player: red when next to it and an
      action is pending, blue when next to it otherwise, green when not
      next to it. */
  function Colour(near: bool, hit: bool): (c: Colour)
    ensures c == Red <==> near && hit
    ensures c == Blue <==> near && !hit
    ensures c == Green <==> !near
  {
    if near then (if hit then Red else Blue) else Green
  }

  /** The colour and damage storages, the two the player loop writes. */
  datatype Paint = Paint(colors: map<Entity, Colour>, damage: map<Entity, u8>)

  /** The blobs the inner join visits: a blob with a cell and a colour. */
  predicate Touched(blobs: set<Entity>, coords: map<Entity, GridCoords>, colors: map<Entity, Colour>, b: Entity)
  {
    b in blobs && b in coords && b in colors
  }

  /** One pass of the inner loop for the player at `c1`: every visited blob
      is recoloured, and the ones next to the player take `HitDamage` when
      `hit`, replacing any damage they had. */
  function Touch(p: Paint, blobs: set<Entity>, coords: map<Entity, GridCoords>, c1: GridCoords, hit: bool): (r: Paint)
    ensures r.colors.Keys == p.colors.Keys
  {
    Paint(Recolour(p.colors, blobs, coords, c1, hit), Hit(p, blobs, coords, c1, hit))
  }

  /** The colours after one pass of the inner loop. */
  function Recolour(colors: map<Entity, Colour>, blobs: set<Entity>, coords: map<Entity, GridCoords>,
                    c1: GridCoords, hit: bool): map<Entity, Colour>
  {
    map b | b in colors ::
      if Touched(blobs, coords, colors, b) then Colour(IsNextTo(c1, coords[b]), hit) else colors[b]
  }

  /** Whether one pass of the inner loop for the player at `c1` inserts
      damage on `b`. */
  predicate Hits(p: Paint, blobs: set<Entity>, coords: map<Entity, GridCoords>, c1: GridCoords, hit: bool, b: Entity)
  {
    Touched(blobs, coords, p.colors, b) && hit && IsNextTo(c1, coords[b])
  }

  /** The damage after one pass of the inner loop. */
  function Hit(p: Paint, blobs: set<Entity>, coords: map<Entity, GridCoords>, c1: GridCoords, hit: bool): map<Entity, u8>
  {
    map b | b in p.damage.Keys + p.colors.Keys && (b in p.damage || Hits(p, blobs, coords, c1, hit, b)) ::
      if Hits(p, blobs, coords, c1, hit, b) then HitDamage else p.damage[b]
  }

  /** The inner loop for the player at `c1` after visiting the entities
      `es` in order, one blob at a time. */
  function TouchVisited(p: Paint, blobs: set<Entity>, coords: map<Entity, GridCoords>, c1: GridCoords,
                        hit: bool, es: seq<Entity>): Paint
    decreases |es|
  {
    if es == [] then p
    else
      var q := TouchVisited(p, blobs, coords, c1, hit, es[..|es| - 1]);
      var b := es[|es| - 1];
      if b in blobs && b in coords && b in q.colors then
        Paint(q.colors[b := Colour(IsNextTo(c1, coords[b]), hit)],
              if hit && IsNextTo(c1, coords[b]) then q.damage[b := HitDamage] else q.damage)
      else q
  }

  /** What visiting `es` does to one entity `b`: its colour and damage
      change only when it was visited, and then as `Touch` says. */
  lemma {:induction false} TouchVisitedAt(p: Paint, blobs: set<Entity>, coords: map<Entity, GridCoords>,
                                          c1: GridCoords, hit: bool, es: seq<Entity>, b: Entity)
    ensures var q := TouchVisited(p, blobs, coords, c1, hit, es);
      && q.colors.Keys == p.colors.Keys
      && (b in p.colors ==>
            q.colors[b] == if b in es && Touched(blobs, coords, p.colors, b)
                           then Colour(IsNextTo(c1, coords[b]), hit) else p.colors[b])
      && (b in q.damage <==> b in p.damage || (b in es && Hits(p, blobs, coords, c1, hit, b)))
      && (b in q.damage ==>
            q.damage[b] == if b in es && Hits(p, blobs, coords, c1, hit, b) then HitDamage else p.damage[b])
    decreases |es|
  {
    if es != [] {
      var init := es[..|es| - 1];
      TouchVisitedAt(p, blobs, coords, c1, hit, init, b);
      assert b in es <==> b in init || b == es[|es| - 1];
      var last := es[|es| - 1];
      if last != b {
        TouchVisitedAt(p, blobs, coords, c1, hit, init, last);
      }
    }
  }

  /** Visiting every coloured entity at least once is one full pass. */
  lemma TouchVisitedIsTouch(p: Paint, blobs: set<Entity>, coords: map<Entity, GridCoords>,
                            c1: GridCoords, hit: bool, es: seq<Entity>)
    requires forall e :: e in p.colors ==> e in es
    ensures TouchVisited(p, blobs, coords, c1, hit, es) == Touch(p, blobs, coords, c1, hit)
  {
    var q := TouchVisited(p, blobs, coords, c1, hit, es);
    var r := Touch(p, blobs, coords, c1, hit);
    TouchVisitedAt(p, blobs, coords, c1, hit, es, 0);
    forall b | b in q.colors || b in q.damage || b in r.damage
      ensures (b in q.colors ==> q.colors[b] == r.colors[b])
      ensures (b in q.damage <==> b in r.damage) && (b in q.damage ==> q.damage[b] == r.damage[b])
    {
      TouchVisitedAt(p, blobs, coords, c1, hit, es, b);
    }
    assert q.colors == r.colors;
    assert q.damage == r.damage;
  }

  /** The outer loop: one pass of the inner loop per player cell, in order. */
  function TouchAll(p: Paint, blobs: set<Entity>, coords: map<Entity, GridCoords>, cells: seq<GridCoords>,
                    hit: bool): Paint
    decreases |cells|
  {
    if cells == [] then p
    else Touch(TouchAll(p, blobs, coords, cells[..|cells| - 1], hit), blobs, coords, cells[|cells| - 1], hit)
  }

  /** Whether some player cell is next to `c`. */
  predicate NearAny(cells: seq<GridCoords>, c: GridCoords)
  {
    exists c1 :: c1 in cells && IsNextTo(c1, c)
  }

  /** The loop over players leaves the same entities coloured, and the
      colour of a visited blob is the one the LAST player gives it; with no
      player, colours are unchanged, and so are those of unvisited
      entities. */
  lemma {:induction false} LastPlayerDecidesColour(p: Paint, blobs: set<Entity>, coords: map<Entity, GridCoords>,
                                                   cells: seq<GridCoords>, hit: bool, b: Entity)
    ensures TouchAll(p, blobs, coords, cells, hit).colors.Keys == p.colors.Keys
    ensures b in p.colors && Touched(blobs, coords, p.colors, b) && cells != [] ==>
      TouchAll(p, blobs, coords, cells, hit).colors[b] == Colour(IsNextTo(cells[|cells| - 1], coords[b]), hit)
    ensures b in p.colors && !(Touched(blobs, coords, p.colors, b) && cells != []) ==>
      TouchAll(p, blobs, coords, cells, hit).colors[b] == p.colors[b]
    decreases |cells|
  {
    if cells != [] {
      LastPlayerDecidesColour(p, blobs, coords, cells[..|cells| - 1], hit, b);
    }
  }

  /** Fan-out: every visited blob next to ANY player takes exactly
      `HitDamage` when an action is pending, however many players are next
      to it; every other entity keeps its damage, present or absent. */
  lemma {:induction false} DamageFansOut(p: Paint, blobs: set<Entity>, coords: map<Entity, GridCoords>,
                                         cells: seq<GridCoords>, hit: bool, b: Entity)
    ensures var q := TouchAll(p, blobs, coords, cells, hit);
      && (Touched(blobs, coords, p.colors, b) && hit && NearAny(cells, coords[b]) ==>
            b in q.damage && q.damage[b] == HitDamage)
      && (!(Touched(blobs, coords, p.colors, b) && hit && NearAny(cells, coords[b])) ==>
            (b in q.damage <==> b in p.damage) && (b in p.damage ==> q.damage[b] == p.damage[b]))
    decreases |cells|
  {
    if cells != [] {
      var init := cells[..|cells| - 1];
      var last := cells[|cells| - 1];
      DamageFansOut(p, blobs, coords, init, hit, b);
      LastPlayerDecidesColour(p, blobs, coords, init, hit, b);
      assert forall c1 :: c1 in cells <==> c1 in init || c1 == last;
    }
  }

  /** The actions after the run: every pending one is marked handled. */
  function ActionsAfter(players: set<Entity>, actions: map<Entity, ActionFired>): map<Entity, ActionFired>
  {
    map e | e in actions :: if Pending(players, actions, e) then MarkAsHandled(actions[e]) else actions[e]
  }

  /** Whether some player action is pending, which decides red over blue. */
  predicate AnyPending(s: WorldState)
  {
    exists e :: e in s.players && Pending(s.players, s.actions, e)
  }

  /** One run: the colours and damage after the player loop, and the
      pending actions marked. Nothing else in the world changes. */
  function Step(s: WorldState): (r: WorldState)
    ensures r == s.(colors := r.colors, damage := r.damage, actions := r.actions)
  {
    var p := TouchAll(Paint(s.colors, s.damage), s.blobs, s.gridCoords,
                      PlayerCells(s.entities, s.players, s.gridCoords), AnyPending(s));
    s.(colors := p.colors, damage := p.damage, actions := ActionsAfter(s.players, s.actions))
  }

  /** The colour of a blob after the run: set by the last player in join
      order, red or blue when next to it as an action is pending or not,
      green otherwise. With no player on the grid, colours are untouched. */
  lemma ColourAfterRun(s: WorldState, b: Entity)
    requires Touched(s.blobs, s.gridCoords, s.colors, b)
    ensures var cells := PlayerCells(s.entities, s.players, s.gridCoords);
      && b in Step(s).colors
      && (cells != [] ==>
            Step(s).colors[b] == Colour(IsNextTo(cells[|cells| - 1], s.gridCoords[b]), AnyPending(s)))
      && (cells == [] ==> Step(s).colors[b] == s.colors[b])
  {
    var cells := PlayerCells(s.entities, s.players, s.gridCoords);
    LastPlayerDecidesColour(Paint(s.colors, s.damage), s.blobs, s.gridCoords, cells, AnyPending(s), b);
  }

  /** Damage after the run: a blob next to any player gets exactly
      `HitDamage` when an action is pending; with no action pending, or for
      any other entity, damage is untouched. */
  lemma DamageAfterRun(s: WorldState, b: Entity)
    ensures var cells := PlayerCells(s.entities, s.players, s.gridCoords);
      && (Touched(s.blobs, s.gridCoords, s.colors, b) && AnyPending(s) && NearAny(cells, s.gridCoords[b]) ==>
            b in Step(s).damage && Step(s).damage[b] == HitDamage)
      && (!(Touched(s.blobs, s.gridCoords, s.colors, b) && AnyPending(s) && NearAny(cells, s.gridCoords[b])) ==>
            (b in Step(s).damage <==> b in s.damage) && (b in s.damage ==> Step(s).damage[b] == s.damage[b]))
  {
    var cells := PlayerCells(s.entities, s.players, s.gridCoords);
    DamageFansOut(Paint(s.colors, s.damage), s.blobs, s.gridCoords, cells, AnyPending(s), b);
  }

  /** Only entities the inner loop visits change colour. */
  lemma OtherColoursUntouched(s: WorldState, e: Entity)
    requires e in s.colors && !Touched(s.blobs, s.gridCoords, s.colors, e)
    ensures e in Step(s).colors && Step(s).colors[e] == s.colors[e]
  {
    var cells := PlayerCells(s.entities, s.players, s.gridCoords);
    LastPlayerDecidesColour(Paint(s.colors, s.damage), s.blobs, s.gridCoords, cells, AnyPending(s), e);
  }

  /** After the run every player action is handled, whether or not a blob
      was next to the player; no action appears or disappears, and each
      keeps its lifetime. */
  lemma ActionsHandledAfterRun(s: WorldState)
    ensures Step(s).actions.Keys == s.actions.Keys
    ensures forall e :: e in s.players && e in s.actions ==> IsHandled(Step(s).actions[e])
    ensures forall e :: e in s.actions ==>
      Step(s).actions[e].duration == s.actions[e].duration && Step(s).actions[e].created == s.actions[e].created
    ensures forall e :: e in s.actions && e !in s.players ==> Step(s).actions[e] == s.actions[e]
  {
  }

  /** Handled actions cause no damage: once the run has marked them, a
      second run finds nothing pending and damages nobody. */
  lemma SecondRunDamagesNobody(s: WorldState)
    ensures !AnyPending(Step(s))
    ensures Step(Step(s)).damage == Step(s).damage
  {
    var r := Step(s);
    ActionsHandledAfterRun(s);
    assert !AnyPending(r);
    forall b | b in Step(r).damage || b in r.damage
      ensures b in Step(r).damage && b in r.damage && Step(r).damage[b] == r.damage[b]
    {
      DamageAfterRun(r, b);
    }
  }

  /** The cell of every player that has one is among the player cells. */
  lemma {:induction false} PlayerCellsHold(es: seq<Entity>, players: set<Entity>, coords: map<Entity, GridCoords>, p: Entity)
    requires p in es && p in players && p in coords
    ensures coords[p] in PlayerCells(es, players, coords)
    decreases |es|
  {
    if es[|es| - 1] != p {
      assert p in es[..|es| - 1];
      PlayerCellsHold(es[..|es| - 1], players, coords, p);
    }
  }

  /** The blob-hit scenario: a blob next to a player whose action is still
      unhandled takes `HitDamage`, whatever the other players do, and the
      player's action is handled afterwards. */
  lemma PendingPlayerHitsBlob(s: WorldState, p: Entity, b: Entity)
    requires Pending(s.players, s.actions, p) && p in s.entities && p in s.gridCoords
    requires Touched(s.blobs, s.gridCoords, s.colors, b) && IsNextTo(s.gridCoords[p], s.gridCoords[b])
    ensures b in Step(s).damage && Step(s).damage[b] == HitDamage
    ensures p in Step(s).actions && IsHandled(Step(s).actions[p])
  {
    var cells := PlayerCells(s.entities, s.players, s.gridCoords);
    PlayerCellsHold(s.entities, s.players, s.gridCoords, p);
    assert AnyPending(s);
    assert NearAny(cells, s.gridCoords[b]);
    DamageAfterRun(s, b);
  }

  /** The run keeps every storage within the live entities. */
  lemma StepKeepsWellFormed(s: WorldState)
    requires WellFormed(s)
    ensures WellFormed(Step(s))
  {
    var r := Step(s);
    var cells := PlayerCells(s.entities, s.players, s.gridCoords);
    forall e | e in r.colors
      ensures e in Ids(s)
    {
      LastPlayerDecidesColour(Paint(s.colors, s.damage), s.blobs, s.gridCoords, cells, AnyPending(s), e);
    }
    forall e | e in r.damage
      ensures e in Ids(s)
    {
      DamageFansOut(Paint(s.colors, s.damage), s.blobs, s.gridCoords, cells, AnyPending(s), e);
    }
  }

  /** `BlobInteractionSys::run`. */
  method Run(w: World)
    requires w.Valid()
    modifies w`colors, w`damage, w`actions
    ensures w.Valid()
    ensures w.View() == Step(old(w.View()))
  {
    ghost var s := w.View();
    var playerActions := CollectPending(w.entities, w.players, w.actions);
    var hit := |playerActions| > 0;
    assert hit == AnyPending(s) by {
      if AnyPending(s) {
        var e :| e in s.players && Pending(s.players, s.actions, e);
        assert e in playerActions;
      }
      if hit {
        assert playerActions[0] in playerActions;
      }
    }
    var p := PlayerLoop(w.entities, w.players, w.blobs, w.gridCoords, Paint(w.colors, w.damage), hit);
    var actions := MarkPending(w.players, w.actions, playerActions);
    w.colors, w.damage, w.actions := p.colors, p.damage, actions;
    assert w.View() == s.(colors := p.colors, damage := p.damage, actions := ActionsAfter(s.players, s.actions));
    StepKeepsWellFormed(s);
  }

  /** The join over players and actions, filtered on not handled. */
  method CollectPending(entities: seq<Entity>, players: set<Entity>, actions: map<Entity, ActionFired>)
    returns (playerActions: seq<Entity>)
    requires forall e :: e in players ==> e in entities
    ensures forall e :: e in playerActions <==> Pending(players, actions, e)
  {
    playerActions := [];
    ghost var done: set<Entity> := {};
    var i := 0;
    while i < |entities|
      invariant 0 <= i <= |entities|
      invariant forall k :: 0 <= k < i ==> entities[k] in done
      invariant forall e :: e in playerActions <==> e in done && Pending(players, actions, e)
    {
      var e := entities[i];
      if e in players && e in actions && !IsHandled(actions[e]) {
        playerActions := playerActions + [e];
      }
      done := done + {e};
      i := i + 1;
    }
  }

  /** The outer join over players with a cell, running the inner loop for
      each. */
  method PlayerLoop(entities: seq<Entity>, players: set<Entity>, blobs: set<Entity>,
                    coords: map<Entity, GridCoords>, p0: Paint, hit: bool)
    returns (p: Paint)
    requires forall e :: e in p0.colors ==> e in entities
    ensures p == TouchAll(p0, blobs, coords, PlayerCells(entities, players, coords), hit)
  {
    p := p0;
    var i := 0;
    while i < |entities|
      invariant 0 <= i <= |entities|
      invariant forall e :: e in p.colors ==> e in entities
      invariant p == TouchAll(p0, blobs, coords, PlayerCells(entities[..i], players, coords), hit)
    {
      var e := entities[i];
      assert entities[..i + 1][..i] == entities[..i];
      if e in players && e in coords {
        p := TouchBlobs(entities, blobs, coords, p, coords[e], hit);
      }
      i := i + 1;
    }
    assert entities[..|entities|] == entities;
  }

  /** The inner join over blobs with a cell and a colour, for the player at
      `c1`. */
  method TouchBlobs(entities: seq<Entity>, blobs: set<Entity>, coords: map<Entity, GridCoords>,
                    p0: Paint, c1: GridCoords, hit: bool)
    returns (p: Paint)
    requires forall e :: e in p0.colors ==> e in entities
    ensures p == Touch(p0, blobs, coords, c1, hit)
  {
    var colors, damage := p0.colors, p0.damage;
    var i := 0;
    while i < |entities|
      invariant 0 <= i <= |entities|
      invariant Paint(colors, damage) == TouchVisited(p0, blobs, coords, c1, hit, entities[..i])
    {
      var b := entities[i];
      assert entities[..i + 1][..i] == entities[..i];
      if b in blobs && b in coords && b in colors {
        colors, damage := TouchBlob(colors, damage, b, coords[b], c1, hit);
      }
      i := i + 1;
    }
    assert entities[..|entities|] == entities;
    TouchVisitedIsTouch(p0, blobs, coords, c1, hit, entities);
    p := Paint(colors, damage);
  }

  /** The body of the inner loop for a visited blob `b` at `c2`. */
  method TouchBlob(colors0: map<Entity, Colour>, damage0: map<Entity, u8>, b: Entity, c2: GridCoords,
                   c1: GridCoords, hit: bool)
    returns (colors: map<Entity, Colour>, damage: map<Entity, u8>)
    ensures colors == colors0[b := Colour(IsNextTo(c1, c2), hit)]
    ensures damage == if hit && IsNextTo(c1, c2) then damage0[b := HitDamage] else damage0
  {
    colors, damage := colors0, damage0;
    if IsNextTo(c1, c2) {
      if hit {
        colors := colors[b := Red];
        damage := damage[b := HitDamage];
      } else {
        colors := colors[b := Blue];
      }
    } else {
      colors := colors[b := Green];
    }
  }

  /** The final loop: every collected action is marked handled in place. */
  method MarkPending(players: set<Entity>, actions0: map<Entity, ActionFired>, playerActions: seq<Entity>)
    returns (actions: map<Entity, ActionFired>)
    requires forall e :: e in playerActions <==> Pending(players, actions0, e)
    ensures actions == ActionsAfter(players, actions0)
  {
    actions := actions0;
    ghost var done: set<Entity> := {};
    var j := 0;
    while j < |playerActions|
      invariant 0 <= j <= |playerActions|
      invariant forall k :: 0 <= k < j ==> playerActions[k] in done
      invariant forall e :: e in done ==> Pending(players, actions0, e)
      invariant actions.Keys == actions0.Keys
      invariant forall e :: e in actions ==>
        actions[e] == if e in done then MarkAsHandled(actions0[e]) else actions0[e]
    {
      var e := playerActions[j];
      assert e in playerActions;
      actions := actions[e := MarkAsHandled(actions[e])];
      done := done + {e};
      j := j + 1;
    }
  }
}
