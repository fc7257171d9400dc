/** The entity/component store: one storage per component registered in
    src/main.rs, the resources the systems share, and the inserts that
    `LazyUpdate` defers until `World::maintain`. */
module Ecs {
  import opened Components
  import opened Input

  /** A value snapshot of every storage and resource of the world.
      Marker components (stored without data) are sets; the others are maps
      from entity to the component. `entities` lists the live entities in
      the order every join visits them. */
  datatype WorldState = WorldState(
    entities: seq<Entity>,
    players: set<Entity>,                      // PlayerMarker
    ais: set<Entity>,                          // AIMarker
    blobs: set<Entity>,                        // BlobMarker
    deaths: set<Entity>,                       // Death
    velocities: set<Entity>,                   // Velocity (its values are never read)
    positions: map<Entity, Position>,          // Position
    gridCoords: map<Entity, GridCoords>,       // GridCoords
    newGridCoords: map<Entity, GridCoords>,    // NewGridCoords
    sprites: map<Entity, PlayerSprite>,        // PlayerSprite
    colors: map<Entity, Colour>,               // Color
    health: map<Entity, u8>,                   // Health
    damage: map<Entity, u8>,                   // Damage
    actions: map<Entity, ActionFired>,         // ActionFired
    locks: map<Entity, ActionLock>,            // ActionLock
    inputEvent: Option<Event>,                 // the InputEvent resource
    blobsHealth: seq<u8>,                      // the GameInfo resource
    lazyActions: map<Entity, ActionFired>,     // ActionFired inserts deferred by LazyUpdate
    lazyMoves: map<Entity, GridCoords>         // NewGridCoords inserts deferred by LazyUpdate
  )

  /** No entity is listed twice. */
  predicate Distinct(es: seq<Entity>)
  {
    forall i, j :: 0 <= i < j < |es| ==> es[i] != es[j]
  }

  /** The live entities, as a set. */
  function Ids(s: WorldState): set<Entity>
  {
    set e | e in s.entities
  }

  /** Every storage only holds components of live entities, and the join
      order visits each live entity once. */
  predicate WellFormed(s: WorldState)
  {
    && Distinct(s.entities)
    && s.players <= Ids(s) && s.ais <= Ids(s) && s.blobs <= Ids(s)
    && s.deaths <= Ids(s) && s.velocities <= Ids(s)
    && s.positions.Keys <= Ids(s) && s.gridCoords.Keys <= Ids(s)
    && s.newGridCoords.Keys <= Ids(s) && s.sprites.Keys <= Ids(s)
    && s.colors.Keys <= Ids(s) && s.health.Keys <= Ids(s) && s.damage.Keys <= Ids(s)
    && s.actions.Keys <= Ids(s) && s.locks.Keys <= Ids(s)
    && s.lazyActions.Keys <= Ids(s) && s.lazyMoves.Keys <= Ids(s)
  }

  /** Every cell of `m` lies within the largest column and row index. */
  predicate CellsIn(m: map<Entity, GridCoords>, columns: nat, rows: nat)
  {
    forall e :: e in m ==> m[e].x <= columns && m[e].y <= rows
  }

  /** Every cell the world holds or is about to hold (current, proposed, or
      proposed and deferred) lies within the largest column and row index. */
  predicate CoordsInBounds(s: WorldState, columns: nat, rows: nat)
  {
    CellsIn(s.gridCoords, columns, rows) && CellsIn(s.newGridCoords, columns, rows) && CellsIn(s.lazyMoves, columns, rows)
  }

  /** `World::maintain`: the deferred inserts land in their storages and
      the queue is emptied; nothing else changes. */
  function MaintainStep(s: WorldState): (r: WorldState)
    ensures r == s.(actions := r.actions, newGridCoords := r.newGridCoords,
                    lazyActions := map[], lazyMoves := map[])
  {
    s.(actions := s.actions + s.lazyActions, newGridCoords := s.newGridCoords + s.lazyMoves,
       lazyActions := map[], lazyMoves := map[])
  }

  /** A deferred insert overwrites what the storage held for that entity;
      every other entry is kept, and nothing is removed. */
  lemma DeferredInsertsLand(s: WorldState)
    ensures MaintainStep(s).actions.Keys == s.actions.Keys + s.lazyActions.Keys
    ensures MaintainStep(s).newGridCoords.Keys == s.newGridCoords.Keys + s.lazyMoves.Keys
    ensures forall e :: e in s.lazyActions ==> MaintainStep(s).actions[e] == s.lazyActions[e]
    ensures forall e :: e in s.actions && e !in s.lazyActions ==> MaintainStep(s).actions[e] == s.actions[e]
    ensures forall e :: e in s.lazyMoves ==> MaintainStep(s).newGridCoords[e] == s.lazyMoves[e]
    ensures forall e :: e in s.newGridCoords && e !in s.lazyMoves ==>
      MaintainStep(s).newGridCoords[e] == s.newGridCoords[e]
  {
  }

  /** Applying the deferred inserts keeps every storage within the live
      entities. */
  lemma MaintainKeepsWellFormed(s: WorldState)
    requires WellFormed(s)
    ensures WellFormed(MaintainStep(s))
  {
  }

  /** Applying the deferred inserts keeps every cell in bounds: the
      deferred moves become proposals, and they were already in bounds. */
  lemma MaintainKeepsInBounds(s: WorldState, columns: nat, rows: nat)
    requires CoordsInBounds(s, columns, rows)
    ensures CoordsInBounds(MaintainStep(s), columns, rows)
  {
  }

  /** The specs `World`, with the storages this game registers. */
  class World {
    var entities: seq<Entity>
    var players: set<Entity>
    var ais: set<Entity>
    var blobs: set<Entity>
    var deaths: set<Entity>
    var velocities: set<Entity>
    var positions: map<Entity, Position>
    var gridCoords: map<Entity, GridCoords>
    var newGridCoords: map<Entity, GridCoords>
    var sprites: map<Entity, PlayerSprite>
    var colors: map<Entity, Colour>
    var health: map<Entity, u8>
    var damage: map<Entity, u8>
    var actions: map<Entity, ActionFired>
    var locks: map<Entity, ActionLock>
    var inputEvent: Option<Event>
    var blobsHealth: seq<u8>
    var lazyActions: map<Entity, ActionFired>
    var lazyMoves: map<Entity, GridCoords>

    /** The current contents of every storage and resource. */
    function View(): WorldState
      reads this
    {
      WorldState(entities, players, ais, blobs, deaths, velocities, positions, gridCoords,
                 newGridCoords, sprites, colors, health, damage, actions, locks, inputEvent,
                 blobsHealth, lazyActions, lazyMoves)
    }

    predicate Valid()
      reads this
    {
      WellFormed(View())
    }

    /** `World::new` followed by the registrations and the initial
        resources: no entities, an empty input slot, no blob health. */
    constructor ()
      ensures Valid()
      ensures entities == [] && inputEvent == None && blobsHealth == []
    {
      entities, players, ais, blobs, deaths, velocities := [], {}, {}, {}, {}, {};
      positions, gridCoords, newGridCoords, sprites, colors := map[], map[], map[], map[], map[];
      health, damage, actions, locks := map[], map[], map[], map[];
      inputEvent, blobsHealth, lazyActions, lazyMoves := None, [], map[], map[];
    }

    /** `World::maintain`: apply the deferred inserts. */
    method Maintain()
      requires Valid()
      modifies this`actions, this`newGridCoords, this`lazyActions, this`lazyMoves
      ensures Valid()
      ensures View() == MaintainStep(old(View()))
    {
      ghost var s := View();
      var landed, proposed := actions + lazyActions, newGridCoords + lazyMoves;
      actions, newGridCoords, lazyActions, lazyMoves := landed, proposed, map[], map[];
      assert View() == s.(actions := landed, newGridCoords := proposed, lazyActions := map[], lazyMoves := map[]);
      MaintainKeepsWellFormed(s);
    }
  }
}
