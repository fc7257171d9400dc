# Blob game ECS tick, modelled in Dafny

This project models the per-frame logic of a small grid game built on the
`specs` entity/component system and the `piston` window library. The
entities are the game's players, its AI entities and its blobs. Every frame:

1. the window event is stored in the `InputEvent` resource;
2. the dispatcher runs the systems once each, in registration order:
   input, AI, sprite movement, position update, blob interaction, health,
   cleanup and game info;
3. `World::maintain` applies the component inserts that `LazyUpdate`
   deferred.

The modules are these:

- **`Components`** holds the component types of `src/main.rs` and their
  small operations:
  - saturating `Health::reduce`;
  - `GridCoords::is_next_to`;
  - `ActionLock`;
  - the grid size the window allows;
  - `PlayerSprite::update_frame`.
- **`Input`** holds `ActionFired`, an abstract window event, and the cell an
  arrow key asks for (`add_location_update`).
- **`Ecs`** is the world.
  - `WorldState` is a value snapshot of every storage and resource.
  - `World` is the class whose fields the systems update in place.
  - `MaintainStep` and `World.Maintain` model `World::maintain`.
- **One module per system**: `InputSys`, `AISys`, `SpriteMovementSys`,
  `UpdatePos`, `BlobInteractionSys`, `HealthSys`, `CleanupSys` and
  `GameInfoSys`. Each one has three parts:
  - a pure `Step` on `WorldState`, with lemmas that state what the system
    does;
  - a `Run(w: World)` method whose loops follow the Rust `run`;
  - a proof that `Run` leaves `w.View() == Step(old(w.View()), …)`.
- **`Dispatcher`** has two parts:
  - `Tick`, which models one iteration of the game loop;
  - `TickStep`, its specification, with lemmas about whole ticks. These
    lemmas cover well-formedness, grid bounds, health and death, input
    clearing, and when a proposed move lands. Player moves land one tick
    late because `LazyUpdate` defers them; AI moves land in the same tick.

A few design choices run through the model:

- **Storages.** Every component storage is a map from entity to component,
  or a set for marker components.
- **Join order.** `entities` lists the live entities in the order every
  join visits them.
- **Well-formedness.** `WellFormed` says that no storage holds a dead
  entity and that no entity is listed twice.
- **Parameters.** Time, the window size and the random draws are
  parameters, described under "Left out" below.

Where the behaviour described for the game differs from the code, the model
follows the code:

- **AI lock check.** The AI join excludes an entity with any lock,
  expired or not (`!&action_loc`). An expired lock therefore stops the
  entity until cleanup removes the lock.
- **AI may stay.** An AI proposal may keep the entity on its own cell,
  because "stay" is always a candidate.
- **Proposals can outlive a tick.** A proposal survives the tick when its
  entity lacks a cell or a position.
- **Damage can outlive a tick.** Damage survives the tick when its entity
  has no `Health`.
- **Only player actions expire.** Cleanup removes expired `ActionFired`
  components only from players, because its join includes
  `PlayerMarker`.
- **Row pixel.** The pixel row of a moved entity goes through
  `find_position_for_gridx`, as `src/update_position_sys.rs:48` does. The
  tiles are square, so the pixel is the same (`UpdatePos.PixelOfMatchesGrid`).

## Model

| member | source | states |
|---|---|---|
| Components.Elapsed | src/main.rs:78-80 | elapsed time since creation is `now - created`, and 0 when the clock reads earlier |
| Components.Reduce | src/main.rs:112-121 | health never increases; it drops by exactly the amount, or becomes 0 when the amount exceeds it |
| Components.IsNextTo | src/main.rs:132-142 | the signed-integer range test holds exactly when both coordinates differ by at most 1 |
| Components.IsNextToReflexive | src/main.rs:132-142 | every cell is next to itself |
| Components.IsNextToSymmetric | src/main.rs:132-142 | adjacency is symmetric |
| Components.IsNextToExamples | src/main.rs:132-142 | (3,3) is next to (2,2), (3,2) and (4,4), but not to (5,5) |
| Components.LockIsExpired | src/main.rs:78-80 | a lock is expired exactly when the clock is strictly past its creation time plus its duration |
| Components.NewActionLock | src/main.rs:70-80 | a new lock is live when created and expires exactly once the clock passes creation + duration |
| Components.DefaultActionLock | src/main.rs:64-68 | the default lock has zero duration and expires as soon as any time passes |
| Components.LockExpiryIsMonotone | src/main.rs:78-80 | once expired, a lock stays expired as time advances |
| Components.CastU64 | src/main.rs:248-254 | the `f64 as u64` cast truncates, gives 0 below 1, and saturates at the largest u64 |
| Components.GridColumns | src/main.rs:248-250 | columns = floor(width / 50): 0 for a window narrower than a tile, otherwise the counted tiles fit across and one more does not; never above the largest u64 |
| Components.GridRows | src/main.rs:252-254 | rows = floor((height − 50) / 50): 0 for a window less than two tiles high, otherwise the counted tiles plus the one set aside fit and one more does not; never above the largest u64 |
| Components.GridOkIffWindowLargeEnough | src/main.rs:248-254 | `grid_columns() - 1` and `grid_rows() - 1` are defined exactly when the window is at least 50 wide and 100 high |
| Components.FindPositionForGridX | src/main.rs:233-235 | the pixel x of a column lies at or right of the tile centre, and the column is read back from it by (x − 0.5) / 50 |
| Components.FindPositionForGridY | src/main.rs:236-238 | the pixel y of a row lies at or below the tile centre, and the row is read back from it by (y − 0.5) / 50 |
| Components.UpdateFrame | src/main.rs:201-205 | the sprite shows the new frame and keeps its identity |
| Input.ActionIsExpired | src/input_sys.rs:34-36 | an action is expired exactly when the clock is strictly past its creation time plus its duration |
| Input.IsHandled | src/input_sys.rs:38-40 | an action counts as handled exactly when its flag is set; only `MarkAsHandled` sets it and a new action starts unset |
| Input.NewActionFired | src/input_sys.rs:27-33 | a new action is unhandled, has the given duration, and expires exactly after creation + duration |
| Input.DefaultActionFired | src/input_sys.rs:16-24 | the default action is unhandled, has zero duration, and expires as soon as time passes |
| Input.MarkAsHandled | src/input_sys.rs:42-44 | after marking, the action is handled and keeps its lifetime and expiry |
| Input.MarkAsHandledIdempotent | src/input_sys.rs:42-44 | marking twice is the same as marking once |
| Input.ButtonOf | src/input_sys.rs:56-67 | a button and its state are extracted exactly when the slot holds a button event |
| Input.PressedKey | src/input_sys.rs:56-83 | a key is reported exactly for a keyboard button event in the pressed state, and it is that event's key |
| Input.KeyMove | src/input_sys.rs:102-136 | an arrow key asks for a move of one cell in its direction; the move is refused exactly at the grid edge it points out of, and other keys ask for nothing; a move from a cell on the grid stays on the grid |
| Input.AddLocationUpdate | src/input_sys.rs:99-137 | the list grows by at most one entry, the entity's move, exactly when the key asks for one; the prefix is kept |
| Ecs.MaintainStep | src/main.rs:413 | maintain changes only the actions and the proposals, and empties both deferred queues |
| Ecs.DeferredInsertsLand | src/main.rs:413 | a deferred insert overwrites the stored component; every other stored component is kept |
| Ecs.MaintainKeepsWellFormed | src/main.rs:413 | applying the deferred inserts keeps every storage within the live entities |
| Ecs.MaintainKeepsInBounds | src/main.rs:413 | applying the deferred moves keeps every held or proposed cell on the grid |
| Ecs.World.constructor | src/main.rs:289-303 | a new world has no entities, an empty input slot and no blob health, and is well formed |
| Ecs.World.Maintain | src/main.rs:413 | the world afterwards is `MaintainStep` of the world before, and stays well formed |
| InputSys.Step | src/input_sys.rs:53-95 | without a key press nothing changes; otherwise only the two deferred queues change |
| InputSys.FiredAt | src/input_sys.rs:72-80 | an entity gets a fresh 100 ms action exactly when it is in the join and the key is D; other entries are kept |
| InputSys.QueuedAt | src/input_sys.rs:72-94 | an entity gets a deferred move exactly when it is in the join and its key asks for a move, and the move is the one asked for; other entries are kept |
| InputSys.KeyDFiresAction | src/input_sys.rs:76-80 | with key D, every joined player gets a new unhandled 100 ms action created now, and no move is queued |
| InputSys.ArrowQueuesMove | src/input_sys.rs:72-94 | with an arrow key, every joined player whose move stays on the grid has it queued; a player at the edge keeps its deferred move, present or absent, with its value; no action fires |
| InputSys.OthersUntouched | src/input_sys.rs:72 | an entity outside the join keeps its deferred action and move, present or absent |
| InputSys.StepKeepsWellFormed | src/input_sys.rs:53-95 | the run keeps every storage within the live entities |
| InputSys.FiredStaysLive | src/input_sys.rs:79 | actions are only fired for live entities |
| InputSys.QueuedStaysLive | src/input_sys.rs:91-94 | moves are only queued for live entities |
| InputSys.StepKeepsInBounds | src/input_sys.rs:99-137 | a run started with every cell on the grid leaves every held and deferred cell on the grid |
| InputSys.Run | src/input_sys.rs:53-95 | the world afterwards is `Step` of the world before, and stays well formed |
| InputSys.JoinLoop | src/input_sys.rs:72-88 | the loop builds exactly the update list and the fired actions of the join, in join order |
| InputSys.InsertAll | src/input_sys.rs:91-94 | queueing the updates in order gives the deferred moves `Enqueue` describes |
| AISys.Candidates | src/ai_sys.rs:23-30 | "stay" comes first; +1 is a candidate exactly below the maximum and −1 exactly above 0; every candidate is within 1 and stays on the grid |
| AISys.Pick | src/ai_sys.rs:31-34 | the shuffle's first element is one of the candidates |
| AISys.AnyCandidateCanBePicked | src/ai_sys.rs:31-34 | every candidate is picked by some draw |
| AISys.Proposal | src/ai_sys.rs:22-52 | the proposal changes at most one axis by at most 1, keeps the other axis, and stays on the grid |
| AISys.Step | src/ai_sys.rs:17-59 | only the proposals and the locks change |
| AISys.MoversProposeAndLock | src/ai_sys.rs:21-58 | each unlocked AI entity with a cell gets its proposal and a new 500 ms lock, even when it stays on its cell |
| AISys.OthersUntouched | src/ai_sys.rs:21 | every other entity, including every locked one, keeps its proposal and its lock |
| AISys.StepKeepsWellFormed | src/ai_sys.rs:17-59 | the run keeps every storage within the live entities |
| AISys.StepKeepsInBounds | src/ai_sys.rs:18-52 | a run started with every cell on the grid leaves every cell on the grid |
| AISys.SecondRunDoesNothing | src/ai_sys.rs:21-58 | a second run right after the first changes nothing, whatever it draws, because every mover is now locked |
| AISys.Run | src/ai_sys.rs:17-59 | the world afterwards is `Step` of the world before, and stays well formed |
| AISys.ProposeMoves | src/ai_sys.rs:20-54 | the join loop inserts exactly the movers' proposals and collects exactly the movers |
| AISys.ProposeOne | src/ai_sys.rs:22-52 | pushing the candidates and taking the shuffled first one gives the `Proposal` |
| AISys.LockMoved | src/ai_sys.rs:56-58 | locking the collected movers gives the locks `LocksAfter` describes |
| SpriteMovementSys.Facing | src/sprite_movement_sys.rs:17-35 | a vertical change shows the vertical frame; otherwise right when x grows and left when it shrinks; no change keeps the sprite |
| SpriteMovementSys.FacingIsIdempotent | src/sprite_movement_sys.rs:17-35 | turning twice towards the same move is the same as turning once |
| SpriteMovementSys.KeyMoveFacing | src/sprite_movement_sys.rs:17-35 | a Right move shows the right frame, a Left move the left frame, and Up or Down the vertical frame |
| SpriteMovementSys.Step | src/sprite_movement_sys.rs:13-39 | only the sprites change |
| SpriteMovementSys.SpritesFaceProposals | src/sprite_movement_sys.rs:13-39 | each sprite with a proposal and a cell faces the proposal; every other sprite is unchanged; none appears or disappears |
| SpriteMovementSys.StepKeepsWellFormed | src/sprite_movement_sys.rs:13-39 | the run keeps every storage within the live entities |
| SpriteMovementSys.Run | src/sprite_movement_sys.rs:13-39 | the world afterwards is `Step` of the world before, and stays well formed |
| SpriteMovementSys.TurnSprites | src/sprite_movement_sys.rs:16-36 | the join loop turns exactly the joined sprites, as `SpritesAfter` describes |
| UpdatePos.Step | src/update_position_sys.rs:15-58 | only cells, positions and proposals change |
| UpdatePos.MovesApplied | src/update_position_sys.rs:23-56 | an entity with a proposal, a cell and a position takes the proposed cell and its pixel position and loses the proposal; all other entities keep theirs; no cell or position appears or disappears |
| UpdatePos.StepKeepsWellFormed | src/update_position_sys.rs:15-58 | the run keeps every storage within the live entities |
| UpdatePos.ProposalsConsumed | src/update_position_sys.rs:54-56 | after a run, no entity with a cell and a position still holds a proposal |
| UpdatePos.StepIsIdempotent | src/update_position_sys.rs:15-58 | a second run right after the first changes nothing |
| UpdatePos.StepKeepsInBounds | src/update_position_sys.rs:49-50 | cells stay on the grid when the proposals were on it |
| UpdatePos.PixelOfMatchesGrid | src/update_position_sys.rs:47-48 | placing the row with the column transform gives the row transform's pixel |
| UpdatePos.Run | src/update_position_sys.rs:15-58 | the world afterwards is `Step` of the world before, and stays well formed |
| UpdatePos.MoveAll | src/update_position_sys.rs:23-52 | the join loop gives the cells and positions `Step` describes, and collects exactly the moved entities |
| UpdatePos.RemoveProposals | src/update_position_sys.rs:54-56 | removing the collected entities leaves exactly the proposals of the entities that did not move |
| BlobInteractionSys.Colour | src/blob_interaction.rs:25-34 | red exactly when the blob is near and an action is pending, blue when near and none is pending, green when not near |
| BlobInteractionSys.Touch | src/blob_interaction.rs:24-35 | the inner loop recolours blobs but never adds or removes a colour entry |
| BlobInteractionSys.TouchVisitedAt | src/blob_interaction.rs:24-35 | after the visited blobs, each joined blob has the colour its distance to the player gives, and it is damaged 5 exactly when near and an action is pending; other entries are kept |
| BlobInteractionSys.TouchVisitedIsTouch | src/blob_interaction.rs:24-35 | visiting every live entity in join order gives the inner loop's result |
| BlobInteractionSys.LastPlayerDecidesColour | src/blob_interaction.rs:23-36 | a blob's colour is set by the last player in join order, because each player overwrites it |
| BlobInteractionSys.DamageFansOut | src/blob_interaction.rs:23-36 | a blob is damaged 5 exactly when an action is pending and some player is next to it; its damage is otherwise kept |
| BlobInteractionSys.Step | src/blob_interaction.rs:19-45 | only colours, damage and actions change |
| BlobInteractionSys.ColourAfterRun | src/blob_interaction.rs:19-45 | each joined blob ends with the colour the last player's distance and the pending actions give; without players it keeps its colour |
| BlobInteractionSys.DamageAfterRun | src/blob_interaction.rs:23-36 | a joined blob next to any player while an action is pending is damaged 5; every other damage entry is kept |
| BlobInteractionSys.OtherColoursUntouched | src/blob_interaction.rs:24 | an entity outside the blob join keeps its colour |
| BlobInteractionSys.ActionsHandledAfterRun | src/blob_interaction.rs:38-42 | every player's action is handled afterwards, keeps its lifetime, and is not removed; non-players' actions are unchanged |
| BlobInteractionSys.SecondRunDamagesNobody | src/blob_interaction.rs:21-42 | once the actions are handled nothing is pending, so a second run leaves the damage storage exactly as the first left it |
| BlobInteractionSys.PendingPlayerHitsBlob | src/blob_interaction.rs:21-40 | a joined blob next to a player whose action is unhandled takes damage 5, whatever the other players do, and the player's action is handled afterwards |
| BlobInteractionSys.StepKeepsWellFormed | src/blob_interaction.rs:19-45 | the run keeps every storage within the live entities |
| BlobInteractionSys.Run | src/blob_interaction.rs:19-45 | the world afterwards is `Step` of the world before, and stays well formed |
| BlobInteractionSys.CollectPending | src/blob_interaction.rs:21 | the collected list holds exactly the players with an unhandled action |
| BlobInteractionSys.PlayerLoop | src/blob_interaction.rs:23-36 | the outer loop gives the colours and damage `TouchAll` describes |
| BlobInteractionSys.TouchBlobs | src/blob_interaction.rs:24-35 | the inner loop gives the colours and damage `Touch` describes |
| BlobInteractionSys.TouchBlob | src/blob_interaction.rs:25-34 | one blob gets the colour its distance gives, and damage 5 exactly when near and an action is pending |
| BlobInteractionSys.MarkPending | src/blob_interaction.rs:38-42 | marking the collected players gives the actions `ActionsAfter` describes |
| HealthSys.Step | src/health_sys.rs:9-26 | only health, deaths and damage change |
| HealthSys.HealthAfterRun | src/health_sys.rs:13-15 | a damaged entity's health becomes `Reduce(health, damage)`: it drops by exactly the damage, or becomes 0 when the damage exceeds it; without damage it is unchanged; no health entry appears or disappears |
| HealthSys.DeathAfterRun | src/health_sys.rs:16-18 | deaths only grow; the new deaths are exactly the damaged entities whose health reached 0 |
| HealthSys.DamageConsumed | src/health_sys.rs:20-25 | damage is removed exactly from entities with health; the rest is kept |
| HealthSys.StepKeepsWellFormed | src/health_sys.rs:9-26 | the run keeps every storage within the live entities |
| HealthSys.DeathIsSticky | src/health_sys.rs:16-18 | a death survives any number of later runs, whatever damage they apply |
| HealthSys.StepIsIdempotent | src/health_sys.rs:9-26 | a second run right after the first changes nothing |
| HealthSys.Run | src/health_sys.rs:9-26 | the world afterwards is `Step` of the world before, and stays well formed |
| HealthSys.ApplyDamage | src/health_sys.rs:13-21 | the join loop gives the health and deaths `Step` describes, and collects exactly the damaged entities with health |
| HealthSys.RemoveDamage | src/health_sys.rs:23-25 | removing the collected entities leaves exactly the damage `Step` describes |
| CleanupSys.Step | src/cleanup_sys.rs:17-39 | the input slot is cleared, and only actions and locks change otherwise |
| CleanupSys.ExpiredRemoved | src/cleanup_sys.rs:20-36 | a player's action is removed exactly when expired, handled or not; a lock is removed exactly when expired; what is left is unchanged |
| CleanupSys.StepKeepsWellFormed | src/cleanup_sys.rs:17-39 | the run keeps every storage within the live entities |
| CleanupSys.StepIsIdempotent | src/cleanup_sys.rs:17-39 | a second run at the same time changes nothing |
| CleanupSys.HandledActionExpires | src/cleanup_sys.rs:20-27 | a handled key-D action is still there 100 ms after it fired and gone 150 ms after |
| CleanupSys.Run | src/cleanup_sys.rs:17-39 | the world afterwards is `Step` of the world before, and stays well formed |
| CleanupSys.ExpiredActions | src/cleanup_sys.rs:20-23 | the collected list holds exactly the players' expired actions |
| CleanupSys.RemoveActions | src/cleanup_sys.rs:25-27 | removing them leaves the actions `Step` describes |
| CleanupSys.ExpiredLocks | src/cleanup_sys.rs:29-33 | the collected list holds exactly the expired locks |
| CleanupSys.RemoveLocks | src/cleanup_sys.rs:34-36 | removing them leaves the locks `Step` describes |
| GameInfoSys.BlobJoin | src/game_info.rs:19 | the join visits exactly the entities with a blob marker and health, each once |
| GameInfoSys.BlobHealths | src/game_info.rs:18-21 | the list holds the health of each joined blob, in join order |
| GameInfoSys.Step | src/game_info.rs:17-24 | only the blob-health list changes |
| GameInfoSys.ListIsRebuilt | src/game_info.rs:17-24 | the list is rebuilt from scratch: one entry per joined blob, in join order |
| GameInfoSys.OneEntryPerBlob | src/game_info.rs:17-24 | the list has one entry per blob with health, and every entry is such a blob's health |
| GameInfoSys.NoBlobsNoEntries | src/game_info.rs:17-24 | without blobs the list is empty, whatever it held before |
| GameInfoSys.Run | src/game_info.rs:17-24 | the world afterwards is `Step` of the world before, and stays well formed |
| GameInfoSys.CollectHealths | src/game_info.rs:18-21 | the loop pushes exactly `BlobHealths` |
| Dispatcher.Tick | src/main.rs:409-413 | storing the event, running the systems in registration order and maintaining gives `TickStep`, and the world stays well formed |
| Dispatcher.TickKeepsWellFormed | src/main.rs:375-413 | a tick keeps every storage within the live entities |
| Dispatcher.TickKeepsInBounds | src/main.rs:375-413 | a tick started with every cell on the grid leaves every held, proposed and deferred cell on the grid |
| Dispatcher.TickHealthAndDeath | src/main.rs:375-413 | over a tick health never rises, no health entry appears or disappears, and deaths are never cleared |
| Dispatcher.TickClearsInput | src/main.rs:375-413 | after a tick the input slot is empty and nothing is left deferred |
| Dispatcher.TickKeepsEntities | src/main.rs:375-413 | a tick creates and deletes no entity, no player, AI or blob marker, and no cell or position |
| Dispatcher.PendingMoveLands | src/main.rs:375-413 | a proposal held at the start of a tick, for an entity that is not an AI mover, is applied in that tick |
| Dispatcher.PlayerMoveDeferred | src/main.rs:375-413 | a player's arrow move is not applied in the tick of the key press; it is left as the proposal |
| Dispatcher.PlayerMoveResolvesNextTick | src/main.rs:375-413 | the player reaches the cell the arrow asked for at the end of the next tick |
| Dispatcher.AIMoveResolvesSameTick | src/main.rs:375-413 | an AI mover reaches its proposal, and gets its 500 ms lock, within the same tick |
| Dispatcher.LockedAIStays | src/main.rs:375-413 | a locked AI entity without a proposal keeps its cell, and its lock survives exactly when it has not expired |
| Dispatcher.BlobHitResolvesSameTick | src/main.rs:375-385 | a blob next to a player with an unhandled action loses 5 health, saturating at 0, within the tick; its damage is consumed, it is dead if that brought it to 0, and the player's action ends the tick handled |
| Dispatcher.ActionLandsAfterTick | src/main.rs:375-413 | a key-D press gives every joined player a new unhandled action once the tick's maintain has run |

## Left out

- **Drawing.** Rendering, textures, fonts and the sprite map are left out, and so are `SpriteFactory` and the `PlayerSprite` texture, anchor and frame rectangles. Frames are a three-value datatype.
- **Floating point.** Window sizes and pixel positions are exact reals. `f64` rounding is not modelled; the `as u64` cast is, including saturation.
- **Grid changes.** `grid_changes.rs` is not part of this model. The grid dimensions are a parameter of each tick.
- **Event decoding.** Piston's event types are reduced to a button event (button and state) or "anything else".
- **Concurrency.** The `Mutex` around the grid dimensions and the dispatcher's parallel scheduling are left out. The systems run one after another, in registration order. That order respects every declared dependency. The scheduler never runs two systems that write the same storage at once, but it does not otherwise fix the order of systems without a dependency between them, such as `AISys` and `UpdatePos`.
- **Time.** `Instant::now()` is one `now` per tick, in milliseconds. Every system reads the same clock value.
- **Randomness.** `rand::random` and `shuffle` are a map of draws: an axis coin and a pick index per AI entity. `AISys.Step` requires a draw for every AI entity.
- **Collisions.** `collisions_sys.rs` is not part of this model. It is not registered with the dispatcher.
- **Start-up.** `main()`'s entity spawning and the window setup are left out. The world constructor starts empty.
- **Integer widths.**
  - Grid coordinates are unbounded naturals. The `u64` range and the `i64` cast in `is_next_to` are not modelled; they only matter beyond 2^63 cells.
  - `Health` and `Damage` are `u8`, and their subtraction saturates as the code does.
- **Unsigned underflow.** `InputSys.Step`, `AISys.Step` and `Dispatcher.TickStep` require `GridOk`, at least one column and one row. With fewer, `grid_columns() - 1` or `grid_rows() - 1` underflows. `InputSys` requires this on every tick, although the code only evaluates the subtraction when a joined player sees a key press.
- **Deferred-insert order.** The `LazyUpdate` queue is modelled as two maps, one per deferred component. Every entity gets at most one value per component in a tick, so the order of the queue does not change the result.
- **Velocity values.** `Velocity` values are never read, so the storage is a set of entities.
- **In-place component updates.** `Health::reduce` and `PlayerSprite::update_frame` are value functions. The loops that call them write the new component back into the storage map.
