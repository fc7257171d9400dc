/** The component types of the game and the small operations defined on them
    in src/main.rs: saturating health reduction, grid adjacency, action locks,
    the grid dimensions derived from the window, and sprite frames. */
module Components {

  /** An entity is an opaque identifier; every storage is keyed by it. */
  type Entity = nat

  /** Rust's `u8`: the width of `Health` and `Damage`. */
  type u8 = x: int | 0 <= x < 256

  /** The largest `u64`, where Rust's float-to-integer cast saturates. */
  const U64Max: nat := 0xFFFF_FFFF_FFFF_FFFF

  datatype Option<T> = None | Some(value: T)

  /** A grid cell; `GridCoords` and `NewGridCoords` both have this shape. */
  datatype GridCoords = GridCoords(x: nat, y: nat)

  /** The pixel position of an entity on the window. */
  datatype Position = Position(x: real, y: real)

  /** The three frames of the player sprite sheet. */
  datatype Frame = VerticalFrame | LeftFrame | RightFrame

  /** `PlayerSprite`, reduced to its identity and its current frame (the
      texture, anchor and frame rectangles only matter for drawing). */
  datatype PlayerSprite = PlayerSprite(id: string, currentFrame: Frame)

  /** The three colours a blob is drawn in: green (idle), blue (a player is
      next to it), red (hit by a fired action). */
  datatype Colour = Red | Green | Blue

  /** `ActionLock`: a cooldown created at `created` that lasts `duration`
      (both in milliseconds of the tick clock). */
  datatype ActionLock = ActionLock(duration: nat, created: nat)

  /** Distance between two integers. */
  function Dist(u: int, v: int): nat
  {
    if u < v then v - u else u - v
  }

  /** `Instant::elapsed`: the time since `created`, never negative. */
  function Elapsed(created: nat, now: nat): (d: nat)
    ensures created <= now ==> created + d == now
    ensures now < created ==> d == 0
  {
    if created <= now then now - created else 0
  }

  // ---------------------------------------------------------------- Health

  /** `Health::reduce`: subtract `amount`, stopping at 0 instead of wrapping.
      The result is exactly `amount` lower, unless that would go below 0, in
      which case it is 0. */
  function Reduce(health: u8, amount: u8): (r: u8)
    ensures r <= health
    ensures r == 0 || health - r == amount
    ensures health - r <= amount
  {
    if amount > health then 0 else health - amount
  }

  // ----------------------------------------------------------- GridCoords

  /** `GridCoords::is_next_to`: the other cell lies in the 3x3 block around
      this one (computed on signed integers, so a 0 coordinate does not wrap).
      Equivalently, Chebyshev distance at most 1. */
  function IsNextTo(a: GridCoords, b: GridCoords): (r: bool)
    ensures r <==> Dist(a.x, b.x) <= 1 && Dist(a.y, b.y) <= 1
  {
    var c1x, c1y := a.x as int, a.y as int;
    var c2x, c2y := b.x as int, b.y as int;
    c2x - 1 <= c1x <= c2x + 1 && c2y - 1 <= c1y <= c2y + 1
  }

  lemma IsNextToReflexive(a: GridCoords)
    ensures IsNextTo(a, a)
  {
  }

  lemma IsNextToSymmetric(a: GridCoords, b: GridCoords)
    ensures IsNextTo(a, b) <==> IsNextTo(b, a)
  {
  }

  /** The cell (3,3) is next to (2,2), (3,2) and (4,4), but not to (5,5). */
  lemma IsNextToExamples()
    ensures IsNextTo(GridCoords(3, 3), GridCoords(2, 2))
    ensures IsNextTo(GridCoords(3, 3), GridCoords(3, 2))
    ensures IsNextTo(GridCoords(3, 3), GridCoords(4, 4))
    ensures !IsNextTo(GridCoords(3, 3), GridCoords(5, 5))
  {
  }

  // ----------------------------------------------------------- ActionLock

  /** `ActionLock::is_expired`: strictly more than `duration` has elapsed;
      a lock exactly `duration` old is still live. */
  function LockIsExpired(lock: ActionLock, now: nat): (r: bool)
    ensures r <==> now > lock.created + lock.duration
  {
    Elapsed(lock.created, now) > lock.duration
  }

  /** `ActionLock::new`: a lock created now. It is live at its creation
      instant and expires exactly once the clock passes now + duration. */
  function NewActionLock(duration: nat, now: nat): (lock: ActionLock)
    ensures lock.duration == duration
    ensures !LockIsExpired(lock, now)
    ensures forall t: nat :: LockIsExpired(lock, t) <==> t > now + duration
  {
    ActionLock(duration, now)
  }

  /** `ActionLock::default`: a zero-length lock, expired as soon as any time
      has passed. */
  function DefaultActionLock(now: nat): (lock: ActionLock)
    ensures lock.duration == 0
    ensures forall t: nat :: LockIsExpired(lock, t) <==> t > now
  {
    NewActionLock(0, now)
  }

  /** Once expired, a lock stays expired as the clock advances. */
  lemma LockExpiryIsMonotone(lock: ActionLock, t1: nat, t2: nat)
    requires t1 <= t2 && LockIsExpired(lock, t1)
    ensures LockIsExpired(lock, t2)
  {
  }

  // ------------------------------------------------------- GridDimensions

  /** `GridDimensions`: the window size in pixels; the tile size and tile
      centre are the constants `GridDimensions::new` sets and nothing changes. */
  datatype GridDimensions = GridDimensions(windowHeight: real, windowWidth: real)

  const TileWidth: real := 50.0
  const TileHeight: real := 50.0
  const TileCenter: real := 0.5

  /** Rust's `f64 as u64`: truncation toward zero, saturating at 0 below and
      at `U64Max` above. */
  function CastU64(q: real): (n: nat)
    ensures n <= U64Max
    ensures q < 1.0 ==> n == 0
    ensures 0.0 <= q < U64Max as real ==> n as real <= q < n as real + 1.0
    ensures q >= U64Max as real ==> n == U64Max
  {
    if q < 0.0 then 0 else if q >= U64Max as real then U64Max else q.Floor
  }

  /** `grid_columns`: how many whole tiles fit across the window. It is 0
      for a window narrower than a tile; otherwise the tiles it counts fit
      and one more does not. */
  function GridColumns(d: GridDimensions): (n: nat)
    ensures n <= U64Max
    ensures d.windowWidth < TileWidth ==> n == 0
    ensures 0.0 <= d.windowWidth < U64Max as real * TileWidth ==>
      n as real * TileWidth <= d.windowWidth < (n + 1) as real * TileWidth
  {
    var q := d.windowWidth / TileWidth;
    assert 0.0 <= d.windowWidth < U64Max as real * TileWidth ==> 0.0 <= q < U64Max as real;
    CastU64(q)
  }

  /** `grid_rows`: how many whole tiles fit down the window once one tile
      height is set aside. It is 0 for a window less than two tiles high;
      otherwise the tiles it counts, plus the one set aside, fit and one
      more does not. */
  function GridRows(d: GridDimensions): (n: nat)
    ensures n <= U64Max
    ensures d.windowHeight < 2.0 * TileHeight ==> n == 0
    ensures TileHeight <= d.windowHeight < (U64Max + 1) as real * TileHeight ==>
      (n + 1) as real * TileHeight <= d.windowHeight < (n + 2) as real * TileHeight
  {
    var p := (d.windowHeight - TileHeight) / TileHeight;
    assert TileHeight <= d.windowHeight < (U64Max + 1) as real * TileHeight ==> 0.0 <= p < U64Max as real;
    CastU64(p)
  }

  /** The systems that compute `grid_columns() - 1` and `grid_rows() - 1` on
      `u64` need both to be at least 1, or the subtraction underflows. */
  predicate GridOk(d: GridDimensions)
  {
    GridColumns(d) >= 1 && GridRows(d) >= 1
  }

  /** The grid is usable exactly when the window is at least one tile wide
      and two tiles high. */
  lemma GridOkIffWindowLargeEnough(d: GridDimensions)
    ensures GridOk(d) <==> d.windowWidth >= TileWidth && d.windowHeight >= 2.0 * TileHeight
  {
    if d.windowWidth >= TileWidth {
      assert d.windowWidth / TileWidth >= 1.0;
    }
    if d.windowHeight >= 2.0 * TileHeight {
      assert (d.windowHeight - TileHeight) / TileHeight >= 1.0;
    }
  }

  /** `find_position_for_gridx`: the pixel x of a grid column, from which
      the column can be read back. */
  function FindPositionForGridX(x: nat): (px: real)
    ensures px >= TileCenter
    ensures (px - TileCenter) / TileWidth == x as real
  {
    TileCenter + x as real * TileWidth
  }

  /** `find_position_for_gridy`: the pixel y of a grid row, from which the
      row can be read back. */
  function FindPositionForGridY(y: nat): (py: real)
    ensures py >= TileCenter
    ensures (py - TileCenter) / TileHeight == y as real
  {
    TileCenter + y as real * TileHeight
  }

  // --------------------------------------------------------- PlayerSprite

  /** `PlayerSprite::update_frame`: the sprite now shows `frame`, and is
      otherwise the same sprite. */
  function UpdateFrame(sprite: PlayerSprite, frame: Frame): (r: PlayerSprite)
    ensures r.currentFrame == frame && r.id == sprite.id
  {
    sprite.(currentFrame := frame)
  }
}
