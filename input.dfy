/** The player's side of src/input_sys.rs that does not touch the world:
    the `ActionFired` component, the abstract input event, and the
    move a key asks for. */
module Input {
  import opened Components

  /** `ActionFired`: a player action created at `created`, live for
      `duration` milliseconds, and marked once the blobs have seen it. */
  datatype ActionFired = ActionFired(duration: nat, created: nat, handled: bool)

  /** How long an action fired by key D lives, in milliseconds. */
  const ActionDuration: nat := 100

  /** `ActionFired::is_expired`: strictly more than `duration` has elapsed. */
  function ActionIsExpired(a: ActionFired, now: nat): (r: bool)
    ensures r <==> now > a.created + a.duration
  {
    Elapsed(a.created, now) > a.duration
  }

  /** `ActionFired::is_handled`. */
  predicate IsHandled(a: ActionFired)
  {
    a.handled
  }

  /** `ActionFired::new`: a fresh action starts unhandled, carries the given
      duration, and is live at its creation instant. */
  function NewActionFired(duration: nat, now: nat): (a: ActionFired)
    ensures !IsHandled(a) && a.duration == duration
    ensures !ActionIsExpired(a, now)
    ensures forall t: nat :: ActionIsExpired(a, t) <==> t > now + duration
  {
    ActionFired(duration, now, false)
  }

  /** `ActionFired::default`: zero duration, unhandled. */
  function DefaultActionFired(now: nat): (a: ActionFired)
    ensures !IsHandled(a) && a.duration == 0
    ensures forall t: nat :: ActionIsExpired(a, t) <==> t > now
  {
    ActionFired(0, now, false)
  }

  /** `ActionFired::mark_as_handled`: the action is handled afterwards and
      keeps its lifetime. */
  function MarkAsHandled(a: ActionFired): (r: ActionFired)
    ensures IsHandled(r)
    ensures r.duration == a.duration && r.created == a.created
    ensures forall t: nat :: ActionIsExpired(r, t) <==> ActionIsExpired(a, t)
  {
    a.(handled := true)
  }

  /** Marking twice is the same as marking once. */
  lemma MarkAsHandledIdempotent(a: ActionFired)
    ensures MarkAsHandled(MarkAsHandled(a)) == MarkAsHandled(a)
  {
  }

  // ------------------------------------------------------------ the event

  /** The keys the game reacts to; every other key is `OtherKey`. */
  datatype Key = Right | Left | Down | Up | D | OtherKey

  datatype Button = Keyboard(key: Key) | OtherButton

  datatype ButtonState = Press | Release

  /** The window event stored in the `InputEvent` resource: a button event,
      or anything else (resize, loop, custom). */
  datatype Event = ButtonInput(button: Button, state: ButtonState) | OtherInput

  /** The decoding at the head of `InputSys::run`: the button and its state,
      if the slot holds a button event. */
  function ButtonOf(slot: Option<Event>): (r: Option<(Button, ButtonState)>)
    ensures r.Some? <==> slot.Some? && slot.value.ButtonInput?
    ensures r.Some? ==> r.value == (slot.value.button, slot.value.state)
  {
    match slot
    case Some(ButtonInput(b, st)) => Some((b, st))
    case _ => None
  }

  /** The keyboard key pressed in this slot, if any: the only events that
      make `InputSys` act. */
  function PressedKey(slot: Option<Event>): (r: Option<Key>)
    ensures r.Some? ==> slot == Some(ButtonInput(Keyboard(r.value), Press))
    ensures slot.Some? && slot.value.ButtonInput? && slot.value.button.Keyboard? && slot.value.state == Press ==>
      r == Some(slot.value.button.key)
  {
    match ButtonOf(slot)
    case Some((Keyboard(k), Press)) => Some(k)
    case _ => None
  }

  // --------------------------------------------------------- key to move

  /** The arrow keys. */
  predicate IsArrow(k: Key)
  {
    k == Right || k == Left || k == Down || k == Up
  }

  /** The direction an arrow key points to (screen y grows downwards). */
  function Dx(k: Key): int
  {
    if k == Right then 1 else if k == Left then -1 else 0
  }

  function Dy(k: Key): int
  {
    if k == Down then 1 else if k == Up then -1 else 0
  }

  /** The cell a key asks to move to, given the largest column and row
      index (`grid_columns() - 1`, `grid_rows() - 1`). An arrow key moves
      one cell in its direction; the move is refused when it would leave the
      grid along that axis, and any other key asks for nothing. */
  function KeyMove(c: GridCoords, k: Key, columns: nat, rows: nat): (r: Option<GridCoords>)
    ensures r.Some? ==> r.value.x == c.x + Dx(k) && r.value.y == c.y + Dy(k)
    ensures r.Some? ==> Dist(c.x, r.value.x) + Dist(c.y, r.value.y) == 1
    ensures r.Some? && c.x <= columns && c.y <= rows ==> r.value.x <= columns && r.value.y <= rows
    ensures r.None? <==>
      || !IsArrow(k)
      || c.x + Dx(k) < 0 || c.y + Dy(k) < 0
      || (Dx(k) > 0 && c.x + Dx(k) > columns)
      || (Dy(k) > 0 && c.y + Dy(k) > rows)
  {
    match k
    case Right => if c.x + 1 <= columns then Some(GridCoords(c.x + 1, c.y)) else None
    case Left => if c.x > 0 then Some(GridCoords(c.x - 1, c.y)) else None
    case Down => if c.y + 1 <= rows then Some(GridCoords(c.x, c.y + 1)) else None
    case Up => if c.y > 0 then Some(GridCoords(c.x, c.y - 1)) else None
    case _ => None
  }

  /** `InputSys::add_location_update`: read the grid bounds, and push the
      entity's move onto the list of updates when the key asks for one. The
      list only ever grows by that one entry, and a cell that starts on the
      grid moves to a cell on the grid. */
  function AddLocationUpdate(updates: seq<(Entity, GridCoords)>, e: Entity, c: GridCoords,
                             k: Key, dims: GridDimensions): (r: seq<(Entity, GridCoords)>)
    requires GridOk(dims)
    ensures |updates| <= |r| <= |updates| + 1 && r[..|updates|] == updates
    ensures |r| == |updates| + 1 <==> KeyMove(c, k, GridColumns(dims) - 1, GridRows(dims) - 1).Some?
    ensures |r| == |updates| + 1 ==>
      r[|updates|] == (e, KeyMove(c, k, GridColumns(dims) - 1, GridRows(dims) - 1).value)
    ensures |r| == |updates| + 1 && c.x < GridColumns(dims) && c.y < GridRows(dims) ==>
      r[|updates|].1.x < GridColumns(dims) && r[|updates|].1.y < GridRows(dims)
  {
    var columns, rows := GridColumns(dims) - 1, GridRows(dims) - 1;
    match KeyMove(c, k, columns, rows)
    case Some(target) => updates + [(e, target)]
    case None => updates
  }
}
