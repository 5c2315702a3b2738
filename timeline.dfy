/**
 * The interactive timeline: the mapping between time and horizontal pixels,
 * lane hit-testing, the drag-to-reschedule state machine, click-to-create,
 * view-window navigation and the geometry of each rendered booking.
 *
 * Timestamps and pointer coordinates are integers. Because 100 px stand for
 * one hour, one pixel is exactly 36 000 ms. Horizontal offsets and widths on
 * the time axis and of drawn bookings (`TimeToPixels`, `SpanWidth`,
 * `DisplayLeft`, `Geometry`) are reals.
 */
module Timeline {
  import opened Types
  import opened Clock

  const HOUR_WIDTH: int := 100
  const HEADER_HEIGHT: int := 50
  const GROUP_HEIGHT: int := 70
  const TOTAL_HOURS: int := 16
  /** Sixteen hours of 100 px. */
  const TOTAL_WIDTH: int := 1600
  /** One pixel is a hundredth of an hour. */
  const MS_PER_PIXEL: int := 36_000
  /** Drag commits snap to 15 minutes, background clicks to 30. */
  const DRAG_SNAP_MS: int := 900_000
  const CLICK_SNAP_MS: int := 1_800_000
  /** Previous and next move the window by four hours. */
  const NAV_STEP_MS: int := 14_400_000
  /** The window opens at 08:00. */
  const DAY_OFFSET_MS: int := 28_800_000
  /** Items are inset this far below the top of their lane. */
  const ITEM_INSET: int := 8
  const MIN_ITEM_WIDTH: real := 40.0
  /** Items further than this outside the grid are not rendered. */
  const CULL_MARGIN: real := 50.0

  // ---------------------------------------------------------------------
  // Time axis

  /** Horizontal offset of `t` from the left edge of the visible window. */
  function TimeToPixels(viewStart: int, t: int): (p: real)
    ensures p * MS_PER_PIXEL as real == (t - viewStart) as real
    ensures p >= 0.0 <==> t >= viewStart
  {
    ((t - viewStart) as real / HOUR_MS as real) * HOUR_WIDTH as real
  }

  /** The time under grid pixel `x`, as the background click computes it. */
  function ClickTime(viewStart: int, x: int): (t: int)
    ensures (t - viewStart) % MS_PER_PIXEL == 0
    ensures t >= viewStart <==> x >= 0
  {
    viewStart + x * MS_PER_PIXEL
  }

  /** The window origin sits at pixel 0. */
  lemma TimeAxisOrigin(viewStart: int)
    ensures TimeToPixels(viewStart, viewStart) == 0.0
  {
  }

  /** The axis is linear: `h` hours later is `100 * h` pixels further right. */
  lemma TimeAxisLinear(viewStart: int, t: int, h: int)
    ensures TimeToPixels(viewStart, t + h * HOUR_MS) == TimeToPixels(viewStart, t) + (h * HOUR_WIDTH) as real
  {
    var d := t - viewStart;
    assert (d + h * HOUR_MS) as real == d as real + h as real * 3600000.0;
    assert (h * HOUR_WIDTH) as real == h as real * 100.0;
  }

  /** The pixel offset of the time under grid pixel `x` is `x` again. */
  lemma PixelsOfClickTime(viewStart: int, x: int)
    ensures TimeToPixels(viewStart, ClickTime(viewStart, x)) == x as real
  {
    assert (ClickTime(viewStart, x) - viewStart) as real == x as real * 36000.0;
  }

  /**
   * A time that falls on a whole pixel is the click time of its own pixel
   * offset, and later times are further right.
   */
  lemma ClickTimeOfPixel(viewStart: int, t: int, u: int)
    requires (t - viewStart) % MS_PER_PIXEL == 0
    ensures TimeToPixels(viewStart, t) == ((t - viewStart) / MS_PER_PIXEL) as real
    ensures ClickTime(viewStart, (t - viewStart) / MS_PER_PIXEL) == t
    ensures t <= u ==> TimeToPixels(viewStart, t) <= TimeToPixels(viewStart, u)
  {
    var x := (t - viewStart) / MS_PER_PIXEL;
    assert t == viewStart + x * MS_PER_PIXEL;
    PixelsOfClickTime(viewStart, x);
  }

  /** Moving the window origin by `d` shifts every time's pixel offset by the opposite amount. */
  lemma ShiftWindow(viewStart: int, t: int, d: int)
    ensures TimeToPixels(viewStart + d, t) == TimeToPixels(viewStart, t) - TimeToPixels(0, d)
  {
  }

  // ---------------------------------------------------------------------
  // Lanes

  /**
   * The lane under vertical offset `y` (`Math.floor(y / GROUP_HEIGHT)`),
   * or None when that index is not a lane.
   */
  function LaneAt(groups: seq<Group>, y: int): (r: Option<nat>)
    ensures r.Some? <==> 0 <= y < |groups| * GROUP_HEIGHT
    ensures r.Some? ==> r.value < |groups|
    ensures r.Some? ==> r.value * GROUP_HEIGHT <= y < (r.value + 1) * GROUP_HEIGHT
  {
    // Dafny's division rounds down for a positive divisor, as Math.floor does.
    var idx := y / GROUP_HEIGHT;
    if 0 <= idx < |groups| then Some(idx) else None
  }

  /** Every pixel row of lane `k` hit-tests to lane `k`. */
  lemma LaneOfRow(groups: seq<Group>, k: nat, d: int)
    requires k < |groups| && 0 <= d < GROUP_HEIGHT
    ensures LaneAt(groups, k * GROUP_HEIGHT + d) == Some(k)
  {
    assert (k * GROUP_HEIGHT + d) / GROUP_HEIGHT == k;
  }

  // ---------------------------------------------------------------------
  // Snapping

  /** JavaScript's integer quotient, truncated towards zero. */
  function TruncDiv(a: int, b: int): int
    requires b > 0
  {
    if a >= 0 then a / b else -((-a) / b)
  }

  /**
   * JavaScript's `a % b`: what is left of `a` after taking out the
   * truncated quotient, so the remainder takes the sign of `a`.
   */
  function JsRem(a: int, b: int): (r: int)
    requires b > 0
    ensures a == b * TruncDiv(a, b) + r
    ensures 0 <= a ==> 0 <= r < b
    ensures a < 0 ==> -b < r <= 0
  {
    if a >= 0 then a % b else -((-a) % b)
  }

  /**
   * The drag commit's snap, `s - s % 15min` with JavaScript's remainder:
   * down to the quarter hour for times at or after the epoch, up (towards
   * zero) for times before it.
   */
  function SnapQuarter(s: int): (r: int)
    ensures r % DRAG_SNAP_MS == 0
    ensures 0 <= s ==> s - DRAG_SNAP_MS < r <= s
    ensures s < 0 ==> s <= r < s + DRAG_SNAP_MS
  {
    s - JsRem(s, DRAG_SNAP_MS)
  }

  /** For times at or after the epoch the snap is the floor: no quarter hour in between is skipped. */
  lemma SnapQuarterIsFloor(s: int, q: int)
    requires 0 <= s && q % DRAG_SNAP_MS == 0 && q <= s
    ensures q <= SnapQuarter(s)
    ensures SnapQuarter(s) == (s / DRAG_SNAP_MS) * DRAG_SNAP_MS
  {
    var r := SnapQuarter(s);
    var n := (r - q) / DRAG_SNAP_MS;
    assert r - q == n * DRAG_SNAP_MS;
    assert n > -1;
    assert s == (s / DRAG_SNAP_MS) * DRAG_SNAP_MS + s % DRAG_SNAP_MS;
  }

  /** Snapping a time that is already on a quarter hour leaves it where it is. */
  lemma SnapQuarterIdempotent(s: int)
    ensures SnapQuarter(SnapQuarter(s)) == SnapQuarter(s)
  {
    var r := SnapQuarter(s);
    assert JsRem(r, DRAG_SNAP_MS) == 0 by {
      var j := JsRem(r, DRAG_SNAP_MS);
      var k := (r - j) / DRAG_SNAP_MS;
      assert r - j == k * DRAG_SNAP_MS;
      var m := r / DRAG_SNAP_MS;
      assert r == m * DRAG_SNAP_MS;
      assert j == (m - k) * DRAG_SNAP_MS;
    }
  }

  /**
   * The click-to-create snap, `Math.round(t / 30min) * 30min`; Math.round
   * rounds halves up, which is `floor(v + 1/2)`.
   */
  function RoundHalfHour(t: int): (r: int)
    ensures r % CLICK_SNAP_MS == 0
    ensures t - CLICK_SNAP_MS / 2 < r <= t + CLICK_SNAP_MS / 2
  {
    ((t + CLICK_SNAP_MS / 2) / CLICK_SNAP_MS) * CLICK_SNAP_MS
  }

  /** The rounded time is the only half hour within a quarter hour of `t`, halves going up. */
  lemma RoundHalfHourNearest(t: int, q: int)
    requires q % CLICK_SNAP_MS == 0
    requires t - CLICK_SNAP_MS / 2 < q <= t + CLICK_SNAP_MS / 2
    ensures q == RoundHalfHour(t)
  {
    var r := RoundHalfHour(t);
    var n := (r - q) / CLICK_SNAP_MS;
    assert r - q == n * CLICK_SNAP_MS;
    assert -1 < n < 1;
  }

  // ---------------------------------------------------------------------
  // Drag-to-reschedule

  /** The transient record kept between pointer-down on a booking and pointer-up. */
  datatype DragSession = DragSession(
    itemId: int,
    startX: int,
    originalStartTime: int,
    currentX: int,
    originalGroupId: int,
    currentGroupId: int)

  /** The mutation a drag commits to the booking store. */
  datatype Move = Move(itemId: int, newStartTime: int, newGroupId: int)

  /** A pointer position during a drag: client X and Y below the grid header. */
  datatype Pointer = Pointer(clientX: int, relativeY: int)

  /** The fields captured at drag start, which no pointer move may change. */
  predicate SameCapture(a: DragSession, b: DragSession) {
    && a.itemId == b.itemId
    && a.startX == b.startX
    && a.originalStartTime == b.originalStartTime
    && a.originalGroupId == b.originalGroupId
  }

  /**
   * The start a release commits: the captured start moved by the pointer's
   * horizontal travel, snapped to a quarter hour.
   */
  function CommittedStart(d: DragSession): (s: int)
    ensures s % DRAG_SNAP_MS == 0
    ensures var raw := d.originalStartTime + (d.currentX - d.startX) * MS_PER_PIXEL;
      0 <= raw ==> raw - DRAG_SNAP_MS < s <= raw
  {
    SnapQuarter(d.originalStartTime + (d.currentX - d.startX) * MS_PER_PIXEL)
  }

  /**
   * Pressing on a booking: the drag holds its id, start and lane, and the
   * pointer has not travelled, so releasing at once commits its own start
   * snapped to the quarter hour and its own lane.
   */
  function BeginDrag(item: Item, clientX: int): (d: DragSession)
    ensures d.itemId == item.id && d.originalStartTime == item.start_time
    ensures d.startX == clientX && d.currentX == clientX
    ensures d.originalGroupId == item.group && d.currentGroupId == item.group
    ensures CommittedStart(d) == SnapQuarter(item.start_time)
  {
    DragSession(item.id, clientX, item.start_time, clientX, item.group, item.group)
  }

  /**
   * A pointer move while dragging: X follows the pointer, the hovered lane
   * replaces the current one only when the pointer is over a lane, and the
   * captured fields stay as they were.
   */
  function PointerMoved(d: DragSession, groups: seq<Group>, p: Pointer): (d': DragSession)
    ensures SameCapture(d', d)
    ensures d'.currentX == p.clientX
    ensures LaneAt(groups, p.relativeY).Some? ==>
      d'.currentGroupId == groups[LaneAt(groups, p.relativeY).value].id
    ensures LaneAt(groups, p.relativeY).None? ==> d'.currentGroupId == d.currentGroupId
  {
    match LaneAt(groups, p.relativeY)
    case Some(idx) => d.(currentX := p.clientX, currentGroupId := groups[idx].id)
    case None => d.(currentX := p.clientX)
  }

  /** The session after a sequence of pointer moves. */
  function PointerMovedAll(d: DragSession, groups: seq<Group>, moves: seq<Pointer>): DragSession
    decreases |moves|
  {
    if |moves| == 0 then d
    else PointerMovedAll(PointerMoved(d, groups, moves[0]), groups, moves[1..])
  }

  /**
   * However many moves a drag sees, the captured fields never change, X is
   * the last pointer X, and the lane is the one it started with or the id of
   * some lane.
   */
  lemma {:induction false} MovesKeepCapture(d: DragSession, groups: seq<Group>, moves: seq<Pointer>)
    ensures SameCapture(PointerMovedAll(d, groups, moves), d)
    ensures |moves| > 0 ==> PointerMovedAll(d, groups, moves).currentX == moves[|moves| - 1].clientX
    ensures var g := PointerMovedAll(d, groups, moves).currentGroupId;
      g == d.currentGroupId || exists i :: 0 <= i < |groups| && groups[i].id == g
    decreases |moves|
  {
    if |moves| > 0 {
      var d1 := PointerMoved(d, groups, moves[0]);
      MovesKeepCapture(d1, groups, moves[1..]);
      if |moves| > 1 {
        assert moves[1..][|moves[1..]| - 1] == moves[|moves| - 1];
      }
      var g := PointerMovedAll(d, groups, moves).currentGroupId;
      if g != d.currentGroupId && g == d1.currentGroupId {
        var idx := LaneAt(groups, moves[0].relativeY).value;
        assert groups[idx].id == g;
      }
    }
  }

  /**
   * No drift: the committed start depends only on the captured start and
   * the final pointer X, not on the preview positions in between.
   */
  lemma NoDrift(d: DragSession, groups: seq<Group>, moves: seq<Pointer>)
    requires |moves| > 0
    ensures CommittedStart(PointerMovedAll(d, groups, moves))
         == SnapQuarter(d.originalStartTime + (moves[|moves| - 1].clientX - d.startX) * MS_PER_PIXEL)
  {
    MovesKeepCapture(d, groups, moves);
  }

  /**
   * A booking on a quarter hour dragged by a whole number of quarter hours
   * (25 px each) lands exactly that much later, with nothing lost to the snap.
   */
  lemma DragByQuarters(d: DragSession, n: int)
    requires d.originalStartTime % DRAG_SNAP_MS == 0
    requires d.currentX - d.startX == 25 * n
    ensures CommittedStart(d) == d.originalStartTime + n * DRAG_SNAP_MS
  {
    var raw := d.originalStartTime + (d.currentX - d.startX) * MS_PER_PIXEL;
    assert raw == d.originalStartTime + n * DRAG_SNAP_MS;
    var k := d.originalStartTime / DRAG_SNAP_MS;
    assert raw == (k + n) * DRAG_SNAP_MS;
    assert JsRem(raw, DRAG_SNAP_MS) == 0 by {
      if raw < 0 {
        assert -raw == (-(k + n)) * DRAG_SNAP_MS;
      }
    }
  }

  // ---------------------------------------------------------------------
  // Click-to-create

  /** What a background click hands to the creation dialog: a lane id and a time. */
  datatype Click = Click(groupId: int, time: int)

  // ---------------------------------------------------------------------
  // Navigation

  /** "Today": eight o'clock on the day of `now`. */
  function TodayStart(now: int): (v: int)
    ensures v % DAY_MS == DAY_OFFSET_MS
    ensures v - DAY_OFFSET_MS <= now < v - DAY_OFFSET_MS + DAY_MS
  {
    StartOfDay(now) + DAY_OFFSET_MS
  }

  // ---------------------------------------------------------------------
  // Rendering a booking

  /** The occupancy badge of a booking with a capacity. */
  datatype Badge = Badge(count: nat, capacity: int, full: bool)

  /** Where a booking is drawn: left edge, top edge, width, and its badge if any. */
  datatype Geometry = Geometry(left: real, top: int, width: real, badge: Option<Badge>)

  /** `item.miniEvents?.length || 0` */
  function SubBookingCount(item: Item): nat {
    match item.miniEvents
    case Some(m) => |m|
    case None => 0
  }

  /** `item.maxMiniEvents || 0` */
  function Capacity(item: Item): int {
    match item.maxMiniEvents
    case Some(c) => c
    case None => 0
  }

  /** A booking with a positive capacity that holds at least that many sub-bookings. */
  predicate IsFull(item: Item)
    ensures IsFull(item) ==> 0 < Capacity(item) <= SubBookingCount(item)
    ensures Capacity(item) <= 0 ==> !IsFull(item)
  {
    Capacity(item) > 0 && SubBookingCount(item) >= Capacity(item)
  }

  /** The badge `count/capacity`, shown only for a positive capacity, marked when full. */
  function BadgeOf(item: Item): (b: Option<Badge>)
    ensures b.Some? <==> Capacity(item) > 0
    ensures b.Some? ==> b.value.count == SubBookingCount(item) && b.value.capacity == Capacity(item)
    ensures b.Some? ==> (b.value.full <==> b.value.count >= b.value.capacity)
    ensures b.None? ==> !IsFull(item)
  {
    if Capacity(item) > 0 then Some(Badge(SubBookingCount(item), Capacity(item), IsFull(item)))
    else None
  }

  /** A capacity of zero (or none) never makes a booking full and shows no badge. */
  lemma NoCapacityNeverFull(item: Item)
    requires Capacity(item) <= 0
    ensures !IsFull(item) && BadgeOf(item).None?
  {
  }

  /** Adding sub-bookings to a full booking keeps it full. */
  lemma FullStaysFull(item: Item, extra: seq<SubBooking>)
    requires IsFull(item)
    ensures IsFull(item.(miniEvents := Some(
      (if item.miniEvents.Some? then item.miniEvents.value else []) + extra)))
  {
  }

  /** Whether `item` is the booking being dragged (by id, as the source compares). */
  predicate IsDragging(item: Item, drag: Option<DragSession>) {
    drag.Some? && drag.value.itemId == item.id
  }

  /** Width in pixels of the booking's time span. */
  function SpanWidth(item: Item): real {
    ((item.end_time - item.start_time) as real / HOUR_MS as real) * HOUR_WIDTH as real
  }

  /** The id of the lane a booking is drawn in: the hovered lane while it is dragged over a known lane. */
  function DisplayGroup(groups: seq<Group>, item: Item, drag: Option<DragSession>): int {
    if IsDragging(item, drag) && GroupIndex(groups, drag.value.currentGroupId) >= 0
    then drag.value.currentGroupId
    else item.group
  }

  /** The left edge: the start's pixel offset, shifted by the pointer's travel while dragged. */
  function DisplayLeft(viewStart: int, item: Item, drag: Option<DragSession>): real {
    TimeToPixels(viewStart, item.start_time)
      + if IsDragging(item, drag) then (drag.value.currentX - drag.value.startX) as real else 0.0
  }

  predicate OnScreen(left: real, width: real) {
    !(left + width < -CULL_MARGIN || left > TOTAL_WIDTH as real + CULL_MARGIN)
  }

  /**
   * The geometry of one booking, or None when its lane is unknown or it
   * lies entirely off screen. The top edge lies inside the lane it is shown
   * in, so hit-testing the drawn box finds that same lane.
   */
  function ItemGeometry(groups: seq<Group>, viewStart: int, drag: Option<DragSession>, item: Item): (g: Option<Geometry>)
    ensures GroupIndex(groups, item.group) < 0 ==> g.None?
    ensures GroupIndex(groups, item.group) >= 0 ==>
      (g.Some? <==> OnScreen(DisplayLeft(viewStart, item, drag), SpanWidth(item)))
    ensures g.Some? ==> g.value.left == DisplayLeft(viewStart, item, drag)
    ensures g.Some? ==> (LaneAt(groups, g.value.top).Some?
      && groups[LaneAt(groups, g.value.top).value].id == DisplayGroup(groups, item, drag))
    ensures g.Some? ==> g.value.top == GroupIndex(groups, DisplayGroup(groups, item, drag)) * GROUP_HEIGHT + ITEM_INSET
    ensures g.Some? ==> g.value.top % GROUP_HEIGHT == ITEM_INSET
    ensures g.Some? ==> g.value.width == if SpanWidth(item) > MIN_ITEM_WIDTH then SpanWidth(item) else MIN_ITEM_WIDTH
    ensures g.Some? ==> g.value.width >= MIN_ITEM_WIDTH && g.value.width >= SpanWidth(item)
    ensures g.Some? ==> g.value.badge == BadgeOf(item)
  {
    var own := GroupIndex(groups, item.group);
    if own == -1 then None
    else
      var target := if IsDragging(item, drag) then GroupIndex(groups, drag.value.currentGroupId) else -1;
      var lane := if target != -1 then target else own;
      var top := lane * GROUP_HEIGHT + ITEM_INSET;
      LaneOfRow(groups, lane, ITEM_INSET);
      var left := DisplayLeft(viewStart, item, drag);
      var width := SpanWidth(item);
      if !OnScreen(left, width) then None
      else Some(Geometry(left, top, if width > MIN_ITEM_WIDTH then width else MIN_ITEM_WIDTH, BadgeOf(item)))
  }

  // ---------------------------------------------------------------------
  // The component's state

  /**
   * The timeline's own state: the left edge of the visible window and the
   * drag in progress, if any. Lanes and bookings are passed in by the owner.
   */
  class TimelineView {
    var viewStart: int
    var drag: Option<DragSession>

    constructor (now: int)
      ensures viewStart == TodayStart(now) && drag == None
    {
      viewStart := TodayStart(now);
      drag := None;
    }

    /** Whether the global pointer-move and pointer-up listeners are attached. */
    predicate ListenersAttached()
      reads this
    {
      drag.Some?
    }

    method Today(now: int)
      modifies this
      ensures viewStart == TodayStart(now) && drag == old(drag)
    {
      viewStart := TodayStart(now);
    }

    method Prev()
      modifies this
      ensures viewStart == old(viewStart) - NAV_STEP_MS && drag == old(drag)
    {
      viewStart := viewStart - NAV_STEP_MS;
    }

    method Next()
      modifies this
      ensures viewStart == old(viewStart) + NAV_STEP_MS && drag == old(drag)
    {
      viewStart := viewStart + NAV_STEP_MS;
    }

    /** The hour markers along the header: sixteen hours from the window's left edge. */
    method Hours() returns (h: seq<int>)
      ensures |h| == TOTAL_HOURS
      ensures forall i :: 0 <= i < |h| ==> h[i] == viewStart + i * HOUR_MS
    {
      h := [];
      var i := 0;
      while i < TOTAL_HOURS
        invariant 0 <= i <= TOTAL_HOURS
        invariant |h| == i
        invariant forall k :: 0 <= k < i ==> h[k] == viewStart + k * HOUR_MS
      {
        h := h + [viewStart + i * HOUR_MS];
        i := i + 1;
      }
    }

    /** Pointer-down on a booking starts a drag session (replacing any other). */
    method DragStart(item: Item, clientX: int)
      modifies this
      ensures drag == Some(BeginDrag(item, clientX)) && viewStart == old(viewStart)
      ensures ListenersAttached()
    {
      drag := Some(BeginDrag(item, clientX));
    }

    /**
     * Global pointer move; `rectTop` is the component's top edge on screen.
     * Without a drag nothing changes.
     */
    method MouseMove(groups: seq<Group>, clientX: int, clientY: int, rectTop: int)
      modifies this
      ensures old(drag).None? ==> drag == None
      ensures old(drag).Some? ==>
        drag == Some(PointerMoved(old(drag).value, groups, Pointer(clientX, clientY - rectTop - HEADER_HEIGHT)))
      ensures viewStart == old(viewStart)
    {
      if drag.Some? {
        var relativeY := clientY - rectTop - HEADER_HEIGHT;
        drag := Some(PointerMoved(drag.value, groups, Pointer(clientX, relativeY)));
      }
    }

    /**
     * Global pointer-up. A drag whose item id is truthy (not 0) commits its
     * move and ends; otherwise nothing is committed and the state stays.
     */
    method MouseUp() returns (m: Option<Move>)
      modifies this
      ensures old(drag).Some? && old(drag).value.itemId != 0 ==>
        m == Some(Move(old(drag).value.itemId, CommittedStart(old(drag).value), old(drag).value.currentGroupId))
        && drag == None && !ListenersAttached()
      ensures !(old(drag).Some? && old(drag).value.itemId != 0) ==> m == None && drag == old(drag)
      ensures viewStart == old(viewStart)
    {
      if drag.Some? && drag.value.itemId != 0 {
        var d := drag.value;
        m := Some(Move(d.itemId, CommittedStart(d), d.currentGroupId));
        drag := None;
      } else {
        m := None;
      }
    }

    /**
     * Pointer-down on the grid background at client (`clientX`, `clientY`),
     * the grid's own top-left corner being at (`rectLeft`, `rectTop`).
     * Nothing while a drag is active or off the lanes; otherwise the lane's
     * id and the clicked time rounded to the nearest half hour.
     */
    method GridClick(groups: seq<Group>, clientX: int, clientY: int, rectLeft: int, rectTop: int)
      returns (c: Option<Click>)
      ensures drag.Some? ==> c.None?
      ensures drag.None? ==> (c.Some? <==> LaneAt(groups, clientY - rectTop).Some?)
      ensures c.Some? ==> c.value.groupId == groups[LaneAt(groups, clientY - rectTop).value].id
      ensures c.Some? ==> c.value.time % CLICK_SNAP_MS == 0
      ensures c.Some? ==> var t := ClickTime(viewStart, clientX - rectLeft);
        t - CLICK_SNAP_MS / 2 < c.value.time <= t + CLICK_SNAP_MS / 2
    {
      if drag.Some? {
        return None;
      }
      var x := clientX - rectLeft;
      var y := clientY - rectTop;
      var lane := LaneAt(groups, y);
      if lane.None? {
        return None;
      }
      var clickTime := ClickTime(viewStart, x);
      c := Some(Click(groups[lane.value].id, RoundHalfHour(clickTime)));
    }
  }
}
