/**
 * Whole interactions across the timeline, the store and the dialogs, stated
 * as clients of their contracts: dragging a booking, creating one from a
 * background click, navigating, editing, and the capacity badge.
 */
module Scenarios {
  import opened Types
  import opened Clock
  import opened Timeline
  import opened Store
  import opened Forms

  /**
   * A booking from 09:00 to 11:00 dragged 100 px (one hour) to the right
   * within its own lane is committed at 10:00 to 12:00 in that lane.
   */
  method DragOneHour(groups: seq<Group>, lane: nat, day: int, id: int, x0: int, rectTop: int)
    returns (moved: Item)
    requires lane < |groups| && id != 0
    requires day % DAY_MS == 0
    ensures moved.id == id && moved.group == groups[lane].id
    ensures moved.start_time == day + 10 * HOUR_MS && moved.end_time == day + 12 * HOUR_MS
  {
    var item := Item(id, groups[lane].id, "Appendectomy", day + 9 * HOUR_MS, day + 11 * HOUR_MS,
                     None, None, None, None, None, None);
    var app := new App([item], day);
    var view := new TimelineView(day);
    view.DragStart(item, x0);
    LaneOfRow(groups, lane, GROUP_HEIGHT / 2);
    view.MouseMove(groups, x0 + 4 * 25, rectTop + HEADER_HEIGHT + lane * GROUP_HEIGHT + GROUP_HEIGHT / 2, rectTop);
    var d := view.drag.value;
    OnQuarterHour(day, 9 * HOUR_MS);
    DragByQuarters(d, 4);
    var m := view.MouseUp();
    app.ItemMove(m.value.itemId, m.value.newStartTime, m.value.newGroupId);
    moved := app.items[0];
  }

  /** An offset of whole quarter hours from a midnight is a quarter hour. */
  lemma OnQuarterHour(day: int, offset: int)
    requires day % DAY_MS == 0 && offset % DRAG_SNAP_MS == 0
    ensures (day + offset) % DRAG_SNAP_MS == 0
  {
    var q, k := day / DAY_MS, offset / DRAG_SNAP_MS;
    assert day + offset == (q * 96 + k) * DRAG_SNAP_MS;
  }

  /**
   * A press and release on a booking whose id is 0 commits nothing and
   * leaves the drag session, and with it the global listeners, in place.
   */
  method ReleaseWithZeroId(item: Item, x: int, now: int) returns (committed: Option<Move>, stillDragging: bool)
    requires item.id == 0
    ensures committed.None? && stillDragging
  {
    var view := new TimelineView(now);
    view.DragStart(item, x);
    committed := view.MouseUp();
    stillDragging := view.ListenersAttached();
  }

  /** "Next" followed by "previous" brings the window back where it was; each is four hours. */
  method NextThenPrev(now: int) returns (before: int, afterNext: int, after: int)
    ensures before == TodayStart(now)
    ensures afterNext == before + 4 * HOUR_MS
    ensures after == before
  {
    var view := new TimelineView(now);
    before := view.viewStart;
    view.Next();
    afterNext := view.viewStart;
    view.Prev();
    after := view.viewStart;
  }

  /**
   * A click on the background at (`clientX`, `clientY`) of a fresh timeline,
   * followed by submitting the creation dialog it opens, appends a booking
   * that starts at the clicked time rounded to the half hour, in the clicked
   * lane (unless that lane's id is 0, which the dialog ignores), two hours
   * long on the 24-hour clock, with no sub-bookings. Off the lanes nothing is
   * created.
   */
  method ClickThenCreate(groups: seq<Group>, now: int, clientX: int, clientY: int, id: int)
    returns (created: Option<Item>)
    ensures created.Some? <==> LaneAt(groups, clientY).Some?
    ensures created.Some? ==>
      created.value.start_time == RoundHalfHour(ClickTime(TodayStart(now), clientX))
    ensures created.Some? && groups[LaneAt(groups, clientY).value].id != 0 ==>
      created.value.group == groups[LaneAt(groups, clientY).value].id
    ensures created.Some? ==>
      created.value.end_time == created.value.start_time + 2 * HOUR_MS ||
      created.value.end_time == created.value.start_time - 22 * HOUR_MS
    ensures created.Some? ==> created.value.id == id && created.value.miniEvents == Some([])
  {
    var view := new TimelineView(now);
    var click := view.GridClick(groups, clientX, clientY, 0, 0);
    if click.None? {
      return None;
    }
    var item, _ := CreateAtClick(groups, now, click.value, id);
    created := Some(item);
  }

  /**
   * The store and the creation dialog after a background click on a
   * half hour: the dialog opens with the click's lane and time, and its
   * submit appends a booking at that time, in that lane when its id is not
   * 0, two hours long on the clock, and the dialog closes.
   */
  method CreateAtClick(groups: seq<Group>, now: int, click: Click, id: int) returns (item: Item, dialogOpen: bool)
    requires click.time % CLICK_SNAP_MS == 0
    ensures item.start_time == click.time
    ensures click.groupId != 0 ==> item.group == click.groupId
    ensures item.end_time == item.start_time + 2 * HOUR_MS || item.end_time == item.start_time - 22 * HOUR_MS
    ensures item.id == id && item.miniEvents == Some([])
    ensures !dialogOpen
  {
    var app := new App([], now);
    app.TimelineBackgroundClick(click.groupId, click.time);
    var draft := DraftFromPresets(groups, now, app.createModalDate, app.preselectedGroupId, app.preselectedTime);
    app.CreateEvent(draft, id);
    app.CloseCreateModal();
    item := app.items[|app.items| - 1];
    dialogOpen := app.isCreateOpen;
  }

  /**
   * The creation dialog opened with the presets of a background click on a
   * half hour and submitted at once: the draft starts at the clicked time,
   * in the clicked lane unless its id is 0, and ends two hours later on the
   * clock.
   */
  method DraftFromPresets(groups: seq<Group>, now: int, t: int, groupId: Option<int>, time: Option<string>)
    returns (draft: Draft)
    requires t % CLICK_SNAP_MS == 0
    requires time == Some(FormatHHmm(MinuteOfDay(t)))
    ensures draft.start_time == Some(t)
    ensures groupId.Some? && groupId.value != 0 ==> draft.group == groupId.value
    ensures draft.end_time.Some?
    ensures draft.end_time.value == t + 2 * HOUR_MS || draft.end_time.value == t - 22 * HOUR_MS
  {
    var form := new CreateEventForm(groups, now);
    form.OnOpen(true, Some(t), groupId, time);
    PresetOfHalfHour(t);
    draft := form.Submit(groups);
  }

  /**
   * Whatever state the store is in, the creation dialog it has open, with
   * any time typed into its inputs, submits a draft with both times set:
   * the store's invariant keeps the preset time well formed, and an empty
   * input reads as midnight. So the booking is always appended, after the
   * existing ones, and the dialog closes.
   */
  method SubmitOpenDialog(app: App, groups: seq<Group>, now: int, id: int,
                          typedStart: Option<string>, typedEnd: Option<string>)
    requires app.Valid() && app.isCreateOpen
    requires typedStart.Some? ==> TimeField(typedStart.value)
    requires typedEnd.Some? ==> TimeField(typedEnd.value)
    modifies app
    ensures app.Valid() && !app.isCreateOpen
    ensures |app.items| == |old(app.items)| + 1 && app.items[..|old(app.items)|] == old(app.items)
  {
    var form := new CreateEventForm(groups, now);
    form.OnOpen(app.isCreateOpen, Some(app.createModalDate), app.preselectedGroupId, app.preselectedTime);
    if typedStart.Some? {
      form.SetStartTime(typedStart.value);
    }
    if typedEnd.Some? {
      form.SetEndTime(typedEnd.value);
    }
    var draft := form.Submit(groups);
    app.CreateEvent(draft, id);
    app.CloseCreateModal();
  }

  /**
   * A half-hour time preset into the creation dialog comes back as the
   * draft's start, with the default end two hours later on the clock.
   */
  lemma PresetOfHalfHour(t: int)
    requires t % CLICK_SNAP_MS == 0
    ensures var s := FormatHHmm(MinuteOfDay(t));
      && Truthy(Some(s))
      && DateTime(StartOfDay(t), s) == Some(t)
      && var e := DateTime(StartOfDay(t), AddHoursHHmm(s, DEFAULT_DURATION_HOURS));
         e.Some? && (e.value == t + 2 * HOUR_MS || e.value == t - 22 * HOUR_MS)
  {
    assert t == (t / CLICK_SNAP_MS) * 30 * MINUTE_MS;
    PresetRoundTrip(t);
    ParseFormat(MinuteOfDay(t));
    DefaultDuration(StartOfDay(t), FormatHHmm(MinuteOfDay(t)));
  }

  /** A click under 09:06:36 (pixel 111 of a window opening at 08:00) snaps to 09:00. */
  lemma ClickNearNine(day: int)
    requires day % DAY_MS == 0
    ensures ClickTime(day + DAY_OFFSET_MS, 111) == day + 9 * HOUR_MS + 6 * MINUTE_MS + 36_000
    ensures RoundHalfHour(ClickTime(day + DAY_OFFSET_MS, 111)) == day + 9 * HOUR_MS
  {
    RoundHalfHourNearest(ClickTime(day + DAY_OFFSET_MS, 111), day + 9 * HOUR_MS);
  }

  /**
   * A container for one sub-booking is not full while empty; once it holds
   * one it is full and its badge reads 1/1.
   */
  lemma CapacityOfOne(item: Item, sub: SubBooking)
    requires item.maxMiniEvents == Some(1) && item.miniEvents == Some([])
    ensures !IsFull(item) && BadgeOf(item) == Some(Badge(0, 1, false))
    ensures var after := item.(miniEvents := Some([sub]));
      IsFull(after) && BadgeOf(after) == Some(Badge(1, 1, true))
  {
  }

  /**
   * Saving the edit dialog for a booking whose id no other booking shares
   * leaves every booking's times, lane and sub-bookings as they were.
   */
  lemma EditKeepsSchedule(items: seq<Item>, k: nat, title: string, description: string, room: string)
    requires k < |items|
    requires forall j :: 0 <= j < |items| && items[j].id == items[k].id ==> j == k
    ensures var r := UpdateItems(items, EditedEvent(items[k], title, description, room));
      forall i :: 0 <= i < |items| ==>
        && r[i].start_time == items[i].start_time && r[i].end_time == items[i].end_time
        && r[i].group == items[i].group && r[i].miniEvents == items[i].miniEvents
  {
  }

  /**
   * Ids are not guaranteed unique: saving an edit of one booking overwrites
   * every other booking with the same id, times and lane included.
   */
  lemma EditOverwritesSharedId(items: seq<Item>, j: nat, k: nat, title: string, description: string, room: string)
    requires j < |items| && k < |items| && items[j].id == items[k].id
    ensures var r := UpdateItems(items, EditedEvent(items[k], title, description, room));
      r[j].start_time == items[k].start_time && r[j].group == items[k].group
  {
  }
}
