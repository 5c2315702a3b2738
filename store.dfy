/**
 * The booking store: the application's single owner of the booking list,
 * of the booking selected for the detail dialog, and of the state with
 * which the creation dialog is opened. Other components only propose
 * changes to it through the handlers below.
 */
module Store {
  import opened Types
  import opened Clock
  import Timeline

  /** The same booking at a new start in a new lane, its duration kept. */
  function MovedItem(item: Item, newStart: int, newGroup: int): (r: Item)
    ensures r.start_time == newStart && r.group == newGroup
    ensures r.end_time - r.start_time == item.end_time - item.start_time
    ensures r.(start_time := item.start_time, end_time := item.end_time, group := item.group) == item
  {
    item.(start_time := newStart, end_time := newStart + (item.end_time - item.start_time), group := newGroup)
  }

  /**
   * Every booking whose id matches is moved; the others, the length and the
   * order of the list stay as they were. Ids need not be unique.
   */
  function MoveItems(items: seq<Item>, itemId: int, newStart: int, newGroup: int): (r: seq<Item>)
    ensures |r| == |items|
    ensures forall i :: 0 <= i < |items| && items[i].id == itemId ==>
      r[i] == MovedItem(items[i], newStart, newGroup)
    ensures forall i :: 0 <= i < |items| && items[i].id != itemId ==> r[i] == items[i]
  {
    seq(|items|, i requires 0 <= i < |items| =>
      if items[i].id == itemId then MovedItem(items[i], newStart, newGroup) else items[i])
  }

  /** Moving a booking nobody has leaves the list as it was. */
  lemma MoveUnknownId(items: seq<Item>, itemId: int, newStart: int, newGroup: int)
    requires forall i :: 0 <= i < |items| ==> items[i].id != itemId
    ensures MoveItems(items, itemId, newStart, newGroup) == items
  {
  }

  /**
   * Moving twice is moving once to the second place: the duration carried
   * through the first move is the original one.
   */
  lemma MoveTwice(items: seq<Item>, itemId: int, s1: int, g1: int, s2: int, g2: int)
    ensures MoveItems(MoveItems(items, itemId, s1, g1), itemId, s2, g2) == MoveItems(items, itemId, s2, g2)
  {
    var a := MoveItems(MoveItems(items, itemId, s1, g1), itemId, s2, g2);
    var b := MoveItems(items, itemId, s2, g2);
    forall i | 0 <= i < |items|
      ensures a[i] == b[i]
    {
      if items[i].id == itemId {
        var m := MovedItem(items[i], s1, g1);
        assert MovedItem(m, s2, g2) == MovedItem(items[i], s2, g2);
      }
    }
  }

  /** The move a drag commits, applied to the list: the ids in the list do not change. */
  lemma MoveKeepsIds(items: seq<Item>, m: Timeline.Move)
    ensures var r := MoveItems(items, m.itemId, m.newStartTime, m.newGroupId);
      forall i :: 0 <= i < |items| ==> r[i].id == items[i].id && r[i].title == items[i].title
  {
  }

  /** Every booking with the update's id becomes the update; the others stay. */
  function UpdateItems(items: seq<Item>, updated: Item): (r: seq<Item>)
    ensures |r| == |items|
    ensures forall i :: 0 <= i < |items| && items[i].id == updated.id ==> r[i] == updated
    ensures forall i :: 0 <= i < |items| && items[i].id != updated.id ==> r[i] == items[i]
  {
    seq(|items|, i requires 0 <= i < |items| => if items[i].id == updated.id then updated else items[i])
  }

  /** Applying the same update again changes nothing more. */
  lemma UpdateIdempotent(items: seq<Item>, updated: Item)
    ensures UpdateItems(UpdateItems(items, updated), updated) == UpdateItems(items, updated)
  {
  }

  /** The update is in the new list exactly when some booking had its id. */
  lemma UpdateAppearsIffIdKnown(items: seq<Item>, updated: Item)
    ensures updated in UpdateItems(items, updated) <==>
      exists i :: 0 <= i < |items| && items[i].id == updated.id
  {
    var r := UpdateItems(items, updated);
    if updated in r {
      var i :| 0 <= i < |r| && r[i] == updated;
      assert items[i].id == updated.id;
    }
    if exists i :: 0 <= i < |items| && items[i].id == updated.id {
      var i :| 0 <= i < |items| && items[i].id == updated.id;
      assert r[i] == updated;
    }
  }

  /**
   * The booking `handleCreateEvent` builds from a draft: the given id, the
   * draft's lane, title, times, note, style and capacity, an empty list of
   * sub-bookings, and no room (the draft's room is dropped).
   */
  function NewItem(draft: Draft, id: int): (r: Item)
    requires draft.start_time.Some? && draft.end_time.Some?
    ensures r.id == id && r.group == draft.group && r.title == draft.title
    ensures r.start_time == draft.start_time.value && r.end_time == draft.end_time.value
    ensures r.description == draft.description && r.className == draft.className
    ensures r.maxMiniEvents == draft.maxMiniEvents
    ensures r.miniEvents == Some([])
    ensures r.operationRoom.None? && r.isMainEvent.None?
    ensures !Timeline.IsFull(r)
  {
    Item(id, draft.group, draft.title, draft.start_time.value, draft.end_time.value,
         draft.description, draft.className, draft.maxMiniEvents, Some([]), None, None)
  }

  /**
   * The application's state. `isDetailOpen` is the detail dialog's flag,
   * `isCreateOpen` the creation dialog's, and the three `create...` /
   * `preselected...` fields are what the creation dialog is opened with.
   */
  class App {
    var items: seq<Item>
    var isAssistantOpen: bool
    var selectedEvent: Option<Item>
    var isDetailOpen: bool
    var isCreateOpen: bool
    var createModalDate: int
    var preselectedGroupId: Option<int>
    var preselectedTime: Option<string>

    /**
     * The detail dialog is only open on a selected booking, and a preset
     * start time is always a well-formed `HH:mm`.
     */
    predicate Valid()
      reads this
    {
      && (isDetailOpen ==> selectedEvent.Some?)
      && (preselectedTime.Some? ==> ParseHHmm(preselectedTime.value).Some?)
    }

    constructor (initialItems: seq<Item>, now: int)
      ensures Valid()
      ensures items == initialItems && selectedEvent == None
      ensures !isAssistantOpen && !isDetailOpen && !isCreateOpen
      ensures createModalDate == now && preselectedGroupId == None && preselectedTime == None
    {
      items := initialItems;
      isAssistantOpen := false;
      selectedEvent := None;
      isDetailOpen := false;
      isCreateOpen := false;
      createModalDate := now;
      preselectedGroupId := None;
      preselectedTime := None;
    }

    method ToggleAssistant()
      requires Valid()
      modifies this
      ensures Valid()
      ensures isAssistantOpen == !old(isAssistantOpen)
      ensures items == old(items) && selectedEvent == old(selectedEvent)
      ensures isDetailOpen == old(isDetailOpen) && isCreateOpen == old(isCreateOpen)
      ensures createModalDate == old(createModalDate)
      ensures preselectedGroupId == old(preselectedGroupId) && preselectedTime == old(preselectedTime)
    {
      isAssistantOpen := !isAssistantOpen;
    }

    /** A click on the timeline background opens the creation dialog on that lane and time. */
    method TimelineBackgroundClick(groupId: int, time: int)
      requires Valid()
      modifies this
      ensures Valid()
      ensures isCreateOpen && createModalDate == time
      ensures preselectedGroupId == Some(groupId)
      ensures preselectedTime == Some(FormatHHmm(MinuteOfDay(time)))
      ensures items == old(items) && selectedEvent == old(selectedEvent)
      ensures isDetailOpen == old(isDetailOpen) && isAssistantOpen == old(isAssistantOpen)
    {
      ParseFormat(MinuteOfDay(time));
      createModalDate := time;
      preselectedGroupId := Some(groupId);
      preselectedTime := Some(FormatHHmm(MinuteOfDay(time)));
      isCreateOpen := true;
    }

    /** A click on a calendar day opens the creation dialog at 09:00 in no lane. */
    method CalendarDateClick(date: int)
      requires Valid()
      modifies this
      ensures Valid()
      ensures isCreateOpen && createModalDate == date
      ensures preselectedGroupId == None && preselectedTime == Some("09:00")
      ensures items == old(items) && selectedEvent == old(selectedEvent)
      ensures isDetailOpen == old(isDetailOpen) && isAssistantOpen == old(isAssistantOpen)
    {
      createModalDate := date;
      preselectedGroupId := None;
      preselectedTime := Some("09:00");
      isCreateOpen := true;
    }

    /** The "New Event" button opens the creation dialog now, with no lane and no time. */
    method OpenGeneralCreateModal(now: int)
      requires Valid()
      modifies this
      ensures Valid()
      ensures isCreateOpen && createModalDate == now
      ensures preselectedGroupId == None && preselectedTime == None
      ensures items == old(items) && selectedEvent == old(selectedEvent)
      ensures isDetailOpen == old(isDetailOpen) && isAssistantOpen == old(isAssistantOpen)
    {
      createModalDate := now;
      preselectedGroupId := None;
      preselectedTime := None;
      isCreateOpen := true;
    }

    method CloseCreateModal()
      requires Valid()
      modifies this
      ensures Valid()
      ensures !isCreateOpen
      ensures items == old(items) && selectedEvent == old(selectedEvent)
      ensures isDetailOpen == old(isDetailOpen) && isAssistantOpen == old(isAssistantOpen)
      ensures createModalDate == old(createModalDate)
      ensures preselectedGroupId == old(preselectedGroupId) && preselectedTime == old(preselectedTime)
    {
      isCreateOpen := false;
    }

    /** Appends one booking built from the draft, under the id the caller drew. */
    method CreateEvent(draft: Draft, id: int)
      requires Valid()
      requires draft.start_time.Some? && draft.end_time.Some?
      modifies this
      ensures Valid()
      ensures items == old(items) + [NewItem(draft, id)]
      ensures selectedEvent == old(selectedEvent) && isDetailOpen == old(isDetailOpen)
      ensures isCreateOpen == old(isCreateOpen) && isAssistantOpen == old(isAssistantOpen)
      ensures createModalDate == old(createModalDate)
      ensures preselectedGroupId == old(preselectedGroupId) && preselectedTime == old(preselectedTime)
    {
      items := items + [NewItem(draft, id)];
    }

    /** Selecting a booking opens its detail dialog. */
    method EventSelect(event: Item)
      requires Valid()
      modifies this
      ensures Valid()
      ensures selectedEvent == Some(event) && isDetailOpen
      ensures items == old(items) && isCreateOpen == old(isCreateOpen)
      ensures isAssistantOpen == old(isAssistantOpen) && createModalDate == old(createModalDate)
      ensures preselectedGroupId == old(preselectedGroupId) && preselectedTime == old(preselectedTime)
    {
      selectedEvent := Some(event);
      isDetailOpen := true;
    }

    /** Closing the detail dialog also forgets the selection. */
    method CloseDetail()
      requires Valid()
      modifies this
      ensures Valid()
      ensures selectedEvent == None && !isDetailOpen
      ensures items == old(items) && isCreateOpen == old(isCreateOpen)
      ensures isAssistantOpen == old(isAssistantOpen) && createModalDate == old(createModalDate)
      ensures preselectedGroupId == old(preselectedGroupId) && preselectedTime == old(preselectedTime)
    {
      isDetailOpen := false;
      selectedEvent := None;
    }

    /** Replaces every booking with the update's id, and shows the update as selected. */
    method UpdateEvent(updated: Item)
      requires Valid()
      modifies this
      ensures Valid()
      ensures items == UpdateItems(old(items), updated)
      ensures selectedEvent == Some(updated)
      ensures isDetailOpen == old(isDetailOpen) && isCreateOpen == old(isCreateOpen)
      ensures isAssistantOpen == old(isAssistantOpen) && createModalDate == old(createModalDate)
      ensures preselectedGroupId == old(preselectedGroupId) && preselectedTime == old(preselectedTime)
    {
      items := UpdateItems(items, updated);
      selectedEvent := Some(updated);
    }

    /** The drag commit: moves every booking with the id, keeping its duration. */
    method ItemMove(itemId: int, newStart: int, newGroup: int)
      requires Valid()
      modifies this
      ensures Valid()
      ensures items == MoveItems(old(items), itemId, newStart, newGroup)
      ensures selectedEvent == old(selectedEvent) && isDetailOpen == old(isDetailOpen)
      ensures isCreateOpen == old(isCreateOpen) && isAssistantOpen == old(isAssistantOpen)
      ensures createModalDate == old(createModalDate)
      ensures preselectedGroupId == old(preselectedGroupId) && preselectedTime == old(preselectedTime)
    {
      items := MoveItems(items, itemId, newStart, newGroup);
    }

    /** Bookings proposed by the assistant go after the existing ones, in their order. */
    method AddAssistantItems(newItems: seq<Item>)
      requires Valid()
      modifies this
      ensures Valid()
      ensures items == old(items) + newItems
      ensures selectedEvent == old(selectedEvent) && isDetailOpen == old(isDetailOpen)
      ensures isCreateOpen == old(isCreateOpen) && isAssistantOpen == old(isAssistantOpen)
      ensures createModalDate == old(createModalDate)
      ensures preselectedGroupId == old(preselectedGroupId) && preselectedTime == old(preselectedTime)
    {
      items := items + newItems;
    }
  }
}
