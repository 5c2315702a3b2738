/**
 * The creation and edit dialogs: the form state they keep, how the creation
 * dialog is pre-filled when it opens, the record each one submits, and what
 * the creation form resets afterwards.
 *
 * The calendar date field (`YYYY-MM-DD`) is kept as the timestamp of that
 * day's midnight.
 */
module Forms {
  import opened Types
  import opened Clock

  /** Style of a booking created in a lane that has none. */
  const FALLBACK_CLASS: string := "bg-slate-600 text-white border-slate-700"
  const DEFAULT_ROOM: string := "OR-1"
  const DEFAULT_START: string := "09:00"
  const DEFAULT_END: string := "11:00"
  /** Hours between a preset start and its default end. */
  const DEFAULT_DURATION_HOURS: nat := 2

  /** A string field or, when it is absent or empty, a default (`s || d`). */
  function OrDefault(s: Option<string>, d: string): string {
    if Truthy(s) then s.value else d
  }

  /** What a time input can hold: nothing, or a well-formed `HH:mm`. */
  predicate TimeField(s: string) {
    s == "" || ParseHHmm(s).Some?
  }

  /**
   * `moment(date + ' ' + hhmm, 'YYYY-MM-DD HH:mm').valueOf()`: the instant
   * on that day at that time, None for a time that does not parse. An empty
   * time leaves hour and minute unset, which moment reads as midnight.
   */
  function DateTime(date: int, hhmm: string): (t: Option<int>)
    requires date % DAY_MS == 0
    ensures t.Some? <==> TimeField(hhmm)
    ensures hhmm == "" ==> t == Some(date)
    ensures ParseHHmm(hhmm).Some? ==> t.Some? && t.value == date + ParseHHmm(hhmm).value * MINUTE_MS
    ensures t.Some? ==> StartOfDay(t.value) == date && t.value % MINUTE_MS == 0
    ensures ParseHHmm(hhmm).Some? ==> FormatHHmm(MinuteOfDay(t.value)) == hhmm
  {
    if hhmm == "" then
      MinuteOnDay(date, 0);
      Some(date)
    else
      match ParseHHmm(hhmm)
      case Some(m) =>
        MinuteOnDay(date, m);
        FormatParse(hhmm);
        Some(date + m * MINUTE_MS)
      case None => None
  }

  /**
   * The time a preset start shows, read back on that instant's own day, is
   * the instant itself: a background click's time survives the round trip
   * through the dialog's `HH:mm` field.
   */
  lemma PresetRoundTrip(t: int)
    requires t % MINUTE_MS == 0
    ensures DateTime(StartOfDay(t), FormatHHmm(MinuteOfDay(t))) == Some(t)
  {
    var m := MinuteOfDay(t);
    ParseFormat(m);
    var d := StartOfDay(t);
    assert t - d == (t % DAY_MS);
    assert (t % DAY_MS) % MINUTE_MS == 0;
    assert t == d + m * MINUTE_MS;
  }

  /**
   * The style of a booking created in lane `groupId`: that lane's own style,
   * or the fallback when no lane has the id or its style is empty.
   */
  function ClassNameFor(groups: seq<Group>, groupId: int): (c: string)
    ensures var i := GroupIndex(groups, groupId);
      c == if i >= 0 && Truthy(groups[i].eventClassName) then groups[i].eventClassName.value else FALLBACK_CLASS
    ensures c == FALLBACK_CLASS || exists i :: 0 <= i < |groups| && groups[i].id == groupId && groups[i].eventClassName == Some(c)
  {
    var i := GroupIndex(groups, groupId);
    if i >= 0 then OrDefault(groups[i].eventClassName, FALLBACK_CLASS) else FALLBACK_CLASS
  }

  /**
   * The record the creation dialog submits: both times on the same chosen
   * day, the lane's style, the room, and no capacity. Nothing checks that
   * the end comes after the start.
   */
  function BuildDraft(groups: seq<Group>, title: string, groupId: int, description: string,
                      date: int, startTime: string, endTime: string, room: string): (d: Draft)
    requires date % DAY_MS == 0
    ensures d.title == title && d.group == groupId && d.description == Some(description)
    ensures d.start_time == DateTime(date, startTime) && d.end_time == DateTime(date, endTime)
    ensures d.className == Some(ClassNameFor(groups, groupId))
    ensures d.operationRoom == Some(room) && d.maxMiniEvents.None?
  {
    Draft(title, groupId, Some(description), DateTime(date, startTime), DateTime(date, endTime),
          Some(ClassNameFor(groups, groupId)), None, Some(room))
  }

  /**
   * A start preset at `s` gets the default end two hours later on the
   * 24-hour clock; on the same day that is two hours after the start, or
   * 22 hours before it when the clock wraps past midnight.
   */
  lemma DefaultDuration(date: int, s: string)
    requires date % DAY_MS == 0
    requires ParseHHmm(s).Some?
    ensures var st := DateTime(date, s);
      var en := DateTime(date, AddHoursHHmm(s, DEFAULT_DURATION_HOURS));
      && st.Some? && en.Some?
      && (ParseHHmm(s).value < MINUTES_PER_DAY - 120 ==> en.value == st.value + 2 * HOUR_MS)
      && (ParseHHmm(s).value >= MINUTES_PER_DAY - 120 ==> en.value == st.value - 22 * HOUR_MS)
  {
    var m := ParseHHmm(s).value;
    var e := ParseHHmm(AddHoursHHmm(s, DEFAULT_DURATION_HOURS)).value;
    assert e == (m + 120) % MINUTES_PER_DAY;
    if m < MINUTES_PER_DAY - 120 {
      assert e == m + 120;
    } else {
      assert e == m + 120 - MINUTES_PER_DAY;
    }
    assert DateTime(date, AddHoursHHmm(s, DEFAULT_DURATION_HOURS)).value == date + e * MINUTE_MS;
  }

  /** Opened at 23:00, the dialog submits a booking that ends 22 hours before it starts. */
  lemma LateStartEndsBeforeStart(groups: seq<Group>, date: int)
    requires date % DAY_MS == 0
    ensures var d := BuildDraft(groups, "", 1, "", date, "23:00", AddHoursHHmm("23:00", DEFAULT_DURATION_HOURS), DEFAULT_ROOM);
      d.start_time.Some? && d.end_time.Some? && d.end_time.value == d.start_time.value - 22 * HOUR_MS
  {
    assert ParseHHmm("23:00") == Some(1380);
    DefaultDuration(date, "23:00");
  }

  /** The creation dialog's form state. */
  class CreateEventForm {
    var title: string
    var groupId: int
    var operationRoom: string
    var description: string
    var date: int
    var startTime: string
    var endTime: string

    /** The date field always holds a whole day. */
    predicate Valid()
      reads this
    {
      date % DAY_MS == 0
    }

    /** Both time fields hold what a time input can hold. */
    predicate TimesWellFormed()
      reads this
    {
      TimeField(startTime) && TimeField(endTime)
    }

    /** Initial state: first lane (or lane 1 when it has id 0 or there is none), today, 09:00 to 11:00. */
    constructor (groups: seq<Group>, now: int)
      ensures Valid()
      ensures title == "" && description == "" && operationRoom == DEFAULT_ROOM
      ensures groupId == if |groups| > 0 && groups[0].id != 0 then groups[0].id else 1
      ensures date == StartOfDay(now)
      ensures startTime == DEFAULT_START && endTime == DEFAULT_END
      ensures TimesWellFormed()
    {
      title := "";
      groupId := if |groups| > 0 && groups[0].id != 0 then groups[0].id else 1;
      operationRoom := DEFAULT_ROOM;
      description := "";
      date := StartOfDay(now);
      startTime := DEFAULT_START;
      endTime := DEFAULT_END;
    }

    /**
     * The effect run when the dialog is shown: each preset is applied only
     * when it is truthy (a lane id of 0 and an empty time are ignored), and
     * a preset start brings an end two hours later.
     */
    method OnOpen(isOpen: bool, initialDate: Option<int>, initialGroupId: Option<int>, initialTime: Option<string>)
      requires Valid()
      modifies this
      ensures Valid()
      ensures title == old(title) && description == old(description) && operationRoom == old(operationRoom)
      ensures date == if isOpen && initialDate.Some? then StartOfDay(initialDate.value) else old(date)
      ensures groupId == if isOpen && initialGroupId.Some? && initialGroupId.value != 0
                         then initialGroupId.value else old(groupId)
      ensures isOpen && Truthy(initialTime) ==>
        startTime == initialTime.value && endTime == AddHoursHHmm(initialTime.value, DEFAULT_DURATION_HOURS)
      ensures !(isOpen && Truthy(initialTime)) ==> startTime == old(startTime) && endTime == old(endTime)
      ensures old(TimesWellFormed()) && (isOpen && Truthy(initialTime) ==> ParseHHmm(initialTime.value).Some?)
        ==> TimesWellFormed()
    {
      if isOpen {
        if initialDate.Some? {
          date := StartOfDay(initialDate.value);
        }
        if initialGroupId.Some? && initialGroupId.value != 0 {
          groupId := initialGroupId.value;
        }
        if initialTime.Some? && initialTime.value != "" {
          startTime := initialTime.value;
          endTime := AddHoursHHmm(initialTime.value, DEFAULT_DURATION_HOURS);
        }
      }
    }

    /**
     * Submitting hands over the draft built from the fields, then clears the
     * title and description and puts the room back to OR-1; the lane, date
     * and times stay for the next booking.
     */
    method Submit(groups: seq<Group>) returns (d: Draft)
      requires Valid()
      modifies this
      ensures Valid()
      ensures d == BuildDraft(groups, old(title), old(groupId), old(description), old(date),
                              old(startTime), old(endTime), old(operationRoom))
      ensures title == "" && description == "" && operationRoom == DEFAULT_ROOM
      ensures groupId == old(groupId) && date == old(date)
      ensures startTime == old(startTime) && endTime == old(endTime)
      ensures old(TimesWellFormed()) ==> d.start_time.Some? && d.end_time.Some?
    {
      d := BuildDraft(groups, title, groupId, description, date, startTime, endTime, operationRoom);
      title := "";
      description := "";
      operationRoom := DEFAULT_ROOM;
    }

    /** Typing into the start time input. */
    method SetStartTime(v: string)
      modifies this
      ensures startTime == v && endTime == old(endTime) && date == old(date)
      ensures title == old(title) && description == old(description)
      ensures groupId == old(groupId) && operationRoom == old(operationRoom)
      ensures old(TimesWellFormed()) && TimeField(v) ==> TimesWellFormed()
    {
      startTime := v;
    }

    /** Typing into the end time input. */
    method SetEndTime(v: string)
      modifies this
      ensures endTime == v && startTime == old(startTime) && date == old(date)
      ensures title == old(title) && description == old(description)
      ensures groupId == old(groupId) && operationRoom == old(operationRoom)
      ensures old(TimesWellFormed()) && TimeField(v) ==> TimesWellFormed()
    {
      endTime := v;
    }
  }

  /**
   * The booking the edit dialog submits: the title, note and room from the
   * form, everything else (id, times, lane, sub-bookings) as it was.
   */
  function EditedEvent(event: Item, title: string, description: string, room: string): (r: Item)
    ensures r.title == title && r.description == Some(description) && r.operationRoom == Some(room)
    ensures r.(title := event.title, description := event.description, operationRoom := event.operationRoom) == event
  {
    event.(title := title, description := Some(description), operationRoom := Some(room))
  }

  /** The edit dialog's form state. */
  class EditEventForm {
    var title: string
    var description: string
    var room: string

    /** The fields start from the booking; an absent note becomes empty and an absent room OR-1. */
    constructor (event: Item)
      ensures title == event.title
      ensures description == OrDefault(event.description, "")
      ensures room == OrDefault(event.operationRoom, DEFAULT_ROOM)
    {
      title := event.title;
      description := OrDefault(event.description, "");
      room := OrDefault(event.operationRoom, DEFAULT_ROOM);
    }

    /** Showing the dialog reloads the fields from the booking. */
    method OnOpen(isOpen: bool, event: Item)
      modifies this
      ensures isOpen ==> title == event.title && description == OrDefault(event.description, "")
                         && room == OrDefault(event.operationRoom, DEFAULT_ROOM)
      ensures !isOpen ==> title == old(title) && description == old(description) && room == old(room)
    {
      if isOpen {
        title := event.title;
        description := OrDefault(event.description, "");
        room := OrDefault(event.operationRoom, DEFAULT_ROOM);
      }
    }

    /** Submitting returns the booking with this form's title, note and room. */
    method Submit(event: Item) returns (r: Item)
      ensures r == EditedEvent(event, title, description, room)
      ensures r.id == event.id && r.start_time == event.start_time && r.end_time == event.end_time
      ensures r.group == event.group && r.miniEvents == event.miniEvents
    {
      r := EditedEvent(event, title, description, room);
    }
  }
}
