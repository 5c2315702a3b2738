/**
 * The records shared by the scheduler: lanes (doctors), bookings and their
 * sub-bookings, and the partial record the creation dialog hands to the store.
 * Timestamps are integer milliseconds on the local clock.
 */
module Types {

  datatype Option<+T> = None | Some(value: T)

  /** A JavaScript string is truthy when it is present and not empty. */
  predicate Truthy(s: Option<string>) {
    s.Some? && s.value != ""
  }

  /** A resource lane. `eventClassName` is the style given to bookings created in it. */
  datatype Group = Group(
    id: int,
    title: string,
    category: string,
    color: string,
    eventClassName: Option<string>)

  /**
   * When a sub-booking happens: either a free-form duration tag, or a
   * time-of-day with the patient and room it concerns.
   */
  datatype Timing =
    | DurationTag(duration: string)
    | Slot(time: string, patientName: Option<string>, operationRoom: Option<string>)

  datatype SubBooking = SubBooking(
    id: string,
    title: string,
    description: Option<string>,
    timing: Timing)

  /** A booking on the timeline; `group` is the id of the lane it sits in. */
  datatype Item = Item(
    id: int,
    group: int,
    title: string,
    start_time: int,
    end_time: int,
    description: Option<string>,
    className: Option<string>,
    maxMiniEvents: Option<int>,
    miniEvents: Option<seq<SubBooking>>,
    operationRoom: Option<string>,
    isMainEvent: Option<bool>)

  /**
   * What the creation dialog submits. A start or end of None stands for the
   * invalid date the dialog produces from a time it cannot parse.
   */
  datatype Draft = Draft(
    title: string,
    group: int,
    description: Option<string>,
    start_time: Option<int>,
    end_time: Option<int>,
    className: Option<string>,
    maxMiniEvents: Option<int>,
    operationRoom: Option<string>)

  /**
   * The index of the first group with the given id, or -1 when there is none
   * (`groups.findIndex(g => g.id === id)`).
   */
  function GroupIndex(groups: seq<Group>, id: int): (i: int)
    ensures -1 <= i < |groups|
    ensures 0 <= i ==> groups[i].id == id
    ensures 0 <= i ==> forall j :: 0 <= j < i ==> groups[j].id != id
    ensures i == -1 <==> forall j :: 0 <= j < |groups| ==> groups[j].id != id
  {
    if |groups| == 0 then -1
    else if groups[0].id == id then 0
    else
      var k := GroupIndex(groups[1..], id);
      if k < 0 then -1 else k + 1
  }
}
