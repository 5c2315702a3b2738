# SmartTimeline scheduling core in Dafny

This project models the scheduling core of SmartTimeline, a React resource
scheduler for operating-theatre bookings. Doctors are lanes on a horizontal
timeline. Bookings are blocks in those lanes, and a booking may hold a
capacity-limited list of sub-bookings.

The model covers three parts of the application:

- **The timeline engine** (`components/TimelineView.tsx`):
  - the mapping between time and pixels (100 px per hour, so one pixel is exactly 36 000 ms);
  - lane hit-testing (70 px per lane);
  - the drag-to-reschedule state machine (`dragState`, with a quarter-hour snap that uses JavaScript's truncating `%`);
  - click-to-create (rounding to the nearest half hour with `Math.round`);
  - navigation of the view window (08:00 today, steps of ±4 h, sixteen hour markers);
  - the geometry and capacity badge of each rendered booking.
- **The booking store** (`App.tsx`): the single owner of the booking list, of the selection and of the dialog flags, with their handlers.
- **The creation and edit dialogs** (`components/EventModals.tsx`):
  - pre-filling the creation form (the end defaults to the start plus 2 h on the 24-hour clock);
  - the record each dialog submits;
  - the reset after a submit.

Files, one module each:

| file | module | models |
|---|---|---|
| `types.dfy` | `Types` | records from `types.ts`, plus the fields the code uses but `types.ts` omits |
| `clock.dfy` | `Clock` | millisecond clock, start of day, `HH:mm` strings |
| `timeline.dfy` | `Timeline` | `components/TimelineView.tsx` |
| `store.dfy` | `Store` | `App.tsx` |
| `forms.dfy` | `Forms` | `components/EventModals.tsx` |
| `scenarios.dfy` | `Scenarios` | whole interactions across the three components, written as clients of their contracts |

The model uses three forms:

- State that the handlers overwrite is a `class`: the timeline's `viewStart` and `dragState`, the application's `items`, selection and flags, and the dialogs' form fields. Each method states the whole new state.
- The list transforms (`map` plus a per-item update, spread-append), the snapping arithmetic and the record builders are functions. Lemmas prove properties about them.
- The hour markers come from a counted loop in the source, so `Hours` is a loop with invariants.

Time stamps are integer milliseconds and pointer coordinates are integers. Horizontal offsets and widths on the time axis and of drawn bookings are reals (`TimeToPixels`, `SpanWidth`, `DisplayLeft`, `Geometry`). The model writes out two JavaScript operations explicitly:

- JavaScript's `%` is `JsRem`, which truncates toward zero.
- `Math.round` is floor of `v + 1/2`.

Behaviour of the code that the model keeps as written:

- A capacity of 0 leaves a booking not full and shows no badge, because `isFull` requires `maxMini > 0` (`NoCapacityNeverFull`).
- The drag snap is "down" only for non-negative times. For times before the epoch JavaScript's `%` snaps toward zero (`SnapQuarter`).
- A release of a booking whose id is 0 neither commits the drag nor ends it, because `itemId` is tested for truthiness (`MouseUp`, `ReleaseWithZeroId`). Only the next drag start replaces that session.
- The window steps by 4 hours.
- An emptied time input submits the day's midnight (`DateTime`), and nothing checks that a booking ends after it starts (`LateStartEndsBeforeStart`).
- The code has no operation that adds or removes sub-bookings. The model covers the `isFull` predicate and the badge.

## Model

| member | source | states |
|---|---|---|
| Types.GroupIndex | components/TimelineView.tsx:255 | `findIndex`: the first lane with the id, or -1 exactly when no lane has it |
| Clock.StartOfDay | components/TimelineView.tsx:51 | `startOf('day')`: a midnight, at or before `t` and less than a day before it |
| Clock.MinuteOfDay | App.tsx:29-32 | the minute of the day shown for `t`: under 1440, and `t` lies in that minute of its day |
| Clock.ParseHHmm | components/EventModals.tsx:39 | a strict `HH:mm` string reads as a minute of the day below 1440; anything else is an invalid time |
| Clock.FormatHHmm | App.tsx:32 | `format('HH:mm')`: a five-character zero-padded `HH:mm` string |
| Clock.ParseFormat | App.tsx:32 | reading back a formatted minute gives that minute |
| Clock.FormatParse | components/EventModals.tsx:39 | every accepted `HH:mm` string is the formatting of the minute it reads as |
| Clock.AddHoursHHmm | components/EventModals.tsx:39 | `k` hours later on the 24-hour clock (modulo 1440 minutes), or "Invalid date" when the input is not a time |
| Timeline.TimeToPixels | components/TimelineView.tsx:142-146 | `timeToPixels`: the offset in pixels times 36 000 ms is the time elapsed since the window origin, and it is non-negative exactly for times at or after the origin |
| Timeline.ClickTime | components/TimelineView.tsx:157 | the click-time formula: always a whole number of pixels (36 000 ms each) from the origin, and at or after it exactly for clicks at or right of pixel 0 |
| Timeline.TimeAxisOrigin | components/TimelineView.tsx:142-146 | the window origin maps to pixel 0 |
| Timeline.TimeAxisLinear | components/TimelineView.tsx:142-146 | `h` hours later is `100*h` pixels further right |
| Timeline.PixelsOfClickTime | components/TimelineView.tsx:157 | `timeToPixels` is a left inverse of the click-time formula: `timeToPixels(viewStart + x*36000) = x` |
| Timeline.ClickTimeOfPixel | components/TimelineView.tsx:142-157 | a time on a whole pixel is the click time of its own pixel offset, and the mapping is monotone |
| Timeline.ShiftWindow | components/TimelineView.tsx:142-146 | moving the window origin shifts every pixel offset by the opposite amount |
| Timeline.LaneAt | components/TimelineView.tsx:154-155 | `floor(y/70)` is a lane iff `0 <= y < 70*count`, and then `y` lies within that lane's rows |
| Timeline.LaneOfRow | components/TimelineView.tsx:261 | every pixel row of lane `k`, including the item inset of 8 px, hit-tests back to lane `k` |
| Timeline.JsRem | components/TimelineView.tsx:123 | JavaScript's `%`: `a = b*trunc(a/b) + r`, with `r` taking the sign of `a` and `|r| < b` |
| Timeline.SnapQuarter | components/TimelineView.tsx:121-124 | the drag snap gives a multiple of 15 min, in `(s - 15min, s]` for `s >= 0` and in `[s, s + 15min)` for `s < 0` |
| Timeline.SnapQuarterIsFloor | components/TimelineView.tsx:121-124 | for `s >= 0` the snap is the largest quarter hour at or before `s` |
| Timeline.SnapQuarterIdempotent | components/TimelineView.tsx:123-124 | snapping a snapped time changes nothing |
| Timeline.RoundHalfHour | components/TimelineView.tsx:159-161 | the click snap gives a multiple of 30 min in `(t - 15min, t + 15min]`, so halves round up |
| Timeline.RoundHalfHourNearest | components/TimelineView.tsx:159-161 | that half hour is the only one in the window, so the click snap rounds to nearest rather than down |
| Timeline.CommittedStart | components/TimelineView.tsx:118-124 | the committed start is a quarter hour within 15 min at or below the captured start plus the pointer's travel times 36 000 ms |
| Timeline.BeginDrag | components/TimelineView.tsx:56-66 | drag start captures the item id, its start and its lane as both original and current lane, with `startX = currentX`; an immediate release commits the item's own start, snapped |
| Timeline.PointerMoved | components/TimelineView.tsx:91-112 | a move sets `currentX`; the hovered lane's id replaces `currentGroupId` only over a lane; the captured fields never change |
| Timeline.MovesKeepCapture | components/TimelineView.tsx:91-112 | after any number of moves the captured fields are unchanged, X is the last pointer X, and the lane is the original or an existing lane's id |
| Timeline.NoDrift | components/TimelineView.tsx:118-121 | the commit depends only on the captured start and the final pointer X, not on intermediate previews |
| Timeline.DragByQuarters | components/TimelineView.tsx:118-124 | a quarter-hour booking dragged by `25*n` px lands exactly `n` quarter hours later |
| Timeline.TodayStart | components/TimelineView.tsx:51 | "today" is 08:00 on the day of `now` |
| Timeline.IsFull | components/TimelineView.tsx:279-281 | `isFull`: a full booking has a positive capacity that its sub-bookings reach; a capacity of 0 or none is never full |
| Timeline.BadgeOf | components/TimelineView.tsx:279-281 | the badge shows `count/capacity` only for a positive capacity, marked full iff `count >= capacity` |
| Timeline.NoCapacityNeverFull | components/TimelineView.tsx:280-281 | a capacity of 0 or none is never full and shows no badge |
| Timeline.FullStaysFull | components/TimelineView.tsx:279-281 | adding sub-bookings to a full booking keeps it full |
| Timeline.ItemGeometry | components/TimelineView.tsx:254-295 | geometry of one booking: not drawn when its lane is unknown or it is culled off screen; the left edge is shifted by `currentX - startX` while dragged; the top edge is 8 px below the first lane (`findIndex`) with the displayed id, which is the hovered lane while dragged over a known lane, so it hit-tests back to that lane; the width is `Math.max(width, 40)`; the badge is as above |
| Timeline.TimelineView.constructor | components/TimelineView.tsx:26-36 | the view opens at 08:00 today with no drag |
| Timeline.TimelineView.Today | components/TimelineView.tsx:51 | `viewStart` becomes 08:00 of the current day |
| Timeline.TimelineView.Prev | components/TimelineView.tsx:52 | `viewStart` moves back exactly 4 h |
| Timeline.TimelineView.Next | components/TimelineView.tsx:53 | `viewStart` moves forward exactly 4 h |
| Timeline.TimelineView.Hours | components/TimelineView.tsx:41-48 | 16 hour markers, the i-th at `viewStart + i` hours |
| Timeline.TimelineView.DragStart | components/TimelineView.tsx:56-67 | sets `dragState` to the captured session, which attaches the listeners |
| Timeline.TimelineView.MouseMove | components/TimelineView.tsx:91-112 | in Idle nothing changes; while dragging, the session is updated by the pointer move, with Y taken below the header |
| Timeline.TimelineView.MouseUp | components/TimelineView.tsx:116-129 | with a truthy item id, commits `(itemId, snapped start, currentGroupId)` and returns to Idle; otherwise commits nothing and keeps `dragState` |
| Timeline.TimelineView.GridClick | components/TimelineView.tsx:148-164 | nothing while dragging or off the lanes; otherwise the hit lane's id and the half-hour-rounded click time |
| Store.MovedItem | App.tsx:71-78 | a moved booking gets the new start and lane, keeps its duration, and all its other fields are unchanged |
| Store.MoveItems | App.tsx:69-82 | `handleItemMove`'s map: same length and order, every booking with the id is moved, and the others are untouched |
| Store.MoveUnknownId | App.tsx:70-81 | moving an id no booking has leaves the list unchanged |
| Store.MoveTwice | App.tsx:70-81 | two moves equal one move to the second place, so the original duration survives |
| Store.MoveKeepsIds | App.tsx:70-81 | a committed move leaves every booking's id and title in place |
| Store.UpdateItems | App.tsx:64 | every booking with the update's id becomes the update, and the rest are unchanged |
| Store.UpdateIdempotent | App.tsx:64 | repeating an update changes nothing more |
| Store.UpdateAppearsIffIdKnown | App.tsx:64 | the update is in the list afterwards iff some booking had its id |
| Store.NewItem | App.tsx:43-54 | the new booking copies lane, title, times, note, style and capacity; it has no sub-bookings, drops the room, and is never full |
| Store.App.constructor | App.tsx:11-24 | initial state: the given bookings, nothing selected, every dialog closed |
| Store.App.ToggleAssistant | App.tsx:26 | flips the assistant flag only |
| Store.App.TimelineBackgroundClick | App.tsx:28-34 | opens the creation dialog with the lane id, the time and its `HH:mm` |
| Store.App.CalendarDateClick | App.tsx:36-41 | opens the creation dialog on the date with no lane and `09:00` |
| Store.App.OpenGeneralCreateModal | App.tsx:88-93 | opens the creation dialog now with no lane and no time |
| Store.App.CloseCreateModal | App.tsx:194 | closes the creation dialog only |
| Store.App.CreateEvent | App.tsx:43-56 | appends exactly one new booking at the end and leaves the rest |
| Store.App.EventSelect | App.tsx:58-61 | selects the booking and opens the detail dialog |
| Store.App.CloseDetail | App.tsx:205 | closes the detail dialog and clears the selection |
| Store.App.UpdateEvent | App.tsx:63-66 | replaces by id and selects the update |
| Store.App.ItemMove | App.tsx:69-82 | the list becomes `MoveItems` of the old list |
| Store.App.AddAssistantItems | App.tsx:84-86 | appends the new bookings after the old ones, in their order |
| Forms.DateTime | components/EventModals.tsx:49-50 | date plus `HH:mm` is the day's midnight plus that many minutes, on that day and showing that time again; an empty time is the day's midnight; any other string is an invalid date |
| Forms.PresetRoundTrip | components/EventModals.tsx:49 | the time preset by a background click comes back unchanged as the submitted start |
| Forms.ClassNameFor | components/EventModals.tsx:53-54 | the first matching lane's `eventClassName`, else `'bg-slate-600 text-white border-slate-700'` |
| Forms.BuildDraft | components/EventModals.tsx:47-64 | the submitted record: both times on the same date, the lane's style, the room, no capacity, and no end-after-start check |
| Forms.DefaultDuration | components/EventModals.tsx:36-41 | the default end is the start + 2 h on the same day, or 22 h before the start when the clock wraps past midnight |
| Forms.LateStartEndsBeforeStart | components/EventModals.tsx:39-50 | opened at 23:00, the dialog submits a booking that ends before it starts |
| Forms.CreateEventForm.constructor | components/EventModals.tsx:24-30 | initial fields: empty title and note, OR-1, `groups[0]?.id \|\| 1`, today, 09:00 to 11:00 |
| Forms.CreateEventForm.OnOpen | components/EventModals.tsx:32-43 | when open, applies the date, a non-zero lane id, and a non-empty time with the end 2 h later; presets that are not truthy are ignored; a well-formed preset keeps the time fields well formed |
| Forms.CreateEventForm.Submit | components/EventModals.tsx:47-70 | returns the built draft, whose times are both set when the time fields hold what time inputs can hold; resets title, note and room; keeps lane, date and times |
| Forms.CreateEventForm.SetStartTime | components/EventModals.tsx:118 | typing a start time changes that field only and keeps the fields well formed |
| Forms.CreateEventForm.SetEndTime | components/EventModals.tsx:122 | typing an end time changes that field only and keeps the fields well formed |
| Forms.EditedEvent | components/EventModals.tsx:164-171 | only title, note and room change; id, times, lane and sub-bookings are kept |
| Forms.EditEventForm.constructor | components/EventModals.tsx:150-152 | fields start from the booking, with note `''` and room `'OR-1'` when absent |
| Forms.EditEventForm.OnOpen | components/EventModals.tsx:154-160 | reopening reloads the fields the same way |
| Forms.EditEventForm.Submit | components/EventModals.tsx:164-173 | returns the edited booking; id, times, lane and sub-bookings are unchanged |
| Scenarios.DragOneHour | components/TimelineView.tsx:116-128 | a 09:00–11:00 booking dragged 100 px in its own lane is committed at 10:00–12:00 in the same lane |
| Scenarios.ReleaseWithZeroId | components/TimelineView.tsx:117 | releasing a drag of a booking with id 0 commits nothing and keeps the listeners attached |
| Scenarios.NextThenPrev | components/TimelineView.tsx:52-53 | next then previous restores the window; each step is 4 h |
| Scenarios.ClickThenCreate | components/TimelineView.tsx:148-164 | click, dialog and submit append a booking at the rounded click time in the clicked lane (unless its id is 0), 2 h long on the clock, with no sub-bookings; nothing is created off the lanes |
| Scenarios.CreateAtClick | App.tsx:28-56 | the store half of click-to-create: the booking appended starts at the half-hour click time, in the clicked lane unless its id is 0, lasts 2 h on the clock, and has no sub-bookings; the dialog is closed afterwards |
| Scenarios.DraftFromPresets | components/EventModals.tsx:32-70 | the dialog opened with a click's presets submits a draft starting at the click time, in the preset lane unless its id is 0, ending 2 h later on the clock |
| Scenarios.SubmitOpenDialog | App.tsx:43-56 | from any store state with the creation dialog open, and whatever times are typed, a submit appends exactly one booking after the existing ones and closes the dialog; the store keeps its preset time well formed |
| Scenarios.PresetOfHalfHour | components/EventModals.tsx:36-41 | a half-hour preset comes back as the start, and the default end is 2 h later or wraps |
| Scenarios.ClickNearNine | components/TimelineView.tsx:157-161 | a click at pixel 111 of an 08:00 window (09:06:36) resolves to 09:00 |
| Scenarios.CapacityOfOne | components/TimelineView.tsx:279-281 | a container with capacity 1 is not full when empty, and full with badge 1/1 after one sub-booking |
| Scenarios.EditKeepsSchedule | App.tsx:63-66 | saving an edit of a booking with a unique id changes no booking's times, lane or sub-bookings |
| Scenarios.EditOverwritesSharedId | App.tsx:64 | when ids collide, an edit overwrites the other booking's times and lane too |

## Left out

- DOM plumbing is not modelled: `getBoundingClientRect` becomes rectangle parameters, scroll offsets are ignored, and the attaching and detaching of window listeners (TimelineView.tsx:131-139) is reduced to `ListenersAttached`, which holds iff a drag is active.
- `handleCanvasClick` (TimelineView.tsx:70-87) is dead code: it computes an index and never uses it.
- The item click versus drag choice (TimelineView.tsx:287) depends on React's ordering of `mouseup`, re-render and `click`, so it cannot be stated as a sequential step.
- Randomness and the clock are parameters: the id drawn by `Math.random` (App.tsx:45), and "now" for `moment()` (TimelineView.tsx:26, 51, 247; App.tsx:20, 89; EventModals.tsx:28).
- The local clock is milliseconds with no time zone and no daylight-saving shift. Calendar dates (`YYYY-MM-DD`) are held as the timestamp of their midnight, and `moment(...).format` is modelled only for `HH:mm`.
- Floating point is not modelled. Pixels are integers, and `(pixelDelta / 100) * 3600000` and `clickTimeMs / snapMs` are taken as exact.
- Clock.ParseHHmm: moment's `'HH:mm'` parser is lenient, but the model accepts only the strict two-digit form. The times the application produces are preset `HH:mm` values, empty inputs and time-input values, and the model covers all three. For any other string the model yields an invalid time where moment might accept it.
- Forms.DateTime: an empty time is read as midnight, and other partial or lenient forms (`9:5`, `09:00:30`) are invalid dates in the model. A time input never produces them.
- Store.App.CreateEvent and Store.NewItem require the draft's times to be present. This is a modelling choice: a booking whose time is an invalid date (NaN) cannot be represented. `SubmitOpenDialog` shows that the creation dialog always meets this requirement.
- Timeline.TimelineView.MouseUp: the window listeners capture the `dragState` of the render that registered them (TimelineView.tsx:90-140). A release handled before React re-renders after the last move therefore commits the previous X and lane. The model processes one event at a time on the latest state, so `NoDrift`'s "final pointer X" assumes a re-render between events. Like the click versus drag choice, this depends on React's event and render ordering.
- Forms.CreateEventForm.Submit: the `onClose()` call in `handleSubmit` (EventModals.tsx:65) goes to the dialog's owner. It is modelled as `App.CloseCreateModal` (App.tsx:194), which the scenarios call after `CreateEvent`.
- Only the two time inputs' `onChange` handlers are modelled (`SetStartTime`, `SetEndTime`). The title, lane, room, date and note inputs just assign their field, and the date input is `required`.
- The month/week calendar (CalendarView.tsx), the assistant panel and the text-generation service (AssistantPanel.tsx, services/geminiService.ts) are not part of this model. Assistant bookings enter only through `AddAssistantItems`.
- The view mode switch (App.tsx:16, 114-131) is not modelled; it only chooses which view renders.
- `MiniEventManagerModal` (App.tsx:5, 203) is not in the dialogs file, so sub-booking add and remove are not part of this model. The capacity predicate and badge are modelled.
- `itemProps` and all CSS class strings other than the booking style chosen at creation are not modelled.
- The `category` union of types.ts:13 is a plain string, because the fixture data uses other values.
