/** The calendar page: a month grid of 42 days, the events of a day, the
    "upcoming" list, the month total, and the event list that the event
    dialog creates, edits and deletes. The page's clock reading is the
    parameter `now` (milliseconds), and the time-zone offset is 0. */
module Calendar {
  import opened Wrappers
  import opened Seqs
  import opened Text
  import opened Dates

  datatype EventType = Meeting | Personal | Work | Health | Study

  /** A stored event; `description`, `location` and `attendees` are optional. */
  datatype CalendarEvent = CalendarEvent(
    id: String,
    title: String,
    description: Option<String>,
    date: String,
    startTime: String,
    endTime: String,
    kind: EventType,
    location: Option<String>,
    attendees: Option<seq<String>>)

  /** The dialog's fields; attendees are typed as one comma-separated string. */
  datatype EventForm = EventForm(
    title: String,
    description: String,
    date: String,
    startTime: String,
    endTime: String,
    kind: EventType,
    location: String,
    attendees: String)

  const EmptyForm := EventForm("", "", "", "", "", Personal, "", "")

  function EventId(e: CalendarEvent): String {
    e.id
  }

  // ---------------------------------------------------------------------
  // The month grid

  /** The day number of the first of the month that instant `t` falls in. */
  function FirstOfMonth(t: int): int {
    var c := CivilOf(DayOf(t));
    MonthStart(c.year, c.month)
  }

  /** Day `n` lies in the month (and year) of instant `t`. */
  predicate InMonthOf(n: int, t: int) {
    CivilOf(n).year == CivilOf(DayOf(t)).year && CivilOf(n).month == CivilOf(DayOf(t)).month
  }

  /** 42 consecutive days starting on the Sunday on or before the first of
      the month of `t`. */
  predicate IsMonthGrid(t: int, days: seq<int>) {
    |days| == 42
    && (forall i :: 0 <= i < 42 ==> days[i] == days[0] + i)
    && Weekday(days[0]) == 0
    && days[0] <= FirstOfMonth(t) < days[0] + 7
  }

  /** `getDaysInMonth(currentDate)`: the cells of the month view, as day numbers. */
  method GetDaysInMonth(t: int) returns (days: seq<int>)
    ensures IsMonthGrid(t, days)
    ensures forall n :: InMonthOf(n, t) ==> n in days
  {
    var c := CivilOf(DayOf(t));
    var first := MakeDay(c.year, c.month, 1);
    // startDate.setDate(startDate.getDate() - firstDay.getDay())
    var start := first - Weekday(first);
    days := [];
    var current := start;
    while |days| < 42
      invariant |days| <= 42
      invariant current == start + |days|
      invariant forall i :: 0 <= i < |days| ==> days[i] == start + i
    {
      days := days + [current];
      current := current + 1;
    }
    forall n | InMonthOf(n, t) ensures n in days {
      CivilInMonth(c.year, c.month, n);
      assert days[n - start] == n;
    }
  }

  /** Only one grid fits the description: the Sunday on or before the first
      is unique. */
  lemma MonthGridUnique(t: int, a: seq<int>, b: seq<int>)
    requires IsMonthGrid(t, a) && IsMonthGrid(t, b)
    ensures a == b
  {
    SameWeekdayWithinAWeek(a[0], b[0]);
  }

  /** Two days less than a week apart with the same weekday are the same day. */
  lemma SameWeekdayWithinAWeek(x: int, y: int)
    requires Weekday(x) == Weekday(y) && -7 < x - y < 7
    ensures x == y
  {
    var qx, qy := (x + 4) / 7, (y + 4) / 7;
    assert x + 4 == 7 * qx + Weekday(x);
    assert y + 4 == 7 * qy + Weekday(y);
    assert x - y == 7 * (qx - qy);
  }

  /** The first of the month sits at the index equal to its weekday, and the
      last day of the month at an index of at most 36. */
  lemma GridPlacesMonth(t: int, days: seq<int>)
    requires IsMonthGrid(t, days)
    ensures var first := FirstOfMonth(t);
            var c := CivilOf(DayOf(t));
            days[Weekday(first)] == first
            && Weekday(first) + DaysInMonth(c.year, c.month) - 1 <= 36
  {
    WeekdayAfterSunday(days[0], FirstOfMonth(t));
  }

  /** `day.getMonth() === currentDate.getMonth()` compares the month only,
      yet it holds of a grid cell exactly when the cell lies in the month and
      year of `t`: the 42 days reach only into the months before and after. */
  lemma CurrentMonthTestIsExact(t: int, days: seq<int>, i: int)
    requires IsMonthGrid(t, days) && 0 <= i < 42
    ensures CivilOf(days[i]).month == CivilOf(DayOf(t)).month <==> InMonthOf(days[i], t)
  {
    var c := CivilOf(DayOf(t));
    var first := FirstOfMonth(t);
    var n := days[i];
    var dim := DaysInMonth(c.year, c.month);
    if n < first {
      var (py, pm) := MonthBefore(c.year, c.month);
      assert MonthAfter(py, pm) == (c.year, c.month);
      MonthAfterStart(py, pm);
      CivilInMonth(py, pm, n);
    } else if n < first + dim {
      CivilInMonth(c.year, c.month, n);
    } else {
      var (ny, nm) := MonthAfter(c.year, c.month);
      MonthAfterStart(c.year, c.month);
      CivilInMonth(ny, nm, n);
    }
  }

  /** `isToday`: in years 0..9999 two days format alike only when they are
      the same day, so exactly one cell, today's, is marked. */
  lemma TodayTestIsExact(cell: int, now: int)
    requires HasFourDigitYear(cell) && HasFourDigitYear(DayOf(now))
    ensures FormatDay(cell) == FormatDay(DayOf(now)) <==> cell == DayOf(now)
  {
    FormatDayInjective(cell, DayOf(now));
  }

  // ---------------------------------------------------------------------
  // Derived lists

  function DateIs(k: String): CalendarEvent -> bool {
    (e: CalendarEvent) => e.date == k
  }

  /** `getEventsForDate(k)`: the events dated `k`, in store order. */
  function EventsForDate(events: seq<CalendarEvent>, k: String): seq<CalendarEvent> {
    Filter(events, DateIs(k))
  }

  lemma EventsForDateExact(events: seq<CalendarEvent>, k: String)
    ensures forall e :: e in EventsForDate(events, k) <==> e in events && e.date == k
  {
    FilterMembership(events, DateIs(k));
  }

  /** `todayEvents`: the lookup at today's `YYYY-MM-DD` key. */
  function TodayEvents(events: seq<CalendarEvent>, now: int): seq<CalendarEvent> {
    EventsForDate(events, FormatDay(DayOf(now)))
  }

  lemma TodayEventsExact(events: seq<CalendarEvent>, now: int)
    ensures forall e :: e in TodayEvents(events, now) <==> e in events && e.date == FormatDay(DayOf(now))
  {
    EventsForDateExact(events, FormatDay(DayOf(now)));
  }

  /** The day of an event's date; only read for dates that parse. */
  function EventDay(e: CalendarEvent): int {
    ParseDay(e.date).UnwrapOr(0)
  }

  /** `new Date(event.date) >= new Date()`: the event's date parses and its
      UTC midnight is not before `now`. */
  function StartsFrom(now: int): CalendarEvent -> bool {
    (e: CalendarEvent) => ParseDay(e.date).Some? && ParseDay(e.date).value * MsPerDay >= now
  }

  /** `upcomingEvents`: the events from `now` on, stably sorted by date,
      at most five. */
  function Upcoming(events: seq<CalendarEvent>, now: int): seq<CalendarEvent> {
    Take(SortByKey(Filter(events, StartsFrom(now)), EventDay), 5)
  }

  lemma UpcomingFacts(events: seq<CalendarEvent>, now: int)
    ensures var r := Upcoming(events, now);
            var qualifying := Filter(events, StartsFrom(now));
            |r| == (if |qualifying| < 5 then |qualifying| else 5)
            && (forall i :: 0 <= i < |r| ==>
                  r[i] in events && ParseDay(r[i].date).Some? && ParseDay(r[i].date).value * MsPerDay >= now)
            && SortedBy(r, EventDay)
            && (forall k :: WithKey(r, EventDay, k) <= WithKey(Filter(events, StartsFrom(now)), EventDay, k))
  {
    var f := Filter(events, StartsFrom(now));
    SmallestFacts(f, EventDay, 5);
    FilterMembership(events, StartsFrom(now));
  }

  /** No qualifying event is left out while a later-dated one is shown. */
  lemma UpcomingKeepsEarliest(events: seq<CalendarEvent>, now: int, x: CalendarEvent, y: CalendarEvent)
    requires x in events && StartsFrom(now)(x)
    requires y in Upcoming(events, now) && EventDay(x) < EventDay(y)
    ensures x in Upcoming(events, now)
  {
    var f := Filter(events, StartsFrom(now));
    var s := SortByKey(f, EventDay);
    SortByKeyFacts(f, EventDay);
    var i :| 0 <= i < |events| && events[i] == x;
    assert x in f;
    assert x in multiset(s);
    PrefixOfSortedIsLeast(s, EventDay, 5, x, y);
  }

  /** An event dated today counts as upcoming only when `now` is exactly
      midnight; a later date always does, an earlier one never. */
  lemma UpcomingCutoff(e: CalendarEvent, now: int)
    requires ParseDay(e.date).Some?
    ensures var d := ParseDay(e.date).value;
            StartsFrom(now)(e) <==> d > DayOf(now) || (d == DayOf(now) && now % MsPerDay == 0)
  {
    var d := ParseDay(e.date).value;
    assert now == DayOf(now) * MsPerDay + now % MsPerDay;
    if d > DayOf(now) {
      assert d * MsPerDay >= (DayOf(now) + 1) * MsPerDay;
    } else if d < DayOf(now) {
      assert d * MsPerDay <= (DayOf(now) - 1) * MsPerDay;
    }
  }

  /** The month total's test: the date parses, and its month and year are
      those of `t`. */
  function DatedInMonthOf(t: int): CalendarEvent -> bool {
    (e: CalendarEvent) => ParseDay(e.date).Some? && InMonthOf(ParseDay(e.date).value, t)
  }

  /** "Total do Mês": how many events fall in the displayed month. */
  function MonthTotal(events: seq<CalendarEvent>, t: int): nat {
    |Filter(events, DatedInMonthOf(t))|
  }

  /** An event counts in the month total exactly when its day lies among the
      days of the displayed month; an unparseable date never counts. */
  lemma MonthTotalCountsMonthDays(events: seq<CalendarEvent>, t: int, e: CalendarEvent)
    ensures MonthTotal(events, t) <= |events|
    ensures var c := CivilOf(DayOf(t));
            DatedInMonthOf(t)(e) <==>
              (ParseDay(e.date).Some?
                    && MonthStart(c.year, c.month) <= ParseDay(e.date).value
                    && ParseDay(e.date).value < MonthStart(c.year, c.month) + DaysInMonth(c.year, c.month))
  {
    if ParseDay(e.date).Some? {
      var c := CivilOf(DayOf(t));
      CivilInMonth(c.year, c.month, ParseDay(e.date).value);
    }
  }

  // ---------------------------------------------------------------------
  // The event list

  /** `saveEvent`'s guard: a non-blank title, a date, a start and an end time. */
  predicate CanSave(f: EventForm) {
    !IsBlank(f.title) && f.date != [] && f.startTime != [] && f.endTime != []
  }

  /** The edit branch of `saveEvent`: the form's fields replace the event's,
      the id stays. */
  function ApplyForm(f: EventForm): CalendarEvent -> CalendarEvent {
    (e: CalendarEvent) => e.(title := f.title, description := Some(f.description), date := f.date,
            startTime := f.startTime, endTime := f.endTime, kind := f.kind,
            location := Some(f.location), attendees := Some(ParseCommaList(f.attendees)))
  }

  /** The create branch of `saveEvent`. */
  function NewEvent(id: String, f: EventForm): CalendarEvent {
    CalendarEvent(id, f.title, Some(f.description), f.date, f.startTime, f.endTime, f.kind,
                  Some(f.location), Some(ParseCommaList(f.attendees)))
  }

  /** The list `saveEvent` stores once its guard passes. */
  function SavedEvents(events: seq<CalendarEvent>, f: EventForm, editing: Option<CalendarEvent>, id: String)
    : seq<CalendarEvent>
  {
    if editing.Some? then MapByKey(events, EventId, editing.value.id, ApplyForm(f))
    else events + [NewEvent(id, f)]
  }

  /** Saving an edit rewrites the events with the edited id in place: each
      becomes the event the form would create, under its own id, since the
      form replaces every other field. Nothing else changes. Saving a new
      event appends exactly that event. */
  lemma SavedEventsFacts(events: seq<CalendarEvent>, f: EventForm, editing: Option<CalendarEvent>, id: String)
    ensures var r := SavedEvents(events, f, editing, id);
            if editing.Some? then
              |r| == |events|
              && (forall i :: 0 <= i < |events| && events[i].id == editing.value.id ==>
                    r[i] == NewEvent(events[i].id, f))
              && (forall i :: 0 <= i < |events| && events[i].id != editing.value.id ==> r[i] == events[i])
            else
              r[..|events|] == events && |r| == |events| + 1 && r[|events|] == NewEvent(id, f)
  {
    if editing.None? {
      assert (events + [NewEvent(id, f)])[..|events|] == events;
    }
  }

  /** `editEvent`: the dialog shows the event, absent fields as empty strings
      and the attendees joined with ", ". */
  function FormOf(e: CalendarEvent): EventForm {
    EventForm(e.title, e.description.UnwrapOr(""), e.date, e.startTime, e.endTime, e.kind,
              e.location.UnwrapOr(""), Join(e.attendees.UnwrapOr([]), ", "))
  }

  /** Opening an event and saving it untouched gives the event back, except
      that an absent description, location or attendee list becomes "", ""
      and []; this needs the attendee names to survive the ", " join, which
      they do when each is non-empty, trimmed and free of commas. */
  lemma EditThenSave(e: CalendarEvent)
    requires e.attendees.Some? ==> forall i :: 0 <= i < |e.attendees.value| ==> IsListItem(e.attendees.value[i])
    ensures ApplyForm(FormOf(e))(e)
         == e.(description := Some(e.description.UnwrapOr("")),
               location := Some(e.location.UnwrapOr("")),
               attendees := Some(e.attendees.UnwrapOr([])))
  {
    ParseJoinRoundTrip(e.attendees.UnwrapOr([]));
  }

  /** The page's state cells. */
  class CalendarPage {
    var events: seq<CalendarEvent>
    var form: EventForm
    var editing: Option<CalendarEvent>
    var dialogOpen: bool
    var selectedDate: Option<String>
    var currentDate: int

    /** The page opens on `now`'s month with the given sample events. */
    constructor(now: int, initial: seq<CalendarEvent>)
      ensures events == initial && form == EmptyForm && editing == None
      ensures !dialogOpen && selectedDate == None && currentDate == now
    {
      events := initial;
      form := EmptyForm;
      editing := None;
      dialogOpen := false;
      selectedDate := None;
      currentDate := now;
    }

    /** `navigateMonth`: one month forward or back with `setMonth`. */
    method NavigateMonth(next: bool)
      modifies this
      ensures currentDate == AddMonths(old(currentDate), if next then 1 else -1)
      ensures events == old(events) && form == old(form) && editing == old(editing)
      ensures dialogOpen == old(dialogOpen) && selectedDate == old(selectedDate)
    {
      currentDate := AddMonths(currentDate, if next then 1 else -1);
    }

    /** The "Hoje" button. */
    method GoToToday(now: int)
      modifies this
      ensures currentDate == now
      ensures events == old(events) && form == old(form) && editing == old(editing)
      ensures dialogOpen == old(dialogOpen) && selectedDate == old(selectedDate)
    {
      currentDate := now;
    }

    /** A click on a grid cell selects its `YYYY-MM-DD` key. */
    method SelectDate(k: String)
      modifies this
      ensures selectedDate == Some(k)
      ensures events == old(events) && form == old(form) && editing == old(editing)
      ensures dialogOpen == old(dialogOpen) && currentDate == old(currentDate)
    {
      selectedDate := Some(k);
    }

    /** "Novo Evento": a blank form dated the selected day, or today. */
    method OpenNew(now: int)
      modifies this
      ensures editing == None && dialogOpen
      ensures form == EmptyForm.(date :=
                if old(selectedDate).Some? && old(selectedDate).value != [] then old(selectedDate).value
                else FormatDay(DayOf(now)))
      ensures events == old(events) && selectedDate == old(selectedDate) && currentDate == old(currentDate)
    {
      editing := None;
      var date := if selectedDate.Some? && selectedDate.value != [] then selectedDate.value
                  else FormatDay(DayOf(now));
      form := EmptyForm.(date := date);
      dialogOpen := true;
    }

    /** "Cancelar": the dialog closes; the form and the edited event stay. */
    method CloseDialog()
      modifies this
      ensures !dialogOpen
      ensures events == old(events) && form == old(form) && editing == old(editing)
      ensures selectedDate == old(selectedDate) && currentDate == old(currentDate)
    {
      dialogOpen := false;
    }

    /** Typing in the dialog. */
    method SetForm(f: EventForm)
      modifies this
      ensures form == f
      ensures events == old(events) && editing == old(editing) && dialogOpen == old(dialogOpen)
      ensures selectedDate == old(selectedDate) && currentDate == old(currentDate)
    {
      form := f;
    }

    /** `saveEvent`; `newId` is the `Date.now().toString()` a new event gets. */
    method SaveEvent(newId: String)
      modifies this
      ensures if CanSave(old(form)) then
                events == SavedEvents(old(events), old(form), old(editing), newId)
                && form == EmptyForm && editing == None && !dialogOpen
              else
                events == old(events) && form == old(form) && editing == old(editing)
                && dialogOpen == old(dialogOpen)
      ensures selectedDate == old(selectedDate) && currentDate == old(currentDate)
    {
      if CanSave(form) {
        events := SavedEvents(events, form, editing, newId);
        form := EmptyForm;
        editing := None;
        dialogOpen := false;
      }
    }

    /** `editEvent`. */
    method EditEvent(e: CalendarEvent)
      modifies this
      ensures editing == Some(e) && form == FormOf(e) && dialogOpen
      ensures events == old(events) && selectedDate == old(selectedDate) && currentDate == old(currentDate)
    {
      editing := Some(e);
      form := FormOf(e);
      dialogOpen := true;
    }

    /** `deleteEvent`. */
    method DeleteEvent(id: String)
      modifies this
      ensures events == RemoveByKey(old(events), EventId, id)
      ensures form == old(form) && editing == old(editing) && dialogOpen == old(dialogOpen)
      ensures selectedDate == old(selectedDate) && currentDate == old(currentDate)
    {
      events := RemoveByKey(events, EventId, id);
    }
  }
}
