/** The dashboard's mini calendar: today's events and the next few events of
    a fixed event list, compared by their `YYYY-MM-DD` strings. */
module MiniCalendar {
  import opened Wrappers
  import opened Seqs
  import opened Text
  import opened Dates

  /** A widget event; `kind` is the raw type string. */
  datatype Event = Event(date: String, title: String, time: String, kind: String)

  function DateIs(k: String): Event -> bool {
    (e: Event) => e.date == k
  }

  function DateAfter(k: String): Event -> bool {
    (e: Event) => Less(k, e.date)
  }

  /** `todayString`: the UTC date of `now`. */
  function TodayString(now: int): String {
    FormatDay(DayOf(now))
  }

  /** `todayEvents`. */
  function TodayEvents(events: seq<Event>, now: int): seq<Event> {
    Filter(events, DateIs(TodayString(now)))
  }

  /** `upcomingEvents`: the first three events whose date string sorts after
      today's, in list order; there is no sorting. */
  function UpcomingEvents(events: seq<Event>, now: int): seq<Event> {
    Take(Filter(events, DateAfter(TodayString(now))), 3)
  }

  /** Today's list holds exactly the events dated today. The upcoming list
      holds three events, or all of them when fewer are dated after today,
      all dated after today, and is the start of
      the list of such events in their original order; so no event is in
      both lists. */
  lemma ListsFacts(events: seq<Event>, now: int)
    ensures forall e :: e in TodayEvents(events, now) <==> e in events && e.date == TodayString(now)
    ensures var after := Filter(events, DateAfter(TodayString(now)));
            |UpcomingEvents(events, now)| == (if |after| < 3 then |after| else 3)
    ensures UpcomingEvents(events, now) <= Filter(events, DateAfter(TodayString(now)))
    ensures forall e :: e in UpcomingEvents(events, now) ==> e in events && Less(TodayString(now), e.date)
    ensures forall e :: !(e in TodayEvents(events, now) && e in UpcomingEvents(events, now))
  {
    var k := TodayString(now);
    FilterMembership(events, DateIs(k));
    FilterMembership(events, DateAfter(k));
    forall e | e in UpcomingEvents(events, now) ensures e in events && Less(k, e.date) {
      var i :| 0 <= i < |UpcomingEvents(events, now)| && UpcomingEvents(events, now)[i] == e;
      assert e in Filter(events, DateAfter(k));
    }
    NotLessSelf(k);
  }

  /** For dates written `YYYY-MM-DD`, the string comparison is the
      chronological one: an event is upcoming exactly when its day is after
      today. */
  lemma UpcomingIsChronological(e: Event, now: int)
    requires HasFourDigitYear(DayOf(now)) && ParseDay(e.date).Some?
    ensures DateAfter(TodayString(now))(e) <==> ParseDay(e.date).value > DayOf(now)
  {
    FormatParseRoundTrip(DayOf(now));
    IsoOrderIsChronological(TodayString(now), e.date);
  }

  datatype Tone = Blue | Green | Red | Gray

  /** `getEventTypeColor`: gray for any type other than the three known. */
  function EventTypeColor(kind: String): (c: Tone)
    ensures c == Gray <==> kind != "meeting" && kind != "personal" && kind != "deadline"
  {
    if kind == "meeting" then Blue
    else if kind == "personal" then Green
    else if kind == "deadline" then Red
    else Gray
  }

  /** The type badge's text: anything but a meeting or a personal event reads
      "Prazo". */
  function TypeLabel(kind: String): (s: String)
    ensures s == "Prazo" <==> kind != "meeting" && kind != "personal"
  {
    if kind == "meeting" then "Reunião" else if kind == "personal" then "Pessoal" else "Prazo"
  }
}
