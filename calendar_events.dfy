/**
 * Selection of the running calendar event (ContentView.swift, getCurrentEvent).
 * The event store is not modelled: the events it returned for the selected
 * calendar are an input, with times as integers.  The selection drops all-day
 * events, sorts the rest by start time and answers the first one only when it
 * is running now.
 */
module CalendarEvents {
  import opened Wrappers

  datatype Event = Event(start: int, end: int, allDay: bool, title: Option<string>)

  predicate Running(e: Event, now: int) {
    e.start <= now && now <= e.end
  }

  /** `filter { !$0.isAllDay }` */
  function NonAllDay(evs: seq<Event>): (r: seq<Event>)
    ensures forall e :: e in r <==> e in evs && !e.allDay
    ensures forall e :: multiset(r)[e] == if e.allDay then 0 else multiset(evs)[e]
    ensures |r| <= |evs|
  {
    if evs == [] then []
    else
      assert evs == [evs[0]] + evs[1..];
      if evs[0].allDay then NonAllDay(evs[1..])
      else [evs[0]] + NonAllDay(evs[1..])
  }

  predicate SortedByStart(s: seq<Event>) {
    forall i, j :: 0 <= i < j < |s| ==> s[i].start <= s[j].start
  }

  /** Puts `e` in front of the first event that does not start earlier. */
  function InsertByStart(e: Event, s: seq<Event>): (r: seq<Event>)
    ensures |r| == |s| + 1
  {
    if s == [] || e.start <= s[0].start then [e] + s
    else [s[0]] + InsertByStart(e, s[1..])
  }

  /** Inserting into a sorted list keeps it sorted; the head is `e` or the
      old head, whichever starts first (`e` on a tie). */
  lemma {:induction false} InsertByStartSorted(e: Event, s: seq<Event>)
    requires SortedByStart(s)
    ensures SortedByStart(InsertByStart(e, s))
    ensures InsertByStart(e, s)[0] == if s == [] || e.start <= s[0].start then e else s[0]
  {
    if s != [] && s[0].start < e.start {
      var rest := InsertByStart(e, s[1..]);
      InsertByStartSorted(e, s[1..]);
      assert s[0].start <= rest[0].start;
      var r := [s[0]] + rest;
      forall i, j | 0 <= i < j < |r| ensures r[i].start <= r[j].start {
        if i > 0 {
          assert r[i] == rest[i - 1] && r[j] == rest[j - 1];
        } else if j > 1 {
          assert rest[0].start <= rest[j - 1].start;
        }
      }
    }
  }

  /** Inserting adds exactly `e`. */
  lemma {:induction false} InsertByStartAdds(e: Event, s: seq<Event>)
    ensures multiset(InsertByStart(e, s)) == multiset(s) + multiset{e}
  {
    if s != [] && s[0].start < e.start {
      InsertByStartAdds(e, s[1..]);
      assert s == [s[0]] + s[1..];
    }
  }

  /**
   * `sorted { $0.startDate < $1.startDate }`: an insertion sort.  Events that
   * start at the same time keep their order, as they do under the standard
   * library's sort.
   */
  function SortByStart(s: seq<Event>): (r: seq<Event>)
    ensures SortedByStart(r)
    ensures multiset(r) == multiset(s)
    ensures |r| == |s|
  {
    if s == [] then []
    else
      assert s == [s[0]] + s[1..];
      InsertByStartSorted(s[0], SortByStart(s[1..]));
      InsertByStartAdds(s[0], SortByStart(s[1..]));
      InsertByStart(s[0], SortByStart(s[1..]))
  }

  /**
   * getCurrentEvent: nothing when calendar access was refused; otherwise the
   * earliest-starting timed event, provided it is running now.
   */
  function CurrentEvent(accessGranted: bool, evs: seq<Event>, now: int): (r: Option<Event>)
    ensures r.Some? ==> accessGranted && r.value in evs && !r.value.allDay && Running(r.value, now)
    ensures r.Some? ==> forall e :: e in evs && !e.allDay ==> r.value.start <= e.start
  {
    if !accessGranted then None
    else
      var sorted := SortByStart(NonAllDay(evs));
      if |sorted| > 0 && Running(sorted[0], now) then
        assert sorted[0] in multiset(NonAllDay(evs));
        assert forall e :: e in NonAllDay(evs) ==> e in multiset(sorted);
        Some(sorted[0])
      else None
  }

  /** Reference definition: the first of the events with the smallest start. */
  function Earliest(s: seq<Event>): (r: Event)
    requires s != []
    ensures r in s
    ensures forall e :: e in s ==> r.start <= e.start
    ensures exists k :: 0 <= k < |s| && s[k] == r && forall j :: 0 <= j < k ==> s[j].start > r.start
  {
    if |s| == 1 then s[0]
    else
      var m := Earliest(s[1..]);
      assert forall e :: e in s ==> e == s[0] || e in s[1..];
      if s[0].start <= m.start then s[0] else m
  }

  /** The head of the sorted list is the first of the earliest events. */
  lemma {:induction false} SortedHeadIsEarliest(s: seq<Event>)
    requires s != []
    ensures SortByStart(s)[0] == Earliest(s)
  {
    if |s| > 1 {
      SortedHeadIsEarliest(s[1..]);
    }
    InsertByStartSorted(s[0], SortByStart(s[1..]));
  }

  /** getCurrentEvent examines the earliest timed event and nothing else: it
      answers that event exactly when it is running. */
  lemma CurrentEventIsEarliest(accessGranted: bool, evs: seq<Event>, now: int)
    ensures CurrentEvent(accessGranted, evs, now) ==
      if accessGranted && NonAllDay(evs) != [] && Running(Earliest(NonAllDay(evs)), now)
      then Some(Earliest(NonAllDay(evs)))
      else None
  {
    if NonAllDay(evs) != [] {
      SortedHeadIsEarliest(NonAllDay(evs));
    }
  }

  /** The store answers only events that have not ended before now (its query
      window starts now).  Under that condition the earliest-only rule loses
      nothing: an event is selected exactly when some timed event is running. */
  lemma CurrentEventComplete(evs: seq<Event>, now: int)
    requires forall e :: e in evs ==> now <= e.end
    ensures CurrentEvent(true, evs, now).Some? <==> exists e :: e in evs && !e.allDay && Running(e, now)
  {
    CurrentEventIsEarliest(true, evs, now);
    if e :| e in evs && !e.allDay && Running(e, now) {
      var m := Earliest(NonAllDay(evs));
      assert m.start <= e.start;
    }
  }

  /** Without that condition an event that started earlier and has already
      ended hides one that is running now. */
  lemma EndedEventHidesRunningOne()
    ensures var ended := Event(0, 10, false, Some("Retro"));
      var running := Event(20, 40, false, Some("Standup"));
      CurrentEvent(true, [ended, running], 30) == None
  {
  }

  /** All-day events are never selected, however early they start. */
  lemma AllDayEventIgnored(e: Event, now: int)
    requires Running(e, now) && !e.allDay
    ensures var allDay := Event(e.start - 1, e.end, true, None);
      CurrentEvent(true, [allDay, e], now) == Some(e)
  {
  }
}
