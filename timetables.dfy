/** A stand-in for the timetable library's query functions. The library computes the
    current and next occurrences from per-day rows; here a timetable is already the
    list of every occurrence it covers, in time order, and the queries search it. */
module Timetables {
  import opened Wrappers

  /** One occurrence of a named event at an instant. */
  datatype Entry = Entry(name: string, at: int)

  datatype IslamicDate = IslamicDate(year: string, month: string, day: string)

  datatype Timetable = Timetable(
    entries: seq<Entry>,             // every occurrence the timetable covers
    islamic: map<int, IslamicDate>,  // Gregorian day number -> Islamic date
    numDates: nat,
    minDate: int,
    maxDate: int,
    lastUpdated: int)

  /** The occurrences appear in time order: each is no later than the one after it. */
  predicate Sorted(es: seq<Entry>)
  {
    |es| <= 1 || (es[0].at <= es[1].at && Sorted(es[1..]))
  }

  /** The first occurrence of a sorted list is the earliest. */
  lemma {:induction false} SortedHeadLeast(es: seq<Entry>, e: Entry)
    requires Sorted(es) && e in es
    ensures es[0].at <= e.at
  {
    if e != es[0] {
      assert e in es[1..];
      SortedHeadLeast(es[1..], e);
    }
  }

  /** The last occurrence of a sorted list is the latest. */
  lemma {:induction false} SortedLastGreatest(es: seq<Entry>, e: Entry)
    requires Sorted(es) && e in es
    ensures e.at <= es[|es| - 1].at
  {
    if |es| > 1 {
      var rest := es[1..];
      assert rest[|rest| - 1] == es[|es| - 1];
      if e == es[0] {
        SortedHeadLeast(rest, rest[|rest| - 1]);
      } else {
        assert e in rest;
        SortedLastGreatest(rest, e);
      }
    }
  }

  /** Dropping the last occurrence keeps a list sorted. */
  lemma {:induction false} SortedInit(es: seq<Entry>)
    requires Sorted(es) && es != []
    ensures Sorted(es[..|es| - 1])
  {
    if |es| > 2 {
      var init := es[..|es| - 1];
      SortedInit(es[1..]);
      assert init[1..] == es[1..][..|es| - 2];
    }
  }

  predicate Valid(tt: Timetable)
  {
    Sorted(tt.entries)
  }

  /** The first occurrence of one of `events` strictly after `t`. */
  function NextAfter(es: seq<Entry>, events: seq<string>, t: int): (r: Option<Entry>)
    ensures r.Some? ==> r.value in es && r.value.name in events && t < r.value.at
  {
    if es == [] then None
    else if es[0].name in events && t < es[0].at then Some(es[0])
    else NextAfter(es[1..], events, t)
  }

  /** The last occurrence of one of `events` at or before `t`. */
  function LatestAtOrBefore(es: seq<Entry>, events: seq<string>, t: int): (r: Option<Entry>)
    ensures r.Some? ==> r.value in es && r.value.name in events && r.value.at <= t
  {
    if es == [] then None
    else if es[|es| - 1].name in events && es[|es| - 1].at <= t then Some(es[|es| - 1])
    else LatestAtOrBefore(es[..|es| - 1], events, t)
  }

  /** The query `get_now_and_next(tt, events, t)`: the occurrence in effect at `t`
      and the one after it, or an error when either is outside the timetable. */
  function NowAndNext(tt: Timetable, events: seq<string>, t: int): (r: Result<(Entry, Entry)>)
    ensures r.Ok? ==> r.value.0 in tt.entries && r.value.1 in tt.entries
    ensures r.Ok? ==> r.value.0.name in events && r.value.1.name in events
    ensures r.Ok? ==> r.value.0.at <= t < r.value.1.at
    ensures r.Err? ==> r.error == EventNotFound
  {
    match (LatestAtOrBefore(tt.entries, events, t), NextAfter(tt.entries, events, t))
    case (Some(now), Some(next)) => Ok((now, next))
    case _ => Err(EventNotFound)
  }

  /** The instant of the next occurrence of the single event `name` after `t`, as
      `get_now_and_next(tt, [name], t)[1][1]` gives it. */
  function NextOccurrence(tt: Timetable, name: string, t: int): (r: Result<int>)
    ensures r.Ok? ==> t < r.value && Entry(name, r.value) in tt.entries
    ensures r.Err? ==> r.error == EventNotFound
  {
    match NowAndNext(tt, [name], t)
    case Ok(p) => Ok(p.1.at)
    case Err(e) => Err(e)
  }

  /** The query `get_islamic_date(tt, date)`. */
  function IslamicDateOn(tt: Timetable, date: int): (r: Result<IslamicDate>)
    ensures r.Ok? <==> date in tt.islamic
    ensures r.Ok? ==> r.value == tt.islamic[date]
    ensures r.Err? ==> r.error == DateNotFound
  {
    if date in tt.islamic then Ok(tt.islamic[date]) else Err(DateNotFound)
  }

  /** There is no next occurrence exactly when every occurrence of `events` is at or
      before `t`. */
  lemma {:induction false} NextAfterNoneIff(es: seq<Entry>, events: seq<string>, t: int)
    ensures NextAfter(es, events, t).None? <==> forall e :: e in es && e.name in events ==> e.at <= t
  {
    if es != [] {
      NextAfterNoneIff(es[1..], events, t);
      assert forall e :: e in es <==> e == es[0] || e in es[1..];
    }
  }

  /** There is no current occurrence exactly when every occurrence of `events` is
      after `t`. */
  lemma {:induction false} LatestNoneIff(es: seq<Entry>, events: seq<string>, t: int)
    ensures LatestAtOrBefore(es, events, t).None? <==> forall e :: e in es && e.name in events ==> t < e.at
  {
    if es != [] {
      var init := es[..|es| - 1];
      LatestNoneIff(init, events, t);
      assert es == init + [es[|es| - 1]];
      assert forall e :: e in es <==> e == es[|es| - 1] || e in init;
    }
  }

  /** `get_now_and_next` answers exactly when some occurrence of `events` is at or
      before `t` and some occurrence is after it. */
  lemma NowAndNextOkIff(tt: Timetable, events: seq<string>, t: int)
    ensures NowAndNext(tt, events, t).Ok? <==>
      (exists e :: e in tt.entries && e.name in events && e.at <= t) &&
      (exists e :: e in tt.entries && e.name in events && t < e.at)
  {
    NextAfterNoneIff(tt.entries, events, t);
    LatestNoneIff(tt.entries, events, t);
  }

  /** In a sorted timetable the next occurrence is the earliest one after `t`. */
  lemma {:induction false} NextAfterIsEarliest(es: seq<Entry>, events: seq<string>, t: int, e: Entry)
    requires Sorted(es)
    requires e in es && e.name in events && t < e.at
    ensures NextAfter(es, events, t).Some? && NextAfter(es, events, t).value.at <= e.at
  {
    if es[0] == e {
    } else if es[0].name in events && t < es[0].at {
      SortedHeadLeast(es, e);
    } else {
      assert e in es[1..];
      NextAfterIsEarliest(es[1..], events, t, e);
    }
  }

  /** In a sorted timetable the current occurrence is the latest one at or before `t`. */
  lemma {:induction false} LatestIsLatest(es: seq<Entry>, events: seq<string>, t: int, e: Entry)
    requires Sorted(es)
    requires e in es && e.name in events && e.at <= t
    ensures LatestAtOrBefore(es, events, t).Some? && e.at <= LatestAtOrBefore(es, events, t).value.at
  {
    var last := es[|es| - 1];
    if last == e {
    } else if last.name in events && last.at <= t {
      SortedLastGreatest(es, e);
    } else {
      var init := es[..|es| - 1];
      SortedInit(es);
      assert es == init + [last];
      assert e in init;
      LatestIsLatest(init, events, t, e);
    }
  }

  /** The next occurrence does not move while the query point stays before it: the
      answer changes exactly when the query point reaches that occurrence. */
  lemma {:induction false} NextAfterStable(es: seq<Entry>, events: seq<string>, t1: int, t2: int)
    requires t1 <= t2
    requires NextAfter(es, events, t1).Some? && t2 < NextAfter(es, events, t1).value.at
    ensures NextAfter(es, events, t2) == NextAfter(es, events, t1)
  {
    if !(es[0].name in events && t1 < es[0].at) {
      NextAfterStable(es[1..], events, t1, t2);
    }
  }

  /** The current occurrence does not move while no occurrence of `events` falls in (t1, t2]. */
  lemma {:induction false} LatestUnchanged(es: seq<Entry>, events: seq<string>, t1: int, t2: int)
    requires t1 <= t2
    requires forall e :: e in es && e.name in events ==> !(t1 < e.at <= t2)
    ensures LatestAtOrBefore(es, events, t2) == LatestAtOrBefore(es, events, t1)
  {
    if es != [] {
      var last := es[|es| - 1];
      var init := es[..|es| - 1];
      assert last in es;
      if !(last.name in events && last.at <= t1) {
        assert forall e :: e in init ==> e in es;
        LatestUnchanged(init, events, t1, t2);
      }
    }
  }

  /** In a sorted timetable the answer to `get_now_and_next` is the same at every
      instant from `t1` up to, but excluding, the next occurrence it reports. */
  lemma NowAndNextStable(tt: Timetable, events: seq<string>, t1: int, t2: int)
    requires Valid(tt)
    requires NowAndNext(tt, events, t1).Ok?
    requires t1 <= t2 < NowAndNext(tt, events, t1).value.1.at
    ensures NowAndNext(tt, events, t2) == NowAndNext(tt, events, t1)
  {
    var es := tt.entries;
    var next := NextAfter(es, events, t1);
    NextAfterStable(es, events, t1, t2);
    forall e | e in es && e.name in events && t1 < e.at
      ensures t2 < e.at
    {
      NextAfterIsEarliest(es, events, t1, e);
    }
    LatestUnchanged(es, events, t1, t2);
  }

  /** In a sorted timetable the next occurrence of one event is the same from `t1` up
      to, but excluding, that occurrence. */
  lemma NextOccurrenceStable(tt: Timetable, name: string, t1: int, t2: int)
    requires Valid(tt)
    requires NextOccurrence(tt, name, t1).Ok?
    requires t1 <= t2 < NextOccurrence(tt, name, t1).value
    ensures NextOccurrence(tt, name, t2) == NextOccurrence(tt, name, t1)
  {
    NowAndNextStable(tt, [name], t1, t2);
  }

  /** The occurrences of `events` alone, in their order. */
  function Only(es: seq<Entry>, events: seq<string>): seq<Entry>
  {
    if es == [] then []
    else if es[0].name in events then [es[0]] + Only(es[1..], events)
    else Only(es[1..], events)
  }

  /** The filtered list holds exactly the occurrences of the asked events. */
  lemma {:induction false} OnlyMembers(es: seq<Entry>, events: seq<string>)
    ensures forall e :: e in Only(es, events) <==> e in es && e.name in events
  {
    if es != [] {
      OnlyMembers(es[1..], events);
      assert forall e :: e in es <==> e == es[0] || e in es[1..];
    }
  }

  /** Keeping only the asked events' occurrences and appending one occurrence
      commute. */
  lemma {:induction false} OnlySnoc(es: seq<Entry>, x: Entry, events: seq<string>)
    ensures Only(es + [x], events) == Only(es, events) + (if x.name in events then [x] else [])
  {
    if es == [] {
      assert es + [x] == [x];
    } else {
      assert (es + [x])[1..] == es[1..] + [x];
      OnlySnoc(es[1..], x, events);
    }
  }

  /** The next occurrence depends only on the occurrences of the asked events. */
  lemma {:induction false} NextAfterOnly(es: seq<Entry>, events: seq<string>, t: int)
    ensures NextAfter(es, events, t) == NextAfter(Only(es, events), events, t)
  {
    if es != [] {
      NextAfterOnly(es[1..], events, t);
      if es[0].name in events {
        assert ([es[0]] + Only(es[1..], events))[1..] == Only(es[1..], events);
      }
    }
  }

  /** The current occurrence depends only on the occurrences of the asked events. */
  lemma {:induction false} LatestOnly(es: seq<Entry>, events: seq<string>, t: int)
    ensures LatestAtOrBefore(es, events, t) == LatestAtOrBefore(Only(es, events), events, t)
  {
    if es != [] {
      var init := es[..|es| - 1];
      var last := es[|es| - 1];
      assert es == init + [last];
      OnlySnoc(init, last, events);
      LatestOnly(init, events, t);
      if last.name in events {
        var o := Only(init, events) + [last];
        assert Only(es, events) == o;
        assert o[|o| - 1] == last && o[..|o| - 1] == Only(init, events);
      } else {
        assert Only(es, events) == Only(init, events);
      }
    }
  }

  /** `get_now_and_next` gives the same answer on the timetable that holds only the
      asked events' occurrences: occurrences of other events never affect it. */
  lemma NowAndNextOnly(tt: Timetable, events: seq<string>, t: int)
    ensures NowAndNext(tt, events, t) == NowAndNext(tt.(entries := Only(tt.entries, events)), events, t)
  {
    NextAfterOnly(tt.entries, events, t);
    LatestOnly(tt.entries, events, t);
  }
}
