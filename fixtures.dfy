/** Cases on the three-day timetable of the repository's tests, 1 to 3 October 2021:
    `test_calculate_next_time` and `test_track_event` replayed, and two examples of
    the Zawaal split and the rollover. Instants are UTC minutes since 2021-10-01 00:00. By
    `NowAndNextOnly` a query for some events gives the same answer on the columns of
    those events as on the whole timetable, so each case uses the columns it asks. */
module Fixtures {
  import opened Wrappers
  import opened Labels
  import opened Timetables
  import opened PrayerLogic
  import opened Host
  import opened Trigger

  const ZuhrLabel: string := "Zuhr Begins"

  const SunriseColumn: seq<Entry> :=
    [Entry(SunriseLabel, 358), Entry(SunriseLabel, 1800), Entry(SunriseLabel, 3242)]
  const ZuhrColumn: seq<Entry> :=
    [Entry(ZuhrLabel, 715), Entry(ZuhrLabel, 2155), Entry(ZuhrLabel, 3594)]
  const MaghribColumn: seq<Entry> :=
    [Entry(MaghribLabel, 1061), Entry(MaghribLabel, 2499), Entry(MaghribLabel, 3936)]

  /** The Islamic dates of the three days, by day number. */
  const IslamicDates: map<int, IslamicDate> := map[
    0 := IslamicDate("1443", "Safar", "24"),
    1 := IslamicDate("1443", "Safar", "25"),
    2 := IslamicDate("1443", "Safar", "26")]

  function Table(es: seq<Entry>): Timetable
  {
    Timetable(es, IslamicDates, 3, 0, 2, 0)
  }

  /** On a sorted list the answer at `t` is (`now`, `next`) when `t` lies between them
      and every other occurrence of the asked events lies before `now` or after `next`. */
  lemma Answer(es: seq<Entry>, events: seq<string>, t: int, now: Entry, next: Entry)
    requires Sorted(es) && now in es && next in es && now.name in events && next.name in events
    requires now.at <= t < next.at
    requires forall e :: e in es && e.name in events ==> e == now || e == next || e.at < now.at || next.at < e.at
    ensures NowAndNext(Table(es), events, t) == Ok((now, next))
  {
    NextAfterIsEarliest(es, events, t, next);
    LatestIsLatest(es, events, t, now);
  }

  /** The answers the Zuhr column gives to the test queries. */
  lemma ZuhrAnswers()
    ensures NowAndNext(Table(ZuhrColumn), [ZuhrLabel], 2130) == Ok((Entry(ZuhrLabel, 715), Entry(ZuhrLabel, 2155)))
    ensures NowAndNext(Table(ZuhrColumn), [ZuhrLabel], 2100) == Ok((Entry(ZuhrLabel, 715), Entry(ZuhrLabel, 2155)))
    ensures NowAndNext(Table(ZuhrColumn), [ZuhrLabel], 2156) == Ok((Entry(ZuhrLabel, 2155), Entry(ZuhrLabel, 3594)))
  {
    Answer(ZuhrColumn, [ZuhrLabel], 2130, Entry(ZuhrLabel, 715), Entry(ZuhrLabel, 2155));
    Answer(ZuhrColumn, [ZuhrLabel], 2100, Entry(ZuhrLabel, 715), Entry(ZuhrLabel, 2155));
    Answer(ZuhrColumn, [ZuhrLabel], 2156, Entry(ZuhrLabel, 2155), Entry(ZuhrLabel, 3594));
  }

  /** The answers the Sunrise column gives to the test queries. */
  lemma SunriseAnswers()
    ensures NowAndNext(Table(SunriseColumn), [SunriseLabel], 358) == Ok((Entry(SunriseLabel, 358), Entry(SunriseLabel, 1800)))
    ensures NowAndNext(Table(SunriseColumn), [SunriseLabel], 1740) == Ok((Entry(SunriseLabel, 358), Entry(SunriseLabel, 1800)))
    ensures NowAndNext(Table(SunriseColumn), [SunriseLabel], 1770) == Ok((Entry(SunriseLabel, 358), Entry(SunriseLabel, 1800)))
    ensures NowAndNext(Table(SunriseColumn), [SunriseLabel], 1800) == Ok((Entry(SunriseLabel, 1800), Entry(SunriseLabel, 3242)))
    ensures NowAndNext(Table(SunriseColumn), [SunriseLabel], 1805) == Ok((Entry(SunriseLabel, 1800), Entry(SunriseLabel, 3242)))
  {
    Answer(SunriseColumn, [SunriseLabel], 358, Entry(SunriseLabel, 358), Entry(SunriseLabel, 1800));
    Answer(SunriseColumn, [SunriseLabel], 1740, Entry(SunriseLabel, 358), Entry(SunriseLabel, 1800));
    Answer(SunriseColumn, [SunriseLabel], 1770, Entry(SunriseLabel, 358), Entry(SunriseLabel, 1800));
    Answer(SunriseColumn, [SunriseLabel], 1800, Entry(SunriseLabel, 1800), Entry(SunriseLabel, 3242));
    Answer(SunriseColumn, [SunriseLabel], 1805, Entry(SunriseLabel, 1800), Entry(SunriseLabel, 3242));
  }

  /** `test_calculate_next_time`: the fire instants of Zuhr and Sunrise listeners with
      offsets of 0, +30 and -30 minutes and of plus and minus one day. */
  method CalculateNextTimeExamples() returns (times: seq<Result<int>>)
    ensures times == [Ok(2155), Ok(2185), Ok(2125), Ok(3564), Ok(3240), Ok(1802)]
  {
    var job := TriggerData(Domain, ZuhrLabel, 0, ZuhrLabel, None);
    var zuhr := Some(Table(ZuhrColumn));
    var sunrise := Some(Table(SunriseColumn));
    ZuhrAnswers();
    SunriseAnswers();
    var l0 := new Listener(0, job, ZuhrLabel, 0);
    var l1 := new Listener(1, job, ZuhrLabel, 30);
    var l2 := new Listener(2, job, ZuhrLabel, -30);
    var l3 := new Listener(3, job, SunriseLabel, 1440);
    var l4 := new Listener(4, job, SunriseLabel, -1440);
    times := [l0.CalculateNextTime(zuhr, 2130), l1.CalculateNextTime(zuhr, 2130),
              l2.CalculateNextTime(zuhr, 2100), l2.CalculateNextTime(zuhr, 2126),
              l3.CalculateNextTime(sunrise, 1798), l4.CalculateNextTime(sunrise, 360)];
  }

  /** The first day's Sunrise, Zuhr and Maghrib. */
  const FirstDay: seq<Entry> :=
    [Entry(SunriseLabel, 358), Entry(ZuhrLabel, 715), Entry(MaghribLabel, 1061)]

  /** With a ten-minute window, Sunrise at 05:58 and Zuhr at 11:55, the state is Duha
      until 11:45, when the entity wakes up, and Zawaal from 11:45 until 11:55; at
      10:55 it is still Duha. */
  lemma ZawaalExample(rewrite: string -> string)
    ensures PrayerState(Table(FirstDay), [SunriseLabel, ZuhrLabel, MaghribLabel], 650, 10, rewrite)
      == Ok(Decision(DuhaLabel, 705))
    ensures PrayerState(Table(FirstDay), [SunriseLabel, ZuhrLabel, MaghribLabel], 655, 10, rewrite)
      == Ok(Decision(DuhaLabel, 705))
    ensures PrayerState(Table(FirstDay), [SunriseLabel, ZuhrLabel, MaghribLabel], 704, 10, rewrite)
      == Ok(Decision(DuhaLabel, 705))
    ensures PrayerState(Table(FirstDay), [SunriseLabel, ZuhrLabel, MaghribLabel], 705, 10, rewrite)
      == Ok(Decision(ZawaalLabel, 715))
  {
    var times := [SunriseLabel, ZuhrLabel, MaghribLabel];
    Answer(FirstDay, times, 650, Entry(SunriseLabel, 358), Entry(ZuhrLabel, 715));
    Answer(FirstDay, times, 655, Entry(SunriseLabel, 358), Entry(ZuhrLabel, 715));
    Answer(FirstDay, times, 704, Entry(SunriseLabel, 358), Entry(ZuhrLabel, 715));
    Answer(FirstDay, times, 705, Entry(SunriseLabel, 358), Entry(ZuhrLabel, 715));
  }

  /** On 2 October, Maghrib at 17:39: under the at-Maghrib strategy the reported day
      moves from 2 to 3 October at Maghrib, under the at-midnight strategy it stays
      2 October until midnight. */
  lemma RolloverExample()
    ensures Rollover(AtMaghrib, Table(MaghribColumn), 2400) == Ok((2499, 1))
    ensures Rollover(AtMaghrib, Table(MaghribColumn), 2499) == Ok((3936, 2))
    ensures Rollover(AtMidnight, Table(MaghribColumn), 2400) == Ok((2880, 1))
    ensures Rollover(AtMidnight, Table(MaghribColumn), 2499) == Ok((2880, 1))
    ensures IslamicDateOn(Table(MaghribColumn), 1) == Ok(IslamicDate("1443", "Safar", "25"))
    ensures IslamicDateOn(Table(MaghribColumn), 2) == Ok(IslamicDate("1443", "Safar", "26"))
  {
    Answer(MaghribColumn, [MaghribLabel], 2400, Entry(MaghribLabel, 1061), Entry(MaghribLabel, 2499));
    Answer(MaghribColumn, [MaghribLabel], 2499, Entry(MaghribLabel, 2499), Entry(MaghribLabel, 3936));
  }

  /** A time change to `now` as the host delivers it to one listener: its wake-up, if
      pending and due, fires and the listener handles the event. */
  method FireIfDue(l: Listener, cache: Option<Timetable>, now: int, sched: Scheduler)
    requires sched.Valid()
    modifies l`unsub, l`runs, sched
    ensures sched.Valid()
    ensures var h := old(l.unsub);
      if h.Some? && h.value in old(sched.pending) && old(sched.pending)[h.value].at <= now then
        match l.CalculateNextTime(cache, now)
        case Ok(t) =>
          l.runs == old(l.runs) + [l.job] && l.unsub == Some(old(sched.issued)) &&
          sched.issued == old(sched.issued) + 1 &&
          sched.pending == (old(sched.pending) - {h.value})[old(sched.issued) := Wakeup(t, ListenerEvent(l.id))]
        case Err(_) =>
          l.runs == old(l.runs) && l.unsub == None &&
          sched.pending == old(sched.pending) - {h.value} && sched.issued == old(sched.issued)
      else
        l.runs == old(l.runs) && l.unsub == h &&
        sched.pending == old(sched.pending) && sched.issued == old(sched.issued)
  {
    if l.unsub.Some? && l.unsub.value in sched.pending && sched.pending[l.unsub.value].at <= now {
      var _ := sched.Fire(l.unsub.value);
      var _ := l.HandleEvent(cache, now, sched);
    }
  }

  /** The two listeners of `test_track_event`: on Sunrise, the second 30 minutes early. */
  ghost predicate TrackEventSetup(listener: Listener, off: Listener, cache: Option<Timetable>)
  {
    listener != off && cache == Some(Table(SunriseColumn)) &&
    listener.id == 0 && listener.event == SunriseLabel && listener.offset == 0 &&
    off.id == 1 && off.event == SunriseLabel && off.offset == -30
  }

  /** What the test observes: both cancel handles, both run counts and the wake-ups. */
  ghost function Progress(listener: Listener, off: Listener, sched: Scheduler)
    : (Option<Handle>, Option<Handle>, int, int, map<Handle, Wakeup>, nat)
    reads listener, off, sched
  {
    (listener.unsub, off.unsub, |listener.runs|, |off.runs|, sched.pending, sched.issued)
  }

  /** At 05:00 both attach: the wake-ups are at 06:00 and 05:30. */
  method AttachAt1740(listener: Listener, off: Listener, cache: Option<Timetable>, sched: Scheduler)
    requires TrackEventSetup(listener, off, cache) && sched.Valid()
    requires Progress(listener, off, sched) == (None, None, 0, 0, map[], 0)
    modifies listener`unsub, off`unsub, sched
    ensures sched.Valid()
    ensures Progress(listener, off, sched) ==
      (Some(0), Some(1), 0, 0, map[0 := Wakeup(1800, ListenerEvent(0)), 1 := Wakeup(1770, ListenerEvent(1))], 2)
  {
    SunriseAnswers();
    var _ := listener.Attach(cache, 1740, sched);
    var _ := off.Attach(cache, 1740, sched);
  }

  /** At 05:25 nothing is due. */
  method TimeChangeAt1765(listener: Listener, off: Listener, cache: Option<Timetable>, sched: Scheduler)
    requires TrackEventSetup(listener, off, cache) && sched.Valid()
    requires Progress(listener, off, sched) ==
      (Some(0), Some(1), 0, 0, map[0 := Wakeup(1800, ListenerEvent(0)), 1 := Wakeup(1770, ListenerEvent(1))], 2)
    modifies listener`unsub, listener`runs, off`unsub, off`runs, sched
    ensures sched.Valid()
    ensures Progress(listener, off, sched) ==
      (Some(0), Some(1), 0, 0, map[0 := Wakeup(1800, ListenerEvent(0)), 1 := Wakeup(1770, ListenerEvent(1))], 2)
  {
    FireIfDue(listener, cache, 1765, sched);
    FireIfDue(off, cache, 1765, sched);
  }

  /** At 05:35 the early listener runs and re-arms for 05:32 on 3 October. */
  method TimeChangeAt1775(listener: Listener, off: Listener, cache: Option<Timetable>, sched: Scheduler)
    requires TrackEventSetup(listener, off, cache) && sched.Valid()
    requires Progress(listener, off, sched) ==
      (Some(0), Some(1), 0, 0, map[0 := Wakeup(1800, ListenerEvent(0)), 1 := Wakeup(1770, ListenerEvent(1))], 2)
    modifies listener`unsub, listener`runs, off`unsub, off`runs, sched
    ensures sched.Valid()
    ensures Progress(listener, off, sched) ==
      (Some(0), Some(2), 0, 1, map[0 := Wakeup(1800, ListenerEvent(0)), 2 := Wakeup(3212, ListenerEvent(1))], 3)
  {
    SunriseAnswers();
    assert off.CalculateNextTime(cache, 1775) == Ok(3212);
    FireIfDue(listener, cache, 1775, sched);
    FireIfDue(off, cache, 1775, sched);
    assert map[0 := Wakeup(1800, ListenerEvent(0)), 1 := Wakeup(1770, ListenerEvent(1))] - {1} == map[0 := Wakeup(1800, ListenerEvent(0))];
  }

  /** At 06:00 the plain listener runs and re-arms for 06:02 on 3 October. */
  method TimeChangeAt1800(listener: Listener, off: Listener, cache: Option<Timetable>, sched: Scheduler)
    requires TrackEventSetup(listener, off, cache) && sched.Valid()
    requires Progress(listener, off, sched) ==
      (Some(0), Some(2), 0, 1, map[0 := Wakeup(1800, ListenerEvent(0)), 2 := Wakeup(3212, ListenerEvent(1))], 3)
    modifies listener`unsub, listener`runs, off`unsub, off`runs, sched
    ensures sched.Valid()
    ensures Progress(listener, off, sched) ==
      (Some(3), Some(2), 1, 1, map[2 := Wakeup(3212, ListenerEvent(1)), 3 := Wakeup(3242, ListenerEvent(0))], 4)
  {
    SunriseAnswers();
    assert listener.CalculateNextTime(cache, 1800) == Ok(3242);
    FireIfDue(listener, cache, 1800, sched);
    FireIfDue(off, cache, 1800, sched);
    assert map[0 := Wakeup(1800, ListenerEvent(0)), 2 := Wakeup(3212, ListenerEvent(1))] - {0} == map[2 := Wakeup(3212, ListenerEvent(1))];
  }

  /** The early listener detaches; at 05:50 on 3 October nothing is due; the other
      detaches; at 07:05 nothing is left to fire. */
  method DetachBoth(listener: Listener, off: Listener, cache: Option<Timetable>, sched: Scheduler)
    requires TrackEventSetup(listener, off, cache) && sched.Valid()
    requires Progress(listener, off, sched) ==
      (Some(3), Some(2), 1, 1, map[2 := Wakeup(3212, ListenerEvent(1)), 3 := Wakeup(3242, ListenerEvent(0))], 4)
    modifies listener`unsub, listener`runs, off`unsub, off`runs, sched
    ensures sched.Valid()
    ensures Progress(listener, off, sched) == (None, None, 1, 1, map[], 4)
  {
    var _ := off.Detach(sched);
    FireIfDue(listener, cache, 3230, sched);
    FireIfDue(off, cache, 3230, sched);
    var _ := listener.Detach(sched);
    FireIfDue(listener, cache, 3305, sched);
    FireIfDue(off, cache, 3305, sched);
  }

  /** `test_track_event`: a Sunrise listener and one 30 minutes early, attached at 05:00
      on 2 October, fire once each by 06:00; after both detach nothing is pending. */
  method TrackEventExample() returns (runs: nat, offsetRuns: nat, left: map<Handle, Wakeup>)
    ensures runs == 1 && offsetRuns == 1 && left == map[]
  {
    var cache := Some(Table(SunriseColumn));
    var sched := new Scheduler();
    var listener := new Listener(0, TriggerData(Domain, SunriseLabel, 0, SunriseLabel, None), SunriseLabel, 0);
    var off := new Listener(1, TriggerData(Domain, SunriseLabel, -30, SunriseLabel + " with offset", None), SunriseLabel, -30);
    AttachAt1740(listener, off, cache, sched);
    TimeChangeAt1765(listener, off, cache, sched);
    TimeChangeAt1775(listener, off, cache, sched);
    TimeChangeAt1800(listener, off, cache, sched);
    DetachBoth(listener, off, cache, sched);
    runs, offsetRuns, left := |listener.runs|, |off.runs|, sched.pending;
  }
}
