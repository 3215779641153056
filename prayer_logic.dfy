/** The pure decisions of the integration entity: which events are tracked, how the
    Islamic-date option is read, which state is reported, and when the entity next
    has to wake up. */
module PrayerLogic {
  import opened Wrappers
  import opened Instants
  import opened Labels
  import opened Timetables

  datatype IslamicDateStrategy = AtMidnight | AtMaghrib

  /** The boolean option "Islamic date at Maghrib" read as a rollover strategy. */
  function StrategyFor(islamicDateAtMaghrib: bool): (s: IslamicDateStrategy)
    ensures s == AtMaghrib <==> islamicDateAtMaghrib
    ensures s == AtMidnight <==> !islamicDateAtMaghrib
  {
    if islamicDateAtMaghrib then AtMaghrib else AtMidnight
  }

  /** The tracked event list: the library's default list, with every "Asr Mithl 1"
      replaced by "Asr Mithl 2" when the second Asr method is chosen. */
  function TrackedTimes(defaults: seq<string>, useAsrMithl2: bool): (r: seq<string>)
    ensures |r| == |defaults|
    ensures forall i :: 0 <= i < |r| ==>
      r[i] == (if useAsrMithl2 && defaults[i] == AsrMithl1Label then AsrMithl2Label else defaults[i])
  {
    if defaults == [] then []
    else
      [if useAsrMithl2 && defaults[0] == AsrMithl1Label then AsrMithl2Label else defaults[0]]
      + TrackedTimes(defaults[1..], useAsrMithl2)
  }

  /** With the second Asr method no "Asr Mithl 1" is tracked, "Asr Mithl 2" is tracked
      exactly when either Asr label was a default, and every other event is tracked
      exactly when it was a default. Without it the default list is kept. */
  lemma TrackedTimesMembership(defaults: seq<string>, useAsrMithl2: bool, x: string)
    ensures !useAsrMithl2 ==> TrackedTimes(defaults, useAsrMithl2) == defaults
    ensures useAsrMithl2 ==> AsrMithl1Label !in TrackedTimes(defaults, useAsrMithl2)
    ensures useAsrMithl2 ==>
      (AsrMithl2Label in TrackedTimes(defaults, useAsrMithl2) <==>
       AsrMithl1Label in defaults || AsrMithl2Label in defaults)
    ensures x != AsrMithl1Label && x != AsrMithl2Label ==>
      (x in TrackedTimes(defaults, useAsrMithl2) <==> x in defaults)
  {
    var r := TrackedTimes(defaults, useAsrMithl2);
    if AsrMithl1Label in defaults {
      var i :| 0 <= i < |defaults| && defaults[i] == AsrMithl1Label;
      assert useAsrMithl2 ==> r[i] == AsrMithl2Label;
    }
    if x in defaults {
      var i :| 0 <= i < |defaults| && defaults[i] == x;
      assert x != AsrMithl1Label ==> r[i] == x;
    }
  }

  /** The state and the next wake-up instant reported for a raw answer
      (current, next) at instant `dt`. */
  datatype Decision = Decision(state: string, next: int)

  /** The Sunrise period is split: before `next - zawaalDelta` it is "Duha" and the
      entity wakes up at that cut-off; from the cut-off on it is "Zawaal" until the next
      raw event. Any other period is reported under its display name. */
  function Decide(current: Entry, next: Entry, dt: int, zawaalDelta: nat,
                  rewrite: string -> string): (d: Decision)
    ensures current.name != SunriseLabel ==> d == Decision(rewrite(current.name), next.at)
    ensures current.name == SunriseLabel && next.at - zawaalDelta <= dt ==>
      d == Decision(ZawaalLabel, next.at)
    ensures current.name == SunriseLabel && dt < next.at - zawaalDelta ==>
      d == Decision(DuhaLabel, next.at - zawaalDelta)
    ensures dt < next.at ==> dt < d.next <= next.at
  {
    if current.name == SunriseLabel then
      var zawaalTime := next.at - zawaalDelta;
      if zawaalTime <= dt then Decision(ZawaalLabel, next.at)
      else Decision(DuhaLabel, zawaalTime)
    else
      Decision(rewrite(current.name), next.at)
  }

  /** The state and next transition the entity computes at `dt`. */
  function PrayerState(tt: Timetable, times: seq<string>, dt: int, zawaalDelta: nat,
                       rewrite: string -> string): (r: Result<Decision>)
    ensures r.Ok? <==> NowAndNext(tt, times, dt).Ok?
    ensures r.Err? ==> r.error == EventNotFound
    ensures r.Ok? ==> dt < r.value.next
    ensures r.Ok? ==>
      r.value.state == DuhaLabel || r.value.state == ZawaalLabel ||
      exists i :: 0 <= i < |times| && r.value.state == rewrite(times[i])
  {
    match NowAndNext(tt, times, dt)
    case Ok(p) =>
      var d := Decide(p.0, p.1, dt, zawaalDelta, rewrite);
      assert p.0.name in times;
      Ok(d)
    case Err(e) => Err(e)
  }

  /** The reported state holds from `dt` until the reported next transition: every
      instant before it yields the same decision, so a wake-up at that instant misses
      no change. */
  lemma PrayerStateStable(tt: Timetable, times: seq<string>, dt: int, t2: int,
                          zawaalDelta: nat, rewrite: string -> string)
    requires Valid(tt)
    requires PrayerState(tt, times, dt, zawaalDelta, rewrite).Ok?
    requires dt <= t2 < PrayerState(tt, times, dt, zawaalDelta, rewrite).value.next
    ensures PrayerState(tt, times, t2, zawaalDelta, rewrite) == PrayerState(tt, times, dt, zawaalDelta, rewrite)
  {
    NowAndNextStable(tt, times, dt, t2);
  }

  /** The instant the Islamic date next rolls over under the at-midnight strategy:
      the next local midnight. */
  function MidnightRollover(dt: int): (r: int)
    ensures dt < r <= dt + MinutesPerDay
    ensures r % MinutesPerDay == 0
    ensures DateOf(r) == DateOf(dt) + 1 && DateOf(r - 1) == DateOf(dt)
  {
    StartOfLocalDay(dt) + MinutesPerDay
  }

  /** The next rollover instant and the Gregorian date whose Islamic date is reported. */
  function Rollover(strategy: IslamicDateStrategy, tt: Timetable, dt: int): (r: Result<(int, int)>)
    ensures r.Ok? ==> dt < r.value.0
    ensures strategy == AtMidnight ==> r == Ok((MidnightRollover(dt), DateOf(dt)))
    ensures strategy == AtMaghrib ==> (r.Ok? <==> NextOccurrence(tt, MaghribLabel, dt).Ok?)
    ensures strategy == AtMaghrib && r.Ok? ==>
      Entry(MaghribLabel, r.value.0) in tt.entries && r.value.1 == DateOf(r.value.0)
    ensures strategy == AtMaghrib && r.Ok? ==> r.value.0 == NextOccurrence(tt, MaghribLabel, dt).value
  {
    match strategy
    case AtMaghrib =>
      (match NextOccurrence(tt, MaghribLabel, dt)
       case Ok(t) => Ok((t, DateOf(t)))
       case Err(e) => Err(e))
    case AtMidnight => Ok((MidnightRollover(dt), DateOf(dt)))
  }

  /** On a sorted timetable the at-Maghrib rollover is the earliest Maghrib after `dt`. */
  lemma RolloverIsNextMaghrib(tt: Timetable, dt: int, m: int)
    requires Valid(tt) && Rollover(AtMaghrib, tt, dt).Ok?
    requires Entry(MaghribLabel, m) in tt.entries && dt < m
    ensures Rollover(AtMaghrib, tt, dt).value.0 <= m
  {
    NextAfterIsEarliest(tt.entries, [MaghribLabel], dt, Entry(MaghribLabel, m));
  }

  /** Under the at-midnight strategy the reported date is the same at any two instants
      of one local day. */
  lemma MidnightDateConstantOverDay(tt: Timetable, t1: int, t2: int)
    requires StartOfLocalDay(t1) == StartOfLocalDay(t2)
    ensures Rollover(AtMidnight, tt, t1) == Rollover(AtMidnight, tt, t2)
  {
    SameDateIffSameStartOfDay(t1, t2);
  }

  /** Under the at-Maghrib strategy the reported date and rollover stay fixed from `dt`
      up to the Maghrib instant, and recomputed at that instant the rollover moves on to
      the following Maghrib, skipping none. */
  lemma MaghribRolloverAtMaghrib(tt: Timetable, dt: int, t2: int)
    requires Valid(tt)
    requires Rollover(AtMaghrib, tt, dt).Ok?
    requires dt <= t2
    ensures t2 < Rollover(AtMaghrib, tt, dt).value.0 ==>
      Rollover(AtMaghrib, tt, t2) == Rollover(AtMaghrib, tt, dt)
    ensures t2 == Rollover(AtMaghrib, tt, dt).value.0 && Rollover(AtMaghrib, tt, t2).Ok? ==>
      Rollover(AtMaghrib, tt, dt).value.0 < Rollover(AtMaghrib, tt, t2).value.0 &&
      forall m :: Entry(MaghribLabel, m) in tt.entries && Rollover(AtMaghrib, tt, dt).value.0 < m ==>
        Rollover(AtMaghrib, tt, t2).value.0 <= m
  {
    var r1 := Rollover(AtMaghrib, tt, dt).value.0;
    if t2 < r1 {
      NowAndNextStable(tt, [MaghribLabel], dt, t2);
    } else if t2 == r1 && Rollover(AtMaghrib, tt, t2).Ok? {
      forall m | Entry(MaghribLabel, m) in tt.entries && r1 < m
        ensures Rollover(AtMaghrib, tt, t2).value.0 <= m
      {
        RolloverIsNextMaghrib(tt, t2, m);
      }
    }
  }

  /** The daily refresh instant: 00:15 local on the day after `now`. */
  function RefreshInstant(now: int): (r: int)
    ensures now < r <= now + MinutesPerDay + 15
    ensures r % MinutesPerDay == 15
    ensures DateOf(r) == DateOf(now) + 1
  {
    StartOfLocalDay(now + MinutesPerDay) + 15
  }

  /** The text of the "islamic_date" attribute: day, month and year, space separated. */
  function IslamicDateText(d: IslamicDate): (s: string)
    ensures |s| == |d.day| + |d.month| + |d.year| + 2
    ensures s[..|d.day|] == d.day && s[|d.day|] == ' '
    ensures s[|d.day| + 1..|d.day| + 1 + |d.month|] == d.month && s[|d.day| + 1 + |d.month|] == ' '
    ensures s[|s| - |d.year|..] == d.year
  {
    d.day + " " + d.month + " " + d.year
  }

  /** When day and year hold no space (the month may), the published text determines
      the Islamic date: its first space ends the day and its last one starts the year. */
  lemma IslamicDateTextDetermines(d1: IslamicDate, d2: IslamicDate)
    requires ' ' !in d1.day && ' ' !in d2.day && ' ' !in d1.year && ' ' !in d2.year
    requires IslamicDateText(d1) == IslamicDateText(d2)
    ensures d1 == d2
  {
    var s := IslamicDateText(d1);
    var n := |s|;
    assert forall i :: 0 <= i < |d1.day| ==> s[i] == d1.day[i];
    assert forall i :: 0 <= i < |d2.day| ==> s[i] == d2.day[i];
    assert forall i :: 0 <= i < |d1.year| ==> s[n - |d1.year| + i] == d1.year[i];
    assert forall i :: 0 <= i < |d2.year| ==> s[n - |d2.year| + i] == d2.year[i];
    assert d1.month == s[|d1.day| + 1..|d1.day| + 1 + |d1.month|];
  }
}
