/** The integration entity: it publishes the current prayer period as its state and
    the next occurrences, the Islamic date and timetable statistics as attributes, and
    keeps them current with three self-re-arming wake-ups. */
module Integration {
  import opened Wrappers
  import opened Instants
  import opened Labels
  import opened Timetables
  import opened PrayerLogic
  import opened Host

  /** One attribute value. Instants and dates stand for their ISO-format text. */
  datatype AttrValue = Text(text: string) | Number(n: int) | Moment(at: int) | Date(day: int)

  /** The entity's attribute keys. `NextOf(x)` is the attribute that holds the next
      occurrence of the event whose lower-cased display name is `x`. */
  datatype AttrKey =
    | LastUpdated | MinDate | MaxDate | NumDates
    | IslamicDateKey | IslamicYear | IslamicMonth | IslamicDay
    | NextOf(lowered: string)

  /** The name each key is published under. */
  function KeyName(k: AttrKey): string
  {
    match k
    case LastUpdated => LastUpdatedAttr
    case MinDate => MinDateAttr
    case MaxDate => MaxDateAttr
    case NumDates => NumDatesAttr
    case IslamicDateKey => IslamicDateAttr
    case IslamicYear => IslamicYearAttr
    case IslamicMonth => IslamicMonthAttr
    case IslamicDay => IslamicDayAttr
    case NextOf(x) => "next_" + x
  }

  type Attrs = map<AttrKey, AttrValue>

  /** The integration's configuration section, after validation. */
  datatype Config = Config(url: string, zawaalMins: nat, islamicDateAtMaghrib: bool, useAsrMithl2: bool)

  predicate IsStatsAttr(k: AttrKey)
  {
    k.LastUpdated? || k.MinDate? || k.MaxDate? || k.NumDates?
  }

  predicate IsIslamicAttr(k: AttrKey)
  {
    k.IslamicDateKey? || k.IslamicYear? || k.IslamicMonth? || k.IslamicDay?
  }

  /** The first two characters of a published name and its eleventh, or a space when
      it is shorter: enough to tell the fixed names apart from each other and from
      every "next_" name. */
  function Signature(name: string): (char, char, char)
    requires |name| >= 2
  {
    (name[0], name[1], if |name| > 10 then name[10] else ' ')
  }

  /** The signature each key's name has. */
  function SignatureOf(k: AttrKey): (char, char, char)
  {
    match k
    case LastUpdated => ('l', 'a', 'e')
    case MinDate => ('m', 'i', ' ')
    case MaxDate => ('m', 'a', ' ')
    case NumDates => ('n', 'u', 'd')
    case IslamicDateKey => ('i', 's', 't')
    case IslamicYear => ('i', 's', 'a')
    case IslamicMonth => ('i', 's', 'n')
    case IslamicDay => ('i', 's', 'y')
    case NextOf(x) => ('n', 'e', if |x| > 5 then x[5] else ' ')
  }

  lemma SignatureOfName(k: AttrKey)
    ensures |KeyName(k)| >= 2 && Signature(KeyName(k)) == SignatureOf(k)
  {
    match k
    case LastUpdated =>
    case MinDate =>
    case MaxDate =>
    case NumDates =>
    case IslamicDateKey =>
    case IslamicYear =>
    case IslamicMonth =>
    case IslamicDay =>
    case NextOf(x) =>
      assert KeyName(k) == "next_" + x;
  }

  /** Distinct keys are published under distinct names: no "next_" attribute can
      overwrite a statistic or an Islamic-date attribute, so a map over keys is the
      map over names the entity publishes. */
  lemma KeyNamesDistinct(a: AttrKey, b: AttrKey)
    requires a != b
    ensures KeyName(a) != KeyName(b)
  {
    if a.NextOf? && b.NextOf? {
      assert KeyName(a)[5..] == a.lowered && KeyName(b)[5..] == b.lowered;
    } else {
      SignatureOfName(a);
      SignatureOfName(b);
    }
  }

  /** The key an event's next occurrence is published under: `next_` followed by its
      display name, lower-cased. */
  function NextKey(rewrite: string -> string, prayer: string): AttrKey
  {
    NextOf(Lower(rewrite(prayer)))
  }

  /** The name of an event's key is "next_" followed by its display name with each
      character lower-cased. */
  lemma NextKeyName(rewrite: string -> string, prayer: string)
    ensures var name := KeyName(NextKey(rewrite, prayer)); var shown := rewrite(prayer);
      |name| == 5 + |shown| && name[..5] == "next_" &&
      forall i :: 0 <= i < |shown| ==> name[5 + i] == LowerChar(shown[i])
  {
    LowerEachChar(rewrite(prayer));
  }

  /** `calculate_stats`: the four statistics attributes taken from the timetable, every
      other attribute kept. */
  function StatsAttrs(attrs: Attrs, tt: Timetable): (a: Attrs)
    ensures a.Keys == attrs.Keys + {LastUpdated, MinDate, MaxDate, NumDates}
    ensures a[LastUpdated] == Moment(tt.lastUpdated) && a[MinDate] == Date(tt.minDate)
    ensures a[MaxDate] == Date(tt.maxDate) && a[NumDates] == Number(tt.numDates)
    ensures forall k :: k in attrs && !IsStatsAttr(k) ==> a[k] == attrs[k]
  {
    attrs[LastUpdated := Moment(tt.lastUpdated)][MinDate := Date(tt.minDate)]
         [MaxDate := Date(tt.maxDate)][NumDates := Number(tt.numDates)]
  }

  /** The loop of `update_timetable` over the tracked events: each event's next
      occurrence is published in turn; the first one missing from the timetable stops
      the loop with the attributes written so far. */
  function NextTimesEffect(attrs: Attrs, tt: Timetable, names: seq<string>,
                           rewrite: string -> string, dt: int): (e: (Attrs, Outcome))
    decreases |names|
  {
    if names == [] then (attrs, Pass)
    else
      match NextOccurrence(tt, names[0], dt)
      case Err(err) => (attrs, Fail(err))
      case Ok(t) => NextTimesEffect(attrs[NextKey(rewrite, names[0]) := Moment(t)], tt, names[1..], rewrite, dt)
  }

  /** No two distinct events among `names` share a display key. */
  predicate KeysDistinct(rewrite: string -> string, names: seq<string>)
  {
    forall p, q :: p in names && q in names && NextKey(rewrite, p) == NextKey(rewrite, q) ==> p == q
  }

  /** Every event among `names` has its own next occurrence after `now` under its key. */
  predicate NextTimesExact(attrs: Attrs, tt: Timetable, names: seq<string>, rewrite: string -> string, now: int)
  {
    forall p :: p in names ==>
      NextKey(rewrite, p) in attrs && NextOccurrence(tt, p, now).Ok? &&
      attrs[NextKey(rewrite, p)] == Moment(NextOccurrence(tt, p, now).value)
  }

  /** The loop succeeds exactly when every tracked event has a next occurrence. Every
      attribute it writes is the `next_` attribute of a tracked event, holding that
      event's next occurrence after `dt`. When it succeeds every tracked event's
      attribute is written, and when no two tracked events share a display key each
      holds that event's own next occurrence. */
  lemma {:induction false} NextTimesEffectWrites(attrs: Attrs, tt: Timetable, names: seq<string>,
                                                 rewrite: string -> string, dt: int)
    ensures var e := NextTimesEffect(attrs, tt, names, rewrite, dt);
      (e.1.Pass? <==> forall n :: n in names ==> NextOccurrence(tt, n, dt).Ok?) &&
      (e.1.Fail? ==> e.1.error == EventNotFound) &&
      e.0.Keys >= attrs.Keys &&
      (forall k :: k in e.0 && (k !in attrs || e.0[k] != attrs[k]) ==>
        e.0[k].Moment? && dt < e.0[k].at &&
        exists n :: n in names && k == NextKey(rewrite, n) && NextOccurrence(tt, n, dt) == Ok(e.0[k].at)) &&
      (e.1.Pass? ==> NextTimesAfter(e.0, names, rewrite, dt)) &&
      (e.1.Pass? && KeysDistinct(rewrite, names) ==> NextTimesExact(e.0, tt, names, rewrite, dt))
    decreases |names|
  {
    if names != [] {
      match NextOccurrence(tt, names[0], dt)
      case Err(_) =>
      case Ok(t) =>
        var k0 := NextKey(rewrite, names[0]);
        var a1 := attrs[k0 := Moment(t)];
        var e := NextTimesEffect(a1, tt, names[1..], rewrite, dt);
        NextTimesEffectWrites(a1, tt, names[1..], rewrite, dt);
        assert forall n :: n in names[1..] ==> n in names;
        assert forall n :: n in names ==> n == names[0] || n in names[1..];
        forall k | k in e.0 && (k !in attrs || e.0[k] != attrs[k])
          ensures e.0[k].Moment? && dt < e.0[k].at &&
            exists n :: n in names && k == NextKey(rewrite, n) && NextOccurrence(tt, n, dt) == Ok(e.0[k].at)
        {
          if k in a1 && e.0[k] == a1[k] {
            assert k == k0 && names[0] in names;
          }
        }
        if e.1.Pass? && KeysDistinct(rewrite, names) {
          assert KeysDistinct(rewrite, names[1..]);
          forall p | p in names
            ensures NextKey(rewrite, p) in e.0 && NextOccurrence(tt, p, dt).Ok? &&
              e.0[NextKey(rewrite, p)] == Moment(NextOccurrence(tt, p, dt).value)
          {
            if p !in names[1..] {
              assert p == names[0];
            }
          }
        }
    }
  }

  /** `calculate_prayer_time` at `dt`: the state is the decided one, the single attribute
      of the raw current event's next occurrence is refreshed, and the decided next
      transition is returned. A query that misses raises, leaving what was already written. */
  function PrayerTimeEffect(state: Option<string>, attrs: Attrs, tt: Timetable, times: seq<string>,
                            zawaalDelta: nat, rewrite: string -> string, dt: int)
    : (Option<string>, Attrs, Result<int>)
  {
    match NowAndNext(tt, times, dt)
    case Err(err) => (state, attrs, Err(err))
    case Ok(p) =>
      var d := Decide(p.0, p.1, dt, zawaalDelta, rewrite);
      match NextOccurrence(tt, p.0.name, dt)
      case Err(err) => (Some(d.state), attrs, Err(err))
      case Ok(t) => (Some(d.state), attrs[NextKey(rewrite, p.0.name) := Moment(t)], Ok(d.next))
  }

  /** The four Islamic-date attributes for date `d`. */
  function IslamicAttrs(attrs: Attrs, d: IslamicDate): Attrs
  {
    attrs[IslamicDateKey := Text(IslamicDateText(d))][IslamicYear := Text(d.year)]
         [IslamicMonth := Text(d.month)][IslamicDay := Text(d.day)]
  }

  /** `calculate_islamic_date` at `dt`: the rollover instant is returned and the Islamic
      date of the chosen Gregorian date is published. Under the at-Maghrib strategy the
      next Maghrib attribute is refreshed first, and stays refreshed if the date lookup
      then misses. */
  function IslamicDateEffect(attrs: Attrs, tt: Timetable, strategy: IslamicDateStrategy,
                             rewrite: string -> string, dt: int): (Attrs, Result<int>)
  {
    match Rollover(strategy, tt, dt)
    case Err(err) => (attrs, Err(err))
    case Ok(ro) =>
      var marked := if strategy == AtMaghrib then attrs[NextKey(rewrite, MaghribLabel) := Moment(ro.0)] else attrs;
      match IslamicDateOn(tt, ro.1)
      case Err(err) => (marked, Err(err))
      case Ok(d) => (IslamicAttrs(marked, d), Ok(ro.0))
  }

  /** The statistics attributes hold the timetable's statistics. */
  predicate HasStats(attrs: Attrs, tt: Timetable)
  {
    LastUpdated in attrs && attrs[LastUpdated] == Moment(tt.lastUpdated) &&
    MinDate in attrs && attrs[MinDate] == Date(tt.minDate) &&
    MaxDate in attrs && attrs[MaxDate] == Date(tt.maxDate) &&
    NumDates in attrs && attrs[NumDates] == Number(tt.numDates)
  }

  /** The Islamic-date attributes hold date `d`. */
  predicate HasIslamicDate(attrs: Attrs, d: IslamicDate)
  {
    IslamicDateKey in attrs && attrs[IslamicDateKey] == Text(IslamicDateText(d)) &&
    IslamicYear in attrs && attrs[IslamicYear] == Text(d.year) &&
    IslamicMonth in attrs && attrs[IslamicMonth] == Text(d.month) &&
    IslamicDay in attrs && attrs[IslamicDay] == Text(d.day)
  }

  /** Every tracked event has a "next_" attribute holding an instant after `now`. */
  predicate NextTimesAfter(attrs: Attrs, times: seq<string>, rewrite: string -> string, now: int)
  {
    forall p :: p in times ==>
      NextKey(rewrite, p) in attrs && attrs[NextKey(rewrite, p)].Moment? && now < attrs[NextKey(rewrite, p)].at
  }

  /** The next occurrences are published: every tracked event's "next_" attribute holds
      an instant after `now` and, when no two of the tracked events and Maghrib share a
      display key, exactly that event's own next occurrence. */
  predicate NextTimesShown(attrs: Attrs, tt: Timetable, times: seq<string>, rewrite: string -> string, now: int)
  {
    NextTimesAfter(attrs, times, rewrite, now) &&
    (KeysDistinct(rewrite, [MaghribLabel] + times) ==> NextTimesExact(attrs, tt, times, rewrite, now))
  }

  /** After the statistics and the loop over the tracked events, both are published. */
  lemma PublishedAfterLoop(attrs: Attrs, tt: Timetable, times: seq<string>, rewrite: string -> string, now: int)
    requires NextTimesEffect(StatsAttrs(attrs, tt), tt, times, rewrite, now).1.Pass?
    ensures var a := NextTimesEffect(StatsAttrs(attrs, tt), tt, times, rewrite, now).0;
      HasStats(a, tt) && NextTimesShown(a, tt, times, rewrite, now)
  {
    var a0 := StatsAttrs(attrs, tt);
    NextTimesEffectWrites(a0, tt, times, rewrite, now);
    if KeysDistinct(rewrite, [MaghribLabel] + times) {
      assert forall p :: p in times ==> p in [MaghribLabel] + times;
      assert KeysDistinct(rewrite, times);
    }
  }

  /** `calculate_prayer_time` writes only the current event's own next occurrence, so
      the statistics and the next occurrences stay published. */
  lemma PrayerTimeKeepsPublished(state: Option<string>, attrs: Attrs, tt: Timetable, times: seq<string>,
                                 zawaalDelta: nat, rewrite: string -> string, now: int)
    requires HasStats(attrs, tt) && NextTimesShown(attrs, tt, times, rewrite, now)
    ensures var a := PrayerTimeEffect(state, attrs, tt, times, zawaalDelta, rewrite, now).1;
      HasStats(a, tt) && NextTimesShown(a, tt, times, rewrite, now)
  {
    PrayerTimeEffectSpec(state, attrs, tt, times, zawaalDelta, rewrite, now);
    var p := NowAndNext(tt, times, now);
    if p.Ok? {
      var current := p.value.0.name;
      var own := NextOccurrence(tt, current, now);
      if own.Ok? {
        MomentKeepsPublished(attrs, tt, times, rewrite, now, current, own.value);
      }
    }
  }

  /** `calculate_islamic_date` keeps the statistics and the next occurrences published,
      and on success publishes the Islamic date of the rollover's Gregorian date. */
  lemma IslamicDateKeepsPublished(attrs: Attrs, tt: Timetable, times: seq<string>, strategy: IslamicDateStrategy,
                                  rewrite: string -> string, now: int)
    requires HasStats(attrs, tt) && NextTimesShown(attrs, tt, times, rewrite, now)
    ensures var e := IslamicDateEffect(attrs, tt, strategy, rewrite, now);
      HasStats(e.0, tt) && NextTimesShown(e.0, tt, times, rewrite, now) &&
      (e.1.Ok? ==> HasIslamicDate(e.0, IslamicDateOn(tt, Rollover(strategy, tt, now).value.1).value))
  {
    var ro := Rollover(strategy, tt, now);
    if ro.Ok? {
      var marked := if strategy == AtMaghrib then attrs[NextKey(rewrite, MaghribLabel) := Moment(ro.value.0)] else attrs;
      if strategy == AtMaghrib {
        MomentKeepsPublished(attrs, tt, times, rewrite, now, MaghribLabel, ro.value.0);
      }
      var d := IslamicDateOn(tt, ro.value.1);
      if d.Ok? {
        IslamicAttrsKeepPublished(marked, tt, times, rewrite, now, d.value);
      }
    }
  }

  /** Writing the next occurrence of Maghrib or of a tracked event under its own key
      keeps everything published. */
  lemma MomentKeepsPublished(attrs: Attrs, tt: Timetable, times: seq<string>, rewrite: string -> string,
                             now: int, q: string, at: int)
    requires HasStats(attrs, tt) && NextTimesShown(attrs, tt, times, rewrite, now)
    requires q in [MaghribLabel] + times && NextOccurrence(tt, q, now) == Ok(at)
    ensures var a := attrs[NextKey(rewrite, q) := Moment(at)];
      HasStats(a, tt) && NextTimesShown(a, tt, times, rewrite, now)
  {
    var a := attrs[NextKey(rewrite, q) := Moment(at)];
    if KeysDistinct(rewrite, [MaghribLabel] + times) {
      forall p | p in times
        ensures NextKey(rewrite, p) in a && NextOccurrence(tt, p, now).Ok? &&
          a[NextKey(rewrite, p)] == Moment(NextOccurrence(tt, p, now).value)
      {
        assert p in [MaghribLabel] + times;
      }
    }
  }

  /** Publishing an Islamic date keeps the statistics and next occurrences published. */
  lemma IslamicAttrsKeepPublished(attrs: Attrs, tt: Timetable, times: seq<string>, rewrite: string -> string,
                                  now: int, d: IslamicDate)
    requires HasStats(attrs, tt) && NextTimesShown(attrs, tt, times, rewrite, now)
    ensures var a := IslamicAttrs(attrs, d);
      HasStats(a, tt) && NextTimesShown(a, tt, times, rewrite, now) && HasIslamicDate(a, d)
  {
    var a := IslamicAttrs(attrs, d);
    forall p | p in times
      ensures NextKey(rewrite, p) in a && a[NextKey(rewrite, p)] == attrs[NextKey(rewrite, p)]
    {
    }
  }

  /** What `calculate_prayer_time` does, against the decision of `PrayerState`: on a
      miss nothing changes; otherwise the state is the decided one, the returned
      instant is the decided transition (strictly after `dt`), and the only attribute
      written is the raw current event's next occurrence. */
  lemma PrayerTimeEffectSpec(state: Option<string>, attrs: Attrs, tt: Timetable, times: seq<string>,
                             zawaalDelta: nat, rewrite: string -> string, dt: int)
    ensures var e := PrayerTimeEffect(state, attrs, tt, times, zawaalDelta, rewrite, dt);
      var d := PrayerState(tt, times, dt, zawaalDelta, rewrite);
      (d.Err? ==> e == (state, attrs, Err(EventNotFound))) &&
      (d.Ok? ==> e.0 == Some(d.value.state)) &&
      (e.2.Ok? ==> d.Ok? && e.2.value == d.value.next && dt < e.2.value) &&
      (e.2.Err? ==> e.2.error == EventNotFound) &&
      (NowAndNext(tt, times, dt).Ok? ==>
        var current := NowAndNext(tt, times, dt).value.0.name;
        var own := NextOccurrence(tt, current, dt);
        (e.2.Ok? <==> own.Ok?) &&
        e.1 == if own.Ok? then attrs[NextKey(rewrite, current) := Moment(own.value)] else attrs)
  {
  }

  /** What `calculate_islamic_date` does, against `Rollover`: on success it returns the
      rollover instant (strictly after `dt`) and publishes the looked-up Islamic date;
      it writes nothing but the four Islamic-date attributes and, under the at-Maghrib
      strategy, the next Maghrib attribute. */
  lemma IslamicDateEffectSpec(attrs: Attrs, tt: Timetable, strategy: IslamicDateStrategy,
                              rewrite: string -> string, dt: int)
    ensures var e := IslamicDateEffect(attrs, tt, strategy, rewrite, dt);
      var ro := Rollover(strategy, tt, dt);
      (ro.Err? ==> e == (attrs, Err(EventNotFound))) &&
      (e.1.Ok? <==> ro.Ok? && IslamicDateOn(tt, ro.value.1).Ok?) &&
      (e.1.Ok? ==> e.1.value == ro.value.0 && dt < e.1.value &&
                   HasIslamicDate(e.0, IslamicDateOn(tt, ro.value.1).value)) &&
      (e.1.Err? && ro.Ok? ==> e.1.error == DateNotFound) &&
      e.0.Keys >= attrs.Keys &&
      (forall k :: k in attrs && !IsIslamicAttr(k) && k != NextKey(rewrite, MaghribLabel) ==> e.0[k] == attrs[k]) &&
      (strategy == AtMidnight ==> forall k :: k in attrs && !IsIslamicAttr(k) ==> e.0[k] == attrs[k]) &&
      (strategy == AtMaghrib && ro.Ok? ==>
        NextKey(rewrite, MaghribLabel) in e.0 && e.0[NextKey(rewrite, MaghribLabel)] == Moment(ro.value.0)) &&
      (forall k :: k in e.0 && k !in attrs ==> IsIslamicAttr(k) || k == NextKey(rewrite, MaghribLabel))
  {
  }

  /** The entity's options, fixed at construction. */
  datatype Options = Options(zawaalDelta: nat, strategy: IslamicDateStrategy, times: seq<string>,
                             rewrite: string -> string)

  /** The entity's fields together with the host scheduler's wake-ups: what the
      update handlers read and change. */
  datatype Snapshot = Snapshot(
    timetable: Option<Timetable>,
    state: Option<string>,
    attrs: Attrs,
    unsubTimetable: Option<Handle>,
    unsubPrayerTime: Option<Handle>,
    unsubIslamicDate: Option<Handle>,
    pending: map<Handle, Wakeup>,
    issued: nat)

  /** The handle `h`, if any, was issued, and while pending it wakes `target`. */
  predicate Owns(s: Snapshot, h: Option<Handle>, target: Target)
  {
    h.Some? ==> h.value < s.issued && (h.value in s.pending ==> s.pending[h.value].target == target)
  }

  /** Every pending wake-up was issued, and each cancel handle the entity keeps
      belongs to the update it was armed for. */
  predicate Coherent(s: Snapshot)
  {
    (forall h :: h in s.pending ==> h < s.issued) &&
    Owns(s, s.unsubTimetable, TimetableRefresh) &&
    Owns(s, s.unsubPrayerTime, PrayerTimeUpdate) &&
    Owns(s, s.unsubIslamicDate, IslamicDateUpdate)
  }

  /** `execute_if_defined(unsub)`: calling a cancel handle withdraws its wake-up. */
  function Cancelled(s: Snapshot, h: Option<Handle>): Snapshot
  {
    if h.Some? then s.(pending := s.pending - {h.value}) else s
  }

  /** `async_track_point_in_utc_time`: a wake-up for `target` at `at` under the next handle. */
  function Armed(s: Snapshot, target: Target, at: int): Snapshot
  {
    s.(pending := s.pending[s.issued := Wakeup(at, target)], issued := s.issued + 1)
  }

  /** `update_prayer_time` at `now`: the prayer-time effect, then, if it returned, a
      wake-up at the returned instant whose handle is kept. */
  function PrayerTimeStep(o: Options, s: Snapshot, now: int): (Snapshot, Outcome)
    requires s.timetable.Some?
  {
    var e := PrayerTimeEffect(s.state, s.attrs, s.timetable.value, o.times, o.zawaalDelta, o.rewrite, now);
    var s1 := s.(state := e.0, attrs := e.1);
    match e.2
    case Err(err) => (s1, Fail(err))
    case Ok(t) => (Armed(s1, PrayerTimeUpdate, t).(unsubPrayerTime := Some(s.issued)), Pass)
  }

  /** `update_islamic_date` at `now`: the Islamic-date effect, then, if it returned, a
      wake-up at the returned instant whose handle is kept. */
  function IslamicDateStep(o: Options, s: Snapshot, now: int): (Snapshot, Outcome)
    requires s.timetable.Some?
  {
    var e := IslamicDateEffect(s.attrs, s.timetable.value, o.strategy, o.rewrite, now);
    var s1 := s.(attrs := e.0);
    match e.1
    case Err(err) => (s1, Fail(err))
    case Ok(t) => (Armed(s1, IslamicDateUpdate, t).(unsubIslamicDate := Some(s.issued)), Pass)
  }

  /** The first half of `update_timetable` once a timetable `tt` is in hand: adopt it,
      publish its statistics, then publish every tracked event's next occurrence. */
  function ReloadStep(o: Options, s: Snapshot, now: int, tt: Timetable): (Snapshot, Outcome)
  {
    var loop := NextTimesEffect(StatsAttrs(s.attrs, tt), tt, o.times, o.rewrite, now);
    (s.(timetable := Some(tt), attrs := loop.0), loop.1)
  }

  /** `execute_if_defined(unsub_prayer_time)` followed by `update_prayer_time`. */
  function RestartPrayerTimeStep(o: Options, s: Snapshot, now: int): (Snapshot, Outcome)
    requires s.timetable.Some?
  {
    PrayerTimeStep(o, Cancelled(s, s.unsubPrayerTime), now)
  }

  /** `execute_if_defined(unsub_islamic_date)` followed by `update_islamic_date`. */
  function RestartIslamicDateStep(o: Options, s: Snapshot, now: int): (Snapshot, Outcome)
    requires s.timetable.Some?
  {
    IslamicDateStep(o, Cancelled(s, s.unsubIslamicDate), now)
  }

  /** The end of `update_timetable`: withdraw the pending refresh and arm the next one
      for 00:15 local on the day after `now`. */
  function RefreshArmStep(s: Snapshot, now: int): Snapshot
  {
    var c := Cancelled(s, s.unsubTimetable);
    Armed(c, TimetableRefresh, RefreshInstant(now)).(unsubTimetable := Some(c.issued))
  }

  /** `update_timetable` at `now`, where `fetched` and `cached` are what the fetch and
      the cache load return (None: they raised). The first step that raises stops it
      with what was already done. */
  function TimetableStep(o: Options, s: Snapshot, now: int, fetched: Option<Timetable>,
                         cached: Option<Timetable>): (Snapshot, Outcome)
  {
    var tt := if fetched.Some? then fetched else cached;
    if tt.None? then (s, Fail(TimetableUnavailable))
    else
      var l := ReloadStep(o, s, now, tt.value);
      if l.1.Fail? then l
      else
        var p := RestartPrayerTimeStep(o, l.0, now);
        if p.1.Fail? then p
        else
          var q := RestartIslamicDateStep(o, p.0, now);
          if q.1.Fail? then q
          else (RefreshArmStep(q.0, now), Pass)
  }

  /** `async_init` at `now`: cancel a pending refresh, then refresh. */
  function InitStep(o: Options, s: Snapshot, now: int, fetched: Option<Timetable>,
                    cached: Option<Timetable>): (Snapshot, Outcome)
  {
    TimetableStep(o, Cancelled(s, s.unsubTimetable), now, fetched, cached)
  }

  /** The timetable's statistics and every tracked event's next occurrence after `now`
      are published. */
  predicate Published(o: Options, s: Snapshot, now: int)
  {
    s.timetable.Some? && HasStats(s.attrs, s.timetable.value) &&
    NextTimesShown(s.attrs, s.timetable.value, o.times, o.rewrite, now)
  }

  /** `h` holds a pending wake-up `w`. */
  predicate Holds(s: Snapshot, h: Option<Handle>, w: Wakeup)
  {
    h.Some? && h.value in s.pending && s.pending[h.value] == w
  }

  /** The state decided at `now` is published and the prayer-time wake-up is armed at
      the decided transition. */
  predicate PrayerArmed(o: Options, s: Snapshot, now: int)
  {
    s.timetable.Some? &&
    var d := PrayerState(s.timetable.value, o.times, now, o.zawaalDelta, o.rewrite);
    d.Ok? && s.state == Some(d.value.state) &&
    Holds(s, s.unsubPrayerTime, Wakeup(d.value.next, PrayerTimeUpdate))
  }

  /** The Islamic date chosen at `now` is published and the Islamic-date wake-up is
      armed at the rollover. */
  predicate IslamicArmed(o: Options, s: Snapshot, now: int)
  {
    s.timetable.Some? &&
    var ro := Rollover(o.strategy, s.timetable.value, now);
    ro.Ok? && IslamicDateOn(s.timetable.value, ro.value.1).Ok? &&
    HasIslamicDate(s.attrs, IslamicDateOn(s.timetable.value, ro.value.1).value) &&
    Holds(s, s.unsubIslamicDate, Wakeup(ro.value.0, IslamicDateUpdate))
  }

  /** The refresh wake-up is armed at 00:15 local on the day after `now`. */
  predicate RefreshArmed(s: Snapshot, now: int)
  {
    Holds(s, s.unsubTimetable, Wakeup(RefreshInstant(now), TimetableRefresh))
  }

  /** What a successful refresh at `now` leaves behind. */
  predicate Serving(o: Options, s: Snapshot, now: int)
  {
    Published(o, s, now) && PrayerArmed(o, s, now) && IslamicArmed(o, s, now) && RefreshArmed(s, now)
  }

  /** Cancelling a handle the entity keeps leaves the handles coherent and withdraws
      that handle's wake-up alone. */
  lemma CancelledKeeps(s: Snapshot, h: Option<Handle>, target: Target)
    requires Coherent(s) && Owns(s, h, target)
    ensures var c := Cancelled(s, h);
      Coherent(c) && c.issued == s.issued &&
      (h.Some? ==> h.value !in c.pending) &&
      (forall k :: k in s.pending && Some(k) != h ==> k in c.pending && c.pending[k] == s.pending[k]) &&
      (forall t :: Handles(c.pending, t) == Handles(s.pending, t) - Kept(h))
  {
    if h.Some? {
      forall t {
        HandlesAfterCancel(s.pending, h.value, t);
      }
    }
  }

  /** Arming a wake-up keeps every pending one and adds the fresh handle for its own
      target only. */
  lemma ArmedKeeps(s: Snapshot, target: Target, at: int)
    requires Coherent(s)
    ensures var a := Armed(s, target, at);
      s.issued !in s.pending && a.issued == s.issued + 1 &&
      (forall k :: k in s.pending ==> k in a.pending && a.pending[k] == s.pending[k]) &&
      (forall t :: Handles(a.pending, t) == if t == target then Handles(s.pending, t) + {s.issued} else Handles(s.pending, t))
  {
    forall t {
      HandlesAfterTrack(s.pending, s.issued, Wakeup(at, target), t);
    }
  }

  /** `update_prayer_time` keeps the handles coherent and adds at most one wake-up, a
      prayer-time one under the next handle; when it raises (only on a missing event)
      it arms nothing. */
  lemma PrayerTimeStepFrame(o: Options, s: Snapshot, now: int)
    requires s.timetable.Some? && Coherent(s)
    ensures var r := PrayerTimeStep(o, s, now);
      Coherent(r.0) && r.0.timetable == s.timetable &&
      r.0.unsubTimetable == s.unsubTimetable && r.0.unsubIslamicDate == s.unsubIslamicDate &&
      (forall k :: k in s.pending ==> k in r.0.pending && r.0.pending[k] == s.pending[k]) &&
      (forall t :: t != PrayerTimeUpdate ==> Handles(r.0.pending, t) == Handles(s.pending, t)) &&
      (r.1.Fail? ==> r.1.error == EventNotFound && r.0.pending == s.pending) &&
      (r.1.Pass? ==> Handles(r.0.pending, PrayerTimeUpdate) == Handles(s.pending, PrayerTimeUpdate) + {s.issued})
  {
    var tt := s.timetable.value;
    PrayerTimeEffectSpec(s.state, s.attrs, tt, o.times, o.zawaalDelta, o.rewrite, now);
    var e := PrayerTimeEffect(s.state, s.attrs, tt, o.times, o.zawaalDelta, o.rewrite, now);
    if e.2.Ok? {
      ArmedKeeps(s.(state := e.0, attrs := e.1), PrayerTimeUpdate, e.2.value);
    }
  }

  /** A successful `update_prayer_time` publishes the state decided at `now` and arms
      its wake-up at the decided transition; whatever the outcome, the statistics and
      next occurrences stay published. */
  lemma PrayerTimeStepArms(o: Options, s: Snapshot, now: int)
    requires s.timetable.Some?
    ensures var r := PrayerTimeStep(o, s, now);
      (r.1.Pass? ==> PrayerArmed(o, r.0, now)) &&
      (Published(o, s, now) ==> Published(o, r.0, now))
  {
    var tt := s.timetable.value;
    PrayerTimeEffectSpec(s.state, s.attrs, tt, o.times, o.zawaalDelta, o.rewrite, now);
    if HasStats(s.attrs, tt) && NextTimesShown(s.attrs, tt, o.times, o.rewrite, now) {
      PrayerTimeKeepsPublished(s.state, s.attrs, tt, o.times, o.zawaalDelta, o.rewrite, now);
    }
  }

  /** `update_islamic_date` keeps the handles coherent, leaves the state alone and adds
      at most one wake-up, an Islamic-date one under the next handle; when it raises
      it arms nothing. */
  lemma IslamicDateStepFrame(o: Options, s: Snapshot, now: int)
    requires s.timetable.Some? && Coherent(s)
    ensures var r := IslamicDateStep(o, s, now);
      Coherent(r.0) && r.0.timetable == s.timetable && r.0.state == s.state &&
      r.0.unsubTimetable == s.unsubTimetable && r.0.unsubPrayerTime == s.unsubPrayerTime &&
      (forall k :: k in s.pending ==> k in r.0.pending && r.0.pending[k] == s.pending[k]) &&
      (forall t :: t != IslamicDateUpdate ==> Handles(r.0.pending, t) == Handles(s.pending, t)) &&
      (r.1.Fail? ==> r.0.pending == s.pending) &&
      (r.1.Pass? ==> Handles(r.0.pending, IslamicDateUpdate) == Handles(s.pending, IslamicDateUpdate) + {s.issued})
  {
    var tt := s.timetable.value;
    var e := IslamicDateEffect(s.attrs, tt, o.strategy, o.rewrite, now);
    if e.1.Ok? {
      ArmedKeeps(s.(attrs := e.0), IslamicDateUpdate, e.1.value);
    }
  }

  /** A successful `update_islamic_date` publishes the Islamic date chosen at `now`
      and arms its wake-up at the rollover; whatever the outcome, the statistics and
      next occurrences stay published. */
  lemma IslamicDateStepArms(o: Options, s: Snapshot, now: int)
    requires s.timetable.Some?
    ensures var r := IslamicDateStep(o, s, now);
      (r.1.Pass? ==> IslamicArmed(o, r.0, now)) &&
      (Published(o, s, now) ==> Published(o, r.0, now))
  {
    var tt := s.timetable.value;
    IslamicDateEffectSpec(s.attrs, tt, o.strategy, o.rewrite, now);
    if HasStats(s.attrs, tt) && NextTimesShown(s.attrs, tt, o.times, o.rewrite, now) {
      IslamicDateKeepsPublished(s.attrs, tt, o.times, o.strategy, o.rewrite, now);
    }
  }

  /** Adopting a timetable touches no wake-up, and when every tracked event has a next
      occurrence the statistics and next occurrences are published. */
  lemma ReloadServes(o: Options, s: Snapshot, now: int, tt: Timetable)
    requires Coherent(s)
    ensures var l := ReloadStep(o, s, now, tt);
      Coherent(l.0) && l.0.timetable == Some(tt) &&
      l.0.pending == s.pending && l.0.issued == s.issued &&
      l.0.unsubTimetable == s.unsubTimetable && l.0.unsubPrayerTime == s.unsubPrayerTime &&
      l.0.unsubIslamicDate == s.unsubIslamicDate &&
      (l.1.Fail? ==> l.1.error == EventNotFound) &&
      (l.1.Pass? ==> Published(o, l.0, now))
  {
    NextTimesEffectWrites(StatsAttrs(s.attrs, tt), tt, o.times, o.rewrite, now);
    if ReloadStep(o, s, now, tt).1.Pass? {
      PublishedAfterLoop(s.attrs, tt, o.times, o.rewrite, now);
    }
  }

  /** Restarting the prayer-time update withdraws only the wake-up its handle held and
      adds at most one prayer-time wake-up; when the handle held every pending
      prayer-time wake-up, the new one is the only one. */
  lemma RestartPrayerTimeFrame(o: Options, s: Snapshot, now: int)
    requires s.timetable.Some? && Coherent(s)
    ensures var p := RestartPrayerTimeStep(o, s, now);
      Coherent(p.0) && p.0.timetable == s.timetable &&
      p.0.unsubTimetable == s.unsubTimetable && p.0.unsubIslamicDate == s.unsubIslamicDate &&
      (forall k :: k in s.pending && Some(k) != s.unsubPrayerTime ==> k in p.0.pending && p.0.pending[k] == s.pending[k]) &&
      Handles(p.0.pending, TimetableRefresh) == Handles(s.pending, TimetableRefresh) &&
      Handles(p.0.pending, IslamicDateUpdate) == Handles(s.pending, IslamicDateUpdate) &&
      (p.1.Pass? && Handles(s.pending, PrayerTimeUpdate) <= Kept(s.unsubPrayerTime) ==>
        Handles(p.0.pending, PrayerTimeUpdate) == Kept(p.0.unsubPrayerTime))
  {
    var c := Cancelled(s, s.unsubPrayerTime);
    CancelledKeeps(s, s.unsubPrayerTime, PrayerTimeUpdate);
    PrayerTimeStepFrame(o, c, now);
  }

  /** Restarting the prayer-time update keeps everything published, and on success
      publishes the state decided at `now` with its wake-up. */
  lemma RestartPrayerTimeServes(o: Options, s: Snapshot, now: int)
    requires s.timetable.Some?
    ensures var p := RestartPrayerTimeStep(o, s, now);
      (Published(o, s, now) ==> Published(o, p.0, now)) &&
      (p.1.Pass? ==> PrayerArmed(o, p.0, now))
  {
    PrayerTimeStepArms(o, Cancelled(s, s.unsubPrayerTime), now);
  }

  /** Restarting the Islamic-date update withdraws only the wake-up its handle held,
      adds at most one Islamic-date wake-up and keeps the state and the prayer-time
      wake-up; when the handle held every pending Islamic-date wake-up, the new one is
      the only one. */
  lemma RestartIslamicDateFrame(o: Options, s: Snapshot, now: int)
    requires s.timetable.Some? && Coherent(s)
    ensures var q := RestartIslamicDateStep(o, s, now);
      Coherent(q.0) && q.0.timetable == s.timetable &&
      q.0.unsubTimetable == s.unsubTimetable && q.0.unsubPrayerTime == s.unsubPrayerTime &&
      (forall k :: k in s.pending && Some(k) != s.unsubIslamicDate ==> k in q.0.pending && q.0.pending[k] == s.pending[k]) &&
      Handles(q.0.pending, TimetableRefresh) == Handles(s.pending, TimetableRefresh) &&
      Handles(q.0.pending, PrayerTimeUpdate) == Handles(s.pending, PrayerTimeUpdate) &&
      (PrayerArmed(o, s, now) ==> PrayerArmed(o, q.0, now)) &&
      (q.1.Pass? && Handles(s.pending, IslamicDateUpdate) <= Kept(s.unsubIslamicDate) ==>
        Handles(q.0.pending, IslamicDateUpdate) == Kept(q.0.unsubIslamicDate))
  {
    var c := Cancelled(s, s.unsubIslamicDate);
    CancelledKeeps(s, s.unsubIslamicDate, IslamicDateUpdate);
    IslamicDateStepFrame(o, c, now);
  }

  /** Restarting the Islamic-date update keeps everything published, and on success
      publishes the Islamic date chosen at `now` with its wake-up. */
  lemma RestartIslamicDateServes(o: Options, s: Snapshot, now: int)
    requires s.timetable.Some?
    ensures var q := RestartIslamicDateStep(o, s, now);
      (Published(o, s, now) ==> Published(o, q.0, now)) &&
      (q.1.Pass? ==> IslamicArmed(o, q.0, now))
  {
    IslamicDateStepArms(o, Cancelled(s, s.unsubIslamicDate), now);
  }

  /** Re-arming the refresh keeps the state, the Islamic date, their wake-ups and
      everything published, and arms the refresh for 00:15 local on the next day;
      when the handle held every pending refresh the new one is the only one. */
  lemma RefreshArmServes(o: Options, s: Snapshot, now: int)
    requires Coherent(s)
    ensures var r := RefreshArmStep(s, now);
      Coherent(r) && RefreshArmed(r, now) &&
      r.unsubPrayerTime == s.unsubPrayerTime && r.unsubIslamicDate == s.unsubIslamicDate &&
      Handles(r.pending, PrayerTimeUpdate) == Handles(s.pending, PrayerTimeUpdate) &&
      Handles(r.pending, IslamicDateUpdate) == Handles(s.pending, IslamicDateUpdate) &&
      (Published(o, s, now) ==> Published(o, r, now)) &&
      (PrayerArmed(o, s, now) ==> PrayerArmed(o, r, now)) &&
      (IslamicArmed(o, s, now) ==> IslamicArmed(o, r, now)) &&
      (Handles(s.pending, TimetableRefresh) <= Kept(s.unsubTimetable) ==>
        Handles(r.pending, TimetableRefresh) == Kept(r.unsubTimetable))
  {
    var c := Cancelled(s, s.unsubTimetable);
    CancelledKeeps(s, s.unsubTimetable, TimetableRefresh);
    ArmedKeeps(c, TimetableRefresh, RefreshInstant(now));
  }

  /** A successful `update_timetable` leaves the entity serving: the statistics and
      next occurrences are published, the state and the Islamic date are those decided
      at `now`, and each of the three wake-ups is armed for its instant. A kind of
      wake-up whose pending ones were all held by the entity ends with exactly the new
      one. When neither the fetch nor the cache produces a timetable, nothing changes. */
  lemma TimetableStepServes(o: Options, s: Snapshot, now: int, fetched: Option<Timetable>,
                            cached: Option<Timetable>)
    requires Coherent(s)
    ensures var r := TimetableStep(o, s, now, fetched, cached);
      Coherent(r.0) &&
      (fetched.None? && cached.None? ==> r == (s, Fail(TimetableUnavailable))) &&
      (fetched.Some? ==> r.0.timetable == fetched) &&
      (fetched.None? && cached.Some? ==> r.0.timetable == cached) &&
      (r.1.Pass? ==> Serving(o, r.0, now)) &&
      (r.1.Pass? && Handles(s.pending, TimetableRefresh) <= Kept(s.unsubTimetable) ==>
        Handles(r.0.pending, TimetableRefresh) == Kept(r.0.unsubTimetable)) &&
      (r.1.Pass? && Handles(s.pending, PrayerTimeUpdate) <= Kept(s.unsubPrayerTime) ==>
        Handles(r.0.pending, PrayerTimeUpdate) == Kept(r.0.unsubPrayerTime)) &&
      (r.1.Pass? && Handles(s.pending, IslamicDateUpdate) <= Kept(s.unsubIslamicDate) ==>
        Handles(r.0.pending, IslamicDateUpdate) == Kept(r.0.unsubIslamicDate))
  {
    var tt := if fetched.Some? then fetched else cached;
    if tt.Some? {
      var l := ReloadStep(o, s, now, tt.value);
      ReloadServes(o, s, now, tt.value);
      if l.1.Pass? {
        var p := RestartPrayerTimeStep(o, l.0, now);
        RestartPrayerTimeFrame(o, l.0, now);
        RestartPrayerTimeServes(o, l.0, now);
        if p.1.Pass? {
          var q := RestartIslamicDateStep(o, p.0, now);
          RestartIslamicDateFrame(o, p.0, now);
          RestartIslamicDateServes(o, p.0, now);
          if q.1.Pass? {
            RefreshArmServes(o, q.0, now);
          }
        }
      }
    }
  }

  /** `async_init` first withdraws the pending refresh, so when it succeeds the refresh
      it arms is the only one. */
  lemma InitStepServes(o: Options, s: Snapshot, now: int, fetched: Option<Timetable>,
                       cached: Option<Timetable>)
    requires Coherent(s) && Handles(s.pending, TimetableRefresh) <= Kept(s.unsubTimetable)
    ensures var r := InitStep(o, s, now, fetched, cached);
      Coherent(r.0) &&
      (r.1.Pass? ==> Serving(o, r.0, now) && Handles(r.0.pending, TimetableRefresh) == Kept(r.0.unsubTimetable))
  {
    var c := Cancelled(s, s.unsubTimetable);
    CancelledKeeps(s, s.unsubTimetable, TimetableRefresh);
    TimetableStepServes(o, c, now, fetched, cached);
  }

  class Lupt {
    const url: string
    const zawaalDelta: nat
    const islamicDateStrategy: IslamicDateStrategy
    const times: seq<string>
    const rewrite: string -> string   // the library's display-string substitution

    var timetable: Option<Timetable>
    var state: Option<string>
    var attrs: Attrs
    var unsubTimetable: Option<Handle>
    var unsubPrayerTime: Option<Handle>
    var unsubIslamicDate: Option<Handle>

    /** Reads the options: the Zawaal window, the rollover strategy and the Asr method. */
    constructor (config: Config, defaultTimes: seq<string>, rewrite: string -> string)
      ensures url == config.url && zawaalDelta == config.zawaalMins
      ensures islamicDateStrategy == StrategyFor(config.islamicDateAtMaghrib)
      ensures times == TrackedTimes(defaultTimes, config.useAsrMithl2) && this.rewrite == rewrite
      ensures timetable == None && state == None && attrs == map[]
      ensures unsubTimetable == None && unsubPrayerTime == None && unsubIslamicDate == None
    {
      TrackedTimesMembership(defaultTimes, false, AsrMithl1Label);
      url := config.url;
      zawaalDelta := config.zawaalMins;
      islamicDateStrategy := if config.islamicDateAtMaghrib then AtMaghrib else AtMidnight;
      timetable := None;
      state := None;
      attrs := map[];
      times := if config.useAsrMithl2 then TrackedTimes(defaultTimes, true) else defaultTimes;
      this.rewrite := rewrite;
      unsubTimetable := None;
      unsubPrayerTime := None;
      unsubIslamicDate := None;
    }

    method CalculateStats()
      requires timetable.Some?
      modifies this`attrs
      ensures attrs == StatsAttrs(old(attrs), timetable.value)
    {
      var tt := timetable.value;
      attrs := attrs[LastUpdated := Moment(tt.lastUpdated)];
      attrs := attrs[MinDate := Date(tt.minDate)];
      attrs := attrs[MaxDate := Date(tt.maxDate)];
      attrs := attrs[NumDates := Number(tt.numDates)];
    }

    /** Publishes the next occurrence of `prayer` after `dt` and returns it. */
    method CalculateNextPrayerTime(prayer: string, dt: int) returns (r: Result<int>)
      requires timetable.Some?
      modifies this`attrs
      ensures r == NextOccurrence(timetable.value, prayer, dt)
      ensures r.Ok? ==> attrs == old(attrs)[NextKey(rewrite, prayer) := Moment(r.value)]
      ensures r.Err? ==> attrs == old(attrs)
    {
      var answer := NowAndNext(timetable.value, [prayer], dt);
      if answer.Err? {
        return Err(answer.error);
      }
      var next := answer.value.1.at;
      attrs := attrs[NextKey(rewrite, prayer) := Moment(next)];
      r := Ok(next);
    }

    method CalculatePrayerTime(dt: int) returns (r: Result<int>)
      requires timetable.Some?
      modifies this`state, this`attrs
      ensures (state, attrs, r) ==
        PrayerTimeEffect(old(state), old(attrs), timetable.value, times, zawaalDelta, rewrite, dt)
    {
      var answer := NowAndNext(timetable.value, times, dt);
      if answer.Err? {
        return Err(answer.error);
      }
      var current := answer.value.0.name;
      state := Some(rewrite(current));
      var next := answer.value.1.at;
      if current == SunriseLabel {
        var zawaalTime := next - zawaalDelta;
        if zawaalTime <= dt {
          state := Some(ZawaalLabel);
        } else {
          state := Some(DuhaLabel);
          next := zawaalTime;
        }
      }
      var own := CalculateNextPrayerTime(current, dt);
      if own.Err? {
        return Err(own.error);
      }
      r := Ok(next);
    }

    method CalculateIslamicDate(dt: int) returns (r: Result<int>)
      requires timetable.Some?
      modifies this`attrs
      ensures (attrs, r) == IslamicDateEffect(old(attrs), timetable.value, islamicDateStrategy, rewrite, dt)
    {
      var nextTime: int;
      var idate: int;
      if islamicDateStrategy == AtMaghrib {
        var next := CalculateNextPrayerTime(MaghribLabel, dt);
        if next.Err? {
          return Err(next.error);
        }
        nextTime := next.value;
        idate := DateOf(nextTime);
      } else {
        nextTime := StartOfLocalDay(dt) + MinutesPerDay;
        idate := DateOf(dt);
      }
      var lookup := IslamicDateOn(timetable.value, idate);
      if lookup.Err? {
        return Err(lookup.error);
      }
      var d := lookup.value;
      attrs := attrs[IslamicDateKey := Text(IslamicDateText(d))];
      attrs := attrs[IslamicYear := Text(d.year)];
      attrs := attrs[IslamicMonth := Text(d.month)];
      attrs := attrs[IslamicDay := Text(d.day)];
      r := Ok(nextTime);
    }
  
    /** The options as one value. */
    function Settings(): Options
    {
      Options(zawaalDelta, islamicDateStrategy, times, rewrite)
    }

    /** The entity's fields and the scheduler's wake-ups as one value. */
    ghost function View(sched: Scheduler): Snapshot
      reads this, sched
    {
      Snapshot(timetable, state, attrs, unsubTimetable, unsubPrayerTime, unsubIslamicDate,
               sched.pending, sched.issued)
    }

    /** `update_prayer_time`: recompute at `now` and arm the next prayer-time wake-up
        at the decided transition. */
    method UpdatePrayerTime(now: int, sched: Scheduler) returns (r: Outcome)
      requires timetable.Some? && sched.Valid()
      modifies this`state, this`attrs, this`unsubPrayerTime, sched
      ensures sched.Valid()
      ensures (View(sched), r) == PrayerTimeStep(Settings(), old(View(sched)), now)
    {
      var next := CalculatePrayerTime(now);
      if next.Err? {
        return Fail(next.error);
      }
      var h := sched.Track(PrayerTimeUpdate, next.value);
      unsubPrayerTime := Some(h);
      r := Pass;
    }

    /** `update_islamic_date`: recompute at `now` and arm the next Islamic-date wake-up
        at the rollover instant. */
    method UpdateIslamicDate(now: int, sched: Scheduler) returns (r: Outcome)
      requires timetable.Some? && sched.Valid()
      modifies this`attrs, this`unsubIslamicDate, sched
      ensures sched.Valid()
      ensures (View(sched), r) == IslamicDateStep(Settings(), old(View(sched)), now)
    {
      var next := CalculateIslamicDate(now);
      if next.Err? {
        return Fail(next.error);
      }
      var h := sched.Track(IslamicDateUpdate, next.value);
      unsubIslamicDate := Some(h);
      r := Pass;
    }

    /** `execute_if_defined` applied to a cancel handle. */
    method CancelIfDefined(h: Option<Handle>, sched: Scheduler)
      requires sched.Valid()
      modifies sched
      ensures sched.Valid()
      ensures View(sched) == Cancelled(old(View(sched)), h)
    {
      if h.Some? {
        sched.Cancel(h.value);
      }
    }

    /** The loop of `update_timetable` that publishes every tracked event's next occurrence. */
    method PublishNextTimes(dt: int) returns (r: Outcome)
      requires timetable.Some?
      modifies this`attrs
      ensures (attrs, r) == NextTimesEffect(old(attrs), timetable.value, times, rewrite, dt)
    {
      var tt := timetable.value;
      var i := 0;
      while i < |times|
        invariant 0 <= i <= |times|
        invariant NextTimesEffect(attrs, tt, times[i..], rewrite, dt) == NextTimesEffect(old(attrs), tt, times, rewrite, dt)
      {
        var next := CalculateNextPrayerTime(times[i], dt);
        if next.Err? {
          return Fail(next.error);
        }
        assert times[i..] == [times[i]] + times[i + 1..];
        i := i + 1;
      }
      r := Pass;
    }

    /** `execute_if_defined(self.unsub_prayer_time)`, then `update_prayer_time`. */
    method RestartPrayerTime(now: int, sched: Scheduler) returns (r: Outcome)
      requires timetable.Some? && sched.Valid()
      modifies this`state, this`attrs, this`unsubPrayerTime, sched
      ensures sched.Valid()
      ensures (View(sched), r) == RestartPrayerTimeStep(Settings(), old(View(sched)), now)
    {
      CancelIfDefined(unsubPrayerTime, sched);
      r := UpdatePrayerTime(now, sched);
    }

    /** `execute_if_defined(self.unsub_islamic_date)`, then `update_islamic_date`. */
    method RestartIslamicDate(now: int, sched: Scheduler) returns (r: Outcome)
      requires timetable.Some? && sched.Valid()
      modifies this`attrs, this`unsubIslamicDate, sched
      ensures sched.Valid()
      ensures (View(sched), r) == RestartIslamicDateStep(Settings(), old(View(sched)), now)
    {
      CancelIfDefined(unsubIslamicDate, sched);
      r := UpdateIslamicDate(now, sched);
    }

    /** The end of `update_timetable`: 00:15 local on the day after `now`, then cancel
        the pending refresh and arm the new one. */
    method ScheduleRefresh(now: int, sched: Scheduler)
      requires sched.Valid()
      modifies this`unsubTimetable, sched
      ensures sched.Valid()
      ensures View(sched) == RefreshArmStep(old(View(sched)), now)
    {
      var tomorrow := now + MinutesPerDay;
      var sod := StartOfLocalDay(tomorrow);
      var nextTime := sod + 15;
      CancelIfDefined(unsubTimetable, sched);
      var h := sched.Track(TimetableRefresh, nextTime);
      unsubTimetable := Some(h);
    }

    /** `update_timetable`: fetch a fresh timetable, falling back to the cached copy;
        publish statistics and next occurrences; recompute the state and the Islamic
        date; and arm the next refresh for 00:15 local on the following day. `fetched`
        and `cached` are what the fetch and the cache load return (None: they raised). */
    method UpdateTimetable(now: int, fetched: Option<Timetable>, cached: Option<Timetable>, sched: Scheduler)
      returns (r: Outcome)
      requires sched.Valid()
      modifies this, sched
      ensures sched.Valid()
      ensures (View(sched), r) == TimetableStep(Settings(), old(View(sched)), now, fetched, cached)
    {
      if fetched.Some? {
        timetable := fetched;
      } else if cached.Some? {
        timetable := cached;
      } else {
        return Fail(TimetableUnavailable);
      }
      CalculateStats();
      r := PublishNextTimes(now);
      if r.Fail? {
        return;
      }
      r := RestartPrayerTime(now, sched);
      if r.Fail? {
        return;
      }
      r := RestartIslamicDate(now, sched);
      if r.Fail? {
        return;
      }
      ScheduleRefresh(now, sched);
      r := Pass;
    }

    /** `async_init`: cancel a pending refresh, then refresh. */
    method AsyncInit(now: int, fetched: Option<Timetable>, cached: Option<Timetable>, sched: Scheduler)
      returns (r: Outcome)
      requires sched.Valid()
      modifies this, sched
      ensures sched.Valid()
      ensures (View(sched), r) == InitStep(Settings(), old(View(sched)), now, fetched, cached)
    {
      CancelIfDefined(unsubTimetable, sched);
      r := UpdateTimetable(now, fetched, cached, sched);
    }
  }
}
