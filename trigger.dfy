/** The `lupt` automation trigger: a listener that waits for the next occurrence of a
    named event, shifted by a signed offset, runs its job and re-arms itself. */
module Trigger {
  import opened Wrappers
  import opened Labels
  import opened Timetables
  import opened Host

  /** A trigger configuration after schema validation, which has filled in the
      default offset of zero minutes when none was given. */
  datatype TriggerConfig = TriggerConfig(event: string, offset: int)

  /** The `trigger` payload an automation's action is called with. */
  datatype TriggerData = TriggerData(
    platform: string,
    event: string,
    offset: int,
    description: string,
    id: Option<string>)

  /** The trigger's description: the event name, marked when an offset shifts it. */
  function Description(event: string, offset: int): (d: string)
    ensures |event| <= |d| && d[..|event|] == event
    ensures d == event <==> offset == 0
    ensures offset != 0 ==> d == event + " with offset"
  {
    if offset != 0 then event + " with offset" else event
  }

  /** The trigger id taken from the automation information; absent or empty information
      carries none. */
  function TriggerIdOf(info: Option<map<string, string>>): (id: Option<string>)
    ensures id.Some? <==> info.Some? && "trigger_id" in info.value
    ensures id.Some? ==> id.value == info.value["trigger_id"]
  {
    if info.Some? && "trigger_id" in info.value then Some(info.value["trigger_id"])
    else None
  }

  class Listener {
    const id: nat           // the listener's own wake-up target, `ListenerEvent(id)`
    const job: TriggerData  // what the job runs the automation's action with
    const event: string
    const offset: int
    var unsub: Option<Handle>
    var runs: seq<TriggerData>  // every run of the job, in order

    constructor (id: nat, job: TriggerData, event: string, offset: int)
      ensures this.id == id && this.job == job && this.event == event && this.offset == offset
      ensures unsub == None && runs == []
    {
      this.id := id;
      this.job := job;
      this.event := event;
      this.offset := offset;
      unsub := None;
      runs := [];
    }

    /** `calculate_next_time`: shift `dt` back by the offset, find the next occurrence of
        the event after that instant in the cached timetable, and shift it forward again.
        An absent cache is the failed lookup of the cached timetable. */
    function CalculateNextTime(cache: Option<Timetable>, dt: int): (r: Result<int>)
      ensures cache.None? ==> r == Err(TimetableUnavailable)
      ensures r.Ok? ==> dt < r.value && Entry(event, r.value - offset) in cache.value.entries
      ensures cache.Some? && r.Err? ==> r.error == EventNotFound
    {
      if cache.None? then Err(TimetableUnavailable)
      else match NextOccurrence(cache.value, event, dt - offset)
        case Ok(t) => Ok(t + offset)
        case Err(e) => Err(e)
    }

    /** The fire instant is the earliest shifted occurrence of the event after `dt`. */
    lemma NextTimeIsEarliest(tt: Timetable, dt: int, at: int)
      requires Valid(tt) && CalculateNextTime(Some(tt), dt).Ok?
      requires Entry(event, at) in tt.entries && dt < at + offset
      ensures CalculateNextTime(Some(tt), dt).value <= at + offset
    {
      NextAfterIsEarliest(tt.entries, [event], dt - offset, Entry(event, at));
    }

    /** A fire instant exists exactly when the timetable holds a shifted occurrence of the
        event at or before `dt` and one after it. */
    lemma NextTimeOkIff(tt: Timetable, dt: int)
      ensures CalculateNextTime(Some(tt), dt).Ok? <==>
        (exists at :: Entry(event, at) in tt.entries && at + offset <= dt) &&
        (exists at :: Entry(event, at) in tt.entries && dt < at + offset)
    {
      NowAndNextOkIff(tt, [event], dt - offset);
      if (exists at :: Entry(event, at) in tt.entries && at + offset <= dt) {
        var at :| Entry(event, at) in tt.entries && at + offset <= dt;
        assert Entry(event, at).name in [event];
      }
      if (exists at :: Entry(event, at) in tt.entries && dt < at + offset) {
        var at :| Entry(event, at) in tt.entries && dt < at + offset;
        assert Entry(event, at).name in [event];
      }
    }

    /** Recomputing at any instant before the fire instant gives the same fire instant. */
    lemma NextTimeStable(tt: Timetable, t1: int, t2: int)
      requires Valid(tt) && CalculateNextTime(Some(tt), t1).Ok?
      requires t1 <= t2 < CalculateNextTime(Some(tt), t1).value
      ensures CalculateNextTime(Some(tt), t2) == CalculateNextTime(Some(tt), t1)
    {
      var n := NextOccurrence(tt, event, t1 - offset);
      assert n.Ok? && CalculateNextTime(Some(tt), t1) == Ok(n.value + offset);
      NextOccurrenceStable(tt, event, t1 - offset, t2 - offset);
    }

    /** Only the occurrences of the listener's own event decide its fire instant. */
    lemma NextTimeOwnEventOnly(tt: Timetable, dt: int)
      ensures CalculateNextTime(Some(tt), dt) ==
        CalculateNextTime(Some(tt.(entries := Only(tt.entries, [event]))), dt)
    {
      var own := tt.(entries := Only(tt.entries, [event]));
      NowAndNextOnly(tt, [event], dt - offset);
      assert NowAndNext(own, [event], dt - offset) == NowAndNext(tt, [event], dt - offset);
    }

    /** The listener's wake-ups are exactly the one its cancel handle holds, if any. */
    ghost predicate Sole(sched: Scheduler)
      reads this, sched
    {
      sched.Valid() && Handles(sched.pending, ListenerEvent(id)) == Kept(unsub)
    }

    /** `_listen_next_event`: arm a wake-up at the next fire instant after `now` and keep
        its cancel handle. A failed computation raises before anything changes. */
    method ListenNextEvent(cache: Option<Timetable>, now: int, sched: Scheduler) returns (r: Outcome)
      requires sched.Valid()
      modifies this`unsub, sched
      ensures sched.Valid()
      ensures match CalculateNextTime(cache, now)
        case Ok(t) =>
          r == Pass && unsub == Some(old(sched.issued)) && sched.issued == old(sched.issued) + 1 &&
          sched.pending == old(sched.pending)[old(sched.issued) := Wakeup(t, ListenerEvent(id))]
        case Err(e) =>
          r == Fail(e) && unsub == old(unsub) &&
          sched.pending == old(sched.pending) && sched.issued == old(sched.issued)
    {
      var next := CalculateNextTime(cache, now);
      if next.Err? {
        return Fail(next.error);
      }
      var h := sched.Track(ListenerEvent(id), next.value);
      unsub := Some(h);
      r := Pass;
    }

    /** `async_attach`: start listening. A listener attached while idle keeps exactly one
        wake-up when the computation succeeds, and none when it fails. */
    method Attach(cache: Option<Timetable>, now: int, sched: Scheduler) returns (r: Outcome)
      requires sched.Valid()
      modifies this`unsub, sched
      ensures sched.Valid()
      ensures match CalculateNextTime(cache, now)
        case Ok(t) =>
          r == Pass && unsub == Some(old(sched.issued)) && sched.issued == old(sched.issued) + 1 &&
          sched.pending == old(sched.pending)[old(sched.issued) := Wakeup(t, ListenerEvent(id))]
        case Err(e) =>
          r == Fail(e) && unsub == old(unsub) &&
          sched.pending == old(sched.pending) && sched.issued == old(sched.issued)
      ensures old(Sole(sched)) && old(unsub) == None ==> Sole(sched)
    {
      ghost var before := sched.pending;
      r := ListenNextEvent(cache, now, sched);
      if r.Pass? {
        HandlesAfterTrack(before, unsub.value, sched.pending[unsub.value], ListenerEvent(id));
      }
    }

    /** `async_detach`: call the cancel handle and forget it. With no handle held the call
        of `None` raises and nothing changes. */
    method Detach(sched: Scheduler) returns (r: Outcome)
      requires sched.Valid()
      modifies this`unsub, sched
      ensures sched.Valid() && sched.issued == old(sched.issued)
      ensures old(unsub).None? ==> r == Fail(HandleNotCallable) && unsub == None && sched.pending == old(sched.pending)
      ensures old(unsub).Some? ==> r == Pass && unsub == None && sched.pending == old(sched.pending) - {old(unsub).value}
      ensures old(Sole(sched)) ==> Sole(sched) && Handles(sched.pending, ListenerEvent(id)) == {}
    {
      if unsub.None? {
        return Fail(HandleNotCallable);
      }
      HandlesAfterCancel(sched.pending, unsub.value, ListenerEvent(id));
      sched.Cancel(unsub.value);
      unsub := None;
      r := Pass;
    }

    /** `_handle_event`: the wake-up has fired; forget its handle, re-arm for the next fire
        instant after `now`, then run the job. If re-arming fails the job does not run. */
    method HandleEvent(cache: Option<Timetable>, now: int, sched: Scheduler) returns (r: Outcome)
      requires sched.Valid()
      modifies this`unsub, this`runs, sched
      ensures sched.Valid()
      ensures match CalculateNextTime(cache, now)
        case Ok(t) =>
          r == Pass && runs == old(runs) + [job] && unsub == Some(old(sched.issued)) &&
          sched.issued == old(sched.issued) + 1 &&
          sched.pending == old(sched.pending)[old(sched.issued) := Wakeup(t, ListenerEvent(id))]
        case Err(e) =>
          r == Fail(e) && runs == old(runs) && unsub == None &&
          sched.pending == old(sched.pending) && sched.issued == old(sched.issued)
      ensures old(Handles(sched.pending, ListenerEvent(id))) == {} ==> Sole(sched)
    {
      ghost var before := sched.pending;
      unsub := None;
      r := ListenNextEvent(cache, now, sched);
      if r.Fail? {
        return;
      }
      HandlesAfterTrack(before, unsub.value, sched.pending[unsub.value], ListenerEvent(id));
      runs := runs + [job];
    }
  }

  /** `async_attach_trigger`: build the payload, create a listener whose job calls the
      action with it, and attach the listener. The listener stands for the returned
      detach callback. */
  method AttachTrigger(config: TriggerConfig, info: Option<map<string, string>>, id: nat,
                       cache: Option<Timetable>, now: int, sched: Scheduler)
    returns (l: Listener, r: Outcome)
    requires sched.Valid()
    modifies sched
    ensures fresh(l) && sched.Valid()
    ensures l.id == id && l.event == config.event && l.offset == config.offset && l.runs == []
    ensures l.job == TriggerData(Domain, config.event, config.offset,
                                 Description(config.event, config.offset), TriggerIdOf(info))
    ensures r == (if l.CalculateNextTime(cache, now).Ok? then Pass else Fail(l.CalculateNextTime(cache, now).error))
    ensures r.Pass? ==>
      l.unsub == Some(old(sched.issued)) && sched.issued == old(sched.issued) + 1 &&
      sched.pending == old(sched.pending)[old(sched.issued) := Wakeup(l.CalculateNextTime(cache, now).value, ListenerEvent(id))]
    ensures r.Fail? ==> l.unsub == None && sched.pending == old(sched.pending) && sched.issued == old(sched.issued)
    ensures old(Handles(sched.pending, ListenerEvent(id))) == {} ==> l.Sole(sched)
  {
    var description := Description(config.event, config.offset);
    var payload := TriggerData(Domain, config.event, config.offset, description, TriggerIdOf(info));
    l := new Listener(id, payload, config.event, config.offset);
    r := l.Attach(cache, now, sched);
  }
}
