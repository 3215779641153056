/** The host's single-shot point-in-time scheduler. Arming a wake-up returns a handle;
    calling the handle cancels the wake-up, and does nothing once it has fired. */
module Host {
  import opened Wrappers

  type Handle = nat

  /** What a wake-up calls back when it fires. */
  datatype Target =
    | TimetableRefresh
    | PrayerTimeUpdate
    | IslamicDateUpdate
    | ListenerEvent(listener: nat)

  datatype Wakeup = Wakeup(at: int, target: Target)

  /** The handles of the pending wake-ups for `target`. */
  function Handles(pending: map<Handle, Wakeup>, target: Target): set<Handle>
  {
    set h | h in pending && pending[h].target == target
  }

  /** The handles a kept cancel handle stands for. */
  function Kept(h: Option<Handle>): set<Handle>
  {
    if h.Some? then {h.value} else {}
  }

  /** Cancelling `k` withdraws `k` and nothing else. */
  lemma HandlesAfterCancel(pending: map<Handle, Wakeup>, k: Handle, target: Target)
    ensures Handles(pending - {k}, target) == Handles(pending, target) - {k}
  {
  }

  /** Tracking under a fresh handle adds that handle for its own target only. */
  lemma HandlesAfterTrack(pending: map<Handle, Wakeup>, k: Handle, w: Wakeup, target: Target)
    requires k !in pending
    ensures Handles(pending[k := w], target) ==
      if w.target == target then Handles(pending, target) + {k} else Handles(pending, target)
  {
  }

  class Scheduler {
    var pending: map<Handle, Wakeup>
    var issued: nat

    ghost predicate Valid()
      reads this
    {
      forall h :: h in pending ==> h < issued
    }

    constructor ()
      ensures Valid() && pending == map[] && issued == 0
    {
      pending := map[];
      issued := 0;
    }

    /** `async_track_point_in_utc_time`: arm a wake-up and return its fresh handle. */
    method Track(target: Target, at: int) returns (h: Handle)
      requires Valid()
      modifies this
      ensures Valid()
      ensures h == old(issued) && issued == old(issued) + 1
      ensures h !in old(pending) && pending == old(pending)[h := Wakeup(at, target)]
    {
      h := issued;
      pending := pending[h := Wakeup(at, target)];
      issued := issued + 1;
    }

    /** Calling a handle: the wake-up no longer fires; a fired one is left alone. */
    method Cancel(h: Handle)
      requires Valid()
      modifies this
      ensures Valid() && issued == old(issued)
      ensures pending == old(pending) - {h}
    {
      pending := pending - {h};
    }

    /** The host fires a pending wake-up: it is removed and its target is called. */
    method Fire(h: Handle) returns (w: Wakeup)
      requires Valid() && h in pending
      modifies this
      ensures Valid() && issued == old(issued)
      ensures w == old(pending)[h] && pending == old(pending) - {h}
    {
      w := pending[h];
      pending := pending - {h};
    }
  }
}
