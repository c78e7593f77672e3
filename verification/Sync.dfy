/** Events and mutexes as they run, on the scheduler's wait queues and the interrupt-enable bit. */
module Sync {
  import opened Common
  import opened S = Sched
  import opened Schedulers
  import opened SpinLocks

  /** All events: which have _active set, and the thread queue each one owns. */
  class Events {
    const scheduler: Scheduler
    var active: set<EventId>

    constructor (s: Scheduler)
      ensures scheduler == s && active == {}
    {
      scheduler, active := s, {};
    }

    /** An event is constructed: unset, with nobody waiting. */
    method New(e: EventId)
      requires scheduler.Valid()
      modifies this, scheduler`lists
      ensures scheduler.Valid() && active == old(active) - {e}
      ensures scheduler.View() == S.NewQueue(old(scheduler.View()), EventQ(e))
    {
      hide S.NewQueue, Scheduler.View, Scheduler.Valid;
      active := active - {e};
      scheduler.NewQueue(EventQ(e));
    }

    method Set(e: EventId)
      requires scheduler.Valid() && Linked(scheduler.View()) && AllHomed(scheduler.View())
      modifies this, scheduler`lists, scheduler.threads.Values
      ensures scheduler.Valid() && Linked(scheduler.View()) && AllHomed(scheduler.View())
      ensures active == old(active) + {e} && scheduler.threads == old(scheduler.threads)
      ensures WakeAll(old(scheduler.View()), EventQ(e)) == Ok(scheduler.View())
    {
      hide Linked, AllHomed, WakeAll, Scheduler.View, Scheduler.Valid;
      active := active + {e};
      var woken := scheduler.WakeAllThreads(EventQ(e));
    }

    method Clear(e: EventId)
      modifies this
      ensures active == old(active) - {e}
    {
      active := active - {e};
    }

    /** wait, from the second test on. The first test, with interrupts on, saw the event unset, and
        since then anything may have happened. When the thread does not block, the interrupt state
        is put back; when it does, it is the switch that turns interrupts on again. */
    method WaitTestedUnset(e: EventId, hart: Hart) returns (r: Outcome<()>)
      requires scheduler.Valid()
      modifies hart, scheduler`lists, scheduler`current, scheduler.threads.Values
      ensures scheduler.Valid()
      ensures e in active ==> r.Ok? && hart.enabled == old(hart.enabled) && scheduler.View() == old(scheduler.View())
      ensures e !in active ==> !hart.enabled
      ensures e !in active && r.Ok? ==> S.SleepOn(old(scheduler.View()), EventQ(e)) == Ok(scheduler.View())
      ensures e !in active && r.Abort? ==> S.SleepOn(old(scheduler.View()), EventQ(e)) == Abort(r.reason)
    {
      hide S.SleepOn, Scheduler.View, Scheduler.Valid;
      var prevIntState := hart.enabled;
      hart.enabled := false;
      if e in active {
        if prevIntState {
          hart.enabled := true;
        }
        return Ok(());
      }
      r := scheduler.SleepOn(EventQ(e));
    }
  }

  class Mutex {
    const scheduler: Scheduler
    const queue: QueueId
    var locked: bool

    constructor (s: Scheduler, m: nat)
      ensures scheduler == s && queue == MutexQ(m) && !locked
    {
      scheduler, queue, locked := s, MutexQ(m), false;
    }

    /** The part of lock that runs with interrupts off: taken says whether the loop ends. */
    method Take() returns (taken: bool)
      modifies this
      ensures locked && (taken <==> !old(locked))
    {
      taken := !locked;
      if !locked {
        locked := true;
      }
    }

    method TryLock() returns (taken: bool)
      modifies this
      ensures locked && (taken <==> !old(locked))
    {
      taken := !locked;
      locked := true;
    }

    /** unlock, with wakeOneThread as it is written. */
    method Unlock() returns (r: Outcome<()>)
      requires scheduler.Valid()
      modifies this, scheduler`lists, scheduler.threads.Values
      ensures !locked && scheduler.Valid()
      ensures r.Ok? ==> WakeOneAsWritten(old(scheduler.View()), queue) == Ok(scheduler.View())
      ensures r.Abort? ==> WakeOneAsWritten(old(scheduler.View()), queue) == Abort(r.reason)
    {
      hide WakeOneAsWritten, Scheduler.View, Scheduler.Valid;
      locked := false;
      r := scheduler.WakeOneThread(queue);
    }
  }
}
