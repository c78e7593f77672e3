/** The interrupt handlers keep the invariant, and wake exactly the sleepers whose time has come. */
module KernelIrq {
  import opened Common
  import opened Pools
  import opened Sched
  import opened Timers
  import opened Kernel
  import opened KernelInv

  // ---------------------------------------------------------------- the timer interrupt

  ghost predicate Fired(fired: seq<Firing>, slot: nat) {
    exists f :: f in fired && f.slot == slot
  }

  function FiredQueues(fired: seq<Firing>): set<QueueId> {
    set f | f in fired :: EventQ(Slot(f.slot))
  }

  function FiredEvents(fired: seq<Firing>): set<EventId> {
    set f | f in fired :: Slot(f.slot)
  }

  lemma WokenTwice(a: map<Tid, Thread>, b: map<Tid, Thread>, c: map<Tid, Thread>, p: set<QueueId>, q: set<QueueId>)
    requires WokenBy(a, b, p) && WokenBy(b, c, q)
    ensures WokenBy(a, c, p + q)
  {
  }

  lemma WokenNone(a: map<Tid, Thread>)
    ensures WokenBy(a, a, {})
  {
  }

  lemma SetEventSpec(k: Kernel, e: EventId) returns (r: Kernel)
    requires ThreadsOk(k.sched)
    ensures SetEvent(k, e) == Ok(r) && r == k.(sched := r.sched, active := k.active + {e})
    ensures ThreadsOk(r.sched) && r.sched.current == k.sched.current
    ensures WokenBy(k.sched.threads, r.sched.threads, {EventQ(e)})
  {
    hide SchedOk, Running, WakeAll, WokenBy, Drained;
    var s := WakeAllKeeps(k.sched, EventQ(e));
    r := k.(sched := s, active := k.active + {e});
  }

  /** All fired events are set and all their waiters woken; nothing else happens. */
  lemma {:induction false} SetFiredSpec(k: Kernel, fired: seq<Firing>) returns (r: Kernel)
    requires ThreadsOk(k.sched)
    ensures SetFired(k, fired) == Ok(r) && r == k.(sched := r.sched, active := k.active + FiredEvents(fired))
    ensures ThreadsOk(r.sched) && r.sched.current == k.sched.current
    ensures WokenBy(k.sched.threads, r.sched.threads, FiredQueues(fired))
    decreases |fired|
  {
    hide ThreadsOk, SetEvent, WokenBy;
    if fired == [] {
      r := k;
      assert FiredQueues(fired) == {} && FiredEvents(fired) == {};
      assert k.active + {} == k.active;
      WokenNone(k.sched.threads);
    } else {
      var m := SetEventSpec(k, Slot(fired[0].slot));
      r := SetFiredSpec(m, fired[1..]);
      assert fired == [fired[0]] + fired[1..];
      assert FiredQueues(fired) == {EventQ(Slot(fired[0].slot))} + FiredQueues(fired[1..]);
      assert FiredEvents(fired) == {Slot(fired[0].slot)} + FiredEvents(fired[1..]);
      assert k.active + {Slot(fired[0].slot)} + FiredEvents(fired[1..]) == k.active + FiredEvents(fired);
      WokenTwice(k.sched.threads, m.sched.threads, r.sched.threads, {EventQ(Slot(fired[0].slot))}, FiredQueues(fired[1..]));
    }
  }

  lemma {:induction false} FiredIff(fired: seq<Firing>, slot: nat)
    ensures Fired(fired, slot) <==> FiredTimes(fired, slot) != []
  {
    if fired != [] {
      FiredIff(fired[1..], slot);
      assert fired == [fired[0]] + fired[1..];
    }
  }

  /** What the interrupt does to the event of a sleep_ns call. */
  lemma SettleSleeper(e: TimerEvent, now: nat, r: seq<TimerEvent>, fired: seq<Firing>)
    requires Settled(e, now, r, fired) && e.repeat == 0
    ensures Fired(fired, e.slot) <==> e.wake <= now
    ensures if e.wake <= now then !HasSlot(r, e.slot) else e in r
  {
    FiredIff(fired, e.slot);
  }

  /** The queue and the fired events around one timer interrupt. */
  ghost predicate Interrupted(q: seq<TimerEvent>, now: nat, r: seq<TimerEvent>, fired: seq<Firing>) {
    && (forall e :: e in q ==> Settled(e, now, r, fired))
    && (forall s :: HasSlot(r, s) ==> HasSlot(q, s))
    && (forall f :: f in fired ==> HasSlot(q, f.slot))
  }

  /** One sleeper. */
  lemma SleeperFate(k: Kernel, now: nat, r: Kernel, fired: seq<Firing>, pc: Pc)
    requires Interrupted(k.timers.queue, now, r.timers.queue, fired) && Pending(k, pc)
    ensures Fired(fired, pc.slot) <==> Deadline(pc.start, pc.ns, pc.freq) <= now
    ensures Fired(fired, pc.slot) ==> !HasSlot(r.timers.queue, pc.slot)
    ensures !Fired(fired, pc.slot) ==> Pending(r, pc)
  {
    var e :| e in k.timers.queue && IsTimerOf(e, pc);
    SettleSleeper(e, now, r.timers.queue, fired);
    hide Deadline, Settled, Fired;
  }

  lemma InFiredQueues(fired: seq<Firing>, e: EventId)
    ensures EventQ(e) in FiredQueues(fired) <==> e.Slot? && Fired(fired, e.slot)
    ensures e in FiredEvents(fired) <==> e.Slot? && Fired(fired, e.slot)
  {
  }

  lemma SleepersIrq(k: Kernel, now: nat, r: Kernel, fired: seq<Firing>)
    requires SleepersOk(k) && Interrupted(k.timers.queue, now, r.timers.queue, fired)
    requires r.info == k.info && r.owner == k.owner && r.active == k.active + FiredEvents(fired)
    requires forall t :: t in k.info && k.info[t].pc.SleepAsleep? ==>
      (Asleep(r, t) <==> Asleep(k, t) && EventQ(Slot(k.info[t].pc.slot)) !in FiredQueues(fired))
    ensures SleepersOk(r)
    ensures forall t :: t in k.info && k.info[t].pc.SleepAsleep? && Asleep(k, t) ==>
      (Asleep(r, t) <==> now < Deadline(k.info[t].pc.start, k.info[t].pc.ns, k.info[t].pc.freq))
  {
    hide FiredQueues, FiredEvents, Fired, HasSlot, Pending, Asleep, Deadline, Settled;
    forall e ensures EventQ(e) in FiredQueues(fired) <==> e.Slot? && Fired(fired, e.slot)
    {
      InFiredQueues(fired, e);
    }
    forall e ensures e in FiredEvents(fired) <==> e.Slot? && Fired(fired, e.slot)
    {
      InFiredQueues(fired, e);
    }
    forall t | t in k.info && k.info[t].pc.SleepAsleep? && Asleep(k, t)
      ensures var pc := k.info[t].pc;
        && (Fired(fired, pc.slot) <==> Deadline(pc.start, pc.ns, pc.freq) <= now)
        && (Fired(fired, pc.slot) ==> !HasSlot(r.timers.queue, pc.slot))
        && (!Fired(fired, pc.slot) ==> Pending(r, pc))
    {
      SleeperFate(k, now, r, fired, k.info[t].pc);
    }
  }

  lemma EventsIrq(k: Kernel, r: Kernel, fired: seq<Firing>)
    requires EventsOk(k) && r.info == k.info && r.active == k.active + FiredEvents(fired)
    requires forall t :: t in k.info && Asleep(r, t) ==>
      Asleep(k, t) && BlockedOn(k.info[t].pc).Some? && BlockedOn(k.info[t].pc).value !in FiredQueues(fired)
    ensures EventsOk(r)
  {
    forall e ensures EventQ(e) !in FiredQueues(fired) ==> e !in FiredEvents(fired) {
      InFiredQueues(fired, e);
    }
    SettingSame(k, r);
    hide FiredQueues, FiredEvents, Asleep, Setting;
  }

  /** The handler before the final reschedule. */
  lemma TimerHandlerKeeps(k: Kernel, now: nat) returns (r: Kernel)
    requires Inv(k) && LoopEnds(k.timers.queue, now)
    ensures TimerHandler(k, now) == Ok(r) && Inv(r)
    ensures r == k.(sched := r.sched, active := r.active, timers := r.timers)
    ensures r.sched.current == k.sched.current
    ensures r.timers == AfterInterrupt(k.timers, now).0
    ensures r.active == k.active + FiredEvents(AfterInterrupt(k.timers, now).1)
    ensures forall t :: t in k.info && k.info[t].pc.SleepAsleep? && Asleep(k, t) ==>
      (Asleep(r, t) <==> now < Deadline(k.info[t].pc.start, k.info[t].pc.ns, k.info[t].pc.freq))
    ensures forall t :: t in k.info && !Asleep(k, t) ==> !Asleep(r, t)
    ensures forall t :: t in k.sched.threads ==> t in r.sched.threads && r.sched.threads[t].priority == k.sched.threads[t].priority
    ensures WokenBy(k.sched.threads, r.sched.threads, FiredQueues(AfterInterrupt(k.timers, now).1))
  {
    hide SchedOk, Running, MutexOk, MasksOk, EventsOk, SleepersOk, RefsOk, InfoOk, PoolOk, QueueOk, HasSlot,
         FiredQueues, FiredEvents, Asleep, Deadline, Settled, AfterInterrupt, LoopEnds, SetFired, WokenBy;
    var timers, fired := InterruptKeeps(k.timers, now);
    r := SetFiredSpec(k.(timers := timers), fired);
    var qs := FiredQueues(fired);
    Homes(k.sched);
    InfoKeys(k);
    InfoWakes(k, r, qs);
    EventsIrq(k, r, fired);
    SleepersIrq(k, now, r, fired);
    MasksWakes(k, r);
    RefsSame(k, r);
    Priorities(k.sched.threads, r.sched.threads, qs);
  }

  lemma Priorities(a: map<Tid, Thread>, b: map<Tid, Thread>, qs: set<QueueId>)
    requires WokenBy(a, b, qs)
    ensures forall t :: t in a ==> t in b && b[t].priority == a[t].priority
  {
  }

  // ---------------------------------------------------------------- rescheduling

  lemma ReschedKeeps(k: Kernel) returns (r: Kernel)
    requires Inv(k)
    ensures Resched(k) == Ok(r) && Inv(r) && BestRuns(r.sched)
    ensures r == k.(sched := k.sched.(current := r.sched.current))
    ensures r.sched.current != k.sched.current ==>
      k.sched.threads[r.sched.current.value].priority < k.sched.threads[k.sched.current.value].priority
  {
    hide SchedOk, MutexOk, MasksOk, EventsOk, SleepersOk, RefsOk, InfoOk, SlotsOk, BestRuns, Reschedule;
    var s := RescheduleKeeps(k.sched);
    r := k.(sched := s);
    hide Running;
    InfoSame(k, r);
    EventsSame(k, r);
    SleepersSame(k, r);
    MasksWakes(k, r);
    RefsSame(k, r);
  }

  lemma InfoSame(k: Kernel, r: Kernel)
    requires InfoOk(k) && r.info == k.info && r.serials == k.serials && r.sched.threads == k.sched.threads
    ensures InfoOk(r) && forall t :: Asleep(r, t) <==> Asleep(k, t)
  {
    assert forall t :: Asleep(r, t) <==> Asleep(k, t);
    hide Asleep, BlockedOn;
  }

  lemma EventsSame(k: Kernel, r: Kernel)
    requires EventsOk(k) && r.info == k.info && r.active <= k.active && forall t :: Asleep(r, t) <==> Asleep(k, t)
    ensures EventsOk(r)
  {
    SettingSame(k, r);
    hide Asleep, Setting;
  }

  lemma SleepersSame(k: Kernel, r: Kernel)
    requires SleepersOk(k) && r.info == k.info && r.active <= k.active && r.timers == k.timers && r.owner == k.owner
    requires forall t :: Asleep(r, t) <==> Asleep(k, t)
    ensures SleepersOk(r)
  {
    forall pc ensures Pending(r, pc) == Pending(k, pc) {
      PendingSame(k, r, pc);
    }
    hide Asleep, Pending, HasSlot;
  }
}
