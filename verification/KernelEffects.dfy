/** What one action does to each part of the kernel: which other threads it wakes, which events it sets
    and clears, which interrupts it masks, who holds which mutex. Each is said for all actions at once. */
module KernelEffects {
  import opened Common
  import opened Pools
  import opened Sched
  import opened Timers
  import opened Kernel
  import opened KernelInv
  import opened KernelIrq
  import opened KernelSteps
  import opened KernelRuns
  import opened KernelSleep
  import opened KernelMutex
  import opened KernelLive
  import opened KernelOrder

  // ---------------------------------------------------------------- who is woken

  /** A timer in the slot has a time that the interrupt finds due. */
  ghost predicate Due(k: Kernel, slot: nat, now: nat) {
    exists e :: e in k.timers.queue && e.slot == slot && e.wake <= now
  }

  /** The action wakes everybody who waits on the queue. */
  ghost predicate WakesAll(k: Kernel, a: Action, q: QueueId) {
    match a
    case SetWake => HasMe(k) && MyPc(k).SetStored? && q == EventQ(MyPc(k).e)
    case SignalAll(n) => q == SignalQ(n)
    case TimerIrq(now) => q.EventQ? && q.event.Slot? && Due(k, q.event.slot, now)
    case ExternalIrq(rx, vsync, card, data) =>
      (rx && q == EventQ(UART_RX)) || (vsync && q == SignalQ(VSYNC)) || (card && q == CardQ) || (data && q == DataIdleQ)
    case _ => false
  }

  /** The action wakes the thread. */
  ghost predicate Wakes(k: Kernel, a: Action, t: Tid) {
    && t in k.sched.threads && k.sched.threads[t].hook.Some? && k.sched.threads[t].hook.value.WaitList?
    && var q := k.sched.threads[t].hook.value.queue;
       || WakesAll(k, a, q)
       || (a.Unlock? && q == MutexQ(a.m) && k.sched.List(WaitList(q)) != [] && k.sched.List(WaitList(q))[0] == t)
  }

  /** Every thread but the one that acts is as it was, or is Ready because the action woke it. */
  ghost predicate OthersWoken(k: Kernel, a: Action, r: Kernel) {
    forall t :: t in k.sched.threads && (ByThread(a) ==> HasMe(k) && t != Me(k)) ==>
      t in r.sched.threads
      && r.sched.threads[t] == if Wakes(k, a, t) then MadeReady(k.sched.threads[t]) else k.sched.threads[t]
  }

  lemma SomeWoken(k: Kernel, a: Action, r: Kernel, qs: set<QueueId>)
    requires WokenBy(k.sched.threads, r.sched.threads, qs) && !a.Unlock?
    requires forall q :: q in qs <==> WakesAll(k, a, q)
    ensures OthersWoken(k, a, r)
  {
    hide WakesAll;
  }

  lemma NobodyWoken(k: Kernel, a: Action, r: Kernel)
    requires forall q :: !WakesAll(k, a, q)
    requires !a.Unlock? && HasMe(k) && ByThread(a)
    requires forall t :: t in k.sched.threads && t != Me(k) ==> t in r.sched.threads && r.sched.threads[t] == k.sched.threads[t]
    ensures OthersWoken(k, a, r)
  {
    hide WakesAll;
  }

  lemma FiredDue(q: seq<TimerEvent>, now: nat, r: seq<TimerEvent>, fired: seq<Firing>, slot: nat)
    requires Interrupted(q, now, r, fired) && LoopEnds(q, now)
    ensures Fired(fired, slot) <==> exists e :: e in q && e.slot == slot && e.wake <= now
  {
    FiredIff(fired, slot);
    forall e | e in q && e.slot == slot ensures Fired(fired, slot) <==> e.wake <= now {
      DueTurns(e, now);
      assert Settled(e, now, r, fired);
    }
    hide Settled, LoopEnds;
    if Fired(fired, slot) {
      assert HasSlot(q, slot);
    }
  }

  lemma DueTurns(e: TimerEvent, now: nat)
    requires Leaves(e, now)
    ensures TurnsOf(e, now) > 0 <==> e.wake <= now
  {
    if e.wake <= now && e.repeat != 0 {
      AdvanceTurns(e, 0, now);
    }
  }

  lemma TimerIrqWakes(v: Version, k: Kernel, now: Word, r: Kernel)
    requires Inv(k) && Enabled(k, TimerIrq(now)) && Apply(v, k, TimerIrq(now)) == Ok(r)
    ensures OthersWoken(k, TimerIrq(now), r)
    ensures r.active == k.active + FiredEvents(AfterInterrupt(k.timers, now).1)
    ensures r.dataMasked == k.dataMasked && r.cardMasked == k.cardMasked
  {
    hide Inv, LoopEnds, Resched, TimerHandler, WokenBy, FiredQueues, FiredEvents, OthersWoken;
    var m := TimerHandlerKeeps(k, now);
    var s := ReschedKeeps(m);
    hide Enabled, Apply;
    forall q ensures q in FiredQueues(AfterInterrupt(k.timers, now).1) <==> WakesAll(k, TimerIrq(now), q) {
      FiredQueueDue(k, now, q);
    }
    hide WakesAll;
    SomeWoken(k, TimerIrq(now), r, FiredQueues(AfterInterrupt(k.timers, now).1));
  }

  lemma FiredQueueDue(k: Kernel, now: Word, q: QueueId)
    requires Inv(k) && LoopEnds(k.timers.queue, now)
    ensures q in FiredQueues(AfterInterrupt(k.timers, now).1) <==>
      q.EventQ? && q.event.Slot? && Due(k, q.event.slot, now)
    ensures forall e :: e in FiredEvents(AfterInterrupt(k.timers, now).1) <==> e.Slot? && Due(k, e.slot, now)
  {
    hide Inv, LoopEnds, AfterInterrupt, Due, Fired;
    var fired := AfterInterrupt(k.timers, now).1;
    FiredAreDue(k, now);
    forall e ensures EventQ(e) in FiredQueues(fired) <==> e.Slot? && Fired(fired, e.slot)
      ensures e in FiredEvents(fired) <==> e.Slot? && Fired(fired, e.slot)
    {
      InFiredQueues(fired, e);
    }
    OnlyEvents(fired, q);
    hide FiredQueues, FiredEvents;
  }

  lemma FiredAreDue(k: Kernel, now: Word)
    requires Inv(k) && LoopEnds(k.timers.queue, now)
    ensures forall s: nat :: Fired(AfterInterrupt(k.timers, now).1, s) <==> Due(k, s, now)
  {
    hide Inv, LoopEnds, TimersOk, AfterInterrupt, Settled, HasSlot, Due, Fired;
    TimersKnown(k);
    var r, fired := InterruptKeeps(k.timers, now);
    forall s: nat ensures Fired(fired, s) <==> Due(k, s, now) {
      FiredDue(k.timers.queue, now, r.queue, fired, s);
      DueIs(k, s, now);
    }
  }

  lemma DueIs(k: Kernel, slot: nat, now: nat)
    ensures Due(k, slot, now) <==> exists e :: e in k.timers.queue && e.slot == slot && e.wake <= now
  {
  }

  lemma OnlyEvents(fired: seq<Firing>, q: QueueId)
    ensures q in FiredQueues(fired) ==> q.EventQ?
  {
  }

  lemma TimersKnown(k: Kernel)
    requires Inv(k)
    ensures TimersOk(k.timers)
  {
    hide ThreadsOk, InfoOk, EventsOk, SleepersOk, RefsOk, MutexOk, MasksOk, TimersOk, PoolOk, HasSlot;
  }

  lemma ExternalIrqWakes(v: Version, k: Kernel, rx: bool, vsync: bool, card: bool, data: bool, r: Kernel)
    requires Inv(k) && Enabled(k, ExternalIrq(rx, vsync, card, data)) && Apply(v, k, ExternalIrq(rx, vsync, card, data)) == Ok(r)
    ensures OthersWoken(k, ExternalIrq(rx, vsync, card, data), r)
    ensures r.active == if rx then k.active + {UART_RX} else k.active
    ensures r.dataMasked == (data || k.dataMasked) && r.cardMasked == (card || k.cardMasked)
  {
    hide Inv, Resched, ExternalHandler, WokenBy, ExternalQueues, OthersWoken;
    var m := ExternalKeeps(k, rx, vsync, card, data);
    var s := ReschedKeeps(m);
    hide Enabled, Apply;
    ExternalQueuesAre(k, rx, vsync, card, data);
    hide WakesAll;
    SomeWoken(k, ExternalIrq(rx, vsync, card, data), r, ExternalQueues(rx, vsync, card, data));
  }

  lemma ExternalQueuesAre(k: Kernel, rx: bool, vsync: bool, card: bool, data: bool)
    ensures forall q :: q in ExternalQueues(rx, vsync, card, data) <==> WakesAll(k, ExternalIrq(rx, vsync, card, data), q)
  {
  }

  lemma LineWakes(v: Version, k: Kernel, a: Action, r: Kernel)
    requires Enabled(k, a) && (a.DataLine? || a.CardLine?) && Apply(v, k, a) == Ok(r)
    ensures OthersWoken(k, a, r)
    ensures r.active == k.active && r.dataMasked == k.dataMasked && r.cardMasked == k.cardMasked
  {
  }

  lemma SetWakes(v: Version, k: Kernel, a: Action, r: Kernel)
    requires Inv(k) && HasMe(k) && Enabled(k, a) && (a.SetWake? || a.SignalAll?) && Apply(v, k, a) == Ok(r)
    ensures OthersWoken(k, a, r)
  {
    hide Inv, Wake, OthersWoken, Usable, Freeable, WokenBy;
    if a.SetWake? {
      var s := SetWakeKeeps(k);
      SomeWoken(k, a, r, {EventQ(MyPc(k).e)});
    } else {
      var s := WakeInv(k, SignalQ(a.signal));
      SomeWoken(k, a, r, {SignalQ(a.signal)});
    }
  }

  lemma UnlockIntended(v: Version, k: Kernel, m: nat, r: Kernel)
    requires HasMe(k) && Enabled(k, Unlock(m)) && !HitsWakeOne(v, k, Unlock(m)) && Apply(v, k, Unlock(m)) == Ok(r)
    ensures WakeOneIntended(k.sched, MutexQ(m)) == Ok(r.sched)
  {
    hide WakeOneAsWritten, WakeOneIntended;
    if k.sched.List(WaitList(MutexQ(m))) == [] {
      NobodyToWake(k.sched, MutexQ(m));
    }
  }

  lemma UnlockWakes(v: Version, k: Kernel, m: nat, r: Kernel)
    requires Inv(k) && HasMe(k) && Enabled(k, Unlock(m)) && !HitsWakeOne(v, k, Unlock(m)) && Apply(v, k, Unlock(m)) == Ok(r)
    ensures OthersWoken(k, Unlock(m), r)
  {
    hide Inv, Enabled, Apply, HitsWakeOne, OthersWoken, SchedOk, Running, WakeOneIntended;
    SchedKnown(k);
    UnlockIntended(v, k, m, r);
    var w := WakeOneIntendedKeeps(k.sched, MutexQ(m));
    FrontWoken(k, m, r);
  }

  lemma FrontWoken(k: Kernel, m: nat, r: Kernel)
    requires HasMe(k)
    requires k.sched.List(WaitList(MutexQ(m))) == [] ==> r.sched == k.sched
    requires k.sched.List(WaitList(MutexQ(m))) != [] ==>
      var t := k.sched.List(WaitList(MutexQ(m)))[0];
      && t in k.sched.threads && k.sched.threads[t].hook == Some(WaitList(MutexQ(m)))
      && r.sched.threads == k.sched.threads[t := MadeReady(k.sched.threads[t])]
    ensures OthersWoken(k, Unlock(m), r)
  {
  }

  lemma CreatedSched(v: Version, k: Kernel, high: bool, sd: bool, r: Kernel)
    requires HasMe(k) && Enabled(k, Create(high, sd)) && Apply(v, k, Create(high, sd)) == Ok(r)
    ensures CreateThread(k.sched, high).Ok? && r.sched == CreateThread(k.sched, high).value.0
  {
    hide CreateThread;
  }

  lemma CreateWakes(v: Version, k: Kernel, high: bool, sd: bool, r: Kernel)
    requires Inv(k) && HasMe(k) && Enabled(k, Create(high, sd)) && Apply(v, k, Create(high, sd)) == Ok(r)
    ensures OthersWoken(k, Create(high, sd), r)
  {
    hide Inv, SchedOk, Running, CreateThread, Enabled, Apply;
    SchedKnown(k);
    CreatedSched(v, k, high, sd, r);
    CreateThreadFailsIff(k.sched, high);
    var s, t := CreateThreadKeeps(k.sched, high);
    NobodyWoken(k, Create(high, sd), r);
  }

  lemma StopWakes(v: Version, k: Kernel, r: Kernel)
    requires Inv(k) && HasMe(k) && Enabled(k, Stop) && Apply(v, k, Stop) == Ok(r)
    ensures OthersWoken(k, Stop, r)
  {
    hide Inv, BestRuns;
    var s := StopKeeps(v, k);
    hide Enabled, Apply;
    NobodyWoken(k, Stop, r);
  }

  /** A thread that blocks is Sleeping on the queue, at the point it blocks at; no other thread moves. */
  lemma BlockedIs(k: Kernel, q: QueueId, pc: Pc, r: Kernel)
    requires ThreadsOk(k.sched) && HasMe(k) && Me(k) != IDLE && Block(k, q, pc) == Ok(r)
    ensures r == At(k, pc).(sched := r.sched)
    ensures Me(k) in k.sched.threads
    ensures r.sched.threads == k.sched.threads[Me(k) := Thread(Sleeping, k.sched.threads[Me(k)].priority, Some(WaitList(q)))]
  {
    hide SchedOk, BestRuns, SleepOn;
    var s := SleepOnKeeps(k.sched, q);
  }

  lemma BlockWakes(k: Kernel, u: Kernel, q: QueueId, pc: Pc, a: Action, r: Kernel)
    requires ThreadsOk(u.sched) && HasMe(k) && HasMe(u) && Me(u) == Me(k) != IDLE && Block(u, q, pc) == Ok(r)
    requires u.sched.threads == k.sched.threads && Sleeps(a)
    ensures OthersWoken(k, a, r)
  {
    hide ThreadsOk, Block;
    BlockedIs(u, q, pc, r);
    NobodyWoken(k, a, r);
  }

  lemma WaitSleepWakes(v: Version, k: Kernel, r: Kernel)
    requires ThreadsOk(k.sched) && HasMe(k) && Enabled(k, WaitSleep) && Apply(v, k, WaitSleep) == Ok(r)
    ensures OthersWoken(k, WaitSleep, r)
  {
    hide ThreadsOk, Block, OthersWoken;
    if MyPc(k).e in k.active {
      Unmoved(k, WaitSleep, r);
    } else {
      BlockWakes(k, k, EventQ(MyPc(k).e), WaitAsleep(MyPc(k).e), WaitSleep, r);
    }
  }

  lemma SignalWaitWakes(v: Version, k: Kernel, n: nat, r: Kernel)
    requires ThreadsOk(k.sched) && HasMe(k) && Enabled(k, SignalWait(n)) && Apply(v, k, SignalWait(n)) == Ok(r)
    ensures OthersWoken(k, SignalWait(n), r)
  {
    hide ThreadsOk, Block, OthersWoken;
    BlockWakes(k, k, SignalQ(n), SignalAsleep(n), SignalWait(n), r);
  }

  lemma LockSleepWakes(v: Version, k: Kernel, r: Kernel)
    requires ThreadsOk(k.sched) && HasMe(k) && Enabled(k, LockSleep) && Apply(v, k, LockSleep) == Ok(r)
    ensures OthersWoken(k, LockSleep, r)
  {
    hide ThreadsOk, Block, OthersWoken;
    BlockWakes(k, k, MutexQ(MyPc(k).m), Locking(MyPc(k).m), LockSleep, r);
  }

  lemma SleepsWake(v: Version, k: Kernel, a: Action, r: Kernel)
    requires Inv(k) && HasMe(k) && Enabled(k, a) && Sleeps(a) && !a.SleepNs? && Apply(v, k, a) == Ok(r)
    ensures OthersWoken(k, a, r)
  {
    hide Inv, ThreadsOk, Enabled, Apply, OthersWoken;
    ThreadsKnown(k);
    match a {
      case WaitSleep => WaitSleepWakes(v, k, r);
      case SignalWait(n) => SignalWaitWakes(v, k, n, r);
      case LockSleep => LockSleepWakes(v, k, r);
      case DataTest => DataTestWakes(v, k, r);
      case CardWait(checked) => CardWaitWakes(v, k, checked, r);
    }
  }

  lemma Unmoved(k: Kernel, a: Action, r: Kernel)
    requires HasMe(k) && ByThread(a) && r.sched == k.sched && !a.Unlock? && !a.SetWake? && !a.SignalAll?
    ensures OthersWoken(k, a, r)
  {
  }

  lemma DataTestWakes(v: Version, k: Kernel, r: Kernel)
    requires ThreadsOk(k.sched) && HasMe(k) && Enabled(k, DataTest) && Apply(v, k, DataTest) == Ok(r)
    ensures OthersWoken(k, DataTest, r)
  {
    hide ThreadsOk, Block, OthersWoken;
    if k.dataLine {
      Unmoved(k, DataTest, r);
    } else {
      BlockWakes(k, k.(dataMasked := false), DataIdleQ, DataWait, DataTest, r);
    }
  }

  lemma CardWaitWakes(v: Version, k: Kernel, checked: bool, r: Kernel)
    requires ThreadsOk(k.sched) && HasMe(k) && Enabled(k, CardWait(checked)) && Apply(v, k, CardWait(checked)) == Ok(r)
    ensures OthersWoken(k, CardWait(checked), r)
  {
    hide ThreadsOk, Block, OthersWoken;
    if checked && !k.cardIn {
      Unmoved(k, CardWait(checked), r);
    } else {
      BlockWakes(k, k.(cardMasked := false), CardQ, CardAsleep, CardWait(checked), r);
    }
  }

  lemma SleepNsWakes(v: Version, k: Kernel, now: Word, ns: Word, freq: nat, r: Kernel)
    requires Inv(k) && HasMe(k) && Enabled(k, SleepNs(now, ns, freq)) && Apply(v, k, SleepNs(now, ns, freq)) == Ok(r)
    ensures OthersWoken(k, SleepNs(now, ns, freq), r)
  {
    hide Inv, Block, NewTimer, Deadline, ThreadsOk, OthersWoken;
    SleepNsFacts(v, k, SleepNs(now, ns, freq));
    var d := Deadline(now, ns, freq);
    var u, slot := NewTimerFacts(k, d, 0, Sleeper(Me(k)));
    BlockWakes(k, u, EventQ(Slot(slot)), SleepAsleep(slot, now, ns, freq), SleepNs(now, ns, freq), r);
  }

  lemma RegisterIs(v: Version, k: Kernel, trigger: Word, repeat: Word, r: Kernel)
    requires HasMe(k) && Enabled(k, RegisterTimer(trigger, repeat)) && Apply(v, k, RegisterTimer(trigger, repeat)) == Ok(r)
    ensures NewTimer(k, trigger, repeat, Handle).Ok? && r == NewTimer(k, trigger, repeat, Handle).value.0
  {
    hide NewTimer;
  }

  lemma RegisterWakes(v: Version, k: Kernel, trigger: Word, repeat: Word, r: Kernel)
    requires Inv(k) && HasMe(k) && Enabled(k, RegisterTimer(trigger, repeat)) && Apply(v, k, RegisterTimer(trigger, repeat)) == Ok(r)
    ensures OthersWoken(k, RegisterTimer(trigger, repeat), r)
  {
    hide Inv, NewTimer, Enabled, Apply;
    RegisterIs(v, k, trigger, repeat, r);
    NewTimerOk(k, trigger, repeat, Handle);
    var u, slot := NewTimerFacts(k, trigger, repeat, Handle);
    NobodyWoken(k, RegisterTimer(trigger, repeat), r);
  }

  lemma NewTimerOk(k: Kernel, trigger: Word, repeat: Word, owner: Owner)
    requires NewTimer(k, trigger, repeat, owner).Ok?
    ensures Alloc(k.timers.pool).Ok?
  {
  }

  lemma QuietWakes(v: Version, k: Kernel, a: Action, r: Kernel)
    requires HasMe(k) && Enabled(k, a) && ByThread(a) && Apply(v, k, a) == Ok(r) && !Sleeps(a)
    requires !(a.SetWake? || a.SignalAll? || a.Unlock? || a.Stop? || a.Create? || a.RegisterTimer?)
    ensures OthersWoken(k, a, r)
  {
    hide Enabled, Apply;
    SameSched(v, k, a);
    Unmoved(k, a, r);
  }

  /** Over all actions: a thread other than the one that acts is woken exactly if Wakes says so, and is
      then Ready at its own priority; otherwise nothing about it changes. */
  lemma WokenExactly(v: Version, k: Kernel, a: Action, r: Kernel)
    requires Inv(k) && Enabled(k, a) && !HitsWakeOne(v, k, a) && Apply(v, k, a) == Ok(r)
    ensures OthersWoken(k, a, r)
  {
    hide Inv, Enabled, HitsWakeOne, Apply, OthersWoken;
    MeKnown(k);
    if !ByThread(a) {
      InterruptWakes(v, k, a, r);
    } else if Sleeps(a) {
      if a.SleepNs? { SleepNsWakes(v, k, a.now, a.ns, a.freq, r); } else { SleepsWake(v, k, a, r); }
    } else if a.Create? || a.Stop? || a.RegisterTimer? {
      BirthWakes(v, k, a, r);
    } else if a.Unlock? {
      UnlockWakes(v, k, a.m, r);
    } else if a.SetWake? || a.SignalAll? {
      SetWakes(v, k, a, r);
    } else {
      QuietWakes(v, k, a, r);
    }
  }

  lemma InterruptWakes(v: Version, k: Kernel, a: Action, r: Kernel)
    requires Inv(k) && Enabled(k, a) && !ByThread(a) && Apply(v, k, a) == Ok(r)
    ensures OthersWoken(k, a, r)
  {
    hide Inv, Enabled, Apply, OthersWoken;
    if a.TimerIrq? {
      TimerIrqWakes(v, k, a.now, r);
    } else if a.ExternalIrq? {
      ExternalIrqWakes(v, k, a.rx, a.vsync, a.card, a.data, r);
    } else {
      LineWakes(v, k, a, r);
    }
  }

  lemma BirthWakes(v: Version, k: Kernel, a: Action, r: Kernel)
    requires Inv(k) && HasMe(k) && Enabled(k, a) && (a.Create? || a.Stop? || a.RegisterTimer?) && Apply(v, k, a) == Ok(r)
    ensures OthersWoken(k, a, r)
  {
    hide Inv, Enabled, Apply, OthersWoken;
    match a {
      case Create(high, sd) => CreateWakes(v, k, high, sd, r);
      case Stop => StopWakes(v, k, r);
      case RegisterTimer(trigger, repeat) => RegisterWakes(v, k, trigger, repeat, r);
    }
  }

  // ---------------------------------------------------------------- in what order

  function Waiters(s: Sched, on: bool, q: QueueId): seq<Tid> {
    if on then s.List(WaitList(q)) else []
  }

  /** The same threads, of the same priorities. */
  ghost predicate AlikePriorities(s: Sched, w: Sched) {
    w.threads.Keys == s.threads.Keys && forall t :: t in s.threads ==> w.threads[t].priority == s.threads[t].priority
  }

  lemma QueueLives(s: Sched, on: bool, q: QueueId)
    requires SchedOk(s)
    ensures forall t :: t in Waiters(s, on, q) ==> t in s.threads
  {
    hide AllHomed, IdleOk, PoolOk;
    WaitersLive(s, WaitList(q));
    hide Linked;
  }

  /** One source's waiters go, in order, to the ends of the ready lists; the other sources' stay. */
  lemma SourceInOrder(s: Sched, u: Sched, on: bool, q: QueueId) returns (w: Sched)
    requires SchedOk(u) && AlikePriorities(s, u)
    ensures on ==> WakeAll(u, q) == Ok(w)
    ensures !on ==> w == u
    ensures SchedOk(w) && AlikePriorities(s, w)
    ensures forall t :: t in Waiters(u, on, q) ==> t in s.threads
    ensures forall p :: w.List(ReadyList(p)) == u.List(ReadyList(p)) + OfPriority(Waiters(u, on, q), s.threads, p)
    ensures forall r :: r != q ==> w.List(WaitList(r)) == u.List(WaitList(r))
  {
    hide SchedOk, WakeAll, Running;
    QueueLives(u, on, q);
    if on {
      w := WakeAllKeeps(u, q);
      forall p ensures OfPriority(u.List(WaitList(q)), u.threads, p) == OfPriority(u.List(WaitList(q)), s.threads, p) {
        OfPrioritySame(u.List(WaitList(q)), u.threads, s.threads, p);
      }
    } else {
      w := u;
      forall p ensures OfPriority([], s.threads, p) == [] {
      }
      assert forall p :: u.List(ReadyList(p)) + [] == u.List(ReadyList(p));
    }
  }

  /** The external handlers put the receive event's waiters first, then the display's, the card's and the
      data line's, each in the order they had queued in, at the ends of the ready lists. */
  lemma ExternalInOrder(k: Kernel, rx: bool, vsync: bool, card: bool, data: bool, r: Kernel)
    requires Inv(k) && ExternalHandler(k, rx, vsync, card, data) == Ok(r)
    ensures var s := k.sched;
      var a, b := Waiters(s, rx, EventQ(UART_RX)), Waiters(s, vsync, SignalQ(VSYNC));
      var c, d := Waiters(s, card, CardQ), Waiters(s, data, DataIdleQ);
      && (forall t :: t in a + b + c + d ==> t in s.threads)
      && forall p :: r.sched.List(ReadyList(p)) == s.List(ReadyList(p))
           + OfPriority(a, s.threads, p) + OfPriority(b, s.threads, p) + OfPriority(c, s.threads, p) + OfPriority(d, s.threads, p)
  {
    SchedKnown(k);
    hide Inv, SchedOk, Running, ExternalHandler, OfPriority, Waiters;
    var s1, s2, s3, s4 := FourInOrder(k.sched, rx, vsync, card, data);
    HandlerIs(k, rx, vsync, card, data, s1, s2, s3, s4, r);
  }

  ghost predicate StepsTo(s: Sched, on: bool, q: QueueId, w: Sched) {
    if on then WakeAll(s, q) == Ok(w) else w == s
  }

  lemma FourInOrder(s: Sched, rx: bool, vsync: bool, card: bool, data: bool) returns (s1: Sched, s2: Sched, s3: Sched, s4: Sched)
    requires SchedOk(s)
    ensures StepsTo(s, rx, EventQ(UART_RX), s1) && StepsTo(s1, vsync, SignalQ(VSYNC), s2)
    ensures StepsTo(s2, card, CardQ, s3) && StepsTo(s3, data, DataIdleQ, s4)
    ensures var a, b := Waiters(s, rx, EventQ(UART_RX)), Waiters(s, vsync, SignalQ(VSYNC));
      var c, d := Waiters(s, card, CardQ), Waiters(s, data, DataIdleQ);
      && (forall t :: t in a + b + c + d ==> t in s.threads)
      && forall p :: s4.List(ReadyList(p)) == s.List(ReadyList(p))
           + OfPriority(a, s.threads, p) + OfPriority(b, s.threads, p) + OfPriority(c, s.threads, p) + OfPriority(d, s.threads, p)
  {
    hide SchedOk, WakeAll, AlikePriorities, OfPriority;
    SelfAlike(s);
    s1 := SourceInOrder(s, s, rx, EventQ(UART_RX));
    s2 := SourceInOrder(s, s1, vsync, SignalQ(VSYNC));
    s3 := SourceInOrder(s, s2, card, CardQ);
    s4 := SourceInOrder(s, s3, data, DataIdleQ);
  }

  lemma HandlerIs(k: Kernel, rx: bool, vsync: bool, card: bool, data: bool, s1: Sched, s2: Sched, s3: Sched, s4: Sched, r: Kernel)
    requires StepsTo(k.sched, rx, EventQ(UART_RX), s1) && StepsTo(s1, vsync, SignalQ(VSYNC), s2)
    requires StepsTo(s2, card, CardQ, s3) && StepsTo(s3, data, DataIdleQ, s4)
    requires ExternalHandler(k, rx, vsync, card, data) == Ok(r)
    ensures r.sched == s4
  {
    hide WakeAll;
  }

  lemma SelfAlike(s: Sched)
    ensures AlikePriorities(s, s)
  {
  }

  // ---------------------------------------------------------------- what a call leaves alone

  lemma ThreadStepIs(v: Version, k: Kernel, a: Action, r: Kernel)
    requires Enabled(k, a) && ByThread(a) && Apply(v, k, a) == Ok(r)
    ensures HasMe(k) && ThreadStep(v, k, a) == Ok(r)
  {
    hide ThreadStep;
  }

  /** The action makes the thread named x the holder of m. */
  predicate Acquires(k: Kernel, a: Action, x: nat, m: nat) {
    && HasMe(k) && x == MySerial(k) && m !in k.locked
    && (a == TryLock(m) || (a.LockTake? && MyPc(k) == LockSawFree(m)))
  }

  predicate Releases(k: Kernel, a: Action, x: nat, m: nat) {
    a == Unlock(m) && HasMe(k) && x == MySerial(k)
  }

  ghost predicate HeldAsSaid(k: Kernel, a: Action, r: Kernel, x: nat, m: nat) {
    (x, m) in r.held <==> Acquires(k, a, x, m) || ((x, m) in k.held && !Releases(k, a, x, m))
  }

  lemma TakeFrame(v: Version, k: Kernel, r: Kernel, x: nat, m: nat)
    requires HasMe(k) && ThreadStep(v, k, LockTake) == Ok(r)
    ensures SameDevices(k, r) && HeldAsSaid(k, LockTake, r, x, m)
  {
    if MyPc(k).LockSawFree? && MyPc(k).m !in k.locked {
      TakenFrame(v, k, r);
    } else {
      NotTakenFrame(v, k, r);
    }
    hide ThreadStep;
  }

  lemma TakenFrame(v: Version, k: Kernel, r: Kernel)
    requires HasMe(k) && MyPc(k).LockSawFree? && MyPc(k).m !in k.locked && ThreadStep(v, k, LockTake) == Ok(r)
    ensures SameDevices(k, r) && r.held == k.held + {(MySerial(k), MyPc(k).m)}
  {
  }

  lemma NotTakenFrame(v: Version, k: Kernel, r: Kernel)
    requires HasMe(k) && !(MyPc(k).LockSawFree? && MyPc(k).m !in k.locked) && ThreadStep(v, k, LockTake) == Ok(r)
    ensures SameDevices(k, r) && r.held == k.held
  {
  }

  lemma TryFrame(v: Version, k: Kernel, n: nat, r: Kernel, x: nat, m: nat)
    requires HasMe(k) && ThreadStep(v, k, TryLock(n)) == Ok(r)
    ensures SameDevices(k, r) && HeldAsSaid(k, TryLock(n), r, x, m)
  {
  }

  lemma UnlockFrame(v: Version, k: Kernel, n: nat, r: Kernel, x: nat, m: nat)
    requires HasMe(k) && ThreadStep(v, k, Unlock(n)) == Ok(r)
    ensures SameDevices(k, r) && HeldAsSaid(k, Unlock(n), r, x, m)
  {
    hide WakeOneAsWritten, WakeOneIntended;
  }

  lemma CreateFrame(v: Version, k: Kernel, high: bool, sd: bool, r: Kernel, x: nat, m: nat)
    requires HasMe(k) && ThreadStep(v, k, Create(high, sd)) == Ok(r)
    ensures SameDevices(k, r) && HeldAsSaid(k, Create(high, sd), r, x, m)
  {
    hide CreateThread;
  }

  lemma NamingFrame(v: Version, k: Kernel, a: Action, r: Kernel, x: nat, m: nat)
    requires HasMe(k) && Naming(a) && ThreadStep(v, k, a) == Ok(r)
    ensures SameDevices(k, r) && HeldAsSaid(k, a, r, x, m)
  {
    hide ThreadStep, HeldAsSaid;
    match a {
      case LockTake => TakeFrame(v, k, r, x, m);
      case TryLock(n) => TryFrame(v, k, n, r, x, m);
      case Unlock(n) => UnlockFrame(v, k, n, r, x, m);
      case Create(high, sd) => CreateFrame(v, k, high, sd, r, x, m);
    }
  }

  /** The call leaves timers and events alone. */
  lemma CallFrame(v: Version, k: Kernel, a: Action, r: Kernel)
    requires HasMe(k) && ByThread(a) && ThreadStep(v, k, a) == Ok(r)
    requires !a.SleepNs? && !a.RegisterTimer? && !a.SetStore? && !a.Clear? && !a.SleepReturn? && !a.FreeTimer?
    ensures r.active == k.active && r.timers == k.timers && r.owner == k.owner
    ensures !a.DataTest? && !a.CardWait? && !a.CardMask? ==> r.dataMasked == k.dataMasked && r.cardMasked == k.cardMasked
  {
    hide ThreadStep;
    if a.DataTest? || a.CardWait? {
      DeviceFrame(v, k, a, r);
    } else if Sleeps(a) {
      SleepFrame(v, k, a, r);
    } else if Naming(a) {
      NamingFrame(v, k, a, r, 0, 0);
    } else if a.SetWake? || a.SignalAll? || a.Stop? {
      WakeFrame(v, k, a, r);
    } else {
      PlainFrame(v, k, a, r);
    }
  }

  lemma SleepFrame(v: Version, k: Kernel, a: Action, r: Kernel)
    requires HasMe(k) && (a.WaitSleep? || a.SignalWait? || a.LockSleep?) && ThreadStep(v, k, a) == Ok(r)
    ensures SameDevices(k, r)
  {
    hide Block;
    match a {
      case WaitSleep => if MyPc(k).WaitTested? { BlockFrame(k, EventQ(MyPc(k).e), WaitAsleep(MyPc(k).e)); }
      case SignalWait(n) => BlockFrame(k, SignalQ(n), SignalAsleep(n));
      case LockSleep => if MyPc(k).LockSawHeld? { BlockFrame(k, MutexQ(MyPc(k).m), Locking(MyPc(k).m)); }
    }
  }

  lemma DeviceFrame(v: Version, k: Kernel, a: Action, r: Kernel)
    requires HasMe(k) && (a.DataTest? || a.CardWait?) && ThreadStep(v, k, a) == Ok(r)
    ensures r.active == k.active && r.timers == k.timers && r.owner == k.owner
  {
    hide Block;
    BlockFrame(k.(dataMasked := false), DataIdleQ, DataWait);
    BlockFrame(k.(cardMasked := false), CardQ, CardAsleep);
  }

  predicate SameDevices(k: Kernel, r: Kernel) {
    && r.active == k.active && r.timers == k.timers && r.owner == k.owner
    && r.dataMasked == k.dataMasked && r.cardMasked == k.cardMasked
  }

  lemma BlockFrame(k: Kernel, q: QueueId, pc: Pc)
    requires HasMe(k)
    ensures Block(k, q, pc).Ok? ==> SameDevices(k, Block(k, q, pc).value)
  {
    hide SleepOn;
  }

  lemma WakeFrame(v: Version, k: Kernel, a: Action, r: Kernel)
    requires HasMe(k) && (a.SetWake? || a.SignalAll? || a.Stop?) && ThreadStep(v, k, a) == Ok(r)
    ensures SameDevices(k, r)
  {
    hide WakeAll, StopThread;
  }

  lemma PlainFrame(v: Version, k: Kernel, a: Action, r: Kernel)
    requires HasMe(k) && Plain(a) && ThreadStep(v, k, a) == Ok(r)
    requires !a.SetStore? && !a.Clear? && !a.SleepReturn? && !a.FreeTimer? && !a.LockTake? && !a.TryLock?
    ensures r.active == k.active && r.timers == k.timers && r.owner == k.owner
    ensures r.dataMasked == k.dataMasked && (!a.CardMask? ==> r.cardMasked == k.cardMasked)
  {
    hide ThreadStep;
    if a.LockEnter? || a.LockTest? || a.DataEnter? {
      EnterFrame(v, k, a, r);
    } else {
      TestFrame(v, k, a, r);
    }
  }

  lemma EnterFrame(v: Version, k: Kernel, a: Action, r: Kernel)
    requires HasMe(k) && (a.LockEnter? || a.LockTest? || a.DataEnter?) && ThreadStep(v, k, a) == Ok(r)
    ensures SameDevices(k, r)
  {
  }

  lemma TestFrame(v: Version, k: Kernel, a: Action, r: Kernel)
    requires HasMe(k) && (a.Wfi? || a.WaitTest? || a.WaitReturn? || a.CardMask?) && ThreadStep(v, k, a) == Ok(r)
    ensures r.active == k.active && r.timers == k.timers && r.owner == k.owner
    ensures r.dataMasked == k.dataMasked && (!a.CardMask? ==> r.cardMasked == k.cardMasked)
  {
  }

  lemma EventFrame(v: Version, k: Kernel, a: Action, r: Kernel)
    requires HasMe(k) && (a.SleepNs? || a.RegisterTimer? || a.SetStore? || a.Clear?) && ThreadStep(v, k, a) == Ok(r)
    ensures r == k.(sched := r.sched, info := r.info, active := r.active, timers := r.timers, owner := r.owner)
  {
    hide SleepOn, Register, Deadline;
  }

  lemma DropFrame(v: Version, k: Kernel, a: Action, r: Kernel)
    requires HasMe(k) && (a.SleepReturn? || a.FreeTimer?) && ThreadStep(v, k, a) == Ok(r)
    ensures r == k.(info := r.info, timers := r.timers, owner := r.owner) && r.owner.Keys <= k.owner.Keys
    ensures r.timers.queue == k.timers.queue
  {
  }

  // ---------------------------------------------------------------- which events are set

  /** The action sets the event. */
  ghost predicate Sets(k: Kernel, a: Action, e: EventId) {
    || a == SetStore(e)
    || (a.ExternalIrq? && a.rx && e == UART_RX)
    || (a.TimerIrq? && e.Slot? && Due(k, e.slot, a.now))
  }

  /** The event is cleared, or a new one is built in a timer slot that was free. */
  predicate Unsets(k: Kernel, a: Action, r: Kernel, e: EventId) {
    a == Clear(e) || (e.Slot? && e.slot !in k.owner && e.slot in r.owner)
  }

  ghost predicate ActiveAsSaid(k: Kernel, a: Action, r: Kernel) {
    forall e :: e in r.active <==> Sets(k, a, e) || (e in k.active && !Unsets(k, a, r, e))
  }

  lemma NewTimerActive(k: Kernel, trigger: Word, repeat: Word, owner: Owner)
    requires NewTimer(k, trigger, repeat, owner).Ok? && PoolOk(k.timers.pool, k.owner.Keys)
    ensures var (r, i) := NewTimer(k, trigger, repeat, owner).value;
      && i !in k.owner && r.active == k.active - {Slot(i)} && r.owner == k.owner[i := owner]
      && r.sched.current == k.sched.current && r.info == k.info
  {
    AllocKeeps(k.timers.pool, k.owner.Keys);
    hide PoolOk, Alloc;
  }

  lemma NewTimerSets(v: Version, k: Kernel, a: Action, r: Kernel)
    requires HasMe(k) && (a.SleepNs? || a.RegisterTimer?) && ThreadStep(v, k, a) == Ok(r)
    requires PoolOk(k.timers.pool, k.owner.Keys)
    ensures ActiveAsSaid(k, a, r)
  {
    hide NewTimer, SleepOn, Deadline;
    if a.SleepNs? {
      NewTimerActive(k, Deadline(a.now, a.ns, a.freq), 0, Sleeper(Me(k)));
    } else {
      NewTimerActive(k, a.trigger, a.repeat, Handle);
    }
  }

  lemma InterruptSets(v: Version, k: Kernel, a: Action, r: Kernel)
    requires Inv(k) && Enabled(k, a) && !ByThread(a) && Apply(v, k, a) == Ok(r)
    ensures ActiveAsSaid(k, a, r)
  {
    hide Inv, Enabled, Apply, OthersWoken, FiredEvents, Due, ActiveAsSaid;
    InterruptInfo(v, k, a, r);
    if a.TimerIrq? {
      TimerIrqWakes(v, k, a.now, r);
      IrqEnds(k, a.now);
      TimerEvents(k, a.now, r);
    } else if a.ExternalIrq? {
      ExternalIrqWakes(v, k, a.rx, a.vsync, a.card, a.data, r);
      ExternalEvents(k, a, r);
    } else {
      LineWakes(v, k, a, r);
      ExternalEvents(k, a, r);
    }
  }

  lemma IrqEnds(k: Kernel, now: Word)
    requires Enabled(k, TimerIrq(now))
    ensures LoopEnds(k.timers.queue, now)
  {
    hide LoopEnds;
  }

  lemma TimerEvents(k: Kernel, now: Word, r: Kernel)
    requires Inv(k) && LoopEnds(k.timers.queue, now) && r.owner == k.owner
    requires r.active == k.active + FiredEvents(AfterInterrupt(k.timers, now).1)
    ensures ActiveAsSaid(k, TimerIrq(now), r)
  {
    hide Inv, LoopEnds, FiredEvents, Due, FiredQueues;
    FiredQueueDue(k, now, CardQ);
  }

  lemma ExternalEvents(k: Kernel, a: Action, r: Kernel)
    requires !ByThread(a) && !a.TimerIrq? && r.owner == k.owner
    requires r.active == if a.ExternalIrq? && a.rx then k.active + {UART_RX} else k.active
    ensures ActiveAsSaid(k, a, r)
  {
  }

  /** A thread's action that asks no timer slot for anything sets and clears at most one event. */
  lemma CallSets(v: Version, k: Kernel, a: Action, r: Kernel)
    requires HasMe(k) && ByThread(a) && !a.SleepNs? && !a.RegisterTimer? && ThreadStep(v, k, a) == Ok(r)
    ensures ActiveAsSaid(k, a, r)
  {
    hide ThreadStep;
    if a.SetStore? || a.Clear? {
      OneEvent(v, k, a, r);
    } else {
      NoEvent(v, k, a, r);
    }
  }

  lemma OneEvent(v: Version, k: Kernel, a: Action, r: Kernel)
    requires HasMe(k) && (a.SetStore? || a.Clear?) && ThreadStep(v, k, a) == Ok(r)
    ensures r.owner == k.owner && r.active == if a.SetStore? then k.active + {a.e} else k.active - {a.e}
  {
  }

  lemma NoEvent(v: Version, k: Kernel, a: Action, r: Kernel)
    requires HasMe(k) && ByThread(a) && !a.SleepNs? && !a.RegisterTimer? && !a.SetStore? && !a.Clear? && ThreadStep(v, k, a) == Ok(r)
    ensures r.active == k.active && r.owner.Keys <= k.owner.Keys
  {
    hide ThreadStep;
    if a.SleepReturn? || a.FreeTimer? {
      DropFrame(v, k, a, r);
    } else {
      CallFrame(v, k, a, r);
    }
  }

  lemma SlotsKnown(k: Kernel)
    requires Inv(k)
    ensures PoolOk(k.timers.pool, k.owner.Keys)
  {
    hide ThreadsOk, InfoOk, EventsOk, SleepersOk, RefsOk, MutexOk, MasksOk, TimersOk, PoolOk;
  }

  /** Over all actions: an event is set afterwards exactly if the action sets it, or if it was set and
      is neither cleared nor built anew. */
  lemma ActiveExactly(v: Version, k: Kernel, a: Action, r: Kernel)
    requires Inv(k) && Enabled(k, a) && Apply(v, k, a) == Ok(r)
    ensures ActiveAsSaid(k, a, r)
  {
    hide Inv, Enabled, Apply, ThreadStep, ActiveAsSaid, PoolOk;
    if !ByThread(a) {
      InterruptSets(v, k, a, r);
    } else {
      ThreadStepIs(v, k, a, r);
      if a.SleepNs? || a.RegisterTimer? {
        SlotsKnown(k);
        NewTimerSets(v, k, a, r);
      } else {
        CallSets(v, k, a, r);
      }
    }
  }

  // ---------------------------------------------------------------- which interrupts are masked

  lemma CallMasks(v: Version, k: Kernel, a: Action, r: Kernel)
    requires HasMe(k) && ByThread(a) && ThreadStep(v, k, a) == Ok(r)
    ensures r.dataMasked <==> k.dataMasked && !(a.DataTest? && !k.dataLine)
    ensures r.cardMasked <==> a.CardMask? || (k.cardMasked && !(a.CardWait? && !(a.checked && !k.cardIn)))
  {
    hide ThreadStep;
    if a.DataTest? || a.CardWait? || a.CardMask? {
      DeviceMask(v, k, a, r);
    } else {
      SameMasks(v, k, a, r);
    }
  }

  lemma DeviceMask(v: Version, k: Kernel, a: Action, r: Kernel)
    requires HasMe(k) && (a.DataTest? || a.CardWait? || a.CardMask?) && ThreadStep(v, k, a) == Ok(r)
    ensures r.dataMasked <==> k.dataMasked && !(a.DataTest? && !k.dataLine)
    ensures r.cardMasked <==> a.CardMask? || (k.cardMasked && !(a.CardWait? && !(a.checked && !k.cardIn)))
  {
    hide SleepOn;
  }

  lemma SameMasks(v: Version, k: Kernel, a: Action, r: Kernel)
    requires HasMe(k) && ByThread(a) && !a.DataTest? && !a.CardWait? && !a.CardMask? && ThreadStep(v, k, a) == Ok(r)
    ensures r.dataMasked == k.dataMasked && r.cardMasked == k.cardMasked
  {
    hide ThreadStep;
    if a.SleepReturn? || a.FreeTimer? {
      DropFrame(v, k, a, r);
    } else if a.SleepNs? || a.RegisterTimer? || a.SetStore? || a.Clear? {
      EventFrame(v, k, a, r);
    } else {
      CallFrame(v, k, a, r);
    }
  }

  /** Over all actions: an interrupt that has arrived is masked, the SD thread masks the card's, and a
      thread unmasks the one it is about to sleep for, when it finds the data line busy or the card's
      state unchanged; nothing else changes a mask. */
  lemma MaskedExactly(v: Version, k: Kernel, a: Action, r: Kernel)
    requires Inv(k) && Enabled(k, a) && Apply(v, k, a) == Ok(r)
    ensures r.dataMasked <==> (a.ExternalIrq? && a.data) || (k.dataMasked && !(a.DataTest? && !k.dataLine))
    ensures r.cardMasked <==>
      (a.ExternalIrq? && a.card) || a.CardMask? || (k.cardMasked && !(a.CardWait? && !(a.checked && !k.cardIn)))
  {
    hide Inv, Enabled, Apply, ThreadStep, OthersWoken, FiredEvents;
    if ByThread(a) {
      ThreadStepIs(v, k, a, r);
      CallMasks(v, k, a, r);
    } else if a.TimerIrq? {
      TimerIrqWakes(v, k, a.now, r);
    } else if a.ExternalIrq? {
      ExternalIrqWakes(v, k, a.rx, a.vsync, a.card, a.data, r);
    } else {
      LineWakes(v, k, a, r);
    }
  }

  // ---------------------------------------------------------------- who holds which mutex

  /** Over all actions, and whatever wakeOneThread does: who holds a mutex afterwards is who acquires it,
      and who held it and does not release it. */
  lemma HeldExactly(v: Version, k: Kernel, a: Action, r: Kernel, x: nat, m: nat)
    requires Enabled(k, a) && Apply(v, k, a) == Ok(r)
    ensures (x, m) in r.held <==> Acquires(k, a, x, m) || ((x, m) in k.held && !Releases(k, a, x, m))
  {
    hide Enabled, Apply, ThreadStep;
    if Naming(a) {
      ThreadStepIs(v, k, a, r);
      NamingFrame(v, k, a, r, x, m);
    } else {
      SameHolders(v, k, a, r);
    }
  }

  lemma SameHolders(v: Version, k: Kernel, a: Action, r: Kernel)
    requires Enabled(k, a) && !Naming(a) && Apply(v, k, a) == Ok(r)
    ensures r.held == k.held
  {
    hide Enabled, Apply, ThreadStep;
    if !ByThread(a) {
      InterruptNames(v, k, a);
    } else if Sleeps(a) {
      SleepNames(v, k, a);
    } else {
      QuietNames(v, k, a);
    }
  }

  // ---------------------------------------------------------------- who runs

  /** Another thread runs only if it is better and an interrupt has come, or if the running thread has
      fallen asleep or ended. */
  ghost predicate RunnerAsSaid(k: Kernel, a: Action, r: Kernel) {
    HasMe(k) && Me(k) in k.sched.threads && HasMe(r) && Me(r) in r.sched.threads && (Me(r) != Me(k) ==>
      || (Interrupt(a) && r.sched.threads[Me(r)].priority < k.sched.threads[Me(k)].priority)
      || Me(k) !in r.sched.threads || Asleep(r, Me(k)))
  }

  lemma SameRunner(k: Kernel, a: Action, r: Kernel)
    requires Inv(k) && Inv(r) && r.sched.current == k.sched.current
    ensures RunnerAsSaid(k, a, r)
  {
    hide Inv;
    MeKnown(k);
    MeKnown(r);
  }

  lemma InterruptRunner(v: Version, k: Kernel, a: Action, r: Kernel)
    requires Inv(k) && Inv(r) && Enabled(k, a) && !ByThread(a) && Apply(v, k, a) == Ok(r)
    ensures RunnerAsSaid(k, a, r)
  {
    hide Inv, Enabled, Apply, RunnerAsSaid;
    match a {
      case TimerIrq(now) => TimerRunner(v, k, now, r);
      case ExternalIrq(rx, vsync, card, data) => ExternalRunner(v, k, rx, vsync, card, data, r);
      case DataLine(_) => LineRunner(v, k, a, r);
      case CardLine(_) => LineRunner(v, k, a, r);
    }
  }

  lemma LineRunner(v: Version, k: Kernel, a: Action, r: Kernel)
    requires Inv(k) && Inv(r) && Enabled(k, a) && (a.DataLine? || a.CardLine?) && Apply(v, k, a) == Ok(r)
    ensures RunnerAsSaid(k, a, r)
  {
    hide Inv;
    SameRunner(k, a, r);
  }

  lemma TimerRunner(v: Version, k: Kernel, now: Word, r: Kernel)
    requires Inv(k) && Inv(r) && Enabled(k, TimerIrq(now)) && Apply(v, k, TimerIrq(now)) == Ok(r)
    ensures RunnerAsSaid(k, TimerIrq(now), r)
  {
    hide Inv, LoopEnds, Resched, TimerHandler, WokenBy, FiredQueues, BestRuns, RunnerAsSaid;
    IrqEnds(k, now);
    var m := TimerHandlerKeeps(k, now);
    TimerIs(v, k, now, m, r);
    hide Enabled, Apply;
    BetterRuns(k, m, r, TimerIrq(now), FiredQueues(AfterInterrupt(k.timers, now).1));
  }

  lemma TimerIs(v: Version, k: Kernel, now: Word, m: Kernel, r: Kernel)
    requires Enabled(k, TimerIrq(now)) && LoopEnds(k.timers.queue, now) && TimerHandler(k, now) == Ok(m)
    requires Apply(v, k, TimerIrq(now)) == Ok(r)
    ensures Resched(m) == Ok(r)
  {
    hide LoopEnds, Resched, TimerHandler;
  }

  lemma ExternalRunner(v: Version, k: Kernel, rx: bool, vsync: bool, card: bool, data: bool, r: Kernel)
    requires Inv(k) && Inv(r) && Enabled(k, ExternalIrq(rx, vsync, card, data))
    requires Apply(v, k, ExternalIrq(rx, vsync, card, data)) == Ok(r)
    ensures RunnerAsSaid(k, ExternalIrq(rx, vsync, card, data), r)
  {
    hide Inv, Resched, ExternalHandler, WokenBy, ExternalQueues, BestRuns, RunnerAsSaid;
    var m := ExternalKeeps(k, rx, vsync, card, data);
    assert Resched(m) == Ok(r);
    hide Enabled, Apply;
    BetterRuns(k, m, r, ExternalIrq(rx, vsync, card, data), ExternalQueues(rx, vsync, card, data));
  }

  lemma BetterRuns(k: Kernel, m: Kernel, r: Kernel, a: Action, qs: set<QueueId>)
    requires Inv(k) && Inv(m) && Inv(r) && Interrupt(a) && WokenBy(k.sched.threads, m.sched.threads, qs)
    requires m.sched.current == k.sched.current && Resched(m) == Ok(r)
    ensures RunnerAsSaid(k, a, r)
  {
    hide Inv, Resched, BestRuns, WokenBy;
    MeKnown(k);
    MeKnown(r);
    var s := ReschedKeeps(m);
    Priorities(k.sched.threads, m.sched.threads, qs);
  }

  lemma CallRunner(v: Version, k: Kernel, a: Action, r: Kernel)
    requires Inv(k) && Inv(r) && HasMe(k) && Enabled(k, a) && ByThread(a) && !Sleeps(a)
    requires !HitsWakeOne(v, k, a) && Apply(v, k, a) == Ok(r)
    ensures RunnerAsSaid(k, a, r)
  {
    hide Inv, Enabled, Apply, HitsWakeOne, RunnerAsSaid;
    if a.Stop? {
      StopRunner(v, k, r);
    } else {
      CallCurrent(v, k, a, r);
      SameRunner(k, a, r);
    }
  }

  lemma StopRunner(v: Version, k: Kernel, r: Kernel)
    requires Inv(k) && Inv(r) && HasMe(k) && Enabled(k, Stop) && Apply(v, k, Stop) == Ok(r)
    ensures RunnerAsSaid(k, Stop, r)
  {
    hide Inv, BestRuns;
    MeKnown(k);
    MeKnown(r);
    var s := StopKeeps(v, k);
  }

  lemma CallCurrent(v: Version, k: Kernel, a: Action, r: Kernel)
    requires Inv(k) && HasMe(k) && Enabled(k, a) && ByThread(a) && !Sleeps(a) && !a.Stop?
    requires !HitsWakeOne(v, k, a) && Apply(v, k, a) == Ok(r)
    ensures r.sched.current == k.sched.current
  {
    hide Inv, Enabled, Apply, ThreadStep, HitsWakeOne;
    ThreadStepIs(v, k, a, r);
    if a.SetWake? || a.SignalAll? {
      WakeCurrent(v, k, a, r);
    } else if a.Unlock? {
      UnlockCurrent(v, k, a.m, r);
    } else if a.Create? {
      CreateCurrent(v, k, a.high, a.sd, r);
    } else if a.RegisterTimer? {
      RegisterIs(v, k, a.trigger, a.repeat, r);
      NewTimerAlike(k, a.trigger, a.repeat, Handle);
    } else {
      SameSched(v, k, a);
    }
  }

  lemma WakeCurrent(v: Version, k: Kernel, a: Action, r: Kernel)
    requires Inv(k) && HasMe(k) && (a.SetWake? || a.SignalAll?) && ThreadStep(v, k, a) == Ok(r)
    ensures r.sched.current == k.sched.current
  {
    hide Inv, Wake, WokenBy;
    if a.SignalAll? {
      var w := WakeInv(k, SignalQ(a.signal));
    } else if MyPc(k).SetStored? {
      var w := SetWakeKeeps(k);
    }
  }

  lemma UnlockCurrent(v: Version, k: Kernel, m: nat, r: Kernel)
    requires Inv(k) && HasMe(k) && Enabled(k, Unlock(m)) && !HitsWakeOne(v, k, Unlock(m)) && Apply(v, k, Unlock(m)) == Ok(r)
    ensures r.sched.current == k.sched.current
  {
    hide Inv, Enabled, Apply, HitsWakeOne, WakeOneIntended;
    UnlockIntended(v, k, m, r);
    var w := WakeOneInv(k, m);
  }

  lemma CreateCurrent(v: Version, k: Kernel, high: bool, sd: bool, r: Kernel)
    requires Inv(k) && HasMe(k) && Enabled(k, Create(high, sd)) && Apply(v, k, Create(high, sd)) == Ok(r)
    ensures r.sched.current == k.sched.current
  {
    hide Inv, SchedOk, Running, CreateThread, Enabled, Apply;
    SchedKnown(k);
    CreatedSched(v, k, high, sd, r);
    CreateThreadFailsIff(k.sched, high);
    var s, t := CreateThreadKeeps(k.sched, high);
  }

  lemma SleepRunner(v: Version, k: Kernel, a: Action, r: Kernel)
    requires Inv(k) && Inv(r) && HasMe(k) && Enabled(k, a) && Sleeps(a) && Apply(v, k, a) == Ok(r)
    ensures RunnerAsSaid(k, a, r)
  {
    hide Inv, Enabled, Apply, ThreadStep, Asleep, ThreadsOk, Sleeps;
    MeKnown(k);
    MeKnown(r);
    ThreadsKnown(k);
    NotIdleSleeps(k, a);
    SleepsByThread(a);
    ThreadStepIs(v, k, a, r);
    if a.SleepNs? {
      SleepNsAsleep(v, k, a.now, a.ns, a.freq, r);
    } else {
      AsleepOrOn(v, k, a, r);
    }
  }

  lemma SleepsByThread(a: Action)
    ensures Sleeps(a) ==> ByThread(a)
  {
  }

  lemma NotIdleSleeps(k: Kernel, a: Action)
    requires HasMe(k) && Enabled(k, a) && Sleeps(a)
    ensures Me(k) != IDLE
  {
  }

  lemma SleepNsAsleep(v: Version, k: Kernel, now: Word, ns: Word, freq: nat, r: Kernel)
    requires Inv(k) && HasMe(k) && Enabled(k, SleepNs(now, ns, freq)) && Apply(v, k, SleepNs(now, ns, freq)) == Ok(r)
    ensures Asleep(r, Me(k))
  {
    hide Inv, Enabled, Apply;
    var pc := SleepNsStep(v, k, SleepNs(now, ns, freq));
  }

  lemma BlockAsleep(k: Kernel, q: QueueId, pc: Pc)
    requires ThreadsOk(k.sched) && HasMe(k) && Me(k) != IDLE
    ensures Block(k, q, pc).Ok? ==> Asleep(Block(k, q, pc).value, Me(k))
  {
    hide ThreadsOk, Block;
    if Block(k, q, pc).Ok? {
      BlockedIs(k, q, pc, Block(k, q, pc).value);
    }
  }

  lemma AsleepOrOn(v: Version, k: Kernel, a: Action, r: Kernel)
    requires ThreadsOk(k.sched) && HasMe(k) && Me(k) != IDLE && Sleeps(a) && !a.SleepNs? && ThreadStep(v, k, a) == Ok(r)
    ensures Asleep(r, Me(k)) || r.sched == k.sched
  {
    hide ThreadsOk, ThreadStep;
    if a.DataTest? || a.CardWait? {
      DeviceAsleep(v, k, a, r);
    } else {
      CallAsleep(v, k, a, r);
    }
  }

  lemma DeviceAsleep(v: Version, k: Kernel, a: Action, r: Kernel)
    requires ThreadsOk(k.sched) && HasMe(k) && Me(k) != IDLE && (a.DataTest? || a.CardWait?) && ThreadStep(v, k, a) == Ok(r)
    ensures Asleep(r, Me(k)) || r.sched == k.sched
  {
    hide ThreadsOk, Block;
    BlockAsleep(k.(dataMasked := false), DataIdleQ, DataWait);
    BlockAsleep(k.(cardMasked := false), CardQ, CardAsleep);
  }

  lemma CallAsleep(v: Version, k: Kernel, a: Action, r: Kernel)
    requires ThreadsOk(k.sched) && HasMe(k) && Me(k) != IDLE
    requires (a.WaitSleep? || a.SignalWait? || a.LockSleep?) && ThreadStep(v, k, a) == Ok(r)
    ensures Asleep(r, Me(k)) || r.sched == k.sched
  {
    hide ThreadsOk, Block;
    match a {
      case WaitSleep => if MyPc(k).WaitTested? { BlockAsleep(k, EventQ(MyPc(k).e), WaitAsleep(MyPc(k).e)); }
      case SignalWait(n) => BlockAsleep(k, SignalQ(n), SignalAsleep(n));
      case LockSleep => if MyPc(k).LockSawHeld? { BlockAsleep(k, MutexQ(MyPc(k).m), Locking(MyPc(k).m)); }
    }
  }

  /** Over all actions: the processor changes hands only when the running thread sleeps or ends, or when
      an interrupt gives it to a thread of better priority. Waking a thread does not. */
  lemma RunnerExactly(v: Version, k: Kernel, a: Action, r: Kernel)
    requires Inv(k) && Enabled(k, a) && !HitsWakeOne(v, k, a) && Apply(v, k, a) == Ok(r)
    ensures RunnerAsSaid(k, a, r)
  {
    hide Inv, Enabled, Apply, HitsWakeOne, RunnerAsSaid, StepResult;
    MeKnown(k);
    StepKeepsIff(v, k, a);
    StepSound(v, k, a, r);
    if !ByThread(a) {
      InterruptRunner(v, k, a, r);
    } else if Sleeps(a) {
      SleepRunner(v, k, a, r);
    } else {
      CallRunner(v, k, a, r);
    }
  }

  lemma StepSound(v: Version, k: Kernel, a: Action, r: Kernel)
    requires Enabled(k, a) && StepResult(v, k, a) && Apply(v, k, a) == Ok(r)
    ensures Inv(r)
  {
    hide Inv, Enabled, Apply;
  }
}
