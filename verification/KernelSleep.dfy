/** A thread in sleep_ns becomes Ready in the first timer interrupt at or after its deadline, and in
    nothing else; and its timer's slot goes back only once the timer has left the queue. */
module KernelSleep {
  import opened Common
  import opened Pools
  import opened Sched
  import opened Timers
  import opened Kernel
  import opened KernelInv
  import opened KernelIrq
  import opened KernelSteps
  import opened KernelRuns

  /** The deadline is start + floor(ns * freq / 10^9) as long as neither the product nor the sum
      leaves 64 bits. */
  lemma DeadlineExact(start: nat, ns: nat, freq: nat)
    requires ns * freq < 0x1_0000_0000_0000_0000 && start + ns * freq / 1_000_000_000 < 0x1_0000_0000_0000_0000
    ensures Deadline(start, ns, freq) == start + ns * freq / 1_000_000_000
  {
    NoOverflow(start, ns * freq);
  }

  /** Beyond that it can be in the past: a product of exactly 2^64 makes the deadline the start. */
  lemma DeadlineOverflows(start: Word, ns: nat, freq: nat)
    requires ns * freq == 0x1_0000_0000_0000_0000
    ensures Deadline(start, ns, freq) == start
  {
  }

  lemma NoOverflow(start: nat, product: nat)
    requires product < TWO64 && start + product / NANO < TWO64
    ensures (start + product % TWO64 / NANO) % TWO64 == start + product / NANO
  {
    assert product % TWO64 == product;
  }

  /** Thread t is blocked in sleep_ns: asleep on the wait queue of its own timer's event, which is
      unset and in the timer queue, with the deadline as its wake-up time. */
  ghost predicate BlockedInSleep(k: Kernel, t: Tid, pc: Pc) {
    && pc.SleepAsleep? && t in k.info && k.info[t].pc == pc && Asleep(k, t)
    && k.sched.threads[t].hook == Some(WaitList(EventQ(Slot(pc.slot))))
    && Slot(pc.slot) !in k.active
    && pc.slot in k.owner && k.owner[pc.slot] == Sleeper(t)
    && Pending(k, pc)
  }

  lemma BlockedFacts(k: Kernel, t: Tid)
    requires Inv(k) && t in k.info && k.info[t].pc.SleepAsleep?
    ensures Asleep(k, t) <==> BlockedInSleep(k, t, k.info[t].pc)
    ensures !Asleep(k, t) ==> !HasSlot(k.timers.queue, k.info[t].pc.slot)
    ensures Pending(k, k.info[t].pc) ==> HasSlot(k.timers.queue, k.info[t].pc.slot)
  {
    hide ThreadsOk, EventsOk, RefsOk, SlotsOk, MutexOk, MasksOk, Asleep;
  }

  /** The one event of the queue in the sleeper's slot. */
  lemma ExactlyOneTimer(k: Kernel, t: Tid, pc: Pc) returns (e: TimerEvent)
    requires Inv(k) && BlockedInSleep(k, t, pc)
    ensures e in k.timers.queue && IsTimerOf(e, pc)
    ensures forall x :: x in k.timers.queue && x.slot == pc.slot ==> x == e
    ensures multiset(k.timers.queue)[e] == 1
  {
    e :| e in k.timers.queue && IsTimerOf(e, pc);
    OneOfSlot(k.timers.queue, e);
  }

  lemma {:induction false} OneOfSlot(q: seq<TimerEvent>, e: TimerEvent)
    requires OneSlotEach(q) && e in q
    ensures forall x :: x in q && x.slot == e.slot ==> x == e
    ensures multiset(q)[e] == 1
  {
    assert q == [q[0]] + q[1..];
    assert q[0] !in q[1..];
    if q[0] != e {
      OneOfSlot(q[1..], e);
    }
  }

  // ---------------------------------------------------------------- one step

  lemma RegisterGrows(ts: Timers, trigger: Word, repeat: Word)
    ensures Register(ts, trigger, repeat).Ok? ==>
      forall e :: e in ts.queue ==> e in Register(ts, trigger, repeat).value.0.queue
  {
    if Alloc(ts.pool).Ok? {
      PlaceElements(ts.queue, TimerEvent(Alloc(ts.pool).value.1, trigger, repeat, ts.placed));
    }
  }

  ghost predicate Untouched(k: Kernel, r: Kernel, t: Tid) {
    && t in k.info && t in r.info && r.info[t] == k.info[t]
    && forall e :: e in k.timers.queue ==> e in r.timers.queue
  }

  lemma CreateUntouched(v: Version, k: Kernel, a: Action, t: Tid)
    requires Inv(k) && Enabled(k, a) && Apply(v, k, a).Ok? && a.Create?
    requires t in k.info && t != Me(k)
    ensures Untouched(k, Apply(v, k, a).value, t)
  {
    hide Inv, SchedOk, Running, CreateThread, LoopEnds, Usable, Freeable, BestRuns;
    SchedKnown(k);
    KeysOf(k);
    CreateThreadFailsIff(k.sched, a.high);
    var r := Apply(v, k, a).value;
    assert CreateThread(k.sched, a.high).Ok?;
    assert r.info == k.info[CreateThread(k.sched, a.high).value.1 := Info(User, k.serials)] && r.timers == k.timers;
    hide Apply, Enabled;
    var s, u := CreateThreadKeeps(k.sched, a.high);
  }

  lemma NewTimerGrows(k: Kernel, trigger: Word, repeat: Word, owner: Owner)
    requires NewTimer(k, trigger, repeat, owner).Ok?
    ensures var r := NewTimer(k, trigger, repeat, owner).value.0;
      && r == k.(timers := r.timers, owner := r.owner, active := r.active, sched := r.sched)
      && r.sched.current == k.sched.current
      && forall e :: e in k.timers.queue ==> e in r.timers.queue
  {
    RegisterGrows(k.timers, trigger, repeat);
    hide Register;
  }

  lemma TimerUntouched(v: Version, k: Kernel, a: Action, t: Tid)
    requires HasMe(k) && Enabled(k, a) && Apply(v, k, a).Ok? && (a.SleepNs? || a.RegisterTimer?)
    requires t in k.info && t != Me(k)
    ensures Untouched(k, Apply(v, k, a).value, t)
  {
    hide SleepOn, NewTimer, Deadline;
    if a.SleepNs? {
      NewTimerGrows(k, Deadline(a.now, a.ns, a.freq), 0, Sleeper(Me(k)));
    } else {
      NewTimerGrows(k, a.trigger, a.repeat, Handle);
    }
  }

  lemma BlockUntouched(v: Version, k: Kernel, a: Action, t: Tid)
    requires HasMe(k) && Enabled(k, a) && Apply(v, k, a).Ok?
    requires a.WaitSleep? || a.SignalWait? || a.LockSleep? || a.DataTest? || a.CardWait?
    requires t in k.info && t != Me(k)
    ensures Untouched(k, Apply(v, k, a).value, t)
  {
    hide Block, Usable, Freeable, Untouched;
    Same(k, t);
    match a {
      case WaitSleep => BlockLeaves(k, EventQ(MyPc(k).e), WaitAsleep(MyPc(k).e), t);
      case SignalWait(n) => BlockLeaves(k, SignalQ(n), SignalAsleep(n), t);
      case LockSleep => BlockLeaves(k, MutexQ(MyPc(k).m), Locking(MyPc(k).m), t);
      case DataTest => DataTestLeaves(v, k, t);
      case CardWait(checked) => CardWaitLeaves(v, k, checked, t);
    }
    AtLeaves(k, t);
  }

  lemma DataTestLeaves(v: Version, k: Kernel, t: Tid)
    requires HasMe(k) && Enabled(k, DataTest) && Apply(v, k, DataTest).Ok? && t in k.info && t != Me(k)
    ensures Untouched(k, Apply(v, k, DataTest).value, t)
  {
    hide Block;
    BlockLeaves(k.(dataMasked := false), DataIdleQ, DataWait, t);
  }

  lemma CardWaitLeaves(v: Version, k: Kernel, checked: bool, t: Tid)
    requires HasMe(k) && Enabled(k, CardWait(checked)) && Apply(v, k, CardWait(checked)).Ok? && t in k.info && t != Me(k)
    ensures Untouched(k, Apply(v, k, CardWait(checked)).value, t)
  {
    hide Block;
    BlockLeaves(k.(cardMasked := false), CardQ, CardAsleep, t);
  }

  lemma Same(k: Kernel, t: Tid)
    requires t in k.info
    ensures Untouched(k, k, t)
  {
  }

  lemma AtLeaves(k: Kernel, t: Tid)
    requires HasMe(k) && t in k.info && t != Me(k)
    ensures forall pc :: Untouched(k, At(k, pc), t)
  {
  }

  lemma BlockLeaves(k: Kernel, q: QueueId, pc: Pc, t: Tid)
    requires HasMe(k) && t in k.info && t != Me(k)
    ensures Block(k, q, pc).Ok? ==> Untouched(k, Block(k, q, pc).value, t)
  {
    hide SleepOn;
  }

  lemma StopUntouched(v: Version, k: Kernel, t: Tid)
    requires HasMe(k) && Enabled(k, Stop) && Apply(v, k, Stop).Ok?
    requires t in k.info && t != Me(k)
    ensures Untouched(k, Apply(v, k, Stop).value, t)
  {
    hide StopThread;
  }

  lemma WakersUntouched(v: Version, k: Kernel, a: Action, t: Tid)
    requires HasMe(k) && Enabled(k, a) && Apply(v, k, a).Ok?
    requires a.SetWake? || a.SignalAll? || a.Unlock?
    requires t in k.info && t != Me(k)
    ensures Untouched(k, Apply(v, k, a).value, t)
  {
    hide WakeAll, WakeOneAsWritten, WakeOneIntended;
  }

  lemma PlainUntouched(v: Version, k: Kernel, a: Action, t: Tid)
    requires HasMe(k) && Enabled(k, a) && ByThread(a) && Apply(v, k, a).Ok?
    requires !a.Create? && !a.SleepNs? && !a.RegisterTimer?
    requires !a.WaitSleep? && !a.SignalWait? && !a.LockSleep? && !a.DataTest? && !a.CardWait?
    requires !a.SetWake? && !a.SignalAll? && !a.Unlock? && !a.Stop?
    requires !a.LockTake? && !a.TryLock?
    requires t in k.info && t != Me(k)
    ensures Untouched(k, Apply(v, k, a).value, t)
  {
    hide Usable, Freeable;
  }

  lemma LockUntouched(v: Version, k: Kernel, a: Action, t: Tid)
    requires HasMe(k) && Enabled(k, a) && Apply(v, k, a).Ok?
    requires a.LockTake? || a.TryLock?
    requires t in k.info && t != Me(k)
    ensures Untouched(k, Apply(v, k, a).value, t)
  {
  }

  /** A thread's action leaves every other thread's program point alone, and takes nothing out of
      the timer queue. */
  lemma OthersUntouched(v: Version, k: Kernel, a: Action, t: Tid)
    requires Inv(k) && Enabled(k, a) && ByThread(a) && Apply(v, k, a).Ok?
    requires t in k.info && HasMe(k) && t != Me(k)
    ensures Untouched(k, Apply(v, k, a).value, t)
  {
    hide Inv, Enabled, Apply, Untouched;
    if a.Create? {
      CreateUntouched(v, k, a, t);
    } else if a.SleepNs? || a.RegisterTimer? {
      TimerUntouched(v, k, a, t);
    } else if a.WaitSleep? || a.SignalWait? || a.LockSleep? || a.DataTest? || a.CardWait? {
      BlockUntouched(v, k, a, t);
    } else if a.Stop? {
      StopUntouched(v, k, t);
    } else if a.SetWake? || a.SignalAll? || a.Unlock? {
      WakersUntouched(v, k, a, t);
    } else if a.LockTake? || a.TryLock? {
      LockUntouched(v, k, a, t);
    } else {
      PlainUntouched(v, k, a, t);
    }
  }

  lemma KeysOf(k: Kernel)
    requires Inv(k)
    ensures k.info.Keys == k.sched.threads.Keys
  {
    hide ThreadsOk, EventsOk, SleepersOk, RefsOk, SlotsOk, MutexOk, MasksOk;
    InfoKeySet(k);
  }

  lemma PendingGrows(k: Kernel, r: Kernel, pc: Pc)
    requires Pending(k, pc) && forall e :: e in k.timers.queue ==> e in r.timers.queue
    ensures HasSlot(r.timers.queue, pc.slot)
  {
  }

  /** Thread t has been woken: it is Ready, and its timer is in the queue no more. */
  predicate WokenFromSleep(k: Kernel, t: Tid, slot: nat) {
    t in k.sched.threads && k.sched.threads[t].state == Ready && !HasSlot(k.timers.queue, slot)
  }

  /** A blocked sleeper stays blocked through every action but a timer interrupt whose sampled time
      is at or after its deadline, and that one makes it Ready. */
  lemma SleeperStep(v: Version, k: Kernel, a: Action, t: Tid, pc: Pc)
    requires Inv(k) && Enabled(k, a) && !HitsWakeOne(v, k, a) && Apply(v, k, a).Ok?
    requires pc.SleepAsleep? && BlockedInSleep(k, t, pc)
    ensures t in k.info && t in Apply(v, k, a).value.info && Apply(v, k, a).value.info[t] == k.info[t]
    ensures BlockedInSleep(Apply(v, k, a).value, t, pc) <==> !(a.TimerIrq? && DeadlineOf(pc) <= a.now)
    ensures a.TimerIrq? && DeadlineOf(pc) <= a.now ==> WokenFromSleep(Apply(v, k, a).value, t, pc.slot)
  {
    var r := Apply(v, k, a).value;
    StepKeepsIff(v, k, a);
    MeKnown(k);
    if ByThread(a) {
      hide Inv, Apply, Enabled;
      OthersUntouched(v, k, a, t);
      BlockedFacts(r, t);
      PendingGrows(k, r, pc);
    } else {
      SleeperIrq(v, k, a, t, pc);
    }
    ReadyOrAsleep(r, t);
    BlockedFacts(r, t);
  }

  lemma ReadyOrAsleep(k: Kernel, t: Tid)
    requires Inv(k) && t in k.info
    ensures t in k.sched.threads && (Asleep(k, t) || k.sched.threads[t].state == Ready)
  {
    hide EventsOk, SleepersOk, RefsOk, SlotsOk, MutexOk, MasksOk, Linked, IdleOk, PoolOk;
    KeysOf(k);
    assert Homed(k.sched.threads[t]);
  }

  lemma SleeperIrq(v: Version, k: Kernel, a: Action, t: Tid, pc: Pc)
    requires Inv(k) && Enabled(k, a) && !ByThread(a) && Apply(v, k, a).Ok?
    requires BlockedInSleep(k, t, pc)
    ensures var r := Apply(v, k, a).value;
      && r.info == k.info && Inv(r)
      && (Asleep(r, t) <==> !(a.TimerIrq? && Deadline(pc.start, pc.ns, pc.freq) <= a.now))
  {
    hide Inv, Enabled, Apply, Deadline, BlockedInSleep;
    match a {
      case TimerIrq(now) => SleeperTimerIrq(v, k, now, t, pc);
      case ExternalIrq(rx, vsync, card, data) => SleeperExternalIrq(v, k, rx, vsync, card, data, t, pc);
      case _ => SleeperLine(v, k, a, t, pc);
    }
  }

  lemma SleeperTimerIrq(v: Version, k: Kernel, now: Word, t: Tid, pc: Pc)
    requires Inv(k) && Enabled(k, TimerIrq(now)) && Apply(v, k, TimerIrq(now)).Ok? && BlockedInSleep(k, t, pc)
    ensures var r := Apply(v, k, TimerIrq(now)).value;
      r.info == k.info && Inv(r) && (Asleep(r, t) <==> now < Deadline(pc.start, pc.ns, pc.freq))
  {
    hide Inv, LoopEnds, Resched, TimerHandler, Deadline, WokenBy, Pending;
    var m := TimerHandlerKeeps(k, now);
    var r := ReschedKeeps(m);
  }

  lemma SleeperExternalIrq(v: Version, k: Kernel, rx: bool, vsync: bool, card: bool, data: bool, t: Tid, pc: Pc)
    requires Inv(k) && Enabled(k, ExternalIrq(rx, vsync, card, data)) && BlockedInSleep(k, t, pc)
    requires Apply(v, k, ExternalIrq(rx, vsync, card, data)).Ok?
    ensures var r := Apply(v, k, ExternalIrq(rx, vsync, card, data)).value; r.info == k.info && Inv(r) && Asleep(r, t)
  {
    hide Inv, Resched, ExternalHandler, WokenBy, ExternalQueues, Pending;
    var m := ExternalKeeps(k, rx, vsync, card, data);
    var r := ReschedKeeps(m);
    StillAsleep(k.sched.threads, m.sched.threads, rx, vsync, card, data, t, pc.slot);
  }

  lemma SleeperLine(v: Version, k: Kernel, a: Action, t: Tid, pc: Pc)
    requires Inv(k) && Enabled(k, a) && (a.DataLine? || a.CardLine?) && BlockedInSleep(k, t, pc)
    ensures Apply(v, k, a).Ok?
    ensures var r := Apply(v, k, a).value; r.info == k.info && Inv(r) && Asleep(r, t)
  {
    hide Inv, Pending;
    DevicesKeep(k, if a.DataLine? then k.(dataLine := a.level) else k.(cardIn := a.level));
  }

  lemma StillAsleep(a: map<Tid, Thread>, b: map<Tid, Thread>, rx: bool, vsync: bool, card: bool, data: bool, t: Tid, slot: nat)
    requires WokenBy(a, b, ExternalQueues(rx, vsync, card, data))
    requires t in a && a[t].hook == Some(WaitList(EventQ(Slot(slot))))
    ensures t in b && b[t] == a[t]
  {
  }

  // ---------------------------------------------------------------- runs

  /** sleep_ns starts by blocking the caller. */
  lemma SleepNsBlocks(v: Version, n: nat, ks: seq<Kernel>, acts: seq<Action>, i: nat) returns (pc: Pc)
    requires Run(v, n, ks, acts) && i < |acts| && acts[i].SleepNs?
    ensures HasMe(ks[i]) && pc.SleepAsleep?
    ensures pc.start == acts[i].now && pc.ns == acts[i].ns && pc.freq == acts[i].freq && pc.slot !in ks[i].owner
    ensures BlockedInSleep(ks[i + 1], Me(ks[i]), pc)
  {
    RunStep(v, n, ks, acts, i);
    pc := SleepNsStep(v, ks[i], acts[i]);
  }

  lemma SleepNsFacts(v: Version, k: Kernel, a: Action)
    requires Enabled(k, a) && a.SleepNs? && Apply(v, k, a).Ok?
    ensures HasMe(k) && Me(k) != IDLE && MyPc(k) == User && Alloc(k.timers.pool).Ok?
    ensures Apply(v, k, a) == ThreadStep(v, k, SleepNs(a.now, a.ns, a.freq))
  {
    if Alloc(k.timers.pool).Abort? { NoTimer(k); }
    hide NewTimer, Block, Deadline, LoopEnds, Usable, Freeable;
  }

  lemma SleepNsStep(v: Version, k: Kernel, a: Action) returns (pc: Pc)
    requires Inv(k) && Enabled(k, a) && a.SleepNs? && Apply(v, k, a).Ok?
    ensures HasMe(k) && pc.SleepAsleep?
    ensures pc.start == a.now && pc.ns == a.ns && pc.freq == a.freq && pc.slot !in k.owner
    ensures BlockedInSleep(Apply(v, k, a).value, Me(k), pc)
  {
    hide Inv, BlockedInSleep, NewTimer, Block, Deadline, LoopEnds, Usable, Freeable;
    SleepNsFacts(v, k, a);
    hide Enabled, Apply, ThreadStep;
    var r, slot := SleepNsKeeps(k, a.now, a.ns, a.freq);
    pc := SleepAsleep(slot, a.now, a.ns, a.freq);
    NowAsleep(r, Me(k));
    BlockedFacts(r, Me(k));
  }

  lemma NowAsleep(k: Kernel, t: Tid)
    requires t in k.sched.threads && k.sched.threads[t].state == Sleeping
    ensures Asleep(k, t)
  {
  }

  /** No timer interrupt among acts[i..j] samples a time at or after d. */
  ghost predicate NoneReaches(acts: seq<Action>, i: nat, j: nat, d: nat) {
    j <= |acts| && forall x :: i <= x < j && acts[x].TimerIrq? ==> acts[x].now < d
  }

  function DeadlineOf(pc: Pc): nat
    requires pc.SleepAsleep?
  {
    Deadline(pc.start, pc.ns, pc.freq)
  }

  /** From a state in which t is blocked in sleep_ns, t stays blocked for as long as no timer
      interrupt samples a time at or after the deadline. */
  lemma {:induction false} StaysBlocked(v: Version, n: nat, ks: seq<Kernel>, acts: seq<Action>, i: nat, j: nat, t: Tid, pc: Pc)
    requires |ks| == |acts| + 1 && Run(v, n, ks, acts) && i <= j < |ks|
    requires pc.SleepAsleep? && BlockedInSleep(ks[i], t, pc) && NoneReaches(acts, i, j, DeadlineOf(pc))
    ensures BlockedInSleep(ks[j], t, pc)
    decreases j
  {
    hide Run, Inv, BlockedInSleep, Enabled, Apply, HitsWakeOne, DeadlineOf;
    if i < j {
      StaysBlocked(v, n, ks, acts, i, j - 1, t, pc);
      RunStep(v, n, ks, acts, j - 1);
      SleeperStep(v, ks[j - 1], acts[j - 1], t, pc);
    }
  }

  /** sleep_ns over a whole run: the caller is blocked in every state up to the first timer
      interrupt that samples a time at or after the deadline, and Ready right after it. */
  lemma SleepsUntilDeadline(v: Version, n: nat, ks: seq<Kernel>, acts: seq<Action>, i: nat, j: nat) returns (pc: Pc)
    requires Run(v, n, ks, acts) && i < j < |acts| && acts[i].SleepNs?
    requires acts[j].TimerIrq? && Deadline(acts[i].now, acts[i].ns, acts[i].freq) <= acts[j].now
    requires NoneReaches(acts, i + 1, j, Deadline(acts[i].now, acts[i].ns, acts[i].freq))
    ensures HasMe(ks[i])
    ensures forall x :: i < x <= j ==> BlockedInSleep(ks[x], Me(ks[i]), pc)
    ensures pc.SleepAsleep? && WokenFromSleep(ks[j + 1], Me(ks[i]), pc.slot)
  {
    hide Inv, BlockedInSleep, Enabled, Apply, HitsWakeOne, Deadline, WokenFromSleep;
    pc := SleepNsBlocks(v, n, ks, acts, i);
    forall x | i < x <= j ensures BlockedInSleep(ks[x], Me(ks[i]), pc) {
      StaysBlocked(v, n, ks, acts, i + 1, x, Me(ks[i]), pc);
    }
    RunStep(v, n, ks, acts, j);
    SleeperStep(v, ks[j], acts[j], Me(ks[i]), pc);
  }

  /** The hardware is never set too late for a sleeper: in every state the comparator is set, to a time
      at or before the deadline of each thread blocked in sleep_ns. */
  lemma ComparatorInTime(v: Version, n: nat, ks: seq<Kernel>, acts: seq<Action>, i: nat, t: Tid, pc: Pc)
    requires Run(v, n, ks, acts) && i < |ks| && pc.SleepAsleep? && BlockedInSleep(ks[i], t, pc)
    ensures ks[i].timers.comparator.Some? && ks[i].timers.comparator.value <= DeadlineOf(pc)
  {
    hide Inv, BlockedInSleep, DeadlineOf;
    InvAlong(v, n, ks, acts, i);
    HeadInTime(ks[i], t, pc);
  }

  lemma HeadInTime(k: Kernel, t: Tid, pc: Pc)
    requires Inv(k) && pc.SleepAsleep? && BlockedInSleep(k, t, pc)
    ensures k.timers.comparator.Some? && k.timers.comparator.value <= DeadlineOf(pc)
  {
    hide ThreadsOk, InfoOk, EventsOk, SleepersOk, RefsOk, MutexOk, MasksOk, PoolOk, HasSlot, Asleep;
    var e :| e in k.timers.queue && IsTimerOf(e, pc);
    assert e == k.timers.queue[0] || Before(k.timers.queue[0], e);
  }

  /** From the start the first thread can do nothing but sleep, and an interrupt can wake it: such a
      run exists for every delay, clock and pair of times. */
  lemma SleepAndWake(v: Version, n: nat, now: Word, ns: Word, freq: nat, irq: Word) returns (ks: seq<Kernel>, acts: seq<Action>)
    requires n >= 2 && Deadline(now, ns, freq) <= irq
    ensures acts == [SleepNs(now, ns, freq), TimerIrq(irq)] && Run(v, n, ks, acts)
    ensures Asleep(ks[1], 1) && 1 in ks[2].sched.threads && ks[2].sched.threads[1].state == Ready
  {
    hide Run, Inv, Start, Enabled, Apply, Deadline, BlockedInSleep, LoopEnds, Asleep, WokenFromSleep;
    var k := StartReady(n);
    var k1 := FirstSleep(v, k, now, ns, freq);
    var k2 := AnyInterrupt(v, k1, irq);
    ks, acts := [k, k1, k2], [SleepNs(now, ns, freq), TimerIrq(irq)];
    TwoSteps(v, n, k, k1, k2, acts[0], acts[1]);
    var pc := SleepsUntilDeadline(v, n, ks, acts, 0, 1);
    assert Me(ks[0]) == 1 && BlockedInSleep(ks[1], 1, pc);
    AsleepThenReady(ks[1], ks[2], 1, pc);
  }

  lemma TwoSteps(v: Version, n: nat, k: Kernel, k1: Kernel, k2: Kernel, a: Action, b: Action)
    requires Start(n) == Ok(k)
    requires Enabled(k, a) && !HitsWakeOne(v, k, a) && Apply(v, k, a) == Ok(k1)
    requires Enabled(k1, b) && !HitsWakeOne(v, k1, b) && Apply(v, k1, b) == Ok(k2)
    ensures Run(v, n, [k, k1, k2], [a, b])
  {
    hide Start, Enabled, HitsWakeOne, Apply;
  }

  lemma AsleepThenReady(k: Kernel, r: Kernel, t: Tid, pc: Pc)
    requires BlockedInSleep(k, t, pc) && WokenFromSleep(r, t, pc.slot)
    ensures Asleep(k, t) && t in r.sched.threads && r.sched.threads[t].state == Ready
  {
  }

  lemma AnyInterrupt(v: Version, k: Kernel, now: Word) returns (r: Kernel)
    requires Inv(k) && LoopEnds(k.timers.queue, now)
    ensures Enabled(k, TimerIrq(now)) && Apply(v, k, TimerIrq(now)) == Ok(r)
  {
    hide Inv, LoopEnds;
    assert Enabled(k, TimerIrq(now));
    StepKeepsIff(v, k, TimerIrq(now));
    hide Enabled, Apply;
    r := Apply(v, k, TimerIrq(now)).value;
  }

  lemma StartReady(n: nat) returns (k: Kernel)
    requires n >= 2
    ensures Start(n) == Ok(k) && Inv(k) && k.sched.current == Some(1) && HasMe(k) && MyPc(k) == User
    ensures k.owner == map[] && k.timers.queue == []
  {
    StartKeeps(n);
    BootKeeps(n);
    hide Boot, SchedOk, Running;
    k := Start(n).value;
  }

  lemma FirstSleep(v: Version, k: Kernel, now: Word, ns: Word, freq: nat) returns (r: Kernel)
    requires Inv(k) && k.owner == map[] && k.timers.queue == []
    requires HasMe(k) && Me(k) != IDLE && MyPc(k) == User
    ensures Enabled(k, SleepNs(now, ns, freq)) && Apply(v, k, SleepNs(now, ns, freq)) == Ok(r) && Inv(r)
    ensures forall time :: LoopEnds(r.timers.queue, time)
  {
    hide Inv, LoopEnds;
    var a := SleepNs(now, ns, freq);
    assert Enabled(k, a);
    hide Enabled, Apply;
    StepKeepsIff(v, k, a);
    assert !PoolFull(k, a) by {
      assert 0 !in k.owner;
    }
    MeKnown(k);
    r := Apply(v, k, a).value;
    OnlyOneShots(v, k, a);
  }

  lemma OnlyOneShots(v: Version, k: Kernel, a: Action)
    requires HasMe(k) && Enabled(k, a) && a.SleepNs? && Apply(v, k, a).Ok? && k.timers.queue == []
    ensures forall time :: LoopEnds(Apply(v, k, a).value.timers.queue, time)
  {
    hide SleepOn, Deadline, Usable, Freeable;
  }

  /** A timer slot is given back only after its event has left the queue. */
  lemma SlotFreedAfterLeaving(v: Version, k: Kernel, a: Action, slot: nat)
    requires Inv(k) && Enabled(k, a) && Apply(v, k, a).Ok?
    requires slot in k.owner && slot !in Apply(v, k, a).value.owner
    ensures !HasSlot(k.timers.queue, slot)
  {
    hide Inv, Apply, Enabled;
    MeKnown(k);
    if !ByThread(a) {
      InterruptInfo(v, k, a, Apply(v, k, a).value);
    } else if a.SleepReturn? {
      ReturnFrees(v, k, slot);
    } else if a.FreeTimer? {
      HandleFrees(v, k, a.slot, slot);
    } else {
      OwnersStay(v, k, a);
    }
  }

  lemma ReturnFrees(v: Version, k: Kernel, slot: nat)
    requires Inv(k) && Enabled(k, SleepReturn) && Apply(v, k, SleepReturn).Ok?
    requires slot in k.owner && slot !in Apply(v, k, SleepReturn).value.owner
    ensures !HasSlot(k.timers.queue, slot)
  {
    hide Inv, HasSlot;
    var r := SleepReturnKeeps(k);
  }

  lemma HandleFrees(v: Version, k: Kernel, i: nat, slot: nat)
    requires HasMe(k) && Enabled(k, FreeTimer(i)) && Apply(v, k, FreeTimer(i)).Ok?
    requires slot in k.owner && slot !in Apply(v, k, FreeTimer(i)).value.owner
    ensures !HasSlot(k.timers.queue, slot)
  {
    hide HasSlot;
  }

  lemma OwnersStay(v: Version, k: Kernel, a: Action)
    requires HasMe(k) && Enabled(k, a) && ByThread(a) && !a.SleepReturn? && !a.FreeTimer? && Apply(v, k, a).Ok?
    ensures forall i :: i in k.owner ==> i in Apply(v, k, a).value.owner
  {
    hide Enabled, Apply;
    if a.SleepNs? || a.RegisterTimer? {
      TimerOwners(v, k, a);
    } else {
      OtherOwners(v, k, a);
    }
  }

  lemma TimerOwners(v: Version, k: Kernel, a: Action)
    requires HasMe(k) && Enabled(k, a) && (a.SleepNs? || a.RegisterTimer?) && Apply(v, k, a).Ok?
    ensures forall i :: i in k.owner ==> i in Apply(v, k, a).value.owner
  {
    hide SleepOn, Register, Deadline;
  }

  lemma OtherOwners(v: Version, k: Kernel, a: Action)
    requires HasMe(k) && Enabled(k, a) && ByThread(a) && Apply(v, k, a).Ok?
    requires !a.SleepNs? && !a.SleepReturn? && !a.RegisterTimer? && !a.FreeTimer?
    ensures forall i :: i in k.owner ==> i in Apply(v, k, a).value.owner
  {
    hide SleepOn, WakeAll, StopThread, WakeOneAsWritten, WakeOneIntended, CreateThread, Usable;
  }
}
