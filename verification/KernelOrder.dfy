/** Who runs next: a preempted thread keeps its place at the head of its ready list, so it runs again
    before any other thread of its priority. */
module KernelOrder {
  import opened Common
  import opened Pools
  import opened Sched
  import opened Timers
  import opened Kernel
  import opened KernelInv
  import opened KernelSteps
  import opened KernelRuns

  /** Every ready list that has a head other than `except` keeps it. */
  ghost predicate HeadsKept(s: Sched, r: Sched, except: Option<Tid>) {
    forall p :: s.List(ReadyList(p)) != [] && Some(s.List(ReadyList(p))[0]) != except ==>
      r.List(ReadyList(p)) != [] && r.List(ReadyList(p))[0] == s.List(ReadyList(p))[0]
  }

  lemma HeadsTwice(a: Sched, b: Sched, c: Sched)
    requires HeadsKept(a, b, None) && HeadsKept(b, c, None)
    ensures HeadsKept(a, c, None)
  {
  }

  lemma HeadsThen(a: Sched, b: Sched, c: Sched, except: Option<Tid>)
    requires HeadsKept(a, b, None) && HeadsKept(b, c, except)
    ensures HeadsKept(a, c, except)
  {
  }

  lemma HeadsSame(a: Sched, b: Sched)
    requires a.lists == b.lists
    ensures HeadsKept(a, b, None)
  {
    assert forall l :: a.List(l) == b.List(l);
  }

  lemma WithoutKeepsHead(s: seq<Tid>, x: Tid)
    requires s != [] && s[0] != x
    ensures Without(s, x) != [] && Without(s, x)[0] == s[0]
  {
  }

  // ---------------------------------------------------------------- operations

  lemma WakeAllHeads(s: Sched, q: QueueId)
    requires ThreadsOk(s)
    ensures WakeAll(s, q).Ok? && ThreadsOk(WakeAll(s, q).value) && HeadsKept(s, WakeAll(s, q).value, None)
  {
    hide SchedOk, Running, WakeAll;
    var w := WakeAllKeeps(s, q);
  }

  lemma WakeOneHeads(s: Sched, q: QueueId)
    requires ThreadsOk(s)
    ensures WakeOneIntended(s, q).Ok? && HeadsKept(s, WakeOneIntended(s, q).value, None)
  {
    hide Schedule;
    if s.List(WaitList(q)) != [] {
      var t, w := ScheduleFront(s, q);
      hide Linked, AllHomed, IdleOk, PoolOk;
    }
  }

  lemma SleepOnHeads(s: Sched, q: QueueId)
    requires ThreadsOk(s) && s.current != Some(IDLE)
    ensures SleepOn(s, q).Ok? && HeadsKept(s, SleepOn(s, q).value, s.current)
  {
    hide SchedOk, SleepOn, BestRuns;
    var r := SleepOnKeeps(s, q);
    hide Running;
    forall p | s.List(ReadyList(p)) != [] && s.List(ReadyList(p))[0] != s.current.value
      ensures r.List(ReadyList(p)) != [] && r.List(ReadyList(p))[0] == s.List(ReadyList(p))[0]
    {
      WithoutKeepsHead(s.List(ReadyList(p)), s.current.value);
      assert r.List(ReadyList(p)) == Without(s.List(ReadyList(p)), s.current.value) + [];
    }
  }

  lemma StopThreadHeads(s: Sched)
    requires ThreadsOk(s) && s.current != Some(IDLE)
    ensures StopThread(s).Ok? && HeadsKept(s, StopThread(s).value, s.current)
  {
    hide SchedOk, StopThread, BestRuns;
    var r := StopThreadKeeps(s);
    hide Running;
    forall p | s.List(ReadyList(p)) != [] && s.List(ReadyList(p))[0] != s.current.value
      ensures r.List(ReadyList(p)) != [] && r.List(ReadyList(p))[0] == s.List(ReadyList(p))[0]
    {
      WithoutKeepsHead(s.List(ReadyList(p)), s.current.value);
    }
  }

  lemma CreateThreadHeads(s: Sched, high: bool)
    requires ThreadsOk(s) && CreateThread(s, high).Ok?
    ensures HeadsKept(s, CreateThread(s, high).value.0, None)
  {
    hide SchedOk, Running, CreateThread;
    CreateThreadFailsIff(s, high);
    var r, t := CreateThreadKeeps(s, high);
  }

  lemma {:induction false} SetFiredHeads(k: Kernel, fired: seq<Firing>)
    requires ThreadsOk(k.sched)
    ensures SetFired(k, fired).Ok? && HeadsKept(k.sched, SetFired(k, fired).value.sched, None)
    decreases |fired|
  {
    hide ThreadsOk, HeadsKept;
    if fired == [] {
      HeadsSame(k.sched, k.sched);
    } else {
      var e := Slot(fired[0].slot);
      WakeAllHeads(k.sched, EventQ(e));
      var m := SetEvent(k, e).value;
      SetFiredHeads(m, fired[1..]);
      HeadsTwice(k.sched, m.sched, SetFired(m, fired[1..]).value.sched);
    }
  }

  lemma MaybeWakeHeads(s: Sched, on: bool, q: QueueId)
    requires ThreadsOk(s)
    ensures var r := if on then WakeAll(s, q) else Ok(s);
      r.Ok? && ThreadsOk(r.value) && HeadsKept(s, r.value, None)
  {
    hide ThreadsOk, HeadsKept;
    WakeAllHeads(s, q);
    HeadsSame(s, s);
  }

  lemma MaybeKernelHeads(k: Kernel, a: Kernel, on: bool, q: QueueId)
    requires ThreadsOk(k.sched) && a.sched == k.sched
    ensures var r := if on then Wake(a, q) else Ok(k);
      r.Ok? && ThreadsOk(r.value.sched) && HeadsKept(k.sched, r.value.sched, None)
  {
    hide ThreadsOk, HeadsKept, WakeAll;
    MaybeWakeHeads(k.sched, on, q);
  }

  lemma ExternalHeads(k: Kernel, rx: bool, vsync: bool, card: bool, data: bool)
    requires ThreadsOk(k.sched)
    ensures ExternalHandler(k, rx, vsync, card, data).Ok?
    ensures HeadsKept(k.sched, ExternalHandler(k, rx, vsync, card, data).value.sched, None)
  {
    hide ThreadsOk, HeadsKept, Wake;
    MaybeKernelHeads(k, k.(active := k.active + {UART_RX}), rx, EventQ(UART_RX));
    var k1 := (if rx then SetEvent(k, UART_RX) else Ok(k)).value;
    MaybeKernelHeads(k1, k1, vsync, SignalQ(VSYNC));
    var k2 := (if vsync then Wake(k1, SignalQ(VSYNC)) else Ok(k1)).value;
    MaybeKernelHeads(k2, k2.(cardMasked := true), card, CardQ);
    var k3 := (if card then Wake(k2.(cardMasked := true), CardQ) else Ok(k2)).value;
    MaybeKernelHeads(k3, k3.(dataMasked := true), data, DataIdleQ);
    var k4 := (if data then Wake(k3.(dataMasked := true), DataIdleQ) else Ok(k3)).value;
    HeadsTwice(k.sched, k1.sched, k2.sched);
    HeadsTwice(k.sched, k2.sched, k3.sched);
    HeadsTwice(k.sched, k3.sched, k4.sched);
  }

  // ---------------------------------------------------------------- steps

  /** The thread that ran in k has gone to sleep, or has stopped. */
  predicate Left(k: Kernel, r: Kernel) {
    k.sched.current.Some? && (k.sched.current.value !in r.sched.threads || Asleep(r, k.sched.current.value))
  }

  ghost predicate HeadsStep(k: Kernel, r: Kernel) {
    HeadsKept(k.sched, r.sched, if Left(k, r) then k.sched.current else None)
  }

  lemma InterruptHeads(v: Version, k: Kernel, a: Action)
    requires Inv(k) && Enabled(k, a) && !ByThread(a) && Apply(v, k, a).Ok?
    ensures HeadsKept(k.sched, Apply(v, k, a).value.sched, None)
  {
    hide Inv, LoopEnds, ThreadsOk, HeadsKept, TimerHandler, ExternalHandler, Resched;
    ThreadsKnown(k);
    HeadsSame(k.sched, k.sched);
    match a {
      case TimerIrq(now) => TimerIrqHeads(v, k, now);
      case ExternalIrq(rx, vsync, card, data) => ExternalIrqHeads(v, k, rx, vsync, card, data);
      case _ =>
    }
  }

  lemma TimerIrqHeads(v: Version, k: Kernel, now: Word)
    requires ThreadsOk(k.sched) && Enabled(k, TimerIrq(now)) && Apply(v, k, TimerIrq(now)).Ok?
    ensures HeadsKept(k.sched, Apply(v, k, TimerIrq(now)).value.sched, None)
  {
    hide ThreadsOk, LoopEnds, HeadsKept, TimerHandler, Resched;
    TimerHeads(k, now);
    TrapHeads(k, TimerHandler(k, now).value);
  }

  lemma ExternalIrqHeads(v: Version, k: Kernel, rx: bool, vsync: bool, card: bool, data: bool)
    requires ThreadsOk(k.sched) && Enabled(k, ExternalIrq(rx, vsync, card, data))
    requires Apply(v, k, ExternalIrq(rx, vsync, card, data)).Ok?
    ensures HeadsKept(k.sched, Apply(v, k, ExternalIrq(rx, vsync, card, data)).value.sched, None)
  {
    hide ThreadsOk, LoopEnds, HeadsKept, ExternalHandler, Resched;
    ExternalHeads(k, rx, vsync, card, data);
    TrapHeads(k, ExternalHandler(k, rx, vsync, card, data).value);
  }

  lemma TrapHeads(k: Kernel, m: Kernel)
    requires HeadsKept(k.sched, m.sched, None)
    ensures Resched(m).Ok? ==> HeadsKept(k.sched, Resched(m).value.sched, None)
  {
    if Resched(m).Ok? {
      ReschedHeads(m);
      HeadsTwice(k.sched, m.sched, Resched(m).value.sched);
    }
  }

  lemma TimerHeads(k: Kernel, now: nat)
    requires ThreadsOk(k.sched) && LoopEnds(k.timers.queue, now)
    ensures TimerHandler(k, now).Ok? && HeadsKept(k.sched, TimerHandler(k, now).value.sched, None)
  {
    hide ThreadsOk, LoopEnds, HeadsKept, AfterInterrupt, SetFired;
    var (timers, fired) := AfterInterrupt(k.timers, now);
    SetFiredHeads(k.(timers := timers), fired);
  }

  lemma ReschedHeads(k: Kernel)
    requires Resched(k).Ok?
    ensures HeadsKept(k.sched, Resched(k).value.sched, None)
  {
    HeadsSame(k.sched, Resched(k).value.sched);
    hide HeadsKept;
  }

  lemma SleepLeaves(s: Sched, q: QueueId)
    requires ThreadsOk(s) && s.current != Some(IDLE) && s.current.Some?
    ensures SleepOn(s, q).Ok? && s.current.value in SleepOn(s, q).value.threads
    ensures SleepOn(s, q).value.threads[s.current.value].state == Sleeping
    ensures HeadsKept(s, SleepOn(s, q).value, s.current)
  {
    SleepOnHeads(s, q);
    hide SchedOk, SleepOn, BestRuns, HeadsKept;
    var r := SleepOnKeeps(s, q);
  }

  lemma BlockHeads(k: Kernel, q: QueueId, pc: Pc)
    requires ThreadsOk(k.sched) && HasMe(k) && Me(k) != IDLE
    ensures Block(k, q, pc).Ok? && HeadsStep(k, Block(k, q, pc).value)
  {
    hide ThreadsOk, SleepOn, HeadsKept;
    SleepLeaves(k.sched, q);
  }

  lemma NewTimerHeads(k: Kernel, trigger: Word, repeat: Word, owner: Owner) returns (r: Kernel, i: nat)
    requires Inv(k) && Alloc(k.timers.pool).Ok?
    ensures NewTimer(k, trigger, repeat, owner) == Ok((r, i))
    ensures ThreadsOk(r.sched) && HeadsKept(k.sched, r.sched, None)
    ensures r.sched.current == k.sched.current && r.info == k.info && r.sched.threads == k.sched.threads
  {
    hide Inv, ThreadsOk, SlotsOk, HeadsKept;
    r, i := NewTimerFacts(k, trigger, repeat, owner);
    NewQueueHeads(k.sched, EventQ(Slot(i)));
  }

  lemma BlockHeadsFrom(k: Kernel, k1: Kernel, q: QueueId, pc: Pc)
    requires ThreadsOk(k1.sched) && HasMe(k1) && Me(k1) != IDLE && HeadsKept(k.sched, k1.sched, None)
    requires k1.sched.current == k.sched.current
    ensures Block(k1, q, pc).Ok? && HeadsStep(k, Block(k1, q, pc).value)
  {
    hide ThreadsOk, SleepOn, HeadsKept;
    SleepLeaves(k1.sched, q);
    HeadsThen(k.sched, k1.sched, SleepOn(k1.sched, q).value, k.sched.current);
  }

  lemma SleepNsHeads(v: Version, k: Kernel, a: Action)
    requires Inv(k) && Enabled(k, a) && a.SleepNs? && Apply(v, k, a).Ok?
    ensures HeadsStep(k, Apply(v, k, a).value)
  {
    hide Inv, NewTimer, LoopEnds, Deadline, ThreadsOk, SlotsOk, HeadsStep, Block, Usable, Freeable;
    if Alloc(k.timers.pool).Abort? { NoTimer(k); }
    var k1, i := NewTimerHeads(k, Deadline(a.now, a.ns, a.freq), 0, Sleeper(Me(k)));
    BlockHeadsFrom(k, k1, EventQ(Slot(i)), SleepAsleep(i, a.now, a.ns, a.freq));
  }

  lemma ThreadsKnown(k: Kernel)
    requires Inv(k)
    ensures ThreadsOk(k.sched) && HasMe(k)
  {
    MeKnown(k);
    hide ThreadsOk, InfoOk, EventsOk, SleepersOk, RefsOk, SlotsOk, MutexOk, MasksOk;
  }

  lemma SleepHeads(v: Version, k: Kernel, a: Action)
    requires Inv(k) && Enabled(k, a) && (a.WaitSleep? || a.SignalWait? || a.LockSleep?) && Apply(v, k, a).Ok?
    ensures HeadsStep(k, Apply(v, k, a).value)
  {
    hide Inv, LoopEnds, ThreadsOk, HeadsKept, Block, Usable, Freeable;
    ThreadsKnown(k);
    HeadsSame(k.sched, k.sched);
    HeadsWeaker(k.sched, k.sched, k.sched.current);
    match a {
      case WaitSleep => BlockHeads(k, EventQ(MyPc(k).e), WaitAsleep(MyPc(k).e));
      case SignalWait(n) => BlockHeads(k, SignalQ(n), SignalAsleep(n));
      case LockSleep => BlockHeads(k, MutexQ(MyPc(k).m), Locking(MyPc(k).m));
    }
  }

  lemma DeviceHeads(v: Version, k: Kernel, a: Action)
    requires Inv(k) && Enabled(k, a) && (a.DataTest? || a.CardWait?) && Apply(v, k, a).Ok?
    ensures HeadsStep(k, Apply(v, k, a).value)
  {
    hide Inv, Enabled, Apply, HeadsStep;
    match a {
      case DataTest => DataTestHeads(v, k);
      case CardWait(checked) => CardWaitHeads(v, k, checked);
    }
  }

  lemma DataTestHeads(v: Version, k: Kernel)
    requires Inv(k) && Enabled(k, DataTest) && Apply(v, k, DataTest).Ok?
    ensures HeadsStep(k, Apply(v, k, DataTest).value)
  {
    hide Inv, ThreadsOk, HeadsKept, Block;
    ThreadsKnown(k);
    HeadsSame(k.sched, k.sched);
    HeadsWeaker(k.sched, k.sched, k.sched.current);
    BlockHeads(k.(dataMasked := false), DataIdleQ, DataWait);
  }

  lemma CardWaitHeads(v: Version, k: Kernel, checked: bool)
    requires Inv(k) && Enabled(k, CardWait(checked)) && Apply(v, k, CardWait(checked)).Ok?
    ensures HeadsStep(k, Apply(v, k, CardWait(checked)).value)
  {
    hide Inv, ThreadsOk, HeadsKept, Block;
    ThreadsKnown(k);
    HeadsSame(k.sched, k.sched);
    HeadsWeaker(k.sched, k.sched, k.sched.current);
    BlockHeads(k.(cardMasked := false), CardQ, CardAsleep);
  }

  lemma WakeHeads(v: Version, k: Kernel, a: Action)
    requires Inv(k) && Enabled(k, a) && Apply(v, k, a).Ok?
    requires a.SetWake? || a.SignalAll? || a.Stop? || a.Create?
    ensures HeadsKept(k.sched, Apply(v, k, a).value.sched, if a.Stop? then k.sched.current else None)
  {
    hide Inv, LoopEnds, ThreadsOk, HeadsKept, WakeAll, StopThread, CreateThread, Usable, Freeable;
    ThreadsKnown(k);
    match a {
      case SetWake => WakeAllHeads(k.sched, EventQ(MyPc(k).e));
      case SignalAll(n) => WakeAllHeads(k.sched, SignalQ(n));
      case Stop => StopThreadHeads(k.sched);
      case Create(high, _) => CreateThreadHeads(k.sched, high);
    }
  }

  lemma UnlockHeads(v: Version, k: Kernel, a: Action)
    requires Inv(k) && Enabled(k, a) && !HitsWakeOne(v, k, a) && Apply(v, k, a).Ok?
    requires a.Unlock? || a.RegisterTimer?
    ensures HeadsKept(k.sched, Apply(v, k, a).value.sched, None)
  {
    hide Inv, LoopEnds, ThreadsOk, HeadsKept, WakeOneIntended, WakeOneAsWritten, NewTimer, Usable, Freeable;
    ThreadsKnown(k);
    if a.Unlock? {
      WakeOneHeads(k.sched, MutexQ(a.m));
      if k.sched.List(WaitList(MutexQ(a.m))) == [] { NobodyToWake(k.sched, MutexQ(a.m)); }
    } else {
      if Alloc(k.timers.pool).Abort? { NoTimer(k); }
      var k1, i := NewTimerHeads(k, a.trigger, a.repeat, Handle);
    }
  }

  lemma NewQueueHeads(s: Sched, q: QueueId)
    ensures HeadsKept(s, NewQueue(s, q), None)
  {
    assert forall p :: NewQueue(s, q).List(ReadyList(p)) == s.List(ReadyList(p));
  }

  lemma QuietHeads(v: Version, k: Kernel, a: Action)
    requires HasMe(k) && Enabled(k, a) && ByThread(a) && Apply(v, k, a).Ok? && !Sleeps(a)
    requires !(a.SetWake? || a.SignalAll? || a.Unlock? || a.Stop? || a.Create? || a.RegisterTimer?)
    ensures HeadsKept(k.sched, Apply(v, k, a).value.sched, None)
  {
    hide Enabled, HeadsKept, Apply;
    SameSched(v, k, a);
    HeadsSame(k.sched, k.sched);
  }

  lemma SameSched(v: Version, k: Kernel, a: Action)
    requires HasMe(k) && Enabled(k, a) && ByThread(a) && Apply(v, k, a).Ok? && !Sleeps(a)
    requires !(a.SetWake? || a.SignalAll? || a.Unlock? || a.Stop? || a.Create? || a.RegisterTimer?)
    ensures Apply(v, k, a).value.sched == k.sched
  {
    hide Enabled, Apply;
    if a.LockEnter? || a.LockTest? || a.LockTake? || a.TryLock? {
      LockingSched(v, k, a);
    } else {
      QuietSched(v, k, a);
    }
  }

  lemma LockingSched(v: Version, k: Kernel, a: Action)
    requires HasMe(k) && Enabled(k, a) && (a.LockEnter? || a.LockTest? || a.LockTake? || a.TryLock?)
    ensures Apply(v, k, a).Ok? && Apply(v, k, a).value.sched == k.sched
  {
  }

  lemma QuietSched(v: Version, k: Kernel, a: Action)
    requires HasMe(k) && Enabled(k, a) && ByThread(a) && Apply(v, k, a).Ok? && !Sleeps(a)
    requires !(a.SetWake? || a.SignalAll? || a.Unlock? || a.Stop? || a.Create? || a.RegisterTimer?)
    requires !(a.LockEnter? || a.LockTest? || a.LockTake? || a.TryLock?)
    ensures Apply(v, k, a).value.sched == k.sched
  {
    hide Usable, Freeable;
  }

  lemma StepHeads(v: Version, k: Kernel, a: Action)
    requires Inv(k) && Enabled(k, a) && !HitsWakeOne(v, k, a) && Apply(v, k, a).Ok?
    ensures HeadsStep(k, Apply(v, k, a).value)
  {
    MeKnown(k);
    hide Inv, Enabled, HeadsKept, Apply, HeadsStep;
    if !ByThread(a) {
      InterruptHeads(v, k, a);
      StepOf(k, Apply(v, k, a).value);
    } else if a.SleepNs? {
      SleepNsHeads(v, k, a);
    } else if a.DataTest? || a.CardWait? {
      DeviceHeads(v, k, a);
    } else if Sleeps(a) {
      SleepHeads(v, k, a);
    } else if a.Stop? {
      WakeHeads(v, k, a);
      StopLeaves(v, k, a);
      LeavesStep(k, Apply(v, k, a).value);
    } else {
      AwakeHeads(v, k, a);
      StepOf(k, Apply(v, k, a).value);
    }
  }

  lemma StepOf(k: Kernel, r: Kernel)
    requires HeadsKept(k.sched, r.sched, None)
    ensures HeadsStep(k, r)
  {
    HeadsWeaker(k.sched, r.sched, k.sched.current);
    hide HeadsKept, Left;
  }

  lemma LeavesStep(k: Kernel, r: Kernel)
    requires HeadsKept(k.sched, r.sched, k.sched.current) && Left(k, r)
    ensures HeadsStep(k, r)
  {
    hide HeadsKept, Left;
  }

  lemma AwakeHeads(v: Version, k: Kernel, a: Action)
    requires Inv(k) && HasMe(k) && Enabled(k, a) && ByThread(a) && !HitsWakeOne(v, k, a) && Apply(v, k, a).Ok?
    requires !Sleeps(a) && !a.Stop?
    ensures HeadsKept(k.sched, Apply(v, k, a).value.sched, None)
  {
    hide Inv, Enabled, HeadsKept, Apply, HitsWakeOne;
    if a.Unlock? || a.RegisterTimer? {
      UnlockHeads(v, k, a);
    } else if a.SetWake? || a.SignalAll? || a.Create? {
      WakeHeads(v, k, a);
    } else {
      QuietHeads(v, k, a);
    }
  }

  lemma HeadsWeaker(s: Sched, r: Sched, except: Option<Tid>)
    ensures HeadsKept(s, r, None) ==> HeadsKept(s, r, except)
  {
  }

  lemma StopLeaves(v: Version, k: Kernel, a: Action)
    requires Inv(k) && Enabled(k, a) && a.Stop? && Apply(v, k, a).Ok?
    ensures Left(k, Apply(v, k, a).value)
  {
    MeKnown(k);
    hide Inv, BestRuns, LoopEnds;
    var r := StopKeeps(v, k);
  }

  // ---------------------------------------------------------------- runs

  /** From a state in which c runs, for as long as c stays Ready it stays at the head of the ready
      list of its priority. */
  lemma {:induction false} StaysHead(v: Version, n: nat, ks: seq<Kernel>, acts: seq<Action>, i: nat, j: nat, c: Tid, p: nat)
    requires |ks| == |acts| + 1 && Run(v, n, ks, acts) && i <= j < |ks|
    requires ks[i].sched.current == Some(c) && c in ks[i].sched.threads && ks[i].sched.threads[c].priority == p
    requires forall x :: i <= x <= j ==> c in ks[x].sched.threads && ks[x].sched.threads[c].state == Ready
    ensures ks[j].sched.List(ReadyList(p)) != [] && ks[j].sched.List(ReadyList(p))[0] == c
    decreases j
  {
    hide Inv, Run, Enabled, Apply, HitsWakeOne;
    if i == j {
      InvAlong(v, n, ks, acts, i);
      RunnerIsHead(ks[i], c, p);
    } else {
      StaysHead(v, n, ks, acts, i, j - 1, c, p);
      RunStep(v, n, ks, acts, j - 1);
      HeadStep(v, ks[j - 1], acts[j - 1], ks[j], c, p);
    }
  }

  lemma RunnerIsHead(k: Kernel, c: Tid, p: nat)
    requires Inv(k) && k.sched.current == Some(c) && c in k.sched.threads && k.sched.threads[c].priority == p
    ensures k.sched.List(ReadyList(p)) != [] && k.sched.List(ReadyList(p))[0] == c
  {
    SchedKnown(k);
    hide Inv, SchedOk;
  }

  lemma HeadStep(v: Version, k: Kernel, a: Action, r: Kernel, c: Tid, p: nat)
    requires Inv(k) && Enabled(k, a) && !HitsWakeOne(v, k, a) && Apply(v, k, a) == Ok(r)
    requires c in r.sched.threads && r.sched.threads[c].state == Ready
    requires k.sched.List(ReadyList(p)) != [] && k.sched.List(ReadyList(p))[0] == c
    ensures r.sched.List(ReadyList(p)) != [] && r.sched.List(ReadyList(p))[0] == c
  {
    hide Inv, Enabled, Apply, HitsWakeOne;
    StepHeads(v, k, a);
  }

  /** A preempted thread runs again before any peer of equal priority: from a state in which c runs,
      and for as long as c stays Ready, whoever runs at c's priority is c. */
  lemma PreemptedBeforePeers(v: Version, n: nat, ks: seq<Kernel>, acts: seq<Action>, i: nat, j: nat, c: Tid)
    requires Run(v, n, ks, acts) && i <= j < |ks| && ks[i].sched.current == Some(c)
    requires forall x :: i <= x <= j ==> c in ks[x].sched.threads && ks[x].sched.threads[c].state == Ready
    ensures ks[j].sched.current.Some? && ks[j].sched.current.value in ks[j].sched.threads
    ensures ks[j].sched.threads[ks[j].sched.current.value].priority == ks[i].sched.threads[c].priority ==>
      ks[j].sched.current == Some(c)
    ensures ks[j].sched.threads[c].priority == ks[i].sched.threads[c].priority
  {
    StaysHead(v, n, ks, acts, i, j, c, ks[i].sched.threads[c].priority);
    InvAlong(v, n, ks, acts, j);
    SchedKnown(ks[j]);
    hide Inv, Run, IdleOk, PoolOk;
    var t := FrontOf(ks[j].sched, ReadyList(ks[i].sched.threads[c].priority));
    assert Homed(ks[j].sched.threads[c]);
  }
}
