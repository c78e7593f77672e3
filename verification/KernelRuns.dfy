/** Whole runs of the kernel: what holds in every reachable state and along every run. */
module KernelRuns {
  import opened Common
  import opened Pools
  import opened Sched
  import opened Timers
  import opened Kernel
  import opened KernelInv
  import opened KernelIrq
  import opened KernelSteps

  // ---------------------------------------------------------------- one step

  /** The action runs wakeOneThread, as it is written, on a queue with a waiter. */
  predicate HitsWakeOne(v: Version, k: Kernel, a: Action) {
    v == AsWritten && a.Unlock? && k.sched.List(WaitList(MutexQ(a.m))) != []
  }

  /** The action asks a pool with no free slot for one: every stack is some thread's, or all ten timer
      slots are in use. */
  ghost predicate PoolFull(k: Kernel, a: Action) {
    || (a.Create? && forall i: nat :: i < k.sched.stacks.size ==> i in k.sched.threads)
    || ((a.SleepNs? || a.RegisterTimer?) && forall i: nat :: i < 10 ==> i in k.owner)
  }

  /** What a step gives back: a sound state, or the one legitimate abort. */
  ghost predicate StepResult(v: Version, k: Kernel, a: Action)
    requires Enabled(k, a)
  {
    match Apply(v, k, a)
    case Ok(r) => Inv(r) && !PoolFull(k, a)
      && (Interrupt(a) || r.sched.current != k.sched.current ==> BestRuns(r.sched))
    case Abort(why) => why == EmptyPool && PoolFull(k, a)
  }

  /** A step that asks no pool for anything. */
  predicate Modest(a: Action) {
    !a.Create? && !a.SleepNs? && !a.RegisterTimer?
  }

  lemma Sound(v: Version, k: Kernel, a: Action, r: Kernel)
    requires Enabled(k, a) && Apply(v, k, a) == Ok(r) && Inv(r) && !PoolFull(k, a)
    requires BestRuns(r.sched) || (!Interrupt(a) && r.sched.current == k.sched.current)
    ensures StepResult(v, k, a)
  {
    hide Inv, Enabled, Apply, BestRuns, PoolFull;
  }

  lemma ModestPool(k: Kernel, a: Action)
    requires Modest(a)
    ensures !PoolFull(k, a)
  {
  }

  lemma TimerIrqStep(v: Version, k: Kernel, now: Word)
    requires Inv(k) && Enabled(k, TimerIrq(now))
    ensures StepResult(v, k, TimerIrq(now))
  {
    hide Inv, BestRuns, LoopEnds, Resched, TimerHandler, StepResult;
    var r := TimerHandlerKeeps(k, now);
    var s := ReschedKeeps(r);
    Sound(v, k, TimerIrq(now), s);
  }

  lemma ExternalIrqStep(v: Version, k: Kernel, rx: bool, vsync: bool, card: bool, data: bool)
    requires Inv(k) && Enabled(k, ExternalIrq(rx, vsync, card, data))
    ensures StepResult(v, k, ExternalIrq(rx, vsync, card, data))
  {
    hide Inv, BestRuns, Resched, ExternalHandler, StepResult;
    var r := ExternalKeeps(k, rx, vsync, card, data);
    var s := ReschedKeeps(r);
    Sound(v, k, ExternalIrq(rx, vsync, card, data), s);
  }

  lemma LineStep(v: Version, k: Kernel, a: Action)
    requires Inv(k) && Enabled(k, a) && (a.DataLine? || a.CardLine?)
    ensures StepResult(v, k, a)
  {
    hide Inv, BestRuns, StepResult;
    var r := if a.DataLine? then k.(dataLine := a.level) else k.(cardIn := a.level);
    DevicesKeep(k, r);
    Sound(v, k, a, r);
  }

  lemma TimerPool(k: Kernel)
    requires Inv(k)
    ensures Alloc(k.timers.pool).Ok? <==> !forall i: nat :: i < MAX_TIMERS ==> i in k.owner
    ensures Alloc(k.timers.pool).Abort? ==> Alloc(k.timers.pool).reason == EmptyPool
  {
    hide ThreadsOk, InfoOk, EventsOk, SleepersOk, RefsOk, MutexOk, MasksOk, TimersOk;
    AllocKeeps(k.timers.pool, k.owner.Keys);
  }

  lemma MeKnown(k: Kernel)
    requires Inv(k)
    ensures HasMe(k) && Me(k) in k.sched.threads && !Asleep(k, Me(k))
  {
    hide SchedOk, EventsOk, SleepersOk, RefsOk, MutexOk, MasksOk, SlotsOk;
    MeIsReady(k);
  }

  lemma SchedKnown(k: Kernel)
    requires Inv(k)
    ensures SchedOk(k.sched) && Running(k.sched)
  {
    hide SchedOk, Running;
  }

  lemma CreateStep(v: Version, k: Kernel, a: Action)
    requires Inv(k) && Enabled(k, a) && a.Create?
    ensures StepResult(v, k, a)
  {
    hide Inv, BestRuns, CreateThread, SchedOk, Running, StepResult;
    SchedKnown(k);
    CreateThreadFailsIff(k.sched, a.high);
    if CreateThread(k.sched, a.high).Ok? {
      var r := CreateKeeps(v, k, a.high, a.sd);
      Sound(v, k, a, r);
    } else {
      NoSlot(v, k, a);
    }
  }

  lemma NoSlot(v: Version, k: Kernel, a: Action)
    requires Enabled(k, a) && Apply(v, k, a) == Abort(EmptyPool) && PoolFull(k, a)
    ensures StepResult(v, k, a)
  {
    hide Enabled, Apply, PoolFull;
  }

  lemma TimerStep(v: Version, k: Kernel, a: Action)
    requires Inv(k) && Enabled(k, a) && (a.SleepNs? || a.RegisterTimer?)
    ensures StepResult(v, k, a)
  {
    hide Inv, BestRuns, NewTimer, StepResult, Deadline, Usable, Freeable;
    TimerPool(k);
    if Alloc(k.timers.pool).Abort? {
      NoTimer(k);
      NoSlot(v, k, a);
    } else if a.SleepNs? {
      var r, i := SleepNsKeeps(k, a.now, a.ns, a.freq);
      assert Apply(v, k, a) == Ok(r) by {
        assert v == Intended || v == AsWritten;
      }
      hide Enabled;
      Sound(v, k, a, r);
    } else {
      var r, i := RegisterTimerKeeps(k, a.trigger, a.repeat);
      assert Apply(v, k, a) == Ok(r);
      hide Enabled;
      Sound(v, k, a, r);
    }
  }

  lemma NoTimer(k: Kernel)
    requires Alloc(k.timers.pool).Abort?
    ensures forall trigger, repeat, owner :: NewTimer(k, trigger, repeat, owner) == Abort(Alloc(k.timers.pool).reason)
  {
  }

  lemma WaitSleepStep(v: Version, k: Kernel)
    requires Inv(k) && Enabled(k, WaitSleep)
    ensures StepResult(v, k, WaitSleep)
  {
    hide Inv, BestRuns, Block, StepResult;
    assert HasMe(k) && MyPc(k).WaitTested? && Me(k) != IDLE;
    var e := MyPc(k).e;
    WaitedIsHandle(k);
    if e in k.active {
      var r := AtKeeps(k, User);
      assert Apply(v, k, WaitSleep) == Ok(r);
      Sound(v, k, WaitSleep, r);
    } else {
      var r := BlockKeeps(k, EventQ(e), WaitAsleep(e));
      assert Apply(v, k, WaitSleep) == Ok(r);
      Sound(v, k, WaitSleep, r);
    }
  }

  lemma WaitStep(v: Version, k: Kernel, a: Action)
    requires Inv(k) && Enabled(k, a) && (a.WaitTest? || a.WaitReturn? || a.SignalWait?)
    ensures StepResult(v, k, a)
  {
    hide Inv, BestRuns, Block, StepResult, PoolFull, Freeable;
    ModestPool(k, a);
    match a {
      case WaitTest(e) =>
        if e !in k.active {
          var r := AtKeeps(k, WaitTested(e));
          Sound(v, k, a, r);
        } else {
          Sound(v, k, a, k);
        }
      case WaitReturn =>
        var r := AtKeeps(k, User);
        Sound(v, k, a, r);
      case SignalWait(n) =>
        var r := BlockKeeps(k, SignalQ(n), SignalAsleep(n));
        Sound(v, k, a, r);
    }
  }

  lemma SetStep(v: Version, k: Kernel, a: Action)
    requires Inv(k) && Enabled(k, a) && (a.SetStore? || a.SetWake? || a.Clear? || a.SignalAll?)
    ensures StepResult(v, k, a)
  {
    hide Inv, BestRuns, Wake, StepResult, PoolFull, Freeable;
    ModestPool(k, a);
    match a {
      case SetStore(e) =>
        var r := SetStoreKeeps(k, e);
        Sound(v, k, a, r);
      case SetWake =>
        var r := SetWakeKeeps(k);
        Sound(v, k, a, r);
      case Clear(e) =>
        var r := ClearKeeps(k, e);
        Sound(v, k, a, r);
      case SignalAll(n) =>
        var r := WakeInv(k, SignalQ(n));
        Sound(v, k, a, r);
    }
  }

  lemma WaitedIsHandle(k: Kernel)
    requires Inv(k) && HasMe(k)
    ensures MyPc(k).WaitTested? && MyPc(k).e.Slot? ==> MyPc(k).e.slot in k.owner && k.owner[MyPc(k).e.slot] == Handle
  {
    hide ThreadsOk, InfoOk, EventsOk, SleepersOk, MutexOk, MasksOk, SlotsOk;
    assert MyPc(k).WaitTested? ==> Refers(k.info[Me(k)].pc, MyPc(k).e);
  }

  lemma LockTestStep(v: Version, k: Kernel)
    requires Inv(k) && Enabled(k, LockTest)
    ensures StepResult(v, k, LockTest)
  {
    hide Inv, BestRuns, StepResult;
    var m := MyPc(k).m;
    var r := AtKeeps(k, if m in k.locked then LockSawHeld(m) else LockSawFree(m));
    Sound(v, k, LockTest, r);
  }

  lemma LockEnterStep(v: Version, k: Kernel, m: nat)
    requires Inv(k) && Enabled(k, LockEnter(m))
    ensures StepResult(v, k, LockEnter(m))
  {
    hide Inv, BestRuns, StepResult;
    var r := AtKeeps(k, Locking(m));
    Sound(v, k, LockEnter(m), r);
  }

  lemma TryLockStep(v: Version, k: Kernel, m: nat)
    requires Inv(k) && Enabled(k, TryLock(m))
    ensures StepResult(v, k, TryLock(m))
  {
    hide Inv, BestRuns, StepResult;
    var r := TryLockKeeps(k, m);
    Sound(v, k, TryLock(m), r);
  }

  lemma LockSleepStep(v: Version, k: Kernel)
    requires Inv(k) && Enabled(k, LockSleep)
    ensures StepResult(v, k, LockSleep)
  {
    hide Inv, BestRuns, Block, StepResult;
    var r := BlockKeeps(k, MutexQ(MyPc(k).m), Locking(MyPc(k).m));
    Sound(v, k, LockSleep, r);
  }

  lemma LockTakeStep(v: Version, k: Kernel)
    requires Inv(k) && Enabled(k, LockTake)
    ensures StepResult(v, k, LockTake)
  {
    hide Inv, BestRuns, StepResult;
    if MyPc(k).m in k.locked {
      var r := AtKeeps(k, Locking(MyPc(k).m));
      Sound(v, k, LockTake, r);
    } else {
      var r := LockTakeKeeps(k, MyPc(k).m);
      Sound(v, k, LockTake, r);
    }
  }

  lemma DataTestStep(v: Version, k: Kernel)
    requires Inv(k) && Enabled(k, DataTest)
    ensures StepResult(v, k, DataTest)
  {
    hide Inv, BestRuns, Block, StepResult;
    if k.dataLine {
      var r := AtKeeps(k, User);
      Sound(v, k, DataTest, r);
    } else {
      var u := k.(dataMasked := false);
      DevicesKeep(k, u);
      var r := BlockKeeps(u, DataIdleQ, DataWait);
      Sound(v, k, DataTest, r);
    }
  }

  lemma DataEnterStep(v: Version, k: Kernel)
    requires Inv(k) && Enabled(k, DataEnter)
    ensures StepResult(v, k, DataEnter)
  {
    hide Inv, BestRuns, StepResult;
    var r := AtKeeps(k, DataWait);
    Sound(v, k, DataEnter, r);
  }

  lemma CardMaskStep(v: Version, k: Kernel)
    requires Inv(k) && Enabled(k, CardMask)
    ensures StepResult(v, k, CardMask)
  {
    hide Inv, BestRuns, StepResult;
    DevicesKeep(k, k.(cardMasked := true));
    Sound(v, k, CardMask, k.(cardMasked := true));
  }

  lemma CardWaitStep(v: Version, k: Kernel, checked: bool)
    requires Inv(k) && Enabled(k, CardWait(checked))
    ensures StepResult(v, k, CardWait(checked))
  {
    hide Inv, BestRuns, Block, StepResult;
    if checked && !k.cardIn {
      Sound(v, k, CardWait(checked), k);
    } else {
      var u := k.(cardMasked := false);
      DevicesKeep(k, u);
      var r := BlockKeeps(u, CardQ, CardAsleep);
      Sound(v, k, CardWait(checked), r);
    }
  }

  lemma OtherStep(v: Version, k: Kernel, a: Action)
    requires Inv(k) && Enabled(k, a) && (a.Wfi? || a.Stop? || a.SleepReturn? || a.FreeTimer?)
    ensures StepResult(v, k, a)
  {
    hide Inv, BestRuns, DropTimer, StepResult, PoolFull;
    ModestPool(k, a);
    match a {
      case Wfi => Sound(v, k, a, k);
      case Stop =>
        var r := StopKeeps(v, k);
        Sound(v, k, a, r);
      case SleepReturn =>
        var r := SleepReturnKeeps(k);
        Sound(v, k, a, r);
      case FreeTimer(slot) =>
        var r := FreeTimerKeeps(k, slot);
        Sound(v, k, a, r);
    }
  }

  /** Every action keeps the invariant and aborts only on an empty pool -- unless it is unlock, as
      written, with a thread asleep on the mutex, and then it certainly does neither. */
  lemma StepKeepsIff(v: Version, k: Kernel, a: Action)
    requires Inv(k) && Enabled(k, a)
    ensures StepResult(v, k, a) <==> !HitsWakeOne(v, k, a)
  {
    hide Inv, StepResult, HitsWakeOne, Enabled, Apply;
    if a.Unlock? {
      UnlockStepIff(v, k, a.m);
    } else {
      NotUnlock(v, k, a);
      match a {
        case TimerIrq(now) => TimerIrqStep(v, k, now);
        case ExternalIrq(rx, vsync, card, data) => ExternalIrqStep(v, k, rx, vsync, card, data);
        case DataLine(_) => LineStep(v, k, a);
        case CardLine(_) => LineStep(v, k, a);
        case Create(_, _) => CreateStep(v, k, a);
        case SleepNs(_, _, _) => TimerStep(v, k, a);
        case RegisterTimer(_, _) => TimerStep(v, k, a);
        case WaitTest(_) => WaitStep(v, k, a);
        case WaitSleep => WaitSleepStep(v, k);
        case WaitReturn => WaitStep(v, k, a);
        case SetStore(_) => SetStep(v, k, a);
        case SetWake => SetStep(v, k, a);
        case Clear(_) => SetStep(v, k, a);
        case SignalWait(_) => WaitStep(v, k, a);
        case SignalAll(_) => SetStep(v, k, a);
        case LockEnter(m) => LockEnterStep(v, k, m);
        case LockTest => LockTestStep(v, k);
        case LockSleep => LockSleepStep(v, k);
        case LockTake => LockTakeStep(v, k);
        case TryLock(m) => TryLockStep(v, k, m);
        case DataEnter => DataEnterStep(v, k);
        case DataTest => DataTestStep(v, k);
        case CardMask => CardMaskStep(v, k);
        case CardWait(checked) => CardWaitStep(v, k, checked);
        case Wfi => OtherStep(v, k, a);
        case Stop => OtherStep(v, k, a);
        case SleepReturn => OtherStep(v, k, a);
        case FreeTimer(_) => OtherStep(v, k, a);
      }
    }
  }

  lemma NotUnlock(v: Version, k: Kernel, a: Action)
    requires !a.Unlock?
    ensures !HitsWakeOne(v, k, a)
  {
  }

  lemma UnlockStepIff(v: Version, k: Kernel, m: nat)
    requires Inv(k) && Enabled(k, Unlock(m))
    ensures StepResult(v, k, Unlock(m)) <==> !HitsWakeOne(v, k, Unlock(m))
  {
    hide Inv, BestRuns, WakeOneAsWritten, WakeOneIntended;
    UnlockKeepsIff(v, k, m);
    MeKnown(k);
  }

  // ---------------------------------------------------------------- runs

  /** The states ks and actions acts of a run with n stacks. No abort has happened yet, and no
      action has hit wakeOneThread as it is written. */
  ghost predicate Run(v: Version, n: nat, ks: seq<Kernel>, acts: seq<Action>) {
    && |ks| == |acts| + 1
    && Start(n) == Ok(ks[0])
    && forall i :: 0 <= i < |acts| ==>
         && Enabled(ks[i], acts[i]) && !HitsWakeOne(v, ks[i], acts[i])
         && Apply(v, ks[i], acts[i]) == Ok(ks[i + 1])
  }

  lemma StartKeeps(n: nat)
    ensures Start(n).Ok? <==> n >= 2
    ensures n >= 2 ==> Inv(Start(n).value)
    ensures n >= 2 ==> var k := Start(n).value;
      k.active == {Named(0), Named(1)} && k.dataMasked && k.cardMasked && k.timers.queue == [] && k.locked == {} && k.held == {}
  {
    hide SchedOk, Running, Boot, Inv, PoolOk;
    BootKeeps(n);
    if n >= 2 {
      StartSound(n, Start(n).value);
    }
  }

  lemma StartSound(n: nat, k: Kernel)
    requires Start(n) == Ok(k) && SchedOk(k.sched) && Running(k.sched)
    requires k.sched.threads == map[0 := Thread(Ready, 2, Some(ReadyList(2))), 1 := Thread(Ready, 1, Some(ReadyList(1)))]
    ensures Inv(k)
  {
    hide SchedOk, Running, Boot, PoolOk, InfoOk, EventsOk, SleepersOk, RefsOk, MasksOk, SlotsOk, MutexOk;
    var s, info := k.sched, map[0 := Info(User, 0), 1 := Info(User, 1)];
    assert k.info == info && k.serials == 2 && k.owner == map[] && k.sdThread == None;
    QuietStart(k);
    FreshOk(MAX_TIMERS);
    NoTimers(k.timers, k.owner.Keys);
    NoMutexes(k.held, k.locked, k.serials);
  }

  lemma NoTimers(ts: Timers, owned: set<nat>)
    requires ts == Timers([], None, Fresh(MAX_TIMERS), 0) && owned == {} && PoolOk(Fresh(MAX_TIMERS), {})
    ensures SlotsOk(ts, owned)
  {
    hide PoolOk, Fresh;
  }

  lemma NoMutexes(held: set<(nat, nat)>, locked: set<nat>, serials: nat)
    requires held == {} && locked == {}
    ensures MutexOk(held, locked, serials)
  {
  }

  lemma QuietStart(k: Kernel)
    requires k.info == map[0 := Info(User, 0), 1 := Info(User, 1)] && k.serials == 2 && k.owner == map[] && k.sdThread == None
    requires k.sched.threads == map[0 := Thread(Ready, 2, Some(ReadyList(2))), 1 := Thread(Ready, 1, Some(ReadyList(1)))]
    ensures InfoOk(k) && EventsOk(k) && SleepersOk(k) && RefsOk(k) && MasksOk(k)
  {
    assert k.info.Keys == k.sched.threads.Keys;
    forall t | t in k.info ensures k.info[t] == Info(User, t) && !Asleep(k, t) {
    }
    AllQuiet(k);
  }

  lemma AllQuiet(k: Kernel)
    requires k.info.Keys == k.sched.threads.Keys && k.owner == map[] && k.sdThread == None
    requires forall t :: t in k.info ==> k.info[t] == Info(User, t) && t < k.serials && !Asleep(k, t)
    ensures InfoOk(k) && EventsOk(k) && SleepersOk(k) && RefsOk(k) && MasksOk(k)
  {
    hide Asleep, Pending, HasSlot, Setting, BlockedOn;
  }

  /** The invariant holds in every state of every run. */
  lemma {:induction false} InvAlong(v: Version, n: nat, ks: seq<Kernel>, acts: seq<Action>, i: nat)
    requires Run(v, n, ks, acts) && i < |ks|
    ensures Inv(ks[i])
  {
    hide Inv;
    if i == 0 {
      StartKeeps(n);
    } else {
      InvAlong(v, n, ks, acts, i - 1);
      StepKeepsIff(v, ks[i - 1], acts[i - 1]);
    }
  }

  lemma RunStep(v: Version, n: nat, ks: seq<Kernel>, acts: seq<Action>, i: nat)
    requires Run(v, n, ks, acts) && i < |acts|
    ensures Enabled(ks[i], acts[i]) && !HitsWakeOne(v, ks[i], acts[i]) && Apply(v, ks[i], acts[i]) == Ok(ks[i + 1])
    ensures Inv(ks[i]) && Inv(ks[i + 1])
  {
    InvAlong(v, n, ks, acts, i);
    InvAlong(v, n, ks, acts, i + 1);
  }

  /** In every state of every run each live thread is on exactly one list, exactly once: the ready
      list of its priority if it is Ready, one wait queue if it is Sleeping. */
  lemma EachThreadOnOneList(v: Version, n: nat, ks: seq<Kernel>, acts: seq<Action>, i: nat, t: Tid) returns (l: ListId)
    requires Run(v, n, ks, acts) && i < |ks| && t in ks[i].sched.threads
    ensures var s := ks[i].sched;
      && (s.threads[t].state == Ready <==> l == ReadyList(s.threads[t].priority))
      && (s.threads[t].state == Sleeping <==> l.WaitList?)
      && multiset(s.List(l))[t] == 1
      && forall k :: k != l ==> t !in s.List(k)
  {
    InvAlong(v, n, ks, acts, i);
    hide InfoOk, EventsOk, SleepersOk, RefsOk, MutexOk, MasksOk, SlotsOk, Running;
    l := OnExactlyOneList(ks[i].sched, t);
  }

  /** None of the kernel's assertions can fire at the next action of a run: the only abort is the
      allocator's, on a pool with no free slot -- and unlock, as written, on a mutex with a waiter. */
  lemma OnlyEmptyPoolsAbort(v: Version, n: nat, ks: seq<Kernel>, acts: seq<Action>, a: Action)
    requires Run(v, n, ks, acts) && Enabled(ks[|acts|], a) && !HitsWakeOne(v, ks[|acts|], a)
    ensures Apply(v, ks[|acts|], a).Abort? <==> PoolFull(ks[|acts|], a)
    ensures Apply(v, ks[|acts|], a).Abort? ==> Apply(v, ks[|acts|], a).reason == EmptyPool
  {
    InvAlong(v, n, ks, acts, |acts|);
    StepKeepsIff(v, ks[|acts|], a);
    hide Inv, Apply, Enabled, PoolFull;
  }

  /** The running thread is at the head of its own ready list, in every state; and right after an
      interrupt, or whenever the running thread has changed, no Ready thread has a better priority. */
  lemma RunningThreadIsHeadAndBest(v: Version, n: nat, ks: seq<Kernel>, acts: seq<Action>, i: nat)
    requires |ks| == |acts| + 1 && Run(v, n, ks, acts) && i < |ks|
    ensures Running(ks[i].sched)
    ensures i > 0 && (Interrupt(acts[i - 1]) || ks[i].sched.current != ks[i - 1].sched.current) ==> BestRuns(ks[i].sched)
  {
    hide Run, Inv, BestRuns, Running, Enabled, Apply, HitsWakeOne, StepResult;
    InvAlong(v, n, ks, acts, i);
    SchedKnown(ks[i]);
    if i > 0 {
      RunStep(v, n, ks, acts, i - 1);
      StepKeepsIff(v, ks[i - 1], acts[i - 1]);
      BestAfter(v, ks[i - 1], acts[i - 1], ks[i]);
    }
  }

  lemma BestAfter(v: Version, k: Kernel, a: Action, r: Kernel)
    requires Enabled(k, a) && StepResult(v, k, a) && Apply(v, k, a) == Ok(r)
    ensures Interrupt(a) || r.sched.current != k.sched.current ==> BestRuns(r.sched)
  {
    hide Inv, BestRuns, Enabled, Apply;
  }

  lemma QueueFront(k: Kernel, q: QueueId) returns (t: Tid)
    requires Inv(k) && k.sched.List(WaitList(q)) != []
    ensures t in k.info && Asleep(k, t) && BlockedOn(k.info[t].pc) == Some(q)
  {
    SchedKnown(k);
    hide EventsOk, SleepersOk, RefsOk, MutexOk, MasksOk, SlotsOk, Running;
    t := FrontOf(k.sched, WaitList(q));
    assert Homed(k.sched.threads[t]);
    assert Asleep(k, t);
  }

  /** No event loses a wake-up: while threads are queued on it, it is unset, or a setter that has
      stored _active is still to wake them. */
  lemma NoLostWakeUp(v: Version, n: nat, ks: seq<Kernel>, acts: seq<Action>, i: nat, e: EventId)
    requires Run(v, n, ks, acts) && i < |ks|
    requires ks[i].sched.List(WaitList(EventQ(e))) != []
    ensures e !in ks[i].active || Setting(ks[i], e)
  {
    hide Inv, Asleep, Setting, BlockedOn;
    InvAlong(v, n, ks, acts, i);
    var t := QueueFront(ks[i], EventQ(e));
    SleeperKeptWaiting(ks[i], t, e);
  }

  lemma SleeperKeptWaiting(k: Kernel, t: Tid, e: EventId)
    requires Inv(k) && t in k.info && Asleep(k, t) && BlockedOn(k.info[t].pc) == Some(EventQ(e))
    ensures e !in k.active || Setting(k, e)
  {
    hide ThreadsOk, InfoOk, RefsOk, MutexOk, MasksOk, SlotsOk, Pending, HasSlot, Asleep, Setting;
    match k.info[t].pc {
      case WaitAsleep(_) =>
      case SleepAsleep(_, _, _, _) =>
    }
  }

  lemma MaskOf(k: Kernel, t: Tid)
    requires Inv(k) && t in k.info && Asleep(k, t)
    ensures k.info[t].pc == DataWait ==> !k.dataMasked
    ensures k.info[t].pc == CardAsleep ==> !k.cardMasked
  {
    hide ThreadsOk, InfoOk, EventsOk, SleepersOk, RefsOk, MutexOk, SlotsOk, Asleep;
  }

  /** Whoever is queued for the data-idle interrupt, or for the card interrupt, has it unmasked. */
  lemma NoMaskedSleep(v: Version, n: nat, ks: seq<Kernel>, acts: seq<Action>, i: nat)
    requires Run(v, n, ks, acts) && i < |ks|
    ensures ks[i].sched.List(WaitList(DataIdleQ)) != [] ==> !ks[i].dataMasked
    ensures ks[i].sched.List(WaitList(CardQ)) != [] ==> !ks[i].cardMasked
  {
    InvAlong(v, n, ks, acts, i);
    MaskOfQueues(ks[i]);
  }

  lemma MaskOfQueues(k: Kernel)
    requires Inv(k)
    ensures k.sched.List(WaitList(DataIdleQ)) != [] ==> !k.dataMasked
    ensures k.sched.List(WaitList(CardQ)) != [] ==> !k.cardMasked
  {
    hide Inv, Asleep;
    if k.sched.List(WaitList(DataIdleQ)) != [] {
      var t := QueueFront(k, DataIdleQ);
      MaskOf(k, t);
    }
    if k.sched.List(WaitList(CardQ)) != [] {
      var t := QueueFront(k, CardQ);
      MaskOf(k, t);
    }
  }

  /** waitDataIdle returns only from a state in which the line says idle. */
  lemma DataWaitSeesIdle(v: Version, k: Kernel, a: Action)
    requires Inv(k) && Enabled(k, a) && HasMe(k) && MyPc(k) == DataWait
    requires Apply(v, k, a).Ok? && Me(k) in Apply(v, k, a).value.info && Apply(v, k, a).value.info[Me(k)].pc == User
    ensures a == DataTest && k.dataLine
  {
    hide Inv, LoopEnds;
    if !ByThread(a) {
      InterruptInfo(v, k, a, Apply(v, k, a).value);
    } else {
      hide SleepOn, Usable, Freeable;
      assert a == DataTest;
    }
  }

  /** Interrupts and devices move no thread's program point. */
  lemma InterruptInfo(v: Version, k: Kernel, a: Action, r: Kernel)
    requires Inv(k) && Enabled(k, a) && !ByThread(a) && Apply(v, k, a) == Ok(r)
    ensures r.info == k.info && r.owner == k.owner
  {
    hide Inv, Enabled, Apply;
    if a.TimerIrq? {
      TimerIrqInfo(v, k, a.now, r);
    } else if a.ExternalIrq? {
      ExternalIrqInfo(v, k, a.rx, a.vsync, a.card, a.data, r);
    } else {
      LineInfo(v, k, a, r);
    }
  }

  lemma TimerIrqInfo(v: Version, k: Kernel, now: Word, r: Kernel)
    requires Inv(k) && Enabled(k, TimerIrq(now)) && Apply(v, k, TimerIrq(now)) == Ok(r)
    ensures r.info == k.info && r.owner == k.owner
  {
    hide Inv, LoopEnds, TimerHandler, Reschedule;
    var h := TimerHandlerKeeps(k, now);
  }

  lemma ExternalIrqInfo(v: Version, k: Kernel, rx: bool, vsync: bool, card: bool, data: bool, r: Kernel)
    requires Inv(k) && Enabled(k, ExternalIrq(rx, vsync, card, data)) && Apply(v, k, ExternalIrq(rx, vsync, card, data)) == Ok(r)
    ensures r.info == k.info && r.owner == k.owner
  {
    hide Inv, ExternalHandler, Reschedule;
    var h := ExternalKeeps(k, rx, vsync, card, data);
  }

  lemma LineInfo(v: Version, k: Kernel, a: Action, r: Kernel)
    requires Enabled(k, a) && (a.DataLine? || a.CardLine?) && Apply(v, k, a) == Ok(r)
    ensures r.info == k.info && r.owner == k.owner
  {
  }

  /** The timer queue is sorted, first come first served among equal times, holds each timer once
      and only live ones, and the comparator follows its head. */
  lemma TimerQueueAndComparator(v: Version, n: nat, ks: seq<Kernel>, acts: seq<Action>, i: nat)
    requires Run(v, n, ks, acts) && i < |ks|
    ensures Sorted(ks[i].timers.queue) && OneSlotEach(ks[i].timers.queue)
    ensures ks[i].timers.comparator == Head(ks[i].timers.queue)
    ensures forall s :: HasSlot(ks[i].timers.queue, s) ==> s in ks[i].owner
    ensures PoolOk(ks[i].timers.pool, ks[i].owner.Keys) && PoolOk(ks[i].sched.stacks, ks[i].sched.threads.Keys)
  {
    InvAlong(v, n, ks, acts, i);
    hide Linked, AllHomed, IdleOk, Running, InfoOk, EventsOk, SleepersOk, RefsOk, MasksOk, MutexOk, HasSlot, PoolOk;
  }
}
