/** From any state of a run the threads other than one can be made to leave the way, each by its own next
    steps and then by ending. With that, exactly when Event::wait may return with its event unset. */
module KernelDrive {
  import opened Common
  import opened Pools
  import opened Sched
  import opened Kernel
  import opened KernelInv
  import opened KernelRuns
  import opened KernelSleep
  import opened KernelLive
  import opened KernelLock
  import opened KernelEffects
  import opened KernelCalls

  /** What a thread does next if it starts nothing new. */
  function NextAction(pc: Pc): Action {
    match pc
    case User => Stop
    case WaitTested(_) => WaitSleep
    case WaitAsleep(_) => WaitReturn
    case SetStored(_) => SetWake
    case SignalAsleep(_) => WaitReturn
    case SleepAsleep(_, _, _, _) => SleepReturn
    case Locking(_) => LockTest
    case LockSawHeld(_) => LockSleep
    case LockSawFree(_) => LockTake
    case DataWait => DataTest
    case CardAsleep => WaitReturn
  }

  lemma NextEnabled(v: Version, k: Kernel)
    requires HasMe(k) && Me(k) != IDLE
    ensures Enabled(k, NextAction(MyPc(k))) && !HitsWakeOne(v, k, NextAction(MyPc(k)))
    ensures ByThread(NextAction(MyPc(k))) && Modest(NextAction(MyPc(k))) && !NextAction(MyPc(k)).Unlock?
    ensures !NextAction(MyPc(k)).SetStore? && !NextAction(MyPc(k)).SignalAll?
    ensures NextAction(MyPc(k)) == SetWake ==> MyPc(k).SetStored?
  {
  }

  /** The step it takes; nothing can go wrong in it. */
  lemma NextStep(v: Version, k: Kernel) returns (r: Kernel)
    requires Inv(k) && HasMe(k) && Me(k) != IDLE
    ensures var a := NextAction(MyPc(k)); Enabled(k, a) && !HitsWakeOne(v, k, a) && Apply(v, k, a) == Ok(r)
    ensures Inv(r) && HasMe(r) && (Me(r) == Me(k) || BestRuns(r.sched))
  {
    hide Inv, Enabled, Apply, HitsWakeOne, BestRuns, NextAction;
    NextEnabled(v, k);
    var a := NextAction(MyPc(k));
    StepKeepsIff(v, k, a);
    ModestPool(k, a);
    r := StepOk(v, k, a);
    MeKnown(r);
  }

  lemma StepOk(v: Version, k: Kernel, a: Action) returns (r: Kernel)
    requires Enabled(k, a) && StepResult(v, k, a) && !PoolFull(k, a)
    ensures Apply(v, k, a) == Ok(r) && Inv(r) && (r.sched.current != k.sched.current ==> BestRuns(r.sched))
  {
    hide Inv, Enabled, Apply, BestRuns, PoolFull;
    r := Apply(v, k, a).value;
  }

  // ---------------------------------------------------------------- a measure

  /** A bound on the steps thread t takes by NextAction before it is asleep for good, or has ended. */
  function Rank(k: Kernel, t: Tid): nat {
    if t !in k.info then 0
    else
      match k.info[t].pc
      case User => 1
      case WaitTested(_) => 4
      case WaitAsleep(_) => if Asleep(k, t) then 3 else 2
      case SetStored(_) => 2
      case SignalAsleep(_) => if Asleep(k, t) then 0 else 2
      case SleepAsleep(_, _, _, _) => if Asleep(k, t) then 3 else 2
      case Locking(m) => if Asleep(k, t) then 0 else if m in k.locked then 3 else 5
      case LockSawHeld(_) => 1
      case LockSawFree(_) => 4
      case DataWait => if Asleep(k, t) then 0 else 2
      case CardAsleep => if Asleep(k, t) then 0 else 2
  }

  function Total(k: Kernel, n: nat): nat {
    if n == 0 then 0 else Total(k, n - 1) + Rank(k, n - 1)
  }

  lemma {:induction false} TotalLess(k: Kernel, r: Kernel, n: nat, c: Tid)
    requires forall t: nat :: Rank(r, t) <= Rank(k, t)
    ensures Total(r, n) <= Total(k, n)
    ensures c < n && Rank(r, c) < Rank(k, c) ==> Total(r, n) < Total(k, n)
  {
    if n > 0 {
      TotalLess(k, r, n - 1, c);
    }
  }

  // ---------------------------------------------------------------- what the step does to it

  /** No thread appears. */
  lemma NoneBorn(v: Version, k: Kernel, a: Action, r: Kernel)
    requires LiveOk(k) && HasMe(k) && Enabled(k, a) && ByThread(a) && !a.Create? && Apply(v, k, a) == Ok(r)
    ensures forall t :: t in r.info ==> t in k.info
  {
    hide LiveOk, Enabled, Apply;
    if a.Stop? {
      StopInfo(v, k, r);
    } else {
      OtherAside(v, k, a);
    }
  }

  lemma StaysLocked(v: Version, k: Kernel, a: Action, r: Kernel)
    requires Enabled(k, a) && !a.Unlock? && Apply(v, k, a) == Ok(r)
    ensures forall m :: m in k.locked ==> m in r.locked
  {
    hide Enabled, Apply, Takes;
    forall m | m in k.locked ensures m in r.locked {
      LockedStep(v, k, a, m);
    }
  }

  lemma OtherRank(k: Kernel, a: Action, r: Kernel, t: Tid)
    requires InfoOk(k) && HasMe(k) && t != Me(k) && OthersWoken(k, a, r) && ByThread(a) && !a.Unlock? && !a.SignalAll?
    requires t in r.info ==> t in k.info && r.info[t] == k.info[t]
    requires forall m :: m in k.locked ==> m in r.locked
    ensures Rank(r, t) <= Rank(k, t)
  {
    if t in r.info {
      assert t in k.sched.threads;
      if Wakes(k, a, t) {
        assert k.sched.threads[t].hook.value.queue.EventQ?;
      }
    }
  }

  lemma StoppedRank(v: Version, k: Kernel, r: Kernel)
    requires HasMe(k) && Enabled(k, Stop) && Apply(v, k, Stop) == Ok(r)
    ensures Rank(r, Me(k)) == 0
  {
    hide Enabled, Apply;
    StopInfo(v, k, r);
  }

  lemma LockRank(v: Version, k: Kernel, a: Action, r: Kernel, m: nat)
    requires Inv(k) && HasMe(k) && InLock(MyPc(k), m) && Enabled(k, a) && ByThread(a) && Apply(v, k, a) == Ok(r)
    requires forall m :: m in k.locked ==> m in r.locked
    ensures Rank(r, Me(k)) < Rank(k, Me(k))
  {
    hide Inv, Enabled, Apply;
    MeKnown(k);
    LockGoesOn(v, k, a, r, m);
  }

  lemma WaitRank(v: Version, k: Kernel, a: Action, r: Kernel)
    requires Inv(k) && HasMe(k) && (MyPc(k).WaitTested? || MyPc(k).DataWait?) && Enabled(k, a) && ByThread(a) && Apply(v, k, a) == Ok(r)
    ensures Rank(r, Me(k)) < Rank(k, Me(k))
  {
    hide Inv, Enabled, Apply;
    MeKnown(k);
    if MyPc(k).WaitTested? {
      SecondTestIff(v, k, a, MyPc(k).e, r);
    } else {
      DataTestIff(v, k, a, r);
    }
  }

  lemma ReturnRank(v: Version, k: Kernel, a: Action, r: Kernel)
    requires Inv(k) && HasMe(k) && Enabled(k, a) && ByThread(a) && Apply(v, k, a) == Ok(r)
    requires MyPc(k).WaitAsleep? || MyPc(k).SignalAsleep? || MyPc(k).CardAsleep? || MyPc(k).SleepAsleep? || MyPc(k).SetStored?
    ensures Rank(r, Me(k)) == 1 && Rank(k, Me(k)) == 2
  {
    hide Inv, Enabled, Apply;
    MeKnown(k);
    if MyPc(k).SleepAsleep? {
      SleepNsEnds(v, k, a, r);
    } else if MyPc(k).SetStored? {
      SetWakeNext(k, a);
      SetWakeLeavesMe(v, k, r);
    } else {
      WokenReturns(v, k, a, r);
    }
  }

  lemma OwnRank(v: Version, k: Kernel, r: Kernel)
    requires Inv(k) && HasMe(k) && Me(k) != IDLE
    requires var a := NextAction(MyPc(k)); Enabled(k, a) && ByThread(a) && Apply(v, k, a) == Ok(r)
    requires forall m :: m in k.locked ==> m in r.locked
    ensures Rank(r, Me(k)) < Rank(k, Me(k))
  {
    hide Inv, Enabled, Apply, Rank;
    var a := NextAction(MyPc(k));
    match MyPc(k) {
      case User =>
        StoppedRank(v, k, r);
        UserRank(k, Me(k));
      case WaitTested(_) => WaitRank(v, k, a, r);
      case DataWait => WaitRank(v, k, a, r);
      case Locking(m) => LockRank(v, k, a, r, m);
      case LockSawHeld(m) => LockRank(v, k, a, r, m);
      case LockSawFree(m) => LockRank(v, k, a, r, m);
      case WaitAsleep(_) => ReturnRank(v, k, a, r);
      case SignalAsleep(_) => ReturnRank(v, k, a, r);
      case CardAsleep => ReturnRank(v, k, a, r);
      case SleepAsleep(_, _, _, _) => ReturnRank(v, k, a, r);
      case SetStored(_) => ReturnRank(v, k, a, r);
    }
  }

  lemma UserRank(k: Kernel, t: Tid)
    requires t in k.info && k.info[t].pc == User
    ensures Rank(k, t) == 1
  {
  }

  /** Each such step lowers the total; every thread is counted. */
  lemma StepLowers(v: Version, k: Kernel, r: Kernel)
    requires Inv(k) && HasMe(k) && Me(k) != IDLE
    requires var a := NextAction(MyPc(k)); Enabled(k, a) && !HitsWakeOne(v, k, a) && Apply(v, k, a) == Ok(r)
    ensures Total(r, k.sched.stacks.size) < Total(k, k.sched.stacks.size) && r.sched.stacks.size == k.sched.stacks.size
  {
    hide Inv, Enabled, Apply, Rank, HitsWakeOne, NextAction, OthersWoken, LiveOk;
    var a := NextAction(MyPc(k));
    NextEnabled(v, k);
    InvLive(k);
    NoneBorn(v, k, a, r);
    LiveStep(v, k, a, r);
    StaysLocked(v, k, a, r);
    WokenExactly(v, k, a, r);
    InfoKnown(k);
    OwnRank(v, k, r);
    forall t: nat ensures Rank(r, t) <= Rank(k, t) {
      if t != Me(k) { OtherRank(k, a, r, t); }
    }
    TotalLess(k, r, k.sched.stacks.size, Me(k));
    SlotBelow(k);
    SameSize(v, k, a, r);
  }

  lemma InfoKnown(k: Kernel)
    requires Inv(k)
    ensures InfoOk(k)
  {
    hide ThreadsOk, EventsOk, SleepersOk, RefsOk, MutexOk, MasksOk, SlotsOk, InfoOk;
  }

  lemma SlotBelow(k: Kernel)
    requires LiveOk(k)
    ensures forall t :: t in k.info ==> t < k.sched.stacks.size
  {
  }

  lemma SameSize(v: Version, k: Kernel, a: Action, r: Kernel)
    requires HasMe(k) && Enabled(k, a) && ByThread(a) && !a.Create? && Apply(v, k, a) == Ok(r)
    ensures r.sched.stacks.size == k.sched.stacks.size
  {
    hide Enabled, Apply;
    if a.Stop? {
      StopSize(v, k, r);
    } else {
      OtherAside(v, k, a);
    }
  }

  lemma StopSize(v: Version, k: Kernel, r: Kernel)
    requires HasMe(k) && Enabled(k, Stop) && Apply(v, k, Stop) == Ok(r)
    ensures r.sched.stacks.size == k.sched.stacks.size
  {
    hide StopThread;
    StopThreadLive(k.sched);
  }

  // ---------------------------------------------------------------- wait(e), with e unset throughout

  /** A run that has come to k. At i thread t has called wait(e); it has not returned, and e has been
      unset ever since. */
  ghost predicate Under(v: Version, n: nat, ks: seq<Kernel>, acts: seq<Action>, k: Kernel, i: nat, t: Tid, e: EventId) {
    && |ks| == |acts| + 1 && Run(v, n, ks, acts) && ks[|acts|] == k
    && i < |acts| && acts[i] == WaitTest(e) && HasMe(ks[i]) && Me(ks[i]) == t
    && (forall x :: i <= x <= |acts| ==> e !in ks[x].active)
    && (forall x :: i < x <= |acts| && t in ks[x].info ==> ks[x].info[t].pc != User)
  }

  lemma UnderStep(v: Version, n: nat, ks: seq<Kernel>, acts: seq<Action>, k: Kernel, i: nat, t: Tid, e: EventId, a: Action, r: Kernel)
    requires Under(v, n, ks, acts, k, i, t, e)
    requires Enabled(k, a) && !HitsWakeOne(v, k, a) && Apply(v, k, a) == Ok(r)
    requires e !in r.active && (t in r.info ==> r.info[t].pc != User)
    ensures Under(v, n, ks + [r], acts + [a], r, i, t, e)
  {
    hide Start, Enabled, HitsWakeOne, Apply;
  }

  lemma UnderInv(v: Version, n: nat, ks: seq<Kernel>, acts: seq<Action>, k: Kernel, i: nat, t: Tid, e: EventId)
    requires Under(v, n, ks, acts, k, i, t, e)
    ensures Inv(k) && HasMe(k) && e !in k.active && IdleOutside(k)
  {
    InvAlong(v, n, ks, acts, |acts|);
    IdleAlong(v, n, ks, acts, |acts|);
    MeKnown(k);
    hide Run, Inv;
  }

  /** The step sets nothing, and leaves every other thread where it is. */
  lemma QuietStep(v: Version, k: Kernel, r: Kernel, e: EventId)
    requires Inv(k) && HasMe(k) && Me(k) != IDLE && e !in k.active
    requires var a := NextAction(MyPc(k)); Enabled(k, a) && !HitsWakeOne(v, k, a) && Apply(v, k, a) == Ok(r)
    ensures e !in r.active
    ensures forall t :: t in k.info && t != Me(k) ==> t in r.info && r.info[t] == k.info[t]
    ensures OthersWoken(k, NextAction(MyPc(k)), r)
  {
    hide Inv, Enabled, Apply, HitsWakeOne, NextAction, OthersWoken, LiveOk, Due;
    NextEnabled(v, k);
    InvLive(k);
    LiveStep(v, k, NextAction(MyPc(k)), r);
    WokenExactly(v, k, NextAction(MyPc(k)), r);
    ActiveExactly(v, k, NextAction(MyPc(k)), r);
  }

  /** A thread that will go on if it is given the processor: not the idle one, and Ready. */
  predicate GoesOn(k: Kernel, t: Tid) {
    t != IDLE && t in k.sched.threads && k.sched.threads[t].state == Ready
  }

  /** As long as there is one, the idle thread is not chosen. */
  lemma NotIdle(k: Kernel, t: Tid)
    requires Inv(k) && HasMe(k) && GoesOn(k, t) && BestRuns(k.sched)
    ensures Me(k) != IDLE
  {
    SchedKnown(k);
    hide Inv, Running, Linked, PoolOk;
    assert Homed(k.sched.threads[t]);
  }

  predicate IdleOutside(k: Kernel) {
    IDLE in k.info && k.info[IDLE].pc == User
  }

  lemma IdleStep(v: Version, k: Kernel, a: Action, r: Kernel)
    requires LiveOk(k) && IdleOutside(k) && Enabled(k, a) && Apply(v, k, a) == Ok(r)
    ensures IdleOutside(r)
  {
    hide LiveOk;
    if ByThread(a) && Me(k) == IDLE {
      assert a == Wfi;
    } else {
      hide Enabled, Apply;
      LiveStep(v, k, a, r);
    }
  }

  /** The idle thread never enters the kernel. */
  lemma {:induction false} IdleAlong(v: Version, n: nat, ks: seq<Kernel>, acts: seq<Action>, i: nat)
    requires |ks| == |acts| + 1 && Run(v, n, ks, acts) && i < |ks|
    ensures IdleOutside(ks[i])
  {
    hide Inv, Enabled, Apply, HitsWakeOne, LiveOk;
    if i == 0 {
      StartIdle(n, ks[0]);
    } else {
      hide Run, IdleOutside;
      IdleAlong(v, n, ks, acts, i - 1);
      RunStep(v, n, ks, acts, i - 1);
      InvLive(ks[i - 1]);
      IdleStep(v, ks[i - 1], acts[i - 1], ks[i]);
    }
  }

  lemma StartIdle(n: nat, k: Kernel)
    requires Start(n) == Ok(k)
    ensures IdleOutside(k)
  {
    hide Boot;
  }

  lemma SetterGoesOn(k: Kernel, e: EventId) returns (s: Tid)
    requires Inv(k) && IdleOutside(k) && Setting(k, e)
    ensures s in k.info && k.info[s].pc == SetStored(e) && GoesOn(k, s)
  {
    s :| s in k.info && k.info[s].pc == SetStored(e);
    hide Inv, Setting;
    InfoKnown(k);
    ReadyOrAsleep(k, s);
    NotBlocked(k, s);
  }

  lemma NotBlocked(k: Kernel, s: Tid)
    requires InfoOk(k) && s in k.info && k.info[s].pc.SetStored?
    ensures !Asleep(k, s)
  {
  }

  lemma SetterHere(k: Kernel, s: Tid, e: EventId)
    requires s in k.info && k.info[s].pc == SetStored(e)
    ensures Setting(k, e)
  {
  }

  /** The threads in the way take their next steps until one that is setting e is at the processor. */
  lemma {:induction false} DriveToSetter(v: Version, n: nat, ks: seq<Kernel>, acts: seq<Action>, k: Kernel, i: nat, t: Tid, e: EventId)
      returns (ks': seq<Kernel>, acts': seq<Action>, r: Kernel)
    requires Under(v, n, ks, acts, k, i, t, e) && HasMe(k) && Me(k) != IDLE
    requires t in k.info && k.info[t].pc == WaitAsleep(e) && AsleepOn(k, t, EventQ(e)) && Setting(k, e)
    ensures ks <= ks' && acts <= acts' && Under(v, n, ks', acts', r, i, t, e) && HasMe(r) && Me(r) != IDLE && MyPc(r) == SetStored(e)
    ensures t in r.info && r.info[t].pc == WaitAsleep(e) && AsleepOn(r, t, EventQ(e))
    decreases Total(k, k.sched.stacks.size)
  {
    hide Under, Inv, Enabled, Apply, HitsWakeOne, NextAction, OthersWoken, Setting, BestRuns, Total, AsleepOn, GoesOn;
    if MyPc(k) == SetStored(e) {
      ks', acts', r := ks, acts, k;
    } else {
      UnderInv(v, n, ks, acts, k, i, t, e);
      var s := SetterGoesOn(k, e);
      var m := NextStep(v, k);
      QuietStep(v, k, m, e);
      SleepsNotRuns(k, t, EventQ(e));
      StepLowers(v, k, m);
      UnderStep(v, n, ks, acts, k, i, t, e, NextAction(MyPc(k)), m);
      StaysAsleep(v, k, m, t, e);
      SetterHere(m, s, e);
      StillGoesOn(k, m, s);
      if Me(m) != Me(k) { NotIdle(m, s); }
      ks', acts', r := DriveToSetter(v, n, ks + [m], acts + [NextAction(MyPc(k))], m, i, t, e);
    }
  }

  lemma StaysAsleep(v: Version, k: Kernel, r: Kernel, t: Tid, e: EventId)
    requires HasMe(k) && Me(k) != IDLE && Me(k) != t && MyPc(k) != SetStored(e) && AsleepOn(k, t, EventQ(e))
    requires OthersWoken(k, NextAction(MyPc(k)), r)
    ensures AsleepOn(r, t, EventQ(e))
  {
    NextEnabled(v, k);
    hide NextAction;
  }

  lemma StillGoesOn(k: Kernel, r: Kernel, s: Tid)
    requires Inv(k) && HasMe(k) && Me(k) != IDLE && GoesOn(k, s) && (s != Me(k)) && OthersWoken(k, NextAction(MyPc(k)), r)
    ensures GoesOn(r, s)
  {
    hide Inv, NextAction, Wakes;
  }

  /** The threads in the way of one that has been woken take their next steps until it is at the
      processor. */
  lemma {:induction false} DriveToWoken(v: Version, n: nat, ks: seq<Kernel>, acts: seq<Action>, k: Kernel, i: nat, t: Tid, e: EventId)
      returns (ks': seq<Kernel>, acts': seq<Action>, r: Kernel)
    requires Under(v, n, ks, acts, k, i, t, e) && HasMe(k) && Me(k) != IDLE
    requires GoesOn(k, t) && t in k.info && k.info[t].pc == WaitAsleep(e)
    ensures ks <= ks' && acts <= acts' && Under(v, n, ks', acts', r, i, t, e) && HasMe(r) && Me(r) == t && MyPc(r) == WaitAsleep(e)
    decreases Total(k, k.sched.stacks.size)
  {
    hide Under, Inv, Enabled, Apply, HitsWakeOne, NextAction, OthersWoken, BestRuns, Total, GoesOn;
    if Me(k) == t {
      ks', acts', r := ks, acts, k;
    } else {
      UnderInv(v, n, ks, acts, k, i, t, e);
      var m := NextStep(v, k);
      QuietStep(v, k, m, e);
      StepLowers(v, k, m);
      UnderStep(v, n, ks, acts, k, i, t, e, NextAction(MyPc(k)), m);
      StillGoesOn(k, m, t);
      if Me(m) != Me(k) { NotIdle(m, t); }
      ks', acts', r := DriveToWoken(v, n, ks + [m], acts + [NextAction(MyPc(k))], m, i, t, e);
    }
  }

  /** The setter at the processor wakes t. */
  lemma SetterWakes(v: Version, n: nat, ks: seq<Kernel>, acts: seq<Action>, k: Kernel, i: nat, t: Tid, e: EventId)
      returns (r: Kernel)
    requires Under(v, n, ks, acts, k, i, t, e) && HasMe(k) && Me(k) != IDLE && MyPc(k) == SetStored(e)
    requires t in k.info && k.info[t].pc == WaitAsleep(e) && AsleepOn(k, t, EventQ(e))
    ensures Under(v, n, ks + [r], acts + [SetWake], r, i, t, e) && HasMe(r) && Me(r) != IDLE
    ensures GoesOn(r, t) && t in r.info && r.info[t].pc == WaitAsleep(e)
  {
    hide Under, Inv, Enabled, Apply, HitsWakeOne, OthersWoken, BestRuns, AsleepOn, GoesOn;
    UnderInv(v, n, ks, acts, k, i, t, e);
    r := NextStep(v, k);
    QuietStep(v, k, r, e);
    SleepsNotRuns(k, t, EventQ(e));
    UnderStep(v, n, ks, acts, k, i, t, e, SetWake, r);
    WokenGoesOn(v, k, r, t, e);
    if Me(r) != Me(k) { NotIdle(r, t); }
  }

  lemma WokenGoesOn(v: Version, k: Kernel, r: Kernel, t: Tid, e: EventId)
    requires Inv(k) && IdleOutside(k) && HasMe(k) && MyPc(k) == SetStored(e) && Enabled(k, SetWake) && Apply(v, k, SetWake) == Ok(r)
    requires t in k.info && k.info[t].pc == WaitAsleep(e) && AsleepOn(k, t, EventQ(e)) && t != Me(k)
    ensures GoesOn(r, t)
  {
    hide Inv, Enabled, Apply;
    SetWakesWaiters(v, k, SetWake, r, e, t);
  }

  // ---------------------------------------------------------------- exactly when

  /** t has called wait(e) and fallen asleep, and somebody is still setting e. */
  lemma FallsAsleepUnset(v: Version, n: nat, ks: seq<Kernel>, acts: seq<Action>, k: Kernel, e: EventId)
      returns (ks': seq<Kernel>, acts': seq<Action>, r: Kernel)
    requires |ks| == |acts| + 1 && Run(v, n, ks, acts) && ks[|acts|] == k
    requires HasMe(k) && Enabled(k, WaitTest(e)) && e !in k.active && Setting(k, e)
    ensures ks <= ks' && acts <= acts' && Under(v, n, ks', acts', r, |acts|, Me(k), e) && HasMe(r) && Me(r) != IDLE && Setting(r, e)
    ensures Me(k) in r.info && r.info[Me(k)].pc == WaitAsleep(e) && AsleepOn(r, Me(k), EventQ(e))
  {
    hide Run, Inv, Enabled, Apply, HitsWakeOne, OthersWoken, BestRuns, AsleepOn, Setting, Under;
    var t, i := Me(k), |acts|;
    InvAlong(v, n, ks, acts, i);
    IdleAlong(v, n, ks, acts, i);
    CallerAtUser(k, e);
    var s := SetterGoesOn(k, e);
    var k1 := Tests(v, k, e);
    UnderBegins(v, n, ks, acts, k, t, e, k1);
    var k2 := NextStep(v, k1);
    SecondTestIff(v, k1, WaitSleep, e, k2);
    QuietStep(v, k1, k2, e);
    UnderStep(v, n, ks + [k1], acts + [WaitTest(e)], k1, i, t, e, WaitSleep, k2);
    StillGoesOn(k1, k2, s);
    SetterHere(k2, s, e);
    SleepsNotRuns(k2, t, EventQ(e));
    NotIdle(k2, s);
    ks', acts', r := ks + [k1] + [k2], acts + [WaitTest(e)] + [WaitSleep], k2;
  }

  lemma CallerAtUser(k: Kernel, e: EventId)
    requires HasMe(k) && Enabled(k, WaitTest(e))
    ensures Me(k) != IDLE && MyPc(k) == User
  {
  }

  /** wait's first test, of an unset event. */
  lemma Tests(v: Version, k: Kernel, e: EventId) returns (r: Kernel)
    requires Inv(k) && HasMe(k) && Enabled(k, WaitTest(e)) && e !in k.active
    ensures Apply(v, k, WaitTest(e)) == Ok(r) && !HitsWakeOne(v, k, WaitTest(e)) && Inv(r)
    ensures r.sched == k.sched && HasMe(r) && Me(r) == Me(k) && MyPc(r) == WaitTested(e) && r.active == k.active
    ensures forall t :: t in k.info && t != Me(k) ==> t in r.info && r.info[t] == k.info[t]
  {
    hide Inv, Enabled, Apply, StepResult;
    StepKeepsIff(v, k, WaitTest(e));
    ModestPool(k, WaitTest(e));
    r := StepOk(v, k, WaitTest(e));
    WaitTestIff(v, k, e, r);
  }

  lemma UnderBegins(v: Version, n: nat, ks: seq<Kernel>, acts: seq<Action>, k: Kernel, t: Tid, e: EventId, r: Kernel)
    requires |ks| == |acts| + 1 && Run(v, n, ks, acts) && ks[|acts|] == k && HasMe(k) && Me(k) == t
    requires Enabled(k, WaitTest(e)) && !HitsWakeOne(v, k, WaitTest(e)) && Apply(v, k, WaitTest(e)) == Ok(r)
    requires e !in k.active && e !in r.active && t in r.info && r.info[t].pc != User
    ensures Under(v, n, ks + [r], acts + [WaitTest(e)], r, |acts|, t, e)
  {
    hide Start, Enabled, HitsWakeOne, Apply;
  }

  /** The run with states ks' and actions acts' begins with the run of ks and acts. */
  ghost predicate GoesOnTo(v: Version, n: nat, ks: seq<Kernel>, acts: seq<Action>, ks': seq<Kernel>, acts': seq<Action>) {
    ks <= ks' && acts <= acts' && Run(v, n, ks', acts')
  }

  /** Every call of wait(e) that goes on from the end of the run, however the run goes on, returns only
      after e has been seen set, at the call or since. */
  ghost predicate ReturnsOnlySet(v: Version, n: nat, ks: seq<Kernel>, acts: seq<Action>, t: Tid, e: EventId) {
    forall ks': seq<Kernel>, acts': seq<Action>, j: nat ::
      GoesOnTo(v, n, ks, acts, ks', acts') && Call(ks', acts', |acts|, j, t, WaitTest(e)) ==>
      exists x :: |acts| <= x <= j && e in ks'[x].active
  }

  /** From a state in which e is unset and somebody is setting it, the run can go on so that wait(e)
      returns with e unset all the time. */
  lemma ReturnsUnset(v: Version, n: nat, ks: seq<Kernel>, acts: seq<Action>, e: EventId)
      returns (ks': seq<Kernel>, acts': seq<Action>, j: nat)
    requires |ks| == |acts| + 1 && Run(v, n, ks, acts)
    requires var k := ks[|acts|]; HasMe(k) && Enabled(k, WaitTest(e)) && e !in k.active && Setting(k, e)
    ensures ks <= ks' && acts <= acts' && Run(v, n, ks', acts') && Call(ks', acts', |acts|, j, Me(ks[|acts|]), WaitTest(e))
    ensures forall x :: |acts| <= x <= j ==> e !in ks'[x].active
  {
    hide Run, Inv, Enabled, Apply, HitsWakeOne, BestRuns, AsleepOn, GoesOn, Setting, Under;
    var k, i := ks[|acts|], |acts|;
    var t := Me(k);
    var ks1, acts1, k1 := FallsAsleepUnset(v, n, ks, acts, k, e);
    var ks2, acts2, k2 := DriveToSetter(v, n, ks1, acts1, k1, i, t, e);
    var k3 := SetterWakes(v, n, ks2, acts2, k2, i, t, e);
    var ks4, acts4, k4 := DriveToWoken(v, n, ks2 + [k3], acts2 + [SetWake], k3, i, t, e);
    UnderInv(v, n, ks4, acts4, k4, i, t, e);
    var k5 := Returned(v, k4, e);
    ks', acts', j := ks4 + [k5], acts4 + [WaitReturn], |ks4|;
    UnderEnds(v, n, ks4, acts4, k4, i, t, e, k5);
  }

  lemma Returned(v: Version, k: Kernel, e: EventId) returns (r: Kernel)
    requires Inv(k) && HasMe(k) && Me(k) != IDLE && MyPc(k) == WaitAsleep(e) && e !in k.active
    ensures Enabled(k, WaitReturn) && !HitsWakeOne(v, k, WaitReturn) && Apply(v, k, WaitReturn) == Ok(r)
    ensures e !in r.active && Me(k) in r.info && r.info[Me(k)].pc == User
  {
    hide Inv, Enabled, Apply, HitsWakeOne, OthersWoken;
    r := NextStep(v, k);
    QuietStep(v, k, r, e);
    WokenReturns(v, k, WaitReturn, r);
  }

  lemma UnderEnds(v: Version, n: nat, ks: seq<Kernel>, acts: seq<Action>, k: Kernel, i: nat, t: Tid, e: EventId, r: Kernel)
    requires Under(v, n, ks, acts, k, i, t, e)
    requires Enabled(k, WaitReturn) && !HitsWakeOne(v, k, WaitReturn) && Apply(v, k, WaitReturn) == Ok(r)
    requires e !in r.active && t in r.info && r.info[t].pc == User
    ensures Run(v, n, ks + [r], acts + [WaitReturn]) && Call(ks + [r], acts + [WaitReturn], i, |ks|, t, WaitTest(e))
    ensures forall x :: i <= x <= |ks| ==> e !in (ks + [r])[x].active
  {
    hide Start, Enabled, HitsWakeOne, Apply;
  }

  /** Exactly when a call of wait(e) cannot return but with e set, at the call or since: when e is set,
      or nobody has stored _active and not yet woken the waiters. */
  lemma WaitReturnsSetIff(v: Version, n: nat, ks: seq<Kernel>, acts: seq<Action>, e: EventId)
    requires |ks| == |acts| + 1 && Run(v, n, ks, acts) && HasMe(ks[|acts|]) && Enabled(ks[|acts|], WaitTest(e))
    ensures ReturnsOnlySet(v, n, ks, acts, Me(ks[|acts|]), e) <==> e in ks[|acts|].active || !Setting(ks[|acts|], e)
  {
    hide Run, Setting, Enabled;
    var k, t := ks[|acts|], Me(ks[|acts|]);
    if e !in k.active && Setting(k, e) {
      var ks', acts', j := ReturnsUnset(v, n, ks, acts, e);
      assert !ReturnsOnlySet(v, n, ks, acts, t, e);
    } else {
      forall ks': seq<Kernel>, acts': seq<Action>, j: nat
        | GoesOnTo(v, n, ks, acts, ks', acts') && Call(ks', acts', |acts|, j, t, WaitTest(e))
        ensures exists x :: |acts| <= x <= j && e in ks'[x].active
      {
        assert ks'[|acts|] == k;
        RunLength(v, n, ks', acts');
        if e !in k.active { WaitReturnsSet(v, n, ks', acts', |acts|, j, t, e); }
      }
    }
  }

  lemma RunLength(v: Version, n: nat, ks: seq<Kernel>, acts: seq<Action>)
    requires Run(v, n, ks, acts)
    ensures |ks| == |acts| + 1
  {
  }
}
