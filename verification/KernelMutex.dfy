/** Mutual exclusion. It does not depend on the wait queue being sound, so it is proved for the code
    as it is written, including runs in which unlock's wakeOne goes wrong. */
module KernelMutex {
  import opened Common
  import opened Sched
  import opened Timers
  import opened Kernel
  import opened KernelInv
  import opened KernelSteps

  ghost predicate SerialsOk(info: map<Tid, Info>, serials: nat) {
    && (forall t :: t in info ==> info[t].serial < serials)
    && (forall t, u :: t in info && u in info && t != u ==> info[t].serial != info[u].serial)
  }

  ghost predicate Exclusion(k: Kernel) {
    SerialsOk(k.info, k.serials) && MutexOk(k.held, k.locked, k.serials)
  }

  /** r differs from k in no thread's name and in no mutex. */
  ghost predicate SameNames(k: Kernel, r: Kernel) {
    && r.serials == k.serials && r.held == k.held && r.locked == k.locked
    && forall t :: t in r.info ==> t in k.info && r.info[t].serial == k.info[t].serial
  }

  lemma SameNamesKeep(k: Kernel, r: Kernel)
    requires Exclusion(k) && SameNames(k, r)
    ensures Exclusion(r)
  {
    hide MutexOk;
  }

  lemma {:induction false} SetFiredNames(k: Kernel, fired: seq<Firing>)
    requires SetFired(k, fired).Ok?
    ensures SameNames(k, SetFired(k, fired).value)
    decreases |fired|
  {
    hide WakeAll;
    if fired != [] {
      SetFiredNames(SetEvent(k, Slot(fired[0].slot)).value, fired[1..]);
    }
  }

  lemma ExternalNames(k: Kernel, rx: bool, vsync: bool, card: bool, data: bool)
    requires ExternalHandler(k, rx, vsync, card, data).Ok?
    ensures SameNames(k, ExternalHandler(k, rx, vsync, card, data).value)
  {
    hide WakeAll;
  }

  lemma InterruptNames(v: Version, k: Kernel, a: Action)
    requires Enabled(k, a) && !ByThread(a) && Apply(v, k, a).Ok?
    ensures SameNames(k, Apply(v, k, a).value)
  {
    hide LoopEnds, ExternalHandler, Reschedule;
    match a {
      case TimerIrq(now) =>
        var (timers, fired) := AfterInterrupt(k.timers, now);
        SetFiredNames(k.(timers := timers), fired);
      case ExternalIrq(rx, vsync, card, data) => ExternalNames(k, rx, vsync, card, data);
      case _ =>
    }
  }

  /** The actions that give a name or change who holds a mutex. */
  predicate Naming(a: Action) {
    a.Create? || a.LockTake? || a.TryLock? || a.Unlock?
  }

  lemma QuietNames(v: Version, k: Kernel, a: Action)
    requires Enabled(k, a) && ByThread(a) && !Naming(a) && !Sleeps(a) && Apply(v, k, a).Ok?
    ensures SameNames(k, Apply(v, k, a).value)
  {
    hide LoopEnds, WakeAll, StopThread, Register, Usable, Freeable;
  }

  lemma SleepNames(v: Version, k: Kernel, a: Action)
    requires Enabled(k, a) && Sleeps(a) && Apply(v, k, a).Ok?
    ensures SameNames(k, Apply(v, k, a).value)
  {
    hide Block, NewTimer, Usable, Freeable, Deadline, SameNames;
    SameItself(k);
    match a {
      case SleepNs(now, ns, freq) => SleepNsNames(v, k, now, ns, freq);
      case WaitSleep => BlockNames(k, EventQ(MyPc(k).e), WaitAsleep(MyPc(k).e));
      case SignalWait(n) => BlockNames(k, SignalQ(n), SignalAsleep(n));
      case LockSleep => BlockNames(k, MutexQ(MyPc(k).m), Locking(MyPc(k).m));
      case DataTest => DataTestNames(v, k);
      case CardWait(checked) => CardWaitNames(v, k, checked);
    }
  }

  lemma DataTestNames(v: Version, k: Kernel)
    requires Enabled(k, DataTest) && Apply(v, k, DataTest).Ok?
    ensures SameNames(k, Apply(v, k, DataTest).value)
  {
    hide Block;
    BlockNames(k.(dataMasked := false), DataIdleQ, DataWait);
  }

  lemma CardWaitNames(v: Version, k: Kernel, checked: bool)
    requires Enabled(k, CardWait(checked)) && Apply(v, k, CardWait(checked)).Ok?
    ensures SameNames(k, Apply(v, k, CardWait(checked)).value)
  {
    hide Block;
    BlockNames(k.(cardMasked := false), CardQ, CardAsleep);
  }

  lemma SleepNsNames(v: Version, k: Kernel, now: Word, ns: Word, freq: nat)
    requires Enabled(k, SleepNs(now, ns, freq)) && Apply(v, k, SleepNs(now, ns, freq)).Ok?
    ensures SameNames(k, Apply(v, k, SleepNs(now, ns, freq)).value)
  {
    hide Block, NewTimer, Deadline;
    NewTimerNames(k, Deadline(now, ns, freq), 0, Sleeper(Me(k)));
    var (k1, slot) := NewTimer(k, Deadline(now, ns, freq), 0, Sleeper(Me(k))).value;
    BlockNames(k1, EventQ(Slot(slot)), SleepAsleep(slot, now, ns, freq));
  }

  lemma SameItself(k: Kernel)
    requires HasMe(k)
    ensures SameNames(k, k) && forall pc :: SameNames(k, At(k, pc))
  {
  }

  lemma NewTimerNames(k: Kernel, trigger: Word, repeat: Word, owner: Owner)
    requires NewTimer(k, trigger, repeat, owner).Ok?
    ensures SameNames(k, NewTimer(k, trigger, repeat, owner).value.0)
    ensures NewTimer(k, trigger, repeat, owner).value.0.sched.current == k.sched.current
    ensures NewTimer(k, trigger, repeat, owner).value.0.info == k.info
  {
    hide Register;
  }

  lemma BlockNames(k: Kernel, q: QueueId, pc: Pc)
    requires HasMe(k)
    ensures Block(k, q, pc).Ok? ==> SameNames(k, Block(k, q, pc).value)
  {
    hide SleepOn;
  }

  lemma CreateKeepsExclusion(v: Version, k: Kernel, a: Action)
    requires Exclusion(k) && Enabled(k, a) && a.Create? && Apply(v, k, a).Ok?
    ensures Exclusion(Apply(v, k, a).value)
  {
    hide LoopEnds, CreateThread, MutexOk;
    MoreSerials(k.held, k.locked, k.serials);
  }

  lemma LockKeepsExclusion(v: Version, k: Kernel, a: Action)
    requires Exclusion(k) && Enabled(k, a) && (a.LockTake? || a.TryLock?) && Apply(v, k, a).Ok?
    ensures Exclusion(Apply(v, k, a).value)
  {
    hide Exclusion, Apply, Enabled;
    if a.LockTake? {
      LockTakeKeepsExclusion(v, k);
    } else {
      TryLockKeepsExclusion(v, k, a.m);
    }
  }

  lemma LockTakeKeepsExclusion(v: Version, k: Kernel)
    requires Exclusion(k) && Enabled(k, LockTake) && Apply(v, k, LockTake).Ok?
    ensures Exclusion(Apply(v, k, LockTake).value)
  {
    hide MutexOk, SerialsOk;
    var m := MyPc(k).m;
    if m in k.locked {
      SameItself(k);
      SameNamesKeep(k, At(k, Locking(m)));
    } else {
      SerialBelow(k.info, k.serials, Me(k));
      TakeMutex(k.held, k.locked, k.serials, MySerial(k), m);
      SameItself(k);
      SameNamesKeep(k, At(k, User));
    }
  }

  lemma SerialBelow(info: map<Tid, Info>, serials: nat, t: Tid)
    requires SerialsOk(info, serials) && t in info
    ensures info[t].serial < serials
  {
  }

  lemma TryLockKeepsExclusion(v: Version, k: Kernel, m: nat)
    requires Exclusion(k) && Enabled(k, TryLock(m)) && Apply(v, k, TryLock(m)).Ok?
    ensures Exclusion(Apply(v, k, TryLock(m)).value)
  {
    hide MutexOk;
    if m !in k.locked {
      TakeMutex(k.held, k.locked, k.serials, MySerial(k), m);
    } else {
      assert k.locked + {m} == k.locked;
    }
  }

  lemma UnlockKeepsExclusion(v: Version, k: Kernel, a: Action)
    requires Exclusion(k) && Enabled(k, a) && a.Unlock? && Apply(v, k, a).Ok?
    ensures Exclusion(Apply(v, k, a).value)
  {
    hide LoopEnds, WakeOneAsWritten, WakeOneIntended, MutexOk;
    GiveMutex(k.held, k.locked, k.serials, MySerial(k), a.m);
  }

  lemma MoreSerials(held: set<(nat, nat)>, locked: set<nat>, serials: nat)
    requires MutexOk(held, locked, serials)
    ensures MutexOk(held, locked, serials + 1)
  {
  }

  lemma StepKeepsExclusion(v: Version, k: Kernel, a: Action)
    requires Exclusion(k) && Enabled(k, a) && Apply(v, k, a).Ok?
    ensures Exclusion(Apply(v, k, a).value)
  {
    hide Enabled, Apply, Exclusion, SameNames;
    if a.Create? {
      CreateKeepsExclusion(v, k, a);
    } else if a.LockTake? || a.TryLock? {
      LockKeepsExclusion(v, k, a);
    } else if a.Unlock? {
      UnlockKeepsExclusion(v, k, a);
    } else {
      if !ByThread(a) {
        InterruptNames(v, k, a);
      } else if Sleeps(a) {
        SleepNames(v, k, a);
      } else {
        QuietNames(v, k, a);
      }
      SameNamesKeep(k, Apply(v, k, a).value);
    }
  }

  /** A run in which wakeOneThread, as written, may have gone wrong any number of times. */
  ghost predicate AnyRun(v: Version, n: nat, ks: seq<Kernel>, acts: seq<Action>) {
    && |ks| == |acts| + 1
    && Start(n) == Ok(ks[0])
    && forall i :: 0 <= i < |acts| ==> Enabled(ks[i], acts[i]) && Apply(v, ks[i], acts[i]) == Ok(ks[i + 1])
  }

  lemma AnyRunStep(v: Version, n: nat, ks: seq<Kernel>, acts: seq<Action>, i: nat)
    requires AnyRun(v, n, ks, acts) && i < |acts|
    ensures Enabled(ks[i], acts[i]) && Apply(v, ks[i], acts[i]) == Ok(ks[i + 1])
  {
    hide Start, Enabled, Apply;
  }

  lemma StartExcludes(n: nat, k: Kernel)
    requires Start(n) == Ok(k)
    ensures Exclusion(k)
  {
    hide Boot;
  }

  lemma {:induction false} ExclusionAlong(v: Version, n: nat, ks: seq<Kernel>, acts: seq<Action>, i: nat)
    requires |ks| == |acts| + 1 && AnyRun(v, n, ks, acts) && i < |ks|
    ensures Exclusion(ks[i])
  {
    hide Enabled, Apply, Exclusion, Start;
    if i == 0 {
      StartExcludes(n, ks[0]);
    } else {
      hide AnyRun;
      ExclusionAlong(v, n, ks, acts, i - 1);
      AnyRunStep(v, n, ks, acts, i - 1);
      StepKeepsExclusion(v, ks[i - 1], acts[i - 1]);
    }
  }

  /** In every state of every run at most one thread holds a mutex, and _locked is true exactly when
      one does. */
  lemma MutualExclusion(v: Version, n: nat, ks: seq<Kernel>, acts: seq<Action>, i: nat, m: nat)
    requires AnyRun(v, n, ks, acts) && i < |ks|
    ensures m in ks[i].locked <==> exists x :: (x, m) in ks[i].held
    ensures forall x, y :: (x, m) in ks[i].held && (y, m) in ks[i].held ==> x == y
    ensures forall t, u :: t in ks[i].info && u in ks[i].info && t != u ==>
      !((ks[i].info[t].serial, m) in ks[i].held && (ks[i].info[u].serial, m) in ks[i].held)
  {
    ExclusionAlong(v, n, ks, acts, i);
    hide AnyRun;
  }
}
