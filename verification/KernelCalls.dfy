/** What a call of the kernel means to its caller, over runs: what is so when Mutex::lock, Event::wait,
    Event::set, waitDataIdle, Signal::wait or sleep_ns returns, whatever came in between. */
module KernelCalls {
  import opened Common
  import opened Pools
  import opened Sched
  import opened Timers
  import opened Kernel
  import opened KernelInv
  import opened KernelSteps
  import opened KernelRuns
  import opened KernelMutex
  import opened KernelLive
  import opened KernelSleep
  import opened KernelLock
  import opened KernelOrder
  import opened KernelEffects

  /** Thread t begins a call with the action a at i, and is back from it, for the first time, in state j. */
  ghost predicate Call(ks: seq<Kernel>, acts: seq<Action>, i: nat, j: nat, t: Tid, a: Action) {
    && i < j < |ks| && i < |acts| && acts[i] == a && HasMe(ks[i]) && Me(ks[i]) == t
    && t in ks[j].info && ks[j].info[t].pc == User
    && forall x :: i < x < j && t in ks[x].info ==> ks[x].info[t].pc != User
  }

  // ---------------------------------------------------------------- Mutex::lock

  predicate InLock(pc: Pc, m: nat) {
    pc == Locking(m) || pc == LockSawHeld(m) || pc == LockSawFree(m)
  }

  /** Thread t, named x, is inside lock(m), or has come out of it holding the mutex. */
  ghost predicate LockingOrHolding(k: Kernel, t: Tid, x: nat, m: nat) {
    && t in k.info && k.info[t].serial == x
    && (InLock(k.info[t].pc, m) || (k.info[t].pc == User && (x, m) in k.held))
  }

  lemma LockStepIs(v: Version, k: Kernel, a: Action, r: Kernel, m: nat)
    requires HasMe(k) && InLock(MyPc(k), m) && Enabled(k, a) && ByThread(a) && Apply(v, k, a) == Ok(r)
    requires Me(k) in r.info
    ensures LockingOrHolding(r, Me(k), MySerial(k), m)
  {
    hide Enabled, Apply, ThreadStep;
    LockNext(k, a, m);
    ThreadStepIs(v, k, a, r);
    match a {
      case LockTest => TestStays(v, k, r, m);
      case LockTake => LockTakes(v, k, r, m);
      case LockSleep => SleepStays(v, k, r, m);
    }
  }

  lemma TestStays(v: Version, k: Kernel, r: Kernel, m: nat)
    requires HasMe(k) && MyPc(k) == Locking(m) && ThreadStep(v, k, LockTest) == Ok(r)
    ensures LockingOrHolding(r, Me(k), MySerial(k), m)
  {
  }

  lemma SleepStays(v: Version, k: Kernel, r: Kernel, m: nat)
    requires HasMe(k) && MyPc(k) == LockSawHeld(m) && ThreadStep(v, k, LockSleep) == Ok(r)
    ensures LockingOrHolding(r, Me(k), MySerial(k), m)
  {
    hide SleepOn;
  }

  /** A thread in lock(m) stays in it until it holds the mutex. */
  lemma LockCallStep(v: Version, k: Kernel, a: Action, r: Kernel, t: Tid, x: nat, m: nat)
    requires LiveOk(k) && Enabled(k, a) && Apply(v, k, a) == Ok(r)
    requires LockingOrHolding(k, t, x, m) && k.info[t].pc != User
    ensures LockingOrHolding(r, t, x, m)
  {
    hide LiveOk, Enabled, Apply;
    LiveStep(v, k, a, r);
    ThreadHasMe(k, a);
    if ByThread(a) && Me(k) == t {
      OwnStepLives(v, k, a, r);
      LockStepIs(v, k, a, r, m);
    }
  }

  lemma OwnStepLives(v: Version, k: Kernel, a: Action, r: Kernel)
    requires LiveOk(k) && HasMe(k) && Enabled(k, a) && ByThread(a) && MyPc(k) != User && Apply(v, k, a) == Ok(r)
    ensures Me(k) in r.info
  {
    NotAtUser(k, a);
    hide LiveOk, Enabled, Apply;
    OtherAside(v, k, a);
  }

  lemma NotAtUser(k: Kernel, a: Action)
    requires HasMe(k) && Enabled(k, a) && ByThread(a) && MyPc(k) != User
    ensures !a.Create? && !a.Stop? && Me(k) != IDLE
  {
  }

  lemma EntersLock(v: Version, k: Kernel, m: nat, r: Kernel)
    requires HasMe(k) && Enabled(k, LockEnter(m)) && Apply(v, k, LockEnter(m)) == Ok(r)
    ensures LockingOrHolding(r, Me(k), MySerial(k), m) && r.info[Me(k)].pc == Locking(m)
  {
  }

  lemma {:induction false} LockingAlong(v: Version, n: nat, ks: seq<Kernel>, acts: seq<Action>, i: nat, x: nat, j: nat, t: Tid, m: nat)
    requires |ks| == |acts| + 1 && AnyRun(v, n, ks, acts) && Call(ks, acts, i, j, t, LockEnter(m)) && i < x <= j
    ensures t in ks[i].info && LockingOrHolding(ks[x], t, ks[i].info[t].serial, m)
    decreases x
  {
    hide AnyRun, Enabled, Apply, LiveOk, LockingOrHolding, HasMe;
    AnyRunStep(v, n, ks, acts, x - 1);
    CallBegins(ks, acts, i, j, t, LockEnter(m));
    if x == i + 1 {
      EntersLock(v, ks[i], m, ks[x]);
    } else {
      LockingAlong(v, n, ks, acts, i, x - 1, j, t, m);
      LiveAlong(v, n, ks, acts, x - 1);
      StillInside(ks[x - 1], t, ks[i].info[t].serial, m);
      LockCallStep(v, ks[x - 1], acts[x - 1], ks[x], t, ks[i].info[t].serial, m);
    }
  }

  lemma StillInside(k: Kernel, t: Tid, x: nat, m: nat)
    requires LockingOrHolding(k, t, x, m)
    ensures t in k.info
  {
  }

  lemma CallBegins(ks: seq<Kernel>, acts: seq<Action>, i: nat, j: nat, t: Tid, a: Action)
    requires Call(ks, acts, i, j, t, a)
    ensures i < j < |ks| && i < |acts| && acts[i] == a && HasMe(ks[i]) && Me(ks[i]) == t && t in ks[i].info
    ensures MySerial(ks[i]) == ks[i].info[t].serial
  {
  }

  /** In every run of either version: when lock(m) returns, its caller holds m. */
  lemma LockReturnsHolding(v: Version, n: nat, ks: seq<Kernel>, acts: seq<Action>, i: nat, j: nat, t: Tid, m: nat)
    requires |ks| == |acts| + 1 && AnyRun(v, n, ks, acts) && Call(ks, acts, i, j, t, LockEnter(m))
    ensures t in ks[i].info && ks[j].info[t].serial == ks[i].info[t].serial
    ensures (ks[i].info[t].serial, m) in ks[j].held
  {
    hide AnyRun;
    LockingAlong(v, n, ks, acts, i, j, j, t, m);
  }

  /** The thread named x does not unlock m from i on and before j. */
  ghost predicate Keeps(ks: seq<Kernel>, acts: seq<Action>, i: nat, j: nat, x: nat, m: nat) {
    j <= |acts| && j <= |ks| && forall y :: i <= y < j ==> !Releases(ks[y], acts[y], x, m)
  }

  lemma {:induction false} HoldsAlong(v: Version, n: nat, ks: seq<Kernel>, acts: seq<Action>, i: nat, j: nat, x: nat, m: nat)
    requires |ks| == |acts| + 1 && AnyRun(v, n, ks, acts) && i <= j < |ks| && (x, m) in ks[i].held && Keeps(ks, acts, i, j, x, m)
    ensures (x, m) in ks[j].held
    decreases j
  {
    hide AnyRun, Enabled, Apply, Acquires, Releases;
    if i < j {
      HoldsAlong(v, n, ks, acts, i, j - 1, x, m);
      AnyRunStep(v, n, ks, acts, j - 1);
      HeldExactly(v, ks[j - 1], acts[j - 1], ks[j], x, m);
    }
  }

  /** Two threads that have returned from lock(m), and have not unlocked it, are one thread. */
  lemma NoTwoInside(v: Version, n: nat, ks: seq<Kernel>, acts: seq<Action>,
                    i: nat, j: nat, i': nat, j': nat, l: nat, t: Tid, t': Tid, m: nat)
    requires |ks| == |acts| + 1 && AnyRun(v, n, ks, acts) && j <= l < |ks| && j' <= l
    requires Call(ks, acts, i, j, t, LockEnter(m)) && Call(ks, acts, i', j', t', LockEnter(m))
    requires t in ks[i].info && Keeps(ks, acts, j, l, ks[i].info[t].serial, m)
    requires t' in ks[i'].info && Keeps(ks, acts, j', l, ks[i'].info[t'].serial, m)
    ensures ks[i].info[t].serial == ks[i'].info[t'].serial
  {
    LockReturnsHolding(v, n, ks, acts, i, j, t, m);
    LockReturnsHolding(v, n, ks, acts, i', j', t', m);
    hide Call, Keeps;
    HoldsAlong(v, n, ks, acts, j, l, ks[i].info[t].serial, m);
    HoldsAlong(v, n, ks, acts, j', l, ks[i'].info[t'].serial, m);
    MutualExclusion(v, n, ks, acts, l, m);
    hide AnyRun;
  }

  /** try_lock gives its caller the mutex exactly if it was free. */
  lemma TryLockTakesIff(v: Version, k: Kernel, m: nat, r: Kernel)
    requires HasMe(k) && Enabled(k, TryLock(m)) && Apply(v, k, TryLock(m)) == Ok(r) && (MySerial(k), m) !in k.held
    ensures m in r.locked && ((MySerial(k), m) in r.held <==> m !in k.locked)
  {
    HeldExactly(v, k, TryLock(m), r, MySerial(k), m);
    LockedStep(v, k, TryLock(m), m);
    hide Enabled, Apply;
  }

  /** From the top of lock's loop the caller goes on as the mutex is found: to the second test, which
      takes the mutex and returns exactly if it is still free, or to sleep on the mutex's queue. */
  lemma LockGoesOn(v: Version, k: Kernel, a: Action, r: Kernel, m: nat)
    requires Inv(k) && HasMe(k) && InLock(MyPc(k), m) && Enabled(k, a) && ByThread(a) && Apply(v, k, a) == Ok(r)
    ensures Me(k) in r.info
    ensures MyPc(k) == Locking(m) ==> (m in k.locked <==> r.info[Me(k)].pc == LockSawHeld(m)) && !Asleep(r, Me(k))
    ensures MyPc(k) == Locking(m) ==> (m !in k.locked <==> r.info[Me(k)].pc == LockSawFree(m))
    ensures MyPc(k) == LockSawFree(m) ==> r.info[Me(k)].pc == (if m !in k.locked then User else Locking(m)) && !Asleep(r, Me(k))
    ensures MyPc(k) == LockSawHeld(m) ==> r.info[Me(k)].pc == Locking(m) && AsleepOn(r, Me(k), MutexQ(m))
  {
    InvLive(k);
    OwnStepLives(v, k, a, r);
    ThreadsKnown(k);
    MeKnown(k);
    LockOwnStep(v, k, a, r, m);
    hide Inv, LiveOk, Enabled, Apply;
  }

  /** Thread t is Sleeping on the queue. */
  predicate AsleepOn(k: Kernel, t: Tid, q: QueueId) {
    t in k.sched.threads && k.sched.threads[t].state == Sleeping && k.sched.threads[t].hook == Some(WaitList(q))
  }

  lemma InvLive(k: Kernel)
    requires Inv(k)
    ensures LiveOk(k)
  {
    KeysOf(k);
    SchedKnown(k);
    hide Inv, Running, Linked, AllHomed, IdleOk, PoolOk;
  }

  lemma LockOwnStep(v: Version, k: Kernel, a: Action, r: Kernel, m: nat)
    requires ThreadsOk(k.sched) && HasMe(k) && InLock(MyPc(k), m) && Enabled(k, a) && ByThread(a) && Apply(v, k, a) == Ok(r)
    requires Me(k) in r.info
    ensures MyPc(k) == Locking(m) ==>
      r.sched == k.sched && r.info[Me(k)].pc == if m in k.locked then LockSawHeld(m) else LockSawFree(m)
    ensures MyPc(k) == LockSawFree(m) ==> r.sched == k.sched && r.info[Me(k)].pc == if m !in k.locked then User else Locking(m)
    ensures MyPc(k) == LockSawHeld(m) ==> r.info[Me(k)].pc == Locking(m) && AsleepOn(r, Me(k), MutexQ(m))
  {
    hide ThreadsOk, Enabled, Apply, ThreadStep;
    NotAtUser(k, a);
    LockNext(k, a, m);
    ThreadStepIs(v, k, a, r);
    match a {
      case LockTest => LockTests(v, k, r, m);
      case LockTake => LockTakes(v, k, r, m);
      case LockSleep => LockSleeps(v, k, r, m);
    }
  }

  lemma LockNext(k: Kernel, a: Action, m: nat)
    requires HasMe(k) && InLock(MyPc(k), m) && Enabled(k, a) && ByThread(a)
    ensures a == if MyPc(k).Locking? then LockTest else if MyPc(k).LockSawFree? then LockTake else LockSleep
  {
    hide Usable, Freeable;
  }

  lemma LockSleeps(v: Version, k: Kernel, r: Kernel, m: nat)
    requires ThreadsOk(k.sched) && HasMe(k) && Me(k) != IDLE && MyPc(k) == LockSawHeld(m) && ThreadStep(v, k, LockSleep) == Ok(r)
    ensures Me(k) in r.info && r.info[Me(k)].pc == Locking(m) && AsleepOn(r, Me(k), MutexQ(m))
  {
    hide ThreadsOk, Block;
    BlockedIs(k, MutexQ(m), Locking(m), r);
  }

  lemma LockTests(v: Version, k: Kernel, r: Kernel, m: nat)
    requires HasMe(k) && MyPc(k) == Locking(m) && ThreadStep(v, k, LockTest) == Ok(r) && Me(k) in r.info
    ensures r.sched == k.sched && r.info[Me(k)].pc == if m in k.locked then LockSawHeld(m) else LockSawFree(m)
  {
  }

  lemma LockTakes(v: Version, k: Kernel, r: Kernel, m: nat)
    requires HasMe(k) && MyPc(k) == LockSawFree(m) && ThreadStep(v, k, LockTake) == Ok(r)
    ensures Me(k) in r.info && r.sched == k.sched && r.info[Me(k)].pc == if m !in k.locked then User else Locking(m)
    ensures LockingOrHolding(r, Me(k), MySerial(k), m)
  {
    if m in k.locked {
      GoesRound(v, k, r, m);
    } else {
      TakesIt(v, k, r, m);
    }
    hide ThreadStep;
  }

  lemma GoesRound(v: Version, k: Kernel, r: Kernel, m: nat)
    requires HasMe(k) && MyPc(k) == LockSawFree(m) && m in k.locked && ThreadStep(v, k, LockTake) == Ok(r)
    ensures r.sched == k.sched && r.info == k.info[Me(k) := Info(Locking(m), MySerial(k))]
  {
  }

  lemma TakesIt(v: Version, k: Kernel, r: Kernel, m: nat)
    requires HasMe(k) && MyPc(k) == LockSawFree(m) && m !in k.locked && ThreadStep(v, k, LockTake) == Ok(r)
    ensures r.sched == k.sched && r.info == k.info[Me(k) := Info(User, MySerial(k))] && (MySerial(k), m) in r.held
  {
  }

  // ---------------------------------------------------------------- Event::wait and Event::set

  /** wait tests the event: it returns at once if it is set, and goes on to the second test if not. */
  lemma WaitTestIff(v: Version, k: Kernel, e: EventId, r: Kernel)
    requires HasMe(k) && Enabled(k, WaitTest(e)) && Apply(v, k, WaitTest(e)) == Ok(r)
    ensures Me(k) in r.info && r.info[Me(k)].pc == if e in k.active then User else WaitTested(e)
    ensures r.active == k.active && r.sched == k.sched
    ensures forall t :: t in k.info && t != Me(k) ==> t in r.info && r.info[t] == k.info[t]
  {
  }

  /** The second test, with interrupts off: a thread that has seen the event unset falls asleep on it
      exactly if it is unset still, and returns exactly if it is set by now. */
  lemma SecondTestIff(v: Version, k: Kernel, a: Action, e: EventId, r: Kernel)
    requires Inv(k) && HasMe(k) && MyPc(k) == WaitTested(e) && Enabled(k, a) && ByThread(a) && Apply(v, k, a) == Ok(r)
    ensures Me(k) in r.info && a == WaitSleep
    ensures e !in k.active <==> AsleepOn(r, Me(k), EventQ(e))
    ensures r.info[Me(k)].pc == if e in k.active then User else WaitAsleep(e)
  {
    hide Inv, ThreadsOk, Enabled, Apply, ThreadStep;
    ThreadsKnown(k);
    MeKnown(k);
    NotAtUser(k, a);
    WaitSleepNext(k, a, e);
    ThreadStepIs(v, k, a, r);
    SecondTest(v, k, e, r);
  }

  lemma WaitSleepNext(k: Kernel, a: Action, e: EventId)
    requires HasMe(k) && MyPc(k) == WaitTested(e) && Enabled(k, a) && ByThread(a)
    ensures a == WaitSleep
  {
    hide Usable, Freeable;
  }

  lemma SecondTest(v: Version, k: Kernel, e: EventId, r: Kernel)
    requires ThreadsOk(k.sched) && HasMe(k) && Me(k) != IDLE && Me(k) in k.sched.threads && !Asleep(k, Me(k))
    requires MyPc(k) == WaitTested(e) && ThreadStep(v, k, WaitSleep) == Ok(r)
    ensures Me(k) in r.info && r.info[Me(k)].pc == if e in k.active then User else WaitAsleep(e)
    ensures e !in k.active <==> AsleepOn(r, Me(k), EventQ(e))
  {
    hide ThreadsOk, Block;
    if e !in k.active {
      BlockedIs(k, EventQ(e), WaitAsleep(e), r);
    }
  }

  /** Thread t is inside wait(e) and must not leave it yet. */
  predicate Waiting(k: Kernel, t: Tid, e: EventId) {
    t in k.info && (k.info[t].pc == WaitTested(e) || (k.info[t].pc == WaitAsleep(e) && AsleepOn(k, t, EventQ(e))))
  }

  lemma NotSetting(k: Kernel, a: Action, e: EventId)
    requires !Setting(k, e)
    ensures HasMe(k) && MyPc(k).SetStored? ==> MyPc(k).e != e
  {
  }

  /** An event that is unset before and after the action, and that nobody is setting, wakes nobody. */
  lemma StillWaiting(v: Version, k: Kernel, a: Action, r: Kernel, t: Tid, e: EventId)
    requires Inv(k) && Enabled(k, a) && !HitsWakeOne(v, k, a) && Apply(v, k, a) == Ok(r)
    requires AsleepOn(k, t, EventQ(e)) && !Setting(k, e) && e !in r.active
    ensures AsleepOn(r, t, EventQ(e))
  {
    hide Inv, Enabled, HitsWakeOne, Apply, Setting, OthersWoken, ActiveAsSaid, Due;
    MeKnown(k);
    AsleepIntro(k, t);
    NotSetting(k, a, e);
    WokenExactly(v, k, a, r);
    ActiveExactly(v, k, a, r);
    EventIsUnset(k, a, r, t, e);
  }

  lemma EventIsUnset(k: Kernel, a: Action, r: Kernel, t: Tid, e: EventId)
    requires HasMe(k) && t != Me(k) && OthersWoken(k, a, r) && ActiveAsSaid(k, a, r)
    requires AsleepOn(k, t, EventQ(e)) && e !in r.active && (MyPc(k).SetStored? ==> MyPc(k).e != e)
    ensures AsleepOn(r, t, EventQ(e))
  {
    hide Due;
    assert !Sets(k, a, e);
    assert !Wakes(k, a, t);
  }

  lemma WaitingStep(v: Version, k: Kernel, a: Action, r: Kernel, t: Tid, e: EventId)
    requires Inv(k) && Enabled(k, a) && !HitsWakeOne(v, k, a) && Apply(v, k, a) == Ok(r)
    requires Waiting(k, t, e) && !Setting(k, e) && e !in k.active && e !in r.active
    ensures Waiting(r, t, e)
  {
    hide Inv, Enabled, HitsWakeOne, Apply, Setting, LiveOk, AsleepOn;
    InvLive(k);
    LiveStep(v, k, a, r);
    MeKnown(k);
    if k.info[t].pc == WaitAsleep(e) {
      StillWaiting(v, k, a, r, t, e);
      SleepsNotRuns(k, t, EventQ(e));
    } else if ByThread(a) && Me(k) == t {
      SecondTestIff(v, k, a, e, r);
    }
  }

  lemma SleepsNotRuns(k: Kernel, t: Tid, q: QueueId)
    requires Inv(k) && AsleepOn(k, t, q)
    ensures HasMe(k) && Me(k) != t
  {
    MeKnown(k);
    hide Inv;
  }

  /** Nobody comes to be setting the event without its being set. */
  lemma SettingStep(v: Version, k: Kernel, a: Action, r: Kernel, e: EventId)
    requires Inv(k) && Enabled(k, a) && Apply(v, k, a) == Ok(r) && !Setting(k, e) && e !in r.active
    ensures !Setting(r, e)
  {
    hide Inv, Enabled, Apply, LiveOk, Unsets;
    InvLive(k);
    ActiveExactly(v, k, a, r);
    forall t | t in r.info ensures r.info[t].pc != SetStored(e) {
      if r.info[t].pc == SetStored(e) {
        StoredBy(v, k, a, r, t, e);
      }
    }
  }

  lemma StoredBy(v: Version, k: Kernel, a: Action, r: Kernel, t: Tid, e: EventId)
    requires LiveOk(k) && Enabled(k, a) && Apply(v, k, a) == Ok(r) && t in r.info && r.info[t].pc == SetStored(e)
    ensures a == SetStore(e) || (t in k.info && k.info[t].pc == SetStored(e))
  {
    hide LiveOk, Enabled, Apply, ThreadStep;
    if t in k.info && (ByThread(a) ==> HasMe(k) && t != Me(k)) {
      LiveStep(v, k, a, r);
    } else if ByThread(a) {
      ThreadStepIs(v, k, a, r);
      if a.Create? {
        CreateLive(v, k, a.high, a.sd);
      } else {
        StoredByMe(v, k, a, r, t, e);
      }
    } else {
      InterruptAlike(v, k, a);
    }
  }

  lemma StoredByMe(v: Version, k: Kernel, a: Action, r: Kernel, t: Tid, e: EventId)
    requires HasMe(k) && Enabled(k, a) && ByThread(a) && !a.Create? && Apply(v, k, a) == Ok(r)
    requires t in r.info && r.info[t].pc == SetStored(e) && (t in k.info ==> t == Me(k))
    ensures a == SetStore(e)
  {
    hide Enabled, Apply;
    if a.Stop? {
      StopInfo(v, k, r);
    } else {
      OtherAside(v, k, a);
      StoredPc(v, k, a, r, e);
    }
  }

  lemma StopInfo(v: Version, k: Kernel, r: Kernel)
    requires HasMe(k) && Enabled(k, Stop) && Apply(v, k, Stop) == Ok(r)
    ensures r.info == k.info - {Me(k)}
  {
    hide StopThread;
  }

  lemma StoredPc(v: Version, k: Kernel, a: Action, r: Kernel, e: EventId)
    requires HasMe(k) && Enabled(k, a) && ByThread(a) && !a.Create? && !a.Stop? && Apply(v, k, a) == Ok(r)
    requires Me(k) in r.info && r.info[Me(k)].pc == SetStored(e)
    ensures a == SetStore(e)
  {
    hide Enabled, Apply, ThreadStep;
    ThreadStepIs(v, k, a, r);
    if MyPc(k).SetStored? {
      SetWakeNext(k, a);
    }
    if Sleeps(a) {
      SleepPc(v, k, a, r);
    } else {
      CallPc(v, k, a, r);
    }
  }

  lemma SetWakeNext(k: Kernel, a: Action)
    requires HasMe(k) && MyPc(k).SetStored? && Enabled(k, a) && ByThread(a)
    ensures a == SetWake
  {
    hide Usable, Freeable;
  }

  lemma SleepPc(v: Version, k: Kernel, a: Action, r: Kernel)
    requires HasMe(k) && Sleeps(a) && ThreadStep(v, k, a) == Ok(r) && !MyPc(k).SetStored? && Me(k) in r.info
    ensures !r.info[Me(k)].pc.SetStored?
  {
    hide ThreadStep;
    if a.SleepNs? {
      SleepNsPc(v, k, a.now, a.ns, a.freq, r);
    } else if a.DataTest? || a.CardWait? {
      DevicePc(v, k, a, r);
    } else {
      BlockingPc(v, k, a, r);
    }
  }

  lemma DevicePc(v: Version, k: Kernel, a: Action, r: Kernel)
    requires HasMe(k) && (a.DataTest? || a.CardWait?) && ThreadStep(v, k, a) == Ok(r) && !MyPc(k).SetStored? && Me(k) in r.info
    ensures !r.info[Me(k)].pc.SetStored?
  {
    hide Block;
    BlockPc(k.(dataMasked := false), DataIdleQ, DataWait);
    BlockPc(k.(cardMasked := false), CardQ, CardAsleep);
  }

  lemma BlockingPc(v: Version, k: Kernel, a: Action, r: Kernel)
    requires HasMe(k) && (a.WaitSleep? || a.SignalWait? || a.LockSleep?) && ThreadStep(v, k, a) == Ok(r)
    requires !MyPc(k).SetStored? && Me(k) in r.info
    ensures !r.info[Me(k)].pc.SetStored?
  {
    hide Block;
    match a {
      case WaitSleep => if MyPc(k).WaitTested? { BlockPc(k, EventQ(MyPc(k).e), WaitAsleep(MyPc(k).e)); }
      case SignalWait(n) => BlockPc(k, SignalQ(n), SignalAsleep(n));
      case LockSleep => if MyPc(k).LockSawHeld? { BlockPc(k, MutexQ(MyPc(k).m), Locking(MyPc(k).m)); }
    }
  }

  lemma BlockPc(k: Kernel, q: QueueId, pc: Pc)
    requires HasMe(k)
    ensures Block(k, q, pc).Ok? ==> var r := Block(k, q, pc).value; Me(k) in r.info && r.info[Me(k)].pc == pc
  {
    hide SleepOn;
  }

  lemma SleepNsPc(v: Version, k: Kernel, now: Word, ns: Word, freq: nat, r: Kernel)
    requires HasMe(k) && ThreadStep(v, k, SleepNs(now, ns, freq)) == Ok(r)
    ensures Me(k) in r.info && r.info[Me(k)].pc.SleepAsleep?
  {
    hide Block, NewTimer, Deadline;
    NewTimerAlike(k, Deadline(now, ns, freq), 0, Sleeper(Me(k)));
    var (u, slot) := NewTimer(k, Deadline(now, ns, freq), 0, Sleeper(Me(k))).value;
    BlockPc(u, EventQ(Slot(slot)), SleepAsleep(slot, now, ns, freq));
  }

  lemma CallPc(v: Version, k: Kernel, a: Action, r: Kernel)
    requires HasMe(k) && ByThread(a) && !Sleeps(a) && !a.Create? && !a.Stop? && ThreadStep(v, k, a) == Ok(r)
    requires Me(k) in r.info && (MyPc(k).SetStored? ==> a == SetWake)
    ensures r.info[Me(k)].pc.SetStored? ==> a == SetStore(r.info[Me(k)].pc.e)
  {
    hide ThreadStep;
    if a.SetWake? || a.SignalAll? || a.Unlock? || a.RegisterTimer? {
      WakePc(v, k, a, r);
    } else {
      PlainPc(v, k, a, r);
    }
  }

  lemma WakePc(v: Version, k: Kernel, a: Action, r: Kernel)
    requires HasMe(k) && (a.SetWake? || a.SignalAll? || a.Unlock? || a.RegisterTimer?) && ThreadStep(v, k, a) == Ok(r)
    requires Me(k) in r.info && (MyPc(k).SetStored? ==> a == SetWake)
    ensures !r.info[Me(k)].pc.SetStored?
  {
    hide WakeAll, WakeOneAsWritten, WakeOneIntended, Register;
  }

  lemma PlainPc(v: Version, k: Kernel, a: Action, r: Kernel)
    requires HasMe(k) && Plain(a) && ThreadStep(v, k, a) == Ok(r) && Me(k) in r.info && !MyPc(k).SetStored?
    ensures r.info[Me(k)].pc.SetStored? ==> a == SetStore(r.info[Me(k)].pc.e)
  {
    hide ThreadStep;
    if a.LockEnter? || a.LockTest? || a.LockTake? || a.TryLock? {
      LockPc(v, k, a, r);
    } else {
      OtherPc(v, k, a, r);
    }
  }

  lemma LockPc(v: Version, k: Kernel, a: Action, r: Kernel)
    requires HasMe(k) && (a.LockEnter? || a.LockTest? || a.LockTake? || a.TryLock?) && ThreadStep(v, k, a) == Ok(r)
    requires Me(k) in r.info && !MyPc(k).SetStored?
    ensures !r.info[Me(k)].pc.SetStored?
  {
  }

  lemma OtherPc(v: Version, k: Kernel, a: Action, r: Kernel)
    requires HasMe(k) && Plain(a) && !a.LockEnter? && !a.LockTest? && !a.LockTake? && !a.TryLock? && ThreadStep(v, k, a) == Ok(r)
    requires Me(k) in r.info && !MyPc(k).SetStored?
    ensures r.info[Me(k)].pc.SetStored? ==> a == SetStore(r.info[Me(k)].pc.e)
  {
  }

  /** e is unset, and nobody is setting it, in every state from i up to j. */
  ghost predicate UnsetThroughout(ks: seq<Kernel>, i: nat, j: nat, e: EventId) {
    j < |ks| && forall x :: i <= x <= j ==> e !in ks[x].active
  }

  lemma {:induction false} WaitingAlong(v: Version, n: nat, ks: seq<Kernel>, acts: seq<Action>, i: nat, x: nat, t: Tid, e: EventId)
    requires |ks| == |acts| + 1 && Run(v, n, ks, acts) && i < x < |ks|
    requires acts[i] == WaitTest(e) && HasMe(ks[i]) && Me(ks[i]) == t
    requires !Setting(ks[i], e) && UnsetThroughout(ks, i, x, e)
    ensures Waiting(ks[x], t, e) && !Setting(ks[x], e)
    decreases x
  {
    hide Run, Inv, Enabled, Apply, HitsWakeOne, Waiting, Setting, HasMe;
    RunStep(v, n, ks, acts, x - 1);
    assert e !in ks[x - 1].active && e !in ks[x].active;
    if x == i + 1 {
      SettingStep(v, ks[i], acts[i], ks[x], e);
      WaitBegins(v, ks[i], e, ks[x]);
    } else {
      WaitingAlong(v, n, ks, acts, i, x - 1, t, e);
      SettingStep(v, ks[x - 1], acts[x - 1], ks[x], e);
      WaitingStep(v, ks[x - 1], acts[x - 1], ks[x], t, e);
    }
  }

  lemma WaitBegins(v: Version, k: Kernel, e: EventId, r: Kernel)
    requires HasMe(k) && Enabled(k, WaitTest(e)) && Apply(v, k, WaitTest(e)) == Ok(r) && e !in k.active
    ensures Waiting(r, Me(k), e)
  {
    hide Enabled, Apply;
    WaitTestIff(v, k, e, r);
  }

  /** wait(e) returns only after e has been seen set, at the call or since -- unless, when it was called,
      somebody had stored _active and not yet woken the waiters, and the event was cleared in between. */
  lemma WaitReturnsSet(v: Version, n: nat, ks: seq<Kernel>, acts: seq<Action>, i: nat, j: nat, t: Tid, e: EventId)
    requires |ks| == |acts| + 1 && Run(v, n, ks, acts) && Call(ks, acts, i, j, t, WaitTest(e)) && !Setting(ks[i], e)
    ensures exists x :: i <= x <= j && e in ks[x].active
  {
    hide Run, Setting;
    if forall x :: i <= x <= j ==> e !in ks[x].active {
      WaitingAlong(v, n, ks, acts, i, j, t, e);
    }
  }

  /** Whoever has been woken, or has come out of its wait, goes on to return with its next own step. */
  lemma WokenReturns(v: Version, k: Kernel, a: Action, r: Kernel)
    requires Inv(k) && HasMe(k) && (MyPc(k).WaitAsleep? || MyPc(k).SignalAsleep? || MyPc(k).CardAsleep?)
    requires Enabled(k, a) && ByThread(a) && Apply(v, k, a) == Ok(r)
    ensures Me(k) in r.info && r.info[Me(k)] == k.info[Me(k)].(pc := User) && r.sched == k.sched
  {
    hide Inv, Usable, Freeable;
  }

  /** set(e): the caller stores _active, and then makes every thread that sleeps on e Ready, as it does no
      thread that does not. */
  lemma SetWakesWaiters(v: Version, k: Kernel, a: Action, r: Kernel, e: EventId, t: Tid)
    requires Inv(k) && HasMe(k) && MyPc(k) == SetStored(e) && Enabled(k, a) && ByThread(a) && Apply(v, k, a) == Ok(r)
    requires t in k.sched.threads && t != Me(k)
    ensures Me(k) in r.info && r.info[Me(k)].pc == User
    ensures t in r.sched.threads
    ensures !AsleepOn(r, t, EventQ(e))
    ensures AsleepOn(k, t, EventQ(e)) ==> r.sched.threads[t] == MadeReady(k.sched.threads[t])
    ensures !AsleepOn(k, t, EventQ(e)) ==> r.sched.threads[t] == k.sched.threads[t]
  {
    hide Inv, Enabled, Apply, OthersWoken, HitsWakeOne;
    SetWakeNext(k, a);
    NotUnlock(v, k, a);
    WokenExactly(v, k, a, r);
    HomedThread(k, t);
    SetWakeLeavesMe(v, k, r);
    WakesOn(k, t, e);
    hide Wakes;
    OneOf(k, a, r, t);
  }

  lemma OneOf(k: Kernel, a: Action, r: Kernel, t: Tid)
    requires OthersWoken(k, a, r) && t in k.sched.threads && HasMe(k) && t != Me(k)
    ensures t in r.sched.threads
    ensures r.sched.threads[t] == if Wakes(k, a, t) then MadeReady(k.sched.threads[t]) else k.sched.threads[t]
  {
    hide Wakes;
  }

  lemma HomedThread(k: Kernel, t: Tid)
    requires Inv(k) && t in k.sched.threads
    ensures Homed(k.sched.threads[t])
  {
    SchedKnown(k);
    hide Inv, Running, Linked, IdleOk, PoolOk;
  }

  lemma WakesOn(k: Kernel, t: Tid, e: EventId)
    requires HasMe(k) && MyPc(k) == SetStored(e) && t in k.sched.threads && Homed(k.sched.threads[t])
    ensures Wakes(k, SetWake, t) <==> AsleepOn(k, t, EventQ(e))
  {
  }

  lemma SetWakeLeavesMe(v: Version, k: Kernel, r: Kernel)
    requires HasMe(k) && MyPc(k).SetStored? && Enabled(k, SetWake) && Apply(v, k, SetWake) == Ok(r)
    ensures Me(k) in r.info && r.info[Me(k)].pc == User
  {
    hide WakeAll;
  }

  // ---------------------------------------------------------------- the SD card's waits

  /** waitDataIdle's test returns exactly if the line says idle; if not, the caller is asleep for the
      data-idle interrupt, with that interrupt unmasked. */
  lemma DataTestIff(v: Version, k: Kernel, a: Action, r: Kernel)
    requires Inv(k) && HasMe(k) && MyPc(k) == DataWait && Enabled(k, a) && ByThread(a) && Apply(v, k, a) == Ok(r)
    ensures Me(k) in r.info && (k.dataLine <==> r.info[Me(k)].pc == User)
    ensures k.dataLine ==> r.sched == k.sched && r.dataMasked == k.dataMasked
    ensures !k.dataLine ==> AsleepOn(r, Me(k), DataIdleQ) && !r.dataMasked && r.info[Me(k)].pc == DataWait
  {
    hide Inv, Enabled, Apply, ThreadStep;
    ThreadsKnown(k);
    NotAtUser(k, a);
    DataTestNext(k, a);
    ThreadStepIs(v, k, a, r);
    DataTested(v, k, r);
  }

  lemma DataTestNext(k: Kernel, a: Action)
    requires HasMe(k) && MyPc(k) == DataWait && Enabled(k, a) && ByThread(a)
    ensures a == DataTest
  {
    hide Usable, Freeable;
  }

  lemma DataTested(v: Version, k: Kernel, r: Kernel)
    requires ThreadsOk(k.sched) && HasMe(k) && Me(k) != IDLE && MyPc(k) == DataWait && ThreadStep(v, k, DataTest) == Ok(r)
    ensures Me(k) in r.info && (k.dataLine <==> r.info[Me(k)].pc == User)
    ensures k.dataLine ==> r.sched == k.sched && r.dataMasked == k.dataMasked
    ensures !k.dataLine ==> AsleepOn(r, Me(k), DataIdleQ) && !r.dataMasked && r.info[Me(k)].pc == DataWait
  {
    hide ThreadsOk, Block;
    if !k.dataLine {
      BlockedIs(k.(dataMasked := false), DataIdleQ, DataWait, r);
    }
  }

  lemma EntersData(v: Version, k: Kernel, r: Kernel)
    requires HasMe(k) && Enabled(k, DataEnter) && Apply(v, k, DataEnter) == Ok(r)
    ensures Me(k) in r.info && r.info[Me(k)].pc == DataWait
  {
  }

  /** A thread in waitDataIdle is still in it after any step, unless that is its test and the line says
      idle. */
  lemma DataStep(v: Version, k: Kernel, a: Action, r: Kernel, t: Tid)
    requires Inv(k) && Enabled(k, a) && Apply(v, k, a) == Ok(r) && t in k.info && k.info[t].pc == DataWait
    ensures t in r.info && (r.info[t].pc == DataWait || (r.info[t].pc == User && a == DataTest && k.dataLine))
  {
    hide Inv, Enabled, Apply, LiveOk;
    InvLive(k);
    LiveStep(v, k, a, r);
    MeKnown(k);
    if ByThread(a) && Me(k) == t {
      DataTestNext(k, a);
      DataTestIff(v, k, a, r);
    }
  }

  lemma {:induction false} InData(v: Version, n: nat, ks: seq<Kernel>, acts: seq<Action>, i: nat, x: nat, j: nat, t: Tid)
    requires |ks| == |acts| + 1 && Run(v, n, ks, acts) && Call(ks, acts, i, j, t, DataEnter) && i < x < j
    ensures t in ks[x].info && ks[x].info[t].pc == DataWait
    decreases x
  {
    hide Run, Inv, Enabled, Apply, HitsWakeOne, HasMe;
    RunStep(v, n, ks, acts, x - 1);
    if x == i + 1 {
      EntersData(v, ks[i], ks[x]);
    } else {
      InData(v, n, ks, acts, i, x - 1, j, t);
      DataStep(v, ks[x - 1], acts[x - 1], ks[x], t);
    }
  }

  /** Over runs: waitDataIdle returns with the test that finds the line idle, and with nothing else. */
  lemma DataWaitReturnsIdle(v: Version, n: nat, ks: seq<Kernel>, acts: seq<Action>, i: nat, j: nat, t: Tid)
    requires |ks| == |acts| + 1 && Run(v, n, ks, acts) && Call(ks, acts, i, j, t, DataEnter)
    ensures i + 1 < j && acts[j - 1] == DataTest && ks[j - 1].dataLine
  {
    hide Run, Inv, Enabled, Apply, HitsWakeOne, HasMe;
    RunStep(v, n, ks, acts, j - 1);
    if j == i + 1 {
      EntersData(v, ks[i], ks[j]);
    } else {
      InData(v, n, ks, acts, i, j - 1, j, t);
      DataStep(v, ks[j - 1], acts[j - 1], ks[j], t);
    }
  }

  /** The SD thread goes on at once exactly if it has found the card gone; otherwise it is asleep for the
      card's interrupt, with that interrupt unmasked. */
  lemma CardWaitIff(v: Version, k: Kernel, checked: bool, r: Kernel)
    requires Inv(k) && HasMe(k) && Enabled(k, CardWait(checked)) && Apply(v, k, CardWait(checked)) == Ok(r)
    ensures Me(k) in r.info && (checked && !k.cardIn <==> r.info[Me(k)].pc == User)
    ensures checked && !k.cardIn ==> r == k
    ensures !(checked && !k.cardIn) ==> AsleepOn(r, Me(k), CardQ) && !r.cardMasked
  {
    hide Inv, ThreadsOk, Enabled, Apply, ThreadStep;
    ThreadsKnown(k);
    AwakeCaller(k, CardWait(checked));
    ThreadStepIs(v, k, CardWait(checked), r);
    CardWaited(v, k, checked, r);
  }

  /** The idle thread makes no calls, and most calls are made from outside the kernel. */
  lemma AwakeCaller(k: Kernel, a: Action)
    requires HasMe(k) && Enabled(k, a) && (a.CardWait? || a.SignalWait?)
    ensures Me(k) != IDLE && MyPc(k) == User
  {
  }

  lemma CardWaited(v: Version, k: Kernel, checked: bool, r: Kernel)
    requires ThreadsOk(k.sched) && HasMe(k) && Me(k) != IDLE && MyPc(k) == User && ThreadStep(v, k, CardWait(checked)) == Ok(r)
    ensures Me(k) in r.info && (checked && !k.cardIn <==> r.info[Me(k)].pc == User)
    ensures checked && !k.cardIn ==> r == k
    ensures !(checked && !k.cardIn) ==> AsleepOn(r, Me(k), CardQ) && !r.cardMasked
  {
    hide ThreadsOk, Block;
    if !(checked && !k.cardIn) {
      BlockedIs(k.(cardMasked := false), CardQ, CardAsleep, r);
    }
  }

  // ---------------------------------------------------------------- signals and delays

  /** Signal::wait always sleeps. */
  lemma SignalWaitSleeps(v: Version, k: Kernel, n: nat, r: Kernel)
    requires Inv(k) && HasMe(k) && Enabled(k, SignalWait(n)) && Apply(v, k, SignalWait(n)) == Ok(r)
    ensures AsleepOn(r, Me(k), SignalQ(n)) && Me(k) in r.info && r.info[Me(k)].pc == SignalAsleep(n)
  {
    hide Inv, ThreadsOk, Enabled, Apply, ThreadStep;
    ThreadsKnown(k);
    AwakeCaller(k, SignalWait(n));
    ThreadStepIs(v, k, SignalWait(n), r);
    SignalWaited(v, k, n, r);
  }

  lemma SignalWaited(v: Version, k: Kernel, n: nat, r: Kernel)
    requires ThreadsOk(k.sched) && HasMe(k) && Me(k) != IDLE && ThreadStep(v, k, SignalWait(n)) == Ok(r)
    ensures AsleepOn(r, Me(k), SignalQ(n)) && Me(k) in r.info && r.info[Me(k)].pc == SignalAsleep(n)
  {
    hide ThreadsOk, Block;
    BlockedIs(k, SignalQ(n), SignalAsleep(n), r);
  }

  /** Over runs: a sleeping thread sleeps on, on the same queue, until an action wakes it. */
  lemma {:induction false} SleepsUntilWoken(v: Version, n: nat, ks: seq<Kernel>, acts: seq<Action>, i: nat, j: nat, t: Tid, q: QueueId)
    requires |ks| == |acts| + 1 && Run(v, n, ks, acts) && i <= j < |ks| && AsleepOn(ks[i], t, q)
    requires forall x :: i <= x < j ==> !Wakes(ks[x], acts[x], t)
    ensures AsleepOn(ks[j], t, q) && t in ks[j].info && t in ks[i].info && ks[j].info[t] == ks[i].info[t]
    decreases j
  {
    hide Run, Inv, Enabled, Apply, HitsWakeOne, OthersWoken, LiveOk, Wakes;
    InvAlong(v, n, ks, acts, i);
    KeysOf(ks[i]);
    if i < j {
      SleepsUntilWoken(v, n, ks, acts, i, j - 1, t, q);
      RunStep(v, n, ks, acts, j - 1);
      SleepsNotRuns(ks[j - 1], t, q);
      WokenExactly(v, ks[j - 1], acts[j - 1], ks[j]);
      OthersAsleep(ks[j - 1], acts[j - 1], ks[j], t, q);
      InvLive(ks[j - 1]);
      LiveStep(v, ks[j - 1], acts[j - 1], ks[j]);
    }
  }

  lemma OthersAsleep(k: Kernel, a: Action, r: Kernel, t: Tid, q: QueueId)
    requires HasMe(k) && Me(k) != t && OthersWoken(k, a, r) && AsleepOn(k, t, q) && !Wakes(k, a, t)
    ensures AsleepOn(r, t, q)
  {
    hide Wakes;
  }

  /** sleep_ns returns only after a timer interrupt that sampled a time at or after its deadline. */
  lemma SleepNsReturns(v: Version, n: nat, ks: seq<Kernel>, acts: seq<Action>, i: nat, j: nat, t: Tid, now: Word, ns: Word, freq: nat)
    requires |ks| == |acts| + 1 && Run(v, n, ks, acts) && Call(ks, acts, i, j, t, SleepNs(now, ns, freq))
    ensures exists x :: i < x < j && acts[x].TimerIrq? && Deadline(now, ns, freq) <= acts[x].now
  {
    hide Run, Deadline;
    if forall x :: i < x < j && acts[x].TimerIrq? ==> acts[x].now < Deadline(now, ns, freq) {
      var pc := SleepNsBlocks(v, n, ks, acts, i);
      StaysBlocked(v, n, ks, acts, i + 1, j, t, pc);
    }
  }

  /** ... and it gives its timer's slot back as it does. */
  lemma SleepNsEnds(v: Version, k: Kernel, a: Action, r: Kernel)
    requires Inv(k) && HasMe(k) && MyPc(k).SleepAsleep? && Enabled(k, a) && ByThread(a) && Apply(v, k, a) == Ok(r)
    ensures Me(k) in r.info && r.info[Me(k)].pc == User && r.sched == k.sched
    ensures MyPc(k).slot in k.owner && r.owner == k.owner - {MyPc(k).slot} && r.timers.queue == k.timers.queue
    ensures r.timers.pool.free == [MyPc(k).slot] + k.timers.pool.free
  {
    hide Inv, Enabled, Apply, ThreadStep;
    MeKnown(k);
    OwnSlot(k, Me(k));
    SleepReturnNext(k, a);
    ThreadStepIs(v, k, a, r);
    SleepReturned(v, k, r);
  }

  lemma SleepReturnNext(k: Kernel, a: Action)
    requires HasMe(k) && MyPc(k).SleepAsleep? && Enabled(k, a) && ByThread(a)
    ensures a == SleepReturn
  {
    hide Usable, Freeable;
  }

  lemma SleepReturned(v: Version, k: Kernel, r: Kernel)
    requires HasMe(k) && MyPc(k).SleepAsleep? && ThreadStep(v, k, SleepReturn) == Ok(r)
    ensures Me(k) in r.info && r.info[Me(k)].pc == User && r.sched == k.sched
    ensures r.owner == k.owner - {MyPc(k).slot} && r.timers.queue == k.timers.queue
    ensures r.timers.pool.free == [MyPc(k).slot] + k.timers.pool.free
  {
  }

  lemma OwnSlot(k: Kernel, t: Tid)
    requires Inv(k) && t in k.info && k.info[t].pc.SleepAsleep?
    ensures k.info[t].pc.slot in k.owner && k.info[t].pc.slot < k.timers.pool.size
  {
    hide ThreadsOk, InfoOk, EventsOk, RefsOk, MutexOk, MasksOk, TimersOk, HasSlot, Pending, Asleep;
  }

  // ---------------------------------------------------------------- timers and threads

  /** registerTimer adds one event, unset, in a slot that was nobody's, and nothing else. */
  lemma RegisterTimerStarts(v: Version, k: Kernel, trigger: Word, repeat: Word, r: Kernel) returns (i: nat)
    requires Inv(k) && HasMe(k) && Enabled(k, RegisterTimer(trigger, repeat)) && Apply(v, k, RegisterTimer(trigger, repeat)) == Ok(r)
    ensures i !in k.owner && r.owner == k.owner[i := Handle] && r.active == k.active - {Slot(i)} && r.info == k.info
    ensures forall e :: e in r.timers.queue <==> e in k.timers.queue || e == TimerEvent(i, trigger, repeat, k.timers.placed)
  {
    hide Inv, NewTimer, Enabled, Apply;
    RegisterIs(v, k, trigger, repeat, r);
    NewTimerOk(k, trigger, repeat, Handle);
    var u;
    u, i := NewTimerFacts(k, trigger, repeat, Handle);
    NewTimerQueue(k, trigger, repeat, Handle);
  }

  lemma NewTimerQueue(k: Kernel, trigger: Word, repeat: Word, owner: Owner)
    requires NewTimer(k, trigger, repeat, owner).Ok?
    ensures var (r, i) := NewTimer(k, trigger, repeat, owner).value;
      && r.info == k.info
      && forall e :: e in r.timers.queue <==> e in k.timers.queue || e == TimerEvent(i, trigger, repeat, k.timers.placed)
  {
    PlaceElements(k.timers.queue, TimerEvent(Alloc(k.timers.pool).value.1, trigger, repeat, k.timers.placed));
    hide Place;
  }

  /** Destroying a handle gives its slot back, and touches no other slot and no event in the queue. */
  lemma FreeTimerFrees(v: Version, k: Kernel, slot: nat, r: Kernel)
    requires HasMe(k) && Enabled(k, FreeTimer(slot)) && Apply(v, k, FreeTimer(slot)) == Ok(r)
    ensures slot in k.owner && r.owner == k.owner - {slot} && r.timers.queue == k.timers.queue
    ensures r.timers.pool.free == [slot] + k.timers.pool.free && r.info == k.info && r.sched == k.sched
  {
    hide HasSlot;
  }

  /** A created thread is the one new thread; it has a name nobody has had, has not entered the kernel,
      and is Ready at the end of the list of its priority. */
  lemma CreateBears(v: Version, k: Kernel, high: bool, sd: bool, r: Kernel) returns (t: Tid)
    requires Inv(k) && HasMe(k) && Enabled(k, Create(high, sd)) && Apply(v, k, Create(high, sd)) == Ok(r)
    ensures t !in k.info && r.info == k.info[t := Info(User, k.serials)] && r.serials == k.serials + 1
    ensures r.sdThread == if sd then Some(k.serials) else k.sdThread
    ensures forall u :: u in k.info ==> k.info[u].serial < k.serials
    ensures var p := if high then 0 else 1;
      && r.sched.threads == k.sched.threads[t := Thread(Ready, p, Some(ReadyList(p)))]
      && r.sched.List(ReadyList(p)) == k.sched.List(ReadyList(p)) + [t]
  {
    InvLive(k);
    CreateLive(v, k, high, sd);
    hide Inv, SchedOk, Running, CreateThread, Enabled, LiveOk;
    SchedKnown(k);
    CreatedSched(v, k, high, sd, r);
    CreatedSd(v, k, high, sd, r);
    CreateThreadFailsIff(k.sched, high);
    var s;
    s, t := CreateThreadKeeps(k.sched, high);
    SerialsBelow(k);
  }

  /** A thread that ends is on no list, its stack is the first free one, and no other thread has moved. */
  lemma StopEnds(v: Version, k: Kernel, r: Kernel)
    requires Inv(k) && HasMe(k) && Enabled(k, Stop) && Apply(v, k, Stop) == Ok(r)
    ensures r.info == k.info - {Me(k)} && r.sched.threads == k.sched.threads - {Me(k)}
    ensures forall l :: r.sched.List(l) == Without(k.sched.List(l), Me(k))
    ensures r.sched.stacks.free == [Me(k)] + k.sched.stacks.free
  {
    hide Inv, SchedOk, Running, BestRuns, StopThread, Enabled, Apply;
    SchedKnown(k);
    StoppedSched(v, k, r);
    var s := StopThreadKeeps(k.sched);
    StopInfo(v, k, r);
  }

  lemma StoppedSched(v: Version, k: Kernel, r: Kernel)
    requires HasMe(k) && Enabled(k, Stop) && Apply(v, k, Stop) == Ok(r)
    ensures StopThread(k.sched) == Ok(r.sched) && k.sched.current == Some(Me(k)) && Me(k) != IDLE
  {
    hide StopThread;
  }

  lemma CreatedSd(v: Version, k: Kernel, high: bool, sd: bool, r: Kernel)
    requires HasMe(k) && Enabled(k, Create(high, sd)) && Apply(v, k, Create(high, sd)) == Ok(r)
    ensures r.serials == k.serials + 1 && r.sdThread == if sd then Some(k.serials) else k.sdThread
  {
    hide CreateThread;
  }

  lemma SerialsBelow(k: Kernel)
    requires Inv(k)
    ensures forall u :: u in k.info ==> k.info[u].serial < k.serials
  {
    hide ThreadsOk, EventsOk, SleepersOk, RefsOk, MutexOk, MasksOk, SlotsOk;
  }
}
