/** Every action keeps the invariant, and an action aborts only where a pool is empty. */
module KernelSteps {
  import opened Common
  import opened Pools
  import opened Sched
  import opened Timers
  import opened Kernel
  import opened KernelInv
  import opened KernelIrq

  // ---------------------------------------------------------------- events

  lemma ActivateSleepers(k: Kernel, r: Kernel, e: EventId)
    requires SleepersOk(k) && NotASleepers(k, EventQ(e))
    requires r == k.(active := k.active + {e})
    ensures SleepersOk(r) && forall t :: Asleep(r, t) <==> Asleep(k, t)
  {
    forall pc ensures Pending(r, pc) == Pending(k, pc) {
      PendingSame(k, r, pc);
    }
    assert forall t :: Asleep(r, t) <==> Asleep(k, t);
    hide Asleep, Pending, HasSlot;
  }

  /** _active is set; the waiters of the event are still to be woken. */
  lemma ActivateKeeps(k: Kernel, e: EventId) returns (r: Kernel)
    requires Inv(k) && NotASleepers(k, EventQ(e))
    ensures r == k.(active := k.active + {e})
    ensures InvBut(r, EventQ(e)) && NotASleepers(r, EventQ(e))
    ensures Setting(k, e) ==> Inv(r)
  {
    r := k.(active := k.active + {e});
    hide ThreadsOk, SlotsOk, MutexOk, MasksOk, InfoOk, SleepersOk, RefsOk, Asleep, Setting;
    ActivateSleepers(k, r, e);
    SettingSame(k, r);
    InfoSame(k, r);
    MasksWakes(k, r);
    RefsSame(k, r);
  }

  lemma SetEventKeeps(k: Kernel, e: EventId) returns (r: Kernel)
    requires Inv(k) && NotASleepers(k, EventQ(e))
    ensures SetEvent(k, e) == Ok(r) && Inv(r) && r == k.(sched := r.sched, active := k.active + {e})
    ensures r.sched.current == k.sched.current && WokenBy(k.sched.threads, r.sched.threads, {EventQ(e)})
  {
    hide Inv, InvBut, Wake, WokenBy;
    var a := ActivateKeeps(k, e);
    r := WakeKeeps(a, EventQ(e));
  }

  /** Waking a queue in a state that is already sound. */
  lemma WakeInv(k: Kernel, q: QueueId) returns (r: Kernel)
    requires Inv(k) && NotASleepers(k, q)
    ensures Wake(k, q) == Ok(r) && r == k.(sched := r.sched) && Inv(r)
    ensures r.sched.current == k.sched.current && WokenBy(k.sched.threads, r.sched.threads, {q})
  {
    hide ThreadsOk, SlotsOk, MutexOk, MasksOk, InfoOk, SleepersOk, RefsOk, Asleep, Setting, Wake, WokenBy;
    r := WakeKeeps(k, q);
  }

  lemma SetStoreKeeps(k: Kernel, e: EventId) returns (r: Kernel)
    requires Inv(k) && HasMe(k) && MyPc(k) == User && Usable(k, e)
    ensures r == At(k, SetStored(e)).(active := k.active + {e}) && Inv(r)
  {
    hide Inv, InvBut;
    var a := AtKeeps(k, SetStored(e));
    assert a.info[Me(k)].pc == SetStored(e);
    r := ActivateKeeps(a, e);
  }

  lemma EventsBut(k: Kernel, r: Kernel, c: Tid, e: EventId)
    requires EventsOk(k) && OnlyMoves(k, r, c) && k.info[c].pc == SetStored(e) && r.active == k.active
    requires r.info[c].pc == User
    ensures EventsOkBut(r, EventQ(e))
  {
    forall f | Setting(k, f) && f != e ensures Setting(r, f) {
      var t :| t in k.info && k.info[t].pc == SetStored(f);
      assert r.info[t].pc == SetStored(f);
    }
    hide Asleep, Setting;
  }

  lemma ReferredNotSleepers(k: Kernel, t: Tid, e: EventId)
    requires RefsOk(k) && t in k.info && Refers(k.info[t].pc, e)
    ensures NotASleepers(k, EventQ(e))
  {
  }

  /** The second half of Event::set, run by a thread. */
  lemma SetWakeKeeps(k: Kernel) returns (r: Kernel)
    requires Inv(k) && HasMe(k) && MyPc(k).SetStored?
    ensures Wake(At(k, User), EventQ(MyPc(k).e)) == Ok(r) && Inv(r)
    ensures r == At(k, User).(sched := r.sched) && r.sched.current == k.sched.current
    ensures WokenBy(k.sched.threads, r.sched.threads, {EventQ(MyPc(k).e)})
  {
    hide Inv, InvBut, NotASleepers, Wake, WokenBy;
    var a := SetWakeMoves(k);
    r := WakeKeeps(a, EventQ(MyPc(k).e));
  }

  lemma SetWakeMoves(k: Kernel) returns (a: Kernel)
    requires Inv(k) && HasMe(k) && MyPc(k).SetStored?
    ensures a == At(k, User) && InvBut(a, EventQ(MyPc(k).e)) && NotASleepers(a, EventQ(MyPc(k).e))
  {
    hide ThreadsOk, SlotsOk, MutexOk, InfoOk, EventsOk, SleepersOk, MasksOk, OnlyMoves, Asleep, AsleepAsSaid, EventsOkBut, RefsOk;
    var c, e := Me(k), MyPc(k).e;
    ReferredNotSleepers(k, c, e);
    assert forall i :: !Refers(User, Slot(i));
    hide Refers;
    a := AtMoves(k, User);
    SetWakeLeaves(k, a, c, e);
  }

  /** Once it has moved on, all that is missing is the wake-up itself. */
  lemma SetWakeLeaves(k: Kernel, a: Kernel, c: Tid, e: EventId)
    requires Inv(k) && OnlyMoves(k, a, c) && AsleepAsSaid(a, c) && !Asleep(a, c)
    requires a == k.(info := a.info) && k.info[c].pc == SetStored(e) && a.info[c].pc == User
    ensures InvBut(a, EventQ(e))
  {
    hide ThreadsOk, SlotsOk, MutexOk, InfoOk, EventsOk, SleepersOk, MasksOk, OnlyMoves, Asleep, AsleepAsSaid, EventsOkBut, RefsOk;
    InfoMoves(k, a, c);
    EventsBut(k, a, c, e);
    SleepersMoves(k, a, c);
    RefsMoves(k, a, c);
    MasksMoves(k, a, c);
  }

  lemma ClearKeeps(k: Kernel, e: EventId) returns (r: Kernel)
    requires Inv(k)
    ensures r == k.(active := k.active - {e}) && Inv(r)
  {
    r := k.(active := k.active - {e});
    hide ThreadsOk, SlotsOk, MutexOk, MasksOk, EventsOk, InfoOk, SleepersOk, RefsOk, Asleep;
    InfoSame(k, r);
    EventsSame(k, r);
    SleepersSame(k, r);
    MasksWakes(k, r);
    RefsSame(k, r);
  }

  // ---------------------------------------------------------------- threads

  /** From k to r a Ready thread t has appeared. */
  ghost predicate Adds(k: Kernel, r: Kernel, t: Tid) {
    && t !in k.info && t !in k.sched.threads && r.info == k.info[t := Info(User, k.serials)]
    && r.serials == k.serials + 1
    && t in r.sched.threads && r.sched.threads == k.sched.threads[t := r.sched.threads[t]]
    && r.sched.threads[t].state == Ready
  }

  lemma AddsAsleep(k: Kernel, r: Kernel, t: Tid)
    requires Adds(k, r, t)
    ensures !Asleep(r, t) && forall u :: Asleep(r, u) <==> Asleep(k, u)
  {
  }

  lemma AddsInfo(k: Kernel, r: Kernel, t: Tid)
    requires InfoOk(k) && Adds(k, r, t)
    ensures InfoOk(r)
  {
    AddsAsleep(k, r, t);
    hide Asleep, BlockedOn;
    assert r.info.Keys == k.info.Keys + {t};
    assert r.sched.threads.Keys == k.sched.threads.Keys + {t};
  }

  lemma AddsRest(k: Kernel, r: Kernel, t: Tid)
    requires EventsOk(k) && SleepersOk(k) && RefsOk(k) && Adds(k, r, t)
    requires r.active == k.active && r.timers == k.timers && r.owner == k.owner
    ensures EventsOk(r) && SleepersOk(r) && RefsOk(r)
  {
    hide EventsOk, SleepersOk, RefsOk, Adds;
    AddsEvents(k, r, t);
    AddsSleepers(k, r, t);
    AddsRefs(k, r, t);
  }

  lemma AddsEvents(k: Kernel, r: Kernel, t: Tid)
    requires EventsOk(k) && Adds(k, r, t) && r.active == k.active
    ensures EventsOk(r)
  {
    AddsAsleep(k, r, t);
    forall e | Setting(k, e) ensures Setting(r, e) {
      var u :| u in k.info && k.info[u].pc == SetStored(e);
      assert r.info[u].pc == SetStored(e);
    }
    hide Asleep, Setting;
  }

  lemma AddsSleepers(k: Kernel, r: Kernel, t: Tid)
    requires SleepersOk(k) && Adds(k, r, t) && r.active == k.active && r.timers == k.timers && r.owner == k.owner
    ensures SleepersOk(r)
  {
    AddsAsleep(k, r, t);
    forall pc ensures Pending(r, pc) == Pending(k, pc) {
      PendingSame(k, r, pc);
    }
    hide Asleep, Pending, HasSlot;
  }

  lemma AddsRefs(k: Kernel, r: Kernel, t: Tid)
    requires RefsOk(k) && Adds(k, r, t) && r.owner == k.owner
    ensures RefsOk(r)
  {
    hide Asleep;
  }

  lemma AddsMasks(k: Kernel, r: Kernel, t: Tid, sd: bool)
    requires MasksOk(k) && Adds(k, r, t) && (sd ==> k.sdThread == None)
    requires r.dataMasked == k.dataMasked && r.cardMasked == k.cardMasked
    requires r.sdThread == if sd then Some(k.serials) else k.sdThread
    ensures MasksOk(r)
  {
    AddsAsleep(k, r, t);
    hide Asleep;
  }

  lemma CreateKeeps(v: Version, k: Kernel, high: bool, sd: bool) returns (r: Kernel)
    requires Inv(k) && HasMe(k) && (sd ==> k.sdThread == None)
    requires CreateThread(k.sched, high).Ok?
    ensures ThreadStep(v, k, Create(high, sd)) == Ok(r) && Inv(r)
    ensures r.sched.current == k.sched.current
  {
    hide SchedOk, Running, SlotsOk, MasksOk, EventsOk, SleepersOk, RefsOk, InfoOk, Adds, CreateThread;
    CreateThreadFailsIff(k.sched, high);
    var s, t := CreateThreadKeeps(k.sched, high);
    r := k.(sched := s, info := k.info[t := Info(User, k.serials)], serials := k.serials + 1,
            sdThread := if sd then Some(k.serials) else k.sdThread);
    InfoKeySet(k);
    assert Adds(k, r, t) by { AddsIntro(k, r, t); }
    AddsInfo(k, r, t);
    AddsRest(k, r, t);
    AddsMasks(k, r, t, sd);
  }

  lemma InfoKeySet(k: Kernel)
    requires InfoOk(k)
    ensures k.info.Keys == k.sched.threads.Keys
  {
    hide BlockedOn, Asleep;
  }

  lemma AddsIntro(k: Kernel, r: Kernel, t: Tid)
    requires t !in k.info && t !in k.sched.threads && r.info == k.info[t := Info(User, k.serials)]
    requires r.serials == k.serials + 1
    requires t in r.sched.threads && r.sched.threads == k.sched.threads[t := r.sched.threads[t]]
    requires r.sched.threads[t].state == Ready
    ensures Adds(k, r, t)
  {
  }

  /** From k to r the running thread, between calls, has gone. */
  ghost predicate Removes(k: Kernel, r: Kernel, t: Tid) {
    && t in k.info && k.info[t].pc == User && r.info == k.info - {t} && r.serials == k.serials
    && r.sched.threads == k.sched.threads - {t}
  }

  lemma RemovesInfo(k: Kernel, r: Kernel, t: Tid)
    requires InfoOk(k) && Removes(k, r, t)
    ensures InfoOk(r) && forall u :: Asleep(r, u) <==> Asleep(k, u) && u != t
  {
    assert forall u :: Asleep(r, u) <==> Asleep(k, u) && u != t;
    hide Asleep, BlockedOn;
    assert r.info.Keys == k.info.Keys - {t};
    assert r.sched.threads.Keys == k.sched.threads.Keys - {t};
  }

  lemma RemovesRest(k: Kernel, r: Kernel, t: Tid)
    requires EventsOk(k) && SleepersOk(k) && RefsOk(k) && MasksOk(k) && Removes(k, r, t)
    requires r == k.(sched := r.sched, info := r.info)
    requires forall u :: Asleep(r, u) <==> Asleep(k, u) && u != t
    ensures EventsOk(r) && SleepersOk(r) && RefsOk(r) && MasksOk(r)
  {
    hide EventsOk, SleepersOk, RefsOk, MasksOk, Asleep;
    RemovesEvents(k, r, t);
    RemovesSleepers(k, r, t);
    RemovesRefs(k, r, t);
  }

  lemma RemovesEvents(k: Kernel, r: Kernel, t: Tid)
    requires EventsOk(k) && Removes(k, r, t) && r.active == k.active
    requires forall u :: Asleep(r, u) <==> Asleep(k, u) && u != t
    ensures EventsOk(r)
  {
    forall e | Setting(k, e) ensures Setting(r, e) {
      var u :| u in k.info && k.info[u].pc == SetStored(e);
      assert u != t && r.info[u].pc == SetStored(e);
    }
    hide Asleep, Setting;
  }

  lemma RemovesSleepers(k: Kernel, r: Kernel, t: Tid)
    requires SleepersOk(k) && Removes(k, r, t) && r == k.(sched := r.sched, info := r.info)
    requires forall u :: Asleep(r, u) <==> Asleep(k, u) && u != t
    ensures SleepersOk(r)
  {
    forall pc ensures Pending(r, pc) == Pending(k, pc) {
      PendingSame(k, r, pc);
    }
    hide Asleep, Pending, HasSlot;
  }

  lemma RemovesRefs(k: Kernel, r: Kernel, t: Tid)
    requires RefsOk(k) && MasksOk(k) && Removes(k, r, t) && r == k.(sched := r.sched, info := r.info)
    requires forall u :: Asleep(r, u) <==> Asleep(k, u) && u != t
    ensures RefsOk(r) && MasksOk(r)
  {
    hide Asleep;
  }

  lemma StopKeeps(v: Version, k: Kernel) returns (r: Kernel)
    requires Inv(k) && HasMe(k) && Me(k) != IDLE && MyPc(k) == User
    ensures ThreadStep(v, k, Stop) == Ok(r) && Inv(r) && BestRuns(r.sched)
    ensures r == k.(sched := r.sched, info := k.info - {Me(k)})
    ensures r.sched.threads == k.sched.threads - {Me(k)}
  {
    hide SchedOk, Running, SlotsOk, MasksOk, EventsOk, SleepersOk, RefsOk, InfoOk, StopThread, BestRuns;
    var s := StopThreadKeeps(k.sched);
    r := k.(sched := s, info := k.info - {Me(k)});
    RemovesInfo(k, r, Me(k));
    RemovesRest(k, r, Me(k));
  }

  // ---------------------------------------------------------------- mutexes

  lemma TakeMutex(held: set<(nat, nat)>, locked: set<nat>, serials: nat, n: nat, m: nat)
    requires MutexOk(held, locked, serials) && m !in locked && n < serials
    ensures MutexOk(held + {(n, m)}, locked + {m}, serials)
  {
    var h, l := held + {(n, m)}, locked + {m};
    forall x | x in l ensures exists y :: (y, x) in h {
      if x == m {
        assert (n, x) in h;
      } else {
        var y :| (y, x) in held;
        assert (y, x) in h;
      }
    }
  }

  lemma GiveMutex(held: set<(nat, nat)>, locked: set<nat>, serials: nat, n: nat, m: nat)
    requires MutexOk(held, locked, serials) && (n, m) in held
    ensures MutexOk(held - {(n, m)}, locked - {m}, serials)
  {
    var h, l := held - {(n, m)}, locked - {m};
    forall x | x in l ensures exists y :: (y, x) in h {
      var y :| (y, x) in held;
      assert (y, x) in h;
    }
  }

  lemma SerialBound(k: Kernel)
    requires InfoOk(k) && HasMe(k)
    ensures MySerial(k) < k.serials
  {
    hide BlockedOn, Asleep;
  }

  lemma InvMutex(k: Kernel, r: Kernel)
    requires Inv(k) && r == k.(locked := r.locked, held := r.held) && MutexOk(r.held, r.locked, r.serials)
    ensures Inv(r)
  {
    hide ThreadsOk, SlotsOk, MutexOk, MasksOk, EventsOk, InfoOk, SleepersOk, RefsOk, Asleep;
    InfoSame(k, r);
    EventsSame(k, r);
    SleepersSame(k, r);
    MasksWakes(k, r);
    RefsSame(k, r);
  }

  lemma LockTakeKeeps(k: Kernel, m: nat) returns (r: Kernel)
    requires Inv(k) && HasMe(k) && MyPc(k).LockSawFree? && m !in k.locked
    ensures r == At(k, User).(locked := k.locked + {m}, held := k.held + {(MySerial(k), m)}) && Inv(r)
  {
    hide ThreadsOk, SlotsOk, MutexOk, MasksOk, EventsOk, InfoOk, SleepersOk, RefsOk, Asleep;
    var a := AtKeeps(k, User);
    SerialBound(k);
    TakeMutex(k.held, k.locked, k.serials, MySerial(k), m);
    r := a.(locked := k.locked + {m}, held := k.held + {(MySerial(k), m)});
    InvMutex(a, r);
  }

  lemma TryLockKeeps(k: Kernel, m: nat) returns (r: Kernel)
    requires Inv(k) && HasMe(k)
    ensures r == k.(locked := k.locked + {m}, held := if m in k.locked then k.held else k.held + {(MySerial(k), m)}) && Inv(r)
  {
    hide ThreadsOk, SlotsOk, MutexOk, MasksOk, EventsOk, InfoOk, SleepersOk, RefsOk, Asleep;
    r := k.(locked := k.locked + {m}, held := if m in k.locked then k.held else k.held + {(MySerial(k), m)});
    if m in k.locked {
      assert k.locked + {m} == k.locked;
      assert r == k;
    } else {
      SerialBound(k);
      TakeMutex(k.held, k.locked, k.serials, MySerial(k), m);
      InvMutex(k, r);
    }
  }

  /** From k to r one waiter of a mutex has been woken. */
  ghost predicate WakesOne(k: Kernel, r: Kernel, t: Tid, m: nat) {
    && r == k.(sched := r.sched)
    && t in k.sched.threads && k.sched.threads[t].state == Sleeping && k.sched.threads[t].hook == Some(WaitList(MutexQ(m)))
    && r.sched.threads == k.sched.threads[t := MadeReady(k.sched.threads[t])]
  }

  lemma OneInfo(k: Kernel, r: Kernel, t: Tid, m: nat)
    requires InfoOk(k) && WakesOne(k, r, t, m)
    ensures InfoOk(r) && t in k.info && k.info[t].pc == Locking(m)
    ensures forall u :: Asleep(r, u) <==> Asleep(k, u) && u != t
  {
    assert forall u :: Asleep(r, u) <==> Asleep(k, u) && u != t;
    assert r.sched.threads.Keys == k.sched.threads.Keys;
    hide Asleep;
    assert Asleep(k, t) by { AsleepIntro(k, t); }
    assert BlockedOn(k.info[t].pc) == Some(MutexQ(m));
    hide BlockedOn;
  }

  lemma AsleepIntro(k: Kernel, t: Tid)
    requires t in k.sched.threads && k.sched.threads[t].state == Sleeping
    ensures Asleep(k, t)
  {
  }

  lemma OneRest(k: Kernel, r: Kernel, t: Tid)
    requires EventsOk(k) && SleepersOk(k) && RefsOk(k) && MasksOk(k) && r == k.(sched := r.sched)
    requires t in k.info && k.info[t].pc.Locking?
    requires forall u :: Asleep(r, u) <==> Asleep(k, u) && u != t
    ensures EventsOk(r) && SleepersOk(r) && RefsOk(r) && MasksOk(r)
  {
    SettingSame(k, r);
    forall pc ensures Pending(r, pc) == Pending(k, pc) {
      PendingSame(k, r, pc);
    }
    hide Asleep, Pending, HasSlot, Setting;
  }

  lemma WakeOneInv(k: Kernel, m: nat) returns (r: Kernel)
    requires Inv(k)
    ensures WakeOneIntended(k.sched, MutexQ(m)) == Ok(r.sched) && r == k.(sched := r.sched) && Inv(r)
    ensures r.sched.current == k.sched.current
  {
    hide SchedOk, Running, SlotsOk, MutexOk, MasksOk, EventsOk, SleepersOk, RefsOk, InfoOk, WakeOneIntended, Asleep;
    var s := WakeOneIntendedKeeps(k.sched, MutexQ(m));
    r := k.(sched := s);
    if k.sched.List(WaitList(MutexQ(m))) != [] {
      var t := k.sched.List(WaitList(MutexQ(m)))[0];
      Homes(k.sched);
      OneInfo(k, r, t, m);
      OneRest(k, r, t);
    }
  }

  /** Mutex::unlock by the holder. As meant it keeps the invariant. As written it does so exactly
      when nobody is asleep on the mutex, and otherwise aborts or strands a thread. */
  lemma UnlockKeepsIff(v: Version, k: Kernel, m: nat)
    requires Inv(k) && HasMe(k) && (MySerial(k), m) in k.held
    ensures (ThreadStep(v, k, Unlock(m)).Ok? && Inv(ThreadStep(v, k, Unlock(m)).value)) <==>
      v == Intended || k.sched.List(WaitList(MutexQ(m))) == []
    ensures ThreadStep(v, k, Unlock(m)).Ok? && Inv(ThreadStep(v, k, Unlock(m)).value) ==>
      ThreadStep(v, k, Unlock(m)).value.sched.current == k.sched.current
  {
    hide Running, SlotsOk, MutexOk, MasksOk, EventsOk, SleepersOk, RefsOk, InfoOk, WakeOneIntended, WakeOneAsWritten, SchedOk;
    GiveMutex(k.held, k.locked, k.serials, MySerial(k), m);
    var a := k.(locked := k.locked - {m}, held := k.held - {(MySerial(k), m)});
    InvMutex(k, a);
    var r := WakeOneInv(a, m);
    WakeOneAsWrittenKeepsIff(k.sched, MutexQ(m));
    if k.sched.List(WaitList(MutexQ(m))) == [] {
      NobodyToWake(k.sched, MutexQ(m));
    }
  }

  lemma NobodyToWake(s: Sched, q: QueueId)
    requires s.List(WaitList(q)) == []
    ensures WakeOneAsWritten(s, q) == WakeOneIntended(s, q) == Ok(s)
  {
  }

  // ---------------------------------------------------------------- timer handles

  /** Clearing a handle frees the slot and checks nothing. It keeps the invariant exactly when the
      handle's event has left the timer queue and no thread is using it. */
  lemma ClearKeepsIff(k: Kernel, i: nat)
    requires Inv(k) && HasMe(k) && MyPc(k) == User && i in k.owner && k.owner[i].Handle?
    ensures (DropTimer(k, i).Ok? && Inv(DropTimer(k, i).value)) <==> Freeable(k, i)
  {
    if Freeable(k, i) {
      var r := FreeTimerKeeps(k, i);
    } else if DropTimer(k, i).Ok? && Inv(DropTimer(k, i).value) {
      ClearedTooEarly(k, i, DropTimer(k, i).value);
    }
  }

  lemma ClearedTooEarly(k: Kernel, i: nat, r: Kernel)
    requires i in k.owner && k.owner[i].Handle? && DropTimer(k, i) == Ok(r) && RefsOk(r) && SlotsOk(r.timers, r.owner.Keys)
    ensures Freeable(k, i)
  {
    assert i !in r.owner && r.timers.queue == k.timers.queue;
    hide HasSlot, TimersOk, PoolOk;
    forall t | t in k.info ensures !Refers(k.info[t].pc, Slot(i)) {
      assert r.info[t] == k.info[t];
    }
  }

  // ---------------------------------------------------------------- devices

  lemma DevicesKeep(k: Kernel, r: Kernel)
    requires Inv(k)
    requires r == k.(dataLine := r.dataLine, cardIn := r.cardIn, dataMasked := r.dataMasked, cardMasked := r.cardMasked)
    requires !k.dataMasked ==> !r.dataMasked
    requires r.cardMasked ==> k.cardMasked || (HasMe(k) && k.sdThread == Some(MySerial(k)) && MyPc(k) == User)
    ensures Inv(r)
  {
    hide SlotsOk, MutexOk, EventsOk, SleepersOk, RefsOk, MasksOk, Asleep, ThreadsOk;
    InfoSame(k, r);
    EventsSame(k, r);
    SleepersSame(k, r);
    RefsSame(k, r);
    DeviceMasks(k, r);
  }

  lemma DeviceMasks(k: Kernel, r: Kernel)
    requires MasksOk(k) && InfoOk(k)
    requires r == k.(dataLine := r.dataLine, cardIn := r.cardIn, dataMasked := r.dataMasked, cardMasked := r.cardMasked)
    requires !k.dataMasked ==> !r.dataMasked
    requires r.cardMasked ==> k.cardMasked || (HasMe(k) && k.sdThread == Some(MySerial(k)) && MyPc(k) == User)
    ensures MasksOk(r)
  {
    assert forall t :: Asleep(r, t) <==> Asleep(k, t);
    hide Asleep, BlockedOn;
  }

  /** A handler masks its interrupt and then wakes everybody who was waiting for it. */
  lemma MaskAndWake(k: Kernel, q: QueueId) returns (r: Kernel)
    requires Inv(k) && (q == DataIdleQ || q == CardQ)
    ensures var a := if q == DataIdleQ then k.(dataMasked := true) else k.(cardMasked := true);
      Wake(a, q) == Ok(r) && r == a.(sched := r.sched)
    ensures Inv(r) && r.sched.current == k.sched.current
    ensures WokenBy(k.sched.threads, r.sched.threads, {q})
  {
    var a := if q == DataIdleQ then k.(dataMasked := true) else k.(cardMasked := true);
    hide SchedOk, Running, WakeAll, Drained, WokenBy, SlotsOk, MutexOk, InfoOk, EventsOk, SleepersOk, MasksOk, Asleep, RefsOk;
    var s := WakeAllKeeps(k.sched, q);
    r := a.(sched := s);
    Homes(k.sched);
    InfoWakes(k, r, {q});
    InfoKeys(k);
    EventsButAll(k, q);
    EventsWakes(k, r, q);
    SleepersWakes(k, r, q);
    RefsSame(k, r);
    MaskedMasks(k, r, q);
  }

  lemma EventsButAll(k: Kernel, q: QueueId)
    requires EventsOk(k)
    ensures EventsOkBut(k, q)
  {
    hide Asleep, Setting;
  }

  lemma MaskedMasks(k: Kernel, r: Kernel, q: QueueId)
    requires MasksOk(k) && (q == DataIdleQ || q == CardQ) && r.info == k.info && r.sdThread == k.sdThread && r.serials == k.serials
    requires r.dataMasked == (if q == DataIdleQ then true else k.dataMasked)
    requires r.cardMasked == (if q == CardQ then true else k.cardMasked)
    requires forall t :: Asleep(r, t) ==> Asleep(k, t) && t in k.info && BlockedOn(k.info[t].pc) != Some(q)
    ensures MasksOk(r)
  {
    hide Asleep;
  }

  lemma MaybeSetEvent(k: Kernel, on: bool) returns (r: Kernel)
    requires Inv(k)
    ensures (if on then SetEvent(k, UART_RX) else Ok(k)) == Ok(r) && Inv(r)
    ensures r == k.(sched := r.sched, active := if on then k.active + {UART_RX} else k.active) && r.sched.current == k.sched.current
    ensures WokenBy(k.sched.threads, r.sched.threads, if on then {EventQ(UART_RX)} else {})
  {
    hide Inv, SetEvent;
    WokenNone(k.sched.threads);
    r := k;
    if on { r := SetEventKeeps(k, UART_RX); }
  }

  lemma MaybeSignal(k: Kernel, on: bool) returns (r: Kernel)
    requires Inv(k)
    ensures (if on then Wake(k, SignalQ(VSYNC)) else Ok(k)) == Ok(r) && Inv(r)
    ensures r == k.(sched := r.sched) && r.sched.current == k.sched.current
    ensures WokenBy(k.sched.threads, r.sched.threads, if on then {SignalQ(VSYNC)} else {})
  {
    hide Inv, Wake;
    WokenNone(k.sched.threads);
    r := k;
    if on { r := WakeInv(k, SignalQ(VSYNC)); }
  }

  lemma MaybeCard(k: Kernel, on: bool) returns (r: Kernel)
    requires Inv(k)
    ensures (if on then Wake(k.(cardMasked := true), CardQ) else Ok(k)) == Ok(r) && Inv(r)
    ensures r == k.(sched := r.sched, cardMasked := on || k.cardMasked) && r.sched.current == k.sched.current
    ensures WokenBy(k.sched.threads, r.sched.threads, if on then {CardQ} else {})
  {
    hide Inv, Wake;
    WokenNone(k.sched.threads);
    r := k;
    if on { r := MaskAndWake(k, CardQ); }
  }

  lemma MaybeData(k: Kernel, on: bool) returns (r: Kernel)
    requires Inv(k)
    ensures (if on then Wake(k.(dataMasked := true), DataIdleQ) else Ok(k)) == Ok(r) && Inv(r)
    ensures r == k.(sched := r.sched, dataMasked := on || k.dataMasked) && r.sched.current == k.sched.current
    ensures WokenBy(k.sched.threads, r.sched.threads, if on then {DataIdleQ} else {})
  {
    hide Inv, Wake;
    WokenNone(k.sched.threads);
    r := k;
    if on { r := MaskAndWake(k, DataIdleQ); }
  }

  lemma ExternalKeeps(k: Kernel, rx: bool, vsync: bool, card: bool, data: bool) returns (r: Kernel)
    requires Inv(k)
    ensures ExternalHandler(k, rx, vsync, card, data) == Ok(r) && Inv(r) && r.sched.current == k.sched.current
    ensures r == k.(sched := r.sched, active := if rx then k.active + {UART_RX} else k.active,
                    cardMasked := card || k.cardMasked, dataMasked := data || k.dataMasked)
    ensures WokenBy(k.sched.threads, r.sched.threads, ExternalQueues(rx, vsync, card, data))
  {
    hide Inv, SetEvent, Wake, WokenBy, ExternalQueues;
    var k1 := MaybeSetEvent(k, rx);
    var k2 := MaybeSignal(k1, vsync);
    var k3 := MaybeCard(k2, card);
    r := MaybeData(k3, data);
    ExternalWoken(k.sched.threads, k1.sched.threads, k2.sched.threads, k3.sched.threads, r.sched.threads, rx, vsync, card, data);
  }

  function ExternalQueues(rx: bool, vsync: bool, card: bool, data: bool): set<QueueId> {
    (if rx then {EventQ(UART_RX)} else {}) + (if vsync then {SignalQ(VSYNC)} else {})
    + (if card then {CardQ} else {}) + (if data then {DataIdleQ} else {})
  }

  lemma ExternalWoken(a: map<Tid, Thread>, b: map<Tid, Thread>, c: map<Tid, Thread>, d: map<Tid, Thread>, e: map<Tid, Thread>,
                      rx: bool, vsync: bool, card: bool, data: bool)
    requires WokenBy(a, b, if rx then {EventQ(UART_RX)} else {})
    requires WokenBy(b, c, if vsync then {SignalQ(VSYNC)} else {})
    requires WokenBy(c, d, if card then {CardQ} else {})
    requires WokenBy(d, e, if data then {DataIdleQ} else {})
    ensures WokenBy(a, e, ExternalQueues(rx, vsync, card, data))
  {
    var q1 := if rx then {EventQ(UART_RX)} else {};
    var q2 := if vsync then {SignalQ(VSYNC)} else {};
    var q3 := if card then {CardQ} else {};
    var q4 := if data then {DataIdleQ} else {};
    hide WokenBy;
    WokenTwice(a, b, c, q1, q2);
    WokenTwice(a, c, d, q1 + q2, q3);
    WokenTwice(a, d, e, q1 + q2 + q3, q4);
  }
}
