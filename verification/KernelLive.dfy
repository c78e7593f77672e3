/** Which threads exist, and what an action leaves alone of a thread that does not take it. Both hold in
    every run of either version of wakeOneThread, whatever that has done to the wait queues. */
module KernelLive {
  import opened Common
  import opened Pools
  import opened Sched
  import opened Timers
  import opened Kernel
  import opened KernelMutex

  /** The same threads exist, and the same stacks are free. */
  ghost predicate SameLive(s: Sched, r: Sched) {
    r.threads.Keys == s.threads.Keys && r.stacks == s.stacks
  }

  lemma MoveLive(s: Sched, t: Tid, st: ThreadState, l: ListId)
    requires t in s.threads && Move(s, t, st, l).Ok?
    ensures SameLive(s, Move(s, t, st, l).value) && Move(s, t, st, l).value.current == s.current
  {
    var u := SetState(Unlink(s, t), t, st);
    assert u.threads.Keys == s.threads.Keys;
  }

  lemma ScheduleLive(s: Sched, t: Tid)
    requires Schedule(s, t).Ok?
    ensures SameLive(s, Schedule(s, t).value)
  {
    MoveLive(s, t, Ready, ReadyList(s.threads[t].priority));
    hide Move;
  }

  lemma {:induction false} ScheduleEachLive(s: Sched, ts: seq<Tid>)
    requires ScheduleEach(s, ts).Ok?
    ensures SameLive(s, ScheduleEach(s, ts).value)
    decreases |ts|
  {
    hide Schedule;
    if ts != [] {
      ScheduleLive(s, ts[0]);
      ScheduleEachLive(Schedule(s, ts[0]).value, ts[1..]);
    }
  }

  lemma WakeAllLive(s: Sched, q: QueueId)
    requires WakeAll(s, q).Ok?
    ensures SameLive(s, WakeAll(s, q).value)
  {
    ScheduleEachLive(s, s.List(WaitList(q)));
  }

  lemma WakeOneLive(v: Version, s: Sched, q: QueueId)
    requires WakeOne(v, s, q).Ok?
    ensures SameLive(s, WakeOne(v, s, q).value)
  {
    hide Schedule;
    if s.List(WaitList(q)) != [] {
      ScheduleLive(s, s.List(WaitList(q))[0]);
    }
  }

  lemma RescheduleLive(s: Sched)
    requires Reschedule(s).Ok?
    ensures Reschedule(s).value == s.(current := Reschedule(s).value.current)
  {
  }

  lemma SleepOnLive(s: Sched, q: QueueId)
    requires SleepOn(s, q).Ok?
    ensures SameLive(s, SleepOn(s, q).value)
  {
    hide Move, Reschedule;
    MoveLive(s, s.current.value, Sleeping, WaitList(q));
    RescheduleLive(Move(s, s.current.value, Sleeping, WaitList(q)).value);
  }

  lemma StopThreadLive(s: Sched)
    requires StopThread(s).Ok?
    ensures s.current.Some? && s.current.value in s.threads && Free(s.stacks, s.current.value).Ok?
    ensures var r := StopThread(s).value;
      r.threads.Keys == s.threads.Keys - {s.current.value} && r.stacks == Free(s.stacks, s.current.value).value
  {
    var t := s.current.value;
    var u := Unlink(s, t);
    assert u.threads.Keys == s.threads.Keys && u.stacks == s.stacks;
    hide Reschedule, Unlink;
    var w := u.(threads := u.threads - {t}, stacks := Free(u.stacks, t).value, current := None);
    RescheduleLive(w);
  }

  lemma CreateThreadLive(s: Sched, high: bool)
    requires CreateThread(s, high).Ok?
    ensures Alloc(s.stacks).Ok?
    ensures var (r, t) := CreateThread(s, high).value;
      t == Alloc(s.stacks).value.1 && r.threads.Keys == s.threads.Keys + {t} && r.stacks == Alloc(s.stacks).value.0
  {
  }

  // ---------------------------------------------------------------- the kernel

  /** The stacks in use are those of the threads in existence. */
  ghost predicate LiveOk(k: Kernel) {
    k.info.Keys == k.sched.threads.Keys && PoolOk(k.sched.stacks, k.sched.threads.Keys)
  }

  ghost predicate AliveAlike(k: Kernel, r: Kernel) {
    r.info.Keys == k.info.Keys && SameLive(k.sched, r.sched)
  }

  lemma AlikeKeeps(k: Kernel, r: Kernel)
    requires LiveOk(k) && AliveAlike(k, r)
    ensures LiveOk(r)
  {
    hide PoolOk;
  }

  lemma BlockAlike(k: Kernel, q: QueueId, pc: Pc)
    requires HasMe(k)
    ensures Block(k, q, pc).Ok? ==> AliveAlike(k, Block(k, q, pc).value)
  {
    hide SleepOn;
    if SleepOn(k.sched, q).Ok? {
      SleepOnLive(k.sched, q);
      assert At(k, pc).info.Keys == k.info.Keys;
    }
  }

  lemma WakeAlike(k: Kernel, q: QueueId)
    ensures Wake(k, q).Ok? ==> AliveAlike(k, Wake(k, q).value) && Wake(k, q).value.info == k.info
  {
    hide WakeAll;
    if WakeAll(k.sched, q).Ok? {
      WakeAllLive(k.sched, q);
    }
  }

  lemma {:induction false} SetFiredAlike(k: Kernel, fired: seq<Firing>)
    requires SetFired(k, fired).Ok?
    ensures AliveAlike(k, SetFired(k, fired).value) && SetFired(k, fired).value.info == k.info
    decreases |fired|
  {
    hide Wake;
    if fired != [] {
      var e := Slot(fired[0].slot);
      WakeAlike(k.(active := k.active + {e}), EventQ(e));
      SetFiredAlike(SetEvent(k, e).value, fired[1..]);
    }
  }

  lemma ExternalAlike(k: Kernel, rx: bool, vsync: bool, card: bool, data: bool)
    requires ExternalHandler(k, rx, vsync, card, data).Ok?
    ensures AliveAlike(k, ExternalHandler(k, rx, vsync, card, data).value)
    ensures ExternalHandler(k, rx, vsync, card, data).value.info == k.info
  {
    hide Wake;
    var k1 := if rx then SetEvent(k, UART_RX).value else k;
    if rx { WakeAlike(k.(active := k.active + {UART_RX}), EventQ(UART_RX)); }
    var k2 := if vsync then Wake(k1, SignalQ(VSYNC)).value else k1;
    if vsync { WakeAlike(k1, SignalQ(VSYNC)); }
    var k3 := if card then Wake(k2.(cardMasked := true), CardQ).value else k2;
    if card { WakeAlike(k2.(cardMasked := true), CardQ); }
    if data { WakeAlike(k3.(dataMasked := true), DataIdleQ); }
  }

  lemma ReschedAlike(k: Kernel)
    requires Resched(k).Ok?
    ensures AliveAlike(k, Resched(k).value) && Resched(k).value.info == k.info
  {
    hide Reschedule;
    RescheduleLive(k.sched);
  }

  /** Interrupts and devices leave every thread where it is. */
  lemma InterruptAlike(v: Version, k: Kernel, a: Action)
    requires Enabled(k, a) && !ByThread(a) && Apply(v, k, a).Ok?
    ensures AliveAlike(k, Apply(v, k, a).value) && Apply(v, k, a).value.info == k.info
  {
    hide LoopEnds, ExternalHandler, Resched, SetFired;
    if a.TimerIrq? {
      var (timers, fired) := AfterInterrupt(k.timers, a.now);
      SetFiredAlike(k.(timers := timers), fired);
      ReschedAlike(TimerHandler(k, a.now).value);
    } else if a.ExternalIrq? {
      ExternalAlike(k, a.rx, a.vsync, a.card, a.data);
      ReschedAlike(ExternalHandler(k, a.rx, a.vsync, a.card, a.data).value);
    }
  }

  // ---------------------------------------------------------------- the running thread's actions

  /** The same threads exist, and none but the running one has moved. */
  ghost predicate Aside(k: Kernel, r: Kernel)
    requires HasMe(k)
  {
    AliveAlike(k, r) && forall t :: t in k.info && t != Me(k) ==> t in r.info && r.info[t] == k.info[t]
  }

  lemma AsideItself(k: Kernel)
    requires HasMe(k)
    ensures Aside(k, k) && forall pc :: Aside(k, At(k, pc))
  {
    forall pc ensures Aside(k, At(k, pc)) {
      assert At(k, pc).info.Keys == k.info.Keys;
    }
  }

  lemma BlockAside(k: Kernel, q: QueueId, pc: Pc)
    requires HasMe(k)
    ensures Block(k, q, pc).Ok? ==> Aside(k, Block(k, q, pc).value)
  {
    BlockAlike(k, q, pc);
    hide SleepOn, AliveAlike;
  }

  lemma NewTimerAlike(k: Kernel, trigger: Word, repeat: Word, owner: Owner)
    requires NewTimer(k, trigger, repeat, owner).Ok?
    ensures var r := NewTimer(k, trigger, repeat, owner).value.0;
      r.info == k.info && AliveAlike(k, r) && r.sched.current == k.sched.current
  {
    hide Register;
  }

  lemma SleepNsAside(v: Version, k: Kernel, now: Word, ns: Word, freq: nat)
    requires HasMe(k) && Enabled(k, SleepNs(now, ns, freq)) && Apply(v, k, SleepNs(now, ns, freq)).Ok?
    ensures Aside(k, Apply(v, k, SleepNs(now, ns, freq)).value)
  {
    hide Block, NewTimer, Deadline;
    var d := Deadline(now, ns, freq);
    NewTimerAlike(k, d, 0, Sleeper(Me(k)));
    var (k1, slot) := NewTimer(k, d, 0, Sleeper(Me(k))).value;
    BlockAside(k1, EventQ(Slot(slot)), SleepAsleep(slot, now, ns, freq));
  }

  lemma BlocksAside(v: Version, k: Kernel, a: Action)
    requires HasMe(k) && Enabled(k, a) && Apply(v, k, a).Ok?
    requires a.WaitSleep? || a.SignalWait? || a.LockSleep? || a.DataTest? || a.CardWait?
    ensures Aside(k, Apply(v, k, a).value)
  {
    hide Block, Usable, Freeable, Aside;
    AsideItself(k);
    match a {
      case WaitSleep => BlockAside(k, EventQ(MyPc(k).e), WaitAsleep(MyPc(k).e));
      case SignalWait(n) => BlockAside(k, SignalQ(n), SignalAsleep(n));
      case LockSleep => BlockAside(k, MutexQ(MyPc(k).m), Locking(MyPc(k).m));
      case DataTest => DataTestAside(v, k);
      case CardWait(checked) => CardWaitAside(v, k, checked);
    }
  }

  lemma DataTestAside(v: Version, k: Kernel)
    requires HasMe(k) && Enabled(k, DataTest) && Apply(v, k, DataTest).Ok?
    ensures Aside(k, Apply(v, k, DataTest).value)
  {
    hide Block;
    AsideItself(k);
    BlockAside(k.(dataMasked := false), DataIdleQ, DataWait);
  }

  lemma CardWaitAside(v: Version, k: Kernel, checked: bool)
    requires HasMe(k) && Enabled(k, CardWait(checked)) && Apply(v, k, CardWait(checked)).Ok?
    ensures Aside(k, Apply(v, k, CardWait(checked)).value)
  {
    hide Block;
    BlockAside(k.(cardMasked := false), CardQ, CardAsleep);
  }

  lemma WakesAside(v: Version, k: Kernel, a: Action)
    requires HasMe(k) && Enabled(k, a) && Apply(v, k, a).Ok? && (a.SetWake? || a.SignalAll? || a.Unlock?)
    ensures Aside(k, Apply(v, k, a).value)
  {
    hide Wake, WakeOne, Usable, Freeable;
    AsideItself(k);
    match a {
      case SetWake => WakeAlike(At(k, User), EventQ(MyPc(k).e));
      case SignalAll(n) => WakeAlike(k, SignalQ(n));
      case Unlock(m) => WakeOneLive(v, k.sched, MutexQ(m));
    }
  }

  /** The actions that change at most the running thread's program point, and no list. */
  predicate Plain(a: Action) {
    ByThread(a) && !Sleeps(a) && !(a.Create? || a.Stop? || a.RegisterTimer? || a.SetWake? || a.SignalAll? || a.Unlock?)
  }

  lemma PlainAside(v: Version, k: Kernel, a: Action)
    requires HasMe(k) && Enabled(k, a) && Plain(a) && Apply(v, k, a).Ok?
    ensures Aside(k, Apply(v, k, a).value)
  {
    AsideItself(k);
    hide Usable, Freeable;
  }

  lemma OtherAside(v: Version, k: Kernel, a: Action)
    requires HasMe(k) && Enabled(k, a) && ByThread(a) && !a.Create? && !a.Stop? && Apply(v, k, a).Ok?
    ensures Aside(k, Apply(v, k, a).value)
  {
    hide Enabled, Apply, Aside;
    if a.SleepNs? {
      SleepNsAside(v, k, a.now, a.ns, a.freq);
    } else if Sleeps(a) {
      BlocksAside(v, k, a);
    } else if a.RegisterTimer? {
      RegisterAside(v, k, a.trigger, a.repeat);
    } else if a.SetWake? || a.SignalAll? || a.Unlock? {
      WakesAside(v, k, a);
    } else {
      PlainAside(v, k, a);
    }
  }

  lemma RegisterAside(v: Version, k: Kernel, trigger: Word, repeat: Word)
    requires HasMe(k) && Enabled(k, RegisterTimer(trigger, repeat)) && Apply(v, k, RegisterTimer(trigger, repeat)).Ok?
    ensures Aside(k, Apply(v, k, RegisterTimer(trigger, repeat)).value)
  {
    hide NewTimer;
    NewTimerAlike(k, trigger, repeat, Handle);
  }

  lemma CreateLive(v: Version, k: Kernel, high: bool, sd: bool)
    requires LiveOk(k) && HasMe(k) && Enabled(k, Create(high, sd)) && Apply(v, k, Create(high, sd)).Ok?
    ensures var r := Apply(v, k, Create(high, sd)).value; var t := CreateThread(k.sched, high).value.1;
      CreateThread(k.sched, high).Ok? && t !in k.info && r.info == k.info[t := Info(User, k.serials)] && LiveOk(r)
  {
    hide CreateThread, PoolOk;
    CreateThreadLive(k.sched, high);
    AllocKeeps(k.sched.stacks, k.sched.threads.Keys);
    var t := CreateThread(k.sched, high).value.1;
    assert k.info[t := Info(User, k.serials)].Keys == k.info.Keys + {t};
  }

  lemma StopLive(v: Version, k: Kernel)
    requires LiveOk(k) && HasMe(k) && Enabled(k, Stop) && Apply(v, k, Stop).Ok?
    ensures Apply(v, k, Stop).value.info == k.info - {Me(k)} && LiveOk(Apply(v, k, Stop).value)
  {
    hide StopThread, PoolOk;
    StopThreadLive(k.sched);
    FreeKeeps(k.sched.stacks, k.sched.threads.Keys, Me(k));
    assert (k.info - {Me(k)}).Keys == k.info.Keys - {Me(k)};
  }

  /** Whatever the action, the stacks in use stay those of the threads there are, and a thread that does
      not take it stays where it is. */
  lemma LiveStep(v: Version, k: Kernel, a: Action, r: Kernel)
    requires LiveOk(k) && Enabled(k, a) && Apply(v, k, a) == Ok(r)
    ensures LiveOk(r)
    ensures forall t :: t in k.info && (ByThread(a) ==> HasMe(k) && t != Me(k)) ==> t in r.info && r.info[t] == k.info[t]
  {
    ThreadHasMe(k, a);
    hide LiveOk, Enabled, Apply, AliveAlike;
    if !ByThread(a) {
      InterruptAlike(v, k, a);
      AlikeKeeps(k, r);
    } else if a.Create? {
      CreateLive(v, k, a.high, a.sd);
    } else if a.Stop? {
      StopLive(v, k);
    } else {
      OtherAside(v, k, a);
      AlikeKeeps(k, r);
    }
  }

  lemma ThreadHasMe(k: Kernel, a: Action)
    requires Enabled(k, a)
    ensures ByThread(a) ==> HasMe(k)
  {
  }

  lemma StartLive(n: nat, k: Kernel)
    requires Start(n) == Ok(k)
    ensures LiveOk(k)
  {
    BootKeeps(n);
    hide Boot, PoolOk, Running, Linked, AllHomed, IdleOk;
  }

  lemma {:induction false} LiveAlong(v: Version, n: nat, ks: seq<Kernel>, acts: seq<Action>, i: nat)
    requires |ks| == |acts| + 1 && AnyRun(v, n, ks, acts) && i < |ks|
    ensures LiveOk(ks[i])
  {
    hide Enabled, Apply, LiveOk, Start;
    if i == 0 {
      StartLive(n, ks[0]);
    } else {
      hide AnyRun;
      LiveAlong(v, n, ks, acts, i - 1);
      AnyRunStep(v, n, ks, acts, i - 1);
      LiveStep(v, ks[i - 1], acts[i - 1], ks[i]);
    }
  }
}
