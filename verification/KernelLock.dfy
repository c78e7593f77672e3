/** What Mutex::lock can miss, and two runs in which the mutex goes wrong: one in which a thread falls
    asleep on a free mutex, and one in which unlock, as written, meets a waiter. */
module KernelLock {
  import opened Common
  import opened Pools
  import opened Sched
  import opened Timers
  import opened Kernel
  import opened KernelInv
  import opened KernelIrq
  import opened KernelSteps
  import opened KernelRuns
  import opened KernelSleep
  import opened KernelMutex

  // ---------------------------------------------------------------- who has locked a mutex last

  /** The action locks m, if it was free. */
  predicate Takes(k: Kernel, a: Action, m: nat) {
    a == TryLock(m) || (a.LockTake? && HasMe(k) && MyPc(k) == LockSawFree(m))
  }

  /** What an action does to a mutex. */
  lemma LockedStep(v: Version, k: Kernel, a: Action, m: nat)
    requires Enabled(k, a) && Apply(v, k, a).Ok?
    ensures m in Apply(v, k, a).value.locked <==> a != Unlock(m) && (m in k.locked || Takes(k, a, m))
  {
    hide Apply, Enabled;
    if a.Create? || a.Unlock? {
      UnlockStep(v, k, a, m);
    } else if Naming(a) {
      TakeStep(v, k, a, m);
    } else {
      if !ByThread(a) {
        InterruptNames(v, k, a);
      } else if Sleeps(a) {
        SleepNames(v, k, a);
      } else {
        QuietNames(v, k, a);
      }
    }
  }

  lemma UnlockStep(v: Version, k: Kernel, a: Action, m: nat)
    requires Enabled(k, a) && (a.Create? || a.Unlock?) && Apply(v, k, a).Ok?
    ensures m in Apply(v, k, a).value.locked <==> a != Unlock(m) && m in k.locked
  {
    hide CreateThread, WakeOneAsWritten, WakeOneIntended, Usable, Freeable;
  }

  lemma TakeStep(v: Version, k: Kernel, a: Action, m: nat)
    requires Enabled(k, a) && (a.LockTake? || a.TryLock?) && Apply(v, k, a).Ok?
    ensures m in Apply(v, k, a).value.locked <==> m in k.locked || Takes(k, a, m)
  {
    hide Usable, Freeable;
  }

  /** Of the actions from i on and before j, one unlocks m and none after it takes m. */
  ghost predicate FreedSince(ks: seq<Kernel>, acts: seq<Action>, i: nat, j: nat, m: nat) {
    j <= |acts| && j <= |ks| &&
    exists x :: i <= x < j && acts[x] == Unlock(m) && forall y :: x < y < j ==> !Takes(ks[y], acts[y], m)
  }

  lemma FreedStep(ks: seq<Kernel>, acts: seq<Action>, i: nat, j: nat, m: nat)
    requires i <= j < |acts| && j < |ks|
    ensures FreedSince(ks, acts, i, j + 1, m) <==>
      acts[j] == Unlock(m) || (FreedSince(ks, acts, i, j, m) && !Takes(ks[j], acts[j], m))
  {
    hide Takes;
    if x :| i <= x < j + 1 && acts[x] == Unlock(m) && forall y :: x < y < j + 1 ==> !Takes(ks[y], acts[y], m) {
      assert x < j ==> !Takes(ks[j], acts[j], m);
    }
  }

  /** From a state in which m is locked, m is free later on if and only if the last action that changed
      that is an unlock. */
  lemma {:induction false} FreeIff(v: Version, n: nat, ks: seq<Kernel>, acts: seq<Action>, i: nat, j: nat, m: nat)
    requires |ks| == |acts| + 1 && AnyRun(v, n, ks, acts) && i <= j < |ks| && m in ks[i].locked
    ensures m !in ks[j].locked <==> FreedSince(ks, acts, i, j, m)
    decreases j
  {
    hide AnyRun, Enabled, Apply, Takes;
    if i < j {
      hide FreedSince;
      AnyRunStep(v, n, ks, acts, j - 1);
      FreeIff(v, n, ks, acts, i, j - 1, m);
      LockedStep(v, ks[j - 1], acts[j - 1], m);
      FreedStep(ks, acts, i, j - 1, m);
      UnlockTakesNothing(ks[j - 1], acts[j - 1], m);
    }
  }

  lemma UnlockTakesNothing(k: Kernel, a: Action, m: nat)
    ensures a == Unlock(m) ==> !Takes(k, a, m)
  {
  }

  // ---------------------------------------------------------------- lock's missed wake-up

  /** Thread t takes no step of its own from i on and before j. */
  ghost predicate Idles(ks: seq<Kernel>, acts: seq<Action>, i: nat, j: nat, t: Tid) {
    j <= |acts| && j <= |ks| && forall x :: i <= x < j && ByThread(acts[x]) ==> HasMe(ks[x]) && Me(ks[x]) != t
  }

  lemma IdlesLess(ks: seq<Kernel>, acts: seq<Action>, i: nat, j: nat, t: Tid)
    requires Idles(ks, acts, i, j, t) && i < j
    ensures Idles(ks, acts, i, j - 1, t)
    ensures ByThread(acts[j - 1]) ==> HasMe(ks[j - 1]) && Me(ks[j - 1]) != t
  {
    hide ByThread, HasMe;
  }

  lemma StandsStill(v: Version, k: Kernel, a: Action, r: Kernel, t: Tid)
    requires Inv(k) && Enabled(k, a) && Apply(v, k, a) == Ok(r) && t in k.info
    requires ByThread(a) ==> HasMe(k) && Me(k) != t
    ensures t in r.info && r.info[t] == k.info[t]
  {
    hide Inv, Enabled, Apply;
    if ByThread(a) {
      OthersUntouched(v, k, a, t);
    } else {
      InterruptInfo(v, k, a, r);
    }
  }

  lemma {:induction false} StandsStillUntil(v: Version, n: nat, ks: seq<Kernel>, acts: seq<Action>, i: nat, j: nat, t: Tid)
    requires |ks| == |acts| + 1 && Run(v, n, ks, acts) && i <= j < |ks| && Idles(ks, acts, i, j, t) && t in ks[i].info
    ensures t in ks[j].info && ks[j].info[t] == ks[i].info[t]
    decreases j
  {
    hide Run, Inv, Enabled, Apply, HitsWakeOne, Idles, ByThread, HasMe;
    if i < j {
      IdlesLess(ks, acts, i, j, t);
      StandsStillUntil(v, n, ks, acts, i, j - 1, t);
      RunStep(v, n, ks, acts, j - 1);
      StandsStill(v, ks[j - 1], acts[j - 1], ks[j], t);
    }
  }

  lemma TestSeesHeld(v: Version, k: Kernel, r: Kernel, m: nat)
    requires HasMe(k) && Enabled(k, LockTest) && MyPc(k) == Locking(m) && m in k.locked && Apply(v, k, LockTest) == Ok(r)
    ensures Me(k) in r.info && r.info[Me(k)].pc == LockSawHeld(m) && m in r.locked
  {
  }

  lemma SleepsOnMutex(v: Version, k: Kernel, r: Kernel, m: nat)
    requires Inv(k) && HasMe(k) && Enabled(k, LockSleep) && MyPc(k) == LockSawHeld(m) && Apply(v, k, LockSleep) == Ok(r)
    ensures Asleep(r, Me(k)) && r.sched.threads[Me(k)].hook == Some(WaitList(MutexQ(m))) && r.locked == k.locked
  {
    hide Inv, Block, BestRuns, Usable, Freeable;
    var b := BlockKeeps(k, MutexQ(m), Locking(m));
  }

  lemma RunIsAny(v: Version, n: nat, ks: seq<Kernel>, acts: seq<Action>)
    requires Run(v, n, ks, acts)
    ensures |ks| == |acts| + 1 && AnyRun(v, n, ks, acts)
  {
    hide Start, Enabled, Apply, HitsWakeOne;
  }

  /** lock has seen m held, with interrupts on, and the thread's next own step goes to sleep on that. It
      falls asleep on a mutex that is free if and only if, of what happened in between, the last thing
      done to the mutex was to unlock it: that wake-up is lost. */
  lemma LockSleepsOnFreeMutexIff(v: Version, n: nat, ks: seq<Kernel>, acts: seq<Action>, i: nat, j: nat, m: nat)
    requires |ks| == |acts| + 1 && Run(v, n, ks, acts) && i < j < |acts|
    requires HasMe(ks[i]) && acts[i] == LockTest && MyPc(ks[i]) == Locking(m) && m in ks[i].locked
    requires HasMe(ks[j]) && acts[j] == LockSleep && Me(ks[j]) == Me(ks[i])
    requires Idles(ks, acts, i + 1, j, Me(ks[i]))
    ensures Asleep(ks[j + 1], Me(ks[i])) && ks[j + 1].sched.threads[Me(ks[i])].hook == Some(WaitList(MutexQ(m)))
    ensures m !in ks[j + 1].locked <==> FreedSince(ks, acts, i + 1, j, m)
  {
    hide Run, AnyRun, Inv, Enabled, Apply, HitsWakeOne, Idles, FreedSince, Asleep;
    RunIsAny(v, n, ks, acts);
    RunStep(v, n, ks, acts, i);
    TestSeesHeld(v, ks[i], ks[i + 1], m);
    StandsStillUntil(v, n, ks, acts, i + 1, j, Me(ks[i]));
    FreeIff(v, n, ks, acts, i + 1, j, m);
    RunStep(v, n, ks, acts, j);
    SleepsOnMutex(v, ks[j], ks[j + 1], m);
  }

  // ---------------------------------------------------------------- a thread of each priority

  /** The startup thread, thread u of priority 0 beside it, and what they are doing. */
  datatype Cast = Cast(current: Tid, wait1: Option<QueueId>, waitU: Option<QueueId>, pc1: Pc, pcU: Pc,
    locked: set<nat>, held: set<(nat, nat)>, active: set<EventId>)

  function Playing(priority: nat, wait: Option<QueueId>): Thread {
    if wait.Some? then Thread(Sleeping, priority, Some(WaitList(wait.value)))
    else Thread(Ready, priority, Some(ReadyList(priority)))
  }

  function Threads(u: Tid, c: Cast): map<Tid, Thread> {
    map[0 := Playing(2, None), 1 := Playing(1, c.wait1), u := Playing(0, c.waitU)]
  }

  ghost predicate Roles(k: Kernel, u: Tid, c: Cast) {
    && k.info.Keys == {0, 1, u} && k.info[1] == Info(c.pc1, 1) && k.info[u] == Info(c.pcU, 2)
    && k.locked == c.locked && k.held == c.held && k.active == c.active
  }

  ghost predicate Scene(k: Kernel, u: Tid, c: Cast) {
    Inv(k) && u > 1 && k.sched.threads == Threads(u, c) && k.sched.current == Some(c.current) && Roles(k, u, c)
  }

  function Runner(c: Cast, u: Tid): Tid {
    if c.waitU.None? then u else if c.wait1.None? then 1 else 0
  }

  function MovedTo(c: Cast, u: Tid, pc: Pc): Cast {
    if c.current == u then c.(pcU := pc) else c.(pc1 := pc)
  }

  function PcOf(c: Cast, u: Tid): Pc {
    if c.current == u then c.pcU else c.pc1
  }

  function SerialOf(c: Cast, u: Tid): nat {
    if c.current == u then 2 else 1
  }

  /** After a reschedule the best of them runs. */
  lemma BestOfTwo(k: Kernel, u: Tid, c: Cast)
    requires Inv(k) && u > 1 && BestRuns(k.sched)
    requires k.sched.threads == Threads(u, c)
    ensures k.sched.current == Some(Runner(c, u))
  {
    hide Inv, SchedOk;
    SchedKnown(k);
    var ts := k.sched.threads;
    assert ts[0] == Playing(2, None) && ts[1] == Playing(1, c.wait1) && ts[u] == Playing(0, c.waitU);
    assert k.sched.current.value in {0, 1, u};
    hide Threads;
  }

  lemma OnStage(k: Kernel, u: Tid, c: Cast)
    requires Scene(k, u, c) && c.current != 0
    ensures HasMe(k) && Me(k) == c.current && Me(k) != IDLE && (c.current == 1 || c.current == u)
    ensures MyPc(k) == PcOf(c, u) && MySerial(k) == SerialOf(c, u)
    ensures Inv(k) && u > 1 && k.locked == c.locked && k.held == c.held && k.active == c.active
  {
    MeKnown(k);
    hide Inv;
  }

  /** The steps that only move a thread's program point, and where to. */
  predicate Moves(from: Pc, c: Cast, a: Action, to: Pc) {
    match a
    case LockEnter(m) => from == User && to == Locking(m)
    case LockTest => from.Locking? && to == (if from.m in c.locked then LockSawHeld(from.m) else LockSawFree(from.m))
    case WaitTest(e) => from == User && e.Named? && e !in c.active && to == WaitTested(e)
    case WaitReturn => (from.SignalAsleep? || from.WaitAsleep?) && to == User
    case _ => false
  }

  lemma MovesAre(v: Version, k: Kernel, c: Cast, a: Action, pc: Pc)
    requires HasMe(k) && Me(k) != IDLE && k.locked == c.locked && k.active == c.active && Moves(MyPc(k), c, a, pc)
    ensures Enabled(k, a) && Apply(v, k, a) == Ok(At(k, pc)) && !HitsWakeOne(v, k, a)
  {
  }

  lemma PlainMove(from: Pc, c: Cast, a: Action, to: Pc)
    requires Moves(from, c, a, to)
    ensures MayLeave(from) && !to.SleepAsleep? && !to.CardAsleep? && forall i :: !Refers(to, Slot(i))
  {
  }

  lemma SceneMoved(k: Kernel, u: Tid, c: Cast, pc: Pc)
    requires Scene(k, u, c) && c.current != 0 && HasMe(k) && Inv(At(k, pc))
    ensures Scene(At(k, pc), u, MovedTo(c, u, pc))
  {
    OnStage(k, u, c);
    RolesMoved(k, u, c, pc);
    hide Inv, Roles;
  }

  lemma RolesMoved(k: Kernel, u: Tid, c: Cast, pc: Pc)
    requires Roles(k, u, c) && HasMe(k) && Me(k) == c.current && (c.current == 1 || c.current == u) && u > 1
    ensures Roles(At(k, pc), u, MovedTo(c, u, pc))
  {
    assert At(k, pc).info.Keys == k.info.Keys;
  }

  lemma MoveStep(v: Version, k: Kernel, u: Tid, c: Cast, a: Action, pc: Pc) returns (r: Kernel)
    requires Scene(k, u, c) && c.current != 0 && Moves(PcOf(c, u), c, a, pc)
    ensures Enabled(k, a) && !HitsWakeOne(v, k, a) && Apply(v, k, a) == Ok(r) && Scene(r, u, MovedTo(c, u, pc))
  {
    hide Inv, Enabled, Apply, HitsWakeOne, Scene;
    OnStage(k, u, c);
    MovesAre(v, k, c, a, pc);
    PlainMove(PcOf(c, u), c, a, pc);
    hide Moves, MovedTo, PcOf, Refers;
    r := AtKeeps(k, pc);
    SceneMoved(k, u, c, pc);
  }

  lemma TakeIs(v: Version, k: Kernel, m: nat)
    requires HasMe(k) && Me(k) != IDLE && MyPc(k) == LockSawFree(m) && m !in k.locked
    ensures Enabled(k, LockTake) && !HitsWakeOne(v, k, LockTake)
    ensures Apply(v, k, LockTake) == Ok(At(k, User).(locked := k.locked + {m}, held := k.held + {(MySerial(k), m)}))
  {
  }

  lemma TakeMutexStep(v: Version, k: Kernel, u: Tid, c: Cast, m: nat) returns (r: Kernel)
    requires Scene(k, u, c) && c.current != 0 && PcOf(c, u) == LockSawFree(m) && m !in c.locked
    ensures Enabled(k, LockTake) && !HitsWakeOne(v, k, LockTake) && Apply(v, k, LockTake) == Ok(r)
    ensures Scene(r, u, MovedTo(c, u, User).(locked := c.locked + {m}, held := c.held + {(SerialOf(c, u), m)}))
  {
    hide Inv, Enabled, Apply, HitsWakeOne;
    OnStage(k, u, c);
    TakeIs(v, k, m);
    r := LockTakeKeeps(k, m);
    RolesMoved(k, u, c, User);
    hide Threads, MovedTo, Runner;
    RolesLocked(At(k, User), r, u, MovedTo(c, u, User), c.locked + {m}, c.held + {(SerialOf(c, u), m)});
    hide Roles;
  }

  lemma RolesLocked(k: Kernel, r: Kernel, u: Tid, c: Cast, locked: set<nat>, held: set<(nat, nat)>)
    requires Roles(k, u, c) && r.info == k.info && r.locked == locked && r.held == held && r.active == k.active
    ensures Roles(r, u, c.(locked := locked, held := held))
  {
  }

  /** The cast after the running thread has fallen asleep. */
  function Gone(c: Cast, u: Tid, q: QueueId, pc: Pc): Cast {
    var d := if c.current == u then c.(waitU := Some(q), pcU := pc) else c.(wait1 := Some(q), pc1 := pc);
    d.(current := Runner(d, u))
  }

  predicate FallsAsleep(from: Pc, c: Cast, a: Action, q: QueueId, to: Pc) {
    match a
    case SignalWait(n) => from == User && q == SignalQ(n) && to == SignalAsleep(n)
    case LockSleep => from.LockSawHeld? && q == MutexQ(from.m) && to == Locking(from.m)
    case WaitSleep =>
      from.WaitTested? && from.e.Named? && from.e !in c.active && q == EventQ(from.e) && to == WaitAsleep(from.e)
    case _ => false
  }

  lemma SleepIs(v: Version, k: Kernel, c: Cast, a: Action, q: QueueId, pc: Pc)
    requires HasMe(k) && Me(k) != IDLE && k.active == c.active && FallsAsleep(MyPc(k), c, a, q, pc)
    ensures Enabled(k, a) && !HitsWakeOne(v, k, a) && Apply(v, k, a) == Block(k, q, pc)
    ensures MayLeave(MyPc(k)) && MaySleep(k, pc) && BlockedOn(pc) == Some(q)
  {
    hide Block;
  }

  lemma SceneSlept(k: Kernel, u: Tid, c: Cast, q: QueueId, pc: Pc, r: Kernel)
    requires Scene(k, u, c) && c.current != 0 && HasMe(k) && Me(k) in k.sched.threads
    requires Inv(r) && BestRuns(r.sched) && r == At(k, pc).(sched := r.sched)
    requires r.sched.threads == k.sched.threads[Me(k) := Thread(Sleeping, k.sched.threads[Me(k)].priority, Some(WaitList(q)))]
    ensures Scene(r, u, Gone(c, u, q, pc))
  {
    hide Inv, BestRuns, Threads, Playing;
    OnStage(k, u, c);
    RolesMoved(k, u, c, pc);
    hide Roles;
    var d := Gone(c, u, q, pc);
    OneSlept(k, u, c, q, pc, r);
    BestOfTwo(r, u, d);
    RolesStay(At(k, pc), r, u, MovedTo(c, u, pc), d);
  }

  lemma RolesStay(k: Kernel, r: Kernel, u: Tid, c: Cast, d: Cast)
    requires Roles(k, u, c) && r.info == k.info && r.locked == k.locked && r.held == k.held && r.active == k.active
    requires d.pc1 == c.pc1 && d.pcU == c.pcU && d.locked == c.locked && d.held == c.held && d.active == c.active
    ensures Roles(r, u, d)
  {
  }

  lemma OneSlept(k: Kernel, u: Tid, c: Cast, q: QueueId, pc: Pc, r: Kernel)
    requires Scene(k, u, c) && c.current in {1, u} && c.current in k.sched.threads
    requires r.sched.threads ==
      k.sched.threads[c.current := Thread(Sleeping, k.sched.threads[c.current].priority, Some(WaitList(q)))]
    ensures r.sched.threads == Threads(u, Gone(c, u, q, pc))
  {
    hide Inv;
  }

  lemma SleepStep(v: Version, k: Kernel, u: Tid, c: Cast, a: Action, q: QueueId, pc: Pc) returns (r: Kernel)
    requires Scene(k, u, c) && c.current != 0 && FallsAsleep(PcOf(c, u), c, a, q, pc)
    ensures Enabled(k, a) && !HitsWakeOne(v, k, a) && Apply(v, k, a) == Ok(r) && Scene(r, u, Gone(c, u, q, pc))
  {
    hide Inv, Enabled, Apply, HitsWakeOne, Block, BestRuns, Scene;
    OnStage(k, u, c);
    MeKnown(k);
    SleepIs(v, k, c, a, q, pc);
    r := BlockKeeps(k, q, pc);
    SceneSlept(k, u, c, q, pc, r);
  }

  const VSYNC_IRQ: Action := ExternalIrq(false, true, false, false)

  function Up(wait: Option<QueueId>): Option<QueueId> {
    if wait == Some(SignalQ(VSYNC)) then None else wait
  }

  /** The cast after a vertical-sync interrupt, which wakes whoever waits for it. */
  function Synced(c: Cast, u: Tid): Cast {
    var d := c.(wait1 := Up(c.wait1), waitU := Up(c.waitU));
    d.(current := Runner(d, u))
  }

  lemma VsyncStep(v: Version, k: Kernel, u: Tid, c: Cast) returns (r: Kernel)
    requires Scene(k, u, c)
    ensures Enabled(k, VSYNC_IRQ) && !HitsWakeOne(v, k, VSYNC_IRQ) && Apply(v, k, VSYNC_IRQ) == Ok(r)
    ensures Scene(r, u, Synced(c, u))
  {
    hide Inv, ExternalHandler, Resched, BestRuns, LoopEnds, Roles, Threads;
    var m := ExternalKeeps(k, false, true, false, false);
    r := ReschedKeeps(m);
    SyncIs(v, k, m, r);
    hide Apply, Enabled;
    AllSynced(k.sched.threads, r.sched.threads, u, c);
    BestOfTwo(r, u, Synced(c, u));
    RolesStay(k, r, u, c, Synced(c, u));
  }

  lemma SyncIs(v: Version, k: Kernel, m: Kernel, r: Kernel)
    requires ExternalHandler(k, false, true, false, false) == Ok(m) && Resched(m) == Ok(r)
    ensures Enabled(k, VSYNC_IRQ) && !HitsWakeOne(v, k, VSYNC_IRQ) && Apply(v, k, VSYNC_IRQ) == Ok(r)
  {
    hide ExternalHandler, Resched, LoopEnds;
  }

  lemma AllSynced(a: map<Tid, Thread>, b: map<Tid, Thread>, u: Tid, c: Cast)
    requires a == Threads(u, c) && u > 1 && WokenBy(a, b, ExternalQueues(false, true, false, false))
    ensures b == Threads(u, Synced(c, u))
  {
    assert ExternalQueues(false, true, false, false) == {SignalQ(VSYNC)};
    hide ExternalQueues;
    assert a[0] == Playing(2, None) && a[1] == Playing(1, c.wait1) && a[u] == Playing(0, c.waitU);
    assert b[0] == a[0] && b[1] == Playing(1, Up(c.wait1)) && b[u] == Playing(0, Up(c.waitU));
    hide WokenBy, Playing;
  }

  lemma NobodyOn(k: Kernel, u: Tid, c: Cast, m: nat)
    requires Scene(k, u, c) && c.wait1 != Some(MutexQ(m)) && c.waitU != Some(MutexQ(m))
    ensures k.sched.List(WaitList(MutexQ(m))) == []
  {
    SchedKnown(k);
    hide Inv, Running, Linked, AllHomed, IdleOk, PoolOk, Roles;
    if k.sched.List(WaitList(MutexQ(m))) != [] {
      var t := FrontOf(k.sched, WaitList(MutexQ(m)));
    }
  }

  lemma UnlockIs(v: Version, k: Kernel, m: nat)
    requires HasMe(k) && Me(k) != IDLE && MyPc(k) == User && (MySerial(k), m) in k.held
    requires k.sched.List(WaitList(MutexQ(m))) == []
    ensures Enabled(k, Unlock(m)) && !HitsWakeOne(v, k, Unlock(m))
    ensures Apply(v, k, Unlock(m)) == Ok(k.(locked := k.locked - {m}, held := k.held - {(MySerial(k), m)}))
  {
    NobodyToWake(k.sched, MutexQ(m));
    hide WakeOneAsWritten, WakeOneIntended;
  }

  lemma UnlockMutexStep(v: Version, k: Kernel, u: Tid, c: Cast, m: nat) returns (r: Kernel)
    requires Scene(k, u, c) && c.current != 0 && PcOf(c, u) == User && (SerialOf(c, u), m) in c.held
    requires c.wait1 != Some(MutexQ(m)) && c.waitU != Some(MutexQ(m))
    ensures Enabled(k, Unlock(m)) && !HitsWakeOne(v, k, Unlock(m)) && Apply(v, k, Unlock(m)) == Ok(r)
    ensures Scene(r, u, c.(locked := c.locked - {m}, held := c.held - {(SerialOf(c, u), m)}))
  {
    hide Inv, Enabled, Apply, HitsWakeOne, StepResult;
    OnStage(k, u, c);
    NobodyOn(k, u, c, m);
    UnlockIs(v, k, m);
    StepKeepsIff(v, k, Unlock(m));
    r := Apply(v, k, Unlock(m)).value;
    StepInv(v, k, Unlock(m), r);
    hide Threads;
    RolesLocked(k, r, u, c, c.locked - {m}, c.held - {(SerialOf(c, u), m)});
    hide Roles;
  }

  lemma StepInv(v: Version, k: Kernel, a: Action, r: Kernel)
    requires Enabled(k, a) && StepResult(v, k, a) && Apply(v, k, a) == Ok(r)
    ensures Inv(r)
  {
    hide Inv, Enabled, Apply;
  }

  // ---------------------------------------------------------------- the runs

  ghost predicate RunTo(v: Version, n: nat, ks: seq<Kernel>, acts: seq<Action>, k: Kernel) {
    Run(v, n, ks, acts) && ks[|acts|] == k
  }

  lemma Extend(v: Version, n: nat, ks: seq<Kernel>, acts: seq<Action>, k: Kernel, a: Action, r: Kernel) returns (ks': seq<Kernel>)
    requires RunTo(v, n, ks, acts, k) && Enabled(k, a) && !HitsWakeOne(v, k, a) && Apply(v, k, a) == Ok(r)
    ensures RunTo(v, n, ks', acts + [a], r) && ks' == ks + [r]
  {
    ks' := ks + [r];
    hide Start, Enabled, HitsWakeOne, Apply;
  }

  const AT_START: set<EventId> := {UART_TX, UART_RX}

  const OPENING := Cast(1, None, None, User, User, {}, {}, AT_START)

  lemma CreateIs(v: Version, k: Kernel, r: Kernel)
    requires HasMe(k) && Me(k) != IDLE && MyPc(k) == User && CreateThread(k.sched, true).Ok?
    requires ThreadStep(v, k, Create(true, false)) == Ok(r)
    ensures Enabled(k, Create(true, false)) && !HitsWakeOne(v, k, Create(true, false)) && Apply(v, k, Create(true, false)) == Ok(r)
    ensures r.sched == CreateThread(k.sched, true).value.0 && r.locked == k.locked && r.held == k.held && r.active == k.active
    ensures r.info == k.info[CreateThread(k.sched, true).value.1 := Info(User, k.serials)]
  {
    hide CreateThread;
  }

  lemma StartIs(n: nat) returns (k: Kernel)
    requires n >= 3
    ensures Start(n) == Ok(k) && Inv(k) && k.sched.current == Some(1) && k.serials == 2
    ensures k.locked == {} && k.held == {} && k.active == AT_START
    ensures k.info == map[0 := Info(User, 0), 1 := Info(User, 1)]
    ensures k.sched.threads == map[0 := Playing(2, None), 1 := Playing(1, None)] && k.sched.stacks.size == n
  {
    StartKeeps(n);
    BootKeeps(n);
    hide Boot, SchedOk, Running, Inv;
    k := Start(n).value;
  }

  /** With three stacks the startup thread can create a thread of priority 0. */
  lemma Opening(v: Version, n: nat) returns (u: Tid, ks: seq<Kernel>, k: Kernel)
    requires n >= 3
    ensures RunTo(v, n, ks, [Create(true, false)], k) && Scene(k, u, OPENING)
  {
    hide Inv, SchedOk, Running, CreateThread, Enabled, HitsWakeOne, Apply, Start, Scene, RunTo;
    var s := StartIs(n);
    SchedKnown(s);
    MeKnown(s);
    CreateThreadFailsIff(s.sched, true);
    assert 2 !in s.sched.threads;
    k := CreateKeeps(v, s, true, false);
    CreateIs(v, s, k);
    u := SceneOpens(s, k);
    FirstRun(v, n, s);
    ks := Extend(v, n, [s], [], s, Create(true, false), k);
    assert [] + [Create(true, false)] == [Create(true, false)];
  }

  lemma SceneOpens(s: Kernel, k: Kernel) returns (u: Tid)
    requires Inv(s) && Inv(k) && CreateThread(s.sched, true).Ok? && k.sched == CreateThread(s.sched, true).value.0
    requires s.sched.threads == map[0 := Playing(2, None), 1 := Playing(1, None)] && s.sched.current == Some(1)
    requires s.info == map[0 := Info(User, 0), 1 := Info(User, 1)]
    requires k.info == s.info[CreateThread(s.sched, true).value.1 := Info(User, 2)]
    requires k.locked == {} && k.held == {} && k.active == AT_START
    ensures Scene(k, u, OPENING)
  {
    hide Inv, SchedOk, Running, CreateThread;
    SchedKnown(s);
    CreateThreadFailsIff(s.sched, true);
    var made;
    made, u := CreateThreadKeeps(s.sched, true);
    assert 0 in s.sched.threads && 1 in s.sched.threads;
    assert k.info.Keys == {0, 1, u};
  }

  lemma FirstRun(v: Version, n: nat, k: Kernel)
    requires Start(n) == Ok(k)
    ensures RunTo(v, n, [k], [], k)
  {
    hide Start, Enabled, HitsWakeOne, Apply;
  }

  /** A run so far, and the scene it has come to. */
  datatype Take = Take(ks: seq<Kernel>, acts: seq<Action>, k: Kernel, c: Cast)

  ghost predicate Shot(v: Version, n: nat, u: Tid, t: Take) {
    RunTo(v, n, t.ks, t.acts, t.k) && Scene(t.k, u, t.c)
  }

  predicate Follows(t: Take, t': Take, a: Action) {
    t'.acts == t.acts + [a] && t'.ks == t.ks + [t'.k]
  }

  lemma Moved(v: Version, n: nat, u: Tid, t: Take, a: Action, pc: Pc) returns (t': Take)
    requires Shot(v, n, u, t) && t.c.current != 0 && Moves(PcOf(t.c, u), t.c, a, pc)
    ensures Shot(v, n, u, t') && Follows(t, t', a) && t'.c == MovedTo(t.c, u, pc)
  {
    hide Scene, RunTo, Enabled, Apply, HitsWakeOne;
    var r := MoveStep(v, t.k, u, t.c, a, pc);
    var ks := Extend(v, n, t.ks, t.acts, t.k, a, r);
    t' := Take(ks, t.acts + [a], r, MovedTo(t.c, u, pc));
  }

  lemma Took(v: Version, n: nat, u: Tid, t: Take, m: nat) returns (t': Take)
    requires Shot(v, n, u, t) && t.c.current != 0 && PcOf(t.c, u) == LockSawFree(m) && m !in t.c.locked
    ensures Shot(v, n, u, t') && Follows(t, t', LockTake)
    ensures t'.c == MovedTo(t.c, u, User).(locked := t.c.locked + {m}, held := t.c.held + {(SerialOf(t.c, u), m)})
  {
    hide Scene, RunTo, Enabled, Apply, HitsWakeOne;
    var r := TakeMutexStep(v, t.k, u, t.c, m);
    var ks := Extend(v, n, t.ks, t.acts, t.k, LockTake, r);
    t' := Take(ks, t.acts + [LockTake], r,
               MovedTo(t.c, u, User).(locked := t.c.locked + {m}, held := t.c.held + {(SerialOf(t.c, u), m)}));
  }

  lemma Slept(v: Version, n: nat, u: Tid, t: Take, a: Action, q: QueueId, pc: Pc) returns (t': Take)
    requires Shot(v, n, u, t) && t.c.current != 0 && FallsAsleep(PcOf(t.c, u), t.c, a, q, pc)
    ensures Shot(v, n, u, t') && Follows(t, t', a) && t'.c == Gone(t.c, u, q, pc)
  {
    hide Scene, RunTo, Enabled, Apply, HitsWakeOne;
    var r := SleepStep(v, t.k, u, t.c, a, q, pc);
    var ks := Extend(v, n, t.ks, t.acts, t.k, a, r);
    t' := Take(ks, t.acts + [a], r, Gone(t.c, u, q, pc));
  }

  lemma Interrupted(v: Version, n: nat, u: Tid, t: Take) returns (t': Take)
    requires Shot(v, n, u, t)
    ensures Shot(v, n, u, t') && Follows(t, t', VSYNC_IRQ) && t'.c == Synced(t.c, u)
  {
    hide Scene, RunTo, Enabled, Apply, HitsWakeOne;
    var r := VsyncStep(v, t.k, u, t.c);
    var ks := Extend(v, n, t.ks, t.acts, t.k, VSYNC_IRQ, r);
    t' := Take(ks, t.acts + [VSYNC_IRQ], r, Synced(t.c, u));
  }

  lemma Unlocked(v: Version, n: nat, u: Tid, t: Take, m: nat) returns (t': Take)
    requires Shot(v, n, u, t) && t.c.current != 0 && PcOf(t.c, u) == User && (SerialOf(t.c, u), m) in t.c.held
    requires t.c.wait1 != Some(MutexQ(m)) && t.c.waitU != Some(MutexQ(m))
    ensures Shot(v, n, u, t') && Follows(t, t', Unlock(m))
    ensures t'.c == t.c.(locked := t.c.locked - {m}, held := t.c.held - {(SerialOf(t.c, u), m)})
  {
    hide Scene, RunTo, Enabled, Apply, HitsWakeOne;
    var r := UnlockMutexStep(v, t.k, u, t.c, m);
    var ks := Extend(v, n, t.ks, t.acts, t.k, Unlock(m), r);
    t' := Take(ks, t.acts + [Unlock(m)], r, t.c.(locked := t.c.locked - {m}, held := t.c.held - {(SerialOf(t.c, u), m)}));
  }

  lemma Opened(v: Version, n: nat) returns (u: Tid, t: Take)
    requires n >= 3
    ensures u > 1 && Shot(v, n, u, t) && t.acts == [Create(true, false)] && t.c == OPENING
  {
    hide RunTo, Inv;
    var ks, k;
    u, ks, k := Opening(v, n);
    t := Take(ks, [Create(true, false)], k, OPENING);
  }

  /** The running thread, at User, locks the free mutex. */
  lemma LocksFree(v: Version, n: nat, u: Tid, t: Take, m: nat) returns (t': Take)
    requires Shot(v, n, u, t) && t.c.current != 0 && PcOf(t.c, u) == User && m !in t.c.locked
    ensures Shot(v, n, u, t') && t'.acts == t.acts + [LockEnter(m), LockTest, LockTake]
    ensures t'.c == MovedTo(t.c, u, User).(locked := t.c.locked + {m}, held := t.c.held + {(SerialOf(t.c, u), m)})
  {
    hide Shot;
    var t1 := Moved(v, n, u, t, LockEnter(m), Locking(m));
    var t2 := Moved(v, n, u, t1, LockTest, LockSawFree(m));
    t' := Took(v, n, u, t2, m);
  }

  /** The running thread, at User, sees the mutex held. */
  lemma SeesHeld(v: Version, n: nat, u: Tid, t: Take, m: nat) returns (t': Take)
    requires Shot(v, n, u, t) && t.c.current != 0 && PcOf(t.c, u) == User && m in t.c.locked
    ensures Shot(v, n, u, t') && t'.acts == t.acts + [LockEnter(m), LockTest] && t'.c == MovedTo(t.c, u, LockSawHeld(m))
  {
    hide Shot;
    var t1 := Moved(v, n, u, t, LockEnter(m), Locking(m));
    t' := Moved(v, n, u, t1, LockTest, LockSawHeld(m));
  }

  lemma HolderPreempted(v: Version, n: nat, m: nat) returns (u: Tid, t: Take)
    requires n >= 3
    ensures u > 1 && Shot(v, n, u, t)
    ensures t.acts == [Create(true, false), LockEnter(m), LockTest, LockTake, VSYNC_IRQ]
    ensures t.c == Cast(u, None, None, User, User, {m}, {(1, m)}, AT_START)
  {
    hide Shot;
    var t0;
    u, t0 := Opened(v, n);
    var t1 := LocksFree(v, n, u, t0, m);
    t := Interrupted(v, n, u, t1);
  }

  /** A run in which unlock, as written, meets a waiter: the startup thread takes the mutex, is preempted
      by a thread of higher priority, and that one falls asleep on it. */
  lemma UnlockMeetsWaiter(v: Version, n: nat, m: nat) returns (ks: seq<Kernel>, acts: seq<Action>)
    requires n >= 3
    ensures acts == [Create(true, false), LockEnter(m), LockTest, LockTake, VSYNC_IRQ, LockEnter(m), LockTest, LockSleep]
    ensures |ks| == 9 && Run(v, n, ks, acts) && Enabled(ks[8], Unlock(m)) && HitsWakeOne(AsWritten, ks[8], Unlock(m))
  {
    hide Shot;
    var u, t := WaiterQueued(v, n, m);
    ks, acts := t.ks, t.acts;
    HolderMeetsWaiter(v, n, u, t, m);
  }

  lemma WaiterQueued(v: Version, n: nat, m: nat) returns (u: Tid, t: Take)
    requires n >= 3
    ensures u > 1 && Shot(v, n, u, t)
    ensures t.acts == [Create(true, false), LockEnter(m), LockTest, LockTake, VSYNC_IRQ, LockEnter(m), LockTest, LockSleep]
    ensures t.c == Cast(1, None, Some(MutexQ(m)), User, Locking(m), {m}, {(1, m)}, AT_START)
  {
    hide Shot;
    var t2;
    u, t2 := HolderPreempted(v, n, m);
    var t3 := SeesHeld(v, n, u, t2, m);
    t := Slept(v, n, u, t3, LockSleep, MutexQ(m), Locking(m));
  }

  lemma HolderMeetsWaiter(v: Version, n: nat, u: Tid, t: Take, m: nat)
    requires Shot(v, n, u, t) && t.c == Cast(1, None, Some(MutexQ(m)), User, Locking(m), {m}, {(1, m)}, AT_START)
    ensures |t.ks| == |t.acts| + 1 && Run(v, n, t.ks, t.acts)
    ensures Enabled(t.ks[|t.acts|], Unlock(m)) && HitsWakeOne(AsWritten, t.ks[|t.acts|], Unlock(m))
  {
    hide Inv, Start, Apply, Enabled, HitsWakeOne, Scene;
    OnStage(t.k, u, t.c);
    Queued(t.k, u, t.c, MutexQ(m));
    MayUnlock(t.k, m);
  }

  lemma MayUnlock(k: Kernel, m: nat)
    requires HasMe(k) && Me(k) != IDLE && MyPc(k) == User && (MySerial(k), m) in k.held
    requires k.sched.List(WaitList(MutexQ(m))) != []
    ensures Enabled(k, Unlock(m)) && HitsWakeOne(AsWritten, k, Unlock(m))
  {
  }

  lemma Queued(k: Kernel, u: Tid, c: Cast, q: QueueId)
    requires Scene(k, u, c) && c.waitU == Some(q)
    ensures k.sched.List(WaitList(q)) != []
  {
    hide Inv, Running, AllHomed, IdleOk, PoolOk, Roles;
    SchedKnown(k);
    assert u in k.sched.threads && k.sched.threads[u] == Playing(0, c.waitU);
  }

  lemma HolderWaits(v: Version, n: nat, m: nat) returns (u: Tid, t: Take)
    requires n >= 3
    ensures u > 1 && Shot(v, n, u, t)
    ensures t.acts == [Create(true, false), VSYNC_IRQ, LockEnter(m), LockTest, LockTake, SignalWait(VSYNC), LockEnter(m), LockTest]
    ensures t.c == Cast(1, None, Some(SignalQ(VSYNC)), LockSawHeld(m), SignalAsleep(VSYNC), {m}, {(2, m)}, AT_START)
  {
    hide Shot;
    var t0;
    u, t0 := Opened(v, n);
    var t1 := Interrupted(v, n, u, t0);
    var t2 := LocksFree(v, n, u, t1, m);
    var t3 := Slept(v, n, u, t2, SignalWait(VSYNC), SignalQ(VSYNC), SignalAsleep(VSYNC));
    t := SeesHeld(v, n, u, t3, m);
  }

  /** A run in which lock falls asleep on a free mutex: the thread of higher priority holds it and waits
      for the display; the startup thread sees it held; the interrupt comes, the holder unlocks and waits
      again; and the startup thread goes to sleep on what it saw. */
  lemma LockSleepsOnFreeMutex(v: Version, n: nat, m: nat) returns (ks: seq<Kernel>, acts: seq<Action>)
    requires n >= 3
    ensures acts ==
      [Create(true, false), VSYNC_IRQ, LockEnter(m), LockTest, LockTake, SignalWait(VSYNC), LockEnter(m), LockTest]
      + [VSYNC_IRQ, WaitReturn, Unlock(m), SignalWait(VSYNC)] + [LockSleep]
    ensures |ks| == 14 && Run(v, n, ks, acts)
    ensures Asleep(ks[13], 1) && ks[13].sched.threads[1].hook == Some(WaitList(MutexQ(m))) && m !in ks[13].locked
  {
    hide Shot;
    var u, t4 := HolderWaits(v, n, m);
    var t8 := HolderUnlocks(v, n, u, t4, m);
    var t9 := Slept(v, n, u, t8, LockSleep, MutexQ(m), Locking(m));
    ks, acts := t9.ks, t9.acts;
    SleepsOnFree(v, n, u, t9, m);
  }

  lemma HolderUnlocks(v: Version, n: nat, u: Tid, t: Take, m: nat) returns (t': Take)
    requires u > 1 && Shot(v, n, u, t)
    requires t.c == Cast(1, None, Some(SignalQ(VSYNC)), LockSawHeld(m), SignalAsleep(VSYNC), {m}, {(2, m)}, AT_START)
    ensures Shot(v, n, u, t') && t'.acts == t.acts + [VSYNC_IRQ, WaitReturn, Unlock(m), SignalWait(VSYNC)]
    ensures t'.c == Cast(1, None, Some(SignalQ(VSYNC)), LockSawHeld(m), SignalAsleep(VSYNC), {}, {}, AT_START)
  {
    hide Shot;
    var t5 := Interrupted(v, n, u, t);
    var t6 := Moved(v, n, u, t5, WaitReturn, User);
    var t7 := Unlocked(v, n, u, t6, m);
    t' := Slept(v, n, u, t7, SignalWait(VSYNC), SignalQ(VSYNC), SignalAsleep(VSYNC));
  }

  lemma SleepsOnFree(v: Version, n: nat, u: Tid, t: Take, m: nat)
    requires Shot(v, n, u, t) && t.c.wait1 == Some(MutexQ(m)) && m !in t.c.locked
    ensures |t.ks| == |t.acts| + 1 && Run(v, n, t.ks, t.acts)
    ensures var k := t.ks[|t.acts|];
      Asleep(k, 1) && k.sched.threads[1].hook == Some(WaitList(MutexQ(m))) && m !in k.locked
  {
    hide Inv, Start, Apply, Enabled, HitsWakeOne;
    assert 1 in t.k.sched.threads && t.k.sched.threads[1] == Playing(1, t.c.wait1);
  }
}
