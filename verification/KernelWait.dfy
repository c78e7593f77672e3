/** A run in which Event::wait returns although the event has been unset all the time: the setter had
    stored _active, and was preempted before it woke the waiters, and then the event was cleared. */
module KernelWait {
  import opened Common
  import opened Sched
  import opened Kernel
  import opened KernelInv
  import opened KernelSteps
  import opened KernelRuns
  import opened KernelLock
  import opened KernelCalls

  // ---------------------------------------------------------------- the setter's steps

  lemma StoreIs(v: Version, k: Kernel, e: EventId)
    requires HasMe(k) && Me(k) != IDLE && MyPc(k) == User && e.Named?
    ensures Enabled(k, SetStore(e)) && !HitsWakeOne(v, k, SetStore(e))
    ensures Apply(v, k, SetStore(e)) == Ok(At(k, SetStored(e)).(active := k.active + {e}))
  {
  }

  lemma StoreStep(v: Version, k: Kernel, u: Tid, c: Cast, e: EventId) returns (r: Kernel)
    requires Scene(k, u, c) && c.current != 0 && PcOf(c, u) == User && e.Named?
    ensures Enabled(k, SetStore(e)) && !HitsWakeOne(v, k, SetStore(e)) && Apply(v, k, SetStore(e)) == Ok(r)
    ensures Scene(r, u, MovedTo(c, u, SetStored(e)).(active := c.active + {e}))
  {
    hide Inv, Enabled, Apply, HitsWakeOne;
    OnStage(k, u, c);
    StoreIs(v, k, e);
    r := SetStoreKeeps(k, e);
    RolesMoved(k, u, c, SetStored(e));
    hide Threads, MovedTo;
    RolesActive(At(k, SetStored(e)), r, u, MovedTo(c, u, SetStored(e)), c.active + {e});
    hide Roles;
    SameStage(c, u, SetStored(e));
  }

  lemma SameStage(c: Cast, u: Tid, pc: Pc)
    ensures MovedTo(c, u, pc).current == c.current && Threads(u, MovedTo(c, u, pc)) == Threads(u, c)
    ensures forall active :: Threads(u, MovedTo(c, u, pc).(active := active)) == Threads(u, c)
  {
  }

  lemma RolesActive(k: Kernel, r: Kernel, u: Tid, c: Cast, active: set<EventId>)
    requires Roles(k, u, c) && r.info == k.info && r.locked == k.locked && r.held == k.held && r.active == active
    ensures Roles(r, u, c.(active := active))
  {
  }

  lemma ClearIs(v: Version, k: Kernel, e: EventId)
    requires HasMe(k) && Me(k) != IDLE && MyPc(k) == User && e.Named?
    ensures Enabled(k, Clear(e)) && !HitsWakeOne(v, k, Clear(e)) && Apply(v, k, Clear(e)) == Ok(k.(active := k.active - {e}))
  {
  }

  lemma ClearStep(v: Version, k: Kernel, u: Tid, c: Cast, e: EventId) returns (r: Kernel)
    requires Scene(k, u, c) && c.current != 0 && PcOf(c, u) == User && e.Named?
    ensures Enabled(k, Clear(e)) && !HitsWakeOne(v, k, Clear(e)) && Apply(v, k, Clear(e)) == Ok(r)
    ensures Scene(r, u, c.(active := c.active - {e}))
  {
    hide Inv, Enabled, Apply, HitsWakeOne;
    OnStage(k, u, c);
    ClearIs(v, k, e);
    r := ClearKeeps(k, e);
    RolesActive(k, r, u, c, c.active - {e});
    hide Roles;
  }

  lemma WakeIs(v: Version, k: Kernel, e: EventId, r: Kernel)
    requires HasMe(k) && Me(k) != IDLE && MyPc(k) == SetStored(e) && Wake(At(k, User), EventQ(e)) == Ok(r)
    ensures Enabled(k, SetWake) && !HitsWakeOne(v, k, SetWake) && Apply(v, k, SetWake) == Ok(r)
  {
    hide Wake;
  }

  function Awake(wait: Option<QueueId>, e: EventId): Option<QueueId> {
    if wait == Some(EventQ(e)) then None else wait
  }

  /** The cast after the setter has woken the waiters. */
  function WokenUp(c: Cast, u: Tid, e: EventId): Cast {
    MovedTo(c, u, User).(wait1 := Awake(c.wait1, e), waitU := Awake(c.waitU, e))
  }

  lemma WakeStep(v: Version, k: Kernel, u: Tid, c: Cast, e: EventId) returns (r: Kernel)
    requires Scene(k, u, c) && c.current != 0 && PcOf(c, u) == SetStored(e)
    ensures Enabled(k, SetWake) && !HitsWakeOne(v, k, SetWake) && Apply(v, k, SetWake) == Ok(r)
    ensures Scene(r, u, WokenUp(c, u, e))
  {
    hide Inv, Enabled, Apply, HitsWakeOne, Wake, WokenBy;
    OnStage(k, u, c);
    r := SetWakeKeeps(k);
    WakeIs(v, k, e, r);
    RolesMoved(k, u, c, User);
    hide Roles;
    AllWoken(k.sched.threads, r.sched.threads, u, c, e);
    RolesStay(At(k, User), r, u, MovedTo(c, u, User), WokenUp(c, u, e));
    hide Threads;
  }

  lemma AllWoken(a: map<Tid, Thread>, b: map<Tid, Thread>, u: Tid, c: Cast, e: EventId)
    requires a == Threads(u, c) && u > 1 && WokenBy(a, b, {EventQ(e)})
    ensures b == Threads(u, WokenUp(c, u, e))
  {
    assert a[0] == Playing(2, None) && a[1] == Playing(1, c.wait1) && a[u] == Playing(0, c.waitU);
    assert b[0] == a[0] && b[1] == Playing(1, Awake(c.wait1, e)) && b[u] == Playing(0, Awake(c.waitU, e));
    hide WokenBy, Playing;
  }

  // ---------------------------------------------------------------- the run

  lemma Stored(v: Version, n: nat, u: Tid, t: Take, e: EventId) returns (t': Take)
    requires Shot(v, n, u, t) && t.c.current != 0 && PcOf(t.c, u) == User && e.Named?
    ensures Shot(v, n, u, t') && Follows(t, t', SetStore(e))
    ensures t'.c == MovedTo(t.c, u, SetStored(e)).(active := t.c.active + {e})
  {
    hide Scene, RunTo, Enabled, Apply, HitsWakeOne;
    var r := StoreStep(v, t.k, u, t.c, e);
    var ks := Extend(v, n, t.ks, t.acts, t.k, SetStore(e), r);
    t' := Take(ks, t.acts + [SetStore(e)], r, MovedTo(t.c, u, SetStored(e)).(active := t.c.active + {e}));
  }

  lemma Cleared(v: Version, n: nat, u: Tid, t: Take, e: EventId) returns (t': Take)
    requires Shot(v, n, u, t) && t.c.current != 0 && PcOf(t.c, u) == User && e.Named?
    ensures Shot(v, n, u, t') && Follows(t, t', Clear(e)) && t'.c == t.c.(active := t.c.active - {e})
  {
    hide Scene, RunTo, Enabled, Apply, HitsWakeOne;
    var r := ClearStep(v, t.k, u, t.c, e);
    var ks := Extend(v, n, t.ks, t.acts, t.k, Clear(e), r);
    t' := Take(ks, t.acts + [Clear(e)], r, t.c.(active := t.c.active - {e}));
  }

  lemma Woke(v: Version, n: nat, u: Tid, t: Take, e: EventId) returns (t': Take)
    requires Shot(v, n, u, t) && t.c.current != 0 && PcOf(t.c, u) == SetStored(e)
    ensures Shot(v, n, u, t') && Follows(t, t', SetWake) && t'.c == WokenUp(t.c, u, e)
  {
    hide Scene, RunTo, Enabled, Apply, HitsWakeOne;
    var r := WakeStep(v, t.k, u, t.c, e);
    var ks := Extend(v, n, t.ks, t.acts, t.k, SetWake, r);
    t' := Take(ks, t.acts + [SetWake], r, WokenUp(t.c, u, e));
  }

  /** What a take shows of thread u. */
  lemma Shown(v: Version, n: nat, u: Tid, t: Take)
    requires Shot(v, n, u, t)
    ensures |t.ks| == |t.acts| + 1 && t.ks[|t.acts|] == t.k
    ensures u in t.k.info && t.k.info[u].pc == t.c.pcU && t.k.active == t.c.active
    ensures t.c.current == u ==> HasMe(t.k) && Me(t.k) == u
  {
    hide Start, Enabled, Apply, HitsWakeOne, Inv, Threads;
  }

  /** The setter has stored the event, and thread u has been given the processor and cleared it. */
  lemma ClearedTooSoon(v: Version, n: nat, e: EventId) returns (u: Tid, t: Take)
    requires n >= 3 && e.Named?
    ensures u > 1 && Shot(v, n, u, t)
    ensures t.acts == [Create(true, false), SetStore(e), VSYNC_IRQ, Clear(e)]
    ensures t.c == Cast(u, None, None, SetStored(e), User, {}, {}, AT_START + {e} - {e})
  {
    hide Shot;
    var t0;
    u, t0 := Opened(v, n);
    var t1 := Stored(v, n, u, t0, e);
    var t2 := Interrupted(v, n, u, t1);
    t := Cleared(v, n, u, t2, e);
  }

  /** Thread u is inside wait(e), or just out of it, in the take; the event is unset. */
  ghost predicate InWait(t: Take, u: Tid, e: EventId) {
    u in t.k.info && t.k.info[u].pc == t.c.pcU && e !in t.k.active
  }

  lemma Appears(v: Version, n: nat, u: Tid, t: Take, e: EventId)
    requires Shot(v, n, u, t) && e !in t.c.active
    ensures InWait(t, u, e)
  {
    hide Shot;
    Shown(v, n, u, t);
  }

  /** wait(e) can return with e unset from the call to the return: WaitReturnsSet needs its condition. */
  lemma WaitReturnsUnset(v: Version, n: nat, e: EventId) returns (ks: seq<Kernel>, acts: seq<Action>, u: Tid)
    requires n >= 3 && e.Named?
    ensures acts == [Create(true, false), SetStore(e), VSYNC_IRQ, Clear(e)] + [WaitTest(e), WaitSleep, SetWake, VSYNC_IRQ, WaitReturn]
    ensures |ks| == 10 && Run(v, n, ks, acts) && Call(ks, acts, 4, 9, u, WaitTest(e))
    ensures Setting(ks[4], e) && forall x :: 4 <= x <= 9 ==> e !in ks[x].active
  {
    hide Shot, InWait;
    var t3;
    u, t3 := ClearedTooSoon(v, n, e);
    var t4 := Moved(v, n, u, t3, WaitTest(e), WaitTested(e));
    var t5 := Slept(v, n, u, t4, WaitSleep, EventQ(e), WaitAsleep(e));
    var t6 := Woke(v, n, u, t5, e);
    var t7 := Interrupted(v, n, u, t6);
    var t8 := Moved(v, n, u, t7, WaitReturn, User);
    Appears(v, n, u, t3, e);
    Appears(v, n, u, t4, e);
    Appears(v, n, u, t5, e);
    Appears(v, n, u, t6, e);
    Appears(v, n, u, t7, e);
    Appears(v, n, u, t8, e);
    Shown(v, n, u, t3);
    ks, acts := t8.ks, t8.acts;
    RunOf(v, n, u, t8);
    StoredStill(v, n, u, t3, e);
    Reels(t3, t4, t5, t6, t7, t8, e);
    Assembled(ks, acts, u, e, t3, t4, t5, t6, t7, t8);
  }

  lemma RunOf(v: Version, n: nat, u: Tid, t: Take)
    requires Shot(v, n, u, t)
    ensures |t.ks| == |t.acts| + 1 && Run(v, n, t.ks, t.acts)
  {
    hide Scene, Start, Enabled, Apply, HitsWakeOne;
  }

  lemma StoredStill(v: Version, n: nat, u: Tid, t: Take, e: EventId)
    requires Shot(v, n, u, t) && t.c.pc1 == SetStored(e)
    ensures Setting(t.k, e)
  {
    hide Inv, RunTo, Threads;
    assert 1 in t.k.info && t.k.info[1].pc == SetStored(e);
  }

  /** The last six states and five actions of the run. */
  lemma Reels(t3: Take, t4: Take, t5: Take, t6: Take, t7: Take, t8: Take, e: EventId)
    requires |t3.acts| == 4 && |t3.ks| == 5 && t3.ks[4] == t3.k
    requires Follows(t3, t4, WaitTest(e)) && Follows(t4, t5, WaitSleep) && Follows(t5, t6, SetWake)
    requires Follows(t6, t7, VSYNC_IRQ) && Follows(t7, t8, WaitReturn)
    ensures |t8.ks| == 10 && t8.ks[4] == t3.k && t8.ks[5] == t4.k && t8.ks[6] == t5.k && t8.ks[7] == t6.k
    ensures t8.ks[8] == t7.k && t8.ks[9] == t8.k
    ensures t8.acts == t3.acts + [WaitTest(e), WaitSleep, SetWake, VSYNC_IRQ, WaitReturn] && t8.acts[4] == WaitTest(e)
  {
  }

  lemma Assembled(ks: seq<Kernel>, acts: seq<Action>, u: Tid, e: EventId, t3: Take, t4: Take, t5: Take, t6: Take, t7: Take, t8: Take)
    requires |ks| == 10 && |acts| == 9 && acts[4] == WaitTest(e) && ks[4] == t3.k && ks[5] == t4.k && ks[6] == t5.k
    requires ks[7] == t6.k && ks[8] == t7.k && ks[9] == t8.k
    requires InWait(t3, u, e) && InWait(t4, u, e) && InWait(t5, u, e) && InWait(t6, u, e) && InWait(t7, u, e) && InWait(t8, u, e)
    requires t4.c.pcU == WaitTested(e) && t5.c.pcU == WaitAsleep(e) && t6.c.pcU == WaitAsleep(e) && t7.c.pcU == WaitAsleep(e)
    requires t8.c.pcU == User && HasMe(t3.k) && Me(t3.k) == u
    ensures Call(ks, acts, 4, 9, u, WaitTest(e))
    ensures forall x :: 4 <= x <= 9 ==> e !in ks[x].active
  {
    hide HasMe;
  }
}
