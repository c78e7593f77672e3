/** What holds in every reachable state of the kernel, and that every action keeps it. */
module KernelInv {
  import opened Common
  import opened Pools
  import opened Sched
  import opened Timers
  import opened Kernel

  // ---------------------------------------------------------------- the invariant

  /** The queue a thread at this point is waiting on, if it is asleep. */
  function BlockedOn(pc: Pc): Option<QueueId> {
    match pc
    case WaitAsleep(e) => Some(EventQ(e))
    case SignalAsleep(n) => Some(SignalQ(n))
    case SleepAsleep(slot, _, _, _) => Some(EventQ(Slot(slot)))
    case Locking(m) => Some(MutexQ(m))
    case DataWait => Some(DataIdleQ)
    case CardAsleep => Some(CardQ)
    case _ => None
  }

  predicate Asleep(k: Kernel, t: Tid) {
    t in k.sched.threads && k.sched.threads[t].state == Sleeping
  }

  /** Every live thread has a program point and a name of its own; a sleeping one is on the queue
      its program point says. */
  ghost predicate InfoOk(k: Kernel) {
    && k.info.Keys == k.sched.threads.Keys
    && (forall t :: t in k.info ==> k.info[t].serial < k.serials)
    && (forall t, u :: t in k.info && u in k.info && t != u ==> k.info[t].serial != k.info[u].serial)
    && (forall t :: t in k.info && Asleep(k, t) ==>
          BlockedOn(k.info[t].pc).Some? && k.sched.threads[t].hook == Some(WaitList(BlockedOn(k.info[t].pc).value)))
  }

  /** Some setter is between storing _active and waking the waiters. */
  ghost predicate Setting(k: Kernel, e: EventId) {
    exists t :: t in k.info && k.info[t].pc == SetStored(e)
  }

  /** No wake-up of an event is lost. */
  ghost predicate EventsOk(k: Kernel) {
    forall t, e :: t in k.info && k.info[t].pc == WaitAsleep(e) && Asleep(k, t) ==> e !in k.active || Setting(k, e)
  }

  /** The event of a sleep_ns call in the timer queue. */
  ghost predicate Pending(k: Kernel, pc: Pc) {
    pc.SleepAsleep? && exists e :: e in k.timers.queue && IsTimerOf(e, pc)
  }

  predicate IsTimerOf(e: TimerEvent, pc: Pc)
    requires pc.SleepAsleep?
  {
    e.slot == pc.slot && e.repeat == 0 && e.wake == Deadline(pc.start, pc.ns, pc.freq)
  }

  /** A thread in sleep_ns owns its timer slot; while it is blocked its event is unset and pending,
      and once it has been woken the event is in the queue no more. */
  ghost predicate SleepersOk(k: Kernel) {
    && (forall t :: t in k.info && k.info[t].pc.SleepAsleep? ==>
          && k.info[t].pc.slot in k.owner && k.owner[k.info[t].pc.slot] == Sleeper(t)
          && (Asleep(k, t) ==> Slot(k.info[t].pc.slot) !in k.active && Pending(k, k.info[t].pc))
          && (!Asleep(k, t) ==> !HasSlot(k.timers.queue, k.info[t].pc.slot)))
    && (forall i :: i in k.owner && k.owner[i].Sleeper? ==>
          k.owner[i].thread in k.info && k.info[k.owner[i].thread].pc.SleepAsleep?
          && k.info[k.owner[i].thread].pc.slot == i)
  }

  /** Only events held through a handle are waited on, set or cleared by program. */
  ghost predicate RefsOk(k: Kernel) {
    forall t, i :: t in k.info && Refers(k.info[t].pc, Slot(i)) ==> i in k.owner && k.owner[i] == Handle
  }

  /** Timer slots: the live ones are the owned ones, and only those are queued. */
  ghost predicate SlotsOk(timers: Timers, owned: set<nat>) {
    && TimersOk(timers)
    && PoolOk(timers.pool, owned) && timers.pool.size == MAX_TIMERS
    && (forall i :: HasSlot(timers.queue, i) ==> i in owned)
  }

  /** A mutex is locked exactly when a thread holds it, and then one does. */
  ghost predicate MutexOk(held: set<(nat, nat)>, locked: set<nat>, serials: nat) {
    && (forall n, m :: (n, m) in held ==> m in locked && n < serials)
    && (forall m :: m in locked ==> exists n :: (n, m) in held)
    && (forall n, n', m :: (n, m) in held && (n', m) in held ==> n == n')
  }

  /** Whoever sleeps for a masked interrupt has it unmasked. Only the SD thread waits for cards. */
  ghost predicate MasksOk(k: Kernel) {
    && (k.sdThread.Some? ==> k.sdThread.value < k.serials)
    && (forall t :: t in k.info && Asleep(k, t) && k.info[t].pc == DataWait ==> !k.dataMasked)
    && (forall t :: t in k.info && k.info[t].pc == CardAsleep ==> k.sdThread == Some(k.info[t].serial))
    && (forall t :: t in k.info && Asleep(k, t) && k.info[t].pc == CardAsleep ==> !k.cardMasked)
  }

  ghost predicate ThreadsOk(s: Sched) {
    SchedOk(s) && Running(s)
  }

  ghost predicate Inv(k: Kernel) {
    && ThreadsOk(k.sched) && InfoOk(k) && EventsOk(k) && SleepersOk(k) && RefsOk(k)
    && SlotsOk(k.timers, k.owner.Keys) && MutexOk(k.held, k.locked, k.serials) && MasksOk(k)
  }

  // ---------------------------------------------------------------- pieces of actions

  lemma MeIsReady(k: Kernel)
    requires ThreadsOk(k.sched) && InfoOk(k)
    ensures HasMe(k) && Me(k) in k.sched.threads && !Asleep(k, Me(k))
  {
  }

  /** Points a thread can leave without a further duty. */
  predicate MayLeave(pc: Pc) {
    !pc.SetStored? && !pc.SleepAsleep?
  }

  /** Between k and r only thread c has moved. */
  ghost predicate OnlyMoves(k: Kernel, r: Kernel, c: Tid) {
    && c in k.info && k.info.Keys == r.info.Keys && k.sched.threads.Keys == r.sched.threads.Keys
    && r.info[c].serial == k.info[c].serial && r.serials == k.serials
    && (forall t :: t in k.info && t != c ==> r.info[t] == k.info[t] && (Asleep(r, t) <==> Asleep(k, t)))
    && (forall t :: t in k.sched.threads && t != c ==> r.sched.threads[t] == k.sched.threads[t])
  }

  predicate AsleepAsSaid(r: Kernel, c: Tid) {
    c in r.info && c in r.sched.threads && (Asleep(r, c) ==>
      BlockedOn(r.info[c].pc).Some? && r.sched.threads[c].hook == Some(WaitList(BlockedOn(r.info[c].pc).value)))
  }

  lemma InfoMoves(k: Kernel, r: Kernel, c: Tid)
    requires InfoOk(k) && OnlyMoves(k, r, c) && AsleepAsSaid(r, c)
    ensures InfoOk(r)
  {
    hide BlockedOn, Asleep;
  }

  lemma EventsMoves(k: Kernel, r: Kernel, c: Tid)
    requires EventsOk(k) && OnlyMoves(k, r, c) && r.active == k.active && !k.info[c].pc.SetStored?
    requires Asleep(r, c) && r.info[c].pc.WaitAsleep? ==> r.info[c].pc.e !in r.active
    ensures EventsOk(r)
  {
    forall e | Setting(k, e) ensures Setting(r, e) {
      var t :| t in k.info && k.info[t].pc == SetStored(e);
      assert r.info[t].pc == SetStored(e);
    }
    hide Asleep, Setting;
  }

  lemma PendingSame(k: Kernel, r: Kernel, pc: Pc)
    requires r.timers.queue == k.timers.queue
    ensures Pending(r, pc) == Pending(k, pc)
  {
    hide IsTimerOf;
  }

  lemma SleepersMoves(k: Kernel, r: Kernel, c: Tid)
    requires SleepersOk(k) && OnlyMoves(k, r, c)
    requires r.active == k.active && r.timers == k.timers && r.owner == k.owner
    requires !k.info[c].pc.SleepAsleep? && !r.info[c].pc.SleepAsleep?
    ensures SleepersOk(r)
  {
    forall pc ensures Pending(r, pc) == Pending(k, pc) {
      PendingSame(k, r, pc);
    }
    hide Asleep, Pending, HasSlot;
  }

  lemma RefsMoves(k: Kernel, r: Kernel, c: Tid)
    requires RefsOk(k) && OnlyMoves(k, r, c) && r.owner == k.owner
    requires forall i :: Refers(r.info[c].pc, Slot(i)) ==> i in k.owner && k.owner[i] == Handle
    ensures RefsOk(r)
  {
    hide Asleep, Refers;
  }

  lemma MasksMoves(k: Kernel, r: Kernel, c: Tid)
    requires MasksOk(k) && OnlyMoves(k, r, c)
    requires r.sdThread == k.sdThread && r.dataMasked == k.dataMasked && r.cardMasked == k.cardMasked
    requires Asleep(r, c) && r.info[c].pc == DataWait ==> !r.dataMasked
    requires r.info[c].pc == CardAsleep ==> r.sdThread == Some(r.info[c].serial) && !r.cardMasked
    ensures MasksOk(r)
  {
    hide Asleep;
  }

  lemma AtMoves(k: Kernel, pc: Pc) returns (r: Kernel)
    requires ThreadsOk(k.sched) && InfoOk(k) && HasMe(k)
    ensures r == At(k, pc) && OnlyMoves(k, r, Me(k)) && !Asleep(r, Me(k)) && AsleepAsSaid(r, Me(k))
  {
    hide ThreadsOk, InfoOk, BlockedOn;
    MeIsReady(k);
    r := At(k, pc);
  }

  /** The running thread moves on to another point, at which it is not asleep. */
  lemma AtKeeps(k: Kernel, pc: Pc) returns (r: Kernel)
    requires Inv(k) && HasMe(k) && MayLeave(MyPc(k)) && !pc.SleepAsleep? && !pc.CardAsleep?
    requires forall i :: Refers(pc, Slot(i)) ==> i in k.owner && k.owner[i] == Handle
    ensures r == At(k, pc) && Inv(r)
  {
    hide ThreadsOk, SlotsOk, MutexOk, InfoOk, EventsOk, SleepersOk, RefsOk, MasksOk, OnlyMoves, Asleep, AsleepAsSaid;
    r := AtMoves(k, pc);
    var c := Me(k);
    InfoMoves(k, r, c);
    EventsMoves(k, r, c);
    SleepersMoves(k, r, c);
    RefsMoves(k, r, c);
    MasksMoves(k, r, c);
  }

  // -------- sleeping

  /** The event must be unset, and the interrupt unmasked, for a thread to go to sleep. */
  predicate MaySleep(k: Kernel, pc: Pc)
    requires HasMe(k)
  {
    match pc
    case WaitAsleep(e) => e !in k.active && (e.Slot? ==> e.slot in k.owner && k.owner[e.slot] == Handle)
    case DataWait => !k.dataMasked
    case CardAsleep => !k.cardMasked && k.sdThread == Some(MySerial(k))
    case SignalAsleep(_) => true
    case Locking(_) => true
    case _ => false
  }

  lemma BlockMoves(k: Kernel, q: QueueId, pc: Pc) returns (r: Kernel)
    requires ThreadsOk(k.sched) && InfoOk(k) && HasMe(k) && Me(k) != IDLE && BlockedOn(pc) == Some(q)
    ensures Block(k, q, pc) == Ok(r) && ThreadsOk(r.sched) && BestRuns(r.sched)
    ensures r == At(k, pc).(sched := r.sched) && OnlyMoves(k, r, Me(k))
    ensures Asleep(r, Me(k)) && AsleepAsSaid(r, Me(k))
    ensures r.sched.threads == k.sched.threads[Me(k) := Thread(Sleeping, k.sched.threads[Me(k)].priority, Some(WaitList(q)))]
  {
    hide SchedOk, BestRuns, SleepOn, InfoOk, Running;
    MeIsReady(k);
    var s := SleepOnKeeps(k.sched, q);
    r := At(k, pc).(sched := s);
    MovedOnly(k, r, pc, q);
  }

  lemma MovedOnly(k: Kernel, r: Kernel, pc: Pc, q: QueueId)
    requires InfoOk(k) && HasMe(k) && Me(k) in k.sched.threads && BlockedOn(pc) == Some(q) && r == At(k, pc).(sched := r.sched)
    requires r.sched.threads == k.sched.threads[Me(k) := Thread(Sleeping, k.sched.threads[Me(k)].priority, Some(WaitList(q)))]
    ensures OnlyMoves(k, r, Me(k)) && Asleep(r, Me(k)) && AsleepAsSaid(r, Me(k))
  {
    assert k.info.Keys == k.sched.threads.Keys;
    assert r.info.Keys == k.info.Keys && r.sched.threads.Keys == k.sched.threads.Keys;
    hide InfoOk, BlockedOn;
    forall t | t in k.info && t != Me(k) ensures r.info[t] == k.info[t] && r.sched.threads[t] == k.sched.threads[t] {
    }
  }

  lemma BlockKeeps(k: Kernel, q: QueueId, pc: Pc) returns (r: Kernel)
    requires Inv(k) && HasMe(k) && Me(k) != IDLE && MayLeave(MyPc(k))
    requires BlockedOn(pc) == Some(q) && MaySleep(k, pc)
    ensures Block(k, q, pc) == Ok(r) && Inv(r) && BestRuns(r.sched)
    ensures r == At(k, pc).(sched := r.sched)
    ensures r.sched.threads == k.sched.threads[Me(k) := Thread(Sleeping, k.sched.threads[Me(k)].priority, Some(WaitList(q)))]
  {
    hide ThreadsOk, SlotsOk, MutexOk, InfoOk, EventsOk, SleepersOk, RefsOk, MasksOk, OnlyMoves, Asleep, AsleepAsSaid, Block, BestRuns;
    r := BlockMoves(k, q, pc);
    var c := Me(k);
    InfoMoves(k, r, c);
    EventsMoves(k, r, c);
    SleepersMoves(k, r, c);
    RefsMoves(k, r, c);
    MasksMoves(k, r, c);
  }

  // -------- waking

  /** Everything but, perhaps, that event e has waiters it should not have. */
  ghost predicate EventsOkBut(k: Kernel, q: QueueId) {
    forall t, e :: t in k.info && k.info[t].pc == WaitAsleep(e) && Asleep(k, t) && EventQ(e) != q ==>
      e !in k.active || Setting(k, e)
  }

  /** No sleep_ns call waits on the queue. */
  predicate NotASleepers(k: Kernel, q: QueueId) {
    q.EventQ? && q.event.Slot? && q.event.slot in k.owner ==> k.owner[q.event.slot] == Handle
  }

  ghost predicate InvBut(k: Kernel, q: QueueId) {
    && ThreadsOk(k.sched) && InfoOk(k) && EventsOkBut(k, q) && SleepersOk(k) && RefsOk(k)
    && SlotsOk(k.timers, k.owner.Keys) && MutexOk(k.held, k.locked, k.serials) && MasksOk(k)
  }

  /** Between k and r only the threads on the queues qs have been woken. */
  ghost predicate OnlyWakes(k: Kernel, r: Kernel, qs: set<QueueId>) {
    && r.info == k.info && r.serials == k.serials && r.sdThread == k.sdThread
    && WokenBy(k.sched.threads, r.sched.threads, qs)
  }

  lemma InfoWakes(k: Kernel, r: Kernel, qs: set<QueueId>)
    requires InfoOk(k) && AllHomed(k.sched) && OnlyWakes(k, r, qs)
    ensures InfoOk(r)
    ensures forall t :: Asleep(r, t) <==> Asleep(k, t) && BlockedOn(k.info[t].pc).value !in qs
  {
    hide BlockedOn;
    forall t ensures Asleep(r, t) <==> Asleep(k, t) && BlockedOn(k.info[t].pc).value !in qs {
      assert t in k.sched.threads ==> Homed(k.sched.threads[t]);
    }
  }

  lemma EventsWakes(k: Kernel, r: Kernel, q: QueueId)
    requires EventsOkBut(k, q) && r.info == k.info && r.active == k.active
    requires forall t :: t in k.info && Asleep(r, t) ==> Asleep(k, t) && BlockedOn(k.info[t].pc) != Some(q)
    ensures EventsOk(r)
  {
    assert forall e :: Setting(k, e) ==> Setting(r, e);
    hide Setting, Asleep;
  }

  lemma SleepersWakes(k: Kernel, r: Kernel, q: QueueId)
    requires SleepersOk(k) && NotASleepers(k, q) && r.info == k.info
    requires r.active == k.active && r.timers == k.timers && r.owner == k.owner
    requires forall t :: t in k.info ==> (Asleep(r, t) <==> Asleep(k, t) && BlockedOn(k.info[t].pc) != Some(q))
    ensures SleepersOk(r)
  {
    forall pc ensures Pending(r, pc) == Pending(k, pc) {
      PendingSame(k, r, pc);
    }
    hide Asleep, Pending, HasSlot;
  }

  lemma MasksWakes(k: Kernel, r: Kernel)
    requires MasksOk(k) && r.info == k.info && r.sdThread == k.sdThread && r.serials == k.serials
    requires r.dataMasked == k.dataMasked && r.cardMasked == k.cardMasked
    requires forall t :: Asleep(r, t) ==> Asleep(k, t)
    ensures MasksOk(r)
  {
    hide Asleep;
  }

  lemma WakeKeeps(k: Kernel, q: QueueId) returns (r: Kernel)
    requires InvBut(k, q) && NotASleepers(k, q)
    ensures Wake(k, q) == Ok(r) && r == k.(sched := r.sched) && Inv(r)
    ensures r.sched.current == k.sched.current && WokenBy(k.sched.threads, r.sched.threads, {q})
  {
    hide SchedOk, Running, WakeAll, Drained, WokenBy, SlotsOk, MutexOk, InfoOk, EventsOkBut, EventsOk, SleepersOk, MasksOk, Asleep;
    var s := WakeAllKeeps(k.sched, q);
    r := k.(sched := s);
    Homes(k.sched);
    InfoWakes(k, r, {q});
    InfoKeys(k);
    EventsWakes(k, r, q);
    SleepersWakes(k, r, q);
    MasksWakes(k, r);
    RefsSame(k, r);
  }

  lemma Homes(s: Sched)
    requires SchedOk(s)
    ensures AllHomed(s)
  {
  }

  lemma InfoKeys(k: Kernel)
    requires InfoOk(k)
    ensures forall t :: Asleep(k, t) ==> t in k.info && BlockedOn(k.info[t].pc).Some?
  {
    hide BlockedOn;
  }

  lemma RefsSame(k: Kernel, r: Kernel)
    requires RefsOk(k) && r.info == k.info && r.owner == k.owner
    ensures RefsOk(r)
  {
  }

  // -------- timers

  /** A free slot is used by nobody. */
  lemma FreshSlot(k: Kernel, i: nat)
    requires InfoOk(k) && SleepersOk(k) && RefsOk(k) && SlotsOk(k.timers, k.owner.Keys) && i !in k.owner
    ensures !HasSlot(k.timers.queue, i)
    ensures forall t :: t in k.info ==> !Refers(k.info[t].pc, Slot(i)) && !(k.info[t].pc.SleepAsleep? && k.info[t].pc.slot == i)
    ensures forall t :: Asleep(k, t) ==> k.sched.threads[t].hook != Some(WaitList(EventQ(Slot(i))))
  {
    hide TimersOk, PoolOk, HasSlot, Pending;
  }

  lemma NewQueueKeeps(s: Sched, q: QueueId) returns (r: Sched)
    requires ThreadsOk(s)
    requires forall t :: t in s.threads && s.threads[t].state == Sleeping ==> s.threads[t].hook != Some(WaitList(q))
    ensures r == NewQueue(s, q) && ThreadsOk(r)
    ensures r.threads == s.threads && r.current == s.current && r.stacks == s.stacks
  {
    r := NewQueue(s, q);
    EmptyQueue(s, q);
    assert forall l :: r.List(l) == s.List(l);
    hide Linked, PoolOk;
    LinkedCong(s, r);
  }

  lemma EmptyQueue(s: Sched, q: QueueId)
    requires SchedOk(s)
    requires forall t :: t in s.threads && s.threads[t].state == Sleeping ==> s.threads[t].hook != Some(WaitList(q))
    ensures s.List(WaitList(q)) == []
  {
    if s.List(WaitList(q)) != [] {
      var t := FrontOf(s, WaitList(q));
      assert false;
    }
  }

  /** registerTimer, in any state of the invariant with a free slot. */
  lemma NewTimerFacts(k: Kernel, trigger: Word, repeat: Word, owner: Owner) returns (r: Kernel, i: nat)
    requires Inv(k) && Alloc(k.timers.pool).Ok?
    ensures NewTimer(k, trigger, repeat, owner) == Ok((r, i))
    ensures i !in k.owner && r.owner == k.owner[i := owner] && r.active == k.active - {Slot(i)}
    ensures r == k.(sched := r.sched, timers := r.timers, owner := r.owner, active := r.active)
    ensures ThreadsOk(r.sched) && r.sched.threads == k.sched.threads && r.sched.current == k.sched.current
    ensures SlotsOk(r.timers, r.owner.Keys)
    ensures forall e :: e in k.timers.queue ==> e in r.timers.queue
    ensures TimerEvent(i, trigger, repeat, k.timers.placed) in r.timers.queue
    ensures forall s :: HasSlot(r.timers.queue, s) <==> HasSlot(k.timers.queue, s) || s == i
  {
    hide SchedOk, Running, MutexOk, MasksOk, EventsOk, InfoOk, SleepersOk, RefsOk, PoolOk, TimersOk, HasSlot;
    AllocKeeps(k.timers.pool, k.owner.Keys);
    i := Alloc(k.timers.pool).value.1;
    FreshSlot(k, i);
    var timers, slot := RegisterKeeps(k.timers, trigger, repeat);
    var s := NewQueueKeeps(k.sched, EventQ(Slot(i)));
    r := k.(timers := timers, owner := k.owner[i := owner], active := k.active - {Slot(i)}, sched := s);
    assert r.owner.Keys == k.owner.Keys + {i};
  }

  /** From k to r a new timer i has been taken, for the given owner. */
  ghost predicate TakesTimer(k: Kernel, r: Kernel, i: nat, owner: Owner) {
    && r == k.(sched := r.sched, timers := r.timers, owner := r.owner, active := r.active)
    && r.sched.threads == k.sched.threads
    && i !in k.owner && r.owner == k.owner[i := owner] && r.active == k.active - {Slot(i)}
    && (forall e :: e in k.timers.queue ==> e in r.timers.queue)
    && (forall s :: HasSlot(r.timers.queue, s) <==> HasSlot(k.timers.queue, s) || s == i)
  }

  lemma TakeSame(k: Kernel, r: Kernel, i: nat, owner: Owner)
    requires TakesTimer(k, r, i, owner) && InfoOk(k) && EventsOk(k) && RefsOk(k) && MasksOk(k)
    ensures InfoOk(r) && EventsOk(r) && RefsOk(r) && MasksOk(r)
    ensures forall t :: Asleep(r, t) <==> Asleep(k, t)
  {
    hide HasSlot, InfoOk, EventsOk, RefsOk, MasksOk;
    assert r.info == k.info && r.active <= k.active && forall j :: j in k.owner ==> j in r.owner && r.owner[j] == k.owner[j];
    hide TakesTimer;
    AlikeInfo(k, r);
    AlikeEvents(k, r);
    AlikeRefs(k, r);
  }

  lemma AlikeInfo(k: Kernel, r: Kernel)
    requires InfoOk(k) && r.info == k.info && r.sched.threads == k.sched.threads && r.serials == k.serials
    ensures InfoOk(r) && forall t :: Asleep(r, t) <==> Asleep(k, t)
  {
    assert forall t :: Asleep(r, t) <==> Asleep(k, t);
    hide Asleep, BlockedOn;
  }

  lemma AlikeEvents(k: Kernel, r: Kernel)
    requires EventsOk(k) && r.info == k.info && r.active <= k.active && forall t :: Asleep(r, t) <==> Asleep(k, t)
    ensures EventsOk(r)
  {
    SettingSame(k, r);
    hide Asleep, Setting;
  }

  lemma AlikeRefs(k: Kernel, r: Kernel)
    requires RefsOk(k) && MasksOk(k) && r.info == k.info && r.serials == k.serials && r.sdThread == k.sdThread
    requires r.dataMasked == k.dataMasked && r.cardMasked == k.cardMasked && forall t :: Asleep(r, t) <==> Asleep(k, t)
    requires forall j :: j in k.owner ==> j in r.owner && r.owner[j] == k.owner[j]
    ensures RefsOk(r) && MasksOk(r)
  {
    hide Asleep, Refers;
  }

  lemma SettingSame(k: Kernel, r: Kernel)
    requires k.info == r.info
    ensures forall e :: Setting(k, e) ==> Setting(r, e)
  {
  }

  lemma TakePending(k: Kernel, r: Kernel, i: nat, owner: Owner, pc: Pc)
    requires TakesTimer(k, r, i, owner) && Pending(k, pc)
    ensures Pending(r, pc)
  {
    var e :| e in k.timers.queue && IsTimerOf(e, pc);
    assert e in r.timers.queue;
  }

  /** The sleepers of k, seen from r. Owner i apart, nothing has changed for them. */
  lemma TakeSleepers(k: Kernel, r: Kernel, i: nat, owner: Owner)
    requires TakesTimer(k, r, i, owner) && SleepersOk(k)
    requires forall t :: t in k.info && k.info[t].pc.SleepAsleep? ==> k.info[t].pc.slot != i
    ensures forall t :: t in r.info && r.info[t].pc.SleepAsleep? ==>
      && r.info[t].pc.slot in r.owner && r.owner[r.info[t].pc.slot] == Sleeper(t)
      && (Asleep(r, t) ==> Slot(r.info[t].pc.slot) !in r.active && Pending(r, r.info[t].pc))
      && (!Asleep(r, t) ==> !HasSlot(r.timers.queue, r.info[t].pc.slot))
    ensures forall j :: j in r.owner && j != i && r.owner[j].Sleeper? ==>
      r.owner[j].thread in r.info && r.info[r.owner[j].thread].pc.SleepAsleep? && r.info[r.owner[j].thread].pc.slot == j
  {
    assert forall t :: Asleep(r, t) <==> Asleep(k, t);
    forall pc | Pending(k, pc) ensures Pending(r, pc) {
      TakePending(k, r, i, owner, pc);
    }
    hide Asleep, Pending, HasSlot;
  }

  lemma RegisterTimerKeeps(k: Kernel, trigger: Word, repeat: Word) returns (r: Kernel, i: nat)
    requires Inv(k) && Alloc(k.timers.pool).Ok?
    ensures NewTimer(k, trigger, repeat, Handle) == Ok((r, i)) && Inv(r)
    ensures r.sched.threads == k.sched.threads && r.sched.current == k.sched.current && r.info == k.info
  {
    hide ThreadsOk, SlotsOk, MutexOk, MasksOk, EventsOk, InfoOk, RefsOk, HasSlot, Asleep, Pending;
    r, i := NewTimerFacts(k, trigger, repeat, Handle);
    FreshSlot(k, i);
    TakeSame(k, r, i, Handle);
    TakeSleepers(k, r, i, Handle);
  }

  lemma SleepNsSleepers(k1: Kernel, r: Kernel, c: Tid, i: nat, pc: Pc)
    requires OnlyMoves(k1, r, c) && r.active == k1.active && r.timers == k1.timers && r.owner == k1.owner
    requires i in k1.owner && k1.owner[i] == Sleeper(c) && !k1.info[c].pc.SleepAsleep?
    requires forall t :: t in k1.info && k1.info[t].pc.SleepAsleep? ==>
      && k1.info[t].pc.slot in k1.owner && k1.owner[k1.info[t].pc.slot] == Sleeper(t)
      && (Asleep(k1, t) ==> Slot(k1.info[t].pc.slot) !in k1.active && Pending(k1, k1.info[t].pc))
      && (!Asleep(k1, t) ==> !HasSlot(k1.timers.queue, k1.info[t].pc.slot))
    requires forall j :: j in k1.owner && j != i && k1.owner[j].Sleeper? ==>
      k1.owner[j].thread in k1.info && k1.info[k1.owner[j].thread].pc.SleepAsleep? && k1.info[k1.owner[j].thread].pc.slot == j
    requires pc.SleepAsleep? && pc.slot == i && r.info[c].pc == pc && Asleep(r, c)
    requires Slot(i) !in k1.active && Pending(k1, pc)
    ensures SleepersOk(r)
  {
    forall p ensures Pending(r, p) == Pending(k1, p) {
      PendingSame(k1, r, p);
    }
    hide Asleep, Pending, HasSlot;
  }

  /** sleep_ns: a timer is taken and the caller sleeps on it, all with interrupts off. */
  lemma SleepNsKeeps(k: Kernel, now: Word, ns: Word, freq: nat) returns (r: Kernel, i: nat)
    requires Inv(k) && HasMe(k) && Me(k) != IDLE && MyPc(k) == User && Alloc(k.timers.pool).Ok?
    ensures ThreadStep(Intended, k, SleepNs(now, ns, freq)) == ThreadStep(AsWritten, k, SleepNs(now, ns, freq)) == Ok(r)
    ensures Inv(r) && BestRuns(r.sched)
    ensures i !in k.owner && r.info == k.info[Me(k) := k.info[Me(k)].(pc := SleepAsleep(i, now, ns, freq))]
    ensures r.sched.threads == k.sched.threads[Me(k) := Thread(Sleeping, k.sched.threads[Me(k)].priority, Some(WaitList(EventQ(Slot(i)))))]
  {
    hide ThreadsOk, SlotsOk, MutexOk, MasksOk, EventsOk, InfoOk, RefsOk, HasSlot, Asleep, Pending, OnlyMoves,
         AsleepAsSaid, Block, NewTimer, BestRuns, TakesTimer, SleepersOk;
    var c := Me(k);
    var k1;
    k1, i := NewTimerFacts(k, Deadline(now, ns, freq), 0, Sleeper(c));
    FreshSlot(k, i);
    var pc := SleepAsleep(i, now, ns, freq);
    assert TakesTimer(k, k1, i, Sleeper(c)) by { TakesIntro(k, k1, i, Sleeper(c)); }
    TakeSame(k, k1, i, Sleeper(c));
    TakeSleepers(k, k1, i, Sleeper(c));
    r := BlockMoves(k1, EventQ(Slot(i)), pc);
    PendingNow(k1, TimerEvent(i, Deadline(now, ns, freq), 0, k.timers.placed), pc);
    SleepNsSleepers(k1, r, c, i, pc);
    InfoMoves(k1, r, c);
    EventsMoves(k1, r, c);
    RefsMoves(k1, r, c);
    MasksMoves(k1, r, c);
  }

  lemma TakesIntro(k: Kernel, r: Kernel, i: nat, owner: Owner)
    requires r == k.(sched := r.sched, timers := r.timers, owner := r.owner, active := r.active)
    requires r.sched.threads == k.sched.threads
    requires i !in k.owner && r.owner == k.owner[i := owner] && r.active == k.active - {Slot(i)}
    requires forall e :: e in k.timers.queue ==> e in r.timers.queue
    requires forall s :: HasSlot(r.timers.queue, s) <==> HasSlot(k.timers.queue, s) || s == i
    ensures TakesTimer(k, r, i, owner)
  {
  }

  lemma PendingNow(k: Kernel, e: TimerEvent, pc: Pc)
    requires e in k.timers.queue && pc.SleepAsleep? && IsTimerOf(e, pc)
    ensures Pending(k, pc)
  {
  }

  lemma DropSleepers(k: Kernel, r: Kernel, c: Tid, i: nat)
    requires SleepersOk(k) && i in k.owner
    requires r.active == k.active && r.owner == k.owner - {i} && r.timers.queue == k.timers.queue
    requires OnlyMoves(k, r, c) && !r.info[c].pc.SleepAsleep?
    requires if k.info[c].pc.SleepAsleep? then k.info[c].pc.slot == i else k.owner[i] == Handle
    ensures SleepersOk(r)
  {
    forall pc ensures Pending(r, pc) == Pending(k, pc) {
      PendingSame(k, r, pc);
    }
    hide Asleep, Pending, HasSlot;
  }

  lemma DropSlots(k: Kernel, i: nat) returns (timers: Timers)
    requires SlotsOk(k.timers, k.owner.Keys) && i in k.owner && !HasSlot(k.timers.queue, i)
    ensures Pools.Free(k.timers.pool, i).Ok? && timers == k.timers.(pool := Pools.Free(k.timers.pool, i).value)
    ensures SlotsOk(timers, (k.owner - {i}).Keys)
  {
    FreeKeeps(k.timers.pool, k.owner.Keys, i);
    timers := k.timers.(pool := Pools.Free(k.timers.pool, i).value);
    assert (k.owner - {i}).Keys == k.owner.Keys - {i};
  }

  /** sleep_ns returns: its timer has left the queue, and the slot goes back. */
  lemma SleepReturnKeeps(k: Kernel) returns (r: Kernel)
    requires Inv(k) && HasMe(k) && MyPc(k).SleepAsleep?
    ensures DropTimer(At(k, User), MyPc(k).slot) == Ok(r) && Inv(r)
    ensures r == At(k, User).(timers := r.timers, owner := k.owner - {MyPc(k).slot}) && !HasSlot(k.timers.queue, MyPc(k).slot)
  {
    hide ThreadsOk, SlotsOk, MutexOk, MasksOk, EventsOk, InfoOk, RefsOk, HasSlot, Asleep, Pending, OnlyMoves, AsleepAsSaid;
    var c, i := Me(k), MyPc(k).slot;
    MeIsReady(k);
    assert i in k.owner && k.owner[i] == Sleeper(c) && !HasSlot(k.timers.queue, i);
    var timers := DropSlots(k, i);
    var a := AtMoves(k, User);
    r := a.(timers := timers, owner := k.owner - {i});
    OnlyMovesSame(k, a, r, c);
    NotReferred(k, r, c, i);
    hide SleepersOk;
    DropInv(k, r, c, i);
  }

  lemma NotReferred(k: Kernel, r: Kernel, c: Tid, i: nat)
    requires RefsOk(k) && OnlyMoves(k, r, c) && i in k.owner && k.owner[i] != Handle && r.info[c].pc == User
    ensures forall t :: t in r.info ==> !Refers(r.info[t].pc, Slot(i))
  {
    hide Asleep;
  }

  /** Slot i is given back: by the sleep_ns call that owned it, or through its handle. */
  lemma DropInv(k: Kernel, r: Kernel, c: Tid, i: nat)
    requires Inv(k) && i in k.owner && OnlyMoves(k, r, c) && AsleepAsSaid(r, c) && !Asleep(r, c)
    requires r == k.(info := r.info, timers := r.timers, owner := k.owner - {i}) && r.timers.queue == k.timers.queue
    requires SlotsOk(r.timers, r.owner.Keys) && !k.info[c].pc.SetStored? && r.info[c].pc == User
    requires if k.info[c].pc.SleepAsleep? then k.info[c].pc.slot == i else k.owner[i] == Handle
    requires forall t :: t in r.info ==> !Refers(r.info[t].pc, Slot(i))
    ensures Inv(r)
  {
    hide ThreadsOk, SlotsOk, MutexOk, MasksOk, EventsOk, InfoOk, RefsOk, SleepersOk, Asleep, OnlyMoves, AsleepAsSaid;
    DropSleepers(k, r, c, i);
    InfoMoves(k, r, c);
    EventsMoves(k, r, c);
    MasksMoves(k, r, c);
    RefsDropped(k, r, c, i);
  }

  lemma RefsDropped(k: Kernel, r: Kernel, c: Tid, i: nat)
    requires RefsOk(k) && OnlyMoves(k, r, c) && r.owner == k.owner - {i} && r.info[c].pc == User
    requires forall t :: t in r.info ==> !Refers(r.info[t].pc, Slot(i))
    ensures RefsOk(r)
  {
    hide Asleep;
  }

  lemma OnlyMovesSame(k: Kernel, a: Kernel, r: Kernel, c: Tid)
    requires OnlyMoves(k, a, c) && a.info == r.info && a.sched == r.sched && a.serials == r.serials
    ensures OnlyMoves(k, r, c) && (AsleepAsSaid(a, c) ==> AsleepAsSaid(r, c)) && (Asleep(r, c) <==> Asleep(a, c))
  {
  }

  lemma FreeTimerKeeps(k: Kernel, i: nat) returns (r: Kernel)
    requires Inv(k) && HasMe(k) && MyPc(k) == User && Freeable(k, i)
    ensures DropTimer(k, i) == Ok(r) && Inv(r)
    ensures r == k.(timers := r.timers, owner := k.owner - {i})
  {
    hide ThreadsOk, SlotsOk, MutexOk, MasksOk, EventsOk, InfoOk, RefsOk, SleepersOk, HasSlot, Asleep, OnlyMoves, AsleepAsSaid, Refers;
    var timers := DropSlots(k, i);
    var a := AtMoves(k, User);
    assert a == k;
    r := a.(timers := timers, owner := k.owner - {i});
    OnlyMovesSame(k, a, r, Me(k));
    DropInv(k, r, Me(k), i);
  }
}
