/** The thread scheduler as a value: threads, the intrusive lists they hang on, and the atomic
    operations on them. Class Scheduler performs these operations step by step. */
module Sched {
  import opened Common
  import opened Pools

  /** A thread object lives at the top of its own stack, so the stack's slot is its address. */
  type Tid = nat

  const IDLE: Tid := 0
  const NUM_PRIORITIES: nat := 3

  datatype EventId = Named(name: nat) | Slot(slot: nat)

  datatype QueueId =
    | EventQ(event: EventId)
    | SignalQ(signal: nat)
    | MutexQ(mutex: nat)
    | DataIdleQ
    | CardQ

  datatype ListId = ReadyList(priority: nat) | WaitList(queue: QueueId)

  datatype ThreadState = Ready | Sleeping | Dead

  /** hook: the list the thread's intrusive hook is linked into, if any. */
  datatype Thread = Thread(state: ThreadState, priority: nat, hook: Option<ListId>)

  datatype Sched = Sched(
    threads: map<Tid, Thread>,
    lists: map<ListId, seq<Tid>>,
    current: Option<Tid>,
    stacks: Pool)
  {
    function List(l: ListId): seq<Tid> {
      if l in lists then lists[l] else []
    }
  }

  // ---------------------------------------------------------------- operations

  /** Takes the thread off whatever list its hook is on. */
  function Unlink(s: Sched, t: Tid): Sched
    requires t in s.threads
  {
    match s.threads[t].hook
    case None => s
    case Some(l) =>
      s.(lists := s.lists[l := Without(s.List(l), t)],
         threads := s.threads[t := s.threads[t].(hook := None)])
  }

  function PushBack(s: Sched, l: ListId, t: Tid): Outcome<Sched>
    requires t in s.threads
  {
    if s.threads[t].hook.Some? then Abort(HookLinked)
    else Ok(s.(lists := s.lists[l := s.List(l) + [t]],
               threads := s.threads[t := s.threads[t].(hook := Some(l))]))
  }

  function SetState(s: Sched, t: Tid, st: ThreadState): Sched
    requires t in s.threads
  {
    s.(threads := s.threads[t := s.threads[t].(state := st)])
  }

  /** The three lines sleepOn and schedule share: unlink, set the state, push at the back. */
  function Move(s: Sched, t: Tid, st: ThreadState, l: ListId): Outcome<Sched>
    requires t in s.threads
  {
    PushBack(SetState(Unlink(s, t), t, st), l, t)
  }

  function CreateThread(s: Sched, high: bool): Outcome<(Sched, Tid)> {
    var (stacks, t) :- Alloc(s.stacks);
    var thread := Thread(Ready, if high then 0 else 1, None);
    var s1 := s.(stacks := stacks, threads := s.threads[t := thread]);
    var s2 :- PushBack(s1, ReadyList(thread.priority), t);
    Ok((s2, t))
  }

  /** The front of the first non-empty ready list among those numbered from `from` to `to`. */
  function FirstReady(s: Sched, from: nat, to: nat): (r: Option<Tid>)
    decreases to - from
  {
    if from >= to then None
    else if s.List(ReadyList(from)) != [] then Some(s.List(ReadyList(from))[0])
    else FirstReady(s, from + 1, to)
  }

  function Reschedule(s: Sched): Outcome<Sched> {
    if s.current.Some? && s.current.value !in s.threads then Abort(Dangling)
    else if s.current.Some? && s.threads[s.current.value].state == Ready then
      var better := FirstReady(s, 0, s.threads[s.current.value].priority);
      Ok(if better.Some? then s.(current := better) else s)
    else
      var best := FirstReady(s, 0, NUM_PRIORITIES);
      if best.None? then Abort(NoReadyThread) else Ok(s.(current := best))
  }

  /** The running thread ends: its destructor returns the stack, then another thread is chosen. */
  function StopThread(s: Sched): Outcome<Sched> {
    if s.current.None? || s.current.value !in s.threads then Abort(Dangling)
    else
      var t := s.current.value;
      var s1 := Unlink(s, t);
      var stacks :- Free(s1.stacks, t);
      Reschedule(s1.(threads := s1.threads - {t}, stacks := stacks, current := None))
  }

  function SleepOn(s: Sched, q: QueueId): Outcome<Sched> {
    if s.current.None? || s.current.value !in s.threads then Abort(Dangling)
    else if s.threads[s.current.value].state != Ready then Abort(NotReady)
    else
      var s1 :- Move(s, s.current.value, Sleeping, WaitList(q));
      Reschedule(s1)
  }

  function Schedule(s: Sched, t: Tid): Outcome<Sched> {
    if t !in s.threads then Abort(Dangling)
    else if s.threads[t].state == Ready then Abort(AlreadyReady)
    else Move(s, t, Ready, ReadyList(s.threads[t].priority))
  }

  function ScheduleEach(s: Sched, ts: seq<Tid>): Outcome<Sched>
    decreases |ts|
  {
    if ts == [] then Ok(s)
    else
      var s1 :- Schedule(s, ts[0]);
      ScheduleEach(s1, ts[1..])
  }

  function WakeAll(s: Sched, q: QueueId): Outcome<Sched> {
    ScheduleEach(s, s.List(WaitList(q)))
  }

  /** Saros::wakeOneThread as it is written: the front is scheduled, which unlinks it, and then
      whatever has become the front is popped as well. */
  function WakeOneAsWritten(s: Sched, q: QueueId): Outcome<Sched> {
    if s.List(WaitList(q)) == [] then Ok(s)
    else
      var s1 :- Schedule(s, s.List(WaitList(q))[0]);
      PopFront(s1, WaitList(q))
  }

  function PopFront(s: Sched, l: ListId): Outcome<Sched> {
    if s.List(l) == [] then Abort(PopFromEmpty)
    else if s.List(l)[0] !in s.threads then Abort(Dangling)
    else
      var t := s.List(l)[0];
      Ok(s.(lists := s.lists[l := s.List(l)[1..]],
            threads := s.threads[t := s.threads[t].(hook := None)]))
  }

  /** What wakeOneThread is for: only the front is woken. */
  function WakeOneIntended(s: Sched, q: QueueId): Outcome<Sched> {
    if s.List(WaitList(q)) == [] then Ok(s) else Schedule(s, s.List(WaitList(q))[0])
  }

  /** A wait queue constructed anew starts empty. */
  function NewQueue(s: Sched, q: QueueId): Sched {
    s.(lists := s.lists[WaitList(q) := []])
  }

  /** Scheduler::init: the first stack becomes the idle thread, alone at priority 2. */
  function Init(n: nat): Outcome<Sched> {
    var (s, t) :- CreateThread(Sched(map[], map[], None, Fresh(n)), false);
    var s1 := Unlink(s, t);
    PushBack(s1.(threads := s1.threads[t := s1.threads[t].(priority := 2)]), ReadyList(2), t)
  }

  /** Scheduler::init, then Saros::run: the startup thread is created and switched to. */
  function Boot(n: nat): Outcome<Sched> {
    var s :- Init(n);
    var (s1, t) :- CreateThread(s, false);
    Ok(s1.(current := Some(t)))
  }

  // ---------------------------------------------------------------- invariants

  /** Hooks and lists agree, and no list names a thread twice. */
  ghost predicate Linked(s: Sched) {
    && (forall l, t :: t in s.List(l) ==> t in s.threads && s.threads[t].hook == Some(l))
    && (forall t :: t in s.threads && s.threads[t].hook.Some? ==> t in s.List(s.threads[t].hook.value))
    && (forall l :: NoDup(s.List(l)))
  }

  /** A Ready thread is on the ready list of its priority, a Sleeping one on a wait queue. */
  predicate Homed(th: Thread) {
    && th.priority < NUM_PRIORITIES
    && match th.state
       case Ready => th.hook == Some(ReadyList(th.priority))
       case Sleeping => th.hook.Some? && th.hook.value.WaitList?
       case Dead => false
  }

  ghost predicate AllHomed(s: Sched) {
    forall t :: t in s.threads ==> Homed(s.threads[t])
  }

  /** The idle thread is always Ready and is the only one at its priority. */
  ghost predicate IdleOk(s: Sched) {
    && IDLE in s.threads
    && s.threads[IDLE].state == Ready
    && forall t :: t in s.threads ==> (s.threads[t].priority == 2 <==> t == IDLE)
  }

  ghost predicate SchedOk(s: Sched) {
    Linked(s) && AllHomed(s) && IdleOk(s) && PoolOk(s.stacks, s.threads.Keys)
  }

  /** The running thread is at the head of its own ready list. */
  ghost predicate Running(s: Sched) {
    && s.current.Some?
    && s.current.value in s.threads
    && s.threads[s.current.value].state == Ready
    && var l := s.List(ReadyList(s.threads[s.current.value].priority));
       l != [] && l[0] == s.current.value
  }

  // ---------------------------------------------------------------- proofs

  /** Linked looks at the lists and at the hooks only. */
  lemma LinkedCong(a: Sched, b: Sched)
    requires Linked(a) && a.threads.Keys == b.threads.Keys
    requires forall t :: t in a.threads ==> a.threads[t].hook == b.threads[t].hook
    requires forall k :: b.List(k) == a.List(k)
    ensures Linked(b)
  {
  }

  lemma UnlinkKeeps(s: Sched, t: Tid) returns (u: Sched)
    requires Linked(s) && t in s.threads
    ensures u == Unlink(s, t) && u.current == s.current && u.stacks == s.stacks
    ensures Linked(u)
    ensures u.threads == s.threads[t := s.threads[t].(hook := None)]
    ensures forall l :: u.List(l) == Without(s.List(l), t)
  {
    u := Unlink(s, t);
    assert u.threads == s.threads[t := s.threads[t].(hook := None)];
    forall l ensures u.List(l) == Without(s.List(l), t) && NoDup(u.List(l)) {
      WithoutNoDup(s.List(l), t);
      assert t in s.List(l) ==> s.threads[t].hook == Some(l);
    }
    forall x | x in u.threads && u.threads[x].hook.Some? ensures x in u.List(u.threads[x].hook.value) {
      assert x in s.List(s.threads[x].hook.value);
    }
  }

  lemma PushKeeps(s: Sched, l: ListId, t: Tid) returns (p: Sched)
    requires Linked(s) && t in s.threads && s.threads[t].hook.None?
    ensures PushBack(s, l, t) == Ok(p) && p.current == s.current && p.stacks == s.stacks
    ensures Linked(p)
    ensures p.threads == s.threads[t := s.threads[t].(hook := Some(l))]
    ensures forall k :: p.List(k) == if k == l then s.List(l) + [t] else s.List(k)
  {
    p := PushBack(s, l, t).value;
    forall k ensures p.List(k) == (if k == l then s.List(l) + [t] else s.List(k)) && t !in s.List(k) {
    }
    forall k ensures NoDup(p.List(k)) {
      NoDupPush(s.List(l), t);
    }
    forall x | x in p.threads && p.threads[x].hook.Some? ensures x in p.List(p.threads[x].hook.value) {
      assert x != t ==> x in s.List(s.threads[x].hook.value);
    }
    forall k, x | x in p.List(k) ensures x in p.threads && p.threads[x].hook == Some(k) {
      assert x in s.List(k) || (k == l && x == t);
    }
  }

  lemma MoveKeeps(s: Sched, t: Tid, st: ThreadState, l: ListId) returns (m: Sched)
    requires Linked(s) && t in s.threads
    ensures Move(s, t, st, l) == Ok(m) && m.current == s.current && m.stacks == s.stacks
    ensures Linked(m)
    ensures m.threads == s.threads[t := Thread(st, s.threads[t].priority, Some(l))]
    ensures forall k :: m.List(k) == Without(s.List(k), t) + if k == l then [t] else []
  {
    hide Linked, Unlink, PushBack, Without;
    var u := UnlinkKeeps(s, t);
    var v := SetState(u, t, st);
    assert forall k :: v.List(k) == u.List(k);
    LinkedCong(u, v);
    m := PushKeeps(v, l, t);
    assert m.threads == s.threads[t := Thread(st, s.threads[t].priority, Some(l))];
  }

  // -------- waking

  predicate WaitsOn(th: Thread, qs: set<QueueId>) {
    th.hook.Some? && th.hook.value.WaitList? && th.hook.value.queue in qs
  }

  function MadeReady(th: Thread): Thread {
    Thread(Ready, th.priority, Some(ReadyList(th.priority)))
  }

  /** b is a, except that every thread waiting on a queue of qs is Ready. */
  ghost predicate WokenBy(a: map<Tid, Thread>, b: map<Tid, Thread>, qs: set<QueueId>) {
    && a.Keys == b.Keys
    && forall t :: t in a ==> b[t] == if WaitsOn(a[t], qs) then MadeReady(a[t]) else a[t]
  }

  /** The threads of ts with priority p, in the order of ts. */
  function OfPriority(ts: seq<Tid>, threads: map<Tid, Thread>, p: nat): seq<Tid>
    requires forall t :: t in ts ==> t in threads
  {
    if ts == [] then []
    else (if threads[ts[0]].priority == p then [ts[0]] else []) + OfPriority(ts[1..], threads, p)
  }

  lemma {:induction false} OfPrioritySame(ts: seq<Tid>, a: map<Tid, Thread>, b: map<Tid, Thread>, p: nat)
    requires forall t :: t in ts ==> t in a && t in b && a[t].priority == b[t].priority
    ensures OfPriority(ts, a, p) == OfPriority(ts, b, p)
  {
    if ts != [] {
      OfPrioritySame(ts[1..], a, b, p);
    }
  }

  lemma UnlinkedElsewhere(s: Sched, t: Tid, home: ListId, l: ListId)
    requires Linked(s) && t in s.List(home)
    ensures Without(s.List(l), t) == if l == home then Without(s.List(home), t) else s.List(l)
  {
    assert s.threads[t].hook == Some(home);
    assert t in s.List(l) ==> s.threads[t].hook == Some(l);
  }

  lemma FrontOf(s: Sched, l: ListId) returns (t: Tid)
    requires Linked(s) && s.List(l) != []
    ensures t == s.List(l)[0] && t in s.List(l) && t in s.threads && s.threads[t].hook == Some(l)
    ensures Without(s.List(l), t) == s.List(l)[1..]
  {
    t := s.List(l)[0];
    assert t in s.List(l);
    WithoutHead(s.List(l));
  }

  /** schedule, applied to the front waiter of a queue. */
  lemma ScheduleFront(s: Sched, q: QueueId) returns (t: Tid, w: Sched)
    requires Linked(s) && AllHomed(s) && s.List(WaitList(q)) != []
    ensures t == s.List(WaitList(q))[0] && t in s.threads && s.threads[t].hook == Some(WaitList(q))
    ensures Schedule(s, t) == Ok(w) && w.current == s.current && w.stacks == s.stacks
    ensures Linked(w) && AllHomed(w)
    ensures w.threads == s.threads[t := MadeReady(s.threads[t])]
    ensures w.List(WaitList(q)) == s.List(WaitList(q))[1..]
    ensures forall r :: r != q ==> w.List(WaitList(r)) == s.List(WaitList(r))
    ensures forall p :: w.List(ReadyList(p)) == s.List(ReadyList(p)) + if p == s.threads[t].priority then [t] else []
  {
    hide Linked;
    t := FrontOf(s, WaitList(q));
    w := MoveKeeps(s, t, Ready, ReadyList(s.threads[t].priority));
    forall l ensures Without(s.List(l), t) == if l == WaitList(q) then s.List(l)[1..] else s.List(l) {
      UnlinkedElsewhere(s, t, WaitList(q), l);
    }
  }

  /** The lists of w are those of s, with queue q emptied onto the ready lists in order. */
  ghost predicate Drained(s: Sched, w: Sched, q: QueueId) {
    && (forall t :: t in s.List(WaitList(q)) ==> t in s.threads)
    && w.List(WaitList(q)) == []
    && (forall r :: r != q ==> w.List(WaitList(r)) == s.List(WaitList(r)))
    && (forall p :: w.List(ReadyList(p)) == s.List(ReadyList(p)) + OfPriority(s.List(WaitList(q)), s.threads, p))
  }

  lemma DrainedStep(s: Sched, t: Tid, m: Sched, w: Sched, q: QueueId)
    requires s.List(WaitList(q)) != [] && t == s.List(WaitList(q))[0]
    requires forall x :: x in s.List(WaitList(q)) ==> x in s.threads
    requires m.threads == s.threads[t := MadeReady(s.threads[t])]
    requires m.List(WaitList(q)) == s.List(WaitList(q))[1..]
    requires forall r :: r != q ==> m.List(WaitList(r)) == s.List(WaitList(r))
    requires forall p :: m.List(ReadyList(p)) == s.List(ReadyList(p)) + if p == s.threads[t].priority then [t] else []
    requires Drained(m, w, q)
    ensures Drained(s, w, q)
  {
    var ts := s.List(WaitList(q));
    forall p ensures w.List(ReadyList(p)) == s.List(ReadyList(p)) + OfPriority(ts, s.threads, p) {
      var one := if p == s.threads[t].priority then [t] else [];
      OfPrioritySame(ts[1..], m.threads, s.threads, p);
      OfPriorityHead(ts, s.threads, p);
      hide OfPriority;
      assert m.List(ReadyList(p)) == s.List(ReadyList(p)) + one;
      Associate(s.List(ReadyList(p)), one, OfPriority(ts[1..], s.threads, p));
    }
  }

  lemma OfPriorityHead(ts: seq<Tid>, threads: map<Tid, Thread>, p: nat)
    requires ts != [] && forall t :: t in ts ==> t in threads
    ensures OfPriority(ts, threads, p) ==
      (if p == threads[ts[0]].priority then [ts[0]] else []) + OfPriority(ts[1..], threads, p)
  {
  }

  lemma Associate<T>(a: seq<T>, b: seq<T>, c: seq<T>)
    ensures a + b + c == a + (b + c)
  {
  }

  /** wakeAll terminates without an abort and appends the waiters, in order, to the ready lists
      of their priorities. */
  lemma {:induction false} WakeAllSpec(s: Sched, q: QueueId) returns (w: Sched)
    requires Linked(s) && AllHomed(s)
    ensures WakeAll(s, q) == Ok(w) && w.current == s.current && w.stacks == s.stacks
    ensures Linked(w) && AllHomed(w)
    ensures WokenBy(s.threads, w.threads, {q})
    ensures Drained(s, w, q)
    decreases |s.List(WaitList(q))|
  {
    hide Linked, AllHomed, WokenBy, Drained, WakeAll, Schedule;
    if s.List(WaitList(q)) == [] {
      w := s;
      NobodyWaits(s, q);
    } else {
      var t, m := ScheduleFront(s, q);
      WakeAllFront(s, t, m, q);
      w := WakeAllSpec(m, q);
      WaitersLive(s, WaitList(q));
      DrainedStep(s, t, m, w, q);
      WokenStep(s.threads, t, m.threads, w.threads, q);
    }
  }

  lemma NobodyWaits(s: Sched, q: QueueId)
    requires Linked(s) && AllHomed(s) && s.List(WaitList(q)) == []
    ensures WakeAll(s, q) == Ok(s) && WokenBy(s.threads, s.threads, {q}) && Drained(s, s, q)
  {
    forall t | t in s.threads ensures !WaitsOn(s.threads[t], {q}) {
      assert s.threads[t].hook.Some? ==> t in s.List(s.threads[t].hook.value);
    }
  }

  lemma WakeAllFront(s: Sched, t: Tid, m: Sched, q: QueueId)
    requires s.List(WaitList(q)) != [] && t == s.List(WaitList(q))[0] && Schedule(s, t) == Ok(m)
    requires m.List(WaitList(q)) == s.List(WaitList(q))[1..]
    ensures WakeAll(s, q) == WakeAll(m, q)
  {
    hide Schedule;
  }

  lemma WaitersLive(s: Sched, l: ListId)
    requires Linked(s)
    ensures forall t :: t in s.List(l) ==> t in s.threads
  {
  }

  lemma WokenStep(a: map<Tid, Thread>, t: Tid, b: map<Tid, Thread>, c: map<Tid, Thread>, q: QueueId)
    requires t in a && a[t].hook == Some(WaitList(q)) && b == a[t := MadeReady(a[t])] && WokenBy(b, c, {q})
    ensures WokenBy(a, c, {q})
  {
    assert a.Keys == b.Keys;
  }

  // -------- rescheduling

  /** No Ready thread has a better priority than the running one. */
  ghost predicate BestRuns(s: Sched) {
    && s.current.Some? && s.current.value in s.threads
    && forall t :: t in s.threads && s.threads[t].state == Ready ==>
         s.threads[s.current.value].priority <= s.threads[t].priority
  }

  lemma {:induction false} FirstReadySpec(s: Sched, from: nat, to: nat) returns (p: nat)
    requires from <= to
    ensures from <= p <= to
    ensures forall b: nat :: from <= b < p ==> s.List(ReadyList(b)) == []
    ensures FirstReady(s, from, to).None? ==> p == to
    ensures FirstReady(s, from, to).Some? ==>
      p < to && s.List(ReadyList(p)) != [] && FirstReady(s, from, to).value == s.List(ReadyList(p))[0]
    decreases if from < to then to - from else 0
  {
    p := from;
    if from < to && s.List(ReadyList(from)) == [] {
      p := FirstReadySpec(s, from + 1, to);
    }
  }

  lemma RescheduleKeeps(s: Sched) returns (r: Sched)
    requires SchedOk(s)
    requires s.current.Some? ==> s.current.value in s.threads
    requires s.current.Some? && s.threads[s.current.value].state == Ready ==> Running(s)
    ensures Reschedule(s) == Ok(r) && r == s.(current := r.current)
    ensures SchedOk(r) && Running(r) && BestRuns(r)
    ensures Running(s) && r.current != s.current ==>
      s.threads[r.current.value].priority < s.threads[s.current.value].priority
  {
    hide Linked, IdleOk, PoolOk;
    var stay := s.current.Some? && s.threads[s.current.value].state == Ready;
    var to := if stay then s.threads[s.current.value].priority else NUM_PRIORITIES;
    var p := FirstReadySpec(s, 0, to);
    NoneBetter(s, p);
    IdleIsReady(s);
    r := Reschedule(s).value;
    if FirstReady(s, 0, to).Some? {
      var t := FrontOf(s, ReadyList(p));
    }
    SchedOkCurrent(s, r);
  }

  lemma NoneBetter(s: Sched, p: nat)
    requires Linked(s) && AllHomed(s)
    requires forall b: nat :: b < p ==> s.List(ReadyList(b)) == []
    ensures forall t :: t in s.threads && s.threads[t].state == Ready ==> p <= s.threads[t].priority
  {
    forall t | t in s.threads && s.threads[t].state == Ready ensures p <= s.threads[t].priority {
      assert t in s.List(ReadyList(s.threads[t].priority));
    }
  }

  lemma IdleIsReady(s: Sched)
    requires Linked(s) && AllHomed(s) && IdleOk(s)
    ensures s.List(ReadyList(2)) != []
  {
    assert IDLE in s.List(ReadyList(2));
  }

  lemma SchedOkCurrent(s: Sched, r: Sched)
    requires SchedOk(s) && r == s.(current := r.current)
    ensures SchedOk(r) && forall l :: r.List(l) == s.List(l)
  {
    assert forall l :: r.List(l) == s.List(l);
    LinkedCong(s, r);
  }

  // -------- the operations keep the invariants

  lemma WakeAllKeeps(s: Sched, q: QueueId) returns (w: Sched)
    requires SchedOk(s)
    ensures WakeAll(s, q) == Ok(w) && w.current == s.current && w.stacks == s.stacks
    ensures SchedOk(w) && WokenBy(s.threads, w.threads, {q}) && Drained(s, w, q)
    ensures Running(s) ==> Running(w)
  {
    hide Linked, PoolOk, WakeAll;
    w := WakeAllSpec(s, q);
    assert w.threads.Keys == s.threads.Keys;
  }

  /** A sound move of a thread other than the idle one. */
  lemma MoveSchedOk(s: Sched, t: Tid, st: ThreadState, l: ListId) returns (m: Sched)
    requires SchedOk(s) && t in s.threads && t != IDLE
    requires Homed(Thread(st, s.threads[t].priority, Some(l)))
    ensures Move(s, t, st, l) == Ok(m) && m.current == s.current && m.stacks == s.stacks
    ensures SchedOk(m)
    ensures m.threads == s.threads[t := Thread(st, s.threads[t].priority, Some(l))]
    ensures forall k :: m.List(k) == Without(s.List(k), t) + if k == l then [t] else []
  {
    hide Linked, PoolOk, Move;
    m := MoveKeeps(s, t, st, l);
    assert m.threads.Keys == s.threads.Keys;
  }

  lemma SleepOnKeeps(s: Sched, q: QueueId) returns (r: Sched)
    requires SchedOk(s) && Running(s) && s.current != Some(IDLE)
    ensures SleepOn(s, q) == Ok(r) && r.stacks == s.stacks
    ensures SchedOk(r) && Running(r) && BestRuns(r)
    ensures r.threads == s.threads[s.current.value := Thread(Sleeping, s.threads[s.current.value].priority, Some(WaitList(q)))]
    ensures forall k :: r.List(k) == Without(s.List(k), s.current.value) + if k == WaitList(q) then [s.current.value] else []
  {
    hide Linked, IdleOk, PoolOk;
    var m := MoveSchedOk(s, s.current.value, Sleeping, WaitList(q));
    r := RescheduleKeeps(m);
    assert forall k :: r.List(k) == m.List(k);
  }

  /** A thread appears, not yet on any list. */
  lemma AddThreadLinked(s: Sched, t: Tid, th: Thread, stacks: Pool) returns (a: Sched)
    requires Linked(s) && t !in s.threads && th.hook.None?
    ensures a == s.(threads := s.threads[t := th], stacks := stacks) && Linked(a)
    ensures forall k :: a.List(k) == s.List(k)
  {
    a := s.(threads := s.threads[t := th], stacks := stacks);
    assert forall k :: a.List(k) == s.List(k);
    forall x | x in a.threads && a.threads[x].hook.Some? ensures x in a.List(a.threads[x].hook.value) {
      assert x in s.List(s.threads[x].hook.value);
    }
  }

  lemma CreateThreadLinked(s: Sched, high: bool) returns (r: Sched, t: Tid)
    requires Linked(s) && PoolOk(s.stacks, s.threads.Keys) && Alloc(s.stacks).Ok?
    ensures CreateThread(s, high) == Ok((r, t))
    ensures t !in s.threads && t < s.stacks.size && t == s.stacks.free[0] && r.current == s.current
    ensures Linked(r) && PoolOk(r.stacks, r.threads.Keys) && r.stacks == s.stacks.(free := s.stacks.free[1..])
    ensures r.threads == s.threads[t := Thread(Ready, if high then 0 else 1, Some(ReadyList(if high then 0 else 1)))]
    ensures forall k :: r.List(k) == s.List(k) + if k == ReadyList(if high then 0 else 1) then [t] else []
  {
    hide Linked, PoolOk, PushBack;
    AllocKeeps(s.stacks, s.threads.Keys);
    var (stacks, slot) := Alloc(s.stacks).value;
    t := slot;
    var p := if high then 0 else 1;
    var a := AddThreadLinked(s, t, Thread(Ready, p, None), stacks);
    r := PushKeeps(a, ReadyList(p), t);
    assert r.threads == s.threads[t := Thread(Ready, p, Some(ReadyList(p)))];
    assert r.threads.Keys == s.threads.Keys + {t};
  }

  lemma CreateThreadFailsIff(s: Sched, high: bool)
    requires SchedOk(s)
    ensures CreateThread(s, high).Ok? <==> Alloc(s.stacks).Ok?
    ensures CreateThread(s, high).Abort? ==> CreateThread(s, high).reason == EmptyPool
    ensures CreateThread(s, high).Abort? <==> forall i: nat :: i < s.stacks.size ==> i in s.threads
  {
    AllocKeeps(s.stacks, s.threads.Keys);
    if Alloc(s.stacks).Ok? {
      var r, t := CreateThreadLinked(s, high);
    }
  }

  lemma CreateThreadKeeps(s: Sched, high: bool) returns (r: Sched, t: Tid)
    requires SchedOk(s) && Alloc(s.stacks).Ok?
    ensures CreateThread(s, high) == Ok((r, t))
    ensures t !in s.threads && t < s.stacks.size && r.current == s.current
    ensures SchedOk(r) && (Running(s) ==> Running(r))
    ensures r.threads == s.threads[t := Thread(Ready, if high then 0 else 1, Some(ReadyList(if high then 0 else 1)))]
    ensures forall k :: r.List(k) == s.List(k) + if k == ReadyList(if high then 0 else 1) then [t] else []
  {
    hide Linked, PoolOk, CreateThread;
    r, t := CreateThreadLinked(s, high);
  }

  lemma RemoveThreadLinked(s: Sched, t: Tid) returns (r: Sched)
    requires Linked(s) && t in s.threads
    ensures r == Unlink(s, t).(threads := s.threads - {t})
    ensures Linked(r) && forall k :: r.List(k) == Without(s.List(k), t)
  {
    hide Unlink, Without, Linked;
    var u := UnlinkKeeps(s, t);
    r := u.(threads := s.threads - {t});
    assert forall k :: r.List(k) == u.List(k);
    OffItsList(s, t, u);
    DroppedLinked(u, t, r);
  }

  lemma OffItsList(s: Sched, t: Tid, u: Sched)
    requires t in s.threads && u.threads == s.threads[t := s.threads[t].(hook := None)]
    requires forall l :: u.List(l) == Without(s.List(l), t)
    ensures u.threads - {t} == s.threads - {t} && forall l :: t !in u.List(l)
  {
  }

  /** A thread that is on no list can go. */
  lemma DroppedLinked(u: Sched, t: Tid, r: Sched)
    requires Linked(u) && (forall l :: t !in u.List(l)) && r.threads == u.threads - {t} && forall l :: r.List(l) == u.List(l)
    ensures Linked(r)
  {
    forall x | x in r.threads && r.threads[x].hook.Some? ensures x in r.List(r.threads[x].hook.value) {
      assert x in u.List(u.threads[x].hook.value);
    }
    forall l, x | x in r.List(l) ensures x in r.threads && r.threads[x].hook == Some(l) {
      assert x in u.List(l);
    }
  }

  /** The running thread, off every list, gives its stack back and is gone. */
  lemma RemoveThreadOk(s: Sched, t: Tid) returns (v: Sched)
    requires SchedOk(s) && t in s.threads && t != IDLE
    ensures Free(s.stacks, t).Ok?
    ensures v == Unlink(s, t).(threads := s.threads - {t}, stacks := Free(s.stacks, t).value, current := None)
    ensures SchedOk(v)
    ensures v.stacks.free == [t] + s.stacks.free
    ensures forall k :: v.List(k) == Without(s.List(k), t)
  {
    hide Linked, Unlink, PoolOk;
    var r := RemoveThreadLinked(s, t);
    FreeKeeps(s.stacks, s.threads.Keys, t);
    v := r.(stacks := Free(s.stacks, t).value, current := None);
    LinkedCong(r, v);
    assert v.threads.Keys == s.threads.Keys - {t};
  }

  lemma StopThreadKeeps(s: Sched) returns (r: Sched)
    requires SchedOk(s) && Running(s) && s.current != Some(IDLE)
    ensures StopThread(s) == Ok(r)
    ensures SchedOk(r) && Running(r) && BestRuns(r)
    ensures r.threads == s.threads - {s.current.value}
    ensures r.stacks.free == [s.current.value] + s.stacks.free
    ensures forall k :: r.List(k) == Without(s.List(k), s.current.value)
  {
    hide Linked, AllHomed, IdleOk, PoolOk;
    var v := RemoveThreadOk(s, s.current.value);
    assert Unlink(s, s.current.value).threads - {s.current.value} == s.threads - {s.current.value};
    r := RescheduleKeeps(v);
    assert forall k :: r.List(k) == v.List(k);
  }

  lemma WakeOneIntendedKeeps(s: Sched, q: QueueId) returns (w: Sched)
    requires SchedOk(s)
    ensures WakeOneIntended(s, q) == Ok(w) && w.current == s.current && w.stacks == s.stacks
    ensures SchedOk(w) && (Running(s) ==> Running(w))
    ensures s.List(WaitList(q)) == [] ==> w == s
    ensures s.List(WaitList(q)) != [] ==>
      var t := s.List(WaitList(q))[0];
      t in s.threads && s.threads[t].hook == Some(WaitList(q)) && w.threads == s.threads[t := MadeReady(s.threads[t])]
  {
    hide Linked, PoolOk, Schedule;
    if s.List(WaitList(q)) == [] {
      w := s;
    } else {
      var t;
      t, w := ScheduleFront(s, q);
      assert w.threads.Keys == s.threads.Keys;
    }
  }

  /** wakeOneThread as written keeps the lists sound exactly when nobody is waiting: with one
      waiter it pops an empty list, with more it strands the second one, asleep on no list. */
  lemma WakeOneAsWrittenKeepsIff(s: Sched, q: QueueId)
    requires SchedOk(s)
    ensures (WakeOneAsWritten(s, q).Ok? && SchedOk(WakeOneAsWritten(s, q).value)) <==> s.List(WaitList(q)) == []
    ensures |s.List(WaitList(q))| == 1 ==> WakeOneAsWritten(s, q) == Abort(PopFromEmpty)
    ensures |s.List(WaitList(q))| > 1 ==>
      && WakeOneAsWritten(s, q).Ok?
      && var r, t, x := WakeOneAsWritten(s, q).value, s.List(WaitList(q))[0], s.List(WaitList(q))[1];
      && t in s.threads && x in s.threads && s.threads[x].state == Sleeping
      && r.threads == s.threads[t := MadeReady(s.threads[t])][x := s.threads[x].(hook := None)]
      && forall l :: x !in r.List(l)
  {
    var ts := s.List(WaitList(q));
    if ts != [] {
      hide Linked, AllHomed, Schedule;
      var t, w := ScheduleFront(s, q);
      if |ts| > 1 {
        SecondStranded(w, q, ts[1]);
        assert ts[1] != t && ts[1] in s.threads by { NoTwice(s, WaitList(q)); }
      }
    }
  }

  lemma NoTwice(s: Sched, l: ListId)
    requires Linked(s) && |s.List(l)| > 1
    ensures s.List(l)[0] != s.List(l)[1] && s.List(l)[1] in s.threads
  {
    assert s.List(l)[1] in s.List(l);
  }

  /** In a sound state schedule's assertion fires exactly for a thread that is Ready already. */
  lemma ScheduleFailsIff(s: Sched, t: Tid)
    requires SchedOk(s) && t in s.threads
    ensures Schedule(s, t).Abort? <==> s.threads[t].state == Ready
    ensures Schedule(s, t).Abort? ==> Schedule(s, t).reason == AlreadyReady
  {
    hide Linked, IdleOk, PoolOk, Move;
    if s.threads[t].state != Ready {
      var m := MoveKeeps(s, t, Ready, ReadyList(s.threads[t].priority));
    }
  }

  /** Popping a wait queue leaves its front asleep on no list. */
  lemma SecondStranded(w: Sched, q: QueueId, x: Tid)
    requires Linked(w) && AllHomed(w) && w.List(WaitList(q)) != [] && x == w.List(WaitList(q))[0]
    ensures PopFront(w, WaitList(q)).Ok? && !AllHomed(PopFront(w, WaitList(q)).value)
    ensures var r := PopFront(w, WaitList(q)).value;
      && x in w.threads && w.threads[x].state == Sleeping && r.threads == w.threads[x := w.threads[x].(hook := None)]
      && forall l :: x !in r.List(l)
  {
    assert x in w.List(WaitList(q));
    var r := PopFront(w, WaitList(q)).value;
    forall l ensures x !in r.List(l) {
      assert x in w.List(l) ==> w.threads[x].hook == Some(l);
      assert NoDup(w.List(WaitList(q)));
    }
    assert !Homed(r.threads[x]);
  }

  lemma InitKeeps(n: nat) returns (w: Sched)
    requires n >= 1
    ensures Init(n) == Ok(w) && w.current == None
    ensures w.stacks == Pool(n, Fresh(n).free[1..])
    ensures w.threads == map[0 := Thread(Ready, 2, Some(ReadyList(2)))]
    ensures SchedOk(w) && forall l :: w.List(l) == if l == ReadyList(2) then [0] else []
  {
    hide Linked, PoolOk, CreateThread, Unlink, PushBack, Fresh, Without, Init, AllHomed, IdleOk;
    var s := FirstThread(n);
    w := IdleListed(s);
    InitIs(n, s, w);
    IdleAlone(w);
    assert w.threads.Keys == s.threads.Keys;
  }

  lemma InitIs(n: nat, s: Sched, w: Sched)
    requires CreateThread(Sched(map[], map[], None, Fresh(n)), false) == Ok((s, 0)) && 0 in s.threads
    requires 0 in Unlink(s, 0).threads
    requires var u := Unlink(s, 0); PushBack(u.(threads := u.threads[0 := u.threads[0].(priority := 2)]), ReadyList(2), 0) == Ok(w)
    ensures Init(n) == Ok(w)
  {
    hide CreateThread, Unlink, PushBack, Fresh;
  }

  lemma IdleAlone(w: Sched)
    requires w.threads == map[0 := Thread(Ready, 2, Some(ReadyList(2)))]
    ensures AllHomed(w) && IdleOk(w)
  {
  }

  /** The second half of init: off the ready list, to the lowest priority, and back on. */
  lemma IdleListed(s: Sched) returns (w: Sched)
    requires Linked(s) && s.threads == map[0 := Thread(Ready, 1, Some(ReadyList(1)))]
    requires forall l :: Without(s.List(l), 0) == []
    ensures 0 in Unlink(s, 0).threads
    ensures var u := Unlink(s, 0);
      PushBack(u.(threads := u.threads[0 := u.threads[0].(priority := 2)]), ReadyList(2), 0) == Ok(w)
    ensures Linked(w) && w.current == s.current && w.stacks == s.stacks
    ensures w.threads == map[0 := Thread(Ready, 2, Some(ReadyList(2)))]
    ensures forall l :: w.List(l) == if l == ReadyList(2) then [0] else []
  {
    hide Linked, Unlink, PushBack, Without;
    var u := UnlinkKeeps(s, 0);
    var v := u.(threads := u.threads[0 := Thread(Ready, 2, None)]);
    assert forall l :: v.List(l) == u.List(l);
    LinkedCong(u, v);
    w := PushKeeps(v, ReadyList(2), 0);
    assert w.threads == map[0 := Thread(Ready, 2, Some(ReadyList(2)))];
  }

  lemma FirstThread(n: nat) returns (s: Sched)
    requires n >= 1
    ensures CreateThread(Sched(map[], map[], None, Fresh(n)), false) == Ok((s, 0))
    ensures s.current == None && s.stacks == Pool(n, Fresh(n).free[1..])
    ensures s.threads == map[0 := Thread(Ready, 1, Some(ReadyList(1)))]
    ensures Linked(s) && PoolOk(s.stacks, s.threads.Keys)
    ensures forall l :: Without(s.List(l), 0) == []
  {
    FreshOk(n);
    var s0 := Sched(map[], map[], None, Fresh(n));
    assert {} == s0.threads.Keys;
    assert Linked(s0);
    hide Linked, PoolOk, CreateThread;
    var t;
    s, t := CreateThreadLinked(s0, false);
  }

  lemma BootKeeps(n: nat)
    ensures Boot(n).Ok? <==> n >= 2
    ensures n >= 2 ==>
      && SchedOk(Boot(n).value) && Running(Boot(n).value)
      && Boot(n).value.current == Some(1) && Boot(n).value.stacks.size == n
      && Boot(n).value.threads == map[0 := Thread(Ready, 2, Some(ReadyList(2))), 1 := Thread(Ready, 1, Some(ReadyList(1)))]
  {
    if n == 0 {
      assert Alloc(Fresh(0)).Abort?;
    } else {
      hide Linked, AllHomed, IdleOk, PoolOk, SchedOk, Running, CreateThread, Init;
      var w := InitKeeps(n);
      CreateThreadFailsIff(w, false);
      if n >= 2 {
        var b := StartupRuns(n, w);
      }
    }
  }

  lemma StartupRuns(n: nat, w: Sched) returns (b: Sched)
    requires n >= 2 && SchedOk(w) && w.stacks == Pool(n, Fresh(n).free[1..])
    requires w.threads == map[0 := Thread(Ready, 2, Some(ReadyList(2)))]
    requires forall l :: w.List(l) == if l == ReadyList(2) then [0] else []
    ensures CreateThread(w, false).Ok? && CreateThread(w, false).value.1 == 1
    ensures b == CreateThread(w, false).value.0.(current := Some(1)) && SchedOk(b) && Running(b) && b.stacks.size == n
    ensures b.threads == map[0 := Thread(Ready, 2, Some(ReadyList(2))), 1 := Thread(Ready, 1, Some(ReadyList(1)))]
  {
    hide SchedOk, CreateThread;
    var r, t := CreateThreadKeeps(w, false);
    FirstFree(w, r, t);
    b := r.(current := Some(1));
    SchedOkCurrent(r, b);
  }

  /** A new thread takes the first free stack. */
  lemma FirstFree(s: Sched, r: Sched, t: Tid)
    requires Alloc(s.stacks).Ok? && CreateThread(s, false) == Ok((r, t))
    ensures t == s.stacks.free[0] && r.stacks.size == s.stacks.size
  {
  }

  /** Each live thread is on exactly one list, and there exactly once. */
  lemma OnExactlyOneList(s: Sched, t: Tid) returns (l: ListId)
    requires SchedOk(s) && t in s.threads
    ensures s.threads[t].state == Ready <==> l == ReadyList(s.threads[t].priority)
    ensures s.threads[t].state == Sleeping <==> l.WaitList?
    ensures multiset(s.List(l))[t] == 1
    ensures forall k :: k != l ==> t !in s.List(k)
  {
    l := s.threads[t].hook.value;
    assert t in s.List(l);
    OnceInNoDup(s.List(l), t);
    assert forall k :: t in s.List(k) ==> s.threads[t].hook == Some(k);
  }

  lemma {:induction false} OnceInNoDup(s: seq<Tid>, t: Tid)
    requires NoDup(s) && t in s
    ensures multiset(s)[t] == 1
  {
    assert s == [s[0]] + s[1..];
    assert s[0] !in s[1..];
    if s[0] != t {
      OnceInNoDup(s[1..], t);
    }
  }
}
