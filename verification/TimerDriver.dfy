/** The timer queue as it runs: timer objects linked into a queue and advanced in place, with the
    comparator and the events that wake the sleepers. */
module TimerDrivers {
  import opened Common
  import opened Pools
  import opened S = Sched
  import opened T = Timers
  import opened K = Kernel
  import opened PoolAllocators
  import opened Schedulers
  import opened Sync

  class TimerObject {
    const slot: nat
    var wakeupTime: Word
    var repeatTime: Word
    ghost var stamp: nat

    constructor (i: nat, wake: Word, repeat: Word, ghost placement: nat)
      ensures Value() == TimerEvent(i, wake, repeat, placement)
    {
      slot, wakeupTime, repeatTime, stamp := i, wake, repeat, placement;
    }

    ghost function Value(): TimerEvent
      reads this
    {
      TimerEvent(slot, wakeupTime, repeatTime, stamp)
    }

    /** To the next period. */
    method Advance(ghost placement: nat)
      modifies this
      ensures Value() == T.Advance(old(Value()), placement)
    {
      wakeupTime := (wakeupTime + repeatTime) % TWO64;
      stamp := placement;
    }
  }

  ghost function Values(q: seq<TimerObject>): (r: seq<TimerEvent>)
    reads q
    ensures |r| == |q|
    ensures forall i :: 0 <= i < |q| ==> r[i] == q[i].Value()
  {
    if q == [] then [] else [q[0].Value()] + Values(q[1..])
  }

  class TimerDriver {
    const scheduler: Scheduler
    const pool: PoolAllocator
    var queue: seq<TimerObject>
    var comparator: Option<nat>
    const events: Events
    ghost var placed: nat

    ghost predicate Valid()
      reads this, queue, pool, pool.words, scheduler, scheduler.stackPool, scheduler.stackPool.words,
        scheduler.threads.Values
    {
      && pool.Valid() && NoDup(queue) && scheduler.Valid()
      && events.scheduler == scheduler && pool != scheduler.stackPool && pool.words != scheduler.stackPool.words
    }

    ghost function View(): T.Timers
      reads this, queue, pool
    {
      T.Timers(Values(queue), comparator, pool.Value(), placed)
    }

    /** A kernel state with the parts this object and the scheduler hold. */
    ghost function In(k: Kernel): Kernel
      reads this, queue, pool, events, scheduler, scheduler.stackPool, scheduler.threads.Values
    {
      k.(sched := scheduler.View(), active := events.active, timers := View())
    }

    constructor (s: Scheduler, e: Events)
      requires s.Valid() && e.scheduler == s
      ensures Valid() && scheduler == s && events == e && fresh(pool) && fresh(pool.words)
      ensures View() == T.Timers([], None, Fresh(MAX_TIMERS), 0)
    {
      scheduler, events := s, e;
      pool := new PoolAllocator(MAX_TIMERS);
      queue, comparator, placed := [], None, 0;
    }

    /** placeTimerEvent. */
    method Place(event: TimerObject)
      requires NoDup(queue) && event !in queue
      modifies this`queue
      ensures NoDup(queue) && forall e :: e in queue <==> e in old(queue) || e == event
      ensures Values(queue) == T.Place(Values(old(queue)), event.Value())
    {
      hide Values, T.Place, NoDup;
      var i := 0;
      while i < |queue| && queue[i].wakeupTime <= event.wakeupTime
        invariant 0 <= i <= |queue|
        invariant forall j :: 0 <= j < i ==> queue[j].wakeupTime <= event.wakeupTime
      {
        i := i + 1;
      }
      PlaceAt(Values(queue), event.Value(), i);
      ValuesInsert(queue, event, i);
      InsertNew(queue, event, i);
      queue := queue[..i] + [event] + queue[i..];
    }

    /** A timer event is built in a slot of the pool: its own event unset, with nobody waiting. */
    method NewEvent(trigger: Word, repeat: Word) returns (r: Outcome<TimerObject>)
      requires Valid()
      modifies events, this`placed, pool, scheduler`lists
      ensures Valid() && queue == old(queue)
      ensures r.Abort? ==> Pools.Alloc(old(pool.Value())) == Abort(r.reason)
      ensures r.Ok? ==>
        && fresh(r.value) && r.value.Value() == TimerEvent(r.value.slot, trigger, repeat, old(placed))
        && Pools.Alloc(old(pool.Value())) == Ok((pool.Value(), r.value.slot))
        && placed == old(placed) + 1 && events.active == old(events.active) - {Slot(r.value.slot)}
        && scheduler.View() == S.NewQueue(old(scheduler.View()), EventQ(Slot(r.value.slot)))
    {
      var slot := pool.Alloc();
      if slot.Abort? {
        return Abort(slot.reason);
      }
      hide NoDup, S.NewQueue;
      var event := new TimerObject(slot.value, trigger, repeat, placed);
      placed := placed + 1;
      assert scheduler.View() == old(scheduler.View());
      events.New(Slot(slot.value));
      return Ok(event);
    }

    /** registerTimer. */
    method RegisterTimer(trigger: Word, repeat: Word) returns (r: Outcome<nat>)
      requires Valid()
      modifies this, pool, events, scheduler`lists
      ensures Valid() && forall e :: e in queue ==> e in old(queue) || fresh(e)
      ensures r.Ok? ==>
        && Register(old(View()), trigger, repeat) == Ok((View(), r.value))
        && events.active == old(events.active) - {Slot(r.value)}
        && scheduler.View() == S.NewQueue(old(scheduler.View()), EventQ(Slot(r.value)))
      ensures r.Abort? ==> Register(old(View()), trigger, repeat) == Abort(r.reason)
    {
      hide Values, T.Place, NoDup, Register, Pools.Alloc, S.NewQueue, Scheduler.View, Scheduler.Valid, PoolAllocator.Valid;
      ghost var ts := View();
      var made := NewEvent(trigger, repeat);
      if made.Abort? {
        RegisterFails(ts, trigger, repeat);
        return Abort(made.reason);
      }
      var event := made.value;
      Insert(event);
      RegisterIs(ts, View(), event.Value());
      return Ok(event.slot);
    }

    /** The comparator is written only when the event goes to the front. */
    method Insert(event: TimerObject)
      requires Valid() && event !in queue
      modifies this`queue, this`comparator
      ensures Valid() && scheduler.View() == old(scheduler.View())
      ensures forall e :: e in queue <==> e in old(queue) || e == event
      ensures Values(queue) == T.Place(Values(old(queue)), event.Value())
      ensures old(queue == [] || queue[0].wakeupTime > event.wakeupTime) ==> comparator == Some(event.wakeupTime)
      ensures !old(queue == [] || queue[0].wakeupTime > event.wakeupTime) ==> comparator == old(comparator)
    {
      hide T.Place, NoDup, Values, Scheduler.View, Scheduler.Valid, PoolAllocator.Valid;
      var first := queue == [] || queue[0].wakeupTime > event.wakeupTime;
      Place(event);
      if first {
        comparator := Some(event.wakeupTime);
      }
    }

    /** sleep_ns, as far as the switch to another thread: the event is new, so it is unset and the
        wait blocks. The slot is the handle that is cleared when the thread runs on. */
    method SleepNs(now: nat, ns: nat, freq: nat) returns (r: Outcome<nat>)
      requires Valid()
      modifies this, pool, events, scheduler`lists, scheduler`current, scheduler.threads.Values
      ensures Valid()
      ensures r.Ok? ==>
        && Register(old(View()), Deadline(now, ns, freq), 0) == Ok((View(), r.value)) && Slot(r.value) !in events.active
        && S.SleepOn(S.NewQueue(old(scheduler.View()), EventQ(Slot(r.value))), EventQ(Slot(r.value))) == Ok(scheduler.View())
      ensures r.Abort? ==>
        var placed := Register(old(View()), Deadline(now, ns, freq), 0);
        if placed.Abort? then r == Abort(placed.reason)
        else
          var q := EventQ(Slot(placed.value.1));
          S.SleepOn(S.NewQueue(old(scheduler.View()), q), q) == Abort(r.reason)
    {
      hide Values, Register, Deadline, NoDup, S.NewQueue, S.SleepOn, Scheduler.View, Scheduler.Valid, PoolAllocator.Valid;
      var slot := RegisterTimer(Deadline(now, ns, freq), 0);
      if slot.Abort? {
        return slot;
      }
      ghost var ts := View();
      var slept := scheduler.SleepOn(EventQ(Slot(slot.value)));
      assert View() == ts;
      return if slept.Ok? then slot else Abort(slept.reason);
    }

    /** TimerHandle::clear. A null handle is left alone; the slot of any other is freed, whether or not
        its event has left the queue: KernelSteps.ClearKeepsIff says when that is sound. */
    method ClearHandle(event: int) returns (r: Outcome<()>)
      requires Valid()
      modifies pool, pool.words
      ensures event == NULL ==> r.Ok? && unchanged(pool) && unchanged(pool.words)
      ensures event != NULL ==> Freed(pool, event, r)
      ensures event !in old(pool.free) ==> Valid()
    {
      hide NoDup, PoolAllocator.Valid, Scheduler.Valid;
      r := Ok(());
      if event != NULL {
        r := pool.Free(event);
      }
    }

    /** A periodic event that has fired is placed again. */
    method Requeue(event: TimerObject)
      requires Valid() && event !in queue
      modifies this`queue, this`placed, event
      ensures Valid() && scheduler.View() == old(scheduler.View())
      ensures forall e :: e in queue ==> e in old(queue) || e == event
      ensures old(event.repeatTime) == 0 ==> Values(queue) == old(Values(queue)) && placed == old(placed)
      ensures old(event.repeatTime) != 0 ==>
        && Values(queue) == T.Place(old(Values(queue)), T.Advance(old(event.Value()), old(placed)))
        && placed == old(placed) + 1
    {
      hide T.Place, T.Advance, Values, NoDup, Scheduler.View, Scheduler.Valid, PoolAllocator.Valid;
      if event.repeatTime != 0 {
        event.Advance(placed);
        assert Values(queue) == old(Values(queue));
        placed := placed + 1;
        Place(event);
      }
    }

    /** One turn of handleTimerInterrupt's loop: the front is due. */
    method FireFront(ghost k: Kernel)
      requires Valid() && Linked(scheduler.View()) && AllHomed(scheduler.View()) && queue != []
      modifies this`queue, events, this`placed, queue[0], scheduler`lists, scheduler.threads.Values
      ensures Valid() && Linked(scheduler.View()) && AllHomed(scheduler.View())
      ensures scheduler.threads == old(scheduler.threads) && forall e :: e in queue ==> e in old(queue)
      ensures In(k) == AfterFront(old(In(k)), scheduler.View())
      ensures WakeAll(old(scheduler.View()), EventQ(Slot(old(queue[0].slot)))) == Ok(scheduler.View())
    {
      hide Linked, AllHomed, T.Place, T.Advance, Values, WakeAll, NoDup, Scheduler.View, Scheduler.Valid, PoolAllocator.Valid,
        In, AfterFront;
      var front := PopFront();
      events.Set(Slot(front.slot));
      assert Values(queue) == old(Values(queue))[1..] && front.Value() == old(Values(queue))[0];
      Requeue(front);
      FrontFired(k);
    }

    method PopFront() returns (front: TimerObject)
      requires NoDup(queue) && queue != []
      modifies this`queue
      ensures front == old(queue[0]) && front !in queue && NoDup(queue)
      ensures Values(queue) == Values(old(queue))[1..] && forall e :: e in queue ==> e in old(queue)
    {
      hide NoDup, Values;
      ValuesTail(queue);
      NoDupTail(queue);
      front := queue[0];
      queue := queue[1..];
    }

    twostate lemma FrontFired(k: Kernel)
      requires old(queue) != []
      requires Values(queue) == Turn(old(Values(queue)), old(placed))
      requires placed == old(placed) + if old(queue[0].repeatTime) == 0 then 0 else 1
      requires comparator == old(comparator) && pool.Value() == old(pool.Value())
      requires events.active == old(events.active) + {Slot(old(queue[0].slot))}
      ensures In(k) == AfterFront(old(In(k)), scheduler.View())
    {
      hide Turn, Scheduler.View;
    }

    /** The loop of handleTimerInterrupt. An event that fires is set before the next one is looked at;
        that comes to the same as settling the whole queue first. */
    method FireDue(now: nat, ghost k: Kernel)
      requires Valid() && Linked(scheduler.View()) && AllHomed(scheduler.View())
      requires LoopEnds(Values(queue), now)
      modifies this, queue, events, scheduler`lists, scheduler.threads.Values
      ensures Valid() && Linked(scheduler.View()) && AllHomed(scheduler.View())
      ensures TimerHandler(old(In(k)), now) == Ok(In(k).(timers := View().(comparator := Head(Values(queue)))))
    {
      hide Linked, AllHomed, SetEvent, T.Place, LoopEnds, TotalTurns, Values, TimerHandler, AfterInterrupt, WakeAll, SetFired,
        AfterFront, NoDup, Scheduler.View, Scheduler.Valid, PoolAllocator.Valid;
      ghost var all := TimerHandler(In(k), now);
      HandlerIs(In(k), now);
      while queue != [] && queue[0].wakeupTime <= now
        invariant Valid() && Linked(scheduler.View()) && AllHomed(scheduler.View())
        invariant scheduler.threads == old(scheduler.threads)
        invariant forall e :: e in queue ==> e in old(queue)
        invariant LoopEnds(Values(queue), now)
        invariant all == SetFired(In(k).(timers := AfterInterrupt(View(), now).0), AfterInterrupt(View(), now).1)
        decreases TotalTurns(Values(queue), now)
      {
        assert queue[0] in queue;
        ghost var was := In(k);
        FireFront(k);
        DueStep(was, now, scheduler.View());
      }
      NothingDue(View(), now);
    }

    /** handleTimerInterrupt. */
    method HandleTimerInterrupt(now: nat, ghost k: Kernel)
      requires Valid() && Linked(scheduler.View()) && AllHomed(scheduler.View())
      requires LoopEnds(Values(queue), now)
      modifies this, queue, events, scheduler`lists, scheduler.threads.Values
      ensures Valid() && Linked(scheduler.View()) && AllHomed(scheduler.View())
      ensures TimerHandler(old(In(k)), now) == Ok(In(k))
    {
      hide Linked, AllHomed, LoopEnds, Values, TimerHandler, NoDup, Scheduler.View, Scheduler.Valid, PoolAllocator.Valid;
      FireDue(now, k);
      ProgramComparator();
    }

    /** The comparator is set to the head of the queue, or reset. */
    method ProgramComparator()
      requires Valid()
      modifies this`comparator
      ensures Valid() && View() == old(View()).(comparator := Head(Values(queue)))
    {
      comparator := if queue == [] then None else Some(queue[0].wakeupTime);
    }
  }

  lemma RegisterFails(ts: T.Timers, trigger: Word, repeat: Word)
    requires Pools.Alloc(ts.pool).Abort?
    ensures Register(ts, trigger, repeat) == Abort(Pools.Alloc(ts.pool).reason)
  {
  }

  lemma RegisterIs(ts: T.Timers, r: T.Timers, e: TimerEvent)
    requires Pools.Alloc(ts.pool) == Ok((r.pool, e.slot)) && e.stamp == ts.placed && r.placed == ts.placed + 1
    requires r.queue == T.Place(ts.queue, e)
    requires ts.queue == [] || ts.queue[0].wake > e.wake ==> r.comparator == Some(e.wake)
    requires !(ts.queue == [] || ts.queue[0].wake > e.wake) ==> r.comparator == ts.comparator
    ensures Register(ts, e.wake, e.repeat) == Ok((r, e.slot))
  {
    hide Pools.Alloc, T.Place;
  }

  lemma HandlerIs(k: Kernel, now: nat)
    requires LoopEnds(k.timers.queue, now)
    ensures TimerHandler(k, now) ==
      SetFired(k.(timers := AfterInterrupt(k.timers, now).0), AfterInterrupt(k.timers, now).1)
  {
  }

  lemma NothingDue(ts: T.Timers, now: nat)
    requires LoopEnds(ts.queue, now) && (ts.queue == [] || ts.queue[0].wake > now)
    ensures AfterInterrupt(ts, now) == (ts.(comparator := Head(ts.queue)), [])
    ensures forall k :: SetFired(k, []) == Ok(k)
  {
  }

  /** Settling the queue and then setting the events, from a state whose front is due. */
  lemma DueStep(k: Kernel, now: nat, s: S.Sched)
    requires LoopEnds(k.timers.queue, now) && k.timers.queue != [] && k.timers.queue[0].wake <= now
    requires WakeAll(k.sched, EventQ(Slot(k.timers.queue[0].slot))) == Ok(s)
    ensures var next := AfterFront(k, s);
      && LoopEnds(next.timers.queue, now) && TotalTurns(next.timers.queue, now) < TotalTurns(k.timers.queue, now)
      && SetFired(k.(timers := AfterInterrupt(k.timers, now).0), AfterInterrupt(k.timers, now).1)
        == SetFired(next.(timers := AfterInterrupt(next.timers, now).0), AfterInterrupt(next.timers, now).1)
  {
    hide WakeAll, Turn, LoopEnds, TotalTurns, AfterInterrupt, SetFired;
    var q := k.timers.queue;
    AfterTurn(k.timers, AfterFront(k, s).timers, now);
    var (last, fired) := AfterInterrupt(AfterFront(k, s).timers, now);
    SetFirst(k.(timers := last), Firing(q[0].slot, q[0].wake), fired, s);
  }

  lemma AfterTurn(ts: T.Timers, next: T.Timers, now: nat)
    requires LoopEnds(ts.queue, now) && ts.queue != [] && ts.queue[0].wake <= now
    requires next == ts.(queue := Turn(ts.queue, ts.placed), placed := Placements(ts.queue, ts.placed))
    ensures LoopEnds(next.queue, now) && TotalTurns(next.queue, now) < TotalTurns(ts.queue, now)
    ensures var (last, fired) := AfterInterrupt(next, now);
      AfterInterrupt(ts, now) == (last, [Firing(ts.queue[0].slot, ts.queue[0].wake)] + fired)
  {
    TurnProgress(ts.queue, ts.placed, now);
    hide Turn, LoopEnds, TotalTurns, Placements;
  }

  lemma SetFirst(k: Kernel, f: Firing, rest: seq<Firing>, s: S.Sched)
    requires WakeAll(k.sched, EventQ(Slot(f.slot))) == Ok(s)
    ensures SetFired(k, [f] + rest) == SetFired(k.(sched := s, active := k.active + {Slot(f.slot)}), rest)
  {
    hide WakeAll;
    assert ([f] + rest)[1..] == rest;
  }

  function AfterFront(k: Kernel, s: S.Sched): Kernel
    requires k.timers.queue != []
  {
    var q := k.timers.queue;
    var placed := k.timers.placed + if q[0].repeat == 0 then 0 else 1;
    k.(sched := s, active := k.active + {Slot(q[0].slot)},
       timers := k.timers.(queue := Turn(q, k.timers.placed), placed := placed))
  }

  lemma ValuesTail(q: seq<TimerObject>)
    requires q != []
    ensures Values(q[1..]) == Values(q)[1..]
  {
  }

  lemma NoDupTail<T>(q: seq<T>)
    requires NoDup(q) && q != []
    ensures NoDup(q[1..]) && q[0] !in q[1..] && forall x :: x in q[1..] ==> x in q
  {
  }

  lemma InsertNew<T>(q: seq<T>, e: T, i: nat)
    requires NoDup(q) && e !in q && i <= |q|
    ensures NoDup(q[..i] + [e] + q[i..])
    ensures forall x :: x in q[..i] + [e] + q[i..] <==> x in q || x == e
  {
    assert q == q[..i] + q[i..];
  }

  lemma ValuesInsert(q: seq<TimerObject>, e: TimerObject, i: nat)
    requires i <= |q|
    ensures Values(q[..i] + [e] + q[i..]) == Values(q)[..i] + [e.Value()] + Values(q)[i..]
  {
    ValuesAppend(q[..i] + [e], q[i..]);
    ValuesAppend(q[..i], [e]);
    ValuesAppend(q[..i], q[i..]);
    assert Values([e]) == [e.Value()];
    assert q == q[..i] + q[i..];
    hide Values;
  }

  lemma ValuesAppend(a: seq<TimerObject>, b: seq<TimerObject>)
    ensures Values(a + b) == Values(a) + Values(b)
  {
    hide Values;
  }
}
