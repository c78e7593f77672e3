/** The scheduler as it runs: thread objects updated in place, the intrusive lists, the stack
    allocator. Each method does to View() what the function of module Sched named like it says. */
module Schedulers {
  import opened Common
  import opened Pools
  import opened S = Sched
  import opened PoolAllocators

  class ThreadObject {
    /** The stack at whose top the object lives. */
    const slot: Tid
    var state: ThreadState
    var priority: nat
    var hook: Option<ListId>

    constructor (t: Tid, p: nat)
      ensures slot == t && Value() == Thread(Ready, p, None)
    {
      slot, state, priority, hook := t, Ready, p, None;
    }

    ghost function Value(): Thread
      reads this
    {
      Thread(state, priority, hook)
    }
  }

  class Scheduler {
    const stackPool: PoolAllocator
    var threads: map<Tid, ThreadObject>
    var lists: map<ListId, seq<Tid>>
    var current: Option<Tid>

    /** Thread objects live in the stacks they were created on, and those stacks are not free. */
    ghost predicate Valid()
      reads this, stackPool, stackPool.words, threads.Values
    {
      && stackPool.Valid()
      && forall t :: t in threads ==> threads[t].slot == t && t !in stackPool.free
    }

    ghost function View(): Sched
      reads this, stackPool, threads.Values
    {
      S.Sched(map t | t in threads :: threads[t].Value(), lists, current, stackPool.Value())
    }

    function List(l: ListId): (r: seq<Tid>)
      reads this
      ensures r == View().List(l)
    {
      if l in lists then lists[l] else []
    }

    constructor (n: nat)
      requires n != 0
      ensures Valid() && fresh(stackPool) && fresh(stackPool.words) && threads == map[]
      ensures View() == S.Sched(map[], map[], None, Fresh(n))
    {
      stackPool := new PoolAllocator(n);
      threads, lists, current := map[], map[], None;
    }

    /** A thread queue is constructed, empty. */
    method NewQueue(q: QueueId)
      requires Valid()
      modifies this`lists
      ensures Valid() && View() == S.NewQueue(old(View()), q)
    {
      lists := lists[WaitList(q) := []];
      SameThreads(View(), S.NewQueue(old(View()), q));
    }

    /** _listHook.unlink(). */
    method Unlink(t: Tid)
      requires Valid() && t in threads
      modifies this`lists, threads[t]
      ensures Valid() && View() == S.Unlink(old(View()), t)
      ensures threads[t].hook.None?
    {
      var thread := threads[t];
      if thread.hook.Some? {
        lists := lists[thread.hook.value := Without(List(thread.hook.value), t)];
        thread.hook := None;
      }
      SameThreads(View(), S.Unlink(old(View()), t));
    }

    method PushBack(l: ListId, t: Tid) returns (r: Outcome<()>)
      requires Valid() && t in threads
      modifies this`lists, threads[t]
      ensures Valid()
      ensures r.Ok? ==> S.PushBack(old(View()), l, t) == Ok(View())
      ensures r.Abort? ==> S.PushBack(old(View()), l, t) == Abort(r.reason)
    {
      if threads[t].hook.Some? {
        return Abort(HookLinked);
      }
      lists := lists[l := List(l) + [t]];
      threads[t].hook := Some(l);
      SameThreads(View(), S.PushBack(old(View()), l, t).value);
      return Ok(());
    }

    method CreateThread(high: bool) returns (r: Outcome<Tid>)
      requires Valid()
      modifies this`threads, this`lists, stackPool
      ensures Valid() && fresh(threads.Values - old(threads.Values))
      ensures r.Ok? ==> r.value in threads && fresh(threads[r.value])
      ensures r.Ok? ==> S.CreateThread(old(View()), high) == Ok((View(), r.value))
      ensures r.Abort? ==> S.CreateThread(old(View()), high) == Abort(r.reason)
    {
      hide S.PushBack, PoolAllocator.Valid;
      var p := if high then 0 else 1;
      r := NewThread(p);
      if r.Ok? {
        var pushed := PushBack(ReadyList(p), r.value);
        if pushed.Abort? {
          r := Abort(pushed.reason);
        }
      }
    }

    /** A thread object is built at the top of a free stack. */
    method NewThread(p: nat) returns (r: Outcome<Tid>)
      requires Valid()
      modifies this`threads, stackPool
      ensures Valid()
      ensures r.Abort? ==> Pools.Alloc(old(stackPool.Value())) == Abort(r.reason) && threads == old(threads)
      ensures r.Ok? ==>
        && Pools.Alloc(old(stackPool.Value())) == Ok((stackPool.Value(), r.value))
        && r.value in threads && fresh(threads[r.value]) && fresh(threads.Values - old(threads.Values))
        && View() == old(View()).(stacks := stackPool.Value(), threads := old(View()).threads[r.value := Thread(Ready, p, None)])
    {
      hide PoolAllocator.Valid;
      r := stackPool.Alloc();
      if r.Ok? {
        SameThreads(View(), old(View()).(stacks := stackPool.Value()));
        Add(r.value, p);
      }
    }

    method Add(t: Tid, p: nat)
      requires Valid() && t !in stackPool.free
      modifies this`threads
      ensures Valid() && t in threads && fresh(threads[t]) && threads == old(threads)[t := threads[t]]
      ensures View() == old(View()).(threads := old(View()).threads[t := Thread(Ready, p, None)])
    {
      hide PoolAllocator.Valid;
      var thread := new ThreadObject(t, p);
      threads := threads[t := thread];
      SameThreads(View(), old(View()).(threads := old(View()).threads[t := Thread(Ready, p, None)]));
    }

    /** init, on a scheduler just constructed. */
    method Init() returns (r: Outcome<()>)
      requires Valid() && View() == S.Sched(map[], map[], None, Fresh(stackPool.size))
      modifies this`threads, this`lists, stackPool
      ensures Valid() && fresh(threads.Values)
      ensures r.Ok? ==> S.Init(stackPool.size) == Ok(View())
      ensures r.Abort? ==> S.Init(stackPool.size) == Abort(r.reason)
    {
      hide S.CreateThread, S.Unlink, S.PushBack;
      assert threads == map[] by {
        assert View().threads.Keys == threads.Keys;
      }
      var idle := CreateThread(false);
      if idle.Abort? {
        return Abort(idle.reason);
      }
      var t := idle.value;
      Unlink(t);
      SetPriority(t, 2);
      r := PushBack(ReadyList(2), t);
    }

    method SetPriority(t: Tid, p: nat)
      requires Valid() && t in threads
      modifies threads[t]
      ensures Valid() && threads[t].hook == old(threads[t].hook)
      ensures View() == old(View()).(threads := old(View()).threads[t := old(View()).threads[t].(priority := p)])
    {
      hide PoolAllocator.Valid;
      threads[t].priority := p;
      SameThreads(View(), old(View()).(threads := old(View()).threads[t := old(View()).threads[t].(priority := p)]));
    }

    method Schedule(t: Tid) returns (r: Outcome<()>)
      requires Valid()
      modifies this`lists, if t in threads then {threads[t]} else {}
      ensures Valid()
      ensures r.Ok? ==> S.Schedule(old(View()), t) == Ok(View())
      ensures r.Abort? ==> S.Schedule(old(View()), t) == Abort(r.reason)
    {
      if t !in threads {
        return Abort(Dangling);
      }
      if threads[t].state == Ready {
        return Abort(AlreadyReady);
      }
      r := Move(t, Ready, ReadyList(threads[t].priority));
    }

    method Move(t: Tid, st: ThreadState, l: ListId) returns (r: Outcome<()>)
      requires Valid() && t in threads
      modifies this`lists, threads[t]
      ensures Valid()
      ensures r.Ok? ==> S.Move(old(View()), t, st, l) == Ok(View())
      ensures r.Abort? ==> S.Move(old(View()), t, st, l) == Abort(r.reason)
    {
      hide S.Unlink, S.PushBack;
      Unlink(t);
      ghost var s := View();
      threads[t].state := st;
      SameThreads(View(), SetState(s, t, st));
      r := PushBack(l, t);
    }

    method SleepOn(q: QueueId) returns (r: Outcome<()>)
      requires Valid()
      modifies this`lists, this`current, if current.Some? && current.value in threads then {threads[current.value]} else {}
      ensures Valid()
      ensures r.Ok? ==> S.SleepOn(old(View()), q) == Ok(View())
      ensures r.Abort? ==> S.SleepOn(old(View()), q) == Abort(r.reason)
    {
      if current.None? || current.value !in threads {
        return Abort(Dangling);
      }
      if threads[current.value].state != Ready {
        return Abort(NotReady);
      }
      hide S.Move, S.Reschedule;
      r := Move(current.value, Sleeping, WaitList(q));
      if r.Ok? {
        r := Reschedule();
      }
    }

    /** rescheduleImpl. */
    method Reschedule() returns (r: Outcome<()>)
      requires Valid()
      modifies this`current
      ensures Valid()
      ensures r.Ok? ==> S.Reschedule(old(View())) == Ok(View())
      ensures r.Abort? ==> S.Reschedule(old(View())) == Abort(r.reason)
    {
      ghost var s := View();
      if current.Some? && current.value !in threads {
        return Abort(Dangling);
      }
      if current.Some? && threads[current.value].state == Ready {
        var p := threads[current.value].priority;
        ghost var better := FirstReady(s, 0, p);
        assert S.Reschedule(s) == Ok(if better.Some? then s.(current := better) else s);
        for i := 0 to p
          invariant View() == s && better == FirstReady(s, i, p)
        {
          if List(ReadyList(i)) != [] {
            assert better == Some(s.List(ReadyList(i))[0]);
            current := Some(List(ReadyList(i))[0]);
            SameThreads(View(), s.(current := better));
            return Ok(());
          }
        }
      } else {
        ghost var best := FirstReady(s, 0, NUM_PRIORITIES);
        assert S.Reschedule(s) == if best.None? then Abort(NoReadyThread) else Ok(s.(current := best));
        for i := 0 to NUM_PRIORITIES
          invariant View() == s && best == FirstReady(s, i, NUM_PRIORITIES)
        {
          if List(ReadyList(i)) != [] {
            assert best == Some(s.List(ReadyList(i))[0]);
            current := Some(List(ReadyList(i))[0]);
            SameThreads(View(), s.(current := best));
            return Ok(());
          }
        }
        return Abort(NoReadyThread);
      }
      return Ok(());
    }

    method StopThread() returns (r: Outcome<()>)
      requires Valid()
      modifies this, stackPool, stackPool.words, if current.Some? && current.value in threads then {threads[current.value]} else {}
      ensures Valid() && threads.Values <= old(threads.Values)
      ensures r.Ok? ==> S.StopThread(old(View())) == Ok(View())
      ensures r.Abort? ==> S.StopThread(old(View())) == Abort(r.reason)
    {
      if current.None? || current.value !in threads {
        return Abort(Dangling);
      }
      var t := current.value;
      hide S.Unlink, S.Reschedule;
      Unlink(t);
      r := Destroy(t);
      if r.Ok? {
        r := Reschedule();
      }
    }

    /** The destructor gives the stack back, and the thread is gone. */
    method Destroy(t: Tid) returns (r: Outcome<()>)
      requires Valid() && t in threads
      modifies this`threads, this`current, stackPool, stackPool.words, threads[t]
      ensures Valid() && threads == old(threads) - {t}
      ensures r.Abort? ==> Pools.Free(old(stackPool.Value()), t) == Abort(r.reason)
      ensures r.Ok? ==>
        && Pools.Free(old(stackPool.Value()), t) == Ok(stackPool.Value())
        && View() == old(View()).(threads := old(View()).threads - {t}, stacks := stackPool.Value(), current := None)
    {
      hide PoolAllocator.Valid;
      threads[t].state := Dead;
      r := stackPool.Free(t);
      threads, current := threads - {t}, None;
      if r.Ok? {
        SameThreads(View(), old(View()).(threads := old(View()).threads - {t}, stacks := stackPool.Value(), current := None));
      }
    }

    /** Saros::wakeAllThreads. The loop ends because scheduling the front unlinks it from the queue,
        which is so as long as hooks and lists agree. */
    method WakeAllThreads(q: QueueId) returns (r: Outcome<()>)
      requires Valid() && Linked(View()) && AllHomed(View())
      modifies this`lists, threads.Values
      ensures Valid() && Linked(View()) && AllHomed(View())
      ensures r.Ok? && WakeAll(old(View()), q) == Ok(View())
    {
      hide Linked, AllHomed, S.Schedule;
      while List(WaitList(q)) != []
        invariant Valid() && Linked(View()) && AllHomed(View())
        invariant threads == old(threads)
        invariant WakeAll(old(View()), q) == WakeAll(View(), q)
        decreases |List(WaitList(q))|
      {
        ghost var t, w := ScheduleFront(View(), q);
        r := Schedule(List(WaitList(q))[0]);
      }
      r := Ok(());
    }

    /** Saros::wakeOneThread, as it is written. */
    method WakeOneThread(q: QueueId) returns (r: Outcome<()>)
      requires Valid()
      modifies this`lists, threads.Values
      ensures Valid()
      ensures r.Ok? ==> WakeOneAsWritten(old(View()), q) == Ok(View())
      ensures r.Abort? ==> WakeOneAsWritten(old(View()), q) == Abort(r.reason)
    {
      hide S.Schedule;
      if List(WaitList(q)) != [] {
        r := Schedule(List(WaitList(q))[0]);
        if r.Ok? {
          r := PopFront(WaitList(q));
        }
        return;
      }
      return Ok(());
    }

    method PopFront(l: ListId) returns (r: Outcome<()>)
      requires Valid()
      modifies this`lists, threads.Values
      ensures Valid()
      ensures r.Ok? ==> S.PopFront(old(View()), l) == Ok(View())
      ensures r.Abort? ==> S.PopFront(old(View()), l) == Abort(r.reason)
    {
      if List(l) == [] {
        return Abort(PopFromEmpty);
      }
      var t := List(l)[0];
      if t !in threads {
        return Abort(Dangling);
      }
      lists := lists[l := List(l)[1..]];
      threads[t].hook := None;
      SameThreads(View(), S.PopFront(old(View()), l).value);
      return Ok(());
    }
  }

  /** Two states with the same threads, thread by thread, and the same rest are the same. */
  lemma SameThreads(a: Sched, b: Sched)
    requires a.threads.Keys == b.threads.Keys && forall t :: t in a.threads ==> a.threads[t] == b.threads[t]
    requires a.lists == b.lists && a.current == b.current && a.stacks == b.stacks
    ensures a == b
  {
    assert a.threads == b.threads;
  }
}
