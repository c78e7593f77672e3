/** The timer queue as a value: sorted insertion, registration, and what one timer interrupt does
    to the queue. */
module Timers {
  import opened Common
  import opened Orbits
  import opened Pools

  const MAX_TIMERS: nat := 10
  const NANO: nat := 1_000_000_000

  /** A registered timer. stamp numbers the placements into the queue, in order; no operation
      reads it. It is how "first come, first served among equal times" is stated. */
  datatype TimerEvent = TimerEvent(slot: nat, wake: Word, repeat: Word, stamp: nat)

  /** comparator: the cycle count the hardware compares against, if it is set. */
  datatype Timers = Timers(queue: seq<TimerEvent>, comparator: Option<nat>, pool: Pool, placed: nat)

  /** One occurrence of a timer being fired. */
  datatype Firing = Firing(slot: nat, time: nat)

  // ---------------------------------------------------------------- operations

  /** placeTimerEvent: in front of the first event that is strictly later. */
  function Place(q: seq<TimerEvent>, e: TimerEvent): (r: seq<TimerEvent>)
    ensures |r| == |q| + 1
    ensures multiset(r) == multiset(q) + multiset{e}
  {
    if q == [] then [e]
    else if q[0].wake <= e.wake then
      assert q == [q[0]] + q[1..];
      [q[0]] + Place(q[1..], e)
    else [e] + q
  }

  function Head(q: seq<TimerEvent>): Option<nat> {
    if q == [] then None else Some(q[0].wake)
  }

  /** registerTimer: the comparator is written only when the new event goes to the front. */
  function Register(ts: Timers, trigger: Word, repeat: Word): Outcome<(Timers, nat)> {
    var (pool, slot) :- Alloc(ts.pool);
    var first := ts.queue == [] || ts.queue[0].wake > trigger;
    var e := TimerEvent(slot, trigger, repeat, ts.placed);
    Ok((Timers(Place(ts.queue, e), if first then Some(trigger) else ts.comparator, pool, ts.placed + 1), slot))
  }

  /** registerTimerNs's conversion, with the 64-bit arithmetic it is done in. */
  function Cycles(ns: nat, freq: nat): nat {
    ns * freq % TWO64 / NANO
  }

  function Deadline(now: nat, ns: nat, freq: nat): Word {
    (now + Cycles(ns, freq)) % TWO64
  }

  /** The event is not due, is a one-shot, or gets past now when it is advanced often enough. This
      can be read off the event: see Escapes. */
  predicate Leaves(e: TimerEvent, now: nat) {
    e.wake <= now && e.repeat != 0 ==> Escapes(e.wake, e.repeat, now)
  }

  /** LoopEndsIff shows that this is when the interrupt's loop ends. */
  predicate LoopEnds(q: seq<TimerEvent>, now: nat) {
    forall e :: e in q ==> Leaves(e, now)
  }

  /** The turns of the loop in which the event is the front. */
  ghost function TurnsOf(e: TimerEvent, now: nat): nat {
    if e.wake > now then 0
    else if e.repeat == 0 then 1
    else if Escapes(e.wake, e.repeat, now) then TurnsLeft(e.wake, e.repeat, now)
    else 0
  }

  /** The measure under which the interrupt's loop makes progress. */
  ghost function TotalTurns(q: seq<TimerEvent>, now: nat): nat {
    if q == [] then 0 else TurnsOf(q[0], now) + TotalTurns(q[1..], now)
  }

  lemma {:induction false} PlaceTurns(q: seq<TimerEvent>, e: TimerEvent, now: nat)
    ensures TotalTurns(Place(q, e), now) == TotalTurns(q, now) + TurnsOf(e, now)
  {
    hide TurnsOf;
    if q != [] && q[0].wake <= e.wake {
      PlaceTurns(q[1..], e, now);
      assert Place(q, e)[1..] == Place(q[1..], e);
    } else {
      assert Place(q, e)[1..] == q;
    }
  }

  lemma PlaceElements(q: seq<TimerEvent>, e: TimerEvent)
    ensures forall x :: x in Place(q, e) <==> x in q || x == e
  {
    forall x ensures x in Place(q, e) <==> x in q || x == e {
      assert x in Place(q, e) <==> x in multiset(Place(q, e));
    }
  }

  function Advance(e: TimerEvent, stamp: nat): TimerEvent {
    e.(wake := (e.wake + e.repeat) % TWO64, stamp := stamp)
  }

  /** One turn of handleTimerInterrupt's loop: the front leaves and, if periodic, is placed again
      one period later. */
  function Turn(q: seq<TimerEvent>, placed: nat): seq<TimerEvent>
    requires q != []
  {
    if q[0].repeat == 0 then q[1..] else Place(q[1..], Advance(q[0], placed))
  }

  lemma AdvanceTurns(e: TimerEvent, stamp: nat, now: nat)
    requires e.wake <= now && e.repeat != 0
    ensures Leaves(Advance(e, stamp), now) <==> Leaves(e, now)
    ensures Leaves(e, now) ==> TurnsOf(e, now) == 1 + TurnsOf(Advance(e, stamp), now)
  {
    hide Escapes;
    var a := Advance(e, stamp);
    TurnsStep(e.wake, e.repeat, now);
    if a.wake > now {
      AlreadyPast(a.wake, e.repeat, now);
    }
  }

  /** Each turn is one of those that were left, however often the front is placed again. */
  lemma TurnProgress(q: seq<TimerEvent>, placed: nat, now: nat)
    requires LoopEnds(q, now) && q != [] && q[0].wake <= now
    ensures TotalTurns(q, now) == 1 + TotalTurns(Turn(q, placed), now)
    ensures LoopEnds(Turn(q, placed), now)
  {
    assert q[0] in q;
    assert forall e :: e in q[1..] ==> e in q;
    if q[0].repeat != 0 {
      AdvanceTurns(q[0], placed, now);
      PlaceTurns(q[1..], Advance(q[0], placed), now);
      PlaceElements(q[1..], Advance(q[0], placed));
      hide Leaves, TurnsOf, Place, Advance;
    }
  }

  function Placements(q: seq<TimerEvent>, placed: nat): nat
    requires q != []
  {
    if q[0].repeat == 0 then placed else placed + 1
  }

  /** The queue part of the loop, with the occurrences it fires, in order. */
  function Expire(q: seq<TimerEvent>, placed: nat, now: nat): (seq<TimerEvent>, nat, seq<Firing>)
    requires LoopEnds(q, now)
    decreases TotalTurns(q, now)
  {
    if Stopped(q, now) then (q, placed, [])
    else
      TurnProgress(q, placed, now);
      var (r, p, fired) := Expire(Turn(q, placed), Placements(q, placed), now);
      (r, p, [Firing(q[0].slot, q[0].wake)] + fired)
  }

  /** The comparator after an interrupt: the new head, or reset. */
  function AfterInterrupt(ts: Timers, now: nat): (Timers, seq<Firing>)
    requires LoopEnds(ts.queue, now)
  {
    var (q, placed, fired) := Expire(ts.queue, ts.placed, now);
    (Timers(q, Head(q), ts.pool, placed), fired)
  }

  /** The loop's exit. */
  predicate Stopped(q: seq<TimerEvent>, now: nat) {
    q == [] || q[0].wake > now
  }

  /** The queue after n turns of the loop, or fewer if it has stopped by then. */
  function Turning(q: seq<TimerEvent>, placed: nat, now: nat, n: nat): seq<TimerEvent>
    decreases n
  {
    if n == 0 || Stopped(q, now) then q else Turning(Turn(q, placed), Placements(q, placed), now, n - 1)
  }

  // ---------------------------------------------------------------- order

  /** Earlier, or placed first among equals. */
  predicate Before(a: TimerEvent, b: TimerEvent) {
    a.wake < b.wake || (a.wake == b.wake && a.stamp < b.stamp)
  }

  ghost predicate Sorted(q: seq<TimerEvent>) {
    forall i, j :: 0 <= i < j < |q| ==> Before(q[i], q[j])
  }

  predicate HasSlot(q: seq<TimerEvent>, slot: nat) {
    exists e :: e in q && e.slot == slot
  }

  ghost predicate OneSlotEach(q: seq<TimerEvent>) {
    forall i, j :: 0 <= i < j < |q| ==> q[i].slot != q[j].slot
  }

  /** Sorted, stable, and each event in it once. */
  ghost predicate QueueOk(q: seq<TimerEvent>, placed: nat) {
    Sorted(q) && OneSlotEach(q) && forall e :: e in q ==> e.stamp < placed
  }

  lemma {:induction false} PlaceKeeps(q: seq<TimerEvent>, e: TimerEvent)
    requires QueueOk(q, e.stamp) && !HasSlot(q, e.slot)
    ensures QueueOk(Place(q, e), e.stamp + 1)
    ensures forall s :: HasSlot(Place(q, e), s) <==> HasSlot(q, s) || s == e.slot
  {
    PlaceElements(q, e);
    assert e in Place(q, e);
    if q != [] && q[0].wake <= e.wake {
      var t := q[1..];
      TailOk(q, e.stamp);
      PlaceElements(t, e);
      PlaceKeeps(t, e);
      assert Place(q, e) == [q[0]] + Place(t, e);
      hide Place;
      assert q[0] in q && forall x :: x in t ==> Before(q[0], x) && x.slot != q[0].slot;
      HeadOk(q[0], Place(t, e), e.stamp + 1);
    } else {
      assert forall x :: x in q ==> x == q[0] || Before(q[0], x);
      HeadOk(e, q, e.stamp + 1);
    }
  }

  /** In front of a sound queue goes an event that comes before all of it. */
  lemma HeadOk(e: TimerEvent, q: seq<TimerEvent>, placed: nat)
    requires QueueOk(q, placed) || (placed > 0 && QueueOk(q, placed - 1))
    requires e.stamp < placed && forall x :: x in q ==> Before(e, x) && x.slot != e.slot
    ensures QueueOk([e] + q, placed)
  {
  }

  /** Walking past every event that is not later ends where Place puts the new one. */
  lemma {:induction false} PlaceAt(q: seq<TimerEvent>, e: TimerEvent, i: nat)
    requires i <= |q| && (forall j :: 0 <= j < i ==> q[j].wake <= e.wake) && (i < |q| ==> q[i].wake > e.wake)
    ensures Place(q, e) == q[..i] + [e] + q[i..]
    decreases i
  {
    if i > 0 {
      PlaceBehindHead(q, e);
      hide Place;
      PlaceAt(q[1..], e, i - 1);
      InsertBehindHead(q, e, i);
    } else {
      assert q[..0] + [e] + q[0..] == [e] + q;
    }
  }

  lemma PlaceBehindHead(q: seq<TimerEvent>, e: TimerEvent)
    requires q != [] && q[0].wake <= e.wake
    ensures Place(q, e) == [q[0]] + Place(q[1..], e)
  {
  }

  lemma InsertBehindHead<T>(q: seq<T>, e: T, i: nat)
    requires 0 < i <= |q|
    ensures [q[0]] + (q[1..][..i - 1] + [e] + q[1..][i - 1..]) == q[..i] + [e] + q[i..]
  {
    assert [q[0]] + q[1..][..i - 1] == q[..i];
    assert q[1..][i - 1..] == q[i..];
  }

  lemma TailOk(q: seq<TimerEvent>, placed: nat)
    requires QueueOk(q, placed) && q != []
    ensures QueueOk(q[1..], placed) && !HasSlot(q[1..], q[0].slot)
    ensures forall s :: HasSlot(q, s) <==> HasSlot(q[1..], s) || s == q[0].slot
    ensures forall e :: e in q <==> e in q[1..] || e == q[0]
  {
    assert q == [q[0]] + q[1..];
    assert q[0] in q;
    assert forall e :: e in q <==> e in q[1..] || e == q[0];
  }

  lemma TurnKeeps(q: seq<TimerEvent>, placed: nat) returns (t: seq<TimerEvent>, p: nat)
    requires QueueOk(q, placed) && q != []
    ensures t == Turn(q, placed) && p == Placements(q, placed)
    ensures QueueOk(t, p)
    ensures forall s :: HasSlot(t, s) ==> HasSlot(q, s)
    ensures q[0].repeat == 0 ==> !HasSlot(t, q[0].slot)
    ensures forall e :: e in t <==> (e in q && e != q[0]) || (q[0].repeat != 0 && e == Advance(q[0], placed))
  {
    t, p := Turn(q, placed), Placements(q, placed);
    TailOk(q, placed);
    HeadOnce(q);
    if q[0].repeat != 0 {
      var a := Advance(q[0], placed);
      assert q[0] in q;
      PlaceElements(q[1..], a);
      PlaceKeeps(q[1..], a);
      hide QueueOk, Place;
    }
  }

  lemma HeadOnce(q: seq<TimerEvent>)
    requires OneSlotEach(q) && q != []
    ensures q[0] !in q[1..]
  {
  }

  lemma NothingDueBehind(q: seq<TimerEvent>, placed: nat, now: nat)
    requires QueueOk(q, placed) && Stopped(q, now)
    ensures forall e :: e in q ==> e.wake > now
  {
    assert forall e :: e in q ==> e == q[0] || Before(q[0], e);
  }

  /** After the interrupt the queue is sorted and stable, nothing in it is due, and as many firings
      have happened as turns were left. */
  lemma {:induction false} ExpireKeeps(q: seq<TimerEvent>, placed: nat, now: nat)
    requires QueueOk(q, placed) && LoopEnds(q, now)
    ensures var (r, p, fired) := Expire(q, placed, now);
      && QueueOk(r, p)
      && (forall e :: e in r ==> e.wake > now)
      && (forall s :: HasSlot(r, s) ==> HasSlot(q, s))
      && (forall f :: f in fired ==> HasSlot(q, f.slot))
    decreases TotalTurns(q, now)
  {
    if Stopped(q, now) {
      NothingDueBehind(q, placed, now);
    } else {
      var t, p := TurnKeeps(q, placed);
      TurnProgress(q, placed, now);
      assert HasSlot(q, q[0].slot) by { assert q[0] in q; }
      hide QueueOk, LoopEnds, HasSlot, TotalTurns, Turn;
      ExpireKeeps(t, p, now);
    }
  }

  // ---------------------------------------------------------------- when the loop ends

  /** An event that is due and never gets past now keeps the loop turning. */
  lemma {:induction false} NeverStops(q: seq<TimerEvent>, placed: nat, now: nat, n: nat, e: TimerEvent)
    requires QueueOk(q, placed) && e in q && !Leaves(e, now)
    ensures !Stopped(Turning(q, placed, now, n), now)
    decreases n
  {
    hide QueueOk, Leaves, Turn, Placements, Stopped, HasSlot, Advance;
    var x := StillStuck(q, placed, now, e);
    if n > 0 {
      var t, p := TurnKeeps(q, placed);
      NeverStops(t, p, now, n - 1, x);
    }
  }

  lemma StillStuck(q: seq<TimerEvent>, placed: nat, now: nat, e: TimerEvent) returns (x: TimerEvent)
    requires QueueOk(q, placed) && e in q && !Leaves(e, now)
    ensures !Stopped(q, now) && x in Turn(q, placed) && !Leaves(x, now)
  {
    assert e.wake <= now && e.repeat != 0;
    assert e == q[0] || Before(q[0], e);
    var t, p := TurnKeeps(q, placed);
    hide QueueOk, Leaves, Turn, Placements;
    x := e;
    if e == q[0] {
      AdvanceTurns(e, placed, now);
      x := Advance(e, placed);
    }
  }

  lemma {:induction false} StopsAfter(q: seq<TimerEvent>, placed: nat, now: nat)
    requires LoopEnds(q, now)
    ensures Stopped(Turning(q, placed, now, TotalTurns(q, now)), now)
    decreases TotalTurns(q, now)
  {
    if !Stopped(q, now) {
      TurnProgress(q, placed, now);
      hide LoopEnds, TotalTurns, Turn;
      StopsAfter(Turn(q, placed), Placements(q, placed), now);
    }
  }

  /** Whatever the queue, the interrupt's loop ends if and only if every due periodic event of it
      satisfies Escapes. */
  lemma LoopEndsIff(q: seq<TimerEvent>, placed: nat, now: nat)
    requires QueueOk(q, placed)
    ensures LoopEnds(q, now) <==> exists n: nat :: Stopped(Turning(q, placed, now, n), now)
  {
    hide Leaves, Stopped, QueueOk, Turning;
    if LoopEnds(q, now) {
      StopsAfter(q, placed, now);
    } else {
      var e :| e in q && !Leaves(e, now);
      forall n: nat ensures !Stopped(Turning(q, placed, now, n), now) {
        NeverStops(q, placed, now, n, e);
      }
    }
  }

  /** For the first half of the counter's range it ends whatever the queue. */
  lemma FirstHalfLoopEnds(q: seq<TimerEvent>, now: nat)
    requires now < TWO64 / 2
    ensures LoopEnds(q, now)
  {
    forall e | e in q && e.repeat != 0 ensures Escapes(e.wake, e.repeat, now) {
      FirstHalfEscapes(e.wake, e.repeat, now);
    }
  }

  /** A timer whose period is 2^63 keeps the loop turning for ever from a time on that depends on its
      own. */
  lemma HalfRangeTimer(slot: nat, wake: Word, now: nat, placed: nat)
    ensures LoopEnds([TimerEvent(slot, wake, TWO64 / 2, placed)], now) <==> now < TWO64 / 2 + wake % (TWO64 / 2)
  {
    var e := TimerEvent(slot, wake, TWO64 / 2, placed);
    HalfRangeStep(wake, now);
    EscapesIff(wake, TWO64 / 2, now);
    assert Later(wake, TWO64 / 2, 0) == wake;
    hide Escapes;
    assert LoopEnds([e], now) <==> Leaves(e, now);
  }

  // ---------------------------------------------------------------- what is fired, and what is left

  /** The times at or before now at which e is fired. */
  ghost function Occurrences(e: TimerEvent, now: nat): (o: seq<nat>)
    ensures |o| == TurnsOf(e, now)
    ensures forall i :: 0 <= i < |o| ==> o[i] == Later(e.wake, e.repeat, i)
  {
    seq(TurnsOf(e, now), i requires 0 <= i => Later(e.wake, e.repeat, i))
  }

  lemma OccurrencesStep(e: TimerEvent, stamp: nat, now: nat)
    requires e.wake <= now && e.repeat != 0 && Leaves(e, now)
    ensures Occurrences(e, now) == [e.wake] + Occurrences(Advance(e, stamp), now)
    ensures Later(e.wake, e.repeat, TurnsOf(e, now)) == Later(Advance(e, stamp).wake, e.repeat, TurnsOf(Advance(e, stamp), now))
  {
    hide TurnsOf, Leaves, Occurrences;
    var a := Advance(e, stamp);
    AdvanceTurns(e, stamp, now);
    var o, rest := Occurrences(e, now), Occurrences(a, now);
    forall i | 0 <= i < |o| ensures o[i] == ([e.wake] + rest)[i] {
      if i > 0 {
        assert o[i] == Later(a.wake, e.repeat, i - 1) == rest[i - 1];
      }
    }
  }

  function FiredTimes(fired: seq<Firing>, slot: nat): seq<nat> {
    if fired == [] then []
    else (if fired[0].slot == slot then [fired[0].time] else []) + FiredTimes(fired[1..], slot)
  }

  /** A slot that is not in the queue is neither fired nor left. */
  lemma {:induction false} NotFired(fired: seq<Firing>, slot: nat)
    requires forall f :: f in fired ==> f.slot != slot
    ensures FiredTimes(fired, slot) == []
  {
    if fired != [] {
      assert fired[0] in fired;
      NotFired(fired[1..], slot);
    }
  }

  /** What happens to one event of the queue. */
  ghost predicate Settled(e: TimerEvent, now: nat, r: seq<TimerEvent>, fired: seq<Firing>) {
    && FiredTimes(fired, e.slot) == Occurrences(e, now)
    && (e.wake > now ==> e in r)
    && (e.wake <= now && e.repeat == 0 ==> !HasSlot(r, e.slot))
    && (e.wake <= now && e.repeat != 0 ==>
         exists x :: x in r && x.slot == e.slot && x.repeat == e.repeat
           && x.wake == Later(e.wake, e.repeat, TurnsOf(e, now)))
  }

  /** Each event is fired exactly at its own time and those it is advanced to while they are due; a
      one-shot leaves; a periodic one stays, at the first of those times that is not due. */
  lemma {:induction false} ExpireSettles(q: seq<TimerEvent>, placed: nat, now: nat, e: TimerEvent)
    requires QueueOk(q, placed) && LoopEnds(q, now) && e in q
    ensures Settled(e, now, Expire(q, placed, now).0, Expire(q, placed, now).2)
    decreases TotalTurns(q, now)
  {
    if Stopped(q, now) {
      NothingDueBehind(q, placed, now);
    } else {
      var t, p := TurnKeeps(q, placed);
      TurnProgress(q, placed, now);
      assert q[0] in q && Leaves(q[0], now) && (e != q[0] ==> e.slot != q[0].slot);
      var (r, p', fired) := Expire(t, p, now);
      assert Expire(q, placed, now) == (r, p', [Firing(q[0].slot, q[0].wake)] + fired);
      hide Expire, LoopEnds, Leaves, TotalTurns, Turn, Settled, HasSlot, QueueOk;
      if e != q[0] {
        ExpireSettles(t, p, now, e);
        SettleOther(e, Firing(q[0].slot, q[0].wake), now, r, fired);
      } else if e.repeat == 0 {
        ExpireKeeps(t, p, now);
        SettleOneShot(e, now, r, fired);
      } else {
        ExpireSettles(t, p, now, Advance(e, placed));
        SettlePeriodic(e, placed, now, r, fired);
      }
    }
  }

  /** The firing of another event makes no difference. */
  lemma SettleOther(e: TimerEvent, f: Firing, now: nat, r: seq<TimerEvent>, fired: seq<Firing>)
    requires Settled(e, now, r, fired) && f.slot != e.slot
    ensures Settled(e, now, r, [f] + fired)
  {
    assert ([f] + fired)[1..] == fired;
  }

  lemma SettleOneShot(e: TimerEvent, now: nat, r: seq<TimerEvent>, fired: seq<Firing>)
    requires e.wake <= now && e.repeat == 0 && !HasSlot(r, e.slot) && forall f :: f in fired ==> f.slot != e.slot
    ensures Settled(e, now, r, [Firing(e.slot, e.wake)] + fired)
  {
    assert ([Firing(e.slot, e.wake)] + fired)[1..] == fired;
    NotFired(fired, e.slot);
  }

  /** The first firing of a periodic event, added to all those after it. */
  lemma SettlePeriodic(e: TimerEvent, stamp: nat, now: nat, r: seq<TimerEvent>, fired: seq<Firing>)
    requires e.wake <= now && e.repeat != 0 && Leaves(e, now)
    requires Settled(Advance(e, stamp), now, r, fired)
    ensures Settled(e, now, r, [Firing(e.slot, e.wake)] + fired)
  {
    var a := Advance(e, stamp);
    AdvanceTurns(e, stamp, now);
    OccurrencesStep(e, stamp, now);
    hide TurnsOf, Leaves, Occurrences;
    assert ([Firing(e.slot, e.wake)] + fired)[1..] == fired;
    assert Later(e.wake, e.repeat, TurnsOf(e, now)) == Later(a.wake, e.repeat, TurnsOf(a, now));
    if a.wake > now {
      StaysPut(a, now);
    }
  }

  lemma StaysPut(e: TimerEvent, now: nat)
    requires e.wake > now
    ensures TurnsOf(e, now) == 0 && Later(e.wake, e.repeat, TurnsOf(e, now)) == e.wake
  {
  }

  // ---------------------------------------------------------------- where no time wraps

  /** The first time after now that is the event's own plus a whole number of periods. */
  function FirstAfter(e: TimerEvent, now: nat): nat
    requires e.wake <= now && e.repeat != 0
  {
    e.wake + ((now - e.wake) / e.repeat + 1) * e.repeat
  }

  /** The event gets there without wrapping past 64 bits. */
  predicate Straight(e: TimerEvent, now: nat) {
    e.wake <= now && e.repeat != 0 ==> FirstAfter(e, now) < TWO64
  }

  lemma NoWrapIsStraight(e: TimerEvent, now: nat)
    requires now + e.repeat < TWO64
    ensures Straight(e, now)
  {
    if e.wake <= now && e.repeat != 0 {
      FirstAfterBounds(e, now);
    }
  }

  lemma FirstAfterBounds(e: TimerEvent, now: nat)
    requires e.wake <= now && e.repeat != 0
    ensures now < FirstAfter(e, now) <= now + e.repeat
  {
    var d, k := now - e.wake, (now - e.wake) / e.repeat;
    assert d == e.repeat * k + d % e.repeat;
    MulStep(k, e.repeat);
  }

  lemma MulStep(k: nat, r: nat)
    ensures (k + 1) * r == k * r + r
  {
  }

  /** One period on: the first time after now is the same, and so is not wrapping before it. */
  lemma StraightStep(e: TimerEvent, stamp: nat, now: nat)
    requires e.wake <= now && e.repeat != 0
    ensures Straight(e, now) <==> e.wake + e.repeat < TWO64 && Straight(Advance(e, stamp), now)
    ensures e.wake + e.repeat > now ==> FirstAfter(e, now) == e.wake + e.repeat
    ensures e.wake + e.repeat <= now && e.wake + e.repeat < TWO64 ==> FirstAfter(e, now) == FirstAfter(Advance(e, stamp), now)
  {
    var d, r := now - e.wake, e.repeat;
    if d < r {
      Divided(d, r, 0, d);
    } else {
      var k := (d - r) / r;
      OnePeriodLess(d, r);
      MulStep(k + 1, r);
      FirstAfterBounds(e, now);
      assert FirstAfter(e, now) == e.wake + (k + 2) * r;
      assert e.wake + r < TWO64 ==> Advance(e, stamp).wake == e.wake + r;
    }
  }

  lemma OnePeriodLess(d: nat, r: nat)
    requires 0 < r <= d
    ensures d / r == (d - r) / r + 1
  {
    var k := (d - r) / r;
    assert d - r == r * k + (d - r) % r;
    MulStep(k, r);
    Divided(d, r, k + 1, (d - r) % r);
  }

  lemma StraightLeaves(e: TimerEvent, now: nat)
    requires Straight(e, now)
    ensures Leaves(e, now)
    decreases if e.wake <= now then now - e.wake + 1 else 0
  {
    if e.wake <= now && e.repeat != 0 {
      StraightStep(e, e.stamp, now);
      AdvanceTurns(e, e.stamp, now);
      hide Straight, FirstAfter, Leaves;
      StraightLeaves(Advance(e, e.stamp), now);
    }
  }

  /** The occurrences of an event that does not wrap are wake, wake + repeat, wake + 2 * repeat, ... as
      far as now, and it ends up at the first such time after now. */
  lemma {:induction false} OccurrencesSpec(e: TimerEvent, now: nat)
    requires e.wake <= now && e.repeat != 0 && Straight(e, now)
    ensures var o := Occurrences(e, now);
      && |o| >= 1
      && (forall i :: 0 <= i < |o| ==> o[i] == e.wake + i * e.repeat && o[i] <= now)
      && FirstAfter(e, now) == e.wake + |o| * e.repeat == Later(e.wake, e.repeat, |o|)
    decreases now - e.wake
  {
    hide Straight, Leaves, FirstAfter, Occurrences, TurnsOf, Later;
    var a := Advance(e, e.stamp);
    StraightStep(e, e.stamp, now);
    StraightLeaves(e, now);
    OccurrencesStep(e, e.stamp, now);
    if a.wake <= now {
      OccurrencesSpec(a, now);
    } else {
      StaysPut(a, now);
    }
    Shifted(e.wake, e.repeat, Occurrences(a, now), now);
  }

  lemma Shifted(w: nat, r: nat, rest: seq<nat>, now: nat)
    requires w <= now && forall i :: 0 <= i < |rest| ==> rest[i] == w + r + i * r && rest[i] <= now
    ensures forall i :: 0 <= i < 1 + |rest| ==> ([w] + rest)[i] == w + i * r && ([w] + rest)[i] <= now
    ensures w + r + |rest| * r == w + (1 + |rest|) * r
  {
    MulStep(|rest|, r);
    forall i | 0 <= i < 1 + |rest| ensures ([w] + rest)[i] == w + i * r && ([w] + rest)[i] <= now {
      if i > 0 {
        MulStep(i - 1, r);
        assert ([w] + rest)[i] == rest[i - 1];
      }
    }
  }

  /** The occurrences of an event that wraps are not in order. */
  lemma {:induction false} WrapsBack(e: TimerEvent, now: nat) returns (i: nat)
    requires Leaves(e, now) && !Straight(e, now) && now < TWO64
    ensures Descent(Occurrences(e, now), i)
    decreases now - e.wake
  {
    hide Straight, Leaves, FirstAfter, Occurrences, TurnsOf, Descent;
    NotStraight(e, now);
    var a := Advance(e, e.stamp);
    StraightStep(e, e.stamp, now);
    OccurrencesStep(e, e.stamp, now);
    AdvanceTurns(e, e.stamp, now);
    if e.wake + e.repeat >= TWO64 {
      i := 0;
      AtOnce(a, now);
      DescentFirst(e.wake, Occurrences(a, now));
    } else {
      NotStraight(a, now);
      var j := WrapsBack(a, now);
      i := j + 1;
      DescentLater(e.wake, Occurrences(a, now), j);
    }
  }

  ghost predicate Descent(times: seq<nat>, i: nat) {
    i + 1 < |times| && times[i + 1] < times[i]
  }

  lemma DescentFirst(t: nat, times: seq<nat>)
    requires times != [] && times[0] < t
    ensures Descent([t] + times, 0)
  {
  }

  lemma DescentLater(t: nat, times: seq<nat>, i: nat)
    requires Descent(times, i)
    ensures Descent([t] + times, i + 1)
  {
  }

  lemma NotStraight(e: TimerEvent, now: nat)
    requires !Straight(e, now)
    ensures e.wake <= now && e.repeat != 0
  {
  }

  lemma AtOnce(e: TimerEvent, now: nat)
    requires e.wake <= now && e.repeat != 0 && Leaves(e, now)
    ensures Occurrences(e, now) != [] && Occurrences(e, now)[0] == e.wake
  {
    OccurrencesStep(e, e.stamp, now);
  }

  ghost predicate Ordered(times: seq<nat>) {
    forall i, j :: 0 <= i < j < |times| ==> times[i] <= times[j]
  }

  function Times(fired: seq<Firing>): (r: seq<nat>)
    ensures |r| == |fired| && forall i :: 0 <= i < |r| ==> r[i] == fired[i].time
  {
    seq(|fired|, i requires 0 <= i < |fired| => fired[i].time)
  }

  /** Occurrences are fired no earlier than `low` and no later than now, in order, where none wraps. */
  lemma {:induction false} ExpireOrdered(q: seq<TimerEvent>, placed: nat, now: nat, low: nat)
    requires QueueOk(q, placed) && LoopEnds(q, now)
    requires forall e :: e in q ==> low <= e.wake && Straight(e, now)
    ensures var times := Times(Expire(q, placed, now).2);
      Ordered(times) && forall i :: 0 <= i < |times| ==> low <= times[i] <= now
    decreases TotalTurns(q, now)
  {
    if !Stopped(q, now) {
      var t, p := TurnKeeps(q, placed);
      TurnProgress(q, placed, now);
      var fired := Expire(t, p, now).2;
      assert Expire(q, placed, now).2 == [Firing(q[0].slot, q[0].wake)] + fired;
      assert q[0] in q;
      hide Expire, LoopEnds, TotalTurns, Turn, QueueOk, Placements, Straight;
      TurnStraight(q, placed, now);
      ExpireOrdered(t, p, now, q[0].wake);
      FirstOrdered(Firing(q[0].slot, q[0].wake), fired, now);
    }
  }

  lemma TurnStraight(q: seq<TimerEvent>, placed: nat, now: nat)
    requires QueueOk(q, placed) && q != [] && q[0].wake <= now
    requires forall e :: e in q ==> Straight(e, now)
    ensures forall e :: e in Turn(q, placed) ==> q[0].wake <= e.wake && Straight(e, now)
  {
    var t, p := TurnKeeps(q, placed);
    assert q[0] in q && forall e :: e in q ==> e == q[0] || Before(q[0], e);
    hide Turn, QueueOk, Straight;
    if q[0].repeat != 0 {
      StraightStep(q[0], placed, now);
    }
  }

  lemma FirstOrdered(f: Firing, fired: seq<Firing>, now: nat)
    requires Ordered(Times(fired)) && f.time <= now
    requires forall i :: 0 <= i < |Times(fired)| ==> f.time <= Times(fired)[i] <= now
    ensures Ordered(Times([f] + fired))
    ensures forall i :: 0 <= i < |Times([f] + fired)| ==> f.time <= Times([f] + fired)[i] <= now
  {
    assert Times([f] + fired) == [f.time] + Times(fired);
  }

  lemma {:induction false} FiredOrdered(fired: seq<Firing>, slot: nat, low: nat)
    requires Ordered(Times(fired)) && forall i :: 0 <= i < |fired| ==> low <= fired[i].time
    ensures Ordered(FiredTimes(fired, slot))
    ensures forall i :: 0 <= i < |FiredTimes(fired, slot)| ==> low <= FiredTimes(fired, slot)[i]
  {
    if fired != [] {
      var rest := fired[1..];
      TailOrdered(fired);
      FiredOrdered(rest, slot, fired[0].time);
      LowestFirst(fired[0].time, FiredTimes(rest, slot));
      assert [] + FiredTimes(rest, slot) == FiredTimes(rest, slot);
      hide Ordered, Times;
    }
  }

  lemma TailOrdered(fired: seq<Firing>)
    requires fired != [] && Ordered(Times(fired))
    ensures Ordered(Times(fired[1..])) && forall i :: 0 <= i < |fired[1..]| ==> fired[0].time <= fired[1..][i].time
  {
    var rest := fired[1..];
    forall i | 0 <= i < |rest| ensures Times(rest)[i] == Times(fired)[i + 1] && fired[0].time <= rest[i].time {
      assert Times(fired)[0] <= Times(fired)[i + 1];
    }
  }

  lemma LowestFirst(low: nat, times: seq<nat>)
    requires Ordered(times) && forall i :: 0 <= i < |times| ==> low <= times[i]
    ensures Ordered([low] + times)
  {
    var s := [low] + times;
    assert s[0] == low && forall j :: 0 < j < |s| ==> s[j] == times[j - 1];
  }

  /** Occurrences are fired in the order of their times if and only if no due event wraps before it
      gets past now. */
  lemma FiringOrderIff(q: seq<TimerEvent>, placed: nat, now: nat)
    requires QueueOk(q, placed) && LoopEnds(q, now) && now < TWO64
    ensures Ordered(Times(Expire(q, placed, now).2)) <==> forall e :: e in q ==> Straight(e, now)
  {
    hide QueueOk, Straight, Expire, Settled;
    if forall e :: e in q ==> Straight(e, now) {
      ExpireOrdered(q, placed, now, 0);
    } else {
      var e :| e in q && !Straight(e, now);
      var fired := Expire(q, placed, now).2;
      ExpireSettles(q, placed, now, e);
      var i := WrapsBack(e, now);
      if Ordered(Times(fired)) {
        FiredOrdered(fired, e.slot, 0);
        SettledTimes(e, now, Expire(q, placed, now).0, fired);
      }
    }
  }

  lemma SettledTimes(e: TimerEvent, now: nat, r: seq<TimerEvent>, fired: seq<Firing>)
    requires Settled(e, now, r, fired)
    ensures FiredTimes(fired, e.slot) == Occurrences(e, now)
  {
  }

  // ---------------------------------------------------------------- the interrupt as a whole

  /** The comparator follows the head of the queue. */
  ghost predicate TimersOk(ts: Timers) {
    QueueOk(ts.queue, ts.placed) && ts.comparator == Head(ts.queue)
  }

  lemma HeadOfPlace(q: seq<TimerEvent>, e: TimerEvent)
    ensures Head(Place(q, e)) == if q == [] || q[0].wake > e.wake then Some(e.wake) else Head(q)
  {
  }

  lemma RegisterKeeps(ts: Timers, trigger: Word, repeat: Word) returns (r: Timers, slot: nat)
    requires TimersOk(ts) && Alloc(ts.pool).Ok? && !HasSlot(ts.queue, Alloc(ts.pool).value.1)
    ensures Register(ts, trigger, repeat) == Ok((r, slot)) && Alloc(ts.pool) == Ok((r.pool, slot))
    ensures TimersOk(r)
    ensures forall x :: x in r.queue <==> x in ts.queue || x == TimerEvent(slot, trigger, repeat, ts.placed)
    ensures forall s :: HasSlot(r.queue, s) <==> HasSlot(ts.queue, s) || s == slot
  {
    slot := Alloc(ts.pool).value.1;
    r := Register(ts, trigger, repeat).value.0;
    var e := TimerEvent(slot, trigger, repeat, ts.placed);
    PlaceElements(ts.queue, e);
    PlaceKeeps(ts.queue, e);
    HeadOfPlace(ts.queue, e);
  }

  lemma InterruptKeeps(ts: Timers, now: nat) returns (r: Timers, fired: seq<Firing>)
    requires TimersOk(ts) && LoopEnds(ts.queue, now)
    ensures AfterInterrupt(ts, now) == (r, fired)
    ensures TimersOk(r) && r.pool == ts.pool
    ensures forall e :: e in r.queue ==> e.wake > now
    ensures forall e :: e in ts.queue ==> Settled(e, now, r.queue, fired)
    ensures forall s :: HasSlot(r.queue, s) ==> HasSlot(ts.queue, s)
    ensures forall f :: f in fired ==> HasSlot(ts.queue, f.slot)
  {
    ExpireKeeps(ts.queue, ts.placed, now);
    hide Expire, LoopEnds, QueueOk, HasSlot, Settled;
    forall e | e in ts.queue ensures Settled(e, now, Expire(ts.queue, ts.placed, now).0, Expire(ts.queue, ts.placed, now).2) {
      ExpireSettles(ts.queue, ts.placed, now, e);
    }
    r := AfterInterrupt(ts, now).0;
    fired := AfterInterrupt(ts, now).1;
  }

  /** A due periodic event that does not wrap ends up at its first time after now that is its old time
      plus a whole number of periods, and was fired once for each of the times before it. */
  lemma PeriodicSettles(ts: Timers, now: nat, e: TimerEvent) returns (x: TimerEvent)
    requires TimersOk(ts) && LoopEnds(ts.queue, now)
    requires e in ts.queue && e.repeat != 0 && e.wake <= now && Straight(e, now)
    ensures var (r, fired) := AfterInterrupt(ts, now);
      var times := FiredTimes(fired, e.slot);
      && x in r.queue && x.slot == e.slot && x.repeat == e.repeat
      && x.wake == FirstAfter(e, now) == e.wake + |times| * e.repeat
      && now < x.wake <= now + e.repeat
      && forall i :: 0 <= i < |times| ==> times[i] == e.wake + i * e.repeat
  {
    hide TimersOk, LoopEnds, AfterInterrupt, FirstAfter, Straight, Occurrences, HasSlot;
    var r, fired := InterruptKeeps(ts, now);
    assert Settled(e, now, r.queue, fired);
    OccurrencesSpec(e, now);
    FirstAfterBounds(e, now);
    x :| x in r.queue && x.slot == e.slot && x.repeat == e.repeat && x.wake == Later(e.wake, e.repeat, TurnsOf(e, now));
  }
}
