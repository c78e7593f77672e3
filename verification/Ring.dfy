/** P1C1, the one-producer one-consumer ring. First as a machine whose steps are single accesses to
    the shared buffer and indices, with producer and consumer interleaved in any way; then as the
    class its callers see. */
module Ring {

  // ---------------------------------------------------------------- arithmetic of the indices

  /** The slot a running count falls on. */
  function Slot(count: nat, n: nat): (r: nat)
    requires n > 0
    ensures r < n
  {
    count % n
  }

  /** The capacity is positive; 0 stands for the result where it is not. */
  function Next(i: nat, n: nat): (r: nat)
    ensures n > 0 ==> r < n
  {
    if n == 0 then 0 else (i + 1) % n
  }

  lemma MultipleOf(d: int, n: int)
    requires n >= 0
    ensures d >= 1 ==> d * n >= n
    ensures d <= -1 ==> d * n <= -n
  {
  }

  lemma SlotUnique(x: nat, n: nat, q: nat, r: nat)
    requires r < n && x == q * n + r
    ensures Slot(x, n) == r
  {
    var d := x / n - q;
    assert x == (x / n) * n + x % n;
    assert d * n == (x / n) * n - q * n;
    MultipleOf(d, n);
  }

  /** The slot k places after c. */
  function After(c: nat, k: nat, n: nat): (r: nat)
    requires n > 0
    ensures r < n
  {
    Slot(c + k, n)
  }

  lemma SlotIs(x: nat, n: nat)
    requires n > 0
    ensures x == (x / n) * n + Slot(x, n)
  {
  }

  lemma NextSlot(x: nat, n: nat)
    requires n > 0
    ensures Next(Slot(x, n), n) == Slot(x + 1, n)
  {
    SlotIs(x, n);
    var q, r := x / n, Slot(x, n);
    if r + 1 < n {
      SlotUnique(x + 1, n, q, r + 1);
      SlotUnique(r + 1, n, 0, r + 1);
    } else {
      assert x + 1 == (q + 1) * n;
      SlotUnique(x + 1, n, q + 1, 0);
      SlotUnique(n, n, 1, 0);
    }
  }

  /** One lap later the slot is the same. */
  lemma SlotLap(x: nat, n: nat)
    requires n > 0
    ensures Slot(x + n, n) == Slot(x, n)
  {
    SlotIs(x, n);
    assert x + n == (x / n + 1) * n + Slot(x, n);
    SlotUnique(x + n, n, x / n + 1, Slot(x, n));
  }

  /** Two counts less than a lap apart have different slots. */
  lemma SlotApart(i: nat, j: nat, n: nat)
    requires n > 0 && i < j < i + n
    ensures Slot(i, n) != Slot(j, n)
  {
    SlotIs(i, n);
    SlotIs(j, n);
    var d := j / n - i / n;
    assert d * n == (j / n) * n - (i / n) * n;
    MultipleOf(d, n);
  }

  // ---------------------------------------------------------------- the machine

  datatype Producer<T> =
    | Idle
    | FullReadP(v: T)               // isFull: about to read _producerIndex
    | FullReadC(v: T, p: nat)       // isFull: about to read _consumerIndex
    | StoreReadP(v: T)              // produce: about to read _producerIndex for the store
    | StoreWrite(v: T, p: nat)      // produce: about to write the buffer
    | IncReadP(v: T)                // produce: about to read _producerIndex for the increment
    | IncWrite(v: T, p: nat)        // produce: about to write _producerIndex

  /** seen: how many values had been produced when the consumer read _producerIndex. */
  datatype Consumer<T> =
    | Resting
    | EmptyReadP                    // isEmpty: about to read _producerIndex
    | EmptyReadC(p: nat, seen: nat) // isEmpty: about to read _consumerIndex
    | LoadReadC                     // consume: about to read _consumerIndex for the load
    | LoadRead(c: nat)              // consume: about to read the buffer
    | DropReadC(v: T)               // consume: about to read _consumerIndex for the increment
    | DropWrite(v: T, c: nat)       // consume: about to write _consumerIndex

  /** produced and consumed record the values whose produce and consume have completed. */
  datatype State<T> = State(
    buffer: seq<T>, producerIndex: nat, consumerIndex: nat,
    producer: Producer<T>, consumer: Consumer<T>,
    produced: seq<T>, consumed: seq<T>)

  /** The producer waits until isFull is false, then produces the value it was called with, v if it
      is idle. (That the indices are in range is part of what is proved.) */
  function ProducerStep<T>(s: State<T>, v: T): State<T> {
    match s.producer
    case Idle => s.(producer := FullReadP(v))
    case FullReadP(w) => s.(producer := FullReadC(w, s.producerIndex))
    case FullReadC(w, p) =>
      s.(producer := if Next(p, |s.buffer|) == s.consumerIndex then FullReadP(w) else StoreReadP(w))
    case StoreReadP(w) => s.(producer := StoreWrite(w, s.producerIndex))
    case StoreWrite(w, p) =>
      if p < |s.buffer| then s.(buffer := s.buffer[p := w], producer := IncReadP(w)) else s
    case IncReadP(w) => s.(producer := IncWrite(w, s.producerIndex))
    case IncWrite(w, p) =>
      s.(producerIndex := Next(p, |s.buffer|), producer := Idle, produced := s.produced + [w])
  }

  /** The consumer consumes whenever isEmpty is false. */
  function ConsumerStep<T>(s: State<T>): State<T> {
    match s.consumer
    case Resting => s.(consumer := EmptyReadP)
    case EmptyReadP => s.(consumer := EmptyReadC(s.producerIndex, |s.produced|))
    case EmptyReadC(p, _) => s.(consumer := if p == s.consumerIndex then Resting else LoadReadC)
    case LoadReadC => s.(consumer := LoadRead(s.consumerIndex))
    case LoadRead(c) => if c < |s.buffer| then s.(consumer := DropReadC(s.buffer[c])) else s
    case DropReadC(v) => s.(consumer := DropWrite(v, s.consumerIndex))
    case DropWrite(v, c) =>
      s.(consumerIndex := Next(c, |s.buffer|), consumer := Resting, consumed := s.consumed + [v])
  }

  // ---------------------------------------------------------------- the invariant

  /** The indices are the counts, modulo the capacity; what is held is in the buffer, in order. */
  ghost predicate IndicesOk<T>(s: State<T>) {
    var n, c, p := |s.buffer|, |s.consumed|, |s.produced|;
    && n > 0
    && s.producerIndex == Slot(p, n) && s.consumerIndex == Slot(c, n)
    && c <= p <= c + n - 1
    && s.consumed == s.produced[..c]
    && forall k :: c <= k < p ==> s.buffer[Slot(k, n)] == s.produced[k]
  }

  ghost predicate ProducerOk<T>(s: State<T>)
    requires |s.buffer| > 0
  {
    var room := |s.produced| < |s.consumed| + |s.buffer| - 1;
    match s.producer
    case Idle => true
    case FullReadP(_) => true
    case FullReadC(_, p) => p == s.producerIndex
    case StoreReadP(_) => room
    case StoreWrite(_, p) => room && p == s.producerIndex && p < |s.buffer|
    case IncReadP(v) => room && s.producerIndex < |s.buffer| && s.buffer[s.producerIndex] == v
    case IncWrite(v, p) => room && p == s.producerIndex && p < |s.buffer| && s.buffer[p] == v
  }

  ghost predicate ConsumerOk<T>(s: State<T>)
    requires |s.buffer| > 0
  {
    var some := |s.consumed| < |s.produced|;
    match s.consumer
    case Resting => true
    case EmptyReadP => true
    case EmptyReadC(p, seen) => |s.consumed| <= seen <= |s.produced| && p == Slot(seen, |s.buffer|)
    case LoadReadC => some
    case LoadRead(c) => some && c == s.consumerIndex && c < |s.buffer|
    case DropReadC(v) => some && v == s.produced[|s.consumed|]
    case DropWrite(v, c) => some && v == s.produced[|s.consumed|] && c == s.consumerIndex
  }

  ghost predicate Ok<T>(s: State<T>) {
    IndicesOk(s) && ProducerOk(s) && ConsumerOk(s)
  }

  ghost predicate Initial<T>(s: State<T>, n: nat) {
    && n > 0 && |s.buffer| == n && s.producerIndex == 0 && s.consumerIndex == 0
    && s.producer == Idle && s.consumer == Resting && s.produced == [] && s.consumed == []
  }

  lemma ProducerKeeps<T>(s: State<T>, v: T)
    requires Ok(s)
    ensures Ok(ProducerStep(s, v)) && |ProducerStep(s, v).buffer| == |s.buffer|
    ensures s.producer.IncWrite? ==> ProducerStep(s, v).produced == s.produced + [s.producer.v]
    ensures !s.producer.IncWrite? ==> ProducerStep(s, v).produced == s.produced
    ensures ProducerStep(s, v).consumed == s.consumed
  {
    hide Slot, Next;
    var n, c, p := |s.buffer|, |s.consumed|, |s.produced|;
    var r := ProducerStep(s, v);
    match s.producer {
      case FullReadC(w, q) =>
        NextSlot(p, n);
        if p == c + n - 1 {
          SlotLap(c, n);
        }
      case StoreWrite(w, q) =>
        forall k | c <= k < p ensures r.buffer[Slot(k, n)] == r.produced[k] {
          SlotApart(k, p, n);
        }
      case IncWrite(w, q) =>
        NextSlot(p, n);
        assert r.consumed == r.produced[..c];
      case _ =>
    }
  }

  lemma ConsumerKeeps<T>(s: State<T>)
    requires Ok(s)
    ensures Ok(ConsumerStep(s)) && ConsumerStep(s).buffer == s.buffer
    ensures ConsumerStep(s).produced == s.produced
    ensures s.consumed <= ConsumerStep(s).consumed
  {
    hide Slot, Next;
    var n, c := |s.buffer|, |s.consumed|;
    var r := ConsumerStep(s);
    if s.consumer.DropWrite? {
      NextSlot(c, n);
      assert r.consumed == r.produced[..c + 1];
    }
  }

  // ---------------------------------------------------------------- runs

  /** One step of a run: the producer's, with the value it is called with if it is idle, or the
      consumer's. */
  datatype Step<T> = Produce(v: T) | Consume

  function Do<T>(s: State<T>, a: Step<T>): State<T> {
    match a
    case Produce(v) => ProducerStep(s, v)
    case Consume => ConsumerStep(s)
  }

  ghost predicate Run<T>(n: nat, ss: seq<State<T>>, steps: seq<Step<T>>) {
    && |ss| == |steps| + 1 && Initial(ss[0], n)
    && forall i :: 0 <= i < |steps| ==> ss[i + 1] == Do(ss[i], steps[i])
  }

  lemma {:induction false} OkAlong<T>(n: nat, ss: seq<State<T>>, steps: seq<Step<T>>, i: nat)
    requires Run(n, ss, steps) && i < |ss|
    ensures Ok(ss[i]) && |ss[i].buffer| == n
  {
    if i > 0 {
      OkAlong(n, ss, steps, i - 1);
      match steps[i - 1] {
        case Produce(v) => ProducerKeeps(ss[i - 1], v);
        case Consume => ConsumerKeeps(ss[i - 1]);
      }
    }
  }

  /** In every state of every interleaving the consumed values are a prefix, in order, of the
      produced ones, and at most n - 1 are held. */
  lemma ConsumedIsPrefix<T>(n: nat, ss: seq<State<T>>, steps: seq<Step<T>>, i: nat)
    requires Run(n, ss, steps) && i < |ss|
    ensures ss[i].consumed <= ss[i].produced
    ensures |ss[i].produced| - |ss[i].consumed| <= n - 1
  {
    OkAlong(n, ss, steps, i);
  }

  /** The producer never writes a slot that holds a value still to be read. */
  lemma NoSlotOverwritten<T>(n: nat, ss: seq<State<T>>, steps: seq<Step<T>>, i: nat, k: nat)
    requires Run(n, ss, steps) && i < |steps| && ss[i].producer.StoreWrite? && steps[i].Produce?
    requires |ss[i].consumed| <= k < |ss[i].produced|
    ensures n > 0 && Slot(k, n) != ss[i].producer.p
    ensures Slot(k, n) < |ss[i].buffer| == |ss[i + 1].buffer| && ss[i + 1].buffer[Slot(k, n)] == ss[i].buffer[Slot(k, n)] == ss[i].produced[k]
  {
    OkAlong(n, ss, steps, i);
    SlotApart(k, |ss[i].produced|, n);
  }

  // ---------------------------------------------------------------- progress

  ghost predicate Room<T>(s: State<T>) {
    |s.produced| - |s.consumed| < |s.buffer| - 1
  }

  ghost predicate Holds<T>(s: State<T>) {
    |s.consumed| < |s.produced|
  }

  /** The producer gets past the full test exactly when fewer than n - 1 values are held. */
  lemma FullTestIff<T>(s: State<T>, v: T)
    requires Ok(s) && s.producer.FullReadC?
    ensures ProducerStep(s, v).producer == if Room(s) then StoreReadP(s.producer.v) else FullReadP(s.producer.v)
  {
    hide Slot, Next;
    var n, c, p := |s.buffer|, |s.consumed|, |s.produced|;
    NextSlot(p, n);
    if Room(s) {
      SlotApart(c, p + 1, n);
    } else {
      SlotLap(c, n);
    }
  }

  /** The consumer gets past the empty test exactly when a value was held when it read _producerIndex. */
  lemma EmptyTestIff<T>(s: State<T>)
    requires Ok(s) && s.consumer.EmptyReadC?
    ensures ConsumerStep(s).consumer == if |s.consumed| < s.consumer.seen then LoadReadC else Resting
  {
    hide Slot, Next;
    if |s.consumed| < s.consumer.seen {
      SlotApart(|s.consumed|, s.consumer.seen, |s.buffer|);
    }
  }

  /** How many accesses of its call the producer has made. */
  function ProducerStage<T>(p: Producer<T>): nat {
    match p
    case Idle => 0
    case FullReadP(_) => 1
    case FullReadC(_, _) => 2
    case StoreReadP(_) => 3
    case StoreWrite(_, _) => 4
    case IncReadP(_) => 5
    case IncWrite(_, _) => 6
  }

  function ConsumerStage<T>(c: Consumer<T>): nat {
    match c
    case Resting => 0
    case EmptyReadP => 1
    case EmptyReadC(_, _) => 2
    case LoadReadC => 3
    case LoadRead(_) => 4
    case DropReadC(_) => 5
    case DropWrite(_, _) => 6
  }

  /** With room, each of the producer's accesses brings its call one further, with the value it was
      called with. */
  lemma ProducerAdvances<T>(s: State<T>, v: T)
    requires Ok(s) && Room(s)
    ensures var r := ProducerStep(s, v);
      && ProducerStage(r.producer) == (ProducerStage(s.producer) + 1) % 7
      && (r.producer != Idle ==> r.producer.v == if s.producer == Idle then v else s.producer.v)
      && r.consumer == s.consumer
  {
    hide Slot, Next, IndicesOk, ConsumerOk;
    if s.producer.FullReadC? {
      FullTestIff(s, v);
    }
  }

  /** With a value held since before the empty test, each of the consumer's accesses does. */
  lemma ConsumerAdvances<T>(s: State<T>)
    requires Ok(s) && Holds(s) && (s.consumer.EmptyReadC? ==> |s.consumed| < s.consumer.seen)
    ensures var r := ConsumerStep(s);
      && ConsumerStage(r.consumer) == (ConsumerStage(s.consumer) + 1) % 7
      && (r.consumer.EmptyReadC? ==> |r.consumed| < r.consumer.seen)
      && r.producer == s.producer && r.produced == s.produced
      && r.consumed == if s.consumer.DropWrite? then s.consumed + [s.produced[|s.consumed|]] else s.consumed
  {
    hide Slot, Next, IndicesOk;
    if s.consumer.EmptyReadC? {
      EmptyTestIff(s);
    }
  }

  lemma StepOfRun<T>(n: nat, ss: seq<State<T>>, steps: seq<Step<T>>, i: nat)
    requires Run(n, ss, steps) && i < |steps|
    ensures Ok(ss[i]) && Ok(ss[i + 1]) && ss[i + 1] == Do(ss[i], steps[i])
  {
    OkAlong(n, ss, steps, i);
    OkAlong(n, ss, steps, i + 1);
  }

  /** The accesses the producer, or the consumer, makes among the steps from i on and before j. */
  function Accesses<T>(steps: seq<Step<T>>, producer: bool, i: nat, j: nat): nat
    requires j <= |steps|
    decreases j
  {
    if i >= j then 0 else Accesses(steps, producer, i, j - 1) + if steps[j - 1].Produce? == producer then 1 else 0
  }

  lemma {:induction false} FirstAccess<T>(steps: seq<Step<T>>, producer: bool, i: nat, j: nat)
    requires i < j <= |steps| && steps[i].Produce? == producer
    ensures Accesses(steps, producer, i, j) >= 1
    decreases j
  {
    if i + 1 < j {
      FirstAccess(steps, producer, i, j - 1);
    }
  }

  /** What a call of the producer that began in s has come to in t. */
  ghost predicate ProducedSoFar<T>(s: State<T>, t: State<T>, v: T, made: nat) {
    && made < 7 && ProducerStage(t.producer) == made && t.produced == s.produced
    && (made > 0 ==> t.producer.v == v) && Room(t)
  }

  lemma ProducedStep<T>(s: State<T>, t: State<T>, a: Step<T>, v: T, made: nat)
    requires Ok(t) && ProducedSoFar(s, t, v, made) && (made == 0 && a.Produce? ==> a.v == v)
    requires a.Produce? ==> made < 6
    ensures ProducedSoFar(s, Do(t, a), v, if a.Produce? then made + 1 else made)
  {
    match a {
      case Produce(w) =>
        ProducerAdvances(t, w);
        ProducerKeeps(t, w);
      case Consume =>
        ConsumerKeeps(t);
        KeepsProducer(t);
    }
    hide Ok, ProducerStep, ConsumerStep;
  }

  lemma KeepsProducer<T>(s: State<T>)
    ensures ConsumerStep(s).producer == s.producer
  {
  }

  lemma {:induction false} ProducedAlong<T>(n: nat, ss: seq<State<T>>, steps: seq<Step<T>>, i: nat, j: nat, v: T)
    requires Run(n, ss, steps) && i <= j < |ss| && ss[i].producer == Idle && Room(ss[i])
    requires i < |steps| && steps[i] == Produce(v) && Accesses(steps, true, i, j) < 7
    ensures ProducedSoFar(ss[i], ss[j], v, Accesses(steps, true, i, j))
    decreases j
  {
    if i < j {
      ProducedAlong(n, ss, steps, i, j - 1, v);
      StepOfRun(n, ss, steps, j - 1);
      if i < j - 1 { FirstAccess(steps, true, i, j - 1); }
      hide Run, ProducedSoFar, Room, Do, Ok;
      ProducedStep(ss[i], ss[j - 1], steps[j - 1], v, Accesses(steps, true, i, j - 1));
    }
  }

  /** Whatever the consumer does meanwhile, a producer that has room appends exactly its value to what
      has been produced, in seven accesses. */
  lemma ProduceCompletes<T>(n: nat, ss: seq<State<T>>, steps: seq<Step<T>>, i: nat, j: nat, v: T)
    requires Run(n, ss, steps) && i < j < |ss| && ss[i].producer == Idle && Room(ss[i])
    requires steps[i] == Produce(v) && steps[j - 1].Produce? && Accesses(steps, true, i, j) == 7
    ensures ss[j].produced == ss[i].produced + [v] && ss[j].producer == Idle
  {
    ProducedAlong(n, ss, steps, i, j - 1, v);
    StepOfRun(n, ss, steps, j - 1);
    hide Run, Ok;
    ProducerAdvances(ss[j - 1], steps[j - 1].v);
    ProducerKeeps(ss[j - 1], steps[j - 1].v);
  }

  /** What a call of the consumer that began in s has come to in t. */
  ghost predicate ConsumedSoFar<T>(s: State<T>, t: State<T>, made: nat) {
    && made < 7 && ConsumerStage(t.consumer) == made && t.consumed == s.consumed
    && Holds(s) && s.produced <= t.produced && (t.consumer.EmptyReadC? ==> |t.consumed| < t.consumer.seen)
  }

  lemma ConsumedStep<T>(s: State<T>, t: State<T>, a: Step<T>, made: nat)
    requires Ok(t) && ConsumedSoFar(s, t, made) && (a.Consume? ==> made < 6)
    ensures ConsumedSoFar(s, Do(t, a), if a.Consume? then made + 1 else made)
  {
    match a {
      case Produce(w) =>
        ProducerKeeps(t, w);
        KeepsConsumer(t, w);
      case Consume => ConsumerAdvances(t);
    }
    hide Ok, ProducerStep, ConsumerStep;
  }

  lemma KeepsConsumer<T>(s: State<T>, v: T)
    ensures ProducerStep(s, v).consumer == s.consumer
  {
  }

  lemma {:induction false} ConsumedAlong<T>(n: nat, ss: seq<State<T>>, steps: seq<Step<T>>, i: nat, j: nat)
    requires Run(n, ss, steps) && i <= j < |ss| && ss[i].consumer == Resting && Holds(ss[i])
    requires Accesses(steps, false, i, j) < 7
    ensures ConsumedSoFar(ss[i], ss[j], Accesses(steps, false, i, j))
    decreases j
  {
    if i < j {
      ConsumedAlong(n, ss, steps, i, j - 1);
      StepOfRun(n, ss, steps, j - 1);
      hide Run, ConsumedSoFar, Holds, Do, Ok;
      ConsumedStep(ss[i], ss[j - 1], steps[j - 1], Accesses(steps, false, i, j - 1));
    }
  }

  /** Whatever the producer does meanwhile, a consumer that finds a value held takes exactly the oldest
      one, in seven accesses. */
  lemma ConsumeCompletes<T>(n: nat, ss: seq<State<T>>, steps: seq<Step<T>>, i: nat, j: nat)
    requires Run(n, ss, steps) && i < j < |ss| && ss[i].consumer == Resting && Holds(ss[i])
    requires steps[j - 1].Consume? && Accesses(steps, false, i, j) == 7
    ensures ss[j].consumed == ss[i].consumed + [ss[i].produced[|ss[i].consumed|]] && ss[j].consumer == Resting
  {
    ConsumedAlong(n, ss, steps, i, j - 1);
    StepOfRun(n, ss, steps, j - 1);
    hide Run, Ok;
    ConsumerAdvances(ss[j - 1]);
  }

  // ---------------------------------------------------------------- the class

  class P1C1<T(0)> {
    const buffer: array<T>
    var producerIndex: nat
    var consumerIndex: nat
    /** What is held, oldest first. */
    ghost var contents: seq<T>

    ghost predicate Valid()
      reads this, buffer
    {
      var n := buffer.Length;
      && n > 0 && producerIndex < n && consumerIndex < n
      && |contents| < n
      && producerIndex == After(consumerIndex, |contents|, n)
      && forall k :: 0 <= k < |contents| ==> buffer[After(consumerIndex, k, n)] == contents[k]
    }

    constructor (n: nat)
      requires n > 0
      ensures Valid() && fresh(buffer) && buffer.Length == n && contents == []
    {
      buffer := new T[n];
      producerIndex, consumerIndex, contents := 0, 0, [];
    }

    method IsEmpty() returns (r: bool)
      requires Valid()
      ensures r <==> contents == []
    {
      r := producerIndex == consumerIndex;
      if contents != [] {
        SlotApart(consumerIndex, consumerIndex + |contents|, buffer.Length);
      }
    }

    method IsFull() returns (r: bool)
      requires Valid()
      ensures r <==> |contents| == buffer.Length - 1
    {
      var n := buffer.Length;
      r := Next(producerIndex, n) == consumerIndex;
      FullIff(consumerIndex, |contents|, n);
    }

    /** The caller has seen isFull() false. */
    method Produce(value: T)
      requires Valid() && |contents| < buffer.Length - 1
      modifies this, buffer
      ensures Valid() && contents == old(contents) + [value]
      ensures consumerIndex == old(consumerIndex)
    {
      var n := buffer.Length;
      var was := |contents|;
      forall k | 0 <= k < was ensures After(consumerIndex, k, n) != producerIndex {
        SlotApart(consumerIndex + k, consumerIndex + was, n);
      }
      buffer[producerIndex] := value;
      NextSlot(consumerIndex + was, n);
      producerIndex := Next(producerIndex, n);
      contents := contents + [value];
    }

    /** The caller has seen isEmpty() false. */
    method Consume() returns (ret: T)
      requires Valid() && contents != []
      modifies this
      ensures Valid() && ret == old(contents)[0] && contents == old(contents)[1..]
      ensures producerIndex == old(producerIndex)
    {
      var n := buffer.Length;
      ghost var c, was := consumerIndex, contents;
      ret := buffer[consumerIndex];
      consumerIndex := Next(consumerIndex, n);
      contents := contents[1..];
      SlotSame(c, n);
      forall k: nat ensures After(consumerIndex, k, n) == After(c, k + 1, n) {
        NextThen(c, k, n);
      }
      hide After;
      forall k | 0 <= k < |contents| ensures buffer[After(consumerIndex, k, n)] == contents[k] {
        assert contents[k] == was[k + 1];
      }
    }
  }

  lemma SlotSame(c: nat, n: nat)
    requires c < n
    ensures Slot(c, n) == c
  {
  }

  lemma FullIff(c: nat, held: nat, n: nat)
    requires c < n && held < n
    ensures Next(After(c, held, n), n) == c <==> held == n - 1
  {
    NextSlot(c + held, n);
    SlotSame(c, n);
    if held < n - 1 {
      SlotApart(c, c + held + 1, n);
    } else {
      SlotLap(c, n);
    }
    hide Slot, Next;
  }

  lemma NextThen(c: nat, k: nat, n: nat)
    requires n > 0 && c < n
    ensures After(Next(c, n), k, n) == After(c, k + 1, n)
  {
    SlotSame(c, n);
    NextSlot(c, n);
    SlotShift(c + 1, k, n);
  }

  lemma SlotShift(x: nat, k: nat, n: nat)
    requires n > 0
    ensures Slot(Slot(x, n) + k, n) == Slot(x + k, n)
  {
    SlotIs(x, n);
    var y := Slot(x, n) + k;
    SlotIs(y, n);
    assert x + k == (x / n + y / n) * n + Slot(y, n) by {
      assert (x / n + y / n) * n == (x / n) * n + (y / n) * n;
    }
    SlotUnique(x + k, n, x / n + y / n, Slot(y, n));
  }
}
