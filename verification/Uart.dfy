/** The UART transmit path over the ring: one sending thread, at the grain of the ring's single
    accesses, and the transmit interrupt, which may arrive between any two of them. */
module Uart {
  import Common
  import opened Ring

  type Char = nat

  // ---------------------------------------------------------------- the machine

  /** What the UART has been given is what the ring's consumer has consumed. passed records the
      characters handed to uart_send. unmasking: the sender has produced and is about to unmask. */
  datatype Uart = Uart(ring: State<Char>, masked: bool, unmasking: bool, passed: seq<Char>)

  datatype Action =
    | Sender(c: Char)      // the sender's next access; c is the next character if it is between calls
    | TxIrq(ready: nat)    // the handler; the device is ready for that many characters

  ghost predicate UartOk(u: Uart) {
    && Ok(u.ring) && u.ring.consumer == Resting
    && u.passed == u.ring.produced + InProgress(u.ring.producer)
    && (u.unmasking ==> u.ring.producer == Idle)
    && (u.masked && |u.ring.consumed| < |u.ring.produced| ==> u.unmasking)
  }

  /** The character of a uart_send call that has not produced it yet. */
  function InProgress(p: Producer<Char>): seq<Char> {
    match p
    case Idle => []
    case FullReadP(v) => [v]
    case FullReadC(v, _) => [v]
    case StoreReadP(v) => [v]
    case StoreWrite(v, _) => [v]
    case IncReadP(v) => [v]
    case IncWrite(v, _) => [v]
  }

  function SenderStep(u: Uart, c: Char): Uart {
    if u.unmasking then u.(masked := false, unmasking := false)
    else
      u.(ring := ProducerStep(u.ring, c),
         unmasking := u.ring.producer.IncWrite?,
         passed := if u.ring.producer == Idle then u.passed + [c] else u.passed)
  }

  /** One turn of the handler's loop: isEmpty() and consume(), with interrupts off. */
  function ConsumeOnce(s: State<Char>): State<Char> {
    var tested := ConsumerStep(ConsumerStep(ConsumerStep(s)));
    if tested.consumer == Resting then tested
    else ConsumerStep(ConsumerStep(ConsumerStep(ConsumerStep(tested))))
  }

  lemma ConsumeOnceSpec(s: State<Char>)
    requires Ok(s) && s.consumer == Resting
    ensures Ok(ConsumeOnce(s)) && ConsumeOnce(s).consumer == Resting
    ensures ConsumeOnce(s).producer == s.producer && ConsumeOnce(s).produced == s.produced
    ensures ConsumeOnce(s).consumed == if |s.consumed| < |s.produced| then s.consumed + [s.produced[|s.consumed|]] else s.consumed
    ensures |s.consumed| == |s.produced| ==> ConsumeOnce(s) == s
  {
    hide Slot, Next;
    ConsumerKeeps(s);
    var s1 := ConsumerStep(s);
    ConsumerKeeps(s1);
    var s2 := ConsumerStep(s1);
    ConsumerKeeps(s2);
    var s3 := ConsumerStep(s2);
    EmptyIff(s);
    if |s.consumed| < |s.produced| {
      ConsumerKeeps(s3);
      var s4 := ConsumerStep(s3);
      ConsumerKeeps(s4);
      var s5 := ConsumerStep(s4);
      ConsumerKeeps(s5);
      var s6 := ConsumerStep(s5);
      ConsumerKeeps(s6);
    }
  }

  lemma EmptyIff(s: State<Char>)
    requires Ok(s)
    ensures s.producerIndex == s.consumerIndex <==> |s.consumed| == |s.produced|
  {
    if |s.consumed| < |s.produced| {
      SlotApart(|s.consumed|, |s.produced|, |s.buffer|);
    }
  }

  /** The handler's loop: while the device is ready and the ring is not empty. */
  function Drain(s: State<Char>, ready: nat): State<Char>
    decreases ready
  {
    if ready == 0 || s.producerIndex == s.consumerIndex then s else Drain(ConsumeOnce(s), ready - 1)
  }

  lemma {:induction false} DrainSpec(s: State<Char>, ready: nat)
    requires Ok(s) && s.consumer == Resting
    ensures var r := Drain(s, ready);
      && Ok(r) && r.consumer == Resting && r.producer == s.producer && r.produced == s.produced
      && s.consumed <= r.consumed
      && |r.consumed| == if |s.consumed| + ready < |s.produced| then |s.consumed| + ready else |s.produced|
    decreases ready
  {
    EmptyIff(s);
    hide Ok;
    if ready > 0 && s.producerIndex != s.consumerIndex {
      ConsumeOnceSpec(s);
      var t := ConsumeOnce(s);
      assert Drain(s, ready) == Drain(t, ready - 1);
      DrainSpec(t, ready - 1);
      hide ConsumeOnce, Drain;
      PrefixThrough(s.consumed, t.consumed, Drain(t, ready - 1).consumed);
    }
    HeldIn(s);
  }

  lemma PrefixThrough<T>(a: seq<T>, b: seq<T>, c: seq<T>)
    requires a <= b <= c
    ensures a <= c
  {
  }

  lemma HeldIn(s: State<Char>)
    requires Ok(s)
    ensures |s.consumed| <= |s.produced|
  {
  }

  function Handler(u: Uart, ready: nat): Uart {
    var r := Drain(u.ring, ready);
    u.(ring := r, masked := if r.producerIndex == r.consumerIndex then true else u.masked)
  }

  /** The transmit interrupt arrives only while it is unmasked. */
  predicate Enabled(u: Uart, a: Action) {
    a.TxIrq? ==> !u.masked
  }

  function Step(u: Uart, a: Action): Uart {
    match a
    case Sender(c) => SenderStep(u, c)
    case TxIrq(ready) => Handler(u, ready)
  }

  lemma StepKeeps(u: Uart, a: Action)
    requires UartOk(u) && Enabled(u, a)
    ensures UartOk(Step(u, a)) && |Step(u, a).ring.buffer| == |u.ring.buffer|
  {
    hide UartOk, Step;
    match a {
      case Sender(c) => SenderKeeps(u, c);
      case TxIrq(ready) => TxIrqKeeps(u, ready);
    }
  }

  lemma SenderKeeps(u: Uart, c: Char)
    requires UartOk(u) && Enabled(u, Sender(c))
    ensures UartOk(Step(u, Sender(c))) && |Step(u, Sender(c)).ring.buffer| == |u.ring.buffer|
  {
    hide Ok;
    if !u.unmasking {
      ProducerKeeps(u.ring, c);
      HeldIn(u.ring);
    }
  }

  lemma TxIrqKeeps(u: Uart, ready: nat)
    requires UartOk(u) && Enabled(u, TxIrq(ready))
    ensures UartOk(Step(u, TxIrq(ready))) && |Step(u, TxIrq(ready)).ring.buffer| == |u.ring.buffer|
  {
    DrainSpec(u.ring, ready);
    DrainBuffer(u.ring, ready);
    EmptyIff(Drain(u.ring, ready));
    HeldIn(u.ring);
    hide Ok, Drain;
  }

  lemma {:induction false} DrainBuffer(s: State<Char>, ready: nat)
    requires Ok(s) && s.consumer == Resting
    ensures Drain(s, ready).buffer == s.buffer
    decreases ready
  {
    if ready > 0 && s.producerIndex != s.consumerIndex {
      ConsumeOnceSpec(s);
      DrainBuffer(ConsumeOnce(s), ready - 1);
    }
  }

  /** What the transmit interrupt does: the oldest characters go out, as many as the device takes or the
      ring holds, and the interrupt is masked afterwards exactly if none is left or it was before. */
  lemma TxIrqSpec(u: Uart, ready: nat)
    requires UartOk(u)
    ensures var r := Step(u, TxIrq(ready)); var sent := Common.Min(|u.ring.consumed| + ready, |u.ring.produced|);
      && |u.ring.consumed| <= sent && r.ring.consumed == u.ring.produced[..sent]
      && r.ring.produced == u.ring.produced && r.ring.producer == u.ring.producer
      && (r.masked <==> u.masked || sent == |u.ring.produced|)
      && r.unmasking == u.unmasking && r.passed == u.passed
  {
    DrainSpec(u.ring, ready);
    EmptyIff(Drain(u.ring, ready));
    HeldIn(u.ring);
    ConsumedIs(Drain(u.ring, ready));
    hide Ok, Drain;
  }

  lemma ConsumedIs(s: State<Char>)
    requires Ok(s)
    ensures |s.consumed| <= |s.produced| && s.consumed == s.produced[..|s.consumed|]
  {
  }

  // ---------------------------------------------------------------- runs

  /** The ring is new and the interrupt masked when the kernel starts running. */
  ghost predicate Initial(u: Uart, n: nat) {
    Ring.Initial(u.ring, n) && u.masked && !u.unmasking && u.passed == []
  }

  ghost predicate Run(n: nat, us: seq<Uart>, acts: seq<Action>) {
    && |us| == |acts| + 1 && Initial(us[0], n)
    && forall i :: 0 <= i < |acts| ==> Enabled(us[i], acts[i]) && us[i + 1] == Step(us[i], acts[i])
  }

  lemma {:induction false} OkAlong(n: nat, us: seq<Uart>, acts: seq<Action>, i: nat)
    requires Run(n, us, acts) && i < |us|
    ensures UartOk(us[i]) && |us[i].ring.buffer| == n
  {
    if i > 0 {
      var j := i - 1;
      OkAlong(n, us, acts, j);
      assert Enabled(us[j], acts[j]) && us[j + 1] == Step(us[j], acts[j]);
      StepKeeps(us[j], acts[j]);
    }
  }

  /** The characters the UART has been given are a prefix, in order, of those passed to uart_send. */
  lemma SentIsPrefix(n: nat, us: seq<Uart>, acts: seq<Action>, i: nat)
    requires Run(n, us, acts) && i < |us|
    ensures us[i].ring.consumed <= us[i].passed
  {
    OkAlong(n, us, acts, i);
    hide ProducerOk, ConsumerOk, Run;
  }

  /** While characters are waiting, the interrupt that sends them is unmasked, or the sender is about
      to unmask it. */
  lemma WaitingIsUnmasked(n: nat, us: seq<Uart>, acts: seq<Action>, i: nat)
    requires Run(n, us, acts) && i < |us| && us[i].ring.producerIndex != us[i].ring.consumerIndex
    ensures !us[i].masked || us[i].unmasking
  {
    OkAlong(n, us, acts, i);
    EmptyIff(us[i].ring);
    HeldIn(us[i].ring);
    hide Ok, Run;
  }

  /** So a sender that waits for room never waits with the interrupt masked. */
  lemma FullIsUnmasked(n: nat, us: seq<Uart>, acts: seq<Action>, i: nat)
    requires Run(n, us, acts) && i < |us| && n > 1
    requires us[i].ring.producer.FullReadP? || us[i].ring.producer.FullReadC?
    requires |us[i].ring.produced| == |us[i].ring.consumed| + n - 1
    ensures !us[i].masked
  {
    OkAlong(n, us, acts, i);
    hide Ok, Run;
  }

  // ---------------------------------------------------------------- progress

  /** The sender is between two calls of uart_send. */
  predicate BetweenCalls(u: Uart) {
    u.ring.producer == Idle && !u.unmasking
  }

  /** From between two calls, an interrupt that finds the device ready for all that is waiting sends
      everything there was to send. */
  lemma AllSent(n: nat, us: seq<Uart>, acts: seq<Action>, i: nat, ready: nat)
    requires Run(n, us, acts) && i < |us| && BetweenCalls(us[i])
    ensures |us[i].ring.consumed| < |us[i].ring.produced| ==> Enabled(us[i], TxIrq(ready))
    ensures |us[i].ring.produced| <= |us[i].ring.consumed| + ready ==> Step(us[i], TxIrq(ready)).ring.consumed == us[i].passed
  {
    OkAlong(n, us, acts, i);
    TxIrqSpec(us[i], ready);
    hide Run, Ok, Step;
  }

  /** How many steps of its call the sender has made: the producer's seven, then the unmasking. */
  function SenderStage(u: Uart): nat {
    if u.unmasking then 7 else ProducerStage(u.ring.producer)
  }

  lemma SenderAdvances(u: Uart, c: Char)
    requires UartOk(u) && (u.unmasking || Room(u.ring))
    ensures var r := Step(u, Sender(c));
      && SenderStage(r) == (SenderStage(u) + 1) % 8
      && (r.ring.producer != Idle ==> r.ring.producer.v == if u.ring.producer == Idle then c else u.ring.producer.v)
      && r.ring.produced == (if u.ring.producer.IncWrite? then u.ring.produced + [u.ring.producer.v] else u.ring.produced)
      && r.ring.consumed == u.ring.consumed && |r.ring.buffer| == |u.ring.buffer|
      && r.passed == (if BetweenCalls(u) then u.passed + [c] else u.passed)
      && (u.unmasking ==> !r.masked)
  {
    hide Ok, ProducerStep, Room;
    if !u.unmasking {
      ProducerAdvances(u.ring, c);
      ProducerKeeps(u.ring, c);
      StageWraps(u.ring.producer);
    }
  }

  lemma StageWraps(p: Producer<Char>)
    ensures ProducerStage(p) <= 6 && (ProducerStage(p) == 6 <==> p.IncWrite?) && (ProducerStage(p) == 0 <==> p == Idle)
  {
  }

  function SenderSteps(acts: seq<Action>, i: nat, j: nat): nat
    requires j <= |acts|
    decreases j
  {
    if i >= j then 0 else SenderSteps(acts, i, j - 1) + if acts[j - 1].Sender? then 1 else 0
  }

  lemma {:induction false} FirstSenderStep(acts: seq<Action>, i: nat, j: nat)
    requires i < j <= |acts| && acts[i].Sender?
    ensures SenderSteps(acts, i, j) >= 1
    decreases j
  {
    if i + 1 < j {
      FirstSenderStep(acts, i, j - 1);
    }
  }

  /** What a call uart_send(c) that began in u has come to in t. */
  ghost predicate SentSoFar(u: Uart, t: Uart, c: Char, made: nat) {
    && made < 8 && SenderStage(t) == made
    && (0 < made < 7 ==> t.ring.producer != Idle && t.ring.producer.v == c)
    && t.ring.produced == (if made == 7 then u.ring.produced + [c] else u.ring.produced)
    && t.passed == (if made == 0 then u.passed else u.passed + [c])
    && (made < 7 ==> Room(t.ring))
  }

  lemma SentStep(u: Uart, t: Uart, a: Action, c: Char, made: nat)
    requires UartOk(t) && SentSoFar(u, t, c, made) && (made == 0 && a.Sender? ==> a.c == c)
    requires a.Sender? ==> made < 7
    ensures SentSoFar(u, Step(t, a), c, if a.Sender? then made + 1 else made)
  {
    match a {
      case Sender(d) => SenderAdvances(t, d);
      case TxIrq(ready) =>
        TxIrqSpec(t, ready);
        StepBuffer(t, ready);
    }
    hide UartOk, Step;
  }

  lemma StepBuffer(u: Uart, ready: nat)
    requires UartOk(u)
    ensures |Step(u, TxIrq(ready)).ring.buffer| == |u.ring.buffer|
  {
    DrainBuffer(u.ring, ready);
  }

  lemma StepOfRun(n: nat, us: seq<Uart>, acts: seq<Action>, i: nat)
    requires Run(n, us, acts) && i < |acts|
    ensures UartOk(us[i]) && us[i + 1] == Step(us[i], acts[i])
  {
    OkAlong(n, us, acts, i);
  }

  lemma {:induction false} SentAlong(n: nat, us: seq<Uart>, acts: seq<Action>, i: nat, j: nat, c: Char)
    requires |us| == |acts| + 1 && Run(n, us, acts) && i <= j < |us| && BetweenCalls(us[i]) && Room(us[i].ring)
    requires i < |acts| && acts[i] == Sender(c) && SenderSteps(acts, i, j) < 8
    ensures SentSoFar(us[i], us[j], c, SenderSteps(acts, i, j))
    decreases j
  {
    hide Run, SentSoFar, Room, Step, UartOk, BetweenCalls;
    if i < j {
      SentAlong(n, us, acts, i, j - 1, c);
      StepOfRun(n, us, acts, j - 1);
      if i < j - 1 { FirstSenderStep(acts, i, j - 1); }
      SentStep(us[i], us[j - 1], acts[j - 1], c, SenderSteps(acts, i, j - 1));
    } else {
      NothingSentYet(us[i], c);
    }
  }

  lemma NothingSentYet(u: Uart, c: Char)
    requires BetweenCalls(u) && Room(u.ring)
    ensures SentSoFar(u, u, c, 0)
  {
  }

  /** Whenever interrupts come, a call uart_send(c) that finds room returns after eight steps of its own,
      with exactly c added to what is to be sent, and with the interrupt unmasked. */
  lemma SendCompletes(n: nat, us: seq<Uart>, acts: seq<Action>, i: nat, j: nat, c: Char)
    requires Run(n, us, acts) && i < j < |us| && BetweenCalls(us[i]) && Room(us[i].ring)
    requires acts[i] == Sender(c) && acts[j - 1].Sender? && SenderSteps(acts, i, j) == 8
    ensures BetweenCalls(us[j]) && !us[j].masked
    ensures us[j].ring.produced == us[i].ring.produced + [c] && us[j].passed == us[i].passed + [c]
  {
    SentAlong(n, us, acts, i, j - 1, c);
    StepOfRun(n, us, acts, j - 1);
    hide Run, UartOk, Step, Room;
    SenderAdvances(us[j - 1], acts[j - 1].c);
  }

  // ---------------------------------------------------------------- the code

  class UartTx {
    const txBuffer: P1C1<Char>
    var running: bool
    var masked: bool
    /** What has been written to the data register. */
    var wire: seq<Char>

    constructor (n: nat)
      requires n > 0
      ensures txBuffer.Valid() && txBuffer.contents == [] && txBuffer.buffer.Length == n
      ensures fresh(txBuffer) && fresh(txBuffer.buffer)
      ensures !running && masked && wire == []
    {
      txBuffer := new P1C1<Char>(n);
      running, masked, wire := false, true, [];
    }

    method SendRaw(c: Char)
      modifies this`wire
      ensures wire == old(wire) + [c]
    {
      wire := wire + [c];
    }

    /** handle_uart_tx_ready_irq, where ready lists what the status register says at each test. */
    method HandleTxReadyIrq(ready: seq<bool>)
      requires txBuffer.Valid()
      modifies this`wire, this`masked, txBuffer
      ensures txBuffer.Valid()
      ensures var sent := Common.Min(LeadingTrue(ready), |old(txBuffer.contents)|);
        && wire == old(wire) + old(txBuffer.contents)[..sent]
        && txBuffer.contents == old(txBuffer.contents)[sent..]
      ensures masked <==> old(masked) || txBuffer.contents == []
    {
      hide P1C1.Valid, LeadingTrue, Common.Min, Sent;
      ghost var was, all := wire, txBuffer.contents;
      var i := 0;
      SentNone(was, all);
      var empty := txBuffer.IsEmpty();
      while i < |ready| && ready[i] && !empty
        invariant txBuffer.Valid() && i <= |ready| && masked == old(masked)
        invariant forall j :: 0 <= j < i ==> ready[j]
        invariant Sent(was, all, i, wire, txBuffer.contents)
        invariant empty <==> txBuffer.contents == []
        decreases |ready| - i
      {
        SentOneMore(was, all, i, wire, txBuffer.contents);
        var c := txBuffer.Consume();
        SendRaw(c);
        i := i + 1;
        empty := txBuffer.IsEmpty();
      }
      SentEnds(was, all, i, wire, txBuffer.contents, ready);
      if empty {
        masked := true;
      }
    }

    /** uart_send(char), from where the wait for room has ended. */
    method Send(c: Char)
      requires txBuffer.Valid() && (running ==> |txBuffer.contents| < txBuffer.buffer.Length - 1)
      modifies this`wire, this`masked, txBuffer, txBuffer.buffer
      ensures txBuffer.Valid()
      ensures old(running) ==> txBuffer.contents == old(txBuffer.contents) + [c] && wire == old(wire) && !masked
      ensures !old(running) ==>
        txBuffer.contents == old(txBuffer.contents) && wire == old(wire) + [c] && masked == old(masked)
    {
      if running {
        txBuffer.Produce(c);
        masked := false;
      } else {
        SendRaw(c);
      }
    }
  }

  /** Of what was waiting, the first i characters have gone out. */
  ghost predicate Sent(was: seq<Char>, all: seq<Char>, i: nat, wire: seq<Char>, waiting: seq<Char>) {
    i <= |all| && wire == was + all[..i] && waiting == all[i..]
  }

  lemma SentNone(was: seq<Char>, all: seq<Char>)
    ensures Sent(was, all, 0, was, all)
  {
  }

  lemma SentOneMore(was: seq<Char>, all: seq<Char>, i: nat, wire: seq<Char>, waiting: seq<Char>)
    requires Sent(was, all, i, wire, waiting) && waiting != []
    ensures Sent(was, all, i + 1, wire + [waiting[0]], waiting[1..])
  {
    assert all[..i + 1] == all[..i] + [all[i]];
  }

  /** The loop stops when the device is not ready, or when nothing is left. */
  lemma SentEnds(was: seq<Char>, all: seq<Char>, i: nat, wire: seq<Char>, waiting: seq<Char>, ready: seq<bool>)
    requires Sent(was, all, i, wire, waiting)
    requires i <= |ready| && (forall j :: 0 <= j < i ==> ready[j]) && (i == |ready| || !ready[i] || waiting == [])
    ensures var sent := Common.Min(LeadingTrue(ready), |all|);
      wire == was + all[..sent] && waiting == all[sent..]
  {
    LeadingTrueIs(ready, i);
    assert Common.Min(LeadingTrue(ready), |all|) == i;
  }

  function LeadingTrue(bs: seq<bool>): (n: nat)
    ensures n <= |bs|
  {
    if bs == [] || !bs[0] then 0 else 1 + LeadingTrue(bs[1..])
  }

  lemma {:induction false} LeadingTrueIs(bs: seq<bool>, i: nat)
    requires i <= |bs| && forall j :: 0 <= j < i ==> bs[j]
    ensures LeadingTrue(bs) >= i
    ensures i == |bs| || !bs[i] ==> LeadingTrue(bs) == i
  {
    if i > 0 {
      LeadingTrueIs(bs[1..], i - 1);
    }
  }
}
