/** The kernel as one step machine on one hart. A stretch of code that runs with interrupts off is
    one action; between two actions of a thread an interrupt may arrive, run its handlers and
    reschedule. Aborts are explicit results. */
module Kernel {
  import opened Common
  import opened Pools
  import opened Sched
  import opened Timers

  /** Where a thread is between two of its actions. A thread in a blocking call is Sleeping while
      it is blocked and Ready once it has been woken but has not run on. */
  datatype Pc =
    | User                                        // outside the kernel
    | WaitTested(e: EventId)                      // Event::wait saw the event unset, interrupts on
    | WaitAsleep(e: EventId)                      // Event::wait went to sleep
    | SetStored(e: EventId)                       // Event::set stored _active, wakeAll to come
    | SignalAsleep(signal: nat)                   // Signal::wait
    | SleepAsleep(slot: nat, start: nat, ns: nat, freq: nat)  // sleep_ns, holding its timer
    | Locking(m: nat)                             // Mutex::lock, top of the loop (or asleep there)
    | LockSawHeld(m: nat)                         // lock read _locked == true
    | LockSawFree(m: nat)                         // lock read _locked == false
    | DataWait                                    // waitDataIdle, top of the loop (or asleep there)
    | CardAsleep                                  // the SD thread waits for a card change

  /** serial: a name no two threads ever share, unlike the stack slot, which is reused. */
  datatype Info = Info(pc: Pc, serial: nat)

  /** Who owns a live timer slot: the sleep_ns call of a thread, or the holder of a handle. */
  datatype Owner = Sleeper(thread: Tid) | Handle

  datatype Kernel = Kernel(
    sched: Sched,
    info: map<Tid, Info>,
    serials: nat,                   // serials given out so far
    active: set<EventId>,           // the events whose _active is true
    timers: Timers,
    owner: map<nat, Owner>,
    locked: set<nat>,               // the mutexes whose _locked is true
    held: set<(nat, nat)>,          // (serial, mutex): lock or try_lock has succeeded, no unlock since
    dataLine: bool,                 // the device: data idle
    dataMasked: bool,
    cardIn: bool,                   // the device: card present
    cardMasked: bool,
    sdThread: Option<nat>)          // the serial of the SD main thread

  /** wakeOneThread as the source has it, or as it is meant. */
  datatype Version = AsWritten | Intended

  const UART_TX: EventId := Named(0)
  const UART_RX: EventId := Named(1)
  const VSYNC: nat := 0

  datatype Action =
    // the running thread
    | Wfi
    | Create(high: bool, sd: bool)
    | Stop
    | WaitTest(e: EventId)
    | WaitSleep
    | WaitReturn
    | SetStore(e: EventId)
    | SetWake
    | Clear(e: EventId)
    | SignalWait(signal: nat)
    | SignalAll(signal: nat)
    | SleepNs(now: Word, ns: Word, freq: nat)
    | SleepReturn
    | RegisterTimer(trigger: Word, repeat: Word)
    | FreeTimer(slot: nat)
    | LockEnter(m: nat)
    | LockTest
    | LockSleep
    | LockTake
    | TryLock(m: nat)
    | Unlock(m: nat)
    | DataEnter
    | DataTest
    | CardMask
    | CardWait(checked: bool)
    // interrupts
    | TimerIrq(now: Word)
    | ExternalIrq(rx: bool, vsync: bool, card: bool, data: bool)
    // the devices
    | DataLine(level: bool)
    | CardLine(level: bool)

  predicate ByThread(a: Action) {
    !a.TimerIrq? && !a.ExternalIrq? && !a.DataLine? && !a.CardLine?
  }

  /** The actions that may put the running thread to sleep. */
  predicate Sleeps(a: Action) {
    a.WaitSleep? || a.SignalWait? || a.SleepNs? || a.LockSleep? || a.DataTest? || a.CardWait?
  }

  predicate Interrupt(a: Action) {
    a.TimerIrq? || a.ExternalIrq?
  }

  // ---------------------------------------------------------------- who may do what

  function Me(k: Kernel): Tid
    requires k.sched.current.Some?
  {
    k.sched.current.value
  }

  predicate HasMe(k: Kernel) {
    k.sched.current.Some? && Me(k) in k.info
  }

  function MyPc(k: Kernel): Pc
    requires HasMe(k)
  {
    k.info[Me(k)].pc
  }

  function MySerial(k: Kernel): nat
    requires HasMe(k)
  {
    k.info[Me(k)].serial
  }

  function At(k: Kernel, pc: Pc): Kernel
    requires HasMe(k)
  {
    k.(info := k.info[Me(k) := k.info[Me(k)].(pc := pc)])
  }

  /** Events a thread can name: the named ones, and those of timers held through a handle. */
  predicate Usable(k: Kernel, e: EventId) {
    match e
    case Named(_) => true
    case Slot(i) => i in k.owner && k.owner[i].Handle?
  }

  /** The thread at this point holds a reference to the event. */
  predicate Refers(pc: Pc, e: EventId) {
    pc == WaitTested(e) || pc == WaitAsleep(e) || pc == SetStored(e)
  }

  /** A handle may be destroyed once its event has left the timer queue and nobody is using it. */
  predicate Freeable(k: Kernel, i: nat) {
    && i in k.owner && k.owner[i].Handle?
    && !HasSlot(k.timers.queue, i)
    && forall t :: t in k.info ==> !Refers(k.info[t].pc, Slot(i))
  }

  ghost predicate Enabled(k: Kernel, a: Action) {
    && (ByThread(a) ==> HasMe(k) && (Me(k) == IDLE ==> a.Wfi?) && ThreadEnabled(k, a))
    && (a.TimerIrq? ==> LoopEnds(k.timers.queue, a.now))
    && (a.ExternalIrq? ==> (a.card ==> !k.cardMasked) && (a.data ==> !k.dataMasked && k.dataLine))
  }

  ghost predicate ThreadEnabled(k: Kernel, a: Action)
    requires HasMe(k)
  {
    var pc := MyPc(k);
    match a
    case Wfi => pc == User
    case Create(_, sd) => pc == User && (sd ==> k.sdThread == None)
    case Stop => pc == User
    case WaitTest(e) => pc == User && Usable(k, e)
    case WaitSleep => pc.WaitTested?
    case WaitReturn => pc.WaitAsleep? || pc.SignalAsleep? || pc.CardAsleep?
    case SetStore(e) => pc == User && Usable(k, e)
    case SetWake => pc.SetStored?
    case Clear(e) => pc == User && Usable(k, e)
    case SignalWait(_) => pc == User
    case SignalAll(_) => pc == User
    case SleepNs(_, _, _) => pc == User
    case SleepReturn => pc.SleepAsleep?
    case RegisterTimer(_, _) => pc == User
    case FreeTimer(slot) => pc == User && Freeable(k, slot)
    case LockEnter(_) => pc == User
    case LockTest => pc.Locking?
    case LockSleep => pc.LockSawHeld?
    case LockTake => pc.LockSawFree?
    case TryLock(_) => pc == User
    case Unlock(m) => pc == User && (MySerial(k), m) in k.held
    case DataEnter => pc == User
    case DataTest => pc == DataWait
    case CardMask => pc == User && k.sdThread == Some(MySerial(k))
    case CardWait(_) => pc == User && k.sdThread == Some(MySerial(k))
    case _ => false
  }

  // ---------------------------------------------------------------- what it does

  /** The running thread sleeps on q, and another one runs. */
  function Block(k: Kernel, q: QueueId, pc: Pc): Outcome<Kernel>
    requires HasMe(k)
  {
    var s :- SleepOn(k.sched, q);
    Ok(At(k, pc).(sched := s))
  }

  function Wake(k: Kernel, q: QueueId): Outcome<Kernel> {
    var s :- WakeAll(k.sched, q);
    Ok(k.(sched := s))
  }

  /** Event::set, from where interrupts are off. */
  function SetEvent(k: Kernel, e: EventId): Outcome<Kernel> {
    Wake(k.(active := k.active + {e}), EventQ(e))
  }

  /** The events of the fired timers are set, in the order of firing. */
  function SetFired(k: Kernel, fired: seq<Firing>): Outcome<Kernel>
    decreases |fired|
  {
    if fired == [] then Ok(k)
    else
      var k1 :- SetEvent(k, Slot(fired[0].slot));
      SetFired(k1, fired[1..])
  }

  /** registerTimer: a slot is taken, a new unset event with an empty queue is built in it, and the
      event is placed. */
  function NewTimer(k: Kernel, trigger: Word, repeat: Word, owner: Owner): Outcome<(Kernel, nat)> {
    var (timers, slot) :- Register(k.timers, trigger, repeat);
    Ok((k.(timers := timers, owner := k.owner[slot := owner], active := k.active - {Slot(slot)},
           sched := NewQueue(k.sched, EventQ(Slot(slot)))), slot))
  }

  function DropTimer(k: Kernel, slot: nat): Outcome<Kernel> {
    var pool :- Free(k.timers.pool, slot);
    Ok(k.(timers := k.timers.(pool := pool), owner := k.owner - {slot}))
  }

  function WakeOne(v: Version, s: Sched, q: QueueId): Outcome<Sched> {
    match v
    case AsWritten => WakeOneAsWritten(s, q)
    case Intended => WakeOneIntended(s, q)
  }

  function ThreadStep(v: Version, k: Kernel, a: Action): Outcome<Kernel>
    requires HasMe(k) && ByThread(a)
  {
    match a
    case Wfi => Ok(k)
    case Create(high, sd) =>
      var (s, t) :- CreateThread(k.sched, high);
      Ok(k.(sched := s, info := k.info[t := Info(User, k.serials)], serials := k.serials + 1,
            sdThread := if sd then Some(k.serials) else k.sdThread))
    case Stop =>
      var s :- StopThread(k.sched);
      Ok(k.(sched := s, info := k.info - {Me(k)}))
    case WaitTest(e) => Ok(if e in k.active then k else At(k, WaitTested(e)))
    case WaitSleep =>
      if !MyPc(k).WaitTested? then Ok(k)
      else if MyPc(k).e in k.active then Ok(At(k, User))
      else Block(k, EventQ(MyPc(k).e), WaitAsleep(MyPc(k).e))
    case WaitReturn => Ok(At(k, User))
    case SetStore(e) => Ok(At(k, SetStored(e)).(active := k.active + {e}))
    case SetWake => if !MyPc(k).SetStored? then Ok(k) else Wake(At(k, User), EventQ(MyPc(k).e))
    case Clear(e) => Ok(k.(active := k.active - {e}))
    case SignalWait(n) => Block(k, SignalQ(n), SignalAsleep(n))
    case SignalAll(n) => Wake(k, SignalQ(n))
    case SleepNs(now, ns, freq) =>
      var (k1, slot) :- NewTimer(k, Deadline(now, ns, freq), 0, Sleeper(Me(k)));
      Block(k1, EventQ(Slot(slot)), SleepAsleep(slot, now, ns, freq))
    case SleepReturn => if !MyPc(k).SleepAsleep? then Ok(k) else DropTimer(At(k, User), MyPc(k).slot)
    case RegisterTimer(trigger, repeat) =>
      var (k1, slot) :- NewTimer(k, trigger, repeat, Handle);
      Ok(k1)
    case FreeTimer(slot) => DropTimer(k, slot)
    case LockEnter(m) => Ok(At(k, Locking(m)))
    case LockTest =>
      if !MyPc(k).Locking? then Ok(k)
      else Ok(At(k, if MyPc(k).m in k.locked then LockSawHeld(MyPc(k).m) else LockSawFree(MyPc(k).m)))
    case LockSleep => if !MyPc(k).LockSawHeld? then Ok(k) else Block(k, MutexQ(MyPc(k).m), Locking(MyPc(k).m))
    case LockTake =>
      if !MyPc(k).LockSawFree? then Ok(k)
      else if MyPc(k).m in k.locked then Ok(At(k, Locking(MyPc(k).m)))
      else Ok(At(k, User).(locked := k.locked + {MyPc(k).m}, held := k.held + {(MySerial(k), MyPc(k).m)}))
    case TryLock(m) =>
      Ok(k.(locked := k.locked + {m}, held := if m in k.locked then k.held else k.held + {(MySerial(k), m)}))
    case Unlock(m) =>
      var s :- WakeOne(v, k.sched, MutexQ(m));
      Ok(k.(sched := s, locked := k.locked - {m}, held := k.held - {(MySerial(k), m)}))
    case DataEnter => Ok(At(k, DataWait))
    case DataTest => if k.dataLine then Ok(At(k, User)) else Block(k.(dataMasked := false), DataIdleQ, DataWait)
    case CardMask => Ok(k.(cardMasked := true))
    case CardWait(checked) =>
      if checked && !k.cardIn then Ok(k) else Block(k.(cardMasked := false), CardQ, CardAsleep)
  }

  /** A trap ends in reschedule. */
  function Resched(k: Kernel): Outcome<Kernel> {
    var s :- Reschedule(k.sched);
    Ok(k.(sched := s))
  }

  /** handleTimerInterrupt. */
  function TimerHandler(k: Kernel, now: nat): Outcome<Kernel>
    requires LoopEnds(k.timers.queue, now)
  {
    var (timers, fired) := AfterInterrupt(k.timers, now);
    SetFired(k.(timers := timers), fired)
  }

  /** handleExternalInterrupt, for the sources the model has, in the order it tests them. */
  function ExternalHandler(k: Kernel, rx: bool, vsync: bool, card: bool, data: bool): Outcome<Kernel> {
    var k1 :- if rx then SetEvent(k, UART_RX) else Ok(k);
    var k2 :- if vsync then Wake(k1, SignalQ(VSYNC)) else Ok(k1);
    var k3 :- if card then Wake(k2.(cardMasked := true), CardQ) else Ok(k2);
    if data then Wake(k3.(dataMasked := true), DataIdleQ) else Ok(k3)
  }

  ghost function Apply(v: Version, k: Kernel, a: Action): Outcome<Kernel>
    requires Enabled(k, a)
  {
    if ByThread(a) then ThreadStep(v, k, a)
    else
      match a
      case TimerIrq(now) =>
        var k1 :- TimerHandler(k, now);
        Resched(k1)
      case ExternalIrq(rx, vsync, card, data) =>
        var k1 :- ExternalHandler(k, rx, vsync, card, data);
        Resched(k1)
      case DataLine(level) => Ok(k.(dataLine := level))
      case CardLine(level) => Ok(k.(cardIn := level))
      case _ => Ok(k)
  }

  /** The machine when the startup thread begins: n stacks, every external interrupt masked, the
      two UART events set, the comparator reset. */
  function Start(n: nat): Outcome<Kernel> {
    var s :- Boot(n);
    Ok(Kernel(s, map[0 := Info(User, 0), 1 := Info(User, 1)], 2, {UART_TX, UART_RX},
              Timers([], None, Fresh(MAX_TIMERS), 0), map[], {}, {}, false, true, false, true, None))
  }
}
