/** SpinLock: interrupts are turned off and the previous state remembered, and put back on release. */
module SpinLocks {
  // ---------------------------------------------------------------- the code

  /** The hart's interrupt-enable bit. */
  class Hart {
    var enabled: bool

    constructor (on: bool)
      ensures enabled == on
    {
      enabled := on;
    }
  }

  class SpinLock {
    const hart: Hart
    var locked: bool
    var previous: bool

    constructor (h: Hart)
      ensures hart == h && !locked
    {
      hart, locked, previous := h, false, false;
    }

    /** ok is whether line 23's assertion holds. */
    method Lock() returns (ok: bool)
      modifies this, hart
      ensures ok <==> !old(locked)
      ensures ok ==> locked && previous == old(hart.enabled) && !hart.enabled
      ensures !ok ==> locked && hart.enabled == old(hart.enabled)
    {
      ok := !locked;
      if !ok { return; }
      locked := true;
      previous := hart.enabled;
      hart.enabled := false;
    }

    /** ok is whether the assertions on lines 33 and 38 hold. */
    method Unlock() returns (ok: bool)
      modifies this, hart
      ensures ok <==> old(locked) && !(old(previous) && old(hart.enabled))
      ensures ok ==> !locked
      ensures old(locked) ==> hart.enabled == (old(previous) || old(hart.enabled))
    {
      ok := locked;
      if !ok { return; }
      if previous {
        ok := !hart.enabled;
        hart.enabled := true;
        if !ok { return; }
      }
      locked := false;
    }
  }

  // ---------------------------------------------------------------- nested scopes

  /** saved holds, outermost first, what each held lock remembers. violated: an assertion failed. */
  datatype State = State(enabled: bool, saved: seq<bool>, violated: bool)

  /** A scope is entered; the scope entered last is left; the hart runs other code of the scope. */
  datatype Op = Enter | Leave | Work

  function Do(s: State, op: Op): State {
    match op
    case Enter => s.(enabled := false, saved := s.saved + [s.enabled])
    case Leave =>
      if s.saved == [] then s.(violated := true)
      else
        var previous := s.saved[|s.saved| - 1];
        State(previous || s.enabled, s.saved[..|s.saved| - 1], s.violated || (previous && s.enabled))
    case Work => s
  }

  lemma DoLeave(s: State, rest: seq<bool>, previous: bool)
    ensures s.saved == rest + [previous] ==>
      Do(s, Leave) == State(previous || s.enabled, rest, s.violated || (previous && s.enabled))
  {
    assert (rest + [previous])[..|rest|] == rest;
  }

  function DoAll(s: State, ops: seq<Op>): State
    decreases |ops|
  {
    if ops == [] then s else DoAll(Do(s, ops[0]), ops[1..])
  }

  /** Scopes nest: no scope is left that was not entered in ops, or is among the `open` open ones. */
  predicate Nested(ops: seq<Op>, open: nat) {
    if ops == [] then true
    else match ops[0]
      case Enter => Nested(ops[1..], open + 1)
      case Leave => open > 0 && Nested(ops[1..], open - 1)
      case Work => Nested(ops[1..], open)
  }

  /** What the state was before the outermost lock was taken. */
  function Outermost(s: State): bool {
    if s.saved == [] then s.enabled else s.saved[0]
  }

  ghost predicate Ok(s: State) {
    && !s.violated
    && (s.saved != [] ==> !s.enabled)
    && forall i :: 0 < i < |s.saved| ==> !s.saved[i]
  }

  lemma StepKeeps(s: State, op: Op)
    requires Ok(s) && (op.Leave? ==> s.saved != [])
    ensures Ok(Do(s, op)) && Outermost(Do(s, op)) == Outermost(s)
  {
  }

  /** For every nested sequence of scopes no assertion fails, interrupts are off while any lock is
      held, and once the outermost lock has been released they are what they were before it. */
  lemma {:induction false} NestedScopes(s: State, ops: seq<Op>)
    requires Ok(s) && Nested(ops, |s.saved|)
    ensures Ok(DoAll(s, ops)) && Outermost(DoAll(s, ops)) == Outermost(s)
    ensures !DoAll(s, ops).violated && (DoAll(s, ops).saved != [] ==> !DoAll(s, ops).enabled)
    ensures DoAll(s, ops).saved == [] ==> DoAll(s, ops).enabled == Outermost(s)
    decreases |ops|
  {
    if ops != [] {
      StepKeeps(s, ops[0]);
      NestedScopes(Do(s, ops[0]), ops[1..]);
    }
  }

  // ---------------------------------------------------------------- the code, scope by scope

  ghost function Saved(locks: seq<SpinLock>): (r: seq<bool>)
    reads locks
    ensures |r| == |locks| && forall i :: 0 <= i < |r| ==> r[i] == locks[i].previous
  {
    if locks == [] then [] else [locks[0].previous] + Saved(locks[1..])
  }

  lemma SavedAppend(locks: seq<SpinLock>, l: SpinLock)
    ensures Saved(locks + [l]) == Saved(locks) + [l.previous]
  {
    hide Saved;
  }

  /** Locks of the hart, each held and none twice. */
  ghost predicate Held(hart: Hart, locks: seq<SpinLock>)
    reads locks
  {
    && (forall i :: 0 <= i < |locks| ==> locks[i].hart == hart && locks[i].locked)
    && (forall i, j :: 0 <= i < j < |locks| ==> locks[i] != locks[j])
  }

  lemma HeldAppend(hart: Hart, locks: seq<SpinLock>, l: SpinLock)
    requires l !in locks
    ensures Held(hart, locks + [l]) <==> Held(hart, locks) && l.hart == hart && l.locked
  {
    var all := locks + [l];
    assert all[|locks|] == l;
    assert forall i :: 0 <= i < |locks| ==> all[i] == locks[i] && locks[i] in locks;
  }

  lemma LastHeld(hart: Hart, locks: seq<SpinLock>)
    requires Held(hart, locks) && locks != []
    ensures var l, rest := locks[|locks| - 1], locks[..|locks| - 1];
      && l.hart == hart && l.locked && l !in rest && Held(hart, rest) && Saved(locks) == Saved(rest) + [l.previous]
  {
    var l, rest := locks[|locks| - 1], locks[..|locks| - 1];
    assert locks == rest + [l];
    SavedAppend(rest, l);
    hide Saved;
  }

  /** The SpinLock objects of the open scopes of one hart, outermost first. */
  class Scopes {
    const hart: Hart
    var locks: seq<SpinLock>
    /** An assertion has failed. */
    var violated: bool

    ghost predicate Valid()
      reads this, locks
    {
      Held(hart, locks)
    }

    ghost function View(): State
      reads this, hart, locks
    {
      State(hart.enabled, Saved(locks), violated)
    }

    constructor (h: Hart)
      ensures Valid() && hart == h && locks == [] && View() == State(h.enabled, [], false)
    {
      hart, locks, violated := h, [], false;
    }

    /** SpinLock lock{true}; at the start of a scope. */
    method EnterScope()
      requires Valid()
      modifies this, hart
      ensures Valid() && View() == Do(old(View()), Enter)
      ensures |locks| == |old(locks)| + 1 && fresh(locks[|old(locks)|]) && locks[..|old(locks)|] == old(locks)
    {
      hide Saved, Held;
      var lock := new SpinLock(hart);
      var ok := lock.Lock();
      violated := violated || !ok;
      SavedAppend(locks, lock);
      HeldAppend(hart, locks, lock);
      assert Saved(locks) == old(Saved(locks)) && Held(hart, locks);
      locks := locks + [lock];
    }

    /** The destructor at its end. */
    method LeaveScope()
      requires Valid() && locks != []
      modifies this, hart, locks[|locks| - 1]
      ensures Valid() && View() == Do(old(View()), Leave)
      ensures locks == old(locks[..|locks| - 1])
    {
      hide Saved, Held, Do;
      LastHeld(hart, locks);
      var lock, rest := locks[|locks| - 1], locks[..|locks| - 1];
      DoLeave(View(), Saved(rest), lock.previous);
      ghost var saved := Saved(rest);
      var ok := lock.Unlock();
      assert Saved(rest) == saved && Held(hart, rest);
      violated := violated || !ok;
      locks := rest;
    }

    method Perform(op: Op)
      requires Valid() && (op.Leave? ==> locks != [])
      modifies this, hart, locks
      ensures Valid() && View() == Do(old(View()), op)
      ensures |locks| == match op case Enter => |old(locks)| + 1 case Leave => |old(locks)| - 1 case Work => |old(locks)|
      ensures forall i :: 0 <= i < |locks| ==> locks[i] in old(locks) || fresh(locks[i])
    {
      hide Saved, Held;
      match op {
        case Enter => EnterScope();
        case Leave => LeaveScope();
        case Work =>
      }
    }

    /** Any nested sequence of scopes: no assertion fails in any of them. */
    method Execute(ops: seq<Op>)
      requires Valid() && Ok(View()) && Nested(ops, |locks|)
      modifies this, hart, locks
      ensures Valid() && View() == DoAll(old(View()), ops)
      ensures !violated && (locks != [] ==> !hart.enabled)
      ensures locks == [] ==> hart.enabled == Outermost(old(View()))
    {
      NestedScopes(View(), ops);
      hide Ok, Do, Saved, Held;
      var i := 0;
      while i < |ops|
        invariant i <= |ops| && Valid() && Nested(ops[i..], |locks|)
        invariant DoAll(View(), ops[i..]) == DoAll(old(View()), ops)
        invariant forall k :: 0 <= k < |locks| ==> locks[k] in old(locks) || fresh(locks[k])
        decreases |ops| - i
      {
        assert ops[i..][1..] == ops[i + 1..];
        Perform(ops[i]);
        i := i + 1;
      }
    }
  }
}
