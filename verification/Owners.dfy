/** The pool allocator and its owners over whole histories: alloc, move, assign, release, clear. */
module Owners {
  import opened Common
  import opened Pools

  /** A Ptr: whether it points to the pool, and the slot it owns, NULL for none. */
  datatype PtrValue = PtrValue(pool: bool, element: int)

  const EMPTY := PtrValue(false, NULL)

  /** ptrs: the Ptr variables in existence. raw: slots whose address has been released from a Ptr and
      is kept by somebody else, such as a timer handle. */
  datatype Heap = Heap(pool: Pool, ptrs: map<nat, PtrValue>, raw: set<nat>)

  datatype Op =
    | AllocInto(p: nat)           // Ptr p = pool.alloc()
    | Default(p: nat)             // Ptr p
    | EmptyInto(p: nat)           // Ptr p = pool.emptyPtr()
    | MoveInto(p: nat, from: nat) // Ptr p = std::move(from)
    | Assign(p: nat, from: nat)   // p = std::move(from), p and from possibly the same
    | Release(p: nat)
    | Clear(p: nat)
    | Destroy(p: nat)             // p goes out of scope
    | FreeRaw(slot: nat)          // pool.free(address) by the keeper of a released address

  predicate Enabled(h: Heap, op: Op) {
    match op
    case AllocInto(p) => p !in h.ptrs
    case Default(p) => p !in h.ptrs
    case EmptyInto(p) => p !in h.ptrs
    case MoveInto(p, q) => p !in h.ptrs && q in h.ptrs
    case Assign(p, q) => p in h.ptrs && q in h.ptrs
    case Release(p) => p in h.ptrs
    case Clear(p) => p in h.ptrs
    case Destroy(p) => p in h.ptrs
    case FreeRaw(slot) => slot in h.raw
  }

  /** What clear does with the value a Ptr holds. */
  function FreeValue(pool: Pool, v: PtrValue): Outcome<Pool> {
    if v.pool then Free(pool, v.element) else Ok(pool)
  }

  function Apply(h: Heap, op: Op): Outcome<Heap>
    requires Enabled(h, op)
  {
    match op
    case AllocInto(p) =>
      var (pool, slot) :- Alloc(h.pool);
      Ok(h.(pool := pool, ptrs := h.ptrs[p := PtrValue(true, slot)]))
    case Default(p) => Ok(h.(ptrs := h.ptrs[p := EMPTY]))
    case EmptyInto(p) => Ok(h.(ptrs := h.ptrs[p := PtrValue(true, NULL)]))
    case MoveInto(p, q) => Ok(h.(ptrs := h.ptrs[p := h.ptrs[q]][q := EMPTY]))
    case Assign(p, q) =>
      // the parameter takes q's value, p and the parameter swap, the parameter is destroyed
      var param := h.ptrs[q];
      var moved := h.ptrs[q := EMPTY];
      var previous := moved[p];
      var pool :- FreeValue(h.pool, previous);
      Ok(h.(pool := pool, ptrs := moved[p := param]))
    case Release(p) =>
      var v := h.ptrs[p];
      Ok(h.(ptrs := h.ptrs[p := EMPTY], raw := if v.element >= 0 then h.raw + {v.element} else h.raw))
    case Clear(p) =>
      var pool :- FreeValue(h.pool, h.ptrs[p]);
      Ok(h.(pool := pool, ptrs := h.ptrs[p := EMPTY]))
    case Destroy(p) =>
      var pool :- FreeValue(h.pool, h.ptrs[p]);
      Ok(h.(pool := pool, ptrs := h.ptrs - {p}))
    case FreeRaw(slot) =>
      var pool :- Free(h.pool, slot);
      Ok(h.(pool := pool, raw := h.raw - {slot}))
  }

  /** The slots somebody owns. */
  function Live(h: Heap): set<nat> {
    (set p | p in h.ptrs && h.ptrs[p].element >= 0 :: h.ptrs[p].element as nat) + h.raw
  }

  /** The free list is the complement of the live slots, and each live slot has one owner. */
  ghost predicate HeapOk(h: Heap) {
    && PoolOk(h.pool, Live(h))
    && (forall p :: p in h.ptrs ==> h.ptrs[p].element >= NULL && (h.ptrs[p].element >= 0 ==> h.ptrs[p].pool))
    && (forall p :: p in h.ptrs ==> h.ptrs[p].element !in h.raw)
    && (forall p, q :: p in h.ptrs && q in h.ptrs && p != q && h.ptrs[p].element >= 0 ==>
          h.ptrs[p].element != h.ptrs[q].element)
  }

  /** The value an operation destroys, if it destroys one. */
  function Destroyed(h: Heap, op: Op): PtrValue
    requires Enabled(h, op)
  {
    match op
    case Assign(p, q) => if p == q then EMPTY else h.ptrs[p]
    case Clear(p) => h.ptrs[p]
    case Destroy(p) => h.ptrs[p]
    case _ => EMPTY
  }

  /** An operation aborts in exactly two cases: it allocates from a pool with no free slot, or it
      destroys the value emptyPtr makes, a Ptr with a pool and no element. */
  lemma AbortsIff(h: Heap, op: Op)
    requires HeapOk(h) && Enabled(h, op)
    ensures Apply(h, op).Abort? <==>
      (op.AllocInto? && Live(h) == UpTo(h.pool.size)) || Destroyed(h, op) == PtrValue(true, NULL)
  {
    if op.AllocInto? {
      AllocKeeps(h.pool, Live(h));
    }
    forall p | p in h.ptrs && h.ptrs[p].element >= 0 ensures h.ptrs[p].element in Live(h) {
    }
  }

  lemma LiveIs(h: Heap, i: int)
    ensures i in Live(h) <==> i in h.raw || (i >= 0 && exists p :: p in h.ptrs && h.ptrs[p].element == i)
  {
  }

  lemma AllocStep(h: Heap, p: nat)
    requires HeapOk(h) && Enabled(h, AllocInto(p)) && Apply(h, AllocInto(p)).Ok?
    ensures HeapOk(Apply(h, AllocInto(p)).value)
  {
    AllocKeeps(h.pool, Live(h));
    var (pool, slot) := Alloc(h.pool).value;
    var r := Apply(h, AllocInto(p)).value;
    AllocLive(h, p, r, slot);
    forall q | q in h.ptrs && h.ptrs[q].element >= 0 ensures h.ptrs[q].element != slot {
      InLive(h, q);
    }
    assert slot !in h.raw;
    hide Live, PoolOk;
  }

  lemma AllocLive(h: Heap, p: nat, r: Heap, slot: nat)
    requires p !in h.ptrs && r.raw == h.raw && r.ptrs == h.ptrs[p := PtrValue(true, slot)]
    ensures Live(r) == Live(h) + {slot}
  {
    forall i ensures i in Live(r) <==> i in Live(h) + {slot} {
      LiveIs(h, i);
      LiveIs(r, i);
      hide Live;
      if i == slot { assert r.ptrs[p].element == i; }
      if i in Live(h) && i !in h.raw {
        var q :| q in h.ptrs && h.ptrs[q].element == i;
        assert r.ptrs[q].element == i;
      }
    }
  }

  /** No pointer changes hands and nothing is freed. */
  lemma SameLive(h: Heap, r: Heap)
    requires HeapOk(h) && r.pool == h.pool && Live(r) == Live(h)
    requires forall p :: p in r.ptrs ==> r.ptrs[p].element >= NULL && (r.ptrs[p].element >= 0 ==> r.ptrs[p].pool)
    requires forall p :: p in r.ptrs ==> r.ptrs[p].element !in r.raw
    requires forall p, q :: p in r.ptrs && q in r.ptrs && p != q && r.ptrs[p].element >= 0 ==> r.ptrs[p].element != r.ptrs[q].element
    ensures HeapOk(r)
  {
  }

  /** Whoever owned a slot before, somebody owns it after, and the other way round. */
  lemma SameOwners(h: Heap, r: Heap)
    requires forall p :: p in h.ptrs && h.ptrs[p].element >= 0 ==> h.ptrs[p].element in Live(r)
    requires forall p :: p in r.ptrs && r.ptrs[p].element >= 0 ==> r.ptrs[p].element in Live(h)
    requires h.raw <= Live(r) && r.raw <= Live(h)
    ensures Live(h) == Live(r)
  {
    forall i ensures i in Live(r) <==> i in Live(h) {
      LiveIs(h, i);
      LiveIs(r, i);
    }
  }

  lemma InLive(h: Heap, p: nat)
    requires p in h.ptrs && h.ptrs[p].element >= 0
    ensures h.ptrs[p].element in Live(h)
  {
  }

  lemma NewStep(h: Heap, op: Op)
    requires HeapOk(h) && Enabled(h, op) && (op.Default? || op.EmptyInto?)
    ensures Apply(h, op).Ok? && HeapOk(Apply(h, op).value)
  {
    var r := Apply(h, op).value;
    forall q | q in h.ptrs && h.ptrs[q].element >= 0 ensures h.ptrs[q].element in Live(r) { InLive(r, q); }
    forall q | q in r.ptrs && r.ptrs[q].element >= 0 ensures r.ptrs[q].element in Live(h) { InLive(h, q); }
    SameOwners(h, r);
    SameLive(h, r);
  }

  lemma MoveIntoStep(h: Heap, p: nat, from: nat)
    requires HeapOk(h) && Enabled(h, MoveInto(p, from))
    ensures Apply(h, MoveInto(p, from)).Ok? && HeapOk(Apply(h, MoveInto(p, from)).value)
  {
    var r := Apply(h, MoveInto(p, from)).value;
    MovedLive(h, r, p, from);
    hide PoolOk, Live;
    SameLive(h, r);
  }

  lemma MovedLive(h: Heap, r: Heap, p: nat, from: nat)
    requires from in h.ptrs && p !in h.ptrs && r.raw == h.raw
    requires r.ptrs == h.ptrs[p := h.ptrs[from]][from := EMPTY]
    ensures Live(h) == Live(r)
  {
    hide Live;
    forall q | q in h.ptrs && h.ptrs[q].element >= 0 ensures h.ptrs[q].element in Live(r) {
      InLive(r, if q == from then p else q);
    }
    forall q | q in r.ptrs && r.ptrs[q].element >= 0 ensures r.ptrs[q].element in Live(h) {
      InLive(h, if q == p then from else q);
    }
    RawLive(h);
    RawLive(r);
    SameOwners(h, r);
  }

  lemma ReleaseStep(h: Heap, p: nat)
    requires HeapOk(h) && Enabled(h, Release(p))
    ensures Apply(h, Release(p)).Ok? && HeapOk(Apply(h, Release(p)).value)
  {
    var r := Apply(h, Release(p)).value;
    ReleasedLive(h, r, p);
    hide PoolOk;
    SameLive(h, r);
  }

  lemma ReleasedLive(h: Heap, r: Heap, p: nat)
    requires p in h.ptrs && r.ptrs == h.ptrs[p := EMPTY]
    requires r.raw == if h.ptrs[p].element >= 0 then h.raw + {h.ptrs[p].element} else h.raw
    ensures Live(h) == Live(r)
  {
    hide Live;
    forall q | q in h.ptrs && h.ptrs[q].element >= 0 ensures h.ptrs[q].element in Live(r) {
      if q == p { LiveIs(r, h.ptrs[p].element); } else { InLive(r, q); }
    }
    forall q | q in r.ptrs && r.ptrs[q].element >= 0 ensures r.ptrs[q].element in Live(h) { InLive(h, q); }
    if h.ptrs[p].element >= 0 { InLive(h, p); }
    RawLive(h);
    RawLive(r);
    SameOwners(h, r);
  }

  lemma RawLive(h: Heap)
    ensures h.raw <= Live(h)
  {
  }

  /** A value is taken out of the pointers and destroyed. */
  lemma DestroyStep(h: Heap, op: Op)
    requires HeapOk(h) && Enabled(h, op) && (op.Assign? || op.Clear? || op.Destroy?) && Apply(h, op).Ok?
    ensures HeapOk(Apply(h, op).value)
  {
    var r := Apply(h, op).value;
    var d := Destroyed(h, op).element;
    forall i ensures i in Live(r) <==> i in Live(h) && i != d {
      DestroyLive(h, op, i);
    }
    if d >= 0 {
      assert d in Live(h) by { LiveIs(h, d); }
      FreeKeeps(h.pool, Live(h), d);
      assert Live(r) == Live(h) - {d};
    } else {
      assert Live(r) == Live(h);
    }
    DestroyPtrs(h, op);
  }

  lemma DestroyLive(h: Heap, op: Op, i: int)
    requires HeapOk(h) && Enabled(h, op) && (op.Assign? || op.Clear? || op.Destroy?) && Apply(h, op).Ok?
    ensures i in Live(Apply(h, op).value) <==> i in Live(h) && i != Destroyed(h, op).element
  {
    var r := Apply(h, op).value;
    LiveIs(h, i);
    LiveIs(r, i);
    assert r.raw == h.raw;
    if i in Live(h) && i !in h.raw && i != Destroyed(h, op).element {
      var q :| q in h.ptrs && h.ptrs[q].element == i;
      StillOwned(h, op, q);
    }
    if i in Live(r) && i !in r.raw {
      var q :| q in r.ptrs && r.ptrs[q].element == i;
      WasOwned(h, op, q);
    }
  }

  lemma StillOwned(h: Heap, op: Op, q: nat)
    requires Enabled(h, op) && (op.Assign? || op.Clear? || op.Destroy?) && Apply(h, op).Ok?
    requires q in h.ptrs && h.ptrs[q].element >= 0 && h.ptrs[q].element != Destroyed(h, op).element
    ensures h.ptrs[q].element in Live(Apply(h, op).value)
  {
    InLive(Apply(h, op).value, if op.Assign? && q == op.from then op.p else q);
  }

  lemma WasOwned(h: Heap, op: Op, q: nat)
    requires HeapOk(h) && Enabled(h, op) && (op.Assign? || op.Clear? || op.Destroy?) && Apply(h, op).Ok?
    requires q in Apply(h, op).value.ptrs && Apply(h, op).value.ptrs[q].element >= 0
    ensures Apply(h, op).value.ptrs[q].element in Live(h)
    ensures Apply(h, op).value.ptrs[q].element != Destroyed(h, op).element
  {
    InLive(h, if op.Assign? && q == op.p then op.from else q);
  }

  lemma DestroyPtrs(h: Heap, op: Op)
    requires HeapOk(h) && Enabled(h, op) && (op.Assign? || op.Clear? || op.Destroy?) && Apply(h, op).Ok?
    ensures var r := Apply(h, op).value;
      && r.raw == h.raw
      && (forall p :: p in r.ptrs ==> r.ptrs[p].element >= NULL && (r.ptrs[p].element >= 0 ==> r.ptrs[p].pool))
      && (forall p :: p in r.ptrs ==> r.ptrs[p].element !in r.raw)
      && (forall p, q :: p in r.ptrs && q in r.ptrs && p != q && r.ptrs[p].element >= 0 ==> r.ptrs[p].element != r.ptrs[q].element)
  {
    hide PoolOk, Live, FreeValue;
    if op.Assign? {
    } else if op.Clear? {
    } else {
    }
  }

  lemma FreeRawStep(h: Heap, slot: nat)
    requires HeapOk(h) && Enabled(h, FreeRaw(slot))
    ensures Apply(h, FreeRaw(slot)).Ok? && HeapOk(Apply(h, FreeRaw(slot)).value)
  {
    FreeKeeps(h.pool, Live(h), slot);
    var r := Apply(h, FreeRaw(slot)).value;
    forall i ensures i in Live(r) <==> i in Live(h) && i != slot {
      LiveIs(h, i);
      LiveIs(r, i);
    }
    assert Live(r) == Live(h) - {slot};
  }

  lemma StepKeeps(h: Heap, op: Op)
    requires HeapOk(h) && Enabled(h, op) && Apply(h, op).Ok?
    ensures HeapOk(Apply(h, op).value) && Apply(h, op).value.pool.size == h.pool.size
  {
    match op {
      case AllocInto(p) => AllocStep(h, p);
      case FreeRaw(slot) => FreeRawStep(h, slot);
      case Assign(_, _) => DestroyStep(h, op);
      case Clear(_) => DestroyStep(h, op);
      case Destroy(_) => DestroyStep(h, op);
      case MoveInto(p, q) => MoveIntoStep(h, p, q);
      case Release(p) => ReleaseStep(h, p);
      case _ => NewStep(h, op);
    }
  }

  ghost predicate History(n: nat, hs: seq<Heap>, ops: seq<Op>) {
    && |hs| == |ops| + 1 && hs[0] == Heap(Fresh(n), map[], {})
    && forall i :: 0 <= i < |ops| ==> Enabled(hs[i], ops[i]) && Apply(hs[i], ops[i]) == Ok(hs[i + 1])
  }

  /** After every history the free list has no repetition and is exactly the complement of the live
      slots, each live slot has one owner, and free + live = N. */
  lemma {:induction false} HistoryKeeps(n: nat, hs: seq<Heap>, ops: seq<Op>, i: nat)
    requires History(n, hs, ops) && i < |hs|
    ensures HeapOk(hs[i]) && hs[i].pool.size == n && |hs[i].pool.free| + |Live(hs[i])| == n
  {
    hide HeapOk, Apply, Enabled, PoolOk;
    if i == 0 {
      StartOk(n);
    } else {
      var j := i - 1;
      HistoryKeeps(n, hs, ops, j);
      assert Enabled(hs[j], ops[j]) && Apply(hs[j], ops[j]) == Ok(hs[j + 1]);
      StepKeeps(hs[j], ops[j]);
    }
    HeapConserves(hs[i]);
  }

  lemma StartOk(n: nat)
    ensures HeapOk(Heap(Fresh(n), map[], {}))
  {
    FreshOk(n);
    assert Live(Heap(Fresh(n), map[], {})) == {};
  }

  lemma HeapConserves(h: Heap)
    requires HeapOk(h)
    ensures |h.pool.free| + |Live(h)| == h.pool.size
  {
    Conservation(h.pool, Live(h));
  }

  // ---------------------------------------------------------------- who owns what

  /** An owner of a slot: a Ptr variable, or whoever was given the address when it was released. */
  datatype Keeper = InPtr(p: nat) | Released

  predicate Owns(h: Heap, w: Keeper, slot: nat) {
    match w
    case InPtr(p) => p in h.ptrs && h.ptrs[p].element == slot
    case Released => slot in h.raw
  }

  /** Whose a slot is after the operation, if it was w's before; nobody's if it has been freed. */
  function Heir(op: Op, w: Keeper, slot: nat): Option<Keeper> {
    match op
    case MoveInto(p, q) => Some(if w == InPtr(q) then InPtr(p) else w)
    case Assign(p, q) => if w == InPtr(q) then Some(InPtr(p)) else if w == InPtr(p) then None else Some(w)
    case Release(p) => Some(if w == InPtr(p) then Released else w)
    case Clear(p) => if w == InPtr(p) then None else Some(w)
    case Destroy(p) => if w == InPtr(p) then None else Some(w)
    case FreeRaw(i) => if w == Released && i == slot then None else Some(w)
    case _ => Some(w)
  }

  /** After an operation a slot is its heir's and nobody else's; only allocating makes a dead slot
      somebody's, the first free one, and the Ptr's it is allocated into. */
  lemma OwnedExactly(h: Heap, op: Op, w: Keeper, slot: nat)
    requires HeapOk(h) && Enabled(h, op) && Apply(h, op).Ok?
    ensures Owns(Apply(h, op).value, w, slot) <==>
      (exists w' :: Owns(h, w', slot) && Heir(op, w', slot) == Some(w))
      || (op.AllocInto? && w == InPtr(op.p) && [slot] <= h.pool.free)
  {
    var r := Apply(h, op).value;
    if op.AllocInto? && w == InPtr(op.p) {
      assert Owns(r, w, slot) <==> slot == h.pool.free[0];
    } else if Owns(r, w, slot) {
      HeirOf(h, op, w, slot);
    }
    if w' :| Owns(h, w', slot) && Heir(op, w', slot) == Some(w) {
      Inherits(h, op, w', w, slot);
    }
  }

  /** Whose a slot was that is w's after the operation, and was not allocated by it. */
  function Forebear(h: Heap, op: Op, w: Keeper, slot: nat): Keeper {
    match op
    case MoveInto(p, q) => if w == InPtr(p) then InPtr(q) else w
    case Assign(p, q) => if w == InPtr(p) then InPtr(q) else w
    case Release(p) => if w == Released && slot !in h.raw then InPtr(p) else w
    case _ => w
  }

  lemma HeirOf(h: Heap, op: Op, w: Keeper, slot: nat)
    requires HeapOk(h) && Enabled(h, op) && Apply(h, op).Ok? && Owns(Apply(h, op).value, w, slot)
    requires !(op.AllocInto? && w == InPtr(op.p))
    ensures Owns(h, Forebear(h, op, w, slot), slot) && Heir(op, Forebear(h, op, w, slot), slot) == Some(w)
  {
    hide HeapOk;
  }

  lemma Inherits(h: Heap, op: Op, w: Keeper, w': Keeper, slot: nat)
    requires HeapOk(h) && Enabled(h, op) && Apply(h, op).Ok? && Owns(h, w, slot) && Heir(op, w, slot) == Some(w')
    ensures Owns(Apply(h, op).value, w', slot)
  {
    hide PoolOk, Live;
  }
}
