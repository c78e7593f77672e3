/** The slots of a pool allocator, as the value a caller sees: which slots are free, in the
    order in which they will be handed out. Module PoolAllocator shows that the list threaded
    through the slots is this value. */
module Pools {
  import opened Common

  const NULL: int := -1

  datatype Pool = Pool(size: nat, free: seq<nat>)

  /** A new pool hands its slots out in address order. */
  function Fresh(n: nat): (p: Pool)
    ensures p.size == |p.free| == n
    ensures forall i :: 0 <= i < n ==> p.free[i] == i
  {
    Pool(n, seq(n, i => i))
  }

  function Alloc(p: Pool): Outcome<(Pool, nat)> {
    if p.free == [] then Abort(EmptyPool)
    else Ok((p.(free := p.free[1..]), p.free[0]))
  }

  /** Any address may be passed in; one outside the pool, the null of an empty owner
      included, stops the machine. */
  function Free(p: Pool, element: int): Outcome<Pool> {
    if 0 <= element < p.size then Ok(p.(free := [element] + p.free))
    else Abort(NotInPool)
  }

  /** The free list has no repetitions and is exactly the complement of the live slots. */
  ghost predicate PoolOk(p: Pool, live: set<nat>) {
    && NoDup(p.free)
    && (forall i :: i in p.free ==> i < p.size)
    && (forall i :: i in live ==> i < p.size)
    && (forall i: nat :: i < p.size ==> (i in p.free <==> i !in live))
  }

  lemma FreshOk(n: nat)
    ensures PoolOk(Fresh(n), {})
  {
    var p := Fresh(n);
    forall i: nat | i < n ensures i in p.free {
      assert p.free[i] == i;
    }
  }

  lemma AllocKeeps(p: Pool, live: set<nat>)
    requires PoolOk(p, live)
    ensures Alloc(p).Abort? <==> forall i: nat :: i < p.size ==> i in live
    ensures Alloc(p).Ok? ==> Alloc(p).value.1 < p.size && Alloc(p).value.1 !in live
    ensures Alloc(p).Ok? ==> PoolOk(Alloc(p).value.0, live + {Alloc(p).value.1})
  {
    if p.free != [] {
      var x, rest := p.free[0], p.free[1..];
      assert p.free == [x] + rest;
      assert x in p.free && x !in rest;
      assert forall i :: i in p.free <==> i == x || i in rest;
    }
  }

  lemma FreeKeeps(p: Pool, live: set<nat>, i: nat)
    requires PoolOk(p, live) && i in live
    ensures Free(p, i).Ok? && PoolOk(Free(p, i).value, live - {i})
  {
  }

  /** free + live = N. */
  lemma {:induction false} Conservation(p: Pool, live: set<nat>)
    requires PoolOk(p, live)
    ensures |p.free| + |live| == p.size
  {
    Distinct(p.free);
    Range(p.size);
    assert UpTo(p.size) == Elements(p.free) + live;
  }

  function UpTo(n: nat): (r: set<nat>)
    ensures forall i: int :: i in r <==> 0 <= i < n
  {
    if n == 0 then {} else UpTo(n - 1) + {n - 1}
  }

  lemma Range(n: nat)
    ensures |UpTo(n)| == n
  {
  }

  function Elements(s: seq<nat>): (r: set<nat>)
    ensures forall i :: i in r <==> i in s
  {
    if s == [] then {} else {s[0]} + Elements(s[1..])
  }

  lemma {:induction false} Distinct(s: seq<nat>)
    requires NoDup(s)
    ensures |Elements(s)| == |s|
  {
    if s != [] {
      Distinct(s[1..]);
      assert s[0] !in s[1..];
    }
  }
}
