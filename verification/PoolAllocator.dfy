/** The pool allocator with its free list threaded through the slots, and its move-only owner. */
module PoolAllocators {
  import opened Common
  import opened Pools

  class PoolAllocator {
    const size: nat
    /** The first word of each slot: the link to the next free slot while the slot is free, and
        whatever the slot's owner stores there while it is live. */
    const words: array<int>
    var firstFree: int
    /** The free slots, in list order. */
    ghost var free: seq<nat>

    /** Following the links from firstFree meets exactly the slots of free, and ends. */
    ghost predicate Valid()
      reads this, words
    {
      && words.Length == size
      && NoDup(free) && Threads(words[..], firstFree, free)
    }

    ghost function Value(): Pool
      reads this
    {
      Pool(size, free)
    }

    constructor (n: nat)
      requires n != 0
      ensures Valid() && fresh(words) && Value() == Fresh(n)
    {
      size := n;
      words := new int[n];
      firstFree := 0;
      free := Fresh(n).free;
      new;
      for i := 0 to n
        invariant words.Length == n && free == Fresh(n).free && firstFree == 0
        invariant forall j :: 0 <= j < i ==> words[j] == j + 1
      {
        words[i] := i + 1;
      }
      words[n - 1] := NULL;
      assert forall j :: 0 <= j < n ==> free[j] == j;
    }

    method Alloc() returns (r: Outcome<nat>)
      requires Valid()
      modifies this
      ensures Valid()
      ensures Pools.Alloc(old(Value())).Ok? ==> Pools.Alloc(old(Value())) == Ok((Value(), r.GetOr(0))) && r.Ok?
      ensures r.Ok? ==> r.value !in free && forall i :: i in free ==> i in old(free)
      ensures Pools.Alloc(old(Value())).Abort? ==> r == Abort(Pools.Alloc(old(Value())).reason) && Value() == old(Value())
    {
      if firstFree == NULL {
        return Abort(EmptyPool);
      }
      Popped(words[..], firstFree, free);
      var slot := firstFree;
      firstFree := words[slot];
      free := free[1..];
      return Ok(slot);
    }

    /** A slot that is free already is linked in a second time. Nothing checks for that, and it is
        exactly what breaks the free list: see DoubleFreeCycles. */
    method Free(element: int) returns (r: Outcome<()>)
      requires Valid()
      modifies this, words
      ensures r.Ok? <==> 0 <= element < size
      ensures r.Abort? ==> r == Abort(NotInPool) && Valid() && Value() == old(Value()) && words[..] == old(words[..])
      ensures r.Ok? ==> Pools.Free(old(Value()), element) == Ok(Value())
      ensures r.Ok? ==> firstFree == element && words[..] == old(words[..])[element := old(firstFree)]
      ensures r.Ok? ==> (Valid() <==> element !in old(free))
    {
      if !(0 <= element < size) {
        return Abort(NotInPool);
      }
      ghost var was, before := free, words[..];
      words[element] := firstFree;
      firstFree := element;
      free := [element] + free;
      assert words[..] == before[element := LinkTo(was, 0)];
      if element !in was {
        Pushed(before, was, element);
      } else {
        assert free[0] == element && element in free[1..];
      }
      return Ok(());
    }

    /** The owner of a live slot may store anything in it. */
    method Store(slot: nat, w: int)
      requires Valid() && slot < size && slot !in free
      modifies words
      ensures Valid() && Value() == old(Value())
      ensures words[..] == old(words[..])[slot := w]
    {
      ghost var before := words[..];
      words[slot] := w;
      assert words[..] == before[slot := w];
      Elsewhere(before, firstFree, free, slot, w);
    }
  }

  /** The link that leads to position j of the free list. */
  function LinkTo(free: seq<nat>, j: nat): int {
    if j < |free| then free[j] else NULL
  }

  /** Following the links from `first` meets exactly the slots of free, and ends. */
  ghost predicate Threads(words: seq<int>, first: int, free: seq<nat>) {
    && first == LinkTo(free, 0)
    && forall j :: 0 <= j < |free| ==> free[j] < |words| && words[free[j]] == LinkTo(free, j + 1)
  }

  lemma Popped(words: seq<int>, first: int, free: seq<nat>)
    requires NoDup(free) && Threads(words, first, free) && first != NULL
    ensures free != [] && first == free[0] < |words|
    ensures NoDup(free[1..]) && Threads(words, words[first], free[1..])
  {
  }

  lemma Elsewhere(words: seq<int>, first: int, free: seq<nat>, slot: nat, w: int)
    requires Threads(words, first, free) && slot < |words| && slot !in free
    ensures Threads(words[slot := w], first, free)
  {
    assert forall j :: 0 <= j < |free| ==> free[j] in free;
  }

  lemma Pushed(words: seq<int>, free: seq<nat>, e: nat)
    requires NoDup(free) && Threads(words, LinkTo(free, 0), free) && e < |words| && e !in free
    ensures NoDup([e] + free) && Threads(words[e := LinkTo(free, 0)], e, [e] + free)
  {
    var now := [e] + free;
    assert forall j :: 0 <= j < |free| ==> free[j] in free;
    forall j | 0 <= j < |now| ensures LinkTo(now, j + 1) == LinkTo(free, j) {
      assert j + 1 < |now| ==> now[j + 1] == free[j];
    }
  }

  /** Freeing a slot that is free already makes the links run in a circle: no list, of whatever
      length, is what they meet before they end. */
  lemma DoubleFreeCycles(words: seq<int>, free: seq<nat>, e: nat, any: seq<nat>)
    requires Threads(words, LinkTo(free, 0), free) && e in free
    ensures !Threads(words[e := LinkTo(free, 0)], e, any)
  {
    var i := FirstAt(free, e);
    var circle := free[..i + 1];
    assert circle[i] == e;
    forall x | x in circle ensures LinksInto(words[e := LinkTo(free, 0)], x, circle) {
      NextOnTheCircle(words, free, e, i, x);
    }
    if Threads(words[e := LinkTo(free, 0)], e, any) {
      assert any != [];
      Trapped(words[e := LinkTo(free, 0)], e, circle, any, |any| - 1);
    }
  }

  predicate LinksInto(words: seq<int>, x: nat, circle: seq<nat>) {
    x < |words| && words[x] >= 0 && words[x] in circle
  }

  /** From a set of slots whose links stay in it there is no way out. */
  lemma {:induction false} Trapped(words: seq<int>, first: int, circle: seq<nat>, any: seq<nat>, k: nat)
    requires first >= 0 && first in circle && forall x :: x in circle ==> LinksInto(words, x, circle)
    requires Threads(words, first, any) && k < |any|
    ensures any[k] in circle && LinkTo(any, k + 1) != NULL
    decreases k
  {
    if k > 0 {
      Trapped(words, first, circle, any, k - 1);
      assert any[k] == words[any[k - 1]];
    }
    assert LinkTo(any, k + 1) == words[any[k]];
  }

  lemma FirstAt(s: seq<nat>, e: nat) returns (i: nat)
    requires e in s
    ensures i < |s| && s[i] == e && e !in s[..i]
  {
    i := 0;
    while s[i] != e
      invariant i < |s| && e in s[i..] && e !in s[..i]
      decreases |s| - i
    {
      i := i + 1;
    }
  }

  lemma NextOnTheCircle(words: seq<int>, free: seq<nat>, e: nat, i: nat, x: nat)
    requires Threads(words, LinkTo(free, 0), free) && i < |free| && free[i] == e && e !in free[..i] && x in free[..i + 1]
    ensures LinksInto(words[e := LinkTo(free, 0)], x, free[..i + 1])
  {
    var j :| 0 <= j < i + 1 && free[j] == x;
    var next := if j < i then j + 1 else 0;
    assert j < i ==> free[..i][j] == free[j];
    assert free[..i + 1][next] == free[next];
  }

  /** element has been given to Free of the pool, with outcome r. */
  twostate predicate Freed(pool: PoolAllocator, element: int, new r: Outcome<()>)
    reads pool, pool.words
  {
    && (r.Ok? <==> 0 <= element < pool.size)
    && (r.Abort? ==> pool.Valid())
    && (r.Ok? ==> Pools.Free(old(pool.Value()), element) == Ok(pool.Value()) && (pool.Valid() <==> element !in old(pool.free)))
  }

  /** A move-only owner of one slot. */
  class Ptr {
    var pool: PoolAllocator?
    var element: int

    constructor ()
      ensures pool == null && element == NULL
    {
      pool, element := null, NULL;
    }

    constructor Own(e: int, p: PoolAllocator)
      ensures pool == p && element == e
    {
      pool, element := p, e;
    }

    constructor Move(that: Ptr)
      modifies that
      ensures pool == old(that.pool) && element == old(that.element)
      ensures that.pool == null && that.element == NULL
    {
      pool, element := that.pool, that.element;
      new;
      that.pool, that.element := null, NULL;
    }

    method Swap(that: Ptr)
      modifies this, that
      ensures pool == old(that.pool) && element == old(that.element)
      ensures that.pool == old(pool) && that.element == old(element)
    {
      pool, that.pool := that.pool, pool;
      element, that.element := that.element, element;
    }

    method Release() returns (e: int)
      modifies this
      ensures e == old(element) && pool == null && element == NULL
    {
      e := element;
      element, pool := NULL, null;
    }

    /** What is owned goes back; the list stays sound exactly if it was live. */
    method Clear() returns (r: Outcome<()>)
      requires pool != null ==> pool.Valid()
      modifies this, if pool == null then {} else {pool, pool.words}
      ensures old(pool) == null ==> r.Ok?
      ensures old(pool) != null ==> Freed(old(pool), old(element), r)
      ensures r.Ok? ==> pool == null && element == NULL
    {
      r := Ok(());
      if pool != null {
        r := pool.Free(element);
        if r.Abort? { return; }
      }
      pool, element := null, NULL;
    }

    /** operator=(Ptr that) on an rvalue: the parameter is built by moving, swapped with this, and
        destroyed, which frees what this held before. Assigning an owner to itself changes nothing. */
    method Assign(that: Ptr) returns (r: Outcome<()>)
      requires pool != null ==> pool.Valid()
      modifies this, that, if pool == null then {} else {pool, pool.words}
      ensures pool == old(that.pool) && element == old(that.element)
      ensures this == that ==> r.Ok? && (pool != null ==> unchanged(pool) && unchanged(pool.words))
      ensures this != that ==> that.pool == null && that.element == NULL
      ensures this != that && old(pool) == null ==> r.Ok?
      ensures this != that && old(pool) != null ==> Freed(old(pool), old(element), r)
    {
      var param := new Ptr.Move(that);
      Swap(param);
      r := param.Clear();
    }
  }
}
