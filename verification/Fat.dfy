/** Directory traversal and file reading over the clusters of a FAT file system. How a cluster leads
    to the next one is left open: the successor is any function. */
module Fat {
  import opened Common

  const ENTRIES_PER_SECTOR: nat := 16
  const BLOCK_SIZE: nat := 512
  const FIRST_USABLE: nat := 2
  const BAD: nat := 0x0FFFFFF7
  const FIRST_EOC: nat := 0x0FFFFFF8
  const END_MARKER: nat := 0x00
  const FREE_MARKER: nat := 0xE5

  type Byte = b: nat | b < 256

  /** A directory entry: the first byte of its name, and everything else. */
  datatype DirEntry = DirEntry(first: Byte, rest: seq<Byte>)

  /** totalSectors bounds the clusters whose successor may be asked for. */
  datatype Fs = Fs(entry: (nat, nat) -> DirEntry, byte: (nat, nat) -> Byte, next: nat -> nat, totalSectors: nat)

  predicate IsValid(c: nat) {
    c >= FIRST_USABLE && c != BAD && c < FIRST_EOC
  }

  /** The numbers of usable clusters, and how many entries of 32 bytes a block of 512 has. */
  lemma UsableClusters(c: nat)
    ensures IsValid(c) <==> 2 <= c <= 0x0FFF_FFF6
    ensures ENTRIES_PER_SECTOR * 32 == BLOCK_SIZE == 512
  {
  }

  /** The successor; asking for that of a cluster past the end of the file system aborts. */
  function NextCluster(fs: Fs, c: nat): Outcome<nat> {
    if c < fs.totalSectors then Ok(fs.next(c)) else Abort(ClusterOutOfRange)
  }

  function Entries(fs: Fs, c: nat): (r: seq<DirEntry>)
    ensures |r| == ENTRIES_PER_SECTOR
    ensures forall i :: 0 <= i < ENTRIES_PER_SECTOR ==> r[i] == fs.entry(c, i)
  {
    seq(ENTRIES_PER_SECTOR, i requires 0 <= i => fs.entry(c, i))
  }

  function Block(fs: Fs, c: nat): (r: seq<Byte>)
    ensures |r| == BLOCK_SIZE
    ensures forall i :: 0 <= i < BLOCK_SIZE ==> r[i] == fs.byte(c, i)
  {
    seq<Byte>(BLOCK_SIZE, i requires 0 <= i => fs.byte(c, i))
  }

  /** Something first, and then what an outcome holds. */
  function Prepend<T>(first: seq<T>, rest: Outcome<seq<T>>): Outcome<seq<T>> {
    match rest
    case Ok(more) => Ok(first + more)
    case Abort(why) => Abort(why)
  }

  lemma PrependNothing<T>(rest: Outcome<seq<T>>)
    ensures Prepend([], rest) == rest
  {
    if rest.Ok? {
      assert [] + rest.value == rest.value;
    }
  }

  lemma Traversed(fs: Fs, cs: seq<nat>)
    requires cs != []
    ensures Prepend([0], Scan(fs, cs, 0)).Ok? <==> InRange(fs, cs)
    ensures InRange(fs, cs) ==> Prepend([0], Scan(fs, cs, 0)) == Common.Ok(Visited(fs, cs))
  {
    ScanSpec(fs, cs, 0);
    hide Stuck, InUse, Passed;
  }

  lemma PrependLast<T>(a: seq<T>, rest: Outcome<seq<T>>)
    ensures rest == Common.Ok([]) ==> Prepend(a, rest) == Common.Ok(a)
    ensures rest.Abort? ==> Prepend(a, rest) == rest
  {
    assert a + [] == a;
  }

  lemma PrependTwice<T>(a: seq<T>, b: seq<T>, rest: Outcome<seq<T>>)
    ensures Prepend(a, Prepend(b, rest)) == Prepend(a + b, rest)
  {
    if rest.Ok? {
      assert a + (b + rest.value) == a + b + rest.value;
    }
  }

  // ---------------------------------------------------------------- directories

  /** cs is the chain of a directory: it starts at c, each cluster leads to the next, which is valid,
      and the last one to a cluster that is not. */
  ghost predicate Chain(fs: Fs, c: nat, cs: seq<nat>) {
    && cs != [] && cs[0] == c
    && (forall k :: 0 < k < |cs| ==> cs[k] == fs.next(cs[k - 1]) && IsValid(cs[k]))
    && !IsValid(fs.next(cs[|cs| - 1]))
  }

  function Positions(cs: seq<nat>): nat {
    |cs| * ENTRIES_PER_SECTOR
  }

  lemma PositionIn(cs: seq<nat>, p: nat)
    requires p < Positions(cs)
    ensures p / ENTRIES_PER_SECTOR < |cs|
  {
  }

  /** The entry at a position of the directory, counted through the whole chain. */
  function EntryAt(fs: Fs, cs: seq<nat>, p: nat): DirEntry
    requires p < Positions(cs)
  {
    PositionIn(cs, p);
    fs.entry(cs[p / ENTRIES_PER_SECTOR], p % ENTRIES_PER_SECTOR)
  }

  predicate Ends(fs: Fs, cs: seq<nat>, p: nat)
    requires p < Positions(cs)
  {
    EntryAt(fs, cs, p).first == END_MARKER
  }

  predicate Used(fs: Fs, cs: seq<nat>, p: nat)
    requires p < Positions(cs)
  {
    EntryAt(fs, cs, p).first != END_MARKER && EntryAt(fs, cs, p).first != FREE_MARKER
  }

  /** No entry from position p up to, but not including, q is an end marker. */
  ghost predicate NoEnd(fs: Fs, cs: seq<nat>, p: nat, q: nat) {
    q <= Positions(cs) && forall j :: p <= j < q ==> !Ends(fs, cs, j)
  }

  /** From position p on, the positions of the entries in use, up to the end marker. */
  function InUse(fs: Fs, cs: seq<nat>, p: nat): seq<nat>
    decreases Positions(cs) - p
  {
    if p >= Positions(cs) || Ends(fs, cs, p) then []
    else (if Used(fs, cs, p) then [p] else []) + InUse(fs, cs, p + 1)
  }

  /** The positions a traversal is to visit: the first, whatever it holds, and then every later one
      in use up to the first end marker. */
  function Visited(fs: Fs, cs: seq<nat>): seq<nat> {
    [0] + InUse(fs, cs, 1)
  }

  lemma {:induction false} InUseMembers(fs: Fs, cs: seq<nat>, p: nat)
    ensures forall q :: q in InUse(fs, cs, p) <==> p <= q < Positions(cs) && Used(fs, cs, q) && NoEnd(fs, cs, p, q)
    decreases Positions(cs) - p
  {
    hide EntryAt;
    if p < Positions(cs) && !Ends(fs, cs, p) {
      InUseMembers(fs, cs, p + 1);
      var rest := InUse(fs, cs, p + 1);
      assert forall q :: q in InUse(fs, cs, p) <==> q in rest || (q == p && Used(fs, cs, p));
      assert forall q :: p < q < Positions(cs) ==> (NoEnd(fs, cs, p, q) <==> NoEnd(fs, cs, p + 1, q));
    }
  }

  lemma {:induction false} InUseSpec(fs: Fs, cs: seq<nat>, p: nat)
    ensures forall i, j :: 0 <= i < j < |InUse(fs, cs, p)| ==> InUse(fs, cs, p)[i] < InUse(fs, cs, p)[j]
    ensures forall q :: q in InUse(fs, cs, p) <==> p <= q < Positions(cs) && Used(fs, cs, q) && NoEnd(fs, cs, p, q)
    decreases Positions(cs) - p
  {
    InUseMembers(fs, cs, p);
    hide EntryAt, Ends, Used, NoEnd;
    if p < Positions(cs) && !Ends(fs, cs, p) {
      InUseSpec(fs, cs, p + 1);
      var u, rest := InUse(fs, cs, p), InUse(fs, cs, p + 1);
      forall i, j | 0 <= i < j < |u| ensures u[i] < u[j] {
        var k := if Used(fs, cs, p) then 1 else 0;
        assert u[j] == rest[j - k] && rest[j - k] in rest;
        assert i >= k ==> u[i] == rest[i - k];
      }
    }
  }

  /** In order, once each: the first position, and those later ones that are in use and come before
      any end marker. */
  lemma VisitedSpec(fs: Fs, cs: seq<nat>)
    requires cs != []
    ensures Visited(fs, cs)[0] == 0
    ensures forall i, j :: 0 <= i < j < |Visited(fs, cs)| ==> Visited(fs, cs)[i] < Visited(fs, cs)[j]
    ensures forall q :: q in Visited(fs, cs) <==>
      q == 0 || (0 < q < Positions(cs) && Used(fs, cs, q) && NoEnd(fs, cs, 1, q))
  {
    InUseSpec(fs, cs, 1);
    var rest := InUse(fs, cs, 1);
    var u := Visited(fs, cs);
    assert forall q :: q in rest ==> q > 0;
    forall i, j | 0 <= i < j < |u| ensures u[i] < u[j] {
      assert u[j] == rest[j - 1] && rest[j - 1] in rest;
      assert i > 0 ==> u[i] == rest[i - 1];
    }
    assert forall q :: q in u <==> q == 0 || q in rest;
  }

  /** Going from position p to the next asks for the successor of p's cluster, and that cluster is
      out of range. */
  predicate Stuck(fs: Fs, cs: seq<nat>, p: nat)
    requires p < Positions(cs)
  {
    PositionIn(cs, p);
    p % ENTRIES_PER_SECTOR == ENTRIES_PER_SECTOR - 1 && cs[p / ENTRIES_PER_SECTOR] >= fs.totalSectors
  }

  /** A traversal that is at p gets past position q. */
  ghost predicate Passed(fs: Fs, cs: seq<nat>, p: nat, q: nat) {
    NoEnd(fs, cs, p + 1, q + 1)
  }

  /** The positions a traversal that is at p has still to visit, or the abort it runs into. */
  function Scan(fs: Fs, cs: seq<nat>, p: nat): Outcome<seq<nat>>
    requires p < Positions(cs)
    decreases Positions(cs) - p
  {
    if Stuck(fs, cs, p) then Abort(ClusterOutOfRange)
    else if p + 1 >= Positions(cs) || Ends(fs, cs, p + 1) then Ok([])
    else
      var rest :- Scan(fs, cs, p + 1);
      Ok((if Used(fs, cs, p + 1) then [p + 1] else []) + rest)
  }

  /** The traversal is complete exactly when no cluster it has to leave is out of range. */
  lemma {:induction false} ScanSpec(fs: Fs, cs: seq<nat>, p: nat)
    requires p < Positions(cs)
    ensures Scan(fs, cs, p).Ok? <==> forall q :: p <= q < Positions(cs) && Passed(fs, cs, p, q) ==> !Stuck(fs, cs, q)
    ensures Scan(fs, cs, p).Ok? ==> Scan(fs, cs, p) == Ok(InUse(fs, cs, p + 1))
    ensures Scan(fs, cs, p).Abort? ==> Scan(fs, cs, p) == Abort(ClusterOutOfRange)
    decreases Positions(cs) - p
  {
    hide Stuck, EntryAt;
    if !Stuck(fs, cs, p) && p + 1 < Positions(cs) && !Ends(fs, cs, p + 1) {
      ScanSpec(fs, cs, p + 1);
      assert forall q :: p + 1 <= q < Positions(cs) ==> (Passed(fs, cs, p, q) <==> Passed(fs, cs, p + 1, q));
    } else if p + 1 < Positions(cs) && Ends(fs, cs, p + 1) {
      assert forall q :: p + 1 <= q < Positions(cs) ==> !Passed(fs, cs, p, q);
    }
    assert Passed(fs, cs, p, p);
  }

  lemma {:induction false} ScanSteps(fs: Fs, cs: seq<nat>, p: nat)
    requires p < Positions(cs)
    ensures Stuck(fs, cs, p) ==> Scan(fs, cs, p) == Abort(ClusterOutOfRange)
    ensures !Stuck(fs, cs, p) && (p + 1 == Positions(cs) || Ends(fs, cs, p + 1)) ==> Scan(fs, cs, p) == Ok([])
    ensures !Stuck(fs, cs, p) && p + 1 < Positions(cs) && Used(fs, cs, p + 1) ==>
      Scan(fs, cs, p) == Prepend([p + 1], Scan(fs, cs, p + 1))
    ensures !Stuck(fs, cs, p) && p + 1 < Positions(cs) && !Ends(fs, cs, p + 1) && !Used(fs, cs, p + 1) ==>
      Scan(fs, cs, p) == Scan(fs, cs, p + 1)
  {
    if !Stuck(fs, cs, p) && p + 1 < Positions(cs) && !Ends(fs, cs, p + 1) && Scan(fs, cs, p + 1).Ok? {
      var rest := Scan(fs, cs, p + 1).value;
      assert [] + rest == rest;
    }
  }

  /** Directory::ConstIterator. */
  class ConstIterator {
    const fs: Fs
    /** fs_ is not null. */
    var open: bool
    var dirBlock: Option<seq<DirEntry>>
    var dirCluster: nat
    var dirIndex: nat
    /** The chain, and the iterator's position in it. */
    ghost const cs: seq<nat>
    ghost var pos: nat

    ghost predicate Valid()
      reads this
    {
      && cs != [] && Chain(fs, cs[0], cs)
      && (open ==>
            && pos < Positions(cs) && pos / ENTRIES_PER_SECTOR < |cs|
            && dirCluster == cs[pos / ENTRIES_PER_SECTOR] && dirIndex == pos % ENTRIES_PER_SECTOR
            && (dirBlock.Some? ==> dirBlock.value == Entries(fs, dirCluster)))
    }

    /** Directory::begin(). */
    constructor (f: Fs, start: nat, ghost chain: seq<nat>)
      requires Chain(f, start, chain)
      ensures Valid() && open && pos == 0 && fs == f && cs == chain
    {
      fs, open, dirBlock, dirCluster, dirIndex := f, true, None, start, 0;
      cs, pos := chain, 0;
    }

    lemma InChain()
      requires Valid() && open
      ensures pos < Positions(cs)
    {
    }

    /** operator*. */
    method Deref() returns (e: DirEntry)
      requires Valid() && open
      modifies this`dirBlock
      ensures Valid() && dirBlock.Some? && e == EntryAt(fs, cs, pos)
    {
      if dirBlock.None? {
        dirBlock := Some(Entries(fs, dirCluster));
      }
      e := dirBlock.value[dirIndex];
    }

    /** iterNext: to the next entry, which may be the first of the next cluster. */
    method IterNext() returns (r: Outcome<bool>)
      requires Valid() && open && dirBlock.Some?
      modifies this
      ensures r.Abort? <==> Stuck(fs, cs, old(pos))
      ensures r.Abort? ==> r == Abort(ClusterOutOfRange)
      ensures r.Ok? ==> Valid() && (r.value <==> old(pos) + 1 < Positions(cs)) && open == r.value
      ensures r.Ok? && r.value ==> pos == old(pos) + 1 && dirBlock.Some?
    {
      NextPosition(pos);
      if dirIndex == ENTRIES_PER_SECTOR - 1 { LastInChain(fs, cs, pos); }
      dirIndex := dirIndex + 1;
      if dirIndex == ENTRIES_PER_SECTOR {
        dirIndex := 0;
        var next := NextCluster(fs, dirCluster);
        if next.Abort? {
          return Abort(next.reason);
        }
        dirCluster := next.value;
        if !IsValid(dirCluster) {
          dirCluster := 0;
          open := false;
          return Ok(false);
        }
        dirBlock := Some(Entries(fs, dirCluster));
      }
      pos := pos + 1;
      return Ok(true);
    }

    /** operator++. */
    method Increment() returns (r: Outcome<()>)
      requires Valid() && open && dirBlock.Some?
      modifies this
      ensures r.Ok? ==> Valid()
      ensures r.Ok? && open ==> pos > old(pos) && Scan(fs, cs, old(pos)) == Prepend([pos], Scan(fs, cs, pos))
      ensures r.Ok? && !open ==> Scan(fs, cs, old(pos)) == Ok([])
      ensures r.Abort? ==> Scan(fs, cs, old(pos)) == Abort(r.reason)
    {
      hide Chain, Scan, EntryAt, Stuck;
      ScanSteps(fs, cs, pos);
      var more := IterNext();
      while more.Ok? && more.value
        invariant more.Ok? ==> Valid() && open == more.value
        invariant more.Ok? && more.value ==> old(pos) < pos && dirBlock.Some?
        invariant more.Ok? && more.value ==> pos - 1 < Positions(cs) && Scan(fs, cs, old(pos)) == Scan(fs, cs, pos - 1)
        invariant more.Ok? && more.value ==> !Stuck(fs, cs, pos - 1)
        invariant more.Ok? && !more.value ==> Scan(fs, cs, old(pos)) == Ok([])
        invariant more.Abort? ==> Scan(fs, cs, old(pos)) == Abort(more.reason)
        decreases if more.Ok? && more.value then Positions(cs) + 1 - pos else 0
      {
        var entry := dirBlock.value[dirIndex];
        EntryIs(fs, cs, pos);
        ScanSteps(fs, cs, pos - 1);
        if entry.first == END_MARKER {
          break;
        }
        if entry.first != FREE_MARKER {
          return Ok(());
        }
        ScanSteps(fs, cs, pos);
        more := IterNext();
      }
      if more.Abort? {
        return Abort(more.reason);
      }
      dirBlock, open, dirIndex := None, false, 0;
      return Ok(());
    }
  }

  lemma EntryIs(fs: Fs, cs: seq<nat>, p: nat)
    requires p < Positions(cs)
    ensures p / ENTRIES_PER_SECTOR < |cs|
    ensures EntryAt(fs, cs, p) == Entries(fs, cs[p / ENTRIES_PER_SECTOR])[p % ENTRIES_PER_SECTOR]
  {
  }

  /** After the last entry of a cluster comes the first of the next one, if its successor is valid. */
  lemma LastInChain(fs: Fs, cs: seq<nat>, p: nat)
    requires cs != [] && Chain(fs, cs[0], cs) && p < Positions(cs) && p % ENTRIES_PER_SECTOR == ENTRIES_PER_SECTOR - 1
    ensures p / ENTRIES_PER_SECTOR < |cs|
    ensures IsValid(fs.next(cs[p / ENTRIES_PER_SECTOR])) <==> p + 1 < Positions(cs)
    ensures p + 1 < Positions(cs) ==> cs[p / ENTRIES_PER_SECTOR + 1] == fs.next(cs[p / ENTRIES_PER_SECTOR])
  {
    var k := p / ENTRIES_PER_SECTOR;
    assert p + 1 == (k + 1) * ENTRIES_PER_SECTOR;
    if k + 1 < |cs| {
      assert cs[k + 1] == fs.next(cs[k]) && IsValid(cs[k + 1]);
    }
  }

  lemma NextPosition(p: nat)
    ensures (p + 1) / ENTRIES_PER_SECTOR == p / ENTRIES_PER_SECTOR + if p % ENTRIES_PER_SECTOR == ENTRIES_PER_SECTOR - 1 then 1 else 0
    ensures (p + 1) % ENTRIES_PER_SECTOR == if p % ENTRIES_PER_SECTOR == ENTRIES_PER_SECTOR - 1 then 0 else p % ENTRIES_PER_SECTOR + 1
  {
  }

  /** The traversal never has to leave a cluster that is out of range. */
  ghost predicate InRange(fs: Fs, cs: seq<nat>) {
    forall q :: 0 <= q < Positions(cs) && Passed(fs, cs, 0, q) ==> !Stuck(fs, cs, q)
  }

  /** A range-for over the directory, with the positions it visits. For every directory with a finite
      chain it ends, having visited exactly the entries at Visited, in order -- unless it has to
      leave a cluster that is out of range, and exactly then the machine stops. */
  method RangeFor(fs: Fs, start: nat, ghost cs: seq<nat>) returns (r: Outcome<seq<DirEntry>>)
    requires Chain(fs, start, cs)
    ensures r.Ok? <==> InRange(fs, cs)
    ensures r.Ok? ==> |r.value| == |Visited(fs, cs)|
    ensures r.Ok? ==> forall i :: 0 <= i < |r.value| ==>
      Visited(fs, cs)[i] < Positions(cs) && r.value[i] == EntryAt(fs, cs, Visited(fs, cs)[i])
  {
    ghost var at;
    r, at := Walk(fs, start, cs);
    Traversed(fs, cs);
    hide Scan, InRange;
  }

  /** The loop: at lists the positions visited. */
  method Walk(fs: Fs, start: nat, ghost cs: seq<nat>) returns (r: Outcome<seq<DirEntry>>, ghost at: seq<nat>)
    requires Chain(fs, start, cs)
    ensures r.Ok? ==> Prepend([0], Scan(fs, cs, 0)) == Common.Ok(at) && Seen(fs, cs, at, r.value)
    ensures r.Abort? ==> Prepend([0], Scan(fs, cs, 0)) == Abort(r.reason)
  {
    var it := new ConstIterator(fs, start, cs);
    var seen: seq<DirEntry> := [];
    at := [];
    assert Seen(fs, cs, at, seen);
    ghost var all := Prepend([0], Scan(fs, cs, 0));
    PrependNothing(all);
    it.InChain();
    hide Chain, Scan, EntryAt, Prepend, Seen, ConstIterator.Valid;
    while it.open
      invariant it.Valid() && fresh(it) && it.fs == fs && it.cs == cs
      invariant it.open ==> it.pos < Positions(cs)
      invariant it.open ==> all == Prepend(at, Prepend([it.pos], Scan(fs, cs, it.pos)))
      invariant !it.open ==> all == Common.Ok(at)
      invariant Seen(fs, cs, at, seen)
      decreases it.open, if it.open then Positions(cs) - it.pos else 0
    {
      ghost var here := it.pos;
      var e := it.Deref();
      SeenMore(fs, cs, at, seen, here, e);
      seen := seen + [e];
      PrependTwice(at, [here], Scan(fs, cs, here));
      PrependLast(at + [here], Scan(fs, cs, here));
      var moved := it.Increment();
      if moved.Abort? {
        return Abort(moved.reason), at;
      }
      if it.open { it.InChain(); }
      at := at + [here];
    }
    return Common.Ok(seen), at;
  }

  ghost predicate Seen(fs: Fs, cs: seq<nat>, at: seq<nat>, seen: seq<DirEntry>) {
    && |at| == |seen|
    && forall i :: 0 <= i < |at| ==> at[i] < Positions(cs) && seen[i] == EntryAt(fs, cs, at[i])
  }

  lemma SeenMore(fs: Fs, cs: seq<nat>, at: seq<nat>, seen: seq<DirEntry>, p: nat, e: DirEntry)
    requires Seen(fs, cs, at, seen) && p < Positions(cs) && e == EntryAt(fs, cs, p)
    ensures Seen(fs, cs, at + [p], seen + [e])
  {
  }

  // ---------------------------------------------------------------- files

  /** The cluster k steps after c. */
  function Nth(fs: Fs, c: nat, k: nat): nat
    decreases k
  {
    if k == 0 then c else Nth(fs, fs.next(c), k - 1)
  }

  /** The contents of the first k clusters from c. */
  function Concat(fs: Fs, c: nat, k: nat): (r: seq<Byte>)
    ensures |r| == k * BLOCK_SIZE
    decreases k
  {
    if k == 0 then [] else Block(fs, c) + Concat(fs, fs.next(c), k - 1)
  }

  /** What is still to be delivered of a file of the given size that has come to cluster c, or the
      abort on the way. */
  function Contents(fs: Fs, c: nat, size: nat): Outcome<seq<Byte>>
    decreases size
  {
    if !IsValid(c) || size == 0 then Ok([])
    else if size <= BLOCK_SIZE then Ok(Block(fs, c)[..size])
    else
      var next :- NextCluster(fs, c);
      var rest :- Contents(fs, next, size - BLOCK_SIZE);
      Ok(Block(fs, c) + rest)
  }

  /** The first k clusters of the file are valid, and either the next one is not or they are enough
      for the whole of it. */
  ghost predicate Extent(fs: Fs, c: nat, size: nat, k: nat) {
    && (forall j :: 0 <= j < k ==> IsValid(Nth(fs, c, j)))
    && (!IsValid(Nth(fs, c, k)) || size <= k * BLOCK_SIZE)
  }

  /** Whatever the successor function, even a cyclic one, what is delivered is the first
      min(size, 512 * k) bytes of the clusters, k being the number of valid clusters the file has. */
  lemma {:induction false} ContentsSpec(fs: Fs, c: nat, size: nat, k: nat)
    requires Extent(fs, c, size, k) && Contents(fs, c, size).Ok?
    ensures Contents(fs, c, size).value == Concat(fs, c, k)[..Min(size, k * BLOCK_SIZE)]
    decreases k
  {
    if k > 0 {
      assert IsValid(Nth(fs, c, 0));
      var n := fs.next(c);
      forall j | 0 <= j < k - 1 ensures IsValid(Nth(fs, n, j)) {
        assert Nth(fs, c, j + 1) == Nth(fs, n, j);
      }
      if size > BLOCK_SIZE {
        assert Nth(fs, c, k) == Nth(fs, n, k - 1);
        ContentsSpec(fs, n, size - BLOCK_SIZE, k - 1);
      }
    } else {
      assert Nth(fs, c, 0) == c;
    }
  }

  /** Every file has such a k. */
  lemma ExtentExists(fs: Fs, c: nat, size: nat) returns (k: nat)
    ensures Extent(fs, c, size, k) && (k == 0 || (k - 1) * BLOCK_SIZE < size)
    decreases size
  {
    k := 0;
    if IsValid(c) && size > 0 {
      var n := fs.next(c);
      var rest := if size > BLOCK_SIZE then size - BLOCK_SIZE else 0;
      var m := ExtentExists(fs, n, rest);
      k := m + 1;
      forall j | 0 <= j < k ensures IsValid(Nth(fs, c, j)) {
        assert j > 0 ==> Nth(fs, c, j) == Nth(fs, n, j - 1);
      }
      assert Nth(fs, c, k) == Nth(fs, n, m);
    }
  }

  /** After k full blocks the file is at a valid cluster that does not finish it and is out of
      range, none before it having been. */
  ghost predicate LeavesRange(fs: Fs, c: nat, size: nat, k: nat) {
    && (forall j :: 0 <= j <= k ==> IsValid(Nth(fs, c, j)))
    && (forall j :: 0 <= j < k ==> Nth(fs, c, j) < fs.totalSectors)
    && Nth(fs, c, k) >= fs.totalSectors && (k + 1) * BLOCK_SIZE < size
  }

  /** Reading aborts exactly when it has to go on from a cluster that is out of range. */
  lemma ContentsAborts(fs: Fs, c: nat, size: nat)
    ensures Contents(fs, c, size).Abort? <==> exists k: nat :: LeavesRange(fs, c, size, k)
  {
    if Contents(fs, c, size).Abort? {
      var k := AbortLeaves(fs, c, size);
    }
    if k: nat :| LeavesRange(fs, c, size, k) {
      LeavesAborts(fs, c, size, k);
    }
  }

  lemma AbortLeaves(fs: Fs, c: nat, size: nat) returns (k: nat)
    requires Contents(fs, c, size).Abort?
    ensures LeavesRange(fs, c, size, k)
    decreases size
  {
    k := 0;
    if c < fs.totalSectors {
      var n := AbortLeaves(fs, fs.next(c), size - BLOCK_SIZE);
      k := n + 1;
      LeavesLater(fs, c, size, n);
    }
  }

  lemma {:induction false} LeavesAborts(fs: Fs, c: nat, size: nat, k: nat)
    requires LeavesRange(fs, c, size, k)
    ensures Contents(fs, c, size).Abort?
    decreases k
  {
    assert IsValid(Nth(fs, c, 0));
    if k > 0 {
      assert Nth(fs, c, 0) < fs.totalSectors;
      LeavesLater(fs, c, size, k - 1);
      LeavesAborts(fs, fs.next(c), size - BLOCK_SIZE, k - 1);
    }
  }

  lemma LeavesLater(fs: Fs, c: nat, size: nat, k: nat)
    requires IsValid(c) && size > BLOCK_SIZE && c < fs.totalSectors
    ensures LeavesRange(fs, c, size, k + 1) <==> LeavesRange(fs, fs.next(c), size - BLOCK_SIZE, k)
  {
    var n := fs.next(c);
    assert Nth(fs, c, 0) == c && Nth(fs, c, k + 1) == Nth(fs, n, k);
    if LeavesRange(fs, c, size, k + 1) {
      forall j | 0 <= j <= k ensures IsValid(Nth(fs, n, j)) && (j < k ==> Nth(fs, n, j) < fs.totalSectors) {
        assert Nth(fs, c, j + 1) == Nth(fs, n, j);
      }
    }
    if LeavesRange(fs, n, size - BLOCK_SIZE, k) {
      forall j | 0 <= j <= k + 1 ensures IsValid(Nth(fs, c, j)) && (j < k + 1 ==> Nth(fs, c, j) < fs.totalSectors) {
        assert j > 0 ==> Nth(fs, c, j) == Nth(fs, n, j - 1);
      }
    }
  }

  /** FAT::File. */
  class File {
    const fs: Fs
    var size: nat
    var currentCluster: nat

    constructor (f: Fs, fileSize: nat, first: nat)
      ensures fs == f && size == fileSize && currentCluster == first
    {
      fs, size, currentCluster := f, fileSize, first;
    }

    ghost function Remaining(): Outcome<seq<Byte>>
      reads this
    {
      Contents(fs, currentCluster, size)
    }

    /** fill bytes of data are the file's; 0 says that there are no more. */
    method ReadBlock() returns (r: Outcome<(nat, seq<Byte>)>)
      modifies this`size, this`currentCluster
      ensures r.Abort? ==> old(Remaining()) == Abort(r.reason)
      ensures r.Ok? ==> r.value.0 <= |r.value.1| && (r.value.0 == 0 ==> old(Remaining()) == Ok([]))
      ensures r.Ok? && r.value.0 > 0 ==> size < old(size)
      ensures r.Ok? && r.value.0 > 0 ==> old(Remaining()) == Prepend(r.value.1[..r.value.0], Remaining())
    {
      if !IsValid(currentCluster) || size == 0 {
        return Common.Ok((0, []));
      }
      var data := Block(fs, currentCluster);
      if size <= BLOCK_SIZE {
        var ret := size;
        size := 0;
        assert data[..ret] + [] == data[..ret];
        return Common.Ok((ret, data));
      }
      var next := NextCluster(fs, currentCluster);
      if next.Abort? {
        return Abort(next.reason);
      }
      currentCluster := next.value;
      size := size - BLOCK_SIZE;
      assert data[..BLOCK_SIZE] == data;
      return Common.Ok((BLOCK_SIZE, data));
    }
  }

  /** The loop that dumps a file: it ends for every successor function. */
  method ReadAll(fs: Fs, size: nat, first: nat) returns (r: Outcome<seq<Byte>>)
    ensures r == Contents(fs, first, size)
  {
    var file := new File(fs, size, first);
    var sent: seq<Byte> := [];
    PrependNothing(file.Remaining());
    var block := file.ReadBlock();
    if block.Abort? {
      return Abort(block.reason);
    }
    while block.value.0 != 0
      invariant fresh(file) && file.fs == fs
      invariant block.Ok? && 0 <= block.value.0 <= |block.value.1|
      invariant block.value.0 > 0 ==>
        (Contents(fs, first, size) == Prepend(sent, Prepend(block.value.1[..block.value.0], file.Remaining())))
      invariant block.value.0 == 0 ==> Contents(fs, first, size) == Prepend(sent, Common.Ok([]))
      decreases block.value.0 != 0, file.size
    {
      var data := block.value.1[..block.value.0];
      PrependTwice(sent, data, file.Remaining());
      sent := sent + data;
      block := file.ReadBlock();
      if block.Abort? {
        return Abort(block.reason);
      }
    }
    assert sent + [] == sent;
    return Common.Ok(sent);
  }
}
