/** Outcomes and list facts shared by every component of the model. */
module Common {

  datatype Option<+T> = None | Some(value: T)

  /** Every way the kernel's own checks, or its linked lists, can stop the machine. */
  datatype AbortReason =
    | EmptyPool          // alloc found no free slot
    | NotInPool          // free was given an address outside the pool
    | HookLinked         // a thread was pushed on a list while still on one
    | NotReady           // the running thread was not Ready when it went to sleep
    | AlreadyReady       // schedule was given a thread that is already Ready
    | NoReadyThread      // every ready list was empty
    | PopFromEmpty       // pop_front on an empty list
    | Dangling           // a list or the thread pointer named no live thread
    | ClusterOutOfRange  // the successor of a cluster past the end of the file system was asked for

  datatype Outcome<+T> = Ok(value: T) | Abort(reason: AbortReason) {
    predicate IsFailure() {
      Abort?
    }

    function PropagateFailure<U>(): Outcome<U>
      requires Abort?
    {
      Abort(reason)
    }

    function Extract(): T
      requires Ok?
    {
      value
    }

    function GetOr(default: T): T {
      if Ok? then value else default
    }
  }

  const TWO64: nat := 0x1_0000_0000_0000_0000

  /** An unsigned 64-bit number. */
  type Word = n: nat | n < TWO64

  function Min(a: nat, b: nat): nat {
    if a < b then a else b
  }

  lemma MulAtMost(d: nat, a: int, b: int)
    requires a <= b
    ensures d * a <= d * b
  {
  }

  /** Quotient and remainder are unique. */
  lemma Divided(x: int, d: nat, q: int, r: nat)
    requires r < d && x == d * q + r
    ensures x / d == q && x % d == r
  {
    var q' := x / d;
    assert x == d * q' + x % d;
    if q' < q { MulAtMost(d, q' + 1, q); }
    if q < q' { MulAtMost(d, q + 1, q'); }
  }

  ghost predicate NoDup<T>(s: seq<T>) {
    forall i, j :: 0 <= i < j < |s| ==> s[i] != s[j]
  }

  /** What is left of a list after the node x has been unlinked from it. */
  function Without<T(==, !new)>(s: seq<T>, x: T): (r: seq<T>)
    ensures forall y :: y in r <==> y in s && y != x
    ensures x !in s ==> r == s
  {
    if s == [] then []
    else
      assert forall y :: y in s <==> y == s[0] || y in s[1..];
      if s[0] == x then Without(s[1..], x)
      else [s[0]] + Without(s[1..], x)
  }

  lemma {:induction false} WithoutNoDup<T(!new)>(s: seq<T>, x: T)
    requires NoDup(s)
    ensures NoDup(Without(s, x))
  {
    if s != [] {
      WithoutNoDup(s[1..], x);
      assert s[0] !in s[1..];
    }
  }

  lemma WithoutHead<T(!new)>(s: seq<T>)
    requires s != [] && NoDup(s)
    ensures Without(s, s[0]) == s[1..]
  {
    assert s[0] !in s[1..];
  }

  lemma NoDupPush<T>(s: seq<T>, x: T)
    requires NoDup(s) && x !in s
    ensures NoDup(s + [x])
  {
  }
}
