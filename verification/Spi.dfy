/** Moving the last, partial cache line of what the SPI flash sent to the start of that line, in place. */
module Spi {
  import opened Common

  /** Where the byte at offset i of a partial line of rem bytes comes from, delta being what the line
      lacks: offset i + delta, once that offset has been overwritten itself if it is below rem. */
  function Source(i: nat, rem: nat, delta: nat): nat
    requires delta > 0
    decreases rem - i
  {
    if i >= rem then i else Source(i + delta, rem, delta)
  }

  predicate Congruent(i: nat, j: nat, delta: nat)
    requires delta > 0
  {
    i % delta == j % delta
  }

  /** That is the least offset at or above rem that is congruent to i modulo delta. */
  lemma {:induction false} SourceIsLeast(i: nat, rem: nat, delta: nat)
    requires delta > 0
    ensures Source(i, rem, delta) >= rem && Congruent(i, Source(i, rem, delta), delta)
    ensures forall j :: i <= j && rem <= j && Congruent(i, j, delta) ==> Source(i, rem, delta) <= j
    ensures i < rem ==> i + delta <= Source(i, rem, delta) < rem + delta
    decreases rem - i
  {
    if i < rem {
      SourceIsLeast(i + delta, rem, delta);
      OnePeriod(i, delta);
      forall j | i <= j && rem <= j && Congruent(i, j, delta) ensures i + delta <= j && Congruent(i + delta, j, delta) {
        NextCongruent(i, j, delta);
        hide Congruent;
      }
      hide Congruent;
    }
  }

  lemma OnePeriod(i: nat, delta: nat)
    requires delta > 0
    ensures Congruent(i, i + delta, delta)
    ensures forall j: nat :: Congruent(i, j, delta) <==> Congruent(i + delta, j, delta)
  {
    var q := i / delta;
    assert delta * (q + 1) == delta * q + delta;
    Divided(i + delta, delta, q + 1, i % delta);
  }

  lemma NextCongruent(i: nat, j: nat, delta: nat)
    requires delta > 0 && i < j && Congruent(i, j, delta)
    ensures i + delta <= j
  {
    var a, b := i / delta, j / delta;
    if b <= a { MulAtMost(delta, b, a); } else { MulAtMost(delta, a + 1, b); }
    assert i == delta * a + i % delta && j == delta * b + j % delta;
  }

  /** Where the last, partial line starts, and how much of it is used. */
  function Base(recvSize: nat, line: nat): nat
    requires line > 0
  {
    recvSize / line * line
  }

  function Rem(recvSize: nat, line: nat): (r: nat)
    requires line > 0
    ensures r < line
  {
    recvSize % line
  }

  lemma BaseAndRem(recvSize: nat, line: nat)
    requires line > 0
    ensures recvSize == Base(recvSize, line) + Rem(recvSize, line)
  {
  }

  /** A buffer of the given size holds the whole of the last line, if that is partial. */
  predicate Fits(size: nat, base: nat, rem: nat, line: nat) {
    rem < line && (rem == 0 || base + line <= size)
  }

  /** What becomes of a buffer: of the line at base, the first rem bytes. */
  function Realigned<T>(s: seq<T>, base: nat, rem: nat, line: nat): (r: seq<T>)
    requires Fits(|s|, base, rem, line)
    ensures |r| == |s|
  {
    seq(|s|, p requires 0 <= p < |s| => Moved(s, p, base, rem, line))
  }

  function Moved<T>(s: seq<T>, p: nat, base: nat, rem: nat, line: nat): T
    requires p < |s| && Fits(|s|, base, rem, line)
  {
    if base <= p < base + rem then
      SourceIsLeast(p - base, rem, line - rem);
      s[base + Source(p - base, rem, line - rem)]
    else s[p]
  }

  /** The byte at offset i of the line is the one delta further on, as it is by then. */
  lemma MovedFrom<T>(s: seq<T>, i: nat, base: nat, rem: nat, line: nat)
    requires Fits(|s|, base, rem, line) && i < rem
    ensures var from := base + i + (line - rem);
      from < |s| && Moved(s, base + i, base, rem, line) == if from < base + rem then Moved(s, from, base, rem, line) else s[from]
  {
    SourceIsLeast(i, rem, line - rem);
  }

  /** postprocess_buffer. */
  method PostprocessBuffer<T>(buffer: array<T>, recvSize: nat, line: nat)
    requires line > 0 && Fits(buffer.Length, Base(recvSize, line), Rem(recvSize, line), line)
    modifies buffer
    ensures buffer[..] == Realigned(old(buffer[..]), Base(recvSize, line), Rem(recvSize, line), line)
  {
    hide Base, Rem, Moved;
    var base, rem := Base(recvSize, line), Rem(recvSize, line);
    ghost var was := buffer[..];
    if rem != 0 {
      var delta := line - rem;
      var i := rem - 1;
      while i >= 0
        invariant -1 <= i < rem
        invariant forall p :: 0 <= p < buffer.Length && !(base + i < p < base + rem) ==> buffer[p] == was[p]
        invariant forall p :: base + i < p < base + rem ==> buffer[p] == Moved(was, p, base, rem, line)
      {
        MovedFrom(was, i, base, rem, line);
        buffer[base + i] := buffer[base + i + delta];
        i := i - 1;
      }
    }
    AllMoved(was, buffer[..], base, rem, line);
  }

  lemma AllMoved<T>(s: seq<T>, r: seq<T>, base: nat, rem: nat, line: nat)
    requires Fits(|s|, base, rem, line) && |r| == |s|
    requires forall p :: 0 <= p < |s| && !(base <= p < base + rem) ==> r[p] == s[p]
    requires forall p :: base <= p < base + rem ==> r[p] == Moved(s, p, base, rem, line)
    ensures r == Realigned(s, base, rem, line)
  {
    hide Source;
  }

  /** What the device sent: it fills whole lines in order, and the partial one at its end. */
  function Payload<T>(s: seq<T>, base: nat, rem: nat, line: nat): (r: seq<T>)
    requires Fits(|s|, base, rem, line) && base + rem <= |s|
    ensures |r| == base + rem
  {
    if rem == 0 then s[..base] else s[..base] + s[base + line - rem..base + line]
  }

  /** The payload ends up in order from offset 0, whatever it is, exactly when the partial line is at
      most half full. */
  lemma InOrderIff(size: nat, recvSize: nat, line: nat)
    requires line > 0 && recvSize <= size && Fits(size, Base(recvSize, line), Rem(recvSize, line), line)
    ensures var base, rem := Base(recvSize, line), Rem(recvSize, line);
      base + rem == recvSize
      && ((forall s: seq<int> | |s| == size :: Realigned(s, base, rem, line)[..recvSize] == Payload(s, base, rem, line))
          <==> 2 * rem <= line)
  {
    BaseAndRem(recvSize, line);
    var base, rem := Base(recvSize, line), Rem(recvSize, line);
    hide Base, Rem, Realigned, Payload;
    if 2 * rem <= line {
      forall s: seq<int> | |s| == size ensures Realigned(s, base, rem, line)[..recvSize] == Payload(s, base, rem, line) {
        HalfFullInOrder(s, base, rem, line);
      }
    } else {
      var s := FullerOutOfOrder(size, base, rem, line);
    }
  }

  lemma HalfFullInOrder<T>(s: seq<T>, base: nat, rem: nat, line: nat)
    requires Fits(|s|, base, rem, line) && base + rem <= |s| && 2 * rem <= line
    ensures Realigned(s, base, rem, line)[..base + rem] == Payload(s, base, rem, line)
  {
    var r := Realigned(s, base, rem, line);
    forall p | 0 <= p < base + rem ensures r[p] == Payload(s, base, rem, line)[p] {
      assert r[p] == Moved(s, p, base, rem, line);
      hide Realigned;
      if p < base {
        hide Source;
      } else {
        NearSource(p - base, rem, line - rem);
      }
    }
  }

  lemma NearSource(i: nat, rem: nat, delta: nat)
    requires i < rem <= delta
    ensures Source(i, rem, delta) == i + delta
  {
  }

  lemma FullerOutOfOrder(size: nat, base: nat, rem: nat, line: nat) returns (s: seq<int>)
    requires Fits(size, base, rem, line) && base + rem <= size && 2 * rem > line
    ensures |s| == size && Realigned(s, base, rem, line)[..base + rem] != Payload(s, base, rem, line)
  {
    s := seq(size, p => p);
    var delta := line - rem;
    SourceIsLeast(0, rem, delta);
    hide Source;
    assert Realigned(s, base, rem, line)[base] == Moved(s, base, base, rem, line) == base + Source(0, rem, delta);
    assert Payload(s, base, rem, line)[base] == base + delta;
    assert Source(0, rem, delta) >= rem > delta;
  }
}
