/** A 64-bit time that is advanced again and again by the same amount: the times it takes, and the
    latest of them. */
module Orbits {
  import opened Common

  // ---------------------------------------------------------------- powers of two

  function Pow2(n: nat): (p: nat)
    ensures p > 0
  {
    if n == 0 then 1 else 2 * Pow2(n - 1)
  }

  lemma {:induction false} Pow2Add(a: nat, b: nat)
    ensures Pow2(a + b) == Pow2(a) * Pow2(b)
  {
    if a > 0 {
      Pow2Add(a - 1, b);
    }
  }

  lemma Pow2Of64()
    ensures Pow2(64) == TWO64 && Pow2(63) == TWO64 / 2
  {
    assert Pow2(4) == 16;
    assert Pow2(64) == 2 * Pow2(63);
    hide Pow2;
    Pow2Add(4, 4);
    Pow2Add(8, 8);
    Pow2Add(16, 16);
    Pow2Add(32, 32);
  }

  lemma Halve(x: nat, m: nat)
    requires m > 0
    ensures x % (2 * m) == 2 * (x / 2 % m) + x % 2
  {
    var q := x / 2 / m;
    assert x / 2 == m * q + x / 2 % m;
    assert x == 2 * (x / 2) + x % 2;
    assert 2 * (m * q) == (2 * m) * q;
    Divided(x, 2 * m, q, 2 * (x / 2 % m) + x % 2);
  }

  // ---------------------------------------------------------------- the times of a walk

  /** The time after k advances by r. */
  function Later(w: Word, r: nat, k: nat): Word
    decreases k
  {
    if k == 0 then w else Later((w + r) % TWO64, r, k - 1)
  }

  /** The largest power of two, up to 2^n, that divides r. */
  function LowBit(r: nat, n: nat): (g: nat)
    ensures 0 < g <= Pow2(n)
  {
    if n == 0 || r % 2 == 1 then 1 else 2 * LowBit(r / 2, n - 1)
  }

  lemma {:induction false} LowBitSpec(r: nat, n: nat)
    ensures r % LowBit(r, n) == 0
    ensures LowBit(r, n) == Pow2(n) || r / LowBit(r, n) % 2 == 1
    decreases n
  {
    if n > 0 && r % 2 == 0 {
      LowBitSpec(r / 2, n - 1);
      DoubleDivides(r, LowBit(r / 2, n - 1));
    } else {
      assert r / 1 == r;
    }
  }

  lemma DoubleDivides(r: nat, g: nat)
    requires g > 0 && r % 2 == 0 && r / 2 % g == 0
    ensures r % (2 * g) == 0 && r / (2 * g) == r / 2 / g
  {
    var q := r / 2 / g;
    assert r / 2 == g * q;
    assert 2 * (g * q) == (2 * g) * q;
    Divided(r, 2 * g, q, 0);
  }

  /** The largest number below 2^n that is congruent to w modulo that power. */
  function Top(w: nat, r: nat, n: nat): nat {
    Pow2(n) - LowBit(r, n) + w % LowBit(r, n)
  }

  /** One step of the walk, with its lowest bit taken off. */
  lemma HalfWay(w: nat, r: nat, k: nat, n: nat)
    requires n > 0 && r % 2 == 0
    ensures (w + k * r) % Pow2(n) == 2 * ((w / 2 + k * (r / 2)) % Pow2(n - 1)) + w % 2
    ensures Top(w, r, n) == 2 * Top(w / 2, r / 2, n - 1) + w % 2
  {
    var x := w + k * r;
    assert k * r == 2 * (k * (r / 2));
    assert x / 2 == w / 2 + k * (r / 2) && x % 2 == w % 2;
    Halve(x, Pow2(n - 1));
    Halve(w, LowBit(r / 2, n - 1));
  }

  /** No time of the walk is beyond Top. */
  lemma {:induction false} AtMostTop(w: nat, r: nat, k: nat, n: nat)
    ensures (w + k * r) % Pow2(n) <= Top(w, r, n)
    decreases n
  {
    if n > 0 && r % 2 == 0 {
      HalfWay(w, r, k, n);
      AtMostTop(w / 2, r / 2, k, n - 1);
    } else {
      assert Top(w, r, n) == Pow2(n) - 1;
      hide Pow2, Top;
    }
  }

  /** With an odd step every number is reached. */
  lemma {:induction false} ReachOdd(w: nat, r: nat, t: nat, n: nat) returns (k: nat)
    requires r % 2 == 1 && t < Pow2(n)
    ensures (w + k * r) % Pow2(n) == t
    decreases n, w % 2 != t % 2
  {
    if n == 0 {
      k := 0;
    } else if w % 2 == t % 2 {
      assert t / 2 < Pow2(n - 1);
      hide Pow2;
      var j := ReachOdd(w / 2, r, t / 2, n - 1);
      k := 2 * j;
      TwoAtATime(w, r, j, n);
    } else {
      hide Pow2;
      var j := ReachOdd(w + r, r, t, n);
      k := 1 + j;
      OneMoreStep(j, r);
    }
  }

  lemma OneMoreStep(k: nat, r: nat)
    ensures (1 + k) * r == r + k * r
  {
  }

  lemma TwoAtATime(w: nat, r: nat, j: nat, n: nat)
    requires n > 0
    ensures (w + (2 * j) * r) % Pow2(n) == 2 * ((w / 2 + j * r) % Pow2(n - 1)) + w % 2
  {
    var x := w + (2 * j) * r;
    assert (2 * j) * r == 2 * (j * r);
    Halve(x, Pow2(n - 1));
  }

  /** Top itself is a time of the walk. */
  lemma {:induction false} ReachTop(w: nat, r: nat, n: nat) returns (k: nat)
    ensures (w + k * r) % Pow2(n) == Top(w, r, n)
    decreases n
  {
    if n == 0 {
      k := 0;
    } else if r % 2 == 1 {
      k := ReachOdd(w, r, Pow2(n) - 1, n);
    } else {
      k := ReachTop(w / 2, r / 2, n - 1);
      HalfWay(w, r, k, n);
    }
  }

  lemma ModStep(a: nat, b: nat)
    ensures (a % TWO64 + b) % TWO64 == (a + b) % TWO64
  {
  }

  lemma {:induction false} LaterIs(w: Word, r: nat, k: nat)
    ensures Later(w, r, k) == (w + k * r) % TWO64
    decreases k
  {
    if k > 0 {
      LaterIs((w + r) % TWO64, r, k - 1);
      ModStep(w + r, (k - 1) * r);
      OneMoreStep(k - 1, r);
    }
  }

  // ---------------------------------------------------------------- getting past now

  /** The walk from w in steps of r gets past now. */
  predicate Escapes(w: Word, r: nat, now: nat) {
    now < Top(w, r, 64)
  }

  /** ... which is what the condition says. */
  lemma EscapesIff(w: Word, r: nat, now: nat)
    ensures Escapes(w, r, now) <==> exists k: nat :: Later(w, r, k) > now
  {
    Pow2Of64();
    var k := ReachTop(w, r, 64);
    LaterIs(w, r, k);
    forall j: nat ensures Later(w, r, j) <= Top(w, r, 64) {
      LaterIs(w, r, j);
      AtMostTop(w, r, j, 64);
    }
    hide Pow2, LowBit, Top, Later;
  }

  lemma {:induction false} LowBitBelow(r: nat, n: nat)
    requires 0 < r < Pow2(n)
    ensures 2 * LowBit(r, n) <= Pow2(n)
    decreases n
  {
    if r % 2 == 0 {
      LowBitBelow(r / 2, n - 1);
    }
  }

  /** For the first half of the counter's range every step gets past now. */
  lemma FirstHalfEscapes(w: Word, r: Word, now: nat)
    requires r != 0 && now < TWO64 / 2
    ensures Escapes(w, r, now)
  {
    Pow2Of64();
    LowBitBelow(r, 64);
    hide Pow2, LowBit;
  }

  lemma {:induction false} LowBitOfPow2(j: nat, n: nat)
    requires j <= n
    ensures LowBit(Pow2(j), n) == Pow2(j)
    decreases n
  {
    if j > 0 {
      LowBitOfPow2(j - 1, n - 1);
    }
  }

  /** A step of 2^63 has two times, and gets past now exactly if the later one is past it. */
  lemma HalfRangeStep(w: Word, now: nat)
    ensures Escapes(w, TWO64 / 2, now) <==> now < TWO64 / 2 + w % (TWO64 / 2)
  {
    Pow2Of64();
    LowBitOfPow2(63, 64);
    hide Pow2, LowBit;
  }

  function First(w: Word, r: nat, now: nat, i: nat, k: nat): (f: nat)
    requires i <= k && Later(w, r, k) > now && forall j :: 0 <= j < i ==> Later(w, r, j) <= now
    ensures Later(w, r, f) > now && forall j :: 0 <= j < f ==> Later(w, r, j) <= now
    decreases k - i
  {
    if Later(w, r, i) > now then i else First(w, r, now, i + 1, k)
  }

  /** The number of advances it takes to get past now. */
  ghost function TurnsLeft(w: Word, r: nat, now: nat): (k: nat)
    requires Escapes(w, r, now)
    ensures Later(w, r, k) > now && forall j :: 0 <= j < k ==> Later(w, r, j) <= now
  {
    EscapesIff(w, r, now);
    var k: nat :| Later(w, r, k) > now;
    First(w, r, now, 0, k)
  }

  lemma AlreadyPast(w: Word, r: nat, now: nat)
    requires w > now
    ensures Escapes(w, r, now) && TurnsLeft(w, r, now) == 0
  {
    EscapesIff(w, r, now);
    hide Escapes;
    assert Later(w, r, 0) > now;
  }

  /** After one advance, one fewer are left, and being able to get past now is the same. */
  lemma TurnsStep(w: Word, r: nat, now: nat)
    requires w <= now
    ensures Escapes((w + r) % TWO64, r, now) <==> Escapes(w, r, now)
    ensures Escapes(w, r, now) ==> TurnsLeft(w, r, now) == 1 + TurnsLeft((w + r) % TWO64, r, now)
  {
    var x := (w + r) % TWO64;
    EscapesIff(w, r, now);
    EscapesIff(x, r, now);
    hide Escapes;
    assert forall k: nat {:trigger Later(x, r, k)} :: Later(x, r, k) == Later(w, r, k + 1);
    assert Later(w, r, 0) <= now;
    if k: nat :| Later(w, r, k) > now {
      assert Later(w, r, k) == Later(x, r, k - 1);
    }
    if k: nat :| Later(x, r, k) > now {
      assert Later(w, r, k + 1) > now;
    }
    if Escapes(w, r, now) {
      var a, b := TurnsLeft(w, r, now), TurnsLeft(x, r, now);
      assert a > 0 && Later(w, r, a) == Later(x, r, a - 1);
      assert Later(w, r, b + 1) == Later(x, r, b);
      assert Later(x, r, a - 1) > now && Later(w, r, b + 1) > now;
    }
  }
}
