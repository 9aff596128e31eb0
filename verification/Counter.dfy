/** The shared atomic counters: they start at 1, hand out their value and wrap around. */
module Counter {

  /** What the n-th increment (from zero) returns on a counter with the given number of values. */
  function Draw(n: nat, range: nat): nat
    requires range > 0
  {
    (1 + n) % range
  }

  lemma SmallMultiple(k: int, range: int)
    requires range > 0 && -range < k * range < range
    ensures k == 0
  {
    assert k >= 1 ==> k * range >= range;
    assert k <= -1 ==> k * range <= -range;
  }

  lemma Remainder(x: nat, q: nat, r: nat, range: nat)
    requires r < range && x == q * range + r
    ensures x % range == r
  {
    var k := x / range - q;
    assert x == (x / range) * range + x % range;
    assert k * range == (x / range) * range - q * range;
    SmallMultiple(k, range);
  }

  lemma Split(x: nat, range: nat) returns (q: nat, r: nat)
    requires range > 0
    ensures x == q * range + r && r < range && r == x % range
  {
    q, r := x / range, x % range;
  }

  lemma SumRemainder(x: nat, y: nat, q: nat, r: nat, e: nat, f: nat, range: nat)
    requires r < range && f < range && x == q * range + r && y == e * range + f
    ensures (x + y) % range == if r + f < range then r + f else r + f - range
  {
    if r + f < range {
      assert (q + e) * range == q * range + e * range;
      Remainder(x + y, q + e, r + f, range);
    } else {
      assert (q + e + 1) * range == q * range + e * range + range;
      Remainder(x + y, q + e + 1, r + f - range, range);
    }
  }

  /** Two draws coincide exactly when they are a multiple of the range apart. */
  lemma SameDraw(a: nat, b: nat, range: nat)
    requires range > 0 && a <= b
    ensures Draw(a, range) == Draw(b, range) <==> (b - a) % range == 0
  {
    var d := b - a;
    var q, r := Split(1 + a, range);
    var e, f := Split(d, range);
    SumRemainder(1 + a, d, q, r, e, f, range);
    assert 1 + b == 1 + a + d;
  }

  /** Until it wraps around, a counter counts from one. */
  lemma FirstDraws(n: nat, range: nat)
    requires n + 1 < range
    ensures Draw(n, range) == n + 1
  {
    Remainder(1 + n, 0, 1 + n, range);
  }

  /** fetch_add */
  class AtomicCounter {
    const range: nat
    var current: nat
    var draws: nat   // how often the counter was incremented

    ghost predicate Valid()
      reads this
    {
      range > 1 && current == Draw(draws, range)
    }

    constructor (range: nat)
      requires range > 1
      ensures Valid() && draws == 0 && this.range == range
    {
      this.range := range;
      current := 1;
      draws := 0;
    }

    method Increment() returns (r: nat)
      requires Valid()
      modifies this
      ensures Valid() && r == Draw(old(draws), range) && draws == old(draws) + 1
    {
      r := current;
      NextDraw(draws, range);
      current := (current + 1) % range;
      draws := draws + 1;
    }
  }

  lemma NextDraw(n: nat, range: nat)
    requires range > 1
    ensures Draw(n + 1, range) == (Draw(n, range) + 1) % range
  {
    var q, r := (1 + n) / range, (1 + n) % range;
    assert 1 + n == q * range + r;
    if r + 1 < range {
      Remainder(2 + n, q, r + 1, range);
      Remainder(r + 1, 0, r + 1, range);
    } else {
      WrapStep(n, q, range);
    }
  }

  lemma WrapStep(n: nat, q: nat, range: nat)
    requires range > 1 && 2 + n == q * range + range
    ensures (2 + n) % range == 0 == range % range
  {
    assert (q + 1) * range == q * range + range;
    Remainder(2 + n, q + 1, 0, range);
    Remainder(range, 1, 0, range);
  }
}
