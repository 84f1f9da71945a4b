/** The coordinate walk shared by every grid loop in the sources:
    `for (v = start; v < limit; v += step)`.  Walk(start, step, limit) is the
    sequence of values such a loop visits, in visiting order. */
module Steps {

  /** Values visited by `for (v = start; v < limit; v += step)`. */
  function Walk(start: int, step: int, limit: int): seq<int>
    requires step > 0
    decreases limit - start
  {
    if start < limit then [start] + Walk(start + step, step, limit) else []
  }

  /** Ceiling of a / b for a non-negative numerator. */
  function CeilDiv(a: nat, b: int): (n: nat)
    requires b > 0
    ensures n * b >= a
    ensures a > 0 ==> (n - 1) * b < a
    ensures a == 0 ==> n == 0
  {
    CeilDivBounds(a, b);
    (a + b - 1) / b
  }

  lemma CeilDivBounds(a: nat, b: int)
    requires b > 0
    ensures (a + b - 1) / b >= 0
    ensures ((a + b - 1) / b) * b >= a
    ensures a > 0 ==> ((a + b - 1) / b - 1) * b < a
    ensures a == 0 ==> (a + b - 1) / b == 0
  {
    var q, r := (a + b - 1) / b, (a + b - 1) % b;
    assert a + b - 1 == q * b + r && 0 <= r < b;
    assert q * b == a + b - 1 - r;
    assert (q - 1) * b == a - 1 - r;
  }

  /** The loop runs ceil((limit - start) / step) times when start < limit, and
      not at all otherwise. */
  lemma {:induction false} WalkLength(start: int, step: int, limit: int)
    requires step > 0
    ensures |Walk(start, step, limit)| == if start < limit then CeilDiv(limit - start, step) else 0
    decreases limit - start
  {
    if start < limit {
      WalkLength(start + step, step, limit);
      var n := |Walk(start, step, limit)|;
      if start + step < limit {
        var m := CeilDiv(limit - start - step, step);
        assert n == m + 1;
        assert n * step >= limit - start;
        assert (n - 1) * step < limit - start by {
          assert (m - 1) * step < limit - start - step;
        }
      } else {
        assert n == 1;
      }
      CeilDivUnique(limit - start, step, n);
    }
  }

  /** The ceiling is the only count that covers a without overshooting. */
  lemma CeilDivUnique(a: nat, b: int, n: nat)
    requires b > 0 && a > 0
    requires n * b >= a && (n - 1) * b < a
    ensures n == CeilDiv(a, b)
  {
    var c := CeilDiv(a, b);
    MulStrict(c - 1, n, b);
    MulStrict(n - 1, c, b);
  }

  /** Multiplication by a positive factor reflects strict order. */
  lemma MulStrict(x: int, y: int, b: int)
    requires b > 0 && x * b < y * b
    ensures x < y
  {
    assert x * b - y * b == (x - y) * b;
  }

  /** Euclidean division is determined by quotient and remainder. */
  lemma DivModUnique(x: int, b: int, q: int, r: int)
    requires b > 0 && 0 <= r < b && x == q * b + r
    ensures x / b == q && x % b == r
  {
    var q', r' := x / b, x % b;
    assert (q - q') * b == r' - r;
    MulStrict(q - q', 1, b);
    MulStrict(-1, q - q', b);
  }

  /** The k-th visited value is start + k * step. */
  lemma {:induction false} WalkAt(start: int, step: int, limit: int, k: nat)
    requires step > 0
    requires k < |Walk(start, step, limit)|
    ensures Walk(start, step, limit)[k] == start + k * step
    ensures start + k * step < limit
    decreases limit - start
  {
    if k > 0 {
      WalkAt(start + step, step, limit, k - 1);
    }
  }

  /** A value is visited exactly when it lies in [start, limit) and is reached
      from start by whole steps. */
  lemma {:induction false} WalkMembers(start: int, step: int, limit: int, v: int)
    requires step > 0
    ensures v in Walk(start, step, limit) <==> start <= v < limit && (v - start) % step == 0
    decreases limit - start
  {
    if start < limit {
      WalkMembers(start + step, step, limit, v);
      if v != start && start <= v && (v - start) % step == 0 {
        assert v - start >= step by {
          DivisibleAtLeast(v - start, step);
        }
        assert (v - (start + step)) % step == 0 by {
          ShiftMod(v - start, step);
        }
      }
      if v in Walk(start + step, step, limit) {
        ShiftMod(v - start, step);
      }
    }
  }

  lemma DivisibleAtLeast(d: int, step: int)
    requires step > 0 && d > 0 && d % step == 0
    ensures d >= step
  {
    var q := d / step;
    assert d == q * step;
    assert q >= 1;
  }

  lemma ShiftMod(d: int, step: int)
    requires step > 0
    ensures (d - step) % step == d % step
  {
    var q, r := d / step, d % step;
    DivModUnique(d - step, step, q - 1, r);
  }

  /** Visited values strictly increase. */
  lemma WalkIncreasing(start: int, step: int, limit: int, i: nat, j: nat)
    requires step > 0
    requires i < j < |Walk(start, step, limit)|
    ensures Walk(start, step, limit)[i] < Walk(start, step, limit)[j]
  {
    WalkAt(start, step, limit, i);
    WalkAt(start, step, limit, j);
    assert i * step < j * step;
  }
}
