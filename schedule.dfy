/** The due-predicate every periodic action of the core is scheduled by
    (`freq and time % freq < dt`), and the clock arithmetic of the run loop.
    Time is an exact `real`; Python's `%` on floats is the floored modulo,
    whose result takes the sign of the divisor. */
module Schedule {

  /** Python's `x % m` for `m != 0`. */
  function FloorMod(x: real, m: real): (r: real)
    requires m != 0.0
    ensures m > 0.0 ==> 0.0 <= r < m
    ensures m < 0.0 ==> m < r <= 0.0
    ensures x == r + Multiple((x / m).Floor, m)
  {
    FloorQuotient(x, m);
    x - Multiple((x / m).Floor, m)
  }

  /** `floor(x / m) * m` lies within one period of `x`, on the side of `x`
      the period's sign points away from. */
  lemma FloorQuotient(x: real, m: real)
    requires m != 0.0
    ensures m > 0.0 ==> Multiple((x / m).Floor, m) <= x < Multiple((x / m).Floor, m) + m
    ensures m < 0.0 ==> Multiple((x / m).Floor, m) + m < x <= Multiple((x / m).Floor, m)
  {
    var y := x / m;
    var q := y.Floor;
    assert x == y * m;
    var p := Multiple(q, m);
    var below, above := y - q as real, q as real + 1.0 - y;
    assert below >= 0.0 && above > 0.0;
    assert below * m == x - p;
    assert above * m == p + m - x;
    if m > 0.0 {
      Positive(below, m);
      Positive(above, m);
    } else {
      Positive(below, -m);
      Positive(above, -m);
      assert below * (-m) == p - x;
      assert above * (-m) == x - p - m;
    }
  }

  /** The floored quotient is the unique `q` whose multiple lies within one
      period below `x`, so `x % m` can be read off any such `q`. */
  lemma FloorModBy(x: real, m: real, q: int)
    requires m > 0.0
    requires Multiple(q, m) <= x < Multiple(q, m) + m
    ensures FloorMod(x, m) == x - Multiple(q, m)
  {
    var y := x / m;
    assert y * m == x;
    var p := q as real * m;
    assert p == Multiple(q, m);
    assert p <= y * m;
    DivideAtMost(q as real, y, m);
    var next := q as real + 1.0;
    assert next * m == p + m;
    assert y * m < next * m;
    DivideBelow(y, next, m);
    FloorOf(y, q);
  }

  /** The floor of `y` is the one integer within one unit below it. */
  lemma FloorOf(y: real, q: int)
    requires q as real <= y < q as real + 1.0
    ensures y.Floor == q
  {
  }

  /** Dividing both sides of `a * m <= b * m` by a positive `m`. */
  lemma DivideAtMost(a: real, b: real, m: real)
    requires m > 0.0
    ensures a * m <= b * m ==> a <= b
  {
    if a > b {
      ScaleBelow(b, a, m);
    }
  }

  /** Dividing both sides of `a * m < b * m` by a positive `m`. */
  lemma DivideBelow(a: real, b: real, m: real)
    requires m > 0.0
    ensures a * m < b * m ==> a < b
  {
    if a >= b {
      ScaleAtMost(b, a, m);
    }
  }

  /** The sign of a product of a nonnegative and a positive factor. */
  lemma Positive(a: real, b: real)
    requires a >= 0.0 && b > 0.0
    ensures a * b >= 0.0
    ensures a > 0.0 ==> a * b > 0.0
  {
  }

  /** The `k`-th multiple of a period. */
  function Multiple(k: int, freq: real): real
  {
    k as real * freq
  }

  /** An action with period `freq` is due at `time` when `freq` is nonzero
      and `time % freq < dt`; a zero period disables it. A negative period is
      truthy too, and its remainder is never positive, so it is due on every
      tick of a positive step. */
  predicate IsDue(freq: real, time: real, dt: real)
    ensures IsDue(freq, time, dt) ==> freq != 0.0
    ensures freq > 0.0 && dt <= 0.0 ==> !IsDue(freq, time, dt)
    ensures freq < 0.0 && dt > 0.0 ==> IsDue(freq, time, dt)
  {
    freq != 0.0 && FloorMod(time, freq) < dt
  }

  /** The tick that ends at `time` (and began at `time - dt`) passes over the
      `k`-th multiple of `freq`. */
  predicate Crosses(k: int, freq: real, time: real, dt: real)
  {
    time - dt < Multiple(k, freq) <= time
  }

  /** A disabled action is never due, whatever the clock says. */
  lemma DisabledNeverDue(time: real, dt: real)
    ensures !IsDue(0.0, time, dt)
  {
  }

  /** `k * freq <= time` exactly for the multiples up to `floor(time / freq)`. */
  lemma MultipleBelow(k: int, freq: real, time: real)
    requires freq > 0.0
    ensures Multiple(k, freq) <= time <==> k <= (time / freq).Floor
  {
    var q := time / freq;
    assert time == q * freq;
    if Multiple(k, freq) <= time {
      assert (q - k as real) * freq >= 0.0;
      assert k as real <= q;
    } else {
      assert (k as real - q) * freq > 0.0;
      assert q < k as real;
    }
  }

  /** For a positive period the predicate is exactly "this tick passed over a
      multiple of the period": the action fires on the first tick that lands
      on or just past each multiple, and only then. */
  lemma DueIffCrossing(freq: real, time: real, dt: real)
    requires freq > 0.0
    ensures IsDue(freq, time, dt) <==> exists k :: Crosses(k, freq, time, dt)
  {
    var q := (time / freq).Floor;
    MultipleBelow(q, freq, time);
    if IsDue(freq, time, dt) {
      assert Crosses(q, freq, time, dt);
    }
    if k :| Crosses(k, freq, time, dt) {
      MultipleBelow(k, freq, time);
      assert Multiple(k, freq) <= Multiple(q, freq) by {
        assert (q - k) as real * freq >= 0.0;
      }
    }
  }

  /** A period no longer than the step makes the action due on every tick. */
  lemma DueEveryTickWhenPeriodWithinStep(freq: real, time: real, dt: real)
    requires 0.0 < freq <= dt
    ensures IsDue(freq, time, dt)
  {
  }

  /** Two ticks at least `dt` apart never pass over the same multiple, so an
      action fires at most once per multiple of its period. */
  lemma CrossingOnce(k: int, freq: real, t1: real, t2: real, dt: real)
    requires t1 + dt <= t2
    requires Crosses(k, freq, t1, dt)
    ensures !Crosses(k, freq, t2, dt)
  {
  }

  /** The number of steps of length `dt` the run loop takes to cover `span`:
      the least `n >= 0` with `n * dt >= span` (`ceil(span / dt)` when
      `span > 0`). */
  function StepsToCover(span: real, dt: real): (n: nat)
    requires dt > 0.0
  {
    if span <= 0.0 then 0 else -((-span / dt).Floor)
  }

  /** `StepsToCover` is the exact count: fewer steps fall short of `span`,
      that many reach it. */
  lemma StepsToCoverExact(span: real, dt: real, n: nat)
    requires dt > 0.0
    ensures Multiple(n, dt) < span <==> n < StepsToCover(span, dt)
  {
    var c := StepsToCover(span, dt);
    if span > 0.0 {
      var q := span / dt;
      CeilingBounds(span, dt);
      if n < c {
        assert n as real <= c as real - 1.0 < q;
        ScaleBelow(n as real, q, dt);
      } else {
        assert q <= n as real;
        ScaleAtMost(q, n as real, dt);
      }
    } else {
      ScaleAtMost(0.0, n as real, dt);
    }
  }

  /** `StepsToCover(span, dt)` is the ceiling of `span / dt`. */
  lemma CeilingBounds(span: real, dt: real)
    requires dt > 0.0 && span > 0.0
    ensures var c := StepsToCover(span, dt);
      c as real - 1.0 < span / dt <= c as real
  {
    var q := span / dt;
    assert -span / dt == -q;
    assert (-q).Floor as real <= -q < (-q).Floor as real + 1.0;
  }

  lemma ScaleBelow(a: real, b: real, dt: real)
    requires a < b && dt > 0.0
    ensures a * dt < b * dt
  {
    assert (b - a) * dt > 0.0;
  }

  lemma ScaleAtMost(a: real, b: real, dt: real)
    requires a <= b && dt > 0.0
    ensures a * dt <= b * dt
  {
    assert (b - a) * dt >= 0.0;
  }

  /** No firing is ever missed: every multiple of `freq` that falls inside the
      first `n` ticks after `t0` is caught by one of them. */
  lemma NoMissedMultiple(freq: real, t0: real, dt: real, n: nat, k: int)
    requires freq > 0.0 && dt > 0.0
    requires t0 < Multiple(k, freq) <= t0 + Multiple(n, dt)
    ensures exists j :: 1 <= j <= n && IsDue(freq, t0 + Multiple(j, dt), dt)
  {
    var span := Multiple(k, freq) - t0;
    var j := StepsToCover(span, dt);
    StepsToCoverExact(span, dt, j);
    StepsToCoverExact(span, dt, j - 1);
    StepsToCoverExact(span, dt, n);
    assert Multiple(j - 1, dt) == Multiple(j, dt) - dt;
    assert Crosses(k, freq, t0 + Multiple(j, dt), dt);
    DueIffCrossing(freq, t0 + Multiple(j, dt), dt);
  }

  /** Period 1.0, step 0.5, ticks ending at 0.5 .. 3.0:
      due exactly on the ticks ending at 1.0, 2.0 and 3.0. */
  lemma HalfStepUnitPeriodExample()
    ensures !IsDue(1.0, 0.5, 0.5) && IsDue(1.0, 1.0, 0.5)
    ensures !IsDue(1.0, 1.5, 0.5) && IsDue(1.0, 2.0, 0.5)
    ensures !IsDue(1.0, 2.5, 0.5) && IsDue(1.0, 3.0, 0.5)
  {
  }
}
