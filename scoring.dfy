/**
 * Time-based scoring of a correct answer (backend/socket_manager.py, the ANSWER branch).
 *
 * The source computes `int(100 + 900 * max(0, 1 - elapsed / time_limit))` on floats.
 * Here elapsed time is an integer tick count and the ratio is an exact rational, so the
 * points are `100 + floor(900 * ratio)`; float rounding is abstracted away.
 */
module Scoring {

  const MinPoints: int := 100
  const MaxPoints: int := 1000

  /**
   * Points for a correct answer given `elapsed` ticks and the room's `limit`.
   * The ratio `1 - elapsed/limit` is written as `num/den` with `den > 0`: for a negative
   * limit (which SET_TIME_LIMIT accepts) both signs flip. A zero limit divides by zero
   * in the source; callers handle that case before calling.
   */
  function Points(elapsed: int, limit: int): int
    requires limit != 0
  {
    var num := if limit > 0 then limit - elapsed else elapsed - limit;
    var den := if limit > 0 then limit else -limit;
    if num <= 0 then MinPoints else MinPoints + (900 * num) / den
  }

  /** Multiplying by a natural number preserves order. */
  lemma {:induction false} MulMonotone(x: int, y: int, d: nat)
    requires x <= y
    ensures x * d <= y * d
  {
    if d > 0 {
      MulMonotone(x, y, d - 1);
      assert x * d == x * (d - 1) + x && y * d == y * (d - 1) + y;
    }
  }

  /** Floor division by a positive number preserves order. */
  lemma DivMonotone(a: int, b: int, d: int)
    requires a <= b && d > 0
    ensures a / d <= b / d
  {
    var qa, qb := a / d, b / d;
    assert a == qa * d + a % d && b == qb * d + b % d;
    assert (qb + 1) * d == qb * d + d;
    if qa > qb {
      MulMonotone(qb + 1, qa, d);
      assert false;
    }
  }

  /** Multiplying and then dividing by the same positive number is the identity. */
  lemma MulDivCancel(a: int, d: int)
    requires d > 0
    ensures (a * d) / d == a
  {
    var q := (a * d) / d;
    assert a * d == q * d + (a * d) % d;
    assert (q + 1) * d == q * d + d && (a + 1) * d == a * d + d;
    if q < a {
      MulMonotone(q + 1, a, d);
      assert false;
    } else if q > a {
      MulMonotone(a + 1, q, d);
      assert false;
    }
  }

  /** For a positive limit and a non-negative elapsed time, points lie in [100, 1000]. */
  lemma PointsInRange(elapsed: int, limit: int)
    requires limit > 0 && elapsed >= 0
    ensures MinPoints <= Points(elapsed, limit) <= MaxPoints
  {
    var num := limit - elapsed;
    if num > 0 {
      DivMonotone(900 * num, 900 * limit, limit);
      MulDivCancel(900, limit);
    }
  }

  /** An instant answer earns the maximum. */
  lemma InstantAnswerEarnsMax(limit: int)
    requires limit > 0
    ensures Points(0, limit) == MaxPoints
  {
    MulDivCancel(900, limit);
  }

  /** At or past the deadline a correct answer earns exactly the minimum. */
  lemma LateAnswerEarnsMin(elapsed: int, limit: int)
    requires limit > 0 && elapsed >= limit
    ensures Points(elapsed, limit) == MinPoints
  {
  }

  /** Answering later never earns more. */
  lemma PointsNonIncreasing(e1: int, e2: int, limit: int)
    requires limit > 0 && e1 <= e2
    ensures Points(e2, limit) <= Points(e1, limit)
  {
    if limit - e2 > 0 {
      DivMonotone(900 * (limit - e2), 900 * (limit - e1), limit);
    }
  }

  /**
   * SET_TIME_LIMIT stores any value. With a negative limit the ratio `1 - elapsed/limit`
   * is at least 1 for any non-negative elapsed time, so a correct answer never earns less
   * than the maximum.
   */
  lemma NegativeLimitAtLeastMax(elapsed: int, limit: int)
    requires limit < 0 && elapsed >= 0
    ensures Points(elapsed, limit) >= MaxPoints
  {
    var den := -limit;
    var num := elapsed - limit;
    DivMonotone(900 * den, 900 * num, den);
    MulDivCancel(900, den);
  }

  /**
   * With a negative limit, once `900 * elapsed` reaches the limit's magnitude the points
   * leave the documented range: a correct answer earns more than 1000.
   */
  lemma NegativeLimitExceedsMax(elapsed: int, limit: int)
    requires limit < 0 && 900 * elapsed >= -limit
    ensures Points(elapsed, limit) > MaxPoints
  {
    var den := -limit;
    var num := elapsed - limit;
    assert 900 * num == 900 * den + 900 * elapsed;
    DivMonotone(901 * den, 900 * num, den);
    MulDivCancel(901, den);
  }

  /** One instance: 15 ticks into a question whose limit is -15 earns 1900 points. */
  lemma NegativeLimitExample()
    ensures Points(15, -15) == 1900
  {
  }
}
