/**
 * The loading screen of script.js: the percentage readout written by the
 * loading manager's progress callback, and the delay after which the
 * completion callback hides the loading screen and shows the viewport.
 */
module Loading {
  /** MIN_DISPLAY_TIME: the shortest time, in milliseconds, the loading screen stays up. */
  const MinDisplayTime: int := 0

  /** What the template `${progress}%` shows for a JavaScript number. */
  datatype Readout = Whole(percent: int) | NaN | Infinity

  /**
   * Math.round: the integer nearest to x, a tie going to the larger
   * neighbour (toward positive infinity, so Round(-0.5) == 0).
   */
  function Round(x: real): (r: int)
    ensures x - 0.5 < r as real <= x + 0.5
  {
    (x + 0.5).Floor
  }

  /**
   * The readout for itemsLoaded of itemsTotal items: Math.round of
   * itemsLoaded / itemsTotal * 100 taken on exact rationals. Dividing by
   * zero items gives NaN for 0/0 and Infinity otherwise, as in JavaScript.
   * The integer clause is round-half-up of 100 * itemsLoaded / itemsTotal
   * stated without division.
   */
  function ProgressPercent(itemsLoaded: nat, itemsTotal: nat): (r: Readout)
    ensures itemsTotal == 0 <==> !r.Whole?
    ensures itemsTotal == 0 ==> r == if itemsLoaded == 0 then NaN else Infinity
    ensures itemsTotal > 0 ==>
      2 * itemsTotal * r.percent <= 200 * itemsLoaded + itemsTotal < 2 * itemsTotal * (r.percent + 1)
  {
    if itemsTotal == 0 then
      if itemsLoaded == 0 then NaN else Infinity
    else
      var ratio := itemsLoaded as real / itemsTotal as real * 100.0;
      var p := Round(ratio);
      ScaleRounding(itemsLoaded, itemsTotal, ratio, p);
      Whole(p)
  }

  /** Multiplies the rounding bounds of ProgressPercent through by 2 * itemsTotal. */
  lemma ScaleRounding(itemsLoaded: nat, itemsTotal: nat, ratio: real, p: int)
    requires itemsTotal > 0
    requires ratio == itemsLoaded as real / itemsTotal as real * 100.0
    requires ratio - 0.5 < p as real <= ratio + 0.5
    ensures 2 * itemsTotal * p <= 200 * itemsLoaded + itemsTotal < 2 * itemsTotal * (p + 1)
  {
    QuotientTimesDivisor(itemsLoaded as real, itemsTotal as real, ratio);
    RealBounds(itemsTotal as real, itemsLoaded as real, ratio, p as real);
    CastProduct(2 * itemsTotal, p);
    CastProduct(2 * itemsTotal, p + 1);
  }

  /** The quotient times the divisor gives back the dividend. */
  lemma QuotientTimesDivisor(l: real, t: real, ratio: real)
    requires t > 0.0 && ratio == l / t * 100.0
    ensures ratio * t == 100.0 * l
  {
  }

  /** The rounding bounds of ProgressPercent, multiplied by 2 * itemsTotal on the reals. */
  lemma RealBounds(t: real, l: real, ratio: real, pr: real)
    requires t > 0.0 && ratio * t == 100.0 * l
    requires ratio - 0.5 < pr <= ratio + 0.5
    ensures (2.0 * t) * pr <= 200.0 * l + t < (2.0 * t) * (pr + 1.0)
  {
    var k := 2.0 * t;
    assert k * ratio == 200.0 * l by {
      assert k * ratio == 2.0 * (ratio * t);
    }
    ScaleReal(k, pr, ratio + 0.5);
    assert k * (ratio + 0.5) == k * ratio + t;
    ScaleRealStrict(k, ratio - 0.5, pr);
    assert k * (ratio - 0.5) == k * ratio - t;
    assert k * (pr + 1.0) == k * pr + k;
    calc {
      k * pr;
    <= k * (ratio + 0.5);
    == k * ratio + t;
    == 200.0 * l + t;
    }
    assert 200.0 * l + t < k * (pr + 1.0);
  }

  /** Converting a product of integers to a real is the product of the conversions. */
  lemma {:induction false} CastProduct(a: int, b: int)
    ensures (a * b) as real == a as real * b as real
    decreases if b < 0 then -b else b
  {
    if b > 0 {
      CastProduct(a, b - 1);
      assert a * b == a * (b - 1) + a;
    } else if b < 0 {
      CastProduct(a, b + 1);
      assert a * b == a * (b + 1) - a;
    }
  }

  /** Multiplying by a positive factor keeps a non-strict inequality. */
  lemma ScaleReal(k: real, a: real, b: real)
    requires k > 0.0 && a <= b
    ensures k * a <= k * b
  {
  }

  /** Multiplying by a positive factor keeps a strict inequality. */
  lemma ScaleRealStrict(k: real, a: real, b: real)
    requires k > 0.0 && a < b
    ensures k * a < k * b
  {
  }

  /** A positive factor can be cancelled from both sides of a strict inequality. */
  lemma CancelFactor(k: int, x: int, y: int)
    requires k > 0 && k * x < k * y
    ensures x < y
  {
  }

  /**
   * With 0 <= itemsLoaded <= itemsTotal and itemsTotal > 0 the readout is a
   * whole percentage between 0 and 100.
   */
  lemma {:induction false} PercentInRange(itemsLoaded: nat, itemsTotal: nat)
    requires 0 < itemsTotal && itemsLoaded <= itemsTotal
    ensures ProgressPercent(itemsLoaded, itemsTotal).Whole?
    ensures 0 <= ProgressPercent(itemsLoaded, itemsTotal).percent <= 100
  {
    var p := ProgressPercent(itemsLoaded, itemsTotal).percent;
    var t := itemsTotal;
    assert 2 * t * p < 2 * t * 101;
    CancelFactor(2 * t, p, 101);
    assert 2 * t * 0 < 2 * t * (p + 1);
    CancelFactor(2 * t, 0, p + 1);
  }

  /** No items loaded reads 0%; all items loaded reads 100%. */
  lemma {:induction false} PercentEnds(itemsTotal: nat)
    requires itemsTotal > 0
    ensures ProgressPercent(0, itemsTotal) == Whole(0)
    ensures ProgressPercent(itemsTotal, itemsTotal) == Whole(100)
  {
    var t := itemsTotal;
    var p := ProgressPercent(0, t).percent;
    CancelFactor(2 * t, p, 1);
    CancelFactor(2 * t, -1, p);
    var q := ProgressPercent(t, t).percent;
    CancelFactor(2 * t, q, 101);
    CancelFactor(2 * t, 99, q);
  }

  /** As more of the same items load, the readout never goes down. */
  lemma {:induction false} PercentMonotone(before: nat, after: nat, itemsTotal: nat)
    requires 0 < itemsTotal && before <= after
    ensures ProgressPercent(before, itemsTotal).percent <= ProgressPercent(after, itemsTotal).percent
  {
    var t := itemsTotal;
    var p := ProgressPercent(before, t).percent;
    var q := ProgressPercent(after, t).percent;
    assert 2 * t * p <= 200 * before + t <= 200 * after + t < 2 * t * (q + 1);
    CancelFactor(2 * t, p, q + 1);
  }

  /**
   * The delay the completion callback passes to setTimeout, for a load that
   * started at loadingStart and completed at now (both Date.now() readings):
   * Math.max(MIN_DISPLAY_TIME - elapsed, 0). It is never negative, and the
   * viewport is shown no earlier than MinDisplayTime after loading started.
   */
  function RevealDelay(loadingStart: int, now: int): (r: int)
    ensures r >= 0
    ensures loadingStart + MinDisplayTime <= now + r
    ensures r == 0 || now + r == loadingStart + MinDisplayTime
  {
    var elapsed := now - loadingStart;
    if MinDisplayTime - elapsed > 0 then MinDisplayTime - elapsed else 0
  }

  /**
   * With MIN_DISPLAY_TIME = 0 and a clock that does not go back, the
   * viewport is revealed without delay.
   */
  lemma NoDelayWhenClockAdvances(loadingStart: int, now: int)
    requires loadingStart <= now
    ensures RevealDelay(loadingStart, now) == 0
  {
  }
}
