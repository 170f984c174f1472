/** Rounding an order quantity to the exchange's LOT_SIZE filter:
    `adjust_quantity_to_lot_size` and the Decimal integer division it is
    built on. */
module LotSizeRounding {
  import opened Exchange

  function Abs(x: real): (r: real)
    ensures 0.0 <= r && (r == x || r == -x)
  {
    if x < 0.0 then -x else x
  }

  /** The quantity made of `k` increments of `step`. */
  function Steps(k: int, step: real): real {
    k as real * step
  }

  /** `q` is a whole number of `step` increments. */
  ghost predicate IsMultipleOf(q: real, step: real) {
    exists k: int :: Steps(k, step) == q
  }

  /** Decimal `x // y`: the integer part of x / y, truncated toward zero
      (not floored, unlike Python's `//` on floats).  A zero divisor raises
      in Python, hence the precondition. */
  function TruncDiv(x: real, y: real): (n: int)
    requires y != 0.0
    ensures (x / y >= 0.0 ==> n >= 0) && (x / y <= 0.0 ==> n <= 0)
    ensures Abs(n as real) <= Abs(x / y) < Abs(n as real) + 1.0
  {
    var q := x / y;
    if q >= 0.0 then q.Floor else -((-q).Floor)
  }

  /** For a non-negative `x`, `(x // y) * y` lies between `x - |y|`
      (excluded) and `x`. */
  lemma TruncStepBounds(x: real, y: real)
    requires y != 0.0
    ensures 0.0 <= x ==>
      var r := TruncDiv(x, y) as real * y;
      0.0 <= r <= x < r + Abs(y)
  {
    if 0.0 <= x {
      if y > 0.0 {
        TruncStepPositive(x, y);
      } else {
        TruncStepNegative(x, y);
      }
    }
  }

  lemma TruncStepPositive(x: real, y: real)
    requires 0.0 <= x && 0.0 < y
    ensures var r := TruncDiv(x, y) as real * y;
      0.0 <= r <= x < r + y
  {
    var n := TruncDiv(x, y) as real;
    var q := x / y;
    assert 0.0 <= n <= q < n + 1.0;
    ScaleLe(0.0, n, y);
    ScaleLe(n, q, y);
    ScaleLe(q, n + 1.0, y);
    calc {
      x;
    ==
      q * y;
    <
      (n + 1.0) * y;
    ==
      n * y + y;
    }
  }

  lemma TruncStepNegative(x: real, y: real)
    requires 0.0 <= x && y < 0.0
    ensures var r := TruncDiv(x, y) as real * y;
      0.0 <= r <= x < r - y
  {
    var n := TruncDiv(x, y) as real;
    var q := x / y;
    DivSign(x, y);
    assert 0.0 <= -n <= -q < -n + 1.0;
    ScaleLe(0.0, -n, -y);
    ScaleLe(-n, -q, -y);
    ScaleLe(-q, -n + 1.0, -y);
    calc {
      0.0;
    <=
      (-n) * (-y);
    ==
      n * y;
    }
    calc {
      n * y;
    ==
      (-n) * (-y);
    <=
      (-q) * (-y);
    ==
      x;
    }
    calc {
      x;
    ==
      (-q) * (-y);
    <
      (-n + 1.0) * (-y);
    ==
      n * y - y;
    }
  }

  lemma DivSign(x: real, y: real)
    requires 0.0 <= x && y < 0.0
    ensures x / y <= 0.0
  {
  }

  /** Scaling by a positive factor keeps strict and non-strict order. */
  lemma ScaleLe(a: real, b: real, c: real)
    requires c > 0.0
    ensures a <= b ==> a * c <= b * c
    ensures a < b ==> a * c < b * c
  {
  }

  /** adjust_quantity_to_lot_size: 0 below minQty, otherwise the quantity
      floored to a whole number of steps.  The floored value is not checked
      against minQty again, and maxQty is not used. */
  function AdjustQuantityToLotSize(quantity: real, lot: LotSize): (r: real)
    requires lot.stepSize != 0.0
    ensures quantity < lot.minQty ==> r == 0.0
    ensures lot.minQty <= quantity && 0.0 <= quantity ==>
      0.0 <= r <= quantity < r + Abs(lot.stepSize)
  {
    if quantity < lot.minQty then 0.0
    else
      var steps := TruncDiv(quantity, lot.stepSize);
      TruncStepBounds(quantity, lot.stepSize);
      steps as real * lot.stepSize
  }

  /** Once minQty is met, the result is a whole number of steps. */
  lemma AdjustIsOnGrid(quantity: real, lot: LotSize)
    requires lot.stepSize != 0.0 && lot.minQty <= quantity
    ensures IsMultipleOf(AdjustQuantityToLotSize(quantity, lot), lot.stepSize)
  {
    var n := TruncDiv(quantity, lot.stepSize);
    assert Steps(n, lot.stepSize) == AdjustQuantityToLotSize(quantity, lot);
  }

  /** With a positive step the truncating division is the floor, so the
      result is floor(quantity / stepSize) * stepSize. */
  lemma AdjustIsFloor(quantity: real, lot: LotSize)
    requires lot.stepSize > 0.0 && lot.minQty <= quantity && 0.0 <= quantity
    ensures AdjustQuantityToLotSize(quantity, lot)
         == (quantity / lot.stepSize).Floor as real * lot.stepSize
  {
  }

  /** Every multiple of the step that does not exceed the quantity is at
      most the result: the result is the largest legal quantity not above
      the input. */
  lemma AdjustIsGreatestMultiple(quantity: real, lot: LotSize, k: int)
    requires lot.stepSize != 0.0 && lot.minQty <= quantity && 0.0 <= quantity
    requires Steps(k, lot.stepSize) <= quantity
    ensures Steps(k, lot.stepSize) <= AdjustQuantityToLotSize(quantity, lot)
  {
    var s := lot.stepSize;
    var r := AdjustQuantityToLotSize(quantity, lot);
    var n := TruncDiv(quantity, s);
    assert r == n as real * s;
    if s > 0.0 {
      calc {
        k as real * s;
      <=
        quantity;
      <
        r + s;
      ==
        (n as real + 1.0) * s;
      }
      GridOrder(k, n, s);
    } else {
      var t := -s;
      calc {
        (-k) as real * t;
      ==
        k as real * s;
      <=
        quantity;
      <
        r + t;
      ==
        ((-n) as real + 1.0) * t;
      }
      GridOrder(-k, -n, t);
      assert (-n) as real * t == r;
    }
  }

  /** On a grid of positive spacing, j * t below (m + 1) * t means j <= m. */
  lemma GridOrder(j: int, m: int, t: real)
    requires 0.0 < t && j as real * t < (m as real + 1.0) * t
    ensures j as real * t <= m as real * t
  {
    if m + 1 <= j {
      ScaleLe((m + 1) as real, j as real, t);
    }
    ScaleLe(j as real, m as real, t);
  }

  /** A quantity already on the step grid and not below minQty is returned
      unchanged. */
  lemma AdjustFixesAligned(quantity: real, lot: LotSize)
    requires lot.stepSize != 0.0 && lot.minQty <= quantity
    requires IsMultipleOf(quantity, lot.stepSize)
    ensures AdjustQuantityToLotSize(quantity, lot) == quantity
  {
    var s := lot.stepSize;
    var k :| Steps(k, s) == quantity;
    assert quantity / s == k as real;
    assert TruncDiv(quantity, s) == k;
  }

  /** Idempotence, under the only condition where it holds: the first
      result did not fall below minQty. */
  lemma AdjustIdempotent(quantity: real, lot: LotSize)
    requires lot.stepSize != 0.0
    requires lot.minQty <= AdjustQuantityToLotSize(quantity, lot)
    ensures AdjustQuantityToLotSize(AdjustQuantityToLotSize(quantity, lot), lot)
         == AdjustQuantityToLotSize(quantity, lot)
  {
    var r := AdjustQuantityToLotSize(quantity, lot);
    if quantity < lot.minQty {
      assert Steps(0, lot.stepSize) == r;
    } else {
      AdjustIsOnGrid(quantity, lot);
    }
    AdjustFixesAligned(r, lot);
  }

  /** A floored result below minQty is sent to 0 by a second call. */
  lemma AdjustAgainBelowMin(quantity: real, lot: LotSize)
    requires lot.stepSize != 0.0
    requires AdjustQuantityToLotSize(quantity, lot) < lot.minQty
    ensures AdjustQuantityToLotSize(AdjustQuantityToLotSize(quantity, lot), lot) == 0.0
  {
  }

  /** The adjustment never decreases when the quantity grows, for any
      non-negative minQty and non-zero step. */
  lemma AdjustMonotone(q1: real, q2: real, lot: LotSize)
    requires lot.stepSize != 0.0 && 0.0 <= lot.minQty && q1 <= q2
    ensures AdjustQuantityToLotSize(q1, lot) <= AdjustQuantityToLotSize(q2, lot)
  {
    if lot.minQty <= q1 {
      var r1 := AdjustQuantityToLotSize(q1, lot);
      AdjustIsOnGrid(q1, lot);
      var k :| Steps(k, lot.stepSize) == r1;
      AdjustIsGreatestMultiple(q2, lot, k);
    }
  }

  /** Rounding down can land below minQty: minQty 1.5, step 1 and
      quantity 1.7 give 1.0, which a second call turns into 0. */
  lemma FlooredBelowMinQty()
    ensures var lot := LotSize(1.5, 100.0, 1.0);
      AdjustQuantityToLotSize(1.7, lot) == 1.0 &&
      AdjustQuantityToLotSize(1.0, lot) == 0.0
  {
  }

  /** Worked cases: 0.123456 on a 0.00001 grid, a quantity under minQty,
      and 0.0015 on a 0.001 grid. */
  lemma WorkedExamples()
    ensures AdjustQuantityToLotSize(0.123456, LotSize(0.0001, 100.0, 0.00001)) == 0.12345
    ensures AdjustQuantityToLotSize(0.0009, LotSize(0.001, 100.0, 0.0001)) == 0.0
    ensures AdjustQuantityToLotSize(0.0015, LotSize(0.001, 100.0, 0.001)) == 0.001
  {
  }
}
