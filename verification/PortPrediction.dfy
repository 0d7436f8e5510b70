/**
 Where the peer's next external port is expected to be, extrapolated from two observed ports and the
 times at which the server saw them. Real arithmetic stands in for `float`.
 */
module PortPrediction {
  import opened Wire

  const SCAN_RANGE := 50
  const NEAR := 250
  const ROUND_TRIP_MS := 100

  type Time = t: int | 0 <= t < 0x1_0000_0000_0000_0000

  /** Conversion of an integer to `uint64_t`. */
  function Wrap64(x: int): Time {
    x % 0x1_0000_0000_0000_0000
  }

  /** The port, where 0 says that none can be predicted, or a number that is not a 16-bit port. */
  datatype Prediction = Target(port: Port) | OutOfRange

  function ToPort(x: real): Prediction {
    if 0.0 <= x < 65536.0 then Target(x.Floor) else OutOfRange
  }

  /** Carry the distance between two allocations on for `elapsed` at the rate they were made. */
  function Carry(elapsed: nat, allocation: nat, distance: nat): real
    requires allocation > 0
  {
    var parts := elapsed as real / allocation as real;
    parts * distance as real
  }

  function DetermineTargetPort(first: Port, second: Port, t1: Time, t2: Time, now: Time): Prediction {
    if first == second then Target(first)
    else if first + NEAR > second && first - NEAR < second then
      var distance := Wrap16(second - first);
      var allocation := Wrap64(t2 - t1 + 1);
      var elapsed := Wrap64(Wrap64(now - t2) + ROUND_TRIP_MS);
      if allocation == 0 then OutOfRange
      else if distance > 0 then
        ToPort(second as real + Carry(elapsed, allocation, distance) + (SCAN_RANGE / 2) as real)
      else
        ToPort(second as real + Carry(elapsed, allocation, distance) - (SCAN_RANGE / 2) as real)
    else Target(0)
  }

  /** Two ascending observations and a clock that does not run backwards. */
  predicate Ascending(first: Port, second: Port, t1: Time, t2: Time, now: Time) {
    && first < second < first + 250
    && t1 <= t2 <= now
    && now - t2 + 100 < 0x1_0000_0000_0000_0000
    && t2 - t1 + 1 < 0x1_0000_0000_0000_0000
  }

  function Line(rise: nat, run: nat): real
    requires run > 0
  {
    rise as real / run as real
  }

  /** The linear extrapolation of the peer's port to the time the scan is expected to reach it. */
  function Extrapolation(first: Port, second: Port, t1: Time, t2: Time, now: Time): real
    requires Ascending(first, second, t1, t2, now)
  {
    second as real + Line((now - t2 + 100) * (second - first), t2 - t1 + 1)
  }

  lemma FloorOfQuotient(a: nat, b: nat)
    requires b > 0
    ensures Line(a, b).Floor == a / b
  {
    var k, r := a / b, a % b;
    assert a == k * b + r;
    assert a as real == k as real * b as real + r as real;
    assert a as real / b as real == k as real + r as real / b as real;
    assert 0.0 <= r as real / b as real < 1.0;
  }

  lemma CarryIsLine(x: nat, y: nat, d: nat)
    requires y > 0
    ensures Carry(x, y, d) == Line(x * d, y)
  {
    ProductOfReals(x, d);
    Rearrange(x as real, y as real, d as real);
  }

  lemma Rearrange(x: real, y: real, d: real)
    requires y != 0.0
    ensures (x / y) * d == (x * d) / y
  {
  }

  lemma {:induction false} ProductOfReals(x: nat, d: nat)
    ensures (x * d) as real == x as real * d as real
  {
    if x > 0 {
      ProductOfReals(x - 1, d);
      assert x * d == (x - 1) * d + d;
      assert (x - 1) as real * d as real + d as real == x as real * d as real;
    }
  }

  lemma WrapsAreIdle(first: Port, second: Port, t1: Time, t2: Time, now: Time)
    requires Ascending(first, second, t1, t2, now)
    ensures Wrap16(second - first) == second - first
    ensures Wrap64(t2 - t1 + 1) == t2 - t1 + 1
    ensures Wrap64(Wrap64(now - t2) + 100) == now - t2 + 100
  {
  }

  /** For ascending ports nothing wraps, and the prediction is the extrapolation plus half a window. */
  lemma PredictionIsExtrapolation(first: Port, second: Port, t1: Time, t2: Time, now: Time)
    requires Ascending(first, second, t1, t2, now)
    ensures DetermineTargetPort(first, second, t1, t2, now) ==
            ToPort(Extrapolation(first, second, t1, t2, now) + 25.0)
  {
    WrapsAreIdle(first, second, t1, t2, now);
    CarryIsLine(now - t2 + 100, t2 - t1 + 1, second - first);
  }

  lemma FloorOfSum(n: nat, e: real)
    ensures (n as real + e + 25.0).Floor == n + e.Floor + 25
  {
  }

  /** The whole ports in `Carry`. */
  function Carried(elapsed: nat, allocation: nat, distance: nat): nat
    requires allocation > 0
  {
    Quotient(0, elapsed * distance, allocation);
    elapsed * distance / allocation
  }

  /** What the predictor computes, in whole numbers; the subtractions of times and ports wrap. */
  function WholePrediction(first: Port, second: Port, t1: Time, t2: Time, now: Time): Prediction {
    var distance: nat := (second - first) % 0x1_0000;
    var allocation: nat := (t2 - t1 + 1) % 0x1_0000_0000_0000_0000;
    var elapsed: nat := ((now - t2) % 0x1_0000_0000_0000_0000 + 100) % 0x1_0000_0000_0000_0000;
    if first == second then Target(first)
    else if first + 250 <= second || second + 250 <= first then Target(0)
    else if allocation == 0 then OutOfRange
    else
      var p := second + Carried(elapsed, allocation, distance) + 25;
      if p < 0x1_0000 then Target(p) else OutOfRange
  }

  /**
   The prediction on all inputs: a port seen twice is predicted again, distant ports predict nothing,
   and otherwise the whole-number formula holds, with the quotient rounded down.
   */
  lemma PredictionFormula(first: Port, second: Port, t1: Time, t2: Time, now: Time)
    ensures DetermineTargetPort(first, second, t1, t2, now) == WholePrediction(first, second, t1, t2, now)
  {
    var distance, allocation := Wrap16(second - first), Wrap64(t2 - t1 + 1);
    var elapsed := Wrap64(Wrap64(now - t2) + 100);
    if first != second && first < second + 250 && second < first + 250 && allocation != 0 {
      assert distance > 0;
      CarryIsLine(elapsed, allocation, distance);
      PortCarried(second, elapsed, allocation, distance);
    }
  }

  /** For ascending ports the prediction is the integer formula, as long as that is a port at all. */
  lemma AscendingFormula(first: Port, second: Port, t1: Time, t2: Time, now: Time)
    requires Ascending(first, second, t1, t2, now)
    ensures var p := second + Carried(now - t2 + 100, t2 - t1 + 1, second - first) + 25;
            DetermineTargetPort(first, second, t1, t2, now) == if p < 0x1_0000 then Target(p) else OutOfRange
  {
    PredictionIsExtrapolation(first, second, t1, t2, now);
    PortCarried(second, now - t2 + 100, t2 - t1 + 1, second - first);
  }

  lemma PortCarried(n: nat, x: nat, y: nat, d: nat)
    requires y > 0
    ensures ToPort(n as real + Line(x * d, y) + 25.0) ==
            if n + Carried(x, y, d) + 25 < 0x1_0000 then Target(n + Carried(x, y, d) + 25) else OutOfRange
  {
    PortOnLine(n, x * d, y);
  }

  lemma PortOnLine(n: nat, a: nat, b: nat)
    requires b > 0
    ensures ToPort(n as real + Line(a, b) + 25.0) ==
            if n + a / b + 25 < 0x1_0000 then Target(n + a / b + 25) else OutOfRange
    ensures a / b >= 0
  {
    FloorOfQuotient(a, b);
    FloorOfSum(n, Line(a, b));
    Quotient(0, a, b);
    PortOfFloor(n as real + Line(a, b) + 25.0, n + a / b + 25);
  }

  lemma PortOfFloor(x: real, n: nat)
    requires x.Floor == n
    ensures ToPort(x) == if n < 0x1_0000 then Target(n) else OutOfRange
  {
  }

  /**
   The prediction lands in the peer's window of 50 ports from `s` exactly if `s` is within 25 ports
   of the linear extrapolation.
   */
  lemma ErrorBound(first: Port, second: Port, t1: Time, t2: Time, now: Time, s: int)
    requires Ascending(first, second, t1, t2, now)
    requires DetermineTargetPort(first, second, t1, t2, now).Target?
    ensures var l := Extrapolation(first, second, t1, t2, now);
            s <= DetermineTargetPort(first, second, t1, t2, now).port < s + 50 <==>
            s as real - 25.0 <= l < s as real + 25.0
  {
    PredictionIsExtrapolation(first, second, t1, t2, now);
    var l := Extrapolation(first, second, t1, t2, now);
    var p := (l + 25.0).Floor;
    assert p as real <= l + 25.0 < p as real + 1.0;
  }

  /** Waiting longer never lowers the prediction. */
  lemma MonotoneInTime(first: Port, second: Port, t1: Time, t2: Time, now: Time, later: Time)
    requires Ascending(first, second, t1, t2, now) && Ascending(first, second, t1, t2, later)
    requires now <= later
    requires DetermineTargetPort(first, second, t1, t2, later).Target?
    ensures DetermineTargetPort(first, second, t1, t2, now).Target?
    ensures DetermineTargetPort(first, second, t1, t2, now).port <=
            DetermineTargetPort(first, second, t1, t2, later).port
  {
    AscendingFormula(first, second, t1, t2, now);
    AscendingFormula(first, second, t1, t2, later);
    CarriedMonotone(now - t2 + 100, later - t2 + 100, t2 - t1 + 1, second - first);
  }

  lemma CarriedMonotone(a: nat, c: nat, b: nat, d: nat)
    requires a <= c && b > 0
    ensures Carried(a, b, d) <= Carried(c, b, d)
  {
    Product(a, c, d);
    Quotient(a * d, c * d, b);
  }

  lemma Product(a: nat, c: nat, d: nat)
    requires a <= c
    ensures a * d <= c * d
  {
  }

  lemma Cancel(x: nat, y: nat, b: nat)
    requires y * b < x * b
    ensures y < x
  {
    if x <= y {
      Product(x, y, b);
    }
  }

  lemma Quotient(a: nat, c: nat, b: nat)
    requires a <= c && b > 0
    ensures 0 <= a / b <= c / b
  {
    assert a == a / b * b + a % b && c == c / b * b + c % b;
    assert (c / b + 1) * b == c / b * b + b;
    Cancel(c / b + 1, a / b, b);
  }

  /** The prediction stays within the steepest slope the proximity test lets through. */
  lemma SlopeBound(first: Port, second: Port, t1: Time, t2: Time, now: Time)
    requires Ascending(first, second, t1, t2, now)
    ensures var p := DetermineTargetPort(first, second, t1, t2, now);
            p.Target? ==>
              second + 25 <= p.port <= second + 25 + Carried(now - t2 + 100, t2 - t1 + 1, 249)
  {
    AscendingFormula(first, second, t1, t2, now);
    Steeper(now - t2 + 100, second - first, t2 - t1 + 1);
  }

  lemma Steeper(x: nat, d: nat, y: nat)
    requires d <= 249 && y > 0
    ensures Carried(x, y, d) <= Carried(x, y, 249)
  {
    Product(d, 249, x);
    Quotient(x * d, x * 249, y);
  }

  /**
   Whatever the times, a prediction from two different but close ports lies above the second one.
   The distance is unsigned, so this is so even if the ports descend: a peer whose ports continue
   downwards is never hit.
   */
  lemma NearPredictionIsAbove(first: Port, second: Port, t1: Time, t2: Time, now: Time)
    requires first != second && first < second + 250 && second < first + 250
    requires DetermineTargetPort(first, second, t1, t2, now).Target?
    ensures DetermineTargetPort(first, second, t1, t2, now).port >= second + 25
  {
    var distance, allocation := Wrap16(second - first), Wrap64(t2 - t1 + 1);
    var elapsed := Wrap64(Wrap64(now - t2) + 100);
    assert distance > 0;
    CarryIsLine(elapsed, allocation, distance);
    FloorOfQuotient(elapsed * distance, allocation);
    Quotient(0, elapsed * distance, allocation);
    FloorOfSum(second, Line(elapsed * distance, allocation));
  }

  /** Port 0, which reports that nothing can be predicted, comes out exactly for distant ports. */
  lemma NotPredictableIffDistant(first: Port, second: Port, t1: Time, t2: Time, now: Time)
    requires DetermineTargetPort(first, second, t1, t2, now).Target?
    requires first != 0 || second != 0
    ensures DetermineTargetPort(first, second, t1, t2, now).port == 0 <==>
            first >= second + 250 || second >= first + 250
  {
    if first != second && first < second + 250 && second < first + 250 {
      NearPredictionIsAbove(first, second, t1, t2, now);
    }
  }
}
