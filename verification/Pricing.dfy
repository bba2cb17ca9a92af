/** The price of a stay: the rounding to started hours of services/payment-service/internal/service/payment_service.go
    and `CalculatePrice` of services/parking-service/internal/usecase/tariff_usecase.go.
    Durations are microseconds and prices are hundredths, so the products are exact. */
module Pricing {
  import opened Basics

  const HOUR: Time := 3_600_000_000

  datatype PriceError = InvalidTimeRange | ParkingRequired | HoursNotPositive | TariffNotFound

  /** `math.Ceil`. */
  function Ceil(x: real): int {
    -((-x).Floor)
  }

  /** Started hours, in whole numbers. */
  function StartedHours(duration: int): int {
    (duration + HOUR - 1) / HOUR
  }

  function Charge(pricePerHour: nat, duration: int): int {
    pricePerHour * StartedHours(duration)
  }

  /** The hours that are billed: the exact quotient, rounded up. */
  method BilledHours(start: Time, end: Time) returns (r: Result<int, PriceError>)
    ensures r == if end <= start then Err(InvalidTimeRange) else Ok(StartedHours(end - start))
    ensures r.Ok? ==> r.value >= 1
  {
    var hours := (end - start) as real / HOUR as real;
    if hours <= 0.0 {
      return Err(InvalidTimeRange);
    }
    CeilIsStartedHours(end - start);
    hours := Ceil(hours) as real;
    return Ok(hours.Floor);
  }

  function CalculatePrice(tariffs: map<int, nat>, parkingId: int, hours: int): Result<int, PriceError> {
    if parkingId <= 0 then Err(ParkingRequired)
    else if hours <= 0 then Err(HoursNotPositive)
    else if parkingId !in tariffs then Err(TariffNotFound)
    else Ok(tariffs[parkingId] * hours)
  }

  /** The number of started hours is the least whole number of hours that covers the stay. */
  lemma StartedHoursIsLeast(duration: int)
    ensures var n := StartedHours(duration); (n - 1) * HOUR < duration <= n * HOUR
  {
  }

  lemma CeilIsStartedHours(duration: int)
    ensures Ceil(duration as real / 3_600_000_000.0) == StartedHours(duration)
  {
    var n := StartedHours(duration);
    var x := duration as real / HOUR as real;
    StartedHoursIsLeast(duration);
    assert x * HOUR as real == duration as real;
    assert (n - 1) as real * HOUR as real < duration as real <= n as real * HOUR as real;
    assert (n - 1) as real < x <= n as real;
  }

  /** The charge covers the exact price of the stay and exceeds it by less than one hour's price. */
  lemma ChargeCoversStay(price: nat, duration: int)
    requires duration > 0
    ensures price * duration <= Charge(price, duration) * HOUR
    ensures price > 0 ==> Charge(price, duration) * HOUR < price * duration + price * HOUR
    ensures Charge(price, duration) >= price
  {
    var n := StartedHours(duration);
    StartedHoursIsLeast(duration);
    assert n >= 1;
    calc {
      Charge(price, duration) * HOUR;
      price * n * HOUR;
      price * (n * HOUR);
    }
    Scale(price, duration, n * HOUR);
    if price > 0 {
      ScaleStrict(price, n * HOUR, duration + HOUR);
      assert price * (duration + HOUR) == price * duration + price * HOUR;
    }
    Scale(price, 1, n);
  }

  lemma Scale(k: nat, a: int, b: int)
    requires a <= b
    ensures k * a <= k * b
  {
  }

  lemma ScaleStrict(k: nat, a: int, b: int)
    requires k > 0 && a < b
    ensures k * a < k * b
  {
  }

  lemma ChargeIsMonotone(price: nat, shorter: int, longer: int)
    requires shorter <= longer
    ensures Charge(price, shorter) <= Charge(price, longer)
  {
    Scale(price, StartedHours(shorter), StartedHours(longer));
  }

  function Sum(pieces: seq<int>): int {
    if pieces == [] then 0 else Sum(pieces[..|pieces| - 1]) + pieces[|pieces| - 1]
  }

  function SumOfCharges(price: nat, pieces: seq<int>): int {
    if pieces == [] then 0 else SumOfCharges(price, pieces[..|pieces| - 1]) + Charge(price, pieces[|pieces| - 1])
  }

  lemma HoursByRemainder(duration: int)
    ensures StartedHours(duration) == duration / HOUR + if duration % HOUR == 0 then 0 else 1
  {
  }

  lemma RemaindersAdd(a: int, b: int)
    ensures (a + b) / HOUR == a / HOUR + b / HOUR + if a % HOUR + b % HOUR >= HOUR then 1 else 0
    ensures (a + b) % HOUR == a % HOUR + b % HOUR - if a % HOUR + b % HOUR >= HOUR then HOUR else 0
  {
  }

  lemma SplitHours(a: int, b: int)
    ensures var x, y, z := StartedHours(a), StartedHours(b), StartedHours(a + b);
            && z <= x + y <= z + 1
            && (x + y == z <==> a % HOUR == 0 || b % HOUR == 0 || a % HOUR + b % HOUR > HOUR)
  {
    HoursByRemainder(a);
    HoursByRemainder(b);
    HoursByRemainder(a + b);
    RemaindersAdd(a, b);
  }

  lemma PriceOfSplit(price: nat, x: int, y: int, z: int)
    requires z <= x + y <= z + 1
    ensures price * z <= price * x + price * y <= price * z + price
    ensures price > 0 ==> (price * x + price * y == price * z <==> x + y == z)
  {
    assert price * x + price * y == price * (x + y);
    if x + y == z + 1 { assert price * (z + 1) == price * z + price; }
  }

  /** When two stays cost the same apart as together: one ends on the hour, or the remainders fill more than one
      hour. */
  lemma SplitInTwoExactly(price: nat, a: int, b: int)
    requires price > 0 && a > 0 && b > 0
    ensures Charge(price, a + b) <= Charge(price, a) + Charge(price, b) <= Charge(price, a + b) + price
    ensures Charge(price, a) + Charge(price, b) == Charge(price, a + b)
        <==> a % HOUR == 0 || b % HOUR == 0 || a % HOUR + b % HOUR > HOUR
  {
    SplitHours(a, b);
    PriceOfSplit(price, StartedHours(a), StartedHours(b), StartedHours(a + b));
  }

  lemma OnePieceCosts(price: nat, d: int)
    ensures Sum([d]) == d && SumOfCharges(price, [d]) == Charge(price, d)
  {
    assert [d][..0] == [];
    assert Sum([]) == 0 && SumOfCharges(price, []) == 0;
  }

  /** One more piece. */
  lemma PieceAdds(price: nat, front: int, last: int, sum: int, n: nat)
    requires front > 0 && last > 0 && n >= 1
    requires Charge(price, front) <= sum <= Charge(price, front) + (n - 1) * price
    ensures Charge(price, front + last) <= sum + Charge(price, last) <= Charge(price, front + last) + n * price
  {
    assert (n - 1) * price + price == n * price;
    if price > 0 { SplitInTwoExactly(price, front, last); }
  }

  /** Cutting a stay into n positive pieces never makes it cheaper and costs at most n - 1 hours more. */
  lemma {:induction false} SplittingCosts(price: nat, pieces: seq<int>)
    requires pieces != [] && forall d | d in pieces :: d > 0
    ensures Sum(pieces) > 0
    ensures Charge(price, Sum(pieces)) <= SumOfCharges(price, pieces)
            <= Charge(price, Sum(pieces)) + (|pieces| - 1) * price
  {
    var front, last := pieces[..|pieces| - 1], pieces[|pieces| - 1];
    assert last in pieces;
    if front == [] {
      assert pieces == [last];
      OnePieceCosts(price, last);
    } else {
      forall d | d in front ensures d > 0 { assert d in pieces; }
      SplittingCosts(price, front);
      PieceAdds(price, Sum(front), last, SumOfCharges(price, front), |front|);
    }
  }

  /** The price of a stay as the parking service computes it from whole started hours, and its refusals. */
  lemma PriceExactly(tariffs: map<int, nat>, parkingId: int, duration: int)
    ensures var r := CalculatePrice(tariffs, parkingId, StartedHours(duration));
            && (r == Err(ParkingRequired) <==> parkingId <= 0)
            && (r == Err(HoursNotPositive) <==> parkingId > 0 && duration <= 0)
            && (r == Err(TariffNotFound) <==> parkingId > 0 && duration > 0 && parkingId !in tariffs)
            && (r.Ok? <==> parkingId > 0 && duration > 0 && parkingId in tariffs)
            && (r.Ok? ==> r.value == Charge(tariffs[parkingId], duration))
  {
    StartedHoursIsLeast(duration);
  }
}
