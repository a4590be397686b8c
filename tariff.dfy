/**
 * The court-fee and attorney-fee tariff of the cost calculator
 * (CostCalculator.calculateFees in App.tsx). Amounts are exact rial
 * amounts (`real`), so the bracket algebra is exact.
 *
 * Each fee is written twice: once as the source writes it, a chain of
 * hard-coded bracket formulas, and once as a general marginal-rate sum over a
 * table of bands. The formulas' contracts state that the two agree, and the
 * slope bounds (so continuity and monotonicity) are derived from the general
 * sum. The edge values, the per-bracket forms and the clamp thresholds are
 * computed from the formulas as written.
 */
module Tariff {

  /** The number read from the claim input: NaN, or a finite amount in rials. */
  datatype ClaimValue = NotANumber | Rials(amount: real)

  /** The two figures the calculator shows. */
  datatype Fees = Fees(courtFee: real, attorneyFee: real)

  const CourtFeeEdge: real := 200_000_000.0
  const MinAttorneyFee: real := 5_000_000.0
  const MaxAttorneyFee: real := 20_000_000_000.0

  // ---------------------------------------------------------------------------
  // The formulas as written

  /**
   * The two-bracket court fee. For every value that is not negative it is the
   * marginal-rate fee over (0, 200M] at 2.5% and above 200M at 3.5%.
   */
  function CourtFee(v: real): (r: real)
    ensures 0.0 <= v ==> r == MarginalFee(v, CourtBands)
  {
    var bs := CourtBands;
    assert bs[1..][1..] == [];
    assert MarginalFee(v, bs[1..]) == 0.035 * Portion(v, bs[1]);
    assert MarginalFee(v, bs) == 0.025 * Portion(v, bs[0]) + 0.035 * Portion(v, bs[1]);
    if v <= 200_000_000.0 then v * 0.025
    else (200_000_000.0 * 0.025) + ((v - 200_000_000.0) * 0.035)
  }

  /**
   * The four-bracket attorney fee before the minimum and maximum are applied.
   * For every value that is not negative it is the marginal-rate fee over the
   * bands with edges 500M, 2B and 10B at 8%, 7%, 5% and 4%.
   */
  function AttorneyTariff(v: real): (r: real)
    ensures 0.0 <= v ==> r == MarginalFee(v, AttorneyBands)
  {
    var bs := AttorneyBands;
    assert bs[1..][1..][1..][1..] == [];
    assert MarginalFee(v, bs[1..][1..][1..]) == 0.04 * Portion(v, bs[3]);
    assert MarginalFee(v, bs[1..][1..]) == 0.05 * Portion(v, bs[2]) + 0.04 * Portion(v, bs[3]);
    assert MarginalFee(v, bs) ==
      0.08 * Portion(v, bs[0]) + 0.07 * Portion(v, bs[1])
      + 0.05 * Portion(v, bs[2]) + 0.04 * Portion(v, bs[3]);
    if v <= 500_000_000.0 then v * 0.08
    else if v <= 2_000_000_000.0 then
      (500_000_000.0 * 0.08) + ((v - 500_000_000.0) * 0.07)
    else if v <= 10_000_000_000.0 then
      (500_000_000.0 * 0.08) + (1_500_000_000.0 * 0.07) + ((v - 2_000_000_000.0) * 0.05)
    else
      (500_000_000.0 * 0.08) + (1_500_000_000.0 * 0.07) + (8_000_000_000.0 * 0.05)
      + ((v - 10_000_000_000.0) * 0.04)
  }

  /** Raise to the minimum, then lower to the maximum, in that order. */
  function ClampAttorneyFee(fee: real): (r: real)
    ensures MinAttorneyFee <= r <= MaxAttorneyFee
    ensures MinAttorneyFee <= fee <= MaxAttorneyFee ==> r == fee
    ensures fee < MinAttorneyFee ==> r == MinAttorneyFee
    ensures fee > MaxAttorneyFee ==> r == MaxAttorneyFee
  {
    var raised := if fee < MinAttorneyFee then MinAttorneyFee else fee;
    if raised > MaxAttorneyFee then MaxAttorneyFee else raised
  }

  /** The whole calculation for one input value. */
  function CalculateFees(c: ClaimValue): (r: Fees)
    ensures c.NotANumber? ==> r == Fees(0.0, 0.0)
    ensures c.Rials? && c.amount <= 0.0 ==> r == Fees(0.0, 0.0)
    ensures c.Rials? && c.amount > 0.0 ==>
      0.0 < r.courtFee && MinAttorneyFee <= r.attorneyFee <= MaxAttorneyFee
  {
    if c.NotANumber? || c.amount <= 0.0 then Fees(0.0, 0.0)
    else Fees(CourtFee(c.amount), ClampAttorneyFee(AttorneyTariff(c.amount)))
  }

  // ---------------------------------------------------------------------------
  // The reference definition: a marginal-rate sum over bands

  /** The upper edge of a band: an inclusive limit, or none for the top band. */
  datatype Edge = UpTo(limit: real) | Unbounded

  /** A band of the tariff: amounts above `lower` up to `upper` pay `rate`. */
  datatype Band = Band(lower: real, upper: Edge, rate: real)

  /** The part of the amount v that falls inside band b. */
  function Portion(v: real, b: Band): real {
    if v <= b.lower then 0.0
    else match b.upper
      case UpTo(u) => (if v <= u then v else u) - b.lower
      case Unbounded => v - b.lower
  }

  /** A rate applied to an amount. */
  function Charge(rate: real, amount: real): real {
    rate * amount
  }

  /** Each band charges its own rate on the portion of v inside it. */
  function MarginalFee(v: real, bands: seq<Band>): real {
    if bands == [] then 0.0
    else Charge(bands[0].rate, Portion(v, bands[0])) + MarginalFee(v, bands[1..])
  }

  /** The bands cover [from, infinity) without gap or overlap, in order, the last unbounded. */
  predicate Tiles(bands: seq<Band>, from: real)
    decreases |bands|
  {
    && |bands| > 0
    && bands[0].lower == from
    && match bands[0].upper
       case Unbounded => |bands| == 1
       case UpTo(u) => from < u && Tiles(bands[1..], u)
  }

  /** Every band's rate lies in [lo, hi]. */
  predicate RatesWithin(bands: seq<Band>, lo: real, hi: real) {
    forall i :: 0 <= i < |bands| ==> lo <= bands[i].rate <= hi
  }

  const CourtBands: seq<Band> := [
    Band(0.0, UpTo(200_000_000.0), 0.025),
    Band(200_000_000.0, Unbounded, 0.035)
  ]

  const AttorneyBands: seq<Band> := [
    Band(0.0, UpTo(500_000_000.0), 0.08),
    Band(500_000_000.0, UpTo(2_000_000_000.0), 0.07),
    Band(2_000_000_000.0, UpTo(10_000_000_000.0), 0.05),
    Band(10_000_000_000.0, Unbounded, 0.04)
  ]

  /** A rate in [lo, hi] applied to two amounts differs by between lo and hi times their distance. */
  lemma ChargeStep(r: real, lo: real, hi: real, a: real, c: real)
    requires lo <= r <= hi && a <= c
    ensures lo * (c - a) <= Charge(r, c) - Charge(r, a) <= hi * (c - a)
  {
    assert r * c - r * a == r * (c - a);
    assert lo * (c - a) <= r * (c - a) <= hi * (c - a);
  }

  lemma SplitScale(r: real, x: real, u: real, y: real)
    ensures r * (u - x) + r * (y - u) == r * (y - x)
  {
  }

  /** Within one band, the charge grows by between lo and hi times the distance. */
  lemma InBandSlope(x: real, y: real, b: Band, lo: real, hi: real)
    requires b.lower <= x <= y && lo <= b.rate <= hi
    requires b.upper.UpTo? ==> y <= b.upper.limit
    ensures lo * (y - x) <= Charge(b.rate, Portion(y, b)) - Charge(b.rate, Portion(x, b)) <= hi * (y - x)
  {
    var py, px := y - b.lower, x - b.lower;
    assert Portion(y, b) == py && Portion(x, b) == px;
    ChargeStep(b.rate, lo, hi, px, py);
    assert py - px == y - x;
  }

  /** Bands that start at or above v charge nothing on v. */
  lemma {:induction false} MarginalFeeBelow(v: real, bands: seq<Band>, from: real)
    requires Tiles(bands, from) && v <= from
    ensures MarginalFee(v, bands) == 0.0
  {
    match bands[0].upper
    case Unbounded =>
      assert bands[1..] == [];
    case UpTo(u) =>
      MarginalFeeBelow(v, bands[1..], u);
  }

  /**
   * Between any two amounts at or above the start of a tiling, the fee grows
   * by at least the smallest and at most the largest rate times the distance.
   * So the fee is nondecreasing and continuous (Lipschitz) everywhere.
   */
  lemma {:induction false} MarginalFeeSlope(x: real, y: real, bands: seq<Band>, from: real, lo: real, hi: real)
    requires Tiles(bands, from) && RatesWithin(bands, lo, hi)
    requires from <= x <= y
    ensures lo * (y - x) <= MarginalFee(y, bands) - MarginalFee(x, bands) <= hi * (y - x)
    decreases |bands|
  {
    var b, rest := bands[0], bands[1..];
    assert lo <= b.rate <= hi;
    assert RatesWithin(rest, lo, hi) by {
      forall i | 0 <= i < |rest| ensures lo <= rest[i].rate <= hi {
        assert rest[i] == bands[i + 1];
      }
    }
    match b.upper
    case Unbounded =>
      assert rest == [];
      InBandSlope(x, y, b, lo, hi);
    case UpTo(u) =>
      if y <= u {
        MarginalFeeBelow(x, rest, u);
        MarginalFeeBelow(y, rest, u);
        InBandSlope(x, y, b, lo, hi);
      } else if u <= x {
        assert Portion(x, b) == Portion(y, b);
        MarginalFeeSlope(x, y, rest, u, lo, hi);
      } else {
        MarginalFeeBelow(x, rest, u);
        MarginalFeeBelow(u, rest, u);
        assert Portion(y, b) == Portion(u, b);
        InBandSlope(x, u, b, lo, hi);
        MarginalFeeSlope(u, y, rest, u, lo, hi);
        SplitScale(lo, x, u, y);
        SplitScale(hi, x, u, y);
      }
  }

  // ---------------------------------------------------------------------------
  // The court fee

  /** Up to and including 200,000,000 rials the court fee is 2.5% of the value. */
  lemma CourtFeeLowerBracket(v: real)
    requires 0.0 < v <= CourtFeeEdge
    ensures CourtFee(v) == v * 0.025 && CourtFee(v) <= 5_000_000.0
  {
  }

  /** Above the edge, 3.5% is charged on the excess over the 5,000,000 due at the edge. */
  lemma CourtFeeUpperBracket(v: real)
    requires CourtFeeEdge < v
    ensures CourtFee(CourtFeeEdge) == 5_000_000.0
    ensures CourtFee(v) == CourtFee(CourtFeeEdge) + (v - CourtFeeEdge) * 0.035
  {
  }

  /** The court fee rises by between 2.5% and 3.5% of any increase in value: nondecreasing and continuous. */
  lemma CourtFeeSlope(x: real, y: real)
    requires 0.0 <= x <= y
    ensures 0.025 * (y - x) <= CourtFee(y) - CourtFee(x) <= 0.035 * (y - x)
  {
    MarginalFeeSlope(x, y, CourtBands, 0.0, 0.025, 0.035);
  }

  // ---------------------------------------------------------------------------
  // The attorney fee

  /** The unclamped attorney fee at the three bracket edges. */
  lemma AttorneyTariffAtEdges()
    ensures AttorneyTariff(500_000_000.0) == 40_000_000.0
    ensures AttorneyTariff(2_000_000_000.0) == 145_000_000.0
    ensures AttorneyTariff(10_000_000_000.0) == 545_000_000.0
  {
  }

  /**
   * Inside each bracket the unclamped fee is the fee due at the bracket's
   * lower edge plus the bracket's rate on the excess: each bracket starts
   * exactly where the previous one ends.
   */
  lemma AttorneyTariffByBracket(v: real)
    requires 0.0 < v
    ensures v <= 500_000_000.0 ==> AttorneyTariff(v) == v * 0.08
    ensures 500_000_000.0 < v <= 2_000_000_000.0 ==>
      AttorneyTariff(v) == AttorneyTariff(500_000_000.0) + (v - 500_000_000.0) * 0.07
    ensures 2_000_000_000.0 < v <= 10_000_000_000.0 ==>
      AttorneyTariff(v) == AttorneyTariff(2_000_000_000.0) + (v - 2_000_000_000.0) * 0.05
    ensures 10_000_000_000.0 < v ==>
      AttorneyTariff(v) == AttorneyTariff(10_000_000_000.0) + (v - 10_000_000_000.0) * 0.04
  {
  }

  /** The unclamped attorney fee rises by between 4% and 8% of any increase in value. */
  lemma AttorneyTariffSlope(x: real, y: real)
    requires 0.0 <= x <= y
    ensures 0.04 * (y - x) <= AttorneyTariff(y) - AttorneyTariff(x) <= 0.08 * (y - x)
  {
    MarginalFeeSlope(x, y, AttorneyBands, 0.0, 0.04, 0.08);
  }

  /** The minimum binds exactly below 62,500,000 rials. */
  lemma AttorneyFloorBinds(v: real)
    requires 0.0 < v
    ensures AttorneyTariff(v) < MinAttorneyFee <==> v < 62_500_000.0
  {
  }

  /** The maximum binds exactly above 496,375,000,000 rials. */
  lemma AttorneyCapBinds(v: real)
    requires 0.0 < v
    ensures AttorneyTariff(v) > MaxAttorneyFee <==> v > 496_375_000_000.0
  {
  }

  /** The attorney fee shown for a positive value, in closed form. */
  lemma AttorneyFeeClosedForm(v: real)
    requires 0.0 < v
    ensures CalculateFees(Rials(v)).attorneyFee ==
      if v < 62_500_000.0 then MinAttorneyFee
      else if v > 496_375_000_000.0 then MaxAttorneyFee
      else AttorneyTariff(v)
  {
    AttorneyFloorBinds(v);
    AttorneyCapBinds(v);
  }

  /**
   * Both figures shown are nondecreasing in the claim value, including the
   * step from the zeros shown for a value that is not positive.
   */
  lemma FeesMonotone(x: real, y: real)
    requires x <= y
    ensures CalculateFees(Rials(x)).courtFee <= CalculateFees(Rials(y)).courtFee
    ensures CalculateFees(Rials(x)).attorneyFee <= CalculateFees(Rials(y)).attorneyFee
  {
    if 0.0 < x {
      CourtFeeSlope(x, y);
      AttorneyTariffSlope(x, y);
    }
  }
}
