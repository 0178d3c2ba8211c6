/** Per-venue fee models: `rate * p * (1 - p) * qty`, zero for a sportsbook. */
module Fees {
  import opened Common

  datatype FeeModel = Zero | Quadratic(rate: real)
  {
    /** A rate above one would make a contract dearer as its price falls. */
    predicate Valid() { Quadratic? ==> 0.0 <= rate <= 1.0 }

    function Fee(price: real, qty: real): real {
      match this
      case Zero => 0.0
      case Quadratic(r) => if qty <= 0.0 then 0.0 else r * price * (1.0 - price) * qty
    }

    /** Price of one contract with its fee. */
    function UnitCost(price: real): real { price + Fee(price, 1.0) }
  }

  type Registry = map<Id, FeeModel>

  const KALSHI := Quadratic(0.07)
  const POLYMARKET_US := Quadratic(0.06)
  const NOVIG := Quadratic(0.03)

  lemma FeeNonNegative(f: FeeModel, p: real, q: real)
    requires f.Valid() && 0.0 <= p <= 1.0
    ensures f.Fee(p, q) >= 0.0
  {
    if f.Quadratic? && q > 0.0 {
      MulNonNeg(f.rate, p);
      MulNonNeg(f.rate * p, 1.0 - p);
      MulNonNeg(f.rate * p * (1.0 - p), q);
    }
  }

  /** Fees are linear in quantity, which is what lets one contract's cost
      decide whether any size is profitable. */
  lemma FeeLinear(f: FeeModel, p: real, q: real)
    requires q >= 0.0
    ensures f.Fee(p, q) == f.Fee(p, 1.0) * q
    ensures p * q + f.Fee(p, q) == f.UnitCost(p) * q
  {
  }

  /** A cheaper fill never costs more once its fee is added: the fee can rise as
      the price falls, but by less than the price fell. */
  lemma UnitCostMonotone(f: FeeModel, p: real, p': real)
    requires f.Valid() && 0.0 <= p <= p' <= 1.0
    ensures f.UnitCost(p) <= f.UnitCost(p')
  {
    if f.Quadratic? {
      var r := f.rate;
      var d := p' - p;
      var s := 1.0 - p - p';
      assert p' * (1.0 - p') - p * (1.0 - p) == d * s;
      assert f.UnitCost(p') - f.UnitCost(p) == d + r * (d * s) by {
        assert r * p' * (1.0 - p') - r * p * (1.0 - p) == r * (p' * (1.0 - p') - p * (1.0 - p));
      }
      assert d * s >= -d by { MulNonNeg(d, s + 1.0); assert d * (s + 1.0) == d * s + d; }
      MulAtLeast(r, d * s, d);
    }
  }

  lemma MulAtLeast(r: real, x: real, d: real)
    requires 0.0 <= r <= 1.0 && d >= 0.0 && x >= -d
    ensures r * x >= -d
  {
    MulNonNeg(r, x + d);
    MulNonNeg(1.0 - r, d);
    assert r * (x + d) + (1.0 - r) * d == r * x + d;
  }

  /** The bound on the rate is what the previous lemma rests on: above one,
      some dearer price costs less. */
  lemma UnitCostMonotoneExactly(r: real)
    requires r >= 0.0
    ensures (forall p: real, p': real :: 0.0 <= p <= p' <= 1.0 ==>
               Quadratic(r).UnitCost(p) <= Quadratic(r).UnitCost(p')) <==> r <= 1.0
  {
    if r <= 1.0 {
      forall p: real, p': real | 0.0 <= p <= p' <= 1.0
        ensures Quadratic(r).UnitCost(p) <= Quadratic(r).UnitCost(p')
      {
        UnitCostMonotone(Quadratic(r), p, p');
      }
    } else {
      var p := 1.0 / r;
      var m := (1.0 + p) / 2.0;
      DearestInside(r, p, m);
      assert Quadratic(r).UnitCost(m) > Quadratic(r).UnitCost(1.0);
    }
  }

  lemma DearestInside(r: real, p: real, m: real)
    requires r > 1.0 && r * p == 1.0 && 2.0 * m == 1.0 + p
    ensures 0.0 <= m <= 1.0
    ensures Quadratic(r).UnitCost(m) > 1.0 == Quadratic(r).UnitCost(1.0)
  {
    if p >= 1.0 { MulLe(1.0, p, r); }
    if p <= 0.0 { MulNonNeg(-p, r); }
    MulLt(p, m, r);
    Dearer(r * m, m);
    assert Quadratic(r).UnitCost(m) == m + r * m * (1.0 - m);
    assert Quadratic(r).UnitCost(1.0) == 1.0;
  }

  lemma Dearer(k: real, m: real)
    requires k > 1.0 && m < 1.0
    ensures m + k * (1.0 - m) > 1.0
  {
    var b := 1.0 - m;
    MulLt(1.0, k, b);
    assert k * b > b;
  }

  lemma FeeBelowProceeds(r: real, p: real, q: real)
    requires 0.0 <= r <= 1.0 && 0.0 <= p <= 1.0 && q >= 0.0
    ensures p * q - r * p * (1.0 - p) * q >= 0.0
  {
    var c := 1.0 - p;
    MulLe(r, 1.0, c);
    assert r * c <= 1.0;
    MulNonNeg(p, q);
    MulNonNeg(1.0 - r * c, p * q);
    assert r * p * c * q == (r * c) * (p * q);
    assert (1.0 - r * c) * (p * q) == p * q - (r * c) * (p * q);
  }

  /** Selling at a price never costs more in fees than it brings in. */
  lemma SaleProceedsNonNegative(f: FeeModel, p: real, q: real)
    requires f.Valid() && 0.0 <= p <= 1.0 && q >= 0.0
    ensures p * q - f.Fee(p, q) >= 0.0
  {
    if f.Quadratic? && q > 0.0 {
      FeeBelowProceeds(f.rate, p, q);
    } else {
      MulNonNeg(p, q);
    }
  }
}
