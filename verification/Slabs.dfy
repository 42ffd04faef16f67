/** Income tax under the New Regime slabs, in paise a year. */
module Slabs {

  /** A slab of `limit` paise taxed at `rate`. */
  datatype Slab = Slab(limit: real, rate: real)

  const SLABS: seq<Slab> := [
    Slab(30000000.0, 0.0),
    Slab(40000000.0, 0.05),
    Slab(30000000.0, 0.10),
    Slab(20000000.0, 0.15),
    Slab(30000000.0, 0.20)
  ]

  const TOP_RATE: real := 0.30

  function Max(a: real, b: real): real {
    if a < b then b else a
  }

  function Min(a: real, b: real): real {
    if b < a then b else a
  }

  /** The part of `income` above `floor` that a slab of `limit` can hold. */
  function Within(income: real, floor: real, limit: real): real {
    Max(0.0, Min(income - floor, limit))
  }

  /** The affine function `rate * x - offset`. */
  datatype Line = Line(rate: real, offset: real) {
    function At(x: real): real {
      rate * x - offset
    }
  }

  /** The highest of some lines at `x`. */
  function Highest(lines: seq<Line>, x: real): real
    requires lines != []
  {
    if |lines| == 1 then lines[0].At(x) else Max(lines[0].At(x), Highest(lines[1..], x))
  }

  const TAX_LINES: seq<Line> := [
    Line(0.0, 0.0),
    Line(0.05, 1500000.0),
    Line(0.10, 5000000.0),
    Line(0.15, 10000000.0),
    Line(0.20, 16000000.0),
    Line(0.30, 31000000.0)
  ]

  /** The closed progressive form: the highest of six affine functions of income. */
  function AnnualTax(income: real): real {
    Highest(TAX_LINES, income)
  }

  /** The six lines written out. */
  lemma {:induction false} AnnualTaxExpanded(x: real)
    ensures AnnualTax(x) ==
            Max(0.0,
                Max(0.05 * x - 1500000.0,
                    Max(0.10 * x - 5000000.0,
                        Max(0.15 * x - 10000000.0,
                            Max(0.20 * x - 16000000.0,
                                0.30 * x - 31000000.0)))))
  {
    var l := TAX_LINES;
    assert l[5..] == [l[5]] && l[4..][1..] == l[5..] && l[3..][1..] == l[4..];
    assert l[2..][1..] == l[3..] && l[1..][1..] == l[2..];
    assert Highest(l[5..], x) == 0.30 * x - 31000000.0;
    assert Highest(l[4..], x) == Max(0.20 * x - 16000000.0, Highest(l[5..], x));
    assert Highest(l[3..], x) == Max(0.15 * x - 10000000.0, Highest(l[4..], x));
    assert Highest(l[2..], x) == Max(0.10 * x - 5000000.0, Highest(l[3..], x));
    assert Highest(l[1..], x) == Max(0.05 * x - 1500000.0, Highest(l[2..], x));
  }

  /** Income where slab `i` begins. */
  function Floor(i: nat): real
    requires i <= |SLABS|
  {
    if i == 0 then 0.0 else Floor(i - 1) + SLABS[i - 1].limit
  }

  /** Tax of the part of `income` that lies below slab `i`. */
  function TaxBelow(income: real, i: nat): real
    requires i <= |SLABS|
  {
    if i == 0 then 0.0
    else TaxBelow(income, i - 1) + Within(income, Floor(i - 1), SLABS[i - 1].limit) * SLABS[i - 1].rate
  }

  lemma {:induction false} Floors()
    ensures Floor(0) == 0.0 && Floor(1) == 30000000.0 && Floor(2) == 70000000.0
    ensures Floor(3) == 100000000.0 && Floor(4) == 120000000.0 && Floor(5) == 150000000.0
  {
    assert Floor(1) == Floor(0) + SLABS[0].limit;
    assert Floor(2) == Floor(1) + SLABS[1].limit;
    assert Floor(3) == Floor(2) + SLABS[2].limit;
    assert Floor(4) == Floor(3) + SLABS[3].limit;
    assert Floor(5) == Floor(4) + SLABS[4].limit;
  }

  /** Adding slab by slab, with the rest at the top rate, gives the closed form. */
  lemma {:induction false} SlabSumIsMaximum(income: real)
    ensures TaxBelow(income, 5) + Max(0.0, income - Floor(5)) * TOP_RATE == AnnualTax(income)
  {
    Floors();
    AnnualTaxExpanded(income);
    assert TaxBelow(income, 0) == 0.0;
    assert TaxBelow(income, 1) == 0.0;
    assert TaxBelow(income, 2) == 0.05 * Within(income, 30000000.0, 40000000.0);
    assert TaxBelow(income, 3) == TaxBelow(income, 2) + 0.10 * Within(income, 70000000.0, 30000000.0);
    assert TaxBelow(income, 4) == TaxBelow(income, 3) + 0.15 * Within(income, 100000000.0, 20000000.0);
    assert TaxBelow(income, 5) == TaxBelow(income, 4) + 0.20 * Within(income, 120000000.0, 30000000.0);
  }

  /** Income left over once the slabs below `i` are filled. */
  function Rest(income: real, i: nat): real
    requires i <= |SLABS|
  {
    if income < 0.0 then income else Max(0.0, income - Floor(i))
  }

  lemma {:induction false} FillSlab(income: real, i: nat)
    requires i < |SLABS| && Rest(income, i) > 0.0
    ensures Rest(income, i + 1) == Rest(income, i) - Min(Rest(income, i), SLABS[i].limit)
    ensures TaxBelow(income, i + 1) == TaxBelow(income, i) + Min(Rest(income, i), SLABS[i].limit) * SLABS[i].rate
    ensures 0.0 < SLABS[i].limit
  {
    Floors();
    assert Floor(i + 1) == Floor(i) + SLABS[i].limit;
    assert Within(income, Floor(i), SLABS[i].limit) == Min(Rest(income, i), SLABS[i].limit);
  }

  /** What is left above the last slab is taxed at the top rate. */
  lemma {:induction false} TopSlab(income: real, tax: real, rest: real)
    requires rest == Rest(income, |SLABS|) && tax == TaxBelow(income, |SLABS|)
    ensures (if rest > 0.0 then tax + rest * TOP_RATE else tax) == AnnualTax(income)
  {
    SlabSumIsMaximum(income);
  }

  /** The slab loop of both services before any rounding. `portions` are the slices of
      income it taxes slab by slab; with `rest` they make up the whole income. */
  method SlabTax(income: real) returns (tax: real, ghost portions: seq<real>, rest: real)
    ensures tax == AnnualTax(income)
    ensures Sum(portions) + rest == income
    ensures rest == Rest(income, |SLABS|)
    ensures |portions| <= |SLABS| && forall i :: 0 <= i < |portions| ==> 0.0 < portions[i] <= SLABS[i].limit
  {
    tax, rest, portions := 0.0, income, [];
    var i := 0;
    while i < |SLABS|
      invariant 0 <= i <= |SLABS|
      invariant rest == Rest(income, i) && tax == TaxBelow(income, i)
      invariant |portions| <= i && (rest > 0.0 ==> |portions| == i)
      invariant Sum(portions) + rest == income
      invariant forall k :: 0 <= k < |portions| ==> 0.0 < portions[k] <= SLABS[k].limit
    {
      if rest <= 0.0 {
        NothingAbove(income, i);
        break;
      }
      FillSlab(income, i);
      var taxable := Min(rest, SLABS[i].limit);
      tax := tax + taxable * SLABS[i].rate;
      rest := rest - taxable;
      SumAppend(portions, taxable);
      portions := portions + [taxable];
      i := i + 1;
    }
    TopSlab(income, tax, rest);
    if rest > 0.0 {
      tax := tax + rest * TOP_RATE;
    }
  }

  ghost function Sum(s: seq<real>): real {
    if s == [] then 0.0 else s[0] + Sum(s[1..])
  }

  lemma {:induction false} SumAppend(s: seq<real>, x: real)
    ensures Sum(s + [x]) == Sum(s) + x
  {
    if s == [] {
      assert s + [x] == [x];
    } else {
      assert (s + [x])[1..] == s[1..] + [x];
      SumAppend(s[1..], x);
    }
  }

  /** Once the income is used up, the slabs above add nothing. */
  lemma {:induction false} NothingAbove(income: real, i: nat)
    requires i <= |SLABS| && Rest(income, i) <= 0.0
    ensures TaxBelow(income, i) == TaxBelow(income, |SLABS|) && Rest(income, i) == Rest(income, |SLABS|)
    decreases |SLABS| - i
  {
    Floors();
    if i < |SLABS| {
      assert Floor(i + 1) == Floor(i) + SLABS[i].limit;
      assert TaxBelow(income, i + 1) == TaxBelow(income, i);
      NothingAbove(income, i + 1);
    }
  }

  /** More income never means less tax, and at most 30 paise of each extra rupee. */
  lemma {:induction false} MarginalRate(a: real, b: real)
    requires a <= b
    ensures 0.0 <= AnnualTax(a) <= AnnualTax(b) <= AnnualTax(a) + 0.30 * (b - a)
  {
    AnnualTaxExpanded(a);
    AnnualTaxExpanded(b);
  }

  /** Some line carries the maximum, and every line stays below it everywhere. */
  lemma {:induction false} CarryingLine(lines: seq<Line>, x: real) returns (l: Line)
    requires lines != []
    ensures l in lines && Highest(lines, x) == l.At(x)
    ensures forall y: real :: l.At(y) <= Highest(lines, y)
  {
    l := lines[0];
    if |lines| > 1 {
      var r := CarryingLine(lines[1..], x);
      if l.At(x) < r.At(x) {
        l := r;
      }
    }
  }

  /** The tax schedule is convex. */
  lemma {:induction false} Convex(a: real, b: real, t: real)
    requires 0.0 <= t <= 1.0
    ensures AnnualTax(t * a + (1.0 - t) * b) <= t * AnnualTax(a) + (1.0 - t) * AnnualTax(b)
  {
    var rate, offset := TouchingLine(t * a + (1.0 - t) * b, a, b);
    LineBelowChord(a, b, t, rate, offset, AnnualTax(a), AnnualTax(b));
  }

  /** A line that meets the schedule at `x` and stays below it. */
  lemma {:induction false} TouchingLine(x: real, a: real, b: real) returns (rate: real, offset: real)
    ensures AnnualTax(x) == rate * x - offset
    ensures rate * a - offset <= AnnualTax(a) && rate * b - offset <= AnnualTax(b)
  {
    var l := CarryingLine(TAX_LINES, x);
    rate, offset := l.rate, l.offset;
    assert l.At(a) <= AnnualTax(a) && l.At(b) <= AnnualTax(b);
  }

  lemma {:induction false} LineBelowChord(a: real, b: real, t: real, rate: real, offset: real, ta: real, tb: real)
    requires 0.0 <= t <= 1.0
    requires rate * a - offset <= ta && rate * b - offset <= tb
    ensures rate * (t * a + (1.0 - t) * b) - offset <= t * ta + (1.0 - t) * tb
  {
    var p, q := ta - (rate * a - offset), tb - (rate * b - offset);
    assert 0.0 <= t * p && 0.0 <= (1.0 - t) * q;
    calc {
      t * ta + (1.0 - t) * tb;
      t * (rate * a - offset + p) + (1.0 - t) * (rate * b - offset + q);
      rate * (t * a + (1.0 - t) * b) - offset + t * p + (1.0 - t) * q;
    }
  }

  /** The average rate, tax over income, never falls as income grows. */
  lemma {:induction false} AverageRateNeverFalls(a: real, b: real)
    requires 0.0 < a <= b
    ensures AnnualTax(a) / a <= AnnualTax(b) / b
  {
    var l := CarryingLine(TAX_LINES, a);
    FlatterFromOrigin(a, b, l.rate, l.offset, AnnualTax(a), AnnualTax(b));
  }

  lemma {:induction false} FlatterFromOrigin(a: real, b: real, rate: real, offset: real, ta: real, tb: real)
    requires 0.0 < a <= b && 0.0 <= offset
    requires ta == rate * a - offset && rate * b - offset <= tb
    ensures ta / a <= tb / b
  {
    Dividing(a, b, offset);
    assert ta / a == rate - offset / a;
    assert (rate * b - offset) / b == rate - offset / b;
    Scaling(rate * b - offset, tb, b);
  }

  lemma {:induction false} Dividing(a: real, b: real, offset: real)
    requires 0.0 < a <= b && 0.0 <= offset
    ensures offset / b <= offset / a
  {
    var q := offset / b;
    assert q * b == offset && q >= 0.0;
    assert q * a <= q * b;
    Scaling(q * a, offset, a);
    assert (q * a) / a == q;
  }

  lemma {:induction false} Scaling(x: real, y: real, b: real)
    requires x <= y && 0.0 < b
    ensures x / b <= y / b
  {}
}
