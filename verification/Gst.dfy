/** GST of invoice lines, the invoice totals, and the monthly summary by rate. Amounts are in
    paise: exact ones real, rounded ones whole. */
module Gst {
  import opened Options
  import opened Rounding

  /** A line as it is ordered: the rate is in rupees, the discount and GST rate in percent. */
  datatype Line = Line(quantity: real, rate: real, discount: real, gstRate: Option<real>)

  /** A line as it is stored; the GST rate in hundredths of a percent. */
  datatype Taxed = Taxed(gstRate: int, amount: int, cgst: int, sgst: int, igst: int)

  datatype Totals = Totals(subtotal: int, cgst: int, sgst: int, igst: int, total: int)

  /** `item.gstRate || 18`: no rate and the rate 0 both become 18. */
  function RateOf(line: Line): real {
    if line.gstRate == None || line.gstRate.value == 0.0 then 18.0 else line.gstRate.value
  }

  /** The column keeps two decimals of the rate. */
  function StoredRate(line: Line): int {
    HalfUp(RateOf(line) * 100.0)
  }

  /** The taxable value before rounding. */
  function Exact(line: Line): real {
    var gross := line.quantity * line.rate * 100.0;
    gross - gross * line.discount / 100.0
  }

  function Percent(amount: real, rate: real): real {
    amount * rate / 100.0
  }

  function ItemGst(line: Line, interState: bool): Taxed {
    var amount, rate := HalfEven(Exact(line)), RateOf(line);
    if interState then Taxed(StoredRate(line), amount, 0, 0, HalfEven(Percent(amount as real, rate)))
    else
      var half := HalfEven(Percent(amount as real, rate / 2.0));
      Taxed(StoredRate(line), amount, half, half, 0)
  }

  function ItemsGst(lines: seq<Line>, interState: bool): seq<Taxed> {
    seq(|lines|, i requires 0 <= i < |lines| => ItemGst(lines[i], interState))
  }

  function Plus(t: Totals, l: Taxed): Totals {
    Totals(t.subtotal + l.amount, t.cgst + l.cgst, t.sgst + l.sgst, t.igst + l.igst,
           t.total + l.amount + l.cgst + l.sgst + l.igst)
  }

  function TotalsOf(lines: seq<Taxed>): Totals {
    if lines == [] then Totals(0, 0, 0, 0, 0) else Plus(TotalsOf(lines[..|lines| - 1]), lines[|lines| - 1])
  }

  /** The totals are the sums of the columns; rounding the grand total to the paisa changes nothing. */
  method SummarizeInvoice(items: seq<Taxed>) returns (t: Totals)
    ensures t == TotalsOf(items)
    ensures t.total == t.subtotal + t.cgst + t.sgst + t.igst
  {
    var subtotal, cgst, sgst, igst := 0, 0, 0, 0;
    for n := 0 to |items|
      invariant TotalsOf(items[..n]) == Totals(subtotal, cgst, sgst, igst, subtotal + cgst + sgst + igst)
    {
      subtotal, cgst, sgst, igst := subtotal + items[n].amount, cgst + items[n].cgst, sgst + items[n].sgst,
          igst + items[n].igst;
      assert items[..n + 1][..n] == items[..n];
    }
    assert items[..|items|] == items;
    HalfEvenWhole(subtotal + cgst + sgst + igst);
    var total := HalfEven((subtotal + cgst + sgst + igst) as real);
    t := Totals(subtotal, cgst, sgst, igst, total);
  }

  // ----- A line in the figures it is made from -----

  lemma {:induction false} ExactInFigures(line: Line)
    ensures Exact(line) == line.quantity * line.rate * (100.0 - line.discount)
  {
    var rupees := line.quantity * line.rate;
    assert rupees * 100.0 * line.discount / 100.0 == rupees * line.discount;
  }

  /** The amount is what is left of quantity times rate after the discount in percent, in paise
      rounded to the even one. */
  lemma {:induction false} AmountInFigures(line: Line, interState: bool)
    ensures ItemGst(line, interState).amount == HalfEven(line.quantity * line.rate * (100.0 - line.discount))
  {
    ExactInFigures(line);
  }

  /** The tax is this share of the amount, rounded to the even paisa. */
  ghost predicate IsShare(tax: int, amount: real, rate: real, outOf: real)
    requires outOf > 0.0
  {
    tax == HalfEven(amount * rate / outOf)
  }

  lemma {:induction false} WholeTax(amount: real, rate: real)
    ensures IsShare(HalfEven(Percent(amount, rate)), amount, rate, 100.0)
  {}

  lemma {:induction false} HalfTax(amount: real, rate: real)
    ensures IsShare(HalfEven(Percent(amount, rate / 2.0)), amount, rate, 200.0)
  {
    assert Percent(amount, rate / 2.0) == amount * rate / 200.0;
  }

  /** Across states the tax is the rate's percentage of the amount, as IGST; within the state half
      of it, as CGST and again as SGST. */
  lemma {:induction false} TaxInFigures(line: Line, interState: bool)
    ensures var l, rate := ItemGst(line, interState), RateOf(line);
            if interState then l.cgst == l.sgst == 0 && IsShare(l.igst, l.amount as real, rate, 100.0)
            else l.cgst == l.sgst && IsShare(l.cgst, l.amount as real, rate, 200.0) && l.igst == 0
  {
    WholeTax(HalfEven(Exact(line)) as real, RateOf(line));
    HalfTax(HalfEven(Exact(line)) as real, RateOf(line));
  }

  lemma {:induction false} LessForMore(rupees: real, less: real, more: real)
    requires rupees >= 0.0 && less <= more
    ensures rupees * (100.0 - more) <= rupees * (100.0 - less)
  {}

  /** A larger discount never raises the amount, and 100% leaves nothing to pay. */
  lemma {:induction false} DiscountLowers(line: Line, more: real, interState: bool)
    requires line.quantity >= 0.0 && line.rate >= 0.0 && line.discount <= more
    ensures ItemGst(line.(discount := more), interState).amount <= ItemGst(line, interState).amount
    ensures more == 100.0 ==>
              ItemGst(line.(discount := more), interState) == Taxed(StoredRate(line), 0, 0, 0, 0)
  {
    ExactInFigures(line);
    ExactInFigures(line.(discount := more));
    LessForMore(line.quantity * line.rate, line.discount, more);
    HalfEvenMonotone(Exact(line.(discount := more)), Exact(line));
    if more == 100.0 {
      HalfEvenWhole(0);
      assert Percent(0.0, RateOf(line)) == Percent(0.0, RateOf(line) / 2.0) == 0.0;
    }
  }

  // ----- How close the roundings stay -----

  ghost predicate Nearest(n: int, x: real) {
    -0.5 <= n as real - x <= 0.5
  }

  /** A line is taxed once: across states by IGST alone, within the state by CGST and SGST in
      equal halves; every amount is a nearest paisa. The tax is that of the applied rate, not of
      the rate as it is stored. */
  lemma {:induction false} TaxedOnce(line: Line, interState: bool)
    ensures var l, rate := ItemGst(line, interState), RateOf(line);
            && Nearest(l.amount, Exact(line)) && Nearest(l.gstRate, rate * 100.0) && rate != 0.0
            && (interState ==> l.cgst == l.sgst == 0 && Nearest(l.igst, Percent(l.amount as real, rate)))
            && (!interState ==>
                  l.igst == 0 && l.cgst == l.sgst && Nearest(l.cgst, Percent(l.amount as real, rate) / 2.0))
  {
    var amount, rate := HalfEven(Exact(line)) as real, RateOf(line);
    HalfEvenNear(Exact(line));
    HalfUpNear(rate * 100.0);
    HalvesOfPercent(amount, rate);
    HalfEvenNear(Percent(amount, rate));
    HalfEvenNear(Percent(amount, rate / 2.0));
  }

  lemma {:induction false} HalfUpNear(x: real)
    ensures Nearest(HalfUp(x), x)
  {}

  lemma {:induction false} HalvesOfPercent(amount: real, rate: real)
    ensures Percent(amount, rate) == 2.0 * Percent(amount, rate / 2.0)
  {}

  /** A line at no rate, or at a rate of 0, is taxed and stored as one at 18%, and with six paise
      or more to tax that is a tax. */
  lemma {:induction false} ZeroIsEighteen(line: Line, interState: bool)
    requires line.gstRate == None || line.gstRate == Some(0.0)
    ensures ItemGst(line, interState) == ItemGst(line.(gstRate := Some(18.0)), interState)
    ensures ItemGst(line, interState).amount >= 6 ==> Tax(ItemGst(line, interState)) > 0
  {
    var amount := HalfEven(Exact(line)) as real;
    assert Exact(line.(gstRate := Some(18.0))) == Exact(line);
    HalvesOfPercent(amount, 18.0);
    HalfEvenNear(Percent(amount, 18.0));
    HalfEvenNear(Percent(amount, 9.0));
  }

  /** Twice the rounded half is within a paisa of the rounded whole. */
  lemma {:induction false} TwoHalves(y: real)
    ensures -1 <= 2 * HalfEven(y) - HalfEven(2.0 * y) <= 1
  {
    HalfEvenNear(y);
    HalfEvenNear(2.0 * y);
  }

  function Tax(l: Taxed): int {
    l.cgst + l.sgst + l.igst
  }

  function TaxOf(t: Totals): int {
    t.cgst + t.sgst + t.igst
  }

  lemma {:induction false} LineTaxedEitherWay(line: Line)
    ensures -1 <= Tax(ItemGst(line, false)) - Tax(ItemGst(line, true)) <= 1
    ensures ItemGst(line, false).amount == ItemGst(line, true).amount
  {
    var amount, rate := HalfEven(Exact(line)) as real, RateOf(line);
    HalvesOfPercent(amount, rate);
    TwoHalves(Percent(amount, rate / 2.0));
  }

  lemma {:induction false} ItemsGstLast(lines: seq<Line>, interState: bool)
    requires lines != []
    ensures ItemsGst(lines, interState) ==
            ItemsGst(lines[..|lines| - 1], interState) + [ItemGst(lines[|lines| - 1], interState)]
  {}

  lemma {:induction false} TotalsGrow(lines: seq<Line>, interState: bool)
    requires lines != []
    ensures TotalsOf(ItemsGst(lines, interState)) ==
            Plus(TotalsOf(ItemsGst(lines[..|lines| - 1], interState)), ItemGst(lines[|lines| - 1], interState))
  {
    ItemsGstLast(lines, interState);
    var all := ItemsGst(lines, interState);
    assert all[..|all| - 1] == ItemsGst(lines[..|lines| - 1], interState);
  }

  lemma {:induction false} OneMoreLine(t: Totals, l: Taxed, u: Totals, k: Taxed, n: nat)
    requires t.subtotal == u.subtotal && l.amount == k.amount
    requires t.total - u.total <= n && u.total - t.total <= n && -1 <= Tax(l) - Tax(k) <= 1
    ensures Plus(t, l).subtotal == Plus(u, k).subtotal
    ensures Plus(t, l).total - Plus(u, k).total <= n + 1 && Plus(u, k).total - Plus(t, l).total <= n + 1
  {}

  /** The same n lines taxed within the state and across states differ by at most n paise. */
  lemma {:induction false} TaxedEitherWay(lines: seq<Line>)
    ensures var within, across := TotalsOf(ItemsGst(lines, false)), TotalsOf(ItemsGst(lines, true));
            && within.subtotal == across.subtotal
            && within.total - across.total <= |lines| && across.total - within.total <= |lines|
    decreases |lines|
  {
    if lines != [] {
      var before, last := lines[..|lines| - 1], lines[|lines| - 1];
      TaxedEitherWay(before);
      TotalsGrow(lines, false);
      TotalsGrow(lines, true);
      LineTaxedEitherWay(last);
      OneMoreLine(TotalsOf(ItemsGst(before, false)), ItemGst(last, false), TotalsOf(ItemsGst(before, true)),
          ItemGst(last, true), |before|);
    } else {
      assert ItemsGst(lines, false) == ItemsGst(lines, true) == [];
    }
  }

  /** A line with its tax, unrounded. */
  function ExactTotal(line: Line): real {
    Exact(line) + Percent(Exact(line), RateOf(line))
  }

  function ExactTotals(lines: seq<Line>): real {
    if lines == [] then 0.0 else ExactTotals(lines[..|lines| - 1]) + ExactTotal(lines[|lines| - 1])
  }

  lemma {:induction false} NotNegative(a: real, b: real)
    requires a >= 0.0 && b >= 0.0
    ensures a * b >= 0.0
  {}

  lemma {:induction false} PercentOfError(e: real, rate: real)
    requires -0.5 <= e <= 0.5 && 0.0 <= rate <= 100.0
    ensures -0.5 <= Percent(e, rate) <= 0.5
  {
    NotNegative(0.5 - e, rate);
    NotNegative(0.5 + e, rate);
    assert (0.5 - e) * rate == 0.5 * rate - e * rate && (0.5 + e) * rate == 0.5 * rate + e * rate;
  }

  lemma {:induction false} PercentAdds(a: real, b: real, rate: real)
    ensures Percent(a + b, rate) == Percent(a, rate) + Percent(b, rate)
  {}

  lemma {:induction false} LineNearExact(line: Line, interState: bool)
    requires 0.0 <= RateOf(line) <= 100.0
    ensures var l := ItemGst(line, interState); -2.0 <= (l.amount + Tax(l)) as real - ExactTotal(line) <= 2.0
  {
    var l, exact, rate := ItemGst(line, interState), Exact(line), RateOf(line);
    HalfEvenNear(exact);
    var e := l.amount as real - exact;
    PercentOfError(e, rate);
    PercentAdds(exact, e, rate);
    assert exact + e == l.amount as real;
    HalvesOfPercent(l.amount as real, rate);
    HalfEvenNear(Percent(l.amount as real, rate));
    HalfEvenNear(Percent(l.amount as real, rate / 2.0));
  }

  /** The total of n lines is within 2n paise of the unrounded value, for GST rates up to 100%. */
  lemma {:induction false} TotalNearExact(lines: seq<Line>, interState: bool)
    requires forall l :: l in lines ==> 0.0 <= RateOf(l) <= 100.0
    ensures var error := TotalsOf(ItemsGst(lines, interState)).total as real - ExactTotals(lines);
            -2.0 * |lines| as real <= error <= 2.0 * |lines| as real
    decreases |lines|
  {
    if lines != [] {
      var before := lines[..|lines| - 1];
      TotalNearExact(before, interState);
      TotalsGrow(lines, interState);
      LineNearExact(lines[|lines| - 1], interState);
    } else {
      assert ItemsGst(lines, interState) == [];
    }
  }

  /** A positive amount, discount up to 100% and GST rate that is not negative: nothing negative. */
  lemma {:induction false} LineNotNegative(line: Line, interState: bool)
    requires line.quantity >= 0.0 && line.rate >= 0.0 && line.discount <= 100.0 && RateOf(line) >= 0.0
    ensures var l := ItemGst(line, interState); l.amount >= 0 && l.cgst >= 0 && l.sgst >= 0 && l.igst >= 0
  {
    var gross, rate := line.quantity * line.rate * 100.0, RateOf(line);
    assert line.quantity * line.rate >= 0.0;
    assert gross * line.discount <= gross * 100.0;
    var amount := HalfEven(Exact(line));
    HalfEvenNear(Exact(line));
    assert amount >= 0;
    assert amount as real * rate >= 0.0;
    HalvesOfPercent(amount as real, rate);
    HalfEvenNear(Percent(amount as real, rate));
    HalfEvenNear(Percent(amount as real, rate / 2.0));
  }

  // ----- The monthly summary -----

  /** An invoice as the summary reads it: its stored totals and its items. */
  datatype Bill = Bill(totals: Totals, items: seq<Taxed>)

  /** What create and update leave in an invoice. */
  ghost predicate Adds(b: Bill) {
    b.totals == TotalsOf(b.items)
  }

  datatype Bucket = Bucket(rate: int, taxable: int, cgst: int, sgst: int, igst: int)

  function InBucket(b: Bucket, l: Taxed): Bucket {
    b.(taxable := b.taxable + l.amount, cgst := b.cgst + l.cgst, sgst := b.sgst + l.sgst, igst := b.igst + l.igst)
  }

  /** All items of this rate, added up. */
  function OfRate(rate: int, items: seq<Taxed>): Bucket {
    if items == [] then Bucket(rate, 0, 0, 0, 0)
    else
      var before, last := OfRate(rate, items[..|items| - 1]), items[|items| - 1];
      if last.gstRate == rate then InBucket(before, last) else before
  }

  function ItemsOf(bills: seq<Bill>): seq<Taxed> {
    if bills == [] then [] else ItemsOf(bills[..|bills| - 1]) + bills[|bills| - 1].items
  }

  /** The rates in the order in which they first occur. */
  function RatesIn(items: seq<Taxed>): seq<int> {
    if items == [] then []
    else
      var before, rate := RatesIn(items[..|items| - 1]), items[|items| - 1].gstRate;
      if rate in before then before else before + [rate]
  }

  function Buckets(items: seq<Taxed>): seq<Bucket> {
    seq(|RatesIn(items)|, i requires 0 <= i < |RatesIn(items)| => OfRate(RatesIn(items)[i], items))
  }

  function SumTotals(bills: seq<Bill>): Totals {
    if bills == [] then Totals(0, 0, 0, 0, 0)
    else
      var before, t := SumTotals(bills[..|bills| - 1]), bills[|bills| - 1].totals;
      Totals(before.subtotal + t.subtotal, before.cgst + t.cgst, before.sgst + t.sgst, before.igst + t.igst,
          before.total + t.total)
  }

  datatype Summary = Summary(totals: Totals, totalTax: int, byRate: seq<Bucket>)

  /** A map that remembers the order in which its keys were set, as JavaScript's does. */
  datatype RateMap = RateMap(keys: seq<int>, buckets: map<int, Bucket>)

  ghost predicate Collects(m: RateMap, items: seq<Taxed>) {
    && m.keys == RatesIn(items)
    && (forall i :: 0 <= i < |m.keys| ==> m.keys[i] in m.buckets)
    && (forall r :: r in m.buckets ==> r in m.keys)
    && forall r :: r in m.buckets ==> m.buckets[r] == OfRate(r, items)
  }

  method AddItem(m: RateMap, item: Taxed, ghost before: seq<Taxed>) returns (n: RateMap)
    requires Collects(m, before)
    ensures Collects(n, before + [item])
  {
    var rate := item.gstRate;
    var keys, buckets := m.keys, m.buckets;
    if rate !in buckets {
      keys, buckets := keys + [rate], buckets[rate := Bucket(rate, 0, 0, 0, 0)];
      NoneOfRate(rate, before);
    }
    assert buckets[rate] == OfRate(rate, before);
    n := RateMap(keys, buckets[rate := InBucket(buckets[rate], item)]);
    forall r ensures OfRate(r, before + [item]) ==
                     if r == rate then InBucket(OfRate(r, before), item) else OfRate(r, before) {
      assert (before + [item])[..|before|] == before;
    }
    assert RatesIn(before + [item]) == keys by {
      assert (before + [item])[..|before|] == before;
    }
  }

  lemma {:induction false} NoneOfRate(rate: int, items: seq<Taxed>)
    requires rate !in RatesIn(items)
    ensures OfRate(rate, items) == Bucket(rate, 0, 0, 0, 0)
    decreases |items|
  {
    if items != [] {
      NoneOfRate(rate, items[..|items| - 1]);
    } else {
    }
  }

  method AddItems(m: RateMap, items: seq<Taxed>, ghost before: seq<Taxed>) returns (n: RateMap)
    requires Collects(m, before)
    ensures Collects(n, before + items)
  {
    n := m;
    assert before + items[..0] == before;
    for k := 0 to |items|
      invariant Collects(n, before + items[..k])
    {
      n := AddItem(n, items[k], before + items[..k]);
      assert before + items[..k + 1] == before + items[..k] + [items[k]];
    }
    assert items[..|items|] == items;
  }

  method GetGstSummary(bills: seq<Bill>) returns (s: Summary)
    ensures s.totals == SumTotals(bills)
    ensures s.totalTax == TaxOf(s.totals)
    ensures s.byRate == Buckets(ItemsOf(bills))
  {
    var subtotal, cgst, sgst, igst, total := 0, 0, 0, 0, 0;
    var m := RateMap([], map[]);
    for n := 0 to |bills|
      invariant SumTotals(bills[..n]) == Totals(subtotal, cgst, sgst, igst, total)
      invariant Collects(m, ItemsOf(bills[..n]))
    {
      var t := bills[n].totals;
      subtotal, cgst, sgst, igst, total := subtotal + t.subtotal, cgst + t.cgst, sgst + t.sgst, igst + t.igst,
          total + t.total;
      m := AddItems(m, bills[n].items, ItemsOf(bills[..n]));
      assert bills[..n + 1][..n] == bills[..n];
    }
    assert bills[..|bills|] == bills;
    var keys, buckets := m.keys, m.buckets;
    assert forall i :: 0 <= i < |keys| ==> keys[i] in buckets;
    var values := seq(|keys|, i requires 0 <= i < |keys| => buckets[keys[i]]);
    s := Summary(Totals(subtotal, cgst, sgst, igst, total), cgst + sgst + igst, values);
  }

  lemma {:induction false} RatesDistinct(items: seq<Taxed>)
    ensures forall i, j :: 0 <= i < j < |RatesIn(items)| ==> RatesIn(items)[i] != RatesIn(items)[j]
    ensures forall l :: l in items ==> l.gstRate in RatesIn(items)
    decreases |items|
  {
    if items != [] {
      var before, last := items[..|items| - 1], items[|items| - 1];
      RatesDistinct(before);
      assert items == before + [last];
    } else {
    }
  }

  function SumBuckets(bs: seq<Bucket>): Totals {
    if bs == [] then Totals(0, 0, 0, 0, 0)
    else
      WithBucket(SumBuckets(bs[..|bs| - 1]), bs[|bs| - 1])
  }

  function WithBucket(t: Totals, b: Bucket): Totals {
    Totals(t.subtotal + b.taxable, t.cgst + b.cgst, t.sgst + b.sgst, t.igst + b.igst,
           t.total + b.taxable + b.cgst + b.sgst + b.igst)
  }

  function BucketsFor(rates: seq<int>, items: seq<Taxed>): seq<Bucket> {
    seq(|rates|, i requires 0 <= i < |rates| => OfRate(rates[i], items))
  }

  lemma {:induction false} PlusMoves(t: Totals, b: Bucket, l: Taxed)
    ensures WithBucket(t, InBucket(b, l)) == WithBucket(Plus(t, l), b) == Plus(WithBucket(t, b), l)
  {}

  /** Adding one item to distinct buckets, one of which is of its rate. */
  lemma {:induction false} OneMoreItem(rates: seq<int>, items: seq<Taxed>, item: Taxed)
    requires forall i, j :: 0 <= i < j < |rates| ==> rates[i] != rates[j]
    ensures SumBuckets(BucketsFor(rates, items + [item])) ==
            if item.gstRate in rates then Plus(SumBuckets(BucketsFor(rates, items)), item)
            else SumBuckets(BucketsFor(rates, items))
    decreases |rates|
  {
    if rates != [] {
      var init, rate := rates[..|rates| - 1], rates[|rates| - 1];
      OneMoreItem(init, items, item);
      BucketsLast(rates, items);
      BucketsLast(rates, items + [item]);
      OneMoreOfRate(rate, items, item);
      PlusMoves(SumBuckets(BucketsFor(init, items)), OfRate(rate, items), item);
      InLast(rates, item.gstRate);
    } else {
      assert BucketsFor(rates, items) == BucketsFor(rates, items + [item]) == [];
    }
  }

  lemma {:induction false} InLast(rates: seq<int>, rate: int)
    requires rates != [] && forall i, j :: 0 <= i < j < |rates| ==> rates[i] != rates[j]
    ensures rate in rates <==> rate in rates[..|rates| - 1] || rate == rates[|rates| - 1]
    ensures rates[|rates| - 1] !in rates[..|rates| - 1]
  {
    assert rates == rates[..|rates| - 1] + [rates[|rates| - 1]];
  }

  lemma {:induction false} OneMoreOfRate(rate: int, items: seq<Taxed>, item: Taxed)
    ensures OfRate(rate, items + [item]) ==
            if item.gstRate == rate then InBucket(OfRate(rate, items), item) else OfRate(rate, items)
  {
    assert (items + [item])[..|items|] == items;
  }

  lemma {:induction false} BucketsLast(rates: seq<int>, items: seq<Taxed>)
    requires rates != []
    ensures SumBuckets(BucketsFor(rates, items)) ==
            WithBucket(SumBuckets(BucketsFor(rates[..|rates| - 1], items)), OfRate(rates[|rates| - 1], items))
  {
    var all := BucketsFor(rates, items);
    assert all[..|all| - 1] == BucketsFor(rates[..|rates| - 1], items);
  }

  /** The totals of one line: its own amounts. */
  lemma {:induction false} TotalsOfOne(l: Taxed)
    ensures TotalsOf([l]) == Totals(l.amount, l.cgst, l.sgst, l.igst, l.amount + l.cgst + l.sgst + l.igst)
  {
    assert [l][..0] == [];
  }

  function OnlyRate(rate: int, items: seq<Taxed>): seq<Taxed> {
    if items == [] then []
    else
      var before, last := OnlyRate(rate, items[..|items| - 1]), items[|items| - 1];
      if last.gstRate == rate then before + [last] else before
  }

  /** A bucket has the totals of the items of its rate. */
  lemma {:induction false} BucketIsTotal(rate: int, items: seq<Taxed>)
    ensures var b, t := OfRate(rate, items), TotalsOf(OnlyRate(rate, items));
            b == Bucket(rate, t.subtotal, t.cgst, t.sgst, t.igst)
    decreases |items|
  {
    if items != [] {
      BucketIsTotal(rate, items[..|items| - 1]);
      var before, last := OnlyRate(rate, items[..|items| - 1]), items[|items| - 1];
      assert (before + [last])[..|before|] == before;
    } else {
    }
  }

  /** The buckets share out the items: they add up to the items' totals. */
  lemma {:induction false} BucketsAddUp(items: seq<Taxed>)
    ensures SumBuckets(Buckets(items)) == TotalsOf(items)
    decreases |items|
  {
    assert Buckets(items) == BucketsFor(RatesIn(items), items);
    if items != [] {
      var before, last := items[..|items| - 1], items[|items| - 1];
      assert items == before + [last];
      BucketsAddUp(before);
      assert Buckets(before) == BucketsFor(RatesIn(before), before);
      RatesDistinct(before);
      OneMoreItem(RatesIn(before), before, last);
      if last.gstRate !in RatesIn(before) {
        NoneOfRate(last.gstRate, before);
        BucketsLast(RatesIn(items), items);
      }
    } else {
    }
  }

  lemma {:induction false} TotalsAppend(a: seq<Taxed>, b: seq<Taxed>)
    ensures var t, u, v := TotalsOf(a), TotalsOf(b), TotalsOf(a + b);
            v == Totals(t.subtotal + u.subtotal, t.cgst + u.cgst, t.sgst + u.sgst, t.igst + u.igst, t.total + u.total)
    decreases |b|
  {
    if b == [] {
      assert a + b == a;
    } else {
      TotalsAppend(a, b[..|b| - 1]);
      assert (a + b)[..|a + b| - 1] == a + b[..|b| - 1];
    }
  }

  lemma {:induction false} SumOfBills(bills: seq<Bill>)
    requires forall b :: b in bills ==> Adds(b)
    ensures SumTotals(bills) == TotalsOf(ItemsOf(bills))
    decreases |bills|
  {
    if bills != [] {
      var before, last := bills[..|bills| - 1], bills[|bills| - 1];
      SumOfBills(before);
      TotalsAppend(ItemsOf(before), last.items);
      assert Adds(last);
    } else {
    }
  }

  lemma {:induction false} TotalIsSum(items: seq<Taxed>)
    ensures var t := TotalsOf(items); t.total == t.subtotal + t.cgst + t.sgst + t.igst
    decreases |items|
  {
    if items != [] {
      TotalIsSum(items[..|items| - 1]);
    } else {
    }
  }

  /** When every invoice's totals are the sums of its items, the summary shares tax out by rate:
      one bucket for each rate that occurs, together making up the overall totals, and the
      total with tax is the taxable value plus the tax. */
  lemma {:induction false} SummaryPartitions(bills: seq<Bill>)
    requires forall b :: b in bills ==> Adds(b)
    ensures var items := ItemsOf(bills);
            && (forall i, j :: 0 <= i < j < |Buckets(items)| ==> Buckets(items)[i].rate != Buckets(items)[j].rate)
            && (forall l :: l in items ==> exists b :: b in Buckets(items) && b.rate == l.gstRate)
            && SumBuckets(Buckets(items)) == SumTotals(bills)
            && SumTotals(bills).total == SumTotals(bills).subtotal + TaxOf(SumTotals(bills))
  {
    var items := ItemsOf(bills);
    SumOfBills(bills);
    BucketsAddUp(items);
    TotalIsSum(items);
    RatesDistinct(items);
    forall r ensures OfRate(r, items).rate == r {
      RateOfBucket(r, items);
    }
    forall l | l in items ensures exists b :: b in Buckets(items) && b.rate == l.gstRate {
      var i :| 0 <= i < |RatesIn(items)| && RatesIn(items)[i] == l.gstRate;
      assert Buckets(items)[i] in Buckets(items);
    }
  }

  lemma {:induction false} RateOfBucket(rate: int, items: seq<Taxed>)
    ensures OfRate(rate, items).rate == rate
    decreases |items|
  {
    if items != [] {
      RateOfBucket(rate, items[..|items| - 1]);
    } else {
    }
  }
}
