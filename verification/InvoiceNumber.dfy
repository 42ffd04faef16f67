/** Invoice numbers: a Redis counter for each tenant and financial year, printed with at least
    four digits. Months count from 0, so April is 3. */
module InvoiceNumber {
  import opened Digits

  datatype Request = Request(tenant: string, year: nat, month: nat)

  predicate IsDate(r: Request) {
    r.month < 12 && r.year >= 1
  }

  /** JavaScript's `slice(2)`. */
  function Slice2(s: string): string {
    if |s| >= 2 then s[2..] else ""
  }

  function FinancialYear(year: nat, month: nat): string
    requires year >= 1
  {
    if month >= 3 then Decimal(year) + "-" + Slice2(Decimal(year + 1))
    else Decimal(year - 1) + "-" + Slice2(Decimal(year))
  }

  function Key(tenant: string, financialYear: string): string {
    "invoice_seq:" + tenant + ":" + financialYear
  }

  function KeyOf(r: Request): string
    requires IsDate(r)
  {
    Key(r.tenant, FinancialYear(r.year, r.month))
  }

  function Printed(financialYear: string, sequence: nat): string {
    "INV-" + financialYear + "-" + Padded(Decimal(sequence), 4)
  }

  type Counters = map<string, nat>

  /** A counter that is not there counts from zero. */
  function Count(counters: Counters, key: string): nat {
    if key in counters then counters[key] else 0
  }

  function After(counters: Counters, r: Request): Counters
    requires IsDate(r)
  {
    counters[KeyOf(r) := Count(counters, KeyOf(r)) + 1]
  }

  function NumberFor(counters: Counters, r: Request): string
    requires IsDate(r)
  {
    Printed(FinancialYear(r.year, r.month), Count(counters, KeyOf(r)) + 1)
  }

  class InvoiceNumberService {
    var counters: Counters

    constructor ()
      ensures counters == map[]
    {
      counters := map[];
    }

    method Incr(key: string) returns (n: nat)
      modifies this
      ensures n == Count(old(counters), key) + 1 && counters == old(counters)[key := n]
    {
      n := 1;
      if key in counters {
        n := counters[key] + 1;
      }
      counters := counters[key := n];
    }

    method GenerateNextInvoiceNumber(r: Request) returns (number: string)
      requires IsDate(r)
      modifies this
      ensures number == NumberFor(old(counters), r) && counters == After(old(counters), r)
    {
      var financialYear;
      if r.month >= 3 {
        financialYear := Decimal(r.year) + "-" + Slice2(Decimal(r.year + 1));
      } else {
        financialYear := Decimal(r.year - 1) + "-" + Slice2(Decimal(r.year));
      }
      var sequence := Incr("invoice_seq:" + r.tenant + ":" + financialYear);
      number := "INV-" + financialYear + "-" + Padded(Decimal(sequence), 4);
    }
  }

  // ----- The financial year -----

  /** The year in which a financial year starts. */
  function StartYear(r: Request): nat
    requires IsDate(r)
  {
    if r.month >= 3 then r.year else r.year - 1
  }

  lemma {:induction false} NoDash(n: nat)
    ensures '-' !in Decimal(n) && ':' !in Decimal(n)
  {}

  /** From April to March the printed financial year is one and the same, and it is another in
      any other twelve months. */
  lemma {:induction false} FinancialYearsDiffer(r: Request, q: Request)
    requires IsDate(r) && IsDate(q)
    ensures FinancialYear(r.year, r.month) == FinancialYear(q.year, q.month) <==> StartYear(r) == StartYear(q)
  {
    var y, z := StartYear(r), StartYear(q);
    assert FinancialYear(r.year, r.month) == Decimal(y) + ['-'] + Slice2(Decimal(y + 1));
    assert FinancialYear(q.year, q.month) == Decimal(z) + ['-'] + Slice2(Decimal(z + 1));
    if FinancialYear(r.year, r.month) == FinancialYear(q.year, q.month) {
      NoDash(y);
      NoDash(z);
      CutAtFirst(Decimal(y), Slice2(Decimal(y + 1)), Decimal(z), Slice2(Decimal(z + 1)), '-');
      DecimalInjective(y, z);
    }
  }

  /** For years of four digits: the year in which the financial year starts, a dash, and the last two
      digits of the next one. */
  lemma {:induction false} YearInFigures(r: Request)
    requires IsDate(r) && 1000 <= StartYear(r) <= 9998
    ensures var text, y := FinancialYear(r.year, r.month), StartYear(r);
            && |text| == 7 && Value(text[..4]) == y && text[4] == '-' && Value(text[5..]) == (y + 1) % 100
            && IsDigits(text[..4]) && IsDigits(text[5..])
  {
    var y := StartYear(r);
    FourDigits(y);
    ValueOfDecimal(y);
    NextYear(y + 1);
    YearInParts(FinancialYear(r.year, r.month), Decimal(y), Slice2(Decimal(y + 1)));
  }

  lemma {:induction false} NextYear(n: nat)
    requires 1000 < n < 10000
    ensures |Slice2(Decimal(n))| == 2 && Value(Slice2(Decimal(n))) == n % 100 && IsDigits(Slice2(Decimal(n)))
  {
    LastTwo(n);
    FourDigits(n);
    TwoDigits(n / 10 % 10, n % 10);
    Tens(n);
    TailReads(Decimal(n), Decimal(n / 100), [Digit(n / 10 % 10)] + [Digit(n % 10)], n % 100);
  }

  lemma {:induction false} Tens(n: nat)
    ensures 10 * (n / 10 % 10) + n % 10 == n % 100
  {}

  lemma {:induction false} TailReads(text: string, head: string, tail: string, value: int)
    requires text == head + tail && |text| == 4 && |tail| == 2 && Value(tail) == value && IsDigits(tail)
    ensures |Slice2(text)| == 2 && Value(Slice2(text)) == value && IsDigits(Slice2(text))
  {
    AfterTwo(head, tail);
  }

  lemma {:induction false} AfterTwo(head: string, tail: string)
    requires |head + tail| == 4 && |tail| == 2
    ensures Slice2(head + tail) == tail
  {}

  lemma {:induction false} YearInParts(text: string, first: string, second: string)
    requires text == first + "-" + second && |first| == 4 && |second| == 2
    ensures |text| == 7 && text[..4] == first && text[4] == '-' && text[5..] == second
  {}

  lemma {:induction false} FourDigits(n: nat)
    requires 1000 <= n < 10000
    ensures |Decimal(n)| == 4
  {
    assert Power(1) == 10 && Power(2) == 100 && Power(3) == 1000 && Power(4) == 10000;
    DecimalLength(n, 3, 1000);
    DecimalLength(n, 4, 10000);
  }

  /** The sequence number comes last, in four digits, or in as many as it has from 10000 on. */
  lemma {:induction false} NumberInFigures(financialYear: string, n: nat)
    ensures var text, tail := Printed(financialYear, n), Padded(Decimal(n), 4);
            && text == "INV-" + financialYear + "-" + tail && IsDigits(tail) && Value(tail) == n
            && (n < 10000 ==> |tail| == 4) && (n >= 10000 ==> tail == Decimal(n))
  {
    assert Power(1) == 10 && Power(2) == 100 && Power(3) == 1000 && Power(4) == 10000;
    DecimalLength(n, 4, 10000);
    PaddedLength(Decimal(n), 4);
    ValueOfDecimal(n);
    ValueOfPadded(Decimal(n), 4);
  }

  lemma {:induction false} SequenceReads(n: nat)
    ensures Value(Padded(Decimal(n), 4)) == n && '-' !in Padded(Decimal(n), 4)
  {
    ValueOfDecimal(n);
    ValueOfPadded(Decimal(n), 4);
  }

  /** The printed number determines its financial year and its sequence number, also past 9999. */
  lemma {:induction false} PrintedInjective(f: string, m: nat, g: string, n: nat)
    requires Printed(f, m) == Printed(g, n)
    ensures f == g && m == n
  {
    SequenceReads(m);
    SequenceReads(n);
    assert Printed(f, m) == ("INV-" + f) + ['-'] + Padded(Decimal(m), 4);
    assert Printed(g, n) == ("INV-" + g) + ['-'] + Padded(Decimal(n), 4);
    CutAtLast("INV-" + f, Padded(Decimal(m), 4), "INV-" + g, Padded(Decimal(n), 4), '-');
    assert ("INV-" + f)[4..] == f && ("INV-" + g)[4..] == g;
  }

  lemma {:induction false} KeyInjective(t: string, f: string, u: string, g: string)
    requires Key(t, f) == Key(u, g) && ':' !in f && ':' !in g
    ensures t == u && f == g
  {
    assert Key(t, f) == ("invoice_seq:" + t) + [':'] + f;
    assert Key(u, g) == ("invoice_seq:" + u) + [':'] + g;
    CutAtLast("invoice_seq:" + t, f, "invoice_seq:" + u, g, ':');
    assert ("invoice_seq:" + t)[12..] == t && ("invoice_seq:" + u)[12..] == u;
  }

  lemma {:induction false} NoColonInYear(r: Request)
    requires IsDate(r)
    ensures ':' !in FinancialYear(r.year, r.month)
  {
    NoDash(StartYear(r));
    NoDash(StartYear(r) + 1);
  }

  predicate SameSeries(r: Request, q: Request)
    requires IsDate(r) && IsDate(q)
  {
    r.tenant == q.tenant && StartYear(r) == StartYear(q)
  }

  lemma {:induction false} SameKey(r: Request, q: Request)
    requires IsDate(r) && IsDate(q)
    ensures KeyOf(r) == KeyOf(q) <==> SameSeries(r, q)
  {
    FinancialYearsDiffer(r, q);
    if KeyOf(r) == KeyOf(q) {
      NoColonInYear(r);
      NoColonInYear(q);
      KeyInjective(r.tenant, FinancialYear(r.year, r.month), q.tenant, FinancialYear(q.year, q.month));
    }
  }

  // ----- Runs -----

  ghost predicate IsRun(run: seq<Request>) {
    forall k :: 0 <= k < |run| ==> IsDate(run[k])
  }

  function AfterAll(run: seq<Request>): Counters
    requires IsRun(run)
  {
    if run == [] then map[] else After(AfterAll(run[..|run| - 1]), run[|run| - 1])
  }

  function SequenceAt(run: seq<Request>, k: nat): nat
    requires IsRun(run) && k < |run|
  {
    Count(AfterAll(run[..k]), KeyOf(run[k])) + 1
  }

  /** The number that the service gives to the k-th request. */
  function NumberAt(run: seq<Request>, k: nat): string
    requires IsRun(run) && k < |run|
  {
    NumberFor(AfterAll(run[..k]), run[k])
  }

  lemma {:induction false} NumberShowsSequence(run: seq<Request>, k: nat)
    requires IsRun(run) && k < |run|
    ensures NumberAt(run, k) == Printed(FinancialYear(run[k].year, run[k].month), SequenceAt(run, k))
  {}

  /** How many requests of this series came before. */
  function Earlier(run: seq<Request>, r: Request): nat
    requires IsRun(run) && IsDate(r)
  {
    if run == [] then 0
    else Earlier(run[..|run| - 1], r) + if SameSeries(run[|run| - 1], r) then 1 else 0
  }

  lemma {:induction false} CounterCounts(run: seq<Request>, r: Request)
    requires IsRun(run) && IsDate(r)
    ensures Count(AfterAll(run), KeyOf(r)) == Earlier(run, r)
    decreases |run|
  {
    if run != [] {
      var before, last := run[..|run| - 1], run[|run| - 1];
      CounterCounts(before, r);
      SameKey(last, r);
    } else {
    }
  }

  /** Numbering has no gaps and counts nobody else's invoices: a request gets the number after
      those of the earlier requests of its tenant and financial year. */
  lemma {:induction false} Consecutive(run: seq<Request>, k: nat)
    requires IsRun(run) && k < |run|
    ensures NumberAt(run, k) == Printed(FinancialYear(run[k].year, run[k].month), Earlier(run[..k], run[k]) + 1)
  {
    NumberShowsSequence(run, k);
    SequenceCounts(run, k);
  }

  lemma {:induction false} SequenceCounts(run: seq<Request>, k: nat)
    requires IsRun(run) && k < |run|
    ensures SequenceAt(run, k) == Earlier(run[..k], run[k]) + 1
  {
    CounterCounts(run[..k], run[k]);
  }

  lemma {:induction false} EarlierGrows(run: seq<Request>, j: nat, k: nat, r: Request)
    requires IsRun(run) && j < k <= |run| && IsDate(r) && SameSeries(run[j], r)
    ensures Earlier(run[..j], r) < Earlier(run[..k], r)
    decreases k
  {
    assert run[..k][..k - 1] == run[..k - 1];
    if j < k - 1 {
      EarlierGrows(run, j, k - 1, r);
    } else {
    }
  }

  lemma {:induction false} SequencesApart(run: seq<Request>, j: nat, k: nat)
    requires IsRun(run) && j < k < |run| && SameSeries(run[j], run[k])
    ensures SequenceAt(run, j) != SequenceAt(run, k)
  {
    SequenceCounts(run, j);
    SequenceCounts(run, k);
    SameSeriesAlike(run[..j], run[j], run[k]);
    EarlierGrows(run, j, k, run[k]);
  }

  lemma {:induction false} PrintedApart(r: Request, m: nat, q: Request, n: nat)
    requires IsDate(r) && IsDate(q) && r.tenant == q.tenant && (SameSeries(r, q) ==> m != n)
    ensures Printed(FinancialYear(r.year, r.month), m) != Printed(FinancialYear(q.year, q.month), n)
  {
    FinancialYearsDiffer(r, q);
    if Printed(FinancialYear(r.year, r.month), m) == Printed(FinancialYear(q.year, q.month), n) {
      PrintedInjective(FinancialYear(r.year, r.month), m, FinancialYear(q.year, q.month), n);
    }
  }

  /** Over any run, the numbers generated for one tenant are pairwise distinct. */
  lemma {:induction false} NumbersDistinct(run: seq<Request>, j: nat, k: nat)
    requires IsRun(run) && j < k < |run| && run[j].tenant == run[k].tenant
    ensures NumberAt(run, j) != NumberAt(run, k)
  {
    if SameSeries(run[j], run[k]) {
      SequencesApart(run, j, k);
    }
    NumberShowsSequence(run, j);
    NumberShowsSequence(run, k);
    PrintedApart(run[j], SequenceAt(run, j), run[k], SequenceAt(run, k));
  }

  lemma {:induction false} SameSeriesAlike(run: seq<Request>, r: Request, q: Request)
    requires IsRun(run) && IsDate(r) && IsDate(q) && SameSeries(r, q)
    ensures Earlier(run, r) == Earlier(run, q)
    decreases |run|
  {
    if run != [] {
      SameSeriesAlike(run[..|run| - 1], r, q);
    } else {
    }
  }
}
