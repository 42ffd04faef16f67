/** Whole numbers in decimal, and taking texts apart at a separator. */
module Digits {

  predicate IsDigits(s: string) {
    forall i :: 0 <= i < |s| ==> '0' <= s[i] <= '9'
  }

  function Decimal(n: nat): (s: string)
    ensures s != "" && IsDigits(s)
  {
    if n < 10 then [Digit(n)] else Decimal(n / 10) + [Digit(n % 10)]
  }

  function Digit(d: nat): (c: char)
    requires d < 10
    ensures '0' <= c <= '9' && c as int - '0' as int == d
  {
    ('0' as int + d) as char
  }

  /** The number that digits stand for. */
  function Value(s: string): int {
    if s == "" then 0 else Value(s[..|s| - 1]) * 10 + (s[|s| - 1] as int - '0' as int)
  }

  lemma {:induction false} ValueOfDecimal(n: nat)
    ensures Value(Decimal(n)) == n
  {
    if n < 10 {
      assert [Digit(n)][..0] == "";
    } else {
      ValueOfDecimal(n / 10);
      assert Decimal(n)[..|Decimal(n)| - 1] == Decimal(n / 10);
    }
  }

  lemma {:induction false} DecimalInjective(m: nat, n: nat)
    requires Decimal(m) == Decimal(n)
    ensures m == n
  {
    ValueOfDecimal(m);
    ValueOfDecimal(n);
  }

  /** `padStart(width, '0')` */
  function Padded(s: string, width: nat): string
    decreases width - |s|
  {
    if |s| < width then Padded("0" + s, width) else s
  }

  lemma {:induction false} LeadingZero(s: string)
    ensures Value("0" + s) == Value(s)
  {
    if s != "" {
      LeadingZero(s[..|s| - 1]);
      assert ("0" + s)[..|"0" + s| - 1] == "0" + s[..|s| - 1];
    } else {
      assert "0" + s == "0" && "0"[..0] == "";
    }
  }

  /** Padding stops at the width. */
  lemma {:induction false} PaddedLength(s: string, width: nat)
    ensures |Padded(s, width)| == if |s| < width then width else |s|
    ensures |s| >= width ==> Padded(s, width) == s
    decreases width - |s|
  {
    if |s| < width {
      PaddedLength("0" + s, width);
    } else {
    }
  }

  /** A number below 10 has one digit, one below 100 two, and so on. */
  lemma {:induction false} DecimalLength(n: nat, width: nat, most: nat)
    requires width >= 1 && most == Power(width)
    ensures |Decimal(n)| <= width <==> n < most
    decreases width
  {
    if width > 1 {
      if n >= 10 {
        DecimalLength(n / 10, width - 1, Power(width - 1));
      } else {
        AtLeastTen(width);
      }
    } else {
      assert Power(1) == 10 * Power(0);
    }
  }

  function Power(width: nat): nat {
    if width == 0 then 1 else 10 * Power(width - 1)
  }

  lemma {:induction false} AtLeastTen(width: nat)
    requires width >= 1
    ensures Power(width) >= 10
  {
    if width > 1 {
      AtLeastTen(width - 1);
    }
  }

  lemma {:induction false} TwoDigits(a: nat, b: nat)
    requires a < 10 && b < 10
    ensures Value([Digit(a)] + [Digit(b)]) == 10 * a + b
  {
    var both := [Digit(a)] + [Digit(b)];
    assert both[..1] == [Digit(a)] && [Digit(a)][..0] == "";
    assert Value([Digit(a)]) == a;
  }

  /** From 100 on, the last two digits follow those of the hundreds. */
  lemma {:induction false} LastTwo(n: nat)
    requires n >= 100
    ensures Decimal(n) == Decimal(n / 100) + ([Digit(n / 10 % 10)] + [Digit(n % 10)])
  {
    assert n / 10 / 10 == n / 100;
    assert Decimal(n) == Decimal(n / 10) + [Digit(n % 10)];
    assert Decimal(n / 10) == Decimal(n / 100) + [Digit(n / 10 % 10)];
  }

  lemma {:induction false} ValueOfPadded(s: string, width: nat)
    requires IsDigits(s)
    ensures Value(Padded(s, width)) == Value(s) && IsDigits(Padded(s, width))
    decreases width - |s|
  {
    if |s| < width {
      LeadingZero(s);
      ValueOfPadded("0" + s, width);
    } else {
    }
  }

  /** Where a character first occurs. */
  function First(s: string, c: char): (k: nat)
    ensures k <= |s|
  {
    if s == "" || s[0] == c then 0 else 1 + First(s[1..], c)
  }

  /** Where it last occurs, counted from the end. */
  function Last(s: string, c: char): (k: nat)
    ensures k <= |s|
  {
    if s == "" || s[|s| - 1] == c then 0 else 1 + Last(s[..|s| - 1], c)
  }

  lemma {:induction false} FirstAfter(a: string, c: char, r: string)
    requires c !in a
    ensures First(a + [c] + r, c) == |a|
    decreases |a|
  {
    if a != "" {
      FirstAfter(a[1..], c, r);
      assert (a + [c] + r)[1..] == a[1..] + [c] + r;
    } else {
    }
  }

  lemma {:induction false} LastBefore(r: string, c: char, a: string)
    requires c !in a
    ensures Last(r + [c] + a, c) == |a|
    decreases |a|
  {
    if a != "" {
      LastBefore(r, c, a[..|a| - 1]);
      assert (r + [c] + a)[..|r + [c] + a| - 1] == r + [c] + a[..|a| - 1];
    } else {
      assert r + [c] + a == r + [c];
    }
  }

  /** Two texts cut at their first separator. */
  lemma {:induction false} CutAtFirst(a: string, r: string, b: string, q: string, sep: char)
    requires sep !in a && sep !in b && a + [sep] + r == b + [sep] + q
    ensures a == b && r == q
  {
    FirstAfter(a, sep, r);
    FirstAfter(b, sep, q);
    var s := a + [sep] + r;
    assert a == s[..|a|] && b == s[..|b|];
    assert r == s[|a| + 1..] && q == s[|b| + 1..];
  }

  /** And at their last. */
  lemma {:induction false} CutAtLast(r: string, a: string, q: string, b: string, sep: char)
    requires sep !in a && sep !in b && r + [sep] + a == q + [sep] + b
    ensures r == q && a == b
  {
    LastBefore(r, sep, a);
    LastBefore(q, sep, b);
    var s := r + [sep] + a;
    assert r == s[..|r|] && q == s[..|q|];
    assert a == s[|r| + 1..] && b == s[|q| + 1..];
  }
}
