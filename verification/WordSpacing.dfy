/** The spaces between the printed words: single ones, and none left over. */
module WordSpacing {
  import opened Options
  import opened Tokens
  import opened AmountToWords

  /** No two spaces in a row. */
  ghost predicate SingleSpaced(s: string) {
    forall k :: 0 <= k < |s| - 1 ==> s[k] != ' ' || s[k + 1] != ' '
  }

  /** Words, each with one space after it. */
  ghost predicate SpacedWords(s: string) {
    SingleSpaced(s) && EndsSpaced(s) && (s != "" ==> s[0] != ' ')
  }

  lemma {:induction false} WordsAppend(s: string, t: string)
    requires SpacedWords(s) && SpacedWords(t)
    ensures SpacedWords(s + t)
  {
    forall k | 0 <= k < |s + t| - 1 ensures (s + t)[k] != ' ' || (s + t)[k + 1] != ' ' {
      if k < |s| - 1 {
        assert (s + t)[k] == s[k] && (s + t)[k + 1] == s[k + 1];
      } else if k >= |s| {
        assert (s + t)[k] == t[k - |s|] && (s + t)[k + 1] == t[k + 1 - |s|];
      } else {
        assert (s + t)[k + 1] == t[0];
      }
    }
  }

  lemma {:induction false} OneSpaced(s: string)
    requires Spaced(s)
    ensures SpacedWords(s)
  {
    assert forall k :: 0 <= k < |s| - 1 ==> s[k] == s[..|s| - 1][k];
  }

  /** The tables hold words, the ones each with its space. */
  ghost predicate WordTables(p: Printer) {
    && |p.ones| == 20 && |p.tens| == 10
    && (forall i :: 1 <= i < 20 ==> p.ones[i] != "" && SpacedWords(p.ones[i]))
    && forall i :: 2 <= i < 10 ==> SpacedWords(p.tens[i] + " ")
  }

  lemma {:induction false} BlockSpaced(p: Printer, n: nat)
    requires WordTables(p) && n < 2000 && SpacedWords("Hundred ")
    ensures SpacedWords(p.Block(n)) && (n > 0 ==> p.Block(n) != "")
  {
    if n > 99 {
      BlockSpaced(p, n % 100);
      WordsAppend(p.ones[n / 100], "Hundred ");
      WordsAppend(p.ones[n / 100] + "Hundred ", p.Block(n % 100));
    } else if n > 19 {
      BlockSpaced(p, n % 10);
      WordsAppend(p.tens[n / 10] + " ", p.Block(n % 10));
    }
  }

  ghost predicate SpacedQuantities(qs: seq<Quantity>) {
    forall q :: q in qs ==> q.count < 2000 && SpacedWords(q.word)
  }

  lemma {:induction false} OneMorePart(p: Printer, q: Quantity, rest: string)
    requires WordTables(p) && SpacedWords("Hundred ") && q.count < 2000 && SpacedWords(q.word) && SpacedWords(rest)
    ensures var text := p.Part(q.count, q.word) + rest;
            SpacedWords(text) && (q.count > 0 || rest != "" ==> text != "")
  {
    BlockSpaced(p, q.count);
    WordsAppend(p.Block(q.count), q.word);
    WordsAppend(p.Part(q.count, q.word), rest);
  }

  lemma {:induction false} SpelledSpaced(p: Printer, qs: seq<Quantity>)
    requires WordTables(p) && SpacedWords("Hundred ") && SpacedQuantities(qs)
    ensures SpacedWords(p.Spelled(qs))
    ensures (exists q :: q in qs && q.count > 0) ==> p.Spelled(qs) != ""
    decreases |qs|
  {
    if qs != [] {
      SpelledSpaced(p, qs[1..]);
      OneMorePart(p, qs[0], p.Spelled(qs[1..]));
      assert qs == [qs[0]] + qs[1..];
    } else {
    }
  }

  /** Words without the space after the last. */
  ghost predicate Tight(s: string) {
    SingleSpaced(s) && (s != "" ==> s[0] != ' ' && s[|s| - 1] != ' ')
  }

  lemma {:induction false} TrimmedIsTight(s: string)
    requires SpacedWords(s)
    ensures Tight(Trim(s)) && (s != "" ==> Trim(s) != "")
  {
    if s != "" {
      var t := s[..|s| - 1];
      assert s[|s| - 2] != ' ' && t[|t| - 1] == s[|s| - 2];
      assert TrimEnd(t) == t && Trim(s) == t;
      forall k | 0 <= k < |t| - 1 ensures t[k] != ' ' || t[k + 1] != ' ' {
        assert s[k] == t[k] && s[k + 1] == t[k + 1];
      }
    }
  }

  /** A text after another that does not end in a space. */
  lemma {:induction false} Attached(s: string, t: string)
    requires SingleSpaced(s) && SingleSpaced(t) && (s != "" ==> s[|s| - 1] != ' ')
    ensures SingleSpaced(s + t)
  {
    forall k | 0 <= k < |s + t| - 1 ensures (s + t)[k] != ' ' || (s + t)[k + 1] != ' ' {
      if k < |s| - 1 {
        assert (s + t)[k] == s[k] && (s + t)[k + 1] == s[k + 1];
      } else if k >= |s| {
        assert (s + t)[k] == t[k - |s|] && (s + t)[k + 1] == t[k + 1 - |s|];
      }
    }
  }

  lemma {:induction false} FrameSpaced()
    ensures SingleSpaced(" Rupees") && SingleSpaced(" and ") && SingleSpaced(" Paise") && SingleSpaced(" Only")
    ensures SpacedWords("Hundred ") && SpacedWords("Crore ") && SpacedWords("Lakh ") && SpacedWords("Thousand ")
  {}

  lemma {:induction false} EnglishTablesSpaced()
    ensures WordTables(ENGLISH)
  {
    EnglishTablesKnown();
    forall i | 1 <= i < 20 ensures ENGLISH.ones[i] != "" && SpacedWords(ENGLISH.ones[i]) {
      OneSpaced(ENGLISH.ones[i]);
    }
    forall i | 2 <= i < 10 ensures SpacedWords(ENGLISH.tens[i] + " ") {
      var word := ENGLISH.tens[i] + " ";
      assert word[..|word| - 1] == ENGLISH.tens[i];
      OneSpaced(word);
    }
  }

  lemma {:induction false} UnitsAreSpaced(n: nat)
    requires n < 2000 * CRORE
    ensures SpacedQuantities(InUnits(n)) && (n > 0 ==> exists q :: q in InUnits(n) && q.count > 0)
  {
    FrameSpaced();
    var qs := InUnits(n);
    forall q | q in qs ensures q.count < 2000 && SpacedWords(q.word) {
      assert q == qs[0] || q == qs[1] || q == qs[2] || q == qs[3];
    }
    if n > 0 {
      assert qs[0] in qs && qs[1] in qs && qs[2] in qs && qs[3] in qs;
    }
  }

  lemma {:induction false} NumberIsTight(n: nat)
    requires n < 2000 * CRORE
    ensures Tight(Trim(ENGLISH.Spelled(InUnits(n)))) && (n > 0 ==> Trim(ENGLISH.Spelled(InUnits(n))) != "")
  {
    EnglishTablesSpaced();
    FrameSpaced();
    UnitsAreSpaced(n);
    SpelledSpaced(ENGLISH, InUnits(n));
    TrimmedIsTight(ENGLISH.Spelled(InUnits(n)));
  }

  /** A text that ends in a word, put after another one. */
  ghost predicate Closing(s: string) {
    SingleSpaced(s) && s != "" && s[|s| - 1] != ' '
  }

  lemma {:induction false} ClosedBy(s: string, t: string)
    requires SingleSpaced(s) && (s != "" ==> s[|s| - 1] != ' ') && Closing(t)
    ensures Closing(s + t) && (s != "" ==> (s + t)[0] == s[0])
  {
    Attached(s, t);
  }

  lemma {:induction false} AndAttached(and: string, number: string, paise: string)
    requires SingleSpaced(and) && and != "" && Tight(number) && number != "" && Closing(paise)
    ensures Closing(and + number + paise)
  {
    forall k | 0 <= k < |and + number| - 1 ensures (and + number)[k] != ' ' || (and + number)[k + 1] != ' ' {
      if k < |and| - 1 {
        assert (and + number)[k] == and[k] && (and + number)[k + 1] == and[k + 1];
      } else if k >= |and| {
        assert (and + number)[k] == number[k - |and|] && (and + number)[k + 1] == number[k + 1 - |and|];
      } else {
        assert (and + number)[k + 1] == number[0];
      }
    }
    ClosedBy(and + number, paise);
  }

  lemma {:induction false} FrameCloses()
    ensures Closing(" Rupees") && Closing(" Paise") && Closing(" Only")
  {
    FrameSpaced();
  }

  lemma {:induction false} PaisePartCloses(paise: nat)
    requires 0 < paise <= 100
    ensures Closing(ENGLISH.PaisePart(paise))
  {
    FrameSpaced();
    FrameCloses();
    NumberIsTight(paise);
    AndAttached(" and ", Trim(ENGLISH.Spelled(InUnits(paise))), " Paise");
  }

  /** The printed words of an amount below 2000 crore rupees have single spaces between them and none
      at the end; none at the beginning either, unless there are no whole rupees to spell. */
  lemma {:induction false} PrintedSpacing(whole: nat, paise: nat)
    requires whole < 2000 * CRORE && paise <= 100
    ensures Closing(ENGLISH.Amount(whole, paise)) && (whole > 0 ==> ENGLISH.Amount(whole, paise)[0] != ' ')
  {
    var number := Trim(ENGLISH.Spelled(InUnits(whole)));
    NumberIsTight(whole);
    FrameCloses();
    ClosedBy(number, " Rupees");
    if paise > 0 {
      PaisePartCloses(paise);
      ClosedBy(number + " Rupees", ENGLISH.PaisePart(paise));
    } else {
      assert number + " Rupees" + "" == number + " Rupees";
    }
    ClosedBy(number + " Rupees" + ENGLISH.PaisePart(paise), " Only");
  }
}
