/** The amount printer in Indian numbering, and a reader that undoes it. */
module AmountToWords {
  import opened Options
  import opened Tokens

  const CRORE := 10000000
  const LAKH := 100000
  const THOUSAND := 1000

  /** So many of a unit, and the word for it. */
  datatype Quantity = Quantity(count: nat, size: nat, word: string)

  function InUnits(n: nat): seq<Quantity> {
    [Quantity(n / CRORE, CRORE, "Crore "),
     Quantity(n % CRORE / LAKH, LAKH, "Lakh "),
     Quantity(n % CRORE % LAKH / THOUSAND, THOUSAND, "Thousand "),
     Quantity(n % CRORE % LAKH % THOUSAND, 1, "")]
  }

  /** JavaScript's remainder takes the sign of the dividend. */
  function Rem(a: int, b: nat): int
    requires b > 0
  {
    if a >= 0 then a % b else -(-a % b)
  }

  /** What there is to spell of a number: nothing of a negative one. */
  function Positive(n: int): nat {
    if n > 0 then n else 0
  }

  /** `Math.round` of the paise left over from the whole rupees; it can reach 100. */
  function PaiseOf(rupees: real): (p: nat)
    ensures p <= 100
  {
    ((rupees - rupees.Floor as real) * 100.0 + 0.5).Floor
  }

  /** The printer with its two word tables: `ones` up to nineteen, each word with a space
      after it, and `tens`. */
  datatype Printer = Printer(ones: seq<string>, tens: seq<string>) {

    /** Reading past the end of a table yields `undefined`, which prints as such. */
    static function Entry(table: seq<string>, i: nat): string {
      if i < |table| then table[i] else "undefined"
    }

    // What is printed, as functions.

    function Block(n: nat): string {
      if n > 99 then Entry(ones, n / 100) + "Hundred " + Block(n % 100)
      else if n > 19 then Entry(tens, n / 10) + " " + Block(n % 10)
      else if n > 0 then Entry(ones, n)
      else ""
    }

    function Part(n: nat, unit: string): string {
      if n > 0 then Block(n) + unit else ""
    }

    /** The quantities in turn. */
    function Spelled(qs: seq<Quantity>): string {
      if qs == [] then "" else Part(qs[0].count, qs[0].word) + Spelled(qs[1..])
    }

    function Amount(whole: int, paise: nat): string {
      Trim(Spelled(InUnits(Positive(whole)))) + " Rupees" + PaisePart(paise) + " Only"
    }

    function PaisePart(paise: nat): string {
      if paise > 0 then " and " + Trim(Spelled(InUnits(paise))) + " Paise" else ""
    }

    function Printed(zero: bool, whole: int, paise: nat): string {
      if zero then "Zero Rupees Only" else Amount(whole, paise)
    }

    // The printer as it runs.

    method ConvertBlock(number: nat) returns (str: string)
      ensures str == Block(number)
    {
      str := "";
      var n := number;
      if n > 99 {
        str := str + Entry(ones, n / 100) + "Hundred ";
        n := n % 100;
      }
      assert Block(number) == str + Block(n);
      if n > 19 {
        str := str + Entry(tens, n / 10) + " ";
        n := n % 10;
      }
      assert Block(number) == str + Block(n);
      if n > 0 {
        str := str + Entry(ones, n);
      }
    }

    /** One line of the printer: append a unit only when there is something of it. */
    method AppendUnit(str: string, n: int, word: string) returns (longer: string)
      ensures longer == str + Part(Positive(n), word)
    {
      longer := str;
      if n > 0 {
        var block := ConvertBlock(n);
        longer := longer + (block + word);
      }
    }

    method SpellUnits(crore: int, lakh: int, thousand: int, hundred: int) returns (str: string)
      ensures str == Part(Positive(crore), "Crore ") + Part(Positive(lakh), "Lakh ")
                     + Part(Positive(thousand), "Thousand ") + Part(Positive(hundred), "")
    {
      str := AppendUnit("", crore, "Crore ");
      str := AppendUnit(str, lakh, "Lakh ");
      str := AppendUnit(str, thousand, "Thousand ");
      str := AppendUnit(str, hundred, "");
    }

    method ConvertAmount(amount: int) returns (str: string)
      ensures str == Trim(Spelled(InUnits(Positive(amount))))
    {
      var num := amount;
      var crore := num / CRORE;
      num := Rem(num, CRORE);
      var lakh := num / LAKH;
      num := Rem(num, LAKH);
      var thousand := num / THOUSAND;
      num := Rem(num, THOUSAND);
      var hundred := num;
      Remainders(amount);
      str := SpellUnits(crore, lakh, thousand, hundred);
      SpelledInFull(InUnits(Positive(amount)));
      str := Trim(str);
    }

    /** Successive remainders of a positive number; a negative one leaves nothing to spell. */
    static lemma {:induction false} Remainders(amount: int)
      ensures var n := Positive(amount);
              var a, b := Rem(amount, CRORE), Rem(Rem(amount, CRORE), LAKH);
              && Positive(amount / CRORE) == n / CRORE
              && Positive(a / LAKH) == n % CRORE / LAKH
              && Positive(b / THOUSAND) == n % CRORE % LAKH / THOUSAND
              && Positive(Rem(b, THOUSAND)) == n % CRORE % LAKH % THOUSAND
    {}

    lemma {:induction false} SpelledInFull(qs: seq<Quantity>)
      requires |qs| == 4
      ensures Spelled(qs) == Part(qs[0].count, qs[0].word) + Part(qs[1].count, qs[1].word)
                             + Part(qs[2].count, qs[2].word) + Part(qs[3].count, qs[3].word)
    {
      assert qs[1..][1..] == qs[2..] && qs[2..][1..] == qs[3..] && qs[3..][1..] == [];
      InOrder(Part(qs[0].count, qs[0].word), Part(qs[1].count, qs[1].word),
              Part(qs[2].count, qs[2].word), Part(qs[3].count, qs[3].word));
      assert Spelled(qs[3..]) == Part(qs[3].count, qs[3].word) + "";
      assert Spelled(qs[2..]) == Part(qs[2].count, qs[2].word) + Spelled(qs[3..]);
      assert Spelled(qs[1..]) == Part(qs[1].count, qs[1].word) + Spelled(qs[2..]);
    }

    static lemma {:induction false} InOrder(a: string, b: string, c: string, d: string)
      ensures a + (b + (c + (d + ""))) == a + b + c + d
    {
      assert d + "" == d;
      assert b + (c + d) == b + c + d;
    }

    method Print(rupees: real) returns (words: string)
      ensures words == Printed(rupees == 0.0, rupees.Floor, PaiseOf(rupees))
    {
      if rupees == 0.0 {
        return "Zero Rupees Only";
      }
      var wholeNumber := rupees.Floor;
      var paise := ((rupees - wholeNumber as real) * 100.0 + 0.5).Floor;
      var text := ConvertAmount(wholeNumber);
      words := text + " Rupees";
      words := AppendPaise(words, paise);
      words := words + " Only";
    }

    method AppendPaise(words: string, paise: nat) returns (longer: string)
      ensures longer == words + PaisePart(paise)
    {
      longer := words;
      if paise > 0 {
        var text := ConvertAmount(paise);
        longer := longer + (" and " + text + " Paise");
      }
    }
  }

  const ENGLISH := Printer(
    ["", "One ", "Two ", "Three ", "Four ", "Five ", "Six ", "Seven ", "Eight ", "Nine ",
     "Ten ", "Eleven ", "Twelve ", "Thirteen ", "Fourteen ", "Fifteen ", "Sixteen ", "Seventeen ", "Eighteen ",
     "Nineteen "],
    ["", "", "Twenty", "Thirty", "Forty", "Fifty", "Sixty", "Seventy", "Eighty", "Ninety"])

  // ----- The reader -----

  /** What a word means. */
  datatype Meaning = Add(n: nat) | Hundred | Unit(size: nat) | Rupees | And | Paise | Only | Zero

  function Number(w: string): nat {
    if w == "One" then 1 else if w == "Two" then 2 else if w == "Three" then 3 else if w == "Four" then 4
    else if w == "Five" then 5 else if w == "Six" then 6 else if w == "Seven" then 7 else if w == "Eight" then 8
    else if w == "Nine" then 9 else if w == "Ten" then 10 else if w == "Eleven" then 11 else if w == "Twelve" then 12
    else if w == "Thirteen" then 13 else if w == "Fourteen" then 14 else if w == "Fifteen" then 15
    else if w == "Sixteen" then 16 else if w == "Seventeen" then 17 else if w == "Eighteen" then 18
    else if w == "Nineteen" then 19 else if w == "Twenty" then 20 else if w == "Thirty" then 30
    else if w == "Forty" then 40 else if w == "Fifty" then 50 else if w == "Sixty" then 60
    else if w == "Seventy" then 70 else if w == "Eighty" then 80 else if w == "Ninety" then 90 else 0
  }

  function MeaningOf(w: string): Option<Meaning> {
    var n := Number(w);
    if n > 0 then Some(Add(n))
    else if w == "Hundred" then Some(Hundred)
    else if w == "Crore" then Some(Unit(CRORE))
    else if w == "Lakh" then Some(Unit(LAKH))
    else if w == "Thousand" then Some(Unit(THOUSAND))
    else if w == "Rupees" then Some(Rupees)
    else if w == "and" then Some(And)
    else if w == "Paise" then Some(Paise)
    else if w == "Only" then Some(Only)
    else if w == "Zero" then Some(Zero)
    else None
  }

  /** Where in a text the reader is: in the rupees, after a zero, after the rupees, in the paise,
      before the last word, or at the end. */
  datatype Place = InRupees | AfterZero | AfterRupees | InPaise | BeforeOnly | AtEnd

  /** The rupees once they are closed; of the number being read the closed units, the size that the
      next unit must be below, the open block, and the number that the next word must be below. */
  datatype Reading = Reading(place: Place, rupees: nat, units: nat, below: nat, block: nat, room: nat)

  const TOP := 10 * CRORE

  /** At the beginning of a number. */
  function Fresh(place: Place, rupees: nat): Reading {
    Reading(place, rupees, 0, TOP, 0, 100)
  }

  const BEGINNING := Fresh(InRupees, 0)

  predicate InNumber(r: Reading) {
    r.place == InRupees || r.place == InPaise
  }

  /** Crores are counted up to 1999, the smaller units up to 99. */
  function Most(size: nat): nat {
    if size == CRORE then 2000 else 100
  }

  /** Only the words that may come next are read: tens at the beginning of a block or after its
      hundreds, ones after tens or instead of them, a hundred after ones alone, units in descending
      order and never of nothing, and the words of the frame in their places. */
  function Step(r: Reading, m: Meaning): Option<Reading> {
    match m
    case Add(n) =>
      if InNumber(r) && n < r.room then Some(r.(block := r.block + n, room := if n < 20 then 0 else 10)) else None
    case Hundred =>
      if InNumber(r) && r.room == 0 && r.block < 20 then Some(r.(block := 100 * r.block, room := 100)) else None
    case Unit(size) =>
      if InNumber(r) && 0 < r.block < Most(size) && size < r.below
      then Some(r.(units := r.units + r.block * size, below := size, block := 0, room := 100))
      else None
    case Rupees =>
      if r.place == InRupees && r.block < 1000 then Some(Fresh(AfterRupees, r.units + r.block))
      else if r.place == AfterZero then Some(Fresh(BeforeOnly, 0))
      else None
    case And => if r.place == AfterRupees then Some(Fresh(InPaise, r.rupees)) else None
    case Paise =>
      if r.place == InPaise && r.units == 0 && 0 < r.block <= 100 then Some(r.(place := BeforeOnly)) else None
    case Only =>
      if r.place == AfterRupees || r.place == BeforeOnly then Some(r.(place := AtEnd)) else None
    case Zero => if r == BEGINNING then Some(r.(place := AfterZero)) else None
  }

  /** A reader knows the meaning of some words. */
  datatype Reader = Reader(meaning: string -> Option<Meaning>) {

    function Next(r: Option<Reading>, word: string): Option<Reading> {
      if r == None || meaning(word) == None then None else Step(r.value, meaning(word).value)
    }

    /** Reading a text word by word. */
    function ReadText(r: Option<Reading>, text: string): Option<Reading>
      decreases |text|
    {
      if text == "" then r
      else if text[0] == ' ' then ReadText(r, text[1..])
      else ReadText(Next(r, text[..WordEnd(text)]), text[WordEnd(text)..])
    }

    /** The amount in paise that a text spells, if it is a whole text of known words in order. */
    function Read(text: string): Option<nat> {
      match ReadText(Some(BEGINNING), text)
      case None => None
      case Some(r) => if r.place == AtEnd then Some(r.rupees * 100 + r.block) else None
    }
  }

  const READER := Reader(MeaningOf)

  // ----- Reading undoes printing -----

  lemma {:induction false} ReadTextAppend(reader: Reader, r: Option<Reading>, s: string, t: string)
    requires Apart(s, t)
    ensures reader.ReadText(r, s + t) == reader.ReadText(reader.ReadText(r, s), t)
    decreases |s|
  {
    if s == "" {
      assert s + t == t;
    } else if t == "" {
      assert s + t == s;
    } else if s[0] == ' ' {
      ReadTextAppend(reader, r, s[1..], t);
      assert (s + t)[1..] == s[1..] + t;
    } else {
      var k := WordEnd(s);
      WordEndAppend(s, t);
      ReadTextAppend(reader, reader.Next(r, s[..k]), s[k..], t);
      assert (s + t)[..k] == s[..k] && (s + t)[k..] == s[k..] + t;
    }
  }

  lemma {:induction false} ReadNone(reader: Reader, text: string)
    ensures reader.ReadText(None, text) == None
    decreases |text|
  {
    if text != "" {
      ReadNone(reader, if text[0] == ' ' then text[1..] else text[WordEnd(text)..]);
    }
  }

  lemma {:induction false} ReadNothing(reader: Reader, r: Option<Reading>)
    ensures reader.ReadText(r, "") == reader.ReadText(r, " ") == r
  {
    assert " "[1..] == "";
  }

  ghost predicate IsWord(w: string) {
    w != "" && ' ' !in w
  }

  lemma {:induction false} ReadWord(reader: Reader, r: Option<Reading>, w: string)
    requires IsWord(w)
    ensures reader.ReadText(r, w) == reader.ReadText(r, w + " ") == reader.ReadText(r, " " + w) == reader.Next(r, w)
  {
    WordEndOfWord(w);
    assert w[..|w|] == w && w[|w|..] == "";
    ReadNothing(reader, reader.Next(r, w));
    ReadNothing(reader, r);
    ReadTextAppend(reader, r, w, " ");
    ReadTextAppend(reader, r, " ", w);
  }

  ghost predicate EndsSpaced(s: string) {
    s == "" || s[|s| - 1] == ' '
  }

  /** `s` is a word with a space after it. */
  ghost predicate Spaced(s: string) {
    |s| > 1 && s[|s| - 1] == ' ' && IsWord(s[..|s| - 1])
  }

  lemma {:induction false} ReadSpaced(reader: Reader, r: Option<Reading>, s: string)
    requires Spaced(s)
    ensures reader.ReadText(r, s) == reader.Next(r, s[..|s| - 1])
  {
    ReadWord(reader, r, s[..|s| - 1]);
    assert s == s[..|s| - 1] + " ";
  }

  lemma {:induction false} ReadLeading(reader: Reader, r: Option<Reading>, s: string)
    requires |s| > 1 && s[0] == ' ' && IsWord(s[1..])
    ensures reader.ReadText(r, s) == reader.Next(r, s[1..])
  {
    ReadWord(reader, r, s[1..]);
    assert s == " " + s[1..];
  }

  /** The reader knows every word of the printer's tables. */
  ghost predicate KnowsTables(reader: Reader, p: Printer) {
    && |p.ones| == 20 && |p.tens| == 10 && p.ones[0] == ""
    && (forall i :: 1 <= i < 20 ==> Spaced(p.ones[i]) && reader.meaning(p.ones[i][..|p.ones[i]| - 1]) == Some(Add(i)))
    && (forall i :: 2 <= i < 10 ==> IsWord(p.tens[i]) && reader.meaning(p.tens[i]) == Some(Add(10 * i)))
    && reader.meaning("Hundred") == Some(Hundred)
    && reader.meaning("undefinedHundred") == None
  }

  /** The reader knows the unit's word; single rupees have none. */
  ghost predicate KnowsUnit(reader: Reader, word: string, size: nat) {
    if word == "" then size == 1 else Spaced(word) && reader.meaning(word[..|word| - 1]) == Some(Unit(size))
  }

  ghost predicate KnowsUnits(reader: Reader) {
    KnowsUnit(reader, "Crore ", CRORE) && KnowsUnit(reader, "Lakh ", LAKH) && KnowsUnit(reader, "Thousand ", THOUSAND)
  }

  ghost predicate KnowsFrame(reader: Reader) {
    && reader.meaning("Rupees") == Some(Rupees) && reader.meaning("and") == Some(And)
    && reader.meaning("Paise") == Some(Paise) && reader.meaning("Only") == Some(Only)
    && reader.meaning("Zero") == Some(Zero)
  }

  const ONE_WORDS: seq<string> := [
    "", "One", "Two", "Three", "Four", "Five", "Six", "Seven", "Eight", "Nine",
    "Ten", "Eleven", "Twelve", "Thirteen", "Fourteen", "Fifteen", "Sixteen", "Seventeen", "Eighteen", "Nineteen"
  ]

  lemma {:induction false} DigitsKnown(i: nat)
    requires 1 <= i < 10
    ensures ENGLISH.ones[i] == ONE_WORDS[i] + " " && IsWord(ONE_WORDS[i]) && MeaningOf(ONE_WORDS[i]) == Some(Add(i))
  {}

  lemma {:induction false} TeensKnown(i: nat)
    requires 10 <= i < 20
    ensures ENGLISH.ones[i] == ONE_WORDS[i] + " " && IsWord(ONE_WORDS[i]) && MeaningOf(ONE_WORDS[i]) == Some(Add(i))
  {}

  lemma {:induction false} OnesKnown(i: nat)
    requires 1 <= i < 20
    ensures Spaced(ENGLISH.ones[i]) && READER.meaning(ENGLISH.ones[i][..|ENGLISH.ones[i]| - 1]) == Some(Add(i))
  {
    if i < 10 {
      DigitsKnown(i);
    } else {
      TeensKnown(i);
    }
    assert ENGLISH.ones[i][..|ENGLISH.ones[i]| - 1] == ONE_WORDS[i];
  }

  lemma {:induction false} TensKnown(i: nat)
    requires 2 <= i < 10
    ensures IsWord(ENGLISH.tens[i]) && MeaningOf(ENGLISH.tens[i]) == Some(Add(10 * i))
  {}

  lemma {:induction false} HundredKnown()
    ensures MeaningOf("Hundred") == Some(Hundred)
  {}

  lemma {:induction false} CroreKnown()
    ensures MeaningOf("Crore") == Some(Unit(CRORE))
  {}

  lemma {:induction false} LakhKnown()
    ensures MeaningOf("Lakh") == Some(Unit(LAKH))
  {}

  lemma {:induction false} ThousandKnown()
    ensures MeaningOf("Thousand") == Some(Unit(THOUSAND))
  {}

  lemma {:induction false} RupeesKnown()
    ensures MeaningOf("Rupees") == Some(Rupees) && MeaningOf("and") == Some(And)
  {}

  lemma {:induction false} PaiseKnown()
    ensures MeaningOf("Paise") == Some(Paise)
  {}

  lemma {:induction false} OnlyKnown()
    ensures MeaningOf("Only") == Some(Only) && MeaningOf("Zero") == Some(Zero)
  {}

  lemma {:induction false} UndefinedUnknown()
    ensures MeaningOf("undefinedHundred") == None
  {}

  lemma {:induction false} EnglishTablesKnown()
    ensures KnowsTables(READER, ENGLISH)
  {
    forall i | 1 <= i < 20
      ensures Spaced(ENGLISH.ones[i]) && READER.meaning(ENGLISH.ones[i][..|ENGLISH.ones[i]| - 1]) == Some(Add(i))
    {
      OnesKnown(i);
    }
    forall i | 2 <= i < 10
      ensures IsWord(ENGLISH.tens[i]) && READER.meaning(ENGLISH.tens[i]) == Some(Add(10 * i))
    {
      TensKnown(i);
    }
    HundredKnown();
    UndefinedUnknown();
  }

  lemma {:induction false} EnglishUnitsKnown()
    ensures KnowsUnits(READER)
  {
    CroreKnown();
    LakhKnown();
    ThousandKnown();
    UnitsSpaced();
  }

  lemma {:induction false} EnglishFrameKnown()
    ensures KnowsFrame(READER)
  {
    RupeesKnown();
    PaiseKnown();
    OnlyKnown();
  }

  lemma {:induction false} UnitsSpaced()
    ensures Spaced("Crore ") && "Crore "[..5] == "Crore"
    ensures Spaced("Lakh ") && "Lakh "[..4] == "Lakh"
    ensures Spaced("Thousand ") && "Thousand "[..8] == "Thousand"
  {}

  lemma {:induction false} ReadOne(reader: Reader, p: Printer, r: Reading, i: nat)
    requires KnowsTables(reader, p) && 1 <= i < 20 && InNumber(r) && i < r.room
    ensures reader.ReadText(Some(r), p.ones[i]) == Some(r.(block := r.block + i, room := 0))
    ensures EndsSpaced(p.ones[i])
  {
    ReadSpaced(reader, Some(r), p.ones[i]);
  }

  lemma {:induction false} ReadTen(reader: Reader, p: Printer, r: Reading, i: nat)
    requires KnowsTables(reader, p) && 2 <= i < 10 && InNumber(r) && r.room == 100
    ensures reader.ReadText(Some(r), p.tens[i] + " ") == Some(r.(block := r.block + 10 * i, room := 10))
    ensures EndsSpaced(p.tens[i] + " ")
  {
    ReadWord(reader, Some(r), p.tens[i]);
  }

  lemma {:induction false} ReadHundred(reader: Reader, p: Printer, r: Reading)
    requires KnowsTables(reader, p) && InNumber(r) && r.room == 0 && r.block < 20
    ensures reader.ReadText(Some(r), "Hundred ") == Some(r.(block := 100 * r.block, room := 100))
    ensures EndsSpaced("Hundred ")
  {
    assert "Hundred "[..7] == "Hundred";
    ReadSpaced(reader, Some(r), "Hundred ");
  }

  /** Reading one text after another. */
  lemma {:induction false} Then(reader: Reader, r0: Option<Reading>, s: string, r1: Option<Reading>, t: string,
          r2: Option<Reading>)
    requires EndsSpaced(s) && reader.ReadText(r0, s) == r1 && reader.ReadText(r1, t) == r2
    ensures reader.ReadText(r0, s + t) == r2
    ensures EndsSpaced(t) ==> EndsSpaced(s + t)
  {
    ReadTextAppend(reader, r0, s, t);
  }

  /** What may follow a block of `n`. */
  function RoomAfter(n: nat): nat {
    if n % 100 == 0 then 100 else if n % 100 >= 20 && n % 10 == 0 then 10 else 0
  }

  lemma {:induction false} ReadBelow20(reader: Reader, p: Printer, r: Reading, n: nat)
    requires KnowsTables(reader, p) && n < 20 && n < r.room && InNumber(r)
    ensures reader.ReadText(Some(r), p.Block(n)) ==
            Some(r.(block := r.block + n, room := if n == 0 then r.room else 0))
    ensures EndsSpaced(p.Block(n))
  {
    if n > 0 {
      ReadOne(reader, p, r, n);
    } else {
    }
  }

  lemma {:induction false} ReadBelow100(reader: Reader, p: Printer, r: Reading, n: nat)
    requires KnowsTables(reader, p) && n < 100 && InNumber(r) && r.room == 100
    ensures reader.ReadText(Some(r), p.Block(n)) == Some(r.(block := r.block + n, room := RoomAfter(n)))
    ensures EndsSpaced(p.Block(n))
  {
    if n > 19 {
      var ten, one := p.tens[n / 10] + " ", p.Block(n % 10);
      ReadTen(reader, p, r, n / 10);
      var after := r.(block := r.block + 10 * (n / 10), room := 10);
      ReadBelow20(reader, p, after, n % 10);
      Then(reader, Some(r), ten, Some(after), one, Some(r.(block := r.block + n, room := RoomAfter(n))));
      assert p.Block(n) == ten + one;
    } else {
      ReadBelow20(reader, p, r, n);
    }
  }

  /** A text that is read as a hundred of the ones before it. */
  ghost predicate ReadsHundred(reader: Reader, s: string) {
    && EndsSpaced(s)
    && forall r: Reading :: InNumber(r) && r.room == 0 && r.block < 20 ==>
         reader.ReadText(Some(r), s) == Some(r.(block := 100 * r.block, room := 100))
  }

  lemma {:induction false} HundredRead(reader: Reader, p: Printer)
    requires KnowsTables(reader, p)
    ensures ReadsHundred(reader, "Hundred ")
  {
    forall r: Reading | InNumber(r) && r.room == 0 && r.block < 20
      ensures reader.ReadText(Some(r), "Hundred ") == Some(r.(block := 100 * r.block, room := 100))
    {
      ReadHundred(reader, p, r);
    }
  }

  lemma {:induction false} ReadHundreds(reader: Reader, p: Printer, r: Reading, h: nat, hundred: string)
    requires KnowsTables(reader, p) && ReadsHundred(reader, hundred)
    requires 1 <= h < 20 && InNumber(r) && r.block == 0 && r.room == 100
    ensures reader.ReadText(Some(r), p.ones[h] + hundred) == Some(r.(block := 100 * h))
    ensures EndsSpaced(p.ones[h] + hundred)
  {
    ReadOne(reader, p, r, h);
    InTurn(reader, r, p.ones[h], r.(block := h, room := 0), hundred, r.(block := 100 * h));
  }

  lemma {:induction false} InTurn(reader: Reader, r0: Reading, s: string, r1: Reading, t: string, r2: Reading)
    requires EndsSpaced(s) && EndsSpaced(t)
    requires reader.ReadText(Some(r0), s) == Some(r1) && reader.ReadText(Some(r1), t) == Some(r2)
    ensures reader.ReadText(Some(r0), s + t) == Some(r2) && EndsSpaced(s + t)
  {
    ReadTextAppend(reader, Some(r0), s, t);
  }

  lemma {:induction false} ReadOver99(reader: Reader, p: Printer, r: Reading, h: nat, n: nat, hundred: string)
    requires KnowsTables(reader, p) && ReadsHundred(reader, hundred)
    requires 1 <= h < 20 && n < 100 && InNumber(r) && r.block == 0 && r.room == 100
    ensures reader.ReadText(Some(r), p.ones[h] + hundred + p.Block(n)) ==
            Some(r.(block := 100 * h + n, room := RoomAfter(n)))
    ensures EndsSpaced(p.ones[h] + hundred + p.Block(n))
  {
    ReadHundreds(reader, p, r, h, hundred);
    ReadBelow100(reader, p, r.(block := 100 * h), n);
    InTurn(reader, r, p.ones[h] + hundred, r.(block := 100 * h), p.Block(n),
        r.(block := 100 * h + n, room := RoomAfter(n)));
  }

  lemma {:induction false} BlockOver99(p: Printer, n: nat)
    requires |p.ones| == 20 && 99 < n < 2000
    ensures p.Block(n) == p.ones[n / 100] + "Hundred " + p.Block(n % 100)
  {}

  /** A block up to 1999 is read back. */
  lemma {:induction false} ReadBlock(reader: Reader, p: Printer, r: Reading, n: nat)
    requires KnowsTables(reader, p) && n < 2000 && InNumber(r) && r.block == 0 && r.room == 100
    ensures reader.ReadText(Some(r), p.Block(n)) == Some(r.(block := n, room := RoomAfter(n)))
    ensures EndsSpaced(p.Block(n))
  {
    if n > 99 {
      HundredRead(reader, p);
      BlockOver99(p, n);
      ReadOver99(reader, p, r, n / 100, n % 100, "Hundred ");
    } else {
      ReadBelow100(reader, p, r, n);
    }
  }

  /** Between two blocks of a number. */
  predicate BetweenBlocks(r: Reading) {
    InNumber(r) && r.block == 0 && r.room == 100
  }

  ghost predicate ReadsBlocks(reader: Reader, p: Printer) {
    forall r: Reading, n: nat {:trigger reader.ReadText(Some(r), p.Block(n))} :: n < 2000 && BetweenBlocks(r) ==>
      reader.ReadText(Some(r), p.Block(n)) == Some(r.(block := n, room := RoomAfter(n))) && EndsSpaced(p.Block(n))
  }

  lemma {:induction false} BlocksRead(reader: Reader, p: Printer)
    requires KnowsTables(reader, p)
    ensures ReadsBlocks(reader, p)
  {
    forall r: Reading, n: nat | n < 2000 && BetweenBlocks(r)
      ensures reader.ReadText(Some(r), p.Block(n)) == Some(r.(block := n, room := RoomAfter(n)))
          && EndsSpaced(p.Block(n))
    {
      ReadBlock(reader, p, r, n);
    }
  }

  /** A number has been read from `r` on: it has grown by `n`, and its open block is small enough to
      close it. */
  ghost predicate HasRead(after: Option<Reading>, r: Reading, n: nat) {
    && after.Some? && after.value.place == r.place && after.value.rupees == r.rupees
    && after.value.units + after.value.block == r.units + n && after.value.block < 1000
    && (n < THOUSAND ==> after.value.units == r.units)
  }

  /** A block and the word of its unit. */
  lemma {:induction false} ReadBlockAndWord(reader: Reader, r: Reading, block: string, n: nat, word: string, size: nat)
    requires EndsSpaced(block) && BetweenBlocks(r) && 0 < n < Most(size) && size < r.below
    requires reader.ReadText(Some(r), block) == Some(r.(block := n, room := RoomAfter(n)))
    requires Spaced(word) && KnowsUnit(reader, word, size)
    ensures reader.ReadText(Some(r), block + word) == Some(r.(units := r.units + n * size, below := size))
    ensures EndsSpaced(block + word)
  {
    ReadSpaced(reader, Some(r.(block := n, room := RoomAfter(n))), word);
    Then(reader, Some(r), block, Some(r.(block := n, room := RoomAfter(n))), word,
        Some(r.(units := r.units + n * size, below := size)));
  }

  /** The quantity fits under the units before it. */
  ghost predicate Fits(reader: Reader, q: Quantity, below: nat) {
    && KnowsUnit(reader, q.word, q.size)
    && if q.word == "" then q.count < 1000 else q.count < Most(q.size) && THOUSAND <= q.size < below
  }

  lemma {:induction false} ReadUnit(reader: Reader, p: Printer, r: Reading, q: Quantity)
    requires ReadsBlocks(reader, p) && BetweenBlocks(r) && Fits(reader, q, r.below) && q.word != ""
    ensures reader.ReadText(Some(r), p.Part(q.count, q.word)) ==
            Some(AfterUnit(r, q))
    ensures EndsSpaced(p.Part(q.count, q.word))
  {
    if q.count > 0 {
      var block := p.Block(q.count);
      assert reader.ReadText(Some(r), block) == Some(r.(block := q.count, room := RoomAfter(q.count)));
      ReadBlockAndWord(reader, r, block, q.count, q.word, q.size);
    } else {
    }
  }

  lemma {:induction false} ReadLast(reader: Reader, p: Printer, r: Reading, q: Quantity)
    requires ReadsBlocks(reader, p) && BetweenBlocks(r) && Fits(reader, q, r.below) && q.word == ""
    ensures reader.ReadText(Some(r), p.Part(q.count, q.word)) ==
            Some(r.(block := q.count, room := RoomAfter(q.count)))
  {
    if q.count > 0 {
      var block := p.Block(q.count);
      assert reader.ReadText(Some(r), block) == Some(r.(block := q.count, room := RoomAfter(q.count)));
      assert block + "" == block;
    } else {
    }
  }

  function Total(qs: seq<Quantity>): nat {
    if qs == [] then 0 else qs[0].count * qs[0].size + Total(qs[1..])
  }

  /** The quantities fit under one another, and the last of them, which has no word, is there. */
  ghost predicate Readable(reader: Reader, qs: seq<Quantity>, below: nat) {
    && qs != [] && Fits(reader, qs[0], below)
    && if qs[0].word == "" then |qs| == 1 else Readable(reader, qs[1..], qs[0].size)
  }

  lemma {:induction false} ReadableBelow(reader: Reader, qs: seq<Quantity>, below: nat, more: nat)
    requires Readable(reader, qs, below) && below <= more
    ensures Readable(reader, qs, more)
  {}

  /** Readable quantities are read back. */
  lemma {:induction false} ReadSpelled(reader: Reader, p: Printer, qs: seq<Quantity>, r: Reading)
    requires ReadsBlocks(reader, p) && BetweenBlocks(r) && Readable(reader, qs, r.below)
    ensures HasRead(reader.ReadText(Some(r), p.Spelled(qs)), r, Total(qs))
    decreases |qs|
  {
    var q := qs[0];
    if q.word == "" {
      ReadLast(reader, p, r, q);
      assert qs[1..] == [] && p.Part(q.count, q.word) + "" == p.Part(q.count, q.word);
    } else {
      var after := AfterUnit(r, q);
      ReadUnit(reader, p, r, q);
      ReadableBelow(reader, qs[1..], q.size, after.below);
      ReadSpelled(reader, p, qs[1..], after);
      ReadRest(reader, r, q, p.Part(q.count, q.word), p.Spelled(qs[1..]), Total(qs[1..]));
    }
  }

  function AfterUnit(r: Reading, q: Quantity): Reading {
    if q.count == 0 then r else r.(units := r.units + q.count * q.size, below := q.size)
  }

  lemma {:induction false} ReadRest(reader: Reader, r: Reading, q: Quantity, first: string, rest: string, n: nat)
    requires reader.ReadText(Some(r), first) == Some(AfterUnit(r, q)) && EndsSpaced(first) && q.size >= THOUSAND
    requires HasRead(reader.ReadText(Some(AfterUnit(r, q)), rest), AfterUnit(r, q), n)
    ensures HasRead(reader.ReadText(Some(r), first + rest), r, q.count * q.size + n)
  {
    ReadTextAppend(reader, Some(r), first, rest);
    AddsUp(reader.ReadText(Some(AfterUnit(r, q)), rest), r, AfterUnit(r, q), q, n);
  }

  lemma {:induction false} AddsUp(read: Option<Reading>, r: Reading, after: Reading, q: Quantity, n: nat)
    requires HasRead(read, after, n) && q.size >= THOUSAND && after == AfterUnit(r, q)
    ensures HasRead(read, r, q.count * q.size + n)
  {
    if q.count > 0 {
      AtLeastOne(q.count, q.size);
    }
  }

  lemma {:induction false} AtLeastOne(count: nat, size: nat)
    requires count > 0
    ensures count * size >= size
  {}

  lemma {:induction false} UnitsReadable(reader: Reader, n: nat)
    requires KnowsUnits(reader) && n < 2000 * CRORE
    ensures Readable(reader, InUnits(n), TOP) && Total(InUnits(n)) == n
  {
    var qs := InUnits(n);
    assert qs[1..][1..] == qs[2..] && qs[2..][1..] == qs[3..] && qs[3..][1..] == [];
    assert Total(qs[3..]) == qs[3].count;
    assert Total(qs[2..]) == qs[2].count * THOUSAND + Total(qs[3..]);
    assert Total(qs[1..]) == qs[1].count * LAKH + Total(qs[2..]);
    assert Total(qs) == qs[0].count * CRORE + Total(qs[1..]);
    assert Readable(reader, qs[3..], THOUSAND);
    assert Readable(reader, qs[2..], LAKH);
    assert Readable(reader, qs[1..], CRORE);
  }

  lemma {:induction false} UnknownBlock(p: Printer, c: nat)
    requires |p.ones| == 20 && c >= 2000
    ensures p.Block(c) == "undefinedHundred " + p.Block(c % 100)
  {
    assert "undefinedHundred " == "undefined" + "Hundred ";
  }

  /** Whatever follows, an unknown first word leaves the text unread. */
  lemma {:induction false} UnknownFirst(reader: Reader, r: Option<Reading>, first: string, rest: string)
    requires Spaced(first) && reader.meaning(first[..|first| - 1]) == None
    ensures reader.ReadText(r, first + rest) == None
  {
    ReadSpaced(reader, r, first);
    ReadTextAppend(reader, r, first, rest);
    ReadNone(reader, rest);
  }

  /** From 2000 crore on, an unknown word is printed. */
  lemma {:induction false} TooLargeIsNotRead(reader: Reader, p: Printer, r: Option<Reading>, n: nat)
    requires KnowsTables(reader, p) && n >= 2000 * CRORE
    ensures reader.ReadText(r, p.Spelled(InUnits(n))) == None
  {
    var qs := InUnits(n);
    UnknownQuantity(reader, p, r, qs[0].count, qs[0].word, p.Spelled(qs[1..]));
  }

  lemma {:induction false} UnknownQuantity(reader: Reader, p: Printer, r: Option<Reading>, count: nat, word: string,
          rest: string)
    requires KnowsTables(reader, p) && count >= 2000
    ensures reader.ReadText(r, p.Part(count, word) + rest) == None
  {
    UnknownBlock(p, count);
    UndefinedWord(reader, p);
    UnknownBefore(reader, r, "undefinedHundred ", p.Block(count % 100), word, rest);
  }

  lemma {:induction false} UndefinedWord(reader: Reader, p: Printer)
    requires KnowsTables(reader, p)
    ensures var first := "undefinedHundred "; Spaced(first) && reader.meaning(first[..|first| - 1]) == None
  {
    assert "undefinedHundred "[..16] == "undefinedHundred";
  }

  lemma {:induction false} UnknownBefore(reader: Reader, r: Option<Reading>, first: string, below: string, word: string,
          rest: string)
    requires Spaced(first) && reader.meaning(first[..|first| - 1]) == None
    ensures reader.ReadText(r, first + below + word + rest) == None
  {
    UnknownFirst(reader, r, first, below + word + rest);
    assert first + below + word + rest == first + (below + word + rest);
  }

  lemma {:induction false} ReadTrimStart(reader: Reader, r: Option<Reading>, s: string)
    ensures reader.ReadText(r, TrimStart(s)) == reader.ReadText(r, s)
    decreases |s|
  {
    if s != "" && s[0] == ' ' {
      ReadTrimStart(reader, r, s[1..]);
    }
  }

  lemma {:induction false} ReadTrimEnd(reader: Reader, r: Option<Reading>, s: string)
    ensures reader.ReadText(r, TrimEnd(s)) == reader.ReadText(r, s)
    decreases |s|
  {
    if s != "" && s[|s| - 1] == ' ' {
      var t := s[..|s| - 1];
      ReadTrimEnd(reader, r, t);
      ReadTextAppend(reader, r, t, " ");
      ReadNothing(reader, reader.ReadText(r, t));
      assert s == t + " ";
    }
  }

  lemma {:induction false} ReadTrimmed(reader: Reader, r: Option<Reading>, s: string)
    ensures reader.ReadText(r, Trim(s)) == reader.ReadText(r, s)
  {
    ReadTrimStart(reader, r, s);
    ReadTrimEnd(reader, r, TrimStart(s));
  }

  /** A text, after a space, is read as one word of this meaning. */
  ghost predicate ReadsAs(reader: Reader, s: string, m: Meaning) {
    s != "" && s[0] == ' ' && forall r :: reader.ReadText(Some(r), s) == Step(r, m)
  }

  lemma {:induction false} ReadFrame(reader: Reader, s: string, m: Meaning)
    requires |s| > 1 && s[0] == ' ' && IsWord(s[1..]) && reader.meaning(s[1..]) == Some(m)
    ensures ReadsAs(reader, s, m)
  {
    forall r ensures reader.ReadText(Some(r), s) == Step(r, m) {
      ReadLeading(reader, Some(r), s);
    }
  }

  lemma {:induction false} RupeesRead(reader: Reader)
    requires KnowsFrame(reader)
    ensures ReadsAs(reader, " Rupees", Rupees)
  {
    assert " Rupees"[1..] == "Rupees";
    ReadFrame(reader, " Rupees", Rupees);
  }

  lemma {:induction false} AndRead(reader: Reader)
    requires KnowsFrame(reader)
    ensures ReadsAs(reader, " and", And)
  {
    assert " and"[1..] == "and";
    ReadFrame(reader, " and", And);
  }

  lemma {:induction false} PaiseRead(reader: Reader)
    requires KnowsFrame(reader)
    ensures ReadsAs(reader, " Paise", Paise)
  {
    assert " Paise"[1..] == "Paise";
    ReadFrame(reader, " Paise", Paise);
  }

  lemma {:induction false} OnlyRead(reader: Reader)
    requires KnowsFrame(reader)
    ensures ReadsAs(reader, " Only", Only)
  {
    assert " Only"[1..] == "Only";
    ReadFrame(reader, " Only", Only);
  }

  lemma {:induction false} AndASpace(reader: Reader, r: Reading, s: string, m: Meaning)
    requires ReadsAs(reader, s, m)
    ensures reader.ReadText(Some(r), s + " ") == Step(r, m)
  {
    ReadTextAppend(reader, Some(r), s, " ");
    ReadNothing(reader, Step(r, m));
  }

  /** The paise between their two words. */
  lemma {:induction false} ReadBetween(reader: Reader, whole: nat, paise: nat, and: string, body: string, close: string)
    requires ReadsAs(reader, and, And) && ReadsAs(reader, close, Paise) && 0 < paise <= 100
    requires HasRead(reader.ReadText(Some(Fresh(InPaise, whole)), body), Fresh(InPaise, whole), paise)
    ensures var read := reader.ReadText(Some(Fresh(AfterRupees, whole)), and + " " + body + close);
            read.Some? && read.value.place == BeforeOnly && read.value.rupees == whole && read.value.block == paise
  {
    var r, open := Some(Fresh(AfterRupees, whole)), Some(Fresh(InPaise, whole));
    AndASpace(reader, r.value, and, And);
    ReadTextAppend(reader, r, and + " ", body);
    ReadTextAppend(reader, r, and + " " + body, close);
  }

  /** After the rupees and, if there are any, the paise, only the last word is left to read. */
  ghost predicate Complete(read: Option<Reading>, whole: nat, paise: nat) {
    && read.Some? && read.value.rupees == whole && read.value.block == paise
    && (read.value.place == AfterRupees || read.value.place == BeforeOnly)
  }

  lemma {:induction false} PaiseInParts(p: Printer, paise: nat, and: string, close: string)
    requires paise > 0 && and == " and" && close == " Paise"
    ensures p.PaisePart(paise) == and + " " + Trim(p.Spelled(InUnits(paise))) + close
  {
    assert " and " == and + " ";
  }

  lemma {:induction false} ReadPaise(reader: Reader, p: Printer, whole: nat, paise: nat, and: string, close: string)
    requires KnowsTables(reader, p) && KnowsUnits(reader) && 0 < paise <= 100
    requires ReadsAs(reader, and, And) && ReadsAs(reader, close, Paise)
    ensures Complete(reader.ReadText(Some(Fresh(AfterRupees, whole)),
                                     and + " " + Trim(p.Spelled(InUnits(paise))) + close), whole, paise)
  {
    var spelled := p.Spelled(InUnits(paise));
    UnitsReadable(reader, paise);
    BlocksRead(reader, p);
    ReadSpelled(reader, p, InUnits(paise), Fresh(InPaise, whole));
    ReadTrimmed(reader, Some(Fresh(InPaise, whole)), spelled);
    ReadBetween(reader, whole, paise, and, Trim(spelled), close);
  }

  lemma {:induction false} ReadPaisePart(reader: Reader, p: Printer, whole: nat, paise: nat)
    requires KnowsTables(reader, p) && KnowsUnits(reader) && KnowsFrame(reader) && paise <= 100
    ensures Complete(reader.ReadText(Some(Fresh(AfterRupees, whole)), p.PaisePart(paise)), whole, paise)
  {
    if paise > 0 {
      AndRead(reader);
      PaiseRead(reader);
      PaiseInParts(p, paise, " and", " Paise");
      ReadPaise(reader, p, whole, paise, " and", " Paise");
    } else {
    }
  }

  /** A text read as a whole number, closed by its rupees. */
  lemma {:induction false} CloseRupees(reader: Reader, spelled: string, whole: nat, rupees: string)
    requires ReadsAs(reader, rupees, Rupees)
    ensures var read, closed := reader.ReadText(Some(BEGINNING), spelled),
                reader.ReadText(Some(BEGINNING), Trim(spelled) + rupees);
            && (HasRead(read, BEGINNING, whole) ==> closed == Some(Fresh(AfterRupees, whole)))
            && (read == None ==> closed == None)
  {
    var read := reader.ReadText(Some(BEGINNING), spelled);
    ReadTrimmed(reader, Some(BEGINNING), spelled);
    ReadTextAppend(reader, Some(BEGINNING), Trim(spelled), rupees);
    ReadNone(reader, rupees);
  }

  lemma {:induction false} ReadWhole(reader: Reader, p: Printer, whole: nat)
    requires KnowsTables(reader, p) && KnowsUnits(reader) && KnowsFrame(reader)
    ensures reader.ReadText(Some(BEGINNING), Trim(p.Spelled(InUnits(whole))) + " Rupees") ==
            if whole < 2000 * CRORE then Some(Fresh(AfterRupees, whole)) else None
  {
    RupeesRead(reader);
    CloseRupees(reader, p.Spelled(InUnits(whole)), whole, " Rupees");
    if whole < 2000 * CRORE {
      UnitsReadable(reader, whole);
      BlocksRead(reader, p);
      ReadSpelled(reader, p, InUnits(whole), BEGINNING);
    } else {
      TooLargeIsNotRead(reader, p, Some(BEGINNING), whole);
    }
  }

  lemma {:induction false} InThreeParts(reader: Reader, a: string, b: string, c: string)
    requires Apart(a, b) && c != "" && c[0] == ' '
    ensures reader.ReadText(Some(BEGINNING), a + b + c) ==
            reader.ReadText(reader.ReadText(reader.ReadText(Some(BEGINNING), a), b), c)
  {
    ReadTextAppend(reader, Some(BEGINNING), a + b, c);
    ReadTextAppend(reader, Some(BEGINNING), a, b);
  }

  /** The rupees, the paise, and the closing word. */
  lemma {:induction false} ReadInAll(reader: Reader, rupees: string, middle: string, whole: nat, paise: nat,
          only: string)
    requires Apart(rupees, middle) && ReadsAs(reader, only, Only)
    ensures var read := reader.ReadText(Some(BEGINNING), rupees);
            && (read == None ==> reader.Read(rupees + middle + only) == None)
            && (read.Some? && Complete(reader.ReadText(read, middle), whole, paise) ==>
                  reader.Read(rupees + middle + only) == Some(whole * 100 + paise))
  {
    var read := reader.ReadText(Some(BEGINNING), rupees);
    InThreeParts(reader, rupees, middle, only);
    if read == None {
      ReadNone(reader, middle);
      ReadNone(reader, only);
    }
  }

  lemma {:induction false} ReadAmount(reader: Reader, p: Printer, whole: nat, paise: nat)
    requires KnowsTables(reader, p) && KnowsUnits(reader) && KnowsFrame(reader) && paise <= 100
    ensures reader.Read(p.Amount(whole, paise)) == if whole < 2000 * CRORE then Some(whole * 100 + paise) else None
  {
    var rupees, middle := Trim(p.Spelled(InUnits(whole))) + " Rupees", p.PaisePart(paise);
    assert p.Amount(whole, paise) == rupees + middle + " Only";
    ReadWhole(reader, p, whole);
    ReadPaisePart(reader, p, whole, paise);
    OnlyRead(reader);
    ReadInAll(reader, rupees, middle, whole, paise, " Only");
  }

  lemma {:induction false} ReadZero(reader: Reader, zero: string, rupees: string, only: string)
    requires reader.ReadText(Some(BEGINNING), zero) == Some(BEGINNING.(place := AfterZero))
    requires ReadsAs(reader, rupees, Rupees) && ReadsAs(reader, only, Only)
    ensures reader.Read(zero + rupees + only) == Some(0)
  {
    var zeroed, done := BEGINNING.(place := AfterZero), Fresh(BeforeOnly, 0);
    ZeroSteps();
    ReadThree(reader, zero, Some(zeroed), rupees, Some(done), only, Some(done.(place := AtEnd)));
  }

  lemma {:induction false} ZeroSteps()
    ensures Step(BEGINNING.(place := AfterZero), Rupees) == Some(Fresh(BeforeOnly, 0))
    ensures Step(Fresh(BeforeOnly, 0), Only) == Some(Fresh(BeforeOnly, 0).(place := AtEnd))
  {}

  lemma {:induction false} ReadZeroWord(reader: Reader)
    requires KnowsFrame(reader)
    ensures reader.ReadText(Some(BEGINNING), "Zero") == Some(BEGINNING.(place := AfterZero))
  {
    ReadWord(reader, Some(BEGINNING), "Zero");
  }

  lemma {:induction false} ReadThree(reader: Reader, a: string, r1: Option<Reading>, b: string, r2: Option<Reading>,
          c: string, r3: Option<Reading>)
    requires b != "" && b[0] == ' ' && c != "" && c[0] == ' '
    requires reader.ReadText(Some(BEGINNING), a) == r1 && reader.ReadText(r1, b) == r2 && reader.ReadText(r2, c) == r3
    ensures reader.ReadText(Some(BEGINNING), a + b + c) == r3
  {
    ReadTextAppend(reader, Some(BEGINNING), a, b);
    ReadTextAppend(reader, Some(BEGINNING), a + b, c);
  }

  /** What is printed of a non-negative amount adds up to its nearest paise, also where the
      paise part is rounded up to 100. */
  lemma {:induction false} NearestPaise(rupees: real)
    requires rupees >= 0.0
    ensures rupees.Floor * 100 + PaiseOf(rupees) == (rupees * 100.0 + 0.5).Floor
    ensures rupees < (2000 * CRORE) as real <==> rupees.Floor < 2000 * CRORE
  {
    var whole := rupees.Floor;
    assert rupees * 100.0 + 0.5 == (whole * 100) as real + ((rupees - whole as real) * 100.0 + 0.5);
  }

  lemma {:induction false} ZeroInParts(zero: string, rupees: string, only: string)
    requires zero == "Zero" && rupees == " Rupees" && only == " Only"
    ensures zero + rupees + only == "Zero Rupees Only"
  {}

  lemma {:induction false} ZeroPartsRead(reader: Reader, zero: string, rupees: string, only: string)
    requires KnowsFrame(reader) && zero == "Zero" && rupees == " Rupees" && only == " Only"
    ensures reader.ReadText(Some(BEGINNING), zero) == Some(BEGINNING.(place := AfterZero))
    ensures ReadsAs(reader, rupees, Rupees) && ReadsAs(reader, only, Only)
  {
    ReadZeroWord(reader);
    RupeesRead(reader);
    OnlyRead(reader);
  }

  lemma {:induction false} ReadZeroParts(reader: Reader, zero: string, rupees: string, only: string)
    requires KnowsFrame(reader) && zero == "Zero" && rupees == " Rupees" && only == " Only"
    ensures reader.Read(zero + rupees + only) == Some(0)
  {
    ZeroPartsRead(reader, zero, rupees, only);
    ReadZero(reader, zero, rupees, only);
  }

  lemma {:induction false} ReadZeroPrinted(reader: Reader, p: Printer, whole: nat, paise: nat)
    requires KnowsFrame(reader)
    ensures reader.Read(p.Printed(true, whole, paise)) == Some(0)
  {
    ZeroInParts("Zero", " Rupees", " Only");
    ReadZeroParts(reader, "Zero", " Rupees", " Only");
  }

  lemma {:induction false} ReadPrinted(reader: Reader, p: Printer, zero: bool, whole: nat, paise: nat)
    requires KnowsTables(reader, p) && KnowsUnits(reader) && KnowsFrame(reader) && paise <= 100
    requires zero ==> whole == 0 && paise == 0
    ensures reader.Read(p.Printed(zero, whole, paise)) ==
        if whole < 2000 * CRORE then Some(whole * 100 + paise) else None
  {
    if zero {
      ReadZeroPrinted(reader, p, whole, paise);
    } else {
      ReadAmount(reader, p, whole, paise);
    }
  }

  /** Reading a printed amount gives back its rupees and paise, for every amount below 2000
      crore rupees; from there on, exactly, no amount can be read back. */
  lemma {:induction false} ReadUndoesPrint(zero: bool, whole: nat, paise: nat)
    requires paise <= 100 && (zero ==> whole == 0 && paise == 0)
    ensures READER.Read(ENGLISH.Printed(zero, whole, paise)) ==
        if whole < 2000 * CRORE then Some(whole * 100 + paise) else None
  {
    EnglishTablesKnown();
    EnglishUnitsKnown();
    EnglishFrameKnown();
    ReadPrinted(READER, ENGLISH, zero, whole, paise);
  }

  lemma {:induction false} ZeroPaise(rupees: real)
    requires rupees == 0.0
    ensures rupees.Floor == 0 && PaiseOf(rupees) == 0
  {}

  /** The words of an amount that is not negative read back as its nearest paise, up to 2000
      crore rupees, and as nothing from there on. */
  lemma {:induction false} PositiveReadBack(rupees: real)
    requires rupees >= 0.0
    ensures READER.Read(ENGLISH.Printed(rupees == 0.0, rupees.Floor, PaiseOf(rupees))) ==
            if rupees < (2000 * CRORE) as real then Some((rupees * 100.0 + 0.5).Floor) else None
  {
    if rupees == 0.0 {
      ZeroPaise(rupees);
    }
    NearestPaise(rupees);
    ReadUndoesPrint(rupees == 0.0, rupees.Floor, PaiseOf(rupees));
  }

  /** Of a negative amount only the paise are spelled, counted up from the whole rupees below it. */
  lemma {:induction false} NegativeReadBack(rupees: real)
    requires rupees < 0.0
    ensures READER.Read(ENGLISH.Printed(rupees == 0.0, rupees.Floor, PaiseOf(rupees))) == Some(PaiseOf(rupees))
  {
    assert ENGLISH.Printed(false, rupees.Floor, PaiseOf(rupees)) == ENGLISH.Printed(false, 0, PaiseOf(rupees));
    ReadUndoesPrint(false, 0, PaiseOf(rupees));
  }

  lemma {:induction false} PaiseAboveNegative(rupees: real)
    requires rupees < 0.0
    ensures PaiseOf(rupees) > (rupees * 100.0 + 0.5).Floor
  {
    var whole := rupees.Floor;
    assert rupees * 100.0 + 0.5 == (whole * 100) as real + ((rupees - whole as real) * 100.0 + 0.5);
  }

  /** What the words of any amount read back as: its nearest paise for the amounts from zero up
      to 2000 crore rupees, and for no other. */
  lemma {:induction false} WordsReadBack(rupees: real)
    ensures var read := READER.Read(ENGLISH.Printed(rupees == 0.0, rupees.Floor, PaiseOf(rupees)));
            && read == (if rupees < 0.0 then Some(PaiseOf(rupees))
                        else if rupees < (2000 * CRORE) as real then Some((rupees * 100.0 + 0.5).Floor)
                        else None)
            && ((read.Some? && read.value == (rupees * 100.0 + 0.5).Floor) <==>
                  0.0 <= rupees < (2000 * CRORE) as real)
  {
    if rupees < 0.0 {
      NegativeReadBack(rupees);
      PaiseAboveNegative(rupees);
    } else {
      PositiveReadBack(rupees);
    }
  }

  /** Every table entry that the block printer looks up is there. */
  ghost predicate InTables(p: Printer, n: nat) {
    if n > 99 then n / 100 < |p.ones| && InTables(p, n % 100)
    else if n > 19 then n / 10 < |p.tens| && InTables(p, n % 10)
    else n < |p.ones|
  }

  lemma {:induction false} InTablesExactly(p: Printer, n: nat)
    requires |p.ones| == 20 && |p.tens| == 10
    ensures InTables(p, n) <==> n < 2000
  {
    if n > 99 {
      InTablesExactly(p, n % 100);
    } else if n > 19 {
      assert n % 10 < 20;
    }
  }

  /** The printer stays within its tables exactly when the crore part is at most 1999. */
  lemma {:induction false} AmountInTables(p: Printer, whole: nat)
    requires |p.ones| == 20 && |p.tens| == 10
    ensures (forall q :: q in InUnits(whole) ==> InTables(p, q.count)) <==> whole / CRORE <= 1999
  {
    var qs := InUnits(whole);
    forall q | q in qs ensures InTables(p, q.count) <==> q.count < 2000 {
      InTablesExactly(p, q.count);
    }
    assert qs[0] in qs && qs[0].count == whole / CRORE;
    assert forall q :: q in qs ==> q == qs[0] || q.count < 2000;
  }

  /** From 2000 crore on, amounts a hundred crore apart print alike. */
  lemma {:induction false} PrintsAlikeFrom2000Crore(p: Printer, whole: nat, paise: nat)
    requires |p.ones| == 20 && whole >= 2000 * CRORE
    ensures p.Amount(whole, paise) == p.Amount(whole + 100 * CRORE, paise)
  {
    assert (whole + 100 * CRORE) / CRORE == whole / CRORE + 100;
    assert (whole + 100 * CRORE) % CRORE == whole % CRORE;
    assert (whole / CRORE + 100) % 100 == whole / CRORE % 100;
    UnknownBlock(p, whole / CRORE);
    UnknownBlock(p, whole / CRORE + 100);
    var a, b := InUnits(whole), InUnits(whole + 100 * CRORE);
    assert a[1..] == b[1..];
    assert p.Part(a[0].count, a[0].word) == p.Part(b[0].count, b[0].word);
  }
}
