/** Printing and parsing rand amounts: `format_rand` and `rand_to_cents` in app/money.py. */
module Rand {
  import opened Wrappers

  // --- decimal digits ------------------------------------------------------------------------------

  function Digit(d: nat): char
    requires d < 10
  {
    '0' + d as char
  }

  predicate IsDigit(ch: char) {
    '0' <= ch <= '9'
  }

  predicate AllDigits(s: string) {
    forall i :: 0 <= i < |s| ==> IsDigit(s[i])
  }

  function Digits(n: nat): (s: string)
    ensures |s| > 0 && AllDigits(s)
  {
    if n < 10 then [Digit(n)] else Digits(n / 10) + [Digit(n % 10)]
  }

  function Value(s: string): nat
    requires AllDigits(s)
  {
    if s == "" then 0 else 10 * Value(s[..|s| - 1]) + (s[|s| - 1] as int - '0' as int)
  }

  lemma {:induction false} DigitsValue(n: nat)
    ensures Value(Digits(n)) == n
  {
    if n >= 10 {
      DigitsValue(n / 10);
      assert Digits(n)[..|Digits(n)| - 1] == Digits(n / 10);
    }
  }

  function Pow10(k: nat): nat {
    if k == 0 then 1 else 10 * Pow10(k - 1)
  }

  /** How many digits n has. */
  function Length(n: nat): nat {
    |Digits(n)|
  }

  // --- format_rand ---------------------------------------------------------------------------------

  /** Thousands separated by commas. */
  function Grouped(s: string): string {
    if |s| <= 3 then s else Grouped(s[..|s| - 3]) + "," + s[|s| - 3..]
  }

  /** `s.replace(from, to)` for one character; None takes it out. */
  function Replace(s: string, from: char, to: Option<char>): string {
    if s == "" then ""
    else
      Replace(s[..|s| - 1], from, to)
      + if s[|s| - 1] != from then [s[|s| - 1]] else if to.Some? then [to.value] else ""
  }

  function Abs(n: int): nat {
    if n < 0 then -n else n
  }

  /** CPython refuses to write an integer of more digits out in decimal, and raises ValueError. */
  const MAX_STR_DIGITS: nat := 4_300

  predicate Printable(cents: int) {
    Length(Abs(cents) / 100) <= MAX_STR_DIGITS
  }

  /** `format_rand`: None where it raises. */
  function FormatRand(cents: int): Option<string> {
    if Printable(cents) then Some(Rendered(cents)) else None
  }

  function Rendered(cents: int): string {
    var rand, remainder := Abs(cents) / 100, Abs(cents) % 100;
    var sign := if cents < 0 then "-R" else "R";
    Replace(sign + Grouped(Digits(rand)) + "." + TwoDigits(remainder), ',', Some(' '))
  }

  function TwoDigits(n: nat): string
    requires n < 100
  {
    [Digit(n / 10), Digit(n % 10)]
  }

  // --- rand_to_cents -------------------------------------------------------------------------------

  datatype Amount = Whole(rand: int) | Text(text: string)

  datatype ParseError = NotAnAmount | FractionsOfACent

  /** An exact decimal: coefficient * 10^-places, negated when so signed. */
  datatype Decimal = Decimal(negative: bool, coefficient: nat, places: nat)

  predicate IsSpace(ch: char) {
    9 <= ch as int <= 13 || 28 <= ch as int <= 32
  }

  function Strip(s: string): string {
    if s != "" && IsSpace(s[0]) then Strip(s[1..])
    else if s != "" && IsSpace(s[|s| - 1]) then Strip(s[..|s| - 1])
    else s
  }

  function WithoutPrefix(s: string, ch: char): string {
    if s != "" && s[0] == ch then s[1..] else s
  }

  function PointAt(s: string): (n: nat)
    ensures n <= |s| && (n < |s| ==> s[n] == '.')
  {
    if s == "" || s[0] == '.' then 0 else 1 + PointAt(s[1..])
  }

  /** `Decimal(text)` on plain numerals: an optional sign, digits, an optional point. */
  function ParseDecimal(text: string): Option<Decimal> {
    if text != "" && (text[0] == '-' || text[0] == '+') then Unsigned(text[1..], text[0] == '-')
    else Unsigned(text, false)
  }

  function Unsigned(body: string, negative: bool): Option<Decimal> {
    var point := PointAt(body);
    var whole, fraction := body[..point], if point < |body| then body[point + 1..] else "";
    if AllDigits(whole + fraction) && whole + fraction != "" then
      Some(Decimal(negative, Value(whole + fraction), |fraction|))
    else None
  }

  const PRECISION: nat := 28

  /** m / unit to the nearest whole number, ties to even. */
  function HalfEven(m: nat, unit: nat): nat
    requires unit > 0
  {
    var q, r := m / unit, m % unit;
    if 2 * r > unit || (2 * r == unit && q % 2 == 1) then q + 1 else q
  }

  /** Decimal arithmetic keeps PRECISION significant digits: m, to so many, and the zeros dropped. */
  function Rounded(m: nat): (nat, nat) {
    if Length(m) <= PRECISION then (m, 0)
    else
      var zeros := Length(m) - PRECISION;
      PowPositive(zeros);
      (HalfEven(m, Pow10(zeros)), zeros)
  }

  lemma PowPositive(k: nat)
    ensures Pow10(k) > 0
  {
  }

  /** The product with 100, rounded, as whole cents; refused if a fraction of a cent is left. */
  function ToCents(d: Decimal): Result<int, ParseError> {
    var (kept, zeros) := Rounded(100 * d.coefficient);
    if zeros >= d.places then
      var cents := kept * Pow10(zeros - d.places);
      Ok(if d.negative then -cents else cents)
    else
      PowPositive(d.places - zeros);
      var unit := Pow10(d.places - zeros);
      if kept % unit != 0 then Err(FractionsOfACent)
      else Ok(if d.negative then -(kept / unit) else kept / unit)
  }

  function RandToCents(amount: Amount): Result<int, ParseError> {
    match amount
    case Whole(rand) => Ok(rand * 100)
    case Text(text) =>
      match ParseDecimal(Replace(WithoutPrefix(Strip(text), 'R'), ' ', None))
      case None => Err(NotAnAmount)
      case Some(d) => ToCents(d)
  }

  // --- the text in between ----------------------------------------------------------------------------

  lemma {:induction false} ReplaceConcat(s: string, t: string, from: char, to: Option<char>)
    ensures Replace(s + t, from, to) == Replace(s, from, to) + Replace(t, from, to)
  {
    if t == "" {
      assert s + t == s;
    } else {
      assert (s + t)[..|s + t| - 1] == s + t[..|t| - 1];
      ReplaceConcat(s, t[..|t| - 1], from, to);
    }
  }

  lemma {:induction false} ReplaceNothing(s: string, from: char, to: Option<char>)
    requires from !in s
    ensures Replace(s, from, to) == s
  {
    if s != "" {
      ReplaceNothing(s[..|s| - 1], from, to);
    }
  }

  /** Grouping in thousands and then dropping the separators gives the digits back. */
  lemma {:induction false} GroupsDissolve(s: string)
    requires AllDigits(s)
    ensures Replace(Replace(Grouped(s), ',', Some(' ')), ' ', None) == s
  {
    if |s| <= 3 {
      ReplaceNothing(s, ',', Some(' '));
      ReplaceNothing(s, ' ', None);
    } else {
      var head, tail := s[..|s| - 3], s[|s| - 3..];
      GroupsDissolve(head);
      hide Replace;
      OneMoreGroup(Grouped(head), tail);
      assert head + tail == s;
    }
  }

  lemma OneMoreGroup(grouped: string, tail: string)
    requires AllDigits(tail)
    ensures Replace(Replace(grouped + "," + tail, ',', Some(' ')), ' ', None)
            == Replace(Replace(grouped, ',', Some(' ')), ' ', None) + tail
  {
    Separators();
    hide Replace;
    var spaced := Replace(grouped, ',', Some(' '));
    ReplaceConcat(grouped + ",", tail, ',', Some(' '));
    ReplaceConcat(grouped, ",", ',', Some(' '));
    ReplaceNothing(tail, ',', Some(' '));
    assert Replace(grouped + "," + tail, ',', Some(' ')) == spaced + " " + tail;
    ReplaceConcat(spaced + " ", tail, ' ', None);
    ReplaceConcat(spaced, " ", ' ', None);
    ReplaceNothing(tail, ' ', None);
    assert Replace(spaced, ' ', None) + "" == Replace(spaced, ' ', None);
  }

  lemma Separators()
    ensures Replace(",", ',', Some(' ')) == " " && Replace(" ", ' ', None) == ""
  {
  }

  lemma {:induction false} PointFound(whole: string, rest: string)
    requires AllDigits(whole)
    ensures PointAt(whole + "." + rest) == |whole|
  {
    if whole != "" {
      assert (whole + "." + rest)[1..] == whole[1..] + "." + rest;
      PointFound(whole[1..], rest);
    }
  }

  lemma Dissolved(whole: string, dd: string)
    requires AllDigits(whole) && AllDigits(dd)
    ensures Replace(Replace(Grouped(whole) + ("." + dd), ',', Some(' ')), ' ', None) == whole + "." + dd
  {
    hide Grouped, Replace;
    var g, tail := Grouped(whole), "." + dd;
    GroupsDissolve(whole);
    ReplaceConcat(g, tail, ',', Some(' '));
    ReplaceNothing(tail, ',', Some(' '));
    ReplaceConcat(Replace(g, ',', Some(' ')), tail, ' ', None);
    ReplaceNothing(tail, ' ', None);
    assert whole + tail == whole + "." + dd;
  }

  lemma ParsedBack(rand: nat, remainder: nat)
    requires remainder < 100
    ensures ParseDecimal(Digits(rand) + "." + TwoDigits(remainder)) == Some(Decimal(false, 100 * rand + remainder, 2))
  {
    var whole, dd := Digits(rand), TwoDigits(remainder);
    var text := whole + "." + dd;
    assert IsDigit(whole[0]) && text[0] == whole[0];
    PointFound(whole, dd);
    assert text[..|whole|] == whole && text[|whole| + 1..] == dd;
    DigitsValue(rand);
    assert (whole + dd)[..|whole| + 1][..|whole|] == whole;
    assert (whole + dd)[..|whole| + 1] == whole + [dd[0]];
    assert Value(whole + [dd[0]]) == 10 * rand + remainder / 10;
  }

  /** A printed amount that is not negative, before its prefix is taken off. */
  lemma Printed(cents: nat)
    ensures Rendered(cents) ==
            "R" + Replace(Grouped(Digits(cents / 100)) + ("." + TwoDigits(cents % 100)), ',', Some(' '))
  {
    hide Grouped, Digits;
    var g, tail := Grouped(Digits(cents / 100)), "." + TwoDigits(cents % 100);
    assert "R" + g + "." + TwoDigits(cents % 100) == "R" + (g + tail);
    ReplaceConcat("R", g + tail, ',', Some(' '));
    assert Replace("R", ',', Some(' ')) == "R";
  }

  lemma NothingToStrip(s: string)
    requires s != "" && !IsSpace(s[0]) && !IsSpace(s[|s| - 1])
    ensures Strip(s) == s
  {
  }

  lemma StripsToBody(body: string, last: char)
    requires IsDigit(last) && |body| > 0 && body[|body| - 1] == last
    ensures WithoutPrefix(Strip("R" + body), 'R') == body
  {
    hide Strip;
    var s := "R" + body;
    assert s[0] == 'R' && s[|s| - 1] == last;
    NothingToStrip(s);
    assert s[1..] == body;
  }

  lemma {:induction false} EndsIn(g: string, tail: string)
    requires AllDigits(tail) && tail != ""
    ensures var r := Replace(g + ("." + tail), ',', Some(' ')); |r| > 0 && r[|r| - 1] == tail[|tail| - 1]
  {
    ReplaceConcat(g, "." + tail, ',', Some(' '));
    ReplaceNothing("." + tail, ',', Some(' '));
  }

  /** What is parsed back from it: its cents, with two places. */
  lemma PrintedParses(cents: nat)
    ensures RandToCents(Text(Rendered(cents))) == ToCents(Decimal(false, cents, 2))
  {
    hide Grouped, Digits, Replace, Strip, ParseDecimal, ToCents;
    var whole, dd := Digits(cents / 100), TwoDigits(cents % 100);
    assert AllDigits(dd) && |dd| == 2;
    Printed(cents);
    EndsIn(Grouped(whole), dd);
    StripsToBody(Replace(Grouped(whole) + ("." + dd), ',', Some(' ')), dd[1]);
    Dissolved(whole, dd);
    ParsedBack(cents / 100, cents % 100);
  }

  // --- exactly which amounts come back ------------------------------------------------------------------

  lemma {:induction false} LengthBounds(n: nat)
    ensures n < Pow10(Length(n)) && (n > 0 ==> Pow10(Length(n) - 1) <= n)
  {
    if n >= 10 {
      LengthBounds(n / 10);
      assert Length(n) == Length(n / 10) + 1;
    }
  }

  lemma {:induction false} PowMonotone(j: nat, k: nat)
    requires j <= k
    ensures Pow10(j) <= Pow10(k)
  {
    if j < k {
      PowMonotone(j, k - 1);
    }
  }

  lemma HundredLength(n: nat)
    requires n > 0
    ensures Length(100 * n) == Length(n) + 2
  {
    assert (100 * n) / 10 == 10 * n && (10 * n) / 10 == n;
    assert Length(10 * n) == Length(n) + 1;
  }

  lemma Multiples(q: nat, unit: nat)
    requires unit > 0
    ensures (q * unit) % unit == 0 && (q * unit) / unit == q && HalfEven(q * unit, unit) == q
  {
    assert q * unit == unit * q + 0;
    DivModIs(q * unit, unit, q);
  }

  lemma DivModIs(m: nat, unit: nat, q: nat)
    requires unit > 0 && m == q * unit
    ensures m / unit == q && m % unit == 0
  {
    var x := q - m / unit;
    assert unit * x == q * unit - unit * (m / unit) == m % unit;
    Factors(unit, x);
  }

  lemma Factors(unit: nat, x: int)
    requires unit > 0
    ensures x >= 1 ==> unit * x >= unit
    ensures x <= -1 ==> unit * x < 0
  {
  }

  /** The amounts that decimal arithmetic keeps whole: at most 28 digits before the trailing zeros. */
  predicate Kept(cents: nat) {
    Length(cents) <= PRECISION
    || (PowPositive(Length(cents) - PRECISION); cents % Pow10(Length(cents) - PRECISION) == 0)
  }

  lemma ExactCents(cents: nat)
    ensures ToCents(Decimal(false, cents, 2)) == Ok(cents) <==> Kept(cents)
  {
    if cents > 0 && Length(cents) >= PRECISION {
      LongCents(cents);
    } else if cents > 0 && Length(cents) == PRECISION - 1 {
      NearlyLongCents(cents);
    } else {
      ShortCents(cents);
    }
  }

  lemma ShortCents(cents: nat)
    requires cents == 0 || Length(cents) <= PRECISION - 2
    ensures ToCents(Decimal(false, cents, 2)) == Ok(cents) && Kept(cents)
  {
    assert Pow10(2) == 100 by { assert Pow10(1) == 10; }
    if cents == 0 {
      assert Length(0) == 1;
    } else {
      HundredLength(cents);
    }
    hide Digits;
    assert Rounded(100 * cents) == (100 * cents, 0);
    DivModIs(100 * cents, 100, cents);
  }

  lemma NearlyLongCents(cents: nat)
    requires cents > 0 && Length(cents) == PRECISION - 1
    ensures ToCents(Decimal(false, cents, 2)) == Ok(cents) && Kept(cents)
  {
    HundredLength(cents);
    hide Digits;
    assert Pow10(1) == 10;
    Multiples(10 * cents, 10);
    assert Rounded(100 * cents) == (10 * cents, 1);
    DivModIs(10 * cents, 10, cents);
  }

  /** From 28 digits on, the product loses its last n - 26 digits. */
  lemma LongCents(cents: nat)
    requires cents > 0 && Length(cents) >= PRECISION
    ensures ToCents(Decimal(false, cents, 2)) == Ok(cents) <==> Kept(cents)
  {
    var k := Length(cents) - PRECISION;
    PowPositive(k);
    hide Digits, Pow10, ToCents, HalfEven, Kept;
    KeptIs(cents, k);
    LongRounds(cents, k, Pow10(k));
    RoundsTo(cents, Pow10(k));
  }

  lemma KeptIs(cents: nat, k: nat)
    requires Length(cents) == PRECISION + k && Pow10(k) > 0
    ensures Kept(cents) <==> cents % Pow10(k) == 0
  {
    hide Digits, Pow10;
    if k == 0 {
      UnitOne(cents, Pow10(k));
    }
  }

  lemma UnitOne(cents: nat, unit: nat)
    requires unit == Pow10(0)
    ensures unit == 1 && cents % unit == 0
  {
  }

  lemma LongRounds(cents: nat, k: nat, unit: nat)
    requires cents > 0 && Length(cents) == PRECISION + k && unit == Pow10(k) > 0
    ensures ToCents(Decimal(false, cents, 2)) == Ok(HalfEven(100 * cents, 100 * unit) * unit)
  {
    HundredLength(cents);
    PowHundred(k);
    hide Digits, HalfEven, Pow10;
    RoundsLong(100 * cents, k + 2);
  }

  lemma PowHundred(k: nat)
    ensures Pow10(k + 2) == 100 * Pow10(k)
  {
    assert Pow10(k + 1) == 10 * Pow10(k);
  }

  lemma RoundsLong(m: nat, zeros: nat)
    requires Length(m) == PRECISION + zeros && zeros > 0 && Pow10(zeros) > 0
    ensures Rounded(m) == (HalfEven(m, Pow10(zeros)), zeros)
  {
    hide Digits, HalfEven, Pow10;
  }

  /** Dropping digits and putting zeros back gives the number again iff they were zeros. */
  lemma RoundsTo(cents: nat, unit: nat)
    requires unit > 0
    ensures HalfEven(100 * cents, 100 * unit) * unit == cents <==> cents % unit == 0
  {
    var kept := HalfEven(100 * cents, 100 * unit);
    hide HalfEven;
    if cents % unit == 0 {
      var q := cents / unit;
      assert 100 * cents == q * (100 * unit);
      Multiples(q, 100 * unit);
    } else if kept * unit == cents {
      DivModIs(cents, unit, kept);
    }
  }

  /** Printing an amount and parsing what was printed. */
  predicate ComesBack(cents: int) {
    FormatRand(cents).Some? && RandToCents(Text(FormatRand(cents).value)) == Ok(cents)
  }

  /**
   Parsing a printed amount gives it back iff it can be printed at all, is not negative, and decimal arithmetic
   keeps it: at most 28 digits, or zeros beyond the 28th. A negative amount prints its sign before the R, which
   is then not recognised as a prefix, and is refused.
   */
  lemma PrintThenParse(cents: int)
    ensures ComesBack(cents) <==> Length(Abs(cents) / 100) <= 4_300 && cents >= 0 && Kept(cents)
    ensures cents < 0 && Printable(cents) ==> RandToCents(Text(FormatRand(cents).value)) == Err(NotAnAmount)
  {
    hide Rendered, RandToCents, Kept;
    if cents >= 0 {
      PrintedParses(cents);
      ExactCents(cents);
    } else {
      NegativeRefused(cents);
    }
  }

  lemma NegativeRefused(cents: int)
    requires cents < 0
    ensures RandToCents(Text(Rendered(cents))) == Err(NotAnAmount)
  {
    hide Grouped, Digits, Replace, Strip, ParseDecimal;
    var n := Abs(cents);
    var g, dd := Grouped(Digits(n / 100)), TwoDigits(n % 100);
    var body := Replace(g + ("." + dd), ',', Some(' '));
    assert "-R" + g + "." + dd == "-R" + (g + ("." + dd));
    ReplaceConcat("-R", g + ("." + dd), ',', Some(' '));
    ReplaceNothing("-R", ',', Some(' '));
    assert AllDigits(dd) && dd != "";
    EndsIn(g, dd);
    var printed := "-R" + body;
    assert Rendered(cents) == printed && printed[0] == '-' && printed[|printed| - 1] == body[|body| - 1];
    NothingToStrip(printed);
    ReplaceConcat("-R", body, ' ', None);
    ReplaceNothing("-R", ' ', None);
    StartsWithR(Replace(body, ' ', None));
  }

  lemma StartsWithR(rest: string)
    ensures ParseDecimal("-R" + rest) == None
  {
    var body := ("-R" + rest)[1..];
    assert body[0] == 'R';
    var point := PointAt(body);
    var whole, fraction := body[..point], if point < |body| then body[point + 1..] else "";
    assert (whole + fraction)[0] == 'R';
  }

  /** In particular every amount below 10^28 cents comes back. */
  lemma OrdinaryAmountsComeBack(cents: nat)
    requires cents < 10_000_000_000_000_000_000_000_000_000
    ensures ComesBack(cents)
  {
    PrintThenParse(cents);
    ShortEnough(cents);
    ShortEnough(cents / 100);
  }

  lemma ShortEnough(n: nat)
    requires n < 10_000_000_000_000_000_000_000_000_000
    ensures Length(n) <= PRECISION
  {
    hide Pow10;
    LengthBounds(n);
    TenTo28();
    if Length(n) > PRECISION {
      PowMonotone(PRECISION, Length(n) - 1);
    }
  }

  lemma TenTo28()
    ensures Pow10(PRECISION) == 10_000_000_000_000_000_000_000_000_000
  {
    assert Pow10(10) == 10_000_000_000;
    assert Pow10(20) == 100_000_000_000_000_000_000;
  }

  // --- what is printed, position by position ---------------------------------------------------------------

  function FromRight(text: string, k: nat): char
    requires k < |text|
  {
    text[|text| - 1 - k]
  }

  /** Counted from the right: three digits and a separator, over and over, and nothing left over in front. */
  predicate ByThousands(text: string, digits: string, separator: char) {
    && |digits| > 0 && |text| == |digits| + (|digits| - 1) / 3
    && forall k :: 0 <= k < |text| ==>
         FromRight(text, k) == if k % 4 == 3 then separator else FromRight(digits, k - k / 4)
  }

  lemma {:induction false} GroupedAt(s: string)
    requires s != ""
    ensures ByThousands(Grouped(s), s, ',')
  {
    if |s| > 3 {
      var head, tail := s[..|s| - 3], s[|s| - 3..];
      GroupedAt(head);
      assert head + tail == s;
      GroupAdded(Grouped(head), head, tail);
    }
  }

  lemma GroupAdded(text: string, digits: string, tail: string)
    requires ByThousands(text, digits, ',') && |tail| == 3
    ensures ByThousands(text + "," + tail, digits + tail, ',')
  {
    var more, all := text + "," + tail, digits + tail;
    forall k | 0 <= k < |more|
      ensures FromRight(more, k) == if k % 4 == 3 then ',' else FromRight(all, k - k / 4)
    {
      if k >= 4 {
        var j := k - 4;
        assert FromRight(more, k) == FromRight(text, j) && j % 4 == k % 4 && j / 4 == k / 4 - 1;
      }
    }
  }

  lemma {:induction false} Respaced(text: string, digits: string)
    requires ByThousands(text, digits, ',') && AllDigits(digits)
    ensures ByThousands(Replace(text, ',', Some(' ')), digits, ' ')
  {
    ReplaceAt(text, ',', ' ');
    var after := Replace(text, ',', Some(' '));
    forall k | 0 <= k < |after|
      ensures FromRight(after, k) == if k % 4 == 3 then ' ' else FromRight(digits, k - k / 4)
    {
      assert FromRight(text, k) == if k % 4 == 3 then ',' else FromRight(digits, k - k / 4);
      assert k % 4 != 3 ==> IsDigit(FromRight(digits, k - k / 4));
    }
  }

  lemma {:induction false} ReplaceAt(s: string, from: char, to: char)
    ensures var t := Replace(s, from, Some(to));
            |t| == |s| && forall i :: 0 <= i < |s| ==> t[i] == if s[i] == from then to else s[i]
  {
    if s != "" {
      ReplaceAt(s[..|s| - 1], from, to);
    }
  }

  lemma TwoAt(n: nat)
    requires n < 100
    ensures TwoDigits(n) == ["0123456789"[n / 10], "0123456789"[n % 10]] && ',' !in TwoDigits(n)
  {
  }

  lemma Spaced(sign: string, grouped: string, dd: string)
    requires ',' !in sign && ',' !in dd
    ensures Replace(sign + grouped + "." + dd, ',', Some(' ')) == sign + Replace(grouped, ',', Some(' ')) + "." + dd
  {
    hide Replace;
    ReplaceConcat(sign + grouped + ".", dd, ',', Some(' '));
    ReplaceConcat(sign + grouped, ".", ',', Some(' '));
    ReplaceConcat(sign, grouped, ',', Some(' '));
    ReplaceNothing(sign, ',', Some(' '));
    ReplaceNothing(".", ',', Some(' '));
    ReplaceNothing(dd, ',', Some(' '));
  }

  /** A sign if negative, an R, the rands by thousands with spaces between, a point, and two digits of cents. */
  lemma PrintedAs(cents: int)
    ensures var size := if cents < 0 then -cents else cents;
            var (tens, ones) := (size % 100 / 10, size % 10);
            exists rands ::
              && Rendered(cents)
                 == (if cents < 0 then "-R" else "R") + rands + "." + ["0123456789"[tens], "0123456789"[ones]]
              && ByThousands(rands, Digits(size / 100), ' ')
  {
    hide Grouped, Digits, Replace, ByThousands, TwoDigits;
    var size: nat := Abs(cents);
    var sign := if cents < 0 then "-R" else "R";
    var dd := TwoDigits(size % 100);
    var grouped := Grouped(Digits(size / 100));
    GroupedAt(Digits(size / 100));
    Respaced(grouped, Digits(size / 100));
    assert Rendered(cents) == Replace(sign + grouped + "." + dd, ',', Some(' '));
    hide Rendered;
    TwoAt(size % 100);
    Spaced(sign, grouped, dd);
    var rands := Replace(grouped, ',', Some(' '));
    assert Rendered(cents) == sign + rands + "." + dd;
    assert dd == ["0123456789"[size % 100 / 10], "0123456789"[size % 10]];
  }

  // --- what is parsed -------------------------------------------------------------------------------------------

  /** A plain numeral: a sign or none, digits, and a point with the places after it or none. */
  function Numeral(sign: string, whole: string, places: Option<string>): string {
    sign + (whole + Rest(places))
  }

  function Rest(places: Option<string>): string {
    match places case Some(fraction) => "." + fraction case None => ""
  }

  function Fraction(places: Option<string>): string {
    match places case Some(fraction) => fraction case None => ""
  }

  predicate IsNumeral(sign: string, whole: string, places: Option<string>) {
    && (sign == "" || sign == "-" || sign == "+")
    && AllDigits(whole + Fraction(places)) && whole + Fraction(places) != ""
  }

  lemma {:induction false} NoPoint(whole: string)
    requires AllDigits(whole)
    ensures PointAt(whole) == |whole|
  {
    if whole != "" {
      NoPoint(whole[1..]);
    }
  }

  lemma PartsAreDigits(whole: string, fraction: string)
    requires AllDigits(whole + fraction)
    ensures AllDigits(whole) && AllDigits(fraction)
  {
    assert forall i :: 0 <= i < |whole| ==> whole[i] == (whole + fraction)[i];
    assert forall i :: 0 <= i < |fraction| ==> fraction[i] == (whole + fraction)[|whole| + i];
  }

  lemma NumeralParses(sign: string, whole: string, places: Option<string>)
    requires IsNumeral(sign, whole, places)
    ensures ParseDecimal(Numeral(sign, whole, places)) ==
            Some(Decimal(sign == "-", Value(whole + Fraction(places)), |Fraction(places)|))
  {
    hide Value, Unsigned, AllDigits, Rest, Fraction;
    var text, body := Numeral(sign, whole, places), whole + Rest(places);
    UnsignedParses(whole, places, sign == "-");
    assert text == sign + body && (sign == "" ==> text == body) && (sign != "" ==> text[1..] == body);
  }

  lemma UnsignedParses(whole: string, places: Option<string>, negative: bool)
    requires AllDigits(whole + Fraction(places)) && whole + Fraction(places) != ""
    ensures var body := whole + Rest(places);
            && body != "" && body[0] != '-' && body[0] != '+'
            && Unsigned(body, negative) == Some(Decimal(negative, Value(whole + Fraction(places)), |Fraction(places)|))
  {
    hide Value;
    PartsAreDigits(whole, Fraction(places));
    BodyParts(whole, places);
    hide AllDigits, Rest, Fraction, PointAt;
  }

  lemma BodyParts(whole: string, places: Option<string>)
    requires AllDigits(whole) && AllDigits(Fraction(places)) && whole + Fraction(places) != ""
    ensures var body := whole + Rest(places);
            && body != "" && body[0] != '-' && body[0] != '+'
            && PointAt(body) == |whole| && body[..|whole|] == whole
            && (if |whole| < |body| then body[|whole| + 1..] else "") == Fraction(places)
  {
    NoPoint(whole);
    match places
    case Some(fraction) =>
      PointFound(whole, fraction);
      assert whole + Rest(places) == whole + "." + fraction;
    case None => assert whole + Rest(places) == whole;
  }

  lemma UnsignedParts(body: string, negative: bool) returns (whole: string, places: Option<string>)
    requires Unsigned(body, negative).Some?
    ensures body == whole + Rest(places)
    ensures AllDigits(whole + Fraction(places)) && whole + Fraction(places) != ""
  {
    hide Value;
    var point := PointAt(body);
    whole, places := body[..point], if point < |body| then Some(body[point + 1..]) else None;
  }

  /** Only plain numerals are amounts. */
  lemma OnlyNumeralsParse(text: string)
    ensures ParseDecimal(text).Some? <==>
            exists sign, whole, places :: IsNumeral(sign, whole, places) && text == Numeral(sign, whole, places)
  {
    hide Value, Unsigned, Fraction, Rest, AllDigits;
    if ParseDecimal(text).Some? {
      var sign := if text != "" && (text[0] == '-' || text[0] == '+') then text[..1] else "";
      assert text == sign + text[|sign|..];
      var whole, places := UnsignedParts(text[|sign|..], sign == "-");
      assert IsNumeral(sign, whole, places) && text == Numeral(sign, whole, places);
    }
    hide ParseDecimal, IsNumeral, Numeral;
    forall sign, whole, places | IsNumeral(sign, whole, places) && text == Numeral(sign, whole, places)
      ensures ParseDecimal(text).Some?
    {
      NumeralParses(sign, whole, places);
    }
  }

  /** Of few enough digits to be kept, a decimal is its exact number of cents, or has fractions of one. */
  lemma ExactDecimal(d: Decimal)
    requires Length(100 * d.coefficient) <= PRECISION
    ensures var unit := Pow10(d.places);
            && unit > 0
            && ToCents(d) == if 100 * d.coefficient % unit != 0 then Err(FractionsOfACent)
                             else Ok((if d.negative then -1 else 1) * (100 * d.coefficient / unit))
  {
    PowPositive(d.places);
    hide Digits, HalfEven;
    assert Rounded(100 * d.coefficient) == (100 * d.coefficient, 0);
    hide Rounded;
    if d.places == 0 {
      DivModIs(100 * d.coefficient, 1, 100 * d.coefficient);
    }
  }

  lemma {:induction false} Stripped(before: string, body: string, after: string)
    requires (forall c :: c in before + after ==> IsSpace(c))
    requires body != "" && !IsSpace(body[0]) && !IsSpace(body[|body| - 1])
    ensures Strip(before + body + after) == body
    decreases |before| + |after|
  {
    var s := before + body + after;
    if before != "" {
      assert s[1..] == before[1..] + body + after && s[0] == before[0];
      assert before[0] in before + after;
      assert forall c :: c in before[1..] + after ==> c in before + after;
      Stripped(before[1..], body, after);
    } else if after != "" {
      assert s[0] == body[0] && s[..|s| - 1] == before + body + after[..|after| - 1];
      assert s[|s| - 1] == after[|after| - 1] && after[|after| - 1] in before + after;
      assert forall c :: c in before + after[..|after| - 1] ==> c in before + after;
      Stripped(before, body, after[..|after| - 1]);
    } else {
      assert s == body;
      NothingToStrip(body);
    }
  }

  lemma NumeralEdges(sign: string, whole: string, places: Option<string>)
    requires IsNumeral(sign, whole, places)
    ensures var text := Numeral(sign, whole, places);
            && text != "" && text[0] != 'R' && (forall c :: c in text ==> !IsSpace(c))
  {
    PartsAreDigits(whole, Fraction(places));
  }

  /** A plain numeral, with or without an R before it and white space about it, is its exact number of cents. */
  lemma NumeralIsCents(before: string, r: bool, sign: string, whole: string, places: Option<string>, after: string)
    requires forall c :: c in before + after ==> 9 <= c as int <= 13 || 28 <= c as int <= 32
    requires IsNumeral(sign, whole, places)
    requires Length(100 * Value(whole + Fraction(places))) <= PRECISION
    ensures var text := before + ((if r then "R" else "") + Numeral(sign, whole, places)) + after;
            var (value, unit) := (100 * Value(whole + Fraction(places)), Pow10(|Fraction(places)|));
            && unit > 0
            && RandToCents(Text(text)) ==
               if value % unit != 0 then Err(FractionsOfACent)
               else Ok((if sign == "-" then -1 else 1) * (value / unit))
  {
    assert forall c :: c in before + after ==> IsSpace(c);
    hide Value, Digits, Numeral, Strip, Replace, ToCents, ParseDecimal, IsSpace, Pow10, IsNumeral;
    var numeral := Numeral(sign, whole, places);
    var body := (if r then "R" else "") + numeral;
    NumeralEdges(sign, whole, places);
    NotSpace();
    assert body[|body| - 1] in numeral && (body[0] == 'R' || body[0] in numeral);
    Stripped(before, body, after);
    assert WithoutPrefix(body, 'R') == numeral;
    ReplaceNothing(numeral, ' ', None);
    NumeralParses(sign, whole, places);
    ExactDecimal(ParseDecimal(numeral).value);
  }

  lemma NotSpace()
    ensures !IsSpace('R') && IsSpace(' ')
  {
  }

  /** A number of rands and the same number written out are the same amount. */
  lemma WrittenOut(rand: int)
    requires Length(100 * Abs(rand)) <= PRECISION
    ensures RandToCents(Whole(rand)) == Ok(100 * rand)
    ensures RandToCents(Text((if rand < 0 then "-" else "") + Digits(Abs(rand)))) == Ok(100 * rand)
  {
    var sign, digits := if rand < 0 then "-" else "", Digits(Abs(rand));
    DigitsValue(Abs(rand));
    hide Digits, Value, RandToCents;
    assert digits + "" == digits;
    assert "" + ("" + Numeral(sign, digits, None)) + "" == sign + digits;
    NumeralIsCents("", false, sign, digits, None, "");
    assert Pow10(0) == 1;
    DivModIs(100 * Abs(rand), 1, 100 * Abs(rand));
    WholeIs(rand);
  }

  lemma WholeIs(rand: int)
    ensures RandToCents(Whole(rand)) == Ok(100 * rand)
  {
  }

  /** Rounding is to the nearest, and to the even one of two as near. */
  lemma HalfEvenIsNearest(m: nat, unit: nat, whole: int)
    requires unit > 0
    ensures var off := 2 * (whole * unit - m);
            whole == HalfEven(m, unit) <==> Abs(off) <= unit && (Abs(off) == unit ==> whole % 2 == 0)
  {
    var q, r := m / unit, m % unit;
    var x := whole - q;
    assert whole * unit - m == x * unit - r;
    Multiple(unit, x);
    NearestFrom(q, r, unit, x, x * unit);
  }

  lemma NearestFrom(q: nat, r: nat, unit: nat, x: int, p: int)
    requires r < unit && (x <= -1 ==> p + unit <= 0) && (x >= 2 ==> p >= 2 * unit)
    requires (x == 0 ==> p == 0) && (x == 1 ==> p == unit)
    ensures var off := 2 * (p - r);
            x == (if 2 * r > unit || (2 * r == unit && q % 2 == 1) then 1 else 0) <==>
            Abs(off) <= unit && (Abs(off) == unit ==> (q + x) % 2 == 0)
  {
  }

  lemma Multiple(unit: nat, x: int)
    requires unit > 0
    ensures x <= -1 ==> x * unit + unit <= 0
    ensures x >= 2 ==> x * unit >= 2 * unit
    ensures x == 0 ==> x * unit == 0
    ensures x == 1 ==> x * unit == unit
  {
  }
}
