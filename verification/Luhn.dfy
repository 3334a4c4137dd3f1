/** The check digit of a South African ID number: the Luhn formula of app/sa_id.py. */
module Luhn {

  predicate Digits(s: string) {
    forall i :: 0 <= i < |s| ==> '0' <= s[i] <= '9'
  }

  function Value(ch: char): int {
    ch as int - '0' as int
  }

  /** What a digit adds: itself, or doubled with 9 taken off past 9. */
  function Weight(d: int, doubled: bool): int {
    if !doubled then d else if 2 * d > 9 then 2 * d - 9 else 2 * d
  }

  /** The digit at i is doubled when it is an odd number of places from the end. */
  predicate Doubled(s: string, i: int) {
    (|s| - 1 - i) % 2 == 1
  }

  /** The formula: every digit's weight, from the left. */
  function Sum(s: string): int {
    if s == "" then 0 else Weight(Value(s[0]), |s| % 2 == 0) + Sum(s[1..])
  }

  predicate Valid(s: string) {
    Sum(s) % 10 == 0
  }

  /** `has_valid_checksum`: from the right, doubling every second digit. */
  method HasValidChecksum(digits: string) returns (valid: bool)
    requires Digits(digits)
    ensures valid <==> Sum(digits) % 10 == 0
  {
    var total := 0;
    for i := 0 to |digits|
      invariant total == Sum(digits[|digits| - i..])
    {
      var d := Value(digits[|digits| - 1 - i]);
      if i % 2 == 1 {
        d := d * 2;
        if d > 9 {
          d := d - 9;
        }
      }
      assert digits[|digits| - 1 - i..][1..] == digits[|digits| - i..];
      total := total + d;
    }
    assert digits[0..] == digits;
    valid := total % 10 == 0;
  }

  lemma {:induction false} SumChanged(s: string, i: nat, ch: char)
    requires i < |s|
    ensures Sum(s[i := ch]) == Sum(s) - Weight(Value(s[i]), Doubled(s, i)) + Weight(Value(ch), Doubled(s, i))
  {
    if i == 0 {
      assert s[i := ch][1..] == s[1..];
    } else {
      SumChanged(s[1..], i - 1, ch);
      assert s[i := ch][1..] == s[1..][i - 1 := ch];
    }
  }

  /** The weights of the ten digits are the ten digits again, in another order. */
  lemma WeightsDistinct(d: int, e: int, doubled: bool)
    requires 0 <= d <= 9 && 0 <= e <= 9
    ensures 0 <= Weight(d, doubled) <= 9
    ensures Weight(d, doubled) == Weight(e, doubled) <==> d == e
  {
  }

  /** Changing one digit of a valid number makes it invalid. */
  lemma CatchesOneWrongDigit(s: string, i: nat, ch: char)
    requires Digits(s) && Valid(s) && i < |s| && '0' <= ch <= '9'
    ensures Valid(s[i := ch]) <==> ch == s[i]
  {
    hide Sum, Weight, Doubled;
    SumChanged(s, i, ch);
    var d, e := Weight(Value(s[i]), Doubled(s, i)), Weight(Value(ch), Doubled(s, i));
    WeightsDistinct(Value(s[i]), Value(ch), Doubled(s, i));
    WeightsDistinct(Value(ch), Value(s[i]), Doubled(s, i));
    TensKept(Sum(s), e - d);
    SmallTens(e - d);
  }

  lemma SmallTens(x: int)
    requires -10 < x < 10
    ensures x % 10 == 0 <==> x == 0
  {
  }

  function Swapped(s: string, i: nat): string
    requires i + 1 < |s|
  {
    s[i := s[i + 1]][i + 1 := s[i]]
  }

  /** Swapping two neighbours goes unnoticed only between equal digits, or between 0 and 9. */
  lemma CatchesSwaps(s: string, i: nat)
    requires Digits(s) && Valid(s) && i + 1 < |s|
    ensures Valid(Swapped(s, i)) <==>
            (s[i] == s[i + 1] || (s[i] == '0' && s[i + 1] == '9') || (s[i] == '9' && s[i + 1] == '0'))
  {
    var once := s[i := s[i + 1]];
    SumChanged(s, i, s[i + 1]);
    SumChanged(once, i + 1, s[i]);
    var d, e, doubled := Value(s[i]), Value(s[i + 1]), Doubled(s, i);
    assert Doubled(once, i + 1) == !doubled by {
      Alternate(|s| - 1 - i);
    }
    SwapShift(d, e, doubled);
    TensKept(Sum(s), Weight(e, doubled) + Weight(d, !doubled) - Weight(d, doubled) - Weight(e, !doubled));
  }

  lemma Alternate(n: int)
    ensures (n % 2 == 1) != ((n - 1) % 2 == 1)
  {
  }

  lemma TensKept(total: int, change: int)
    requires total % 10 == 0
    ensures (total + change) % 10 == 0 <==> change % 10 == 0
  {
  }

  lemma SwapShift(d: int, e: int, doubled: bool)
    requires 0 <= d <= 9 && 0 <= e <= 9
    ensures (Weight(e, doubled) + Weight(d, !doubled) - Weight(d, doubled) - Weight(e, !doubled)) % 10 == 0
            <==> (d == e || (d == 0 && e == 9) || (d == 9 && e == 0))
  {
  }

  lemma {:induction false} SumOfAppended(s: string, ch: char)
    ensures Sum(s + [ch]) == Sum(s + ['0']) + Value(ch)
  {
    if s == "" {
      assert [ch][1..] == "" && (s + [ch]) == [ch] && s + ['0'] == ['0'] && ['0'][1..] == "";
    } else {
      SumOfAppended(s[1..], ch);
      assert (s + [ch])[1..] == s[1..] + [ch] && (s + ['0'])[1..] == s[1..] + ['0'];
    }
  }

  /** Every prefix has exactly one digit that completes it. */
  lemma OneCheckDigit(s: string)
    requires Digits(s)
    ensures exists ch :: '0' <= ch <= '9' && Valid(s + [ch])
    ensures forall ch, other ::
              '0' <= ch <= '9' && '0' <= other <= '9' && Valid(s + [ch]) && Valid(s + [other]) ==> ch == other
  {
    hide Sum;
    var total := Sum(s + ['0']);
    var n := (10 - total % 10) % 10;
    var check := ('0' as int + n) as char;
    SumOfAppended(s, check);
    Completes(total, n);
    assert Valid(s + [check]);
    forall ch: char, other: char | '0' <= ch <= '9' && '0' <= other <= '9' && Valid(s + [ch]) && Valid(s + [other])
      ensures ch == other
    {
      SumOfAppended(s, ch);
      SumOfAppended(s, other);
      Completes(total, Value(ch));
      Completes(total, Value(other));
    }
  }

  /** Between 0 and 9, only one number completes a total to a multiple of ten. */
  lemma Completes(total: int, n: int)
    requires 0 <= n <= 9
    ensures (total + n) % 10 == 0 <==> n == (10 - total % 10) % 10
  {
  }
}
