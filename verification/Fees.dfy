/** The fee rule: `percent_of` in app/money.py and what app/deposits.py builds on it. */
module Fees {
  import opened Wrappers
  import opened Models

  datatype Settings = Settings(feeBasisPoints: nat, minVoucherCents: int, tokenTtl: int)

  /** `basisPoints` hundredths of a percent of `cents`, rounded half up. */
  function Percent(cents: nat, basisPoints: nat): nat {
    (cents * basisPoints + 5_000) / 10_000
  }

  /** `percent_of`: None where `percent_of` raises ValueError. */
  function PercentOf(cents: int, basisPoints: int): Option<nat> {
    if cents < 0 || basisPoints < 0 then None else Some(Percent(cents, basisPoints))
  }

  function FeeFor(s: Settings, amount: nat): nat {
    PercentOf(amount, s.feeBasisPoints).value
  }

  predicate TooSmall(s: Settings, amount: nat) {
    amount < s.minVoucherCents || amount <= FeeFor(s, amount)
  }

  function PayoutFor(s: Settings, amount: nat): int {
    amount - FeeFor(s, amount)
  }

  /** What `lookup_voucher` quotes: never below zero. */
  function QuotedPayout(s: Settings, amount: nat): nat {
    if PayoutFor(s, amount) < 0 then 0 else PayoutFor(s, amount)
  }

  /** Within half a cent of cents * bp / 10000; above by half a cent, but not below. */
  predicate Nearest(whole: int, cents: int, basisPoints: int) {
    -5_000 < 10_000 * whole - cents * basisPoints <= 5_000
  }

  /** A percentage is the one nearest whole cent, the larger one on a tie; negative inputs are refused. */
  lemma PercentIsNearest(cents: int, basisPoints: int, whole: int)
    ensures match PercentOf(cents, basisPoints)
            case None => cents < 0 || basisPoints < 0
            case Some(r) => cents >= 0 && basisPoints >= 0 && (Nearest(whole, cents, basisPoints) <==> whole == r)
  {
  }

  /**
   A voucher can be deposited exactly when it meets the minimum and leaves more than half a cent
   after the fee; then the payout is positive, the quote is what is paid, and a fee line can be
   posted exactly when the fee reaches half a cent.
   */
  lemma Depositable(s: Settings, amount: nat)
    ensures !TooSmall(s, amount) <==>
            amount >= s.minVoucherCents && amount * (10_000 - s.feeBasisPoints) > 5_000
    ensures !TooSmall(s, amount) ==>
              0 <= FeeFor(s, amount) < amount && QuotedPayout(s, amount) == PayoutFor(s, amount) > 0
    ensures FeeFor(s, amount) >= 1 <==> amount * s.feeBasisPoints >= 5_000
  {
    var x := amount * s.feeBasisPoints;
    assert amount * (10_000 - s.feeBasisPoints) == 10_000 * amount - x;
  }
}
