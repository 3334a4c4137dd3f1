/** A run for each reason a provider may give: the payout fails, and the voucher, its fee and the float come back. */
module Failure {
  import opened Wrappers
  import opened Models
  import opened Fees
  import opened Ledger
  import opened Payouts
  import opened Deposits
  import opened Protocol
  import opened Reachable
  import opened Safety
  import opened Overdraft

  function No(reason: Option<string>): ProviderStatus {
    ProviderStatus(PayoutFailed, reason)
  }

  function Said(reason: Option<string>): string {
    match reason
    case Some(text) => if text != "" then text else "unknown"
    case None => "unknown"
  }

  /** What is left of the first create's charge once its payout has failed. */
  function Returned(said: string): Tables {
    INSTRUCTED.(vouchers := map["A" := LEFT, "B" := RIGHT],
                deposits := [DEPOSIT.(status := Failed, failureReason := Some(said))],
                payouts := map[0 := Payout("po", 48_750, PayoutFailed, Some(said))],
                ledger := CHARGED.ledger + [Group(Some(0), ReversalEntries(DEPOSIT))])
  }

  lemma FirstIsDeclined(reason: Option<string>) returns (run: seq<Action>, w: World)
    ensures w == Reached(SETTINGS, run) && w.t == INSTRUCTED
    ensures 2 in w.procs && w.procs[2] == PayoutRecord(0, "A", No(reason))
  {
    hide Reached, StepQuote, StepScreen, StepCheck, StepFloat, StepOwed, StepCommit, StepReplay, StepCreatePayout,
         StepRecordInstruction, StepRecordOutcome;
    run, w := FirstIsInstructed();
    run, w := Extend(SETTINGS, run, w, Run(2, Plain("")));
    assert w.procs == READY.procs[2 := PayoutAsk(0, "po", "A")];
    run, w := Extend(SETTINGS, run, w, BankMoves("po", No(reason)));
    run, w := Extend(SETTINGS, run, w, Run(2, Plain("")));
  }

  lemma Reverses(reason: Option<string>)
    ensures PayoutWrite(INSTRUCTED, 0, No(reason), 0) == Wrote(Returned(Said(reason)))
  {
    DepositPostings(0, DEPOSIT);
    assert ReversalEntries(DEPOSIT.(status := Paying)) == ReversalEntries(DEPOSIT);
    assert Returned(Said(reason)).vouchers == INSTRUCTED.vouchers["A" := LEFT];
  }

  lemma NothingReserved(said: string)
    ensures Available(Returned(said).ledger) == 60_000
  {
    Totals();
    forall a: Account
      ensures BalanceOf(Returned(said).ledger, a) == BalanceOf([FUNDING], a)
    {
      AppendGroup([FUNDING], Group(Some(0), ChargeEntries(DEPOSIT)));
      assert [FUNDING] + [Group(Some(0), ChargeEntries(DEPOSIT))] == CHARGED.ledger;
      AppendGroup(CHARGED.ledger, Group(Some(0), ReversalEntries(DEPOSIT)));
      EntryTotals(DEPOSIT, a);
    }
  }

  /** Whatever the provider says, or does not, a failed payout can be reached, and leaves everything as it was. */
  lemma PayoutsCanFail(reason: Option<string>)
    ensures exists run ::
              var t := Reached(SETTINGS, run).t;
              && |t.deposits| == 1 && t.deposits[0].status == Failed && 0 in t.payouts
              && t.deposits[0].failureReason == t.payouts[0].failureReason == Some(Said(reason))
              && "A" in t.vouchers && t.vouchers["A"] == LEFT && Available(t.ledger) == 60_000
  {
    hide Reached, PayoutWrite, StepQuote, StepScreen, StepCheck, StepFloat, StepOwed, StepCommit, StepReplay,
         StepReadPayout, StepAsk, StepCreatePayout, StepRecordInstruction;
    var run, w := FirstIsDeclined(reason);
    Reverses(reason);
    NothingReserved(Said(reason));
    var run', w' := Extend(SETTINGS, run, w, Run(2, Plain("")));
    assert w'.t == Returned(Said(reason)) && w' == Reached(SETTINGS, run');
  }
}
