/**
 A run that overdraws the float: a payout settles between the two sums of another create's float check.
 The first create reserves 487.50 of a float of 600.00. The second reads the settlement balance, the first
 settles, and the second then reads that nothing is owed: it sees 600.00 where 112.50 is left.
 */
module Overdraft {
  import opened Wrappers
  import opened Models
  import opened Fees
  import opened Ledger
  import opened Payouts
  import opened Deposits
  import opened Protocol
  import opened Reachable
  import opened Safety
  import opened Float
  import Switch

  const SETTINGS := Settings(250, 1_000, 600)

  const LEFT := Voucher(50_000, Active, None, 0, "sa", None)
  const RIGHT := Voucher(50_000, Active, None, 0, "sb", None)

  function Plain(newToken: Token): Input {
    Input(0, Allow, true, ["KD-AAAAAA"], true, Up, "po", newToken)
  }

  /** The second create: another reference, and its float check in two reads. */
  const SPLIT := Input(0, Allow, false, ["KD-BBBBBB"], true, Up, "po", "")

  function Args(token: Token): CreateArgs {
    CreateArgs(token, "", token, 0, false)
  }

  const TOKENS := map["ta" := VoucherToken("A", 600, None), "tb" := VoucherToken("B", 600, None)]

  const FUNDING := Group(None, FundingEntries(60_000))

  function Quote(token: Token): Pc {
    Done(Quoted(token, 50_000, 1_250, 48_750))
  }

  /** Two vouchers vended and looked up, the float funded. */
  const READY := World(Tables(map["A" := LEFT, "B" := RIGHT], TOKENS, [], map[], [FUNDING]), EmptyBank(),
                       map[0 := Quote("ta"), 1 := Quote("tb")], None, [])

  const DEPOSIT := Deposit("KD-AAAAAA", "A", 50_000, 1_250, 48_750, 0, "", Charged, None, "ta", 0, 0)

  lemma Lookup(run: seq<Action>, w: World, p: Proc, pin: Pin, token: Token) returns (run': seq<Action>, w': World)
    requires w == Reached(SETTINGS, run) && p !in w.procs && token !in w.t.tokens
    requires pin in w.t.vouchers && w.t.vouchers[pin].status == Active && w.t.vouchers[pin].amount == 50_000
    ensures w' == Reached(SETTINGS, run')
    ensures w' == w.(t := w.t.(tokens := w.t.tokens[token := VoucherToken(pin, 600, None)]),
                     procs := w.procs[p := Quote(token)])
  {
    run', w' := Extend(SETTINGS, run, w, Begin(p, LookupStart(pin)));
    run', w' := Extend(SETTINGS, run', w', Run(p, Plain(token)));
    assert w' == At(w, p, LookupInsert(pin, 50_000));
    run', w' := Extend(SETTINGS, run', w', Run(p, Plain(token)));
    assert w'.procs == w.procs[p := Quote(token)];
  }

  lemma Prepare() returns (run: seq<Action>, w: World)
    ensures w == Reached(SETTINGS, run) && w == READY
  {
    run, w := [], START;
    run, w := Extend(SETTINGS, run, w, Vend("A", "sa", 50_000, None, 0));
    assert w == START.(t := EMPTY.(vouchers := map["A" := LEFT]));
    run, w := Extend(SETTINGS, run, w, Vend("B", "sb", 50_000, None, 0));
    assert w.t == EMPTY.(vouchers := map["A" := LEFT, "B" := RIGHT]) by {
      assert !Switch.Collides(map["A" := LEFT], "B", "sb");
    }
    run, w := Extend(SETTINGS, run, w, Fund(60_000));
    assert w.t.ledger == [FUNDING];
    run, w := Lookup(run, w, 0, "A", "ta");
    run, w := Lookup(run, w, 1, "B", "tb");
  }

  /** A create with a good token passes the assessment and takes the float lock. */
  lemma Checked(run: seq<Action>, w: World, p: Proc, token: Token, pin: Pin, i: Input)
    returns (run': seq<Action>, w': World)
    requires w == Reached(SETTINGS, run) && p !in w.procs && w.floatLock == None
    requires i.screening == Allow && i.now == 0
    requires token in w.t.tokens && w.t.tokens[token] == VoucherToken(pin, 600, None)
    requires pin in w.t.vouchers && w.t.vouchers[pin].status == Active && w.t.vouchers[pin].amount == 50_000
    ensures w' == Reached(SETTINGS, run')
    ensures w' == w.(procs := w.procs[p := CreateChecked(Args(token), pin, 48_750)], floatLock := Some(p))
  {
    run', w' := Extend(SETTINGS, run, w, Begin(p, CreateStart(Args(token))));
    run', w' := Extend(SETTINGS, run', w', Run(p, i));
    assert w' == At(w, p, CreateScreened(Args(token)));
    run', w' := Extend(SETTINGS, run', w', Run(p, i));
    assert w'.procs == w.procs[p := CreateChecked(Args(token), pin, 48_750)];
  }

  /** The first create has charged its voucher, reserving 487.50. */
  lemma FirstCharges() returns (run: seq<Action>, w: World)
    ensures w == Reached(SETTINGS, run)
    ensures w.t == CHARGED && w.bank == EmptyBank() && w.floatLock == None
    ensures w.procs == READY.procs[2 := AdvanceStart(0)]
  {
    hide Reached, CheckToken, CommitCharge;
    run, w := Prepare();
    run, w := Checked(run, w, 2, "ta", "A", Plain(""));
    Totals();
    run, w := Extend(SETTINGS, run, w, Run(2, Plain("")));
    assert w.procs == READY.procs[2 := CreateCovered(Args("ta"), "A", 48_750, 60_000, 1, 1)];
    ChargeFirst(Args("ta"));
    run, w := Extend(SETTINGS, run, w, Run(2, Plain("")));
    assert w.procs == READY.procs[2 := AdvanceStart(0)];
  }

  const CHARGED := Tables(map["A" := LEFT.(status := Redeemed, redeemedAt := Some(0)), "B" := RIGHT],
                          TOKENS["ta" := VoucherToken("A", 600, Some(0))], [DEPOSIT], map[],
                          [FUNDING, Group(Some(0), ChargeEntries(DEPOSIT))])

  lemma Totals()
    ensures Available([FUNDING]) == 60_000 && BalanceOf(CHARGED.ledger, Settlement) == 60_000
  {
    FundingTotals(60_000, Settlement);
    FundingTotals(60_000, UserPayable);
    AppendGroup([], FUNDING);
    assert [] + [FUNDING] == [FUNDING];
    AppendGroup([FUNDING], Group(Some(0), ChargeEntries(DEPOSIT)));
    EntryTotals(DEPOSIT, Settlement);
    assert [FUNDING] + [Group(Some(0), ChargeEntries(DEPOSIT))] == CHARGED.ledger;
  }

  lemma ChargeFirst(a: CreateArgs)
    requires a == Args("ta")
    ensures CommitCharge(SETTINGS, READY.t, a, "A", ["KD-AAAAAA"], 0) == Ok(CHARGED)
  {
    DepositPostings(0, DEPOSIT);
    var row := PendingRow(SETTINGS, a, "A", 50_000, 0);
    assert !ReferenceTaken([], "KD-AAAAAA") && !KeyTaken([], "ta");
    assert InsertDeposit([], row, ["KD-AAAAAA"]) == Ok([] + [row.(reference := "KD-AAAAAA")]);
    var inserted := [] + [row.(reference := "KD-AAAAAA")];
    assert inserted[0 := DEPOSIT] == [DEPOSIT] && DEPOSIT == inserted[0].(status := Charged);
    assert CHARGED.ledger == READY.t.ledger + [Group(Some(0), ChargeEntries(DEPOSIT))];
    assert CHARGED.vouchers == READY.t.vouchers["A" := LEFT.(status := Redeemed, redeemedAt := Some(0))];
    assert CHARGED.tokens == Consume(READY.t.tokens, "ta", 0);
  }

  const INSTRUCTED := CHARGED.(deposits := [DEPOSIT.(status := Paying)],
                               payouts := map[0 := Payout("po", 48_750, PayoutPending, None)])

  const PAID := ProviderStatus(PayoutCompleted, None)

  /** Its payout is accepted... */
  lemma FirstIsAccepted() returns (run: seq<Action>, w: World)
    ensures w == Reached(SETTINGS, run)
    ensures w.t == CHARGED && w.floatLock == None
    ensures w.bank == Bank(map[0 := "po"], map["po" := BankPayout(0, 48_750, PENDING)])
    ensures w.procs == READY.procs[2 := InstructRecord(0, "po")]
  {
    hide Reached, StepQuote, StepScreen, StepCheck, StepFloat, StepOwed, StepCommit, StepReplay, StepReadPayout,
         StepAsk, StepRecordInstruction, StepRecordOutcome;
    run, w := FirstCharges();
    run, w := Extend(SETTINGS, run, w, Run(2, Plain("")));
    run, w := Extend(SETTINGS, run, w, Run(2, Plain("")));
    assert w.procs == READY.procs[2 := InstructCall(0, 48_750)];
    run, w := Extend(SETTINGS, run, w, Run(2, Plain("")));
    assert w.procs == READY.procs[2 := InstructRecord(0, "po")];
  }

  /** ...and recorded... */
  lemma FirstIsInstructed() returns (run: seq<Action>, w: World)
    ensures w == Reached(SETTINGS, run)
    ensures w.t == INSTRUCTED && w.floatLock == None
    ensures w.bank == Bank(map[0 := "po"], map["po" := BankPayout(0, 48_750, PENDING)])
    ensures w.procs == READY.procs[2 := PayoutRead(0)]
  {
    hide Reached, StepQuote, StepScreen, StepCheck, StepFloat, StepOwed, StepCommit, StepReplay, StepReadPayout,
         StepAsk, StepCreatePayout, StepRecordOutcome;
    run, w := FirstIsAccepted();
    run, w := Extend(SETTINGS, run, w, Run(2, Plain("")));
    assert w.t == INSTRUCTED && w.procs == READY.procs[2 := PayoutRead(0)];
  }

  /** ...the bank completes it, and the answer is on its way to phase 3. */
  lemma FirstIsPaid() returns (run: seq<Action>, w: World)
    ensures w == Reached(SETTINGS, run)
    ensures w.t == INSTRUCTED && w.floatLock == None
    ensures w.procs == READY.procs[2 := PayoutRecord(0, "A", PAID)]
  {
    hide Reached, StepQuote, StepScreen, StepCheck, StepFloat, StepOwed, StepCommit, StepReplay, StepCreatePayout,
         StepRecordInstruction, StepRecordOutcome;
    run, w := FirstIsInstructed();
    run, w := Extend(SETTINGS, run, w, Run(2, Plain("")));
    assert w.procs == READY.procs[2 := PayoutAsk(0, "po", "A")];
    run, w := Extend(SETTINGS, run, w, BankMoves("po", PAID));
    run, w := Extend(SETTINGS, run, w, Run(2, Plain("")));
    assert w.procs == READY.procs[2 := PayoutRecord(0, "A", PAID)];
  }

  const SETTLED := INSTRUCTED.(deposits := [DEPOSIT.(status := Settled)],
                               payouts := map[0 := Payout("po", 48_750, PayoutCompleted, None)],
                               ledger := CHARGED.ledger + [Group(Some(0), SettlementEntries(DEPOSIT))])

  lemma SettledTotals()
    ensures BalanceOf(SETTLED.ledger, Settlement) == 11_250 && BalanceOf(SETTLED.ledger, UserPayable) == 0
    ensures PayoutWrite(INSTRUCTED, 0, PAID, 0) == Wrote(SETTLED)
  {
    Totals();
    AppendGroup([FUNDING], Group(Some(0), ChargeEntries(DEPOSIT)));
    EntryTotals(DEPOSIT, Settlement);
    EntryTotals(DEPOSIT, UserPayable);
    assert [FUNDING] + [Group(Some(0), ChargeEntries(DEPOSIT))] == CHARGED.ledger;
    FundingTotals(60_000, UserPayable);
    AppendGroup([], FUNDING);
    assert [] + [FUNDING] == [FUNDING];
    AppendGroup(CHARGED.ledger, Group(Some(0), SettlementEntries(DEPOSIT)));
    DepositPostings(0, DEPOSIT);
    assert SettlementEntries(DEPOSIT.(status := Paying)) == SettlementEntries(DEPOSIT);
  }

  /** The second create has read 600.00 in the settlement account... */
  lemma SecondHalfReads() returns (run: seq<Action>, w: World)
    ensures w == Reached(SETTINGS, run)
    ensures w.t == INSTRUCTED && 2 in w.procs && w.procs[2] == PayoutRecord(0, "A", PAID)
    ensures 3 in w.procs && w.procs[3] == CreateHalfRead(Args("tb"), "B", 48_750, 60_000, 2)
  {
    hide Reached, StepQuote, StepScreen, StepCheck, StepOwed, StepCommit, StepReplay, StepReadPayout, StepAsk,
         StepCreatePayout, StepRecordInstruction, StepRecordOutcome;
    run, w := FirstIsPaid();
    run, w := Checked(run, w, 3, "tb", "B", SPLIT);
    Totals();
    run, w := Extend(SETTINGS, run, w, Run(3, SPLIT));
  }

  /** ...when the first settles. */
  lemma SettlesInBetween() returns (run: seq<Action>, w: World)
    ensures w == Reached(SETTINGS, run)
    ensures w.t == SETTLED && 3 in w.procs
    ensures w.procs[3] == CreateHalfRead(Args("tb"), "B", 48_750, 60_000, 2)
  {
    hide Reached, PayoutWrite, StepQuote, StepScreen, StepCheck, StepFloat, StepOwed, StepCommit, StepReplay,
         StepReadPayout, StepAsk, StepCreatePayout, StepRecordInstruction;
    run, w := SecondHalfReads();
    SettledTotals();
    run, w := Extend(SETTINGS, run, w, Run(2, Plain("")));
  }

  /** It passes its float check with only 112.50 left. */
  lemma SecondIsCovered() returns (run: seq<Action>, w: World)
    ensures w == Reached(SETTINGS, run)
    ensures w.t == SETTLED && 3 in w.procs
    ensures w.procs[3] == CreateCovered(Args("tb"), "B", 48_750, 60_000, 2, 3)
  {
    hide Reached, StepQuote, StepScreen, StepCheck, StepFloat, StepCommit, StepReplay, StepReadPayout, StepAsk,
         StepCreatePayout, StepRecordInstruction, StepRecordOutcome;
    run, w := SettlesInBetween();
    SettledTotals();
    run, w := Extend(SETTINGS, run, w, Run(3, SPLIT));
  }

  lemma SecondCommits()
    ensures var r := CommitCharge(SETTINGS, SETTLED, Args("tb"), "B", SPLIT.references, 0); r.Ok? && r.value != SETTLED
  {
    assert SETTLED.deposits[0].key == "ta" && !ReferenceTaken(SETTLED.deposits, SPLIT.references[0]);
    ChargeCommitsIff(SETTINGS, SETTLED, Args("tb"), "B", SPLIT.references, 0);
    ChargeOutcome(SETTINGS, SETTLED, Args("tb"), "B", SPLIT.references, 0);
  }

  lemma SecondMoves(w: World)
    requires w.t == SETTLED && 3 in w.procs && w.procs[3] == CreateCovered(Args("tb"), "B", 48_750, 60_000, 2, 3)
    ensures RunStep(SETTINGS, w, 3, SPLIT).t != SETTLED
  {
    hide CommitCharge;
    SecondCommits();
  }

  /** So the float can be overdrawn: here by 375.00. */
  lemma FloatCanBeOverdrawn()
    ensures exists run :: Available(Reached(SETTINGS, run).t.ledger) == -37_500
  {
    hide Reached, RunStep, Inv, ChargedBy, BalanceOf;
    var run, w := SecondIsCovered();
    ReachedOk(SETTINGS, run);
    SettledTotals();
    SecondMoves(w);
    CommitMoves(SETTINGS, w, 3, SPLIT);
    var run', w' := Extend(SETTINGS, run, w, Run(3, SPLIT));
    assert Available(Reached(SETTINGS, run').t.ledger) == -37_500;
  }
}
