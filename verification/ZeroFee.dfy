/**
 A run in which a perfectly good voucher cannot be deposited: settings with no fee, which configuration
 allows, make the fee line zero, and `post` refuses it.
 */
module ZeroFee {
  import opened Wrappers
  import opened Models
  import opened Fees
  import opened Ledger
  import opened Payouts
  import opened Deposits
  import opened Protocol
  import opened Safety
  import Switch

  const FREE := Settings(0, 1_000, 600)

  const VOUCHER := Voucher(100_000, Active, None, 0, "sa", None)

  const TOKEN := VoucherToken("A", 600, None)

  const FUNDING := Group(None, FundingEntries(100_000))

  const INPUT := Input(0, Allow, true, ["KD-AAAAAA"], true, Up, "po", "ta")

  const ARGS := CreateArgs("ta", "", "key", 0, false)

  const QUOTE := Done(Quoted("ta", 100_000, 0, 100_000))

  const READY := Tables(map["A" := VOUCHER], map["ta" := TOKEN], [], map[], [FUNDING])

  /** The voucher is sold and the float funded. */
  lemma Sells() returns (run: seq<Action>, w: World)
    ensures w == Reached(FREE, run)
    ensures w == World(READY.(tokens := map[]), EmptyBank(), map[], None, [])
  {
    hide Reached, RunStep;
    Begins();
    run, w := Extend(FREE, [], START, Vend("A", "sa", 100_000, None, 0));
    assert w.t.vouchers == map["A" := VOUCHER];
    run, w := Extend(FREE, run, w, Fund(100_000));
    assert w.t.ledger == [FUNDING];
  }

  /** The customer is quoted a payout of the full amount. */
  lemma Quotes() returns (run: seq<Action>, w: World)
    ensures w == Reached(FREE, run)
    ensures w == World(READY, EmptyBank(), map[0 := QUOTE], None, [])
  {
    hide Reached, StepScreen, StepCheck, StepFloat, StepOwed, StepCommit, StepReplay, StepInstruct, StepCreatePayout,
         StepRecordInstruction, StepReadPayout, StepAsk, StepRecordOutcome;
    run, w := Sells();
    NoFee();
    hide FeeFor, QuotedPayout, FundingEntries;
    run, w := Extend(FREE, run, w, Begin(0, LookupStart("A")));
    assert w.procs == map[0 := LookupStart("A")];
    run, w := Extend(FREE, run, w, Run(0, INPUT));
    assert w.procs == map[0 := LookupInsert("A", 100_000)];
    run, w := Extend(FREE, run, w, Run(0, INPUT));
    assert w.procs == map[0 := QUOTE];
    assert w.t.tokens == map["ta" := TOKEN];
  }

  lemma NoFee()
    ensures FeeFor(FREE, 100_000) == 0 && QuotedPayout(FREE, 100_000) == 100_000
  {
  }

  lemma Begins()
    ensures START == Reached(FREE, [])
  {
  }

  /** The create passes every check, the float among them. */
  lemma PassesEveryCheck() returns (run: seq<Action>, w: World)
    ensures w == Reached(FREE, run) && w.t == READY
    ensures 1 in w.procs && w.procs[1] == CreateCovered(ARGS, "A", 100_000, 100_000, 1, 1)
  {
    hide Reached, StepLookup, StepQuote, StepOwed, StepCommit, StepReplay, StepInstruct, StepCreatePayout,
         StepRecordInstruction, StepReadPayout, StepAsk, StepRecordOutcome;
    run, w := Quotes();
    TokenPasses();
    FullFloat();
    hide CheckToken, Available, FundingEntries;
    run, w := Extend(FREE, run, w, Begin(1, CreateStart(ARGS)));
    run, w := Extend(FREE, run, w, Run(1, INPUT));
    assert w.procs[1] == CreateScreened(ARGS);
    run, w := Extend(FREE, run, w, Run(1, INPUT));
    assert w.procs[1] == CreateChecked(ARGS, "A", 100_000);
    run, w := Extend(FREE, run, w, Run(1, INPUT));
  }

  lemma TokenPasses()
    ensures CheckToken(FREE, READY, ARGS, INPUT.now) == Ok(("A", 100_000))
  {
  }

  lemma FullFloat()
    ensures Available([FUNDING]) == 100_000
  {
    FundingTotals(100_000, Settlement);
    FundingTotals(100_000, UserPayable);
    AppendGroup([], FUNDING);
    assert [] + [FUNDING] == [FUNDING];
  }

  /** And still it cannot commit: the request ends in an exception, with no row changed. */
  lemma CannotBeDeposited()
    ensures exists run, p ::
              && p in Reached(FREE, run).procs && Reached(FREE, run).procs[p] == Done(Raised(PostFault(ZeroAmount)))
              && Reached(FREE, run).t == READY
  {
    hide Reached, CommitCharge, StepLookup, StepQuote, StepScreen, StepCheck, StepFloat, StepOwed, StepReplay,
         StepInstruct, StepCreatePayout, StepRecordInstruction, StepReadPayout, StepAsk, StepRecordOutcome;
    var run, w := PassesEveryCheck();
    assert !ReferenceTaken(READY.deposits, INPUT.references[0]);
    SmallFeeRaises(FREE, READY, ARGS, "A", INPUT.references, 0);
    run, w := Extend(FREE, run, w, Run(1, INPUT));
    assert 1 in Reached(FREE, run).procs;
  }
}
