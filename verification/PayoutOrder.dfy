/**
 What the advance lock is for. Nothing pays or posts twice without it, but a payout row's status may
 step back: two advances ask in turn and write in the other order. With the lock it only moves on.
 */
module PayoutOrder {
  import opened Wrappers
  import opened Models
  import opened Fees
  import opened Ledger
  import opened Payouts
  import opened Deposits
  import opened Protocol
  import opened Invariant
  import opened Reachable
  import opened Safety
  import opened Overdraft

  /** Working on the deposit under its advance lock. */
  predicate Inside(pc: Pc, id: Id) {
    match pc
    case InstructRead(i) => i == id
    case InstructCall(i, _) => i == id
    case InstructRecord(i, _) => i == id
    case PayoutRead(i) => i == id
    case PayoutAsk(i, _, _) => i == id
    case PayoutRecord(i, _, _) => i == id
    case _ => false
  }

  /** The advance lock is doing its work: at most one process inside for each deposit. */
  ghost predicate Alone(w: World) {
    forall p, q, id: Id :: p in w.procs && q in w.procs && Inside(w.procs[p], id) && Inside(w.procs[q], id) ==> p == q
  }

  ghost predicate Courteous(s: Settings, run: seq<Action>) {
    forall n :: 0 <= n <= |run| ==> Alone(Reached(s, run[..n]))
  }

  /** Our record of a payout is never ahead of the bank's. */
  ghost predicate BankAhead(w: World) {
    forall i :: i in w.t.payouts && i in w.bank.refs && w.bank.refs[i] in w.bank.payouts ==>
      Rank(w.t.payouts[i].status) <= Rank(w.bank.payouts[w.bank.refs[i]].outcome.status)
  }

  /** An answer on its way to phase 3 is not older than the record. */
  predicate Timely(payouts: map<Id, Payout>, pc: Pc) {
    pc.PayoutRecord? && pc.id in payouts ==> Rank(payouts[pc.id].status) <= Rank(pc.result.status)
  }

  ghost predicate AnswersTimely(w: World) {
    forall p :: p in w.procs ==> Timely(w.t.payouts, w.procs[p])
  }

  /** No payout's status steps back. */
  ghost predicate MovesOn(w: World, w': World) {
    forall i :: i in w.t.payouts ==> i in w'.t.payouts && Rank(w.t.payouts[i].status) <= Rank(w'.t.payouts[i].status)
  }

  /** The payout rows a step leaves: as they were, but for one deposit whose process wrote. */
  ghost predicate WritesOnly(w: World, w': World, id: Id) {
    forall i :: i != id ==>
      && (i in w'.t.payouts <==> i in w.t.payouts)
      && (i in w.t.payouts ==> w'.t.payouts[i] == w.t.payouts[i])
  }

  lemma RecordMoves(s: Settings, w: World, p: Proc, i: Input)
    requires Inv(s, w) && BankAhead(w) && AnswersTimely(w) && p in w.procs && w.procs[p].PayoutRecord?
    ensures var w' := StepRecordOutcome(w, p, w.procs[p].id, w.procs[p].result, i);
            MovesOn(w, w') && BankAhead(w') && WritesOnly(w, w', w.procs[p].id) && w'.procs[p].Done?
  {
    hide Consistent;
    var pc := w.procs[p];
    assert PcOk(s, w.t, w.bank, pc) && Timely(w.t.payouts, pc);
    OutcomeKeeps(s, w.t, w.bank, w.origin, pc.id, pc.result, i.now);
  }

  lemma InstructMoves(s: Settings, w: World, p: Proc, i: Input)
    requires Inv(s, w) && BankAhead(w) && p in w.procs && w.procs[p].InstructRecord?
    ensures var w' := StepRecordInstruction(w, p, w.procs[p].id, w.procs[p].ref, i);
            MovesOn(w, w') && BankAhead(w') && WritesOnly(w, w', w.procs[p].id) && !w'.procs[p].PayoutRecord?
  {
    hide Consistent;
    var pc := w.procs[p];
    assert PcOk(s, w.t, w.bank, pc);
    InstructKeeps(s, w.t, w.bank, w.origin, pc.id, pc.ref, i.now);
    match InstructWrite(w.t, pc.id, pc.ref, i.now)
    case Wrote(t') =>
      NoRowYet(s, w, pc.id);
    case Unchanged =>
  }

  lemma RunsRecord(s: Settings, w: World, p: Proc, i: Input)
    requires p in w.procs
    ensures w.procs[p].PayoutRecord? ==>
              RunStep(s, w, p, i) == StepRecordOutcome(w, p, w.procs[p].id, w.procs[p].result, i)
    ensures w.procs[p].InstructRecord? ==>
              RunStep(s, w, p, i) == StepRecordInstruction(w, p, w.procs[p].id, w.procs[p].ref, i)
  {
  }

  lemma NoRowYet(s: Settings, w: World, id: Id)
    requires Inv(s, w) && id < |w.t.deposits| && w.t.deposits[id].status == Charged
    ensures id !in w.t.payouts
  {
  }

  /** The other steps leave the payout rows alone, and only asking brings an answer. */
  lemma OtherRunKeeps(s: Settings, w: World, p: Proc, i: Input)
    requires p in w.procs && !w.procs[p].InstructRecord? && !w.procs[p].PayoutRecord?
    requires w.procs[p].CreateCovered? ==> w.procs[p].pin in w.t.vouchers
    ensures var w' := RunStep(s, w, p, i);
            && w'.t.payouts == w.t.payouts && (!w.procs[p].InstructCall? ==> w'.bank == w.bank) && p in w'.procs
            && (w'.procs[p].PayoutRecord? ==>
                  && w.procs[p].PayoutAsk? && w.procs[p].ref in w.bank.payouts
                  && w'.procs[p].id == w.procs[p].id && w'.procs[p].result == w.bank.payouts[w.procs[p].ref].outcome)
  {
    hide CheckToken, Assessable, ReplayOf, StepCommit, StepRecordInstruction, StepRecordOutcome, Create;
    if w.procs[p].CreateCovered? {
      CommitLeavesPayouts(s, w, p, i);
    }
  }

  lemma CommitLeavesPayouts(s: Settings, w: World, p: Proc, i: Input)
    requires p in w.procs && w.procs[p].CreateCovered? && w.procs[p].pin in w.t.vouchers
    ensures var w' := StepCommit(s, w, p, w.procs[p].a, w.procs[p].pin, i);
            w'.t.payouts == w.t.payouts && w'.bank == w.bank && p in w'.procs && !w'.procs[p].PayoutRecord?
  {
    ChargeOutcome(s, w.t, w.procs[p].a, w.procs[p].pin, i.references, i.now);
  }

  lemma OtherRunMoves(s: Settings, w: World, p: Proc, i: Input)
    requires Inv(s, w) && BankAhead(w) && p in w.procs && !w.procs[p].InstructRecord? && !w.procs[p].PayoutRecord?
    ensures var w' := RunStep(s, w, p, i);
            && w'.t.payouts == w.t.payouts && BankAhead(w') && p in w'.procs && Timely(w'.t.payouts, w'.procs[p])
  {
    hide Consistent;
    assert PcOk(s, w.t, w.bank, w.procs[p]);
    OtherRunKeeps(s, w, p, i);
    hide RunStep;
    if w.procs[p].InstructCall? {
      AcceptAhead(s, w, p, i);
    }
  }

  lemma AcceptAhead(s: Settings, w: World, p: Proc, i: Input)
    requires Inv(s, w) && BankAhead(w) && p in w.procs && w.procs[p].InstructCall?
    ensures BankAhead(RunStep(s, w, p, i))
  {
    hide Inv, Create;
    var pc := w.procs[p];
    BankSound(s, w);
    AcceptSame(w.bank, pc.id, pc.amount, i.newRef);
  }

  lemma AcceptSame(b: Bank<Id>, id: Id, amount: Cents, newRef: Ref)
    requires BankOk(b)
    ensures id in b.refs || newRef !in b.payouts ==>
              var b' := Create(b, id, amount, newRef).0;
              && (forall j :: j in b.refs ==> j in b'.refs && b'.refs[j] == b.refs[j])
              && (forall r :: r in b.payouts ==> r in b'.payouts && b'.payouts[r] == b.payouts[r])
  {
  }

  lemma BankMovesAhead(s: Settings, w: World, ref: Ref, to: ProviderStatus)
    requires Inv(s, w) && BankAhead(w)
    ensures BankAhead(Step(s, w, BankMoves(ref, to)))
  {
    hide ProcsOk, PcOk, RowsOk, VouchersAgree, UniqueOk, TokensOk, LedgerOk, BalancesOk;
  }

  lemma OrderStep(s: Settings, w: World, action: Action)
    requires Inv(s, w) && Alone(w) && BankAhead(w) && AnswersTimely(w)
    ensures var w' := Step(s, w, action); BankAhead(w') && AnswersTimely(w') && MovesOn(w, w')
  {
    hide Inv, BankAhead;
    var w' := Step(s, w, action);
    match action
    case Run(p, i) =>
      if p in w.procs {
        RunOrder(s, w, p, i);
      }
    case BankMoves(ref, to) =>
      BankMovesAhead(s, w, ref, to);
    case _ =>
      assert w'.t.payouts == w.t.payouts && w'.bank == w.bank;
      assert BankAhead(w') by { SameAhead(w, w'); }
  }

  lemma SameAhead(w: World, w': World)
    requires BankAhead(w) && w'.t.payouts == w.t.payouts && w'.bank == w.bank
    ensures BankAhead(w')
  {
  }

  lemma RunOrder(s: Settings, w: World, p: Proc, i: Input)
    requires Inv(s, w) && Alone(w) && BankAhead(w) && AnswersTimely(w) && p in w.procs
    ensures var w' := RunStep(s, w, p, i); BankAhead(w') && AnswersTimely(w') && MovesOn(w, w')
  {
    hide Inv, BankAhead, RunStep;
    var w' := RunStep(s, w, p, i);
    if w.procs[p].PayoutRecord? {
      RecordMoves(s, w, p, i);
      RunsRecord(s, w, p, i);
    } else if w.procs[p].InstructRecord? {
      InstructMoves(s, w, p, i);
      RunsRecord(s, w, p, i);
    } else {
      OtherRunMoves(s, w, p, i);
    }
    forall q | q in w'.procs
      ensures Timely(w'.t.payouts, w'.procs[q])
    {
      if q != p {
        OthersStay(s, w, p, i, q);
        assert Timely(w.t.payouts, w.procs[q]);
        if w.procs[q].PayoutRecord? {
          assert Inside(w.procs[q], w.procs[q].id);
          assert w.procs[p].PayoutRecord? || w.procs[p].InstructRecord? ==> Inside(w.procs[p], w.procs[p].id);
        }
      }
    }
  }

  lemma {:induction false} CourteousRuns(s: Settings, run: seq<Action>)
    requires Courteous(s, run)
    ensures BankAhead(Reached(s, run)) && AnswersTimely(Reached(s, run))
  {
    if run != [] {
      var n := |run| - 1;
      assert forall k :: 0 <= k <= n ==> run[..n][..k] == run[..k];
      CourteousRuns(s, run[..n]);
      ReachedOk(s, run[..n]);
      assert Alone(Reached(s, run[..n]));
      hide Inv, Alone, BankAhead, AnswersTimely;
      OrderStep(s, Reached(s, run[..n]), run[n]);
    }
  }

  // --- exactly when a status steps back -------------------------------------------------------------------

  /** Phase 3 is about to write "pending", heard earlier, over a recorded "submitted". */
  predicate Overwrites(w: World, action: Action) {
    && action.Run? && action.p in w.procs && w.procs[action.p].PayoutRecord?
    && var pc := w.procs[action.p];
      && pc.id < |w.t.deposits| && w.t.deposits[pc.id].status == Paying
      && pc.id in w.t.payouts && w.t.payouts[pc.id].status == PayoutSubmitted
      && pc.result.status == PayoutPending
  }

  lemma RecordStepsBackIff(s: Settings, w: World, p: Proc, i: Input)
    requires Inv(s, w) && p in w.procs && w.procs[p].PayoutRecord?
    ensures MovesOn(w, StepRecordOutcome(w, p, w.procs[p].id, w.procs[p].result, i)) <==> !Overwrites(w, Run(p, i))
  {
    hide Inv, Consistent;
    var pc := w.procs[p];
    PcHolds(s, w, p);
    NotCharging(s, w, p);
    OutcomeKeeps(s, w.t, w.bank, w.origin, pc.id, pc.result, i.now);
    PayingRow(s, w, pc.id);
    var w' := StepRecordOutcome(w, p, pc.id, pc.result, i);
    if Overwrites(w, Run(p, i)) {
      assert w'.t.payouts[pc.id].status == PayoutPending;
    }
  }

  lemma PayingRow(s: Settings, w: World, id: Id)
    requires Inv(s, w)
    ensures id < |w.t.deposits| && w.t.deposits[id].status == Paying ==>
              && id in w.t.payouts
              && (w.t.payouts[id].status == PayoutPending || w.t.payouts[id].status == PayoutSubmitted)
  {
    hide ProcsOk, RowsOk, VouchersAgree, UniqueOk, TokensOk, LedgerOk, BalancesOk, BankAgrees;
    assert id in w.t.payouts ==> id >= |w.t.deposits| || PayoutMatches(w.t.deposits[id], w.t.payouts[id]);
  }

  lemma InstructMovesOn(s: Settings, w: World, p: Proc, i: Input)
    requires Inv(s, w) && p in w.procs && w.procs[p].InstructRecord?
    ensures MovesOn(w, StepRecordInstruction(w, p, w.procs[p].id, w.procs[p].ref, i))
  {
    hide Inv, Consistent;
    var pc := w.procs[p];
    PcHolds(s, w, p);
    NotCharging(s, w, p);
    InstructKeeps(s, w.t, w.bank, w.origin, pc.id, pc.ref, i.now);
    if pc.id < |w.t.deposits| && w.t.deposits[pc.id].status == Charged {
      NoRowYet(s, w, pc.id);
    }
  }

  /** A payout row's status steps back in exactly one step: a stale "pending" written over "submitted". */
  lemma StepsBackIff(s: Settings, run: seq<Action>, action: Action)
    ensures MovesOn(Reached(s, run), Step(s, Reached(s, run), action)) <==> !Overwrites(Reached(s, run), action)
  {
    var w := Reached(s, run);
    ReachedOk(s, run);
    hide Reached, Inv, RunStep;
    match action
    case Run(p, i) =>
      if p in w.procs {
        RunsRecord(s, w, p, i);
        if w.procs[p].PayoutRecord? {
          RecordStepsBackIff(s, w, p, i);
        } else if w.procs[p].InstructRecord? {
          InstructMovesOn(s, w, p, i);
        } else {
          PcHolds(s, w, p);
          OtherRunKeeps(s, w, p, i);
        }
      }
    case _ =>
      assert Step(s, w, action).t.payouts == w.t.payouts;
  }

  /** While the advance lock keeps advances of one deposit apart, that step is never taken. */
  lemma WithTheLockStatusMovesOn(s: Settings, run: seq<Action>, action: Action)
    requires Courteous(s, run)
    ensures MovesOn(Reached(s, run), Step(s, Reached(s, run), action))
  {
    CourteousRuns(s, run);
    StepsBackIff(s, run, action);
    hide Reached, MovesOn, BankAhead;
    var w := Reached(s, run);
    if action.Run? && action.p in w.procs {
      assert Timely(w.t.payouts, w.procs[action.p]);
    }
  }

  // --- without it ---------------------------------------------------------------------------------------

  const SUBMITTED := ProviderStatus(PayoutSubmitted, None)

  /** One advance has been told "pending"... */
  lemma FirstHears() returns (run: seq<Action>, w: World)
    ensures w == Reached(SETTINGS, run) && w.t == INSTRUCTED
    ensures w.bank == Bank(map[0 := "po"], map["po" := BankPayout(0, 48_750, PENDING)])
    ensures w.procs == READY.procs[2 := PayoutRecord(0, "A", PENDING)]
  {
    hide Reached, StepQuote, StepScreen, StepCheck, StepFloat, StepOwed, StepCommit, StepReplay, StepCreatePayout,
         StepRecordInstruction, StepRecordOutcome;
    run, w := FirstIsInstructed();
    run, w := Extend(SETTINGS, run, w, Run(2, Plain("")));
    run, w := Extend(SETTINGS, run, w, Run(2, Plain("")));
    assert w.procs == READY.procs[2 := PayoutRecord(0, "A", PENDING)];
  }

  /** ...another is about to ask... */
  lemma SecondComes() returns (run: seq<Action>, w: World)
    ensures w == Reached(SETTINGS, run) && w.t == INSTRUCTED
    ensures w.bank == Bank(map[0 := "po"], map["po" := BankPayout(0, 48_750, PENDING)])
    ensures w.procs == READY.procs[2 := PayoutRecord(0, "A", PENDING)][4 := PayoutRead(0)]
  {
    hide Reached, StepQuote, StepScreen, StepCheck, StepFloat, StepOwed, StepCommit, StepReplay, StepCreatePayout,
         StepRecordInstruction, StepReadPayout, StepAsk, StepRecordOutcome;
    run, w := FirstHears();
    run, w := Extend(SETTINGS, run, w, Begin(4, AdvanceStart(0)));
    run, w := Extend(SETTINGS, run, w, Run(4, Plain("")));
    run, w := Extend(SETTINGS, run, w, Run(4, Plain("")));
    assert w.procs == READY.procs[2 := PayoutRecord(0, "A", PENDING)][4 := PayoutRead(0)];
  }

  /** ...hears "submitted"... */
  lemma SecondHears() returns (run: seq<Action>, w: World)
    ensures w == Reached(SETTINGS, run) && w.t == INSTRUCTED
    ensures 2 in w.procs && w.procs[2] == PayoutRecord(0, "A", PENDING)
    ensures 4 in w.procs && w.procs[4] == PayoutRecord(0, "A", SUBMITTED)
  {
    hide Reached, StepQuote, StepScreen, StepCheck, StepFloat, StepOwed, StepCommit, StepReplay, StepCreatePayout,
         StepRecordInstruction, StepRecordOutcome;
    run, w := SecondComes();
    run, w := Extend(SETTINGS, run, w, BankMoves("po", SUBMITTED));
    run, w := Extend(SETTINGS, run, w, Run(4, Plain("")));
    assert w.procs[4] == PayoutAsk(0, "po", "A");
    run, w := Extend(SETTINGS, run, w, Run(4, Plain("")));
  }

  /** ...and writes it first. */
  lemma SecondWrites() returns (run: seq<Action>, w: World)
    ensures w == Reached(SETTINGS, run)
    ensures w.t == INSTRUCTED.(payouts := map[0 := Payout("po", 48_750, PayoutSubmitted, None)])
    ensures 2 in w.procs && w.procs[2] == PayoutRecord(0, "A", PENDING)
  {
    hide Reached, StepQuote, StepScreen, StepCheck, StepFloat, StepOwed, StepCommit, StepReplay, StepCreatePayout,
         StepRecordInstruction, StepReadPayout, StepAsk;
    run, w := SecondHears();
    run, w := Extend(SETTINGS, run, w, Run(4, Plain("")));
  }

  /** So without the lock a recorded "submitted" can be overwritten by a stale "pending". */
  lemma StatusCanStepBack()
    ensures exists run, action :: !MovesOn(Reached(SETTINGS, run), Step(SETTINGS, Reached(SETTINGS, run), action))
  {
    hide Reached, CheckToken, CommitCharge, InstructWrite, ReplayOf;
    var run, w := SecondWrites();
    var w' := Step(SETTINGS, w, Run(2, Plain("")));
    assert w'.t.payouts[0].status == PayoutPending;
    assert !MovesOn(w, w');
  }
}
