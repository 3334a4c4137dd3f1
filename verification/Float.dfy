/**
 The float. `check_float` adds two sums; this file says what that covers when both come from one
 snapshot, what it misses when a settlement commits between them, and exactly by how much.
 */
module Float {
  import opened Wrappers
  import opened Models
  import opened Fees
  import opened Ledger
  import opened Payouts
  import opened Deposits
  import opened Protocol
  import opened Invariant
  import opened Reachable
  import opened Safety

  // --- sums over a stretch of the ledger ------------------------------------------------------------

  /** What settled payouts took out of the settlement account. */
  function PaidOut(ledger: seq<Group>): Cents {
    if ledger == [] then 0
    else
      var last := ledger[|ledger| - 1];
      PaidOut(ledger[..|ledger| - 1]) + if last.deposit.Some? then -AccountTotal(last.entries, Settlement) else 0
  }

  lemma {:induction false} Concat(first: seq<Group>, second: seq<Group>)
    ensures forall a :: BalanceOf(first + second, a) == BalanceOf(first, a) + BalanceOf(second, a)
    ensures Funded(first + second) == Funded(first) + Funded(second)
    ensures PaidOut(first + second) == PaidOut(first) + PaidOut(second)
  {
    if second == [] {
      assert first + second == first;
    } else {
      var n := |second| - 1;
      assert (first + second)[..|first| + n] == first + second[..n];
      Concat(first, second[..n]);
    }
  }

  /** The settlement balance is what was put in less what was paid out, over any stretch. */
  lemma {:induction false} SettlementIs(ledger: seq<Group>)
    ensures BalanceOf(ledger, Settlement) == Funded(ledger) - PaidOut(ledger)
  {
    if ledger != [] {
      SettlementIs(ledger[..|ledger| - 1]);
    }
  }

  /**
   Reading the settlement balance at `at` and what is owed at `until` gives the true float at `until`,
   plus the payouts settled in between, less the funding in between. Nothing else is missed.
   */
  lemma SplitReadError(ledger: seq<Group>, at: nat, until: nat)
    requires at <= until <= |ledger|
    ensures BalanceOf(ledger[..at], Settlement) + BalanceOf(ledger[..until], UserPayable)
            == Available(ledger[..until]) + PaidOut(ledger[at..until]) - Funded(ledger[at..until])
  {
    assert ledger[..until] == ledger[..at] + ledger[at..until];
    Concat(ledger[..at], ledger[at..until]);
    SettlementIs(ledger[at..until]);
  }

  // --- what a step does to the float -------------------------------------------------------------------

  /** The action commits a create. */
  predicate Charges(s: Settings, w: World, action: Action) {
    action.Run? && action.p in w.procs && w.procs[action.p].CreateCovered? && Step(s, w, action).t != w.t
  }

  /** The action records this outcome of a payout still paying. */
  predicate Records(w: World, action: Action, outcome: PayoutStatus) {
    && action.Run? && action.p in w.procs && w.procs[action.p].PayoutRecord?
    && var pc := w.procs[action.p];
      && pc.id < |w.t.deposits| && w.t.deposits[pc.id].status == Paying && pc.id in w.t.payouts
      && pc.result.status == outcome
  }

  /**
   Charging spends the payout from the float; settling moves it from what is owed to the settlement account and
   changes nothing in total; failing and funding give back exactly their amount; nothing else posts at all.
   */
  lemma FloatMoves(s: Settings, w: World, action: Action)
    requires Inv(s, w)
    ensures var w' := Step(s, w, action);
            var before, after := Available(w.t.ledger), Available(w'.t.ledger);
            var held, holds := BalanceOf(w.t.ledger, Settlement), BalanceOf(w'.t.ledger, Settlement);
            if Charges(s, w, action) then
              && |w.t.deposits| < |w'.t.deposits| && w'.t.deposits[|w.t.deposits|].payout == w.procs[action.p].payout
              && after == before - w.procs[action.p].payout && holds == held
            else if Records(w, action, PayoutCompleted) then
              && |w'.t.deposits| == |w.t.deposits| && w'.t.deposits[w.procs[action.p].id].status == Settled
              && after == before && holds == held - w.t.deposits[w.procs[action.p].id].payout
            else if Records(w, action, PayoutFailed) then
              && |w'.t.deposits| == |w.t.deposits| && w'.t.deposits[w.procs[action.p].id].status == Failed
              && after == before + w.t.deposits[w.procs[action.p].id].payout && holds == held
            else if action.Fund? && action.amount > 0 then
              after == before + action.amount && holds == held + action.amount
            else w'.t.ledger == w.t.ledger
  {
    hide Inv, BalanceOf, RunStep, FundingEntries;
    match action
    case Run(p, i) =>
      if p in w.procs {
        if w.procs[p].CreateCovered? {
          CommitMoves(s, w, p, i);
          UnchangedLedger(w, RunStep(s, w, p, i));
        } else if w.procs[p].PayoutRecord? {
          OutcomeMoves(s, w, p, i);
        } else {
          OtherPostsNothing(s, w, p, i);
        }
      }
    case Fund(amount) =>
      if amount > 0 {
        AppendGroup(w.t.ledger, Group(None, FundingEntries(amount)));
        FundingTotals(amount, Settlement);
        FundingTotals(amount, UserPayable);
      }
    case _ =>
  }

  lemma UnchangedLedger(w: World, w': World)
    ensures w'.t == w.t ==> w'.t.ledger == w.t.ledger
  {
  }

  lemma OtherPostsNothing(s: Settings, w: World, p: Proc, i: Input)
    requires p in w.procs && !w.procs[p].CreateCovered? && !w.procs[p].PayoutRecord?
    ensures RunStep(s, w, p, i).t.ledger == w.t.ledger
  {
    hide CheckToken, CommitCharge, PayoutWrite, ReplayOf, Assessable, Called, BalanceOf;
  }

  /** So only a charge lowers the float. */
  lemma OnlyChargesSpend(s: Settings, w: World, action: Action)
    requires Inv(s, w) && !Charges(s, w, action)
    ensures Available(Step(s, w, action).t.ledger) >= Available(w.t.ledger)
  {
    hide Inv, Available, BalanceOf, Step;
    FloatMoves(s, w, action);
    if Records(w, action, PayoutFailed) {
      PaysSomething(s, w, w.procs[action.p].id);
    }
  }

  lemma PaysSomething(s: Settings, w: World, id: Id)
    requires Inv(s, w) && id < |w.t.deposits|
    ensures w.t.deposits[id].payout > 0
  {
    hide ProcsOk, Consistent;
    PositivePayout(s, w, id, w.t.deposits[id].payout);
  }

  lemma CommitMoves(s: Settings, w: World, p: Proc, i: Input)
    requires Inv(s, w) && p in w.procs && w.procs[p].CreateCovered?
    ensures var pc := w.procs[p];
            var w' := RunStep(s, w, p, i);
            (w'.t == w.t && w'.procs[p] != AdvanceStart(|w.t.deposits|)) ||
            (&& ChargedBy(s, w.t, pc.a, pc.pin, i.now, w'.t)
             && w'.procs[p] == AdvanceStart(|w.t.deposits|)
             && w'.t.deposits[|w.t.deposits|].payout == pc.payout
             && Available(w'.t.ledger) == Available(w.t.ledger) - pc.payout
             && BalanceOf(w'.t.ledger, Settlement) == BalanceOf(w.t.ledger, Settlement))
  {
    hide Consistent;
    var a, pin := w.procs[p].a, w.procs[p].pin;
    assert PcOk(s, w.t, w.bank, w.procs[p]);
    ChargeOutcome(s, w.t, a, pin, i.references, i.now);
    match CommitCharge(s, w.t, a, pin, i.references, i.now)
    case Err(_) =>
    case Ok(t') =>
      var id := |w.t.deposits|;
      AppendGroup(w.t.ledger, Group(Some(id), ChargeEntries(t'.deposits[id])));
      EntryTotals(t'.deposits[id], Settlement);
      EntryTotals(t'.deposits[id], UserPayable);
  }

  lemma OutcomeMoves(s: Settings, w: World, p: Proc, i: Input)
    requires Inv(s, w) && p in w.procs && w.procs[p].PayoutRecord?
    ensures var w' := RunStep(s, w, p, i);
            var id := w.procs[p].id;
            var before, after := Available(w.t.ledger), Available(w'.t.ledger);
            var held, holds := BalanceOf(w.t.ledger, Settlement), BalanceOf(w'.t.ledger, Settlement);
            if Records(w, Run(p, i), PayoutCompleted) then
              && |w'.t.deposits| == |w.t.deposits| && w'.t.deposits[id].status == Settled
              && after == before && holds == held - w.t.deposits[id].payout
            else if Records(w, Run(p, i), PayoutFailed) then
              && |w'.t.deposits| == |w.t.deposits| && w'.t.deposits[id].status == Failed
              && after == before + w.t.deposits[id].payout && holds == held
            else w'.t.ledger == w.t.ledger
  {
    hide Inv, Consistent, BalanceOf, SettlementEntries, ReversalEntries;
    var pc := w.procs[p];
    OutcomeWrites(s, w, p, i);
    if Records(w, Run(p, i), PayoutCompleted) || Records(w, Run(p, i), PayoutFailed) {
      var d := w.t.deposits[pc.id];
      AppendGroup(w.t.ledger, Group(Some(pc.id), SettlementEntries(d)));
      AppendGroup(w.t.ledger, Group(Some(pc.id), ReversalEntries(d)));
      EntryTotals(d, Settlement);
      EntryTotals(d, UserPayable);
    }
  }

  lemma OutcomeWrites(s: Settings, w: World, p: Proc, i: Input)
    requires Inv(s, w) && p in w.procs && w.procs[p].PayoutRecord?
    ensures var w' := RunStep(s, w, p, i);
            if Records(w, Run(p, i), PayoutCompleted) then Settles(w.t, w'.t, w.procs[p].id)
            else if Records(w, Run(p, i), PayoutFailed) then Fails(w.t, w'.t, w.procs[p].id)
            else w'.t.ledger == w.t.ledger
  {
    hide Inv, Consistent, Settles, Fails, SettleWrite, FailWrite;
    var pc := w.procs[p];
    PcHolds(s, w, p);
    NotCharging(s, w, p);
    OutcomeKeeps(s, w.t, w.bank, w.origin, pc.id, pc.result, i.now);
    assert RunStep(s, w, p, i) == StepRecordOutcome(w, p, pc.id, pc.result, i);
  }

  // --- never overdrawn, when no settlement lands between the two sums -------------------------------------

  /** Some create has read the settlement balance and not yet what is owed. */
  predicate BetweenSums(w: World) {
    exists p :: p in w.procs && w.procs[p].CreateHalfRead?
  }

  /** No payout settles while a create is between its two sums. */
  ghost predicate Quiet(s: Settings, w: World, run: seq<Action>) {
    forall n :: 0 <= n < |run| && BetweenSums(After(s, w, run[..n])) ==>
      BalanceOf(After(s, w, run[..n]).t.ledger, Settlement)
      <= BalanceOf(Step(s, After(s, w, run[..n]), run[n]).t.ledger, Settlement)
  }

  /** Every float check reads its two sums in one snapshot. */
  predicate OneSnapshot(run: seq<Action>) {
    forall n :: 0 <= n < |run| && run[n].Run? ==> run[n].input.oneRead
  }

  /** What a create has concluded about the float still stands. */
  predicate Stands(ledger: seq<Group>, pc: Pc) {
    match pc
    case CreateHalfRead(_, _, _, settlement, _) => settlement <= BalanceOf(ledger, Settlement)
    case CreateCovered(_, _, payout, _, _, _) => payout <= Available(ledger)
    case _ => true
  }

  ghost predicate FloatOk(w: World) {
    && Available(w.t.ledger) >= 0
    && forall p :: p in w.procs ==> Stands(w.t.ledger, w.procs[p])
  }

  lemma FloatStep(s: Settings, w: World, action: Action)
    requires Inv(s, w) && FloatOk(w)
    requires BetweenSums(w) ==> BalanceOf(w.t.ledger, Settlement) <= BalanceOf(Step(s, w, action).t.ledger, Settlement)
    ensures FloatOk(Step(s, w, action))
  {
    hide Inv, RunStep, Available, BalanceOf;
    var w' := Step(s, w, action);
    if Charges(s, w, action) {
      FloatMoves(s, w, action);
      assert Stands(w.t.ledger, w.procs[action.p]);
    } else {
      OnlyChargesSpend(s, w, action);
    }
    forall q | q in w'.procs
      ensures Stands(w'.t.ledger, w'.procs[q])
    {
      if action.Run? && action.p in w.procs && q == action.p {
        RunnerStands(s, w, q, action.input);
      } else if q in w.procs && w'.procs[q] == w.procs[q] {
        OtherStands(s, w, action, q);
      } else if action.Run? && action.p in w.procs {
        OthersStay(s, w, action.p, action.input, q);
      }
    }
  }

  lemma RunnerStands(s: Settings, w: World, p: Proc, i: Input)
    requires Inv(s, w) && FloatOk(w) && p in w.procs && p in RunStep(s, w, p, i).procs
    ensures Stands(RunStep(s, w, p, i).t.ledger, RunStep(s, w, p, i).procs[p])
  {
    hide Inv, CommitCharge, InstructWrite, PayoutWrite, CheckToken, ReplayOf, BalanceOf;
    assert Stands(w.t.ledger, w.procs[p]);
  }

  /** Nobody else spends the float while a create holds its lock. */
  lemma OtherStands(s: Settings, w: World, action: Action, q: Proc)
    requires Inv(s, w) && FloatOk(w) && q in w.procs
    requires action.Run? && action.p in w.procs ==> q != action.p
    requires BetweenSums(w) ==> BalanceOf(w.t.ledger, Settlement) <= BalanceOf(Step(s, w, action).t.ledger, Settlement)
    ensures Stands(Step(s, w, action).t.ledger, w.procs[q])
  {
    hide Inv, Step, Available, BalanceOf;
    assert Stands(w.t.ledger, w.procs[q]);
    if InCharge(w.procs[q]) {
      NotCharging(s, w, q);
      if action.Run? && action.p in w.procs {
        NotCharging(s, w, action.p);
      }
      OnlyChargesSpend(s, w, action);
    }
  }

  lemma {:induction false} QuietRuns(s: Settings, run: seq<Action>)
    requires Quiet(s, START, run)
    ensures FloatOk(Reached(s, run))
  {
    if run != [] {
      var n := |run| - 1;
      assert forall k :: 0 <= k < n ==> run[..n][..k] == run[..k];
      QuietRuns(s, run[..n]);
      ReachedOk(s, run[..n]);
      hide FloatOk, Inv;
      FloatStep(s, Reached(s, run[..n]), run[n]);
    }
  }

  /** The float is never overdrawn in a run where no payout settles between a float check's two sums. */
  lemma NeverOverdrawn(s: Settings, run: seq<Action>)
    requires Quiet(s, START, run)
    ensures Available(Reached(s, run).t.ledger) >= 0
  {
    QuietRuns(s, run);
  }

  lemma {:induction false} SnapshotNeverHalfReads(s: Settings, run: seq<Action>)
    requires OneSnapshot(run)
    ensures !BetweenSums(Reached(s, run))
  {
    if run != [] {
      var n := |run| - 1;
      SnapshotNeverHalfReads(s, run[..n]);
      assert run[n].Run? ==> run[n].input.oneRead;
      NoHalfRead(s, Reached(s, run[..n]), run[n]);
    }
  }

  lemma NoHalfRead(s: Settings, w: World, action: Action)
    requires !BetweenSums(w) && (action.Run? ==> action.input.oneRead)
    ensures !BetweenSums(Step(s, w, action))
  {
    hide RunStep;
    if action.Run? && action.p in w.procs {
      var p, w' := action.p, RunStep(s, w, action.p, action.input);
      NotHalfReading(s, w, p, action.input);
      forall q | q in w'.procs
        ensures !w'.procs[q].CreateHalfRead?
      {
        if q != p {
          OthersStay(s, w, p, action.input, q);
        }
      }
    }
  }

  lemma NotHalfReading(s: Settings, w: World, p: Proc, i: Input)
    requires p in w.procs && !w.procs[p].CreateHalfRead? && i.oneRead
    ensures p in RunStep(s, w, p, i).procs && !RunStep(s, w, p, i).procs[p].CreateHalfRead?
  {
    hide CheckToken, CommitCharge, InstructWrite, PayoutWrite, ReplayOf, Assessable, Create, BalanceOf;
  }

  /** In particular it is never overdrawn when each check sees one snapshot, under the float lock. */
  lemma SnapshotNeverOverdrawn(s: Settings, run: seq<Action>)
    requires OneSnapshot(run)
    ensures Available(Reached(s, run).t.ledger) >= 0
  {
    forall n | 0 <= n < |run|
      ensures !BetweenSums(After(s, START, run[..n]))
    {
      SnapshotNeverHalfReads(s, run[..n]);
    }
    NeverOverdrawn(s, run);
  }

  // --- and exactly what happens otherwise --------------------------------------------------------------------

  /** What a create remembers of its reads is what the ledger said then. */
  predicate ReadTrue(ledger: seq<Group>, pc: Pc) {
    match pc
    case CreateHalfRead(_, _, _, settlement, at) =>
      at <= |ledger| && settlement == BalanceOf(ledger[..at], Settlement)
    case CreateCovered(_, _, payout, seen, at, until) =>
      && at <= until <= |ledger| && payout <= seen
      && seen == BalanceOf(ledger[..at], Settlement) + BalanceOf(ledger[..until], UserPayable)
    case _ => true
  }

  ghost predicate ReadsTrue(w: World) {
    forall p :: p in w.procs ==> ReadTrue(w.t.ledger, w.procs[p])
  }

  lemma ReadsStep(s: Settings, w: World, action: Action)
    requires Inv(s, w) && ReadsTrue(w)
    ensures ReadsTrue(Step(s, w, action))
  {
    hide Consistent, PcOk, ProcsOk, RunStep, BalanceOf;
    ActionKeeps(s, w, action);
    var w' := Step(s, w, action);
    forall q | q in w'.procs
      ensures ReadTrue(w'.t.ledger, w'.procs[q])
    {
      if q in w.procs {
        assert ReadTrue(w.t.ledger, w.procs[q]);
        ReadPersists(w.t.ledger, w'.t.ledger, w.procs[q]);
      }
      if action.Run? && action.p in w.procs {
        if q == action.p { RunnerReads(s, w, q, action.input); } else { OthersStay(s, w, action.p, action.input, q); }
      }
    }
  }

  lemma ReadPersists(ledger: seq<Group>, ledger': seq<Group>, pc: Pc)
    requires ledger <= ledger' && ReadTrue(ledger, pc)
    ensures ReadTrue(ledger', pc)
  {
    match pc
    case CreateHalfRead(_, _, _, _, at) =>
      assert ledger'[..at] == ledger[..at];
    case CreateCovered(_, _, _, _, at, until) =>
      assert ledger'[..at] == ledger[..at] && ledger'[..until] == ledger[..until];
    case _ =>
  }

  lemma RunnerReads(s: Settings, w: World, p: Proc, i: Input)
    requires ReadsTrue(w) && p in w.procs && p in RunStep(s, w, p, i).procs
    ensures ReadTrue(RunStep(s, w, p, i).t.ledger, RunStep(s, w, p, i).procs[p])
      || RunStep(s, w, p, i).procs[p] == w.procs[p]
  {
    hide CommitCharge, InstructWrite, PayoutWrite, CheckToken, ReplayOf, BalanceOf;
    assert ReadTrue(w.t.ledger, w.procs[p]);
    assert w.t.ledger[..|w.t.ledger|] == w.t.ledger;
  }

  lemma {:induction false} ReadsAlwaysTrue(s: Settings, run: seq<Action>)
    ensures ReadsTrue(Reached(s, run))
  {
    if run != [] {
      var before := run[..|run| - 1];
      ReadsAlwaysTrue(s, before);
      ReachedOk(s, before);
      hide Inv, ReadsTrue;
      ReadsStep(s, Reached(s, before), run[|run| - 1]);
    }
  }

  /**
   When a create commits, the float left is what its check saw over its payout, less what settled between
   the check's two sums, plus what was funded then and whatever came back since. So it stays covered iff
   what settled in between is no more than all of that.
   */
  lemma CommitLeaves(s: Settings, run: seq<Action>, p: Proc, i: Input)
    requires var w := Reached(s, run); p in w.procs && w.procs[p].CreateCovered?
    requires RunStep(s, Reached(s, run), p, i).t != Reached(s, run).t
    ensures var w := Reached(s, run);
            var pc := w.procs[p];
            && pc.at <= pc.until <= |w.t.ledger|
            && var between, since := w.t.ledger[pc.at..pc.until], w.t.ledger[pc.until..];
               var left := Available(Reached(s, run + [Run(p, i)]).t.ledger);
               && left == (pc.seen - pc.payout) - PaidOut(between) + Funded(between) + Available(since)
               && (left >= 0 <==> PaidOut(between) <= (pc.seen - pc.payout) + Funded(between) + Available(since))
  {
    hide Inv, RunStep, Available, ReadsTrue;
    var w := Reached(s, run);
    ReachedOk(s, run);
    ReadsAlwaysTrue(s, run);
    CoveredReads(w, p);
    CommitMoves(s, w, p, i);
    LeftOver(w.t.ledger, w.procs[p]);
    assert (run + [Run(p, i)])[..|run|] == run;
  }

  lemma CoveredReads(w: World, p: Proc)
    requires ReadsTrue(w) && p in w.procs
    ensures ReadTrue(w.t.ledger, w.procs[p])
  {
  }

  lemma LeftOver(ledger: seq<Group>, pc: Pc)
    requires pc.CreateCovered? && ReadTrue(ledger, pc)
    ensures Available(ledger) == pc.seen - PaidOut(ledger[pc.at..pc.until]) + Funded(ledger[pc.at..pc.until])
                                 + Available(ledger[pc.until..])
  {
    SplitReadError(ledger, pc.at, pc.until);
    assert ledger == ledger[..pc.until] + ledger[pc.until..];
    Concat(ledger[..pc.until], ledger[pc.until..]);
  }

  // --- the float over a run ------------------------------------------------------------------------------------

  /** If step n commits a create, what settled between its check's two sums is no more than all it had to spare. */
  ghost predicate CoveredAt(s: Settings, run: seq<Action>, n: nat)
    requires n < |run|
  {
    var w := Reached(s, run[..n]);
    Charges(s, w, run[n]) ==>
      && var pc := w.procs[run[n].p];
      && pc.at <= pc.until <= |w.t.ledger|
      && PaidOut(w.t.ledger[pc.at..pc.until])
         <= (pc.seen - pc.payout) + Funded(w.t.ledger[pc.at..pc.until]) + Available(w.t.ledger[pc.until..])
  }

  lemma CoveredStep(s: Settings, run: seq<Action>, n: nat)
    requires n < |run|
    ensures Available(Reached(s, run[..n]).t.ledger) >= 0 ==>
              (Available(Reached(s, run[..n + 1]).t.ledger) >= 0 <==> CoveredAt(s, run, n))
  {
    hide Reached, Step, RunStep, Available, PaidOut, Funded;
    var w := Reached(s, run[..n]);
    ReachedOk(s, run[..n]);
    assert run[..n + 1] == run[..n] + [run[n]];
    OneMore(s, run[..n], run[n]);
    if Charges(s, w, run[n]) {
      assert RunStep(s, w, run[n].p, run[n].input).t != w.t by { ChargesRuns(s, w, run[n]); }
      CommitLeaves(s, run[..n], run[n].p, run[n].input);
    } else {
      OnlyChargesSpend(s, w, run[n]);
    }
  }

  lemma ChargesRuns(s: Settings, w: World, action: Action)
    requires Charges(s, w, action)
    ensures RunStep(s, w, action.p, action.input).t != w.t
  {
  }

  /**
   Exactly when a run overdraws the float: it never does iff every create that commits finds that no more
   settled between its check's two sums than the check left over, was funded then, and came back since.
   */
  lemma NeverOverdrawnIff(s: Settings, run: seq<Action>)
    ensures (forall n: nat :: n <= |run| ==> Available(Reached(s, run[..n]).t.ledger) >= 0)
            <==> (forall n: nat :: n < |run| ==> CoveredAt(s, run, n))
  {
    hide Reached, CoveredAt, Available;
    if forall n: nat :: n <= |run| ==> Available(Reached(s, run[..n]).t.ledger) >= 0 {
      forall n: nat | n < |run|
        ensures CoveredAt(s, run, n)
      {
        CoveredStep(s, run, n);
      }
    }
    if forall n: nat :: n < |run| ==> CoveredAt(s, run, n) {
      forall n: nat | n <= |run|
        ensures Available(Reached(s, run[..n]).t.ledger) >= 0
      {
        CoveredSoFar(s, run, n);
      }
    }
  }

  lemma {:induction false} CoveredSoFar(s: Settings, run: seq<Action>, n: nat)
    requires n <= |run| && forall k: nat :: k < n ==> CoveredAt(s, run, k)
    ensures Available(Reached(s, run[..n]).t.ledger) >= 0
  {
    if n == 0 {
      assert run[..0] == [];
    } else {
      hide Reached, CoveredAt, Available;
      CoveredSoFar(s, run, n - 1);
      CoveredStep(s, run, n - 1);
    }
  }
}
