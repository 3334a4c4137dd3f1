/** What holds in every state the deposit protocol can reach, whoever races and whatever crashes. */
module Safety {
  import opened Wrappers
  import opened Models
  import opened Fees
  import opened Ledger
  import opened Payouts
  import opened Deposits
  import opened Protocol
  import opened Invariant
  import opened Reachable

  /** The state after a run from an empty database. */
  function Reached(s: Settings, run: seq<Action>): World {
    After(s, START, run)
  }

  lemma ReachedOk(s: Settings, run: seq<Action>)
    ensures Inv(s, Reached(s, run))
  {
    Started(s);
    RunsKeep(s, START, run);
  }

  /** One more action. */
  lemma Extend(s: Settings, run: seq<Action>, w: World, action: Action) returns (run': seq<Action>, w': World)
    requires w == Reached(s, run)
    ensures w' == Step(s, w, action) && w' == Reached(s, run') && run' == run + [action]
  {
    hide Step;
    run' := run + [action];
    w' := Step(s, w, action);
    assert run'[..|run|] == run;
  }

  lemma OneMore(s: Settings, run: seq<Action>, action: Action)
    ensures Reached(s, run + [action]) == Step(s, Reached(s, run), action)
  {
    var run', w' := Extend(s, run, Reached(s, run), action);
    assert run' == run + [action];
  }

  // --- the ledger ---------------------------------------------------------------------------------

  /** Every group sums to zero, and the five balances are what the deposits' statuses say. */
  lemma BalancesAlways(s: Settings, run: seq<Action>)
    ensures var t := Reached(s, run).t;
            && (forall k :: 0 <= k < |t.ledger| ==> Total(t.ledger[k].entries) == 0 && |t.ledger[k].entries| >= 2)
            && BalanceOf(t.ledger, Settlement) == Funded(t.ledger) - Sum(t.deposits, PayoutSettled)
            && BalanceOf(t.ledger, UserPayable) == -Sum(t.deposits, PayoutOwed)
            && BalanceOf(t.ledger, VoucherReceivable) == Sum(t.deposits, AmountLive)
            && BalanceOf(t.ledger, FeeIncome) == -Sum(t.deposits, FeeLive)
            && BalanceOf(t.ledger, Capital) == -Funded(t.ledger)
  {
    hide PcOk, ProcsOk, RowsOk, VouchersAgree, PayoutsOk, UniqueOk, TokensOk, BankAgrees, Reached;
    ReachedOk(s, run);
    var t := Reached(s, run).t;
    assert forall k :: 0 <= k < |t.ledger| ==> GroupOk(t.ledger[k]);
  }

  /** Whatever happens next, nothing posted is changed or taken away, and no row loses its identity. */
  lemma NothingRewritten(s: Settings, run: seq<Action>, more: seq<Action>)
    ensures var w, w' := Reached(s, run), Reached(s, run + more);
            && w.t.ledger <= w'.t.ledger
            && |w.t.deposits| <= |w'.t.deposits|
            && forall i :: 0 <= i < |w.t.deposits| ==>
                 var d, d' := w.t.deposits[i], w'.t.deposits[i];
                 && RowEvolves(d, d')
                 && (d.status == Settled || d.status == Failed ==> d' == d)
                 && (d'.status != d.status ==> Distance(d'.status) < Distance(d.status))
  {
    hide Inv;
    ReachedOk(s, run);
    AfterConcat(s, START, run, more);
    RunsKeep(s, Reached(s, run), more);
  }

  // --- paying exactly once ------------------------------------------------------------------------

  /**
   However many advances race or crash, the provider holds at most one payout for a deposit, for
   exactly its payout; the payout row names it; and the deposit has posted its charge, then at most
   one of settlement and reversal, whichever the provider's final answer calls for.
   */
  lemma ExactlyOnce(s: Settings, run: seq<Action>, id: Id)
    requires id < |Reached(s, run).t.deposits|
    ensures var w := Reached(s, run);
            var d := w.t.deposits[id];
            var history := GroupsOf(w.t.ledger, id);
            && (forall r :: r in w.bank.payouts && w.bank.payouts[r].key == id ==> w.bank.payouts[r].amount == d.payout)
            && (forall r, q | r in w.bank.payouts && q in w.bank.payouts ::
                  w.bank.payouts[r].key == id && w.bank.payouts[q].key == id ==> r == q)
            && (id in w.t.payouts <==> d.status != Charged)
            && (id in w.t.payouts ==>
                  && w.t.payouts[id].ref in w.bank.payouts && w.bank.payouts[w.t.payouts[id].ref].key == id
                  && w.t.payouts[id].amount == d.payout)
            && (d.status == Charged || d.status == Paying <==> history == [ChargeEntries(d)])
            && (d.status == Settled <==> history == [ChargeEntries(d), SettlementEntries(d)])
            && (d.status == Failed <==> history == [ChargeEntries(d), ReversalEntries(d)])
            && (d.status == Settled ==> w.bank.payouts[w.t.payouts[id].ref].outcome.status == PayoutCompleted)
            && (d.status == Failed ==> w.bank.payouts[w.t.payouts[id].ref].outcome.status == PayoutFailed)
  {
    hide PcOk, ProcsOk, VouchersAgree, UniqueOk, TokensOk, BalancesOk, Reached;
    ReachedOk(s, run);
    var w := Reached(s, run);
    assert RowOk(s, w.t.vouchers, w.t.deposits[id]);
    assert GroupsOf(w.t.ledger, id) == HistoryAt(w.t.deposits, id);
    var d := w.t.deposits[id];
    assert |SettlementEntries(d)| != |ReversalEntries(d)|;
  }

  /** The provider never holds a payout that is not some deposit's. */
  lemma NoStrayPayout(s: Settings, run: seq<Action>, ref: Ref)
    requires ref in Reached(s, run).bank.payouts
    ensures var w := Reached(s, run); w.bank.payouts[ref].key < |w.t.deposits|
  {
    hide PcOk, ProcsOk, VouchersAgree, UniqueOk, TokensOk, BalancesOk, LedgerOk, RowsOk, Reached;
    ReachedOk(s, run);
  }

  // --- vouchers -------------------------------------------------------------------------------------

  /** A voucher is redeemed iff exactly one of its deposits is live; active means all of them failed. */
  lemma VoucherHeldOnce(s: Settings, run: seq<Action>, pin: Pin)
    requires pin in Reached(s, run).t.vouchers
    ensures var t := Reached(s, run).t;
            && (t.vouchers[pin].status == Redeemed <==> exists i :: Holder(t.deposits, i, pin))
            && (forall i, j :: Holder(t.deposits, i, pin) && Holder(t.deposits, j, pin) ==> i == j)
            && (t.vouchers[pin].status == Active <==>
                  forall i :: 0 <= i < |t.deposits| && t.deposits[i].pin == pin ==> t.deposits[i].status == Failed)
  {
    hide PcOk, ProcsOk, PayoutsOk, UniqueOk, TokensOk, BalancesOk, LedgerOk, BankAgrees, Reached;
    ReachedOk(s, run);
    var t := Reached(s, run).t;
    forall i | 0 <= i < |t.deposits| && t.deposits[i].pin == pin
      ensures Holder(t.deposits, i, pin) <==> t.deposits[i].status != Failed
    {
      assert RowOk(s, t.vouchers, t.deposits[i]);
    }
  }

  /** At most one deposit of a voucher is ever settled, however long the run goes on. */
  lemma SettledOnceEver(s: Settings, run: seq<Action>, more: seq<Action>, i: Id, j: Id)
    requires i < |Reached(s, run).t.deposits| && Reached(s, run).t.deposits[i].status == Settled
    requires j < |Reached(s, run + more).t.deposits| && Reached(s, run + more).t.deposits[j].status == Settled
    requires Reached(s, run + more).t.deposits[j].pin == Reached(s, run).t.deposits[i].pin
    ensures i == j
  {
    hide Reached;
    NothingRewritten(s, run, more);
    var t := Reached(s, run + more).t;
    assert t.deposits[i] == Reached(s, run).t.deposits[i];
    ReachedOk(s, run + more);
    assert RowOk(s, t.vouchers, t.deposits[i]);
    VoucherHeldOnce(s, run + more, t.deposits[i].pin);
    assert Holder(t.deposits, i, t.deposits[i].pin) && Holder(t.deposits, j, t.deposits[i].pin);
  }

  // --- exceptions --------------------------------------------------------------------------------------

  /** No request ever meets IllegalTransition, a voucher with nothing to reverse, or a duplicate payout. */
  lemma NeverRaised(s: Settings, run: seq<Action>, p: Proc, f: Fault)
    requires p in Reached(s, run).procs && Reached(s, run).procs[p] == Done(Raised(f))
    ensures f == PostFault(ZeroAmount) || f == NoUniqueReference || f == DuplicateToken || f == ProviderFault
  {
    hide Consistent, Reached;
    ReachedOk(s, run);
    assert PcOk(s, Reached(s, run).t, Reached(s, run).bank, Reached(s, run).procs[p]);
  }

  /**
   The charge of a voucher that is large enough commits iff it is still active, the key is new, one of
   the references is free, and the fee reaches half a cent: a smaller fee rounds to a zero line, which
   `post` refuses, so such a voucher can never be deposited.
   */
  lemma ChargeCommitsIff(s: Settings, t: Tables, a: CreateArgs, pin: Pin, references: seq<string>, now: int)
    requires pin in t.vouchers && !TooSmall(s, t.vouchers[pin].amount)
    ensures CommitCharge(s, t, a, pin, references, now).Ok? <==>
            && t.vouchers[pin].status == Active
            && !KeyTaken(t.deposits, a.key)
            && (exists i :: 0 <= i < |references| && !ReferenceTaken(t.deposits, references[i]))
            && t.vouchers[pin].amount * s.feeBasisPoints >= 5_000
  {
    var amount := t.vouchers[pin].amount;
    Depositable(s, amount);
    ChargeOutcome(s, t, a, pin, references, now);
    var row := PendingRow(s, a, pin, amount, now);
    InsertedRow(t.deposits, row, references);
    InsertFindsFree(t.deposits, row, references);
    DepositPostings(|t.deposits|, row);
    if InsertDeposit(t.deposits, row, references).Ok? {
      var d := InsertDeposit(t.deposits, row, references).value[|t.deposits|].(status := Charged);
      assert ChargeEntries(d) == ChargeEntries(row);
    }
  }

  lemma {:induction false} InsertFindsFree(deposits: seq<Deposit>, row: Deposit, references: seq<string>)
    ensures InsertDeposit(deposits, row, references).Ok? ==>
              exists i :: 0 <= i < |references| && !ReferenceTaken(deposits, references[i])
    ensures InsertDeposit(deposits, row, references) == Err(Raise(NoUniqueReference)) <==>
              forall i :: 0 <= i < |references| ==> ReferenceTaken(deposits, references[i])
  {
    if references != [] && ReferenceTaken(deposits, references[0]) {
      InsertFindsFree(deposits, row, references[1..]);
      assert forall i :: 1 <= i < |references| ==> references[i] == references[1..][i - 1];
      assert forall i :: 0 <= i < |references| - 1 ==> references[1..][i] == references[i + 1];
    }
  }

  /** A charge that nothing else stops is rolled back over a zero line exactly when its fee rounds to nothing. */
  lemma SmallFeeRaises(s: Settings, t: Tables, a: CreateArgs, pin: Pin, references: seq<string>, now: int)
    requires pin in t.vouchers && t.vouchers[pin].status == Active && !TooSmall(s, t.vouchers[pin].amount)
    requires !KeyTaken(t.deposits, a.key)
    requires exists i :: 0 <= i < |references| && !ReferenceTaken(t.deposits, references[i])
    ensures CommitCharge(s, t, a, pin, references, now) == Err(Raise(PostFault(ZeroAmount))) <==>
            t.vouchers[pin].amount * s.feeBasisPoints < 5_000
  {
    ChargeCommitsIff(s, t, a, pin, references, now);
    ChargeOutcome(s, t, a, pin, references, now);
    var row := PendingRow(s, a, pin, t.vouchers[pin].amount, now);
    InsertedRow(t.deposits, row, references);
    InsertFindsFree(t.deposits, row, references);
  }

  /** So in no run does a voucher with such a fee ever have a deposit. */
  lemma DepositsHaveFees(s: Settings, run: seq<Action>, id: Id)
    requires id < |Reached(s, run).t.deposits|
    ensures Reached(s, run).t.deposits[id].amount * s.feeBasisPoints >= 5_000
  {
    hide Reached, ProcsOk, VouchersAgree, PayoutsOk, UniqueOk, TokensOk, LedgerOk, BalancesOk, BankAgrees;
    ReachedOk(s, run);
    var t := Reached(s, run).t;
    assert RowOk(s, t.vouchers, t.deposits[id]);
    Depositable(s, t.vouchers[t.deposits[id].pin].amount);
  }

  // --- the number the user was shown -------------------------------------------------------------------

  /** The payout quoted at lookup is what the deposit stores, what the provider is given, and what is paid. */
  lemma QuoteHonoured(s: Settings, run: seq<Action>, p: Proc, token: Token, value: nat, fee: nat, payout: nat, id: Id)
    requires var w := Reached(s, run);
             && p in w.procs && w.procs[p] == Done(Quoted(token, value, fee, payout))
             && id < |w.t.deposits| && id < |w.origin| && w.origin[id] == token
    ensures var w := Reached(s, run);
            var d := w.t.deposits[id];
            && d.amount == value && d.fee == fee && d.payout == payout
            && (id in w.bank.refs ==>
                  && w.bank.refs[id] in w.bank.payouts && w.bank.payouts[w.bank.refs[id]].amount == payout)
            && (id in w.t.payouts ==> w.t.payouts[id].amount == payout)
  {
    hide VouchersAgree, UniqueOk, BalancesOk, LedgerOk, Reached;
    ReachedOk(s, run);
    var w := Reached(s, run);
    assert PcOk(s, w.t, w.bank, w.procs[p]) && RowOk(s, w.t.vouchers, w.t.deposits[id]);
    Depositable(s, value);
  }
}
