/** What every reachable state satisfies, and why each transaction keeps it. */
module Invariant {
  import opened Wrappers
  import opened Models
  import opened Fees
  import opened Ledger
  import opened Payouts
  import opened Deposits
  import Switch

  // --- the tables ------------------------------------------------------------------------------

  ghost predicate RowOk(s: Settings, vouchers: map<Pin, Voucher>, d: Deposit) {
    && d.pin in vouchers && d.amount == vouchers[d.pin].amount
    && !TooSmall(s, vouchers[d.pin].amount)
    && d.fee == FeeFor(s, vouchers[d.pin].amount) >= 1 && d.payout == d.amount - d.fee >= 1
    && d.status != Pending && (d.status == Failed <==> d.failureReason.Some?)
  }

  ghost predicate RowsOk(s: Settings, vouchers: map<Pin, Voucher>, deposits: seq<Deposit>) {
    forall i :: 0 <= i < |deposits| ==> RowOk(s, vouchers, deposits[i])
  }

  predicate Holder(deposits: seq<Deposit>, i: nat, pin: Pin) {
    i < |deposits| && Live(deposits[i]) && deposits[i].pin == pin
  }

  /** A voucher is redeemed exactly while one deposit holds its value. */
  ghost predicate VouchersAgree(vouchers: map<Pin, Voucher>, deposits: seq<Deposit>) {
    && Switch.VouchersOk(vouchers)
    && (forall i, j, pin :: Holder(deposits, i, pin) && Holder(deposits, j, pin) ==> i == j)
    && (forall i, pin :: Holder(deposits, i, pin) ==> pin in vouchers && vouchers[pin].status == Redeemed)
    && (forall pin :: pin in vouchers && vouchers[pin].status == Redeemed ==> exists i :: Holder(deposits, i, pin))
  }

  predicate PayoutMatches(d: Deposit, p: Payout) {
    && p.amount == d.payout
    && match d.status
       case Paying => (p.status == PayoutPending || p.status == PayoutSubmitted) && p.failureReason == None
       case Settled => p.status == PayoutCompleted && p.failureReason == None
       case Failed => p.status == PayoutFailed && p.failureReason == d.failureReason
       case _ => false
  }

  /** A payout row exists exactly once a deposit has left charged, and tells the same story. */
  ghost predicate PayoutsOk(deposits: seq<Deposit>, payouts: map<Id, Payout>) {
    && (forall i :: 0 <= i < |deposits| ==> (i in payouts <==> deposits[i].status != Charged))
    && (forall i :: i in payouts ==> i < |deposits| && PayoutMatches(deposits[i], payouts[i]))
  }

  ghost predicate UniqueOk(deposits: seq<Deposit>) {
    forall i, j :: 0 <= i < j < |deposits| ==>
      deposits[i].key != deposits[j].key && deposits[i].reference != deposits[j].reference
  }

  /** Consumed tokens and deposits correspond one to one. */
  ghost predicate TokensOk(vouchers: map<Pin, Voucher>, tokens: map<Token, VoucherToken>,
                           deposits: seq<Deposit>, origin: seq<Token>)
  {
    && |origin| == |deposits|
    && (forall k :: k in tokens ==> tokens[k].pin in vouchers && (tokens[k].consumedAt.Some? <==> k in origin))
    && (forall i :: 0 <= i < |origin| ==> origin[i] in tokens && tokens[origin[i]].pin == deposits[i].pin)
    && (forall i, j :: 0 <= i < j < |origin| ==> origin[i] != origin[j])
  }

  /** The groups a deposit has posted by the time it reaches its status. */
  function History(d: Deposit): seq<seq<Entry>> {
    match d.status
    case Settled => [ChargeEntries(d), SettlementEntries(d)]
    case Failed => [ChargeEntries(d), ReversalEntries(d)]
    case Pending => []
    case _ => [ChargeEntries(d)]
  }

  function HistoryAt(deposits: seq<Deposit>, id: Id): seq<seq<Entry>> {
    if id < |deposits| then History(deposits[id]) else []
  }

  predicate GroupOk(g: Group) {
    && Total(g.entries) == 0 && |g.entries| >= 2
    && (g.deposit.None? ==> g.entries[0].amount > 0 && g.entries == FundingEntries(g.entries[0].amount))
  }

  ghost predicate LedgerOk(ledger: seq<Group>, deposits: seq<Deposit>) {
    && (forall k :: 0 <= k < |ledger| ==> GroupOk(ledger[k]))
    && (forall id: Id :: GroupsOf(ledger, id) == HistoryAt(deposits, id))
  }

  // --- the balances, as sums over deposits ---------------------------------------------------------

  datatype Measure = AmountLive | FeeLive | PayoutOwed | PayoutSettled

  function Weight(d: Deposit, m: Measure): int {
    match m
    case AmountLive => if Live(d) then d.amount else 0
    case FeeLive => if Live(d) then d.fee else 0
    case PayoutOwed => if InFlight(d) then d.payout else 0
    case PayoutSettled => if d.status == Settled then d.payout else 0
  }

  function Sum(deposits: seq<Deposit>, m: Measure): int {
    if deposits == [] then 0
    else Sum(deposits[..|deposits| - 1], m) + Weight(deposits[|deposits| - 1], m)
  }

  /** Everything ever put into the float. */
  function Funded(ledger: seq<Group>): Cents {
    if ledger == [] then 0
    else
      var last := ledger[|ledger| - 1];
      Funded(ledger[..|ledger| - 1]) + if last.deposit.None? then AccountTotal(last.entries, Settlement) else 0
  }

  ghost predicate BalancesOk(ledger: seq<Group>, deposits: seq<Deposit>) {
    && BalanceOf(ledger, Settlement) == Funded(ledger) - Sum(deposits, PayoutSettled)
    && BalanceOf(ledger, UserPayable) == -Sum(deposits, PayoutOwed)
    && BalanceOf(ledger, VoucherReceivable) == Sum(deposits, AmountLive)
    && BalanceOf(ledger, FeeIncome) == -Sum(deposits, FeeLive)
    && BalanceOf(ledger, Capital) == -Funded(ledger)
  }

  lemma SumAppend(deposits: seq<Deposit>, d: Deposit)
    ensures forall m :: Sum(deposits + [d], m) == Sum(deposits, m) + Weight(d, m)
  {
    assert (deposits + [d])[..|deposits|] == deposits;
  }

  lemma {:induction false} SumUpdate(deposits: seq<Deposit>, i: nat, d: Deposit)
    requires i < |deposits|
    ensures forall m :: Sum(deposits[i := d], m) == Sum(deposits, m) - Weight(deposits[i], m) + Weight(d, m)
  {
    var n := |deposits| - 1;
    if i == n {
      assert deposits[i := d][..n] == deposits[..n];
    } else {
      SumUpdate(deposits[..n], i, d);
      assert deposits[i := d][..n] == deposits[..n][i := d];
    }
  }

  // --- the bank ------------------------------------------------------------------------------------

  /** The bank holds at most one payout per deposit, for its amount, and its outcome is the one booked. */
  ghost predicate BankAgrees(deposits: seq<Deposit>, payouts: map<Id, Payout>, b: Bank<Id>) {
    && BankOk(b)
    && (forall i :: i in b.refs ==> i < |deposits| && b.payouts[b.refs[i]].amount == deposits[i].payout)
    && (forall i :: i in payouts ==> i in b.refs && payouts[i].ref == b.refs[i])
    && (forall i :: i in payouts && i < |deposits| ==>
          var outcome := b.payouts[b.refs[i]].outcome;
          && (deposits[i].status == Settled ==> outcome.status == PayoutCompleted)
          && (deposits[i].status == Failed ==>
                outcome.status == PayoutFailed && deposits[i].failureReason == Some(Reason(outcome))))
  }

  ghost predicate Consistent(s: Settings, t: Tables, b: Bank<Id>, origin: seq<Token>) {
    && RowsOk(s, t.vouchers, t.deposits) && VouchersAgree(t.vouchers, t.deposits)
    && PayoutsOk(t.deposits, t.payouts) && UniqueOk(t.deposits)
    && TokensOk(t.vouchers, t.tokens, t.deposits, origin)
    && LedgerOk(t.ledger, t.deposits) && BalancesOk(t.ledger, t.deposits)
    && BankAgrees(t.deposits, t.payouts, b)
  }

  // --- one deposit, one ledger group ------------------------------------------------------------------

  /** Only this deposit's row is changed or new. */
  ghost predicate OnlyRow(deposits: seq<Deposit>, deposits': seq<Deposit>, id: Id) {
    && |deposits| <= |deposits'|
    && forall j: Id :: j < |deposits'| && j != id ==> j < |deposits| && deposits'[j] == deposits[j]
  }

  /** The sums over deposits move by what this one deposit's weights do. */
  ghost predicate SumsMove(deposits: seq<Deposit>, deposits': seq<Deposit>, id: Id) {
    id < |deposits'| &&
    forall m :: Sum(deposits', m) == Sum(deposits, m) + Weight(deposits'[id], m)
                                     - if id < |deposits| then Weight(deposits[id], m) else 0
  }

  /** The entries are what this one deposit's change moves on each account. */
  ghost predicate TotalsMove(deposits: seq<Deposit>, deposits': seq<Deposit>, id: Id, entries: seq<Entry>) {
    id < |deposits'| &&
    forall a :: AccountTotal(entries, a) ==
                Moved(deposits'[id], a) - if id < |deposits| then Moved(deposits[id], a) else 0
  }

  /** Everything a status change writes: the row, at most one group, and that group's deposit. */
  lemma LedgerFollows(t: Tables, t': Tables, id: Id, entries: seq<Entry>)
    requires LedgerOk(t.ledger, t.deposits) && BalancesOk(t.ledger, t.deposits)
    requires id < |t'.deposits|
    requires t'.ledger == t.ledger + [Group(Some(id), entries)]
    requires OnlyRow(t.deposits, t'.deposits, id)
    requires History(t'.deposits[id]) == HistoryAt(t.deposits, id) + [entries]
    requires GroupOk(Group(Some(id), entries))
    requires SumsMove(t.deposits, t'.deposits, id) && TotalsMove(t.deposits, t'.deposits, id, entries)
    ensures LedgerOk(t'.ledger, t'.deposits) && BalancesOk(t'.ledger, t'.deposits)
  {
    hide LedgerOk, BalancesOk, History, HistoryAt, GroupOk, SumsMove, TotalsMove, OnlyRow;
    HistoryFollows(t, t', id, entries);
    BalancesFollow(t, t', id, entries);
  }

  lemma HistoryFollows(t: Tables, t': Tables, id: Id, entries: seq<Entry>)
    requires LedgerOk(t.ledger, t.deposits)
    requires id < |t'.deposits|
    requires t'.ledger == t.ledger + [Group(Some(id), entries)]
    requires OnlyRow(t.deposits, t'.deposits, id)
    requires History(t'.deposits[id]) == HistoryAt(t.deposits, id) + [entries]
    requires GroupOk(Group(Some(id), entries))
    ensures LedgerOk(t'.ledger, t'.deposits)
  {
    hide BalanceOf, AccountTotal, Total, History, GroupOk;
    AppendGroup(t.ledger, Group(Some(id), entries));
    hide GroupsOf;
    forall j: Id
      ensures GroupsOf(t'.ledger, j) == HistoryAt(t'.deposits, j)
    {
      assert GroupsOf(t.ledger, j) == HistoryAt(t.deposits, j);
    }
  }

  lemma BalancesFollow(t: Tables, t': Tables, id: Id, entries: seq<Entry>)
    requires BalancesOk(t.ledger, t.deposits)
    requires id < |t'.deposits|
    requires t'.ledger == t.ledger + [Group(Some(id), entries)]
    requires SumsMove(t.deposits, t'.deposits, id) && TotalsMove(t.deposits, t'.deposits, id, entries)
    ensures BalancesOk(t'.ledger, t'.deposits)
  {
    FundedStays(t.ledger, Group(Some(id), entries));
    AppendGroup(t.ledger, Group(Some(id), entries));
    hide Weight;
  }

  lemma FundedStays(ledger: seq<Group>, g: Group)
    requires g.deposit.Some?
    ensures Funded(ledger + [g]) == Funded(ledger)
  {
    assert (ledger + [g])[..|ledger|] == ledger;
  }

  /** What a deposit in its present status has moved on each account. */
  function Moved(d: Deposit, a: Account): Cents {
    match a
    case Settlement => -Weight(d, PayoutSettled)
    case UserPayable => -Weight(d, PayoutOwed)
    case VoucherReceivable => Weight(d, AmountLive)
    case FeeIncome => -Weight(d, FeeLive)
    case Capital => 0
  }

  // --- the transactions ---------------------------------------------------------------------------------

  lemma ChargeKeepsLedger(s: Settings, t: Tables, a: CreateArgs, pin: Pin, now: int, t': Tables)
    requires LedgerOk(t.ledger, t.deposits) && BalancesOk(t.ledger, t.deposits) && ChargedBy(s, t, a, pin, now, t')
    ensures LedgerOk(t'.ledger, t'.deposits) && BalancesOk(t'.ledger, t'.deposits)
  {
    var id := |t.deposits|;
    var d := t'.deposits[id];
    assert t'.deposits == t.deposits + [d];
    SumAppend(t.deposits, d);
    DepositPostings(id, d);
    forall x ensures AccountTotal(ChargeEntries(d), x) == Moved(d, x) {
      EntryTotals(d, x);
    }
    LedgerFollows(t, t', id, ChargeEntries(d));
  }

  lemma ChargeKeepsVouchers(s: Settings, t: Tables, a: CreateArgs, pin: Pin, now: int, t': Tables)
    requires VouchersAgree(t.vouchers, t.deposits) && ChargedBy(s, t, a, pin, now, t')
    ensures VouchersAgree(t'.vouchers, t'.deposits)
  {
    var id := |t.deposits|;
    Switch.ReverseUndoesCharge(t.vouchers, pin, now, now);
    assert t'.deposits == t.deposits + [t'.deposits[id]];
    assert forall i, p :: Holder(t'.deposits, i, p) <==> (Holder(t.deposits, i, p) || (i == id && p == pin));
    assert forall i :: !Holder(t.deposits, i, pin);
    forall p | p in t'.vouchers && t'.vouchers[p].status == Redeemed
      ensures exists i :: Holder(t'.deposits, i, p)
    {
      if p == pin {
        assert Holder(t'.deposits, id, p);
      } else {
        var i :| Holder(t.deposits, i, p);
        assert Holder(t'.deposits, i, p);
      }
    }
  }

  lemma ChargeKeepsRows(s: Settings, t: Tables, a: CreateArgs, pin: Pin, now: int, t': Tables)
    requires RowsOk(s, t.vouchers, t.deposits) && PayoutsOk(t.deposits, t.payouts) && UniqueOk(t.deposits)
    requires ChargedBy(s, t, a, pin, now, t')
    requires !TooSmall(s, t.vouchers[pin].amount)
    ensures RowsOk(s, t'.vouchers, t'.deposits) && PayoutsOk(t'.deposits, t'.payouts) && UniqueOk(t'.deposits)
  {
    Depositable(s, t.vouchers[pin].amount);
    assert t'.deposits == t.deposits + [t'.deposits[|t.deposits|]];
    forall i | 0 <= i < |t'.deposits|
      ensures RowOk(s, t'.vouchers, t'.deposits[i])
    {
      assert i < |t.deposits| ==> RowOk(s, t.vouchers, t.deposits[i]);
    }
  }

  lemma ChargeKeepsTokens(s: Settings, t: Tables, origin: seq<Token>, a: CreateArgs, pin: Pin, now: int, t': Tables)
    requires TokensOk(t.vouchers, t.tokens, t.deposits, origin) && ChargedBy(s, t, a, pin, now, t')
    requires a.token in t.tokens && t.tokens[a.token].consumedAt.None? && t.tokens[a.token].pin == pin
    ensures TokensOk(t'.vouchers, t'.tokens, t'.deposits, origin + [a.token])
  {
    assert t'.deposits == t.deposits + [t'.deposits[|t.deposits|]];
    assert forall k :: k in origin + [a.token] <==> k in origin || k == a.token;
  }

  lemma ChargeKeeps(s: Settings, t: Tables, b: Bank<Id>, origin: seq<Token>, a: CreateArgs, pin: Pin, now: int,
                    t': Tables)
    requires Consistent(s, t, b, origin) && ChargedBy(s, t, a, pin, now, t')
    requires a.token in t.tokens && t.tokens[a.token].consumedAt.None? && t.tokens[a.token].pin == pin
    requires !TooSmall(s, t.vouchers[pin].amount)
    ensures Consistent(s, t', b, origin + [a.token])
  {
    hide LedgerOk, BalancesOk, VouchersAgree, RowsOk, PayoutsOk, UniqueOk, TokensOk;
    ChargeKeepsLedger(s, t, a, pin, now, t');
    ChargeKeepsVouchers(s, t, a, pin, now, t');
    ChargeKeepsRows(s, t, a, pin, now, t');
    ChargeKeepsTokens(s, t, origin, a, pin, now, t');
    assert BankAgrees(t'.deposits, t'.payouts, b) by {
      assert t'.deposits == t.deposits + [t'.deposits[|t.deposits|]];
    }
  }

  /** One row's status moved, with what `transition` writes beside it; no other row changed. */
  ghost predicate Moves(t: Tables, t': Tables, id: Id, to: DepositStatus) {
    && id < |t.deposits| && |t'.deposits| == |t.deposits|
    && var d' := t'.deposits[id];
      && d' == t.deposits[id].(status := to, failureReason := d'.failureReason, updatedAt := d'.updatedAt)
      && (to == Failed <==> d'.failureReason.Some?)
      && t'.deposits == t.deposits[id := d']
  }

  /** The vouchers' amounts and codes; only their status may differ. */
  ghost predicate SameVouchers(t: Tables, t': Tables) {
    forall p :: p in t.vouchers ==> p in t'.vouchers && t'.vouchers[p].amount == t.vouchers[p].amount
  }

  lemma MoveKeepsRows(s: Settings, t: Tables, t': Tables, origin: seq<Token>, id: Id, to: DepositStatus)
    requires RowsOk(s, t.vouchers, t.deposits) && UniqueOk(t.deposits)
            && TokensOk(t.vouchers, t.tokens, t.deposits, origin)
    requires Moves(t, t', id, to) && to != Pending && SameVouchers(t, t') && t'.tokens == t.tokens
    ensures RowsOk(s, t'.vouchers, t'.deposits) && UniqueOk(t'.deposits)
            && TokensOk(t'.vouchers, t'.tokens, t'.deposits, origin)
  {
    forall i | 0 <= i < |t'.deposits|
      ensures RowOk(s, t'.vouchers, t'.deposits[i])
    {
      assert RowOk(s, t.vouchers, t.deposits[i]);
    }
  }

  lemma MoveKeepsPayouts(t: Tables, t': Tables, b: Bank<Id>, id: Id, to: DepositStatus)
    requires PayoutsOk(t.deposits, t.payouts) && BankAgrees(t.deposits, t.payouts, b) && Moves(t, t', id, to)
    requires to != Charged
    requires t'.payouts.Keys == t.payouts.Keys + {id}
    requires forall j :: j in t.payouts && j != id ==> t'.payouts[j] == t.payouts[j]
    requires PayoutMatches(t'.deposits[id], t'.payouts[id])
    requires id in b.refs && t'.payouts[id].ref == b.refs[id]
    requires to == Settled ==> b.payouts[b.refs[id]].outcome.status == PayoutCompleted
    requires to == Failed ==> b.payouts[b.refs[id]].outcome.status == PayoutFailed
                              && t'.deposits[id].failureReason == Some(Reason(b.payouts[b.refs[id]].outcome))
    ensures PayoutsOk(t'.deposits, t'.payouts) && BankAgrees(t'.deposits, t'.payouts, b)
  {
    assert PayoutsOk(t'.deposits, t'.payouts) by {
      hide BankAgrees;
    }
    MoveKeepsBank(t, t', b, id, to);
  }

  lemma MoveKeepsBank(t: Tables, t': Tables, b: Bank<Id>, id: Id, to: DepositStatus)
    requires BankAgrees(t.deposits, t.payouts, b) && Moves(t, t', id, to)
    requires t'.payouts.Keys == t.payouts.Keys + {id}
    requires forall j :: j in t.payouts && j != id ==> t'.payouts[j] == t.payouts[j]
    requires id in b.refs && t'.payouts[id].ref == b.refs[id]
    requires to == Settled ==> b.payouts[b.refs[id]].outcome.status == PayoutCompleted
    requires to == Failed ==> b.payouts[b.refs[id]].outcome.status == PayoutFailed
                              && t'.deposits[id].failureReason == Some(Reason(b.payouts[b.refs[id]].outcome))
    ensures BankAgrees(t'.deposits, t'.payouts, b)
  {
    hide BankOk, Reason;
  }

  lemma MoveKeepsLedger(t: Tables, t': Tables, id: Id, to: DepositStatus, entries: seq<Entry>)
    requires LedgerOk(t.ledger, t.deposits) && BalancesOk(t.ledger, t.deposits) && Moves(t, t', id, to)
    requires t'.ledger == t.ledger + [Group(Some(id), entries)]
    requires t.deposits[id].status == Paying
    requires t.deposits[id].payout == t.deposits[id].amount - t.deposits[id].fee
    requires (to == Settled && entries == SettlementEntries(t.deposits[id]))
             || (to == Failed && entries == ReversalEntries(t.deposits[id]))
    ensures LedgerOk(t'.ledger, t'.deposits) && BalancesOk(t'.ledger, t'.deposits)
  {
    var d, d' := t.deposits[id], t'.deposits[id];
    SumUpdate(t.deposits, id, d');
    DepositPostings(id, d);
    assert ChargeEntries(d') == ChargeEntries(d) && SettlementEntries(d') == SettlementEntries(d);
    assert ReversalEntries(d') == ReversalEntries(d);
    forall x ensures AccountTotal(entries, x) == Moved(d', x) - Moved(d, x) {
      EntryTotals(d, x);
    }
    LedgerFollows(t, t', id, entries);
  }

  lemma InstructKeeps(s: Settings, t: Tables, b: Bank<Id>, origin: seq<Token>, id: Id, ref: Ref, now: int)
    requires Consistent(s, t, b, origin) && id in b.refs && b.refs[id] == ref
    ensures match InstructWrite(t, id, ref, now)
            case Wrote(t') =>
              && Moves(t, t', id, Paying) && t.deposits[id].status == Charged
              && t' == t.(deposits := t'.deposits, payouts := t'.payouts)
              && t'.payouts == t.payouts[id := Payout(ref, t.deposits[id].payout, PayoutPending, None)]
              && Consistent(s, t', b, origin)
            case Unchanged => !(id < |t.deposits| && t.deposits[id].status == Charged)
            case Faulted(_) => false
  {
    hide LedgerOk, BalancesOk, VouchersAgree, UniqueOk, TokensOk, RowsOk;
    if id < |t.deposits| && t.deposits[id].status == Charged {
      assert !RefTaken(t.payouts, ref);
      var t' := InstructWrite(t, id, ref, now).t;
      MoveKeepsRows(s, t, t', origin, id, Paying);
      MoveKeepsPayouts(t, t', b, id, Paying);
      InstructKeepsVouchers(t, t', id);
      InstructKeepsLedger(t, t', id);
    }
  }

  lemma InstructKeepsVouchers(t: Tables, t': Tables, id: Id)
    requires VouchersAgree(t.vouchers, t.deposits) && Moves(t, t', id, Paying) && t.deposits[id].status == Charged
    requires t'.vouchers == t.vouchers
    ensures VouchersAgree(t'.vouchers, t'.deposits)
  {
    assert forall i, p :: Holder(t'.deposits, i, p) <==> Holder(t.deposits, i, p);
  }

  lemma InstructKeepsLedger(t: Tables, t': Tables, id: Id)
    requires LedgerOk(t.ledger, t.deposits) && BalancesOk(t.ledger, t.deposits)
    requires Moves(t, t', id, Paying) && t.deposits[id].status == Charged
    requires t'.ledger == t.ledger
    ensures LedgerOk(t'.ledger, t'.deposits) && BalancesOk(t'.ledger, t'.deposits)
  {
    SumUpdate(t.deposits, id, t'.deposits[id]);
    assert ChargeEntries(t'.deposits[id]) == ChargeEntries(t.deposits[id]);
    forall j: Id
      ensures HistoryAt(t'.deposits, j) == HistoryAt(t.deposits, j)
    {
    }
  }

  /** Phase 3 of `_advance_payout` never raises, and commits exactly one of four changes. */
  lemma OutcomeKeeps(s: Settings, t: Tables, b: Bank<Id>, origin: seq<Token>, id: Id, result: ProviderStatus, now: int)
    requires Consistent(s, t, b, origin) && id in b.refs
    requires Follows(result, b.payouts[b.refs[id]].outcome)
    ensures match PayoutWrite(t, id, result, now)
            case Wrote(t') =>
              && id < |t.deposits| && t.deposits[id].status == Paying
              && t'.tokens == t.tokens && Consistent(s, t', b, origin)
              && (match result.status
                  case PayoutCompleted => Settles(t, t', id)
                  case PayoutFailed => Fails(t, t', id)
                  case _ => t' == t.(payouts := t.payouts[id := t.payouts[id].(status := result.status)]))
            case Unchanged => Terminal(result.status) ==> !(id < |t.deposits| && t.deposits[id].status == Paying)
            case Faulted(_) => false
  {
    hide LedgerOk, BalancesOk, VouchersAgree, UniqueOk, TokensOk, RowsOk;
    if id < |t.deposits| && t.deposits[id].status == Paying {
      match result.status
      case PayoutCompleted =>
        SettleKeeps(s, t, b, origin, id, now);
      case PayoutFailed =>
        FailKeeps(s, t, b, origin, id, Reason(result), now);
      case _ =>
        PayoutStatusKeeps(t, b, id, result.status);
    }
  }

  lemma PayoutStatusKeeps(t: Tables, b: Bank<Id>, id: Id, status: PayoutStatus)
    requires PayoutsOk(t.deposits, t.payouts) && BankAgrees(t.deposits, t.payouts, b)
    requires id in t.payouts && t.deposits[id].status == Paying && !Terminal(status)
    ensures var t' := t.(payouts := t.payouts[id := t.payouts[id].(status := status)]);
            PayoutsOk(t'.deposits, t'.payouts) && BankAgrees(t'.deposits, t'.payouts, b)
  {
  }

  ghost predicate Settles(t: Tables, t': Tables, id: Id) {
    && Moves(t, t', id, Settled)
    && t'.ledger == t.ledger + [Group(Some(id), SettlementEntries(t.deposits[id]))]
    && t'.vouchers == t.vouchers
    && id in t.payouts && t'.payouts == t.payouts[id := t.payouts[id].(status := PayoutCompleted)]
  }

  ghost predicate Fails(t: Tables, t': Tables, id: Id) {
    && Moves(t, t', id, Failed)
    && t'.ledger == t.ledger + [Group(Some(id), ReversalEntries(t.deposits[id]))]
    && t.deposits[id].pin in t.vouchers && t.vouchers[t.deposits[id].pin].status == Redeemed
    && t'.vouchers
       == t.vouchers[t.deposits[id].pin := t.vouchers[t.deposits[id].pin].(status := Active, redeemedAt := None)]
    && id in t.payouts
    && t'.payouts == t.payouts[id := t.payouts[id].(status := PayoutFailed,
                                                    failureReason := t'.deposits[id].failureReason)]
  }

  lemma SettleKeeps(s: Settings, t: Tables, b: Bank<Id>, origin: seq<Token>, id: Id, now: int)
    requires Consistent(s, t, b, origin) && id in t.payouts && t.deposits[id].status == Paying
    requires b.payouts[b.refs[id]].outcome.status == PayoutCompleted
    ensures var r := SettleWrite(t, id, now);
            r.Wrote? && r.t.tokens == t.tokens && Settles(t, r.t, id) && Consistent(s, r.t, b, origin)
  {
    hide LedgerOk, BalancesOk, VouchersAgree, UniqueOk, TokensOk, RowsOk;
    RowHolds(s, t, id);
    DepositPostings(id, t.deposits[id]);
    var t' := SettleWrite(t, id, now).t;
    MoveKeepsRows(s, t, t', origin, id, Settled);
    MoveKeepsPayouts(t, t', b, id, Settled);
    MoveKeepsLedger(t, t', id, Settled, SettlementEntries(t.deposits[id]));
    SettleKeepsVouchers(t, t', id);
  }

  lemma SettleKeepsVouchers(t: Tables, t': Tables, id: Id)
    requires VouchersAgree(t.vouchers, t.deposits) && Settles(t, t', id) && t.deposits[id].status == Paying
    ensures VouchersAgree(t'.vouchers, t'.deposits)
  {
    assert forall i, p :: Holder(t'.deposits, i, p) <==> Holder(t.deposits, i, p);
  }

  lemma FailKeeps(s: Settings, t: Tables, b: Bank<Id>, origin: seq<Token>, id: Id, reason: string, now: int)
    requires Consistent(s, t, b, origin) && id in t.payouts && t.deposits[id].status == Paying
    requires b.payouts[b.refs[id]].outcome.status == PayoutFailed && reason == Reason(b.payouts[b.refs[id]].outcome)
    ensures var r := FailWrite(t, id, reason, now);
            r.Wrote? && r.t.tokens == t.tokens && Fails(t, r.t, id) && Consistent(s, r.t, b, origin)
  {
    hide LedgerOk, BalancesOk, VouchersAgree, UniqueOk, TokensOk, RowsOk;
    RowHolds(s, t, id);
    DepositPostings(id, t.deposits[id]);
    HeldVoucher(t, id);
    var t' := FailWrite(t, id, reason, now).t;
    MoveKeepsRows(s, t, t', origin, id, Failed);
    MoveKeepsPayouts(t, t', b, id, Failed);
    MoveKeepsLedger(t, t', id, Failed, ReversalEntries(t.deposits[id]));
    FailKeepsVouchers(t, t', id);
  }

  lemma RowHolds(s: Settings, t: Tables, id: Id)
    requires RowsOk(s, t.vouchers, t.deposits) && id < |t.deposits|
    ensures t.deposits[id].payout == t.deposits[id].amount - t.deposits[id].fee
    ensures t.deposits[id].amount != 0 && t.deposits[id].payout != 0 && t.deposits[id].fee != 0
  {
    assert RowOk(s, t.vouchers, t.deposits[id]);
  }

  lemma HeldVoucher(t: Tables, id: Id)
    requires VouchersAgree(t.vouchers, t.deposits) && id < |t.deposits| && Live(t.deposits[id])
    ensures var pin := t.deposits[id].pin; pin in t.vouchers && t.vouchers[pin].status == Redeemed
  {
    assert Holder(t.deposits, id, t.deposits[id].pin);
  }

  lemma FailKeepsVouchers(t: Tables, t': Tables, id: Id)
    requires VouchersAgree(t.vouchers, t.deposits) && Fails(t, t', id) && t.deposits[id].status == Paying
    ensures VouchersAgree(t'.vouchers, t'.deposits)
  {
    var pin := t.deposits[id].pin;
    assert Holder(t.deposits, id, pin);
    assert forall i, p :: Holder(t'.deposits, i, p) <==> Holder(t.deposits, i, p) && i != id;
    assert forall p, k :: Switch.Holds(t'.vouchers, p, k) <==> Switch.Holds(t.vouchers, p, k);
    forall p | p in t'.vouchers && t'.vouchers[p].status == Redeemed
      ensures exists i :: Holder(t'.deposits, i, p)
    {
      var i :| Holder(t.deposits, i, p);
      assert Holder(t'.deposits, i, p);
    }
  }

  /** A new voucher, or a new token for a known one, changes nothing else. */
  lemma VendKeeps(s: Settings, t: Tables, b: Bank<Id>, origin: seq<Token>, pin: Pin, v: Voucher)
    requires Consistent(s, t, b, origin)
    requires pin !in t.vouchers && v.status == Active && Switch.VouchersOk(t.vouchers[pin := v])
    ensures Consistent(s, t.(vouchers := t.vouchers[pin := v]), b, origin)
  {
    var t' := t.(vouchers := t.vouchers[pin := v]);
    hide VouchersAgree, UniqueOk, LedgerOk, BalancesOk, BankOk;
    assert RowsOk(s, t'.vouchers, t'.deposits) by {
      assert forall i :: 0 <= i < |t.deposits| ==> RowOk(s, t.vouchers, t.deposits[i]);
    }
    assert VouchersAgree(t'.vouchers, t'.deposits) by {
      VendKeepsVouchers(t, pin, v);
    }
  }

  lemma VendKeepsVouchers(t: Tables, pin: Pin, v: Voucher)
    requires VouchersAgree(t.vouchers, t.deposits)
    requires pin !in t.vouchers && v.status == Active && Switch.VouchersOk(t.vouchers[pin := v])
    ensures VouchersAgree(t.vouchers[pin := v], t.deposits)
  {
    var t' := t.(vouchers := t.vouchers[pin := v]);
    assert forall i, p :: Holder(t'.deposits, i, p) <==> Holder(t.deposits, i, p);
  }

  lemma FundKeeps(s: Settings, t: Tables, b: Bank<Id>, origin: seq<Token>, amount: Cents)
    requires Consistent(s, t, b, origin) && amount > 0
    ensures Consistent(s, t.(ledger := t.ledger + [Group(None, FundingEntries(amount))]), b, origin)
  {
    hide RowsOk, VouchersAgree, PayoutsOk, UniqueOk, TokensOk, LedgerOk, BalancesOk, BankAgrees, FundingEntries;
    FundKeepsLedger(t.ledger, t.deposits, amount);
  }

  lemma FundKeepsLedger(ledger: seq<Group>, deposits: seq<Deposit>, amount: Cents)
    requires LedgerOk(ledger, deposits) && BalancesOk(ledger, deposits) && amount > 0
    ensures var after := ledger + [Group(None, FundingEntries(amount))];
            LedgerOk(after, deposits) && BalancesOk(after, deposits)
  {
    var g := Group(None, FundingEntries(amount));
    AppendGroup(ledger, g);
    PostingsBalance(amount);
    assert (ledger + [g])[..|ledger|] == ledger;
    forall a
      ensures AccountTotal(g.entries, a) == match a case Settlement => amount case Capital => -amount case _ => 0
    {
      FundingTotals(amount, a);
    }
  }
}
