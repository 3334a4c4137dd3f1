/** The double-entry ledger of app/ledger.py. */
module Ledger {
  import opened Wrappers
  import opened Models

  /** Why `post` refuses a transaction, in the order it checks. */
  datatype PostError = TooFewEntries | ZeroAmount | Unbalanced(total: Cents) | OnlyFundingOmitsDeposit | NotPositive

  function Total(entries: seq<Entry>): Cents {
    if entries == [] then 0 else Total(entries[..|entries| - 1]) + entries[|entries| - 1].amount
  }

  /** What the entries add to one account. */
  function AccountTotal(entries: seq<Entry>, account: Account): Cents {
    if entries == [] then 0
    else
      var last := entries[|entries| - 1];
      AccountTotal(entries[..|entries| - 1], account) + if last.account == account then last.amount else 0
  }

  /** An account's balance: the sum of all its entries. Balances are never stored. */
  function BalanceOf(ledger: seq<Group>, account: Account): Cents {
    if ledger == [] then 0
    else BalanceOf(ledger[..|ledger| - 1], account) + AccountTotal(ledger[|ledger| - 1].entries, account)
  }

  /** What the float can still pay out, both sums read at one instant. */
  function Available(ledger: seq<Group>): Cents {
    BalanceOf(ledger, Settlement) + BalanceOf(ledger, UserPayable)
  }

  /** Everything ever posted for one deposit, oldest first. */
  function GroupsOf(ledger: seq<Group>, id: Id): seq<seq<Entry>> {
    if ledger == [] then []
    else
      var last := ledger[|ledger| - 1];
      GroupsOf(ledger[..|ledger| - 1], id) + if last.deposit == Some(id) then [last.entries] else []
  }

  predicate FundingAccount(account: Account) {
    account == Settlement || account == Capital
  }

  function CheckPosting(deposit: Option<Id>, entries: seq<Entry>): Option<PostError> {
    if |entries| < 2 then Some(TooFewEntries)
    else if exists i :: 0 <= i < |entries| && entries[i].amount == 0 then Some(ZeroAmount)
    else if Total(entries) != 0 then Some(Unbalanced(Total(entries)))
    else if deposit.None? && exists i :: 0 <= i < |entries| && entries[i].account !in {Settlement, Capital} then
      Some(OnlyFundingOmitsDeposit)
    else None
  }

  function ChargeEntries(d: Deposit): seq<Entry> {
    [Entry(VoucherReceivable, d.amount), Entry(UserPayable, -d.payout), Entry(FeeIncome, -d.fee)]
  }

  function SettlementEntries(d: Deposit): seq<Entry> {
    [Entry(UserPayable, d.payout), Entry(Settlement, -d.payout)]
  }

  function ReversalEntries(d: Deposit): seq<Entry> {
    [Entry(VoucherReceivable, -d.amount), Entry(UserPayable, d.payout), Entry(FeeIncome, d.fee)]
  }

  function FundingEntries(amount: Cents): seq<Entry> {
    [Entry(Settlement, amount), Entry(Capital, -amount)]
  }

  /** `post`: validate everything, then append one group. A refused transaction leaves no rows. */
  method Post(session: Session, deposit: Option<Id>, entries: seq<Entry>) returns (r: Result<nat, PostError>)
    modifies session`ledger
    ensures match CheckPosting(deposit, entries)
            case Some(e) => r == Err(e) && session.ledger == old(session.ledger)
            case None =>
              && r == Ok(|old(session.ledger)|)
              && session.ledger == old(session.ledger) + [Group(deposit, entries)]
  {
    if |entries| < 2 {
      return Err(TooFewEntries);
    }
    var total, allFunding := 0, true;
    for i := 0 to |entries|
      invariant forall j :: 0 <= j < i ==> entries[j].amount != 0
      invariant total == Total(entries[..i])
      invariant allFunding <==> forall j :: 0 <= j < i ==> FundingAccount(entries[j].account)
    {
      if entries[i].amount == 0 {
        return Err(ZeroAmount);
      }
      total := total + entries[i].amount;
      allFunding := allFunding && FundingAccount(entries[i].account);
      assert entries[..i + 1][..i] == entries[..i];
    }
    assert entries[..|entries|] == entries;
    if total != 0 {
      return Err(Unbalanced(total));
    }
    if deposit.None? && !allFunding {
      return Err(OnlyFundingOmitsDeposit);
    }
    r := Ok(|session.ledger|);
    session.ledger := session.ledger + [Group(deposit, entries)];
  }

  /** `fund_float`: settlement from capital, refused unless positive. */
  method FundFloat(session: Session, amount: Cents) returns (r: Result<nat, PostError>)
    modifies session`ledger
    ensures if amount <= 0 then r == Err(NotPositive) && session.ledger == old(session.ledger)
            else r.Ok? && session.ledger == old(session.ledger) + [Group(None, FundingEntries(amount))]
  {
    if amount <= 0 {
      return Err(NotPositive);
    }
    PostingsBalance(amount);
    r := Post(session, None, FundingEntries(amount));
  }

  /** The lines' total is what they add to the five accounts together. */
  lemma {:induction false} TotalIsByAccount(entries: seq<Entry>)
    ensures Total(entries) == AccountTotal(entries, Settlement) + AccountTotal(entries, VoucherReceivable)
                              + AccountTotal(entries, UserPayable) + AccountTotal(entries, FeeIncome)
                              + AccountTotal(entries, Capital)
  {
    if entries != [] {
      TotalIsByAccount(entries[..|entries| - 1]);
    }
  }

  /** What each of the program's transactions adds to each account. */
  lemma EntryTotals(d: Deposit, a: Account)
    ensures AccountTotal(ChargeEntries(d), a) ==
            (match a
             case VoucherReceivable => d.amount
             case UserPayable => -d.payout
             case FeeIncome => -d.fee
             case _ => 0)
    ensures AccountTotal(SettlementEntries(d), a) ==
            (match a case UserPayable => d.payout case Settlement => -d.payout case _ => 0)
    ensures AccountTotal(ReversalEntries(d), a) ==
            (match a
             case VoucherReceivable => -d.amount
             case UserPayable => d.payout
             case FeeIncome => d.fee
             case _ => 0)
  {
    var c, s, r := ChargeEntries(d), SettlementEntries(d), ReversalEntries(d);
    assert c[..2][..1] == c[..1] && r[..2][..1] == r[..1];
    assert AccountTotal(c[..1], a) == if a == VoucherReceivable then d.amount else 0;
    assert AccountTotal(s[..1], a) == if a == UserPayable then d.payout else 0;
    assert AccountTotal(r[..1], a) == if a == VoucherReceivable then -d.amount else 0;
  }

  lemma FundingTotals(amount: Cents, a: Account)
    ensures AccountTotal(FundingEntries(amount), a) ==
            (match a case Settlement => amount case Capital => -amount case _ => 0)
  {
    var f := FundingEntries(amount);
    assert AccountTotal(f[..1], a) == if a == Settlement then amount else 0;
  }

  lemma PostingsBalance(amount: Cents)
    ensures Total(FundingEntries(amount)) == 0
  {
    assert Total(FundingEntries(amount)[..1]) == amount;
  }

  /** A deposit's three transactions pass `post` exactly when their amounts are non-zero and agree. */
  lemma DepositPostings(id: Id, d: Deposit)
    requires d.payout == d.amount - d.fee
    ensures CheckPosting(Some(id), ChargeEntries(d)) ==
            if d.amount == 0 || d.payout == 0 || d.fee == 0 then Some(ZeroAmount) else None
    ensures CheckPosting(Some(id), ReversalEntries(d)) ==
            if d.amount == 0 || d.payout == 0 || d.fee == 0 then Some(ZeroAmount) else None
    ensures CheckPosting(Some(id), SettlementEntries(d)) == if d.payout == 0 then Some(ZeroAmount) else None
    ensures Total(ChargeEntries(d)) == Total(SettlementEntries(d)) == Total(ReversalEntries(d)) == 0
  {
    var c, s, r := ChargeEntries(d), SettlementEntries(d), ReversalEntries(d);
    assert c[..2][..1] == c[..1] && r[..2][..1] == r[..1];
    assert Total(c[..1]) == d.amount && Total(c[..2]) == d.amount - d.payout;
    assert Total(r[..1]) == -d.amount && Total(r[..2]) == d.payout - d.amount;
    assert Total(s[..1]) == d.payout;
    assert c[0].amount == d.amount && c[1].amount == -d.payout && c[2].amount == -d.fee;
    assert r[0].amount == -d.amount && r[1].amount == d.payout && r[2].amount == d.fee;
    assert s[0].amount == d.payout && s[1].amount == -d.payout;
  }

  /** Appending one group moves each balance by that group's lines, and adds to one deposit's history. */
  lemma AppendGroup(ledger: seq<Group>, g: Group)
    ensures forall a :: BalanceOf(ledger + [g], a) == BalanceOf(ledger, a) + AccountTotal(g.entries, a)
    ensures forall id: Id :: GroupsOf(ledger + [g], id) ==
                         GroupsOf(ledger, id) + if g.deposit == Some(id) then [g.entries] else []
  {
    assert (ledger + [g])[..|ledger|] == ledger;
  }
}
