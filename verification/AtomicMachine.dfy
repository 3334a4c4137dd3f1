/**
 The deposit machine as one would like to think of it: no ledger, no payout rows, no voucher status, no
 processes and nothing half done. Each deal is charged, instructed, then settled or failed, one atomic
 step each, and the bank moves on its own. The interleaved protocol refines it.
 */
module AtomicMachine {
  import opened Wrappers
  import opened Models
  import opened Fees
  import opened Ledger
  import opened Payouts
  import opened Deposits
  import opened Protocol
  import opened Invariant
  import opened Reachable
  import opened Safety
  import Switch

  datatype Deal = Deal(pin: Pin, amount: Cents, fee: Cents, payout: Cents, stage: DepositStatus)

  datatype Machine = Machine(sold: map<Pin, nat>, deals: seq<Deal>, funded: Cents, bank: map<Id, ProviderStatus>)

  datatype Event =
    | Stutter
    | Sold(pin: Pin, amount: nat)
    | FundedBy(cents: Cents)
    | ChargeDeal(pin: Pin)
    | Accept(id: Id)
    | Answer(id: Id)
    | Instruct(id: Id)
    | Settle(id: Id)
    | Fail(id: Id)

  const NEW := Machine(map[], [], 0, map[])

  /** The voucher's value is in one of the deals. */
  predicate Held(m: Machine, pin: Pin) {
    exists i :: 0 <= i < |m.deals| && m.deals[i].pin == pin && m.deals[i].stage != Failed
  }

  function Stage(m: Machine, id: Id, stage: DepositStatus): Machine
    requires id < |m.deals|
  {
    m.(deals := m.deals[id := m.deals[id].(stage := stage)])
  }

  /** One atomic step, with its guard. */
  ghost predicate Next(s: Settings, m: Machine, m': Machine, e: Event) {
    match e
    case Stutter => m' == m
    case Sold(pin, amount) => pin !in m.sold && amount > 0 && m' == m.(sold := m.sold[pin := amount])
    case FundedBy(cents) => cents > 0 && m' == m.(funded := m.funded + cents)
    case ChargeDeal(pin) =>
      && pin in m.sold && !TooSmall(s, m.sold[pin]) && FeeFor(s, m.sold[pin]) >= 1 && !Held(m, pin)
      && var deal := Deal(pin, m.sold[pin], FeeFor(s, m.sold[pin]), PayoutFor(s, m.sold[pin]), Charged);
        m' == m.(deals := m.deals + [deal])
    case Accept(id) =>
      && id < |m.deals| && m.deals[id].stage == Charged && id !in m.bank
      && m' == m.(bank := m.bank[id := PENDING])
    case Answer(id) =>
      && id in m.bank && id in m'.bank && Follows(m.bank[id], m'.bank[id])
      && m' == m.(bank := m.bank[id := m'.bank[id]])
    case Instruct(id) =>
      && id < |m.deals| && m.deals[id].stage == Charged && id in m.bank
      && m' == Stage(m, id, Paying)
    case Settle(id) =>
      && id < |m.deals| && m.deals[id].stage == Paying && id in m.bank && m.bank[id].status == PayoutCompleted
      && m' == Stage(m, id, Settled)
    case Fail(id) =>
      && id < |m.deals| && m.deals[id].stage == Paying && id in m.bank && m.bank[id].status == PayoutFailed
      && m' == Stage(m, id, Failed)
  }

  function DealOf(d: Deposit): Deal {
    Deal(d.pin, d.amount, d.fee, d.payout, d.status)
  }

  function Sales(vouchers: map<Pin, Voucher>): map<Pin, nat> {
    map p | p in vouchers :: vouchers[p].amount
  }

  function Deals(deposits: seq<Deposit>): seq<Deal> {
    seq(|deposits|, i requires 0 <= i < |deposits| => DealOf(deposits[i]))
  }

  function Outcomes(b: Bank<Id>): map<Id, ProviderStatus> {
    map k | k in b.refs && b.refs[k] in b.payouts :: b.payouts[b.refs[k]].outcome
  }

  /** The atomic machine's view of the running system. */
  function View(w: World): Machine {
    Machine(Sales(w.t.vouchers), Deals(w.t.deposits), Funded(w.t.ledger), Outcomes(w.bank))
  }

  /** Which atomic step an action is: most are none. */
  function EventOf(s: Settings, w: World, action: Action): Event {
    var w' := Step(s, w, action);
    match action
    case Vend(pin, _, value, _, _) => if w' == w then Stutter else Sold(pin, value)
    case Fund(cents) => if cents > 0 then FundedBy(cents) else Stutter
    case BankMoves(ref, _) => if ref in w.bank.payouts then Answer(w.bank.payouts[ref].key) else Stutter
    case Run(p, _) =>
      if p !in w.procs then Stutter
      else
        (match w.procs[p]
         case CreateCovered(_, pin, _, _, _, _) => if |w'.t.deposits| > |w.t.deposits| then ChargeDeal(pin) else Stutter
         case InstructCall(id, _) => if id !in w.bank.refs && id in w'.bank.refs then Accept(id) else Stutter
         case InstructRecord(id, _) => if w'.t != w.t then Instruct(id) else Stutter
         case PayoutRecord(id, _, result) =>
           if w'.t == w.t then Stutter
           else if result.status == PayoutCompleted then Settle(id)
           else if result.status == PayoutFailed then Fail(id)
           else Stutter
         case _ => Stutter)
    case _ => Stutter
  }

  lemma ViewMove(t: Tables, t': Tables, b: Bank<Id>, id: Id, to: DepositStatus)
    requires Moves(t, t', id, to) && SameVouchers(t, t') && t'.vouchers.Keys == t.vouchers.Keys
    ensures Sales(t'.vouchers) == Sales(t.vouchers)
    ensures Deals(t'.deposits) == Deals(t.deposits)[id := Deals(t.deposits)[id].(stage := to)]
  {
    assert forall p :: p in t.vouchers <==> p in t'.vouchers;
    forall p | p in t.vouchers
      ensures t'.vouchers[p].amount == t.vouchers[p].amount
    {
    }
  }

  lemma ViewCharge(s: Settings, t: Tables, a: CreateArgs, pin: Pin, now: int, t': Tables)
    requires ChargedBy(s, t, a, pin, now, t')
    ensures Sales(t'.vouchers) == Sales(t.vouchers) && Funded(t'.ledger) == Funded(t.ledger)
    ensures var amount := t.vouchers[pin].amount;
            && FeeFor(s, amount) >= 1
            && Deals(t'.deposits) == Deals(t.deposits)
                + [Deal(pin, amount, FeeFor(s, amount), PayoutFor(s, amount), Charged)]
  {
    var d := t'.deposits[|t.deposits|];
    assert t'.deposits == t.deposits + [d];
    assert t'.ledger[..|t.ledger|] == t.ledger;
  }

  lemma NotHeld(s: Settings, t: Tables, m: Machine, pin: Pin)
    requires RowsOk(s, t.vouchers, t.deposits) && VouchersAgree(t.vouchers, t.deposits) && m.deals == Deals(t.deposits)
    requires pin in t.vouchers
    ensures Held(m, pin) <==> t.vouchers[pin].status == Redeemed
  {
    forall j | 0 <= j < |t.deposits| && t.deposits[j].pin == pin
      ensures Holder(t.deposits, j, pin) <==> m.deals[j].stage != Failed
    {
      assert RowOk(s, t.vouchers, t.deposits[j]);
    }
    if t.vouchers[pin].status == Redeemed {
      var j: nat :| Holder(t.deposits, j, pin);
      assert m.deals[j].pin == pin;
    }
  }

  lemma RefinesCharge(s: Settings, w: World, p: Proc, i: Input)
    requires Inv(s, w) && p in w.procs && w.procs[p].CreateCovered?
    ensures Next(s, View(w), View(RunStep(s, w, p, i)), EventOf(s, w, Run(p, i)))
  {
    hide LedgerOk, BalancesOk, UniqueOk, TokensOk, BankAgrees, PayoutsOk, RowsOk, VouchersAgree;
    var pc := w.procs[p];
    assert PcOk(s, w.t, w.bank, pc);
    ChargeOutcome(s, w.t, pc.a, pc.pin, i.references, i.now);
    match CommitCharge(s, w.t, pc.a, pc.pin, i.references, i.now)
    case Ok(t') =>
      hide Sales, Deals, Held, Funded;
      ViewCharge(s, w.t, pc.a, pc.pin, i.now, t');
      NotHeld(s, w.t, View(w), pc.pin);
      assert View(w).sold == Sales(w.t.vouchers);
      SalesAt(w.t.vouchers, pc.pin);
    case _ =>
  }

  lemma SalesAt(vouchers: map<Pin, Voucher>, pin: Pin)
    requires pin in vouchers
    ensures pin in Sales(vouchers) && Sales(vouchers)[pin] == vouchers[pin].amount
  {
  }

  lemma RefinesInstruct(s: Settings, w: World, p: Proc, i: Input)
    requires Inv(s, w) && p in w.procs && w.procs[p].InstructRecord?
    ensures Next(s, View(w), View(RunStep(s, w, p, i)), EventOf(s, w, Run(p, i)))
  {
    hide Inv, Consistent, Sales, Deals, Outcomes;
    var pc := w.procs[p];
    PcHolds(s, w, p);
    NotCharging(s, w, p);
    BankSound(s, w);
    InstructKeeps(s, w.t, w.bank, w.origin, pc.id, pc.ref, i.now);
    hide InstructWrite;
    assert RunStep(s, w, p, i) == StepRecordInstruction(w, p, pc.id, pc.ref, i);
    if InstructWrite(w.t, pc.id, pc.ref, i.now).Wrote? {
      ViewMove(w.t, InstructWrite(w.t, pc.id, pc.ref, i.now).t, w.bank, pc.id, Paying);
      OutcomeAt(w.bank, pc.id);
      DealsAt(w.t.deposits);
    }
  }

  /** What phase 3 of `_advance_payout` can do in a reachable state. */
  lemma OutcomeFacts(s: Settings, w: World, p: Proc, i: Input)
    requires Inv(s, w) && p in w.procs && w.procs[p].PayoutRecord?
    ensures var pc := w.procs[p];
            && pc.id in w.bank.refs && w.bank.refs[pc.id] in w.bank.payouts
            && (Terminal(pc.result.status) ==> w.bank.payouts[w.bank.refs[pc.id]].outcome == pc.result)
            && match PayoutWrite(w.t, pc.id, pc.result, i.now)
               case Wrote(t') =>
                 && pc.id < |w.t.deposits| && w.t.deposits[pc.id].status == Paying
                 && (match pc.result.status
                     case PayoutCompleted => Settles(w.t, t', pc.id)
                     case PayoutFailed => Fails(w.t, t', pc.id)
                     case _ => t'.deposits == w.t.deposits && t'.vouchers == w.t.vouchers && t'.ledger == w.t.ledger)
               case Unchanged => true
               case Faulted(_) => false
  {
    hide Consistent, Settles, Fails;
    var pc := w.procs[p];
    assert PcOk(s, w.t, w.bank, pc);
    OutcomeKeeps(s, w.t, w.bank, w.origin, pc.id, pc.result, i.now);
  }

  lemma RefinesOutcome(s: Settings, w: World, p: Proc, i: Input)
    requires Inv(s, w) && p in w.procs && w.procs[p].PayoutRecord?
    ensures Next(s, View(w), View(RunStep(s, w, p, i)), EventOf(s, w, Run(p, i)))
  {
    hide Inv, PayoutWrite, Sales, Deals, Outcomes, Settles, Fails;
    var pc := w.procs[p];
    OutcomeFacts(s, w, p, i);
    assert RunStep(s, w, p, i) == StepRecordOutcome(w, p, pc.id, pc.result, i);
    match PayoutWrite(w.t, pc.id, pc.result, i.now)
    case Wrote(t') =>
      ViewOutcome(s, w, pc.id, pc.result, t');
      OutcomeAt(w.bank, pc.id);
      DealsAt(w.t.deposits);
      Advanced(w.t, t', pc.id, pc.result);
    case Unchanged =>
      assert View(RunStep(s, w, p, i)) == View(w);
    case Faulted(_) =>
  }

  /** A settling or failing write changes the tables. */
  lemma Advanced(t: Tables, t': Tables, id: Id, result: ProviderStatus)
    requires id < |t.deposits| && t.deposits[id].status == Paying
    requires result.status == PayoutCompleted ==> Settles(t, t', id)
    requires result.status == PayoutFailed ==> Fails(t, t', id)
    ensures Terminal(result.status) ==> t' != t
  {
  }

  lemma DealsAt(deposits: seq<Deposit>)
    ensures |Deals(deposits)| == |deposits|
    ensures forall i :: 0 <= i < |deposits| ==> Deals(deposits)[i] == DealOf(deposits[i])
  {
  }

  lemma OutcomeAt(b: Bank<Id>, id: Id)
    requires id in b.refs && b.refs[id] in b.payouts
    ensures id in Outcomes(b) && Outcomes(b)[id] == b.payouts[b.refs[id]].outcome
  {
  }

  lemma ViewOutcome(s: Settings, w: World, id: Id, result: ProviderStatus, t': Tables)
    requires id < |w.t.deposits|
    requires match result.status
             case PayoutCompleted => Settles(w.t, t', id)
             case PayoutFailed => Fails(w.t, t', id)
             case _ => t'.deposits == w.t.deposits && t'.vouchers == w.t.vouchers && t'.ledger == w.t.ledger
    ensures Sales(t'.vouchers) == Sales(w.t.vouchers) && Funded(t'.ledger) == Funded(w.t.ledger)
    ensures Deals(t'.deposits) ==
            match result.status
            case PayoutCompleted => Deals(w.t.deposits)[id := Deals(w.t.deposits)[id].(stage := Settled)]
            case PayoutFailed => Deals(w.t.deposits)[id := Deals(w.t.deposits)[id].(stage := Failed)]
            case _ => Deals(w.t.deposits)
  {
    if Terminal(result.status) {
      assert t'.ledger[..|w.t.ledger|] == w.t.ledger;
      ViewMove(w.t, t', w.bank, id, if result.status == PayoutCompleted then Settled else Failed);
    }
  }

  lemma RefinesBank(s: Settings, w: World, ref: Ref, to: ProviderStatus)
    requires Inv(s, w)
    ensures Next(s, View(w), View(Step(s, w, BankMoves(ref, to))), EventOf(s, w, BankMoves(ref, to)))
  {
    hide Inv, Sales, Deals, Funded, Outcomes, Progress, RunStep;
    BankSound(s, w);
    if ref in w.bank.payouts {
      ProgressOutcomes(w.bank, ref, to);
    }
    assert ref !in w.bank.payouts ==> Progress(w.bank, ref, to) == w.bank by { NoProgress(w.bank, ref, to); }
  }

  lemma NoProgress(b: Bank<Id>, ref: Ref, to: ProviderStatus)
    ensures ref !in b.payouts ==> Progress(b, ref, to) == b
  {
  }

  lemma ProgressOutcomes(b: Bank<Id>, ref: Ref, to: ProviderStatus)
    requires BankOk(b) && ref in b.payouts
    ensures var b', id := Progress(b, ref, to), b.payouts[ref].key;
            && id in Outcomes(b) && id in Outcomes(b') && Follows(Outcomes(b)[id], Outcomes(b')[id])
            && Outcomes(b') == Outcomes(b)[id := Outcomes(b')[id]]
  {
  }

  lemma RefinesAccept(s: Settings, w: World, p: Proc, i: Input)
    requires Inv(s, w) && p in w.procs && w.procs[p].InstructCall?
    ensures Next(s, View(w), View(RunStep(s, w, p, i)), EventOf(s, w, Run(p, i)))
  {
    hide Consistent, Sales, Deals, Outcomes;
    var pc := w.procs[p];
    assert PcOk(s, w.t, w.bank, pc);
    var w' := RunStep(s, w, p, i);
    assert w' == StepCreatePayout(w, p, pc.id, pc.amount, i);
    DealsAt(w.t.deposits);
    OutcomeKeys(w.bank);
    if pc.id !in w.bank.refs && pc.id in w'.bank.refs {
      NotYetAccepted(s, w, pc.id);
      AcceptedOutcomes(w.bank, pc.id, pc.amount, i.newRef);
    }
  }

  lemma OutcomeKeys(b: Bank<Id>)
    ensures forall k :: k in Outcomes(b) ==> k in b.refs
  {
  }

  lemma NotYetAccepted(s: Settings, w: World, id: Id)
    requires Inv(s, w) && id < |w.t.deposits| && id !in w.bank.refs
    ensures w.t.deposits[id].status == Charged && BankOk(w.bank)
  {
    hide PcOk, ProcsOk, RowsOk, LedgerOk, BalancesOk, UniqueOk, TokensOk, VouchersAgree;
  }

  lemma AcceptedOutcomes(b: Bank<Id>, id: Id, amount: Cents, newRef: Ref)
    requires BankOk(b) && id !in b.refs && newRef !in b.payouts
    ensures Outcomes(Create(b, id, amount, newRef).0) == Outcomes(b)[id := PENDING]
  {
    var b' := Create(b, id, amount, newRef).0;
    assert forall k :: k in b.refs ==> b'.refs[k] == b.refs[k] && b.refs[k] != newRef;
  }

  lemma RefinesSale(s: Settings, w: World, action: Action)
    requires action.Vend?
    ensures Next(s, View(w), View(Step(s, w, action)), EventOf(s, w, action))
  {
    hide RunStep, Deals, Funded, Outcomes, Switch.KeyTaken;
    var w' := Step(s, w, action);
    if action.value != 0 && !Switch.Collides(w.t.vouchers, action.pin, action.serial)
       && !Switch.KeyTaken(w.t.vouchers, action.key) {
      assert action.pin in w'.t.vouchers && action.pin !in w.t.vouchers;
      SoldOne(w.t.vouchers, action.pin, Voucher(action.value, Active, None, action.now, action.serial, action.key));
    }
  }

  lemma SoldOne(vouchers: map<Pin, Voucher>, pin: Pin, v: Voucher)
    ensures Sales(vouchers[pin := v]) == Sales(vouchers)[pin := v.amount]
    ensures pin !in vouchers ==> pin !in Sales(vouchers)
  {
  }

  lemma RefinesFunding(s: Settings, w: World, cents: Cents)
    ensures Next(s, View(w), View(Step(s, w, Fund(cents))), EventOf(s, w, Fund(cents)))
  {
    if cents > 0 {
      assert Step(s, w, Fund(cents)).t.ledger[..|w.t.ledger|] == w.t.ledger;
      FundingTotals(cents, Settlement);
    }
  }

  /** Every action of the running system is one atomic step, or none. */
  lemma Refines(s: Settings, w: World, action: Action)
    requires Inv(s, w)
    ensures Next(s, View(w), View(Step(s, w, action)), EventOf(s, w, action))
  {
    hide Inv, View, Step, Next, EventOf;
    match action
    case Vend(_, _, _, _, _) => RefinesSale(s, w, action);
    case Fund(cents) => RefinesFunding(s, w, cents);
    case BankMoves(ref, to) => RefinesBank(s, w, ref, to);
    case Run(p, i) => RefinesRun(s, w, p, i);
    case Begin(_, _) => RefinesNothing(s, w, action);
    case Crash(_) => RefinesNothing(s, w, action);
  }

  lemma RefinesRun(s: Settings, w: World, p: Proc, i: Input)
    requires Inv(s, w)
    ensures Next(s, View(w), View(Step(s, w, Run(p, i))), EventOf(s, w, Run(p, i)))
  {
    hide Inv, View, RunStep;
    if p in w.procs {
      hide Next, EventOf;
      match w.procs[p]
      case CreateCovered(_, _, _, _, _, _) => RefinesCharge(s, w, p, i);
      case InstructCall(_, _) => RefinesAccept(s, w, p, i);
      case InstructRecord(_, _) => RefinesInstruct(s, w, p, i);
      case PayoutRecord(_, _, _) => RefinesOutcome(s, w, p, i);
      case _ => RefinesIdle(s, w, p, i);
    }
  }

  lemma RefinesNothing(s: Settings, w: World, action: Action)
    requires action.Begin? || action.Crash?
    ensures Next(s, View(w), View(Step(s, w, action)), EventOf(s, w, action))
  {
    hide Sales, Deals, Funded, Outcomes, RunStep;
  }

  lemma RefinesIdle(s: Settings, w: World, p: Proc, i: Input)
    requires p in w.procs
    requires !w.procs[p].CreateCovered? && !w.procs[p].InstructCall? && !w.procs[p].InstructRecord?
            && !w.procs[p].PayoutRecord?
    ensures Next(s, View(w), View(RunStep(s, w, p, i)), EventOf(s, w, Run(p, i)))
  {
    hide View, RunStep;
    ViewIdle(s, w, p, i);
  }

  lemma ViewIdle(s: Settings, w: World, p: Proc, i: Input)
    requires p in w.procs
    requires !w.procs[p].CreateCovered? && !w.procs[p].InstructCall? && !w.procs[p].InstructRecord?
            && !w.procs[p].PayoutRecord?
    ensures View(RunStep(s, w, p, i)) == View(w)
  {
    hide Sales, Deals, Outcomes, Funded;
  }

  lemma ViewStart()
    ensures View(START) == NEW
  {
  }

  /** Over any run, whoever races and whatever crashes, the view moves by atomic steps and pauses alone. */
  lemma RunRefines(s: Settings, run: seq<Action>, n: nat)
    requires n < |run|
    ensures Next(s, View(Reached(s, run[..n])), View(Reached(s, run[..n + 1])),
            EventOf(s, Reached(s, run[..n]), run[n]))
  {
    hide Inv, Next, View, EventOf, Step;
    assert run[..n + 1][..n] == run[..n];
    ReachedOk(s, run[..n]);
    Refines(s, Reached(s, run[..n]), run[n]);
  }

  /** A commit that changes a deposit's status, or adds one, is never a pause. */
  lemma StatusChangesAreSteps(s: Settings, w: World, action: Action)
    requires Inv(s, w) && EventOf(s, w, action) == Stutter
    ensures Deals(Step(s, w, action).t.deposits) == Deals(w.t.deposits)
  {
    hide Inv, Deals, Sales, Outcomes;
    Refines(s, w, action);
  }

  function Owed(deals: seq<Deal>): Cents {
    if deals == [] then 0
    else
      var last := deals[|deals| - 1];
      Owed(deals[..|deals| - 1]) + if last.stage == Charged || last.stage == Paying then last.payout else 0
  }

  function Paid(deals: seq<Deal>): Cents {
    if deals == [] then 0
    else
      var last := deals[|deals| - 1];
      Paid(deals[..|deals| - 1]) + if last.stage == Settled then last.payout else 0
  }

  lemma {:induction false} DealSums(deposits: seq<Deposit>)
    ensures Owed(Deals(deposits)) == Sum(deposits, PayoutOwed) && Paid(Deals(deposits)) == Sum(deposits, PayoutSettled)
  {
    if deposits != [] {
      DealSums(deposits[..|deposits| - 1]);
      assert Deals(deposits)[..|deposits| - 1] == Deals(deposits[..|deposits| - 1]);
    }
  }

  /**
   What the atomic machine does not keep can be read off it: which vouchers are redeemed, what the
   settlement account holds, what users are owed, and so the float.
   */
  lemma Observed(s: Settings, run: seq<Action>)
    ensures var w := Reached(s, run);
            var m := View(w);
            && (forall pin :: pin in w.t.vouchers ==> (w.t.vouchers[pin].status == Redeemed <==> Held(m, pin)))
            && BalanceOf(w.t.ledger, Settlement) == m.funded - Paid(m.deals)
            && BalanceOf(w.t.ledger, UserPayable) == -Owed(m.deals)
            && Available(w.t.ledger) == m.funded - Paid(m.deals) - Owed(m.deals)
  {
    hide Reached, PcOk, ProcsOk, Deals, Sales, Outcomes, Held, VouchersAgree, RowsOk, PayoutsOk, BankAgrees, LedgerOk,
         TokensOk, UniqueOk;
    ReachedOk(s, run);
    var w := Reached(s, run);
    DealSums(w.t.deposits);
    forall pin | pin in w.t.vouchers
      ensures w.t.vouchers[pin].status == Redeemed <==> Held(View(w), pin)
    {
      NotHeld(s, w.t, View(w), pin);
    }
  }
}
