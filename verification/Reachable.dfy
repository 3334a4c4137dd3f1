/** The invariant of the whole system, over every interleaving, race and crash. */
module Reachable {
  import opened Wrappers
  import opened Models
  import opened Fees
  import opened Ledger
  import opened Payouts
  import opened Deposits
  import opened Protocol
  import opened Invariant
  import Switch

  // --- what never changes back --------------------------------------------------------------------

  predicate RowEvolves(d: Deposit, d': Deposit) {
    && d' == d.(status := d'.status, failureReason := d'.failureReason, updatedAt := d'.updatedAt)
    && (d' == d || Distance(d'.status) < Distance(d.status))
  }

  /** History is never rewritten: rows keep their identity, statuses only move on, the ledger only grows. */
  ghost predicate Evolves(w: World, w': World) {
    && w.t.ledger <= w'.t.ledger && w.origin <= w'.origin
    && (forall p :: p in w.t.vouchers ==>
          && p in w'.t.vouchers && w'.t.vouchers[p].amount == w.t.vouchers[p].amount
          && w'.t.vouchers[p].serial == w.t.vouchers[p].serial)
    && (forall k :: k in w.t.tokens ==>
          && k in w'.t.tokens && w'.t.tokens[k].pin == w.t.tokens[k].pin
          && (w.t.tokens[k].consumedAt.Some? ==> w'.t.tokens[k] == w.t.tokens[k]))
    && |w.t.deposits| <= |w'.t.deposits|
    && (forall i :: 0 <= i < |w.t.deposits| ==> RowEvolves(w.t.deposits[i], w'.t.deposits[i]))
    && (forall i :: i in w.t.payouts ==>
          && i in w'.t.payouts
          && w'.t.payouts[i].ref == w.t.payouts[i].ref && w'.t.payouts[i].amount == w.t.payouts[i].amount)
    && BankEvolves(w.bank, w'.bank)
  }

  lemma EvolvesChains(w: World, w': World, w'': World)
    requires Evolves(w, w') && Evolves(w', w'')
    ensures Evolves(w, w'')
  {
    forall i | 0 <= i < |w.t.deposits|
      ensures RowEvolves(w.t.deposits[i], w''.t.deposits[i])
    {
      assert RowEvolves(w.t.deposits[i], w'.t.deposits[i]) && RowEvolves(w'.t.deposits[i], w''.t.deposits[i]);
    }
  }

  /** No token was used up. */
  ghost predicate Calm(w: World, w': World) {
    forall k :: k in w.t.tokens ==> k in w'.t.tokens && w'.t.tokens[k] == w.t.tokens[k]
  }

  // --- what a process may believe ---------------------------------------------------------------------

  /** Inside the charging transaction, between taking the float lock and the commit. */
  predicate InCharge(pc: Pc) {
    pc.CreateChecked? || pc.CreateHalfRead? || pc.CreateCovered?
  }

  /** The exceptions a request can meet: a fee of nothing, bad luck with random values, the provider. */
  predicate Expected(f: Fault) {
    f == PostFault(ZeroAmount) || f == NoUniqueReference || f == DuplicateToken || f == ProviderFault
  }

  ghost predicate HoldsToken(s: Settings, t: Tables, a: CreateArgs, pin: Pin, payout: Cents) {
    && a.token in t.tokens && t.tokens[a.token].pin == pin && t.tokens[a.token].consumedAt.None?
    && pin in t.vouchers && !TooSmall(s, t.vouchers[pin].amount)
    && payout == PayoutFor(s, t.vouchers[pin].amount)
  }

  ghost predicate PcOk(s: Settings, t: Tables, b: Bank<Id>, pc: Pc) {
    match pc
    case LookupInsert(pin, value) => pin in t.vouchers && t.vouchers[pin].amount == value
    case CreateChecked(a, pin, payout) => HoldsToken(s, t, a, pin, payout)
    case CreateHalfRead(a, pin, payout, _, _) => HoldsToken(s, t, a, pin, payout)
    case CreateCovered(a, pin, payout, _, _, _) => HoldsToken(s, t, a, pin, payout)
    case InstructCall(id, amount) => id < |t.deposits| && amount == t.deposits[id].payout
    case InstructRecord(id, ref) => id in b.refs && b.refs[id] == ref
    case PayoutAsk(id, ref, pin) =>
      && id < |t.deposits| && pin == t.deposits[id].pin
      && id in t.payouts && t.payouts[id].ref == ref && id in b.refs && b.refs[id] == ref
    case PayoutRecord(id, pin, result) =>
      && id < |t.deposits| && pin == t.deposits[id].pin
      && id in b.refs && b.refs[id] in b.payouts
      && Follows(result, b.payouts[b.refs[id]].outcome)
    case Done(Quoted(token, value, fee, payout)) =>
      && token in t.tokens && t.tokens[token].pin in t.vouchers
      && t.vouchers[t.tokens[token].pin].amount == value
      && fee == FeeFor(s, value) && payout == QuotedPayout(s, value)
    case Done(Replayed(id)) => id < |t.deposits|
    case Done(Raised(fault)) => Expected(fault)
    case _ => true
  }

  lemma PcStable(s: Settings, w: World, w': World, pc: Pc)
    requires PcOk(s, w.t, w.bank, pc) && Evolves(w, w') && (InCharge(pc) ==> Calm(w, w'))
    ensures PcOk(s, w'.t, w'.bank, pc)
  {
    if pc.InstructCall? || pc.PayoutAsk? || pc.PayoutRecord? {
      assert RowEvolves(w.t.deposits[pc.id], w'.t.deposits[pc.id]);
    }
  }

  ghost predicate ProcsOk(s: Settings, w: World) {
    && (forall p :: p in w.procs ==> PcOk(s, w.t, w.bank, w.procs[p]))
    && (forall p :: p in w.procs ==> (InCharge(w.procs[p]) <==> w.floatLock == Some(p)))
    && (w.floatLock.Some? ==> w.floatLock.value in w.procs)
  }

  /** The invariant. */
  ghost predicate Inv(s: Settings, w: World) {
    Consistent(s, w.t, w.bank, w.origin) && ProcsOk(s, w)
  }

  /** What one process's step leaves behind. */
  ghost predicate StepKeeps(s: Settings, w: World, w': World, p: Proc) {
    && Consistent(s, w'.t, w'.bank, w'.origin) && Evolves(w, w')
    && p in w'.procs && w'.procs == w.procs[p := w'.procs[p]] && PcOk(s, w'.t, w'.bank, w'.procs[p])
    && (w.floatLock == w'.floatLock || (w.floatLock in {None, Some(p)} && w'.floatLock in {None, Some(p)}))
    && (InCharge(w'.procs[p]) <==> w'.floatLock == Some(p))
    && (Calm(w, w') || w.floatLock == Some(p))
  }

  lemma Assemble(s: Settings, w: World, w': World, p: Proc)
    requires Inv(s, w) && StepKeeps(s, w, w', p)
    ensures Inv(s, w')
  {
    hide Consistent, Evolves, Calm, PcOk;
    forall q | q in w'.procs
      ensures PcOk(s, w'.t, w'.bank, w'.procs[q])
    {
      if q != p {
        PcStable(s, w, w', w.procs[q]);
      }
    }
  }

  // --- each step ----------------------------------------------------------------------------------------

  /** Only the program counter moved. */
  lemma Idle(s: Settings, w: World, p: Proc, pc: Pc)
    requires Inv(s, w) && p in w.procs && PcOk(s, w.t, w.bank, pc)
    requires !InCharge(w.procs[p]) && !InCharge(pc)
    ensures StepKeeps(s, w, At(w, p, pc), p)
  {
    hide Consistent, PcOk;
  }

  /** The charging transaction ended without a commit. */
  lemma LeaveKeeps(s: Settings, w: World, p: Proc, pc: Pc)
    requires Inv(s, w) && p in w.procs && InCharge(w.procs[p]) && PcOk(s, w.t, w.bank, pc) && !InCharge(pc)
    ensures StepKeeps(s, w, Leave(w, p, pc), p)
  {
    hide Consistent, PcOk;
  }

  lemma QuoteKeeps(s: Settings, w: World, p: Proc, pin: Pin, value: nat, i: Input)
    requires Inv(s, w) && p in w.procs && w.procs[p] == LookupInsert(pin, value)
    ensures StepKeeps(s, w, StepQuote(s, w, p, pin, value, i), p)
  {
    hide Inv, Consistent;
    PcHolds(s, w, p);
    NotCharging(s, w, p);
    if i.newToken !in w.t.tokens {
      TokenKeeps(s, w.t, w.bank, w.origin, i.newToken, VoucherToken(pin, i.now + s.tokenTtl, None));
    }
  }

  /** A new token, not yet consumed, for a known voucher. */
  lemma TokenKeeps(s: Settings, t: Tables, b: Bank<Id>, origin: seq<Token>, token: Token, v: VoucherToken)
    requires Consistent(s, t, b, origin) && token !in t.tokens && v.pin in t.vouchers && v.consumedAt.None?
    ensures Consistent(s, t.(tokens := t.tokens[token := v]), b, origin)
  {
    hide RowsOk, VouchersAgree, PayoutsOk, UniqueOk, LedgerOk, BalancesOk, BankAgrees;
  }

  lemma NotCharging(s: Settings, w: World, p: Proc)
    requires Inv(s, w) && p in w.procs
    ensures Consistent(s, w.t, w.bank, w.origin)
    ensures InCharge(w.procs[p]) <==> w.floatLock == Some(p)
    ensures w.floatLock.Some? ==> w.floatLock.value in w.procs
  {
    hide Consistent, PcOk;
  }

  lemma CheckKeeps(s: Settings, w: World, p: Proc, a: CreateArgs, i: Input)
    requires Inv(s, w) && p in w.procs && w.procs[p] == CreateScreened(a)
    ensures StepKeeps(s, w, StepCheck(s, w, p, a, i), p)
  {
    hide Inv, Consistent;
    ConsistentTokens(s, w);
    NotCharging(s, w, p);
    PcHolds(s, w, p);
  }

  lemma ConsistentTokens(s: Settings, w: World)
    requires Inv(s, w)
    ensures TokensOk(w.t.vouchers, w.t.tokens, w.t.deposits, w.origin)
  {
  }

  lemma FloatKeeps(s: Settings, w: World, p: Proc, a: CreateArgs, pin: Pin, payout: Cents, pc: Pc)
    requires Inv(s, w) && p in w.procs && InCharge(w.procs[p]) && HoldsToken(s, w.t, a, pin, payout)
    requires pc.CreateHalfRead? || pc.CreateCovered?
    requires pc.a == a && pc.pin == pin && pc.payout == payout
    ensures StepKeeps(s, w, At(w, p, pc), p)
  {
    hide Consistent;
  }

  lemma CommitKeeps(s: Settings, w: World, p: Proc, i: Input)
    requires Inv(s, w) && p in w.procs && w.procs[p].CreateCovered?
    ensures StepKeeps(s, w, StepCommit(s, w, p, w.procs[p].a, w.procs[p].pin, i), p)
  {
    hide Consistent, Evolves, ChargedBy;
    var a, pin := w.procs[p].a, w.procs[p].pin;
    assert PcOk(s, w.t, w.bank, w.procs[p]);
    ChargeOutcome(s, w.t, a, pin, i.references, i.now);
    match CommitCharge(s, w.t, a, pin, i.references, i.now)
    case Err(stop) =>
      LeaveKeeps(s, w, p, Stopped(a, stop));
    case Ok(t') =>
      ChargeKeeps(s, w.t, w.bank, w.origin, a, pin, i.now, t');
      ChargeEvolves(s, w, p, a, pin, i.now, t');
  }

  lemma ChargeEvolves(s: Settings, w: World, p: Proc, a: CreateArgs, pin: Pin, now: int, t': Tables)
    requires ChargedBy(s, w.t, a, pin, now, t')
    requires a.token in w.t.tokens && w.t.tokens[a.token].consumedAt.None?
    ensures Evolves(w, Leave(w.(t := t', origin := w.origin + [a.token]), p, AdvanceStart(|w.t.deposits|)))
  {
    assert forall i :: 0 <= i < |w.t.deposits| ==> t'.deposits[i] == t'.deposits[..|w.t.deposits|][i];
  }

  lemma CreatePayoutKeeps(s: Settings, w: World, p: Proc, id: Id, amount: Cents, i: Input)
    requires Inv(s, w) && p in w.procs && w.procs[p] == InstructCall(id, amount)
    ensures StepKeeps(s, w, StepCreatePayout(w, p, id, amount, i), p)
  {
    hide Consistent, BankEvolves;
    PositivePayout(s, w, id, amount);
    if (i.link.Up? || i.link.made) && (id in w.bank.refs || i.newRef !in w.bank.payouts) {
      CreatePayoutAgrees(s, w, id, amount, i.newRef);
      assert Evolves(w, StepCreatePayout(w, p, id, amount, i));
    } else {
      Idle(s, w, p, StepCreatePayout(w, p, id, amount, i).procs[p]);
    }
  }

  lemma PositivePayout(s: Settings, w: World, id: Id, amount: Cents)
    requires Consistent(s, w.t, w.bank, w.origin) && PcOk(s, w.t, w.bank, InstructCall(id, amount))
    ensures amount > 0
  {
    assert RowOk(s, w.t.vouchers, w.t.deposits[id]);
  }

  lemma CreatePayoutAgrees(s: Settings, w: World, id: Id, amount: Cents, newRef: Ref)
    requires Consistent(s, w.t, w.bank, w.origin) && PcOk(s, w.t, w.bank, InstructCall(id, amount))
    requires id in w.bank.refs || newRef !in w.bank.payouts
    ensures var (bank, ref) := Create(w.bank, id, amount, newRef);
            && Consistent(s, w.t, bank, w.origin) && BankEvolves(w.bank, bank)
            && id in bank.refs && bank.refs[id] == ref
  {
    hide LedgerOk, BalancesOk, VouchersAgree, UniqueOk, RowsOk, TokensOk, PayoutsOk, BankAgrees, BankEvolves, Create;
    AcceptAgrees(w.t.deposits, w.t.payouts, w.bank, id, amount, newRef);
  }

  lemma AcceptAgrees(deposits: seq<Deposit>, payouts: map<Id, Payout>, b: Bank<Id>, id: Id, amount: Cents, newRef: Ref)
    requires BankAgrees(deposits, payouts, b) && id < |deposits| && amount == deposits[id].payout
    requires id in b.refs || newRef !in b.payouts
    ensures var (bank, ref) := Create(b, id, amount, newRef);
            BankAgrees(deposits, payouts, bank) && BankEvolves(b, bank) && id in bank.refs && bank.refs[id] == ref
  {
    CreateKeeps(b, id, amount, newRef);
  }

  lemma RecordInstructionKeeps(s: Settings, w: World, p: Proc, id: Id, ref: Ref, i: Input)
    requires Inv(s, w) && p in w.procs && w.procs[p] == InstructRecord(id, ref)
    ensures StepKeeps(s, w, StepRecordInstruction(w, p, id, ref, i), p)
  {
    hide Consistent;
    assert PcOk(s, w.t, w.bank, w.procs[p]);
    InstructKeeps(s, w.t, w.bank, w.origin, id, ref, i.now);
    match InstructWrite(w.t, id, ref, i.now)
    case Unchanged =>
      Idle(s, w, p, PayoutRead(id));
    case Wrote(t') =>
  }

  lemma ReadPayoutKeeps(s: Settings, w: World, p: Proc, id: Id)
    requires Inv(s, w) && p in w.procs && w.procs[p] == PayoutRead(id)
    ensures StepKeeps(s, w, StepReadPayout(w, p, id), p)
  {
    hide Inv, Consistent, StepKeeps;
    BankSound(s, w);
    Idle(s, w, p, StepReadPayout(w, p, id).procs[p]);
  }

  lemma RecordOutcomeKeeps(s: Settings, w: World, p: Proc, id: Id, pin: Pin, result: ProviderStatus, i: Input)
    requires Inv(s, w) && p in w.procs && w.procs[p] == PayoutRecord(id, pin, result)
    ensures StepKeeps(s, w, StepRecordOutcome(w, p, id, result, i), p)
  {
    hide Consistent, Evolves, Settles, Fails;
    assert PcOk(s, w.t, w.bank, w.procs[p]);
    OutcomeKeeps(s, w.t, w.bank, w.origin, id, result, i.now);
    match PayoutWrite(w.t, id, result, i.now)
    case Unchanged =>
      Idle(s, w, p, Done(Finished(id)));
    case Wrote(t') =>
      OutcomeEvolves(w, p, id, t', result);
  }

  lemma OutcomeEvolves(w: World, p: Proc, id: Id, t': Tables, result: ProviderStatus)
    requires id < |w.t.deposits| && w.t.deposits[id].status == Paying && t'.tokens == w.t.tokens
    requires match result.status
             case PayoutCompleted => Settles(w.t, t', id)
             case PayoutFailed => Fails(w.t, t', id)
             case _ => id in w.t.payouts
                       && t' == w.t.(payouts := w.t.payouts[id := w.t.payouts[id].(status := result.status)])
    ensures Evolves(w, At(w.(t := t'), p, Done(Finished(id))))
  {
    assert forall i :: 0 <= i < |w.t.deposits| && i != id ==> t'.deposits[i] == w.t.deposits[i];
  }

  lemma PcHolds(s: Settings, w: World, p: Proc)
    requires Inv(s, w) && p in w.procs
    ensures PcOk(s, w.t, w.bank, w.procs[p])
  {
    hide Consistent, PcOk;
  }

  /** The steps inside the charging transaction that write nothing. */
  lemma FloatRuns(s: Settings, w: World, p: Proc, i: Input)
    requires Inv(s, w) && p in w.procs && (w.procs[p].CreateChecked? || w.procs[p].CreateHalfRead?)
    ensures StepKeeps(s, w, RunStep(s, w, p, i), p)
  {
    hide Inv, StepKeeps, BalanceOf;
    PcHolds(s, w, p);
    var pc, pc' := w.procs[p], RunStep(s, w, p, i).procs[p];
    if InCharge(pc') {
      FloatKeeps(s, w, p, pc.a, pc.pin, pc.payout, pc');
    } else {
      LeaveKeeps(s, w, p, pc');
    }
  }

  /** The steps outside it that write nothing and keep no belief. */
  lemma IdleRuns(s: Settings, w: World, p: Proc, i: Input)
    requires Inv(s, w) && p in w.procs
    requires w.procs[p].LookupStart? || w.procs[p].CreateStart? || w.procs[p].AdvanceStart? || w.procs[p].InstructRead?
             || w.procs[p].Done? || w.procs[p].Crashed? || w.procs[p].CreateReplay?
    ensures StepKeeps(s, w, RunStep(s, w, p, i), p)
  {
    hide Inv, StepKeeps, Assessable, FindKey;
    PcHolds(s, w, p);
    if w.procs[p].CreateReplay? {
      KeyFound(w.t.deposits, w.procs[p].a.key);
    }
    assert w.procs[p := w.procs[p]] == w.procs;
    Idle(s, w, p, RunStep(s, w, p, i).procs[p]);
  }

  lemma RunKeeps(s: Settings, w: World, p: Proc, i: Input)
    requires Inv(s, w) && p in w.procs
    ensures StepKeeps(s, w, RunStep(s, w, p, i), p)
  {
    hide Inv, StepKeeps, PcOk, StepQuote, StepCheck, StepCommit, StepCreatePayout, StepRecordInstruction,
         StepReadPayout, StepRecordOutcome, StepAsk;
    match w.procs[p]
    case LookupInsert(pin, value) => QuoteKeeps(s, w, p, pin, value, i);
    case CreateScreened(a) => CheckKeeps(s, w, p, a, i);
    case CreateCovered(a, pin, payout, seen, at, until) => CommitKeeps(s, w, p, i);
    case InstructCall(id, amount) => CreatePayoutKeeps(s, w, p, id, amount, i);
    case InstructRecord(id, ref) => RecordInstructionKeeps(s, w, p, id, ref, i);
    case PayoutRead(id) => ReadPayoutKeeps(s, w, p, id);
    case PayoutAsk(id, ref, pin) => AskKeeps(s, w, p, id, ref, pin, i);
    case PayoutRecord(id, pin, result) => RecordOutcomeKeeps(s, w, p, id, pin, result, i);
    case CreateChecked(_, _, _) => FloatRuns(s, w, p, i);
    case CreateHalfRead(_, _, _, _, _) => FloatRuns(s, w, p, i);
    case _ => IdleRuns(s, w, p, i);
  }

  lemma AskKeeps(s: Settings, w: World, p: Proc, id: Id, ref: Ref, pin: Pin, i: Input)
    requires Inv(s, w) && p in w.procs && w.procs[p] == PayoutAsk(id, ref, pin)
    ensures StepKeeps(s, w, StepAsk(w, p, id, ref, pin, i), p)
  {
    hide Consistent, StepKeeps, PcOk;
    AskOk(s, w, p, id, ref, pin, i);
    Idle(s, w, p, StepAsk(w, p, id, ref, pin, i).procs[p]);
  }

  lemma AskOk(s: Settings, w: World, p: Proc, id: Id, ref: Ref, pin: Pin, i: Input)
    requires Inv(s, w) && p in w.procs && w.procs[p] == PayoutAsk(id, ref, pin)
    ensures PcOk(s, w.t, w.bank, StepAsk(w, p, id, ref, pin, i).procs[p])
  {
    hide Inv, Consistent;
    PcHolds(s, w, p);
    BankSound(s, w);
  }

  lemma BankSound(s: Settings, w: World)
    requires Inv(s, w)
    ensures BankOk(w.bank)
    ensures forall i :: i in w.t.payouts ==>
            i < |w.t.deposits| && i in w.bank.refs && w.t.payouts[i].ref == w.bank.refs[i]
  {
    hide ProcsOk, LedgerOk, BalancesOk, VouchersAgree, UniqueOk, RowsOk, TokensOk;
  }

  /** A process's step moves no other process. */
  lemma OthersStay(s: Settings, w: World, p: Proc, i: Input, q: Proc)
    requires p in w.procs && q != p
    ensures q in RunStep(s, w, p, i).procs <==> q in w.procs
    ensures q in w.procs ==> RunStep(s, w, p, i).procs[q] == w.procs[q]
  {
    hide CommitCharge, CheckToken, InstructWrite, PayoutWrite, ReplayOf, Assessable, Create;
  }

  // --- every action, every run -----------------------------------------------------------------------------

  lemma Started(s: Settings)
    ensures Inv(s, START)
  {
  }

  lemma ProcStepKeeps(s: Settings, w: World, p: Proc, i: Input)
    requires Inv(s, w) && p in w.procs
    ensures Inv(s, RunStep(s, w, p, i)) && Evolves(w, RunStep(s, w, p, i))
  {
    RunKeeps(s, w, p, i);
    hide Inv, RunStep, Consistent, Evolves, PcOk, Calm;
    Assemble(s, w, RunStep(s, w, p, i), p);
  }

  /** Starting or losing a process: it holds nothing but, perhaps, the float lock, and that is let go. */
  lemma ComeAndGo(s: Settings, w: World, action: Action)
    requires Inv(s, w) && (action.Begin? || action.Crash?)
    ensures Inv(s, Step(s, w, action)) && Evolves(w, Step(s, w, action))
  {
    hide Consistent, Evolves, RunStep;
    SameRowsEvolve(w, Step(s, w, action));
  }

  lemma SameRowsEvolve(w: World, w': World)
    requires w'.t == w.t && w'.bank == w.bank && w'.origin == w.origin
    ensures Evolves(w, w')
  {
  }

  /** Every action keeps the invariant and rewrites nothing. */
  lemma ActionKeeps(s: Settings, w: World, action: Action)
    requires Inv(s, w)
    ensures Inv(s, Step(s, w, action)) && Evolves(w, Step(s, w, action))
  {
    hide Inv, Evolves, RunStep;
    match action
    case Run(p, i) =>
      if p in w.procs {
        ProcStepKeeps(s, w, p, i);
      } else {
        EvolvesFromSelf(w);
      }
    case Begin(_, _) => ComeAndGo(s, w, action);
    case Crash(_) => ComeAndGo(s, w, action);
    case Vend(_, _, _, _, _) => VendStepKeeps(s, w, action);
    case Fund(amount) => FundStepKeeps(s, w, amount);
    case BankMoves(ref, to) => BankStepKeeps(s, w, ref, to);
  }

  lemma Outside(s: Settings, w: World, w': World)
    requires Inv(s, w) && Consistent(s, w'.t, w'.bank, w'.origin) && Evolves(w, w') && Calm(w, w')
    requires w'.procs == w.procs && w'.floatLock == w.floatLock
    ensures Inv(s, w')
  {
    hide Consistent, Evolves, Calm, PcOk;
    forall q | q in w'.procs
      ensures PcOk(s, w'.t, w'.bank, w'.procs[q])
    {
      PcStable(s, w, w', w.procs[q]);
    }
  }

  lemma VendStepKeeps(s: Settings, w: World, action: Action)
    requires Inv(s, w) && action.Vend?
    ensures Inv(s, Step(s, w, action)) && Evolves(w, Step(s, w, action))
  {
    hide Inv, Consistent, Switch.VouchersOk, Switch.KeyTaken, RunStep;
    var w' := Step(s, w, action);
    var v := Voucher(action.value, Active, None, action.now, action.serial, action.key);
    if action.value != 0 && !Switch.Collides(w.t.vouchers, action.pin, action.serial)
       && !Switch.KeyTaken(w.t.vouchers, action.key) {
      VouchersSound(s, w);
      Switch.InsertKeepsVouchers(w.t.vouchers, action.pin, action.serial, action.value, action.key, action.now);
      VendKeeps(s, w.t, w.bank, w.origin, action.pin, v);
      Outside(s, w, w');
    } else {
      EvolvesFromSelf(w);
    }
  }

  lemma VouchersSound(s: Settings, w: World)
    requires Inv(s, w)
    ensures Switch.VouchersOk(w.t.vouchers) && Consistent(s, w.t, w.bank, w.origin)
  {
    hide ProcsOk, RowsOk, PayoutsOk, UniqueOk, TokensOk, LedgerOk, BalancesOk, BankAgrees, Switch.VouchersOk;
  }

  lemma FundStepKeeps(s: Settings, w: World, amount: Cents)
    requires Inv(s, w)
    ensures Inv(s, Step(s, w, Fund(amount))) && Evolves(w, Step(s, w, Fund(amount)))
  {
    hide Consistent, PcOk;
    if amount > 0 {
      FundKeeps(s, w.t, w.bank, w.origin, amount);
      Outside(s, w, Step(s, w, Fund(amount)));
    }
  }

  lemma BankStepKeeps(s: Settings, w: World, ref: Ref, to: ProviderStatus)
    requires Inv(s, w)
    ensures Inv(s, Step(s, w, BankMoves(ref, to))) && Evolves(w, Step(s, w, BankMoves(ref, to)))
  {
    hide Inv, Consistent, BankEvolves, Progress, RunStep;
    ProgressAgrees(s, w, ref, to);
    ProgressKeeps(w.bank, ref, to);
    Outside(s, w, Step(s, w, BankMoves(ref, to)));
  }

  lemma ProgressAgrees(s: Settings, w: World, ref: Ref, to: ProviderStatus)
    requires Inv(s, w)
    ensures BankOk(w.bank) && Consistent(s, w.t, Progress(w.bank, ref, to), w.origin)
  {
    hide ProcsOk, LedgerOk, BalancesOk, UniqueOk, RowsOk, TokensOk, PayoutsOk, VouchersAgree;
    ProgressKeeps(w.bank, ref, to);
  }

  /** Every run from a good state ends in one, with the past intact. */
  lemma {:induction false} RunsKeep(s: Settings, w: World, run: seq<Action>)
    requires Inv(s, w)
    ensures Inv(s, After(s, w, run)) && Evolves(w, After(s, w, run))
  {
    hide Inv, Evolves;
    if run != [] {
      var before := run[..|run| - 1];
      RunsKeep(s, w, before);
      ActionKeeps(s, After(s, w, before), run[|run| - 1]);
      EvolvesChains(w, After(s, w, before), After(s, w, run));
    } else {
      EvolvesFromSelf(w);
    }
  }

  lemma EvolvesFromSelf(w: World)
    ensures Evolves(w, w)
  {
    SameRowsEvolve(w, w);
  }
}
