/**
 What each transaction writes, field by field: whose deposit it is, where it pays, what it says went wrong, and
 when. Nothing here is said through the functions that compute the rows.
 */
module Fields {
  import opened Wrappers
  import opened Models
  import opened Fees
  import opened Ledger
  import opened Payouts
  import opened Deposits
  import opened Protocol
  import opened Invariant
  import opened Reachable
  import opened Safety
  import opened Service
  import Switch

  /** A sale at the switch is the till's step, or no step at all. */
  lemma SaleIsAStep(s: Settings, w: World, amount: nat, key: Option<string>, candidates: seq<(Pin, string)>, now: int)
    requires amount > 0
    ensures var (r, after) := Switch.Sale(w.t.vouchers, amount, key, candidates, now);
            w.(t := w.t.(vouchers := after)) ==
            if r.Ok? && !r.value.replayed then Step(s, w, Vend(r.value.pin, r.value.serial, amount, key, now)) else w
  {
    hide Switch.Collides, Switch.KeyTaken;
  }

  // --- looking up -----------------------------------------------------------------------------------------

  /** A lookup refuses an unknown voucher and a redeemed one, and answers from what the voucher then was. */
  lemma LookupAnswers(s: Settings, w: World, p: Proc, pin: Pin, i: Input)
    requires p in w.procs && w.procs[p] == LookupStart(pin)
    ensures Step(s, w, Run(p, i)) ==
            w.(procs := w.procs[p :=
              if pin !in w.t.vouchers then Done(Refused("voucher_not_found"))
              else if w.t.vouchers[pin].status == Redeemed then Done(Refused("voucher_already_redeemed"))
              else LookupInsert(pin, w.t.vouchers[pin].amount)])
  {
  }

  /** A token that exists already is not issued again: the request raises, and nothing is written. */
  lemma TokenCollides(s: Settings, w: World, p: Proc, pin: Pin, value: nat, i: Input)
    requires p in w.procs && w.procs[p] == LookupInsert(pin, value) && i.newToken in w.t.tokens
    ensures Step(s, w, Run(p, i)) == w.(procs := w.procs[p := Done(Raised(DuplicateToken))])
  {
  }

  /** A quote's token names the voucher, is good for exactly the configured time, and is not used. */
  lemma TokenIssued(s: Settings, w: World, p: Proc, pin: Pin, value: nat, i: Input)
    requires p in w.procs && w.procs[p] == LookupInsert(pin, value) && i.newToken !in w.t.tokens
    ensures var w' := Step(s, w, Run(p, i));
            && w'.t.tokens.Keys == w.t.tokens.Keys + {i.newToken}
            && (forall k :: k in w.t.tokens ==> w'.t.tokens[k] == w.t.tokens[k])
            && var token := w'.t.tokens[i.newToken];
               token.pin == pin && token.expiresAt == i.now + s.tokenTtl && token.consumedAt == None
    ensures var w' := Step(s, w, Run(p, i));
            && p in w'.procs && w'.procs[p].Done? && w'.procs[p].outcome.Quoted?
            && var q := w'.procs[p].outcome;
               && q.token == i.newToken && q.value == value
               && -5_000 < 10_000 * q.fee - value * s.feeBasisPoints <= 5_000
               && q.payout == if value >= q.fee then value - q.fee else 0
  {
  }

  // --- screening and the token ------------------------------------------------------------------------------

  /** The request could still become a deposit: a new key, and a token unused, unexpired and of an active voucher. */
  ghost predicate CouldBuy(t: Tables, a: CreateArgs, now: int) {
    && (forall i :: 0 <= i < |t.deposits| ==> t.deposits[i].key != a.key)
    && a.token in t.tokens
    && var token := t.tokens[a.token];
       token.consumedAt == None && now < token.expiresAt
       && token.pin in t.vouchers && t.vouchers[token.pin].status == Active
  }

  /** Screening refuses exactly a request that could still buy, under review, or warned of and not acknowledged. */
  lemma ScreeningRefuses(t: Tables, a: CreateArgs, screening: Screening, now: int)
    ensures ScreenSpec(t, a, screening, now) ==
            if CouldBuy(t, a, now) && screening == Review then Some("deposit_declined")
            else if CouldBuy(t, a, now) && screening == Warn && !a.acknowledged then Some("confirmation_required")
            else None
  {
    assert KeyTaken(t.deposits, a.key) <==> exists i :: 0 <= i < |t.deposits| && t.deposits[i].key == a.key;
  }

  lemma {:induction false} DoneForGood(s: Settings, w: World, p: Proc, more: seq<Action>)
    requires p in w.procs && w.procs[p].Done?
    ensures p in After(s, w, more).procs && After(s, w, more).procs[p] == w.procs[p]
  {
    if more != [] {
      var n := |more| - 1;
      DoneForGood(s, w, p, more[..n]);
      hide After;
      DoneStays(s, After(s, w, more[..n]), p, more[n]);
      assert After(s, w, more) == Step(s, After(s, w, more[..n]), more[n]) by { LastStep(s, w, more); }
    }
  }

  lemma LastStep(s: Settings, w: World, run: seq<Action>)
    requires run != []
    ensures After(s, w, run) == Step(s, After(s, w, run[..|run| - 1]), run[|run| - 1])
  {
  }

  lemma DoneStays(s: Settings, w: World, p: Proc, action: Action)
    requires p in w.procs && w.procs[p].Done?
    ensures p in Step(s, w, action).procs && Step(s, w, action).procs[p] == w.procs[p]
  {
    hide RunStep;
    if action.Run? && action.p in w.procs {
      if action.p != p {
        OthersStay(s, w, action.p, action.input, p);
      } else {
        NoStepLeft(s, w, p, action.input);
      }
    }
  }

  lemma NoStepLeft(s: Settings, w: World, p: Proc, i: Input)
    requires p in w.procs && w.procs[p].Done?
    ensures RunStep(s, w, p, i) == w
  {
  }

  /** A request under review that could still buy ends refused, at once and for good: it never becomes a deposit. */
  lemma ReviewNeverDeposits(s: Settings, w: World, p: Proc, a: CreateArgs, i: Input, more: seq<Action>)
    requires p in w.procs && w.procs[p] == CreateStart(a) && CouldBuy(w.t, a, i.now)
    requires i.screening == Review || (i.screening == Warn && !a.acknowledged)
    ensures var w' := After(s, Step(s, w, Run(p, i)), more);
            && Step(s, w, Run(p, i)).t == w.t && p in w'.procs
            && w'.procs[p].Done?
            && w'.procs[p].outcome
               == Refused(if i.screening == Review then "deposit_declined" else "confirmation_required")
  {
    hide After;
    assert !KeyTaken(w.t.deposits, a.key);
    DoneForGood(s, Step(s, w, Run(p, i)), p, more);
  }

  /** What the charging transaction makes of its token: each refusal, in order, and what passes. */
  lemma TokenVerdict(s: Settings, t: Tables, a: CreateArgs, now: int)
    ensures match CheckToken(s, t, a, now)
            case Err(Refuse(reason)) =>
              if a.token !in t.tokens || (t.tokens[a.token].consumedAt == None && t.tokens[a.token].expiresAt <= now)
              then
                reason == "voucher_not_found"
              else
                && reason == "voucher_too_small" && t.tokens[a.token].consumedAt == None
                && t.tokens[a.token].pin in t.vouchers && t.vouchers[t.tokens[a.token].pin].status == Active
                && var amount := t.vouchers[t.tokens[a.token].pin].amount;
                   amount < s.minVoucherCents || amount * (10_000 - s.feeBasisPoints) <= 5_000
            case Err(Replay) =>
              && a.token in t.tokens
              && (t.tokens[a.token].consumedAt != None
                  || (t.tokens[a.token].pin in t.vouchers && t.vouchers[t.tokens[a.token].pin].status == Redeemed))
            case Err(Raise(_)) => a.token in t.tokens && t.tokens[a.token].pin !in t.vouchers
            case Ok((pin, payout)) =>
              && a.token in t.tokens && t.tokens[a.token].pin == pin
              && t.tokens[a.token].consumedAt == None && now < t.tokens[a.token].expiresAt
              && pin in t.vouchers && t.vouchers[pin].status == Active
              && var amount := t.vouchers[pin].amount;
                 && amount >= s.minVoucherCents && amount * (10_000 - s.feeBasisPoints) > 5_000
                 && -5_000 < 10_000 * (amount - payout) - amount * s.feeBasisPoints <= 5_000
  {
    if a.token in t.tokens && t.tokens[a.token].pin in t.vouchers {
      var amount := t.vouchers[t.tokens[a.token].pin].amount;
      Depositable(s, amount);
      PercentIsNearest(amount, s.feeBasisPoints, FeeFor(s, amount));
    }
  }

  /** An expired token never charges: the create that finds it so is refused, and nothing has changed. */
  lemma ExpiredNeverCharges(s: Settings, w: World, p: Proc, a: CreateArgs, i: Input)
    requires p in w.procs && w.procs[p] == CreateScreened(a) && w.floatLock == None
    requires a.token in w.t.tokens && w.t.tokens[a.token].consumedAt == None && w.t.tokens[a.token].expiresAt <= i.now
    ensures Step(s, w, Run(p, i)) == At(w, p, Done(Refused("voucher_not_found")))
  {
  }

  // --- the deposit ------------------------------------------------------------------------------------------

  /** The reference is the first of those tried that no deposit has. */
  ghost predicate FirstFree(deposits: seq<Deposit>, references: seq<string>, reference: string) {
    exists i :: 0 <= i < |references| && references[i] == reference
      && (forall k :: 0 <= k < |deposits| ==> deposits[k].reference != reference)
      && forall j :: 0 <= j < i ==> exists k :: 0 <= k < |deposits| && deposits[k].reference == references[j]
  }

  lemma FirstFreeLater(deposits: seq<Deposit>, references: seq<string>, reference: string)
    requires references != [] && FirstFree(deposits, references[1..], reference)
    requires exists k :: 0 <= k < |deposits| && deposits[k].reference == references[0]
    ensures FirstFree(deposits, references, reference)
  {
    var i :| 0 <= i < |references| - 1 && references[1..][i] == reference
             && (forall k :: 0 <= k < |deposits| ==> deposits[k].reference != reference)
             && forall j :: 0 <= j < i ==>
                  exists k :: 0 <= k < |deposits| && deposits[k].reference == references[1..][j];
    assert references[i + 1] == reference;
    assert forall j :: 1 <= j <= i ==> references[j] == references[1..][j - 1];
  }

  lemma {:induction false} InsertsFirstFree(deposits: seq<Deposit>, row: Deposit, references: seq<string>)
    ensures match Deposits.InsertDeposit(deposits, row, references)
            case Ok(after) =>
              && |after| == |deposits| + 1 && after[..|deposits|] == deposits
              && after[|deposits|] == row.(reference := after[|deposits|].reference)
              && FirstFree(deposits, references, after[|deposits|].reference)
              && forall k :: 0 <= k < |deposits| ==> deposits[k].key != row.key
            case Err(_) => true
  {
    if references != [] {
      assert ReferenceTaken(deposits, references[0]) <==>
             exists k :: 0 <= k < |deposits| && deposits[k].reference == references[0];
      if ReferenceTaken(deposits, references[0]) {
        InsertsFirstFree(deposits, row, references[1..]);
        var r := Deposits.InsertDeposit(deposits, row, references[1..]);
        if r.Ok? {
          FirstFreeLater(deposits, references, r.value[|deposits|].reference);
        }
      } else if Deposits.InsertDeposit(deposits, row, references).Ok? {
        assert references[0] == Deposits.InsertDeposit(deposits, row, references).value[|deposits|].reference;
      }
    }
  }

  /** The deposit a charge makes: the caller's, to the caller's destination, for the voucher's amount less the fee. */
  ghost predicate TheCallers(s: Settings, a: CreateArgs, pin: Pin, amount: nat, now: int, d: Deposit) {
    && d.user == a.user && d.destination == a.destination && d.key == a.key
    && d.pin == pin && d.amount == amount
    && -5_000 < 10_000 * d.fee - amount * s.feeBasisPoints <= 5_000 && d.payout == amount - d.fee
    && d.status == Charged && d.failureReason == None && d.createdAt == now && d.updatedAt == now
  }

  /** Everything a charge commits. */
  lemma DepositMade(s: Settings, t: Tables, a: CreateArgs, pin: Pin, references: seq<string>, now: int)
    ensures match CommitCharge(s, t, a, pin, references, now)
            case Ok(t') =>
              var n := |t.deposits|;
              && pin in t.vouchers && t.vouchers[pin].status == Active
              && |t'.deposits| == n + 1 && t'.deposits[..n] == t.deposits
              && TheCallers(s, a, pin, t.vouchers[pin].amount, now, t'.deposits[n])
              && FirstFree(t.deposits, references, t'.deposits[n].reference)
              && (forall k :: 0 <= k < n ==> t.deposits[k].key != a.key)
              && t'.payouts == t.payouts
              && t'.ledger == t.ledger + [Group(Some(n), [Entry(VoucherReceivable, t'.deposits[n].amount),
                                                          Entry(UserPayable, -t'.deposits[n].payout),
                                                          Entry(FeeIncome, -t'.deposits[n].fee)])]
            case Err(_) => true
    ensures match CommitCharge(s, t, a, pin, references, now)
            case Ok(t') =>
              && t'.vouchers.Keys == t.vouchers.Keys && pin in t.vouchers
              && t'.vouchers[pin] == t.vouchers[pin].(status := Redeemed, redeemedAt := Some(now))
              && (forall p :: p in t.vouchers && p != pin ==> t'.vouchers[p] == t.vouchers[p])
              && t'.tokens.Keys == t.tokens.Keys
              && (forall k :: k in t.tokens ==>
                    t'.tokens[k] == if k == a.token then t.tokens[k].(consumedAt := Some(now)) else t.tokens[k])
            case Err(_) => true
  {
    if pin in t.vouchers {
      var amount := t.vouchers[pin].amount;
      PercentIsNearest(amount, s.feeBasisPoints, FeeFor(s, amount));
      InsertsFirstFree(t.deposits, PendingRow(s, a, pin, amount, now), references);
      hide Deposits.InsertDeposit, FirstFree, CheckPosting, FeeFor;
      var r := CommitCharge(s, t, a, pin, references, now);
      if r.Ok? {
        assert r.value.deposits[..|t.deposits|] == t.deposits;
      }
    }
  }

  /** However a create is raced, the deposit it makes is its caller's, of the voucher its unexpired token names. */
  lemma CreateMakesTheCallers(s: Settings, t: Tables, a: CreateArgs, screening: Screening, references: seq<string>,
                              now: int, m: Moments)
    ensures var e := CreateRaced(s, t, a, screening, references, now, m);
            var looked := Later(m.screened, t);
            e.r.Made? ==>
              && e.t == e.r.t && |e.t.deposits| == e.r.id + 1
              && a.token in looked.tokens && now < looked.tokens[a.token].expiresAt
              && exists amount: nat :: TheCallers(s, a, looked.tokens[a.token].pin, amount, now, e.t.deposits[e.r.id])
  {
    hide CommitCharge, CheckToken, FallsShort, ReplayOf, TheCallers, FirstFree;
    var looked := Later(m.screened, t);
    TokenVerdict(s, looked, a, now);
    if CheckToken(s, looked, a, now).Ok? {
      var at := Later(m.covered, Later(m.summed, Later(m.checked, looked)));
      DepositMade(s, at, a, CheckToken(s, looked, a, now).value.0, references, now);
    }
  }

  // --- its payout -------------------------------------------------------------------------------------------

  /** What recording an instruction writes, and when it does not. */
  lemma InstructionFields(t: Tables, id: Id, ref: Ref, now: int)
    ensures match InstructWrite(t, id, ref, now)
            case Wrote(t') =>
              && id < |t.deposits| && t.deposits[id].status == Charged
              && t'.deposits
                 == t.deposits[id := t.deposits[id].(status := Paying, failureReason := None, updatedAt := now)]
              && t'.payouts == t.payouts[id := Payout(ref, t.deposits[id].payout, PayoutPending, None)]
              && t'.vouchers == t.vouchers && t'.tokens == t.tokens && t'.ledger == t.ledger
            case Unchanged => id >= |t.deposits| || t.deposits[id].status != Charged
            case Faulted(fault) =>
              && fault == DuplicatePayout && id < |t.deposits| && t.deposits[id].status == Charged
              && (id in t.payouts || exists j :: j in t.payouts && t.payouts[j].ref == ref)
  {
  }

  /** What the provider gave as its reason, or "unknown" when it gave none. */
  lemma OutcomeFields(t: Tables, id: Id, result: ProviderStatus, now: int)
    ensures match PayoutWrite(t, id, result, now)
            case Wrote(t') =>
              && id < |t.deposits| && t.deposits[id].status == Paying && id in t.payouts
              && t'.tokens == t.tokens
              && var d, paid := t.deposits[id], t.payouts[id];
                 (match result.status
                 case PayoutCompleted =>
                   && t'.deposits == t.deposits[id := d.(status := Settled, failureReason := None, updatedAt := now)]
                   && t'.payouts == t.payouts[id := paid.(status := PayoutCompleted)] && t'.vouchers == t.vouchers
                   && t'.ledger
                      == t.ledger + [Group(Some(id), [Entry(UserPayable, d.payout), Entry(Settlement, -d.payout)])]
                 case PayoutFailed =>
                   var said := match result.failureReason
                               case Some(reason) => if reason != "" then reason else "unknown"
                               case None => "unknown";
                   && t'.deposits
                      == t.deposits[id := d.(status := Failed, failureReason := Some(said), updatedAt := now)]
                   && t'.payouts == t.payouts[id := paid.(status := PayoutFailed, failureReason := Some(said))]
                   && t'.ledger == t.ledger + [Group(Some(id), [Entry(VoucherReceivable, -d.amount),
                                                                Entry(UserPayable, d.payout), Entry(FeeIncome, d.fee)])]
                   && d.pin in t.vouchers && t.vouchers[d.pin].status == Redeemed
                   && t'.vouchers == t.vouchers[d.pin := t.vouchers[d.pin].(status := Active, redeemedAt := None)]
                 case moved =>
                   && t' == t.(payouts := t.payouts[id := paid.(status := moved)]) && paid.status != moved)
            case Unchanged =>
              || id >= |t.deposits| || t.deposits[id].status != Paying || id !in t.payouts
              || ((result.status == PayoutPending || result.status == PayoutSubmitted)
                  && t.payouts[id].status == result.status)
            case Faulted(_) => id < |t.deposits| && (result.status == PayoutCompleted || result.status == PayoutFailed)
  {
  }

  /** In every run a failed deposit and its payout row carry the provider's own reason, or "unknown" if it gave none. */
  lemma FailureReasons(s: Settings, run: seq<Action>, id: Id)
    requires id < |Reached(s, run).t.deposits| && Reached(s, run).t.deposits[id].status == Failed
    ensures var w := Reached(s, run);
            && id in w.t.payouts && w.t.payouts[id].ref in w.bank.payouts
            && var answer := w.bank.payouts[w.t.payouts[id].ref].outcome;
               && answer.status == PayoutFailed
               && w.t.payouts[id].failureReason == w.t.deposits[id].failureReason
               && w.t.deposits[id].failureReason ==
                  match answer.failureReason
                  case Some(reason) => if reason != "" then Some(reason) else Some("unknown")
                  case None => Some("unknown")
  {
    hide Reached, PcOk, ProcsOk, RowsOk, VouchersAgree, UniqueOk, TokensOk, LedgerOk, BalancesOk;
    ReachedOk(s, run);
    var w := Reached(s, run);
    assert PayoutMatches(w.t.deposits[id], w.t.payouts[id]);
  }

  // --- whose deposit ------------------------------------------------------------------------------------------

  predicate Owns(t: Tables, a: CreateArgs, id: Id) {
    id < |t.deposits| && t.deposits[id].user == a.user && t.deposits[id].key == a.key
  }

  predicate Made(t: Tables, a: CreateArgs, id: Id) {
    Owns(t, a, id) && t.deposits[id].destination == a.destination
  }

  /** A process serving this create request: still creating it, advancing the deposit it made, or done with it. */
  predicate Serves(t: Tables, a: CreateArgs, pc: Pc) {
    match pc
    case LookupStart(_) => false
    case LookupInsert(_, _) => false
    case CreateStart(b) => b == a
    case CreateScreened(b) => b == a
    case CreateChecked(b, _, _) => b == a
    case CreateHalfRead(b, _, _, _, _) => b == a
    case CreateCovered(b, _, _, _, _, _) => b == a
    case CreateReplay(b) => b == a
    case AdvanceStart(id) => Made(t, a, id)
    case InstructRead(id) => Made(t, a, id)
    case InstructCall(id, _) => Made(t, a, id)
    case InstructRecord(id, _) => Made(t, a, id)
    case PayoutRead(id) => Made(t, a, id)
    case PayoutAsk(id, _, _) => Made(t, a, id)
    case PayoutRecord(id, _, _) => Made(t, a, id)
    case Crashed => true
    case Done(outcome) =>
      match outcome
      case Quoted(_, _, _, _) => false
      case Refused(_) => true
      case Raised(_) => true
      case Replayed(id) => Owns(t, a, id)
      case Finished(id) => Made(t, a, id)
      case NotHeld(id) => Made(t, a, id)
  }

  lemma ServesOn(t: Tables, t': Tables, a: CreateArgs, pc: Pc)
    requires Serves(t, a, pc) && |t.deposits| <= |t'.deposits|
    requires forall i :: 0 <= i < |t.deposits| ==> RowEvolves(t.deposits[i], t'.deposits[i])
    ensures Serves(t', a, pc)
  {
    hide Allowed, Distance;
    forall id: Id | id < |t.deposits|
      ensures Made(t, a, id) ==> Made(t', a, id)
      ensures Owns(t, a, id) ==> Owns(t', a, id)
    {
      assert RowEvolves(t.deposits[id], t'.deposits[id]);
    }
  }

  /** p's own step: what it made at its commit is the caller's, and what it answers from is the caller's. */
  lemma RunnerServes(s: Settings, w: World, p: Proc, i: Input, a: CreateArgs)
    requires Inv(s, w) && p in w.procs && Serves(w.t, a, w.procs[p])
    ensures var w' := RunStep(s, w, p, i); p in w'.procs && Serves(w'.t, a, w'.procs[p])
  {
    hide Inv, RunStep, Serves;
    if w.procs[p].CreateCovered? {
      ServesItsOwn(w.t, a, w.procs[p]);
      CommitServes(s, w, p, i, a);
    } else if w.procs[p].InstructRecord? || w.procs[p].PayoutRecord? {
      ActionKeeps(s, w, Run(p, i));
      RecordServes(s, w, p, i, a);
    } else {
      ReaderServes(s, w, p, i, a);
    }
  }

  lemma ServesItsOwn(t: Tables, a: CreateArgs, pc: Pc)
    requires Serves(t, a, pc) && pc.CreateCovered?
    ensures pc.a == a
  {
  }

  lemma CommitServes(s: Settings, w: World, p: Proc, i: Input, a: CreateArgs)
    requires p in w.procs && w.procs[p].CreateCovered? && w.procs[p].a == a
    ensures var w' := RunStep(s, w, p, i); p in w'.procs && Serves(w'.t, a, w'.procs[p])
  {
    hide FirstFree, CommitCharge;
    DepositMade(s, w.t, a, w.procs[p].pin, i.references, i.now);
  }

  lemma RecordServes(s: Settings, w: World, p: Proc, i: Input, a: CreateArgs)
    requires p in w.procs && Serves(w.t, a, w.procs[p]) && Evolves(w, RunStep(s, w, p, i))
    requires w.procs[p].InstructRecord? || w.procs[p].PayoutRecord?
    ensures var w' := RunStep(s, w, p, i); p in w'.procs && Serves(w'.t, a, w'.procs[p])
  {
    var w' := RunStep(s, w, p, i);
    ServesOn(w.t, w'.t, a, w.procs[p]);
    hide InstructWrite, PayoutWrite, Evolves;
  }

  lemma ReaderServes(s: Settings, w: World, p: Proc, i: Input, a: CreateArgs)
    requires p in w.procs && Serves(w.t, a, w.procs[p])
    requires !w.procs[p].CreateCovered? && !w.procs[p].InstructRecord? && !w.procs[p].PayoutRecord?
    ensures var w' := RunStep(s, w, p, i); p in w'.procs && Serves(w'.t, a, w'.procs[p])
  {
    hide RunStep, Serves;
    if Advancing(w.procs[p]) {
      AdvancerServes(s, w, p, i, a);
    } else {
      CreatorServes(s, w, p, i, a);
    }
  }

  predicate Advancing(pc: Pc) {
    pc.AdvanceStart? || pc.InstructRead? || pc.InstructCall? || pc.PayoutRead? || pc.PayoutAsk?
  }

  lemma AdvancerServes(s: Settings, w: World, p: Proc, i: Input, a: CreateArgs)
    requires p in w.procs && Serves(w.t, a, w.procs[p]) && Advancing(w.procs[p])
    ensures var w' := RunStep(s, w, p, i); p in w'.procs && Serves(w'.t, a, w'.procs[p])
  {
    hide StepLookup, StepQuote, StepScreen, StepCheck, StepFloat, StepOwed, StepCommit, StepReplay,
         StepRecordInstruction, StepRecordOutcome, Called, Create, Made, Owns;
  }

  lemma CreatorServes(s: Settings, w: World, p: Proc, i: Input, a: CreateArgs)
    requires p in w.procs && Serves(w.t, a, w.procs[p]) && !Advancing(w.procs[p])
    requires !w.procs[p].CreateCovered? && !w.procs[p].InstructRecord? && !w.procs[p].PayoutRecord?
    ensures var w' := RunStep(s, w, p, i); p in w'.procs && Serves(w'.t, a, w'.procs[p])
  {
    KeyFound(w.t.deposits, a.key);
    hide StepLookup, StepQuote, StepCommit, StepInstruct, StepCreatePayout, StepReadPayout, StepAsk,
         StepRecordInstruction, StepRecordOutcome, CheckToken, Assessable, FindKey, BalanceOf, Made;
  }

  lemma ServesStep(s: Settings, w: World, action: Action, p: Proc, a: CreateArgs)
    requires Inv(s, w) && p in w.procs && Serves(w.t, a, w.procs[p])
    ensures var w' := Step(s, w, action); p in w'.procs && Serves(w'.t, a, w'.procs[p])
  {
    hide Inv, RunStep, Serves;
    ActionKeeps(s, w, action);
    var w' := Step(s, w, action);
    if action.Run? && action.p == p {
      RunnerServes(s, w, p, action.input, a);
    } else if action.Crash? && action.p == p {
      CrashedServes(w'.t, a);
      ServesOn(w.t, w'.t, a, w.procs[p]);
    } else {
      if action.Run? && action.p in w.procs {
        OthersStay(s, w, action.p, action.input, p);
      }
      ServesOn(w.t, w'.t, a, w.procs[p]);
    }
  }

  lemma CrashedServes(t: Tables, a: CreateArgs)
    ensures Serves(t, a, Crashed)
  {
  }

  /**
   Over every run: the deposit a create makes, advances and answers with is its caller's, under its key; one it
   made pays to its caller's destination; and it stays so, whatever happens.
   */
  lemma {:induction false} CreateServes(s: Settings, run: seq<Action>, p: Proc, a: CreateArgs, more: seq<Action>)
    requires p !in Reached(s, run).procs
    ensures var w' := Reached(s, run + [Begin(p, CreateStart(a))] + more);
            p in w'.procs && Serves(w'.t, a, w'.procs[p])
  {
    hide Inv, Reached, RunStep;
    var start := run + [Begin(p, CreateStart(a))];
    if more == [] {
      OneMore(s, run, Begin(p, CreateStart(a)));
      assert start + more == start;
    } else {
      var n := |more| - 1;
      assert (start + more[..n]) + [more[n]] == start + more;
      CreateServes(s, run, p, a, more[..n]);
      ReachedOk(s, start + more[..n]);
      OneMore(s, start + more[..n], more[n]);
      hide Step, Serves;
      ServesStep(s, Reached(s, start + more[..n]), more[n], p, a);
    }
  }

  /** Nobody else ever takes it over: a row keeps its owner, destination, key, voucher and amounts for good. */
  lemma OwnedForGood(s: Settings, run: seq<Action>, more: seq<Action>, id: Id)
    requires id < |Reached(s, run).t.deposits|
    ensures id < |Reached(s, run + more).t.deposits|
    ensures var d, d' := Reached(s, run).t.deposits[id], Reached(s, run + more).t.deposits[id];
            && d'.user == d.user && d'.destination == d.destination && d'.key == d.key && d'.reference == d.reference
            && d'.pin == d.pin && d'.amount == d.amount && d'.fee == d.fee && d'.payout == d.payout
            && d'.createdAt == d.createdAt
  {
    hide Reached;
    NothingRewritten(s, run, more);
  }
}
