/**
 Every process at work on the tables at once: lookups, creates and advances, each a program counter
 with what it has read so far, beside the till, the bank and crashes.

 A step is one committed transaction, one read, or one provider call. Between two steps anyone else
 may move, and a process may crash. Actions carry what the outside decides: clocks, fresh values,
 the risk band, whether the provider answers.
 */
module Protocol {
  import opened Wrappers
  import opened Models
  import opened Fees
  import opened Ledger
  import opened Payouts
  import opened Deposits
  import Switch

  /** How the risk assessment comes out; a failing assessor lets the deposit through. */
  datatype Screening = Allow | Warn | Review | AssessorFails

  /** The provider answers, cannot be reached, or the call raises something else; it may have acted all the same. */
  datatype Link = Up | Down(made: bool) | Broken(made: bool)

  /** The provider after a call to `create`: whether or not the caller hears of it, it may hold the payout. */
  function Called(b: Bank<Id>, id: Id, amount: Cents, link: Link, newRef: Ref): Bank<Id> {
    if (link.Up? || link.made) && amount > 0 then Create(b, id, amount, newRef).0 else b
  }

  datatype Input = Input(now: int, screening: Screening, oneRead: bool, references: seq<string>,
                         granted: bool, link: Link, newRef: Ref, newToken: Token)

  datatype Outcome =
    | Quoted(token: Token, value: nat, fee: nat, payout: nat)
    | Refused(reason: string)
    | Replayed(replayed: Id)
    | Raised(fault: Fault)
    | Finished(id: Id)
    | NotHeld(id: Id)

  datatype Pc =
    | LookupStart(pin: Pin)
    | LookupInsert(pin: Pin, value: nat)
    | CreateStart(a: CreateArgs)
    | CreateScreened(a: CreateArgs)
    | CreateChecked(a: CreateArgs, pin: Pin, payout: Cents)
    | CreateHalfRead(a: CreateArgs, pin: Pin, payout: Cents, settlement: Cents, at: nat)
    | CreateCovered(a: CreateArgs, pin: Pin, payout: Cents, seen: Cents, at: nat, until: nat)
    | CreateReplay(a: CreateArgs)
    | AdvanceStart(id: Id)
    | InstructRead(id: Id)
    | InstructCall(id: Id, amount: Cents)
    | InstructRecord(id: Id, ref: Ref)
    | PayoutRead(id: Id)
    | PayoutAsk(id: Id, ref: Ref, pin: Pin)
    | PayoutRecord(id: Id, pin: Pin, result: ProviderStatus)
    | Done(outcome: Outcome)
    | Crashed

  type Proc = nat

  /** `origin` is history only: the token each deposit was made from. */
  datatype World = World(t: Tables, bank: Bank<Id>, procs: map<Proc, Pc>, floatLock: Option<Proc>, origin: seq<Token>)

  datatype Action =
    | Vend(pin: Pin, serial: string, value: nat, key: Option<string>, now: int)
    | Fund(amount: Cents)
    | BankMoves(ref: Ref, to: ProviderStatus)
    | Begin(p: Proc, pc: Pc)
    | Run(p: Proc, input: Input)
    | Crash(p: Proc)

  const START := World(EMPTY, EmptyBank(), map[], None, [])

  function At(w: World, p: Proc, pc: Pc): World {
    w.(procs := w.procs[p := pc])
  }

  /** End the process's transaction, letting go of the float lock. */
  function Leave(w: World, p: Proc, pc: Pc): World {
    w.(procs := w.procs[p := pc], floatLock := None)
  }

  function Stopped(a: CreateArgs, stop: Stop): Pc {
    match stop
    case Refuse(reason) => Done(Refused(reason))
    case Replay => CreateReplay(a)
    case Raise(fault) => Done(Raised(fault))
  }

  // --- one process, one step -------------------------------------------------------------------

  function StepLookup(s: Settings, w: World, p: Proc, pin: Pin): World {
    if pin !in w.t.vouchers then At(w, p, Done(Refused("voucher_not_found")))
    else if w.t.vouchers[pin].status != Active then At(w, p, Done(Refused("voucher_already_redeemed")))
    else At(w, p, LookupInsert(pin, w.t.vouchers[pin].amount))
  }

  function StepQuote(s: Settings, w: World, p: Proc, pin: Pin, value: nat, i: Input): World {
    if i.newToken in w.t.tokens then At(w, p, Done(Raised(DuplicateToken)))
    else
      var tokens := w.t.tokens[i.newToken := VoucherToken(pin, i.now + s.tokenTtl, None)];
      var quote := Quoted(i.newToken, value, FeeFor(s, value), QuotedPayout(s, value));
      At(w.(t := w.t.(tokens := tokens)), p, Done(quote))
  }

  /** Facts exist to assess: the key is new and the token would still buy a deposit. */
  predicate Assessable(t: Tables, a: CreateArgs, now: int) {
    && !KeyTaken(t.deposits, a.key)
    && a.token in t.tokens && t.tokens[a.token].consumedAt.None? && now < t.tokens[a.token].expiresAt
    && t.tokens[a.token].pin in t.vouchers && t.vouchers[t.tokens[a.token].pin].status == Active
  }

  function StepScreen(w: World, p: Proc, a: CreateArgs, i: Input): World {
    if !Assessable(w.t, a, i.now) then At(w, p, CreateScreened(a))
    else
      match i.screening
      case Review => At(w, p, Done(Refused("deposit_declined")))
      case Warn => At(w, p, if a.acknowledged then CreateScreened(a) else Done(Refused("confirmation_required")))
      case _ => At(w, p, CreateScreened(a))
  }

  /** Takes the float lock, waiting while another create holds it. */
  function StepCheck(s: Settings, w: World, p: Proc, a: CreateArgs, i: Input): World {
    if w.floatLock.Some? then w
    else
      match CheckToken(s, w.t, a, i.now)
      case Err(stop) => At(w, p, Stopped(a, stop))
      case Ok((pin, payout)) => At(w.(floatLock := Some(p)), p, CreateChecked(a, pin, payout))
  }

  function Covered(w: World, p: Proc, a: CreateArgs, pin: Pin, payout: Cents, seen: Cents, at: nat): World {
    if payout > seen then Leave(w, p, Done(Refused("insufficient_float")))
    else At(w, p, CreateCovered(a, pin, payout, seen, at, |w.t.ledger|))
  }

  /** `check_float` in one snapshot, or only the first of its two sums. */
  function StepFloat(w: World, p: Proc, a: CreateArgs, pin: Pin, payout: Cents, i: Input): World {
    if i.oneRead then Covered(w, p, a, pin, payout, Available(w.t.ledger), |w.t.ledger|)
    else At(w, p, CreateHalfRead(a, pin, payout, BalanceOf(w.t.ledger, Settlement), |w.t.ledger|))
  }

  function StepOwed(w: World, p: Proc, a: CreateArgs, pin: Pin, payout: Cents, settlement: Cents, at: nat): World {
    Covered(w, p, a, pin, payout, settlement + BalanceOf(w.t.ledger, UserPayable), at)
  }

  function StepCommit(s: Settings, w: World, p: Proc, a: CreateArgs, pin: Pin, i: Input): World {
    match CommitCharge(s, w.t, a, pin, i.references, i.now)
    case Err(stop) => Leave(w, p, Stopped(a, stop))
    case Ok(t') => Leave(w.(t := t', origin := w.origin + [a.token]), p, AdvanceStart(|w.t.deposits|))
  }

  function StepReplay(w: World, p: Proc, a: CreateArgs): World {
    match ReplayOf(w.t, a.key, a.user)
    case Ok(id) => At(w, p, Done(Replayed(id)))
    case Err(reason) => At(w, p, Done(Refused(reason)))
  }

  function StepInstruct(w: World, p: Proc, id: Id): World {
    if id < |w.t.deposits| && w.t.deposits[id].status == Charged then
      At(w, p, InstructCall(id, w.t.deposits[id].payout))
    else At(w, p, PayoutRead(id))
  }

  function StepCreatePayout(w: World, p: Proc, id: Id, amount: Cents, i: Input): World {
    if id !in w.bank.refs && i.newRef in w.bank.payouts then w
    else
      var called := w.(bank := Called(w.bank, id, amount, i.link, i.newRef));
      match i.link
      case Down(_) => At(called, p, PayoutRead(id))
      case Broken(_) => At(called, p, Done(Raised(ProviderFault)))
      case Up =>
        if amount <= 0 then At(w, p, Done(Raised(InvalidPayout)))
        else At(called, p, InstructRecord(id, Create(w.bank, id, amount, i.newRef).1))
  }

  function StepRecordInstruction(w: World, p: Proc, id: Id, ref: Ref, i: Input): World {
    match InstructWrite(w.t, id, ref, i.now)
    case Wrote(t') => At(w.(t := t'), p, PayoutRead(id))
    case Unchanged => At(w, p, PayoutRead(id))
    case Faulted(fault) => At(w, p, Done(Raised(fault)))
  }

  function StepReadPayout(w: World, p: Proc, id: Id): World {
    if id < |w.t.deposits| && w.t.deposits[id].status == Paying && id in w.t.payouts then
      At(w, p, PayoutAsk(id, w.t.payouts[id].ref, w.t.deposits[id].pin))
    else At(w, p, Done(Finished(id)))
  }

  function StepAsk(w: World, p: Proc, id: Id, ref: Ref, pin: Pin, i: Input): World {
    match i.link
    case Down(_) => At(w, p, Done(Finished(id)))
    case Broken(_) => At(w, p, Done(Raised(ProviderFault)))
    case Up =>
      if ref !in w.bank.payouts then At(w, p, Done(Raised(UnknownPayout)))
      else At(w, p, PayoutRecord(id, pin, w.bank.payouts[ref].outcome))
  }

  function StepRecordOutcome(w: World, p: Proc, id: Id, result: ProviderStatus, i: Input): World {
    match PayoutWrite(w.t, id, result, i.now)
    case Wrote(t') => At(w.(t := t'), p, Done(Finished(id)))
    case Unchanged => At(w, p, Done(Finished(id)))
    case Faulted(fault) => At(w, p, Done(Raised(fault)))
  }

  function RunStep(s: Settings, w: World, p: Proc, i: Input): World
    requires p in w.procs
  {
    match w.procs[p]
    case LookupStart(pin) => StepLookup(s, w, p, pin)
    case LookupInsert(pin, value) => StepQuote(s, w, p, pin, value, i)
    case CreateStart(a) => StepScreen(w, p, a, i)
    case CreateScreened(a) => StepCheck(s, w, p, a, i)
    case CreateChecked(a, pin, payout) => StepFloat(w, p, a, pin, payout, i)
    case CreateHalfRead(a, pin, payout, settlement, at) => StepOwed(w, p, a, pin, payout, settlement, at)
    case CreateCovered(a, pin, payout, seen, at, until) => StepCommit(s, w, p, a, pin, i)
    case CreateReplay(a) => StepReplay(w, p, a)
    case AdvanceStart(id) => At(w, p, if i.granted then InstructRead(id) else Done(NotHeld(id)))
    case InstructRead(id) => StepInstruct(w, p, id)
    case InstructCall(id, amount) => StepCreatePayout(w, p, id, amount, i)
    case InstructRecord(id, ref) => StepRecordInstruction(w, p, id, ref, i)
    case PayoutRead(id) => StepReadPayout(w, p, id)
    case PayoutAsk(id, ref, pin) => StepAsk(w, p, id, ref, pin, i)
    case PayoutRecord(id, pin, result) => StepRecordOutcome(w, p, id, result, i)
    case Done(_) => w
    case Crashed => w
  }

  // --- the whole system --------------------------------------------------------------------------

  predicate Fresh(pc: Pc) {
    pc.LookupStart? || pc.CreateStart? || pc.AdvanceStart?
  }

  /** One action; an action that cannot happen now changes nothing. */
  function Step(s: Settings, w: World, action: Action): World {
    match action
    case Vend(pin, serial, value, key, now) =>
      if value == 0 || Switch.Collides(w.t.vouchers, pin, serial) || Switch.KeyTaken(w.t.vouchers, key) then w
      else w.(t := w.t.(vouchers := w.t.vouchers[pin := Voucher(value, Active, None, now, serial, key)]))
    case Fund(amount) =>
      if amount <= 0 then w
      else w.(t := w.t.(ledger := w.t.ledger + [Group(None, FundingEntries(amount))]))
    case BankMoves(ref, to) => w.(bank := Progress(w.bank, ref, to))
    case Begin(p, pc) => if p in w.procs || !Fresh(pc) then w else At(w, p, pc)
    case Run(p, i) => if p in w.procs then RunStep(s, w, p, i) else w
    case Crash(p) =>
      if p !in w.procs || w.procs[p].Done? then w
      else w.(procs := w.procs[p := Crashed], floatLock := if w.floatLock == Some(p) then None else w.floatLock)
  }

  /** The state after a run of actions from a given state. */
  function After(s: Settings, w: World, run: seq<Action>): World {
    if run == [] then w else Step(s, After(s, w, run[..|run| - 1]), run[|run| - 1])
  }

  lemma {:induction false} AfterConcat(s: Settings, w: World, first: seq<Action>, second: seq<Action>)
    ensures After(s, w, first + second) == After(s, After(s, w, first), second)
  {
    hide Step;
    if second == [] {
      assert first + second == first;
    } else {
      var n := |second| - 1;
      assert (first + second)[..|first| + n] == first + second[..n];
      AfterConcat(s, w, first, second[..n]);
    }
  }
}
