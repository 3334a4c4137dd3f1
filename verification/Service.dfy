/**
 `DepositService` of app/deposits.py, statement by statement on one session, against what each request
 comes to: when nobody else is at work, and whatever others commit wherever they may. The same transactions
 are interleaved in Protocol.dfy.
 */
module Service {
  import opened Wrappers
  import opened Models
  import opened Fees
  import opened Ledger
  import opened Payouts
  import opened Deposits
  import opened Protocol
  import Switch

  // --- what a request comes to ---------------------------------------------------------------------------

  datatype Created = Made(id: Id, t: Tables) | Found(found: Id) | Turned(reason: string) | Broke(fault: Fault)

  /** `_screen`: the refusal risk asks for, if any. */
  function ScreenSpec(t: Tables, a: CreateArgs, screening: Screening, now: int): Option<string> {
    if !Assessable(t, a, now) then None
    else if screening == Review then Some("deposit_declined")
    else if screening == Warn && !a.acknowledged then Some("confirmation_required")
    else None
  }

  function StopSpec(t: Tables, a: CreateArgs, stop: Stop): Created {
    match stop
    case Refuse(reason) => Turned(reason)
    case Raise(fault) => Broke(fault)
    case Replay =>
      match ReplayOf(t, a.key, a.user)
      case Ok(id) => Found(id)
      case Err(reason) => Turned(reason)
  }

  /** `_charge_and_record` and its commit, with the float read in one go. */
  function ChargeSpec(s: Settings, t: Tables, a: CreateArgs, references: seq<string>, now: int): Result<Tables, Stop> {
    match CheckToken(s, t, a, now)
    case Err(stop) => Err(stop)
    case Ok((pin, payout)) =>
      if payout > Available(t.ledger) then Err(Refuse("insufficient_float"))
      else CommitCharge(s, t, a, pin, references, now)
  }

  /** `create_deposit_to`, up to its commit. */
  function CreateSpec(s: Settings, t: Tables, a: CreateArgs, screening: Screening, references: seq<string>,
                      now: int): Created {
    match ScreenSpec(t, a, screening, now)
    case Some(reason) => Turned(reason)
    case None =>
      match ChargeSpec(s, t, a, references, now)
      case Err(stop) => StopSpec(t, a, stop)
      case Ok(t') => Made(|t.deposits|, t')
  }

  /** What others have made of the tables since, if they moved. */
  function Later(others: Option<Tables>, t: Tables): Tables {
    if others.Some? then others.value else t
  }

  /**
   When others commit during a create: after its screening, between its look at the token and the float's first
   sum, between the two sums, before the charge, and before its replay is answered.
   */
  datatype Moments = Moments(screened: Option<Tables>, checked: Option<Tables>, summed: Option<Tables>,
                             covered: Option<Tables>, stopped: Option<Tables>)

  /** `_charge_and_record`, each statement on the tables as others have left them by then. */
  function ChargeRaced(s: Settings, t: Tables, a: CreateArgs, references: seq<string>, now: int, m: Moments)
    : Result<Tables, Stop>
  {
    match CheckToken(s, t, a, now)
    case Err(stop) => Err(stop)
    case Ok((pin, payout)) =>
      if FallsShort(payout, t, m) then Err(Refuse("insufficient_float"))
      else CommitCharge(s, Later(m.covered, Later(m.summed, Later(m.checked, t))), a, pin, references, now)
  }

  /** The two sums, read apart, do not cover the payout. */
  predicate FallsShort(payout: Cents, t: Tables, m: Moments) {
    var t1 := Later(m.checked, t);
    payout > BalanceOf(t1.ledger, Settlement) + BalanceOf(Later(m.summed, t1).ledger, UserPayable)
  }

  /** The tables a charge that stops is rolled back to. */
  function StoppedAt(s: Settings, t: Tables, a: CreateArgs, now: int, m: Moments): Tables {
    match CheckToken(s, t, a, now)
    case Err(_) => t
    case Ok((_, payout)) =>
      var t2 := Later(m.summed, Later(m.checked, t));
      if FallsShort(payout, t, m) then t2 else Later(m.covered, t2)
  }

  /** What `create_deposit_to` has come to by its commit, and the tables then. */
  datatype Ended = Ended(r: Created, t: Tables)

  function CreateRaced(s: Settings, t: Tables, a: CreateArgs, screening: Screening, references: seq<string>, now: int,
                       m: Moments)
    : Ended
  {
    match ScreenSpec(t, a, screening, now)
    case Some(reason) => Ended(Turned(reason), t)
    case None =>
      var t1 := Later(m.screened, t);
      match ChargeRaced(s, t1, a, references, now, m)
      case Ok(t') => Ended(Made(|StoppedAt(s, t1, a, now, m).deposits|, t'), t')
      case Err(stop) =>
        var t2 := StoppedAt(s, t1, a, now, m);
        if stop.Replay? then Ended(StopSpec(Later(m.stopped, t2), a, stop), Later(m.stopped, t2))
        else Ended(StopSpec(t2, a, stop), t2)
  }

  /** With nobody moving it comes to `CreateSpec`, and only a deposit made changes a row. */
  lemma QuietCreate(s: Settings, t: Tables, a: CreateArgs, screening: Screening, references: seq<string>, now: int)
    ensures var e := CreateRaced(s, t, a, screening, references, now, Moments(None, None, None, None, None));
            e.r == CreateSpec(s, t, a, screening, references, now) && e.t == if e.r.Made? then e.r.t else t
  {
    hide CommitCharge, CheckToken, ReplayOf;
  }

  /** The tables and the bank after a step of `advance`, and the exception it raised, if any. */
  datatype Advanced = Advanced(t: Tables, bank: Bank<Id>, fault: Option<Fault>)

  function Written(t: Tables, bank: Bank<Id>, r: WriteResult): Advanced {
    match r
    case Wrote(t') => Advanced(t', bank, None)
    case Unchanged => Advanced(t, bank, None)
    case Faulted(fault) => Advanced(t, bank, Some(fault))
  }

  /** What everyone else has made of the tables and the bank since, if they moved. */
  type Gap = Option<(Tables, Bank<Id>)>

  function Since(gap: Gap, t: Tables, bank: Bank<Id>): (Tables, Bank<Id>) {
    if gap.Some? then gap.value else (t, bank)
  }

  /** One half of an `advance`: how its provider call goes, and what others do before the call and before phase 3. */
  datatype Call = Call(link: Link, newRef: Ref, before: Gap, after: Gap, now: int)

  /** What the outside decides for one `advance`: whether its lock is free, and what happens from then on. */
  datatype Weather = Weather(held: bool, start: Gap, instruct: Call, between: Gap, ask: Call)

  /** `_instruct_payout`: phase 1 reads `t`, 2 asks the bank as it then is, 3 finds the tables as they are then. */
  function InstructRaced(t: Tables, bank: Bank<Id>, id: Id, c: Call): Advanced {
    if id >= |t.deposits| || t.deposits[id].status != Charged then Advanced(t, bank, None)
    else
      var amount := t.deposits[id].payout;
      var (t1, b1) := Since(c.before, t, bank);
      var called := Called(b1, id, amount, c.link, c.newRef);
      match c.link
      case Down(_) => Advanced(t1, called, None)
      case Broken(_) => Advanced(t1, called, Some(ProviderFault))
      case Up =>
        if amount <= 0 then Advanced(t1, b1, Some(InvalidPayout))
        else
          var (t2, b2) := Since(c.after, t1, called);
          Written(t2, b2, InstructWrite(t2, id, Create(b1, id, amount, c.newRef).1, c.now))
  }

  /** `_advance_payout`: phase 1 reads `t`, 2 asks the bank as it then is, 3 finds the tables as they are then. */
  function AskRaced(t: Tables, bank: Bank<Id>, id: Id, c: Call): Advanced {
    if id >= |t.deposits| || t.deposits[id].status != Paying || id !in t.payouts then Advanced(t, bank, None)
    else
      var ref := t.payouts[id].ref;
      var (t1, b1) := Since(c.before, t, bank);
      match c.link
      case Down(_) => Advanced(t1, b1, None)
      case Broken(_) => Advanced(t1, b1, Some(ProviderFault))
      case Up =>
        if ref !in b1.payouts then Advanced(t1, b1, Some(UnknownPayout))
        else
          var (t2, b2) := Since(c.after, t1, b1);
          Written(t2, b2, PayoutWrite(t2, id, b1.payouts[ref].outcome, c.now))
  }

  /** `advance`, the lock being free. */
  function AdvanceRaced(t: Tables, bank: Bank<Id>, id: Id, w: Weather): Advanced {
    var (t0, b0) := Since(w.start, t, bank);
    var instructed := InstructRaced(t0, b0, id, w.instruct);
    if instructed.fault.Some? then instructed
    else
      var (t', bank') := Since(w.between, instructed.t, instructed.bank);
      AskRaced(t', bank', id, w.ask)
  }

  /** The deposit phase 3 finds has the voucher phase 1 read: nothing in the program ever changes it. */
  predicate SamePin(before: seq<Deposit>, bank: Bank<Id>, id: Id, t: Tables, c: Call) {
    var found := Since(c.after, Since(c.before, t, bank).0, bank).0.deposits;
    id < |before| && id < |found| ==> found[id].pin == before[id].pin
  }

  /** The same for the asking half of an `advance`. */
  predicate PinSteady(t: Tables, bank: Bank<Id>, id: Id, w: Weather) {
    var (t0, b0) := Since(w.start, t, bank);
    var instructed := InstructRaced(t0, b0, id, w.instruct);
    var (t', bank') := Since(w.between, instructed.t, instructed.bank);
    SamePin(t'.deposits, bank', id, t', w.ask)
  }

  // --- the same when nobody else moves ------------------------------------------------------------------

  function Unraced(link: Link, newRef: Ref, now: int): Call {
    Call(link, newRef, None, None, now)
  }

  function InstructSpec(t: Tables, bank: Bank<Id>, id: Id, link: Link, newRef: Ref, now: int): Advanced {
    InstructRaced(t, bank, id, Unraced(link, newRef, now))
  }

  function AskSpec(t: Tables, bank: Bank<Id>, id: Id, link: Link, now: int): Advanced {
    AskRaced(t, bank, id, Unraced(link, "", now))
  }

  function AdvanceSpec(t: Tables, bank: Bank<Id>, id: Id, link: Link, newRef: Ref, now: int): Advanced {
    AdvanceRaced(t, bank, id, Weather(true, None, Unraced(link, newRef, now), None, Unraced(link, newRef, now)))
  }

  predicate Quiet(w: Weather) {
    && w.start.None? && w.between.None?
    && w.instruct.before.None? && w.instruct.after.None? && w.ask.before.None? && w.ask.after.None?
  }

  lemma QuietAdvance(t: Tables, bank: Bank<Id>, id: Id, w: Weather)
    requires Quiet(w)
    ensures var instructed := InstructSpec(t, bank, id, w.instruct.link, w.instruct.newRef, w.instruct.now);
            AdvanceRaced(t, bank, id, w) ==
            if instructed.fault.Some? then instructed
            else AskSpec(instructed.t, instructed.bank, id, w.ask.link, w.ask.now)
  {
  }

  // --- the provider as the service sees it --------------------------------------------------------------

  /** A provider call answers, finds nobody there, or raises. */
  datatype Reply<T> = Answer(value: T) | Unavailable | Raises(fault: Fault)

  class Provider {
    var bank: Bank<Id>

    constructor ()
      ensures bank == EmptyBank()
    {
      bank := EmptyBank();
    }

    /**
     `create`: the same key gets the same payout. When the caller hears that nobody is there, or an exception,
     the payout may exist all the same.
     */
    method CreatePayout(amount: Cents, key: Id, link: Link, newRef: Ref) returns (r: Reply<Ref>)
      modifies this
      ensures bank == Called(old(bank), key, amount, link, newRef)
      ensures match link
              case Down(_) => r == Unavailable
              case Broken(_) => r == Raises(ProviderFault)
              case Up => r == if amount <= 0 then Raises(InvalidPayout)
                  else Answer(Create(old(bank), key, amount, newRef).1)
    {
      var ref := newRef;
      if amount > 0 && (link.Up? || link.made) {
        if key in bank.refs {
          ref := bank.refs[key];
        } else {
          bank := Bank(bank.refs[key := newRef], bank.payouts[newRef := BankPayout(key, amount, PENDING)]);
        }
      }
      match link
      case Down(_) => r := Unavailable;
      case Broken(_) => r := Raises(ProviderFault);
      case Up => r := if amount <= 0 then Raises(InvalidPayout) else Answer(ref);
    }

    /** `status`: a read. */
    method Status(ref: Ref, link: Link) returns (r: Reply<ProviderStatus>)
      ensures match link
              case Down(_) => r == Unavailable
              case Broken(_) => r == Raises(ProviderFault)
              case Up => r == if ref in bank.payouts then Answer(bank.payouts[ref].outcome) else Raises(UnknownPayout)
    {
      if !link.Up? {
        return if link.Down? then Unavailable else Raises(ProviderFault);
      }
      r := if ref in bank.payouts then Answer(bank.payouts[ref].outcome) else Raises(UnknownPayout);
    }
  }

  /** A row just inserted is pending, in its place at the end. */
  lemma InsertsPending(s: Settings, a: CreateArgs, pin: Pin, amount: nat, now: int, deposits: seq<Deposit>,
                       references: seq<string>)
    ensures match Deposits.InsertDeposit(deposits, PendingRow(s, a, pin, amount, now), references)
            case Ok(after) => |after| == |deposits| + 1 && after[|deposits|].status == Pending
            case Err(stop) => !stop.Refuse?
  {
    InsertedRow(deposits, PendingRow(s, a, pin, amount, now), references);
  }

  // --- the service ------------------------------------------------------------------------------------------

  class DepositService {
    const settings: Settings
    const issuer: Switch.VoucherSwitch
    const provider: Provider

    constructor (settings: Settings, issuer: Switch.VoucherSwitch, provider: Provider)
      ensures this.settings == settings && this.issuer == issuer && this.provider == provider
    {
      this.settings, this.issuer, this.provider := settings, issuer, provider;
    }

    /** `lookup_voucher`: quote an active voucher and hand out a token for it. */
    method LookupVoucher(session: Session, pin: Pin, newToken: Token, now: int) returns (r: Outcome)
      requires session.Clean()
      modifies session
      ensures session.Clean() && session.orderly == old(session.orderly)
      ensures var t := old(session.Rows());
              if pin !in t.vouchers then r == Refused("voucher_not_found") && session.Rows() == t
              else if t.vouchers[pin].status != Active then
                r == Refused("voucher_already_redeemed") && session.Rows() == t
              else if newToken in t.tokens then r == Raised(DuplicateToken) && session.Rows() == t
              else
                var amount := t.vouchers[pin].amount;
                && r == Quoted(newToken, amount, FeeFor(settings, amount), QuotedPayout(settings, amount))
                && session.Rows()
                   == t.(tokens := t.tokens[newToken := VoucherToken(pin, now + settings.tokenTtl, None)])
    {
      if pin !in session.vouchers {
        return Refused("voucher_not_found");
      }
      var voucher := session.vouchers[pin];
      if voucher.status != Active {
        return Refused("voucher_already_redeemed");
      }
      if newToken in session.tokens {
        session.Rollback();
        return Raised(DuplicateToken);
      }
      session.Take(Want(VoucherRow(pin), true));
      session.tokens := session.tokens[newToken := VoucherToken(pin, now + settings.tokenTtl, None)];
      session.Commit();
      r := Quoted(newToken, voucher.amount, FeeFor(settings, voucher.amount), QuotedPayout(settings, voucher.amount));
    }

    /** `transition`: the only way a deposit's status changes. Illegal moves raise, never write. */
    method Transition(session: Session, id: Id, to: DepositStatus, reason: Option<string>, now: int)
      returns (fault: Option<Fault>)
      requires id < |session.deposits|
      modifies session`deposits
      ensures match Deposits.Transition(old(session.deposits)[id], to, reason, now)
              case Ok(d) => fault == None && session.deposits == old(session.deposits)[id := d]
              case Err(f) => fault == Some(f) && session.deposits == old(session.deposits)
    {
      if !Allowed(session.deposits[id].status, to) {
        return Some(IllegalTransition);
      }
      if (to == Failed) != reason.Some? {
        return Some(ReasonMismatch);
      }
      var moved := session.deposits[id].(status := to, failureReason := reason, updatedAt := now);
      session.deposits := session.deposits[id := moved];
      fault := None;
    }

    /** `_insert_deposit`: up to five references; any other collision is a replay. */
    method InsertDeposit(session: Session, row: Deposit, references: seq<string>) returns (r: Result<Id, Stop>)
      requires |references| == 5
      modifies session`deposits
      ensures match Deposits.InsertDeposit(old(session.deposits), row, references)
              case Ok(after) => r == Ok(|old(session.deposits)|) && session.deposits == after
              case Err(stop) => r == Err(stop) && session.deposits == old(session.deposits)
    {
      for n := 0 to MAX_REFERENCE_ATTEMPTS
        invariant session.deposits == old(session.deposits)
        invariant Deposits.InsertDeposit(session.deposits, row, references)
                  == Deposits.InsertDeposit(session.deposits, row, references[n..])
      {
        assert references[n..][1..] == references[n + 1..];
        if ReferenceTaken(session.deposits, references[n]) {
          continue;
        }
        if KeyTaken(session.deposits, row.key) {
          return Err(Replay);
        }
        r := Ok(|session.deposits|);
        session.deposits := session.deposits + [row.(reference := references[n])];
        return;
      }
      r := Err(Raise(NoUniqueReference));
    }

    /** Between two statements of a transaction that has written nothing: the next one sees what others committed. */
    method Await(session: Session, others: Option<Tables>)
      requires session.Unwritten()
      modifies session
      ensures session.Unwritten() && session.taken == old(session.taken) && session.orderly == old(session.orderly)
      ensures session.Rows() == Later(others, old(session.Rows()))
    {
      if others.Some? {
        session.Refresh(others.value);
      }
    }

    /** `check_float`: two sums, between which others may commit. */
    method CheckFloat(session: Session, payout: Cents, others: Option<Tables>) returns (covered: bool)
      requires session.Unwritten()
      modifies session
      ensures session.Unwritten() && session.taken == old(session.taken) && session.orderly == old(session.orderly)
      ensures session.Rows() == Later(others, old(session.Rows()))
      ensures covered == (payout <= BalanceOf(old(session.ledger), Settlement) + BalanceOf(session.ledger, UserPayable))
    {
      var settlement := BalanceOf(session.ledger, Settlement);
      Await(session, others);
      var owed := BalanceOf(session.ledger, UserPayable);
      covered := payout <= settlement + owed;
    }

    /**
     `_charge_and_record`, one statement after another. Whoever calls it commits or rolls back. A refusal has
     written nothing, and nothing that stops it has posted an entry or used a token.
     */
    method ChargeAndRecord(session: Session, a: CreateArgs, references: seq<string>, now: int, m: Moments)
      returns (r: Result<Id, Stop>)
      requires session.Clean() && |references| == 5
      modifies session
      ensures session.orderly == old(session.orderly)
      ensures session.committed == StoppedAt(settings, old(session.Rows()), a, now, m)
      ensures match ChargeRaced(settings, old(session.Rows()), a, references, now, m)
              case Ok(t') => r == Ok(|session.committed.deposits|) && session.Rows() == t'
              case Err(stop) =>
                && r == Err(stop) && (stop.Refuse? ==> session.Unwritten())
                && session.tokens == session.committed.tokens && session.ledger == session.committed.ledger
                && session.payouts == session.committed.payouts
    {
      hide CommitCharge, TooSmall, PayoutFor, BalanceOf;
      session.Take(Want(FloatLock, false));
      if a.token !in session.tokens {
        return Err(Refuse("voucher_not_found"));
      }
      session.Take(Want(TokenRow(a.token), false));
      var token := session.tokens[a.token];
      if token.consumedAt.Some? {
        return Err(Replay);
      }
      if token.expiresAt <= now {
        return Err(Refuse("voucher_not_found"));
      }
      if token.pin !in session.vouchers {
        return Err(Raise(SwitchFault(Switch.VoucherNotFound)));
      }
      var voucher := session.vouchers[token.pin];
      if voucher.status != Active {
        return Err(Replay);
      }
      if TooSmall(settings, voucher.amount) {
        return Err(Refuse("voucher_too_small"));
      }
      Await(session, m.checked);
      var covered := CheckFloat(session, PayoutFor(settings, voucher.amount), m.summed);
      if !covered {
        return Err(Refuse("insufficient_float"));
      }
      Await(session, m.covered);
      r := ChargeAndInsert(session, a, token.pin, references, now);
    }

    /** The rest of `_charge_and_record`: redeem, insert, move to charged, post, use the token up. */
    method ChargeAndInsert(session: Session, a: CreateArgs, pin: Pin, references: seq<string>, now: int)
      returns (r: Result<Id, Stop>)
      requires session.Unwritten() && |references| == 5
      requires session.taken == [Want(FloatLock, false), Want(TokenRow(a.token), false)]
      modifies session
      ensures session.orderly == old(session.orderly) && session.committed == old(session.committed)
      ensures match CommitCharge(settings, old(session.Rows()), a, pin, references, now)
              case Ok(t') => r == Ok(|old(session.deposits)|) && session.Rows() == t'
              case Err(stop) =>
                && r == Err(stop) && !stop.Refuse?
                && session.tokens == old(session.tokens) && session.ledger == old(session.ledger)
                && session.payouts == old(session.payouts)
    {
      hide Deposits.InsertDeposit, ReferenceTaken, KeyTaken, CheckPosting, ChargeEntries, PendingRow;
      ghost var t := session.Rows();
      var charged := issuer.Redeem(session, pin, now);
      assert session.orderly == old(session.orderly);
      hide Ordered, Has, Switch.Locked;
      match charged
      case Err(error) =>
        return Err(if error == Switch.AlreadyRedeemed then Replay else Raise(SwitchFault(error)));
      case Ok(amount) =>
        InsertsPending(settings, a, pin, amount, now, t.deposits, references);
        var inserted := InsertDeposit(session, PendingRow(settings, a, pin, amount, now), references);
        if inserted.Err? {
          return Err(inserted.error);
        }
        var id := inserted.value;
        var _ := Transition(session, id, Charged, None, now);  // the row is pending: it cannot refuse
        var posted := Post(session, Some(id), ChargeEntries(session.deposits[id]));
        if posted.Err? {
          return Err(Raise(PostFault(posted.error)));
        }
        session.tokens := Consume(session.tokens, a.token, now);
        r := Ok(id);
    }

    /** `_replay`: the deposit made under this key, if it is this user's. */
    method ReplayKey(session: Session, a: CreateArgs) returns (r: Created)
      ensures r == StopSpec(session.Rows(), a, Replay)
    {
      var existing := FindKey(session.deposits, a.key);
      if existing.None? {
        return Turned("voucher_already_redeemed");
      }
      if existing.value < |session.deposits| && session.deposits[existing.value].user == a.user {
        return Found(existing.value);
      }
      r := Turned("deposit_not_found");
    }

    /** `create_deposit_to` up to its commit: the deposit, the earlier one under its key, or a refusal. */
    method ScreenAndCharge(session: Session, a: CreateArgs, screening: Screening, references: seq<string>, now: int,
                           m: Moments)
      returns (r: Created)
      requires session.Clean() && |references| == 5
      modifies session
      ensures session.Clean() && session.orderly == old(session.orderly)
      ensures Ended(r, session.Rows()) == CreateRaced(settings, old(session.Rows()), a, screening, references, now, m)
    {
      hide ChargeRaced, StoppedAt, Assessable, ReplayOf;
      if Assessable(session.Rows(), a, now) {
        match screening
        case Review => return Turned("deposit_declined");
        case Warn =>
          if !a.acknowledged {
            return Turned("confirmation_required");
          }
        case _ =>
      }
      Await(session, m.screened);
      var charged := ChargeAndRecord(session, a, references, now, m);
      match charged
      case Ok(id) =>
        session.Commit();
        r := Made(id, session.Rows());
      case Err(stop) =>
        session.Rollback();
        match stop
        case Refuse(reason) => r := Turned(reason);
        case Raise(fault) => r := Broke(fault);
        case Replay =>
          Await(session, m.stopped);
          r := ReplayKey(session, a);
    }

    /** Everyone else's turn: this transaction has written nothing, and its next read sees what they committed. */
    method Meanwhile(session: Session, gap: Gap)
      requires session.Unwritten()
      modifies session, provider
      ensures session.Unwritten() && session.taken == old(session.taken) && session.orderly == old(session.orderly)
      ensures (session.Rows(), provider.bank) == Since(gap, old(session.Rows()), old(provider.bank))
    {
      if gap.Some? {
        session.Refresh(gap.value.0);
        provider.bank := gap.value.1;
      }
    }

    /** `_instruct_payout`: read; call the provider with no transaction open; lock, re-check and write. */
    method InstructPayout(session: Session, id: Id, c: Call) returns (fault: Option<Fault>)
      requires session.Clean()
      modifies session, provider
      ensures session.Clean() && session.orderly == old(session.orderly)
      ensures Advanced(session.Rows(), provider.bank, fault)
              == InstructRaced(old(session.Rows()), old(provider.bank), id, c)
    {
      hide RefTaken, Create;
      if id >= |session.deposits| || session.deposits[id].status != Charged {
        return None;
      }
      var amount := session.deposits[id].payout;
      session.Rollback();

      Meanwhile(session, c.before);
      var reply := provider.CreatePayout(amount, id, c.link, c.newRef);
      if reply.Unavailable? {
        return None;
      }
      if reply.Raises? {
        return Some(reply.fault);
      }
      var ref := reply.value;
      Meanwhile(session, c.after);

      session.Take(Want(DepositRow(id), false));
      if id >= |session.deposits| || session.deposits[id].status != Charged {
        session.Rollback();
        return None;
      }
      if id in session.payouts || RefTaken(session.payouts, ref) {
        session.Rollback();
        return Some(DuplicatePayout);
      }
      session.payouts := session.payouts[id := Payout(ref, session.deposits[id].payout, PayoutPending, None)];
      fault := Transition(session, id, Paying, None, c.now);  // the re-check is all it asks: it cannot refuse
      session.Commit();
    }

    /** `_advance_payout`: read; ask the provider with no transaction open; then settle, or fail, or wait. */
    method AdvancePayout(session: Session, id: Id, c: Call) returns (fault: Option<Fault>)
      requires session.Clean()
      modifies session, provider
      ensures session.Clean()
      ensures SamePin(old(session.deposits), old(provider.bank), id, old(session.Rows()), c) ==>
                session.orderly == old(session.orderly)
      ensures Advanced(session.Rows(), provider.bank, fault) == AskRaced(old(session.Rows()), old(provider.bank), id, c)
    {
      if id >= |session.deposits| || session.deposits[id].status != Paying || id !in session.payouts {
        return None;
      }
      var ref, pin := session.payouts[id].ref, session.deposits[id].pin;
      session.Rollback();

      Meanwhile(session, c.before);
      var reply := provider.Status(ref, c.link);
      if reply.Unavailable? {
        return None;
      }
      if reply.Raises? {
        return Some(reply.fault);
      }
      var result := reply.value;
      Meanwhile(session, c.after);

      fault := RecordOutcome(session, id, pin, result, c.now);
    }

    /** The locks of `_advance_payout`'s phase 3: a failing deposit's voucher row before its own. */
    method LockRows(session: Session, id: Id, pin: Pin, failed: bool)
      requires session.taken == []
      modifies session`taken, session`orderly
      ensures session.orderly == old(session.orderly)
      ensures session.taken == (if failed then [Want(VoucherRow(pin), false)] else []) + [Want(DepositRow(id), false)]
    {
      if failed {
        issuer.Hold(session, pin);
      }
      session.Take(Want(DepositRow(id), false));
    }

    /** Phase 3 of `_advance_payout`: lock, re-check, and write what the answer calls for. */
    method RecordOutcome(session: Session, id: Id, pin: Pin, result: ProviderStatus, now: int)
      returns (fault: Option<Fault>)
      requires session.Clean()
      modifies session
      ensures session.Clean()
      ensures (id < |old(session.deposits)| ==> old(session.deposits)[id].pin == pin) ==>
              session.orderly == old(session.orderly)
      ensures Advanced(session.Rows(), provider.bank, fault)
              == Written(old(session.Rows()), provider.bank, PayoutWrite(old(session.Rows()), id, result, now))
    {
      hide SettleWrite, FailWrite, Deposits.Transition;
      LockRows(session, id, pin, result.status == PayoutFailed);
      if id >= |session.deposits| || session.deposits[id].status != Paying || id !in session.payouts {
        session.Rollback();
        return None;
      }
      match result.status
      case PayoutCompleted =>
        fault := SettlePayout(session, id, now);
      case PayoutFailed =>
        assert session.taken[0].lock == VoucherRow(pin);
        fault := FailPayout(session, id, Reason(result), now);
      case _ =>
        if session.payouts[id].status != result.status {
          session.payouts := session.payouts[id := session.payouts[id].(status := result.status)];
          session.Commit();
        } else {
          session.Rollback();
        }
        fault := None;
    }

    method SettlePayout(session: Session, id: Id, now: int) returns (fault: Option<Fault>)
      requires session.Unwritten() && id < |session.deposits| && id in session.payouts
      modifies session
      ensures session.Clean() && session.orderly == old(session.orderly)
      ensures Advanced(session.Rows(), provider.bank, fault)
              == Written(old(session.Rows()), provider.bank, SettleWrite(old(session.Rows()), id, now))
    {
      var d := session.deposits[id];
      session.payouts := session.payouts[id := session.payouts[id].(status := PayoutCompleted)];
      var posted := Post(session, Some(id), SettlementEntries(d));
      if posted.Err? {
        session.Rollback();
        return Some(PostFault(posted.error));
      }
      fault := Transition(session, id, Settled, None, now);
      if fault.Some? {
        session.Rollback();
        return;
      }
      session.Commit();
    }

    method FailPayout(session: Session, id: Id, reason: string, now: int) returns (fault: Option<Fault>)
      requires session.Unwritten() && id < |session.deposits| && id in session.payouts
      modifies session
      ensures session.Clean()
      ensures Has(old(session.taken), VoucherRow(old(session.deposits)[id].pin)) && Ordered(old(session.taken)) ==>
                session.orderly == old(session.orderly)
      ensures Advanced(session.Rows(), provider.bank, fault)
              == Written(old(session.Rows()), provider.bank, FailWrite(old(session.Rows()), id, reason, now))
    {
      hide CheckPosting, ReversalEntries, Switch.ReverseCharge, Ordered;
      var d := session.deposits[id];
      var payout := session.payouts[id].(status := PayoutFailed, failureReason := Some(reason));
      session.payouts := session.payouts[id := payout];
      var posted := Post(session, Some(id), ReversalEntries(d));
      if posted.Err? {
        session.Rollback();
        return Some(PostFault(posted.error));
      }
      var released := issuer.Release(session, d.pin);
      if released.Some? {
        session.Rollback();
        return Some(SwitchFault(released.value));
      }
      fault := Transition(session, id, Failed, Some(reason), now);
      if fault.Some? {
        session.Rollback();
        return;
      }
      session.Commit();
    }

    /** `advance`: nothing while another process holds the deposit's lock. */
    method Advance(session: Session, id: Id, w: Weather) returns (r: Result<bool, Fault>)
      requires session.Clean()
      modifies session, provider
      ensures session.Clean()
      ensures PinSteady(old(session.Rows()), old(provider.bank), id, w) ==> session.orderly == old(session.orderly)
      ensures var spec := AdvanceRaced(old(session.Rows()), old(provider.bank), id, w);
              if !w.held then
                r == Ok(false) && session.Rows() == old(session.Rows()) && provider.bank == old(provider.bank)
              else
                && session.Rows() == spec.t && provider.bank == spec.bank
                && r == if spec.fault.Some? then Err(spec.fault.value) else Ok(true)
    {
      if !w.held {
        return Ok(false);
      }
      Meanwhile(session, w.start);
      var instructed := InstructPayout(session, id, w.instruct);
      if instructed.Some? {
        return Err(instructed.value);
      }
      Meanwhile(session, w.between);
      var asked := AdvancePayout(session, id, w.ask);
      r := if asked.Some? then Err(asked.value) else Ok(true);
    }

    /** `create_deposit_to`: charge, then advance what was charged. `view` is the row the answer shows. */
    method CreateDepositTo(session: Session, a: CreateArgs, screening: Screening, references: seq<string>, now: int,
                           m: Moments, w: Weather)
      returns (r: Created, view: Option<Deposit>, fault: Option<Fault>)
      requires session.Clean() && |references| == 5
      modifies session, provider
      ensures session.Clean()
      ensures r == CreateRaced(settings, old(session.Rows()), a, screening, references, now, m).r
      ensures !r.Made? ==>
                && session.Rows() == CreateRaced(settings, old(session.Rows()), a, screening, references, now, m).t
                && provider.bank == old(provider.bank) && fault == None
      ensures r.Made? ==> (PinSteady(r.t, old(provider.bank), r.id, w) ==> session.orderly == old(session.orderly))
      ensures !r.Made? ==> session.orderly == old(session.orderly)
      ensures r.Made? && !w.held ==> session.Rows() == r.t && provider.bank == old(provider.bank) && fault == None
      ensures r.Made? && w.held ==>
                Advanced(session.Rows(), provider.bank, fault) == AdvanceRaced(r.t, old(provider.bank), r.id, w)
      ensures match r
              case Made(id, _) =>
                if fault.Some? || id >= |session.deposits| then view == None else view == Some(session.deposits[id])
              case Found(id) => id < |session.deposits| && view == Some(session.deposits[id])
              case _ => view == None
    {
      r := ScreenAndCharge(session, a, screening, references, now, m);
      view, fault := None, None;
      match r
      case Made(id, t) =>
        var advanced := Advance(session, id, w);
        if advanced.Err? {
          return r, None, Some(advanced.error);
        }
        if id < |session.deposits| {
          view := Some(session.deposits[id]);
        }
      case Found(id) =>
        KeyFound(session.deposits, a.key);
        view := Some(session.deposits[id]);
      case _ =>
    }

    /** `get_deposit`: the owner's deposit, moved on first if it is in flight. */
    method GetDeposit(session: Session, id: Id, user: nat, w: Weather)
      returns (r: Result<Deposit, string>, fault: Option<Fault>)
      requires session.Clean()
      modifies session, provider
      ensures session.Clean()
      ensures PinSteady(old(session.Rows()), old(provider.bank), id, w) ==> session.orderly == old(session.orderly)
      ensures var t, b := old(session.Rows()), old(provider.bank);
              var spec := AdvanceRaced(t, b, id, w);
              if id >= |t.deposits| || t.deposits[id].user != user then
                r == Err("deposit_not_found") && fault == None && session.Rows() == t && provider.bank == b
              else if (t.deposits[id].status != Charged && t.deposits[id].status != Paying) || !w.held then
                r == Ok(t.deposits[id]) && fault == None && session.Rows() == t && provider.bank == b
              else
                && session.Rows() == spec.t && provider.bank == spec.bank && fault == spec.fault
                && (fault == None ==>
                      r == if id < |spec.t.deposits| then Ok(spec.t.deposits[id]) else Err("deposit_not_found"))
    {
      fault := None;
      if id >= |session.deposits| || session.deposits[id].user != user {
        return Err("deposit_not_found"), None;
      }
      if InFlight(session.deposits[id]) {
        var advanced := Advance(session, id, w);
        if advanced.Err? {
          return Err("internal_error"), Some(advanced.error);
        }
        if id >= |session.deposits| {
          return Err("deposit_not_found"), None;
        }
      }
      r := Ok(session.deposits[id]);
    }
  }
}
