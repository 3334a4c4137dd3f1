/**
 The transactions of app/deposits.py, each as what it does to the committed tables.

 `DepositService` (Service.dfy) runs them one statement at a time; the protocol (Protocol.dfy)
 interleaves them.
 */
module Deposits {
  import opened Wrappers
  import opened Models
  import opened Fees
  import opened Ledger
  import opened Payouts
  import Switch

  const MAX_REFERENCE_ATTEMPTS := 5

  datatype CreateArgs = CreateArgs(token: Token, destination: string, key: string, user: nat, acknowledged: bool)

  /** Exceptions that are not refusals: a request that meets one is rolled back and answered with a 500. */
  datatype Fault =
    | IllegalTransition
    | ReasonMismatch
    | PostFault(post: PostError)
    | SwitchFault(switch: Switch.SwitchError)
    | NoUniqueReference
    | DuplicateToken
    | DuplicatePayout
    | InvalidPayout
    | UnknownPayout
    | ProviderFault

  /** Why the charging transaction ends without a deposit. */
  datatype Stop = Refuse(reason: string) | Replay | Raise(fault: Fault)

  // --- statuses ------------------------------------------------------------------------------

  predicate Allowed(before: DepositStatus, after: DepositStatus) {
    match after
    case Pending => false
    case Charged => before == Pending
    case Paying => before == Charged
    case Settled => before == Paying
    case Failed => before == Pending || before == Charged || before == Paying
  }

  /** `transition`: the only way a deposit's status changes. */
  function Transition(d: Deposit, to: DepositStatus, reason: Option<string>, now: int): Result<Deposit, Fault> {
    if !Allowed(d.status, to) then Err(IllegalTransition)
    else if (to == Failed) != reason.Some? then Err(ReasonMismatch)
    else Ok(d.(status := to, failureReason := reason, updatedAt := now))
  }

  /** How far a deposit still has to go. */
  function Distance(status: DepositStatus): nat {
    match status
    case Pending => 3
    case Charged => 2
    case Paying => 1
    case _ => 0
  }

  /** A status moves along one of six edges, with a reason iff it fails, and nothing else of the row changes. */
  lemma TransitionFields(d: Deposit, to: DepositStatus, reason: Option<string>, now: int)
    ensures match Transition(d, to, reason, now)
            case Ok(d') =>
              && (d.status, to) in {(Pending, Charged), (Charged, Paying), (Paying, Settled),
                                    (Pending, Failed), (Charged, Failed), (Paying, Failed)}
              && (reason != None <==> to == Failed)
              && d'.status == to && d'.failureReason == reason && d'.updatedAt == now
              && d == d'.(status := d.status, failureReason := d.failureReason, updatedAt := d.updatedAt)
            case Err(fault) =>
              if (d.status, to) in {(Pending, Charged), (Charged, Paying), (Paying, Settled),
                                    (Pending, Failed), (Charged, Failed), (Paying, Failed)}
              then fault == ReasonMismatch && (reason != None <==> to != Failed)
              else fault == IllegalTransition
  {
  }

  /** Every status change brings a deposit nearer its end, and nothing leaves settled or failed. */
  lemma TransitionDescends(before: DepositStatus, after: DepositStatus)
    requires Allowed(before, after)
    ensures Distance(after) < Distance(before)
    ensures before != Settled && before != Failed
  {
  }

  // --- creating ------------------------------------------------------------------------------

  /** Under the float lock: lock the token, look its voucher up, refuse what is too small. */
  function CheckToken(s: Settings, t: Tables, a: CreateArgs, now: int): Result<(Pin, Cents), Stop> {
    if a.token !in t.tokens then Err(Refuse("voucher_not_found"))
    else
      var token := t.tokens[a.token];
      if token.consumedAt.Some? then Err(Replay)
      else if token.expiresAt <= now then Err(Refuse("voucher_not_found"))
      else if token.pin !in t.vouchers then Err(Raise(SwitchFault(Switch.VoucherNotFound)))
      else
        var voucher := t.vouchers[token.pin];
        if voucher.status != Active then Err(Replay)
        else if TooSmall(s, voucher.amount) then Err(Refuse("voucher_too_small"))
        else Ok((token.pin, PayoutFor(s, voucher.amount)))
  }

  predicate ReferenceTaken(deposits: seq<Deposit>, reference: string) {
    exists i :: 0 <= i < |deposits| && deposits[i].reference == reference
  }

  predicate KeyTaken(deposits: seq<Deposit>, key: string) {
    exists i :: 0 <= i < |deposits| && deposits[i].key == key
  }

  /** `_insert_deposit`: a reference collision tries the next candidate, a key collision is a replay. */
  function InsertDeposit(deposits: seq<Deposit>, row: Deposit, references: seq<string>): (r: Result<seq<Deposit>, Stop>)
    ensures r.Ok? ==> |r.value| == |deposits| + 1
  {
    if references == [] then Err(Raise(NoUniqueReference))
    else if ReferenceTaken(deposits, references[0]) then InsertDeposit(deposits, row, references[1..])
    else if KeyTaken(deposits, row.key) then Err(Replay)
    else Ok(deposits + [row.(reference := references[0])])
  }

  function PendingRow(s: Settings, a: CreateArgs, pin: Pin, amount: nat, now: int): Deposit {
    Deposit("", pin, amount, FeeFor(s, amount), PayoutFor(s, amount), a.user, a.destination,
            Pending, None, a.key, now, now)
  }

  function Consume(tokens: map<Token, VoucherToken>, token: Token, now: int): map<Token, VoucherToken> {
    if token in tokens then tokens[token := tokens[token].(consumedAt := Some(now))] else tokens
  }

  /** From `charge` to the commit: redeem, insert, move to charged, post, use the token up. */
  function CommitCharge(s: Settings, t: Tables, a: CreateArgs, pin: Pin, references: seq<string>, now: int)
    : Result<Tables, Stop>
  {
    match Switch.Charge(t.vouchers, pin, now)
    case Err(AlreadyRedeemed) => Err(Replay)
    case Err(e) => Err(Raise(SwitchFault(e)))
    case Ok(vouchers) =>
      var id := |t.deposits|;
      match InsertDeposit(t.deposits, PendingRow(s, a, pin, vouchers[pin].amount, now), references)
      case Err(stop) => Err(stop)
      case Ok(inserted) =>
        match Transition(inserted[id], Charged, None, now)
        case Err(fault) => Err(Raise(fault))
        case Ok(d) =>
          match CheckPosting(Some(id), ChargeEntries(d))
          case Some(e) => Err(Raise(PostFault(e)))
          case None =>
            Ok(Tables(vouchers, Consume(t.tokens, a.token, now), inserted[id := d], t.payouts,
                      t.ledger + [Group(Some(id), ChargeEntries(d))]))
  }

  function FindKey(deposits: seq<Deposit>, key: string): Option<Id> {
    if deposits == [] then None
    else if deposits[|deposits| - 1].key == key then Some(|deposits| - 1)
    else FindKey(deposits[..|deposits| - 1], key)
  }

  /** `_replay`: the deposit made under this key, if it is this user's. */
  function ReplayOf(t: Tables, key: string, user: nat): Result<Id, string> {
    match FindKey(t.deposits, key)
    case None => Err("voucher_already_redeemed")
    case Some(id) =>
      if id < |t.deposits| && t.deposits[id].user == user then Ok(id) else Err("deposit_not_found")
  }

  // --- advancing -----------------------------------------------------------------------------

  /** What phase 3 does: commit, roll back having found nothing to do, or raise. */
  datatype WriteResult = Wrote(t: Tables) | Unchanged | Faulted(fault: Fault)

  predicate RefTaken(payouts: map<Id, Payout>, ref: Ref) {
    exists j :: j in payouts && payouts[j].ref == ref
  }

  /** Phase 3 of `_instruct_payout`. */
  function InstructWrite(t: Tables, id: Id, ref: Ref, now: int): WriteResult {
    if id >= |t.deposits| || t.deposits[id].status != Charged then Unchanged
    else if id in t.payouts || RefTaken(t.payouts, ref) then Faulted(DuplicatePayout)
    else
      var d := t.deposits[id];
      match Transition(d, Paying, None, now)
      case Err(fault) => Faulted(fault)
      case Ok(d') =>
        Wrote(t.(deposits := t.deposits[id := d'],
                 payouts := t.payouts[id := Payout(ref, d.payout, PayoutPending, None)]))
  }

  function Reason(result: ProviderStatus): string {
    if result.failureReason.None? || result.failureReason.value == "" then "unknown" else result.failureReason.value
  }

  /** Phase 3 of `_advance_payout`. */
  function PayoutWrite(t: Tables, id: Id, result: ProviderStatus, now: int): WriteResult {
    if id >= |t.deposits| || t.deposits[id].status != Paying || id !in t.payouts then Unchanged
    else
      match result.status
      case PayoutCompleted => SettleWrite(t, id, now)
      case PayoutFailed => FailWrite(t, id, Reason(result), now)
      case _ =>
        if t.payouts[id].status == result.status then Unchanged
        else Wrote(t.(payouts := t.payouts[id := t.payouts[id].(status := result.status)]))
  }

  function SettleWrite(t: Tables, id: Id, now: int): WriteResult
    requires id < |t.deposits| && id in t.payouts
  {
    var d := t.deposits[id];
    var entries := SettlementEntries(d);
    if CheckPosting(Some(id), entries).Some? then Faulted(PostFault(CheckPosting(Some(id), entries).value))
    else
      match Transition(d, Settled, None, now)
      case Err(fault) => Faulted(fault)
      case Ok(d') =>
        Wrote(t.(deposits := t.deposits[id := d'],
                 payouts := t.payouts[id := t.payouts[id].(status := PayoutCompleted)],
                 ledger := t.ledger + [Group(Some(id), entries)]))
  }

  function FailWrite(t: Tables, id: Id, reason: string, now: int): WriteResult
    requires id < |t.deposits| && id in t.payouts
  {
    var d := t.deposits[id];
    var entries := ReversalEntries(d);
    if CheckPosting(Some(id), entries).Some? then Faulted(PostFault(CheckPosting(Some(id), entries).value))
    else
      match Switch.ReverseCharge(t.vouchers, d.pin)
      case Err(e) => Faulted(SwitchFault(e))
      case Ok(vouchers) =>
        match Transition(d, Failed, Some(reason), now)
        case Err(fault) => Faulted(fault)
        case Ok(d') =>
          Wrote(t.(vouchers := vouchers,
                   deposits := t.deposits[id := d'],
                   payouts := t.payouts[id := t.payouts[id].(status := PayoutFailed, failureReason := Some(reason))],
                   ledger := t.ledger + [Group(Some(id), entries)]))
  }

  // --- what each function comes to ------------------------------------------------------------

  lemma {:induction false} InsertedRow(deposits: seq<Deposit>, row: Deposit, references: seq<string>)
    ensures match InsertDeposit(deposits, row, references)
            case Ok(after) =>
              && |after| == |deposits| + 1 && after[..|deposits|] == deposits
              && after[|deposits|] == row.(reference := after[|deposits|].reference)
              && !ReferenceTaken(deposits, after[|deposits|].reference)
              && !KeyTaken(deposits, row.key)
            case Err(Replay) => KeyTaken(deposits, row.key)
            case Err(Raise(f)) =>
              f == NoUniqueReference && forall i :: 0 <= i < |references| ==> ReferenceTaken(deposits, references[i])
            case Err(Refuse(_)) => false
  {
    if references != [] && ReferenceTaken(deposits, references[0]) {
      InsertedRow(deposits, row, references[1..]);
      assert forall i :: 1 <= i < |references| ==> references[i] == references[1..][i - 1];
    }
  }

  /** Looking a key up finds a deposit made under it whenever there is one. */
  lemma {:induction false} KeyFound(deposits: seq<Deposit>, key: string)
    ensures match FindKey(deposits, key)
            case Some(id) => id < |deposits| && deposits[id].key == key
            case None => !KeyTaken(deposits, key)
  {
    if deposits != [] {
      KeyFound(deposits[..|deposits| - 1], key);
    }
  }

  /** The one way the charging transaction commits, and everything that commit changes. */
  ghost predicate ChargedBy(s: Settings, t: Tables, a: CreateArgs, pin: Pin, now: int, t': Tables) {
    var id := |t.deposits|;
    && pin in t.vouchers && t.vouchers[pin].status == Active
    && t'.vouchers == t.vouchers[pin := t.vouchers[pin].(status := Redeemed, redeemedAt := Some(now))]
    && t'.tokens == Consume(t.tokens, a.token, now)
    && |t'.deposits| == id + 1 && t'.deposits[..id] == t.deposits
    && var d := t'.deposits[id];
      && d == Deposit(d.reference, pin, t.vouchers[pin].amount, FeeFor(s, t.vouchers[pin].amount),
                      PayoutFor(s, t.vouchers[pin].amount), a.user, a.destination, Charged, None, a.key, now, now)
      && d.amount != 0 && d.fee >= 1 && d.payout != 0
      && !ReferenceTaken(t.deposits, d.reference) && !KeyTaken(t.deposits, a.key)
      && t'.payouts == t.payouts
      && t'.ledger == t.ledger + [Group(Some(id), ChargeEntries(d))]
  }

  /** `CommitCharge` commits exactly `ChargedBy`, and every other end has the cause its name says. */
  lemma ChargeOutcome(s: Settings, t: Tables, a: CreateArgs, pin: Pin, references: seq<string>, now: int)
    requires pin in t.vouchers
    ensures match CommitCharge(s, t, a, pin, references, now)
            case Ok(t') => ChargedBy(s, t, a, pin, now, t')
            case Err(Replay) => t.vouchers[pin].status != Active || KeyTaken(t.deposits, a.key)
            case Err(Raise(PostFault(e))) =>
              e == ZeroAmount && (t.vouchers[pin].amount == 0 || FeeFor(s, t.vouchers[pin].amount) == 0
                                  || PayoutFor(s, t.vouchers[pin].amount) == 0)
            case Err(Raise(f)) => f == NoUniqueReference
            case Err(Refuse(_)) => false
  {
    var amount := t.vouchers[pin].amount;
    var row := PendingRow(s, a, pin, amount, now);
    InsertedRow(t.deposits, row, references);
    var d := row.(status := Charged);
    DepositPostings(|t.deposits|, d);
    var inserted := InsertDeposit(t.deposits, row, references);
    if inserted.Ok? {
      var d' := inserted.value[|t.deposits|].(status := Charged);
      assert ChargeEntries(d') == ChargeEntries(d);
      assert inserted.value[|t.deposits| := d'][..|t.deposits|] == t.deposits;
    }
  }
}
