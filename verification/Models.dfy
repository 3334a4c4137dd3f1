/**
 The rows of app/models.py and the session that reads and writes them.

 A deposit's uuid is its place in `deposits`, and an entry group's uuid is its
 place in `ledger`: both are fresh when the row is inserted and never reused.
 Times are whole microseconds.
 */
module Models {
  import opened Wrappers

  type Cents = int
  type Pin = string
  type Token = string
  type Id = nat
  type Ref = string

  datatype VoucherStatus = Active | Redeemed

  datatype Voucher = Voucher(amount: nat, status: VoucherStatus, redeemedAt: Option<int>,
                             issuedAt: int, serial: string, key: Option<string>)

  datatype VoucherToken = VoucherToken(pin: Pin, expiresAt: int, consumedAt: Option<int>)

  datatype DepositStatus = Pending | Charged | Paying | Settled | Failed

  datatype Deposit = Deposit(reference: string, pin: Pin, amount: Cents, fee: Cents, payout: Cents,
                             user: nat, destination: string, status: DepositStatus,
                             failureReason: Option<string>, key: string,
                             createdAt: int, updatedAt: int)

  datatype Account = Settlement | VoucherReceivable | UserPayable | FeeIncome | Capital

  /** One line of a transaction: debits positive, credits negative. */
  datatype Entry = Entry(account: Account, amount: Cents)

  /** The lines sharing one entry_group, and the deposit they belong to (None: funding). */
  datatype Group = Group(deposit: Option<Id>, entries: seq<Entry>)

  datatype PayoutStatus = PayoutPending | PayoutSubmitted | PayoutCompleted | PayoutFailed

  datatype Payout = Payout(ref: Ref, amount: Cents, status: PayoutStatus, failureReason: Option<string>)

  datatype Tables = Tables(vouchers: map<Pin, Voucher>, tokens: map<Token, VoucherToken>,
                           deposits: seq<Deposit>, payouts: map<Id, Payout>, ledger: seq<Group>)

  const EMPTY := Tables(map[], map[], [], map[], [])

  /** Charged and not handed back: the voucher's value has gone, or is going, somewhere. */
  predicate Live(d: Deposit) {
    d.status == Charged || d.status == Paying || d.status == Settled
  }

  /** What `advance` still has work to do on. */
  predicate InFlight(d: Deposit) {
    d.status == Charged || d.status == Paying
  }

  // --- locks ------------------------------------------------------------------------------------

  datatype Lock = FloatLock | TokenRow(token: Token) | VoucherRow(pin: Pin) | DepositRow(id: Id)

  /** A row locked for update, or only shared: a foreign key's KEY SHARE. */
  datatype Want = Want(lock: Lock, shared: bool)

  /** Where a lock stands in the order: float lock, token, voucher, deposit. */
  function LockRank(lock: Lock): nat {
    match lock
    case FloatLock => 0
    case TokenRow(_) => 1
    case VoucherRow(_) => 2
    case DepositRow(_) => 3
  }

  /** Locks taken in the order everybody keeps to. */
  predicate Ordered(wants: seq<Want>) {
    forall i, j :: 0 <= i < j < |wants| ==> LockRank(wants[i].lock) < LockRank(wants[j].lock)
  }

  predicate Has(wants: seq<Want>, lock: Lock) {
    exists i :: 0 <= i < |wants| && wants[i].lock == lock
  }

  // --- sessions ---------------------------------------------------------------------------------

  /**
   One database session: the rows as this transaction sees them, and as last committed; the locks this
   transaction has taken, and whether this one and all before it took theirs in order.
   */
  class Session {
    var vouchers: map<Pin, Voucher>
    var tokens: map<Token, VoucherToken>
    var deposits: seq<Deposit>
    var payouts: map<Id, Payout>
    var ledger: seq<Group>
    var committed: Tables
    var taken: seq<Want>
    var orderly: bool

    function Rows(): Tables
      reads this
    {
      Tables(vouchers, tokens, deposits, payouts, ledger)
    }

    /** This transaction has written nothing. */
    predicate Unwritten()
      reads this
    {
      Rows() == committed
    }

    /** No transaction is open: nothing is written that has not been committed, and no lock is held. */
    predicate Clean()
      reads this
    {
      Unwritten() && taken == []
    }

    constructor ()
      ensures Clean() && committed == EMPTY && orderly
    {
      vouchers, tokens, deposits, payouts, ledger := map[], map[], [], map[], [];
      committed, taken, orderly := EMPTY, [], true;
    }

    /** Lock a row, or the float: one this transaction already holds it keeps. */
    method Take(want: Want)
      modifies this`taken, this`orderly
      ensures taken == if exists i :: 0 <= i < |old(taken)| && old(taken)[i].lock == want.lock then old(taken)
                       else old(taken) + [want]
      ensures orderly == (old(orderly) && Ordered(taken))
    {
      if !Has(taken, want.lock) {
        taken := taken + [want];
      }
      orderly := orderly && Ordered(taken);
    }

    method Commit()
      modifies this`committed, this`taken
      ensures Clean() && Rows() == old(Rows())
    {
      committed, taken := Rows(), [];
    }

    method Rollback()
      modifies this
      ensures Clean() && committed == old(committed) && orderly == old(orderly)
    {
      vouchers, tokens, deposits := committed.vouchers, committed.tokens, committed.deposits;
      payouts, ledger, taken := committed.payouts, committed.ledger, [];
    }

    /** The next statement sees what others have committed since. */
    method Refresh(t: Tables)
      requires Unwritten()
      modifies this
      ensures Unwritten() && Rows() == t && taken == old(taken) && orderly == old(orderly)
    {
      vouchers, tokens, deposits, payouts, ledger := t.vouchers, t.tokens, t.deposits, t.payouts, t.ledger;
      committed := t;
    }
  }
}
