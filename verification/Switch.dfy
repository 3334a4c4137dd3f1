/** The voucher issuer's switch of app/switch.py. No method commits: the caller owns the transaction. */
module Switch {
  import opened Wrappers
  import opened Models

  const MAX_VEND_ATTEMPTS := 5

  datatype SwitchError = VoucherNotFound | AlreadyRedeemed | NothingToReverse | AmountOutOfRange | VendFailed

  datatype VendedVoucher = VendedVoucher(pin: Pin, serial: string, amount: nat, issuedAt: int, replayed: bool)

  type Vouchers = map<Pin, Voucher>

  /** A generated PIN or serial is already taken. */
  predicate Collides(vouchers: Vouchers, pin: Pin, serial: string) {
    pin in vouchers || exists p :: p in vouchers && vouchers[p].serial == serial
  }

  predicate Holds(vouchers: Vouchers, pin: Pin, key: string) {
    pin in vouchers && vouchers[pin].key == Some(key)
  }

  predicate KeyTaken(vouchers: Vouchers, key: Option<string>) {
    key.Some? && exists p :: p in vouchers && Holds(vouchers, p, key.value)
  }

  /** The table's unique constraints and the redeemed_at check. */
  ghost predicate VouchersOk(vouchers: Vouchers) {
    && (forall p, q :: p in vouchers && q in vouchers && vouchers[p].serial == vouchers[q].serial ==> p == q)
    && (forall p, q, k :: Holds(vouchers, p, k) && Holds(vouchers, q, k) ==> p == q)
    && (forall p :: p in vouchers ==> (vouchers[p].status == Redeemed <==> vouchers[p].redeemedAt.Some?))
  }

  /** How many candidates collide before the first that does not. */
  function FirstFree(vouchers: Vouchers, candidates: seq<(Pin, string)>): (i: nat)
    ensures i <= |candidates|
    ensures i < |candidates| ==> !Collides(vouchers, candidates[i].0, candidates[i].1)
    ensures forall j :: 0 <= j < i ==> Collides(vouchers, candidates[j].0, candidates[j].1)
  {
    if candidates == [] || !Collides(vouchers, candidates[0].0, candidates[0].1) then 0
    else 1 + FirstFree(vouchers, candidates[1..])
  }

  /** What a sale comes to: the first free candidate becomes a voucher, or finds the key used. */
  ghost function Sale(vouchers: Vouchers, amount: nat, key: Option<string>, candidates: seq<(Pin, string)>, now: int)
    : (Result<VendedVoucher, SwitchError>, Vouchers)
  {
    var i := FirstFree(vouchers, candidates);
    if i == |candidates| then (Err(VendFailed), vouchers)
    else if KeyTaken(vouchers, key) then
      var p :| p in vouchers && Holds(vouchers, p, key.value);
      (Ok(VendedVoucher(p, vouchers[p].serial, vouchers[p].amount, vouchers[p].issuedAt, true)), vouchers)
    else
      var (pin, serial) := candidates[i];
      (Ok(VendedVoucher(pin, serial, amount, now, false)),
       vouchers[pin := Voucher(amount, Active, None, now, serial, key)])
  }

  lemma InsertKeepsVouchers(vouchers: Vouchers, pin: Pin, serial: string, amount: nat, key: Option<string>, now: int)
    requires VouchersOk(vouchers) && !Collides(vouchers, pin, serial) && !KeyTaken(vouchers, key)
    ensures VouchersOk(vouchers[pin := Voucher(amount, Active, None, now, serial, key)])
  {
    var after := vouchers[pin := Voucher(amount, Active, None, now, serial, key)];
    forall p, q, k | Holds(after, p, k) && Holds(after, q, k)
      ensures p == q
    {
      assert p != pin ==> Holds(vouchers, p, k);
      assert q != pin ==> Holds(vouchers, q, k);
    }
  }

  /**
   The three ways a sale ends. A new voucher is active for the amount asked, under the key asked, at the first
   candidate with a PIN and a serial no voucher has; a key some voucher has reports that one and sells nothing;
   and it fails exactly when no candidate is free.
   */
  lemma SaleAnswers(vouchers: Vouchers, amount: nat, key: Option<string>, candidates: seq<(Pin, string)>, now: int)
    ensures var (r, after) := Sale(vouchers, amount, key, candidates, now);
            var used := forall i :: 0 <= i < |candidates| ==>
                          || candidates[i].0 in vouchers
                          || exists p :: p in vouchers && vouchers[p].serial == candidates[i].1;
            var repeated := key != None && exists p :: p in vouchers && vouchers[p].key == key;
            if used then r == Err(VendFailed) && after == vouchers
            else if repeated then
              && r.Ok? && r.value.replayed && after == vouchers
              && var sold := r.value;
                 && sold.pin in vouchers && vouchers[sold.pin].key == key && vouchers[sold.pin].serial == sold.serial
                 && vouchers[sold.pin].amount == sold.amount && vouchers[sold.pin].issuedAt == sold.issuedAt
            else
              && r.Ok? && !r.value.replayed
              && var sold := r.value;
                 && sold.amount == amount && sold.issuedAt == now
                 && (exists i :: 0 <= i < |candidates| && candidates[i] == (sold.pin, sold.serial)
                       && forall j :: 0 <= j < i ==> Collides(vouchers, candidates[j].0, candidates[j].1))
                 && sold.pin !in vouchers && (forall p :: p in vouchers ==> vouchers[p].serial != sold.serial)
                 && after.Keys == vouchers.Keys + {sold.pin}
                 && (forall p :: p in vouchers ==> after[p] == vouchers[p])
                 && var v := after[sold.pin];
                    && v.status == Active && v.redeemedAt == None && v.amount == amount && v.serial == sold.serial
                    && v.key == key && v.issuedAt == now
  {
    assert KeyTaken(vouchers, key) <==> key != None && exists p :: p in vouchers && vouchers[p].key == key;
    if FirstFree(vouchers, candidates) < |candidates| && !KeyTaken(vouchers, key) {
      var (pin, serial) := candidates[FirstFree(vouchers, candidates)];
      assert !Collides(vouchers, pin, serial);
    }
  }

  /**
   Selling twice under one key sells once. Whatever happens to the vouchers in between, as long as the voucher the
   first call reported keeps its key, serial, amount and time and the constraints hold, the second call leaves the
   vouchers alone and reports the first's voucher, whatever amount it asks for, or runs out of candidates.
   */
  lemma SoldOnce(vouchers: Vouchers, amount: nat, key: string, candidates: seq<(Pin, string)>, now: int,
                 between: Vouchers, again: nat, others: seq<(Pin, string)>, later: int)
    requires VouchersOk(between)
    requires var (r, after) := Sale(vouchers, amount, Some(key), candidates, now);
             r.Ok? ==>
               && r.value.pin in between && r.value.pin in after
               && between[r.value.pin]
                  == after[r.value.pin].(status := between[r.value.pin].status,
                                         redeemedAt := between[r.value.pin].redeemedAt)
    ensures var first := Sale(vouchers, amount, Some(key), candidates, now).0;
            var (second, after) := Sale(between, again, Some(key), others, later);
            first.Ok? ==>
              && after == between
              && second == if forall i :: 0 <= i < |others| ==> Collides(between, others[i].0, others[i].1)
                           then Err(VendFailed)
                           else Ok(first.value.(replayed := true))
  {
    SaleAnswers(vouchers, amount, Some(key), candidates, now);
    SaleAnswers(between, again, Some(key), others, later);
    var first := Sale(vouchers, amount, Some(key), candidates, now).0;
    if first.Ok? {
      assert Holds(between, first.value.pin, key);
      assert between[first.value.pin].key == Some(key);
      var second := Sale(between, again, Some(key), others, later).0;
      assert second.Ok? ==> Holds(between, second.value.pin, key);
    }
  }

  function Charge(vouchers: Vouchers, pin: Pin, now: int): Result<Vouchers, SwitchError> {
    if pin !in vouchers then Err(VoucherNotFound)
    else if vouchers[pin].status != Active then Err(AlreadyRedeemed)
    else Ok(vouchers[pin := vouchers[pin].(status := Redeemed, redeemedAt := Some(now))])
  }

  function ReverseCharge(vouchers: Vouchers, pin: Pin): Result<Vouchers, SwitchError> {
    if pin !in vouchers then Err(VoucherNotFound)
    else if vouchers[pin].status != Redeemed then Err(NothingToReverse)
    else Ok(vouchers[pin := vouchers[pin].(status := Active, redeemedAt := None)])
  }

  /** A charge redeems an active voucher and a reversal returns a redeemed one; no other voucher is touched. */
  lemma ChargeFields(vouchers: Vouchers, pin: Pin, now: int)
    ensures match Charge(vouchers, pin, now)
            case Ok(after) =>
              && pin in vouchers && vouchers[pin].status == Active && after.Keys == vouchers.Keys
              && (forall p :: p in vouchers && p != pin ==> after[p] == vouchers[p])
              && after[pin].status == Redeemed && after[pin].redeemedAt == Some(now)
              && after[pin].amount == vouchers[pin].amount && after[pin].serial == vouchers[pin].serial
              && after[pin].key == vouchers[pin].key && after[pin].issuedAt == vouchers[pin].issuedAt
            case Err(e) =>
              if pin !in vouchers then e == VoucherNotFound
              else vouchers[pin].status == Redeemed && e == AlreadyRedeemed
    ensures match ReverseCharge(vouchers, pin)
            case Ok(after) =>
              && pin in vouchers && vouchers[pin].status == Redeemed && after.Keys == vouchers.Keys
              && (forall p :: p in vouchers && p != pin ==> after[p] == vouchers[p])
              && after[pin].status == Active && after[pin].redeemedAt == None
              && after[pin].amount == vouchers[pin].amount && after[pin].serial == vouchers[pin].serial
              && after[pin].key == vouchers[pin].key && after[pin].issuedAt == vouchers[pin].issuedAt
            case Err(e) =>
              if pin !in vouchers then e == VoucherNotFound
              else vouchers[pin].status == Active && e == NothingToReverse
  {
  }

  /** A charge and its reversal leave the vouchers exactly as they were; a second charge is refused. */
  lemma ReverseUndoesCharge(vouchers: Vouchers, pin: Pin, now: int, later: int)
    requires VouchersOk(vouchers) && Charge(vouchers, pin, now).Ok?
    ensures var charged := Charge(vouchers, pin, now).value;
            && VouchersOk(charged)
            && Charge(charged, pin, later) == Err(AlreadyRedeemed)
            && ReverseCharge(charged, pin) == Ok(vouchers)
  {
    var charged := Charge(vouchers, pin, now).value;
    assert forall p, k :: Holds(charged, p, k) ==> Holds(vouchers, p, k);
    assert charged[pin := charged[pin].(status := Active, redeemedAt := None)] == vouchers;
  }

  /** The voucher's row has been locked for update, if it was not already. */
  predicate Locked(taken: seq<Want>, orderly: bool, pin: Pin, taken': seq<Want>, orderly': bool) {
    && taken' == (if Has(taken, VoucherRow(pin)) then taken else taken + [Want(VoucherRow(pin), false)])
    && orderly' == (orderly && Ordered(taken'))
  }

  class VoucherSwitch {
    const minVoucherCents: int
    const maxVoucherCents: int

    constructor (minVoucherCents: int, maxVoucherCents: int)
      ensures this.minVoucherCents == minVoucherCents && this.maxVoucherCents == maxVoucherCents
    {
      this.minVoucherCents, this.maxVoucherCents := minVoucherCents, maxVoucherCents;
    }

    /**
     `vend`, given the PINs and serials its attempts would generate. The constraints decide: a PIN
     or serial collision takes the next candidate, a key collision returns the earlier sale.
     */
    method Vend(session: Session, amount: int, key: Option<string>, candidates: seq<(Pin, string)>, now: int)
      returns (r: Result<VendedVoucher, SwitchError>)
      requires 0 < minVoucherCents && VouchersOk(session.vouchers)
      requires |candidates| == 5
      modifies session`vouchers
      ensures VouchersOk(session.vouchers)
      ensures r.Err? ==> session.vouchers == old(session.vouchers)
      ensures r == Err(AmountOutOfRange) <==> !(minVoucherCents <= amount <= maxVoucherCents)
      ensures r.Err? ==> r.error in {AmountOutOfRange, VendFailed}
      ensures minVoucherCents <= amount <= maxVoucherCents ==>
                (r, session.vouchers) == Sale(old(session.vouchers), amount, key, candidates, now)
    {
      if !(minVoucherCents <= amount <= maxVoucherCents) {
        return Err(AmountOutOfRange);
      }
      for i := 0 to MAX_VEND_ATTEMPTS
        invariant session.vouchers == old(session.vouchers)
        invariant FirstFree(session.vouchers, candidates) >= i
      {
        var (pin, serial) := candidates[i];
        if Collides(session.vouchers, pin, serial) {
          continue;
        }
        if key.Some? && KeyTaken(session.vouchers, key) {
          var earlier := Replay(session, key.value);
          return Ok(earlier);
        }
        InsertKeepsVouchers(session.vouchers, pin, serial, amount, key, now);
        var voucher := Voucher(amount, Active, None, now, serial, key);
        session.vouchers := session.vouchers[pin := voucher];
        return Ok(VendedVoucher(pin, voucher.serial, voucher.amount, voucher.issuedAt, false));
      }
      r := Err(VendFailed);
    }

    /** The voucher an earlier call issued under this key, as it stands. */
    method Replay(session: Session, key: string) returns (earlier: VendedVoucher)
      requires KeyTaken(session.vouchers, Some(key))
      ensures Holds(session.vouchers, earlier.pin, key)
      ensures var v := session.vouchers[earlier.pin];
              earlier == VendedVoucher(earlier.pin, v.serial, v.amount, v.issuedAt, true)
    {
      var pins := session.vouchers.Keys;
      while true
        invariant exists p :: p in pins && Holds(session.vouchers, p, key)
        decreases pins
      {
        var pin :| pin in pins;
        if session.vouchers[pin].key == Some(key) {
          var voucher := session.vouchers[pin];
          return VendedVoucher(pin, voucher.serial, voucher.amount, voucher.issuedAt, true);
        }
        pins := pins - {pin};
      }
    }

    /** `charge`: redeem for the full amount, under the voucher's row lock. */
    method Redeem(session: Session, pin: Pin, now: int) returns (r: Result<nat, SwitchError>)
      modifies session`vouchers, session`taken, session`orderly
      ensures Locked(old(session.taken), old(session.orderly), pin, session.taken, session.orderly)
      ensures match Charge(old(session.vouchers), pin, now)
              case Ok(after) =>
                pin in after && r == Ok(after[pin].amount) && session.vouchers == after
              case Err(e) => r == Err(e) && session.vouchers == old(session.vouchers)
    {
      session.Take(Want(VoucherRow(pin), false));
      if pin !in session.vouchers {
        return Err(VoucherNotFound);
      }
      var voucher := session.vouchers[pin];
      if voucher.status != Active {
        return Err(AlreadyRedeemed);
      }
      session.vouchers := session.vouchers[pin := voucher.(status := Redeemed, redeemedAt := Some(now))];
      r := Ok(voucher.amount);
    }

    /** `hold`: take the voucher's row lock and change nothing. */
    method Hold(session: Session, pin: Pin)
      modifies session`taken, session`orderly
      ensures Locked(old(session.taken), old(session.orderly), pin, session.taken, session.orderly)
    {
      session.Take(Want(VoucherRow(pin), false));
    }

    /** `reverse_charge`: return a redeemed voucher to active, under its row lock. */
    method Release(session: Session, pin: Pin) returns (error: Option<SwitchError>)
      modifies session`vouchers, session`taken, session`orderly
      ensures Locked(old(session.taken), old(session.orderly), pin, session.taken, session.orderly)
      ensures match ReverseCharge(old(session.vouchers), pin)
              case Ok(after) => error == None && session.vouchers == after
              case Err(e) => error == Some(e) && session.vouchers == old(session.vouchers)
    {
      session.Take(Want(VoucherRow(pin), false));
      if pin !in session.vouchers {
        return Some(VoucherNotFound);
      }
      var voucher := session.vouchers[pin];
      if voucher.status != Redeemed {
        return Some(NothingToReverse);
      }
      session.vouchers := session.vouchers[pin := voucher.(status := Active, redeemedAt := None)];
      error := None;
    }
  }
}
