/**
 Any number of tills vending at once. Only the table's unique constraints decide: an insert that meets a
 committed row is refused, one that meets another transaction's uncommitted row waits for it.
 */
module Vends {
  import opened Wrappers
  import opened Models
  import Switch

  type Till = nat

  /** A voucher row, and the transaction that inserted it while that is still open. */
  datatype Row = Row(pin: Pin, voucher: Voucher, open: Option<Till>)

  datatype Progress =
    | Vending(amount: nat, key: Option<string>, tries: nat)
    | Inserted(sold: Switch.VendedVoucher)
    | Answered(sold: Switch.VendedVoucher)
    | VendFailed(tries: nat)
    | Closed

  datatype State = State(rows: seq<Row>, tills: map<Till, Progress>)

  const EMPTY_TABLE := State([], map[])

  datatype Action =
    | Begin(p: Till, amount: nat, key: Option<string>)
    | Try(p: Till, pin: Pin, serial: string, now: int)
    | Commit(p: Till)
    | Abort(p: Till)

  predicate Collides(r: Row, pin: Pin, serial: string) {
    r.pin == pin || r.voucher.serial == serial
  }

  predicate SameKey(r: Row, key: Option<string>) {
    key.Some? && r.voucher.key == key
  }

  /** A row this till's transaction can see: committed, or its own. Any other is open elsewhere. */
  predicate Seen(r: Row, p: Till) {
    r.open.None? || r.open == Some(p)
  }

  predicate MeetsPin(rows: seq<Row>, p: Till, pin: Pin, serial: string, seen: bool) {
    exists i :: 0 <= i < |rows| && Collides(rows[i], pin, serial) && Seen(rows[i], p) == seen
  }

  predicate MeetsKey(rows: seq<Row>, p: Till, key: Option<string>, seen: bool) {
    exists i :: 0 <= i < |rows| && SameKey(rows[i], key) && Seen(rows[i], p) == seen
  }

  /** The first row with this key that the till can see. */
  function FindKey(rows: seq<Row>, p: Till, key: Option<string>): Option<nat> {
    if rows == [] then None
    else if SameKey(rows[0], key) && Seen(rows[0], p) then Some(0)
    else match FindKey(rows[1..], p, key) case Some(i) => Some(i + 1) case None => None
  }

  /** One attempt of `vend`: its savepoint either adds the row or leaves everything alone. */
  function Attempt(s: State, p: Till, amount: nat, key: Option<string>, tries: nat, pin: Pin, serial: string, now: int)
    : State
  {
    if MeetsPin(s.rows, p, pin, serial, true) then
      s.(tills := s.tills[p :=
        if tries + 1 < Switch.MAX_VEND_ATTEMPTS then Vending(amount, key, tries + 1) else VendFailed(tries + 1)])
    else if MeetsPin(s.rows, p, pin, serial, false) then s
    else if MeetsKey(s.rows, p, key, true) then
      match FindKey(s.rows, p, key)
      case Some(i) =>
        if i < |s.rows| then
          var (pin, v) := (s.rows[i].pin, s.rows[i].voucher);
          s.(tills := s.tills[p := Answered(Switch.VendedVoucher(pin, v.serial, v.amount, v.issuedAt, true))])
        else s
      case None => s
    else if MeetsKey(s.rows, p, key, false) then s
    else State(s.rows + [Row(pin, Voucher(amount, Active, None, now, serial, key), Some(p))],
               s.tills[p := Inserted(Switch.VendedVoucher(pin, serial, amount, now, false))])
  }

  function Settle(rows: seq<Row>, p: Till): seq<Row> {
    if rows == [] then []
    else [if rows[0].open == Some(p) then rows[0].(open := None) else rows[0]] + Settle(rows[1..], p)
  }

  function Discard(rows: seq<Row>, p: Till): seq<Row> {
    if rows == [] then []
    else (if rows[0].open == Some(p) then [] else [rows[0]]) + Discard(rows[1..], p)
  }

  /** In the middle of a call to `vend`. */
  predicate Busy(s: State, p: Till) {
    p in s.tills && s.tills[p].Vending?
  }

  /** A till may vend any number of times in one transaction, which its caller commits or aborts. */
  function Step(s: State, a: Action): State {
    match a
    case Begin(p, amount, key) => if Busy(s, p) then s else s.(tills := s.tills[p := Vending(amount, key, 0)])
    case Try(p, pin, serial, now) =>
      if p in s.tills && s.tills[p].Vending? then
        Attempt(s, p, s.tills[p].amount, s.tills[p].key, s.tills[p].tries, pin, serial, now)
      else s
    case Commit(p) => if p !in s.tills || Busy(s, p) then s else State(Settle(s.rows, p), s.tills[p := Closed])
    case Abort(p) => if p in s.tills then State(Discard(s.rows, p), s.tills[p := Closed]) else s
  }

  function After(s: State, run: seq<Action>): State {
    if run == [] then s else Step(After(s, run[..|run| - 1]), run[|run| - 1])
  }

  // --- uniqueness ---------------------------------------------------------------------------------------

  predicate Apart(a: Row, b: Row) {
    && a.pin != b.pin && a.voucher.serial != b.voucher.serial
    && (a.voucher.key.Some? ==> a.voucher.key != b.voucher.key)
  }

  predicate Unique(rows: seq<Row>) {
    forall i, j :: 0 <= i < j < |rows| ==> Apart(rows[i], rows[j])
  }

  lemma {:induction false} SettleKeeps(rows: seq<Row>, p: Till)
    ensures |Settle(rows, p)| == |rows|
    ensures forall i :: 0 <= i < |rows| ==>
              Settle(rows, p)[i] == if rows[i].open == Some(p) then rows[i].(open := None) else rows[i]
  {
    if rows != [] {
      SettleKeeps(rows[1..], p);
    }
  }

  /** Aborting takes out the till's own rows and nothing else. */
  lemma {:induction false} DiscardKeeps(rows: seq<Row>, p: Till)
    requires Unique(rows)
    ensures Unique(Discard(rows, p))
    ensures forall r :: r in Discard(rows, p) <==> r in rows && r.open != Some(p)
  {
    if rows != [] {
      DiscardKeeps(rows[1..], p);
      var rest := Discard(rows[1..], p);
      assert rows == [rows[0]] + rows[1..];
      forall k | 0 <= k < |rest|
        ensures Apart(rows[0], rest[k])
      {
        assert rest[k] in rows[1..];
      }
    }
  }

  lemma {:induction false} KeyFound(rows: seq<Row>, p: Till, key: Option<string>)
    ensures match FindKey(rows, p, key)
            case Some(i) => i < |rows| && SameKey(rows[i], key) && Seen(rows[i], p)
            case None => !MeetsKey(rows, p, key, true)
  {
    if rows != [] {
      KeyFound(rows[1..], p, key);
      if FindKey(rows, p, key).None? {
        forall i | 0 <= i < |rows|
          ensures !(SameKey(rows[i], key) && Seen(rows[i], p))
        {
          assert i > 0 ==> rows[i] == rows[1..][i - 1];
        }
      }
    }
  }

  lemma StepUnique(s: State, a: Action)
    requires Unique(s.rows)
    ensures Unique(Step(s, a).rows)
  {
    match a
    case Commit(p) => SettleKeeps(s.rows, p);
    case Abort(p) => DiscardKeeps(s.rows, p);
    case Try(p, pin, serial, _) =>
      if Step(s, a).rows != s.rows {
        forall i | 0 <= i < |s.rows|
          ensures !Collides(s.rows[i], pin, serial) && !SameKey(s.rows[i], s.tills[p].key)
        {
        }
      }
    case _ =>
  }

  /** Under any interleaving: no two vouchers share a PIN, a serial or a key. */
  lemma {:induction false} VouchersUnique(run: seq<Action>)
    ensures Unique(After(EMPTY_TABLE, run).rows)
  {
    if run != [] {
      VouchersUnique(run[..|run| - 1]);
      StepUnique(After(EMPTY_TABLE, run[..|run| - 1]), run[|run| - 1]);
    }
  }

  // --- savepoints -----------------------------------------------------------------------------------------

  /** An attempt that does not insert its row leaves every row there was, the till's own earlier ones among them. */
  lemma AttemptUndoesItself(s: State, p: Till, pin: Pin, serial: string, now: int)
    ensures var s' := Step(s, Try(p, pin, serial, now));
            if Busy(s, p) && s'.tills[p].Inserted? then
              && s'.rows == s.rows + [Row(pin, Voucher(s.tills[p].amount, Active, None, now, serial, s.tills[p].key),
                                          Some(p))]
              && forall i :: 0 <= i < |s.rows| ==> Apart(s.rows[i], s'.rows[|s.rows|])
            else s'.rows == s.rows
    ensures Busy(s, p) && MeetsPin(s.rows, p, pin, serial, true) ==>
              Step(s, Try(p, pin, serial, now)).tills[p] ==
              if s.tills[p].tries + 1 < Switch.MAX_VEND_ATTEMPTS then s.tills[p].(tries := s.tills[p].tries + 1)
              else VendFailed(s.tills[p].tries + 1)
  {
    if Busy(s, p) && Step(s, Try(p, pin, serial, now)).tills[p].Inserted? {
      var key := s.tills[p].key;
      forall i | 0 <= i < |s.rows|
        ensures !Collides(s.rows[i], pin, serial) && !SameKey(s.rows[i], key)
      {
        assert Seen(s.rows[i], p) || !Seen(s.rows[i], p);
      }
    }
  }

  /** A commit makes exactly the till's own rows everyone's, and an abort, even in mid-sale, takes exactly them away. */
  lemma EndsTransaction(s: State, p: Till)
    requires Unique(s.rows) && p in s.tills
    ensures var s' := Step(s, Abort(p));
            && s'.tills == s.tills[p := Closed]
            && forall r :: r in s'.rows <==> r in s.rows && r.open != Some(p)
    ensures var s' := Step(s, Commit(p));
            if Busy(s, p) then s' == s
            else
              && s'.tills == s.tills[p := Closed] && |s'.rows| == |s.rows|
              && forall i :: 0 <= i < |s.rows| ==>
                   s'.rows[i] == if s.rows[i].open == Some(p) then s.rows[i].(open := None) else s.rows[i]
  {
    DiscardKeeps(s.rows, p);
    SettleKeeps(s.rows, p);
  }

  /** What a till has inserted stays, whoever vends, until its own transaction ends. */
  lemma {:induction false} EarlierWorkStays(s: State, p: Till, r: Row, more: seq<Action>)
    requires Unique(s.rows) && r in s.rows && r.open == Some(p)
    requires forall n :: 0 <= n < |more| ==> more[n] != Commit(p) && more[n] != Abort(p)
    ensures Unique(After(s, more).rows) && r in After(s, more).rows
  {
    if more != [] {
      var before, last := more[..|more| - 1], more[|more| - 1];
      EarlierWorkStays(s, p, r, before);
      var w := After(s, before);
      StepUnique(w, last);
      match last
      case Commit(q) =>
        SettleKeeps(w.rows, q);
        var i :| 0 <= i < |w.rows| && w.rows[i] == r;
        assert Settle(w.rows, q)[i] == r;
      case Abort(q) => DiscardKeeps(w.rows, q);
      case Try(q, pin, serial, now) => AttemptUndoesItself(w, q, pin, serial, now);
      case Begin(_, _, _) =>
    }
  }

  // --- a key already sold ----------------------------------------------------------------------------------

  /** This till's call can only end with the sale already made, or five collisions; it has inserted nothing. */
  ghost predicate Repeating(s: State, p: Till, sold: Row, start: seq<Row>) {
    && sold in s.rows && sold.open.None? && Unique(s.rows)
    && (forall r :: r in s.rows && r.open == Some(p) ==> r in start)
    && p in s.tills
    && match s.tills[p]
       case Vending(_, key, tries) => key == sold.voucher.key && tries < Switch.MAX_VEND_ATTEMPTS
       case Answered(r) =>
         && r.replayed && r.pin == sold.pin && r.serial == sold.voucher.serial
         && r.amount == sold.voucher.amount && r.issuedAt == sold.voucher.issuedAt
       case VendFailed(tries) => tries == 5
       case Closed => true
       case Inserted(_) => false
  }

  lemma TryRepeats(s: State, p: Till, pin: Pin, serial: string, now: int, sold: Row, start: seq<Row>)
    requires Repeating(s, p, sold, start) && sold.voucher.key.Some?
    ensures Repeating(Step(s, Try(p, pin, serial, now)), p, sold, start)
    ensures Step(s, Try(p, pin, serial, now)).rows == s.rows
  {
    if s.tills[p].Vending? {
      var key := s.tills[p].key;
      KeyFound(s.rows, p, key);
      var i :| 0 <= i < |s.rows| && s.rows[i] == sold;
      assert SameKey(s.rows[i], key) && Seen(s.rows[i], p) == true;
      hide FindKey, Unique, MeetsPin;
    }
  }

  lemma OthersRepeat(s: State, a: Action, p: Till, sold: Row, start: seq<Row>)
    requires Repeating(s, p, sold, start) && a.p != p
    ensures Repeating(Step(s, a), p, sold, start)
  {
    hide MeetsPin, MeetsKey, FindKey, Settle, Discard, Unique, Collides;
    StepUnique(s, a);
    match a
    case Commit(q) =>
      SettleKeeps(s.rows, q);
      if Step(s, a) != s {
        var i :| 0 <= i < |s.rows| && s.rows[i] == sold;
        assert Step(s, a).rows[i] == sold;
      }
    case Abort(q) => DiscardKeeps(s.rows, q);
    case Try(_, _, _, _) =>
    case Begin(_, _, _) =>
  }

  lemma EndRepeats(s: State, a: Action, p: Till, sold: Row, start: seq<Row>)
    requires Repeating(s, p, sold, start) && a.p == p && (a.Commit? || a.Abort?)
    ensures Repeating(Step(s, a), p, sold, start)
  {
    StepUnique(s, a);
    match a
    case Commit(_) =>
      SettleKeeps(s.rows, p);
      var i :| 0 <= i < |s.rows| && s.rows[i] == sold;
      assert Settle(s.rows, p)[i] == sold;
    case Abort(_) => DiscardKeeps(s.rows, p);
  }

  /**
   Once a sale under a key is committed, a call with that key inserts nothing, whoever races and whatever the
   till has already done in its transaction: it reports that voucher with the amount first vended, or fails after
   exactly five collisions.
   */
  lemma {:induction false} RepeatedSale(run: seq<Action>, p: Till, amount: nat, sold: Row, more: seq<Action>)
    requires sold in After(EMPTY_TABLE, run).rows && sold.open.None? && sold.voucher.key.Some?
    requires !Busy(After(EMPTY_TABLE, run), p)
    requires forall n :: 0 <= n < |more| && more[n].Begin? ==> more[n].p != p
    ensures var s := After(EMPTY_TABLE, run);
            Repeating(After(Step(s, Begin(p, amount, sold.voucher.key)), more), p, sold, s.rows)
  {
    var start := After(EMPTY_TABLE, run);
    var s := Step(start, Begin(p, amount, sold.voucher.key));
    if more == [] {
      VouchersUnique(run);
    } else {
      var before, last := more[..|more| - 1], more[|more| - 1];
      RepeatedSale(run, p, amount, sold, before);
      var w := After(s, before);
      hide Repeating;
      if last.p != p {
        OthersRepeat(w, last, p, sold, start.rows);
      } else {
        match last
        case Try(_, pin, serial, now) => TryRepeats(w, p, pin, serial, now, sold, start.rows);
        case _ => EndRepeats(w, last, p, sold, start.rows);
      }
    }
  }

  // --- one till alone -----------------------------------------------------------------------------------

  /** The vouchers a till sees when no other transaction is open. */
  ghost function Table(rows: seq<Row>): Switch.Vouchers {
    if rows == [] then map[]
    else var n := |rows| - 1; Table(rows[..n])[rows[n].pin := rows[n].voucher]
  }

  lemma {:induction false} TableHas(rows: seq<Row>)
    requires Unique(rows)
    ensures forall i :: 0 <= i < |rows| ==> rows[i].pin in Table(rows) && Table(rows)[rows[i].pin] == rows[i].voucher
    ensures forall pin :: pin in Table(rows) ==> exists i :: 0 <= i < |rows| && rows[i].pin == pin
  {
    if rows != [] {
      var n := |rows| - 1;
      TableHas(rows[..n]);
      forall i | 0 <= i < n
        ensures rows[i].pin in Table(rows) && Table(rows)[rows[i].pin] == rows[i].voucher
      {
        assert rows[..n][i] == rows[i] && Apart(rows[i], rows[n]);
      }
      forall pin | pin in Table(rows)
        ensures exists i :: 0 <= i < |rows| && rows[i].pin == pin
      {
        if pin != rows[n].pin {
          var i :| 0 <= i < n && rows[..n][i].pin == pin;
          assert rows[i].pin == pin;
        }
      }
    }
  }

  predicate Alone(rows: seq<Row>, p: Till) {
    forall i :: 0 <= i < |rows| ==> rows[i].open == None || rows[i].open == Some(p)
  }

  /** What a till alone meets is what the table holds. */
  lemma MeetsTheTable(rows: seq<Row>, p: Till, pin: Pin, serial: string, key: Option<string>)
    requires Unique(rows) && Alone(rows, p)
    ensures MeetsPin(rows, p, pin, serial, true) == Switch.Collides(Table(rows), pin, serial)
    ensures !MeetsPin(rows, p, pin, serial, false) && !MeetsKey(rows, p, key, false)
    ensures MeetsKey(rows, p, key, true) == Switch.KeyTaken(Table(rows), key)
  {
    TableHas(rows);
    var t := Table(rows);
    forall i | 0 <= i < |rows|
      ensures Collides(rows[i], pin, serial) ==> Switch.Collides(t, pin, serial)
      ensures SameKey(rows[i], key) ==> Switch.KeyTaken(t, key)
    {
      assert t[rows[i].pin] == rows[i].voucher;
      assert SameKey(rows[i], key) ==> Switch.Holds(t, rows[i].pin, key.value);
    }
    forall q | q in t
      ensures q == pin || t[q].serial == serial ==> MeetsPin(rows, p, pin, serial, true)
      ensures key.Some? && Switch.Holds(t, q, key.value) ==> MeetsKey(rows, p, key, true)
    {
      var i :| 0 <= i < |rows| && rows[i].pin == q;
      assert Seen(rows[i], p) == true;
      assert Collides(rows[i], pin, serial) || !(q == pin || t[q].serial == serial);
    }
  }

  /** How a call to `vend` ended, or how far it is. */
  ghost predicate Ended(progress: Progress, r: Result<Switch.VendedVoucher, Switch.SwitchError>) {
    match r
    case Ok(sold) => progress == if sold.replayed then Answered(sold) else Inserted(sold)
    case Err(_) => progress == VendFailed(5)
  }

  lemma TryAlone(s: State, p: Till, pin: Pin, serial: string, now: int)
    requires Unique(s.rows) && Alone(s.rows, p) && Busy(s, p)
    ensures var s' := Step(s, Try(p, pin, serial, now));
            var (amount, key, tries) := (s.tills[p].amount, s.tills[p].key, s.tills[p].tries);
            if Switch.Collides(Table(s.rows), pin, serial) then
              && s'.rows == s.rows && p in s'.tills
              && s'.tills[p] == if tries + 1 < Switch.MAX_VEND_ATTEMPTS then Vending(amount, key, tries + 1)
                                else VendFailed(tries + 1)
            else
              && var (r, vouchers) := Switch.Sale(Table(s.rows), amount, key, [(pin, serial)], now);
                 Table(s'.rows) == vouchers && p in s'.tills && Ended(s'.tills[p], r)
  {
    hide Switch.Collides, Switch.KeyTaken, Unique, Alone, Table, MeetsPin, MeetsKey, FindKey, Switch.Sale;
    var key := s.tills[p].key;
    MeetsTheTable(s.rows, p, pin, serial, key);
    KeyFound(s.rows, p, key);
    if !Switch.Collides(Table(s.rows), pin, serial) {
      if Switch.KeyTaken(Table(s.rows), key) {
        AloneReplays(s, p, FindKey(s.rows, p, key).value, pin, serial, now);
      } else {
        AloneInserts(s, p, pin, serial, now);
      }
    }
  }

  lemma AloneReplays(s: State, p: Till, i: nat, pin: Pin, serial: string, now: int)
    requires Unique(s.rows) && Busy(s, p) && !Switch.Collides(Table(s.rows), pin, serial)
    requires i < |s.rows| && SameKey(s.rows[i], s.tills[p].key) && Switch.KeyTaken(Table(s.rows), s.tills[p].key)
    ensures var v := s.rows[i].voucher;
            Switch.Sale(Table(s.rows), s.tills[p].amount, s.tills[p].key, [(pin, serial)], now)
            == (Ok(Switch.VendedVoucher(s.rows[i].pin, v.serial, v.amount, v.issuedAt, true)), Table(s.rows))
  {
    var key := s.tills[p].key.value;
    TableHas(s.rows);
    OneHolder(s.rows, i, key);
    hide Unique, Table, Switch.Collides;
    assert Switch.FirstFree(Table(s.rows), [(pin, serial)]) == 0;
    assert Table(s.rows)[s.rows[i].pin] == s.rows[i].voucher;
  }

  lemma AloneInserts(s: State, p: Till, pin: Pin, serial: string, now: int)
    requires Busy(s, p) && !MeetsPin(s.rows, p, pin, serial, true) && !MeetsPin(s.rows, p, pin, serial, false)
    requires !MeetsKey(s.rows, p, s.tills[p].key, true) && !MeetsKey(s.rows, p, s.tills[p].key, false)
    requires !Switch.Collides(Table(s.rows), pin, serial) && !Switch.KeyTaken(Table(s.rows), s.tills[p].key)
    ensures var s' := Step(s, Try(p, pin, serial, now));
            && var (r, vouchers) := Switch.Sale(Table(s.rows), s.tills[p].amount, s.tills[p].key, [(pin, serial)], now);
               Table(s'.rows) == vouchers && p in s'.tills && Ended(s'.tills[p], r)
  {
    hide MeetsPin, MeetsKey, Switch.Collides, Switch.KeyTaken;
    assert Switch.FirstFree(Table(s.rows), [(pin, serial)]) == 0;
    assert Step(s, Try(p, pin, serial, now)).rows[..|s.rows|] == s.rows;
  }

  lemma OneHolder(rows: seq<Row>, i: nat, key: string)
    requires Unique(rows) && i < |rows| && rows[i].voucher.key == Some(key)
    ensures forall pin :: Switch.Holds(Table(rows), pin, key) ==> pin == rows[i].pin
  {
    TableHas(rows);
    hide Table, Unique;
    forall pin | Switch.Holds(Table(rows), pin, key)
      ensures pin == rows[i].pin
    {
      var j :| 0 <= j < |rows| && rows[j].pin == pin;
      KeyIsOne(rows, i, j, key);
    }
  }

  lemma KeyIsOne(rows: seq<Row>, i: nat, j: nat, key: string)
    requires Unique(rows) && i < |rows| && j < |rows|
    requires rows[i].voucher.key == rows[j].voucher.key == Some(key)
    ensures i == j
  {
  }

  function Tries(p: Till, candidates: seq<(Pin, string)>, now: int): seq<Action> {
    if candidates == [] then []
    else
      var n := |candidates| - 1;
      Tries(p, candidates[..n], now) + [Try(p, candidates[n].0, candidates[n].1, now)]
  }

  lemma FirstFreeSells(vouchers: Switch.Vouchers, amount: nat, key: Option<string>, candidates: seq<(Pin, string)>,
                       now: int)
    requires Switch.FirstFree(vouchers, candidates) < |candidates|
    ensures var i := Switch.FirstFree(vouchers, candidates);
            Switch.Sale(vouchers, amount, key, [candidates[i]], now)
            == Switch.Sale(vouchers, amount, key, candidates, now)
  {
    var i := Switch.FirstFree(vouchers, candidates);
    assert Switch.FirstFree(vouchers, [candidates[i]]) == 0;
  }

  lemma DoneTrying(w: State, p: Till, pin: Pin, serial: string, now: int)
    requires !Busy(w, p)
    ensures Step(w, Try(p, pin, serial, now)) == w
  {
  }

  lemma AloneNext(w: State, p: Till, amount: nat, key: Option<string>, candidates: seq<(Pin, string)>, k: nat, now: int)
    requires Unique(w.rows) && Alone(w.rows, p) && p in w.tills && w.tills[p] == Vending(amount, key, k)
    requires |candidates| == 5
    requires k < |candidates| && k <= Switch.FirstFree(Table(w.rows), candidates)
    ensures var s' := Step(w, Try(p, candidates[k].0, candidates[k].1, now));
            && p in s'.tills
            && if k < Switch.FirstFree(Table(w.rows), candidates) && k + 1 < |candidates| then
                 s'.rows == w.rows && s'.tills[p] == Vending(amount, key, k + 1)
               else
                 && var (r, vouchers) := Switch.Sale(Table(w.rows), amount, key, candidates, now);
                    Table(s'.rows) == vouchers && Ended(s'.tills[p], r)
  {
    hide Step, Table, Switch.Collides, Unique, Alone;
    TryAlone(w, p, candidates[k].0, candidates[k].1, now);
    if Switch.FirstFree(Table(w.rows), candidates) < |candidates| {
      FirstFreeSells(Table(w.rows), amount, key, candidates, now);
    }
  }

  lemma OneMoreTry(s: State, p: Till, candidates: seq<(Pin, string)>, k: nat, now: int)
    requires 0 < k <= |candidates|
    ensures After(s, Tries(p, candidates[..k], now)) ==
            Step(After(s, Tries(p, candidates[..k - 1], now)), Try(p, candidates[k - 1].0, candidates[k - 1].1, now))
  {
    hide Step;
    var tries := Tries(p, candidates[..k], now);
    assert candidates[..k][..k - 1] == candidates[..k - 1];
    assert tries[..|tries| - 1] == Tries(p, candidates[..k - 1], now);
  }

  lemma Begun(s: State, p: Till, amount: nat, key: Option<string>)
    requires !Busy(s, p)
    ensures var s' := Step(s, Begin(p, amount, key));
            s'.rows == s.rows && p in s'.tills && s'.tills[p] == Vending(amount, key, 0)
  {
  }

  /** Where the first `k` candidates leave a till alone. */
  lemma {:induction false} AloneSoFar(s: State, p: Till, amount: nat, key: Option<string>,
                                      candidates: seq<(Pin, string)>, k: nat, now: int)
    requires Unique(s.rows) && Alone(s.rows, p) && !Busy(s, p)
    requires |candidates| == 5 && k <= |candidates|
    ensures var s' := After(Step(s, Begin(p, amount, key)), Tries(p, candidates[..k], now));
            var i := Switch.FirstFree(Table(s.rows), candidates);
            && p in s'.tills
            && if k <= i && k < |candidates| then s'.rows == s.rows && s'.tills[p] == Vending(amount, key, k)
               else
                 && var (r, vouchers) := Switch.Sale(Table(s.rows), amount, key, candidates, now);
                    Table(s'.rows) == vouchers && Ended(s'.tills[p], r)
  {
    hide Attempt, Table, Switch.Collides, Switch.FirstFree, Switch.Sale, Unique, Alone, Step;
    if k == 0 {
      Begun(s, p, amount, key);
    } else {
      AloneSoFar(s, p, amount, key, candidates, k - 1, now);
      OneMoreTry(Step(s, Begin(p, amount, key)), p, candidates, k, now);
      var w := After(Step(s, Begin(p, amount, key)), Tries(p, candidates[..k - 1], now));
      var (pin, serial) := candidates[k - 1];
      hide After, Tries;
      if Busy(w, p) {
        AloneNext(w, p, amount, key, candidates, k - 1, now);
      } else {
        DoneTrying(w, p, pin, serial, now);
      }
    }
  }

  /** With no other transaction open, the attempts come to the sale the switch makes. */
  lemma AloneIsSale(s: State, p: Till, amount: nat, key: Option<string>, candidates: seq<(Pin, string)>, now: int)
    requires Unique(s.rows) && Alone(s.rows, p) && !Busy(s, p) && |candidates| == 5
    ensures var s' := After(Step(s, Begin(p, amount, key)), Tries(p, candidates, now));
            var (r, vouchers) := Switch.Sale(Table(s.rows), amount, key, candidates, now);
            Table(s'.rows) == vouchers && p in s'.tills && Ended(s'.tills[p], r)
  {
    AloneSoFar(s, p, amount, key, candidates, |candidates|, now);
    assert candidates[..|candidates|] == candidates;
  }
}
