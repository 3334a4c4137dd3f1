/**
 What a till is told of its vouchers' deposits: `traces_for_vouchers` in app/deposits.py. The query lists
 attempts newest first, and a fold keeps the newest and counts the rest.
 */
module Traces {
  import opened Wrappers
  import opened Models
  import opened Fees
  import opened Deposits
  import opened Protocol
  import opened Invariant
  import opened Reachable
  import opened Safety
  import opened AtomicMachine
  import Payouts

  datatype Trace = Trace(reference: string, outcome: string, attempts: nat, at: int)

  function TillOutcome(status: DepositStatus): string {
    match status
    case Settled => "paid"
    case Failed => "failed"
    case _ => "in_progress"
  }

  function TraceOf(d: Deposit, attempts: nat): Trace {
    Trace(d.reference, TillOutcome(d.status), attempts, d.createdAt)
  }

  // --- the query ------------------------------------------------------------------------------------

  type Row = (string, Id)

  predicate AttemptOn(vouchers: map<Pin, Voucher>, deposits: seq<Deposit>, id: Id, serial: string) {
    id < |deposits| && deposits[id].pin in vouchers && vouchers[deposits[id].pin].serial == serial
  }

  predicate Wanted(vouchers: map<Pin, Voucher>, deposits: seq<Deposit>, serials: seq<string>, id: Id) {
    id < |deposits| && deposits[id].pin in vouchers && vouchers[deposits[id].pin].serial in serials
  }

  function Attempts(vouchers: map<Pin, Voucher>, deposits: seq<Deposit>, serial: string): set<Id> {
    set id: nat | 0 <= id < |deposits| && AttemptOn(vouchers, deposits, id, serial)
  }

  /** Each row is one of the join's, no deposit is listed twice, and newer ones come first. */
  ghost predicate Placed(vouchers: map<Pin, Voucher>, deposits: seq<Deposit>, serials: seq<string>, rows: seq<Row>) {
    && (forall k :: 0 <= k < |rows| ==> rows[k].0 in serials && AttemptOn(vouchers, deposits, rows[k].1, rows[k].0))
    && (forall j, k :: 0 <= j < k < |rows| ==> rows[j].1 != rows[k].1)
    && (forall j, k :: 0 <= j < k < |rows| ==> deposits[rows[j].1].createdAt >= deposits[rows[k].1].createdAt)
  }

  /** All the join's rows for these serials. */
  ghost predicate Listing(vouchers: map<Pin, Voucher>, deposits: seq<Deposit>, serials: seq<string>, rows: seq<Row>) {
    && Placed(vouchers, deposits, serials, rows)
    && (forall id: Id, serial :: serial in serials && AttemptOn(vouchers, deposits, id, serial) ==>
        (serial, id) in rows)
  }

  function CountOf(rows: seq<Row>, serial: string): nat {
    if rows == [] then 0
    else CountOf(rows[..|rows| - 1], serial) + if rows[|rows| - 1].0 == serial then 1 else 0
  }

  function FirstOf(rows: seq<Row>, serial: string): Option<Id> {
    if rows == [] then None
    else
      var before := FirstOf(rows[..|rows| - 1], serial);
      if before.Some? then before
      else if rows[|rows| - 1].0 == serial then Some(rows[|rows| - 1].1)
      else None
  }

  function IdsOf(rows: seq<Row>, serial: string): set<Id> {
    set k | 0 <= k < |rows| && rows[k].0 == serial :: rows[k].1
  }

  lemma {:induction false} CountsIds(rows: seq<Row>, serial: string)
    requires forall j, k :: 0 <= j < k < |rows| ==> rows[j].1 != rows[k].1
    ensures CountOf(rows, serial) == |IdsOf(rows, serial)|
  {
    if rows != [] {
      var n := |rows| - 1;
      CountsIds(rows[..n], serial);
      assert IdsOf(rows, serial) == IdsOf(rows[..n], serial) + if rows[n].0 == serial then {rows[n].1} else {};
    }
  }

  lemma {:induction false} FirstIs(rows: seq<Row>, serial: string)
    ensures match FirstOf(rows, serial)
            case None => forall k :: 0 <= k < |rows| ==> rows[k].0 != serial
            case Some(id) =>
              exists k :: 0 <= k < |rows| && rows[k] == (serial, id) && forall j :: 0 <= j < k ==> rows[j].0 != serial
  {
    if rows != [] {
      var n := |rows| - 1;
      FirstIs(rows[..n], serial);
      if FirstOf(rows[..n], serial).Some? {
        var k :| 0 <= k < n && rows[..n][k] == (serial, FirstOf(rows[..n], serial).value)
                 && forall j :: 0 <= j < k ==> rows[..n][j].0 != serial;
        assert forall j :: 0 <= j < k ==> rows[j] == rows[..n][j];
        assert rows[k] == (serial, FirstOf(rows, serial).value);
      } else {
        assert forall j :: 0 <= j < n ==> rows[j] == rows[..n][j];
      }
    }
  }

  // --- what a trace says ------------------------------------------------------------------------------

  predicate IsLatest(deposits: seq<Deposit>, among: set<Id>, id: Id) {
    id in among && id < |deposits|
    && forall other :: other in among && other < |deposits| ==> deposits[other].createdAt <= deposits[id].createdAt
  }

  /** The trace is the newest attempt's reference, outcome and time, with the number of attempts. */
  ghost predicate Tells(t: Tables, serial: string, trace: Trace) {
    var attempts := Attempts(t.vouchers, t.deposits, serial);
    exists id: Id ::
      && IsLatest(t.deposits, attempts, id)
      && var d := t.deposits[id];
         && trace.reference == d.reference && trace.at == d.createdAt && trace.attempts == |attempts|
         && trace.outcome == if d.status == Settled then "paid"
                             else if d.status == Failed then "failed" else "in_progress"
  }

  lemma FoldTells(t: Tables, serials: seq<string>, rows: seq<Row>, serial: string)
    requires Listing(t.vouchers, t.deposits, serials, rows)
    ensures match FirstOf(rows, serial)
            case None => !(serial in serials && Attempts(t.vouchers, t.deposits, serial) != {})
            case Some(id) =>
              serial in serials && id < |t.deposits| && Tells(t, serial, TraceOf(t.deposits[id], CountOf(rows, serial)))
  {
    FirstIs(rows, serial);
    CountsIds(rows, serial);
    hide CountOf, FirstOf, TillOutcome;
    var attempts := Attempts(t.vouchers, t.deposits, serial);
    match FirstOf(rows, serial)
    case None =>
      forall id: Id | serial in serials
        ensures !AttemptOn(t.vouchers, t.deposits, id, serial)
      {
        NotListed(rows, serial, id);
      }
    case Some(id) =>
      assert attempts == IdsOf(rows, serial) by {
        forall i | i in attempts
          ensures i in IdsOf(rows, serial)
        {
          assert (serial, i) in rows;
        }
      }
      assert IsLatest(t.deposits, attempts, id);
  }

  lemma NotListed(rows: seq<Row>, serial: string, id: Id)
    requires FirstOf(rows, serial).None?
    ensures (serial, id) !in rows
  {
    FirstIs(rows, serial);
  }

  /** The newest of some deposits. */
  method Newest(deposits: seq<Deposit>, among: set<Id>) returns (newest: Id)
    requires among != {} && forall id :: id in among ==> id < |deposits|
    ensures IsLatest(deposits, among, newest)
  {
    newest :| newest in among;
    var rest := among - {newest};
    while rest != {}
      invariant rest <= among && newest in among
      invariant forall id :: id in among && id !in rest ==> deposits[id].createdAt <= deposits[newest].createdAt
      decreases rest
    {
      var id :| id in rest;
      if deposits[id].createdAt > deposits[newest].createdAt {
        newest := id;
      }
      rest := rest - {id};
    }
  }

  /** The query. */
  method List(session: Session, serials: seq<string>) returns (rows: seq<Row>)
    ensures Listing(session.vouchers, session.deposits, serials, rows)
  {
    var vouchers, deposits := session.vouchers, session.deposits;
    var left := set id: nat | 0 <= id < |deposits| && Wanted(vouchers, deposits, serials, id);
    rows := [];
    while left != {}
      invariant forall id :: id in left ==> Wanted(vouchers, deposits, serials, id)
      invariant Placed(vouchers, deposits, serials, rows)
      invariant forall id: Id :: Wanted(vouchers, deposits, serials, id) ==> id in left || IsListed(rows, id)
      invariant forall k :: 0 <= k < |rows| ==> rows[k].1 !in left
      invariant forall k, id :: 0 <= k < |rows| && id in left ==>
              deposits[rows[k].1].createdAt >= deposits[id].createdAt
      decreases left
    {
      hide Wanted;
      ghost var before := rows;
      var id := Newest(deposits, left);
      assert Wanted(vouchers, deposits, serials, id);
      PlaceNext(vouchers, deposits, serials, rows, id);
      rows, left := rows + [(vouchers[deposits[id].pin].serial, id)], left - {id};
      ListMore(before, rows[|before|]);
    }
    AllListed(vouchers, deposits, serials, rows);
  }

  predicate IsListed(rows: seq<Row>, id: Id) {
    exists k :: 0 <= k < |rows| && rows[k].1 == id
  }

  lemma ListMore(rows: seq<Row>, row: Row)
    ensures forall id: Id :: IsListed(rows, id) ==> IsListed(rows + [row], id)
    ensures IsListed(rows + [row], row.1)
  {
    assert (rows + [row])[|rows|] == row;
    forall id: Id | IsListed(rows, id)
      ensures IsListed(rows + [row], id)
    {
      var k :| 0 <= k < |rows| && rows[k].1 == id;
      assert (rows + [row])[k].1 == id;
    }
  }

  lemma PlaceNext(vouchers: map<Pin, Voucher>, deposits: seq<Deposit>, serials: seq<string>, rows: seq<Row>, id: Id)
    requires Placed(vouchers, deposits, serials, rows) && Wanted(vouchers, deposits, serials, id)
    requires forall k :: 0 <= k < |rows| ==> rows[k].1 != id && deposits[rows[k].1].createdAt >= deposits[id].createdAt
    ensures Placed(vouchers, deposits, serials, rows + [(vouchers[deposits[id].pin].serial, id)])
  {
  }

  lemma AllListed(vouchers: map<Pin, Voucher>, deposits: seq<Deposit>, serials: seq<string>, rows: seq<Row>)
    requires Placed(vouchers, deposits, serials, rows)
    requires forall id: Id :: Wanted(vouchers, deposits, serials, id) ==> IsListed(rows, id)
    ensures Listing(vouchers, deposits, serials, rows)
  {
    forall id: Id, serial | serial in serials && AttemptOn(vouchers, deposits, id, serial)
      ensures (serial, id) in rows
    {
      assert Wanted(vouchers, deposits, serials, id);
      var k :| 0 <= k < |rows| && rows[k].1 == id;
      assert rows[k] == (serial, id);
    }
  }

  /** `traces_for_vouchers`. */
  method TracesForVouchers(session: Session, serials: seq<string>) returns (traces: map<string, Trace>)
    requires session.Clean()
    ensures forall serial :: serial in traces <==>
              serial in serials && Attempts(session.vouchers, session.deposits, serial) != {}
    ensures forall serial :: serial in traces ==> Tells(session.Rows(), serial, traces[serial])
  {
    traces := map[];
    if serials == [] {
      return;
    }
    var rows := List(session, serials);
    var deposits := session.deposits;
    for n := 0 to |rows|
      invariant forall serial ::
                  match FirstOf(rows[..n], serial)
                  case None => serial !in traces
                  case Some(id) =>
                    && id < |deposits| && serial in traces
                    && traces[serial] == TraceOf(deposits[id], CountOf(rows[..n], serial))
    {
      assert rows[..n + 1][..n] == rows[..n];
      var (serial, id) := rows[n];
      if serial !in traces {
        FirstIs(rows[..n], serial);
        NoneCounted(rows[..n], serial);
        traces := traces[serial := TraceOf(deposits[id], 1)];
      } else {
        traces := traces[serial := traces[serial].(attempts := traces[serial].attempts + 1)];
      }
    }
    assert rows[..|rows|] == rows;
    forall serial
      ensures serial in traces <==> serial in serials && Attempts(session.vouchers, session.deposits, serial) != {}
      ensures serial in traces ==> Tells(session.Rows(), serial, traces[serial])
    {
      FoldTells(session.Rows(), serials, rows, serial);
    }
  }

  lemma {:induction false} NoneCounted(rows: seq<Row>, serial: string)
    requires FirstOf(rows, serial).None?
    ensures CountOf(rows, serial) == 0
  {
    if rows != [] {
      NoneCounted(rows[..|rows| - 1], serial);
    }
  }

  // --- what that is worth -----------------------------------------------------------------------------

  /** Of several deals on one voucher, all but the last have failed. */
  predicate OnlyLastLive(deals: seq<Deal>) {
    forall i, j :: 0 <= i < j < |deals| && deals[i].pin == deals[j].pin ==> deals[i].stage == Failed
  }

  lemma NextKeepsLast(s: Settings, m: Machine, m': Machine, e: Event)
    requires Next(s, m, m', e) && OnlyLastLive(m.deals)
    ensures OnlyLastLive(m'.deals)
  {
  }

  /** A voucher is only ever tried again once every earlier deposit of it has failed. */
  lemma {:induction false} EarlierFailed(s: Settings, run: seq<Action>)
    ensures OnlyLastLive(View(Reached(s, run)).deals)
  {
    if run != [] {
      var n := |run| - 1;
      EarlierFailed(s, run[..n]);
      assert run[..n + 1] == run;
      hide OnlyLastLive, View, Next, EventOf;
      RunRefines(s, run, n);
      NextKeepsLast(s, View(Reached(s, run[..n])), View(Reached(s, run)), EventOf(s, Reached(s, run[..n]), run[n]));
    } else {
      ViewStart();
    }
  }

  /** A voucher's deposits carry creation times in the order they were created. */
  predicate InCreationOrder(deposits: seq<Deposit>) {
    forall i, j :: 0 <= i < j < |deposits| && deposits[i].pin == deposits[j].pin ==>
        deposits[i].createdAt < deposits[j].createdAt
  }

  /**
   What a cashier reads off a trace is true: it shows one of the voucher's deposits, every other attempt
   failed, "failed" means exactly that the voucher is active again, "paid" that some deposit settled, and
   "in_progress" that one is still on its way.
   */
  lemma TraceIsTrue(s: Settings, run: seq<Action>, pin: Pin, trace: Trace)
    requires var t := Reached(s, run).t;
             pin in t.vouchers && InCreationOrder(t.deposits) && Tells(t, t.vouchers[pin].serial, trace)
    ensures var t := Reached(s, run).t;
            var attempts := Attempts(t.vouchers, t.deposits, t.vouchers[pin].serial);
            && (forall i: Id :: i in attempts <==> i < |t.deposits| && t.deposits[i].pin == pin)
            && trace.attempts == |attempts|
            && (exists id :: id in attempts
                  && trace.reference == t.deposits[id].reference && trace.at == t.deposits[id].createdAt
                  && forall i :: i in attempts && i != id ==> i < id && t.deposits[i].status == Failed)
            && (trace.outcome == "failed" <==> t.vouchers[pin].status == Active)
            && (trace.outcome == "paid" <==> exists i :: i in attempts && t.deposits[i].status == Settled)
            && (trace.outcome == "in_progress" <==>
                  exists i :: i in attempts && (t.deposits[i].status == Charged || t.deposits[i].status == Paying))
  {
    hide Reached, PcOk, ProcsOk, RowsOk, VouchersAgree, PayoutsOk, UniqueOk, TokensOk, LedgerOk, BalancesOk, BankAgrees;
    ReachedOk(s, run);
    var t := Reached(s, run).t;
    SerialIsPin(s, t, Reached(s, run).bank, Reached(s, run).origin, pin);
    EarlierFailed(s, run);
    DealsAt(t.deposits);
    var attempts := Attempts(t.vouchers, t.deposits, t.vouchers[pin].serial);
    var id :| IsLatest(t.deposits, attempts, id) && trace.reference == t.deposits[id].reference
              && trace.at == t.deposits[id].createdAt && trace.attempts == |attempts|
              && trace.outcome == TillOutcome(t.deposits[id].status);
    forall i | i in attempts && i != id
      ensures i < id && t.deposits[i].status == Failed
    {
      assert View(Reached(s, run)).deals[i].stage == t.deposits[i].status;
    }
    VoucherHeldOnce(s, run, pin);
  }

  lemma SerialIsPin(s: Settings, t: Tables, b: Payouts.Bank<Id>, origin: seq<Token>, pin: Pin)
    requires Consistent(s, t, b, origin) && pin in t.vouchers
    ensures forall i :: i in Attempts(t.vouchers, t.deposits, t.vouchers[pin].serial) <==>
                          0 <= i < |t.deposits| && t.deposits[i].pin == pin
  {
    hide PayoutsOk, UniqueOk, TokensOk, LedgerOk, BalancesOk, BankAgrees;
    forall i: Id | i < |t.deposits|
      ensures AttemptOn(t.vouchers, t.deposits, i, t.vouchers[pin].serial) <==> t.deposits[i].pin == pin
    {
      assert RowOk(s, t.vouchers, t.deposits[i]);
    }
  }
}
