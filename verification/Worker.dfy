/**
 The payout worker of app/worker.py: it picks the in-flight deposits that have waited longest and advances
 each, whatever goes wrong with the others.
 */
module Worker {
  import opened Wrappers
  import opened Models
  import opened Fees
  import opened Ledger
  import opened Payouts
  import opened Deposits
  import opened Protocol
  import opened Invariant
  import opened Reachable
  import opened Service
  import opened Undisturbed

  // --- which deposits are due -------------------------------------------------------------------------

  predicate Due(deposits: seq<Deposit>, cutoff: int, id: Id) {
    && id < |deposits| && (deposits[id].status == Charged || deposits[id].status == Paying)
    && deposits[id].updatedAt <= cutoff
  }

  predicate Distinct(ids: seq<Id>) {
    forall i, j :: 0 <= i < j < |ids| ==> ids[i] != ids[j]
  }

  /** The query's answer: due deposits, longest unchanged first, cut off at the batch size. */
  ghost predicate DueList(deposits: seq<Deposit>, cutoff: int, batchSize: nat, ids: seq<Id>) {
    && Distinct(ids) && |ids| <= batchSize
    && (forall i :: 0 <= i < |ids| ==> Due(deposits, cutoff, ids[i]))
    && (forall i, j :: 0 <= i < j < |ids| ==> deposits[ids[i]].updatedAt <= deposits[ids[j]].updatedAt)
    && (forall other: Id :: Due(deposits, cutoff, other) && other !in ids ==>
          |ids| == batchSize && forall i :: 0 <= i < |ids| ==> deposits[ids[i]].updatedAt <= deposits[other].updatedAt)
  }

  function Picked(ids: seq<Id>): set<Id> {
    set id | id in ids
  }

  /** With no more due than fit in a batch, all of them are picked. */
  lemma AllPicked(deposits: seq<Deposit>, cutoff: int, batchSize: nat, ids: seq<Id>, due: set<Id>, id: Id)
    requires DueList(deposits, cutoff, batchSize, ids)
    requires (forall i: Id :: i in due <==> Due(deposits, cutoff, i)) && |due| <= batchSize && id in due
    ensures id in ids
  {
    SetOfDistinct(ids);
    if id !in ids {
      Smaller(Picked(ids), due - {id});
    }
  }

  lemma {:induction false} SetOfDistinct(ids: seq<Id>)
    requires Distinct(ids)
    ensures |Picked(ids)| == |ids|
  {
    if ids != [] {
      var n := |ids| - 1;
      SetOfDistinct(ids[..n]);
      assert ids == ids[..n] + [ids[n]];
      assert Picked(ids) == Picked(ids[..n]) + {ids[n]};
    }
  }

  lemma {:induction false} Smaller(a: set<Id>, b: set<Id>)
    requires a <= b
    ensures |a| <= |b|
  {
    if a != {} {
      var x :| x in a;
      Smaller(a - {x}, b - {x});
    }
  }

  // --- what a pass comes to ---------------------------------------------------------------------------

  /** What the outside decides about one deposit's turn: what others did since the last, and around this one. */
  datatype Turn = Turn(stopping: bool, before: Gap, weather: Weather)

  datatype Pass = Pass(t: Tables, bank: Bank<Id>, advanced: nat)

  /** One deposit's turn: an exception is rolled back and passed over. */
  function Take(t: Tables, bank: Bank<Id>, id: Id, turn: Turn): Pass {
    var (t', bank') := Since(turn.before, t, bank);
    if !turn.weather.held then Pass(t', bank', 0)
    else
      var r := AdvanceRaced(t', bank', id, turn.weather);
      Pass(r.t, r.bank, if r.fault.None? then 1 else 0)
  }

  function PassSpec(t: Tables, bank: Bank<Id>, ids: seq<Id>, turns: seq<Turn>): Pass
    decreases |ids|
  {
    if ids == [] || turns == [] || turns[0].stopping then Pass(t, bank, 0)
    else
      var first := Take(t, bank, ids[0], turns[0]);
      var rest := PassSpec(first.t, first.bank, ids[1..], turns[1..]);
      rest.(advanced := first.advanced + rest.advanced)
  }

  class PayoutWorker {
    const deposits: DepositService
    const minAge: int
    const batchSize: nat

    constructor (deposits: DepositService, minAge: int, batchSize: nat)
      ensures this.deposits == deposits && this.minAge == minAge && this.batchSize == batchSize
    {
      this.deposits, this.minAge, this.batchSize := deposits, minAge, batchSize;
    }

    /** `_due`. */
    method PickDue(session: Session, now: int) returns (ids: seq<Id>)
      ensures DueList(session.deposits, now - minAge, batchSize, ids)
    {
      var rows := session.deposits;
      var cutoff := now - minAge;
      var left := set i: nat | 0 <= i < |rows| && InFlight(rows[i]) && rows[i].updatedAt <= cutoff;
      ids := [];
      while |ids| < batchSize && left != {}
        invariant Distinct(ids) && |ids| <= batchSize
        invariant forall id :: id in ids ==> id !in left
        invariant forall id: Id :: Due(rows, cutoff, id) <==> id in ids || id in left
        invariant forall i :: 0 <= i < |ids| ==> Due(rows, cutoff, ids[i])
        invariant forall i, j :: 0 <= i < j < |ids| ==> rows[ids[i]].updatedAt <= rows[ids[j]].updatedAt
        invariant forall i, other :: 0 <= i < |ids| && other in left ==> rows[ids[i]].updatedAt <= rows[other].updatedAt
        decreases left
      {
        var id := Oldest(rows, left);
        ids, left := ids + [id], left - {id};
      }
    }

    method Oldest(rows: seq<Deposit>, among: set<Id>) returns (oldest: Id)
      requires among != {} && forall id :: id in among ==> id < |rows|
      ensures oldest in among
      ensures forall id :: id in among ==> rows[oldest].updatedAt <= rows[id].updatedAt
    {
      oldest :| oldest in among;
      var rest := among - {oldest};
      while rest != {}
        invariant rest <= among && oldest in among
        invariant forall id :: id in among && id !in rest ==> rows[oldest].updatedAt <= rows[id].updatedAt
        decreases rest
      {
        var id :| id in rest;
        if rows[id].updatedAt < rows[oldest].updatedAt {
          oldest := id;
        }
        rest := rest - {id};
      }
    }

    /** `run_once`: how many deposits it advanced. */
    method RunOnce(session: Session, now: int, turns: seq<Turn>) returns (advanced: nat)
      requires session.Clean() && |turns| >= batchSize
      modifies session, deposits.provider
      ensures session.Clean()
      ensures exists ids :: DueList(old(session.deposits), now - minAge, batchSize, ids)
                && Pass(session.Rows(), deposits.provider.bank, advanced)
                   == PassSpec(old(session.Rows()), old(deposits.provider.bank), ids, turns)
    {
      ghost var t, b := session.Rows(), deposits.provider.bank;
      advanced := 0;
      var ids := PickDue(session, now);
      for n := 0 to |ids|
        invariant session.Clean()
        invariant var rest := PassSpec(session.Rows(), deposits.provider.bank, ids[n..], turns[n..]);
                  PassSpec(t, b, ids, turns) == rest.(advanced := advanced + rest.advanced)
      {
        assert ids[n..][1..] == ids[n + 1..] && turns[n..][1..] == turns[n + 1..];
        var turn := turns[n];
        if turn.stopping {
          break;
        }
        deposits.Meanwhile(session, turn.before);
        var r := deposits.Advance(session, ids[n], turn.weather);
        match r
        case Ok(done) =>
          if done {
            advanced := advanced + 1;
          }
        case Err(_) =>
          session.Rollback();
      }
    }
  }

  // --- what one turn does -------------------------------------------------------------------------------

  /** What the provider would say of this deposit's payout; pending when it has none yet. */
  function OutcomeOf(b: Bank<Id>, id: Id): ProviderStatus {
    if id in b.refs && b.refs[id] in b.payouts then b.payouts[b.refs[id]].outcome else PENDING
  }

  /** Where an in-flight deposit ends up when the provider answers. */
  function Lands(status: DepositStatus, outcome: ProviderStatus): DepositStatus {
    if status != Charged && status != Paying then status
    else
      match outcome.status
      case PayoutCompleted => Settled
      case PayoutFailed => Failed
      case _ => Paying
  }

  /** Only one deposit's row, and only its place at the bank, may have changed. */
  ghost predicate Framed(t: Tables, b: Bank<Id>, t': Tables, b': Bank<Id>, id: Id, newRef: Ref) {
    && |t'.deposits| == |t.deposits|
    && (forall j :: 0 <= j < |t.deposits| && j != id ==> t'.deposits[j] == t.deposits[j])
    && (forall j :: j != id ==> (j in b'.refs <==> j in b.refs))
    && (forall j :: OutcomeOf(b', j) == OutcomeOf(b, j))
    && b'.payouts.Keys <= b.payouts.Keys + {newRef}
  }

  lemma FramesChain(t: Tables, b: Bank<Id>, t1: Tables, b1: Bank<Id>, t2: Tables, id: Id, newRef: Ref)
    requires Framed(t, b, t1, b1, id, newRef) && Framed(t1, b1, t2, b1, id, newRef)
    ensures Framed(t, b, t2, b1, id, newRef)
  {
  }

  predicate Is(t: Tables, id: Id, status: DepositStatus) {
    id < |t.deposits| && t.deposits[id].status == status
  }

  lemma InstructEffect(s: Settings, t: Tables, b: Bank<Id>, origin: seq<Token>, id: Id, link: Link, newRef: Ref,
                       now: int)
    requires Consistent(s, t, b, origin) && CanAnswer(b, id, newRef)
    ensures var r := InstructSpec(t, b, id, link, newRef, now);
            && Consistent(s, r.t, r.bank, origin) && Framed(t, b, r.t, r.bank, id, newRef)
            && (r.fault == if Is(t, id, Charged) && link.Broken? then Some(ProviderFault) else None)
            && if Is(t, id, Charged) && link.Up? then Is(r.t, id, Paying) else r.t == t
  {
    hide Consistent;
    if Is(t, id, Charged) {
      var w := World(t, b, map[], None, origin);
      var d := t.deposits[id];
      PositivePayout(s, w, id, d.payout);
      CreatePayoutAgrees(s, w, id, d.payout, newRef);
      var (b', ref) := Create(b, id, d.payout, newRef);
      hide BankEvolves, Create, OutcomeOf;
      BankAgreement(s, t, b, origin);
      AcceptFrames(b, id, d.payout, newRef);
      if link.Up? {
        InstructKeeps(s, t, b', origin, id, ref, now);
      }
      hide InstructWrite;
    }
  }

  lemma AcceptFrames(b: Bank<Id>, id: Id, amount: Cents, newRef: Ref)
    requires BankOk(b) && CanAnswer(b, id, newRef)
    ensures var b' := Create(b, id, amount, newRef).0;
            && (forall j :: j != id ==> (j in b'.refs <==> j in b.refs))
            && (forall j :: OutcomeOf(b', j) == OutcomeOf(b, j))
            && b'.payouts.Keys <= b.payouts.Keys + {newRef}
  {
    assert forall j :: j in b.refs ==> b.refs[j] in b.payouts;
  }

  lemma BankAgreement(s: Settings, t: Tables, b: Bank<Id>, origin: seq<Token>)
    requires Consistent(s, t, b, origin)
    ensures BankOk(b)
    ensures forall id :: Is(t, id, Paying) ==> id in t.payouts && id in b.refs && t.payouts[id].ref == b.refs[id]
    ensures forall id :: id in b.refs ==> id < |t.deposits|
  {
    hide RowsOk, VouchersAgree, UniqueOk, TokensOk, LedgerOk, BalancesOk;
  }

  lemma AskEffect(s: Settings, t: Tables, b: Bank<Id>, origin: seq<Token>, id: Id, link: Link, newRef: Ref, now: int)
    requires Consistent(s, t, b, origin)
    ensures var r := AskSpec(t, b, id, link, now);
            && r.bank == b && Consistent(s, r.t, b, origin) && Framed(t, b, r.t, b, id, newRef)
            && (r.fault == if Is(t, id, Paying) && link.Broken? then Some(ProviderFault) else None)
            && if Is(t, id, Paying) && link.Up? then Is(r.t, id, Lands(Paying, OutcomeOf(b, id))) else r.t == t
  {
    hide Consistent, BankOk;
    BankAgreement(s, t, b, origin);
    if Is(t, id, Paying) && link.Up? {
      assert b.payouts[b.refs[id]].outcome == OutcomeOf(b, id) by { InBank(b, id); }
      OutcomeKeeps(s, t, b, origin, id, OutcomeOf(b, id), now);
    }
  }

  lemma InBank(b: Bank<Id>, id: Id)
    requires BankOk(b) && id in b.refs
    ensures b.refs[id] in b.payouts
  {
  }

  /** Where an advance with the lock held leaves a deposit: each half moves it on only if its call is answered. */
  function Ends(status: DepositStatus, outcome: ProviderStatus, w: Weather): DepositStatus {
    if status == Charged && !w.instruct.link.Up? then Charged
    else if (status == Charged || status == Paying) && w.ask.link.Up? then Lands(status, outcome)
    else if status == Charged then Paying
    else status
  }

  /** One of the calls it makes raises. */
  predicate Raises(status: DepositStatus, w: Weather) {
    || (status == Charged && (w.instruct.link.Broken? || (w.instruct.link.Up? && w.ask.link.Broken?)))
    || (status == Paying && w.ask.link.Broken?)
  }

  /** An advance with the lock held: what it leaves of its own deposit, and that it leaves the rest alone. */
  lemma AdvanceEffect(s: Settings, t: Tables, b: Bank<Id>, origin: seq<Token>, id: Id, w: Weather)
    requires Consistent(s, t, b, origin) && CanAnswer(b, id, w.instruct.newRef) && Quiet(w) && id < |t.deposits|
    ensures var r := AdvanceRaced(t, b, id, w);
            var status := t.deposits[id].status;
            && Consistent(s, r.t, r.bank, origin) && Framed(t, b, r.t, r.bank, id, w.instruct.newRef)
            && r.fault == (if Raises(status, w) then Some(ProviderFault) else None)
            && Is(r.t, id, Ends(status, OutcomeOf(b, id), w))
            && (Ends(status, OutcomeOf(b, id), w) == status ==> r.t == t || status == Paying)
            && (!w.ask.link.Up? && status == Paying ==> r.t == t)
            && (status != Charged && status != Paying ==> r.t == t)
  {
    hide Consistent, InstructSpec, AskSpec, AdvanceRaced;
    QuietAdvance(t, b, id, w);
    InstructEffect(s, t, b, origin, id, w.instruct.link, w.instruct.newRef, w.instruct.now);
    var r := InstructSpec(t, b, id, w.instruct.link, w.instruct.newRef, w.instruct.now);
    if r.fault.None? {
      AskEffect(s, r.t, r.bank, origin, id, w.ask.link, w.instruct.newRef, w.ask.now);
      FramesChain(t, b, r.t, r.bank, AskSpec(r.t, r.bank, id, w.ask.link, w.ask.now).t, id, w.instruct.newRef);
    }
  }

  // --- what a pass does -----------------------------------------------------------------------------------

  /** Nobody else moves during the turn. */
  predicate Alone(turn: Turn) {
    turn.before.None? && Quiet(turn.weather)
  }

  predicate Uncontended(turns: seq<Turn>) {
    forall k :: 0 <= k < |turns| ==> Alone(turns[k])
  }

  /** Each turn brings the provider a reference it has not given out. */
  ghost predicate FreshRefs(b: Bank<Id>, turns: seq<Turn>) {
    && (forall k :: 0 <= k < |turns| ==> turns[k].weather.instruct.newRef !in b.payouts)
    && (forall j, k :: 0 <= j < k < |turns| ==> turns[j].weather.instruct.newRef != turns[k].weather.instruct.newRef)
  }

  /** The first turn that finds the stop signal set; all of them, if none does. */
  function StopsAt(turns: seq<Turn>): (n: nat)
    ensures n <= |turns|
    ensures forall k :: 0 <= k < n ==> !turns[k].stopping
    ensures n < |turns| ==> turns[n].stopping
  {
    if turns == [] || turns[0].stopping then 0 else 1 + StopsAt(turns[1..])
  }

  predicate Went(deposits: seq<Deposit>, id: Id, turn: Turn) {
    id < |deposits| && turn.weather.held && !Raises(deposits[id].status, turn.weather)
  }

  /** How many deposits' turns find the lock free and meet no exception, before the stop signal. */
  function Good(deposits: seq<Deposit>, ids: seq<Id>, turns: seq<Turn>): nat {
    if ids == [] || turns == [] || turns[0].stopping then 0
    else (if Went(deposits, ids[0], turns[0]) then 1 else 0) + Good(deposits, ids[1..], turns[1..])
  }

  /** What a turn makes of an in-flight deposit's row. */
  predicate Turned(t: Tables, b: Bank<Id>, t': Tables, id: Id, turn: Turn) {
    && id < |t.deposits| && id < |t'.deposits|
    && var d, d' := t.deposits[id], t'.deposits[id];
      if !turn.weather.held then d' == d
      else
        && d'.status == Ends(d.status, OutcomeOf(b, id), turn.weather)
        && ((if d.status == Charged then !turn.weather.instruct.link.Up? else !turn.weather.ask.link.Up?) ==> d' == d)
  }

  /** A turn leaves the invariant, the other deposits, and fresh references for the turns to come. */
  lemma TakeEffect(s: Settings, t: Tables, b: Bank<Id>, origin: seq<Token>, ids: seq<Id>, turns: seq<Turn>)
    requires Consistent(s, t, b, origin) && Distinct(ids) && |ids| == |turns| > 0
    requires FreshRefs(b, turns) && Uncontended(turns)
    requires forall k :: 0 <= k < |ids| ==> ids[k] < |t.deposits| && InFlight(t.deposits[ids[k]])
    ensures var first := Take(t, b, ids[0], turns[0]);
            && Consistent(s, first.t, first.bank, origin)
            && Framed(t, b, first.t, first.bank, ids[0], turns[0].weather.instruct.newRef)
            && FreshRefs(first.bank, turns[1..]) && Uncontended(turns[1..])
            && first.advanced == (if Went(t.deposits, ids[0], turns[0]) then 1 else 0)
            && Turned(t, b, first.t, ids[0], turns[0])
  {
    hide Consistent, AdvanceRaced, Lands, OutcomeOf;
    assert Alone(turns[0]);
    AdvanceEffect(s, t, b, origin, ids[0], turns[0].weather);
    SameFrame(t, b, ids[0], turns[0].weather.instruct.newRef);
  }

  lemma SameFrame(t: Tables, b: Bank<Id>, id: Id, newRef: Ref)
    ensures Framed(t, b, t, b, id, newRef)
  {
  }

  /** Deposits whose rows are as they were count the same. */
  lemma {:induction false} SameGood(deposits: seq<Deposit>, after: seq<Deposit>, ids: seq<Id>, turns: seq<Turn>)
    requires |after| == |deposits|
    requires forall k :: 0 <= k < |ids| && ids[k] < |deposits| ==> after[ids[k]] == deposits[ids[k]]
    ensures Good(after, ids, turns) == Good(deposits, ids, turns)
  {
    if ids != [] && turns != [] {
      SameGood(deposits, after, ids[1..], turns[1..]);
    }
  }

  /**
   One uncontended pass: until the stop signal, the k-th deposit's row is what its own turn makes of it, whatever
   happened in the other turns, and as it was if the lock was taken or the provider did not answer; deposits not
   picked, or picked and not reached before the stop signal, are not touched; and the count is of the turns that
   went well.
   */
  lemma {:induction false} PassEffect(s: Settings, t: Tables, b: Bank<Id>, origin: seq<Token>, ids: seq<Id>,
                                      turns: seq<Turn>)
    requires Consistent(s, t, b, origin) && Distinct(ids) && |ids| == |turns|
    requires FreshRefs(b, turns) && Uncontended(turns)
    requires forall k :: 0 <= k < |ids| ==> ids[k] < |t.deposits| && InFlight(t.deposits[ids[k]])
    ensures var p := PassSpec(t, b, ids, turns);
            && Consistent(s, p.t, p.bank, origin) && |p.t.deposits| == |t.deposits|
            && p.advanced == Good(t.deposits, ids, turns)
            && (forall j :: 0 <= j < |t.deposits| && j !in ids ==> p.t.deposits[j] == t.deposits[j])
            && (forall k :: 0 <= k < StopsAt(turns) ==> Turned(t, b, p.t, ids[k], turns[k]))
            && (forall k :: StopsAt(turns) <= k < |ids| ==> p.t.deposits[ids[k]] == t.deposits[ids[k]])
    decreases |ids|
  {
    hide Consistent;
    if ids != [] && !turns[0].stopping {
      TakeEffect(s, t, b, origin, ids, turns);
      hide Take, FreshRefs, OutcomeOf, Uncontended, Ends, Went;
      var first := Take(t, b, ids[0], turns[0]);
      assert forall k :: 0 <= k < |ids| - 1 ==> ids[1..][k] == ids[k + 1] && ids[1..][k] != ids[0];
      PassEffect(s, first.t, first.bank, origin, ids[1..], turns[1..]);
      SameGood(t.deposits, first.t.deposits, ids[1..], turns[1..]);
      PassRows(t, b, ids, turns, first);
    }
  }

  /** The rows after a whole pass, from those after the first turn and after the rest. */
  lemma PassRows(t: Tables, b: Bank<Id>, ids: seq<Id>, turns: seq<Turn>, first: Pass)
    requires |ids| == |turns| > 0 && !turns[0].stopping && Distinct(ids)
    requires forall k :: 0 <= k < |ids| ==> ids[k] < |t.deposits|
    requires first == Take(t, b, ids[0], turns[0])
    requires Framed(t, b, first.t, first.bank, ids[0], turns[0].weather.instruct.newRef)
    requires Turned(t, b, first.t, ids[0], turns[0])
    requires var p := PassSpec(first.t, first.bank, ids[1..], turns[1..]);
             && |p.t.deposits| == |t.deposits|
             && (forall j :: 0 <= j < |t.deposits| && j !in ids[1..] ==> p.t.deposits[j] == first.t.deposits[j])
             && (forall k :: 0 <= k < StopsAt(turns[1..]) ==>
                   Turned(first.t, first.bank, p.t, ids[1..][k], turns[1..][k]))
             && (forall k :: StopsAt(turns[1..]) <= k < |ids| - 1 ==>
                   p.t.deposits[ids[1..][k]] == first.t.deposits[ids[1..][k]])
    ensures var p := PassSpec(t, b, ids, turns);
            && (forall k :: 0 <= k < StopsAt(turns) ==> Turned(t, b, p.t, ids[k], turns[k]))
            && (forall k :: StopsAt(turns) <= k < |ids| ==> p.t.deposits[ids[k]] == t.deposits[ids[k]])
  {
    hide Take, Ends, OutcomeOf;
    var p := PassSpec(t, b, ids, turns);
    assert ids[0] !in ids[1..] by {
      assert forall k :: 0 <= k < |ids| - 1 ==> ids[1..][k] == ids[k + 1];
    }
    forall k | 0 <= k < StopsAt(turns)
      ensures Turned(t, b, p.t, ids[k], turns[k])
    {
      if k > 0 {
        assert ids[1..][k - 1] == ids[k] && turns[1..][k - 1] == turns[k] && ids[k] != ids[0];
      }
    }
    forall k | StopsAt(turns) <= k < |ids|
      ensures p.t.deposits[ids[k]] == t.deposits[ids[k]]
    {
      assert ids[1..][k - 1] == ids[k] && ids[k] != ids[0];
    }
  }

  /** The turn finds the lock free and the provider answering. */
  predicate Answered(turn: Turn) {
    turn.weather.held && turn.weather.instruct.link.Up? && turn.weather.ask.link.Up?
  }

  /**
   The progress `run_once` promises: uncontended and not stopped, with no more due than fits in a batch, and the
   deposit's own turn finding the provider answering. Then a due `paying` deposit whose payout has an outcome is
   ended accordingly and a due `charged` one is past `charged`, whatever was raised on the others.
   */
  lemma OnePassFinishes(s: Settings, t: Tables, b: Bank<Id>, origin: seq<Token>, cutoff: int, batchSize: nat,
                        ids: seq<Id>, turns: seq<Turn>, due: set<Id>, k: nat)
    requires Consistent(s, t, b, origin) && DueList(t.deposits, cutoff, batchSize, ids)
    requires (forall i: Id :: i in due <==> Due(t.deposits, cutoff, i)) && |due| <= batchSize
    requires |ids| <= |turns| && FreshRefs(b, turns) && Uncontended(turns)
    ensures forall id :: id in due <==> id in ids
    ensures k < |ids| && k < StopsAt(turns) && Answered(turns[k]) ==>
              var o := OutcomeOf(b, ids[k]);
              var rows := PassSpec(t, b, ids, turns).t.deposits;
              && ids[k] < |rows|
              && rows[ids[k]].status != Charged
              && (o.status == PayoutCompleted ==> rows[ids[k]].status == Settled)
              && (o.status == PayoutFailed ==> rows[ids[k]].status == Failed)
              && (!Terminal(o.status) ==> rows[ids[k]].status == Paying)
  {
    hide Consistent;
    forall id | id in due
      ensures id in ids
    {
      AllPicked(t.deposits, cutoff, batchSize, ids, due, id);
    }
    EnoughTurns(t, b, ids, turns);
    PassEffect(s, t, b, origin, ids, turns[..|ids|]);
    hide PassSpec;
    if k < |ids| && k < StopsAt(turns) {
      StopsWithin(turns, |ids|);
      assert Turned(t, b, PassSpec(t, b, ids, turns).t, ids[k], turns[..|ids|][k]);
    }
  }

  lemma StopsWithin(turns: seq<Turn>, n: nat)
    requires n <= |turns|
    ensures StopsAt(turns) <= StopsAt(turns[..n]) || StopsAt(turns[..n]) == n
  {
    var stop := StopsAt(turns[..n]);
    if stop < n {
      assert turns[stop] == turns[..n][stop];
    }
  }

  /** Turns past the last deposit are not taken. */
  lemma {:induction false} EnoughTurns(t: Tables, b: Bank<Id>, ids: seq<Id>, turns: seq<Turn>)
    requires |ids| <= |turns|
    ensures PassSpec(t, b, ids, turns) == PassSpec(t, b, ids, turns[..|ids|])
    decreases |ids|
  {
    if ids != [] {
      var first := Take(t, b, ids[0], turns[0]);
      EnoughTurns(first.t, first.bank, ids[1..], turns[1..]);
      assert turns[..|ids|][1..] == turns[1..][..|ids| - 1];
    }
  }
}
