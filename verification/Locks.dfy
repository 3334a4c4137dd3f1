/**
 Any number of transactions taking locks, each in the one order (`Models.Ordered`): the float lock, then a
 token's row, then a voucher's, then a deposit's. The service keeps to it in every transaction
 (`Session.orderly`), so nobody can ever wait in a circle.
 */
module Locks {
  import opened Wrappers
  import opened Models

  /** An open transaction: the locks it has, and the one it has asked for and not yet got. */
  datatype Txn = Txn(taken: seq<Want>, next: Option<Want>)

  type Proc = nat

  /** The open transactions, and who holds each deposit's advance lock. */
  datatype State = State(txns: map<Proc, Txn>, advancing: map<Id, Proc>)

  const IDLE := State(map[], map[])

  datatype Action =
    | TryAdvance(p: Proc, id: Id)
    | LetGo(id: Id)
    | Open(p: Proc)
    | Ask(p: Proc, want: Want)
    | Grant(p: Proc)
    | Close(p: Proc)

  predicate Conflict(a: Want, b: Want) {
    a.lock == b.lock && !(a.shared && b.shared)
  }

  predicate Holds(t: Txn, w: Want) {
    exists i :: 0 <= i < |t.taken| && Conflict(t.taken[i], w)
  }

  /** What p has asked for is held by q. */
  predicate WaitsFor(s: State, p: Proc, q: Proc) {
    p in s.txns && q in s.txns && p != q && s.txns[p].next.Some? && Holds(s.txns[q], s.txns[p].next.value)
  }

  predicate Blocked(s: State, p: Proc) {
    exists q :: q in s.txns && WaitsFor(s, p, q)
  }

  /**
   A transaction asks for one lock at a time, the next in the order, and waits until nobody holds it.
   Committing, rolling back and crashing all release everything; the advance lock is tried, never waited for.
   */
  function Step(s: State, a: Action): State {
    match a
    case TryAdvance(p, id) => if id in s.advancing then s else s.(advancing := s.advancing[id := p])
    case LetGo(id) => s.(advancing := s.advancing - {id})
    case Open(p) => if p in s.txns then s else s.(txns := s.txns[p := Txn([], None)])
    case Ask(p, want) =>
      if p !in s.txns || s.txns[p].next.Some? || !Ordered(s.txns[p].taken + [want]) then s
      else s.(txns := s.txns[p := s.txns[p].(next := Some(want))])
    case Grant(p) =>
      if p !in s.txns || s.txns[p].next.None? || Blocked(s, p) then s
      else s.(txns := s.txns[p := Txn(s.txns[p].taken + [s.txns[p].next.value], None)])
    case Close(p) => s.(txns := s.txns - {p})
  }

  function After(run: seq<Action>): State {
    if run == [] then IDLE else Step(After(run[..|run| - 1]), run[|run| - 1])
  }

  // --- nobody shares what is not shared -----------------------------------------------------------

  ghost predicate Exclusive(s: State) {
    forall p, q, i :: p in s.txns && q in s.txns && p != q && 0 <= i < |s.txns[p].taken| ==>
      !Holds(s.txns[q], s.txns[p].taken[i])
  }

  lemma GrantExcludes(s: State, p: Proc)
    requires Exclusive(s)
    ensures Exclusive(Step(s, Grant(p)))
  {
    var s' := Step(s, Grant(p));
    if s' != s {
      var next := s.txns[p].next.value;
      forall q | q in s.txns && q != p
        ensures !Holds(s.txns[q], next)
      {
        assert !WaitsFor(s, p, q);
      }
      forall a, b, i | a in s'.txns && b in s'.txns && a != b && 0 <= i < |s'.txns[a].taken|
        ensures !Holds(s'.txns[b], s'.txns[a].taken[i])
      {
        if b == p {
          assert !Holds(s.txns[p], s.txns[a].taken[i]);
          assert !Conflict(s.txns[a].taken[i], next);
        }
      }
    }
  }

  /** In every reachable state, no two transactions hold conflicting locks. */
  lemma {:induction false} MutualExclusion(run: seq<Action>)
    ensures Exclusive(After(run))
  {
    if run != [] {
      MutualExclusion(run[..|run| - 1]);
      match run[|run| - 1]
      case Grant(p) => GrantExcludes(After(run[..|run| - 1]), p);
      case _ =>
    }
  }

  // --- nobody waits in a circle ---------------------------------------------------------------------

  /** What a transaction holds and asks for is in order. */
  predicate InOrder(t: Txn) {
    Ordered(if t.next.Some? then t.taken + [t.next.value] else t.taken)
  }

  ghost predicate Disciplined(s: State) {
    forall p :: p in s.txns ==> InOrder(s.txns[p])
  }

  lemma {:induction false} AlwaysDisciplined(run: seq<Action>)
    ensures Disciplined(After(run))
  {
    if run != [] {
      AlwaysDisciplined(run[..|run| - 1]);
    }
  }

  /** Where a transaction stands in the order: the rank of the lock it has asked for. */
  function Standing(t: Txn): nat {
    if t.next.Some? then LockRank(t.next.value.lock) else 4
  }

  /** Whoever one waits for stands later in the order. */
  lemma WaitingClimbs(s: State, p: Proc, q: Proc)
    requires Disciplined(s) && WaitsFor(s, p, q)
    ensures Standing(s.txns[p]) < Standing(s.txns[q])
  {
    var t, want := s.txns[q], s.txns[p].next.value;
    var i :| 0 <= i < |t.taken| && Conflict(t.taken[i], want);
    if t.next.Some? {
      var all := t.taken + [t.next.value];
      assert InOrder(t) && all[i] == t.taken[i] && all[|t.taken|] == t.next.value;
    }
  }

  ghost predicate Chain(s: State, ps: seq<Proc>) {
    forall i :: 0 <= i < |ps| - 1 ==> WaitsFor(s, ps[i], ps[i + 1])
  }

  lemma {:induction false} ChainClimbs(s: State, ps: seq<Proc>)
    requires Disciplined(s) && |ps| >= 2 && Chain(s, ps)
    ensures ps[0] in s.txns && ps[|ps| - 1] in s.txns
    ensures Standing(s.txns[ps[0]]) < Standing(s.txns[ps[|ps| - 1]])
  {
    var n := |ps| - 1;
    WaitingClimbs(s, ps[n - 1], ps[n]);
    if n > 1 {
      assert forall i :: 0 <= i < n - 1 ==> WaitsFor(s, ps[..n][i], ps[..n][i + 1]);
      ChainClimbs(s, ps[..n]);
    }
  }

  /** No reachable state has a circle of transactions each waiting for the next. */
  lemma NoDeadlock(run: seq<Action>, ps: seq<Proc>)
    requires |ps| >= 2 && Chain(After(run), ps)
    ensures ps[0] != ps[|ps| - 1]
  {
    AlwaysDisciplined(run);
    ChainClimbs(After(run), ps);
  }

  /** So whenever transactions are open, at least one of them is not waiting for anybody. */
  lemma {:induction false} SomeoneMoves(run: seq<Action>, p: Proc) returns (q: Proc)
    requires p in After(run).txns
    ensures q in After(run).txns && !Blocked(After(run), q)
    decreases 4 - Standing(After(run).txns[p])
  {
    var s := After(run);
    if Blocked(s, p) {
      var next :| next in s.txns && WaitsFor(s, p, next);
      AlwaysDisciplined(run);
      WaitingClimbs(s, p, next);
      q := SomeoneMoves(run, next);
    } else {
      q := p;
    }
  }
}
