/** Creating is idempotent: one deposit per key and per token, a replay or refusal leaves no residue. */
module Replays {
  import opened Wrappers
  import opened Models
  import opened Fees
  import opened Payouts
  import opened Deposits
  import opened Protocol
  import opened Invariant
  import opened Reachable
  import opened Safety

  /** Over every interleaving, keys, references and tokens each name at most one deposit. */
  lemma OneDepositEach(s: Settings, run: seq<Action>)
    ensures var w := Reached(s, run);
            && |w.origin| == |w.t.deposits|
            && (forall i, j :: 0 <= i < j < |w.t.deposits| ==>
                  && w.t.deposits[i].key != w.t.deposits[j].key
                  && w.t.deposits[i].reference != w.t.deposits[j].reference
                  && w.origin[i] != w.origin[j])
            && (forall k :: k in w.t.tokens ==>
                  (w.t.tokens[k].consumedAt.Some? <==> exists i :: 0 <= i < |w.origin| && w.origin[i] == k))
  {
    hide PcOk, ProcsOk, RowsOk, VouchersAgree, PayoutsOk, LedgerOk, BalancesOk, BankAgrees, Reached;
    ReachedOk(s, run);
  }

  predicate Creating(pc: Pc) {
    pc.CreateStart? || pc.CreateScreened? || InCharge(pc) || pc.CreateReplay?
  }

  /**
   A create writes in one step only, its commit, and then it has its deposit. Until then, and so
   whenever it is refused, replayed, raised or crashed instead, it has changed no row at all.
   */
  lemma OnlyTheCommitWrites(s: Settings, w: World, p: Proc, i: Input)
    requires Inv(s, w) && p in w.procs && Creating(w.procs[p])
    ensures var w' := Step(s, w, Run(p, i));
            && w'.bank == w.bank && p in w'.procs
            && (w'.t != w.t <==> w'.procs[p].AdvanceStart?)
            && (w'.t != w.t ==>
                  && w.procs[p].CreateCovered? && w'.procs[p] == AdvanceStart(|w.t.deposits|)
                  && ChargedBy(s, w.t, w.procs[p].a, w.procs[p].pin, i.now, w'.t)
                  && w'.origin == w.origin + [w.procs[p].a.token])
    ensures var w' := Step(s, w, Crash(p)); w'.t == w.t && w'.bank == w.bank
  {
    hide Inv, PcOk, CheckToken, Assessable, ReplayOf, StepCommit;
    if w.procs[p].CreateCovered? {
      CommitWrites(s, w, p, i);
    }
  }

  lemma CommitWrites(s: Settings, w: World, p: Proc, i: Input)
    requires Inv(s, w) && p in w.procs && w.procs[p].CreateCovered?
    ensures var pc := w.procs[p];
            var w' := StepCommit(s, w, p, pc.a, pc.pin, i);
            && w'.bank == w.bank && p in w'.procs
            && (w'.t != w.t <==> w'.procs[p].AdvanceStart?)
            && (w'.t != w.t ==>
                  && w'.procs[p] == AdvanceStart(|w.t.deposits|)
                  && ChargedBy(s, w.t, pc.a, pc.pin, i.now, w'.t) && w'.origin == w.origin + [pc.a.token])
  {
    hide Inv;
    PcHolds(s, w, p);
    ChargeOutcome(s, w.t, w.procs[p].a, w.procs[p].pin, i.references, i.now);
  }

  /** The deposit `id` was made from this token, under this key, by this user. */
  ghost predicate Made(w: World, a: CreateArgs, id: Id) {
    && id < |w.t.deposits| && id < |w.origin|
    && w.t.deposits[id].key == a.key && w.t.deposits[id].user == a.user && w.origin[id] == a.token
  }

  /** A later call with the same token, key and user is on its way to that deposit. */
  ghost predicate Answering(w: World, p: Proc, a: CreateArgs, id: Id) {
    p in w.procs && w.procs[p] in {CreateStart(a), CreateScreened(a), CreateReplay(a), Done(Replayed(id)), Crashed}
  }

  lemma FoundIs(s: Settings, w: World, a: CreateArgs, id: Id)
    requires Inv(s, w) && Made(w, a, id)
    ensures ReplayOf(w.t, a.key, a.user) == Ok(id) && KeyTaken(w.t.deposits, a.key)
    ensures a.token in w.t.tokens && w.t.tokens[a.token].consumedAt.Some?
  {
    hide PcOk, ProcsOk, RowsOk, VouchersAgree, PayoutsOk, LedgerOk, BalancesOk, BankAgrees;
    KeyFound(w.t.deposits, a.key);
  }

  lemma AnswerStep(s: Settings, w: World, action: Action, p: Proc, a: CreateArgs, id: Id)
    requires Inv(s, w) && Made(w, a, id) && Answering(w, p, a, id)
    ensures var w' := Step(s, w, action); Made(w', a, id) && Answering(w', p, a, id)
  {
    hide Consistent, PcOk, ProcsOk;
    ActionKeeps(s, w, action);
    var w' := Step(s, w, action);
    assert RowEvolves(w.t.deposits[id], w'.t.deposits[id]);
    FoundIs(s, w, a, id);
    if action.Run? && action.p in w.procs && action.p != p {
      OthersStay(s, w, action.p, action.input, p);
    }
  }

  /**
   Once a deposit is committed, a later create with its token, key and user can only be answered with
   that deposit: whatever the clock, the risk band, the float, the payout's outcome, and whoever races.
   */
  lemma {:induction false} LaterCreateReplays(s: Settings, run: seq<Action>, p: Proc, a: CreateArgs, id: Id,
                                              more: seq<Action>)
    requires Made(Reached(s, run), a, id) && p !in Reached(s, run).procs
    ensures var w' := Reached(s, run + [Begin(p, CreateStart(a))] + more); Made(w', a, id) && Answering(w', p, a, id)
  {
    hide Inv, Reached, RunStep;
    var start := run + [Begin(p, CreateStart(a))];
    if more == [] {
      OneMore(s, run, Begin(p, CreateStart(a)));
      assert start + more == start;
    } else {
      var n := |more| - 1;
      assert (start + more[..n]) + [more[n]] == start + more;
      LaterCreateReplays(s, run, p, a, id, more[..n]);
      ReachedOk(s, start + more[..n]);
      OneMore(s, start + more[..n], more[n]);
      hide Made, Answering, Step;
      AnswerStep(s, Reached(s, start + more[..n]), more[n], p, a, id);
    }
  }

  /** And it gets that answer: in three steps, once the float lock is free, writing nothing. */
  lemma LaterCreateAnswers(s: Settings, run: seq<Action>, p: Proc, a: CreateArgs, id: Id, i: Input, j: Input, k: Input)
    requires var w := Reached(s, run);
             Made(w, a, id) && p in w.procs && w.procs[p] == CreateStart(a) && w.floatLock == None
    ensures var w := Reached(s, run);
            var w' := Step(s, Step(s, Step(s, w, Run(p, i)), Run(p, j)), Run(p, k));
            w'.t == w.t && w'.bank == w.bank && p in w'.procs && w'.procs[p] == Done(Replayed(id))
  {
    hide Reached, Inv, ReplayOf, StepFloat, StepOwed, StepCommit, StepLookup, StepQuote, StepInstruct, StepCreatePayout,
         StepRecordInstruction, StepReadPayout, StepAsk, StepRecordOutcome;
    var w := Reached(s, run);
    ReachedOk(s, run);
    FoundIs(s, w, a, id);
    assert CheckToken(s, w.t, a, j.now) == Err(Replay);
    assert !Assessable(w.t, a, i.now);
    hide CheckToken, Assessable, KeyTaken;
    assert Step(s, w, Run(p, i)) == At(w, p, CreateScreened(a));
    assert Step(s, At(w, p, CreateScreened(a)), Run(p, j)) == At(At(w, p, CreateScreened(a)), p, CreateReplay(a));
  }

  /**
   A create whose token is already used is answered from the key alone: the user's own deposit under
   it, `deposit_not_found` when it is someone else's, `voucher_already_redeemed` when there is none.
   It takes two steps once the float lock is free, and writes nothing.
   */
  lemma UsedTokenAnswer(s: Settings, run: seq<Action>, p: Proc, a: CreateArgs, i: Input, j: Input)
    requires var w := Reached(s, run);
             && p in w.procs && w.procs[p] == CreateScreened(a) && w.floatLock == None
             && a.token in w.t.tokens && w.t.tokens[a.token].consumedAt.Some?
    ensures var w := Reached(s, run);
            var w' := Step(s, Step(s, w, Run(p, i)), Run(p, j));
            && w'.t == w.t && w'.floatLock == None && p in w'.procs
            && (forall id :: 0 <= id < |w.t.deposits| && w.t.deposits[id].key == a.key ==>
                  w'.procs[p] == if w.t.deposits[id].user == a.user then Done(Replayed(id))
                      else Done(Refused("deposit_not_found")))
            && (!KeyTaken(w.t.deposits, a.key) ==> w'.procs[p] == Done(Refused("voucher_already_redeemed")))
  {
    hide Reached, CommitCharge, InstructWrite, PayoutWrite, Assessable, FindKey, StepScreen, StepFloat, StepOwed,
         StepCommit;
    var w := Reached(s, run);
    OneDepositEach(s, run);
    KeyFound(w.t.deposits, a.key);
    assert CheckToken(s, w.t, a, i.now) == Err(Replay);
    assert Step(s, w, Run(p, i)) == At(w, p, CreateReplay(a));
  }
}
