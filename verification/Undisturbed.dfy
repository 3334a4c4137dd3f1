/**
 The service and the protocol are one program: a request that runs with nobody in between takes steps of
 the protocol, and comes to exactly what Service.dfy says it does.
 */
module Undisturbed {
  import opened Wrappers
  import opened Models
  import opened Fees
  import opened Ledger
  import opened Payouts
  import opened Deposits
  import opened Protocol
  import opened Invariant
  import opened Reachable
  import opened Service

  /** Steps of one process alone. */
  predicate Only(run: seq<Action>, p: Proc, i: Input) {
    forall n :: 0 <= n < |run| ==> run[n] == Run(p, i)
  }

  /** A run from w, so far, of p alone. */
  ghost predicate Ran(s: Settings, w: World, run: seq<Action>, p: Proc, i: Input, w': World) {
    Only(run, p, i) && w' == After(s, w, run) && p in w'.procs
  }

  lemma OneMore(s: Settings, w0: World, run: seq<Action>, p: Proc, i: Input, w: World)
    returns (run': seq<Action>, w': World)
    requires Ran(s, w0, run, p, i, w)
    ensures w' == RunStep(s, w, p, i) && Ran(s, w0, run', p, i, w')
  {
    run', w' := run + [Run(p, i)], RunStep(s, w, p, i);
    assert run'[..|run|] == run;
  }

  /** The provider has a reference to give this deposit. */
  predicate CanAnswer(b: Bank<Id>, id: Id, newRef: Ref) {
    id in b.refs || newRef !in b.payouts
  }

  function Ends(fault: Option<Fault>, otherwise: Pc): Pc {
    if fault.Some? then Done(Raised(fault.value)) else otherwise
  }

  lemma InstructAlone(s: Settings, w0: World, run: seq<Action>, p: Proc, i: Input, w: World, id: Id)
    returns (run': seq<Action>, w': World)
    requires Ran(s, w0, run, p, i, w) && w.procs[p] == InstructRead(id) && CanAnswer(w.bank, id, i.newRef)
    ensures Ran(s, w0, run', p, i, w')
    ensures var spec := InstructSpec(w.t, w.bank, id, i.link, i.newRef, i.now);
            w' == At(w.(t := spec.t, bank := spec.bank), p, Ends(spec.fault, PayoutRead(id)))
  {
    hide Ran, InstructWrite, Create, Called, StepLookup, StepQuote, StepScreen, StepCheck, StepFloat, StepOwed,
         StepCommit, StepReplay, StepReadPayout, StepAsk, StepRecordOutcome;
    assert p in w.procs by { StillThere(s, w0, run, p, i, w); }
    run', w' := OneMore(s, w0, run, p, i, w);
    if w'.procs[p].InstructCall? {
      run', w' := OneMore(s, w0, run', p, i, w');
      assert w'.procs == w.procs[p := w'.procs[p]];
      if w'.procs[p].InstructRecord? {
        run', w' := OneMore(s, w0, run', p, i, w');
        assert w'.procs == w.procs[p := w'.procs[p]];
      }
    }
  }

  lemma StillThere(s: Settings, w0: World, run: seq<Action>, p: Proc, i: Input, w: World)
    requires Ran(s, w0, run, p, i, w)
    ensures p in w.procs
  {
  }

  lemma AskAlone(s: Settings, w0: World, run: seq<Action>, p: Proc, i: Input, w: World, id: Id)
    returns (run': seq<Action>, w': World)
    requires Ran(s, w0, run, p, i, w) && w.procs[p] == PayoutRead(id)
    ensures Ran(s, w0, run', p, i, w')
    ensures var spec := AskSpec(w.t, w.bank, id, i.link, i.now);
            w' == At(w.(t := spec.t, bank := spec.bank), p, Ends(spec.fault, Done(Finished(id))))
  {
    hide Ran, PayoutWrite;
    assert p in w.procs by { StillThere(s, w0, run, p, i, w); }
    run', w' := OneMore(s, w0, run, p, i, w);
    if w'.procs[p].PayoutAsk? {
      run', w' := OneMore(s, w0, run', p, i, w');
      assert w'.procs == w.procs[p := w'.procs[p]];
      if w'.procs[p].PayoutRecord? {
        run', w' := OneMore(s, w0, run', p, i, w');
        assert w'.procs == w.procs[p := w'.procs[p]];
      }
    }
  }

  /** An advance nobody disturbs comes to `AdvanceSpec`, in steps of the protocol. */
  lemma AdvanceAlone(s: Settings, w0: World, run: seq<Action>, p: Proc, i: Input, w: World, id: Id)
    returns (run': seq<Action>, w': World)
    requires Ran(s, w0, run, p, i, w) && w.procs[p] == AdvanceStart(id) && CanAnswer(w.bank, id, i.newRef)
    ensures Ran(s, w0, run', p, i, w')
    ensures !i.granted ==> w' == At(w, p, Done(NotHeld(id)))
    ensures var spec := AdvanceSpec(w.t, w.bank, id, i.link, i.newRef, i.now);
            i.granted ==> w' == At(w.(t := spec.t, bank := spec.bank), p, Ends(spec.fault, Done(Finished(id))))
  {
    var quiet := Unraced(i.link, i.newRef, i.now);
    QuietAdvance(w.t, w.bank, id, Weather(true, None, quiet, None, quiet));
    hide Ran, InstructSpec, AskSpec, AdvanceRaced;
    assert p in w.procs by { StillThere(s, w0, run, p, i, w); }
    run', w' := OneMore(s, w0, run, p, i, w);
    if i.granted {
      run', w' := InstructAlone(s, w0, run', p, i, w', id);
      assert w'.procs == w.procs[p := w'.procs[p]];
      if w'.procs[p] == PayoutRead(id) {
        run', w' := AskAlone(s, w0, run', p, i, w', id);
        assert w'.procs == w.procs[p := w'.procs[p]];
      }
    }
  }

  /** Where the service says a create ends, as the protocol's world. */
  function CreateEnds(w: World, p: Proc, a: CreateArgs, r: Created): World {
    match r
    case Made(id, t) => At(w.(t := t, origin := w.origin + [a.token]), p, AdvanceStart(id))
    case Found(id) => At(w, p, Done(Replayed(id)))
    case Turned(reason) => At(w, p, Done(Refused(reason)))
    case Broke(fault) => At(w, p, Done(Raised(fault)))
  }

  lemma StoppedAlone(s: Settings, w0: World, run: seq<Action>, p: Proc, i: Input, w: World, before: World,
                     a: CreateArgs, stop: Stop)
    returns (run': seq<Action>, w': World)
    requires Ran(s, w0, run, p, i, w) && w == At(before, p, Stopped(a, stop))
    ensures Ran(s, w0, run', p, i, w') && w' == CreateEnds(before, p, a, StopSpec(before.t, a, stop))
  {
    hide Ran, ReplayOf;
    run', w' := run, w;
    if stop.Replay? {
      run', w' := OneMore(s, w0, run, p, i, w);
      assert w'.procs == before.procs[p := w'.procs[p]];
    }
  }

  /** A create nobody disturbs comes to `CreateSpec`, in steps of the protocol, reading the float in two sums or one. */
  lemma CreateAlone(s: Settings, w0: World, run: seq<Action>, p: Proc, i: Input, w: World, a: CreateArgs)
    returns (run': seq<Action>, w': World)
    requires Ran(s, w0, run, p, i, w) && w.procs[p] == CreateStart(a) && w.floatLock == None
    ensures Ran(s, w0, run', p, i, w')
    ensures w' == CreateEnds(w, p, a, CreateSpec(s, w.t, a, i.screening, i.references, i.now))
  {
    hide Ran, Assessable, CheckToken, CommitCharge, ReplayOf, StopSpec;
    assert p in w.procs by { StillThere(s, w0, run, p, i, w); }
    run', w' := OneMore(s, w0, run, p, i, w);
    if w'.procs[p].CreateScreened? {
      run', w' := OneMore(s, w0, run', p, i, w');
      assert w'.procs == w.procs[p := w'.procs[p]];
      match CheckToken(s, w.t, a, i.now)
      case Err(stop) =>
        run', w' := StoppedAlone(s, w0, run', p, i, w', w, a, stop);
      case Ok((pin, payout)) =>
        run', w' := ChargeAlone(s, w0, run', p, i, w', w, a, pin, payout);
    }
  }

  lemma ChargeAlone(s: Settings, w0: World, run: seq<Action>, p: Proc, i: Input, w: World, before: World,
                    a: CreateArgs, pin: Pin, payout: Cents)
    returns (run': seq<Action>, w': World)
    requires Ran(s, w0, run, p, i, w) && before.floatLock == None
    requires w == At(before.(floatLock := Some(p)), p, CreateChecked(a, pin, payout))
    requires CheckToken(s, before.t, a, i.now) == Ok((pin, payout))
    ensures Ran(s, w0, run', p, i, w')
    ensures w' == CreateEnds(before, p, a,
                             match ChargeSpec(s, before.t, a, i.references, i.now)
                             case Err(stop) => StopSpec(before.t, a, stop)
                             case Ok(t') => Made(|before.t.deposits|, t'))
  {
    hide Ran, CheckToken, CommitCharge, ReplayOf, StopSpec, BalanceOf;
    run', w' := OneMore(s, w0, run, p, i, w);
    assert w'.procs == before.procs[p := w'.procs[p]];
    if !i.oneRead {
      run', w' := OneMore(s, w0, run', p, i, w');
      assert w'.procs == before.procs[p := w'.procs[p]];
    }
    if payout > Available(before.t.ledger) {
      run', w' := StoppedAlone(s, w0, run', p, i, w', before, a, Refuse("insufficient_float"));
    } else {
      run', w' := OneMore(s, w0, run', p, i, w');
      assert w'.procs == before.procs[p := w'.procs[p]];
      match CommitCharge(s, before.t, a, pin, i.references, i.now)
      case Err(stop) =>
        run', w' := StoppedAlone(s, w0, run', p, i, w', before, a, stop);
      case Ok(_) =>
    }
  }

  /** The tables and the bank, with one process about to run. */
  function Lone(t: Tables, b: Bank<Id>, origin: seq<Token>, pc: Pc): World {
    World(t, b, map[0 := pc], None, origin)
  }

  lemma LoneOk(s: Settings, t: Tables, b: Bank<Id>, origin: seq<Token>, pc: Pc)
    requires Consistent(s, t, b, origin) && Fresh(pc)
    ensures Inv(s, Lone(t, b, origin, pc))
  {
    hide Consistent;
  }

  /** So what the protocol keeps, the service keeps: a create, and an advance of any deposit. */
  lemma ServiceKeeps(s: Settings, t: Tables, b: Bank<Id>, origin: seq<Token>, a: CreateArgs, id: Id, i: Input)
    requires Consistent(s, t, b, origin)
    ensures match CreateSpec(s, t, a, i.screening, i.references, i.now)
            case Made(_, t') => Consistent(s, t', b, origin + [a.token])
            case _ => true
    ensures CanAnswer(b, id, i.newRef) ==>
              var r := AdvanceSpec(t, b, id, i.link, i.newRef, i.now); Consistent(s, r.t, r.bank, origin)
  {
    hide Consistent, CreateSpec, AdvanceSpec, Inv;
    var creating, advancing := Lone(t, b, origin, CreateStart(a)), Lone(t, b, origin, AdvanceStart(id));
    LoneOk(s, t, b, origin, CreateStart(a));
    var run, w := CreateAlone(s, creating, [], 0, i, creating, a);
    RunsKeep(s, creating, run);
    InvConsistent(s, w);
    if CanAnswer(b, id, i.newRef) {
      LoneOk(s, t, b, origin, AdvanceStart(id));
      run, w := AdvanceAlone(s, advancing, [], 0, i.(granted := true), advancing, id);
      RunsKeep(s, advancing, run);
      InvConsistent(s, w);
    }
  }

  lemma InvConsistent(s: Settings, w: World)
    requires Inv(s, w)
    ensures Consistent(s, w.t, w.bank, w.origin)
  {
    hide Consistent, ProcsOk;
  }
}
