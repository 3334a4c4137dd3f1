/**
 The service and the protocol are one program, whoever races: put any runs of others' actions between this
 process's steps, and it comes to exactly what Service.dfy says for the tables and the bank those runs leave.
 */
module Interleaved {
  import opened Wrappers
  import opened Models
  import opened Fees
  import opened Ledger
  import opened Payouts
  import opened Deposits
  import opened Protocol
  import opened Invariant
  import opened Reachable
  import opened Service
  import opened Undisturbed

  // --- others' turns ------------------------------------------------------------------------------------

  /** Actions of everyone but p. */
  predicate Others(actions: seq<Action>, p: Proc) {
    forall n :: 0 <= n < |actions| ==>
      match actions[n]
      case Run(q, _) => q != p
      case Crash(q) => q != p
      case _ => true
  }

  lemma OtherKeeps(s: Settings, w: World, p: Proc, action: Action)
    requires Inv(s, w) && p in w.procs && Others([action], p)
    ensures var w' := Step(s, w, action);
            && Inv(s, w') && p in w'.procs && w'.procs[p] == w.procs[p]
            && (w.floatLock == Some(p) ==> w'.floatLock == Some(p))
  {
    hide Inv, RunStep;
    ActionKeeps(s, w, action);
    assert [action][0] == action;
    if action.Run? && action.p in w.procs {
      OthersStay(s, w, action.p, action.input, p);
      RunKeeps(s, w, action.p, action.input);
      hide Evolves, Consistent, PcOk, Reachable.Calm;
    }
  }

  /** A process between two of its own steps is left where it was, and keeps the float lock if it has it. */
  lemma {:induction false} OthersPass(s: Settings, w: World, p: Proc, others: seq<Action>)
    requires Inv(s, w) && p in w.procs && Others(others, p)
    ensures var w' := After(s, w, others);
            && Inv(s, w') && p in w'.procs && w'.procs[p] == w.procs[p]
            && (w.floatLock == Some(p) ==> w'.floatLock == Some(p))
  {
    hide Inv, Step;
    if others != [] {
      var n := |others| - 1;
      assert Others(others[..n], p) && Others([others[n]], p);
      hide Others;
      OthersPass(s, w, p, others[..n]);
      OtherKeeps(s, After(s, w, others[..n]), p, others[n]);
    }
  }

  /** p's next step. */
  function Go(s: Settings, w: World, p: Proc, i: Input): World {
    Step(s, w, Run(p, i))
  }

  lemma GoKeeps(s: Settings, w: World, p: Proc, i: Input)
    requires Inv(s, w) && p in w.procs
    ensures Inv(s, Go(s, w, p, i)) && p in Go(s, w, p, i).procs && Go(s, w, p, i) == RunStep(s, w, p, i)
  {
    hide Inv, RunStep, Evolves, Consistent, PcOk, Reachable.Calm, InCharge;
    ActionKeeps(s, w, Run(p, i));
    RunKeeps(s, w, p, i);
  }

  function GapOf(w: World): Gap {
    Some((w.t, w.bank))
  }

  /** Others' runs during one half of an advance: before the provider call, and before phase 3. */
  datatype Asides = Asides(before: seq<Action>, after: seq<Action>)

  predicate Aside(o: Asides, p: Proc) {
    Others(o.before, p) && Others(o.after, p)
  }

  /** What the service is told of them: the tables and the bank as the run left them each time. */
  function CallOf(s: Settings, w: World, p: Proc, i: Input, o: Asides): Call {
    var met := After(s, Go(s, w, p, i), o.before);
    Call(i.link, i.newRef, GapOf(met), GapOf(After(s, Go(s, met, p, i), o.after)), i.now)
  }

  // --- instructing ----------------------------------------------------------------------------------------

  /** p reads; others; p calls; others; p records. It stops early where its steps do. */
  function InstructEnds(s: Settings, w: World, p: Proc, i: Input, o: Asides): World {
    var read := Go(s, w, p, i);
    if p !in read.procs || !read.procs[p].InstructCall? then read
    else
      var called := Go(s, After(s, read, o.before), p, i);
      if p !in called.procs || !called.procs[p].InstructRecord? then called
      else Go(s, After(s, called, o.after), p, i)
  }

  lemma InstructInterleaved(s: Settings, w: World, p: Proc, id: Id, i: Input, o: Asides)
    requires Inv(s, w) && p in w.procs && w.procs[p] == InstructRead(id) && Aside(o, p)
    requires CanAnswer(After(s, Go(s, w, p, i), o.before).bank, id, i.newRef)
    ensures var e := InstructEnds(s, w, p, i, o);
            var spec := InstructRaced(w.t, w.bank, id, CallOf(s, w, p, i, o));
            && Inv(s, e) && p in e.procs
            && e.t == spec.t && e.bank == spec.bank && e.procs[p] == Ends(spec.fault, PayoutRead(id))
  {
    hide Inv, InstructWrite, Go, Others;
    var read := Go(s, w, p, i);
    GoKeeps(s, w, p, i);
    ReadsFirst(s, w, p, id, i);
    if read.procs[p].InstructCall? {
      OthersPass(s, read, p, o.before);
      var met := After(s, read, o.before);
      GoKeeps(s, met, p, i);
      var called := Go(s, met, p, i);
      CallsNext(s, met, p, id, read.procs[p].amount, i);
      if called.procs[p].InstructRecord? {
        OthersPass(s, called, p, o.after);
        var last := After(s, called, o.after);
        GoKeeps(s, last, p, i);
        RecordsLast(s, last, p, id, called.procs[p].ref, i);
      }
    }
  }

  lemma ReadsFirst(s: Settings, w: World, p: Proc, id: Id, i: Input)
    requires p in w.procs && w.procs[p] == InstructRead(id)
    ensures var w' := RunStep(s, w, p, i);
            && w'.t == w.t && w'.bank == w.bank
            && w'.procs[p] == if id < |w.t.deposits| && w.t.deposits[id].status == Charged then
                                InstructCall(id, w.t.deposits[id].payout) else PayoutRead(id)
  {
  }

  lemma CallsNext(s: Settings, w: World, p: Proc, id: Id, amount: Cents, i: Input)
    requires p in w.procs && w.procs[p] == InstructCall(id, amount) && CanAnswer(w.bank, id, i.newRef)
    ensures var w' := RunStep(s, w, p, i);
            && w'.t == w.t && w'.bank == Called(w.bank, id, amount, i.link, i.newRef)
            && w'.procs[p] == match i.link
                              case Down(_) => PayoutRead(id)
                              case Broken(_) => Done(Raised(ProviderFault))
                              case Up =>
                                if amount <= 0 then Done(Raised(InvalidPayout))
                                else InstructRecord(id, Create(w.bank, id, amount, i.newRef).1)
  {
  }

  lemma RecordsLast(s: Settings, w: World, p: Proc, id: Id, ref: Ref, i: Input)
    requires p in w.procs && w.procs[p] == InstructRecord(id, ref)
    ensures var w' := RunStep(s, w, p, i);
            var spec := Written(w.t, w.bank, InstructWrite(w.t, id, ref, i.now));
            w'.t == spec.t && w'.bank == spec.bank && w'.procs[p] == Ends(spec.fault, PayoutRead(id))
  {
    hide InstructWrite;
  }

  // --- asking -----------------------------------------------------------------------------------------------

  /** p reads; others; p asks; others; p records. */
  function AskEnds(s: Settings, w: World, p: Proc, i: Input, o: Asides): World {
    var read := Go(s, w, p, i);
    if p !in read.procs || !read.procs[p].PayoutAsk? then read
    else
      var asked := Go(s, After(s, read, o.before), p, i);
      if p !in asked.procs || !asked.procs[p].PayoutRecord? then asked
      else Go(s, After(s, asked, o.after), p, i)
  }

  lemma AskInterleaved(s: Settings, w: World, p: Proc, id: Id, i: Input, o: Asides)
    requires Inv(s, w) && p in w.procs && w.procs[p] == PayoutRead(id) && Aside(o, p)
    ensures var e := AskEnds(s, w, p, i, o);
            var spec := AskRaced(w.t, w.bank, id, CallOf(s, w, p, i, o));
            && Inv(s, e) && p in e.procs
            && e.t == spec.t && e.bank == spec.bank && e.procs[p] == Ends(spec.fault, Done(Finished(id)))
  {
    hide Inv, PayoutWrite, Go, Others;
    var read := Go(s, w, p, i);
    GoKeeps(s, w, p, i);
    ReadsPayout(s, w, p, id, i);
    if read.procs[p].PayoutAsk? {
      OthersPass(s, read, p, o.before);
      var met := After(s, read, o.before);
      GoKeeps(s, met, p, i);
      var asked := Go(s, met, p, i);
      AsksNext(s, met, p, id, read.procs[p].ref, read.procs[p].pin, i);
      if asked.procs[p].PayoutRecord? {
        OthersPass(s, asked, p, o.after);
        var last := After(s, asked, o.after);
        GoKeeps(s, last, p, i);
        OutcomeLast(s, last, p, id, asked.procs[p].pin, asked.procs[p].result, i);
      }
    }
  }

  lemma ReadsPayout(s: Settings, w: World, p: Proc, id: Id, i: Input)
    requires p in w.procs && w.procs[p] == PayoutRead(id)
    ensures var w' := RunStep(s, w, p, i);
            && w'.t == w.t && w'.bank == w.bank
            && w'.procs[p] == if id < |w.t.deposits| && w.t.deposits[id].status == Paying && id in w.t.payouts then
                                PayoutAsk(id, w.t.payouts[id].ref, w.t.deposits[id].pin) else Done(Finished(id))
  {
  }

  lemma AsksNext(s: Settings, w: World, p: Proc, id: Id, ref: Ref, pin: Pin, i: Input)
    requires p in w.procs && w.procs[p] == PayoutAsk(id, ref, pin)
    ensures var w' := RunStep(s, w, p, i);
            && w'.t == w.t && w'.bank == w.bank
            && w'.procs[p] == match i.link
                              case Down(_) => Done(Finished(id))
                              case Broken(_) => Done(Raised(ProviderFault))
                              case Up =>
                                if ref in w.bank.payouts then PayoutRecord(id, pin, w.bank.payouts[ref].outcome)
                                else Done(Raised(UnknownPayout))
  {
  }

  lemma OutcomeLast(s: Settings, w: World, p: Proc, id: Id, pin: Pin, result: ProviderStatus, i: Input)
    requires p in w.procs && w.procs[p] == PayoutRecord(id, pin, result)
    ensures var w' := RunStep(s, w, p, i);
            var spec := Written(w.t, w.bank, PayoutWrite(w.t, id, result, i.now));
            w'.t == spec.t && w'.bank == spec.bank && w'.procs[p] == Ends(spec.fault, Done(Finished(id)))
  {
    hide PayoutWrite;
  }

  // --- a whole advance -----------------------------------------------------------------------------------------

  /** Others' runs during an advance: once its lock is granted, in its first half, between, and in its second. */
  datatype Breaks = Breaks(start: seq<Action>, instruct: Asides, between: seq<Action>, ask: Asides)

  predicate Break(o: Breaks, p: Proc) {
    Others(o.start, p) && Aside(o.instruct, p) && Others(o.between, p) && Aside(o.ask, p)
  }

  /** The world in which p starts its first half, and the one in which it starts its second. */
  function Started(s: Settings, w: World, p: Proc, i: Input, o: Breaks): World {
    After(s, Go(s, w, p, i), o.start)
  }

  function HalfWay(s: Settings, w: World, p: Proc, i: Input, o: Breaks): World {
    After(s, InstructEnds(s, Started(s, w, p, i, o), p, i, o.instruct), o.between)
  }

  /** Where an advance ends: i is its input up to the middle, j from there on. */
  function AdvanceEnds(s: Settings, w: World, p: Proc, i: Input, j: Input, o: Breaks): World {
    var half := InstructEnds(s, Started(s, w, p, i, o), p, i, o.instruct);
    if p !in half.procs || !half.procs[p].PayoutRead? then half
    else AskEnds(s, HalfWay(s, w, p, i, o), p, j, o.ask)
  }

  /** What the service is told. */
  function WeatherOf(s: Settings, w: World, p: Proc, i: Input, j: Input, o: Breaks): Weather {
    Weather(true, GapOf(Started(s, w, p, i, o)), CallOf(s, Started(s, w, p, i, o), p, i, o.instruct),
            GapOf(HalfWay(s, w, p, i, o)), CallOf(s, HalfWay(s, w, p, i, o), p, j, o.ask))
  }

  /**
   An advance interleaved with anything: from a world the invariant holds of, `AdvanceRaced` comes to exactly the
   tables, the bank and the exception that `After` gives.
   */
  lemma AdvanceInterleaved(s: Settings, w: World, p: Proc, id: Id, i: Input, j: Input, o: Breaks)
    requires Inv(s, w) && p in w.procs && w.procs[p] == AdvanceStart(id) && i.granted && Break(o, p)
    requires CanAnswer(After(s, Go(s, Started(s, w, p, i, o), p, i), o.instruct.before).bank, id, i.newRef)
    ensures var e := AdvanceEnds(s, w, p, i, j, o);
            var spec := AdvanceRaced(w.t, w.bank, id, WeatherOf(s, w, p, i, j, o));
            && Inv(s, e) && p in e.procs
            && e.t == spec.t && e.bank == spec.bank && e.procs[p] == Ends(spec.fault, Done(Finished(id)))
  {
    hide Inv, Go, Others, InstructRaced, AskRaced, InstructEnds, AskEnds, CallOf, RunStep, After;
    GoKeeps(s, w, p, i);
    GrantsFirst(s, w, p, id, i);
    OthersPass(s, Go(s, w, p, i), p, o.start);
    var start := Started(s, w, p, i, o);
    InstructInterleaved(s, start, p, id, i, o.instruct);
    var half := InstructEnds(s, start, p, i, o.instruct);
    if half.procs[p].PayoutRead? {
      OthersPass(s, half, p, o.between);
      AskInterleaved(s, HalfWay(s, w, p, i, o), p, id, j, o.ask);
    }
  }

  lemma GrantsFirst(s: Settings, w: World, p: Proc, id: Id, i: Input)
    requires p in w.procs && w.procs[p] == AdvanceStart(id) && i.granted
    ensures RunStep(s, w, p, i) == At(w, p, InstructRead(id))
  {
  }

  /** So whoever races, the service leaves consistent tables and meets only the provider's exceptions. */
  lemma AdvanceRacedKeeps(s: Settings, w: World, p: Proc, id: Id, i: Input, j: Input, o: Breaks)
    requires Inv(s, w) && p in w.procs && w.procs[p] == AdvanceStart(id) && i.granted && Break(o, p)
    requires CanAnswer(After(s, Go(s, Started(s, w, p, i, o), p, i), o.instruct.before).bank, id, i.newRef)
    ensures var r := AdvanceRaced(w.t, w.bank, id, WeatherOf(s, w, p, i, j, o));
            && Consistent(s, r.t, r.bank, AdvanceEnds(s, w, p, i, j, o).origin)
            && (r.fault == None || Expected(r.fault.value))
  {
    hide Inv, Consistent, AdvanceRaced, AdvanceEnds, WeatherOf;
    AdvanceInterleaved(s, w, p, id, i, j, o);
    var e := AdvanceEnds(s, w, p, i, j, o);
    InvConsistent(s, e);
    PcHolds(s, e, p);
  }

  // --- a whole create -----------------------------------------------------------------------------------------

  /** Others' runs during a create. */
  datatype Pauses = Pauses(screened: seq<Action>, checked: seq<Action>, summed: seq<Action>, covered: seq<Action>,
                           stopped: seq<Action>)

  predicate Pause(o: Pauses, p: Proc) {
    Others(o.screened, p) && Others(o.checked, p) && Others(o.summed, p) && Others(o.covered, p) && Others(o.stopped, p)
  }

  /** The worlds in which p looks at its token, takes the first sum, takes the second (if apart), and commits. */
  function Looking(s: Settings, w: World, p: Proc, i: Input, o: Pauses): World {
    After(s, Go(s, w, p, i), o.screened)
  }

  function Summing(s: Settings, w: World, p: Proc, i: Input, o: Pauses): World {
    After(s, Go(s, Looking(s, w, p, i, o), p, i), o.checked)
  }

  function Owing(s: Settings, w: World, p: Proc, i: Input, o: Pauses): World {
    After(s, Go(s, Summing(s, w, p, i, o), p, i), o.summed)
  }

  function Committing(s: Settings, w: World, p: Proc, i: Input, o: Pauses): World {
    After(s, Go(s, Owing(s, w, p, i, o), p, i), o.covered)
  }

  /** A create that has ended, but for its replay: p answers after others have moved once more. */
  function Answers(s: Settings, w: World, p: Proc, i: Input, o: Pauses): World {
    if p in w.procs && w.procs[p].CreateReplay? then Go(s, After(s, w, o.stopped), p, i) else w
  }

  /** The world in which a create reading the float in two sums has ended, but for its replay. */
  function CreateStops(s: Settings, w: World, p: Proc, i: Input, o: Pauses): World {
    var screened := Go(s, w, p, i);
    if p !in screened.procs || !screened.procs[p].CreateScreened? then screened
    else
      var checked := Go(s, Looking(s, w, p, i, o), p, i);
      if p !in checked.procs || !checked.procs[p].CreateChecked? then checked
      else
        var covered := Go(s, Owing(s, w, p, i, o), p, i);
        if p !in covered.procs || !covered.procs[p].CreateCovered? then covered
        else Go(s, Committing(s, w, p, i, o), p, i)
  }

  function CreateRuns(s: Settings, w: World, p: Proc, i: Input, o: Pauses): World {
    Answers(s, CreateStops(s, w, p, i, o), p, i, o)
  }

  /** What the service is told. */
  function MomentsOf(s: Settings, w: World, p: Proc, i: Input, o: Pauses): Moments {
    Moments(Some(Looking(s, w, p, i, o).t), Some(Summing(s, w, p, i, o).t), Some(Owing(s, w, p, i, o).t),
            Some(Committing(s, w, p, i, o).t), Some(After(s, CreateStops(s, w, p, i, o), o.stopped).t))
  }

  /** Where the service's answer puts the process. */
  function Answered(r: Created): Pc {
    match r
    case Made(id, _) => AdvanceStart(id)
    case Found(id) => Done(Replayed(id))
    case Turned(reason) => Done(Refused(reason))
    case Broke(fault) => Done(Raised(fault))
  }

  lemma ScreensFirst(s: Settings, w: World, p: Proc, a: CreateArgs, i: Input)
    requires p in w.procs && w.procs[p] == CreateStart(a)
    ensures var w' := RunStep(s, w, p, i);
            && w'.t == w.t
            && w'.procs[p] == match ScreenSpec(w.t, a, i.screening, i.now)
                              case Some(reason) => Done(Refused(reason))
                              case None => CreateScreened(a)
  {
    hide Assessable;
  }

  lemma ChecksNext(s: Settings, w: World, p: Proc, a: CreateArgs, i: Input)
    requires p in w.procs && w.procs[p] == CreateScreened(a) && w.floatLock == None
    ensures var w' := RunStep(s, w, p, i);
            && w'.t == w.t
            && match CheckToken(s, w.t, a, i.now)
               case Err(stop) => w'.procs[p] == Stopped(a, stop)
               case Ok((pin, payout)) => w'.procs[p] == CreateChecked(a, pin, payout) && w'.floatLock == Some(p)
  {
    hide CheckToken;
  }

  lemma SumsNext(s: Settings, w: World, p: Proc, a: CreateArgs, pin: Pin, payout: Cents, i: Input)
    requires p in w.procs && w.procs[p] == CreateChecked(a, pin, payout) && !i.oneRead
    ensures var w' := RunStep(s, w, p, i);
            && w'.t == w.t && w'.floatLock == w.floatLock
            && w'.procs[p] == CreateHalfRead(a, pin, payout, BalanceOf(w.t.ledger, Settlement), |w.t.ledger|)
  {
    hide BalanceOf;
  }

  lemma CoversNext(s: Settings, w: World, p: Proc, a: CreateArgs, pin: Pin, payout: Cents, settlement: Cents, at: nat,
                   i: Input)
    requires p in w.procs && w.procs[p] == CreateHalfRead(a, pin, payout, settlement, at)
    ensures var w' := RunStep(s, w, p, i);
            && w'.t == w.t
            && if payout > settlement + BalanceOf(w.t.ledger, UserPayable) then
                 w'.procs[p] == Done(Refused("insufficient_float"))
               else
                 && w'.floatLock == w.floatLock
                 && w'.procs[p].CreateCovered? && w'.procs[p].a == a && w'.procs[p].pin == pin
  {
    hide BalanceOf;
  }

  lemma CommitsLast(s: Settings, w: World, p: Proc, i: Input)
    requires p in w.procs && w.procs[p].CreateCovered?
    ensures var w' := RunStep(s, w, p, i);
            var a, pin := w.procs[p].a, w.procs[p].pin;
            match CommitCharge(s, w.t, a, pin, i.references, i.now)
            case Err(stop) => w'.t == w.t && w'.procs[p] == Stopped(a, stop)
            case Ok(t') => w'.t == t' && w'.procs[p] == AdvanceStart(|w.t.deposits|)
  {
    hide CommitCharge;
  }

  lemma AnswersReplay(s: Settings, w: World, p: Proc, a: CreateArgs, i: Input)
    requires p in w.procs && w.procs[p] == CreateReplay(a)
    ensures var w' := RunStep(s, w, p, i); w'.t == w.t && w'.procs[p] == Answered(StopSpec(w.t, a, Replay))
  {
    hide ReplayOf;
  }

  /** Where the charging transaction stops, and with what, as the service has it. */
  function ChargeStops(s: Settings, t: Tables, a: CreateArgs, references: seq<string>, now: int, m: Moments)
    : (Pc, Tables)
  {
    match ChargeRaced(s, t, a, references, now, m)
    case Ok(t') => (AdvanceStart(|StoppedAt(s, t, a, now, m).deposits|), t')
    case Err(stop) => (Stopped(a, stop), StoppedAt(s, t, a, now, m))
  }

  /** The charging transaction, from its look at the token on. */
  lemma ChargeInterleaved(s: Settings, w: World, p: Proc, a: CreateArgs, i: Input, o: Pauses)
    requires Inv(s, w) && p in w.procs && w.procs[p] == CreateStart(a) && !i.oneRead && Pause(o, p)
    requires ScreenSpec(w.t, a, i.screening, i.now) == None && Looking(s, w, p, i, o).floatLock == None
    ensures var e := CreateStops(s, w, p, i, o);
            var spec := ChargeStops(s, Looking(s, w, p, i, o).t, a, i.references, i.now, MomentsOf(s, w, p, i, o));
            Inv(s, e) && p in e.procs && e.t == spec.1 && e.procs[p] == spec.0
  {
    hide Inv, Go, Others, CheckToken, CommitCharge, BalanceOf, RunStep, ScreenSpec, Stopped, After;
    GoKeeps(s, w, p, i);
    ScreensFirst(s, w, p, a, i);
    OthersPass(s, Go(s, w, p, i), p, o.screened);
    var looking := Looking(s, w, p, i, o);
    GoKeeps(s, looking, p, i);
    ChecksNext(s, looking, p, a, i);
    StoppedElsewhere(a);
    match CheckToken(s, looking.t, a, i.now)
    case Err(stop) =>
    case Ok((pin, payout)) =>
      OthersPass(s, Go(s, looking, p, i), p, o.checked);
      var summing := Summing(s, w, p, i, o);
      GoKeeps(s, summing, p, i);
      SumsNext(s, summing, p, a, pin, payout, i);
      OthersPass(s, Go(s, summing, p, i), p, o.summed);
      var owing := Owing(s, w, p, i, o);
      GoKeeps(s, owing, p, i);
      CoversNext(s, owing, p, a, pin, payout, BalanceOf(summing.t.ledger, Settlement), |summing.t.ledger|, i);
      var covered := Go(s, owing, p, i);
      if covered.procs[p].CreateCovered? {
        OthersPass(s, covered, p, o.covered);
        var committing := Committing(s, w, p, i, o);
        GoKeeps(s, committing, p, i);
        CommitsLast(s, committing, p, i);
      }
  }

  lemma StoppedElsewhere(a: CreateArgs)
    ensures forall stop :: !Stopped(a, stop).CreateChecked? && !Stopped(a, stop).CreateCovered?
    ensures Stopped(a, Refuse("insufficient_float")) == Done(Refused("insufficient_float"))
  {
  }

  /**
   A create interleaved with anything, its float check read in two sums: from a world the invariant holds of,
   `CreateRaced` comes to exactly the tables and the answer that `After` gives.
   */
  lemma CreateInterleaved(s: Settings, w: World, p: Proc, a: CreateArgs, i: Input, o: Pauses)
    requires Inv(s, w) && p in w.procs && w.procs[p] == CreateStart(a) && !i.oneRead && Pause(o, p)
    requires Looking(s, w, p, i, o).floatLock == None
    ensures var e := CreateRuns(s, w, p, i, o);
            var spec := CreateRaced(s, w.t, a, i.screening, i.references, i.now, MomentsOf(s, w, p, i, o));
            Inv(s, e) && p in e.procs && e.t == spec.t && e.procs[p] == Answered(spec.r)
  {
    hide Inv, Others, CreateRaced, ScreenSpec, CreateRuns, MomentsOf, Looking, Answered;
    if ScreenSpec(w.t, a, i.screening, i.now) == None {
      PassedInterleaved(s, w, p, a, i, o);
    } else {
      RefusedAtOnce(s, w, p, a, i, o);
    }
  }

  lemma PassedInterleaved(s: Settings, w: World, p: Proc, a: CreateArgs, i: Input, o: Pauses)
    requires Inv(s, w) && p in w.procs && w.procs[p] == CreateStart(a) && !i.oneRead && Pause(o, p)
    requires ScreenSpec(w.t, a, i.screening, i.now) == None && Looking(s, w, p, i, o).floatLock == None
    ensures var e := CreateRuns(s, w, p, i, o);
            var spec := CreateRaced(s, w.t, a, i.screening, i.references, i.now, MomentsOf(s, w, p, i, o));
            Inv(s, e) && p in e.procs && e.t == spec.t && e.procs[p] == Answered(spec.r)
  {
    hide Inv, Others, CreateRaced, ChargeStops, StopSpec, Looking, Summing, Owing, Committing, ScreenSpec, CreateStops,
         Go, After, Answers, Answered;
    ChargeInterleaved(s, w, p, a, i, o);
    ReplayInterleaved(s, CreateStops(s, w, p, i, o), p, a, i, o);
    RacedIs(s, w.t, a, i.screening, i.references, i.now, MomentsOf(s, w, p, i, o));
  }

  lemma ReplayInterleaved(s: Settings, w: World, p: Proc, a: CreateArgs, i: Input, o: Pauses)
    requires Inv(s, w) && p in w.procs && Others(o.stopped, p)
    ensures var e, met := Answers(s, w, p, i, o), After(s, w, o.stopped);
            if w.procs[p] == CreateReplay(a) then
              && Inv(s, e) && p in e.procs && e.t == met.t && e.procs[p] == Answered(StopSpec(met.t, a, Replay))
            else w.procs[p].CreateReplay? || e == w
  {
    hide Inv, Others, RunStep, StopSpec, Answered, Go, After;
    if w.procs[p] == CreateReplay(a) {
      OthersPass(s, w, p, o.stopped);
      GoKeeps(s, After(s, w, o.stopped), p, i);
      AnswersReplay(s, After(s, w, o.stopped), p, a, i);
    }
  }

  /** `CreateRaced` past its screening, from where its charge stops. */
  lemma RacedIs(s: Settings, t: Tables, a: CreateArgs, screening: Screening, references: seq<string>, now: int,
                m: Moments)
    requires ScreenSpec(t, a, screening, now) == None
    ensures var spec := CreateRaced(s, t, a, screening, references, now, m);
            var (pc, at) := ChargeStops(s, Later(m.screened, t), a, references, now, m);
            if pc == CreateReplay(a) then
              spec.t == Later(m.stopped, at) && Answered(spec.r) == Answered(StopSpec(spec.t, a, Replay))
            else !pc.CreateReplay? && spec.t == at && Answered(spec.r) == pc
  {
    hide ScreenSpec, ChargeRaced, StoppedAt, ReplayOf;
  }

  lemma RefusedAtOnce(s: Settings, w: World, p: Proc, a: CreateArgs, i: Input, o: Pauses)
    requires Inv(s, w) && p in w.procs && w.procs[p] == CreateStart(a)
    requires ScreenSpec(w.t, a, i.screening, i.now).Some?
    ensures var e := CreateRuns(s, w, p, i, o);
            var spec := CreateRaced(s, w.t, a, i.screening, i.references, i.now, MomentsOf(s, w, p, i, o));
            Inv(s, e) && p in e.procs && e.t == spec.t && e.procs[p] == Answered(spec.r)
  {
    hide Inv, RunStep, ScreenSpec, Go, After, ChargeRaced, StoppedAt, StopSpec, MomentsOf;
    GoKeeps(s, w, p, i);
    ScreensFirst(s, w, p, a, i);
  }

  // --- these are runs ---------------------------------------------------------------------------------------

  lemma GoIsRun(s: Settings, w: World, p: Proc, i: Input)
    ensures After(s, w, [Run(p, i)]) == Go(s, w, p, i)
  {
    assert [Run(p, i)][..0] == [];
    assert After(s, w, []) == w;
  }

  /** A step of p, and others' actions after it, continue a run. */
  lemma Extended(s: Settings, w: World, run: seq<Action>, p: Proc, i: Input, others: seq<Action>)
    returns (run': seq<Action>)
    ensures After(s, w, run') == After(s, Go(s, After(s, w, run), p, i), others)
  {
    run' := run + [Run(p, i)] + others;
    AfterConcat(s, w, run, [Run(p, i)]);
    GoIsRun(s, After(s, w, run), p, i);
    AfterConcat(s, w, run + [Run(p, i)], others);
  }

  lemma InstructIsRun(s: Settings, w: World, run: seq<Action>, p: Proc, i: Input, o: Asides) returns (run': seq<Action>)
    ensures After(s, w, run') == InstructEnds(s, After(s, w, run), p, i, o)
  {
    hide Go, After;
    run' := Extended(s, w, run, p, i, []);
    NoMore(s, Go(s, After(s, w, run), p, i));
    var read := Go(s, After(s, w, run), p, i);
    if p in read.procs && read.procs[p].InstructCall? {
      var run1 := Extended(s, w, run, p, i, o.before);
      run' := Extended(s, w, run1, p, i, []);
      NoMore(s, Go(s, After(s, w, run1), p, i));
      var called := Go(s, After(s, w, run1), p, i);
      if p in called.procs && called.procs[p].InstructRecord? {
        var run2 := Extended(s, w, run1, p, i, o.after);
        run' := Extended(s, w, run2, p, i, []);
        NoMore(s, Go(s, After(s, w, run2), p, i));
      }
    }
  }

  lemma NoMore(s: Settings, w: World)
    ensures After(s, w, []) == w
  {
  }

  lemma AskIsRun(s: Settings, w: World, run: seq<Action>, p: Proc, i: Input, o: Asides) returns (run': seq<Action>)
    ensures After(s, w, run') == AskEnds(s, After(s, w, run), p, i, o)
  {
    hide Go, After;
    run' := Extended(s, w, run, p, i, []);
    NoMore(s, Go(s, After(s, w, run), p, i));
    var read := Go(s, After(s, w, run), p, i);
    if p in read.procs && read.procs[p].PayoutAsk? {
      var run1 := Extended(s, w, run, p, i, o.before);
      run' := Extended(s, w, run1, p, i, []);
      NoMore(s, Go(s, After(s, w, run1), p, i));
      var asked := Go(s, After(s, w, run1), p, i);
      if p in asked.procs && asked.procs[p].PayoutRecord? {
        var run2 := Extended(s, w, run1, p, i, o.after);
        run' := Extended(s, w, run2, p, i, []);
        NoMore(s, Go(s, After(s, w, run2), p, i));
      }
    }
  }

  /** Where an interleaved advance and create end are states of a run of the protocol. */
  lemma AdvanceIsRun(s: Settings, w: World, p: Proc, i: Input, j: Input, o: Breaks) returns (run: seq<Action>)
    ensures After(s, w, run) == AdvanceEnds(s, w, p, i, j, o)
  {
    hide Go, After, InstructEnds, AskEnds;
    NoMore(s, w);
    var begun := Extended(s, w, [], p, i, o.start);
    run := InstructIsRun(s, w, begun, p, i, o.instruct);
    var half := After(s, w, run);
    if p in half.procs && half.procs[p].PayoutRead? {
      AfterConcat(s, w, run, o.between);
      run := AskIsRun(s, w, run + o.between, p, j, o.ask);
    }
  }

  lemma CreateIsRun(s: Settings, w: World, p: Proc, i: Input, o: Pauses) returns (run: seq<Action>)
    ensures After(s, w, run) == CreateRuns(s, w, p, i, o)
  {
    hide Go, After;
    NoMore(s, w);
    var looking := Extended(s, w, [], p, i, o.screened);
    var summing := Extended(s, w, looking, p, i, o.checked);
    var owing := Extended(s, w, summing, p, i, o.summed);
    var committing := Extended(s, w, owing, p, i, o.covered);
    var screened := Go(s, w, p, i);
    var checked := Go(s, After(s, w, looking), p, i);
    var covered := Go(s, After(s, w, owing), p, i);
    var last :=
      if p !in screened.procs || !screened.procs[p].CreateScreened? then []
      else if p !in checked.procs || !checked.procs[p].CreateChecked? then looking
      else if p !in covered.procs || !covered.procs[p].CreateCovered? then owing
      else committing;
    run := Extended(s, w, last, p, i, []);
    NoMore(s, Go(s, After(s, w, last), p, i));
    assert After(s, w, run) == CreateStops(s, w, p, i, o);
    if p in After(s, w, run).procs && After(s, w, run).procs[p].CreateReplay? {
      AfterConcat(s, w, run, o.stopped);
      var again := Extended(s, w, run + o.stopped, p, i, []);
      NoMore(s, Go(s, After(s, w, run + o.stopped), p, i));
      run := again;
    }
  }
}
