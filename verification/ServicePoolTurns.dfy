/** The pool of `ServicePool` under a given schedule: before each step of the runner some of the services'
    goroutines go on. What becomes of the pool is a function of the schedule. */
module ServicePoolTurns {
  import opened Wrappers
  import opened ServicePool

  /** A call of the state hook: service `i` is now in `state`, with the error of its lifecycle. */
  datatype Call = Call(i: nat, state: State, error: Error)

  /** What a service's goroutine does next: call the hook, or go on inside it. */
  datatype Part = Begin(call: Call) | GoOn(i: nat)

  /** What happens before the runner looks at its channels, and which one it takes if both are ready. */
  datatype Turn = Turn(parts: seq<Part>, contextDone: bool, stopFirst: bool)

  /** The hook runs inside `Lifecycle.Run`: Starting first, then Running and Stopping, and one end. */
  predicate CanCall(services: seq<Service>, c: Call) {
    c.i < |services| && if c.state.Starting? then services[c.i].at.NotRun? else services[c.i].at.Body?
  }

  function CallStep(c: Call): Step {
    match c.state
    case Starting => Start(c.i)
    case Running => CallRunning(c.i)
    case Stopping => CallStopping(c.i)
    case Stopped => End(c.i, None)
    case Crashed => End(c.i, Some(c.error))
  }

  /** The next part of the hook that service `i` is in. */
  function GoOnStep(p: Pool, i: nat): Option<Step> {
    if i >= |p.services| then None
    else match p.services[i].at
      case AtStartup => Some(SendStartup(i))
      case AtStopping => Some(Trigger(i))
      case AtError(_) => Some(SetError(i))
      case AtEnd => Some(Trigger(i))
      case AtStop => Some(SendStop(i))
      case _ => None
  }

  function PartStep(p: Pool, part: Part): Option<Step> {
    match part
    case Begin(c) => if CanCall(p.services, c) then Some(CallStep(c)) else None
    case GoOn(i) => GoOnStep(p, i)
  }

  /** What the runner does when it looks. */
  function RunnerStep(p: Pool, contextDone: bool, stopFirst: bool): Option<Step> {
    match p.runner
    case Counting(i) =>
      if i == |p.services| then Some(Announce)
      else if p.stop > 0 && (p.startup == 0 || stopFirst) then Some(TakeStop)
      else if p.startup > 0 then Some(TakeStartup)
      else None
    case Announced =>
      if p.stop > 0 && (stopFirst || !contextDone) then Some(TakeStop)
      else if contextDone then Some(ContextDone)
      else None
    case Aborting(_) => Some(StopAll)
    case Draining(missing) =>
      if missing == 0 then Some(Return) else if p.stop > 0 then Some(TakeStop) else None
    case Returned(_) => None
  }

  function Do(p: Pool, s: Option<Step>): Pool {
    if s.Some? && Enabled(p, s.value) then Next(p, s.value) else p
  }

  function Parts(p: Pool, parts: seq<Part>): Pool {
    if parts == [] then p
    else
      var q := Parts(p, parts[..|parts| - 1]);
      Do(q, PartStep(q, parts[|parts| - 1]))
  }

  function Moved(p: Pool, t: Turn): Pool { Do(p, RunnerStep(p, t.contextDone, t.stopFirst)) }

  /** The pool after these turns. */
  function Drive(p: Pool, turns: seq<Turn>): Pool {
    if turns == [] then p
    else
      var n := |turns| - 1;
      Moved(Parts(Drive(p, turns[..n]), turns[n].parts), turns[n])
  }

  /** What the runner tells the pool's own lifecycle in the turn that it is about to take. */
  function Word(p: Pool): seq<State> {
    if p.runner == Counting(|p.services|) then [Running] else if p.runner.Aborting? then [Stopping] else []
  }

  /** What it tells in all these turns. */
  function Words(p: Pool, turns: seq<Turn>): seq<State> {
    if turns == [] then [] else Words(p, turns[..|turns| - 1]) + Word(Drive(p, turns[..|turns| - 1]))
  }

  /** What it has told, by where it has got to. */
  ghost predicate WordsFit(p: Pool, words: seq<State>) {
    match p.runner
    case Counting(_) => words == []
    case Announced => words == [Running]
    case Aborting(_) => words == [] || words == [Running]
    case Draining(_) => words == [Stopping] || words == [Running] || words == [Running, Stopping]
    case Returned(_) => words == [Stopping] || words == [Running] || words == [Running, Stopping]
  }

  lemma PartsKeepRunner(p: Pool, part: Part)
    ensures var q := Do(p, PartStep(p, part)); q.runner == p.runner && |q.services| == |p.services|
  {
    var s := PartStep(p, part);
    if s.Some? && Enabled(p, s.value) { OneService(p, s.value); }
  }

  lemma {:induction false} RunnerStays(p: Pool, parts: seq<Part>)
    ensures Parts(p, parts).runner == p.runner && |Parts(p, parts).services| == |p.services|
  {
    if parts != [] {
      RunnerStays(p, parts[..|parts| - 1]);
      PartsKeepRunner(Parts(p, parts[..|parts| - 1]), parts[|parts| - 1]);
    }
  }

  /** In every schedule the runner says Running once at most, and then Stopping once at most. */
  lemma {:induction false} WordsAre(p: Pool, turns: seq<Turn>)
    requires IsStart(p)
    ensures WordsFit(Drive(p, turns), Words(p, turns)) && |Drive(p, turns).services| == |p.services|
  {
    if turns != [] {
      var n := |turns| - 1;
      WordsAre(p, turns[..n]);
      var q := Drive(p, turns[..n]);
      RunnerStays(q, turns[n].parts);
      WordStep(Parts(q, turns[n].parts), turns[n], Words(p, turns[..n]));
    }
  }

  lemma WordStep(p: Pool, t: Turn, words: seq<State>)
    requires WordsFit(p, words)
    ensures WordsFit(Moved(p, t), words + Word(p)) && |Moved(p, t).services| == |p.services|
  {
  }

  // Every schedule makes a run.

  lemma OneMore(p: Pool, e: seq<Step>, s: Option<Step>) returns (e': seq<Step>)
    requires IsRun(p, e)
    ensures IsRun(p, e') && After(p, e') == Do(After(p, e), s)
  {
    hide IsRun, After;
    e' := e;
    if s.Some? && Enabled(After(p, e), s.value) { e' := Then(p, e, s.value); }
  }

  lemma {:induction false} PartsRun(p: Pool, e: seq<Step>, parts: seq<Part>) returns (e': seq<Step>)
    requires IsRun(p, e)
    ensures IsRun(p, e') && After(p, e') == Parts(After(p, e), parts)
    decreases |parts|
  {
    e' := e;
    if parts != [] {
      hide IsRun, After;
      e' := PartsRun(p, e, parts[..|parts| - 1]);
      e' := OneMore(p, e', PartStep(After(p, e'), parts[|parts| - 1]));
    }
  }

  lemma {:induction false} DriveRun(p: Pool, turns: seq<Turn>) returns (e: seq<Step>)
    ensures IsRun(p, e) && After(p, e) == Drive(p, turns)
    decreases |turns|
  {
    if turns == [] {
      e := ServicePool.Begin(p);
    } else {
      hide IsRun, After;
      var n := |turns| - 1;
      e := DriveRun(p, turns[..n]);
      e := PartsRun(p, e, turns[n].parts);
      var q := After(p, e);
      e := OneMore(p, e, RunnerStep(q, turns[n].contextDone, turns[n].stopFirst));
    }
  }

  // Every run is a schedule.

  function PartOf(s: Step): Part
    requires OfService(s)
  {
    match s
    case Start(i) => Begin(Call(i, Starting, ""))
    case CallRunning(i) => Begin(Call(i, Running, ""))
    case CallStopping(i) => Begin(Call(i, Stopping, ""))
    case End(i, failure) => Begin(if failure.Some? then Call(i, Crashed, failure.value) else Call(i, Stopped, ""))
    case SendStartup(i) => GoOn(i)
    case SetError(i) => GoOn(i)
    case Trigger(i) => GoOn(i)
    case SendStop(i) => GoOn(i)
  }

  lemma PartDoes(p: Pool, s: Step)
    requires OfService(s) && Enabled(p, s)
    ensures PartStep(p, PartOf(s)) == Some(s)
  {
  }

  /** The choice of channel that makes the runner take this step. */
  lemma RunnerDoes(p: Pool, s: Step)
    requires !OfService(s) && Enabled(p, s)
    ensures RunnerStep(p, s.ContextDone?, s.TakeStop?) == Some(s)
  {
  }

  /** Every run up to a step of the runner, however the goroutines interleave, is that of some schedule; so is
      every other run, but for the parts that come after the runner's last step. */
  lemma {:induction false} EveryRun(p: Pool, e: seq<Step>) returns (turns: seq<Turn>, parts: seq<Part>)
    requires IsRun(p, e)
    ensures Parts(Drive(p, turns), parts) == After(p, e)
    ensures e != [] && !OfService(e[|e| - 1]) ==> parts == [] && Drive(p, turns) == After(p, e)
    decreases |e|
  {
    if e == [] {
      turns, parts := [], [];
    } else {
      var s := e[|e| - 1];
      turns, parts := EveryRun(p, e[..|e| - 1]);
      var q := After(p, e[..|e| - 1]);
      hide IsRun, Enabled, PartStep, RunnerStep, OfService, Next;
      if OfService(s) {
        PartDoes(q, s);
        parts := parts + [PartOf(s)];
        assert parts[..|parts| - 1] + [PartOf(s)] == parts;
      } else {
        RunnerDoes(q, s);
        var t := Turn(parts, s.ContextDone?, s.TakeStop?);
        assert (turns + [t])[..|turns|] == turns;
        turns, parts := turns + [t], [];
      }
    }
  }

  /** A pool without a startup token left over, whose services reach Running once at most, says Running only when
      all have reached it. */
  lemma {:induction false} RunningIsSound(p: Pool, turns: seq<Turn>, t: nat)
    requires IsStart(p) && p.startup == 0 && t < |turns| && Running in Word(Drive(p, turns[..t]))
    ensures var ss := Parts(Drive(p, turns[..t]), turns[t].parts).services; OnceEach(ss) ==> AllEntered(ss)
  {
    hide Drive, Parts, IsRun, After, OnceEach, AllEntered;
    var e := DriveRun(p, turns[..t]);
    e := PartsRun(p, e, turns[t].parts);
    var q := After(p, e);
    RunnerStays(Drive(p, turns[..t]), turns[t].parts);
    e := Then(p, e, Announce);
    ReadinessIff(p);
    assert !Premature(p, e);
  }

  // When the pool returns.

  ghost predicate AllDone(p: Pool) { forall i | 0 <= i < |p.services| :: p.services[i].at.Done? }

  /** Turns that the runner needs at most once all services have ended. */
  function Wait(p: Pool): nat {
    match p.runner
    case Counting(_) => |p.services| + 4 + p.startup
    case Announced => |p.services| + 3
    case Aborting(missing) => missing + 2
    case Draining(missing) => missing + 1
    case Returned(_) => 0
  }

  /** The stop tokens that the runner waits for are there. */
  ghost predicate Ready(p: Pool) { AllDone(p) && Stocked(p) }

  ghost predicate Stocked(p: Pool) {
    && p.startup <= 1 && 0 <= Taken(p) && Taken(p) + p.stop == |p.services|
    && (p.runner.Counting? ==> p.runner.received <= |p.services|)
  }

  lemma {:induction false} DoneIsReady(p: Pool, turns: seq<Turn>)
    requires IsStart(p) && AllDone(Drive(p, turns))
    ensures Ready(Drive(p, turns)) && |Drive(p, turns).services| == |p.services|
  {
    hide Drive;
    var e := DriveRun(p, turns);
    RunKeeps(p, e);
    NoneUnsent(Drive(p, turns).services);
  }

  /** Then it takes one of them, or goes on without. */
  lemma ReadyMoves(p: Pool, t: Turn)
    requires Ready(p) && (p.services != [] || t.contextDone)
    ensures Ready(Moved(p, t)) && Moved(p, t).services == p.services
    ensures p.runner.Returned? || Wait(Moved(p, t)) < Wait(p)
  {
    hide Stocked, Moved, Wait;
    SameRunnerServices(p, t);
    if p.runner.Counting? { CountingMoves(p, t); } else { LaterMoves(p, t); }
  }

  lemma CountingMoves(p: Pool, t: Turn)
    requires Stocked(p) && (p.services != [] || t.contextDone) && p.runner.Counting?
    ensures Stocked(Moved(p, t)) && Wait(Moved(p, t)) < Wait(p)
  {
  }

  lemma LaterMoves(p: Pool, t: Turn)
    requires Stocked(p) && (p.services != [] || t.contextDone) && !p.runner.Counting?
    ensures Stocked(Moved(p, t)) && (p.runner.Returned? || Wait(Moved(p, t)) < Wait(p))
  {
  }

  lemma {:induction false} DriveLast(p: Pool, turns: seq<Turn>)
    requires turns != []
    ensures var n := |turns| - 1; Drive(p, turns) == Moved(Parts(Drive(p, turns[..n]), turns[n].parts), turns[n])
  {
  }

  /** The last of some turns in which no service goes on. */
  lemma {:induction false} IdleTurn(p: Pool, turns: seq<Turn>, idle: seq<Turn>)
    requires idle != [] && idle[|idle| - 1].parts == []
    ensures var n := |idle| - 1; Drive(p, turns + idle) == Moved(Drive(p, turns + idle[..n]), idle[n])
  {
    var n := |idle| - 1;
    DriveLast(p, turns + idle);
    hide Moved, Drive;
    assert (turns + idle)[..|turns| + n] == turns + idle[..n] && (turns + idle)[|turns| + n] == idle[n];
  }

  lemma {:induction false} ReadyReturns(p: Pool, turns: seq<Turn>, idle: seq<Turn>)
    requires Ready(Drive(p, turns)) && forall t | t in idle :: t.parts == [] && (p.services != [] || t.contextDone)
    requires |Drive(p, turns).services| == |p.services|
    ensures var q := Drive(p, turns + idle);
      && Ready(q) && |q.services| == |p.services|
      && (q.runner.Returned? || Wait(q) + |idle| <= Wait(Drive(p, turns)))
    decreases |idle|
  {
    if idle == [] {
      assert turns + idle == turns;
    } else {
      hide Ready, Wait, Moved, Drive;
      var n := |idle| - 1;
      ReadyReturns(p, turns, idle[..n]);
      var q := Drive(p, turns + idle[..n]);
      assert idle[n] in idle;
      IdleTurn(p, turns, idle);
      ReadyMoves(q, idle[n]);
      if q.runner.Returned? { ReturnedStays(q, idle[n]); }
    }
  }

  lemma ReturnedStays(p: Pool, t: Turn)
    requires p.runner.Returned?
    ensures Moved(p, t) == p
  {
  }

  lemma {:induction false} IdleServices(p: Pool, turns: seq<Turn>, idle: seq<Turn>)
    requires forall t | t in idle :: t.parts == []
    ensures Drive(p, turns + idle).services == Drive(p, turns).services
    decreases |idle|
  {
    if idle == [] {
      assert turns + idle == turns;
    } else {
      hide Moved;
      var n := |idle| - 1;
      IdleServices(p, turns, idle[..n]);
      assert idle[n] in idle;
      IdleTurn(p, turns, idle);
      SameRunnerServices(Drive(p, turns + idle[..n]), idle[n]);
    }
  }

  lemma SameRunnerServices(p: Pool, t: Turn)
    ensures Moved(p, t).services == p.services
  {
  }

  /** Whatever has happened, and whichever channel it prefers: given a few more looks at its channels (and, for a
      pool without services, a context that is done), the pool returns exactly if all its services have ended. */
  lemma {:induction false} ReturnsIff(p: Pool, turns: seq<Turn>, idle: seq<Turn>)
    requires IsStart(p) && forall t | t in idle :: t.parts == [] && (p.services != [] || t.contextDone)
    requires |idle| >= |p.services| + 5
    ensures Drive(p, turns + idle).runner.Returned? <==> AllDone(Drive(p, turns))
  {
    hide Drive;
    IdleServices(p, turns, idle);
    var e := DriveRun(p, turns + idle);
    Completion(p, e);
    if AllDone(Drive(p, turns)) {
      DoneIsReady(p, turns);
      ReadyReturns(p, turns, idle);
    }
  }

  // After the return nothing changes.

  lemma DoneParts(p: Pool, part: Part)
    requires AllDone(p)
    ensures Do(p, PartStep(p, part)) == p
  {
  }

  lemma {:induction false} PartsOver(p: Pool, parts: seq<Part>)
    requires AllDone(p)
    ensures Parts(p, parts) == p
  {
    if parts != [] {
      PartsOver(p, parts[..|parts| - 1]);
      DoneParts(p, parts[|parts| - 1]);
    }
  }

  lemma {:induction false} OverLast(p: Pool, turns: seq<Turn>)
    requires IsStart(p) && turns != [] && Drive(p, turns[..|turns| - 1]).runner.Returned?
    ensures Drive(p, turns) == Drive(p, turns[..|turns| - 1]) && Words(p, turns) == Words(p, turns[..|turns| - 1])
  {
    hide Drive, Moved, Parts, IsRun, After;
    var n := |turns| - 1;
    var q := Drive(p, turns[..n]);
    var e := DriveRun(p, turns[..n]);
    Completion(p, e);
    PartsOver(q, turns[n].parts);
    ReturnedStays(q, turns[n]);
    DriveLast(p, turns);
  }

  lemma {:induction false} DriveOver(p: Pool, turns: seq<Turn>, t: nat)
    requires IsStart(p) && t <= |turns| && Drive(p, turns[..t]).runner.Returned?
    ensures Drive(p, turns) == Drive(p, turns[..t]) && Words(p, turns) == Words(p, turns[..t])
    decreases |turns|
  {
    hide *;
    if t == |turns| {
      assert turns[..t] == turns;
    } else {
      var n := |turns| - 1;
      assert turns[..n][..t] == turns[..t];
      DriveOver(p, turns[..n], t);
      OverLast(p, turns);
    }
  }

  /** One turn more. */
  lemma {:induction false} DriveMore(p: Pool, turns: seq<Turn>, t: nat)
    requires t < |turns|
    ensures Drive(p, turns[..t + 1]) == Moved(Parts(Drive(p, turns[..t]), turns[t].parts), turns[t])
    ensures Words(p, turns[..t + 1]) == Words(p, turns[..t]) + Word(Drive(p, turns[..t]))
  {
    assert turns[..t + 1][..t] == turns[..t];
  }
}
