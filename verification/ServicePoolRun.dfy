/** The pool object of `service/pool_impl.go`. Its methods are the runner and the state hook; what the other
    goroutines do before each step of the runner is a parameter. Every method follows the steps of `ServicePool`,
    and a whole run is where its schedule leads in `ServicePoolTurns`. */
module ServicePoolRun {
  import opened Wrappers
  import P = ServicePool
  import opened T = ServicePoolTurns

  class Pool {
    var services: seq<P.Service>
    var startup: nat
    var stop: nat
    var stopping: bool
    var lastError: Option<P.Error>
    var stopCalls: seq<nat>          // services on whose lifecycle Stop was called
    var said: seq<P.State>           // what the pool told its own lifecycle
    ghost var before: nat            // calls of Stop before this run
    ghost var fanouts: nat
    ghost var runner: P.Runner
    ghost var origin: P.Pool         // the start of this run
    ghost var trace: seq<P.Step>     // the steps since

    ghost function View(): P.Pool
      reads this
    {
      P.Pool(services, startup, stop, stopping, fanouts, lastError, runner)
    }

    ghost predicate Valid()
      reads this
    {
      P.IsStart(origin) && P.IsRun(origin, trace) && View() == P.After(origin, trace) && Called()
    }

    /** In this run `Stop` was called once on every service, or on none. */
    ghost predicate Called()
      reads this
    {
      before <= |stopCalls| && stopCalls[before..] == if stopping then Everyone(|services|) else []
    }

    static function Everyone(n: nat): seq<nat> { seq(n, i => i) }

    /** Each of `n` services occurs once in `calls`, and nothing else does. */
    static ghost predicate EachOnce(calls: seq<nat>, n: nat) {
      forall i: nat :: multiset(calls)[i] == if i < n then 1 else 0
    }

    static lemma {:induction false} EveryoneOnce(n: nat)
      ensures EachOnce(Everyone(n), n)
    {
      if n > 0 {
        EveryoneOnce(n - 1);
        assert Everyone(n) == Everyone(n - 1) + [n - 1];
      } else {
        assert Everyone(0) == [];
      }
    }

    /** A runner that waits for the rest has had everyone told. */
    lemma AllTold()
      requires Valid() && (runner.Draining? || runner.Returned?)
      ensures before <= |stopCalls| && EachOnce(stopCalls[before..], |services|)
    {
      P.Completion(origin, trace);
      EveryoneOnce(|services|);
      hide P.IsRun, P.After, P.IsStart;
    }

    /** A new pool, before its run. */
    constructor (n: nat)
      ensures Valid() && View() == P.NewPool(n) == origin && stopCalls == [] && said == []
    {
      services := seq(n, _ => P.Service(P.Stopped, P.NotRun, 0, None));
      startup, stop, stopping, lastError, stopCalls, said, fanouts, before := 0, 0, false, None, [], [], 0, 0;
      runner, trace, origin := P.Counting(0), [], P.NewPool(n);
    }

    /** The state is the next one after `s`; the step is added to the trace. */
    ghost method Note(was: P.Pool, s: P.Step)
      requires P.IsStart(origin) && P.IsRun(origin, trace) && was == P.After(origin, trace)
      requires P.Enabled(was, s) && View() == P.Next(was, s) && Called()
      modifies this`trace
      ensures Valid()
    {
      trace := P.Then(origin, trace, s);
    }

    /** The first call, and only that, calls `Stop` once on every service. */
    method TriggerStop()
      requires Called()
      modifies this`stopping, this`fanouts, this`stopCalls
      ensures View() == P.TriggerStop(old(View())) && Called() && stopping
      ensures stopCalls == old(stopCalls) + if old(stopping) then [] else seq(|services|, i => i)
    {
      if stopping { return; }
      stopping, fanouts := true, fanouts + 1;
      for k := 0 to |services|
        invariant View() == P.TriggerStop(old(View())) && services == old(services)
        invariant stopCalls == old(stopCalls) + seq(k, i => i)
      {
        stopCalls := stopCalls + [k];
        assert seq(k, i => i) + [k] == seq(k + 1, i => i);
      }
      assert stopCalls[before..] == old(stopCalls)[before..] + Everyone(|services|);
    }

    /** `onServiceStateChange` without interruption: the new state is recorded; a service that ends leaves its
        error and one stop token. */
    method OnServiceStateChange(c: Call)
      requires Valid() && CanCall(services, c)
      modifies this`services, this`startup, this`stop, this`stopping, this`lastError, this`fanouts, this`stopCalls,
        this`trace
      ensures Valid() && |services| == |old(services)| && services == old(services)[c.i := services[c.i]]
      ensures services[c.i].recorded == c.state
      ensures services[c.i].at == if c.state.Stopped? || c.state.Crashed? then P.Done else P.Body
      ensures lastError == if c.state.Crashed? then Some(c.error) else old(lastError)
      ensures stop == old(stop) + if c.state.Stopped? || c.state.Crashed? then 1 else 0
      ensures startup == if c.state.Running? && !old(services)[c.i].recorded.Running? then 1 else old(startup)
      ensures stopping == (
        || old(stopping) || c.state.Stopped? || c.state.Crashed?
        || (c.state.Stopping? && !old(services)[c.i].recorded.Stopping?))
    {
      hide P.IsRun, P.After, P.IsStart, P.Next, P.Enabled;
      StartupAtMostOne();
      var changed := BeginCall(c);
      if changed { React(c); }
    }

    lemma StartupAtMostOne()
      requires Valid()
      ensures startup <= 1
    {
      P.RunKeeps(origin, trace);
    }

    /** The locked part of the hook: a repeated state is dropped. The end of a service never is one. */
    method BeginCall(c: Call) returns (changed: bool)
      requires Valid() && CanCall(services, c)
      modifies this`services, this`trace
      ensures P.Enabled(old(View()), CallStep(c)) && View() == P.Next(old(View()), CallStep(c))
      ensures Valid() && (!changed ==> services == old(services) && services[c.i].recorded == c.state)
      ensures changed ==> services == old(services)[c.i := Entry(old(services[c.i]), c)]
      ensures c.state.Starting? || c.state.Stopped? || c.state.Crashed? ==> changed
      ensures changed <==> c.state.Starting? || old(services)[c.i].recorded != c.state
    {
      assert P.RecordOk(services[c.i]) by { P.RunKeeps(origin, trace); }
      hide P.IsRun, P.After, P.IsStart;
      var oldState := services[c.i].recorded;
      changed := oldState != c.state || c.state.Starting?;
      if changed { Record(c); }
    }

    /** The entry of a service whose state has just been set. */
    static function Entry(s: P.Service, c: Call): P.Service {
      match c.state
      case Starting => s.(recorded := P.Starting, at := P.Body)
      case Running => s.(recorded := P.Running, at := P.AtStartup, entered := s.entered + 1)
      case Stopping => s.(recorded := P.Stopping, at := P.AtStopping)
      case Stopped => s.(recorded := P.Stopped, at := P.AtEnd, failure := None)
      case Crashed => s.(recorded := P.Crashed, at := P.AtError(c.error), failure := Some(c.error))
    }

    method Record(c: Call)
      requires Valid() && CanCall(services, c) && (services[c.i].recorded == c.state ==> c.state.Starting?)
      modifies this`services, this`trace
      ensures P.Enabled(old(View()), CallStep(c)) && View() == P.Next(old(View()), CallStep(c))
      ensures Valid() && services == old(services)[c.i := Entry(old(services[c.i]), c)]
    {
      hide P.IsRun, P.After, P.IsStart;
      services := services[c.i := Entry(services[c.i], c)];
      Note(old(View()), CallStep(c));
    }

    method React(c: Call)
      requires Valid() && c.i < |services| && services[c.i].at == Entry(services[c.i], c).at
      modifies this`services, this`startup, this`stop, this`stopping, this`lastError, this`fanouts, this`stopCalls,
        this`trace
      ensures Valid()
      ensures services == old(services)[c.i := old(services[c.i]).(
        at := if c.state.Stopped? || c.state.Crashed? then P.Done else P.Body)]
      ensures lastError == if c.state.Crashed? then Some(c.error) else old(lastError)
      ensures stop == old(stop) + if c.state.Stopped? || c.state.Crashed? then 1 else 0
      ensures startup == if c.state.Running? && old(startup) == 0 then 1 else old(startup)
      ensures stopping <==> old(stopping) || c.state.Stopped? || c.state.Crashed? || c.state.Stopping?
    {
      hide P.IsRun, P.After, P.IsStart;
      match c.state {
        case Starting =>
        case Running => SendStartup(c.i);
        case Stopping => Trigger(c.i, P.Body);
        case Stopped => Finish(c.i);
        case Crashed => SetError(c.i, c.error); Finish(c.i);
      }
    }

    method SendStartup(i: nat)
      requires Valid() && P.Enabled(View(), P.SendStartup(i))
      modifies this`services, this`startup, this`trace
      ensures Valid() && View() == P.Next(old(View()), P.SendStartup(i))
      ensures startup == if old(startup) == 0 then 1 else old(startup)
    {
      hide P.IsRun, P.After, P.IsStart;
      services := services[i := services[i].(at := P.Body)];
      if startup == 0 { startup := 1; }
      Note(old(View()), P.SendStartup(i));
    }

    method SetError(i: nat, error: P.Error)
      requires Valid() && P.Is(View(), i, P.AtError(error))
      modifies this`services, this`lastError, this`trace
      ensures Valid() && View() == P.Next(old(View()), P.SetError(i))
    {
      hide P.IsRun, P.After, P.IsStart;
      services := services[i := services[i].(at := P.AtEnd)];
      lastError := Some(error);
      Note(old(View()), P.SetError(i));
    }

    method Trigger(i: nat, next: P.Point)
      requires Valid() && P.Enabled(View(), P.Trigger(i))
      requires next == if services[i].at.AtStopping? then P.Body else P.AtStop
      modifies this`services, this`stopping, this`fanouts, this`stopCalls, this`trace
      ensures Valid() && View() == P.Next(old(View()), P.Trigger(i)) && stopping
    {
      hide P.IsRun, P.After, P.IsStart;
      TriggerStop();
      services := services[i := services[i].(at := next)];
      Note(old(View()), P.Trigger(i));
    }

    /** The send finds room in the channel. */
    method SendStop(i: nat)
      requires Valid() && P.Is(View(), i, P.AtStop)
      modifies this`services, this`stop, this`trace
      ensures old(stop) < |old(services)|
      ensures Valid() && View() == P.Next(old(View()), P.SendStop(i))
    {
      P.Completion(origin, trace);
      hide P.IsRun, P.After, P.IsStart;
      services := services[i := services[i].(at := P.Done)];
      stop := stop + 1;
      Note(old(View()), P.SendStop(i));
    }

    method Finish(i: nat)
      requires Valid() && P.Is(View(), i, P.AtEnd)
      modifies this`services, this`stop, this`stopping, this`fanouts, this`stopCalls, this`trace
      ensures Valid() && services == old(services)[i := old(services[i]).(at := P.Done)]
      ensures stop == old(stop) + 1 && stopping
    {
      hide P.IsRun, P.After, P.IsStart;
      Trigger(i, P.AtStop);
      SendStop(i);
    }

    /** The next part of the hook that service `i` is in. */
    method Continue(i: nat)
      requires Valid() && i < |services|
      modifies this`services, this`startup, this`stop, this`stopping, this`lastError, this`fanouts, this`stopCalls,
        this`trace
      ensures Valid() && View() == Do(old(View()), GoOnStep(old(View()), i))
    {
      hide P.IsRun, P.After, P.IsStart, P.Next;
      match services[i].at {
        case AtStartup => SendStartup(i);
        case AtStopping => Trigger(i, P.Body);
        case AtError(error) => SetError(i, error);
        case AtEnd => Trigger(i, P.AtStop);
        case AtStop => SendStop(i);
        case _ =>
      }
    }

    /** The other goroutines go on, in this order, as far as they can. */
    method Others(parts: seq<Part>)
      requires Valid()
      modifies this`services, this`startup, this`stop, this`stopping, this`lastError, this`fanouts, this`stopCalls,
        this`trace
      ensures Valid() && View() == Parts(old(View()), parts)
    {
      hide P.IsRun, P.After, P.IsStart, P.Next, P.Enabled;
      for k := 0 to |parts|
        invariant Valid() && View() == Parts(old(View()), parts[..k])
      {
        assert parts[..k + 1][..k] == parts[..k];
        match parts[k] {
          case Begin(c) => if CanCall(services, c) { var _ := BeginCall(c); }
          case GoOn(i) => if i < |services| { Continue(i); }
        }
      }
      assert parts[..|parts|] == parts;
    }

    /** The runner has taken the first `t` turns of this run. */
    ghost predicate At(turns: seq<Turn>, t: nat)
      reads this
    {
      Valid() && t <= |turns| && View() == Drive(origin, turns[..t])
    }

    /** ... and has said so much since `base`. */
    ghost predicate Told(base: seq<P.State>, turns: seq<Turn>, t: nat)
      reads this
    {
      t <= |turns| && said == base + Words(origin, turns[..t])
    }

    /** Before its next step, the others go on. */
    method Pass(turns: seq<Turn>, t: nat)
      requires At(turns, t) && t < |turns|
      modifies this`services, this`startup, this`stop, this`stopping, this`lastError, this`fanouts, this`stopCalls,
        this`trace
      ensures Valid() && |services| == |old(services)|
      ensures View() == Parts(Drive(origin, turns[..t]), turns[t].parts)
    {
      hide Drive, Parts;
      RunnerStays(View(), turns[t].parts);
      Others(turns[t].parts);
    }

    /** The step is done and the turn is over. */
    lemma TurnDone(q: P.Pool, base: seq<P.State>, turns: seq<Turn>, t: nat)
      requires Valid() && t < |turns| && q == Parts(Drive(origin, turns[..t]), turns[t].parts)
      requires View() == Moved(q, turns[t]) && said == base + Words(origin, turns[..t]) + Word(q)
      ensures At(turns, t + 1) && Told(base, turns, t + 1)
    {
      hide Drive, Words, Parts, Moved;
      DriveMore(origin, turns, t);
      SameWord(Drive(origin, turns[..t]), turns[t].parts);
    }

    static lemma {:induction false} SameWord(p: P.Pool, parts: seq<Part>)
      ensures Word(Parts(p, parts)) == Word(p)
    {
      hide Parts;
      RunnerStays(p, parts);
    }

    /** ... and there was nothing to say. */
    lemma TurnQuiet(q: P.Pool, base: seq<P.State>, turns: seq<Turn>, t: nat)
      requires Valid() && t < |turns| && q == Parts(Drive(origin, turns[..t]), turns[t].parts)
      requires View() == Moved(q, turns[t]) && Told(base, turns, t) && Word(q) == []
      ensures At(turns, t + 1) && Told(base, turns, t + 1)
    {
      hide Drive, Words, Parts, Moved;
      assert said + [] == said;
      TurnDone(q, base, turns, t);
    }

    /** The runner takes a startup token if there is one, else a stop token; or the other way round. */
    method Receive(turn: Turn) returns (took: Option<bool>)
      requires Valid() && runner.Counting? && runner.received < |services|
      modifies this`startup, this`stop, this`runner, this`trace
      ensures Valid() && View() == Moved(old(View()), turn)
      ensures took == if stop < old(stop) then Some(true) else if startup < old(startup) then Some(false) else None
      ensures runner == match took
        case None => old(runner)
        case Some(false) => P.Counting(old(runner).received + 1)
        case Some(true) => P.Aborting(|services| - 1)
    {
      hide P.IsRun, P.After, P.IsStart;
      if stop > 0 && (startup == 0 || turn.stopFirst) {
        stop, runner := stop - 1, P.Aborting(|services| - 1);
        Note(old(View()), P.TakeStop);
        return Some(true);
      }
      if startup > 0 {
        startup, runner := startup - 1, P.Counting(runner.received + 1);
        Note(old(View()), P.TakeStartup);
        return Some(false);
      }
      return None;
    }

    /** The loop that counts startup tokens; it ends early at the first stop token. */
    method AwaitStartup(turns: seq<Turn>, ghost base: seq<P.State>)
      returns (done: bool, stopped: bool, startedServices: int, t: nat)
      requires At(turns, 0) && Told(base, turns, 0) && runner == P.Counting(0)
      modifies this`services, this`startup, this`stop, this`stopping, this`lastError, this`fanouts, this`stopCalls,
        this`runner, this`trace
      ensures At(turns, t) && Told(base, turns, t) && |services| == |old(services)|
      ensures startedServices == |services| - if stopped then 1 else 0
      ensures done ==> runner == if stopped then P.Aborting(P.Max0(startedServices)) else P.Counting(|services|)
      ensures !done ==> t == |turns| && runner.Counting?
    {
      hide P.IsRun, P.After, P.IsStart, Drive, Parts, Moved, Words;
      startedServices, stopped := |services|, false;
      var i := 0;
      t := 0;
      while i < |services| && !stopped
        invariant At(turns, t) && Told(base, turns, t) && 0 <= i <= |services| == |old(services)|
        invariant startedServices == |services| - if stopped then 1 else 0
        invariant runner == if stopped then P.Aborting(P.Max0(startedServices)) else P.Counting(i)
        decreases |turns| - t
      {
        if t == |turns| { return false, stopped, startedServices, t; }
        Pass(turns, t);
        ghost var q := View();
        var took := Receive(turns[t]);
        TurnQuiet(q, base, turns, t);
        if took == Some(true) {
          stopped, startedServices := true, startedServices - 1;
        } else if took == Some(false) {
          i := i + 1;
        }
        t := t + 1;
      }
      done := true;
    }

    /** The announcement is sound. */
    ghost predicate Sound(ready: seq<P.Service>)
      reads this`origin
    {
      origin.startup == 0 && P.OnceEach(ready) ==> P.AllEntered(ready)
    }

    /** Announces that the pool is running and waits for its end, or stops it if a service has ended before. */
    method ProcessRunning(stopped: bool, startedServices: int, turns: seq<Turn>, from: nat, ghost base: seq<P.State>)
      returns (done: bool, left: int, t: nat, ghost ready: Option<seq<P.Service>>)
      requires At(turns, from) && Told(base, turns, from) && startedServices == |services| - if stopped then 1 else 0
      requires runner == if stopped then P.Aborting(P.Max0(startedServices)) else P.Counting(|services|)
      modifies this`services, this`startup, this`stop, this`stopping, this`lastError, this`fanouts, this`stopCalls,
        this`runner, this`said, this`trace
      ensures At(turns, t) && Told(base, turns, t) && |services| == |old(services)|
      ensures done ==> runner == P.Draining(P.Max0(left)) && EachOnce(stopCalls[before..], |services|)
      ensures !done ==> t == |turns| && !runner.Returned?
      ensures ready.Some? ==> Sound(ready.value)
      ensures if ready.Some? then said == old(said) + [P.Running] || said == old(said) + [P.Running, P.Stopping]
              else said == old(said) || said == old(said) + [P.Stopping]
    {
      hide P.IsRun, P.After, P.IsStart, Drive, Parts, Moved, Words, EachOnce;
      left, t, ready := startedServices, from, None;
      if t == |turns| { return false, left, t, ready; }
      if stopped {
        done, t := Abort(turns, t, base);
      } else {
        ready := AnnounceRunning(turns, t, base);
        done, left, t := AwaitStop(startedServices, turns, t + 1, base);
        assert old(said) + [P.Running] + [P.Stopping] == old(said) + [P.Running, P.Stopping];
      }
    }

    /** The services are told to stop. */
    method Abort(turns: seq<Turn>, from: nat, ghost base: seq<P.State>) returns (done: bool, t: nat)
      requires At(turns, from) && Told(base, turns, from) && runner.Aborting?
      modifies this`services, this`startup, this`stop, this`stopping, this`lastError, this`fanouts, this`stopCalls,
        this`runner, this`said, this`trace
      ensures At(turns, t) && Told(base, turns, t) && |services| == |old(services)|
      ensures if done
        then runner == P.Draining(old(runner).missing) && EachOnce(stopCalls[before..], |services|)
        else t == |turns| && runner == old(runner)
      ensures said == old(said) + if done then [P.Stopping] else []
    {
      hide P.IsRun, P.After, P.IsStart, Drive, Parts, Moved, Words, EachOnce;
      if from == |turns| {
        assert said + [] == said;
        return false, from;
      }
      Pass(turns, from);
      ghost var q := View();
      StopServices(turns[from]);
      TurnDone(q, base, turns, from);
      return true, from + 1;
    }

    method StopServices(ghost turn: Turn)
      requires Valid() && runner.Aborting?
      modifies this`runner, this`stopping, this`fanouts, this`stopCalls, this`said, this`trace
      ensures Valid() && View() == Moved(old(View()), turn) && runner == P.Draining(old(runner).missing)
      ensures EachOnce(stopCalls[before..], |services|) && said == old(said) + [P.Stopping]
    {
      hide P.IsRun, P.After, P.IsStart, EachOnce;
      said := said + [P.Stopping];
      TriggerStop();
      runner := P.Draining(runner.missing);
      Note(old(View()), P.StopAll);
      AllTold();
    }

    method AnnounceRunning(turns: seq<Turn>, t: nat, ghost base: seq<P.State>)
      returns (ghost ready: Option<seq<P.Service>>)
      requires At(turns, t) && Told(base, turns, t) && t < |turns| && runner == P.Counting(|services|)
      modifies this`services, this`startup, this`stop, this`stopping, this`lastError, this`fanouts, this`stopCalls,
        this`runner, this`said, this`trace
      ensures At(turns, t + 1) && Told(base, turns, t + 1) && |services| == |old(services)|
      ensures runner == P.Announced && said == old(said) + [P.Running]
      ensures ready == Some(services) && Sound(services)
    {
      hide P.IsRun, P.After, P.IsStart, Drive, Parts, Moved, Words;
      Pass(turns, t);
      ghost var q := View();
      ready := SayRunning(turns[t]);
      TurnDone(q, base, turns, t);
    }

    method SayRunning(ghost turn: Turn) returns (ghost ready: Option<seq<P.Service>>)
      requires Valid() && runner == P.Counting(|services|)
      modifies this`runner, this`said, this`trace
      ensures Valid() && View() == Moved(old(View()), turn) && runner == P.Announced
      ensures said == old(said) + [P.Running] && ready == Some(services) && Sound(services)
    {
      said := said + [P.Running];
      runner := P.Announced;
      Note(old(View()), P.Announce);
      ready := Some(services);
      assert Sound(services) by {
        P.ReadinessIff(origin);
        assert !P.Premature(origin, trace) || origin.startup != 0;
      }
    }

    /** The runner waits until a service has stopped or the pool is to stop. */
    method AwaitStop(startedServices: int, turns: seq<Turn>, from: nat, ghost base: seq<P.State>)
      returns (done: bool, left: int, t: nat)
      requires At(turns, from) && Told(base, turns, from) && startedServices == |services| && runner == P.Announced
      modifies this`services, this`startup, this`stop, this`stopping, this`lastError, this`fanouts, this`stopCalls,
        this`runner, this`said, this`trace
      ensures At(turns, t) && Told(base, turns, t) && |services| == |old(services)|
      ensures done ==> runner == P.Draining(P.Max0(left)) && EachOnce(stopCalls[before..], |services|)
      ensures !done ==> t == |turns| && !runner.Returned?
      ensures said == old(said) || said == old(said) + [P.Stopping]
    {
      hide P.IsRun, P.After, P.IsStart, Drive, Parts, Moved, Words, EachOnce;
      left, t := startedServices, from;
      while t < |turns|
        invariant At(turns, t) && Told(base, turns, t) && |services| == |old(services)| && runner == P.Announced
        invariant said == old(said)
      {
        Pass(turns, t);
        ghost var q := View();
        var took := Look(turns[t]);
        TurnQuiet(q, base, turns, t);
        t := t + 1;
        if took.Some? && took.value {
          AllTold();
          return true, startedServices - 1, t;
        }
        if took.Some? {
          done, t := Abort(turns, t, base);
          return;
        }
      }
      done := false;
    }

    /** A service has stopped (`Some(true)`), or the pool is to stop, or neither. */
    method Look(turn: Turn) returns (took: Option<bool>)
      requires Valid() && runner == P.Announced
      modifies this`stop, this`runner, this`trace
      ensures Valid() && View() == Moved(old(View()), turn)
      ensures took == Some(true) ==> stop == old(stop) - 1 && runner == P.Draining(P.Max0(|services| - 1))
      ensures took == Some(false) ==> stop == old(stop) && turn.contextDone && runner == P.Aborting(|services|)
      ensures took == None ==> old(stop) == 0 && !turn.contextDone && runner == P.Announced
    {
      hide P.IsRun, P.After, P.IsStart;
      if stop > 0 && (turn.stopFirst || !turn.contextDone) {
        stop, runner := stop - 1, P.Draining(P.Max0(|services| - 1));
        Note(old(View()), P.TakeStop);
        return Some(true);
      }
      if turn.contextDone {
        runner := P.Aborting(|services|);
        Note(old(View()), P.ContextDone);
        return Some(false);
      }
      return None;
    }

    /** The runner takes a stop token if there is one. */
    method ReceiveStop(ghost turn: Turn) returns (took: bool)
      requires Valid() && runner.Draining? && runner.missing > 0
      modifies this`stop, this`runner, this`trace
      ensures Valid() && View() == Moved(old(View()), turn)
      ensures took == (old(stop) > 0) && runner == P.Draining(old(runner).missing - if took then 1 else 0)
    {
      hide P.IsRun, P.After, P.IsStart;
      took := stop > 0;
      if took {
        stop, runner := stop - 1, P.Draining(runner.missing - 1);
        Note(old(View()), P.TakeStop);
      }
    }

    /** The last loop: one stop token for each service that is left. */
    method Drain(left: int, turns: seq<Turn>, from: nat, ghost base: seq<P.State>) returns (done: bool, t: nat)
      requires At(turns, from) && Told(base, turns, from) && runner == P.Draining(P.Max0(left))
      modifies this`services, this`startup, this`stop, this`stopping, this`lastError, this`fanouts, this`stopCalls,
        this`runner, this`trace
      ensures At(turns, t) && Told(base, turns, t) && |services| == |old(services)| && runner.Draining?
      ensures if done then runner == P.Draining(0) else t == |turns|
    {
      hide P.IsRun, P.After, P.IsStart, Drive, Parts, Moved, Words;
      var i := 0;
      t := from;
      while i < left
        invariant At(turns, t) && Told(base, turns, t) && |services| == |old(services)|
        invariant 0 <= i <= P.Max0(left) && runner == P.Draining(P.Max0(left) - i)
        decreases |turns| - t
      {
        if t == |turns| { return false, t; }
        Pass(turns, t);
        ghost var q := View();
        var took := ReceiveStop(turns[t]);
        TurnQuiet(q, base, turns, t);
        t := t + 1;
        if took { i := i + 1; }
      }
      done := true;
    }

    lemma AgainStarts()
      requires Valid() && (runner.Returned? || View() == origin)
      ensures P.IsStart(P.Again(View()))
    {
      if runner.Returned? { P.RunAgain(origin, trace); }
    }

    /** The fields a run starts with; the startup channel and the last error stay as they are. */
    method Restart()
      requires Valid() && (runner.Returned? || View() == origin)
      modifies this
      ensures Valid() && View() == origin == P.Again(old(View()))
      ensures stopCalls == old(stopCalls) && before == |stopCalls| && said == old(said)
    {
      hide P.IsStart, P.IsRun, P.After, P.Rested;
      AgainStarts();
      services := P.Rested(services);
      stop, stopping, fanouts, runner := 0, false, 0, P.Counting(0);
      before := |stopCalls|;
      assert View() == P.Again(old(View()));
      origin := View();
      trace := P.Begin(origin);
    }

    /** Runs the pool until it returns (`Some`) or the turns are over while it still waits. Both are as the schedule
        says, and so is what the pool tells its own lifecycle. It returns only after every service has ended, with
        the error of one that crashed, if any did; and if it announces Running, with no token left over and as a
        pool whose services reach Running once at most, they all have. When it returns, `Stop` has been called in
        this run exactly once on every service. */
    method RunWithLifecycle(turns: seq<Turn>) returns (r: Option<Option<P.Error>>, ghost ready: Option<seq<P.Service>>)
      requires Valid() && (runner.Returned? || View() == origin)
      modifies this
      ensures Valid() && origin == P.Again(old(View()))
      ensures View() == Drive(origin, turns) && said == old(said) + Words(origin, turns)
      ensures runner.Returned? <==> r.Some?
      ensures r.Some? ==> stop == 0 && forall i | 0 <= i < |services| :: services[i].at.Done?
      ensures r.Some? ==>
        if exists f :: P.EndedWith(trace, f) then r.value.Some? && P.EndedWith(trace, r.value.value)
        else r.value == old(lastError)
      ensures ready.Some? ==> Sound(ready.value)
      ensures ready.Some? <==> P.Running in Words(origin, turns)
      ensures r.Some? ==> |old(stopCalls)| <= |stopCalls| && EachOnce(stopCalls[|old(stopCalls)|..], |services|)
    {
      hide P.IsRun, P.After, P.Next, P.IsStart, EachOnce, Drive, Words, Moved, Parts;
      Restart();
      AtFirst(turns);
      var done, stopped, left, t := AwaitStartup(turns, old(said));
      ready := None;
      if done { done, left, t, ready := ProcessRunning(stopped, left, turns, t, old(said)); }
      if done { done, t := Drain(left, turns, t, old(said)); }
      if done {
        r := End(turns, t, old(said));
      } else {
        assert turns[..t] == turns;
        r := None;
      }
      SaidOnce(old(said), Words(origin, turns), said, ready.Some?);
    }

    static lemma SaidOnce(base: seq<P.State>, words: seq<P.State>, said: seq<P.State>, running: bool)
      requires said == base + words
      requires if running then said == base + [P.Running] || said == base + [P.Running, P.Stopping]
               else said == base || said == base + [P.Stopping]
      ensures running <==> P.Running in words
    {
      assert words == said[|base|..];
    }

    /** The run returns, if there is a turn for it. */
    method End(turns: seq<Turn>, t: nat, ghost base: seq<P.State>) returns (r: Option<Option<P.Error>>)
      requires At(turns, t) && Told(base, turns, t) && runner == P.Draining(0)
      modifies this`services, this`startup, this`stop, this`stopping, this`lastError, this`fanouts, this`stopCalls,
        this`runner, this`trace
      ensures Valid() && View() == Drive(origin, turns) && said == base + Words(origin, turns)
      ensures r.Some? <==> t < |turns|
      ensures if r.Some? then runner == P.Returned(r.value) else runner.Draining?
      ensures r.Some? ==> stop == 0 && forall i | 0 <= i < |services| :: services[i].at.Done?
      ensures r.Some? ==>
        if exists f :: P.EndedWith(trace, f) then r.value.Some? && P.EndedWith(trace, r.value.value)
        else r.value == origin.lastError
      ensures r.Some? ==> before <= |stopCalls| && EachOnce(stopCalls[before..], |services|)
    {
      hide P.IsRun, P.After, P.Next, P.IsStart, EachOnce, Drive, Words, Moved, Parts;
      if t == |turns| {
        assert turns[..t] == turns;
        return None;
      }
      Pass(turns, t);
      ghost var q := View();
      Return(turns[t]);
      TurnQuiet(q, base, turns, t);
      DriveOver(origin, turns, t + 1);
      AllTold();
      r := Some(lastError);
    }

    lemma AtFirst(turns: seq<Turn>)
      requires Valid() && View() == origin
      ensures At(turns, 0) && Told(said, turns, 0)
    {
      hide P.IsRun, P.After, P.IsStart;
      assert turns[..0] == [];
    }

    /** The end of the run. */
    ghost method Return(turn: Turn)
      requires Valid() && runner == P.Draining(0)
      modifies this`runner, this`trace
      ensures Valid() && View() == Moved(old(View()), turn) && runner == P.Returned(lastError)
      ensures stop == 0 && forall i | 0 <= i < |services| :: services[i].at.Done?
      ensures if exists f :: P.EndedWith(trace, f) then lastError.Some? && P.EndedWith(trace, lastError.value)
        else lastError == origin.lastError
    {
      ghost var was := View();
      runner := P.Returned(lastError);
      Note(was, P.Return);
      P.Completion(origin, trace);
      P.ErrorPropagation(origin, trace);
    }
  }
}
