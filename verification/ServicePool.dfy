/** The service pool (`service/pool_impl.go`) as interleaved steps of its runner and of its n services,
    over the two token channels. A service takes its steps inside `Lifecycle.Run`. The wait at the end of
    `triggerStop` only removes interleavings and is left out, so every run of the pool is a run here. */
module ServicePool {
  import opened Wrappers

  type Error = string

  datatype State = Stopped | Starting | Running | Stopping | Crashed

  /** Where the goroutine of a service is. */
  datatype Point =
    | NotRun
    | Body                 // in the service's own code
    | AtStartup            // recorded as running, before the send to startupComplete
    | AtStopping           // recorded as stopping, before triggerStop
    | AtError(error: Error)  // recorded as crashed, before lastError is set
    | AtEnd                // recorded as ended, before triggerStop
    | AtStop               // before the send to stopComplete
    | Done

  /** `recorded` is the pool's `serviceStates` entry; `entered` counts the changes to Running. */
  datatype Service = Service(recorded: State, at: Point, entered: nat, failure: Option<Error>)

  /** Where `RunWithLifecycle` is. */
  datatype Runner =
    | Counting(received: nat)
    | Announced
    | Aborting(missing: nat)   // before triggerStop
    | Draining(missing: nat)
    | Returned(error: Option<Error>)

  datatype Pool = Pool(
    services: seq<Service>,
    startup: nat,            // tokens in startupComplete, which has one place
    stop: nat,               // tokens in stopComplete, which has a place for each service
    stopping: bool,
    fanouts: nat,            // times triggerStop stopped the services
    lastError: Option<Error>,
    runner: Runner)

  datatype Step =
    | Start(i: nat)
    | CallRunning(i: nat)
    | SendStartup(i: nat)
    | CallStopping(i: nat)
    | End(i: nat, failure: Option<Error>)
    | SetError(i: nat)
    | Trigger(i: nat)
    | SendStop(i: nat)
    | TakeStartup
    | TakeStop
    | Announce
    | ContextDone
    | StopAll
    | Return

  predicate Is(p: Pool, i: nat, at: Point) { i < |p.services| && p.services[i].at == at }

  /** The step can be taken: its goroutine is there and its channel operation does not block. */
  predicate Enabled(p: Pool, s: Step) {
    match s
    case Start(i) => Is(p, i, NotRun)
    case CallRunning(i) => Is(p, i, Body)
    case SendStartup(i) => Is(p, i, AtStartup)
    case CallStopping(i) => Is(p, i, Body)
    case End(i, _) => Is(p, i, Body)
    case SetError(i) => i < |p.services| && p.services[i].at.AtError?
    case Trigger(i) => Is(p, i, AtStopping) || Is(p, i, AtEnd)
    case SendStop(i) => Is(p, i, AtStop) && p.stop < |p.services|
    case TakeStartup => p.runner.Counting? && p.runner.received < |p.services| && p.startup > 0
    case TakeStop =>
      && p.stop > 0
      && ((p.runner.Counting? && p.runner.received < |p.services|) || p.runner.Announced?
          || (p.runner.Draining? && p.runner.missing > 0))
    case Announce => p.runner == Counting(|p.services|)
    case ContextDone => p.runner.Announced?
    case StopAll => p.runner.Aborting?
    case Return => p.runner == Draining(0)
  }

  function Put(p: Pool, i: nat, s: Service): Pool
    requires i < |p.services|
  {
    p.(services := p.services[i := s])
  }

  function TriggerStop(p: Pool): Pool {
    if p.stopping then p else p.(stopping := true, fanouts := p.fanouts + 1)
  }

  function Next(p: Pool, s: Step): Pool
    requires Enabled(p, s)
  {
    match s
    case Start(i) => Put(p, i, p.services[i].(recorded := Starting, at := Body))
    case CallRunning(i) =>
      if p.services[i].recorded.Running? then p
      else Put(p, i, p.services[i].(recorded := Running, at := AtStartup, entered := p.services[i].entered + 1))
    case SendStartup(i) =>
      Put(p, i, p.services[i].(at := Body)).(startup := if p.startup == 0 then 1 else p.startup)
    case CallStopping(i) =>
      if p.services[i].recorded.Stopping? then p
      else Put(p, i, p.services[i].(recorded := Stopping, at := AtStopping))
    case End(i, failure) =>
      var state := if failure.Some? then Crashed else Stopped;
      Put(p, i, p.services[i].(
        recorded := state,
        at := if p.services[i].recorded == state then Done else if failure.Some? then AtError(failure.value) else AtEnd,
        failure := failure))
    case SetError(i) =>
      Put(p, i, p.services[i].(at := AtEnd)).(lastError := Some(p.services[i].at.error))
    case Trigger(i) =>
      Put(TriggerStop(p), i, p.services[i].(at := if p.services[i].at.AtStopping? then Body else AtStop))
    case SendStop(i) => Put(p, i, p.services[i].(at := Done)).(stop := p.stop + 1)
    case TakeStartup => p.(startup := p.startup - 1, runner := Counting(p.runner.received + 1))
    case TakeStop =>
      if p.runner.Counting? then p.(stop := p.stop - 1, runner := Aborting(|p.services| - 1))
      else if p.runner.Announced? then p.(stop := p.stop - 1, runner := Draining(Max0(|p.services| - 1)))
      else p.(stop := p.stop - 1, runner := Draining(p.runner.missing - 1))
    case Announce => p.(runner := Announced)
    case ContextDone => p.(runner := Aborting(|p.services|))
    case StopAll => TriggerStop(p).(runner := Draining(p.runner.missing))
    case Return => p.(runner := Returned(p.lastError))
  }

  function Max0(k: int): nat { if k < 0 then 0 else k }

  /** A pool at the start of a run. A new pool has `startup == 0` and `lastError == None`; a pool that ran
      before keeps what is left of both. */
  ghost predicate IsStart(p: Pool) {
    && p.startup <= 1 && p.stop == 0 && !p.stopping && p.fanouts == 0 && p.runner == Counting(0)
    && forall i | 0 <= i < |p.services| ::
         p.services[i].at.NotRun? && p.services[i].entered == 0 && p.services[i].failure == None
  }

  // Runs, with the last step split off.

  predicate IsRun(p: Pool, steps: seq<Step>)
    decreases |steps|, 0
  {
    steps == [] ||
    var n := |steps| - 1;
    IsRun(p, steps[..n]) && Enabled(After(p, steps[..n]), steps[n])
  }

  function After(p: Pool, steps: seq<Step>): Pool
    requires IsRun(p, steps)
    decreases |steps|, 1
  {
    if steps == [] then p else Next(After(p, steps[..|steps| - 1]), steps[|steps| - 1])
  }

  // Counting.

  /** Services that have not sent their stop token. */
  function Unsent(ss: seq<Service>): nat {
    if ss == [] then 0 else Unsent(ss[..|ss| - 1]) + if ss[|ss| - 1].at.Done? then 0 else 1
  }

  /** Changes to Running, and those whose startup token is still to be sent. */
  function Entered(ss: seq<Service>): nat {
    if ss == [] then 0 else Entered(ss[..|ss| - 1]) + ss[|ss| - 1].entered
  }

  function Sending(ss: seq<Service>): nat {
    if ss == [] then 0 else Sending(ss[..|ss| - 1]) + if ss[|ss| - 1].at.AtStartup? then 1 else 0
  }

  lemma {:induction false} CountsUpdate(ss: seq<Service>, i: nat, s: Service)
    requires i < |ss|
    ensures Unsent(ss[i := s]) == Unsent(ss) - (if ss[i].at.Done? then 0 else 1) + (if s.at.Done? then 0 else 1)
    ensures Entered(ss[i := s]) == Entered(ss) - ss[i].entered + s.entered
    ensures Sending(ss[i := s]) ==
      Sending(ss) - (if ss[i].at.AtStartup? then 1 else 0) + (if s.at.AtStartup? then 1 else 0)
  {
    var n := |ss| - 1;
    if i < n {
      CountsUpdate(ss[..n], i, s);
      assert ss[i := s][..n] == ss[..n][i := s];
    } else {
      assert ss[i := s][..n] == ss[..n];
    }
  }

  lemma {:induction false} CountsFresh(ss: seq<Service>)
    requires forall i | 0 <= i < |ss| :: ss[i].at.NotRun? && ss[i].entered == 0
    ensures Unsent(ss) == |ss| && Entered(ss) == 0 && Sending(ss) == 0
  {
    if ss != [] { CountsFresh(ss[..|ss| - 1]); }
  }

  lemma {:induction false} UnsentPositive(ss: seq<Service>, i: nat)
    requires i < |ss| && !ss[i].at.Done?
    ensures Unsent(ss) >= 1
  {
    if i < |ss| - 1 { UnsentPositive(ss[..|ss| - 1], i); }
  }

  /** With at most one change to Running each, as many changes as services means that all have changed. */
  lemma {:induction false} Pigeonhole(ss: seq<Service>)
    requires forall i | 0 <= i < |ss| :: ss[i].entered <= 1
    ensures Entered(ss) <= |ss|
    ensures Entered(ss) == |ss| ==> forall i | 0 <= i < |ss| :: ss[i].entered == 1
  {
    if ss != [] { Pigeonhole(ss[..|ss| - 1]); }
  }

  // What every step keeps.

  /** Stop tokens the runner has taken. */
  function Taken(p: Pool): int {
    match p.runner
    case Counting(_) => 0
    case Announced => 0
    case Aborting(missing) => |p.services| - missing
    case Draining(missing) => |p.services| - missing
    case Returned(_) => |p.services|
  }

  /** The change to the end state of a service is never taken for a repetition. */
  ghost predicate RecordOk(s: Service) {
    && (s.at.Body? ==> s.recorded.Starting? || s.recorded.Running? || s.recorded.Stopping?)
    && (s.at.AtStartup? ==> s.recorded.Running?)
    && (s.at.AtStopping? ==> s.recorded.Stopping?)
  }

  /** A stop token is in the channel, or taken, or not sent yet. */
  ghost predicate StopConserved(p: Pool) {
    && Taken(p) + p.stop + Unsent(p.services) == |p.services|
    && 0 <= Taken(p)
    && p.fanouts == (if p.stopping then 1 else 0)
    && forall i | 0 <= i < |p.services| :: RecordOk(p.services[i])
  }

  /** Nobody waits for services that were not told to stop: a service that has ended, a stop token, and a runner
      that only waits for the rest, are there only after the services were stopped. */
  ghost predicate StopTold(p: Pool) {
    && (p.stop > 0 || p.runner.Draining? || p.runner.Returned? ==> p.stopping)
    && forall i | 0 <= i < |p.services| && (p.services[i].at.AtStop? || p.services[i].at.Done?) :: p.stopping
  }

  /** No more startup tokens were taken than sent; some were dropped. */
  ghost predicate StartupBounded(p: Pool, startup: nat) {
    && p.startup <= 1
    && Received(p) + p.startup + Sending(p.services) <= startup + Entered(p.services)
    && (p.runner.Counting? ==> p.runner.received <= |p.services|)
  }

  /** Startup tokens the runner needed to get where it is. */
  function Received(p: Pool): nat {
    match p.runner
    case Counting(received) => received
    case Announced => |p.services|
    case _ => 0
  }

  ghost predicate ServiceOk(s: Service) {
    && (s.at.NotRun? || s.at.Body? || s.at.AtStartup? || s.at.AtStopping? ==> s.failure == None)
    && (s.at.AtError? ==> s.failure == Some(s.at.error))
    && (s.recorded.Crashed? && !s.at.NotRun? ==> s.failure.Some?)
  }

  /** The failure has been written to `lastError`. */
  predicate Reported(s: Service) { s.failure.Some? && !s.at.AtError? }

  ghost predicate Blames(p: Pool, before: Option<Error>) {
    || (exists i :: 0 <= i < |p.services| && Reported(p.services[i]) && p.services[i].failure == p.lastError)
    || (p.lastError == before && forall i | 0 <= i < |p.services| :: !Reported(p.services[i]))
  }

  ghost predicate ErrorOk(p: Pool, before: Option<Error>) {
    && (forall i | 0 <= i < |p.services| :: ServiceOk(p.services[i]))
    && Blames(p, before)
    && (p.runner.Returned? ==> p.runner.error == p.lastError)
  }

  predicate OfService(s: Step) {
    || s.Start? || s.CallRunning? || s.SendStartup? || s.CallStopping?
    || s.End? || s.SetError? || s.Trigger? || s.SendStop?
  }

  /** A service's step changes no other service, and not the runner. */
  lemma OneService(p: Pool, s: Step)
    requires Enabled(p, s) && OfService(s)
    ensures s.i < |p.services| && |Next(p, s).services| == |p.services|
    ensures Next(p, s).services == p.services[s.i := Next(p, s).services[s.i]]
    ensures Next(p, s).runner == p.runner
  {
  }

  /** What a service's step does to the stop tokens. */
  lemma ServiceStop(p: Pool, s: Step)
    requires Enabled(p, s) && OfService(s)
    ensures var p' := Next(p, s);
      && p'.stop == p.stop + (if p'.services[s.i].at.Done? && s.SendStop? then 1 else 0)
      && (p.fanouts == (if p.stopping then 1 else 0) ==> p'.fanouts == (if p'.stopping then 1 else 0))
      && !p.services[s.i].at.Done?
      && (RecordOk(p.services[s.i]) ==> RecordOk(p'.services[s.i]) && (p'.services[s.i].at.Done? <==> s.SendStop?))
  {
  }

  lemma RunnerStop(p: Pool, s: Step)
    requires StopConserved(p) && Enabled(p, s) && !OfService(s)
    ensures StopConserved(Next(p, s))
  {
    hide Unsent;
  }

  lemma StopKept(p: Pool, s: Step)
    requires StopConserved(p) && Enabled(p, s)
    ensures StopConserved(Next(p, s))
  {
    hide Unsent, Next, RecordOk, Enabled;
    if OfService(s) {
      var p' := Next(p, s);
      OneService(p, s);
      ServiceStop(p, s);
      CountsUpdate(p.services, s.i, p'.services[s.i]);
    } else {
      RunnerStop(p, s);
    }
  }

  lemma ToldKept(p: Pool, s: Step)
    requires StopTold(p) && StopConserved(p) && Enabled(p, s)
    ensures StopTold(Next(p, s))
  {
    hide Unsent, Taken;
    if OfService(s) { OneService(p, s); }
  }

  lemma StartupKept(p: Pool, s: Step, startup: nat)
    requires StartupBounded(p, startup) && Enabled(p, s)
    ensures StartupBounded(Next(p, s), startup)
  {
    var p' := Next(p, s);
    if OfService(s) {
      OneService(p, s);
      CountsUpdate(p.services, s.i, p'.services[s.i]);
    }
  }

  lemma PutBlames(p: Pool, i: nat, s: Service, before: Option<Error>, q: Pool)
    requires i < |p.services| && Blames(p, before)
    requires q.services == p.services[i := s] && q.lastError == p.lastError
    requires Reported(s) == Reported(p.services[i]) && (Reported(s) ==> s.failure == p.services[i].failure)
    ensures Blames(q, before)
  {
    if j :| 0 <= j < |p.services| && Reported(p.services[j]) && p.services[j].failure == p.lastError {
      assert Reported(q.services[j]);
    }
  }

  /** What a service's step does to its failure. */
  lemma ServiceError(p: Pool, s: Step)
    requires Enabled(p, s) && OfService(s) && ServiceOk(p.services[s.i]) && RecordOk(p.services[s.i])
    ensures var s0, s1 := p.services[s.i], Next(p, s).services[s.i];
      && ServiceOk(s1) && !s0.at.Done?
      && (if s.SetError? then Reported(s1) && Next(p, s).lastError == s1.failure
          else
            && Next(p, s).lastError == p.lastError && Reported(s1) == Reported(s0)
            && (Reported(s1) ==> s1.failure == s0.failure))
  {
  }

  lemma ErrorKept(p: Pool, s: Step, before: Option<Error>)
    requires ErrorOk(p, before) && StopConserved(p) && Enabled(p, s)
    ensures ErrorOk(Next(p, s), before)
  {
    if OfService(s) {
      hide Next, ServiceOk, RecordOk, Unsent, Enabled;
      OneService(p, s);
      ServiceError(p, s);
      UnsentPositive(p.services, s.i);
      if !s.SetError? { PutBlames(p, s.i, Next(p, s).services[s.i], before, Next(p, s)); }
    }
  }

  // Every run.

  lemma SameServices(p: Pool, s: Step)
    requires Enabled(p, s)
    ensures |Next(p, s).services| == |p.services|
  {
  }

  lemma {:induction false} RunKeeps(p: Pool, steps: seq<Step>)
    requires IsStart(p) && IsRun(p, steps)
    ensures var q := After(p, steps);
      && |q.services| == |p.services|
      && StopConserved(q) && StartupBounded(q, p.startup) && ErrorOk(q, p.lastError) && StopTold(q)
    decreases |steps|
  {
    if steps == [] {
      CountsFresh(p.services);
    } else {
      hide StopConserved, StartupBounded, ErrorOk, Enabled, IsStart, StopTold;
      hide Next;
      var n := |steps| - 1;
      var q := After(p, steps[..n]);
      RunKeeps(p, steps[..n]);
      SameServices(q, steps[n]);
      StopKept(q, steps[n]);
      ToldKept(q, steps[n]);
      StartupKept(q, steps[n], p.startup);
      ErrorKept(q, steps[n], p.lastError);
    }
  }

  lemma {:induction false} NoneUnsent(ss: seq<Service>)
    ensures Unsent(ss) == 0 <==> forall i | 0 <= i < |ss| :: ss[i].at.Done?
  {
    if ss != [] {
      NoneUnsent(ss[..|ss| - 1]);
      assert ss[|ss| - 1] == ss[|ss| - 1];
    }
  }

  /** In every run of every pool: each service accounts for exactly one stop token; the send of that token
      never blocks; the pool returns only after all services have ended, with the channel empty; once they
      all have ended, the tokens the last loop waits for are there; and the services are stopped at most once,
      and have been when the pool waits for the rest of them or has returned. */
  lemma {:induction false} Completion(p: Pool, steps: seq<Step>)
    requires IsStart(p) && IsRun(p, steps)
    ensures var q := After(p, steps);
      && Taken(q) + q.stop + Unsent(q.services) == |p.services|
      && (forall i | Is(q, i, AtStop) :: Enabled(q, SendStop(i)))
      && (q.runner.Returned? ==> q.stop == 0 && forall i | 0 <= i < |q.services| :: q.services[i].at.Done?)
      && (q.runner.Draining? && (forall i | 0 <= i < |q.services| :: q.services[i].at.Done?) ==>
            q.stop == q.runner.missing)
      && q.fanouts <= 1 && (q.runner.Draining? || q.runner.Returned? ==> q.stopping && q.fanouts == 1)
  {
    RunKeeps(p, steps);
    var q := After(p, steps);
    NoneUnsent(q.services);
    forall i | Is(q, i, AtStop) ensures Enabled(q, SendStop(i)) {
      UnsentPositive(q.services, i);
    }
  }

  ghost predicate AllEntered(ss: seq<Service>) { forall i | 0 <= i < |ss| :: ss[i].entered >= 1 }

  ghost predicate OnceEach(ss: seq<Service>) { forall i | 0 <= i < |ss| :: ss[i].entered <= 1 }

  /** A run in which the pool announces Running although some service has not reached it. */
  ghost predicate Premature(p: Pool, steps: seq<Step>) {
    && IsRun(p, steps) && OnceEach(After(p, steps).services)
    && After(p, steps).runner.Announced? && !AllEntered(After(p, steps).services)
  }

  /** A pool whose services change to Running at most once each announces Running only after all have
      reached it, in every run, exactly if no startup token was left over from an earlier run. */
  lemma ReadinessIff(p: Pool)
    requires IsStart(p)
    ensures (forall steps :: !Premature(p, steps)) <==> p.startup == 0 || p.services == []
  {
    forall steps | p.startup == 0 || p.services == [] ensures !Premature(p, steps) {
      if IsRun(p, steps) && OnceEach(After(p, steps).services) {
        RunKeeps(p, steps);
        Pigeonhole(After(p, steps).services);
      }
    }
    if p.startup == 1 && p.services != [] {
      var n := |p.services| - 1;
      var e := EarlyRun(p, n);
      Extend(p, e, Announce);
      assert After(p, e + [Announce]).services[n].entered == 0;
      assert Premature(p, e + [Announce]);
    }
  }

  lemma {:induction false} Extend(p: Pool, steps: seq<Step>, s: Step)
    requires IsRun(p, steps) && Enabled(After(p, steps), s)
    ensures IsRun(p, steps + [s]) && After(p, steps + [s]) == Next(After(p, steps), s)
  {
    assert (steps + [s])[..|steps|] == steps;
  }

  /** One more service runs and its token is taken. */
  lemma EarlyService(q: Pool, i: nat) returns (q1: Pool, q2: Pool, q3: Pool, q4: Pool)
    requires Is(q, i, NotRun) && q.startup == 0 && q.runner.Counting? && q.runner.received < |q.services|
    ensures Enabled(q, Start(i)) && q1 == Next(q, Start(i))
    ensures Enabled(q1, CallRunning(i)) && q2 == Next(q1, CallRunning(i))
    ensures Enabled(q2, SendStartup(i)) && q3 == Next(q2, SendStartup(i))
    ensures Enabled(q3, TakeStartup) && q4 == Next(q3, TakeStartup)
    ensures q4.startup == 0 && q4.runner == Counting(q.runner.received + 1)
    ensures |q4.services| == |q.services| && q4.services[i].entered == q.services[i].entered + 1
    ensures forall j | 0 <= j < |q.services| && j != i :: q4.services[j] == q.services[j]
  {
    q1 := Next(q, Start(i));
    q2 := Next(q1, CallRunning(i));
    q3 := Next(q2, SendStartup(i));
    q4 := Next(q3, TakeStartup);
  }

  lemma EarlyExtend(p: Pool, e: seq<Step>, i: nat, q1: Pool, q2: Pool, q3: Pool, q4: Pool) returns (e': seq<Step>)
    requires IsRun(p, e)
    requires Enabled(After(p, e), Start(i)) && q1 == Next(After(p, e), Start(i))
    requires Enabled(q1, CallRunning(i)) && q2 == Next(q1, CallRunning(i))
    requires Enabled(q2, SendStartup(i)) && q3 == Next(q2, SendStartup(i))
    requires Enabled(q3, TakeStartup) && q4 == Next(q3, TakeStartup)
    ensures IsRun(p, e') && After(p, e') == q4
  {
    hide *;
    Extend(p, e, Start(i));
    Extend(p, e + [Start(i)], CallRunning(i));
    Extend(p, e + [Start(i)] + [CallRunning(i)], SendStartup(i));
    Extend(p, e + [Start(i)] + [CallRunning(i)] + [SendStartup(i)], TakeStartup);
    e' := e + [Start(i)] + [CallRunning(i)] + [SendStartup(i)] + [TakeStartup];
  }

  /** `k` services are at work and the runner has taken `k + 1` tokens. */
  ghost predicate IsEarly(p: Pool, q: Pool, k: nat) {
    && |q.services| == |p.services| && q.startup == 0 && q.runner == Counting(k + 1)
    && forall i | 0 <= i < |p.services| ::
         if i < k then q.services[i].entered == 1 else q.services[i] == p.services[i]
  }

  /** With a token left over, `k` services are enough for `k + 1` tokens. */
  lemma {:induction false} EarlyRun(p: Pool, k: nat) returns (e: seq<Step>)
    requires IsStart(p) && p.startup == 1 && k < |p.services|
    ensures IsRun(p, e) && IsEarly(p, After(p, e), k)
  {
    if k == 0 {
      e := [TakeStartup];
      assert [] + e == e;
      Extend(p, [], TakeStartup);
    } else {
      hide Next, Enabled, IsRun, After;
      e := EarlyRun(p, k - 1);
      var q := After(p, e);
      var q1, q2, q3, q4 := EarlyService(q, k - 1);
      e := EarlyExtend(p, e, k - 1, q1, q2, q3, q4);
    }
  }

  ghost predicate EndedWith(steps: seq<Step>, e: Error) { exists i: nat :: End(i, Some(e)) in steps }

  /** The pool returns the error of a service that crashed if one did, and otherwise what was left over from
      an earlier run; so a new pool returns an error exactly if a service crashed. */
  lemma {:induction false} ErrorPropagation(p: Pool, steps: seq<Step>)
    requires IsStart(p) && IsRun(p, steps) && After(p, steps).runner.Returned?
    ensures var e := After(p, steps).runner.error;
      if exists f :: EndedWith(steps, f) then e.Some? && EndedWith(steps, e.value) else e == p.lastError
  {
    RunKeeps(p, steps);
    Completion(p, steps);
    var q := After(p, steps);
    if i :| 0 <= i < |q.services| && Reported(q.services[i]) && q.services[i].failure == q.lastError {
      FailureIff(p, steps, i, q.lastError.value);
      assert EndedWith(steps, q.lastError.value);
    } else {
      forall f ensures !EndedWith(steps, f) {
        if i: nat :| End(i, Some(f)) in steps { FailureIff(p, steps, i, f); }
      }
    }
  }

  /** A service has failed with `f` exactly if it ended with that error. */
  lemma {:induction false} FailureIff(p: Pool, steps: seq<Step>, i: nat, f: Error)
    requires IsStart(p) && IsRun(p, steps)
    ensures End(i, Some(f)) in steps <==>
      i < |After(p, steps).services| && After(p, steps).services[i].failure == Some(f)
    decreases |steps|
  {
    if steps == [] {
      hide Next;
    } else {
      hide Next, Enabled, IsStart, ServiceOk;
      var n := |steps| - 1;
      FailureIff(p, steps[..n], i, f);
      ServicesOk(p, steps[..n]);
      FailureStep(After(p, steps[..n]), steps[n], i, f);
      InLast(steps, End(i, Some(f)));
    }
  }

  lemma InLast(steps: seq<Step>, s: Step)
    requires steps != []
    ensures s in steps <==> s in steps[..|steps| - 1] || s == steps[|steps| - 1]
  {
    assert steps == steps[..|steps| - 1] + [steps[|steps| - 1]];
  }

  lemma {:induction false} ServicesOk(p: Pool, steps: seq<Step>)
    requires IsStart(p) && IsRun(p, steps)
    ensures forall j | 0 <= j < |After(p, steps).services| :: ServiceOk(After(p, steps).services[j])
  {
    hide IsStart, ServiceOk;
    RunKeeps(p, steps);
  }

  lemma FailureStep(p: Pool, s: Step, i: nat, f: Error)
    requires Enabled(p, s) && forall j | 0 <= j < |p.services| :: ServiceOk(p.services[j])
    ensures var q := Next(p, s);
      i < |q.services| && q.services[i].failure == Some(f) <==>
        (i < |p.services| && p.services[i].failure == Some(f)) || s == End(i, Some(f))
  {
    if OfService(s) { OneService(p, s); }
  }

  // What goes wrong otherwise.

  function NewPool(n: nat): Pool {
    Pool(seq(n, _ => Service(Stopped, NotRun, 0, None)), 0, 0, false, 0, None, Counting(0))
  }

  /** The pool that has returned, at the start of its next run. */
  function Again(p: Pool): Pool {
    p.(services := Rested(p.services), stop := 0, stopping := false, fanouts := 0, runner := Counting(0))
  }

  function Rested(ss: seq<Service>): seq<Service> {
    seq(|ss|, i requires 0 <= i < |ss| => Service(ss[i].recorded, NotRun, 0, None))
  }

  /** A pool that has returned can run again, and all of the above holds of the next run. */
  lemma {:induction false} RunAgain(p: Pool, steps: seq<Step>)
    requires IsStart(p) && IsRun(p, steps) && After(p, steps).runner.Returned?
    ensures IsStart(Again(After(p, steps)))
    ensures var q, r := After(p, steps), Again(After(p, steps));
      && r.startup == q.startup && r.lastError == q.lastError && |r.services| == |q.services|
      && forall i | 0 <= i < |q.services| :: r.services[i].recorded == q.services[i].recorded
  {
    RunKeeps(p, steps);
  }

  lemma Begin(p: Pool) returns (e: seq<Step>)
    ensures IsRun(p, e) && After(p, e) == p
  {
    e := [];
  }

  lemma Then(p: Pool, e: seq<Step>, s: Step) returns (e': seq<Step>)
    requires IsRun(p, e) && Enabled(After(p, e), s)
    ensures IsRun(p, e') && After(p, e') == Next(After(p, e), s)
  {
    e' := e + [s];
    Extend(p, e, s);
  }

  lemma NewPools()
    ensures NewPool(1) == Pool([Service(Stopped, NotRun, 0, None)], 0, 0, false, 0, None, Counting(0))
    ensures NewPool(2) ==
      Pool([Service(Stopped, NotRun, 0, None), Service(Stopped, NotRun, 0, None)], 0, 0, false, 0, None, Counting(0))
  {
    var s := Service(Stopped, NotRun, 0, None);
    assert NewPool(1).services == [s] && NewPool(2).services == [s, s];
  }

  lemma OneRunning() returns (e: seq<Step>)
    ensures IsRun(NewPool(1), e)
    ensures After(NewPool(1), e) == Pool([Service(Running, Body, 1, None)], 1, 0, false, 0, None, Counting(0))
  {
    hide IsRun, After, NewPool;
    var p := NewPool(1);
    NewPools();
    e := Begin(p);
    e := Then(p, e, Start(0));
    e := Then(p, e, CallRunning(0));
    e := Then(p, e, SendStartup(0));
    assert After(p, e).services == [Service(Running, Body, 1, None)];
  }

  lemma OneEnded() returns (e: seq<Step>)
    ensures IsRun(NewPool(1), e)
    ensures After(NewPool(1), e) == Pool([Service(Stopped, Done, 1, None)], 1, 1, true, 1, None, Counting(0))
  {
    hide IsRun, After, NewPool;
    var p := NewPool(1);
    e := OneRunning();
    e := Then(p, e, End(0, None));
    e := Then(p, e, Trigger(0));
    e := Then(p, e, SendStop(0));
    assert After(p, e).services == [Service(Stopped, Done, 1, None)];
  }

  /** A new pool can return with its startup token still there, if its only service has both reached Running
      and ended when the runner comes to choose. */
  lemma LeftoverToken() returns (e: seq<Step>)
    ensures IsRun(NewPool(1), e)
    ensures After(NewPool(1), e).runner.Returned? && After(NewPool(1), e).startup == 1
  {
    hide IsRun, After, NewPool;
    var p := NewPool(1);
    e := OneEnded();
    e := Then(p, e, TakeStop);
    e := Then(p, e, StopAll);
    e := Then(p, e, Return);
  }

  lemma FirstRunning() returns (e: seq<Step>)
    ensures IsRun(NewPool(2), e)
    ensures After(NewPool(2), e) ==
      Pool([Service(Running, AtStartup, 1, None), Service(Stopped, NotRun, 0, None)], 0, 0, false, 0, None, Counting(0))
  {
    hide IsRun, After, NewPool;
    var p := NewPool(2);
    NewPools();
    e := Begin(p);
    e := Then(p, e, Start(0));
    e := Then(p, e, CallRunning(0));
    assert After(p, e).services == [Service(Running, AtStartup, 1, None), Service(Stopped, NotRun, 0, None)];
  }

  lemma FirstCounted() returns (e: seq<Step>)
    ensures IsRun(NewPool(2), e)
    ensures After(NewPool(2), e) ==
      Pool([Service(Running, Body, 1, None), Service(Stopped, NotRun, 0, None)], 0, 0, false, 0, None, Counting(1))
  {
    hide IsRun, After, NewPool;
    var p := NewPool(2);
    e := FirstRunning();
    e := Then(p, e, SendStartup(0));
    e := Then(p, e, TakeStartup);
    assert After(p, e).services == [Service(Running, Body, 1, None), Service(Stopped, NotRun, 0, None)];
  }

  lemma BackToBody() returns (e: seq<Step>)
    ensures IsRun(NewPool(2), e)
    ensures After(NewPool(2), e) ==
      Pool([Service(Stopping, Body, 1, None), Service(Stopped, NotRun, 0, None)], 0, 0, true, 1, None, Counting(1))
  {
    hide IsRun, After, NewPool;
    var p := NewPool(2);
    e := FirstCounted();
    e := Then(p, e, CallStopping(0));
    e := Then(p, e, Trigger(0));
    assert After(p, e).services == [Service(Stopping, Body, 1, None), Service(Stopped, NotRun, 0, None)];
  }

  /** A service that goes from Running to Stopping and back counts for two. */
  lemma ReentryCountsTwice() returns (e: seq<Step>)
    ensures IsRun(NewPool(2), e)
    ensures After(NewPool(2), e).runner.Announced? && !AllEntered(After(NewPool(2), e).services)
  {
    hide IsRun, After, NewPool;
    var p := NewPool(2);
    e := BackToBody();
    e := Then(p, e, CallRunning(0));
    e := Then(p, e, SendStartup(0));
    e := Then(p, e, TakeStartup);
    e := Then(p, e, Announce);
    assert After(p, e).services[1].entered == 0;
  }
}
