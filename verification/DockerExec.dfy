/** Programs in a Docker container and the removal of the container (`internal/docker/docker_impl.go`),
    as interleaved steps. The daemon's answers are part of the steps. */
module DockerExec {
  import opened Wrappers

  /** Where an execution is. `Creating` to `Ending` hold a token of the container's wait group; `Main` is
      the container's own program in session mode, which never has one. */
  datatype Phase = Creating | CreateFailed | Ready | Live | RunFailed | Ending | Ended | Main | MainEnded

  datatype Exec = Exec(phase: Phase, pid: int, locked: bool)   // locked: left locked for good

  /** Progress of `remove`. */
  datatype Removal = NotStarted | Waiting | Passed | Deleting | Returned

  datatype Container = Container(
    wg: int,
    shuttingDown: bool,
    shutdown: bool,
    locked: bool,          // d.lock was left locked for good
    removal: Removal,
    execs: seq<Exec>)

  const INITIAL := Container(0, false, false, false, NotStarted, [])

  datatype Step =
    | Attach
    | CreateExec
    | CreateResult(i: nat, ok: bool)
    | Run(i: nat, pid: Option<nat>)   // None: the pid could not be read
    | Finish(i: nat)
    | FinishDone(i: nat)
    | Signal(i: nat)
    | RemoveStart
    | RemoveWait
    | RemoveMark
    | RemoveDone

  predicate Holds(p: Phase) { p.Creating? || p.Ready? || p.Live? || p.Ending? }

  /** Its streams are being copied or were. */
  predicate Started(p: Phase) { p.Live? || p.Ending? || p.Ended? || p.Main? || p.MainEnded? }

  function NewExec(): Exec { Exec(Creating, 0, false) }

  /** The step can be taken: the caller is at that point and no lock it needs is lost. */
  predicate Enabled(c: Container, s: Step) {
    match s
    case Attach => true
    case CreateExec => !c.locked
    case CreateResult(i, _) => i < |c.execs| && c.execs[i].phase.Creating?
    case Run(i, _) => i < |c.execs| && c.execs[i].phase.Ready? && !c.execs[i].locked
    case Finish(i) => i < |c.execs| && Started(c.execs[i].phase) && !c.execs[i].locked
    case FinishDone(i) => i < |c.execs| && c.execs[i].phase.Ending?
    case Signal(i) => i < |c.execs| && !c.execs[i].phase.Creating? && !c.execs[i].phase.CreateFailed?
      && !c.execs[i].locked
    case RemoveStart => !c.shuttingDown ==> !c.locked
    case RemoveWait => c.removal.Waiting? && c.wg == 0
    case RemoveMark => c.removal.Passed? && !c.locked
    case RemoveDone => c.removal.Deleting?
  }

  function Next(c: Container, s: Step): Container
    requires Enabled(c, s)
  {
    match s
    case Attach => c.(execs := c.execs + [Exec(Main, 1, false)])
    case CreateExec =>
      if c.shuttingDown then c.(locked := true)
      else c.(wg := c.wg + 1, execs := c.execs + [NewExec()])
    case CreateResult(i, ok) =>
      if ok then c.(execs := c.execs[i := Exec(Ready, 0, false)])
      else c.(wg := c.wg - 1, execs := c.execs[i := c.execs[i].(phase := CreateFailed)])
    case Run(i, pid) =>
      if pid.Some? then c.(execs := c.execs[i := c.execs[i].(phase := Live, pid := pid.value)])
      else c.(wg := c.wg - 1, execs := c.execs[i := c.execs[i].(phase := RunFailed)])
    case Finish(i) =>
      if c.execs[i].pid == -1 then c
      else if c.execs[i].phase.Main? then c.(execs := c.execs[i := c.execs[i].(phase := MainEnded, pid := -1)])
      else c.(execs := c.execs[i := c.execs[i].(phase := Ending, pid := -1)])
    case FinishDone(i) => c.(wg := c.wg - 1, execs := c.execs[i := c.execs[i].(phase := Ended)])
    case Signal(i) =>
      if c.execs[i].pid <= 1 then c
      else if c.shutdown then c.(execs := c.execs[i := c.execs[i].(locked := true)])
      else c.(wg := c.wg + 1, execs := c.execs + [NewExec()])
    case RemoveStart => if c.shuttingDown then c else c.(shuttingDown := true, removal := Waiting)
    case RemoveWait => c.(removal := Passed)
    case RemoveMark => c.(shutdown := true, removal := Deleting)
    case RemoveDone => c.(removal := Returned)
  }

  /** Tokens held by executions. */
  function Tokens(es: seq<Exec>): nat {
    if es == [] then 0 else Tokens(es[..|es| - 1]) + if Holds(es[|es| - 1].phase) then 1 else 0
  }

  lemma {:induction false} TokensUpdate(es: seq<Exec>, i: nat, e: Exec)
    requires i < |es|
    ensures Tokens(es[i := e]) == Tokens(es) - (if Holds(es[i].phase) then 1 else 0) + (if Holds(e.phase) then 1 else 0)
  {
    var n := |es| - 1;
    if i < n {
      TokensUpdate(es[..n], i, e);
      assert es[i := e][..n] == es[..n][i := e];
    } else {
      assert es[i := e][..n] == es[..n];
    }
  }

  lemma {:induction false} TokensMore(es: seq<Exec>, e: Exec)
    ensures Tokens(es + [e]) == Tokens(es) + if Holds(e.phase) then 1 else 0
  {
    assert (es + [e])[..|es|] == es;
  }

  lemma {:induction false} TokensAtLeast(es: seq<Exec>, i: nat)
    requires i < |es| && Holds(es[i].phase)
    ensures Tokens(es) >= 1
  {
    if i < |es| - 1 { TokensAtLeast(es[..|es| - 1], i); }
  }

  lemma {:induction false} SomeHolder(es: seq<Exec>) returns (i: nat)
    requires Tokens(es) > 0
    ensures i < |es| && Holds(es[i].phase)
  {
    i := |es| - 1;
    if !Holds(es[i].phase) { i := SomeHolder(es[..i]); }
  }

  ghost predicate ExecOk(e: Exec) {
    && (e.pid > 1 ==> e.phase.Live?)
    && (e.phase.Live? ==> e.pid >= 0)
    && (e.phase.Main? ==> e.pid == 1)
    && (e.phase.Ending? || e.phase.Ended? || e.phase.MainEnded? ==> e.pid == -1)
    && (e.phase.Creating? || e.phase.Ready? ==> e.pid == 0)
    && !e.locked
  }

  ghost predicate Inv(c: Container) {
    && c.wg == Tokens(c.execs)
    && (forall i | 0 <= i < |c.execs| :: ExecOk(c.execs[i]))
    && (c.shuttingDown <==> !c.removal.NotStarted?)
    && (c.shutdown <==> c.removal.Deleting? || c.removal.Returned?)
    && (c.removal.Passed? || c.shutdown ==> c.wg == 0)
  }

  lemma PutKeeps(c: Container, i: nat, e: Exec, wg: int)
    requires Inv(c) && i < |c.execs| && ExecOk(e) && (Holds(e.phase) ==> Holds(c.execs[i].phase))
    requires wg == c.wg - (if Holds(c.execs[i].phase) && !Holds(e.phase) then 1 else 0)
    ensures Inv(c.(wg := wg, execs := c.execs[i := e]))
  {
    TokensUpdate(c.execs, i, e);
    if Holds(c.execs[i].phase) { TokensAtLeast(c.execs, i); }
  }

  lemma AddKeeps(c: Container, e: Exec, wg: int)
    requires Inv(c) && ExecOk(e)
    requires wg == c.wg + if Holds(e.phase) then 1 else 0
    requires Holds(e.phase) ==> !c.removal.Passed? && !c.shutdown
    ensures Inv(c.(wg := wg, execs := c.execs + [e]))
  {
    TokensMore(c.execs, e);
  }

  /** An execution that can be signalled still holds its token, so the wait group is above zero and
      `remove` has not passed. */
  lemma SignalKeeps(c: Container, i: nat)
    requires Inv(c) && i < |c.execs| && c.execs[i].pid > 1
    ensures c.wg >= 1 && !c.shutdown && Inv(c.(wg := c.wg + 1, execs := c.execs + [NewExec()]))
  {
    TokensAtLeast(c.execs, i);
    AddKeeps(c, NewExec(), c.wg + 1);
  }

  lemma RemoveKeeps(c: Container, s: Step)
    requires Inv(c) && Enabled(c, s) && (s.RemoveStart? || s.RemoveWait? || s.RemoveMark? || s.RemoveDone?)
    ensures Inv(Next(c, s))
  {
  }

  lemma InvAt(c: Container, i: nat)
    requires Inv(c) && i < |c.execs|
    ensures ExecOk(c.execs[i])
  {
  }

  lemma CreateKeeps(c: Container)
    requires Inv(c)
    ensures if c.shuttingDown then Inv(c.(locked := true))
            else Inv(c.(wg := c.wg + 1, execs := c.execs + [NewExec()]))
  {
    if !c.shuttingDown { AddKeeps(c, NewExec(), c.wg + 1); }
  }

  /** Every step keeps the invariant. */
  lemma NextKeeps(c: Container, s: Step)
    requires Inv(c) && Enabled(c, s)
    ensures Inv(Next(c, s))
  {
    hide Inv, Tokens;
    match s
    case Attach => AddKeeps(c, Exec(Main, 1, false), c.wg);
    case CreateExec => CreateKeeps(c);
    case Signal(i) => if c.execs[i].pid > 1 { SignalKeeps(c, i); }
    case RemoveStart => RemoveKeeps(c, s);
    case RemoveWait => RemoveKeeps(c, s);
    case RemoveMark => RemoveKeeps(c, s);
    case RemoveDone => RemoveKeeps(c, s);
    case _ => OwnStepKeeps(c, s);
  }

  /** A step that changes one execution and its share of the wait group. */
  lemma OwnStepKeeps(c: Container, s: Step)
    requires Inv(c) && Enabled(c, s) && (s.CreateResult? || s.Run? || s.Finish? || s.FinishDone?)
    ensures Inv(Next(c, s))
  {
    hide Inv, Tokens;
    InvAt(c, s.i);
    var c' := Next(c, s);
    assert c' == c.(wg := c'.wg, execs := c.execs[s.i := c'.execs[s.i]]);
    PutKeeps(c, s.i, c'.execs[s.i], c'.wg);
  }

  // Runs.

  predicate IsRun(c: Container, steps: seq<Step>)
    decreases |steps|
  {
    steps == [] || (Enabled(c, steps[0]) && IsRun(Next(c, steps[0]), steps[1..]))
  }

  function After(c: Container, steps: seq<Step>): Container
    requires IsRun(c, steps)
    decreases |steps|
  {
    if steps == [] then c else After(Next(c, steps[0]), steps[1..])
  }

  lemma {:induction false} RunKeeps(c: Container, steps: seq<Step>)
    requires Inv(c) && IsRun(c, steps)
    ensures Inv(After(c, steps))
    decreases |steps|
  {
    if steps != [] {
      NextKeeps(c, steps[0]);
      RunKeeps(Next(c, steps[0]), steps[1..]);
    }
  }

  lemma StartInv()
    ensures Inv(INITIAL)
  {
  }

  /** In every run the wait group counts the tokens held, so it is never negative; and once `remove` has
      passed the wait it stays zero: of the programs created in the container none is being created, running
      or ending, and none can be signalled. The container's own program has no token; it may still run and be
      signalled through the container. */
  lemma {:induction false} RemovalSafe(steps: seq<Step>)
    requires IsRun(INITIAL, steps)
    ensures var c := After(INITIAL, steps);
      && c.wg == Tokens(c.execs) >= 0
      && (c.removal.Passed? || c.removal.Deleting? || c.removal.Returned? ==>
            c.wg == 0 && forall i | 0 <= i < |c.execs| :: !Holds(c.execs[i].phase) && c.execs[i].pid <= 1)
  {
    hide IsRun, After, Next, Enabled, Tokens;
    StartInv();
    RunKeeps(INITIAL, steps);
    var c := After(INITIAL, steps);
    if c.wg == 0 {
      forall i | 0 <= i < |c.execs| ensures !Holds(c.execs[i].phase) && c.execs[i].pid <= 1 {
        if Holds(c.execs[i].phase) { TokensAtLeast(c.execs, i); }
      }
    }
  }

  /** A signal takes a token only while the wait group is above zero, and the branch of `signal` that
      returns with the execution locked is never reached. */
  lemma {:induction false} SignalSafe(steps: seq<Step>, i: nat)
    requires IsRun(INITIAL, steps) && Enabled(After(INITIAL, steps), Signal(i))
    ensures var c := After(INITIAL, steps); c.execs[i].pid > 1 ==>
      c.wg >= 1 && !c.shutdown && Next(c, Signal(i)).wg == c.wg + 1 && !Next(c, Signal(i)).execs[i].locked
  {
    RunKeeps(INITIAL, steps);
    var c := After(INITIAL, steps);
    if c.execs[i].pid > 1 { TokensAtLeast(c.execs, i); }
  }

  /** The id `v` was read when program `i` was run, and the program has not begun to end since. */
  ghost predicate RunsAs(steps: seq<Step>, i: nat, v: nat) {
    exists k :: 0 <= k < |steps| && steps[k] == Run(i, Some(v)) && forall j | k < j < |steps| :: steps[j] != Finish(i)
  }

  /** Runs are extended at the end. */
  lemma {:induction false} RunLast(c: Container, steps: seq<Step>)
    requires IsRun(c, steps) && steps != []
    ensures var n := |steps| - 1;
      && IsRun(c, steps[..n]) && Enabled(After(c, steps[..n]), steps[n])
      && After(c, steps) == Next(After(c, steps[..n]), steps[n])
    decreases |steps|
  {
    hide Enabled, Next;
    var n := |steps| - 1;
    if n > 0 {
      RunLast(Next(c, steps[0]), steps[1..]);
      assert steps[1..][..n - 1] == steps[..n][1..];
    }
  }

  lemma RunsAsLast(steps: seq<Step>, i: nat, v: nat)
    requires steps != []
    ensures var n := |steps| - 1;
      RunsAs(steps, i, v) <==> steps[n] == Run(i, Some(v)) || (RunsAs(steps[..n], i, v) && steps[n] != Finish(i))
  {
    var n := |steps| - 1;
    if RunsAs(steps[..n], i, v) && steps[n] != Finish(i) {
      var k :| 0 <= k < n && steps[..n][k] == Run(i, Some(v)) && forall j | k < j < n :: steps[..n][j] != Finish(i);
      assert forall j | k < j < |steps| :: steps[j] != Finish(i);
      assert steps[k] == Run(i, Some(v));
    }
    if RunsAs(steps, i, v) && steps[n] != Run(i, Some(v)) {
      var k :| 0 <= k < |steps| && steps[k] == Run(i, Some(v)) && forall j | k < j < |steps| :: steps[j] != Finish(i);
      assert steps[..n][k] == steps[k] && forall j | k < j < n :: steps[..n][j] != Finish(i);
    }
  }

  /** What one step does to the id of program `i`. */
  lemma PidStep(c: Container, s: Step, i: nat, v: nat)
    requires Inv(c) && Enabled(c, s) && v > 1
    ensures Pid(Next(c, s), i) == v <==> s == Run(i, Some(v)) || (Pid(c, i) == v && s != Finish(i))
  {
    assert forall j | 0 <= j < |c.execs| :: ExecOk(c.execs[j]);
    hide Inv;
  }

  function Pid(c: Container, i: nat): int { if i < |c.execs| then c.execs[i].pid else 0 }

  /** In every run the id by which program `i` can be signalled is the one that was read when it was run, from
      then until it begins to end. */
  lemma {:induction false} PidIff(steps: seq<Step>, i: nat, v: nat)
    requires IsRun(INITIAL, steps) && v > 1
    ensures Pid(After(INITIAL, steps), i) == v <==> RunsAs(steps, i, v)
    decreases |steps|
  {
    if steps != [] {
      var n := |steps| - 1;
      RunLast(INITIAL, steps);
      RunKeeps(INITIAL, steps[..n]);
      PidIff(steps[..n], i, v);
      hide IsRun, After, Enabled, Next, Inv, RunsAs;
      PidStep(After(INITIAL, steps[..n]), steps[n], i, v);
      RunsAsLast(steps, i, v);
    }
  }

  /** A signal to program `i` starts a helper exactly if the program was run with an id above one and has not
      begun to end. */
  lemma {:induction false} HelperIff(steps: seq<Step>, i: nat)
    requires IsRun(INITIAL, steps) && Enabled(After(INITIAL, steps), Signal(i))
    ensures var c := After(INITIAL, steps);
      Next(c, Signal(i)) != c <==> exists v: nat :: v > 1 && RunsAs(steps, i, v)
    ensures var c := After(INITIAL, steps);
      Next(c, Signal(i)) != c ==>
        Next(c, Signal(i)) == c.(wg := c.wg + 1, execs := c.execs + [Exec(Creating, 0, false)])
  {
    SignalSafe(steps, i);
    var c := After(INITIAL, steps);
    if c.execs[i].pid > 1 { PidIff(steps, i, c.execs[i].pid); }
    if v: nat :| v > 1 && RunsAs(steps, i, v) { PidIff(steps, i, v); }
    hide IsRun, After, RunsAs;
  }

  /** `createExec` refuses a program while shutting down and keeps the container locked. From then on the
      container is not deleted, whatever happens. */
  lemma {:induction false} RefusalBlocksRemoval(c: Container, steps: seq<Step>)
    requires Inv(c) && c.locked && !c.shutdown && IsRun(c, steps)
    ensures !After(c, steps).shutdown
    decreases |steps|
  {
    if steps != [] {
      NextKeeps(c, steps[0]);
      RefusalBlocksRemoval(Next(c, steps[0]), steps[1..]);
    }
  }

  /** Once the wait is over, `remove` can go on exactly if no program was refused before. */
  lemma {:induction false} RemovalGoesOnIff(steps: seq<Step>)
    requires IsRun(INITIAL, steps) && After(INITIAL, steps).removal.Passed?
    ensures Enabled(After(INITIAL, steps), RemoveMark) <==> !Refused(INITIAL, steps)
  {
    LockedIff(INITIAL, steps);
  }

  /** Some step of the run is a refused `createExec`. */
  ghost predicate Refused(c: Container, steps: seq<Step>)
    requires IsRun(c, steps)
    decreases |steps|
  {
    steps != [] && ((steps[0].CreateExec? && c.shuttingDown) || Refused(Next(c, steps[0]), steps[1..]))
  }

  lemma {:induction false} LockedIff(c: Container, steps: seq<Step>)
    requires IsRun(c, steps)
    ensures After(c, steps).locked <==> c.locked || Refused(c, steps)
    decreases |steps|
  {
    if steps != [] { LockedIff(Next(c, steps[0]), steps[1..]); }
  }
}
