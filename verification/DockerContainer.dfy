/** The container and its programs as the objects of `internal/docker/docker_impl.go`. Each method is one
    locked section of the original and takes the state from one point of `DockerExec` to the next; the
    objects keep what is proved there of every run. What the daemon answers is a parameter. */
module DockerContainer {
  import opened Wrappers
  import D = DockerExec

  class Program {
    var execId: string        // empty for the container's own program
    var pid: int
    ghost var phase: D.Phase

    constructor ()
      ensures View() == D.NewExec() && execId == ""
    {
      execId, pid, phase := "", 0, D.Creating;
    }

    ghost function View(): D.Exec
      reads this
    {
      D.Exec(phase, pid, false)
    }

    ghost predicate Named()
      reads this
    {
      !phase.Creating? && !phase.CreateFailed? ==> (execId == "" <==> phase.Main? || phase.MainEnded?)
    }
  }

  datatype SignalResult = NoAgent | NoPid | ToContainer | Helper(ticket: Program, pid: int)
  datatype RemoveResult = Waits | Already | Begun

  class Container {
    var wg: int
    var shuttingDown: bool
    var shutdown: bool
    var locked: bool          // left locked for good
    var removing: bool        // removeLock is held
    ghost var removal: D.Removal
    ghost var programs: seq<Program>

    constructor ()
      ensures Valid() && View() == D.INITIAL
    {
      wg, shuttingDown, shutdown, locked, removing := 0, false, false, false, false;
      removal, programs := D.NotStarted, [];
    }

    ghost predicate Shaped()
      reads this, programs
    {
      && (forall i, j | 0 <= i < j < |programs| :: programs[i] != programs[j])
      && (forall i | 0 <= i < |programs| :: programs[i].Named())
      && removing == (removal.Waiting? || removal.Passed? || removal.Deleting?)
    }

    ghost predicate Valid()
      reads this, programs
    {
      Shaped() && D.Inv(View())
    }

    ghost function Programs(): seq<D.Exec>
      reads this, programs
    {
      seq(|programs|, i requires 0 <= i < |programs| reads this, programs => programs[i].View())
    }

    ghost function View(): D.Container
      reads this, programs
    {
      D.Container(wg, shuttingDown, shutdown, locked, removal, Programs())
    }

    /** `p` is the program at `i` and the step about it can be taken. */
    ghost predicate At(i: nat, p: Program, s: D.Step)
      reads this, programs
    {
      Valid() && i < |programs| && programs[i] == p && D.Enabled(View(), s)
    }

    /** The programs that hold a token, which is what the wait group counts. */
    ghost function Holders(): set<Program>
      reads this, programs
    {
      set p | p in programs && D.Holds(p.phase)
    }

    /** The objects have taken the step, so they keep the invariant. */
    twostate lemma Kept(s: D.Step)
      requires old(Valid()) && Shaped() && D.Enabled(old(View()), s) && View() == D.Next(old(View()), s)
      ensures Valid()
    {
      hide D.Inv, D.Next, View;
      D.NextKeeps(old(View()), s);
    }

    lemma ProgramAt(i: nat)
      requires i < |programs|
      ensures |Programs()| == |programs| && Programs()[i] == programs[i].View()
    {
    }

    /** One program has changed. */
    twostate lemma OneChanged(i: nat)
      requires old(Shaped()) && programs == old(programs) && i < |programs|
      requires forall j | 0 <= j < |programs| && j != i :: unchanged(programs[j])
      ensures i < |old(Programs())| && Programs() == old(Programs())[i := programs[i].View()]
    {
    }

    /** `attach`: the container's own program. */
    method Attach() returns (p: Program)
      requires Valid()
      modifies this`programs
      ensures Valid() && View() == D.Next(old(View()), D.Attach) && programs == old(programs) + [p]
      ensures p.pid == 1 && p.execId == "" && p !in Holders() && wg == old(wg)
    {
      hide D.Inv;
      p := new Program();
      p.pid, p.phase := 1, D.Main;
      programs := programs + [p];
      Kept(D.Attach);
    }

    /** Reserves the place of a program that is about to be created. */
    method Ticket() returns (p: Program)
      requires Shaped()
      modifies this`wg, this`programs
      ensures fresh(p) && Shaped() && programs == old(programs) + [p]
      ensures View() == old(View()).(wg := old(wg) + 1, execs := old(Programs()) + [D.NewExec()])
    {
      wg := wg + 1;
      p := new Program();
      programs := programs + [p];
    }

    /** The locked part of `createExec`. */
    method Admit() returns (p: Option<Program>)
      requires Valid() && D.Enabled(View(), D.CreateExec)
      modifies this`wg, this`programs, this`locked
      ensures Valid() && View() == D.Next(old(View()), D.CreateExec) && (p.None? <==> shuttingDown)
      ensures p.Some? ==> fresh(p.value) && programs == old(programs) + [p.value]
      ensures if p.Some? then wg == old(wg) + 1 && locked == old(locked)
              else wg == old(wg) && locked && programs == old(programs)
    {
      hide D.Inv;
      if shuttingDown {
        locked := true;
        p := None;
      } else {
        var t := Ticket();
        p := Some(t);
      }
      Kept(D.CreateExec);
    }

    /** `createExec`. A refusal leaves the container locked. */
    method CreateExec(created: Option<string>, attached: bool) returns (r: Option<Program>)
      requires Valid() && D.Enabled(View(), D.CreateExec) && created != Some("")
      modifies this
      ensures Valid()
      ensures old(shuttingDown) ==> r == None && View() == D.Next(old(View()), D.CreateExec) && locked
      ensures !old(shuttingDown) ==>
        var ok := created.Some? && attached;
        && View() == D.Next(D.Next(old(View()), D.CreateExec), D.CreateResult(|old(programs)|, ok))
        && r.Some? == ok && wg == old(wg) + (if ok then 1 else 0) && locked == old(locked)
        && (ok ==> programs == old(programs) + [r.value] && r.value in Holders() && r.value.execId == created.value)
    {
      hide D.Inv;
      ghost var i := |programs|;
      var p := Admit();
      if p.None? { return None; }
      r := LockedCreateExec(i, p.value, created, attached);
    }

    method LockedCreateExec(ghost i: nat, p: Program, created: Option<string>, attached: bool)
      returns (r: Option<Program>)
      requires created != Some("") && At(i, p, D.CreateResult(i, created.Some? && attached))
      modifies this`wg, p
      ensures Valid() && View() == D.Next(old(View()), D.CreateResult(i, created.Some? && attached))
      ensures r == (if created.Some? && attached then Some(p) else None) && (p in Holders() <==> r.Some?)
      ensures r.Some? ==> p.execId == created.value && p.pid == 0
      ensures wg == old(wg) - if r.Some? then 0 else 1
    {
      hide D.Inv;
      if created.None? || !attached {
        wg := wg - 1;
        p.phase := D.CreateFailed;
        r := None;
      } else {
        p.execId, p.pid, p.phase := created.value, 0, D.Ready;
        r := Some(p);
      }
      Kept(D.CreateResult(i, created.Some? && attached));
    }

    /** `run`: `agent` if the program's id is to be read first, `pid` what is read. */
    method Run(ghost i: nat, p: Program, agent: bool, pid: Option<nat>)
      requires At(i, p, D.Run(i, pid))
      modifies this`wg, p
      ensures Valid() && View() == D.Next(old(View()), D.Run(i, if agent then pid else Some(0)))
      ensures p in Holders() <==> !agent || pid.Some?
      ensures p.pid == (if agent && pid.Some? then pid.value else 0)
      ensures wg == old(wg) - if agent && pid.None? then 1 else 0
    {
      hide D.Inv, Container.Programs;
      D.InvAt(View(), i);
      ProgramAt(i);
      if agent && pid.None? {
        wg := wg - 1;
        p.phase := D.RunFailed;
      } else {
        if agent { p.pid := pid.value; }
        p.phase := D.Live;
      }
      OneChanged(i);
      Kept(D.Run(i, if agent then pid else Some(0)));
    }

    /** The start of `finished`: from here on the program cannot be signalled. `owes` if the token is to be
        given back on return. */
    method BeginFinish(ghost i: nat, p: Program) returns (owes: bool)
      requires At(i, p, D.Finish(i))
      modifies p
      ensures Valid() && View() == D.Next(old(View()), D.Finish(i))
      ensures p.pid == -1 && owes == (old(p.pid) != -1 && p.execId != "")
      ensures owes ==> p.phase.Ending?
    {
      D.InvAt(View(), i);
      hide D.Inv;
      owes := p.pid != -1 && p.execId != "";
      if p.pid != -1 {
        p.phase := if p.phase.Main? then D.MainEnded else D.Ending;
        p.pid := -1;
      }
      Kept(D.Finish(i));
    }

    /** The return of `finished`: this program's token is given back and no other, and the wait group still
        counts exactly the programs that hold one. */
    method EndFinish(ghost i: nat, p: Program)
      requires At(i, p, D.FinishDone(i))
      modifies this`wg, p`phase
      ensures Valid() && View() == D.Next(old(View()), D.FinishDone(i))
      ensures old(Holders()) == Holders() + {p} && p !in Holders()
      ensures wg == old(wg) - 1 == D.Tokens(Programs()) >= 0
    {
      wg := wg - 1;
      p.phase := D.Ended;
      Kept(D.FinishDone(i));
    }

    /** `signal`, up to the creation of the helper program, for which it takes a token. A program that can be
        signalled holds a token itself, so the container is never found shut down here. */
    method Signal(ghost i: nat, p: Program, agentDisabled: bool) returns (r: SignalResult)
      requires At(i, p, D.Signal(i))
      modifies this
      ensures Valid() && View() == if agentDisabled then old(View()) else D.Next(old(View()), D.Signal(i))
      ensures r.NoAgent? <==> agentDisabled
      ensures !agentDisabled ==> (r.NoPid? <==> p.pid <= 0) && (r.ToContainer? <==> p.pid == 1)
      ensures r.Helper? <==> !agentDisabled && p.pid > 1
      ensures r.Helper? ==> old(wg) >= 1 && !shutdown && p in Holders() && programs == old(programs) + [r.ticket]
      ensures r.Helper? ==> r.pid == p.pid && wg == old(wg) + 1 && r.ticket in Holders()
    {
      if agentDisabled { return NoAgent; }
      if p.pid <= 0 { return NoPid; }
      if p.pid == 1 { return ToContainer; }
      D.SignalKeeps(View(), i);
      D.InvAt(View(), i);
      hide D.Inv;
      var ticket := Ticket();
      Kept(D.Signal(i));
      return Helper(ticket, p.pid);
    }

    /** The wait group is zero exactly if no program holds a token. */
    lemma WaitOverIff()
      requires Valid()
      ensures wg == 0 <==> Holders() == {}
    {
      if wg == 0 {
        forall p | p in Holders() ensures false {
          var i :| 0 <= i < |programs| && programs[i] == p;
          D.TokensAtLeast(Programs(), i);
        }
      } else {
        var i := D.SomeHolder(Programs());
        assert programs[i] in Holders();
      }
    }

    /** `remove` up to the wait. Only the first call goes on to it; a later one waits for the first to return
        and then has nothing to do. */
    method BeginRemove() returns (r: RemoveResult)
      requires Valid() && D.Enabled(View(), D.RemoveStart)
      modifies this`shuttingDown, this`removal, this`removing
      ensures Valid() && View() == D.Next(old(View()), D.RemoveStart)
      ensures r == if old(removing) then Waits else if old(shuttingDown) then Already else Begun
      ensures (r.Begun? <==> !old(shuttingDown)) && shuttingDown && (r.Begun? ==> removing)
    {
      if removing { return Waits; }
      if shuttingDown { return Already; }
      shuttingDown, removal, removing := true, D.Waiting, true;
      Kept(D.RemoveStart);
      return Begun;
    }

    /** The end of the wait: the only way on is that no program holds a token. */
    method EndWait() returns (over: bool)
      requires Valid() && removal.Waiting?
      modifies this`removal
      ensures Valid() && over == (Holders() == {})
      ensures over ==> D.Enabled(old(View()), D.RemoveWait) && View() == D.Next(old(View()), D.RemoveWait)
      ensures !over ==> View() == old(View())
    {
      WaitOverIff();
      over := wg == 0;
      if over {
        removal := D.Passed;
        Kept(D.RemoveWait);
      }
    }

    /** `remove` between the wait and the removal of the container: no program holds a token then, and none can
        be signalled but the container's own. */
    method MarkRemoved()
      requires Valid() && D.Enabled(View(), D.RemoveMark)
      modifies this`shutdown, this`removal
      ensures Valid() && View() == D.Next(old(View()), D.RemoveMark)
      ensures shutdown && wg == 0 && Holders() == {} && forall p | p in programs :: p.pid <= 1
    {
      WaitOverIff();
      forall p | p in programs ensures p.pid <= 1 {
        var i :| 0 <= i < |programs| && programs[i] == p;
        D.InvAt(View(), i);
        assert Programs()[i] == p.View() && (p.phase.Live? ==> p in Holders());
      }
      shutdown, removal := true, D.Deleting;
      Kept(D.RemoveMark);
    }

    /** `remove` returns. */
    method EndRemove()
      requires Valid() && removal.Deleting?
      modifies this`removal, this`removing
      ensures Valid() && View() == D.Next(old(View()), D.RemoveDone) && !removing && shuttingDown && Holders() == {}
    {
      WaitOverIff();
      removal, removing := D.Returned, false;
      Kept(D.RemoveDone);
    }
  }
}
