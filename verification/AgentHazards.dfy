/** Runs of the code outside the intended use, and what they lead to. */
module AgentHazards {
  import opened Wrappers
  import opened AgentConnection
  import opened AgentWords
  import opened AgentPair
  import opened AgentEndpoint
  import opened AgentSystem
  import opened AgentTheorems
  import opened AgentTwin

  // Runs are written down step by step.

  lemma {:induction false} RunCons(s: System, act: Action, acts: seq<Action>)
    requires Enabled(s, act) && CodeRun(Next(s, act), acts)
    ensures CodeRun(s, [act] + acts) && Exec(s, [act] + acts) == Exec(Next(s, act), acts)
  {
    assert ([act] + acts)[1..] == acts;
  }

  lemma {:induction false} NoSteps(s: System)
    ensures CodeRun(s, []) && Exec(s, []) == s
  {
  }

  lemma {:induction false} OneMore(s: System, p: seq<Action>, act: Action)
    requires CodeRun(s, p) && Enabled(Exec(s, p), act)
    ensures CodeRun(s, p + [act]) && Exec(s, p + [act]) == Next(Exec(s, p), act)
    decreases |p|
  {
    hide *;
    RunSplit(s, p);
    if p == [] {
      NoSteps(Next(s, act));
      RunCons(s, act, []);
      assert p + [act] == [act] + [];
    } else {
      OneMore(Next(s, p[0]), p[1..], act);
      RunCons(s, p[0], p[1..] + [act]);
      assert [p[0]] + (p[1..] + [act]) == p + [act];
    }
  }

  /** A state that the code can get into from the start. */
  ghost predicate Attainable(s: System) {
    exists acts :: CodeRun(START, acts) && Exec(START, acts) == s
  }

  lemma StartPossible()
    ensures Attainable(START)
  {
    NoSteps(START);
  }

  lemma Step(s: System, act: Action)
    requires Attainable(s) && Enabled(s, act)
    ensures Attainable(Next(s, act))
  {
    var acts :| CodeRun(START, acts) && Exec(START, acts) == s;
    OneMore(START, acts, act);
  }

  const ANY := Details("tcp", "", 0, "", 0)

  /** An endpoint that has opened or been offered connection 1. */
  function One(c: Conn, offered: seq<nat>, busy: Option<Busy>): Endpoint {
    Endpoint(Ids(1, map[], map[1 := ANY]), Door(false, false, false, offered), map[1 := c], 1, false, busy)
  }

  /** Connection 1 has been announced and the acceptor offers it. */
  const OFFERED := System(One(Fresh(true, false), [], None), One(Fresh(false, false), [], Some(Offering(1))), [], [])

  lemma OfferedPossible()
    ensures Attainable(OFFERED)
  {
    hide Attainable;
    StartPossible();
    var s1 := Next(START, User(A, RegisterConn(false, ANY)));
    Step(START, User(A, RegisterConn(false, ANY)));
    var s2 := Next(s1, User(A, AnnounceConn(1)));
    Step(s1, User(A, AnnounceConn(1)));
    assert s2.a == OFFERED.a && s2.ab == [New(1, Some(ANY))] && s2.ba == [];
    var s3 := Next(s2, Deliver(B));
    Step(s2, Deliver(B));
    assert s3.ab == [] && s3.ba == [];
    Step(s3, Proceed(B));
    assert Next(s3, Proceed(B)) == OFFERED;
  }

  /** `NoMoreConnections` under a pending offer kills the process. */
  lemma OfferPanics()
    ensures exists s :: Attainable(s) && s.b.door.panicked
  {
    OfferedPossible();
    Step(OFFERED, User(B, NoMoreConnections));
    assert Next(OFFERED, User(B, NoMoreConnections)).b.door.panicked;
  }

  /** The acceptor has accepted and the opener's handler has read WAITINIT. */
  const READ := System(
    One(Fresh(true, false), [], Some(Reading(1, WaitInit))),
    One(Accept(Fresh(false, false), 1).conn, [1], None), [], [Success(1)])

  lemma ReadPossible()
    ensures Attainable(READ)
  {
    hide Attainable;
    OfferedPossible();
    var s1 := Next(OFFERED, User(B, TakeOffer));
    Step(OFFERED, User(B, TakeOffer));
    assert s1.ab == [] && s1.ba == [];
    var s2 := Next(s1, User(B, AcceptConn(1)));
    Step(s1, User(B, AcceptConn(1)));
    assert s2.ab == [] && s2.ba == [Success(1)];
    Step(s2, Deliver(A));
    assert Next(s2, Deliver(A)) == READ;
  }

  ghost predicate Disagree(s: System, atA: State, atB: State) {
    Quiet(s) && 1 in s.a.conns && 1 in s.b.conns && s.a.conns[1].state == atA && s.b.conns[1].state == atB
  }

  /** `Close` at the opener before its handler goes on, up to the CLOSE in flight. */
  const RACED := System(
    One(ApplySuccess(FinishClose(BeginClose(Fresh(true, false)), 1).conn, WaitInit), [], None), READ.b,
      [Packet.Close(1)], [])

  lemma RacedPossible()
    ensures Attainable(RACED)
  {
    hide Attainable;
    ReadPossible();
    var s1 := Next(READ, User(A, StartClose(1)));
    Step(READ, User(A, StartClose(1)));
    var s2 := Next(s1, User(A, SendClose(1)));
    Step(s1, User(A, SendClose(1)));
    assert s2.ab == [Packet.Close(1)] && s2.ba == [Success(1)];
    Step(s2, Deliver(A));
    assert Next(s2, Deliver(A)) == RACED;
  }

  /** ... and the acceptor has answered. */
  function Answered(b: Endpoint): System { System(RACED.a, b, [], [Success(1)]) }

  lemma StartedCloses(y: Conn, id: nat)
    requires y.state.Started? && !y.shut.owed
    ensures var f := AgentConnection.HandleClose(y, id);
      && f.sent == [Success(id)] && f.conn.state.Closed? && !f.conn.shut.owed
      && f.conn.tally.releases == y.tally.releases + 1
  {
    var t := Heard(y);
    assert CloseImm(t).state.Closed? && !CloseImm(t).shut.owed;
    hide CloseImm;
  }

  lemma CloseArrives(s: System, f: Effect)
    requires s.ab == [Packet.Close(1)] && s.ba == [] && CanReceive(s.b, Packet.Close(1)) && 1 in s.b.conns
    requires f == AgentConnection.HandleClose(s.b.conns[1], 1) && !Dead(Put(s.b, 1, f.conn))
    ensures Enabled(s, Deliver(B)) && Next(s, Deliver(B)) == System(s.a, Put(s.b, 1, f.conn), [], f.sent)
  {
    hide AgentConnection.HandleClose;
    assert s.ba + f.sent == f.sent && s.ab[1..] == [];
  }

  lemma AnsweredPossible() returns (b: Endpoint)
    ensures Attainable(Answered(b)) && b.conns.Keys == {1} && b.conns[1].state.Closed? && !b.conns[1].shut.owed
    ensures b.ids.unannounced == map[]
  {
    hide Attainable, AgentConnection.HandleClose;
    RacedPossible();
    var f := AgentConnection.HandleClose(READ.b.conns[1], 1);
    StartedCloses(READ.b.conns[1], 1);
    CloseArrives(RACED, f);
    b := Put(READ.b, 1, f.conn);
    hide Next, Enabled;
    Step(RACED, Deliver(B));
  }

  /** The race is possible in the code and can end, with nothing in flight, STARTED against CLOSED. */
  lemma RaceDisagrees()
    ensures exists s :: Attainable(s) && Disagree(s, Started, Closed)
  {
    hide Attainable;
    var b := AnsweredPossible();
    var x := RACED.a.conns[1];
    assert x.state.Started? && !x.shut.owed;
    var x' := ApplySuccess(x, Started);
    assert x' == Took(x);
    hide ApplySuccess, BeginClose;
    var s1 := Next(Answered(b), Deliver(A));
    Step(Answered(b), Deliver(A));
    assert s1 == Answered(b).(a := RACED.a.(busy := Some(Reading(1, Started))));
    var s2 := Next(s1, Deliver(A));
    Step(s1, Deliver(A));
    assert s2.ab == [] && s2.ba == [] && s2.a.conns == map[1 := x'] && s2.b == b;
    assert Disagree(s2, Started, Closed);
  }

  /** `CloseImm` inside `handleSuccess` gives the token back of a connection that is open again, and the next
      close gives it back once more: the wait group goes below zero, which kills the process. */
  lemma ReleasedTwicePanics()
    ensures exists s :: Attainable(s) && 1 in s.a.conns && s.a.conns[1].tally.releases == 2 && Dead(s.a)
  {
    hide Attainable;
    ReadPossible();
    var s1 := Next(READ, User(A, ForceClose(1)));
    Step(READ, User(A, ForceClose(1)));
    assert s1.ab == [] && s1.ba == [Success(1)];
    var s2 := Next(s1, Deliver(A));
    Step(s1, Deliver(A));
    var s3 := Next(s2, User(A, ForceClose(1)));
    Step(s2, User(A, ForceClose(1)));
    assert s3.a.conns[1].tally.releases == 2 && s3.a.wg == -1;
  }

  /** `CloseImm` on an open connection leaves the peer STARTED. */
  lemma AbruptCloseDisagrees()
    ensures exists s :: Attainable(s) && Disagree(s, Closed, Started)
  {
    hide Attainable;
    ReadPossible();
    var s1 := Next(READ, Deliver(A));
    Step(READ, Deliver(A));
    assert s1.ab == [] && s1.ba == [];
    var s2 := Next(s1, User(A, ForceClose(1)));
    Step(s1, User(A, ForceClose(1)));
    assert s2.ab == [] && s2.ba == [] && Disagree(s2, Closed, Started);
  }

  // Opening without the caller's lock.

  function Two(): map<nat, Conn> { map[1 := Fresh(true, false), 2 := Fresh(true, false)] }

  /** Two openings at once, announced in the wrong order. */
  const CROSSED := System(
    Endpoint(Ids(2, map[], map[1 := ANY, 2 := ANY]), Door(false, false, false, []), Two(), 2, false, None), INITIAL,
      [New(2, Some(ANY)), New(1, Some(ANY))], [])

  lemma CrossedPossible()
    ensures Attainable(CROSSED)
  {
    hide Attainable;
    StartPossible();
    var open := User(A, RegisterConn(false, ANY));
    var s1 := Next(START, open);
    Step(START, open);
    var s2 := Next(s1, open);
    Step(s1, open);
    assert s2.a.conns == Two() && s2.ab == [] && s2.ba == [] && s2.a.ids.unannounced == map[1 := ANY, 2 := ANY];
    var s3 := Next(s2, User(A, AnnounceConn(2)));
    Step(s2, User(A, AnnounceConn(2)));
    assert s3.a.ids.unannounced == map[1 := ANY] && s3.ab == [New(2, Some(ANY))];
    Step(s3, User(A, AnnounceConn(1)));
    assert Next(s3, User(A, AnnounceConn(1))) == CROSSED;
  }

  /** The acceptor has dropped the earlier connection. */
  const DROPPED := System(
    CROSSED.a,
    Endpoint(Ids(2, map[], map[2 := ANY]), Door(false, false, false, [2]), map[2 := Fresh(false, false)], 1,
             false, None), [], [])

  lemma DroppedPossible()
    ensures Attainable(DROPPED)
  {
    hide Attainable;
    CrossedPossible();
    var s1 := Next(CROSSED, Deliver(B));
    Step(CROSSED, Deliver(B));
    assert s1.ab == [New(1, Some(ANY))] && s1.ba == [] && s1.b.conns == map[2 := Fresh(false, false)];
    var s2 := Next(s1, Proceed(B));
    Step(s1, Proceed(B));
    assert s2.ba == [];
    var s3 := Next(s2, User(B, TakeOffer));
    Step(s2, User(B, TakeOffer));
    assert s3.ba == [];
    Step(s3, Deliver(B));
    assert Next(s3, Deliver(B)) == DROPPED;
  }

  /** Closing a connection that the acceptor does not know, from any state with an idle acceptor. */
  lemma OrphanClose(s: System, i: nat)
    requires i in s.a.conns && s.a.conns[i].state.WaitInit? && i !in s.b.conns && s.ab == []
    requires !Dead(s.a) && CanReceive(s.b, Packet.Close(i))
    ensures Enabled(s, User(A, StartClose(i)))
    ensures var s1 := Next(s, User(A, StartClose(i)));
      && Enabled(s1, User(A, SendClose(i)))
      && var s2 := Next(s1, User(A, SendClose(i)));
         Enabled(s2, Deliver(B)) && Next(s2, Deliver(B)).b.mapLocked
  {
  }

  /** After two openings at once the acceptor can lose its map lock. */
  lemma OverlapLosesLock()
    ensures exists s :: Attainable(s) && s.b.mapLocked
  {
    hide Attainable;
    DroppedPossible();
    OrphanClose(DROPPED, 1);
    var s1 := Next(DROPPED, User(A, StartClose(1)));
    Step(DROPPED, User(A, StartClose(1)));
    var s2 := Next(s1, User(A, SendClose(1)));
    Step(s1, User(A, SendClose(1)));
    Step(s2, Deliver(B));
    hide Next, Enabled;
    assert Next(s2, Deliver(B)).b.mapLocked;
  }

  // Closing before announcing.

  /** A CLOSE of connection `i` comes before any NEW of it. */
  predicate Orphan(q: seq<Packet>, i: nat) {
    q != [] && (q[0] == Packet.Close(i) || (!(q[0].New? && q[0].id == i) && Orphan(q[1..], i)))
  }

  lemma {:induction false} OrphanAppend(q: seq<Packet>, ps: seq<Packet>, i: nat)
    requires Orphan(q, i)
    ensures Orphan(q + ps, i)
  {
    assert (q + ps)[0] == q[0] && (q + ps)[1..] == q[1..] + ps;
    if q[0] != Packet.Close(i) { OrphanAppend(q[1..], ps, i); }
  }

  lemma {:induction false} OrphanSent(q: seq<Packet>, i: nat)
    requires Proj(q, i) == []
    ensures Orphan(q + [Packet.Close(i)], i)
  {
    if q == [] {
      assert q + [Packet.Close(i)] == [Packet.Close(i)];
    } else {
      assert (q + [Packet.Close(i)])[1..] == q[1..] + [Packet.Close(i)];
      OrphanSent(q[1..], i);
    }
  }

  /** The acceptor has yet to handle a CLOSE of a connection that it will not know then. */
  ghost predicate Looming(s: System, i: nat) { i !in s.b.conns && Orphan(s.ab, i) }

  lemma LoomingReceive(e: Endpoint, inc: seq<Packet>, i: nat)
    requires i !in e.conns && Orphan(inc, i) && !Waits(e)
    ensures var r := Receive(e, inc[0]);
      r.e.mapLocked || (i !in r.e.conns && Orphan(if r.done then inc[1..] else inc, i))
    ensures e.mapLocked ==> Receive(e, inc[0]).e.mapLocked
  {
    hide HandleData, AgentConnection.HandleClose, HandleError, ApplySuccess, Fresh;
  }

  lemma LoomingCall(e: Endpoint, call: Call, i: nat)
    requires Possible(e, call)
    ensures e.mapLocked ==> Do(e, call).e.mapLocked
    ensures i !in e.conns && !call.RegisterConn? ==> i !in Do(e, call).e.conns
  {
    hide OnConn;
  }

  lemma LoomingResume(e: Endpoint, i: nat)
    requires CanResume(e)
    ensures e.mapLocked ==> Resume(e).e.mapLocked
    ensures i !in e.conns ==> i !in Resume(e).e.conns
  {
    hide Reject;
  }

  lemma ReceiveLocked(e: Endpoint, p: Packet)
    requires !Waits(e) && e.mapLocked
    ensures Receive(e, p).e.mapLocked
  {
    hide HandleData, AgentConnection.HandleClose, HandleError, ApplySuccess, Fresh;
  }

  predicate OpensAtB(act: Action) { act.User? && act.x == B && act.call.RegisterConn? }

  lemma LoomingStep(s: System, act: Action, i: nat)
    requires (s.b.mapLocked || Looming(s, i)) && Enabled(s, act) && !OpensAtB(act)
    ensures Next(s, act).b.mapLocked || Looming(Next(s, act), i)
  {
    hide Do, Receive, Resume, Possible;
    if act.x == A {
      FrameAt(s, act);
      if Looming(s, i) { AppendsLooming(s, act, i); }
    } else {
      match act
      case User(_, call) => LoomingCall(s.b, call, i);
      case Deliver(_) => if s.b.mapLocked { ReceiveLocked(s.b, s.ab[0]); } else { LoomingReceive(s.b, s.ab, i); }
      case Proceed(_) => LoomingResume(s.b, i);
    }
  }

  lemma {:induction false} AppendsLooming(s: System, act: Action, i: nat)
    requires Enabled(s, act) && act.x == A && Orphan(s.ab, i)
    ensures Orphan(Next(s, act).ab, i)
  {
    hide Do, Receive, Resume, Orphan;
    match act
    case User(_, call) => OrphanAppend(s.ab, Do(s.a, call).sent, i);
    case Deliver(_) => OrphanAppend(s.ab, Receive(s.a, s.ba[0]).sent, i);
    case Proceed(_) => OrphanAppend(s.ab, Resume(s.a).sent, i);
  }

  lemma {:induction false} LoomingRun(s: System, acts: seq<Action>, i: nat)
    requires (s.b.mapLocked || Looming(s, i)) && CodeRun(s, acts)
    requires forall k | 0 <= k < |acts| :: !OpensAtB(acts[k])
    ensures Exec(s, acts).b.mapLocked || Looming(Exec(s, acts), i)
    decreases |acts|
  {
    hide Next, Enabled, CodeRun, Exec;
    RunSplit(s, acts);
    if acts != [] {
      LoomingStep(s, acts[0], i);
      LoomingRun(Next(s, acts[0]), acts[1..], i);
    }
  }

  /** Closing before announcing loses the acceptor's map lock: from every state in order, and whatever happens
      then as long as the acceptor opens no connections, either the CLOSE is still ahead of it or the lock is
      lost. Announcing first keeps everything in order. */
  lemma {:induction false} EarlyCloseLosesLock(s: System, i: nat, acts: seq<Action>)
    requires Inv(s) && i in s.a.ids.unannounced
    ensures Enabled(s, User(A, StartClose(i)))
    ensures var s1 := Next(s, User(A, StartClose(i)));
      && Enabled(s1, User(A, SendClose(i)))
      && var s2 := Next(s1, User(A, SendClose(i)));
         CodeRun(s2, acts) && (forall k | 0 <= k < |acts| :: !OpensAtB(acts[k])) ==>
           var t := Exec(s2, acts); t.b.mapLocked || (i !in t.b.conns && Orphan(t.ab, i))
    ensures Enabled(s, User(A, AnnounceConn(i))) && Inv(Next(s, User(A, AnnounceConn(i))))
  {
    hide CodeRun, Exec, Orphan;
    EarlyClose(s, i);
    AnnounceKeeps(s, i);
    hide Inv, Next, Enabled;
    var s2 := Next(Next(s, User(A, StartClose(i))), User(A, SendClose(i)));
    if CodeRun(s2, acts) && forall k | 0 <= k < |acts| :: !OpensAtB(acts[k]) { LoomingRun(s2, acts, i); }
  }

  lemma AnnounceKeeps(s: System, i: nat)
    requires Inv(s) && i in s.a.ids.unannounced
    ensures Enabled(s, User(A, AnnounceConn(i))) && Inv(Next(s, User(A, AnnounceConn(i))))
  {
    InvAlive(s);
    NextKeeps(s, User(A, AnnounceConn(i)));
  }

  lemma EarlyClose(s: System, i: nat)
    requires Inv(s) && i in s.a.ids.unannounced
    ensures Enabled(s, User(A, StartClose(i)))
    ensures var s1 := Next(s, User(A, StartClose(i)));
      Enabled(s1, User(A, SendClose(i))) && Looming(Next(s1, User(A, SendClose(i))), i)
  {
    hide Inv, Orphan, Do;
    EarlyFacts(s, i);
    EarlyEnd(s.a, i);
    OrphanSent(s.ab, i);
    assert s.ab + [] == s.ab;
  }

  lemma EarlyEnd(e: Endpoint, i: nat)
    requires !Dead(e) && i in e.conns && e.conns[i].state.WaitInit?
    ensures var r := Do(e, StartClose(i));
      r.sent == [] && Possible(r.e, SendClose(i)) && Do(r.e, SendClose(i)).sent == [Packet.Close(i)]
  {
    var c := e.conns[i];
    var b := BeginClose(c);
    assert b.shut.owed && b.tally == c.tally;
    assert FinishClose(b, i) == Effect(b.(shut := b.shut.(owed := false)), [Packet.Close(i)]);
    hide BeginClose, FinishClose;
  }

  lemma {:induction false} EarlyFacts(s: System, i: nat)
    requires Inv(s) && i in s.a.ids.unannounced
    ensures !Dead(s.a) && i in s.a.conns && s.a.conns[i].state.WaitInit?
    ensures i !in s.b.conns && Proj(s.ab, i) == []
  {
    InvAlive(s);
    assert LinkInv(s, i);
  }
}
