/** What becomes of a connection when `CloseImm` is called on it while `handleSuccess`, which has read WAITINIT,
    is about to set it to STARTED: it is open again, with its token given back and its pipe closed. */
module AgentRevival {
  import opened AgentConnection
  import opened AgentWords
  import opened AgentPair
  import opened AgentEndpoint
  import opened AgentSystem
  import opened AgentTheorems
  import opened AgentTwin
  import opened AgentRace

  // The system is compared with the one in which `CloseImm` was not called.

  /** The opener's end `c` as it is, and as it would be. */
  ghost predicate Alike(c: Conn, k: Conn, racing: bool) {
    && c.io == Io(true, [], []) && k.io.wrote == [] && c.shut == k.shut && !k.shut.began && !k.shut.owed
    && if racing then c.state.Closed? && k.state.WaitInit?
       else c.state == k.state && (k.state.Started? || k.state.Closed?)
  }

  ghost predicate Revival(s: System, h: System, i: nat) {
    && TwinSystems(s, h, A, i, 1) && Inv(h) && h.a.busy == s.a.busy && s.a.wg >= 0
    && i in s.b.conns && i !in s.a.ids.unannounced
    && s.b.conns[i].answer.accepted && Alike(s.a.conns[i], h.a.conns[i], Racing(s.a, i))
  }

  // Handling a packet of the connection at the opener.

  ghost predicate AlikeEnds(e: Endpoint, h: Endpoint, i: nat) {
    Twins(e, h, i, 1) && h.busy == e.busy && Alike(e.conns[i], h.conns[i], Racing(e, i))
  }

  lemma LiftAlike(e: Endpoint, h: Endpoint, i: nat, f: Effect, g: Effect)
    requires AlikeEnds(e, h, i) && Alike(f.conn, g.conn, Racing(e, i)) && f.sent == g.sent
    requires f.conn.tally.releases - e.conns[i].tally.releases == g.conn.tally.releases - h.conns[i].tally.releases
    ensures AlikeEnds(Lift(e, i, f).e, Lift(h, i, g).e, i)
    ensures Lift(e, i, f).e.wg >= 0 ==> Lift(e, i, f).sent == Lift(h, i, g).sent
  {
    hide Alike;
    assert e.conns[i := h.conns[i]][i := g.conn] == e.conns[i := f.conn][i := g.conn];
  }

  /** A packet other than SUCCESS. */
  lemma EffectAlike(c: Conn, k: Conn, p: Packet)
    requires Alike(c, k, false) && (p.Data? || p.Close? || p.Error?)
    ensures var f, g := WholeEffect(c, p), WholeEffect(k, p);
      && Alike(f.conn, g.conn, false) && f.sent == g.sent
      && f.conn.tally.releases - c.tally.releases == g.conn.tally.releases - k.tally.releases
  {
    match p
    case Data(_, payload) =>
    case Close(_) => if c.state.Closed? {} else {}
    case Error(_) => if c.state.Closed? {} else {}
  }

  lemma ApplyAlike(c: Conn, k: Conn, seen: State)
    requires Alike(c, k, seen.WaitInit?) && (seen.WaitInit? || k.state.Closed?)
    ensures var f, g := ApplySuccess(c, seen), ApplySuccess(k, seen);
      && Alike(f, g, false) && f.tally == c.tally && g.tally == k.tally
  {
    match seen
    case WaitInit =>
    case WaitClose =>
    case _ =>
  }

  lemma SuccessAlike(e: Endpoint, h: Endpoint, i: nat)
    requires AlikeEnds(e, h, i) && InOrder(e, Success(i))
    requires Reads(e) && !e.busy.value.seen.WaitInit? ==> h.conns[i].state.Closed?
    ensures var r, q := HandleSuccess(e, i), HandleSuccess(h, i);
      AlikeEnds(r.e, q.e, i) && r.sent == q.sent && r.done == q.done
  {
    if Reads(e) {
      var c, k, seen := e.conns[i], h.conns[i], e.busy.value.seen;
      ApplyAlike(c, k, seen);
      var f, g := ApplySuccess(c, seen), ApplySuccess(k, seen);
      hide ApplySuccess, Alike;
      assert e.conns[i := k][i := g] == e.conns[i := f][i := g];
    }
  }

  lemma ReceiveAlike(e: Endpoint, h: Endpoint, p: Packet, i: nat)
    requires AlikeEnds(e, h, i) && Names(p, i) && InOrder(e, p)
    requires Reads(e) && !e.busy.value.seen.WaitInit? ==> h.conns[i].state.Closed?
    ensures InOrder(h, p)
    ensures var r, q := Receive(e, p), Receive(h, p);
      AlikeEnds(r.e, q.e, i) && r.done == q.done && (r.e.wg >= 0 ==> r.sent == q.sent)
  {
    if p.Success? {
      SuccessAlike(e, h, i);
    } else if !p.New? {
      var f, g := WholeEffect(e.conns[i], p), WholeEffect(h.conns[i], p);
      EffectAlike(e.conns[i], h.conns[i], p);
      assert Receive(e, p) == Lift(e, i, f) && Receive(h, p) == Lift(h, i, g);
      hide WholeEffect, Receive;
      LiftAlike(e, h, i, f, g);
    }
  }

  // One step of the system.

  /** What one step makes of both systems: a panic of the wait group ends the comparison. */
  ghost predicate Goes(s: System, h: System, act: Action, i: nat)
    requires Enabled(s, act)
  {
    && Enabled(h, act) && Inv(Next(h, act)) && AlikeEnds(Next(s, act).a, Next(h, act).a, i)
    && (Next(s, act).a.wg >= 0 ==> TwinSystems(Next(s, act), Next(h, act), A, i, 1))
  }

  lemma {:induction false} RevivalFacts(s: System, h: System, i: nat)
    requires Revival(s, h, i)
    ensures !Is(s.a, Arriving(i)) && !s.a.conns[i].shut.owed && AlikeEnds(s.a, h.a, i)
    ensures s.ba != [] && !Waits(s.a) ==> InOrder(s.a, s.ba[0])
    ensures Reads(s.a) && s.a.busy.value.id == i && !s.a.busy.value.seen.WaitInit? ==> h.a.conns[i].state.Closed?
    ensures !Dead(h.a) && i in h.b.conns && Both(h.a.conns[i], h.b.conns[i], Proj(h.ab, i), Proj(h.ba, i))
  {
    InvAlive(h);
    assert BusyOk(h.a) && BusyInv(h.a, h.ba) && LinkInv(h, i);
    LinkBoth(h, A, i);
    hide Both, Books, Handover;
  }

  lemma GoesElsewhere(s: System, h: System, act: Action, i: nat)
    requires Revival(s, h, i) && Enabled(s, act) && Finishing(act) && !Own(s, act, A, i)
    ensures Goes(s, h, act, i)
  {
    hide Inv, Next, Enabled, Alike;
    TwinStep(s, h, act, A, i, 1);
  }

  lemma GoesOwn(s: System, h: System, act: Action, i: nat)
    requires Revival(s, h, i) && Enabled(s, act) && Finishing(act) && Own(s, act, A, i)
    ensures Goes(s, h, act, i)
  {
    hide Inv, Next, Enabled, Alike, Both, Possible, CanReceive, Revival;
    RevivalFacts(s, h, i);
    OwnIsDeliver(s, h, act, i);
    ReceiveAlike(s.a, h.a, s.ba[0], i);
    TwinCan(s.a, h.a, i, 1, s.ba[0]);
    DeliverGoes(s, h, i);
    FinishingKeeps(h, act);
  }

  lemma OwnIsDeliver(s: System, h: System, act: Action, i: nat)
    requires Revival(s, h, i) && Enabled(s, act) && Finishing(act) && Own(s, act, A, i)
    ensures act == Deliver(A) && s.ba != [] && Names(s.ba[0], i) && CanReceive(s.a, s.ba[0]) && !Waits(s.a)
    ensures TwinSystems(s, h, A, i, 1) && Inv(h)
  {
    hide Inv, Both, Alike;
    RevivalFacts(s, h, i);
  }

  lemma DeliverGoes(s: System, h: System, i: nat)
    requires TwinSystems(s, h, A, i, 1) && s.ba != [] && CanReceive(s.a, s.ba[0]) && CanReceive(h.a, s.ba[0])
    requires var r, q := Receive(s.a, s.ba[0]), Receive(h.a, s.ba[0]);
      AlikeEnds(r.e, q.e, i) && r.done == q.done && (r.e.wg >= 0 ==> r.sent == q.sent)
    ensures Enabled(s, Deliver(A)) && Enabled(h, Deliver(A))
    ensures AlikeEnds(Next(s, Deliver(A)).a, Next(h, Deliver(A)).a, i)
    ensures Next(s, Deliver(A)).a.wg >= 0 ==> TwinSystems(Next(s, Deliver(A)), Next(h, Deliver(A)), A, i, 1)
  {
    hide Receive, Alike;
  }

  /** What the acceptor's end keeps. */
  predicate Steady(c: Conn, c': Conn) {
    && c'.shut.began == c.shut.began && c'.io.wrote == c.io.wrote
    && (c.answer.accepted && (c.state.WaitInit? ==> c.initiator) ==> c'.answer.accepted)
  }

  lemma PacketSteady(c: Conn, id: nat, payload: Bytes, seen: State)
    ensures Steady(c, HandleData(c, payload)) && Steady(c, HandleClose(c, id).conn)
    ensures Steady(c, HandleError(c)) && Steady(c, ApplySuccess(c, seen)) && Steady(c, FinishClose(c, id).conn)
    ensures Steady(c, Reject(c, id).conn)
  {
    match seen
    case WaitInit =>
    case WaitClose =>
    case _ =>
  }

  lemma CallSteady(e: Endpoint, call: Call, i: nat)
    requires i in e.conns && Possible(e, call) && Finishes(call)
    ensures i in Do(e, call).e.conns && Steady(e.conns[i], Do(e, call).e.conns[i])
  {
    PacketSteady(e.conns[i], i, [], Closed);
    hide FinishClose;
  }

  lemma ReceiveSteady(e: Endpoint, p: Packet, i: nat)
    requires i in e.conns && InOrder(e, p)
    ensures i in Receive(e, p).e.conns && Steady(e.conns[i], Receive(e, p).e.conns[i])
  {
    hide HandleData, AgentConnection.HandleClose, HandleError, ApplySuccess, Fresh, Steady;
    var c := e.conns[i];
    assert Steady(c, c) by { SteadySelf(c); }
    PacketSteady(c, i, if p.Data? then p.payload else [], if Reads(e) then e.busy.value.seen else Closed);
  }

  lemma SteadySelf(c: Conn)
    ensures Steady(c, c)
  {
  }

  lemma ResumeSteady(e: Endpoint, i: nat)
    requires i in e.conns && CanResume(e)
    ensures i in Resume(e).e.conns && Steady(e.conns[i], Resume(e).e.conns[i])
  {
    PacketSteady(e.conns[i], i, [], Closed);
    hide Reject;
  }

  lemma AcceptorFacts(s: System, h: System, i: nat)
    requires Revival(s, h, i)
    ensures i in s.b.conns && (s.b.conns[i].state.WaitInit? ==> s.b.conns[i].initiator)
    ensures s.ab != [] && !Waits(s.b) ==> InOrder(s.b, s.ab[0])
  {
    assert BusyInv(h.b, h.ab) && LinkInv(h, i);
    assert Local(s.b.conns[i]);
  }

  lemma PeerSteady(s: System, h: System, act: Action, i: nat)
    requires Revival(s, h, i) && Enabled(s, act) && Finishing(act)
    ensures i in Next(s, act).b.conns && Steady(s.b.conns[i], Next(s, act).b.conns[i])
    ensures Next(s, act).b.conns[i].answer.accepted
  {
    hide Inv, Do, Receive, Resume, LinkInv, Alike, Possible, CanResume;
    AcceptorFacts(s, h, i);
    if act.x == B {
      match act
      case User(_, call) => CallSteady(s.b, call, i);
      case Deliver(_) => ReceiveSteady(s.b, s.ab[0], i);
      case Proceed(_) => ResumeSteady(s.b, i);
    }
  }

  /** The wait group panics only after the acceptor has begun to close. */
  lemma PanicBegan(s: System, h: System, i: nat)
    requires Inv(h) && Twins(s.a, h.a, i, 1) && Alike(s.a.conns[i], h.a.conns[i], Racing(s.a, i)) && s.a.wg < 0
    requires i in h.b.conns && h.b.conns[i].answer.accepted && i !in h.a.ids.unannounced
    ensures h.b.conns[i].shut.began
  {
    InvAlive(h);
    if !h.a.conns[i].state.Closed? { HolderCounts(h.a, i); }
    assert LinkInv(h, i);
    LinkBoth(h, A, i);
  }

  lemma RevivalStep(s: System, h: System, act: Action, i: nat)
    requires Revival(s, h, i) && Enabled(s, act) && Finishing(act)
    ensures Enabled(h, act) && i in Next(s, act).b.conns && Steady(s.b.conns[i], Next(s, act).b.conns[i])
    ensures Next(s, act).a.wg >= 0 ==> Revival(Next(s, act), Next(h, act), i)
    ensures Next(s, act).a.wg < 0 ==> s.b.conns[i].shut.began
  {
    hide Next, Enabled, Inv, Alike;
    if Own(s, act, A, i) { GoesOwn(s, h, act, i); } else { GoesElsewhere(s, h, act, i); }
    PeerSteady(s, h, act, i);
    StillAnnounced(s, act, i);
    FrameAt(s, act);
    FrameAt(h, act);
    if Next(s, act).a.wg < 0 {
      PanicBegan(Next(s, act), Next(h, act), i);
    }
  }

  // From the forced close to the end.

  lemma {:induction false} PanicStays(s: System, acts: seq<Action>)
    requires s.a.wg < 0 && CodeRun(s, acts)
    ensures Exec(s, acts).a.wg < 0
    decreases |acts|
  {
    hide Next, CodeRun, Exec;
    RunSplit(s, acts);
    if acts != [] {
      assert acts[0].x == B;
      FrameAt(s, acts[0]);
      PanicStays(Next(s, acts[0]), acts[1..]);
    }
  }

  lemma {:induction false} RevivalRun(s: System, h: System, i: nat, acts: seq<Action>) returns (h': System)
    requires Revival(s, h, i) && CodeRun(s, acts) && forall k | 0 <= k < |acts| :: Finishing(acts[k])
    ensures var t := Exec(s, acts);
      if t.a.wg < 0 then s.b.conns[i].shut.began
      else
        && Revival(t, h', i) && t.b.conns[i].shut.began == s.b.conns[i].shut.began
        && t.b.conns[i].io.wrote == s.b.conns[i].io.wrote
    decreases |acts|
  {
    hide Next, Enabled, Inv, CodeRun, Exec, Alike;
    RunSplit(s, acts);
    h' := h;
    if acts != [] {
      RevivalStep(s, h, acts[0], i);
      var s' := Next(s, acts[0]);
      if s'.a.wg < 0 {
        PanicStays(s', acts[1..]);
      } else {
        h' := RevivalRun(s', Next(h, acts[0]), i, acts[1..]);
      }
    }
  }

  lemma RevivalEnds(s: System, h: System, i: nat)
    requires Revival(s, h, i) && Quiet(s)
    ensures Agree(s) <==> s.b.conns[i].shut.began || s.b.conns[i].io.wrote == []
  {
    hide Agree;
    OthersAgree(s, h, A, i, 1);
    LinkAgrees(h, i);
    RevivalFacts(s, h, i);
    assert !Racing(s.a, i) by { assert BusyInv(h.a, h.ba); }
    hide Inv;
  }

  lemma RevivalBegins(s: System, i: nat)
    requires Inv(s) && Racing(s.a, i)
    ensures Enabled(s, User(A, ForceClose(i))) && Revival(Next(s, User(A, ForceClose(i))), s, i)
  {
    hide Inv, Next, Enabled, CloseImm, Alike, LinkInv, Both;
    RaceFacts(s, i);
    ForceTwins(s, i);
    FrameAt(s, User(A, ForceClose(i)));
    RacingPeer(s, i);
    FreshAlike(s.a.conns[i]);
  }

  lemma RacingPeer(s: System, i: nat)
    requires Inv(s) && Racing(s.a, i)
    ensures i in s.b.conns && s.b.conns[i].answer.accepted
    ensures i in s.a.conns && Local(s.a.conns[i]) && s.a.conns[i].state.WaitInit?
  {
    RaceFacts(s, i);
    assert LinkInv(s, i);
    LinkBoth(s, A, i);
    RaceReply(s, i);
  }

  lemma FreshAlike(c: Conn)
    requires Local(c) && c.state.WaitInit?
    ensures Alike(CloseImm(c), c, true)
  {
  }
}
