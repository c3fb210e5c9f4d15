/** Two systems that differ in one end of one connection, and so do the same wherever that end is not
    concerned. What a hazard does to a connection is found out by comparing the system it happens in with one
    in which it does not. */
module AgentTwin {
  import opened Wrappers
  import opened AgentConnection
  import opened AgentWords
  import opened AgentPair
  import opened AgentEndpoint
  import opened AgentSystem
  import opened AgentTheorems

  /** Calls come to their end and packets are handled; nothing new is begun. */
  predicate Finishing(act: Action) {
    Handling(act) || (act.User? && Finishes(act.call))
  }

  predicate Finishes(call: Call) { call.SendClose? || call.AnnounceConn? || call.TakeOffer? }

  /** The handler is in the middle of a SUCCESS of connection `i`. */
  predicate ReadsOf(e: Endpoint, i: nat) { Reads(e) && e.busy.value.id == i }

  /** `h` is `e` with another connection `i`, `d` more in the wait group, and perhaps another state read of `i`. */
  ghost predicate Twins(e: Endpoint, h: Endpoint, i: nat, d: int) {
    && i in e.conns && i in h.conns && h.conns == e.conns[i := h.conns[i]]
    && h.ids == e.ids && h.door == e.door && h.mapLocked == e.mapLocked && h.wg == e.wg + d
    && (h.busy == e.busy || (ReadsOf(e, i) && ReadsOf(h, i)))
  }

  /** The twins after the same step, which was not on connection `i`: it did the same to both, unless it was
      a panic of one. */
  ghost predicate Parallel(e: Endpoint, h: Endpoint, r: Out, q: Out, i: nat, d: int) {
    && Twins(e, h, i, d) && Twins(r.e, q.e, i, d) && r.done == q.done
    && (r.e.wg >= 0 && q.e.wg >= 0 ==> r.sent == q.sent)
    && r.e.conns[i] == e.conns[i] && q.e.conns[i] == h.conns[i]
    && (ReadsOf(e, i) || ReadsOf(r.e, i) ==> r.e.busy == e.busy && q.e.busy == h.busy)
  }

  lemma Swap(m: map<nat, Conn>, i: nat, h: Conn, j: nat, c: Conn)
    requires i != j
    ensures m[i := h][j := c] == m[j := c][i := h]
  {
  }

  lemma TwinLift(e: Endpoint, h: Endpoint, i: nat, d: int, j: nat, f: Effect)
    requires Twins(e, h, i, d) && j in e.conns && j != i
    ensures Parallel(e, h, Lift(e, j, f), Lift(h, j, f), i, d)
  {
    Swap(e.conns, i, h.conns[i], j, f.conn);
  }

  /** A handler that is done with another connection. */
  lemma TwinIdle(e: Endpoint, h: Endpoint, i: nat, d: int)
    requires Twins(e, h, i, d) && h.busy == e.busy
    ensures Twins(e.(busy := None), h.(busy := None), i, d)
  {
  }

  lemma TwinCall(e: Endpoint, h: Endpoint, i: nat, d: int, call: Call)
    requires Twins(e, h, i, d) && Possible(e, call) && !Dead(h) && Finishes(call) && call != SendClose(i)
    ensures Possible(h, call)
    ensures Parallel(e, h, Do(e, call), Do(h, call), i, d)
  {
    if call.SendClose? {
      var f := FinishClose(e.conns[call.id], call.id);
      hide FinishClose;
      TwinLift(e, h, i, d, call.id, f);
    }
  }

  lemma TwinResume(e: Endpoint, h: Endpoint, i: nat, d: int)
    requires Twins(e, h, i, d) && CanResume(e) && !Dead(h) && !Is(e, Arriving(i))
    ensures CanResume(h)
    ensures Parallel(e, h, Resume(e), Resume(h), i, d)
  {
    if e.busy.value.Arriving? {
      var j := e.busy.value.id;
      var f := Reject(e.conns[j], j);
      hide Reject;
      TwinIdle(e, h, i, d);
      TwinLift(e.(busy := None), h.(busy := None), i, d, j, f);
    }
  }

  lemma TwinNew(e: Endpoint, h: Endpoint, i: nat, d: int, id: nat, details: Option<Details>)
    requires Twins(e, h, i, d) && id != i && e.busy.None?
    ensures Parallel(e, h, Out(HandleNew(e, id, details), [], true), Out(HandleNew(h, id, details), [], true), i, d)
  {
    hide Fresh;
    Swap(e.conns, i, h.conns[i], id, Fresh(false, false));
  }

  lemma TwinSuccess(e: Endpoint, h: Endpoint, i: nat, d: int, j: nat)
    requires Twins(e, h, i, d) && j in e.conns && j != i && InOrder(e, Success(j))
    ensures Parallel(e, h, HandleSuccess(e, j), HandleSuccess(h, j), i, d)
  {
    if Reads(e) {
      var f := Effect(ApplySuccess(e.conns[j], e.busy.value.seen), []);
      hide ApplySuccess;
      TwinIdle(e, h, i, d);
      TwinLift(e.(busy := None), h.(busy := None), i, d, j, f);
    }
  }

  lemma TwinReceive(e: Endpoint, h: Endpoint, i: nat, d: int, p: Packet)
    requires Twins(e, h, i, d) && !Names(p, i) && InOrder(e, p)
    ensures InOrder(h, p) && Parallel(e, h, Receive(e, p), Receive(h, p), i, d)
  {
    hide HandleData, AgentConnection.HandleClose, HandleError, ApplySuccess, Fresh;
    match p
    case New(id, details) => TwinNew(e, h, i, d, id, details);
    case Close(j) => if j in e.conns { TwinLift(e, h, i, d, j, AgentConnection.HandleClose(e.conns[j], j)); }
    case Data(j, payload) => if j in e.conns { TwinLift(e, h, i, d, j, Effect(HandleData(e.conns[j], payload), [])); }
    case Error(j) => if j in e.conns { TwinLift(e, h, i, d, j, Effect(HandleError(e.conns[j]), [])); }
    case Success(j) => if j in e.conns { TwinSuccess(e, h, i, d, j); }
    case _ =>
  }

  lemma TwinCan(e: Endpoint, h: Endpoint, i: nat, d: int, p: Packet)
    requires Twins(e, h, i, d) && CanReceive(e, p) && !Dead(h)
    ensures CanReceive(h, p)
  {
  }

  // Two systems.

  ghost predicate TwinSystems(s: System, h: System, x: Side, i: nat, d: int) {
    && Twins(s.End(x), h.End(x), i, d)
    && h.End(Other(x)) == s.End(Other(x)) && h.ab == s.ab && h.ba == s.ba
  }

  /** The step concerns connection `i` at side `x`. */
  predicate Own(s: System, act: Action, x: Side, i: nat) {
    && act.x == x
    && match act
       case User(_, call) => call == SendClose(i)
       case Deliver(_) => s.Inc(x) != [] && Names(s.Inc(x)[0], i)
       case Proceed(_) => Is(s.End(x), Arriving(i))
  }

  /** Finishing what was begun is intended use. */
  lemma FinishingDisciplined(s: System, act: Action)
    requires Inv(s) && Enabled(s, act) && Finishing(act)
    ensures Disciplined(s, act)
  {
    if act.User? && act.call.SendClose? { assert LinkInv(s, act.call.id); }
  }

  /** Finishing registers nothing. */
  lemma StillAnnounced(s: System, act: Action, i: nat)
    requires Enabled(s, act) && Finishing(act) && i !in s.a.ids.unannounced
    ensures i !in Next(s, act).a.ids.unannounced
  {
    hide HandleData, AgentConnection.HandleClose, HandleError, ApplySuccess, Fresh, Reject, FinishClose;
  }

  /** A step of one side leaves the other alone. */
  lemma FrameAt(s: System, act: Action)
    requires Enabled(s, act)
    ensures Next(s, act).End(Other(act.x)) == s.End(Other(act.x))
    ensures !act.Deliver? ==> Next(s, act).Inc(act.x) == s.Inc(act.x)
  {
    hide Do, Receive, Resume;
  }

  lemma FinishingKeeps(s: System, act: Action)
    requires Inv(s) && Enabled(s, act) && Finishing(act)
    ensures Inv(Next(s, act)) && !Dead(Next(s, act).a) && !Dead(Next(s, act).b)
  {
    FinishingDisciplined(s, act);
    hide Next, Enabled, Disciplined;
    NextKeeps(s, act);
    InvAlive(Next(s, act));
  }

  lemma InvAlive(s: System)
    requires Inv(s)
    ensures !Dead(s.a) && !Dead(s.b) && !s.a.mapLocked && !s.b.mapLocked
  {
    assert Books(s.a) && Books(s.b) && Gate(s.a) && Gate(s.b);
  }

  /** Twin systems stay twins in a step that is not on the connection in which they differ, unless it is a
      panic of the wait group. */
  ghost predicate StayTwins(s: System, h: System, act: Action, x: Side, i: nat, d: int)
    requires Enabled(s, act)
  {
    && TwinSystems(s, h, x, i, d) && Enabled(h, act)
    && var e, e', f, f' := s.End(x), Next(s, act).End(x), h.End(x), Next(h, act).End(x);
       && Twins(e', f', i, d) && (e'.wg >= 0 ==> TwinSystems(Next(s, act), Next(h, act), x, i, d))
       && e'.conns[i] == e.conns[i] && f'.conns[i] == f.conns[i]
       && (ReadsOf(e, i) || ReadsOf(e', i) ==> e'.busy == e.busy && f'.busy == f.busy)
  }

  lemma TwinFar(s: System, h: System, act: Action, x: Side, i: nat, d: int)
    requires TwinSystems(s, h, x, i, d) && Enabled(s, act) && act.x != x
    ensures StayTwins(s, h, act, x, i, d)
  {
    hide Do, Receive, Resume;
  }

  /** What the twins send, and leave to be read, is the same. */
  lemma TwinNext(s: System, h: System, act: Action, i: nat, d: int, r: Out, q: Out)
    requires TwinSystems(s, h, act.x, i, d) && Enabled(s, act) && Enabled(h, act)
    requires Parallel(s.End(act.x), h.End(act.x), r, q, i, d) && q.e.wg >= 0
    requires r == match act
      case User(x, call) => Do(s.End(x), call)
      case Deliver(x) => Receive(s.End(x), s.Inc(x)[0])
      case Proceed(x) => Resume(s.End(x))
    requires q == match act
      case User(x, call) => Do(h.End(x), call)
      case Deliver(x) => Receive(h.End(x), h.Inc(x)[0])
      case Proceed(x) => Resume(h.End(x))
    ensures StayTwins(s, h, act, act.x, i, d)
  {
    hide Do, Receive, Resume, Twins;
  }

  lemma TwinInOrder(s: System, h: System, x: Side, i: nat, d: int)
    requires TwinSystems(s, h, x, i, d) && Inv(h) && s.Inc(x) != [] && !Names(s.Inc(x)[0], i) && !Waits(s.End(x))
    ensures InOrder(s.End(x), s.Inc(x)[0])
  {
    assert BusyInv(h.End(x), h.Inc(x));
  }

  lemma TwinCallStep(s: System, h: System, x: Side, call: Call, i: nat, d: int)
    requires TwinSystems(s, h, x, i, d) && Inv(h) && Enabled(s, User(x, call)) && Finishes(call) && call != SendClose(i)
    ensures StayTwins(s, h, User(x, call), x, i, d)
  {
    hide Inv, Do, Possible;
    InvAlive(h);
    TwinCall(s.End(x), h.End(x), i, d, call);
    FinishingKeeps(h, User(x, call));
    TwinNext(s, h, User(x, call), i, d, Do(s.End(x), call), Do(h.End(x), call));
  }

  lemma TwinDeliverStep(s: System, h: System, x: Side, i: nat, d: int)
    requires TwinSystems(s, h, x, i, d) && Inv(h) && Enabled(s, Deliver(x)) && !Names(s.Inc(x)[0], i)
    ensures StayTwins(s, h, Deliver(x), x, i, d)
  {
    hide Inv, Receive;
    InvAlive(h);
    var p := s.Inc(x)[0];
    TwinInOrder(s, h, x, i, d);
    TwinReceive(s.End(x), h.End(x), i, d, p);
    TwinCan(s.End(x), h.End(x), i, d, p);
    FinishingKeeps(h, Deliver(x));
    TwinNext(s, h, Deliver(x), i, d, Receive(s.End(x), p), Receive(h.End(x), p));
  }

  lemma TwinProceedStep(s: System, h: System, x: Side, i: nat, d: int)
    requires TwinSystems(s, h, x, i, d) && Inv(h) && Enabled(s, Proceed(x)) && !Is(s.End(x), Arriving(i))
    ensures StayTwins(s, h, Proceed(x), x, i, d)
  {
    hide Inv, Resume, CanResume;
    InvAlive(h);
    TwinResume(s.End(x), h.End(x), i, d);
    FinishingKeeps(h, Proceed(x));
    TwinNext(s, h, Proceed(x), i, d, Resume(s.End(x)), Resume(h.End(x)));
  }

  lemma TwinStep(s: System, h: System, act: Action, x: Side, i: nat, d: int)
    requires TwinSystems(s, h, x, i, d) && Inv(h) && Enabled(s, act) && Finishing(act) && !Own(s, act, x, i)
    ensures StayTwins(s, h, act, x, i, d) && Inv(Next(h, act))
  {
    hide Inv, Next, TwinSystems, Possible;
    if act.x != x {
      TwinFar(s, h, act, x, i, d);
    } else {
      match act
      case User(_, call) => TwinCallStep(s, h, x, call, i, d);
      case Deliver(_) => TwinDeliverStep(s, h, x, i, d);
      case Proceed(_) => TwinProceedStep(s, h, x, i, d);
    }
    FinishingKeeps(h, act);
  }

  /** All connections agree but perhaps the one in which the twins differ. */
  lemma OthersAgree(s: System, h: System, x: Side, i: nat, d: int)
    requires TwinSystems(s, h, x, i, d) && Inv(h) && Quiet(s)
    ensures i in s.a.conns && i in s.b.conns
    ensures Agree(s) <==> EndsAgree(s.a.conns[i], s.b.conns[i])
  {
    forall j: nat ensures j in s.a.conns <==> j in s.b.conns { assert LinkInv(h, j); }
    forall j | j in s.a.conns && j != i ensures EndsAgree(s.a.conns[j], s.b.conns[j]) {
      assert h.a.conns[j] == s.a.conns[j] && h.b.conns[j] == s.b.conns[j];
      LinkAgrees(h, j);
    }
  }

  lemma LinkAgrees(h: System, j: nat)
    requires Inv(h) && j in h.a.conns && h.ab == [] && h.ba == [] && h.a.ids.unannounced == map[]
    ensures j in h.b.conns
    ensures !h.a.conns[j].shut.owed && !h.b.conns[j].shut.owed ==> EndsAgree(h.a.conns[j], h.b.conns[j])
  {
    assert LinkInv(h, j);
    if !h.a.conns[j].shut.owed && !h.b.conns[j].shut.owed { PairAgrees(h.a.conns[j], h.b.conns[j]); }
  }

  /** A connection that is not over holds a token. */
  lemma HolderCounts(e: Endpoint, i: nat)
    requires Books(e) && i in e.conns && !e.conns[i].state.Closed?
    ensures e.wg >= 1
  {
    assert i in Holders(e.conns);
  }

  lemma HolderHere(h: System, i: nat)
    requires Inv(h) && i in h.a.conns && !h.a.conns[i].state.Closed?
    ensures h.a.wg >= 1
  {
    HolderCounts(h.a, i);
  }

  /** A system and the same after `CloseImm`. */
  lemma ForceTwins(h: System, i: nat)
    requires Inv(h) && i in h.a.conns && !h.a.conns[i].state.Closed?
    ensures Enabled(h, User(A, ForceClose(i)))
    ensures var s := Next(h, User(A, ForceClose(i)));
      && TwinSystems(s, h, A, i, 1) && s.a.conns[i] == CloseImm(h.a.conns[i]) && s.a.busy == h.a.busy && s.a.wg >= 0
  {
    InvAlive(h);
    HolderCounts(h.a, i);
    hide Inv;
    ForceEnd(h.a, i);
    assert h.ab + [] == h.ab;
  }

  lemma ForceEnd(e: Endpoint, i: nat)
    requires !Dead(e) && i in e.conns && !e.conns[i].state.Closed?
    ensures var r := Do(e, ForceClose(i));
      && Twins(r.e, e, i, 1) && r.e.conns[i] == CloseImm(e.conns[i]) && r.e.busy == e.busy && r.sent == [] && r.done
  {
    var c := e.conns[i];
    assert CloseImm(c).tally.releases == c.tally.releases + 1;
    hide CloseImm;
    assert e.conns[i := CloseImm(c)][i := c] == e.conns;
  }
}
