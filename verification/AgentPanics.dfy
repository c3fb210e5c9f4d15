/** Panics of the process, and tokens of the wait group, in every run of one endpoint that the code allows,
    careful or not, against any peer. */
module AgentPanics {
  import opened Wrappers
  import opened AgentConnection
  import opened AgentEndpoint

  /** The event calls `CloseImm` on connection `i`, which is not CLOSED: it gives the connection's token back. */
  predicate Ends(e: Endpoint, ev: Event, i: nat) {
    && i in e.conns && !e.conns[i].state.Closed?
    && (|| ev == Called(ForceClose(i)) || ev == Got(Packet.Close(i)) || ev == Got(Packet.Error(i))
        || (ev == Got(Success(i)) && Is(e, Reading(i, WaitClose))))
  }

  /** One more release, and callback, of a connection if `more`. */
  predicate ReleasedIf(c: Conn, c': Conn, more: bool) {
    && c'.tally.releases == c.tally.releases + Bit(more)
    && c'.tally.hasCallback == c.tally.hasCallback
    && c'.tally.callbacks == c.tally.callbacks + (if c.tally.hasCallback then Bit(more) else 0)
  }

  lemma CallReleases(c: Conn, call: Call)
    requires OnConnection(call) && Ready(c, call)
    ensures ReleasedIf(c, OnConn(c, call).conn, call.ForceClose? && !c.state.Closed?)
  {
    match call
    case StartClose(_) =>
    case SendClose(_) =>
    case WriteBytes(_, _) =>
    case AcceptConn(_) =>
    case RejectConn(_) =>
    case ForceClose(_) =>
  }

  lemma PacketReleases(c: Conn, id: nat, payload: Bytes, seen: State)
    ensures ReleasedIf(c, HandleData(c, payload), false)
    ensures ReleasedIf(c, HandleClose(c, id).conn, !c.state.Closed?)
    ensures ReleasedIf(c, HandleError(c), !c.state.Closed?)
    ensures ReleasedIf(c, ApplySuccess(c, seen), seen.WaitClose? && !c.state.Closed?)
    ensures ReleasedIf(c, Reject(c, id).conn, false)
  {
    var h, t := Heard(c), Took(c);
    assert HandleClose(c, id).conn == CloseImm(h) && HandleError(c) == CloseImm(t);
    match seen
    case WaitInit =>
    case WaitClose =>
    case _ =>
  }

  predicate IsFresh(c: Conn) { c == Fresh(c.initiator, c.tally.hasCallback) }

  /** The only tokens that come are those of new connections, and the only ones that go those of connections
      that are ended. */
  ghost predicate Settled(e: Endpoint, e': Endpoint, ended: set<nat>) {
    && e.conns.Keys <= e'.conns.Keys && ended <= e.conns.Keys
    && (forall i | i in e.conns :: ReleasedIf(e.conns[i], e'.conns[i], i in ended))
    && (forall i | i in e'.conns && i !in e.conns :: IsFresh(e'.conns[i]))
    && e'.wg == e.wg + |e'.conns.Keys - e.conns.Keys| - |ended|
    && (ended == {} || e'.conns.Keys == e.conns.Keys)
  }

  ghost function EndedBy(e: Endpoint, ev: Event): set<nat> { set i | i in e.conns && Ends(e, ev, i) }

  lemma LiftSettled(e: Endpoint, id: nat, c: Conn, more: bool)
    requires id in e.conns && ReleasedIf(e.conns[id], c, more)
    ensures Settled(e, Put(e, id, c), if more then {id} else {})
  {
    assert Put(e, id, c).conns.Keys - e.conns.Keys == {};
  }

  lemma SameSettled(e: Endpoint, e': Endpoint)
    requires e'.conns == e.conns && e'.wg == e.wg
    ensures Settled(e, e', {})
  {
    assert e'.conns.Keys - e.conns.Keys == {};
  }

  lemma AddSettled(e: Endpoint, e': Endpoint, id: nat, c: Conn)
    requires id !in e.conns && IsFresh(c) && e'.conns == e.conns[id := c] && e'.wg == e.wg + 1
    ensures Settled(e, e', {})
  {
    assert e'.conns.Keys - e.conns.Keys == {id};
  }

  lemma CallSettled(e: Endpoint, call: Call)
    requires Possible(e, call)
    ensures Settled(e, Do(e, call).e, if call.ForceClose? && !e.conns[call.id].state.Closed? then {call.id} else {})
  {
    hide Settled, ReleasedIf, OnConn;
    if OnConnection(call) {
      CallReleases(e.conns[call.id], call);
      LiftSettled(e, call.id, OnConn(e.conns[call.id], call).conn, call.ForceClose? && !e.conns[call.id].state.Closed?);
    } else if call.RegisterConn? && NextId(e.ids.counter) !in e.conns {
      AddSettled(e, Do(e, call).e, NextId(e.ids.counter), Fresh(true, call.hasCallback));
    } else {
      SameSettled(e, Do(e, call).e);
    }
  }

  lemma PacketSettled(e: Endpoint, p: Packet)
    requires InOrder(e, p)
    ensures Settled(e, Receive(e, p).e, EndedBy(e, Got(p)))
  {
    hide Settled, ReleasedIf, Fresh, IsFresh, HandleData, HandleError, ApplySuccess, AgentConnection.HandleClose;
    var ended := EndedBy(e, Got(p));
    if OfConnection(p) && p.id in e.conns && !(p.Success? && !Reads(e)) {
      var c, seen := e.conns[p.id], if Reads(e) then e.busy.value.seen else Closed;
      PacketReleases(c, p.id, if p.Data? then p.payload else [], seen);
      var more := !c.state.Closed? && (p.Close? || p.Error? || (p.Success? && seen.WaitClose?));
      assert ended == if more then {p.id} else {};
      var d := match p
        case Data(_, payload) => HandleData(c, payload)
        case Close(id) => HandleClose(c, id).conn
        case Success(_) => ApplySuccess(c, seen)
        case _ => HandleError(c);
      LiftSettled(e.(busy := Receive(e, p).e.busy), p.id, d, more);
      assert Settled(e, Receive(e, p).e, ended) by { SettledBusy(e, Receive(e, p).e, ended); }
    } else {
      assert ended == {};
      if p.New? && Receive(e, p).e.conns != e.conns {
        assert IsFresh(Fresh(false, false)) by { FreshIs(false, false); }
        AddSettled(e, Receive(e, p).e, p.id, Fresh(false, false));
      } else {
        SameSettled(e, Receive(e, p).e);
      }
    }
  }

  lemma FreshIs(initiator: bool, hasCallback: bool)
    ensures IsFresh(Fresh(initiator, hasCallback))
  {
  }

  /** It does not matter what the handler is at. */
  lemma SettledBusy(e: Endpoint, e': Endpoint, ended: set<nat>)
    requires Settled(e.(busy := e'.busy), e', ended)
    ensures Settled(e, e', ended)
  {
  }

  lemma ResumeSettled(e: Endpoint)
    requires CanResume(e)
    ensures Settled(e, Resume(e).e, {})
  {
    hide Settled, ReleasedIf;
    if e.busy.value.Arriving? && e.door.stopped {
      var id := e.busy.value.id;
      PacketReleases(e.conns[id], id, [], Closed);
      hide Reject;
      LiftSettled(e.(busy := None), id, Reject(e.conns[id], id).conn, false);
      SettledBusy(e, Resume(e).e, {});
    } else {
      SameSettled(e, Resume(e).e);
    }
  }

  lemma StepSettled(e: Endpoint, ev: Event)
    requires Allowed(e, ev)
    ensures Settled(e, Step(e, ev), EndedBy(e, ev))
  {
    hide Settled, Receive, Resume, Do;
    match ev
    case Called(call) =>
      CallSettled(e, call);
      assert EndedBy(e, ev) == if call.ForceClose? && !e.conns[call.id].state.Closed? then {call.id} else {};
    case Got(p) => PacketSettled(e, p);
    case Resumed =>
      ResumeSettled(e);
      assert EndedBy(e, ev) == {};
  }

  /** At most one connection is ended by an event. */
  lemma OneEnded(e: Endpoint, ev: Event)
    ensures |EndedBy(e, ev)| <= 1
    ensures |EndedBy(e, ev)| == 1 <==> exists i: nat :: Ends(e, ev, i)
  {
    if i: nat :| Ends(e, ev, i) {
      assert EndedBy(e, ev) == {i};
    } else {
      assert EndedBy(e, ev) == {};
    }
  }

  /** A step of the code panics exactly if it is `NoMoreConnections` on a stopped endpoint or under a pending
      offer, or the end of handling NO_MORE_CONNECTIONS when the endpoint was stopped in between, or gives back
      a token when the wait group is zero. */
  ghost predicate Fatal(e: Endpoint, ev: Event) {
    || (ev == Called(NoMoreConnections) && (e.door.stopped || Offers(e)))
    || (ev.Resumed? && Is(e, Halting) && e.door.stopped)
    || (e.wg == 0 && exists i: nat :: Ends(e, ev, i))
  }

  lemma {:induction false} PanicIff(e: Endpoint, evs: seq<Event>)
    requires !Dead(e) && e.door.closed == e.door.stopped && AllowedRun(e, evs)
    ensures Dead(Run(e, evs)) <==>
      (evs != [] && AllowedRun(e, evs[..|evs| - 1]) && Fatal(Run(e, evs[..|evs| - 1]), evs[|evs| - 1]))
    ensures Dead(Run(e, evs)) || Run(e, evs).door.closed == Run(e, evs).door.stopped
    decreases |evs|
  {
    if evs != [] {
      var e' := Step(e, evs[0]);
      StepPanics(e, evs[0]);
      hide Step, Allowed, Fatal, Dead;
      if Dead(e') {
        PanicEnds(e', evs[1..]);
        assert evs == [evs[0]] && evs[..0] == [];
      } else {
        PanicIff(e', evs[1..]);
        assert |evs| == 1 ==> evs == [evs[0]] && evs[..0] == [];
        if |evs| > 1 { assert evs[..|evs| - 1][1..] == evs[1..][..|evs| - 2]; }
      }
    }
  }

  lemma StepPanics(e: Endpoint, ev: Event)
    requires !Dead(e) && e.door.closed == e.door.stopped && Allowed(e, ev)
    ensures Dead(Step(e, ev)) <==> Fatal(e, ev)
    ensures Dead(Step(e, ev)) || Step(e, ev).door.closed == Step(e, ev).door.stopped
  {
    StepTokens(e, ev);
    StepDoor(e, ev);
    hide Step, Ends, Allowed;
  }

  lemma StepTokens(e: Endpoint, ev: Event)
    requires e.wg >= 0 && Allowed(e, ev)
    ensures Step(e, ev).wg < 0 <==> e.wg == 0 && exists i: nat :: Ends(e, ev, i)
  {
    hide Step, Allowed, EndedBy, ReleasedIf, IsFresh, Ends;
    StepSettled(e, ev);
    OneEnded(e, ev);
    var e' := Step(e, ev);
    if EndedBy(e, ev) != {} { assert e'.conns.Keys - e.conns.Keys == {}; }
  }

  /** What a step does to the channel. */
  lemma StepDoor(e: Endpoint, ev: Event)
    requires !e.door.panicked && e.door.closed == e.door.stopped && Allowed(e, ev)
    ensures Step(e, ev).door.panicked <==>
      || (ev == Called(NoMoreConnections) && (e.door.stopped || Offers(e)))
      || (ev.Resumed? && Is(e, Halting) && e.door.stopped)
    ensures Step(e, ev).door.closed == Step(e, ev).door.stopped
  {
    hide OnConn, AgentConnection.HandleClose, HandleData, HandleError, ApplySuccess, Fresh, Reject;
  }

  /** Nothing runs after a panic. */
  lemma {:induction false} PanicEnds(e: Endpoint, evs: seq<Event>)
    requires Dead(e) && AllowedRun(e, evs)
    ensures evs == []
  {
  }

  /** `NoMoreConnections` leads to a panic, at once or when the handler goes on, exactly if the endpoint is
      stopped, an offer is pending, or the handler is about to stop the endpoint itself. */
  lemma StopPanicsIff(e: Endpoint)
    requires !Dead(e) && e.door.closed == e.door.stopped
    ensures var e' := Do(e, NoMoreConnections).e;
      (e'.door.panicked || (Is(e', Halting) && Resume(e').e.door.panicked)) <==>
        e.door.stopped || Offers(e) || Is(e, Halting)
  {
  }

  // Releasing a connection twice.

  /** `CloseImm` on a connection that `handleSuccess` is about to set to STARTED. */
  predicate Lapse(e: Endpoint, ev: Event, i: nat) {
    ev == Called(ForceClose(i)) && Racing(e, i) && Ends(e, ev, i)
  }

  /** Some event of the run ends connection `i`. */
  predicate EndsLater(e: Endpoint, evs: seq<Event>, i: nat)
    requires AllowedRun(e, evs)
    decreases |evs|
  {
    evs != [] && (Ends(e, evs[0], i) || EndsLater(Step(e, evs[0]), evs[1..], i))
  }

  /** Some event of the run is a lapse, and a later one ends the connection again. */
  predicate EndsAgain(e: Endpoint, evs: seq<Event>, i: nat)
    requires AllowedRun(e, evs)
    decreases |evs|
  {
    && evs != []
    && var e' := Step(e, evs[0]);
       (Lapse(e, evs[0], i) && EndsLater(e', evs[1..], i)) || EndsAgain(e', evs[1..], i)
  }

  function Releases(e: Endpoint, i: nat): nat { if i in e.conns then e.conns[i].tally.releases else 0 }

  /** The connection was released and is not over: CLOSED, about to be revived, or revived. */
  predicate Lapsed(e: Endpoint, i: nat) {
    i in e.conns && Releases(e, i) == 1 && (!e.conns[i].state.Closed? || Racing(e, i))
  }

  ghost predicate TokenOk(e: Endpoint, i: nat) {
    i in e.conns ==>
      var c := e.conns[i];
      && c.tally.releases <= 2
      && c.tally.callbacks == (if c.tally.hasCallback then c.tally.releases else 0)
      && (c.state.WaitInit? ==> c.tally.releases == 0)
      && (c.tally.releases == 2 ==> c.state.Closed? && !Racing(e, i))
      && (Racing(e, i) && c.tally.releases == 1 ==> c.state.Closed?)
  }

  /** How the state of a connection moves: CLOSED is left only by being revived, and entered only by ending or,
      from WAITINIT, by a rejection; WAITINIT is never entered. */
  predicate Moves(c: Conn, c': Conn, revived: bool, ended: bool) {
    && (c'.state.WaitInit? ==> c.state.WaitInit?)
    && (revived ==> c'.state.Started?)
    && (ended ==> c'.state.Closed?)
    && (c.state.Closed? && !revived ==> c'.state.Closed?)
    && (c'.state.Closed? && !ended ==> c.state.Closed? || c.state.WaitInit?)
  }

  lemma CallMoves(c: Conn, call: Call)
    requires OnConnection(call) && Ready(c, call)
    ensures Moves(c, OnConn(c, call).conn, false, call.ForceClose?)
  {
    match call
    case StartClose(_) =>
    case SendClose(_) =>
    case WriteBytes(_, _) =>
    case AcceptConn(_) =>
    case RejectConn(_) =>
    case ForceClose(_) =>
  }

  lemma PacketMoves(c: Conn, id: nat, payload: Bytes, seen: State)
    ensures Moves(c, HandleData(c, payload), false, false)
    ensures Moves(c, HandleClose(c, id).conn, false, true)
    ensures Moves(c, HandleError(c), false, true)
    ensures Moves(c, ApplySuccess(c, seen), seen.WaitInit?, seen.WaitClose?)
    ensures Moves(c, Reject(c, id).conn, false, false)
  {
    match seen
    case WaitInit =>
    case WaitClose =>
    case _ =>
  }

  /** What an event does to connection `i` and to the handler's business with it. */
  ghost predicate Turns(e: Endpoint, ev: Event, e': Endpoint, i: nat) {
    && i in e.conns && i in e'.conns
    && var revived := ev == Got(Success(i)) && Racing(e, i);
       && Moves(e.conns[i], e'.conns[i], revived, Ends(e, ev, i))
       && (Racing(e, i) && Ends(e, ev, i) ==> Lapse(e, ev, i))
       && (Racing(e', i) ==> !revived && (Racing(e, i) || e'.conns[i].state.WaitInit?))
       && (Racing(e, i) && !revived ==> Racing(e', i))
  }

  lemma CallTurns(e: Endpoint, call: Call, i: nat)
    requires Possible(e, call) && i in e.conns
    ensures Turns(e, Called(call), Do(e, call).e, i)
  {
    hide OnConn;
    if OnConnection(call) && call.id == i {
      CallMoves(e.conns[i], call);
    } else {
      assert Do(e, call).e.conns[i] == e.conns[i];
    }
  }

  lemma PacketTurns(e: Endpoint, p: Packet, i: nat)
    requires InOrder(e, p) && i in e.conns
    ensures Turns(e, Got(p), Receive(e, p).e, i)
  {
    hide HandleData, HandleError, ApplySuccess, AgentConnection.HandleClose, Fresh;
    if OfConnection(p) && p.id == i {
      OwnTurns(e, p, i);
    } else {
      assert Receive(e, p).e.conns[i] == e.conns[i];
      hide Receive, HandleSuccess;
      assert !Ends(e, Got(p), i);
      BusyTurns(e, p, i);
    }
  }

  /** What the handler is at after a packet of another connection. */
  lemma BusyTurns(e: Endpoint, p: Packet, i: nat)
    requires InOrder(e, p) && !(OfConnection(p) && p.id == i)
    ensures Racing(Receive(e, p).e, i) == Racing(e, i)
  {
    hide HandleData, HandleError, ApplySuccess, AgentConnection.HandleClose, Fresh;
  }

  lemma OwnTurns(e: Endpoint, p: Packet, i: nat)
    requires InOrder(e, p) && i in e.conns && OfConnection(p) && p.id == i
    ensures Turns(e, Got(p), Receive(e, p).e, i)
  {
    hide HandleData, HandleError, ApplySuccess, AgentConnection.HandleClose;
    var c := e.conns[i];
    PacketMoves(c, i, if p.Data? then p.payload else [], if Reads(e) then e.busy.value.seen else Closed);
  }

  lemma ResumeTurns(e: Endpoint, i: nat)
    requires CanResume(e) && i in e.conns
    ensures Turns(e, Resumed, Resume(e).e, i)
  {
    hide Reject;
    var c := e.conns[i];
    PacketMoves(c, i, [], Closed);
  }

  lemma StepTurns(e: Endpoint, ev: Event, i: nat)
    requires Allowed(e, ev) && i in e.conns
    ensures Turns(e, ev, Step(e, ev), i)
  {
    hide Turns, Do, Receive, Resume;
    match ev
    case Called(call) => CallTurns(e, call, i);
    case Got(p) => PacketTurns(e, p, i);
    case Resumed => ResumeTurns(e, i);
  }

  lemma SettledOne(e: Endpoint, ev: Event, e': Endpoint, i: nat)
    requires Settled(e, e', EndedBy(e, ev)) && i in e.conns
    ensures i in e'.conns && ReleasedIf(e.conns[i], e'.conns[i], Ends(e, ev, i))
  {
    hide Ends;
  }

  /** A connection that is not there yet. */
  lemma NewToken(e: Endpoint, ev: Event, i: nat)
    requires Allowed(e, ev) && i !in e.conns
    ensures var e' := Step(e, ev); TokenOk(e', i) && !Lapsed(e', i) && Releases(e', i) == 0
  {
    StepSettled(e, ev);
    hide Step, Allowed, ReleasedIf;
  }

  lemma TokenTurn(e: Endpoint, ev: Event, e': Endpoint, i: nat)
    requires TokenOk(e, i) && Turns(e, ev, e', i) && ReleasedIf(e.conns[i], e'.conns[i], Ends(e, ev, i))
    ensures TokenOk(e', i)
    ensures Lapsed(e', i) <==> (Lapsed(e, i) && !Ends(e, ev, i)) || Lapse(e, ev, i)
    ensures Releases(e', i) == 2 <==> Releases(e, i) == 2 || (Lapsed(e, i) && Ends(e, ev, i))
  {
  }

  lemma TokenStep(e: Endpoint, ev: Event, i: nat)
    requires TokenOk(e, i) && Allowed(e, ev)
    ensures var e' := Step(e, ev);
      && TokenOk(e', i)
      && (Lapsed(e', i) <==> (Lapsed(e, i) && !Ends(e, ev, i)) || Lapse(e, ev, i))
      && (Releases(e', i) == 2 <==> Releases(e, i) == 2 || (Lapsed(e, i) && Ends(e, ev, i)))
  {
    hide Step, Allowed, Turns, Settled, ReleasedIf;
    StepSettled(e, ev);
    if i in e.conns {
      StepTurns(e, ev, i);
      SettledOne(e, ev, Step(e, ev), i);
      TokenTurn(e, ev, Step(e, ev), i);
    } else {
      NewToken(e, ev, i);
    }
  }

  lemma {:induction false} TokenRun(e: Endpoint, evs: seq<Event>, i: nat)
    requires TokenOk(e, i) && AllowedRun(e, evs)
    ensures TokenOk(Run(e, evs), i)
    ensures Releases(Run(e, evs), i) == 2 <==>
      Releases(e, i) == 2 || (Lapsed(e, i) && EndsLater(e, evs, i)) || EndsAgain(e, evs, i)
    decreases |evs|
  {
    if evs != [] {
      hide Step, Allowed, TokenOk, Lapsed, Lapse, Ends, Releases;
      TokenStep(e, evs[0], i);
      TokenRun(Step(e, evs[0]), evs[1..], i);
    }
  }

  /** In every run of the code a connection is released twice, and its close callback run twice, exactly if
      `CloseImm` was called on it between the two steps of `handleSuccess`, and it was ended once more later. It
      is never released a third time. */
  lemma {:induction false} ReleasedTwiceIff(evs: seq<Event>, i: nat)
    requires AllowedRun(INITIAL, evs)
    ensures Releases(Run(INITIAL, evs), i) <= 2
    ensures Releases(Run(INITIAL, evs), i) == 2 <==> EndsAgain(INITIAL, evs, i)
    ensures i in Run(INITIAL, evs).conns ==>
      var t := Run(INITIAL, evs).conns[i].tally; t.callbacks == if t.hasCallback then t.releases else 0
  {
    TokenRun(INITIAL, evs, i);
  }

  // The wait group.

  /** How often each connection was released. */
  ghost function Tallies(conns: map<nat, Conn>): map<nat, nat> { map i | i in conns :: conns[i].tally.releases }

  /** The connections released exactly `n` times. */
  ghost function Times(tallies: map<nat, nat>, n: nat): set<nat> { set i | i in tallies && tallies[i] == n }

  ghost predicate Tokens(e: Endpoint) {
    && (forall i: nat :: TokenOk(e, i))
    && e.wg == |Times(Tallies(e.conns), 0)| - |Times(Tallies(e.conns), 2)|
  }

  lemma NoneEnded(m: map<nat, nat>, m': map<nat, nat>)
    requires m.Keys <= m'.Keys && (forall i | i in m :: m'[i] == m[i])
    requires forall i | i in m' && i !in m :: m'[i] == 0
    ensures |Times(m', 0)| == |Times(m, 0)| + |m'.Keys - m.Keys| && Times(m', 2) == Times(m, 2)
  {
    SameTimes(m, m');
    hide Times;
    assert Times(m, 0) * (m'.Keys - m.Keys) == {};
  }

  lemma SameTimes(m: map<nat, nat>, m': map<nat, nat>)
    requires m.Keys <= m'.Keys && (forall i | i in m :: m'[i] == m[i])
    requires forall i | i in m' && i !in m :: m'[i] == 0
    ensures Times(m', 0) == Times(m, 0) + (m'.Keys - m.Keys) && Times(m, 0) <= m.Keys && Times(m', 2) == Times(m, 2)
  {
  }

  lemma OneMoreEnded(m: map<nat, nat>, m': map<nat, nat>, i: nat)
    requires i in m && m[i] <= 1 && m' == m[i := m[i] + 1]
    ensures |Times(m', 0)| - |Times(m', 2)| == |Times(m, 0)| - |Times(m, 2)| - 1
  {
    if m[i] == 0 {
      assert Times(m, 0) == Times(m', 0) + {i} && Times(m', 2) == Times(m, 2);
    } else {
      assert Times(m', 2) == Times(m, 2) + {i} && Times(m', 0) == Times(m, 0);
    }
  }

  /** The tallies after a step. */
  lemma SettledTallies(e: Endpoint, e': Endpoint, ended: set<nat>)
    requires Settled(e, e', ended)
    ensures var m, m' := Tallies(e.conns), Tallies(e'.conns);
      && m.Keys == e.conns.Keys && m'.Keys == e'.conns.Keys
      && (forall i | i in m :: i in m' && m'[i] == m[i] + Bit(i in ended))
      && (forall i | i in m' && i !in m :: m'[i] == 0)
  {
    hide Fresh;
    forall i | i in e'.conns && i !in e.conns ensures e'.conns[i].tally.releases == 0 { FreshTally(e'.conns[i]); }
  }

  lemma FreshTally(c: Conn)
    requires IsFresh(c)
    ensures c.tally.releases == 0
  {
  }

  lemma TokensEnded(e: Endpoint, e': Endpoint, ended: set<nat>)
    requires Tokens(e) && Settled(e, e', ended) && |ended| <= 1 && forall i: nat :: TokenOk(e', i)
    ensures Tokens(e')
  {
    hide ReleasedIf, IsFresh, Times, Tallies;
    SettledTallies(e, e', ended);
    var m, m' := Tallies(e.conns), Tallies(e'.conns);
    forall i | i in ended ensures m'[i] <= 2 {
      assert TokenOk(e', i);
      TallyAt(e'.conns, i);
    }
    TalliesEnded(m, m', ended);
  }

  lemma TallyAt(conns: map<nat, Conn>, i: nat)
    requires i in conns
    ensures i in Tallies(conns) && Tallies(conns)[i] == conns[i].tally.releases
  {
  }

  lemma TalliesEnded(m: map<nat, nat>, m': map<nat, nat>, ended: set<nat>)
    requires |ended| <= 1 && (ended == {} || m'.Keys == m.Keys) && ended <= m.Keys <= m'.Keys
    requires forall i | i in m :: m'[i] == m[i] + Bit(i in ended)
    requires (forall i | i in m' && i !in m :: m'[i] == 0) && forall i | i in ended :: m'[i] <= 2
    ensures |Times(m', 0)| - |Times(m', 2)| == |Times(m, 0)| - |Times(m, 2)| + |m'.Keys - m.Keys| - |ended|
  {
    hide Times;
    if ended == {} {
      NoneEnded(m, m');
    } else {
      var i :| i in ended;
      Singleton(ended, i);
      assert m' == m[i := m[i] + 1];
      assert m'.Keys - m.Keys == {};
      OneMoreEnded(m, m', i);
    }
  }

  lemma Singleton(s: set<nat>, i: nat)
    requires |s| <= 1 && i in s
    ensures s == {i}
  {
    assert |s - {i}| == 0;
  }

  lemma {:induction false} TokensRun(e: Endpoint, evs: seq<Event>)
    requires Tokens(e) && AllowedRun(e, evs)
    ensures Tokens(Run(e, evs))
    decreases |evs|
  {
    if evs != [] {
      var e' := Step(e, evs[0]);
      forall i: nat ensures TokenOk(e', i) { TokenStep(e, evs[0], i); }
      StepSettled(e, evs[0]);
      OneEnded(e, evs[0]);
      hide Step, Allowed, TokenOk, Settled, EndedBy;
      TokensEnded(e, e', EndedBy(e, evs[0]));
      TokensRun(e', evs[1..]);
    }
  }

  /** In every run of the code the wait group is the number of connections never released less the number
      released twice. It goes below zero, which is a panic, only if some connection was released twice. */
  lemma {:induction false} WaitGroupIs(evs: seq<Event>)
    requires AllowedRun(INITIAL, evs)
    ensures var e := Run(INITIAL, evs); e.wg == |Times(Tallies(e.conns), 0)| - |Times(Tallies(e.conns), 2)|
    ensures Run(INITIAL, evs).wg < 0 ==> exists i: nat :: EndsAgain(INITIAL, evs, i)
  {
    TokensRun(INITIAL, evs);
    var d := Times(Tallies(Run(INITIAL, evs).conns), 2);
    if Run(INITIAL, evs).wg < 0 {
      assert d != {};
      var i :| i in d;
      ReleasedTwiceIff(evs, i);
    }
  }
}
