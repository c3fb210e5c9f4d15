/** Whether one end of a connection closes or rejects it of itself, once nothing new is begun. */
module AgentParting {
  import opened Wrappers
  import opened AgentConnection
  import opened AgentWords
  import opened AgentPair
  import opened AgentEndpoint
  import opened AgentSystem
  import opened AgentTheorems
  import opened AgentTwin

  /** The peer stops before it hears of connection `i`. */
  predicate StopsBefore(q: seq<Packet>, i: nat) {
    q != [] && !(q[0].New? && q[0].id == i) && (q[0].NoMore? || StopsBefore(q[1..], i))
  }

  /** The end has begun to close or has rejected, or is about to reject. */
  predicate Leaves(e: Endpoint, i: nat)
    requires i in e.conns
  {
    var y := e.conns[i];
    y.shut.began || y.answer.rejected || (Is(e, Arriving(i)) && e.door.stopped && y.state.WaitInit?)
  }

  /** An endpoint that does not know connection `i` is or will be stopped when it hears of it. */
  predicate Refuses(e: Endpoint, inc: seq<Packet>, i: nat) {
    e.door.stopped || Is(e, Halting) || StopsBefore(inc, i)
  }

  /** The peer of `x` closes or rejects connection `i` of itself; if it does not know it yet, because it will be
      stopped when it does. */
  predicate Parts(s: System, x: Side, i: nat) {
    var e := s.End(Other(x));
    if i in e.conns then Leaves(e, i) else Refuses(e, s.Out(x), i)
  }

  lemma {:induction false} StopsAppend(q: seq<Packet>, p: Packet, i: nat)
    requires !p.NoMore?
    ensures StopsBefore(q + [p], i) == StopsBefore(q, i)
  {
    if q == [] {
      assert q + [p] == [p];
    } else {
      assert (q + [p])[1..] == q[1..] + [p];
      StopsAppend(q[1..], p, i);
    }
  }

  /** Finishing never tells the peer to stop. */
  lemma FinishingSends(s: System, act: Action)
    requires Enabled(s, act) && Finishing(act)
    ensures Next(s, act).Out(act.x) == s.Out(act.x) ||
      exists p: Packet :: !p.NoMore? && Next(s, act).Out(act.x) == s.Out(act.x) + [p]
  {
    var x := act.x;
    var r := match act
      case User(_, call) => Do(s.End(x), call)
      case Deliver(_) => Receive(s.End(x), s.Inc(x)[0])
      case Proceed(_) => Resume(s.End(x));
    assert r.sent == [] || exists p: Packet :: !p.NoMore? && r.sent == [p] by { OneSent(s.End(x), act, s.Inc(x)); }
    hide Do, Receive, Resume;
    assert s.Out(x) + [] == s.Out(x);
  }

  lemma OneSent(e: Endpoint, act: Action, inc: seq<Packet>)
    requires Finishing(act)
    ensures act.User? && Possible(e, act.call) ==> JustOne(Do(e, act.call).sent)
    ensures act.Deliver? && inc != [] && CanReceive(e, inc[0]) ==> JustOne(Receive(e, inc[0]).sent)
    ensures CanResume(e) ==> JustOne(Resume(e).sent)
  {
    hide HandleData, HandleError, ApplySuccess, Fresh;
  }

  predicate JustOne(ps: seq<Packet>) { ps == [] || (|ps| == 1 && !ps[0].NoMore?) }

  /** Neither begins to close nor rejects. */
  predicate Abides(c: Conn, c': Conn) {
    c'.shut.began == c.shut.began && c'.answer.rejected == c.answer.rejected
  }

  lemma PacketAbides(c: Conn, id: nat, payload: Bytes, seen: State)
    ensures Abides(c, HandleData(c, payload)) && Abides(c, HandleClose(c, id).conn)
    ensures Abides(c, HandleError(c)) && Abides(c, ApplySuccess(c, seen)) && Abides(c, FinishClose(c, id).conn)
  {
    match seen
    case WaitInit =>
    case WaitClose =>
    case _ =>
  }

  lemma LeavesCall(e: Endpoint, call: Call, i: nat)
    requires i in e.conns && Possible(e, call) && Finishes(call)
    ensures i in Do(e, call).e.conns && Leaves(Do(e, call).e, i) == Leaves(e, i)
  {
  }

  lemma LeavesReceive(e: Endpoint, p: Packet, i: nat)
    requires i in e.conns && InOrder(e, p)
    ensures i in Receive(e, p).e.conns && Leaves(Receive(e, p).e, i) == Leaves(e, i)
  {
    hide HandleData, AgentConnection.HandleClose, HandleError, ApplySuccess, Fresh;
    if OfConnection(p) && p.id == i {
      PacketAbides(e.conns[i], i, if p.Data? then p.payload else [], if Reads(e) then e.busy.value.seen else Closed);
    } else {
      assert Receive(e, p).e.conns[i] == e.conns[i];
    }
    assert !Is(e, Arriving(i)) && !Is(Receive(e, p).e, Arriving(i));
  }

  lemma LeavesResume(e: Endpoint, i: nat)
    requires i in e.conns && CanResume(e) && (Is(e, Arriving(i)) ==> !e.conns[i].initiator)
    ensures i in Resume(e).e.conns && Leaves(Resume(e).e, i) == Leaves(e, i)
  {
  }

  /** Nothing is left to be done, but to take what is offered. */
  ghost predicate Over(s: System) { Quiet(s) && !CanResume(s.a) && !CanResume(s.b) }

  // An endpoint that does not know the connection.

  lemma RefusesReceive(e: Endpoint, inc: seq<Packet>, i: nat)
    requires i !in e.conns && inc != [] && InOrder(e, inc[0])
    requires inc[0].New? && inc[0].id == i ==> inc[0].details.Some? && i > e.ids.counter
    ensures var r := Receive(e, inc[0]);
      if i in r.e.conns then Leaves(r.e, i) == Refuses(e, inc, i)
      else Refuses(r.e, if r.done then inc[1..] else inc, i) == Refuses(e, inc, i)
  {
    hide HandleData, AgentConnection.HandleClose, HandleError, ApplySuccess;
  }

  lemma RefusesCall(e: Endpoint, inc: seq<Packet>, call: Call, i: nat)
    requires i !in e.conns && Possible(e, call) && Finishes(call)
    ensures i !in Do(e, call).e.conns && Refuses(Do(e, call).e, inc, i) == Refuses(e, inc, i)
  {
    hide FinishClose;
  }

  lemma RefusesResume(e: Endpoint, inc: seq<Packet>, i: nat)
    requires i !in e.conns && CanResume(e)
    ensures i !in Resume(e).e.conns && Refuses(Resume(e).e, inc, i) == Refuses(e, inc, i)
  {
    hide Reject;
  }

  // One step of a system whose peer is in order.

  lemma PartsNear(s: System, act: Action, i: nat)
    requires Enabled(s, act) && Finishing(act)
    ensures Parts(Next(s, act), act.x, i) == Parts(s, act.x, i)
  {
    var x := act.x;
    FinishingSends(s, act);
    assert Next(s, act).End(Other(x)) == s.End(Other(x)) by { hide Do, Receive, Resume; }
    hide Next, Enabled;
    if Next(s, act).Out(x) != s.Out(x) {
      var p: Packet :| !p.NoMore? && Next(s, act).Out(x) == s.Out(x) + [p];
      StopsAppend(s.Out(x), p, i);
    }
  }

  /** What is known of the peer, here `o`. */
  lemma PeerFacts(h: System, o: Side, i: nat)
    requires Inv(h)
    ensures var e, inc := h.End(o), h.Inc(o);
      && (i in e.conns && Is(e, Arriving(i)) ==> !e.conns[i].initiator)
      && (inc != [] && !Waits(e) ==> InOrder(e, inc[0]))
      && (inc != [] && inc[0].New? && inc[0].id == i ==> inc[0].details.Some? && i > e.ids.counter)
  {
    var e, inc := h.End(o), h.Inc(o);
    assert BusyOk(e) && BusyInv(e, inc);
    if inc != [] && inc[0].New? && inc[0].id == i { HeadKnown(h, o, i); NewDetails(h, i); }
  }

  lemma {:induction false} NewDetails(h: System, i: nat)
    requires Inv(h) && h.ab != [] && h.ab[0].New? && h.ab[0].id == i
    requires i == h.b.ids.counter + 1 && i !in h.a.ids.unannounced && Proj(h.ab, i) == [h.ab[0]] + Proj(h.ab[1..], i)
    ensures h.ab[0].details.Some?
  {
    assert LinkInv(h, i);
    assert i !in h.b.conns;
  }

  lemma PartsFar(s: System, h: System, act: Action, i: nat)
    requires Enabled(s, act) && Finishing(act) && Inv(h)
    requires h.End(act.x) == s.End(act.x) && h.Inc(act.x) == s.Inc(act.x)
    ensures Parts(Next(s, act), Other(act.x), i) == Parts(s, Other(act.x), i)
  {
    hide Inv, Next, Enabled, Parts;
    match act
    case User(_, call) => PartsCall(s, act.x, call, i);
    case Deliver(_) => PartsReceive(s, h, act.x, i);
    case Proceed(_) => PartsResume(s, h, act.x, i);
  }

  lemma PartsCall(s: System, o: Side, call: Call, i: nat)
    requires Enabled(s, User(o, call)) && Finishes(call)
    ensures Parts(Next(s, User(o, call)), Other(o), i) == Parts(s, Other(o), i)
  {
    hide Do, Leaves, Refuses, Possible;
    var e := s.End(o);
    if i in e.conns { LeavesCall(e, call, i); } else { RefusesCall(e, s.Inc(o), call, i); }
  }

  lemma PartsReceive(s: System, h: System, o: Side, i: nat)
    requires Enabled(s, Deliver(o)) && Inv(h) && h.End(o) == s.End(o) && h.Inc(o) == s.Inc(o)
    ensures Parts(Next(s, Deliver(o)), Other(o), i) == Parts(s, Other(o), i)
  {
    hide Inv, Receive, Leaves, Refuses;
    PeerFacts(h, o, i);
    var e, inc := s.End(o), s.Inc(o);
    if i in e.conns { LeavesReceive(e, inc[0], i); } else { RefusesReceive(e, inc, i); }
  }

  lemma PartsResume(s: System, h: System, o: Side, i: nat)
    requires Enabled(s, Proceed(o)) && Inv(h) && h.End(o) == s.End(o)
    ensures Parts(Next(s, Proceed(o)), Other(o), i) == Parts(s, Other(o), i)
  {
    hide Inv, Resume, Leaves, Refuses, CanResume;
    PeerFacts(h, o, i);
    var e := s.End(o);
    if i in e.conns { LeavesResume(e, i); } else { RefusesResume(e, s.Inc(o), i); }
  }

  lemma PartsStep(s: System, h: System, act: Action, x: Side, i: nat)
    requires Enabled(s, act) && Finishing(act) && Inv(h)
    requires h.End(Other(x)) == s.End(Other(x)) && h.ab == s.ab && h.ba == s.ba
    ensures Parts(Next(s, act), x, i) == Parts(s, x, i)
  {
    hide Inv, Next, Enabled, Parts;
    if act.x == x { PartsNear(s, act, i); } else { PartsFar(s, h, act, i); }
  }
}
