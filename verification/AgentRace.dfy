/** What becomes of a connection that is closed while `handleSuccess`, which has read WAITINIT outside the
    lock, is about to set it to STARTED. */
module AgentRace {
  import opened Wrappers
  import opened AgentConnection
  import opened AgentWords
  import opened AgentPair
  import opened AgentEndpoint
  import opened AgentSystem
  import opened AgentTheorems
  import opened AgentTwin

  /** The end that was wrongly revived, as it would be if the handler had read WAITCLOSE. */
  function Healthy(x: Conn): Conn {
    x.(state := Closed, io := x.io.(closed := true, got := []), answer := x.answer.(wasOpen := false),
       tally := Tally(x.tally.hasCallback, Bit(x.tally.hasCallback), 1))
  }

  function HealEnd(e: Endpoint, i: nat): Endpoint
    requires i in e.conns
  {
    e.(conns := e.conns[i := Healthy(e.conns[i])], wg := e.wg + e.conns[i].tally.releases - 1,
       busy := if ReadsOf(e, i) then Some(Reading(i, Closed)) else e.busy)
  }

  /** The system in which the race has not happened. */
  function Heal(s: System, i: nat): System
    requires i in s.a.conns
  {
    if Racing(s.a, i) then s.(a := s.a.(busy := Some(Reading(i, WaitClose)))) else s.(a := HealEnd(s.a, i))
  }

  /** The opener's end since the race: STARTED until it handles a CLOSE or an ERROR. */
  ghost predicate Revived(x: Conn, y: Conn) {
    && (x.state.Started? || x.state.Closed?) && x.tally.releases == Bit(x.state.Closed?)
    && (x.shut.heard > 0 ==> x.state.Closed?)
    && (!y.shut.began ==> x.state.Started?)
  }

  ghost predicate Raced(s: System, i: nat) {
    && i in s.a.conns && i in s.b.conns && Inv(Heal(s, i))
    && var x, y := s.a.conns[i], s.b.conns[i];
       && x.shut.began && y.answer.accepted
       && (!y.shut.began ==> NoError(Proj(s.ba, i)))
       && (if Racing(s.a, i) then x.state.WaitClose? && !x.answer.wasOpen else Revived(x, y))
       && (ReadsOf(s.a, i) ==>
             var seen := s.a.busy.value.seen; seen.WaitInit? || seen.Started? || seen.Closed?)
  }

  /** What holds of the connection while the race and its aftermath last. */
  lemma {:induction false} RacedLink(s: System, i: nat)
    requires Raced(s, i)
    ensures i in s.a.conns && i in s.b.conns && s.a.conns[i].shut.began && s.b.conns[i].answer.accepted
    ensures !s.b.conns[i].shut.began ==> NoError(Proj(s.ba, i))
    ensures !Racing(s.a, i) ==> Revived(s.a.conns[i], s.b.conns[i])
    ensures var h := Heal(s, i);
      && s.b.ids.unannounced == map[] && h.b == s.b && h.ab == s.ab && h.ba == s.ba && i in h.a.conns
        && i !in s.a.ids.unannounced
      && h.a.conns[i].initiator && h.a.conns[i].initiator == s.a.conns[i].initiator
      && Both(h.a.conns[i], s.b.conns[i], Proj(s.ab, i), Proj(s.ba, i))
      && !Is(s.a, Arriving(i)) && (Racing(s.a, i) ==> s.ba != [] && s.ba[0] == Success(i))
      && (Reads(s.a) ==> s.ba != [] && s.ba[0] == Success(s.a.busy.value.id))
  {
    assert LinkInv(Heal(s, i), i);
    assert BusyOk(Heal(s, i).a);
    hide Both, Handover, Books;
  }

  /** What the wait group lacks in the healed system. */
  function Gap(s: System, i: nat): int
    requires i in s.a.conns
  {
    if Racing(s.a, i) then 0 else s.a.conns[i].tally.releases - 1
  }

  lemma HealTwins(s: System, i: nat)
    requires Raced(s, i)
    ensures TwinSystems(s, Heal(s, i), A, i, Gap(s, i)) && Gap(s, i) <= 0
  {
    hide Inv;
  }

  /** The step does to the healed system what it does to the system. */
  ghost predicate Heals(s: System, act: Action, i: nat)
    requires i in s.a.conns && Enabled(s, act)
  {
    Enabled(Heal(s, i), act) && i in Next(s, act).a.conns && Heal(Next(s, act), i) == Next(Heal(s, i), act)
  }

  lemma TwinHeals(s: System, act: Action, i: nat)
    requires i in s.a.conns && Enabled(s, act) && StayTwins(s, Heal(s, i), act, A, i, Gap(s, i))
    requires Gap(s, i) <= 0 && Next(Heal(s, i), act).a.wg >= 0
    ensures Heals(s, act, i) && StillReads(s.a, Next(s, act).a, i)
  {
    hide Next, Enabled, Healthy;
  }

  /** Whether and what the handler has read of connection `i` is as before. */
  predicate StillReads(e: Endpoint, e': Endpoint, i: nat) {
    ReadsOf(e', i) == ReadsOf(e, i) && (ReadsOf(e, i) ==> e'.busy == e.busy)
  }

  lemma SendHealthy(x: Conn, i: nat)
    requires x.shut.owed
    ensures FinishClose(x, i).sent == FinishClose(Healthy(x), i).sent == [Packet.Close(i)]
    ensures FinishClose(Healthy(x), i).conn == Healthy(FinishClose(x, i).conn)
    ensures FinishClose(x, i).conn.tally == x.tally
  {
  }

  /** The CLOSE of the connection itself. */
  lemma SendHeals(s: System, i: nat)
    requires Raced(s, i) && Enabled(s, User(A, SendClose(i)))
    ensures Heals(s, User(A, SendClose(i)), i) && StillReads(s.a, Next(s, User(A, SendClose(i))).a, i)
  {
    hide Inv, Do, Lift;
    HealTwins(s, i);
    InvAlive(Heal(s, i));
    if Racing(s.a, i) { SendReading(s.a, i); } else { SendEnds(s.a, i); }
  }

  /** Sending does not depend on what the handler is at. */
  lemma SendReading(e: Endpoint, i: nat)
    requires Possible(e, SendClose(i))
    ensures var r, q := Do(e, SendClose(i)), Do(e.(busy := Some(Reading(i, WaitClose))), SendClose(i));
      i in r.e.conns && r.e.busy == e.busy && q == Out(r.e.(busy := Some(Reading(i, WaitClose))), r.sent, r.done)
  {
    hide FinishClose;
  }

  lemma SendEnds(e: Endpoint, i: nat)
    requires Possible(e, SendClose(i)) && !Dead(HealEnd(e, i))
    ensures var r := Do(e, SendClose(i));
      i in r.e.conns && r.e.busy == e.busy && Do(HealEnd(e, i), SendClose(i)) == Out(HealEnd(r.e, i), r.sent, r.done)
  {
    var x := e.conns[i];
    SendHealthy(x, i);
    var c := FinishClose(x, i).conn;
    hide FinishClose, Healthy;
    assert e.conns[i := Healthy(x)][i := Healthy(c)] == e.conns[i := c][i := Healthy(c)];
  }

  lemma Commutes(s: System, act: Action, i: nat)
    requires Raced(s, i) && Enabled(s, act) && Finishing(act) && !(act.Deliver? && Own(s, act, A, i))
    ensures Heals(s, act, i) && StillReads(s.a, Next(s, act).a, i)
  {
    RacedLink(s, i);
    if act == User(A, SendClose(i)) {
      SendHeals(s, i);
    } else {
      HealTwins(s, i);
      hide Next, Enabled, Inv, Heal;
      TwinStep(s, Heal(s, i), act, A, i, Gap(s, i));
      InvAlive(Next(Heal(s, i), act));
      TwinHeals(s, act, i);
    }
  }

  /** The acceptor's answer to a packet: it begins nothing, and refuses nothing unless it has begun to close. */
  lemma PeerAnswers(x: Conn, y: Conn, ab: seq<Packet>, ba: seq<Packet>)
    requires Both(x, y, ab, ba) && x.initiator && y.answer.accepted && ab != []
      && (ab[0].Data? || ab[0].Close? || ab[0].Error?)
    ensures var f := WholeEffect(y, ab[0]);
      f.conn.shut.began == y.shut.began && f.conn.answer.accepted && (!y.shut.began ==> NoError(f.sent))
  {
    if ab[0].Close? { Tail(ab); }
  }

  /** What the acceptor's end keeps: it does not begin to close, and sends no ERROR unless it had begun. */
  ghost predicate PeerKept(s: System, s': System, i: nat)
    requires i in s.b.conns
  {
    && i in s'.b.conns && s'.b.conns[i].shut.began == s.b.conns[i].shut.began && s'.b.conns[i].answer.accepted
    && (!s.b.conns[i].shut.began && NoError(Proj(s.ba, i)) ==> NoError(Proj(s'.ba, i)))
  }

  lemma PeerPacket(s: System, i: nat)
    requires Raced(s, i) && Enabled(s, Deliver(B)) && Names(s.ab[0], i)
    requires s.ab[0].Data? || s.ab[0].Close? || s.ab[0].Error?
    ensures PeerKept(s, Next(s, Deliver(B)), i)
  {
    hide Raced;
    RacedLink(s, i);
    var y, p := s.b.conns[i], s.ab[0];
    var w := Proj(s.ab, i);
    assert w[0] == p;
    PeerAnswers(Heal(s, i).a.conns[i], y, w, Proj(s.ba, i));
    PeerLift(s, i, WholeEffect(y, p));
  }

  lemma PeerLift(s: System, i: nat, f: Effect)
    requires i in s.b.conns && Enabled(s, Deliver(B)) && Names(s.ab[0], i)
    requires s.ab[0].Data? || s.ab[0].Close? || s.ab[0].Error?
    requires f == WholeEffect(s.b.conns[i], s.ab[0])
    requires f.conn.shut.began == s.b.conns[i].shut.began && f.conn.answer.accepted
      && (!s.b.conns[i].shut.began ==> NoError(f.sent))
    ensures PeerKept(s, Next(s, Deliver(B)), i)
  {
    assert Receive(s.b, s.ab[0]) == Lift(s.b, i, f) && |f.sent| <= 1;
    hide WholeEffect, Receive, Proj;
    AppendAll(s.ba, Lift(s.b, i, f).sent, i);
  }

  lemma SuccessBegins(y: Conn, seen: State)
    ensures ApplySuccess(y, seen).shut.began == y.shut.began
      && ApplySuccess(y, seen).answer.accepted == y.answer.accepted
  {
    if seen.WaitInit? {
    } else if seen.WaitClose? {
      assert ApplySuccess(y, seen) == CloseImm(Took(y));
    }
  }

  lemma PeerSuccess(s: System, i: nat)
    requires i in s.b.conns && s.b.conns[i].answer.accepted && Enabled(s, Deliver(B)) && s.ab[0] == Success(i)
    ensures PeerKept(s, Next(s, Deliver(B)), i)
  {
    hide ApplySuccess;
    assert s.ba + [] == s.ba;
    if Reads(s.b) { SuccessBegins(s.b.conns[i], s.b.busy.value.seen); }
  }

  /** A call that finishes at the acceptor, or a rejection that comes too late. */
  lemma PeerCall(s: System, act: Action, i: nat)
    requires i in s.b.conns && s.b.conns[i].answer.accepted && Local(s.b.conns[i]) && !s.b.conns[i].initiator
    requires act == User(B, SendClose(i)) || (act == Proceed(B) && Is(s.b, Arriving(i)))
    requires Enabled(s, act)
    ensures PeerKept(s, Next(s, act), i)
  {
    assert s.ba + [] == s.ba;
  }

  /** A step at the acceptor. */
  lemma PeerStep(s: System, act: Action, i: nat)
    requires Raced(s, i) && Enabled(s, act) && Finishing(act) && act.x == B
    ensures PeerKept(s, Next(s, act), i)
  {
    hide Raced;
    RacedLink(s, i);
    if Elsewhere(s, act, i) {
      Isolation(s, act, i);
    } else if act.Deliver? {
      assert Proj(s.ab, i)[0] == s.ab[0];
      if s.ab[0].Success? { PeerSuccess(s, i); } else { PeerPacket(s, i); }
    } else {
      assert Local(s.b.conns[i]) && s.b.ids.unannounced == map[];
      PeerCall(s, act, i);
    }
  }

  // A step that does not handle a packet of the connection at the opener.

  /** The opener's end is as it was, but for a CLOSE that has been sent. */
  ghost predicate Standing(x: Conn, x': Conn) {
    && x'.state == x.state && x'.shut.began == x.shut.began && x'.answer.wasOpen == x.answer.wasOpen
      && x'.shut.heard == x.shut.heard
    && x'.tally.releases == x.tally.releases
  }

  lemma SendStanding(s: System, i: nat)
    requires Enabled(s, User(A, SendClose(i)))
    ensures Standing(s.a.conns[i], Next(s, User(A, SendClose(i))).a.conns[i])
    ensures i in Next(s, User(A, SendClose(i))).a.conns
  {
  }

  lemma {:induction false} OpenerStep(s: System, act: Action, i: nat)
    requires Raced(s, i) && Enabled(s, act) && Finishing(act) && !(act.Deliver? && Own(s, act, A, i))
    ensures i in Next(s, act).a.conns && Standing(s.a.conns[i], Next(s, act).a.conns[i])
    ensures act.x == A ==> Next(s, act).b == s.b && Proj(Next(s, act).ba, i) == Proj(s.ba, i)
  {
    RacedLink(s, i);
    hide Raced, Both, Inv, Heal, Next, Enabled, Proj;
    FrameAt(s, act);
    if act == User(A, SendClose(i)) {
      SendStanding(s, i);
    } else if act.x == A {
      OpenerElsewhere(s, act, i);
      Isolation(s, act, i);
    }
  }

  lemma OpenerElsewhere(s: System, act: Action, i: nat)
    requires Enabled(s, act) && Finishing(act) && act.x == A && !Own(s, act, A, i)
    requires i !in s.a.ids.unannounced && !Is(s.a, Arriving(i))
    ensures Elsewhere(s, act, i)
  {
  }

  lemma OtherStep(s: System, act: Action, i: nat)
    requires Raced(s, i) && Enabled(s, act) && Finishing(act) && !(act.Deliver? && Own(s, act, A, i))
    ensures Raced(Next(s, act), i) && Next(s, act).b.conns[i].shut.began == s.b.conns[i].shut.began
  {
    hide Next, Heal, Inv, Enabled, Disciplined, Proj;
    var h, s' := Heal(s, i), Next(s, act);
    Commutes(s, act, i);
    OpenerStep(s, act, i);
    if act.x == B { PeerStep(s, act, i); }
    FinishingDisciplined(h, act);
    NextKeeps(h, act);
  }

  // Handling a packet of the connection at the opener.

  /** Reviving the connection, healed, is closing it. */
  lemma HealthyApply(x: Conn)
    requires x.state.WaitClose? && !x.answer.wasOpen && x.io.got == [] && x.tally.releases == 0
      && x.tally.callbacks == 0
    ensures ApplySuccess(x, WaitInit) == Starts(Took(x))
    ensures ApplySuccess(x, WaitClose) == Healthy(ApplySuccess(x, WaitInit))
  {
    var t := Took(x);
    assert ApplySuccess(x, WaitClose) == CloseImm(t);
  }

  lemma ApplyEnd(e: Endpoint, i: nat, x: Conn)
    requires i in e.conns && e.conns[i] == x && Racing(e, i)
    requires x.state.WaitClose? && !x.answer.wasOpen && x.io.got == [] && x.tally.releases == 0
      && x.tally.callbacks == 0
    ensures var r, q := HandleSuccess(e, i), HandleSuccess(e.(busy := Some(Reading(i, WaitClose))), i);
      && r.e.busy.None? && i in r.e.conns && HealEnd(r.e, i) == q.e && r.sent == q.sent == [] && r.done && q.done
      && r.e.conns[i] == Starts(Took(x))
  {
    hide ApplySuccess, Healthy;
    HealthyApply(x);
    var x' := ApplySuccess(x, WaitInit);
    assert e.conns[i := x'][i := Healthy(x')] == e.conns[i := Healthy(x')];
    assert Healthy(x').tally.releases == 1 by { HealthyReleases(x'); }
  }

  /** What is known of the opener's end while the race lasts. */
  lemma RacingEnd(s: System, i: nat)
    requires Raced(s, i) && Racing(s.a, i)
    ensures var x := s.a.conns[i];
      && x.state.WaitClose? && !x.answer.wasOpen && x.io.got == [] && x.shut.heard == 0
      && x.tally.releases == 0 && x.tally.callbacks == 0
  {
    RacedLink(s, i);
    assert Heal(s, i).a.conns[i] == s.a.conns[i];
    assert Local(s.a.conns[i]);
    assert ConnOk(s.a.conns[i]) by { assert Books(Heal(s, i).a); }
    hide Inv, Both;
  }

  lemma SuccessSteps(s: System, i: nat, r: Out)
    requires i in s.a.conns && s.ba != [] && s.ba[0] == Success(i) && r == HandleSuccess(s.a, i)
    requires CanReceive(s.a, Success(i)) && r.sent == []
    ensures Enabled(s, Deliver(A))
    ensures Next(s, Deliver(A)) == System(r.e, s.b, s.ab, if r.done then s.ba[1..] else s.ba)
  {
    hide HandleSuccess;
    assert s.ab + [] == s.ab;
  }

  /** The step that revives the connection. */
  lemma ApplyHeals(s: System, i: nat)
    requires Raced(s, i) && Own(s, Deliver(A), A, i) && Enabled(s, Deliver(A)) && Racing(s.a, i)
    ensures Heals(s, Deliver(A), i) && Revived(Next(s, Deliver(A)).a.conns[i], s.b.conns[i])
    ensures !Reads(Next(s, Deliver(A)).a) && Next(s, Deliver(A)).a.conns[i].shut.began
    ensures Next(s, Deliver(A)).b == s.b && Next(s, Deliver(A)).ba == s.ba[1..]
  {
    hide Raced;
    RacedLink(s, i);
    RacingEnd(s, i);
    var x := s.a.conns[i];
    assert x.shut.began;
    ApplyEnd(s.a, i, x);
    hide Raced, Both, Inv, HandleSuccess, HealEnd;
    SuccessSteps(s, i, HandleSuccess(s.a, i));
    SuccessSteps(Heal(s, i), i, HandleSuccess(Heal(s, i).a, i));
    hide Next;
  }

  lemma HealthyReleases(x: Conn)
    ensures Healthy(x).tally.releases == 1
  {
  }

  lemma HealthyData(x: Conn, payload: Bytes)
    ensures Healthy(HandleData(x, payload)) == HandleData(Healthy(x), payload) == Healthy(x)
  {
    if x.state.Started? && !x.io.closed { assert HandleData(x, payload) == x.(io := x.io.(got := x.io.got + payload)); }
  }

  lemma HealthyClosed(x: Conn)
    ensures Healthy(CloseImm(x)) == Healthy(x) == CloseImm(Healthy(x))
  {
    if !x.state.Closed? {}
  }

  lemma HealthyError(x: Conn)
    ensures Healthy(HandleError(x)) == HandleError(Healthy(x))
  {
    hide CloseImm;
    var t := Took(x);
    HealthyClosed(t);
    assert Healthy(t) == Took(Healthy(x));
    hide Healthy;
  }

  lemma HealthyTaken(x: Conn)
    ensures Healthy(Took(x)) == ApplySuccess(Healthy(x), Closed)
  {
  }

  lemma HealthyClose(x: Conn, id: nat)
    ensures Healthy(AgentConnection.HandleClose(x, id).conn) == AgentConnection.HandleClose(Healthy(x), id).conn
  {
    hide CloseImm;
    var t := Heard(x);
    HealthyClosed(t);
    assert Healthy(t) == Heard(Healthy(x));
    hide Healthy;
  }

  lemma PutHeals(e: Endpoint, i: nat, c: Conn)
    requires i in e.conns && !Reads(e)
    ensures HealEnd(Put(e, i, c), i) == Put(HealEnd(e, i), i, Healthy(c))
  {
    assert e.conns[i := c][i := Healthy(c)] == e.conns[i := Healthy(e.conns[i])][i := Healthy(c)];
  }

  lemma HealthyEffect(x: Conn, p: Packet)
    requires p.Data? || p.Close? || p.Error?
    ensures Healthy(WholeEffect(x, p).conn) == WholeEffect(Healthy(x), p).conn
    ensures |WholeEffect(x, p).sent| <= 1
    ensures p.Close? ==> WholeEffect(Healthy(x), p).sent == [Error(p.id)]
    ensures p.Close? ==> WholeEffect(x, p).sent == [if x.state.Closed? then Error(p.id) else Success(p.id)]
    ensures !p.Close? ==> WholeEffect(x, p).sent == WholeEffect(Healthy(x), p).sent == []
  {
    match p
    case Data(_, payload) => HealthyData(x, payload);
    case Close(id) => HealthyClose(x, id); assert Healthy(x).state.Closed?;
    case Error(_) => HealthyError(x);
  }

  /** The opener's end after a packet other than SUCCESS. */
  lemma OwnRevived(x: Conn, y: Conn, h: Conn, out: seq<Packet>, inc: seq<Packet>)
    requires Revived(x, y) && Both(h, y, out, inc) && h.initiator && inc != [] && y.answer.accepted
    requires inc[0].Data? || inc[0].Close? || inc[0].Error?
    requires !y.shut.began ==> NoError(inc)
    ensures Revived(WholeEffect(x, inc[0]).conn, y) && WholeEffect(x, inc[0]).conn.shut.began == x.shut.began
  {
    if inc[0].Close? { Tail(inc); }
    if x.state.Closed? {} else {}
  }

  /** The parts of `Raced` after the opener has handled a packet of the connection. */
  lemma OwnRaced(s: System, s': System, i: nat)
    requires Raced(s, i) && i in s'.a.conns && Inv(Heal(s', i)) && s'.b == s.b && !Racing(s'.a, i)
    requires Revived(s'.a.conns[i], s.b.conns[i]) && s'.a.conns[i].shut.began
    requires s'.ba == s.ba || (s.ba != [] && s'.ba == s.ba[1..])
    requires ReadsOf(s'.a, i) ==> s'.a.busy.value.seen.Started? || s'.a.busy.value.seen.Closed?
    ensures Raced(s', i)
  {
    hide Inv, Heal, Revived;
    if s'.ba != s.ba {
      assert Proj(s.ba, i) == (if Names(s.ba[0], i) then [s.ba[0]] else []) + Proj(s'.ba, i);
      assert NoError(Proj(s.ba, i)) ==> NoError(Proj(s'.ba, i)) by { NoErrorTail(Proj(s.ba, i), Proj(s'.ba, i)); }
    }
  }

  lemma NoErrorTail(w: seq<Packet>, t: seq<Packet>)
    requires w == t || (w != [] && w[1..] == t)
    ensures NoError(w) ==> NoError(t)
  {
    if w != t { assert forall k | 0 <= k < |t| :: t[k] == w[k + 1]; }
  }

  /** CLOSE at the revived end is answered with SUCCESS where the healed one answers with ERROR; the peer
      does not care. */
  lemma PairCloseAny(h: Conn, y: Conn, out: seq<Packet>, inc: seq<Packet>, id: nat, reply: Packet)
    requires Both(h, y, out, inc) && h.initiator && h.state.Closed? && inc != [] && inc[0].Close?
    requires reply == Success(id) || reply == Error(id)
    ensures Both(AgentConnection.HandleClose(h, id).conn, y, out + [reply], inc[1..])
  {
    Tail(inc);
    Append(out, reply);
    assert AgentConnection.HandleClose(h, id).conn == Heard(h);
  }

  /** The link of the healed connection after a packet, with the reply that was really sent. */
  lemma OwnLinked(h: System, i: nat, x: Conn)
    requires LinkInv(h, i) && i in h.a.conns && i in h.b.conns && h.ba != [] && Names(h.ba[0], i)
    requires h.ba[0].Data? || h.ba[0].Close? || h.ba[0].Error?
    requires h.a.conns[i] == Healthy(x)
    ensures var f := Effect(WholeEffect(Healthy(x), h.ba[0]).conn, WholeEffect(x, h.ba[0]).sent);
      Linked(h, A, i, f, h.ba[1..]) && Sends(f, i) && f.conn.initiator == Healthy(x).initiator
  {
    var p, y := h.ba[0], h.b.conns[i];
    var out, w := Proj(h.ab, i), Proj(h.ba, i);
    assert w[0] == p && w[1..] == Proj(h.ba[1..], i);
    LinkBoth(h, A, i);
    HealthyEffect(x, p);
    if p.Close? {
      PairCloseAny(Healthy(x), y, out, w, i, WholeEffect(x, p).sent[0]);
    } else {
      PairPacket(Healthy(x), y, out, w);
    }
  }

  lemma OwnStepEnd(s: System, i: nat, f: Effect)
    requires i in s.a.conns && i in s.b.conns && Inv(Heal(s, i)) && Own(s, Deliver(A), A, i) && s.a.busy.None?
    requires s.ba[0].Data? || s.ba[0].Close? || s.ba[0].Error?
    requires f == WholeEffect(s.a.conns[i], s.ba[0])
    ensures var e := Put(s.a, i, f.conn);
      && HealEnd(e, i).conns == HealEnd(s.a, i).conns[i := WholeEffect(Healthy(s.a.conns[i]), s.ba[0]).conn]
      && EndInv(HealEnd(e, i)) && HealEnd(e, i).busy.None?
      && HealEnd(e, i).ids.counter == s.a.ids.counter && HealEnd(e, i).ids.unannounced == s.a.ids.unannounced
      && HealEnd(e, i).mapLocked == s.a.mapLocked
  {
    var h := HealEnd(s.a, i);
    HealthyEffect(s.a.conns[i], s.ba[0]);
    PutHeals(s.a, i, f.conn);
    PacketLift(h, s.ba[0], i);
    ReceiveKeeps(h, s.ba[0]);
    hide WholeEffect, Healthy, Receive, EndInv;
  }

  lemma OwnInv(s: System, i: nat, f: Effect)
    requires Raced(s, i) && Own(s, Deliver(A), A, i) && s.a.busy.None?
    requires s.ba[0].Data? || s.ba[0].Close? || s.ba[0].Error?
    requires f == WholeEffect(s.a.conns[i], s.ba[0])
    ensures Inv(Heal(s.With(A, Put(s.a, i, f.conn), s.ab + f.sent, s.ba[1..]), i))
  {
    var x, p, h := s.a.conns[i], s.ba[0], Heal(s, i);
    var e' := HealEnd(Put(s.a, i, f.conn), i);
    var g := Effect(WholeEffect(Healthy(x), p).conn, f.sent);
    RacedLink(s, i);
    assert LinkInv(h, i);
    OwnLinked(h, i, x);
    OwnStepEnd(s, i, f);
    TailFrame(s.ba, i);
    assert h.With(A, e', s.ab + f.sent, s.ba[1..]) == Heal(s.With(A, Put(s.a, i, f.conn), s.ab + f.sent, s.ba[1..]), i);
    hide WholeEffect, LinkInv, Both, Linked, EndInv, Revived, Healthy, Put;
    Assemble(h, A, i, g, e', s.ba[1..]);
  }

  lemma OwnEffect(s: System, i: nat)
    requires Raced(s, i) && Own(s, Deliver(A), A, i) && Enabled(s, Deliver(A)) && s.a.busy.None?
    requires s.ba[0].Data? || s.ba[0].Close? || s.ba[0].Error?
    ensures Raced(Next(s, Deliver(A)), i)
  {
    hide Raced, WholeEffect, Both, Inv, Receive, Revived, Heal;
    RacedLink(s, i);
    var x, p, s' := s.a.conns[i], s.ba[0], Next(s, Deliver(A));
    var f := WholeEffect(x, p);
    assert Proj(s.ba, i)[0] == p;
    PacketLift(s.a, p, i);
    OwnRevived(x, s.b.conns[i], Heal(s, i).a.conns[i], Proj(s.ab, i), Proj(s.ba, i));
    OwnInv(s, i, f);
    RevivedOnce(f.conn, s.b.conns[i]);
    OwnAlive(s.With(A, Put(s.a, i, f.conn), s.ab + f.sent, s.ba[1..]), i);
    OwnRaced(s, s', i);
  }

  /** The step is not a panic of the wait group: what is healed has the smaller one. */
  lemma OwnAlive(s: System, i: nat)
    requires i in s.a.conns && !Racing(s.a, i) && s.a.conns[i].tally.releases <= 1 && Inv(Heal(s, i))
    ensures s.a.wg >= 0
  {
    hide Inv;
    InvAlive(Heal(s, i));
  }

  lemma RevivedOnce(x: Conn, y: Conn)
    requires Revived(x, y)
    ensures x.tally.releases <= 1
  {
  }

  /** Reading and applying a later SUCCESS changes nothing but the count. */
  lemma OwnSuccess(s: System, i: nat)
    requires Raced(s, i) && Enabled(s, Deliver(A)) && s.ba[0] == Success(i) && !Racing(s.a, i)
    ensures Raced(Next(s, Deliver(A)), i)
  {
    RacedLink(s, i);
    InvAlive(Heal(s, i));
    LaterHeals(s, i);
    var s' := Next(s, Deliver(A));
    hide Next, Enabled, Inv, Both, Heal;
    FinishingDisciplined(Heal(s, i), Deliver(A));
    NextKeeps(Heal(s, i), Deliver(A));
    OwnRaced(s, s', i);
  }

  lemma LaterHeals(s: System, i: nat)
    requires i in s.a.conns && i in s.b.conns && Enabled(s, Deliver(A)) && s.ba[0] == Success(i) && !Racing(s.a, i)
    requires Revived(s.a.conns[i], s.b.conns[i]) && (Reads(s.a) ==> s.a.busy.value.id == i)
    requires Reads(s.a) ==> s.a.busy.value.seen.Started? || s.a.busy.value.seen.Closed?
    requires !Dead(HealEnd(s.a, i))
    ensures Heals(s, Deliver(A), i)
    ensures var s' := Next(s, Deliver(A));
      && s'.b == s.b && (s'.ba == s.ba || s'.ba == s.ba[1..]) && Standing(s.a.conns[i], s'.a.conns[i])
      && Revived(s'.a.conns[i], s.b.conns[i]) && !Racing(s'.a, i)
      && (ReadsOf(s'.a, i) ==> s'.a.busy.value.seen.Started? || s'.a.busy.value.seen.Closed?)
  {
    LaterSuccess(s.a, i);
    hide HandleSuccess, HealEnd;
    SuccessSteps(s, i, HandleSuccess(s.a, i));
    SuccessSteps(Heal(s, i), i, HandleSuccess(HealEnd(s.a, i), i));
    hide Next;
  }

  lemma LaterSuccess(e: Endpoint, i: nat)
    requires i in e.conns && !Waits(e) && (Reads(e) ==> e.busy.value.id == i)
    requires Reads(e) ==> e.busy.value.seen.Started? || e.busy.value.seen.Closed?
    ensures HealEnd(e, i).door.panicked == e.door.panicked && HealEnd(e, i).mapLocked == e.mapLocked
    ensures var r, q := HandleSuccess(e, i), HandleSuccess(HealEnd(e, i), i);
      && i in r.e.conns && HealEnd(r.e, i) == q.e && r.sent == q.sent == [] && r.done == q.done == Reads(e)
      && Standing(e.conns[i], r.e.conns[i])
      && (r.e.busy == if Reads(e) then None else Some(Reading(i, e.conns[i].state)))
  {
    var x := e.conns[i];
    var t := Took(x);
    if Reads(e) {
      assert ApplySuccess(x, e.busy.value.seen) == t;
      HealthyTaken(x);
      assert e.conns[i := t][i := Healthy(t)] == e.conns[i := Healthy(x)][i := Healthy(t)];
    }
  }

  lemma OwnStep(s: System, i: nat)
    requires Raced(s, i) && Own(s, Deliver(A), A, i) && Enabled(s, Deliver(A))
    ensures Raced(Next(s, Deliver(A)), i) && Next(s, Deliver(A)).b == s.b
  {
    RacedLink(s, i);
    if Racing(s.a, i) {
      ApplyHeals(s, i);
      FinishingDisciplined(Heal(s, i), Deliver(A));
      NextKeeps(Heal(s, i), Deliver(A));
      hide Inv, Both, Heal, Revived;
      OwnRaced(s, Next(s, Deliver(A)), i);
    } else {
      assert Proj(s.ba, i)[0] == s.ba[0];
      if s.ba[0].Success? { OwnSuccess(s, i); } else { OwnEffect(s, i); }
    }
  }

  lemma RacedStep(s: System, act: Action, i: nat)
    requires Raced(s, i) && Enabled(s, act) && Finishing(act)
    ensures Raced(Next(s, act), i) && Next(s, act).b.conns[i].shut.began == s.b.conns[i].shut.began
  {
    hide Next, Enabled, Inv, Heal;
    if act.Deliver? && Own(s, act, A, i) { OwnStep(s, i); } else { OtherStep(s, act, i); }
  }

  // From the race to the end.

  lemma IdleInv(s: System)
    requires Inv(s) && Reads(s.a)
    ensures Inv(s.(a := s.a.(busy := None)))
  {
    IdleKeeps(s.a);
    hide EndInv;
    var s' := s.(a := s.a.(busy := None));
    forall j: nat ensures LinkInv(s', j) {
      assert LinkInv(s, j);
      LinkFrame(s, A, s'.a, s.ab, s.ba, j);
    }
  }

  /** Closing at an endpoint, whatever its handler is at. */
  lemma CloseStep(s: System, i: nat)
    requires i in s.a.conns && !Dead(s.a)
    ensures Enabled(s, User(A, StartClose(i)))
    ensures Next(s, User(A, StartClose(i))) == s.(a := Put(s.a, i, BeginClose(s.a.conns[i])))
  {
    hide BeginClose;
    assert s.ab + [] == s.ab;
  }

  lemma ReadStep(s: System, i: nat)
    requires i in s.a.conns && !Dead(s.a) && !s.a.mapLocked && s.a.busy.None? && s.ba != []
      && s.ba[0] == Success(i)
    ensures Enabled(s, Deliver(A))
    ensures Next(s, Deliver(A)) == s.(a := s.a.(busy := Some(Reading(i, s.a.conns[i].state))))
  {
    assert s.ab + [] == s.ab;
  }

  lemma RaceFacts(s: System, i: nat)
    requires Inv(s) && Racing(s.a, i)
    ensures i in s.a.conns && i in s.b.conns && i !in s.a.ids.unannounced && !Dead(s.a) && !s.a.mapLocked
    ensures s.ba != [] && s.ba[0] == Success(i)
    ensures s.a.conns[i].state.WaitInit? && BeginClose(s.a.conns[i]).state.WaitClose?
    ensures BeginClose(s.a.conns[i]).tally == s.a.conns[i].tally
  {
    assert BusyOk(s.a) && BusyInv(s.a, s.ba);
    InvAlive(s);
    HeadKnown(s, A, i);
  }

  /** Had the handler not read yet, closing and then reading would lead to the healed system. */
  lemma HealedBegins(s: System, i: nat)
    requires Inv(s) && Racing(s.a, i)
    ensures Enabled(s, User(A, StartClose(i))) && i in Next(s, User(A, StartClose(i))).a.conns
    ensures Inv(Heal(Next(s, User(A, StartClose(i))), i))
  {
    hide Inv, EndInv, BeginClose;
    RaceFacts(s, i);
    IdleInv(s);
    var close, s0 := User(A, StartClose(i)), s.(a := s.a.(busy := None));
    var s1 := s0.(a := Put(s0.a, i, BeginClose(s.a.conns[i])));
    CloseStep(s, i);
    CloseStep(s0, i);
    ReadStep(s1, i);
    hide Next, Enabled;
    NextKeeps(s0, close);
    NextKeeps(s1, Deliver(A));
  }

  lemma RaceBegins(s: System, i: nat)
    requires Inv(s) && Racing(s.a, i)
    ensures Enabled(s, User(A, StartClose(i)))
    ensures var s1 := Next(s, User(A, StartClose(i))); Raced(s1, i) && s1.b == s.b
  {
    hide EndInv, Half, Heal, Proj;
    RaceFacts(s, i);
    HealedBegins(s, i);
    CloseStep(s, i);
    assert LinkInv(s, i);
    LinkBoth(s, A, i);
    RaceReply(s, i);
    hide Inv, Both, Next, LinkInv;
  }

  lemma {:induction false} RaceReply(s: System, i: nat)
    requires i in s.a.conns && i in s.b.conns && s.a.conns[i].state.WaitInit? && s.ba != [] && s.ba[0] == Success(i)
    requires Both(s.a.conns[i], s.b.conns[i], Proj(s.ab, i), Proj(s.ba, i))
    ensures s.b.conns[i].answer.accepted && NoError(Proj(s.ba, i)) && !s.a.conns[i].answer.wasOpen
  {
    assert Proj(s.ba, i)[0] == s.ba[0];
    OneReply(s.a.conns[i], s.b.conns[i], Proj(s.ab, i), Proj(s.ba, i));
  }

  /** What is on the way to an end in WAITINIT is the acceptance and no other answer. */
  lemma OneReply(x: Conn, y: Conn, out: seq<Packet>, inc: seq<Packet>)
    requires Both(x, y, out, inc) && x.state.WaitInit? && inc != [] && inc[0].Success?
    ensures y.answer.accepted && NoError(inc)
  {
    Tail(inc);
    forall k | 0 <= k < |inc| ensures !inc[k].Error? {
      if k > 0 { Counted(inc[1..], k - 1); }
    }
  }

  lemma {:induction false} RacedRun(s: System, acts: seq<Action>, i: nat)
    requires Raced(s, i) && CodeRun(s, acts) && forall k | 0 <= k < |acts| :: Finishing(acts[k])
    ensures Raced(Exec(s, acts), i) && Exec(s, acts).b.conns[i].shut.began == s.b.conns[i].shut.began
    decreases |acts|
  {
    hide Next, Enabled, Inv, Heal, CodeRun, Exec, Revived;
    RunSplit(s, acts);
    if acts != [] {
      RacedStep(s, acts[0], i);
      RacedRun(Next(s, acts[0]), acts[1..], i);
    }
  }

  /** When all is quiet the opener's end is CLOSED if its peer had begun to close, else STARTED. */
  lemma QuietEnds(s: System, i: nat)
    requires Raced(s, i) && Quiet(s)
    ensures i in s.a.conns && i in s.b.conns && !Racing(s.a, i) && !Reads(s.a)
    ensures s.b.conns[i].shut.began <==> s.a.conns[i].state.Closed?
    ensures s.a.conns[i].state.Started? || s.a.conns[i].state.Closed?
  {
    hide Raced, Half, Inv;
    RacedLink(s, i);
    var h, x, y := Heal(s, i), s.a.conns[i], s.b.conns[i];
    assert Proj(s.ba, i) == [];
    if y.shut.began { HeardOnce(h.a.conns[i], y, Proj(s.ab, i)); }
  }

  lemma HeardOnce(x: Conn, y: Conn, out: seq<Packet>)
    requires Both(x, y, out, []) && y.shut.began && !y.shut.owed
    ensures x.shut.heard == 1
  {
  }

  /** The peer is then CLOSED, and all other connections agree. */
  lemma QuietRaced(s: System, i: nat)
    requires Raced(s, i) && Quiet(s)
    ensures i in s.b.conns && (Agree(s) <==> s.b.conns[i].shut.began)
  {
    hide Inv, Agree, HealEnd;
    QuietEnds(s, i);
    HealTwins(s, i);
    var h := Heal(s, i);
    OthersAgree(s, h, A, i, Gap(s, i));
    HealedAgrees(s, i);
  }

  lemma HealedAgrees(s: System, i: nat)
    requires Raced(s, i) && Quiet(s) && !Racing(s.a, i)
    ensures i in s.b.conns && s.b.conns[i].state.Closed?
  {
    LinkAgrees(Heal(s, i), i);
    hide Inv;
  }

  /** The race does harm exactly if the acceptor had not begun to close: from any state in which the handler
      has read WAITINIT, a `Close` at that moment, and then whatever finishes what was begun until nothing is
      left, ends in agreement if and only if the acceptor's `Close` had taken effect. */
  lemma {:induction false} RaceIff(s: System, i: nat, acts: seq<Action>)
    requires Inv(s) && Racing(s.a, i) && Enabled(s, User(A, StartClose(i)))
    requires CodeRun(Next(s, User(A, StartClose(i))), acts) && forall k | 0 <= k < |acts| :: Finishing(acts[k])
    requires Quiet(Exec(Next(s, User(A, StartClose(i))), acts))
    ensures i in s.b.conns && (Agree(Exec(Next(s, User(A, StartClose(i))), acts)) <==> s.b.conns[i].shut.began)
  {
    RaceBegins(s, i);
    var s1 := Next(s, User(A, StartClose(i)));
    RacedRun(s1, acts, i);
    QuietRaced(Exec(s1, acts), i);
  }
}
