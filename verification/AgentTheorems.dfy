/** What holds in every run of two endpoints that use the protocol as intended. */
module AgentTheorems {
  import opened Wrappers
  import opened AgentConnection
  import opened AgentWords
  import opened AgentPair
  import opened AgentEndpoint
  import opened AgentSystem

  /** Each action is possible in the code when it is taken. */
  predicate CodeRun(s: System, acts: seq<Action>)
    decreases |acts|
  {
    acts == [] || (Enabled(s, acts[0]) && CodeRun(Next(s, acts[0]), acts[1..]))
  }

  function Exec(s: System, acts: seq<Action>): System
    requires CodeRun(s, acts)
    decreases |acts|
  {
    if acts == [] then s else Exec(Next(s, acts[0]), acts[1..])
  }

  lemma {:induction false} RunSplit(s: System, p: seq<Action>)
    requires CodeRun(s, p)
    ensures p == [] ==> Exec(s, p) == s
    ensures p != [] ==> Enabled(s, p[0]) && CodeRun(Next(s, p[0]), p[1..]) && Exec(s, p) == Exec(Next(s, p[0]), p[1..])
  {
  }

  /** ... and is also intended use. */
  predicate ProperRun(s: System, acts: seq<Action>)
    requires CodeRun(s, acts)
    decreases |acts|
  {
    acts == [] || (Disciplined(s, acts[0]) && ProperRun(Next(s, acts[0]), acts[1..]))
  }

  lemma {:induction false} ExecKeeps(s: System, acts: seq<Action>)
    requires Inv(s) && CodeRun(s, acts) && ProperRun(s, acts)
    ensures Inv(Exec(s, acts))
    decreases |acts|
  {
    if acts != [] {
      NextKeeps(s, acts[0]);
      ExecKeeps(Next(s, acts[0]), acts[1..]);
    }
  }

  ghost predicate Reachable(s: System) {
    exists acts :: CodeRun(START, acts) && ProperRun(START, acts) && s == Exec(START, acts)
  }

  lemma ReachableInv(s: System)
    requires Reachable(s)
    ensures Inv(s)
  {
    var acts :| CodeRun(START, acts) && ProperRun(START, acts) && s == Exec(START, acts);
    StartInv();
    ExecKeeps(START, acts);
  }

  /** No packet in flight and no `newConnection` or `Close` call between its two halves. */
  ghost predicate Quiet(s: System) {
    && s.ab == [] && s.ba == [] && s.a.ids.unannounced == map[]
    && (forall i | i in s.a.conns :: !s.a.conns[i].shut.owed)
    && (forall i | i in s.b.conns :: !s.b.conns[i].shut.owed)
  }

  /** Both ends of every connection are in the same state, none is half closed, and an open connection
      has delivered every byte in both directions. */
  ghost predicate Agree(s: System) {
    && s.a.conns.Keys == s.b.conns.Keys
    && forall i | i in s.a.conns :: EndsAgree(s.a.conns[i], s.b.conns[i])
  }

  ghost predicate EndsAgree(x: Conn, y: Conn) {
    && x.state == y.state && !y.state.WaitClose?
    && (x.state.Started? ==> x.io.got == y.io.wrote && y.io.got == x.io.wrote)
  }

  lemma InvAgrees(s: System)
    requires Inv(s) && Quiet(s)
    ensures Agree(s)
  {
    forall i: nat ensures i in s.a.conns <==> i in s.b.conns
    {
      assert LinkInv(s, i);
    }
    forall i | i in s.a.conns ensures EndsAgree(s.a.conns[i], s.b.conns[i]) {
      assert LinkInv(s, i);
      PairAgrees(s.a.conns[i], s.b.conns[i]);
    }
  }

  /** Quiescent agreement. */
  lemma QuiescentAgreement(s: System)
    requires Reachable(s) && Quiet(s)
    ensures Agree(s)
  {
    ReachableInv(s);
    InvAgrees(s);
  }

  /** The initiator is STARTED only if its peer accepted and did not reject. */
  lemma StartedWasAccepted(s: System, i: nat)
    requires Reachable(s) && i in s.a.conns && s.a.conns[i].state.Started?
    ensures i in s.b.conns && s.b.conns[i].answer.accepted && !s.b.conns[i].answer.rejected
  {
    ReachableInv(s);
    assert LinkInv(s, i);
  }

  /** Bytes written at `Other(x)` and delivered at `x`: always a prefix, exactly the rest is in flight
      while `x` is STARTED, and nothing is missing when a STARTED end is about to handle CLOSE. */
  lemma {:induction false} BytesConserved(s: System, x: Side, i: nat)
    requires Reachable(s) && i in s.a.conns && i in s.b.conns
    ensures var r, w := s.End(x).conns[i], s.End(Other(x)).conns[i];
      && r.io.got <= w.io.wrote
      && (r.state.Started? ==> r.io.got + Payload(Proj(s.Inc(x), i)) == w.io.wrote)
      && (r.state.Started? && s.Inc(x) != [] && s.Inc(x)[0] == Packet.Close(i) ==> r.io.got == w.io.wrote)
  {
    hide Both, Half, Reachable, EndInv;
    ReachableInv(s);
    assert LinkInv(s, i);
    LinkBoth(s, x, i);
    hide Inv, LinkInv;
    PairBytes(s.End(x).conns[i], s.End(Other(x)).conns[i], Proj(s.Out(x), i), Proj(s.Inc(x), i));
  }

  /** Every packet in flight names a connection that its receiver knows or will have been told of by a
      NEW earlier in the same pipe; the map lock is never lost. */
  lemma NoOrphans(s: System, x: Side, k: nat, i: nat)
    requires Reachable(s) && k < |s.Inc(x)| && Names(s.Inc(x)[k], i)
    ensures i in s.End(x).conns || exists j :: 0 <= j <= k && s.Inc(x)[j].New? && s.Inc(x)[j].id == i
    ensures i in s.End(x).conns ==> !s.Inc(x)[k].New?
    ensures !s.a.mapLocked && !s.b.mapLocked
  {
    ReachableInv(s);
    assert LinkInv(s, i);
    ProjHas(s.Inc(x), k, i);
    FirstOfWord(s.Inc(x), k, i);
  }

  /** The first packet of a word is at or before every other packet of it. */
  lemma {:induction false} FirstOfWord(q: seq<Packet>, k: nat, i: nat)
    requires k < |q| && Names(q[k], i)
    ensures Proj(q, i) != [] && exists j :: 0 <= j <= k && q[j] == Proj(q, i)[0] && Names(q[j], i)
  {
    if Names(q[0], i) {
      assert q[0] == Proj(q, i)[0];
    } else {
      FirstOfWord(q[1..], k - 1, i);
      var j :| 0 <= j <= k - 1 && q[1..][j] == Proj(q[1..], i)[0] && Names(q[1..][j], i);
      assert q[j + 1] == Proj(q, i)[0];
    }
  }

  /** A packet handled in a proper run never takes a "suspicious" or "unknown connection" branch. */
  lemma HeadInOrder(s: System, x: Side)
    requires Reachable(s) && s.Inc(x) != [] && !s.Inc(x)[0].NoMore? && !s.Inc(x)[0].Unknown?
    ensures var p := s.Inc(x)[0];
            if p.New? then p.id == s.End(x).ids.counter + 1 && p.details.Some? else p.id in s.End(x).conns
  {
    ReachableInv(s);
    HeadKnown(s, x, s.Inc(x)[0].id);
    assert LinkInv(s, s.Inc(x)[0].id);
  }

  // Closing completes.

  function Weight(p: Packet): nat {
    match p
    case Close(_) => 3
    case New(_, _) => 3
    case Success(_) => 2
    case NoMore => 2
    case _ => 1
  }

  function Weights(q: seq<Packet>): nat {
    if q == [] then 0 else Weight(q[0]) + Weights(q[1..])
  }

  /** What the handler has still to do for the packet it is at. */
  function Rest(e: Endpoint): int {
    if e.busy.None? then 0
    else match e.busy.value
      case Reading(_, _) => -1
      case Arriving(_) => 2
      case Offering(_) => 1
      case Halting => 1
  }

  /** Handling steps that are left at most. */
  function Measure(s: System): int {
    Weights(s.ab) + Weights(s.ba) + Rest(s.a) + Rest(s.b)
  }

  lemma {:induction false} WeightsAppend(q: seq<Packet>, ps: seq<Packet>)
    requires |ps| <= 1
    ensures Weights(q + ps) == Weights(q) + Weights(ps)
  {
    if q == [] {
      assert q + ps == ps;
    } else {
      WeightsAppend(q[1..], ps);
      assert (q + ps)[1..] == q[1..] + ps;
    }
  }

  /** Handling a packet uses up more than it sends. */
  lemma ReceiveWeight(e: Endpoint, p: Packet)
    requires InOrder(e, p)
    ensures var r := Receive(e, p);
      |r.sent| <= 1 && Weights(r.sent) + Rest(r.e) + (if r.done then 0 else Weight(p)) < Weight(p) + Rest(e)
  {
    hide CloseImm, ApplySuccess, HandleData, HandleError, Fresh;
    var r := Receive(e, p);
    if |r.sent| == 1 { assert r.sent == [r.sent[0]] && r.sent[1..] == []; }
  }

  lemma ResumeWeight(e: Endpoint)
    requires CanResume(e)
    ensures |Resume(e).sent| <= 1 && Weights(Resume(e).sent) + Rest(Resume(e).e) < Rest(e)
  {
    var r := Resume(e);
    if |r.sent| == 1 { assert r.sent == [r.sent[0]] && r.sent[1..] == []; }
  }

  /** What the handler does, and taking what it offers. */
  predicate Handling(act: Action) {
    act.Deliver? || act.Proceed? || (act.User? && act.call.TakeOffer?)
  }

  /** A step of one side that sends `ps` and leaves `inc'` to be read. */
  lemma {:induction false} StepDecreases(s: System, x: Side, e': Endpoint, ps: seq<Packet>, inc': seq<Packet>)
    requires |ps| <= 1 && Weights(ps) + Rest(e') + Weights(inc') < Rest(s.End(x)) + Weights(s.Inc(x))
    ensures Measure(s.With(x, e', s.Out(x) + ps, inc')) < Measure(s)
  {
    WeightsAppend(s.Out(x), ps);
  }

  /** Every handling step decreases the measure. */
  lemma HandlingDecreases(s: System, act: Action)
    requires Inv(s) && Enabled(s, act) && Handling(act)
    ensures Measure(Next(s, act)) < Measure(s)
  {
    var x := act.x;
    assert act.Deliver? ==> InOrder(s.End(x), s.Inc(x)[0]);
    hide Inv, Receive, Resume, InOrder, Measure;
    match act
    case Deliver(_) =>
      var r := Receive(s.End(x), s.Inc(x)[0]);
      ReceiveWeight(s.End(x), s.Inc(x)[0]);
      StepDecreases(s, x, r.e, r.sent, if r.done then s.Inc(x)[1..] else s.Inc(x));
    case Proceed(_) =>
      ResumeWeight(s.End(x));
      StepDecreases(s, x, Resume(s.End(x)).e, Resume(s.End(x)).sent, s.Inc(x));
    case User(_, call) => StepDecreases(s, x, Do(s.End(x), call).e, [], s.Inc(x));
  }

  /** The step that side `x` is waiting for. */
  function Due(s: System, x: Side): Action {
    if Offers(s.End(x)) then User(x, TakeOffer)
    else if Waits(s.End(x)) then Proceed(x)
    else Deliver(x)
  }

  /** Handling never blocks but on an offer that nobody takes, as long as the bytes that arrive are read. */
  lemma DueEnabled(s: System, x: Side)
    requires Inv(s) && (s.Inc(x) != [] || Waits(s.End(x)))
    ensures Enabled(s, Due(s, x)) && Handling(Due(s, x))
    ensures s.Inc(x) != [] ==> (Enabled(s, Deliver(x)) <==> !Waits(s.End(x)))
  {
    assert BusyOk(s.End(x)) && Gate(s.End(x));
  }

  /** An offer that is not taken holds up every packet behind it, whatever else happens. */
  lemma {:induction false} OfferBlocks(s: System, x: Side, acts: seq<Action>)
    requires Offers(s.End(x)) && CodeRun(s, acts)
    requires forall k | 0 <= k < |acts| :: acts[k] != User(x, TakeOffer)
    ensures Offers(Exec(s, acts).End(x)) && s.Inc(x) <= Exec(s, acts).Inc(x)
    decreases |acts|
  {
    if acts != [] {
      OfferStays(s, x, acts[0]);
      hide Next, Enabled;
      OfferBlocks(Next(s, acts[0]), x, acts[1..]);
    }
  }

  lemma OfferStays(s: System, x: Side, act: Action)
    requires Offers(s.End(x)) && Enabled(s, act) && act != User(x, TakeOffer)
    ensures Offers(Next(s, act).End(x)) && s.Inc(x) <= Next(s, act).Inc(x)
  {
    hide OnConn, AgentConnection.HandleClose, HandleData, HandleError, ApplySuccess, Fresh, Reject;
  }

  lemma MeasureBounds(s: System)
    requires Inv(s)
    ensures Measure(s) >= 0
    ensures Measure(s) == 0 ==> s.ab == [] && s.ba == [] && s.a.busy.None? && s.b.busy.None?
  {
  }

  predicate OnlyHandling(acts: seq<Action>) {
    forall k | 0 <= k < |acts| :: Handling(acts[k])
  }

  predicate Closing(c: Conn) { c.state.WaitClose? || c.state.Closed? }

  /** A closing connection is not revived, and no CLOSE becomes owed. */
  ghost predicate Settles(c: Conn, c': Conn) {
    (Closing(c) ==> Closing(c')) && (c.state.Closed? ==> c'.state.Closed?) && c'.shut.owed == c.shut.owed
  }

  lemma EffectSettles(c: Conn, p: Packet)
    requires p.Data? || p.Close? || p.Error?
    ensures Settles(c, WholeEffect(c, p).conn)
  {
    hide CloseImm;
    match p
    case Data(_, payload) => if c.state.Started? && !c.io.closed {} else { assert HandleData(c, payload) == c; }
    case Close(_) => ClosedSettles(Heard(c));
    case Error(_) => ClosedSettles(Took(c));
  }

  lemma ClosedSettles(c: Conn)
    ensures CloseImm(c).state.Closed? && CloseImm(c).shut == c.shut
  {
  }

  lemma SuccessSettles(c: Conn, seen: State)
    requires seen.WaitInit? ==> c.state.WaitInit?
    ensures Settles(c, ApplySuccess(c, seen))
  {
    if seen.WaitClose? {
      assert ApplySuccess(c, seen) == CloseImm(Took(c));
    } else if !seen.WaitInit? {
      assert ApplySuccess(c, seen) == Took(c);
    }
  }

  ghost predicate SettlesAll(e: Endpoint, e': Endpoint) {
    && e'.ids.unannounced == e.ids.unannounced
    && (forall i | i in e.conns :: i in e'.conns && Settles(e.conns[i], e'.conns[i]))
    && (forall i | i in e'.conns && i !in e.conns :: !e'.conns[i].shut.owed)
  }

  lemma LiftSettles(e: Endpoint, i: nat, f: Effect)
    requires i in e.conns && Settles(e.conns[i], f.conn)
    ensures SettlesAll(e, Lift(e, i, f).e)
  {
  }

  lemma ReceiveSettles(e: Endpoint, p: Packet)
    requires EndInv(e) && InOrder(e, p)
    ensures SettlesAll(e, Receive(e, p).e)
  {
    assert BusyOk(e);
    hide HandleData, AgentConnection.HandleClose, HandleError, ApplySuccess, EndInv, Settles;
    match p
    case NoMore => SettlesSame(e, Receive(e, p).e);
    case Unknown(_) => SettlesSame(e, e);
    case New(id, details) => NewSettles(e, id, details);
    case Success(id) =>
      if id in e.conns && Reads(e) {
        SuccessSettles(e.conns[id], e.busy.value.seen);
        LiftSettles(e.(busy := None), id, Effect(ApplySuccess(e.conns[id], e.busy.value.seen), []));
      } else {
        SettlesSame(e, Receive(e, p).e);
      }
    case _ =>
      if p.id in e.conns {
        EffectSettles(e.conns[p.id], p);
        PacketLift(e, p, p.id);
        LiftSettles(e, p.id, WholeEffect(e.conns[p.id], p));
      } else {
        SettlesSame(e, Receive(e, p).e);
      }
  }

  lemma NewSettles(e: Endpoint, id: nat, details: Option<Details>)
    ensures SettlesAll(e, HandleNew(e, id, details))
  {
  }

  lemma HandlingSettles(s: System, act: Action, x: Side)
    requires Inv(s) && Enabled(s, act) && Handling(act)
    ensures SettlesAll(s.End(x), Next(s, act).End(x))
  {
    hide SettlesAll, Receive, Resume, Inv;
    if act.Deliver? && x == act.x { DeliverSettles(s, x); }
    if act.Proceed? && x == act.x { ResumeSettles(s.End(x)); }
    SettlesSame(s.End(x), Next(s, act).End(x));
  }

  lemma DeliverSettles(s: System, x: Side)
    requires Inv(s) && Enabled(s, Deliver(x))
    ensures SettlesAll(s.End(x), Receive(s.End(x), s.Inc(x)[0]).e)
  {
    hide SettlesAll, Receive;
    ReceiveSettles(s.End(x), s.Inc(x)[0]);
  }

  lemma SettlesSame(e: Endpoint, e': Endpoint)
    ensures e'.ids.unannounced == e.ids.unannounced && e'.conns == e.conns ==> SettlesAll(e, e')
  {
  }

  lemma ResumeSettles(e: Endpoint)
    requires CanResume(e)
    ensures SettlesAll(e, Resume(e).e)
  {
  }

  ghost predicate NothingOwed(e: Endpoint) {
    e.ids.unannounced == map[] && forall i | i in e.conns :: !e.conns[i].shut.owed
  }

  /** Without new calls, handling what is in flight ends after a bounded number of steps, whatever the
      order, provided that offers are taken; until then some step can be made; when both pipes are empty the
      ends agree; and every connection that was closing, at either end, is then CLOSED. */
  lemma {:induction false} ClosesComplete(s: System, acts: seq<Action>, y: Side, i: nat)
    requires Inv(s) && NothingOwed(s.a) && NothingOwed(s.b)
    requires CodeRun(s, acts) && OnlyHandling(acts)
    ensures |acts| <= Measure(s)
    ensures var s' := Exec(s, acts);
      && (forall x: Side | s'.Inc(x) != [] || Waits(s'.End(x)) :: Enabled(s', Due(s', x)))
      && (s'.ab == [] && s'.ba == [] ==>
            Agree(s') && (i in s.End(y).conns && Closing(s.End(y).conns[i]) ==>
                            i in s'.a.conns && s'.a.conns[i].state.Closed? && s'.b.conns[i].state.Closed?))
    decreases |acts|
  {
    hide Next, Enabled, Inv, Measure, Due, Agree, Settles;
    MeasureBounds(s);
    if acts == [] {
      if s.ab == [] && s.ba == [] { QuietCloses(s, y, i); }
      forall x: Side | s.Inc(x) != [] || Waits(s.End(x)) ensures Enabled(s, Due(s, x)) { DueEnabled(s, x); }
    } else {
      HandlingDecreases(s, acts[0]);
      HandlingCloses(s, acts[0], y, i);
      NextKeeps(s, acts[0]);
      ClosesComplete(Next(s, acts[0]), acts[1..], y, i);
    }
  }

  lemma QuietCloses(s: System, y: Side, i: nat)
    requires Inv(s) && NothingOwed(s.a) && NothingOwed(s.b) && s.ab == [] && s.ba == []
    ensures Agree(s)
    ensures i in s.End(y).conns && Closing(s.End(y).conns[i]) ==>
      i in s.a.conns && i in s.b.conns && s.a.conns[i].state.Closed? && s.b.conns[i].state.Closed?
  {
    InvAgrees(s);
    hide Inv;
    assert s.a.conns.Keys == s.b.conns.Keys;
    assert forall j :: j in s.a.conns <==> j in s.a.conns.Keys;
    assert forall j :: j in s.b.conns <==> j in s.b.conns.Keys;
  }

  /** A handling step leaves nothing owed, and a closing connection closing. */
  lemma HandlingCloses(s: System, act: Action, y: Side, i: nat)
    requires Inv(s) && Enabled(s, act) && Handling(act) && NothingOwed(s.a) && NothingOwed(s.b)
    ensures NothingOwed(Next(s, act).a) && NothingOwed(Next(s, act).b)
    ensures i in s.End(y).conns && Closing(s.End(y).conns[i]) ==>
      i in Next(s, act).End(y).conns && Closing(Next(s, act).End(y).conns[i])
  {
    HandlingSettles(s, act, A);
    HandlingSettles(s, act, B);
    hide Next, Inv, Enabled;
    OwesNothing(s.a, Next(s, act).a);
    OwesNothing(s.b, Next(s, act).b);
  }

  lemma OwesNothing(e: Endpoint, e': Endpoint)
    requires NothingOwed(e) && SettlesAll(e, e')
    ensures NothingOwed(e')
  {
  }

  /** An end in WAITCLOSE has its CLOSE, or an answer to it, on the way. */
  lemma CloseInFlight(s: System, x: Side, i: nat)
    requires Reachable(s) && i in s.End(x).conns && s.End(x).conns[i].state.WaitClose?
    ensures s.End(x).conns[i].shut.owed || Packet.Close(i) in s.Out(x) || Success(i) in s.Inc(x) || Error(i) in s.Inc(x)
  {
    ReachableInv(s);
    assert LinkInv(s, i);
    ProjOnly(s.Out(x), i);
    ProjOnly(s.Inc(x), i);
    var out, inc := Proj(s.Out(x), i), Proj(s.Inc(x), i);
    if i in s.a.conns && i in s.b.conns {
      LinkBoth(s, x, i);
      PairProgress(s.End(x).conns[i], s.End(Other(x)).conns[i], out, inc);
      if Closes(out) > 0 { HasClose(out); } else if Replies(inc) > 0 { HasReply(inc); }
    } else if !s.End(x).conns[i].shut.owed {
      assert out[1] == Packet.Close(i);
    }
  }

  lemma {:induction false} HasClose(w: seq<Packet>)
    requires Closes(w) > 0
    ensures exists p :: p in w && p.Close?
  {
    if w[0].Close? { assert w[0] in w; } else { HasClose(w[1..]); var p :| p in w[1..] && p.Close?; assert p in w; }
  }

  lemma {:induction false} HasReply(w: seq<Packet>)
    requires Replies(w) > 0
    ensures exists p :: p in w && (p.Success? || p.Error?)
  {
    if w[0].Success? || w[0].Error? {
      assert w[0] in w;
    } else {
      HasReply(w[1..]);
      var p :| p in w[1..] && (p.Success? || p.Error?);
      assert p in w;
    }
  }

  /** Connections rejected at this endpoint. */
  ghost function Rejections(conns: map<nat, Conn>): set<nat> {
    set i | i in conns && conns[i].answer.rejected
  }

  /** Since `was`, only connections have come in that are on their way to being rejected. */
  ghost predicate OnlyLate(was: Endpoint, e: Endpoint) {
    && e.door.stopped
    && forall i | i in e.conns && i !in was.conns ::
         (Is(e, Arriving(i)) && e.conns[i].state.WaitInit?) || e.conns[i].state.Closed?
  }

  lemma PacketLate(was: Endpoint, e: Endpoint, p: Packet)
    requires EndInv(e) && InOrder(e, p) && OnlyLate(was, e)
    ensures OnlyLate(was, Receive(e, p).e)
  {
    ReceiveSettles(e, p);
    NewLate(e, p);
    hide Receive, EndInv, InOrder;
  }

  /** A connection comes in only as the one that is arriving; no other is. */
  lemma NewLate(e: Endpoint, p: Packet)
    requires InOrder(e, p)
    ensures Receive(e, p).e.door.stopped == e.door.stopped
    ensures forall i | i in Receive(e, p).e.conns && i !in e.conns ::
      Is(Receive(e, p).e, Arriving(i)) && Receive(e, p).e.conns[i].state.WaitInit?
    ensures forall i | i in e.conns :: !Is(e, Arriving(i))
  {
    hide HandleData, AgentConnection.HandleClose, HandleError, ApplySuccess;
  }

  lemma HandlingLate(was: Endpoint, s: System, act: Action, y: Side)
    requires Inv(s) && Enabled(s, act) && Handling(act) && OnlyLate(was, s.End(y))
    ensures OnlyLate(was, Next(s, act).End(y))
  {
    assert EndInv(s.End(y)) && Gate(s.End(y));
    hide Inv, EndInv, Receive, Resume;
    if act.x == y {
      match act
      case Deliver(_) => PacketLate(was, s.End(y), s.Inc(y)[0]);
      case Proceed(_) => ProceedLate(was, s.End(y));
      case User(_, _) =>
    }
  }

  lemma ProceedLate(was: Endpoint, e: Endpoint)
    requires CanResume(e) && OnlyLate(was, e) && EndInv(e)
    ensures OnlyLate(was, Resume(e).e)
  {
    if e.busy.value.Arriving? {
      var id := e.busy.value.id;
      assert id in e.conns && !e.conns[id].initiator;
    }
  }

  lemma HandlingDisciplined(s: System, act: Action)
    requires Handling(act)
    ensures Disciplined(s, act)
  {
  }

  lemma {:induction false} HandlingKeeps(was: Endpoint, s: System, acts: seq<Action>, y: Side)
    requires Inv(s) && CodeRun(s, acts) && OnlyHandling(acts) && OnlyLate(was, s.End(y))
    ensures Inv(Exec(s, acts)) && OnlyLate(was, Exec(s, acts).End(y))
    decreases |acts|
  {
    hide Next, Enabled, Inv, OnlyLate, Disciplined, CodeRun, Exec;
    RunSplit(s, acts);
    if acts != [] {
      HandlingDisciplined(s, acts[0]);
      NextKeeps(s, acts[0]);
      HandlingLate(was, s, acts[0], y);
      HandlingKeeps(was, Next(s, acts[0]), acts[1..], y);
    }
  }

  /** Where `Kill` begins to wait: the endpoint is stopped and `Close` was called on every connection. */
  ghost predicate Killed(e: Endpoint) {
    e.door.stopped && forall i | i in e.conns :: Closing(e.conns[i])
  }

  /** After `Kill` has stopped an endpoint and closed its connections, and everything in flight has been
      handled, its wait group is the number of connections that it has rejected. */
  lemma {:induction false} KillCompletes(s: System, acts: seq<Action>, y: Side)
    requires Reachable(s) && NothingOwed(s.a) && NothingOwed(s.b)
    requires Killed(s.End(y)) && !Waits(s.End(y))
    requires CodeRun(s, acts) && OnlyHandling(acts)
    requires var s' := Exec(s, acts); s'.ab == [] && s'.ba == [] && s'.End(y).busy.None?
    ensures Exec(s, acts).End(y).wg == |Rejections(Exec(s, acts).End(y).conns)|
    ensures y == A ==> Exec(s, acts).a.wg == 0
  {
    ReachableInv(s);
    var s' := Exec(s, acts);
    var e := s'.End(y);
    HandlingKeeps(s.End(y), s, acts, y);
    forall i | i in e.conns ensures e.conns[i].state.Closed? {
      if i in s.End(y).conns { ClosesComplete(s, acts, y, i); }
    }
    hide CodeRun, Exec, Reachable, Agree, Measure;
    ClosedHolders(s', y);
  }

  lemma ClosedHolders(s: System, y: Side)
    requires Inv(s) && forall i | i in s.End(y).conns :: s.End(y).conns[i].state.Closed?
    ensures s.End(y).wg == |Rejections(s.End(y).conns)| && (y == A ==> s.a.wg == 0)
  {
    var conns := s.End(y).conns;
    assert Holders(conns) == Rejections(conns);
    if y == A {
      forall i | i in conns ensures !conns[i].answer.rejected { assert LinkInv(s, i); }
      assert Rejections(conns) == {};
    }
  }

  /** The action is not on connection `i`. */
  predicate Elsewhere(s: System, act: Action, i: nat)
    requires Enabled(s, act)
  {
    match act
    case User(x, call) => CallsElsewhere(s.End(x), call, i)
    case Deliver(x) => !Names(s.Inc(x)[0], i)
    case Proceed(x) => !Is(s.End(x), Arriving(i))
  }

  predicate CallsElsewhere(e: Endpoint, call: Call, i: nat) {
    match call
    case RegisterConn(_, _) => NextId(e.ids.counter) != i
    case TakeOffer => true
    case NoMoreConnections => true
    case _ => call.id != i
  }

  ghost predicate SameConn(e: Endpoint, e': Endpoint, i: nat) {
    && (i in e'.conns <==> i in e.conns)
    && (i in e.conns ==> e'.conns[i] == e.conns[i])
  }

  /** Multiplexing isolates connections: an action on one connection changes neither end of another nor
      the packets of the other that are in flight. */
  lemma {:induction false} Isolation(s: System, act: Action, i: nat)
    requires Enabled(s, act) && Elsewhere(s, act, i)
    ensures var s' := Next(s, act);
      && Proj(s'.ab, i) == Proj(s.ab, i) && Proj(s'.ba, i) == Proj(s.ba, i)
      && SameConn(s.a, s'.a, i) && SameConn(s.b, s'.b, i)
  {
    hide Do, Receive, Resume, Proj;
    var x := act.x;
    match act
    case User(_, call) => CallElsewhere(s.End(x), call, i); AppendAll(s.Out(x), Do(s.End(x), call).sent, i);
    case Deliver(_) =>
      ReceiveElsewhere(s.End(x), s.Inc(x)[0], i);
      AppendAll(s.Out(x), Receive(s.End(x), s.Inc(x)[0]).sent, i);
      ProjTail(s.Inc(x), i);
    case Proceed(_) =>
      ResumeElsewhere(s.End(x), i);
      AppendAll(s.Out(x), Resume(s.End(x)).sent, i);
  }

  lemma {:induction false} ProjTail(q: seq<Packet>, i: nat)
    ensures q != [] && !Names(q[0], i) ==> Proj(q[1..], i) == Proj(q, i)
  {
  }

  ghost predicate SameAt(e: Endpoint, r: Out, i: nat) {
    && SameConn(e, r.e, i)
    && |r.sent| <= 1 && forall p | p in r.sent :: !Names(p, i)
  }

  lemma CallElsewhere(e: Endpoint, call: Call, i: nat)
    requires Possible(e, call) && CallsElsewhere(e, call, i)
    ensures SameAt(e, Do(e, call), i)
  {
    if OnConnection(call) { CallSends(e.conns[call.id], call); hide OnConn; }
  }

  lemma ReceiveElsewhere(e: Endpoint, p: Packet, i: nat)
    requires !Names(p, i) && !Waits(e)
    ensures SameAt(e, Receive(e, p), i)
  {
    hide CloseImm, HandleData, HandleError, ApplySuccess, Fresh;
  }

  lemma ResumeElsewhere(e: Endpoint, i: nat)
    requires CanResume(e) && !Is(e, Arriving(i))
    ensures SameAt(e, Resume(e), i)
  {
  }
}
