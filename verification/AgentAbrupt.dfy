/** What becomes of a connection when `CloseImm` is called at an end that is not closing, so that its peer is
    told nothing. */
module AgentAbrupt {
  import opened Wrappers
  import opened AgentConnection
  import opened AgentWords
  import opened AgentPair
  import opened AgentEndpoint
  import opened AgentSystem
  import opened AgentTheorems
  import opened AgentTwin
  import opened AgentParting
  import opened AgentRevival

  // The system is compared with one in which `Close` came before `CloseImm`, and never got to write its packet.

  function Marked(c: Conn): Conn { c.(shut := c.shut.(owed := true, began := true)) }

  function MarkEnd(e: Endpoint, i: nat): Endpoint
    requires i in e.conns
  {
    e.(conns := e.conns[i := Marked(e.conns[i])])
  }

  function Mark(s: System, x: Side, i: nat): System
    requires i in s.End(x).conns
  {
    s.With(x, MarkEnd(s.End(x), i), s.Out(x), s.Inc(x))
  }

  /** Connection `i` was closed at `x` without a word. */
  ghost predicate Forced(s: System, x: Side, i: nat) {
    && i in s.End(x).conns && Inv(Mark(s, x, i)) && i !in s.a.ids.unannounced
    && var c := s.End(x).conns[i]; c.state.Closed? && !c.shut.owed && !c.answer.rejected
  }

  lemma MarkTwins(s: System, x: Side, i: nat)
    requires i in s.End(x).conns
    ensures TwinSystems(s, Mark(s, x, i), x, i, 0)
  {
    hide Marked;
  }

  /** A step that is not on the connection. */
  lemma ForcedElsewhere(s: System, act: Action, x: Side, i: nat)
    requires Forced(s, x, i) && Enabled(s, act) && Finishing(act) && !Own(s, act, x, i)
    ensures Enabled(Mark(s, x, i), act) && Forced(Next(s, act), x, i)
    ensures Mark(Next(s, act), x, i) == Next(Mark(s, x, i), act)
  {
    hide Next, Enabled, Inv, Marked;
    var h := Mark(s, x, i);
    MarkTwins(s, x, i);
    TwinStep(s, h, act, x, i, 0);
    InvAlive(Next(h, act));
    StillAnnounced(s, act, i);
  }

  // Steps on the connection. A CLOSED connection only counts what it hears.

  lemma ClosedPacket(c: Conn, id: nat, payload: Bytes, seen: State)
    requires c.state.Closed? && !seen.WaitInit?
    ensures Marked(c).state.Closed? && HandleData(c, payload) == c && HandleData(Marked(c), payload) == Marked(c)
    ensures HandleClose(c, id) == Effect(Heard(c), [Error(id)])
    ensures HandleClose(Marked(c), id) == Effect(Marked(Heard(c)), [Error(id)])
    ensures HandleError(c) == ApplySuccess(c, seen) == Took(c)
    ensures HandleError(Marked(c)) == ApplySuccess(Marked(c), seen) == Marked(Took(c))
    ensures Reject(c, id) == Effect(c, []) && Reject(Marked(c), id) == Effect(Marked(c), [])
  {
    var m := Marked(c);
    assert Marked(Took(c)) == Took(m) && Marked(Heard(c)) == Heard(m);
    if seen.WaitClose? {} else if seen.Started? {} else {}
  }

  /** What `r` is after a step of the forced end, `q` is of the marked one. */
  ghost predicate Follows(r: Out, q: Out, i: nat) {
    && i in r.e.conns && q.e == MarkEnd(r.e, i) && r.sent == q.sent && r.done == q.done
    && r.e.conns[i].state.Closed? && !r.e.conns[i].shut.owed && !r.e.conns[i].answer.rejected
  }

  lemma LiftFollows(e: Endpoint, i: nat, c: Conn, sent: seq<Packet>)
    requires i in e.conns && c.tally == e.conns[i].tally
    requires c.state.Closed? && !c.shut.owed && !c.answer.rejected
    ensures Follows(Lift(e, i, Effect(c, sent)), Lift(MarkEnd(e, i), i, Effect(Marked(c), sent)), i)
  {
    assert e.conns[i := Marked(e.conns[i])][i := Marked(c)] == e.conns[i := c][i := Marked(c)];
  }

  lemma IdleMark(e: Endpoint, i: nat)
    requires i in e.conns
    ensures MarkEnd(e, i).(busy := None) == MarkEnd(e.(busy := None), i)
  {
  }

  lemma OwnSuccess(e: Endpoint, i: nat)
    requires i in e.conns && InOrder(e, Success(i)) && !Racing(e, i)
    requires e.conns[i].state.Closed? && !e.conns[i].shut.owed && !e.conns[i].answer.rejected
    ensures Follows(HandleSuccess(e, i), HandleSuccess(MarkEnd(e, i), i), i)
  {
    var c := e.conns[i];
    ClosedPacket(c, i, [], if Reads(e) then e.busy.value.seen else Closed);
    assert Took(c).tally == c.tally;
    hide ApplySuccess, Marked;
    if Reads(e) {
      IdleMark(e, i);
      LiftFollows(e.(busy := None), i, Took(c), []);
    }
  }

  lemma OwnReceive(e: Endpoint, p: Packet, i: nat)
    requires i in e.conns && Names(p, i) && InOrder(e, p) && !Racing(e, i)
    requires e.conns[i].state.Closed? && !e.conns[i].shut.owed && !e.conns[i].answer.rejected
    ensures !Waits(MarkEnd(e, i)) && Follows(Receive(e, p), Receive(MarkEnd(e, i), p), i)
  {
    hide HandleData, AgentConnection.HandleClose, HandleError, ApplySuccess, Marked, Lift, HandleSuccess;
    var c := e.conns[i];
    ClosedPacket(c, i, if p.Data? then p.payload else [], if Reads(e) then e.busy.value.seen else Closed);
    assert Heard(c).tally == Took(c).tally == c.tally;
    match p
    case Data(_, _) => LiftFollows(e, i, c, []);
    case Close(_) => LiftFollows(e, i, Heard(c), [Error(i)]);
    case Error(_) => LiftFollows(e, i, Took(c), []);
    case Success(_) => OwnSuccess(e, i);
    case New(_, _) =>
  }

  lemma OwnResume(e: Endpoint, i: nat)
    requires CanResume(e) && Is(e, Arriving(i))
    requires e.conns[i].state.Closed? && !e.conns[i].shut.owed && !e.conns[i].answer.rejected
    ensures CanResume(MarkEnd(e, i)) && Follows(Resume(e), Resume(MarkEnd(e, i)), i)
  {
    var c := e.conns[i];
    ClosedPacket(c, i, [], Closed);
    hide Reject, Marked;
    IdleMark(e, i);
    LiftFollows(e.(busy := None), i, c, []);
  }

  lemma ForcedOwn(s: System, act: Action, x: Side, i: nat)
    requires Forced(s, x, i) && Enabled(s, act) && Finishing(act) && Own(s, act, x, i)
    ensures Enabled(Mark(s, x, i), act) && Forced(Next(s, act), x, i)
    ensures Mark(Next(s, act), x, i) == Next(Mark(s, x, i), act)
  {
    hide Inv, Receive, Resume, MarkEnd, Marked;
    var e, h := s.End(x), Mark(s, x, i);
    OwnFacts(s, x, i);
    StillAnnounced(s, act, i);
    if act.Deliver? {
      OwnReceive(e, s.Inc(x)[0], i);
      MarkCan(e, s.Inc(x)[0], i);
    } else {
      OwnResume(e, i);
    }
    FinishingKeeps(h, act);
  }

  lemma MarkCan(e: Endpoint, p: Packet, i: nat)
    requires i in e.conns && CanReceive(e, p)
    ensures CanReceive(MarkEnd(e, i), p)
  {
  }

  lemma OwnFacts(s: System, x: Side, i: nat)
    requires Forced(s, x, i)
    ensures !Racing(s.End(x), i) && (s.Inc(x) != [] && !Waits(s.End(x)) ==> InOrder(s.End(x), s.Inc(x)[0]))
  {
    var h := Mark(s, x, i);
    assert BusyInv(h.End(x), h.Inc(x)) && BusyOk(h.End(x));
  }

  lemma ForcedStep(s: System, act: Action, x: Side, i: nat)
    requires Forced(s, x, i) && Enabled(s, act) && Finishing(act)
    ensures Enabled(Mark(s, x, i), act) && Forced(Next(s, act), x, i)
    ensures Mark(Next(s, act), x, i) == Next(Mark(s, x, i), act)
  {
    if Own(s, act, x, i) { ForcedOwn(s, act, x, i); } else { ForcedElsewhere(s, act, x, i); }
  }

  /** `CloseImm` on an announced connection that is not closing, when the handler is not about to revive it. */
  lemma ForcedBegins(s: System, x: Side, i: nat)
    requires Inv(s) && i in s.End(x).conns && i !in s.a.ids.unannounced && !Racing(s.End(x), i)
    requires s.End(x).conns[i].state.WaitInit? || s.End(x).conns[i].state.Started?
    ensures Enabled(s, User(x, ForceClose(i))) && Forced(Next(s, User(x, ForceClose(i))), x, i)
  {
    hide Inv, Next, Enabled, Disciplined, Local, Do;
    InvAlive(s);
    LocalAt(s, x, i);
    ForceMarks(s.End(x), i);
    MayClose(s, x, i);
    CloseNext(s, x, i);
    NextKeeps(s, User(x, StartClose(i)));
    var s1 := Next(s, User(x, StartClose(i)));
    InvAlive(s1);
    MayForce(s1, x, i);
    CloseNext(s1, x, i);
    NextKeeps(s1, User(x, ForceClose(i)));
    MarkNext(s, s1, x, i);
  }

  /** `Close`, and `CloseImm` after it, are intended use. */
  lemma MayClose(s: System, x: Side, i: nat)
    requires Inv(s) && i in s.End(x).conns && i !in s.a.ids.unannounced && !Racing(s.End(x), i) && !Dead(s.End(x))
    ensures Enabled(s, User(x, StartClose(i))) && Enabled(s, User(x, ForceClose(i)))
    ensures Disciplined(s, User(x, StartClose(i)))
  {
  }

  lemma MayForce(s: System, x: Side, i: nat)
    requires Inv(s) && i in s.End(x).conns && i !in s.a.ids.unannounced && !Racing(s.End(x), i) && !Dead(s.End(x))
    requires s.End(x).conns[i].state.WaitClose?
    ensures Enabled(s, User(x, ForceClose(i))) && Disciplined(s, User(x, ForceClose(i)))
  {
  }

  /** Closing at one end, as far as the rest of the system goes. */
  lemma CloseNext(s: System, x: Side, i: nat)
    requires i in s.End(x).conns && !Dead(s.End(x))
    ensures Enabled(s, User(x, StartClose(i))) && Enabled(s, User(x, ForceClose(i)))
    ensures var r := Do(s.End(x), StartClose(i));
      r.sent == [] ==> Next(s, User(x, StartClose(i))) == s.With(x, r.e, s.Out(x), s.Inc(x))
    ensures var r := Do(s.End(x), ForceClose(i));
      r.sent == [] ==> Next(s, User(x, ForceClose(i))) == s.With(x, r.e, s.Out(x), s.Inc(x))
  {
    hide Do;
    assert s.Out(x) + [] == s.Out(x);
  }

  lemma MarkNext(s: System, s1: System, x: Side, i: nat)
    requires i in s.End(x).conns && !Dead(s.End(x)) && i in s1.End(x).conns && !Dead(s1.End(x))
    requires s1 == s.With(x, s1.End(x), s.Out(x), s.Inc(x)) && Do(s.End(x), ForceClose(i)).sent == []
    requires var r, q := Do(s.End(x), ForceClose(i)), Do(s1.End(x), ForceClose(i));
      Follows(Out(r.e, [], true), Out(q.e, [], true), i) && q.sent == []
    ensures Enabled(s, User(x, ForceClose(i))) && Enabled(s1, User(x, ForceClose(i)))
    ensures var t := Next(s, User(x, ForceClose(i)));
      && i in t.End(x).conns && Mark(t, x, i) == Next(s1, User(x, ForceClose(i)))
      && t.End(x) == Do(s.End(x), ForceClose(i)).e && (x == B ==> t.a == s.a)
  {
    hide Do, Next, Marked;
    CloseNext(s, x, i);
    CloseNext(s1, x, i);
  }

  lemma LocalAt(s: System, x: Side, i: nat)
    requires Inv(s) && i in s.End(x).conns
    ensures Local(s.End(x).conns[i]) && (x == A ==> s.End(x).conns[i].initiator)
    ensures i !in s.End(x).ids.unannounced || x == A
  {
    assert LinkInv(s, i);
  }

  /** The forced close alone, and after `Close`. */
  lemma ForceMarks(e: Endpoint, i: nat)
    requires i in e.conns && !Dead(e) && Local(e.conns[i])
    requires e.conns[i].state.WaitInit? || e.conns[i].state.Started?
    ensures var e1 := Do(e, StartClose(i)).e;
      && i in e1.conns && e1.conns[i].state.WaitClose? && e1.busy == e.busy && e1.ids == e.ids
      && (!Dead(e1) ==>
            var r, q := Do(e, ForceClose(i)), Do(e1, ForceClose(i));
            Follows(Out(r.e, [], true), Out(q.e, [], true), i) && q.sent == [] && r.e.ids == e.ids)
    ensures Do(e, StartClose(i)).sent == Do(e, ForceClose(i)).sent == []
  {
    var c := e.conns[i];
    var b, f := BeginClose(c), CloseImm(c);
    assert CloseImm(b) == Marked(f);
    assert e.conns[i := b][i := Marked(f)] == e.conns[i := f][i := Marked(f)];
    hide CloseImm, BeginClose, Marked;
  }

  // From the forced close to the end.

  lemma {:induction false} ForcedRun(s: System, x: Side, i: nat, acts: seq<Action>)
    requires Forced(s, x, i) && CodeRun(s, acts) && forall k | 0 <= k < |acts| :: Finishing(acts[k])
    ensures Forced(Exec(s, acts), x, i) && (Parts(Exec(s, acts), x, i) <==> Parts(s, x, i))
    decreases |acts|
  {
    hide Next, Enabled, Inv, CodeRun, Exec, Parts;
    RunSplit(s, acts);
    if acts != [] {
      ForcedStep(s, acts[0], x, i);
      PartsStep(s, Mark(s, x, i), acts[0], x, i);
      hide Forced;
      ForcedRun(Next(s, acts[0]), x, i, acts[1..]);
    }
  }

  /** With nothing in flight the peer is CLOSED exactly if it has begun to close or has rejected. */
  lemma MarkedEnds(x: Conn, y: Conn)
    requires Both(x, y, [], []) && x.state.Closed? && x.shut.owed && !x.answer.rejected && !y.shut.owed
    ensures y.state.Closed? <==> y.shut.began || y.answer.rejected
  {
  }

  lemma ForcedEnds(s: System, x: Side, i: nat)
    requires Forced(s, x, i) && Over(s)
    ensures !Dead(s.End(x)) && (Agree(s) <==> Parts(s, x, i))
  {
    hide Inv, Agree;
    MarkTwins(s, x, i);
    OthersAgree(s, Mark(s, x, i), x, i, 0);
    PeerEnds(s, x, i);
  }

  lemma PeerEnds(s: System, x: Side, i: nat)
    requires Forced(s, x, i) && Over(s)
    ensures var e := s.End(Other(x));
      !Dead(s.End(x)) && i in e.conns && (Parts(s, x, i) <==> e.conns[i].state.Closed?)
  {
    var h := Mark(s, x, i);
    var o := Other(x);
    InvAlive(h);
    assert LinkInv(h, i);
    LinkBoth(h, x, i);
    MarkedEnds(h.End(x).conns[i], h.End(o).conns[i]);
    hide Both, Marked, Inv, LinkInv;
  }

  // A connection that has not been announced yet.

  /** `CloseImm` was called on connection `i`, which the peer cannot know. */
  ghost predicate Unheard(s: System, h: System, i: nat) {
    && Inv(h) && i in h.a.ids.unannounced
    && Enabled(h, User(A, ForceClose(i))) && s == Next(h, User(A, ForceClose(i)))
  }

  /** Twins that differ by a forced close are a system and the same after it. */
  lemma TwinsForce(s: System, h: System, i: nat)
    requires Inv(h) && TwinSystems(s, h, A, i, 1) && !h.a.conns[i].state.Closed? && s.a.busy == h.a.busy
    requires s.a.conns[i] == CloseImm(h.a.conns[i])
    ensures Enabled(h, User(A, ForceClose(i))) && s == Next(h, User(A, ForceClose(i)))
  {
    hide Inv, Next, Enabled, CloseImm;
    ForceTwins(h, i);
    var t := Next(h, User(A, ForceClose(i)));
    assert s.a.conns == h.a.conns[i := s.a.conns[i]] && t.a.conns == h.a.conns[i := t.a.conns[i]];
  }

  lemma UnheardFacts(s: System, h: System, i: nat)
    requires Unheard(s, h, i)
    ensures TwinSystems(s, h, A, i, 1) && s.a.busy == h.a.busy && s.a.conns[i] == CloseImm(h.a.conns[i])
    ensures h.a.conns[i].state.WaitInit? && !s.a.conns[i].shut.owed && !Is(s.a, Arriving(i)) && !ReadsOf(s.a, i)
    ensures s.ba != [] ==> !Names(s.ba[0], i)
  {
    assert LinkInv(h, i) && BusyOk(h.a) && BusyInv(h.a, h.ba);
    assert Proj(h.ba, i) == [];
    assert i in h.a.conns && !h.a.conns[i].state.Closed?;
    ForceTwins(h, i);
    hide Inv, Next;
  }

  lemma UnheardOther(s: System, h: System, act: Action, i: nat)
    requires Unheard(s, h, i) && Enabled(s, act) && Finishing(act)
    ensures !Own(s, act, A, i) && Inv(h)
  {
    hide Inv;
    UnheardFacts(s, h, i);
  }

  lemma UnheardTwins(s: System, h: System, act: Action, i: nat)
    requires Unheard(s, h, i) && Enabled(s, act) && Finishing(act)
    ensures Enabled(h, act)
    ensures var s', h' := Next(s, act), Next(h, act);
      && Inv(h') && TwinSystems(s', h', A, i, 1) && s'.a.busy == h'.a.busy
      && h'.a.conns[i].state.WaitInit? && s'.a.conns[i] == CloseImm(h'.a.conns[i]) && !Racing(h'.a, i)
  {
    hide Next, Inv, Enabled, CloseImm, Unheard;
    UnheardFacts(s, h, i);
    UnheardOther(s, h, act, i);
    TwinStep(s, h, act, A, i, 1);
    HolderHere(Next(h, act), i);
  }

  lemma UnheardStep(s: System, h: System, act: Action, i: nat)
    requires Unheard(s, h, i) && Enabled(s, act) && Finishing(act)
    ensures Enabled(h, act) && (Unheard(Next(s, act), Next(h, act), i) || Forced(Next(s, act), A, i))
    ensures Parts(Next(s, act), A, i) == Parts(s, A, i)
  {
    hide Next, Inv, Enabled, CloseImm, Parts, Forced;
    UnheardTwins(s, h, act, i);
    UnheardFacts(s, h, i);
    PartsStep(s, h, act, A, i);
    TwinsForce(Next(s, act), Next(h, act), i);
    if i !in Next(h, act).a.ids.unannounced { ForcedBegins(Next(h, act), A, i); }
  }

  lemma {:induction false} UnheardRun(s: System, h: System, i: nat, acts: seq<Action>)
    requires Unheard(s, h, i) && CodeRun(s, acts) && forall k | 0 <= k < |acts| :: Finishing(acts[k])
    requires Over(Exec(s, acts))
    ensures Forced(Exec(s, acts), A, i) && (Parts(Exec(s, acts), A, i) <==> Parts(s, A, i))
    decreases |acts|
  {
    hide Next, Enabled, Inv, CodeRun, Exec, Parts, Forced;
    RunSplit(s, acts);
    UnheardFacts(s, h, i);
    if acts != [] {
      UnheardStep(s, h, acts[0], i);
      var s', h' := Next(s, acts[0]), Next(h, acts[0]);
      if Forced(s', A, i) { ForcedRun(s', A, i, acts[1..]); } else { UnheardRun(s', h', i, acts[1..]); }
    }
  }

  // The theorem.

  /** `CloseImm` at `x` does no harm: the peer closes or rejects of itself, or the handler is about to open the
      connection again and no bytes are on their way to it. */
  predicate Harmless(s: System, x: Side, i: nat) {
    Parts(s, x, i) || (x == A && Racing(s.a, i) && i in s.b.conns && s.b.conns[i].io.wrote == [])
  }

  /** Only the opener waits for an acceptance, and only it has connections to announce. */
  lemma AtOpener(s: System, x: Side, i: nat)
    requires Inv(s) && i in s.End(x).conns
    ensures Racing(s.End(x), i) || i in s.a.ids.unannounced ==> x == A
  {
    assert LinkInv(s, i);
    if Racing(s.End(x), i) {
      assert BusyInv(s.End(x), s.Inc(x));
      LinkBoth(s, x, i);
      PairReadSuccess(s.End(x).conns[i], s.End(Other(x)).conns[i], Proj(s.Out(x), i), Proj(s.Inc(x), i));
    }
  }

  /** The peer does not notice. */
  lemma ForceParts(s: System, x: Side, i: nat)
    requires Enabled(s, User(x, ForceClose(i)))
    ensures Parts(Next(s, User(x, ForceClose(i))), x, i) == Parts(s, x, i)
  {
    hide CloseImm;
    assert s.Out(x) + [] == s.Out(x);
  }

  lemma {:induction false} RevivalCase(s: System, i: nat, acts: seq<Action>)
    requires Inv(s) && Racing(s.a, i) && Enabled(s, User(A, ForceClose(i)))
    requires CodeRun(Next(s, User(A, ForceClose(i))), acts) && forall k | 0 <= k < |acts| :: Finishing(acts[k])
    requires Quiet(Exec(Next(s, User(A, ForceClose(i))), acts))
    ensures var t := Exec(Next(s, User(A, ForceClose(i))), acts);
      && i in s.b.conns && (Parts(s, A, i) <==> s.b.conns[i].shut.began)
      && if Dead(t.a) then s.b.conns[i].shut.began
         else Agree(t) <==> s.b.conns[i].shut.began || s.b.conns[i].io.wrote == []
  {
    hide CodeRun, Exec, Inv, Quiet, Agree, Alike, Next;
    var s1 := Next(s, User(A, ForceClose(i)));
    RevivalBegins(s, i);
    AcceptedParts(s, i);
    FrameAt(s, User(A, ForceClose(i)));
    var h := RevivalRun(s1, s, i, acts);
    if Exec(s1, acts).a.wg >= 0 {
      InvAlive(h);
      RevivalEnds(Exec(s1, acts), h, i);
    }
  }

  /** An acceptor that has accepted rejects no more. */
  lemma AcceptedParts(s: System, i: nat)
    requires Inv(s) && i in s.b.conns && s.b.conns[i].answer.accepted && i !in s.a.ids.unannounced
    ensures Parts(s, A, i) <==> s.b.conns[i].shut.began
  {
    assert LinkInv(s, i);
    LinkBoth(s, B, i);
    assert Local(s.b.conns[i]);
  }

  lemma {:induction false} UnheardCase(s: System, i: nat, acts: seq<Action>)
    requires Inv(s) && i in s.a.ids.unannounced && Enabled(s, User(A, ForceClose(i)))
    requires CodeRun(Next(s, User(A, ForceClose(i))), acts) && forall k | 0 <= k < |acts| :: Finishing(acts[k])
    requires Over(Exec(Next(s, User(A, ForceClose(i))), acts))
    ensures var t := Exec(Next(s, User(A, ForceClose(i))), acts);
      !Dead(t.a) && (Agree(t) <==> Parts(Next(s, User(A, ForceClose(i))), A, i))
  {
    hide CodeRun, Exec, Inv, Over, Agree, Forced, Next, Parts;
    var s1 := Next(s, User(A, ForceClose(i)));
    UnheardRun(s1, s, i, acts);
    ForcedEnds(Exec(s1, acts), A, i);
  }

  /** `CloseImm` on a connection that is not closing does no harm exactly if it is harmless when it is called:
      from every state in order, at either side, announced or not, and in any order of what finishes until
      nothing is left, the two sides then agree, and otherwise never; unless the wait group panics, which takes a
      handler that was about to open the connection and a peer that had begun to close it. */
  lemma {:induction false} AbruptIff(s: System, x: Side, i: nat, acts: seq<Action>)
    requires Inv(s) && i in s.End(x).conns && (s.End(x).conns[i].state.WaitInit? || s.End(x).conns[i].state.Started?)
    requires Enabled(s, User(x, ForceClose(i))) && CodeRun(Next(s, User(x, ForceClose(i))), acts)
    requires (forall k | 0 <= k < |acts| :: Finishing(acts[k])) && Over(Exec(Next(s, User(x, ForceClose(i))), acts))
    ensures var t := Exec(Next(s, User(x, ForceClose(i))), acts);
      if Dead(t.End(x)) then x == A && Racing(s.a, i) && i in s.b.conns && s.b.conns[i].shut.began
      else Agree(t) <==> Harmless(s, x, i)
  {
    hide CodeRun, Exec, Inv, Quiet, Parts, Agree, Forced, Next;
    var s1 := Next(s, User(x, ForceClose(i)));
    var t := Exec(s1, acts);
    AtOpener(s, x, i);
    ForceParts(s, x, i);
    if Racing(s.End(x), i) {
      RevivalCase(s, i, acts);
    } else if i in s.a.ids.unannounced {
      UnheardCase(s, i, acts);
    } else {
      ForcedBegins(s, x, i);
      ForcedRun(s1, x, i, acts);
      ForcedEnds(t, x, i);
    }
  }
}
