/** Two `ForwardCtx` endpoints joined by two reliable FIFO pipes, and the invariant of all their runs. */
module AgentSystem {
  import opened Wrappers
  import opened AgentConnection
  import opened AgentWords
  import opened AgentPair
  import opened AgentEndpoint

  /** `A` opens connections, `B` accepts them. */
  datatype Side = A | B

  datatype System = System(a: Endpoint, b: Endpoint, ab: seq<Packet>, ba: seq<Packet>) {
    function End(x: Side): Endpoint { if x == A then a else b }
    function Out(x: Side): seq<Packet> { if x == A then ab else ba }
    function Inc(x: Side): seq<Packet> { if x == A then ba else ab }

    function With(x: Side, e: Endpoint, out: seq<Packet>, inc: seq<Packet>): System {
      if x == A then System(e, b, out, inc) else System(a, e, inc, out)
    }
  }

  function Other(x: Side): Side { if x == A then B else A }

  const START := System(INITIAL, INITIAL, [], [])

  /** A user call at one side, or one side handling the next packet or going on with the last. */
  datatype Action = User(x: Side, call: Call) | Deliver(x: Side) | Proceed(x: Side)

  /** What the code allows. */
  predicate Enabled(s: System, act: Action) {
    match act
    case User(x, call) => Possible(s.End(x), call)
    case Deliver(x) => s.Inc(x) != [] && CanReceive(s.End(x), s.Inc(x)[0])
    case Proceed(x) => CanResume(s.End(x))
  }

  function Next(s: System, act: Action): System
    requires Enabled(s, act)
  {
    match act
    case User(x, call) =>
      var r := Do(s.End(x), call);
      s.With(x, r.e, s.Out(x) + r.sent, s.Inc(x))
    case Deliver(x) =>
      var r := Receive(s.End(x), s.Inc(x)[0]);
      s.With(x, r.e, s.Out(x) + r.sent, if r.done then s.Inc(x)[1..] else s.Inc(x))
    case Proceed(x) =>
      var r := Resume(s.End(x));
      s.With(x, r.e, s.Out(x) + r.sent, s.Inc(x))
  }

  /** The use the protocol is made for: one side opens, one connection at a time, and nobody uses a
      connection before it is announced; `CloseImm` comes only from the timer of `Kill`, after `Close`; and
      calls are careful. */
  predicate Disciplined(s: System, act: Action) {
    act.User? ==>
      && Careful(s.End(act.x), act.call)
      && (act.call.RegisterConn? ==> act.x == A && s.a.ids.unannounced == map[])
      && (OnConnection(act.call) ==> act.call.id !in s.End(act.x).ids.unannounced)
      && (act.call.ForceClose? && act.call.id in s.End(act.x).conns ==>
            var st := s.End(act.x).conns[act.call.id].state; st.WaitClose? || st.Closed?)
  }

  /** State of one connection over both ends and both pipes. */
  ghost predicate LinkInv(s: System, i: nat) {
    var ab, ba := Proj(s.ab, i), Proj(s.ba, i);
    if i !in s.a.conns then i !in s.b.conns && ab == [] && ba == []
    else if i in s.a.ids.unannounced then
      i !in s.b.conns && s.a.conns[i] == Fresh(true, s.a.conns[i].tally.hasCallback) && ab == [] && ba == []
    else if i !in s.b.conns then Opening(s.a.conns[i], i, ab, ba)
    else s.a.conns[i].initiator && Both(s.a.conns[i], s.b.conns[i], ab, ba)
  }

  function Range(lo: nat, hi: nat): seq<nat>
    decreases hi - lo
  {
    if lo > hi then [] else [lo] + Range(lo + 1, hi)
  }

  ghost predicate Dense(e: Endpoint) {
    forall i: nat :: i in e.conns <==> 1 <= i <= e.ids.counter
  }

  ghost predicate BusyInv(e: Endpoint, inc: seq<Packet>) {
    Reads(e) ==>
      var id, seen := e.busy.value.id, e.busy.value.seen;
      inc != [] && inc[0] == Success(id) && id in e.conns && SeenOk(e.conns[id], Proj(inc, id), seen)
  }

  /** The last id that has been announced. */
  function Announced(e: Endpoint): int { if e.ids.unannounced == map[] then e.ids.counter else e.ids.counter - 1 }

  /** Ids in use on both sides, and those announced in flight. */
  ghost predicate IdsInv(s: System) {
    && Dense(s.a) && Dense(s.b) && s.b.ids.counter <= Announced(s.a)
    && (forall i | i in s.a.ids.unannounced :: i == s.a.ids.counter) && s.b.ids.unannounced == map[]
    && NewIds(s.ab) == Range(s.b.ids.counter + 1, Announced(s.a))
    && NewIds(s.ba) == []
  }

  ghost predicate Inv(s: System) {
    && EndInv(s.a) && EndInv(s.b)
    && !s.a.mapLocked && !s.b.mapLocked
    && IdsInv(s)
    && BusyInv(s.a, s.ba) && BusyInv(s.b, s.ab)
    && forall i: nat :: LinkInv(s, i)
  }

  // Frames.

  /** A packet of another connection, appended or taken off, is invisible. */
  lemma {:induction false} LinkFrame(s: System, x: Side, e: Endpoint, out: seq<Packet>, inc: seq<Packet>, i: nat)
    requires LinkInv(s, i)
    requires i in e.conns <==> i in s.End(x).conns
    requires i in e.conns ==> e.conns[i] == s.End(x).conns[i]
    requires x == A ==> (i in e.ids.unannounced <==> i in s.a.ids.unannounced)
    requires Proj(out, i) == Proj(s.Out(x), i) && Proj(inc, i) == Proj(s.Inc(x), i)
    ensures LinkInv(s.With(x, e, out, inc), i)
  {
  }

  /** The link of `i` as its end at `x` sees it, once both ends have it. */
  lemma {:induction false} LinkBoth(s: System, x: Side, i: nat)
    requires LinkInv(s, i) && i in s.a.conns && i in s.b.conns
    ensures Both(s.End(x).conns[i], s.End(Other(x)).conns[i], Proj(s.Out(x), i), Proj(s.Inc(x), i))
  {
  }

  lemma {:induction false} LinkFromBoth(s: System, x: Side, i: nat)
    requires i in s.a.conns && i in s.b.conns && s.a.conns[i].initiator && i !in s.a.ids.unannounced
    requires Both(s.End(x).conns[i], s.End(Other(x)).conns[i], Proj(s.Out(x), i), Proj(s.Inc(x), i))
    ensures LinkInv(s, i)
  {
  }

  lemma {:induction false} AppendAll(q: seq<Packet>, ps: seq<Packet>, i: nat)
    requires |ps| <= 1
    ensures Proj(q + ps, i) == Proj(q, i) + (if |ps| == 1 && Names(ps[0], i) then ps else [])
    ensures NewIds(q + ps) == NewIds(q) + (if |ps| == 1 && ps[0].New? then [ps[0].id] else [])
  {
    if ps == [] {
      assert q + ps == q;
    } else {
      assert ps == [ps[0]];
      ProjAppend(q, ps[0], i);
      AppendNewIds(q, ps[0]);
    }
  }

  lemma BusyAppend(e: Endpoint, inc: seq<Packet>, ps: seq<Packet>)
    requires BusyInv(e, inc) && |ps| <= 1
    ensures BusyInv(e, inc + ps)
  {
    if Reads(e) { AppendAll(inc, ps, e.busy.value.id); }
  }

  /** The link of `id` after its end at `x` took the step `f`. */
  ghost predicate Linked(s: System, x: Side, id: nat, f: Effect, inc': seq<Packet>) {
    var out', peer := Proj(s.Out(x), id) + f.sent, s.End(Other(x)).conns;
    if id in peer then Both(f.conn, peer[id], out', Proj(inc', id))
    else x == A && Opening(f.conn, id, out', Proj(inc', id))
  }

  /** The packets of `f` are those of connection `id`. */
  ghost predicate Sends(f: Effect, id: nat) {
    |f.sent| <= 1 && forall p | p in f.sent :: Names(p, id) && !p.New?
  }

  lemma Moved(s: System, x: Side, id: nat, f: Effect, e': Endpoint, inc': seq<Packet>)
    requires LinkInv(s, id) && id in s.End(x).conns && id in e'.conns
    requires e'.conns[id] == f.conn && f.conn.initiator == s.End(x).conns[id].initiator
    requires e'.ids.unannounced == s.End(x).ids.unannounced && id !in s.a.ids.unannounced
    requires Sends(f, id) && Linked(s, x, id, f, inc')
    ensures LinkInv(s.With(x, e', s.Out(x) + f.sent, inc'), id)
  {
    AppendAll(s.Out(x), f.sent, id);
    assert |f.sent| == 1 ==> f.sent[0] in f.sent;
    assert |f.sent| == 0 ==> f.sent == [];
    var s' := s.With(x, e', s.Out(x) + f.sent, inc');
    assert Proj(s'.Out(x), id) == Proj(s.Out(x), id) + f.sent;
    if id in s.End(Other(x)).conns { LinkFromBoth(s', x, id); }
  }

  /** One end of connection `id` takes a step; the link of every other connection stays as it was. */
  lemma {:induction false} MovedAll(s: System, x: Side, id: nat, f: Effect, e': Endpoint, inc': seq<Packet>, i: nat)
    requires LinkInv(s, i) && id in s.End(x).conns
    requires e'.conns == s.End(x).conns[id := f.conn] && f.conn.initiator == s.End(x).conns[id].initiator
    requires e'.ids.unannounced == s.End(x).ids.unannounced && id !in s.a.ids.unannounced
    requires Sends(f, id) && Linked(s, x, id, f, inc')
    requires i != id ==> Proj(inc', i) == Proj(s.Inc(x), i)
    ensures LinkInv(s.With(x, e', s.Out(x) + f.sent, inc'), i)
  {
    if i == id {
      Moved(s, x, id, f, e', inc');
    } else {
      AppendAll(s.Out(x), f.sent, i);
      assert |f.sent| == 1 ==> f.sent[0] in f.sent;
      LinkFrame(s, x, e', s.Out(x) + f.sent, inc', i);
    }
  }

  lemma {:induction false} IdsFrame(s: System, x: Side, f: Effect, e': Endpoint, inc': seq<Packet>, id: nat)
    requires IdsInv(s) && Sends(f, id) && e'.ids.counter == s.End(x).ids.counter
      && e'.ids.unannounced == s.End(x).ids.unannounced
    requires e'.conns.Keys == s.End(x).conns.Keys && NewIds(inc') == NewIds(s.Inc(x))
    ensures IdsInv(s.With(x, e', s.Out(x) + f.sent, inc'))
  {
    hide Dense, NewIds, Range, Proj;
    DenseSame(s.End(x), e');
    assert |f.sent| == 1 ==> f.sent[0] in f.sent;
    AppendAll(s.Out(x), f.sent, id);
  }

  lemma DenseSame(e: Endpoint, e': Endpoint)
    requires Dense(e) && e'.ids.counter == e.ids.counter && e'.conns.Keys == e.conns.Keys
    ensures Dense(e')
  {
    assert forall i :: i in e'.conns <==> i in e'.conns.Keys;
    assert forall i :: i in e.conns <==> i in e.conns.Keys;
  }

  /** Puts the parts of the invariant together after a step of one connection at `x`. */
  lemma {:induction false} Assemble(s: System, x: Side, id: nat, f: Effect, e': Endpoint, inc': seq<Packet>)
    requires Inv(s) && id in s.End(x).conns
    requires EndInv(e') && !e'.mapLocked && e'.ids.counter == s.End(x).ids.counter
    requires e'.conns == s.End(x).conns[id := f.conn] && f.conn.initiator == s.End(x).conns[id].initiator
    requires e'.ids.unannounced == s.End(x).ids.unannounced && id !in s.a.ids.unannounced
    requires Sends(f, id) && Linked(s, x, id, f, inc')
    requires forall i | i != id :: Proj(inc', i) == Proj(s.Inc(x), i)
    requires NewIds(inc') == NewIds(s.Inc(x))
    requires BusyInv(e', inc')
    ensures Inv(s.With(x, e', s.Out(x) + f.sent, inc'))
  {
    hide EndInv, LinkInv, Linked, IdsInv, BusyInv;
    var s' := s.With(x, e', s.Out(x) + f.sent, inc');
    IdsFrame(s, x, f, e', inc', id);
    BusyAppend(s.End(Other(x)), s.Out(x), f.sent);
    forall i: nat ensures LinkInv(s', i) {
      assert LinkInv(s, i);
      MovedAll(s, x, id, f, e', inc', i);
    }
  }

  // User calls.

  lemma PairCall(x: Conn, y: Conn, out: seq<Packet>, inc: seq<Packet>, call: Call)
    requires Both(x, y, out, inc) && OnConnection(call) && Ready(x, call)
    requires call.ForceClose? ==> x.state.WaitClose? || x.state.Closed?
    ensures Both(OnConn(x, call).conn, y, out + OnConn(x, call).sent, inc)
  {
    match call
    case StartClose(_) => PairBeginClose(x, y, out, inc); assert out + [] == out;
    case SendClose(id) => PairFinishClose(x, y, out, inc, id);
    case WriteBytes(id, data) => PairWrite(x, y, out, inc, id, data);
    case AcceptConn(id) => PairAccept(x, y, out, inc, id);
    case RejectConn(id) => PairReject(x, y, out, inc, id);
    case ForceClose(_) => PairForce(x, y, out, inc); assert out + [] == out;
  }

  lemma OpeningCall(x: Conn, out: seq<Packet>, call: Call)
    requires OnConnection(call) && Opening(x, call.id, out, []) && Ready(x, call)
    requires call.ForceClose? ==> x.state.WaitClose? || x.state.Closed?
    ensures Opening(OnConn(x, call).conn, call.id, out + OnConn(x, call).sent, [])
  {
    OpeningSteps(x, call.id, out);
    assert out + [] == out;
  }

  /** The packets a call writes name its connection. */
  lemma CallSends(c: Conn, call: Call)
    requires OnConnection(call) && Ready(c, call)
    ensures Sends(OnConn(c, call), call.id)
    ensures OnConn(c, call).conn.initiator == c.initiator
  {
  }

  /** The link of the connection that the call is on. */
  lemma CallOwn(s: System, x: Side, call: Call)
    requires OnConnection(call) && LinkInv(s, call.id)
    requires Enabled(s, User(x, call)) && Disciplined(s, User(x, call)) && (x == B ==> call.id !in s.a.ids.unannounced)
    ensures var f := OnConn(s.End(x).conns[call.id], call);
            Linked(s, x, call.id, f, s.Inc(x))
  {
    var id := call.id;
    var c := s.End(x).conns[id];
    if id in s.b.conns {
      LinkBoth(s, x, id);
      PairCall(c, s.End(Other(x)).conns[id], Proj(s.Out(x), id), Proj(s.Inc(x), id), call);
    } else {
      OpeningCall(c, Proj(s.ab, id), call);
    }
  }

  /** A call leaves alone what the handler has read for a SUCCESS it is in the middle of. */
  lemma CallSeen(c: Conn, inc: seq<Packet>, seen: State, call: Call)
    requires Local(c) && SeenOk(c, inc, seen) && OnConnection(call) && Ready(c, call)
    requires seen.WaitInit? ==> call.SendClose? || call.WriteBytes?
    ensures SeenOk(OnConn(c, call).conn, inc, seen)
  {
  }

  lemma CallBusy(s: System, x: Side, call: Call)
    requires OnConnection(call) && LinkInv(s, call.id) && BusyInv(s.End(x), s.Inc(x))
    requires x == B ==> call.id !in s.a.ids.unannounced
    requires Enabled(s, User(x, call)) && Disciplined(s, User(x, call))
    ensures BusyInv(Do(s.End(x), call).e, s.Inc(x))
  {
    var id, e := call.id, s.End(x);
    if Reads(e) && e.busy.value.id == id {
      assert Local(e.conns[id]);
      CallSeen(e.conns[id], Proj(s.Inc(x), id), e.busy.value.seen, call);
    }
  }

  lemma CallKeeps(s: System, x: Side, call: Call)
    requires Inv(s) && OnConnection(call)
    requires Enabled(s, User(x, call)) && Disciplined(s, User(x, call))
    ensures Inv(Next(s, User(x, call)))
  {
    var f := OnConn(s.End(x).conns[call.id], call);
    assert LinkInv(s, call.id);
    CallOwn(s, x, call);
    CallSends(s.End(x).conns[call.id], call);
    CallBusy(s, x, call);
    DoKeeps(s.End(x), call);
    Assemble(s, x, call.id, f, Do(s.End(x), call).e, s.Inc(x));
  }

  /** The first half of opening a connection: nobody else knows of it yet. */
  lemma RegisterKeepsInv(s: System, hasCallback: bool, details: Details)
    requires Inv(s) && Enabled(s, User(A, RegisterConn(hasCallback, details)))
    requires s.a.ids.counter < MAX_ID && s.a.ids.unannounced == map[]
    ensures Inv(Next(s, User(A, RegisterConn(hasCallback, details))))
  {
    var a' := Register(s.a, hasCallback, details);
    var s' := s.With(A, a', s.ab, s.ba);
    RegisterKeeps(s.a, hasCallback, details);
    assert s.ab + [] == s.ab;
    assert Next(s, User(A, RegisterConn(hasCallback, details))) == s' && !a'.mapLocked && a'.busy == s.a.busy;
    RegisterIds(s, hasCallback, details);
    RegisterBusy(s.a, a', s.ba);
    hide EndInv, Next, LinkInv, IdsInv, BusyInv, Register;
    forall i: nat ensures LinkInv(s', i) {
      assert LinkInv(s, i) && LinkInv(s, s.a.ids.counter + 1);
      RegisterLinks(s, hasCallback, details, i);
    }
  }

  lemma RegisterBusy(a: Endpoint, a': Endpoint, inc: seq<Packet>)
    requires BusyInv(a, inc) && a'.busy == a.busy
      && forall i | i in a.conns :: i in a'.conns && a'.conns[i] == a.conns[i]
    ensures BusyInv(a', inc)
  {
  }

  lemma RegisterIds(s: System, hasCallback: bool, details: Details)
    requires IdsInv(s) && s.a.ids.counter < MAX_ID && s.a.ids.unannounced == map[]
    ensures IdsInv(s.With(A, Register(s.a, hasCallback, details), s.ab, s.ba))
    ensures s.a.ids.counter + 1 !in s.a.conns && s.a.ids.counter + 1 !in s.b.conns
  {
    hide Range, NewIds;
    var u := map[s.a.ids.counter + 1 := details];
    assert s.a.ids.unannounced[s.a.ids.counter + 1 := details] == u && s.a.ids.counter + 1 in u;
  }

  lemma RegisterLinks(s: System, hasCallback: bool, details: Details, i: nat)
    requires LinkInv(s, i) && LinkInv(s, s.a.ids.counter + 1)
    requires s.a.ids.counter < MAX_ID && s.a.ids.unannounced == map[] && s.a.ids.counter + 1 !in s.a.conns
    ensures LinkInv(s.With(A, Register(s.a, hasCallback, details), s.ab, s.ba), i)
  {
    hide Both, Opening, Proj;
    var a' := Register(s.a, hasCallback, details);
    if i != s.a.ids.counter + 1 { LinkFrame(s, A, a', s.ab, s.ba, i); }
  }

  /** The second half announces the next id. */
  lemma AnnounceKeepsInv(s: System, id: nat)
    requires Inv(s) && id in s.a.ids.unannounced
    ensures Inv(Next(s, User(A, AnnounceConn(id))))
  {
    var p := New(id, Some(s.a.ids.unannounced[id]));
    var a' := Announce(s.a, id).e;
    var s' := s.With(A, a', s.ab + [p], s.ba);
    assert Gate(s.a);
    DoKeeps(s.a, AnnounceConn(id));
    AnnounceIds(s, id, a', p);
    RegisterBusy(s.a, a', s.ba);
    assert Next(s, User(A, AnnounceConn(id))) == s' && a'.conns == s.a.conns && !a'.mapLocked;
    hide EndInv, Next, LinkInv, IdsInv, BusyInv, Announce;
    BusyAppend(s.b, s.ab, [p]);
    forall i: nat ensures LinkInv(s', i) {
      assert LinkInv(s, i);
      AnnounceLinks(s, id, a', p, i);
    }
  }

  lemma AnnounceIds(s: System, id: nat, a': Endpoint, p: Packet)
    requires IdsInv(s) && id in s.a.ids.unannounced && p == New(id, Some(s.a.ids.unannounced[id]))
    requires a' == s.a.(ids := s.a.ids.(unannounced := s.a.ids.unannounced - {id}))
    ensures IdsInv(s.With(A, a', s.ab + [p], s.ba)) && a'.ids.unannounced == map[] && id !in s.b.conns
  {
    hide Dense;
    DenseSame(s.a, a');
    assert Dense(s.b) && id !in s.b.conns by { NotDense(s.b, id); }
    assert a'.ids.unannounced == map[];
    AppendNewIds(s.ab, p);
    RangeGrows(s.b.ids.counter + 1, id - 1);
  }

  lemma NotDense(e: Endpoint, id: nat)
    requires Dense(e) && id > e.ids.counter
    ensures id !in e.conns
  {
  }

  lemma AnnounceLinks(s: System, id: nat, a': Endpoint, p: Packet, i: nat)
    requires LinkInv(s, i) && id in s.a.ids.unannounced && id in s.a.conns
      && p == New(id, Some(s.a.ids.unannounced[id]))
    requires a' == s.a.(ids := s.a.ids.(unannounced := s.a.ids.unannounced - {id}))
    ensures LinkInv(s.With(A, a', s.ab + [p], s.ba), i)
  {
    hide Both, Proj;
    ProjAppend(s.ab, p, i);
    if i != id { LinkFrame(s, A, a', s.ab + [p], s.ba, i); } else { assert [p][1..] == []; }
  }

  lemma {:induction false} RangeGrows(lo: nat, hi: nat)
    requires lo <= hi + 1
    ensures Range(lo, hi + 1) == Range(lo, hi) + [hi + 1]
    decreases hi - lo
  {
    if lo <= hi { RangeGrows(lo + 1, hi); } else { assert Range(lo, hi + 1) == [lo] + []; }
  }

  // Handling packets.

  /** What is at the head of a pipe is known to its receiver, or announces itself in order. */
  lemma {:induction false} HeadKnown(s: System, x: Side, id: nat)
    requires Inv(s) && s.Inc(x) != [] && Names(s.Inc(x)[0], id)
    ensures Proj(s.Inc(x), id) == [s.Inc(x)[0]] + Proj(s.Inc(x)[1..], id)
    ensures !s.Inc(x)[0].New? ==> id in s.a.conns && id in s.b.conns
    ensures s.Inc(x)[0].New? ==> x == B && id == s.b.ids.counter + 1 <= Announced(s.a)
    ensures id !in s.a.ids.unannounced
  {
    assert LinkInv(s, id);
    var p := s.Inc(x)[0];
    assert Proj(s.Inc(x), id)[0] == p;
    if p.New? {
      assert NewIds(s.Inc(x))[0] == id;
    }
  }

  lemma {:induction false} TailFrame(q: seq<Packet>, id: nat)
    requires q != [] && Names(q[0], id)
    ensures forall i | i != id :: Proj(q[1..], i) == Proj(q, i)
    ensures !q[0].New? ==> NewIds(q[1..]) == NewIds(q)
  {
  }

  lemma PairPacket(x: Conn, y: Conn, out: seq<Packet>, inc: seq<Packet>)
    requires Both(x, y, out, inc) && inc != [] && (inc[0].Data? || inc[0].Close? || inc[0].Error?)
    ensures var f := WholeEffect(x, inc[0]);
            Both(f.conn, y, out + f.sent, inc[1..]) && Sends(f, inc[0].id)
  {
    match inc[0]
    case Data(_, _) => PairData(x, y, out, inc); assert out + [] == out;
    case Close(id) => PairClose(x, y, out, inc, id);
    case Error(_) => PairError(x, y, out, inc); assert out + [] == out;
  }

  lemma PacketOwn(s: System, x: Side, id: nat)
    requires LinkInv(s, id) && id in s.a.conns && id in s.b.conns
    requires s.Inc(x) != [] && Names(s.Inc(x)[0], id) && !Waits(s.End(x))
    requires s.Inc(x)[0].Data? || s.Inc(x)[0].Close? || s.Inc(x)[0].Error?
    ensures var f := WholeEffect(s.End(x).conns[id], s.Inc(x)[0]);
            && Linked(s, x, id, f, s.Inc(x)[1..]) && Sends(f, id)
            && f.conn.initiator == s.End(x).conns[id].initiator
  {
    LinkBoth(s, x, id);
    var w := Proj(s.Inc(x), id);
    assert w[0] == s.Inc(x)[0] && w[1..] == Proj(s.Inc(x)[1..], id);
    PairPacket(s.End(x).conns[id], s.End(Other(x)).conns[id], Proj(s.Out(x), id), w);
  }

  lemma PacketStep(s: System, x: Side, id: nat)
    requires Inv(s) && Enabled(s, Deliver(x)) && Names(s.Inc(x)[0], id) && id in s.End(x).conns
    requires s.Inc(x)[0].Data? || s.Inc(x)[0].Close? || s.Inc(x)[0].Error?
    ensures var f := WholeEffect(s.End(x).conns[id], s.Inc(x)[0]);
            var e' := Put(s.End(x), id, f.conn);
            && Next(s, Deliver(x)) == s.With(x, e', s.Out(x) + f.sent, s.Inc(x)[1..])
            && EndInv(e') && e'.busy.None?
  {
    var e, p := s.End(x), s.Inc(x)[0];
    assert e.busy.None?;
    ReceiveKeeps(e, p);
    PacketLift(e, p, id);
    hide EndInv, Inv, WholeEffect, Receive;
  }

  lemma PacketLift(e: Endpoint, p: Packet, id: nat)
    requires !Waits(e) && Names(p, id) && id in e.conns && (p.Data? || p.Close? || p.Error?)
    ensures Receive(e, p) == Lift(e, id, WholeEffect(e.conns[id], p))
  {
    hide HandleData, AgentConnection.HandleClose, HandleError;
  }

  lemma PacketKeeps(s: System, x: Side)
    requires Inv(s) && Enabled(s, Deliver(x))
    requires s.Inc(x)[0].Data? || s.Inc(x)[0].Close? || s.Inc(x)[0].Error?
    ensures Inv(Next(s, Deliver(x)))
  {
    var id := s.Inc(x)[0].id;
    HeadKnown(s, x, id);
    assert LinkInv(s, id);
    PacketOwn(s, x, id);
    TailFrame(s.Inc(x), id);
    PacketStep(s, x, id);
    var f := WholeEffect(s.End(x).conns[id], s.Inc(x)[0]);
    Assemble(s, x, id, f, Put(s.End(x), id, f.conn), s.Inc(x)[1..]);
  }

  lemma {:induction false} SuccessOwn(s: System, x: Side, id: nat)
    requires LinkInv(s, id) && id in s.a.conns && id in s.b.conns && BusyInv(s.End(x), s.Inc(x))
    requires s.Inc(x) != [] && s.Inc(x)[0] == Success(id)
    ensures var e := s.End(x);
            if !Reads(e) then
              SeenOk(e.conns[id], Proj(s.Inc(x), id), e.conns[id].state) &&
              Linked(s, x, id, Effect(e.conns[id], []), s.Inc(x))
            else
              Linked(s, x, id, Effect(ApplySuccess(e.conns[id], e.busy.value.seen), []), s.Inc(x)[1..])
  {
    LinkBoth(s, x, id);
    var e := s.End(x);
    var out, w := Proj(s.Out(x), id), Proj(s.Inc(x), id);
    assert w[0] == s.Inc(x)[0] && w[1..] == Proj(s.Inc(x)[1..], id);
    assert out + [] == out;
    if !Reads(e) {
      PairReadSuccess(e.conns[id], s.End(Other(x)).conns[id], out, w);
    } else {
      PairApplySuccess(e.conns[id], s.End(Other(x)).conns[id], out, w, e.busy.value.seen);
    }
  }

  lemma ReadStep(s: System, x: Side, id: nat)
    requires EndInv(s.End(x)) && s.End(x).busy.None? && !s.End(x).mapLocked
    requires s.Inc(x) != [] && s.Inc(x)[0] == Success(id) && id in s.End(x).conns
    ensures var e' := s.End(x).(busy := Some(Reading(id, s.End(x).conns[id].state)));
            EndInv(e') && Next(s, Deliver(x)) == s.With(x, e', s.Out(x) + [], s.Inc(x))
  {
    assert Gate(s.End(x));
    SuccessKeeps(s.End(x), id);
    hide EndInv;
  }

  lemma {:induction false} ReadKeeps(s: System, x: Side, id: nat)
    requires Enabled(s, Deliver(x)) && Inv(s) && s.Inc(x) != [] && s.Inc(x)[0] == Success(id) && id in s.End(x).conns
      && id !in s.a.ids.unannounced
    requires s.End(x).busy.None? && SeenOk(s.End(x).conns[id], Proj(s.Inc(x), id), s.End(x).conns[id].state)
    requires Linked(s, x, id, Effect(s.End(x).conns[id], []), s.Inc(x))
    ensures Inv(Next(s, Deliver(x)))
  {
    hide LinkInv, EndInv, IdsInv, Linked, Proj, SeenOk;
    ReadStep(s, x, id);
    var e := s.End(x);
    var e' := e.(busy := Some(Reading(id, e.conns[id].state)));
    assert e.conns[id := e.conns[id]] == e.conns;
    hide Next;
    Assemble(s, x, id, Effect(e.conns[id], []), e', s.Inc(x));
  }

  lemma ApplyStep(s: System, x: Side, id: nat, c: Conn)
    requires EndInv(s.End(x)) && BusyInv(s.End(x), s.Inc(x)) && Reads(s.End(x)) && !s.End(x).mapLocked
      && !s.End(x).door.panicked
    requires s.Inc(x) != [] && s.Inc(x)[0] == Success(id) && id in s.End(x).conns
    requires c == ApplySuccess(s.End(x).conns[id], s.End(x).busy.value.seen)
    ensures var e' := Put(s.End(x).(busy := None), id, c);
            EndInv(e') && Next(s, Deliver(x)) == s.With(x, e', s.Out(x) + [], s.Inc(x)[1..])
  {
    hide EndInv, ApplySuccess;
    SuccessKeeps(s.End(x), id);
  }

  lemma ApplyKeeps(s: System, x: Side, id: nat, c: Conn)
    requires Inv(s) && s.Inc(x) != [] && s.Inc(x)[0] == Success(id) && id in s.End(x).conns
      && id !in s.a.ids.unannounced
    requires c.initiator == s.End(x).conns[id].initiator
    requires Linked(s, x, id, Effect(c, []), s.Inc(x)[1..])
    requires EndInv(Put(s.End(x).(busy := None), id, c))
    ensures Inv(s.With(x, Put(s.End(x).(busy := None), id, c), s.Out(x) + [], s.Inc(x)[1..]))
  {
    TailFrame(s.Inc(x), id);
    Assemble(s, x, id, Effect(c, []), Put(s.End(x).(busy := None), id, c), s.Inc(x)[1..]);
  }

  lemma SuccessKeepsInv(s: System, x: Side)
    requires Inv(s) && Enabled(s, Deliver(x)) && s.Inc(x)[0].Success?
    ensures Inv(Next(s, Deliver(x)))
  {
    var id, e := s.Inc(x)[0].id, s.End(x);
    HeadKnown(s, x, id);
    assert LinkInv(s, id);
    SuccessOwn(s, x, id);
    if !Reads(e) {
      ReadKeeps(s, x, id);
    } else {
      var c := ApplySuccess(e.conns[id], e.busy.value.seen);
      SuccessOk(e.conns[id], e.busy.value.seen);
      ApplyStep(s, x, id, c);
      ApplyKeeps(s, x, id, c);
    }
  }

  // NEW, and steps that change no connection.

  lemma NewStep(s: System, id: nat)
    requires Inv(s) && s.ab != [] && s.ab[0].New? && s.ab[0].details.Some? && !Waits(s.b)
    requires s.ab[0].id == id == s.b.ids.counter + 1
    ensures var s' := Next(s, Deliver(B));
            && s'.b.conns == s.b.conns[id := Fresh(false, false)] && s'.b.ids.counter == id
            && s'.b.busy == Some(Arriving(id)) && !s'.b.mapLocked && s'.b.ids.unannounced == map[]
            && s' == s.With(B, s'.b, s.ba, s.ab[1..])
  {
    assert Gate(s.b) && !s.b.mapLocked && s.b.ids.unannounced == map[];
    assert id !in s.b.conns by { NotDense(s.b, id); }
    assert !Reads(s.b);
    hide Inv, EndInv, Fresh;
    assert s.ba + [] == s.ba;
  }

  lemma {:induction false} NewOwn(s: System, id: nat)
    requires LinkInv(s, id) && id in s.a.conns && id !in s.b.conns && id !in s.a.ids.unannounced
    requires s.ab != [] && Names(s.ab[0], id)
    ensures Both(s.a.conns[id], Fresh(false, false), Proj(s.ab[1..], id), [])
    ensures s.ab[0].New? && s.ab[0].details.Some? && Proj(s.ba, id) == []
  {
    var w := Proj(s.ab, id);
    assert w[0] == s.ab[0] && w[1..] == Proj(s.ab[1..], id);
    OpeningDelivered(s.a.conns[id], id, w);
  }

  lemma NewLinks(s: System, s': System, id: nat, i: nat)
    requires LinkInv(s, i)
    requires s.ab != [] && Names(s.ab[0], id) && id in s.a.conns && id !in s.b.conns && id !in s.a.ids.unannounced
    requires s' == s.With(B, s'.b, s.ba, s.ab[1..]) && s'.b.conns == s.b.conns[id := Fresh(false, false)]
    ensures LinkInv(s', i)
  {
    hide Both, Opening;
    if i != id {
      LinkFrame(s, B, s'.b, s'.ba, s'.ab, i);
    } else {
      NewOwn(s, id);
      LinkFromBoth(s', A, id);
    }
  }

  lemma NewIdsKeep(s: System, s': System, id: nat)
    requires IdsInv(s) && s.ab != [] && s.ab[0].New? && s.ab[0].id == id == s.b.ids.counter + 1 <= Announced(s.a)
    requires s' == s.With(B, s'.b, s.ba, s.ab[1..]) && s'.b.ids.unannounced == map[]
    requires s'.b.conns == s.b.conns[id := Fresh(false, false)] && s'.b.ids.counter == id
    ensures IdsInv(s')
  {
    assert NewIds(s.ab) == [id] + NewIds(s.ab[1..]);
    assert NewIds(s'.ab) == NewIds(s.ab)[1..] == Range(id + 1, Announced(s.a));
  }

  lemma NewKeepsInv(s: System)
    requires Inv(s) && s.ab != [] && s.ab[0].New? && !Waits(s.b)
    ensures Inv(Next(s, Deliver(B)))
  {
    var id, s' := s.ab[0].id, Next(s, Deliver(B));
    HeadKnown(s, B, id);
    assert LinkInv(s, id);
    NewOwn(s, id);
    NewStep(s, id);
    ReceiveKeeps(s.b, s.ab[0]);
    NewIdsKeep(s, s', id);
    NewAssembled(s, s', id);
  }

  lemma NewAssembled(s: System, s': System, id: nat)
    requires Inv(s) && s.ab != [] && Names(s.ab[0], id) && id in s.a.conns && id !in s.b.conns
      && id !in s.a.ids.unannounced
    requires s' == s.With(B, s'.b, s.ba, s.ab[1..]) && s'.b.conns == s.b.conns[id := Fresh(false, false)]
    requires EndInv(s'.b) && !s'.b.mapLocked && !Reads(s'.b) && IdsInv(s')
    ensures Inv(s')
  {
    hide EndInv, IdsInv;
    forall i: nat ensures LinkInv(s', i) {
      assert LinkInv(s, i);
      NewLinks(s, s', id, i);
    }
  }

  /** The connections of `e` and their names are those of `e'`. */
  ghost predicate SameConns(e: Endpoint, e': Endpoint) {
    e'.conns == e.conns && e'.ids.counter == e.ids.counter && e'.ids.unannounced == e.ids.unannounced
  }

  /** A step that changes no connection and moves no packet of one. */
  lemma StillLinks(s: System, x: Side, e': Endpoint, out': seq<Packet>, inc': seq<Packet>)
    requires Inv(s) && EndInv(e') && SameConns(s.End(x), e') && !e'.mapLocked && BusyInv(e', inc')
    requires out' == s.Out(x) || out' == s.Out(x) + [NoMore]
    requires inc' == s.Inc(x)
      || (s.Inc(x) != [] && (s.Inc(x)[0].NoMore? || s.Inc(x)[0].Unknown?) && inc' == s.Inc(x)[1..])
    ensures Inv(s.With(x, e', out', inc'))
  {
    hide EndInv, LinkInv, IdsInv, Proj;
    var s' := s.With(x, e', out', inc');
    StillIds(s, x, e', out', inc');
    BusyAppend(s.End(Other(x)), s.Out(x), [NoMore]);
    forall i: nat ensures LinkInv(s', i) {
      assert LinkInv(s, i);
      ProjAppend(s.Out(x), NoMore, i);
      ProjAnonymous(s.Inc(x), i);
      LinkFrame(s, x, e', out', inc', i);
    }
  }

  lemma {:induction false} ProjAnonymous(q: seq<Packet>, i: nat)
    ensures q != [] && (q[0].NoMore? || q[0].Unknown?) ==> Proj(q[1..], i) == Proj(q, i)
  {
  }

  lemma StillIds(s: System, x: Side, e': Endpoint, out': seq<Packet>, inc': seq<Packet>)
    requires IdsInv(s) && SameConns(s.End(x), e')
    requires out' == s.Out(x) || out' == s.Out(x) + [NoMore]
    requires inc' == s.Inc(x)
      || (s.Inc(x) != [] && (s.Inc(x)[0].NoMore? || s.Inc(x)[0].Unknown?) && inc' == s.Inc(x)[1..])
    ensures IdsInv(s.With(x, e', out', inc'))
  {
    hide Dense, Range;
    DenseSame(s.End(x), e');
    AppendNewIds(s.Out(x), NoMore);
  }

  lemma AnonymousKeeps(s: System, x: Side)
    requires Inv(s) && Enabled(s, Deliver(x)) && (s.Inc(x)[0].NoMore? || s.Inc(x)[0].Unknown?)
    ensures Inv(Next(s, Deliver(x)))
  {
    hide EndInv, LinkInv;
    var p := s.Inc(x)[0];
    ReceiveKeeps(s.End(x), p);
    assert s.Out(x) + [] == s.Out(x);
    StillLinks(s, x, Receive(s.End(x), p).e, s.Out(x), s.Inc(x)[1..]);
  }

  /** Calls that are not on a connection of either side. */
  lemma PlainCallKeeps(s: System, x: Side, call: Call)
    requires Inv(s) && Enabled(s, User(x, call)) && Disciplined(s, User(x, call))
    requires call.NoMoreConnections? || call.TakeOffer?
    ensures Inv(Next(s, User(x, call)))
  {
    hide EndInv, LinkInv, IdsInv;
    var e := s.End(x);
    PlainCall(e, call);
    assert s.Out(x) + [] == s.Out(x);
    StillLinks(s, x, Do(e, call).e, s.Out(x) + Do(e, call).sent, s.Inc(x));
  }

  lemma PlainCall(e: Endpoint, call: Call)
    requires EndInv(e) && Possible(e, call) && Careful(e, call) && (call.NoMoreConnections? || call.TakeOffer?)
    ensures var r := Do(e, call);
      && EndInv(r.e) && SameConns(e, r.e) && r.e.mapLocked == e.mapLocked && (Reads(r.e) ==> r.e.busy == e.busy)
      && r.sent == if call.TakeOffer? then [] else [NoMore]
  {
    assert Gate(e);
    DoKeeps(e, call);
    hide EndInv;
  }

  lemma RejectStep(s: System, x: Side, id: nat)
    requires EndInv(s.End(x)) && Is(s.End(x), Arriving(id)) && CanResume(s.End(x)) && s.End(x).door.stopped
    ensures var f := Reject(s.End(x).conns[id], id);
            var e' := Put(s.End(x).(busy := None), id, f.conn);
            EndInv(e') && Next(s, Proceed(x)) == s.With(x, e', s.Out(x) + f.sent, s.Inc(x)) && Sends(f, id)
              && f.conn.initiator == s.End(x).conns[id].initiator
  {
    ResumeKeeps(s.End(x));
    hide EndInv;
  }

  /** A connection that comes too late is rejected. */
  lemma RejectKeepsInv(s: System, x: Side, id: nat)
    requires Inv(s) && Is(s.End(x), Arriving(id)) && CanResume(s.End(x)) && s.End(x).door.stopped
    ensures Inv(Next(s, Proceed(x)))
  {
    var e := s.End(x);
    var f := Reject(e.conns[id], id);
    RejectStep(s, x, id);
    RejectLinked(s, x, id);
    hide Next, EndInv, LinkInv, Linked, Reject, IdsInv;
    Assemble(s, x, id, f, Put(e.(busy := None), id, f.conn), s.Inc(x));
  }

  lemma RejectLinked(s: System, x: Side, id: nat)
    requires Inv(s) && Is(s.End(x), Arriving(id))
    ensures id in s.End(x).conns && id !in s.a.ids.unannounced
    ensures Linked(s, x, id, Reject(s.End(x).conns[id], id), s.Inc(x))
  {
    assert BusyOk(s.End(x)) && LinkInv(s, id);
    LinkBoth(s, x, id);
    PairReject(s.End(x).conns[id], s.End(Other(x)).conns[id], Proj(s.Out(x), id), Proj(s.Inc(x), id), id);
    hide Both;
  }

  lemma GoesOn(s: System, x: Side)
    requires EndInv(s.End(x)) && CanResume(s.End(x)) && !(s.End(x).busy.value.Arriving? && s.End(x).door.stopped)
    ensures var e' := Resume(s.End(x)).e;
      && EndInv(e') && SameConns(s.End(x), e') && e'.mapLocked == s.End(x).mapLocked && !Reads(e')
      && Next(s, Proceed(x)) == s.With(x, e', s.Out(x), s.Inc(x))
  {
    ResumeKeeps(s.End(x));
    hide EndInv;
    assert s.Out(x) + [] == s.Out(x);
  }

  lemma ProceedKeeps(s: System, x: Side)
    requires Inv(s) && CanResume(s.End(x))
    ensures Inv(Next(s, Proceed(x)))
  {
    hide EndInv, LinkInv, IdsInv, Next;
    var e := s.End(x);
    if e.busy.value.Arriving? && e.door.stopped {
      RejectKeepsInv(s, x, e.busy.value.id);
    } else {
      GoesOn(s, x);
      StillLinks(s, x, Resume(e).e, s.Out(x), s.Inc(x));
    }
  }

  // The invariant.

  lemma StartInv()
    ensures Inv(START)
  {
    assert Holders(map[]) == {};
  }

  /** Every step in intended use keeps the invariant. */
  lemma NextKeeps(s: System, act: Action)
    requires Inv(s) && Enabled(s, act) && Disciplined(s, act)
    ensures Inv(Next(s, act))
  {
    match act
    case User(x, call) =>
      match call {
        case RegisterConn(hasCallback, details) => RegisterKeepsInv(s, hasCallback, details);
        case AnnounceConn(id) => AnnounceKeepsInv(s, id);
        case TakeOffer => PlainCallKeeps(s, x, call);
        case NoMoreConnections => PlainCallKeeps(s, x, call);
        case _ => CallKeeps(s, x, call);
      }
    case Deliver(x) => DeliverKeeps(s, x);
    case Proceed(x) => ProceedKeeps(s, x);
  }

  lemma DeliverKeeps(s: System, x: Side)
    requires Inv(s) && Enabled(s, Deliver(x))
    ensures Inv(Next(s, Deliver(x)))
  {
    match s.Inc(x)[0]
    case New(id, _) => HeadKnown(s, x, id); NewKeepsInv(s);
    case Success(_) => SuccessKeepsInv(s, x);
    case NoMore => AnonymousKeeps(s, x);
    case Unknown(_) => AnonymousKeeps(s, x);
    case _ => PacketKeeps(s, x);
  }
}
