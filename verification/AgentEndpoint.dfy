/** One `ForwardCtx`: its connections, id counter and wait group, the calls users make and the packets
    it handles. Everything here holds against an arbitrary peer. */
module AgentEndpoint {
  import opened Wrappers
  import opened AgentConnection

  /** Connection ids are uint64. */
  const MAX_ID: nat := 0xFFFF_FFFF_FFFF_FFFF

  /** What the handler of incoming packets is in the middle of. */
  datatype Busy =
    | Reading(id: nat, seen: State)   // handleSuccess has read the state and holds connMapMu
    | Arriving(id: nat)               // handleNewConnection has registered and not yet looked at `stopped`
    | Offering(id: nat)               // handleNewConnection waits to send on connectionChannel
    | Halting                         // NO_MORE_CONNECTIONS found the endpoint not stopped

  /** The last id in use, the connections that `newConnection` has registered and not announced, with what it is
      to announce, and the details that each connection was registered with. */
  datatype Ids = Ids(counter: nat, unannounced: map<nat, Details>, details: map<nat, Details>)

  /** connectionChannel: `closed` if it is, `panicked` if it was closed twice or sent on when closed, and the
      connections taken from it. */
  datatype Door = Door(stopped: bool, closed: bool, panicked: bool, offered: seq<nat>)

  datatype Endpoint = Endpoint(
    ids: Ids,
    door: Door,
    conns: map<nat, Conn>,
    wg: int,
    mapLocked: bool,          // connMapMu was left locked for good
    busy: Option<Busy>)

  const INITIAL := Endpoint(Ids(0, map[], map[]), Door(false, false, false, []), map[], 0, false, None)

  datatype Call =
    | RegisterConn(hasCallback: bool, details: Details)   // newConnection under the map lock
    | AnnounceConn(id: nat)                               // the rest of newConnection
    | TakeOffer                                           // receive from connectionChannel
    | StartClose(id: nat)
    | SendClose(id: nat)
    | WriteBytes(id: nat, data: Bytes)
    | AcceptConn(id: nat)
    | RejectConn(id: nat)
    | ForceClose(id: nat)
    | NoMoreConnections

  /** `done` is false for the first half of `handleSuccess`, which keeps the packet. */
  datatype Out = Out(e: Endpoint, sent: seq<Packet>, done: bool)

  function Put(e: Endpoint, id: nat, c: Conn): Endpoint
    requires id in e.conns
  {
    e.(conns := e.conns[id := c], wg := e.wg + e.conns[id].tally.releases - c.tally.releases)
  }

  /** The process has panicked: the channel was closed twice or under a pending send, or a token was given back
      that the wait group did not have. */
  predicate Dead(e: Endpoint) { e.door.panicked || e.wg < 0 }

  /** A panic of the wait group comes before any reply. */
  function Lift(e: Endpoint, id: nat, f: Effect): Out
    requires id in e.conns
  {
    var e' := Put(e, id, f.conn);
    Out(e', if e'.wg < 0 then [] else f.sent, true)
  }

  predicate Is(e: Endpoint, b: Busy) { e.busy == Some(b) }
  predicate Reads(e: Endpoint) { e.busy.Some? && e.busy.value.Reading? }
  predicate Offers(e: Endpoint) { e.busy.Some? && e.busy.value.Offering? }

  /** The handler has something to finish before the next packet. */
  predicate Waits(e: Endpoint) { e.busy.Some? && !e.busy.value.Reading? }

  /** Connection `i` is being handed over. */
  predicate Handing(e: Endpoint, i: nat) { Is(e, Arriving(i)) || Is(e, Offering(i)) }

  /** The uint64 increment. */
  function NextId(counter: nat): nat { if counter >= MAX_ID then 0 else counter + 1 }

  function Register(e: Endpoint, hasCallback: bool, details: Details): Endpoint {
    var id := NextId(e.ids.counter);
    if id in e.conns then e.(ids := e.ids.(counter := id), mapLocked := true)
    else e.(ids := Ids(id, e.ids.unannounced[id := details], e.ids.details[id := details]),
            conns := e.conns[id := Fresh(true, hasCallback)], wg := e.wg + 1)
  }

  function Announce(e: Endpoint, id: nat): Out
    requires id in e.ids.unannounced
  {
    Out(e.(ids := e.ids.(unannounced := e.ids.unannounced - {id})), [New(id, Some(e.ids.unannounced[id]))], true)
  }

  /** `newConnection` without interruption. */
  function Open(e: Endpoint, hasCallback: bool, details: Details): Out {
    var id := NextId(e.ids.counter);
    if id in e.conns then Out(Register(e, hasCallback, details), [], true)
    else Announce(Register(e, hasCallback, details), id)
  }

  /** Closing the channel panics if it is closed or if the handler waits to send on it. */
  function Stop(e: Endpoint): Out {
    var dead := e.door.closed || Offers(e);
    Out(e.(door := Door(true, true, dead, e.door.offered)), if dead then [] else [NoMore], true)
  }

  predicate OnConnection(call: Call) {
    !call.RegisterConn? && !call.AnnounceConn? && !call.TakeOffer? && !call.NoMoreConnections?
  }

  /** Whether the code lets the call take effect now. */
  predicate Possible(e: Endpoint, call: Call) {
    !Dead(e) &&
    match call
    case RegisterConn(_, _) => !e.mapLocked && !Reads(e)
    case AnnounceConn(id) => id in e.ids.unannounced
    case TakeOffer => Offers(e)
    case NoMoreConnections => true
    case _ => call.id in e.conns && Ready(e.conns[call.id], call)
  }

  predicate Ready(c: Conn, call: Call) {
    && (call.SendClose? ==> c.shut.owed)
    && (call.WriteBytes? ==> !c.state.WaitInit?)
  }

  function OnConn(c: Conn, call: Call): Effect
    requires OnConnection(call) && Ready(c, call)
  {
    match call
    case StartClose(_) => Effect(BeginClose(c), [])
    case SendClose(id) => FinishClose(c, id)
    case WriteBytes(id, data) => Write(c, id, data)
    case AcceptConn(id) => Accept(c, id)
    case RejectConn(id) => Reject(c, id)
    case ForceClose(_) => Effect(CloseImm(c), [])
  }

  function Do(e: Endpoint, call: Call): Out
    requires Possible(e, call)
  {
    match call
    case RegisterConn(hasCallback, details) => Out(Register(e, hasCallback, details), [], true)
    case AnnounceConn(id) => Announce(e, id)
    case TakeOffer => Out(Taken(e, e.busy.value.id), [], true)
    case NoMoreConnections => Stop(e)
    case _ => Lift(e, call.id, OnConn(e.conns[call.id], call))
  }

  /** The connection that was offered has been taken. */
  function Taken(e: Endpoint, id: nat): Endpoint {
    e.(door := e.door.(offered := e.door.offered + [id]), busy := None)
  }

  /** An endpoint that has just registered an incoming connection. */
  function Admitted(e: Endpoint, id: nat, details: Details): Endpoint {
    e.(ids := e.ids.(counter := id, details := e.ids.details[id := details]),
       conns := e.conns[id := Fresh(false, false)], wg := e.wg + 1)
  }

  function HandleNew(e: Endpoint, id: nat, details: Option<Details>): Endpoint {
    if details.None? || id in e.conns || id <= e.ids.counter then e
    else Admitted(e, id, details.value).(busy := Some(Arriving(id)))
  }

  function HandleSuccess(e: Endpoint, id: nat): Out
    requires id in e.conns
  {
    if !Reads(e) then Out(e.(busy := Some(Reading(id, e.conns[id].state))), [], false)
    else Lift(e.(busy := None), id, Effect(ApplySuccess(e.conns[id], e.busy.value.seen), []))
  }

  /** One packet in the loop of `handleBackend`, up to the first point where the handler waits or looks at
      what others may change. */
  function Receive(e: Endpoint, p: Packet): Out
    requires !Waits(e)
  {
    match p
    case NoMore => Out(if e.door.stopped then e else e.(busy := Some(Halting)), [], true)
    case Unknown(_) => Out(e, [], true)
    case New(id, details) => Out(HandleNew(e, id, details), [], true)
    case Close(id) =>
      if id !in e.conns then Out(e.(mapLocked := true), [], true)
      else Lift(e, id, HandleClose(e.conns[id], id))
    case Data(id, payload) =>
      if id !in e.conns then Out(e, [], true)
      else Lift(e, id, Effect(HandleData(e.conns[id], payload), []))
    case Success(id) => if id !in e.conns then Out(e, [], true) else HandleSuccess(e, id)
    case Error(id) =>
      if id !in e.conns then Out(e, [], true)
      else Lift(e, id, Effect(HandleError(e.conns[id]), []))
  }

  /** The handler can go on by itself. */
  predicate CanResume(e: Endpoint) {
    !Dead(e) && e.busy.Some?
      && match e.busy.value { case Arriving(id) => id in e.conns case Halting => true case _ => false }
  }

  function Resume(e: Endpoint): Out
    requires CanResume(e)
  {
    match e.busy.value
    case Arriving(id) =>
      if e.door.stopped then Lift(e.(busy := None), id, Reject(e.conns[id], id))
      else Out(e.(busy := Some(Offering(id))), [], true)
    case Halting => Out(e.(busy := None, door := Door(true, true, e.door.closed, e.door.offered)), [], true)
  }

  /** The handler takes the next packet only when it is done with the last, and waits for connMapMu on
      every packet that names a connection. */
  predicate CanReceive(e: Endpoint, p: Packet) {
    !Dead(e) && !Waits(e) && (e.mapLocked ==> p.NoMore? || p.Unknown?)
  }

  /** `handleBackend` for one packet, with nothing in between, up to where it has to wait. */
  function ReceiveWhole(e: Endpoint, p: Packet): Out
    requires e.busy.None?
  {
    var r := Receive(e, p);
    if !r.done then Receive(r.e, p)
    else if CanResume(r.e) then var q := Resume(r.e); Out(q.e, r.sent + q.sent, true)
    else r
  }

  /** After a packet the handler is idle or waits for its offer to be taken. */
  lemma WholeIdle(e: Endpoint, p: Packet)
    requires e.busy.None? && !Dead(e)
    ensures var r := ReceiveWhole(e, p); r.done && (r.e.busy.None? || Offers(r.e))
  {
  }

  /** NEW without interruption. */
  lemma NewWhole(e: Endpoint, id: nat, details: Option<Details>)
    requires e.busy.None? && !Dead(e)
    ensures ReceiveWhole(e, New(id, details)) ==
      if details.None? || id in e.conns || id <= e.ids.counter then Out(e, [], true)
      else if e.door.stopped then Lift(Admitted(e, id, details.value), id, Reject(Fresh(false, false), id))
      else Out(Admitted(e, id, details.value).(busy := Some(Offering(id))), [], true)
  {
    hide Fresh, Reject;
    if details.Some? && id !in e.conns && id > e.ids.counter {
      var e1 := HandleNew(e, id, details);
      assert e1 == Admitted(e, id, details.value).(busy := Some(Arriving(id)));
      if e.door.stopped {
        var f := Reject(Fresh(false, false), id);
        assert Resume(e1) == Lift(Admitted(e, id, details.value), id, f);
        assert [] + f.sent == f.sent;
      }
    }
  }

  predicate OfConnection(p: Packet) { p.Data? || p.Close? || p.Success? || p.Error? }

  /** What a packet does, without interruption, to the connection it names. */
  function WholeEffect(c: Conn, p: Packet): Effect
    requires OfConnection(p)
  {
    match p
    case Data(_, payload) => Effect(HandleData(c, payload), [])
    case Close(id) => HandleClose(c, id)
    case Success(_) => Effect(ApplySuccess(c, c.state), [])
    case Error(_) => Effect(HandleError(c), [])
  }

  lemma NamedWhole(e: Endpoint, p: Packet)
    requires e.busy.None? && OfConnection(p)
    ensures ReceiveWhole(e, p) ==
      if p.id in e.conns then Lift(e, p.id, WholeEffect(e.conns[p.id], p))
      else Out(if p.Close? then e.(mapLocked := true) else e, [], true)
  {
    hide HandleData, AgentConnection.HandleClose, ApplySuccess, HandleError;
    if p.Success? && p.id in e.conns {
      var e1 := e.(busy := Some(Reading(p.id, e.conns[p.id].state)));
      assert Receive(e, p) == Out(e1, [], false);
      assert e1.(busy := None) == e;
    }
  }

  datatype Handled = Handled(e: Endpoint, sent: seq<Packet>, rest: seq<Packet>)

  /** The loop of `handleBackend`, up to the packet on which it waits. */
  function HandleAll(e: Endpoint, ps: seq<Packet>): Handled
    requires e.busy.None? || Offers(e)
    decreases |ps|
  {
    if ps == [] || !CanReceive(e, ps[0]) then Handled(e, [], ps)
    else
      WholeIdle(e, ps[0]);
      var r := ReceiveWhole(e, ps[0]);
      var h := HandleAll(r.e, ps[1..]);
      Handled(h.e, r.sent + h.sent, h.rest)
  }

  /** Having handled some of `ps` from `e0`, what is left to do from `e` completes the same result. */
  ghost predicate Continues(e0: Endpoint, before: seq<Packet>, ps: seq<Packet>,
                            e: Endpoint, sent: seq<Packet>, rest: seq<Packet>)
  {
    && (e0.busy.None? || Offers(e0)) && (e.busy.None? || Offers(e))
    && var h, k := HandleAll(e0, ps), HandleAll(e, rest);
       h.e == k.e && h.rest == k.rest && before + h.sent == sent + k.sent
  }

  lemma ContinueStep(e0: Endpoint, before: seq<Packet>, ps: seq<Packet>, e: Endpoint, sent: seq<Packet>,
    rest: seq<Packet>)
    requires Continues(e0, before, ps, e, sent, rest) && rest != [] && CanReceive(e, rest[0])
    ensures e.busy.None?
    ensures var r := ReceiveWhole(e, rest[0]); Continues(e0, before, ps, r.e, sent + r.sent, rest[1..])
  {
    var r := ReceiveWhole(e, rest[0]);
    WholeIdle(e, rest[0]);
    hide ReceiveWhole, Receive;
    assert sent + (r.sent + HandleAll(r.e, rest[1..]).sent) == (sent + r.sent) + HandleAll(r.e, rest[1..]).sent;
  }

  /** Handling is sequential: while `handleSuccess` is under way its packet is the next one. */
  predicate InOrder(e: Endpoint, p: Packet) {
    && !Waits(e)
    && (Reads(e) ==> p == Success(e.busy.value.id))
  }

  // Use that the code itself does not enforce.

  /** The handler has read WAITINIT for this connection and is about to overwrite its state. */
  predicate Racing(e: Endpoint, id: nat) {
    Is(e, Reading(id, WaitInit))
  }

  predicate Careful(e: Endpoint, call: Call) {
    match call
    case RegisterConn(_, _) => e.ids.counter < MAX_ID
    case AnnounceConn(_) => true
    case TakeOffer => true
    case NoMoreConnections => !e.door.stopped && !Offers(e) && !Is(e, Halting)
    case SendClose(_) => true
    case WriteBytes(_, _) => true
    case _ => !Racing(e, call.id)
  }

  // The accounting invariant.

  ghost predicate ConnOk(c: Conn) {
    && c.tally.releases == Bit(c.state.Closed? && !c.answer.rejected)
    && c.tally.callbacks == (if c.tally.hasCallback then c.tally.releases else 0)
    && (c.answer.rejected ==> c.state.Closed?)
  }

  /** Connections whose wait-group token has not been given back. */
  ghost function Holders(conns: map<nat, Conn>): set<nat> {
    set i | i in conns && (!conns[i].state.Closed? || conns[i].answer.rejected)
  }

  /** The wait group counts the tokens held. */
  ghost predicate Books(e: Endpoint) {
    (forall i | i in e.conns :: ConnOk(e.conns[i])) && e.wg == |Holders(e.conns)|
  }

  /** The channel is closed exactly when the endpoint is stopped, and never under a pending send. */
  ghost predicate Gate(e: Endpoint) {
    && !e.door.panicked && e.door.closed == e.door.stopped
    && (Offers(e) || Is(e, Halting) ==> !e.door.stopped)
  }

  /** Every incoming connection was handed over, once and in order, or is being handed over, or came too
      late and was rejected unless it had been closed before. */
  ghost predicate Handover(e: Endpoint) {
    && (forall k | 0 <= k < |e.door.offered| :: e.door.offered[k] in e.conns)
    && (forall j, k | 0 <= j < k < |e.door.offered| :: e.door.offered[j] < e.door.offered[k])
    && (forall i | i in e.conns && !e.conns[i].initiator ::
          i in e.door.offered || Handing(e, i) || (e.door.stopped && !e.conns[i].state.WaitInit?))
  }

  ghost predicate IdsOk(e: Endpoint) {
    && e.ids.counter <= MAX_ID
    && (forall i | i in e.conns :: 1 <= i <= e.ids.counter)
    && (forall i | i in e.ids.unannounced :: i in e.conns)
  }

  ghost predicate BusyOk(e: Endpoint) {
    e.busy.Some? ==>
      match e.busy.value
      case Reading(id, seen) => id in e.conns && (seen.WaitInit? ==> e.conns[id].state.WaitInit?)
      case Halting => true
      case _ =>
        var id := e.busy.value.id;
        id in e.conns && !e.conns[id].initiator && forall k | 0 <= k < |e.door.offered| :: e.door.offered[k] < id
  }

  ghost predicate EndInv(e: Endpoint) {
    Books(e) && Gate(e) && IdsOk(e) && Handover(e) && BusyOk(e)
  }

  /** What no step of a connection takes back. */
  ghost predicate Grows(c: Conn, c': Conn) {
    c'.initiator == c.initiator && (c.answer.rejected ==> c'.answer.rejected)
      && (!c.state.WaitInit? ==> !c'.state.WaitInit?)
  }

  lemma ApplyCases(c: Conn, seen: State)
    ensures seen.WaitInit? ==> ApplySuccess(c, seen) == Starts(Took(c))
    ensures seen.WaitClose? ==> ApplySuccess(c, seen) == HandleError(c)
    ensures seen.Started? || seen.Closed? ==> ApplySuccess(c, seen) == Took(c)
  {
    if seen.WaitInit? {
    } else if seen.WaitClose? {
      hide CloseImm;
    }
  }

  lemma SuccessOk(c: Conn, seen: State)
    requires ConnOk(c) && (seen.WaitInit? ==> c.state.WaitInit?)
    ensures ConnOk(ApplySuccess(c, seen)) && Grows(c, ApplySuccess(c, seen))
  {
  }

  lemma CallOk(c: Conn, call: Call)
    requires ConnOk(c) && OnConnection(call) && Ready(c, call)
    ensures ConnOk(OnConn(c, call).conn) && Grows(c, OnConn(c, call).conn)
  {
    hide ConnOk, Grows, BeginClose, FinishClose, Write, Accept, Reject, CloseImm;
    match call
    case StartClose(id) => CloseOk(c, id);
    case SendClose(id) => CloseOk(c, id);
    case WriteBytes(id, data) => WriteOk(c, id, data);
    case AcceptConn(id) => AnswerOk(c, id);
    case RejectConn(id) => AnswerOk(c, id);
    case ForceClose(_) => CloseImmOk(c);
  }

  lemma AnswerOk(c: Conn, id: nat)
    requires ConnOk(c)
    ensures ConnOk(Accept(c, id).conn) && Grows(c, Accept(c, id).conn)
    ensures ConnOk(Reject(c, id).conn) && Grows(c, Reject(c, id).conn)
  {
  }

  lemma WriteOk(c: Conn, id: nat, data: Bytes)
    requires ConnOk(c) && !c.state.WaitInit?
    ensures ConnOk(Write(c, id, data).conn) && Grows(c, Write(c, id, data).conn)
  {
    if c.state.Started? {
      var wrote := c.io.wrote + data;
      assert Write(c, id, data).conn == c.(io := c.io.(wrote := wrote));
      assert ConnOk(c.(io := c.io.(wrote := wrote)));
    }
  }

  lemma CloseOk(c: Conn, id: nat)
    requires ConnOk(c)
    ensures ConnOk(BeginClose(c)) && Grows(c, BeginClose(c))
    ensures ConnOk(FinishClose(c, id).conn) && Grows(c, FinishClose(c, id).conn)
  {
  }

  lemma CloseImmOk(c: Conn)
    requires ConnOk(c)
    ensures ConnOk(CloseImm(c)) && Grows(c, CloseImm(c))
  {
  }

  lemma DataOk(c: Conn, payload: Bytes)
    requires ConnOk(c)
    ensures ConnOk(HandleData(c, payload)) && Grows(c, HandleData(c, payload))
  {
    if c.state.Started? && !c.io.closed {
      var got := c.io.got + payload;
      assert HandleData(c, payload) == c.(io := c.io.(got := got));
      assert ConnOk(c.(io := c.io.(got := got)));
    }
  }

  lemma HandleCloseOk(c: Conn, id: nat)
    requires ConnOk(c)
    ensures ConnOk(HandleClose(c, id).conn) && Grows(c, HandleClose(c, id).conn)
  {
    var h := Heard(c);
    assert ConnOk(h);
    CloseImmOk(h);
    hide CloseImm, ConnOk;
  }

  lemma HandleErrorOk(c: Conn)
    requires ConnOk(c)
    ensures ConnOk(HandleError(c)) && Grows(c, HandleError(c))
  {
    var h := Took(c);
    assert ConnOk(h);
    CloseImmOk(h);
    hide CloseImm, ConnOk;
  }

  lemma HoldersPut(conns: map<nat, Conn>, id: nat, c: Conn)
    requires id in conns && ConnOk(conns[id]) && ConnOk(c)
    ensures |Holders(conns[id := c])| == |Holders(conns)| + conns[id].tally.releases - c.tally.releases
  {
    var h, h' := Holders(conns), Holders(conns[id := c]);
    if c.tally.releases == conns[id].tally.releases {
      assert h' == h;
    } else if c.tally.releases == 0 {
      assert h' == h + {id} && id !in h;
    } else {
      assert h == h' + {id} && id !in h';
    }
  }

  lemma PutBooks(e: Endpoint, id: nat, c: Conn)
    requires Books(e) && id in e.conns && ConnOk(c)
    ensures Books(Put(e, id, c))
  {
    HoldersPut(e.conns, id, c);
  }

  lemma PutHandover(e: Endpoint, id: nat, c: Conn)
    requires Handover(e) && id in e.conns && Grows(e.conns[id], c)
    ensures Handover(Put(e, id, c))
  {
  }

  lemma PutKeeps(e: Endpoint, id: nat, c: Conn)
    requires EndInv(e) && id in e.conns && ConnOk(c) && Grows(e.conns[id], c)
    requires Racing(e, id) ==> c.state.WaitInit?
    ensures EndInv(Put(e, id, c))
  {
    PutBooks(e, id, c);
    PutHandover(e, id, c);
    hide Books, Handover, ConnOk;
  }

  lemma SameBooks(e: Endpoint, e': Endpoint)
    requires Books(e) && e'.conns == e.conns && e'.wg == e.wg
    ensures Books(e')
  {
  }

  lemma AddBooks(e: Endpoint, id: nat, c: Conn, e': Endpoint)
    requires Books(e) && id !in e.conns && c.state.WaitInit? && ConnOk(c)
    requires e'.conns == e.conns[id := c] && e'.wg == e.wg + 1
    ensures Books(e')
  {
    assert Holders(e'.conns) == Holders(e.conns) + {id};
  }

  lemma RegisterHandover(e: Endpoint, hasCallback: bool, details: Details)
    requires Handover(e) && NextId(e.ids.counter) !in e.conns
    ensures Handover(Register(e, hasCallback, details))
  {
  }

  lemma RegisterKeeps(e: Endpoint, hasCallback: bool, details: Details)
    requires EndInv(e) && !Reads(e) && e.ids.counter < MAX_ID
    ensures EndInv(Register(e, hasCallback, details)) && NextId(e.ids.counter) !in e.conns
  {
    AddBooks(e, e.ids.counter + 1, Fresh(true, hasCallback), Register(e, hasCallback, details));
    RegisterHandover(e, hasCallback, details);
    hide Books, ConnOk, Handover;
  }

  lemma NewKeeps(e: Endpoint, id: nat, details: Option<Details>)
    requires EndInv(e) && e.busy.None? && id <= MAX_ID
    ensures EndInv(HandleNew(e, id, details))
  {
    if details.Some? && id > e.ids.counter { AddBooks(e, id, Fresh(false, false), HandleNew(e, id, details)); }
    hide Books, ConnOk;
  }

  lemma SuccessKeeps(e: Endpoint, id: nat)
    requires EndInv(e) && InOrder(e, Success(id)) && id in e.conns
    ensures EndInv(HandleSuccess(e, id).e)
  {
    if Reads(e) {
      var c, seen := e.conns[id], e.busy.value.seen;
      SuccessOk(c, seen);
      IdleKeeps(e);
      PutKeeps(e.(busy := None), id, ApplySuccess(c, seen));
    }
    hide Books, Handover, ApplySuccess;
  }

  lemma IdleKeeps(e: Endpoint)
    requires EndInv(e) && (e.busy.None? || Reads(e))
    ensures EndInv(e.(busy := None))
  {
    assert Books(e.(busy := None));
    hide Books;
  }

  lemma TakeKeeps(e: Endpoint)
    requires EndInv(e) && Offers(e)
    ensures EndInv(Taken(e, e.busy.value.id))
  {
    var id := e.busy.value.id;
    assert Books(Taken(e, id));
    hide Books;
    var o := e.door.offered + [id];
    assert o[|o| - 1] == id;
    forall i | i in e.door.offered ensures i in o {
      var k :| 0 <= k < |e.door.offered| && e.door.offered[k] == i;
      assert o[k] == i;
    }
  }

  /** Every careful call keeps the accounting, whatever the peer does. */
  lemma DoKeeps(e: Endpoint, call: Call)
    requires EndInv(e) && Possible(e, call) && Careful(e, call)
    ensures EndInv(Do(e, call).e)
  {
    hide EndInv, Ready;
    match call
    case RegisterConn(hasCallback, details) => RegisterKeeps(e, hasCallback, details);
    case AnnounceConn(id) => AnnouncedKeeps(e, id);
    case TakeOffer => TakeKeeps(e);
    case NoMoreConnections => StopKeeps(e);
    case _ => OnConnKeeps(e, call);
  }

  lemma AnnouncedKeeps(e: Endpoint, id: nat)
    requires EndInv(e) && id in e.ids.unannounced
    ensures EndInv(Announce(e, id).e)
  {
    SameBooks(e, Announce(e, id).e);
    hide Books;
  }

  lemma StopKeeps(e: Endpoint)
    requires EndInv(e) && !e.door.stopped && !Offers(e) && !Is(e, Halting)
    ensures EndInv(Stop(e).e)
  {
    SameBooks(e, Stop(e).e);
    hide Books;
  }

  lemma OnConnKeeps(e: Endpoint, call: Call)
    requires EndInv(e) && OnConnection(call) && Possible(e, call) && Careful(e, call)
    ensures EndInv(Put(e, call.id, OnConn(e.conns[call.id], call).conn))
  {
    var c := e.conns[call.id];
    assert ConnOk(c) by { assert Books(e); }
    CallOk(c, call);
    if call.SendClose? || call.WriteBytes? { CallStays(c, call); }
    hide EndInv, OnConn, ConnOk, Grows;
    PutKeeps(e, call.id, OnConn(c, call).conn);
  }

  /** The calls that are careful even while the connection is about to be revived leave its state alone. */
  lemma CallStays(c: Conn, call: Call)
    requires OnConnection(call) && Ready(c, call) && (call.SendClose? || call.WriteBytes?)
    ensures OnConn(c, call).conn.state == c.state
  {
  }

  /** Handling any packet keeps the accounting, whatever the peer sent. */
  lemma ReceiveKeeps(e: Endpoint, p: Packet)
    requires EndInv(e) && InOrder(e, p)
    requires p.New? ==> p.id <= MAX_ID
    ensures EndInv(Receive(e, p).e)
  {
    hide EndInv, HandleData, AgentConnection.HandleClose, HandleError, ConnOk, Grows;
    match p
    case NoMore => HaltKeeps(e);
    case Unknown(_) =>
    case New(id, details) => NewKeeps(e, id, details);
    case Success(id) => if id in e.conns { SuccessKeeps(e, id); }
    case Data(id, payload) =>
      if id in e.conns {
        ConnAt(e, id);
        DataOk(e.conns[id], payload);
        PutKeeps(e, id, HandleData(e.conns[id], payload));
      }
    case Close(id) =>
      if id in e.conns {
        ConnAt(e, id);
        HandleCloseOk(e.conns[id], id);
        PutKeeps(e, id, HandleClose(e.conns[id], id).conn);
      } else {
        LockKeeps(e);
      }
    case Error(id) =>
      if id in e.conns { ConnAt(e, id); HandleErrorOk(e.conns[id]); PutKeeps(e, id, HandleError(e.conns[id])); }
  }

  lemma ConnAt(e: Endpoint, id: nat)
    requires EndInv(e) && id in e.conns
    ensures ConnOk(e.conns[id])
  {
  }

  lemma HaltKeeps(e: Endpoint)
    requires EndInv(e) && e.busy.None?
    ensures !e.door.stopped ==> EndInv(e.(busy := Some(Halting)))
  {
    assert Books(e.(busy := Some(Halting)));
    hide Books;
  }

  lemma LockKeeps(e: Endpoint)
    requires EndInv(e)
    ensures EndInv(e.(mapLocked := true))
  {
    assert Books(e.(mapLocked := true));
    hide Books;
  }

  /** A connection that comes too late is rejected, unless it is not waiting any more. */
  lemma LateKeeps(e: Endpoint, id: nat, c: Conn)
    requires EndInv(e) && Is(e, Arriving(id)) && e.door.stopped && id in e.conns
    requires ConnOk(c) && Grows(e.conns[id], c) && !c.state.WaitInit?
    ensures EndInv(Put(e.(busy := None), id, c))
  {
    SameBooks(e, e.(busy := None));
    PutBooks(e.(busy := None), id, c);
    hide Books, ConnOk;
  }

  lemma ResumeKeeps(e: Endpoint)
    requires EndInv(e) && CanResume(e)
    ensures EndInv(Resume(e).e)
  {
    if e.busy.value.Arriving? && e.door.stopped {
      var id := e.busy.value.id;
      AnswerOk(e.conns[id], id);
      assert !Reject(e.conns[id], id).conn.state.WaitInit?;
      LateKeeps(e, id, Reject(e.conns[id], id).conn);
      hide EndInv, Reject, ConnOk;
    } else {
      SameBooks(e, Resume(e).e);
      hide Books;
    }
  }

  // Whole runs of one endpoint.

  datatype Event = Called(call: Call) | Got(packet: Packet) | Resumed

  /** What the code allows, against any peer. */
  predicate Allowed(e: Endpoint, ev: Event) {
    match ev
    case Called(call) => Possible(e, call)
    case Got(p) => CanReceive(e, p) && InOrder(e, p) && (p.New? ==> p.id <= MAX_ID)
    case Resumed => CanResume(e)
  }

  function Step(e: Endpoint, ev: Event): Endpoint
    requires Allowed(e, ev)
  {
    match ev
    case Called(call) => Do(e, call).e
    case Got(p) => Receive(e, p).e
    case Resumed => Resume(e).e
  }

  predicate CarefulEvent(e: Endpoint, ev: Event) { ev.Called? ==> Careful(e, ev.call) }

  predicate AllowedRun(e: Endpoint, evs: seq<Event>)
    decreases |evs|
  {
    evs == [] || (Allowed(e, evs[0]) && AllowedRun(Step(e, evs[0]), evs[1..]))
  }

  predicate CarefulRun(e: Endpoint, evs: seq<Event>)
    requires AllowedRun(e, evs)
    decreases |evs|
  {
    evs == [] || (CarefulEvent(e, evs[0]) && CarefulRun(Step(e, evs[0]), evs[1..]))
  }

  function Run(e: Endpoint, evs: seq<Event>): Endpoint
    requires AllowedRun(e, evs)
    decreases |evs|
  {
    if evs == [] then e else Run(Step(e, evs[0]), evs[1..])
  }

  lemma StepKeeps(e: Endpoint, ev: Event)
    requires EndInv(e) && Allowed(e, ev) && CarefulEvent(e, ev)
    ensures EndInv(Step(e, ev))
  {
    match ev
    case Called(call) => DoKeeps(e, call);
    case Got(p) => ReceiveKeeps(e, p);
    case Resumed => ResumeKeeps(e);
  }

  /** Connections are never forgotten and a rejection is final. */
  ghost predicate Later(e: Endpoint, e': Endpoint) {
    && e.ids.counter <= e'.ids.counter
    && forall i | i in e.conns :: i in e'.conns && (e.conns[i].answer.rejected ==> e'.conns[i].answer.rejected)
  }

  lemma PutLater(e: Endpoint, id: nat, c: Conn)
    requires id in e.conns && Grows(e.conns[id], c)
    ensures Later(e, Put(e, id, c))
  {
  }

  lemma CallLater(e: Endpoint, call: Call)
    requires EndInv(e) && Possible(e, call) && Careful(e, call)
    ensures Later(e, Do(e, call).e)
  {
    if OnConnection(call) {
      CallOk(e.conns[call.id], call);
      PutLater(e, call.id, OnConn(e.conns[call.id], call).conn);
      hide Later, Grows, OnConn, ConnOk;
    } else if call.RegisterConn? {
      RegisterKeeps(e, call.hasCallback, call.details);
    }
  }

  lemma ReceiveLater(e: Endpoint, p: Packet)
    requires EndInv(e) && InOrder(e, p)
    ensures Later(e, Receive(e, p).e)
  {
    hide Handover, AgentConnection.HandleClose, HandleData, HandleError, ApplySuccess, ConnOk;
    match p
    case Data(id, payload) => if id in e.conns { DataOk(e.conns[id], payload); }
    case Close(id) => if id in e.conns { HandleCloseOk(e.conns[id], id); }
    case Error(id) => if id in e.conns { HandleErrorOk(e.conns[id]); }
    case Success(id) => if id in e.conns && Reads(e) { SuccessOk(e.conns[id], e.busy.value.seen); }
    case _ =>
  }

  lemma StepGrows(e: Endpoint, ev: Event)
    requires EndInv(e) && Allowed(e, ev) && CarefulEvent(e, ev)
    ensures Later(e, Step(e, ev))
  {
    match ev
    case Called(call) => CallLater(e, call);
    case Got(p) => ReceiveLater(e, p);
    case Resumed =>
  }

  lemma {:induction false} RunKeeps(e: Endpoint, evs: seq<Event>)
    requires EndInv(e) && AllowedRun(e, evs) && CarefulRun(e, evs)
    ensures EndInv(Run(e, evs)) && Later(e, Run(e, evs))
    decreases |evs|
  {
    if evs != [] {
      hide EndInv, Allowed, Step, CarefulEvent;
      StepKeeps(e, evs[0]);
      StepGrows(e, evs[0]);
      RunKeeps(Step(e, evs[0]), evs[1..]);
    }
  }

  /** Along every careful run of one endpoint, against any peer, the wait group counts the connections that
      are not CLOSED and those that were rejected; no connection is released twice and no close callback
      runs twice; nothing panics; every incoming connection is handed over once and in order. */
  lemma {:induction false} Accounting(evs: seq<Event>)
    requires AllowedRun(INITIAL, evs) && CarefulRun(INITIAL, evs)
    ensures var e := Run(INITIAL, evs);
      && e.wg == |Holders(e.conns)| >= 0
      && (forall i | i in e.conns ::
            1 <= i <= e.ids.counter && e.conns[i].tally.releases <= 1
              && e.conns[i].tally.callbacks <= e.conns[i].tally.releases)
      && !e.door.panicked && e.door.closed == e.door.stopped
      && Handover(e)
  {
    RunKeeps(INITIAL, evs);
  }

  /** `WaitFinish` returns exactly when every connection is CLOSED and none was rejected here: `Reject`
      does not give its token back. */
  lemma WaitFinishIff(e: Endpoint)
    requires Books(e)
    ensures e.wg == 0 <==> forall i | i in e.conns :: e.conns[i].state.Closed? && !e.conns[i].answer.rejected
  {
    if e.wg == 0 {
      assert Holders(e.conns) == {};
      forall i | i in e.conns ensures e.conns[i].state.Closed? && !e.conns[i].answer.rejected {
        assert i !in Holders(e.conns);
      }
    } else {
      var i :| i in Holders(e.conns);
    }
  }

  /** A rejected connection keeps the wait group above zero for the rest of the run. */
  lemma {:induction false} RejectionNeverFinishes(e: Endpoint, evs: seq<Event>, id: nat)
    requires EndInv(e) && AllowedRun(e, evs) && CarefulRun(e, evs) && id in e.conns && e.conns[id].answer.rejected
    ensures Run(e, evs).wg > 0
  {
    RunKeeps(e, evs);
    WaitFinishIff(Run(e, evs));
  }

  /** The new id exceeds every id in use exactly as long as the counter does not wrap; then neither
      `newConnection` nor the re-use check of `handleNewConnection` can meet a registered id that the
      ordering check would have let through. */
  lemma FreshIdIff(e: Endpoint)
    requires EndInv(e)
    ensures e.ids.counter < MAX_ID <==>
      (NextId(e.ids.counter) > e.ids.counter && forall i | i in e.conns :: i < NextId(e.ids.counter))
    ensures e.ids.counter < MAX_ID ==> NextId(e.ids.counter) !in e.conns
    ensures forall id | id in e.conns :: id <= e.ids.counter
  {
  }

  /** In careful use the map lock is lost exactly by a CLOSE for an unknown connection. */
  lemma LockLostIff(e: Endpoint, ev: Event)
    requires EndInv(e) && Allowed(e, ev) && CarefulEvent(e, ev) && !e.mapLocked
    ensures Step(e, ev).mapLocked <==> ev.Got? && ev.packet.Close? && ev.packet.id !in e.conns
  {
    hide OnConn, AgentConnection.HandleClose, HandleData, HandleError, ApplySuccess, Fresh, Reject, Books, Handover;
  }

  /** The handler only answers. */
  lemma {:induction false} OnlyReplies(e: Endpoint, ps: seq<Packet>)
    requires e.busy.None? || Offers(e)
    ensures forall p | p in HandleAll(e, ps).sent :: p.Success? || p.Error?
    decreases |ps|
  {
    if ps != [] && CanReceive(e, ps[0]) {
      WholeIdle(e, ps[0]);
      WholeReplies(e, ps[0]);
      hide ReceiveWhole, CanReceive;
      OnlyReplies(ReceiveWhole(e, ps[0]).e, ps[1..]);
    }
  }

  lemma WholeReplies(e: Endpoint, p: Packet)
    requires e.busy.None? && !Dead(e)
    ensures forall q | q in ReceiveWhole(e, p).sent :: q.Success? || q.Error?
  {
    hide HandleData, HandleError, ApplySuccess, CloseImm, Fresh;
  }

  /** A stopped endpoint handles packets without stopping again. */
  lemma {:induction false} StoppedStays(e: Endpoint, ps: seq<Packet>)
    requires e.door.stopped && !e.door.panicked && (e.busy.None? || Offers(e))
    ensures HandleAll(e, ps).e.door.stopped && !HandleAll(e, ps).e.door.panicked
    decreases |ps|
  {
    if ps != [] && CanReceive(e, ps[0]) {
      WholeIdle(e, ps[0]);
      WholeStopped(e, ps[0]);
      hide ReceiveWhole, CanReceive;
      StoppedStays(ReceiveWhole(e, ps[0]).e, ps[1..]);
    }
  }

  lemma WholeStopped(e: Endpoint, p: Packet)
    requires e.door.stopped && !e.door.panicked && e.busy.None?
    ensures ReceiveWhole(e, p).e.door.stopped && !ReceiveWhole(e, p).e.door.panicked
  {
    hide AgentConnection.HandleClose, HandleData, HandleError, ApplySuccess, Fresh, Reject;
  }

  // Several openings at once.

  /** An endpoint after a NEW and, if it was let in, the hand-over. */
  function TakeIn(e: Endpoint, id: nat, details: Details): Endpoint
    requires e.busy.None?
  {
    HandleNew(e, id, Some(details)).(busy := None)
  }

  function TakeAll(e: Endpoint, ids: seq<nat>, details: Details): Endpoint
    requires e.busy.None?
    decreases |ids|
  {
    if ids == [] then e else TakeAll(TakeIn(e, ids[0], details), ids[1..], details)
  }

  ghost predicate LetIn(e: Endpoint, ids: seq<nat>, details: Details)
    requires e.busy.None?
  {
    forall k | 0 <= k < |ids| :: ids[k] in TakeAll(e, ids, details).conns
  }

  ghost predicate Rising(counter: nat, ids: seq<nat>) {
    && (forall k | 0 <= k < |ids| :: ids[k] > counter)
    && forall j, k | 0 <= j < k < |ids| :: ids[j] < ids[k]
  }

  /** Ids announced one after the other are all let in exactly if they rise: overlapping calls of
      `newConnection` lose a connection as soon as they announce in another order than they registered. */
  lemma {:induction false} AnnouncedInOrderIff(e: Endpoint, ids: seq<nat>, details: Details)
    requires e.busy.None? && IdsOk(e) && (forall k | 0 <= k < |ids| :: ids[k] !in e.conns && ids[k] <= MAX_ID)
    requires forall j, k | 0 <= j < k < |ids| :: ids[j] != ids[k]
    ensures LetIn(e, ids, details) <==> Rising(e.ids.counter, ids)
    ensures forall i | i in e.conns :: i in TakeAll(e, ids, details).conns
    ensures forall i | i in TakeAll(e, ids, details).conns :: i in e.conns || i in ids
    decreases |ids|
  {
    if ids != [] {
      var id, rest := ids[0], ids[1..];
      var e' := TakeIn(e, id, details);
      AnnouncedInOrderIff(e', rest, details);
      var f := TakeAll(e', rest, details);
      assert forall k | 0 < k < |ids| :: ids[k] == rest[k - 1];
      assert forall k | 0 <= k < |rest| :: rest[k] == ids[k + 1];
      if id > e.ids.counter {
        RisingMore(e.ids.counter, ids);
        assert LetIn(e, ids, details) <==> LetIn(e', rest, details);
      } else {
        assert id !in f.conns;
      }
    }
  }

  lemma RisingMore(counter: nat, ids: seq<nat>)
    requires ids != [] && ids[0] > counter
    ensures Rising(counter, ids) <==> Rising(ids[0], ids[1..])
  {
    assert forall k | 0 < k < |ids| :: ids[k] == ids[1..][k - 1];
    assert forall k | 0 <= k < |ids[1..]| :: ids[1..][k] == ids[k + 1];
  }
}
