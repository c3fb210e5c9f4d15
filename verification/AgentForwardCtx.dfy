/** `Connection` and `ForwardCtx` as the objects they are, every method tied to the endpoint model and
    keeping its books: the wait group is zero exactly if every connection is CLOSED and none was rejected. */
module AgentForwardCtx {
  import opened Wrappers
  import opened AgentConnection
  import E = AgentEndpoint
  import T = AgentTheorems

  datatype WriteResult = Wrote(n: nat) | Refused | Waits
  datatype KillResult = Panics | Hangs | Returns

  class Connection {
    const id: nat
    const initiator: bool
    const hasCallback: bool
    const details: Details           // not set at the side that opens the connection
    ghost const given: Details       // what it was opened with
    const ctx: ForwardCtx
    var state: State
    var pipeClosed: bool
    var received: Bytes
    var callbackRuns: nat
    /** The same connection in the model, with its history. */
    ghost var model: Conn

    constructor (id: nat, initiator: bool, hasCallback: bool, given: Details, ctx: ForwardCtx)
      ensures this.id == id && this.initiator == initiator && this.ctx == ctx && this.given == given
      ensures details == if initiator then NO_DETAILS else given
      ensures this.hasCallback == hasCallback && state.WaitInit?
      ensures Coupled() && model == Fresh(initiator, hasCallback)
    {
      this.id, this.initiator, this.hasCallback, this.given, this.ctx := id, initiator, hasCallback, given, ctx;
      details := if initiator then NO_DETAILS else given;
      state, pipeClosed, received, callbackRuns := WaitInit, false, [], 0;
      model := Fresh(initiator, hasCallback);
    }

    ghost predicate Coupled()
      reads this
    {
      && model.state == state && model.io.closed == pipeClosed && model.io.got == received
      && model.tally.callbacks == callbackRuns
      && model.initiator == initiator && model.tally.hasCallback == hasCallback && !model.shut.owed
      && details == if initiator then NO_DETAILS else given
    }

    ghost predicate Live()
      reads this, ctx, ctx.connMap.Values
    {
      ctx.Valid() && id in ctx.connMap && ctx.connMap[id] == this
    }

    /** All the data, the error of a closed connection, or a wait for the state to change. */
    method Write(data: Bytes) returns (r: WriteResult)
      requires Live()
      modifies this, ctx`sent
      ensures Live()
      ensures if old(state).WaitInit? then ctx.View() == old(ctx.View()) && ctx.sent == old(ctx.sent)
              else ctx.Did(old(ctx.View()), old(ctx.sent), id, AgentConnection.Write(old(model), id, data))
      ensures r == match old(state) case WaitInit => Waits case Started => Wrote(|data|) case _ => Refused
      ensures state == old(state) && (r.Refused? ==> pipeClosed) && (!r.Refused? ==> pipeClosed == old(pipeClosed))
      ensures ctx.sent == old(ctx.sent) + if r.Wrote? then [Data(id, data)] else []
    {
      hide E.Books, E.ConnOk, E.Put, ForwardCtx.View, ForwardCtx.Models, AgentConnection.Write;
      if state.WaitInit? {
        r := Waits;
      } else {
        assert model.state == state by { ctx.ModelOk(this); }
        r := WriteNow(data);
      }
    }

    /** `Write` when it need not wait. */
    method WriteNow(data: Bytes) returns (r: WriteResult)
      requires Live() && !state.WaitInit? && model.state == state
      modifies this, ctx`sent
      ensures Live() && ctx.Did(old(ctx.View()), old(ctx.sent), id, AgentConnection.Write(old(model), id, data))
      ensures r == if old(state).Started? then Wrote(|data|) else Refused
      ensures state == old(state) && (r.Refused? ==> pipeClosed) && (!r.Refused? ==> pipeClosed == old(pipeClosed))
      ensures ctx.sent == old(ctx.sent) + if r.Wrote? then [Data(id, data)] else []
    {
      hide E.Books, E.ConnOk, E.Put, ForwardCtx.View, ForwardCtx.Models;
      ctx.ModelOk(this);
      E.WriteOk(model, id, data);
      r := Put(data);
      ctx.Lifted(this);
    }

    /** Its body. */
    method Put(data: Bytes) returns (r: WriteResult)
      requires Coupled() && !state.WaitInit?
      modifies this, ctx`sent
      ensures Coupled() && model == AgentConnection.Write(old(model), id, data).conn
      ensures ctx.sent == old(ctx.sent) + AgentConnection.Write(old(model), id, data).sent
      ensures r == if old(state).Started? then Wrote(|data|) else Refused
      ensures state == old(state) && (r.Refused? ==> pipeClosed) && (!r.Refused? ==> pipeClosed == old(pipeClosed))
      ensures ctx.sent == old(ctx.sent) + if r.Wrote? then [Data(id, data)] else []
    {
      model := AgentConnection.Write(model, id, data).conn;
      if state.Started? {
        ctx.WritePacket(Data(id, data));
        r := Wrote(|data|);
      } else {
        pipeClosed := true;
        r := Refused;
      }
    }

    /** `told` is whether CLOSE was sent. */
    method Close() returns (told: bool)
      requires Live()
      modifies this, ctx`sent
      ensures Live() && ctx.Did(old(ctx.View()), old(ctx.sent), id, FinishClose(BeginClose(old(model)), id))
      ensures told == (old(state).WaitInit? || old(state).Started?)
      ensures ctx.sent == old(ctx.sent) + if told then [Packet.Close(id)] else []
      ensures state == (if told then WaitClose else old(state)) && pipeClosed == old(pipeClosed)
    {
      hide E.Books, E.ConnOk, E.Put, ForwardCtx.View, ForwardCtx.Models;
      ctx.ModelOk(this);
      ToldOk(model, id);
      told := Tell();
      ctx.Lifted(this);
    }

    static lemma ToldOk(c: Conn, id: nat)
      requires E.ConnOk(c)
      ensures E.ConnOk(FinishClose(BeginClose(c), id).conn)
    {
      E.CloseOk(c, id);
      E.CloseOk(BeginClose(c), id);
    }

    /** The body of `Close`. */
    method Tell() returns (told: bool)
      requires Coupled()
      modifies this, ctx`sent
      ensures Coupled() && model == FinishClose(BeginClose(old(model)), id).conn
      ensures ctx.sent == old(ctx.sent) + if told then [Packet.Close(id)] else []
      ensures told == (old(state).WaitInit? || old(state).Started?)
      ensures state == (if told then WaitClose else old(state)) && pipeClosed == old(pipeClosed)
    {
      told := state.WaitInit? || state.Started?;
      model := FinishClose(BeginClose(model), id).conn;
      if told {
        state := WaitClose;
        ctx.WritePacket(Packet.Close(id));
      }
    }

    method CloseImm() returns (ok: bool)
      requires Live()
      modifies this, ctx`waitGroup
      ensures Live() && ctx.Did(old(ctx.View()), old(ctx.sent), id, Effect(AgentConnection.CloseImm(old(model)), []))
      ensures ok == !old(state).Closed?
      ensures state.Closed? && (ok ==> pipeClosed) && (!ok ==> pipeClosed == old(pipeClosed))
      ensures callbackRuns == old(callbackRuns) + (if ok && hasCallback then 1 else 0)
      ensures ctx.waitGroup == old(ctx.waitGroup) - (if ok then 1 else 0)
    {
      hide E.Books, E.ConnOk, E.Put, ForwardCtx.View, ForwardCtx.Models, AgentConnection.CloseImm;
      ctx.ModelOk(this);
      E.CloseImmOk(model);
      ok := Shut();
      ctx.Lifted(this);
    }

    /** The body of `CloseImm`. */
    method Shut() returns (ok: bool)
      requires Coupled()
      modifies this, ctx`waitGroup
      ensures Coupled() && model == AgentConnection.CloseImm(old(model))
      ensures ctx.waitGroup == old(ctx.waitGroup) + old(model.tally.releases) - model.tally.releases
      ensures ok == !old(state).Closed?
      ensures state.Closed? && (ok ==> pipeClosed) && (!ok ==> pipeClosed == old(pipeClosed))
      ensures callbackRuns == old(callbackRuns) + (if ok && hasCallback then 1 else 0)
      ensures ctx.waitGroup == old(ctx.waitGroup) - (if ok then 1 else 0)
    {
      ok := !state.Closed?;
      model := AgentConnection.CloseImm(model);
      if ok {
        state := Closed;
        if hasCallback { callbackRuns := callbackRuns + 1; }
        pipeClosed := true;
        ctx.waitGroup := ctx.waitGroup - 1;
      }
    }

    /** The body of `handleData`. */
    method Receive(payload: Bytes)
      requires Coupled()
      modifies this
      ensures Coupled() && model == AgentConnection.HandleData(old(model), payload) && state == old(state)
      ensures received == old(received) + if state.Started? && !old(pipeClosed) then payload else []
    {
      model := AgentConnection.HandleData(model, payload);
      if state.Started? && !pipeClosed { received := received + payload; }
    }

    /** What `handleClose` and `handleError` do to the connection they name. */
    method Conclude(ghost was: Conn) returns (ok: bool)
      requires Coupled() && (was == Heard(model) || was == Took(model))
      modifies this, ctx`waitGroup
      ensures Coupled() && model == AgentConnection.CloseImm(was) && ok == !old(state).Closed?
      ensures ctx.waitGroup == old(ctx.waitGroup) + old(model.tally.releases) - model.tally.releases
      ensures state.Closed? && (ok ==> pipeClosed) && (!ok ==> pipeClosed == old(pipeClosed))
      ensures callbackRuns == old(callbackRuns) + (if ok && hasCallback then 1 else 0)
      ensures ctx.waitGroup == old(ctx.waitGroup) - (if ok then 1 else 0)
    {
      hide AgentConnection.CloseImm;
      model := was;
      ok := Shut();
    }

    method Accept() returns (ok: bool)
      requires Live()
      modifies this, ctx`sent
      ensures Live() && ctx.Did(old(ctx.View()), old(ctx.sent), id, AgentConnection.Accept(old(model), id))
      ensures ok == (!initiator && old(state).WaitInit?)
      ensures state == if ok then Started else old(state)
      ensures ctx.sent == old(ctx.sent) + if ok then [Success(id)] else []
    {
      hide E.Books, E.ConnOk, E.Put, ForwardCtx.View, ForwardCtx.Models;
      ctx.ModelOk(this);
      E.AnswerOk(model, id);
      ok := DoAccept();
      ctx.Lifted(this);
    }

    /** The body of `Accept`. */
    method DoAccept() returns (ok: bool)
      requires Coupled()
      modifies this, ctx`sent
      ensures Coupled() && model == AgentConnection.Accept(old(model), id).conn
      ensures ctx.sent == old(ctx.sent) + AgentConnection.Accept(old(model), id).sent
      ensures ok == (!initiator && old(state).WaitInit?)
      ensures state == if ok then Started else old(state)
      ensures ctx.sent == old(ctx.sent) + if ok then [Success(id)] else []
    {
      ok := !initiator && state.WaitInit?;
      model := AgentConnection.Accept(model, id).conn;
      if ok {
        state := Started;
        ctx.WritePacket(Success(id));
      }
    }

    method Reject() returns (ok: bool)
      requires Live()
      modifies this, ctx`sent
      ensures Live() && ctx.Did(old(ctx.View()), old(ctx.sent), id, AgentConnection.Reject(old(model), id))
      ensures ok == (!initiator && old(state).WaitInit?)
      ensures state == (if ok then Closed else old(state)) && ctx.sent == old(ctx.sent) + if ok then [Error(id)] else []
    {
      hide E.Books, E.ConnOk, E.Put, ForwardCtx.View, ForwardCtx.Models;
      ctx.ModelOk(this);
      E.AnswerOk(model, id);
      ok := DoReject();
      ctx.Lifted(this);
    }

    /** The body of `Reject`. */
    method DoReject() returns (ok: bool)
      requires Coupled()
      modifies this, ctx`sent
      ensures Coupled() && model == AgentConnection.Reject(old(model), id).conn
      ensures ctx.sent == old(ctx.sent) + AgentConnection.Reject(old(model), id).sent
      ensures ok == (!initiator && old(state).WaitInit?)
      ensures state == (if ok then Closed else old(state)) && ctx.sent == old(ctx.sent) + if ok then [Error(id)] else []
    {
      ok := !initiator && state.WaitInit?;
      model := AgentConnection.Reject(model, id).conn;
      if ok {
        state := Closed;
        ctx.WritePacket(Error(id));
      }
    }
  }

  class ForwardCtx {
    var stopped: bool
    var counter: nat
    var connMap: map<nat, Connection>
    var waitGroup: int
    var closed: bool              // connectionChannel is closed
    var panicked: bool
    var offering: Option<nat>     // the handler waits to send this connection on connectionChannel
    var offered: seq<nat>
    var mapLocked: bool
    var sent: seq<Packet>
    /** Registered by `newConnection`, whose NEW is not written yet. */
    ghost var unannounced: map<nat, Details>

    constructor ()
      ensures Valid() && View() == E.INITIAL && sent == []
    {
      stopped, counter, connMap, waitGroup, closed, panicked := false, 0, map[], 0, false, false;
      offering, offered, mapLocked, sent, unannounced := None, [], false, [], map[];
      new;
      assert E.Holders(map[]) == {};
    }

    ghost predicate Linked()
      reads this, connMap.Values
    {
      forall i | i in connMap :: connMap[i].id == i && connMap[i].ctx == this && connMap[i].Coupled()
    }

    ghost predicate Valid()
      reads this, connMap.Values
    {
      && Linked() && E.Books(View()) && (panicked || closed == stopped)
      && (offering.Some? ==> offering.value in connMap && !connMap[offering.value].initiator)
    }

    ghost function Models(): map<nat, Conn>
      reads this, connMap.Values
    {
      map i | i in connMap :: connMap[i].model
    }

    /** What the connections were opened with, which is fixed when they are made. */
    static ghost function DetailsOf(conns: map<nat, Connection>): map<nat, Details> {
      map i | i in conns :: conns[i].given
    }

    static lemma DetailsMore(conns: map<nat, Connection>, id: nat, conn: Connection)
      ensures DetailsOf(conns[id := conn]) == DetailsOf(conns)[id := conn.given]
    {
    }

    ghost function View(): E.Endpoint
      reads this, connMap.Values
    {
      E.Endpoint(E.Ids(counter, unannounced, DetailsOf(connMap)), E.Door(stopped, closed, panicked, offered), Models(),
                 waitGroup, mapLocked, if offering.Some? then Some(E.Offering(offering.value)) else None)
    }

    lemma Seen()
      ensures View().conns.Keys == connMap.Keys && View().ids == E.Ids(counter, unannounced, DetailsOf(connMap))
      ensures View().busy == if offering.Some? then Some(E.Offering(offering.value)) else None
      ensures View().door == E.Door(stopped, closed, panicked, offered) && View().wg == waitGroup
    {
    }

    /** The state is that of `r`, whose packets have been written after `before`. */
    ghost predicate Became(r: E.Out, before: seq<Packet>)
      reads this, connMap.Values
    {
      View() == r.e && sent == before + r.sent
    }

    /** ... where `r` is the step `f` of connection `id`. */
    ghost predicate Did(e: E.Endpoint, before: seq<Packet>, id: nat, f: Effect)
      reads this, connMap.Values
    {
      id in e.conns && Became(E.Lift(e, id, f), before)
    }

    lemma ModelOk(c: Connection)
      requires Valid() && c.id in connMap && connMap[c.id] == c
      ensures E.ConnOk(c.model) && c.Coupled()
    {
      assert Models()[c.id] == c.model;
    }

    /** The wait group does not panic. */
    lemma Alive()
      requires Valid()
      ensures waitGroup >= 0
    {
    }

    /** A change of one connection and its share of the wait group is a step of the model. */
    twostate lemma Lifted(c: Connection)
      requires old(Valid()) && connMap == old(connMap) && c.id in connMap && connMap[c.id] == c
      requires forall i | i in connMap && i != c.id :: unchanged(connMap[i])
      requires c.Coupled() && waitGroup == old(waitGroup) + old(c.model).tally.releases - c.model.tally.releases
      requires E.ConnOk(c.model)
      requires unchanged(`counter, `stopped, `closed, `panicked, `offering, `offered, `mapLocked, `unannounced)
      ensures Valid() && c.id in old(View()).conns && View() == E.Put(old(View()), c.id, c.model) && View().wg >= 0
    {
      hide E.Books, E.ConnOk, DetailsOf;
      assert Models() == old(Models())[c.id := c.model];
      E.PutBooks(old(View()), c.id, c.model);
    }

    method WritePacket(p: Packet)
      modifies this`sent
      ensures sent == old(sent) + [p]
    {
      sent := sent + [p];
    }

    /** A connection that has been entered in the map. */
    twostate lemma Added(new conn: Connection, id: nat)
      requires old(Valid()) && id !in old(connMap) && connMap == old(connMap)[id := conn]
      requires conn.id == id && conn.ctx == this && conn.Coupled() && conn.model.state.WaitInit? && E.ConnOk(conn.model)
      requires forall i | i in old(connMap) :: unchanged(old(connMap)[i])
      requires counter == id && waitGroup == old(waitGroup) + 1
      requires unchanged(`stopped, `closed, `panicked, `offering, `offered, `mapLocked, `unannounced)
      ensures Valid()
      ensures var e := old(View());
        View() == e.(ids := e.ids.(counter := id, details := e.ids.details[id := conn.given]),
                     conns := e.conns[id := conn.model], wg := e.wg + 1)
    {
      hide E.Books, E.ConnOk, ForwardCtx.DetailsOf;
      DetailsMore(old(connMap), id, conn);
      assert Models() == old(Models())[id := conn.model];
      E.AddBooks(old(View()), id, conn.model, View());
    }

    /** The part that opening and being offered a connection have in common. */
    method Register(id: nat, initiator: bool, hasCallback: bool, details: Details) returns (conn: Connection)
      requires Valid() && id !in connMap
      modifies this`counter, this`connMap, this`waitGroup
      ensures fresh(conn) && conn.ctx == this && conn.id == id && conn.Live()
      ensures conn.initiator == initiator && conn.hasCallback == hasCallback && conn.state.WaitInit?
      ensures counter == id && waitGroup == old(waitGroup) + 1
      ensures conn.model == Fresh(initiator, hasCallback) && connMap == old(connMap)[id := conn]
      ensures conn.given == details && conn.details == if initiator then NO_DETAILS else details
      ensures var e := old(View());
              View() == e.(ids := e.ids.(counter := id, details := e.ids.details[id := details]),
                           conns := e.conns[id := conn.model], wg := e.wg + 1)
    {
      hide E.Books, View, Linked, Models;
      conn := new Connection(id, initiator, hasCallback, details, this);
      counter := id;
      connMap := connMap[id := conn];
      waitGroup := waitGroup + 1;
      Added(conn, id);
    }

    /** `newConnection` under the map lock. Returns null for the "id already exists" error, which leaves the
        lock held. */
    method RegisterConnection(hasCallback: bool, details: Details) returns (conn: Connection?)
      requires Valid() && !mapLocked && !panicked
      modifies this
      ensures Valid() && View() == E.Register(old(View()), hasCallback, details) && sent == old(sent)
      ensures conn != null <==> E.NextId(old(counter)) !in old(connMap)
      ensures conn != null ==> fresh(conn) && conn.ctx == this && conn.Live() && conn.state.WaitInit?
      ensures conn != null ==> conn.id == counter && conn.id in unannounced && unannounced[conn.id] == details
      ensures counter == (if old(counter) >= 0xFFFF_FFFF_FFFF_FFFF then 0 else old(counter) + 1)
      ensures if conn == null then mapLocked && connMap == old(connMap) && waitGroup == old(waitGroup)
              else connMap == old(connMap)[counter := conn] && waitGroup == old(waitGroup) + 1
      ensures conn != null ==> conn.initiator && conn.hasCallback == hasCallback && conn.given == details
      ensures !panicked && (conn != null ==> conn.details == NO_DETAILS)
    {
      hide E.Books, View, Models, Linked, DetailsOf, Fresh;
      Seen();
      var id := E.NextId(counter);
      if id in connMap {
        LoseLock(id);
        return null;
      }
      conn := Register(id, true, hasCallback, details);
      Seen();
      Owe(id, details);
    }

    /** The error path of `newConnection` forgets to unlock. */
    method LoseLock(id: nat)
      requires Valid()
      modifies this`counter, this`mapLocked
      ensures Valid() && View() == old(View()).(ids := old(View()).ids.(counter := id), mapLocked := true)
      ensures counter == id && mapLocked
    {
      hide E.Books;
      counter := id;
      mapLocked := true;
      SameModels();
    }

    ghost method Owe(id: nat, details: Details)
      requires Valid()
      modifies this`unannounced
      ensures Valid() && unannounced == old(unannounced)[id := details]
      ensures View() == old(View()).(ids := E.Ids(counter, unannounced, DetailsOf(connMap)))
    {
      hide E.Books;
      unannounced := unannounced[id := details];
      SameModels();
    }

    /** Nothing that the books depend on has changed. */
    twostate lemma SameModels()
      requires old(Valid()) && connMap == old(connMap) && waitGroup == old(waitGroup)
      requires forall i | i in connMap :: unchanged(connMap[i])
      ensures Models() == old(Models()) && E.Books(View()) && Linked()
    {
      assert Models() == old(Models());
    }

    /** The rest of `newConnection`. */
    method AnnounceConnection(id: nat, details: Details)
      requires Valid() && !panicked && id in unannounced && unannounced[id] == details
      modifies this`sent, this`unannounced
      ensures Valid() && Became(E.Announce(old(View()), id), old(sent))
      ensures sent == old(sent) + [New(id, Some(details))] && unannounced == old(unannounced) - {id}
    {
      hide E.Books;
      WritePacket(New(id, Some(details)));
      unannounced := unannounced - {id};
      SameModels();
    }

    /** `newConnection` without interruption. */
    method NewConnection(hasCallback: bool, details: Details) returns (conn: Connection?)
      requires Valid() && !mapLocked && !panicked
      modifies this
      ensures Valid() && Became(E.Open(old(View()), hasCallback, details), old(sent))
      ensures conn != null <==> E.NextId(old(counter)) !in old(connMap)
      ensures conn != null ==> fresh(conn) && conn.ctx == this && conn.Live() && conn.state.WaitInit?
      ensures sent == old(sent) + if conn == null then [] else [New(conn.id, Some(details))]
      ensures conn != null ==> conn.initiator && conn.details == NO_DETAILS && conn.id == counter
    {
      hide E.Books, View, Models, Linked, DetailsOf;
      Seen();
      conn := RegisterConnection(hasCallback, details);
      if conn != null { AnnounceConnection(conn.id, details); }
    }

    /** Closes the channel, which panics if it is closed or a connection is being offered. */
    method NoMoreConnections()
      requires Valid() && !panicked
      modifies this`stopped, this`closed, this`panicked, this`sent
      ensures Valid() && Became(E.Do(old(View()), E.NoMoreConnections), old(sent))
      ensures panicked <==> old(stopped) || offering.Some?
      ensures stopped && closed && sent == old(sent) + if panicked then [] else [NoMore]
    {
      hide E.Books;
      stopped := true;
      panicked := closed || offering.Some?;
      closed := true;
      if !panicked { WritePacket(NoMore); }
      SameModels();
    }

    /** A receive from the channel: the connection that the handler waits to send. The handler can go on then. */
    method TakeOffer() returns (conn: Connection)
      requires Valid() && !panicked && offering.Some?
      modifies this`offering, this`offered
      ensures Valid() && Became(E.Do(old(View()), E.TakeOffer), old(sent))
      ensures conn.id == old(offering).value && conn.ctx == this && conn.Live() && conn == connMap[conn.id]
      ensures offered == old(offered) + [conn.id] && conn.details == old(View()).ids.details[conn.id]
      ensures forall p :: E.CanReceive(View(), p) <==> !mapLocked || p.NoMore? || p.Unknown?
    {
      hide E.Books;
      conn := connMap[offering.value];
      offered := offered + [offering.value];
      offering := None;
      SameModels();
    }

    method HandleData(conn: Connection, payload: Bytes)
      requires conn.ctx == this && conn.Live()
      modifies conn
      ensures conn.Live()
      ensures Did(old(View()), old(sent), conn.id, Effect(AgentConnection.HandleData(old(conn.model), payload), []))
      ensures conn.state == old(conn.state)
      ensures conn.received == old(conn.received) +
        if old(conn.state).Started? && !old(conn.pipeClosed) then payload else []
    {
      hide E.Books, E.ConnOk, E.Put, ForwardCtx.View, ForwardCtx.Models, AgentConnection.HandleData;
      ModelOk(conn);
      E.DataOk(conn.model, payload);
      conn.Receive(payload);
      DataTally(old(conn.model), payload);
      Lifted(conn);
    }

    static lemma DataTally(c: Conn, payload: Bytes)
      ensures AgentConnection.HandleData(c, payload).tally == c.tally
    {
    }

    method HandleClose(conn: Connection)
      requires conn.ctx == this && conn.Live()
      modifies conn, this`sent, this`waitGroup
      ensures conn.Live() && Did(old(View()), old(sent), conn.id, AgentConnection.HandleClose(old(conn.model), conn.id))
      ensures sent == old(sent) + [if old(conn.state).Closed? then Error(conn.id) else Success(conn.id)]
      ensures conn.state.Closed? && waitGroup == old(waitGroup) - if old(conn.state).Closed? then 0 else 1
    {
      hide E.Books, E.ConnOk, E.Put, ForwardCtx.View, ForwardCtx.Models, AgentConnection.CloseImm;
      ModelOk(conn);
      E.HandleCloseOk(conn.model, conn.id);
      var ok := conn.Conclude(Heard(conn.model));
      WritePacket(if ok then Success(conn.id) else Error(conn.id));
      Lifted(conn);
    }

    /** The reply was to a CLOSE, or a refusal: either way the connection is over. */
    method Conclude(conn: Connection)
      requires conn.ctx == this && conn.Live()
      modifies conn, this`waitGroup
      ensures conn.Live() && Did(old(View()), old(sent), conn.id,
        Effect(AgentConnection.HandleError(old(conn.model)), []))
      ensures conn.state.Closed? && waitGroup == old(waitGroup) - if old(conn.state).Closed? then 0 else 1
    {
      hide E.Books, E.ConnOk, E.Put, ForwardCtx.View, ForwardCtx.Models, AgentConnection.CloseImm;
      ModelOk(conn);
      E.HandleErrorOk(conn.model);
      var _ := conn.Conclude(Took(conn.model));
      Lifted(conn);
    }

    /** The connection is in `state` now, and not over. */
    method Advance(conn: Connection, state: State, ghost m: Conn)
      requires conn.ctx == this && conn.Live()
      requires m == conn.model.(state := state, answer := m.answer, shut := m.shut) && !m.shut.owed && E.ConnOk(m)
      modifies conn
      ensures conn.Live() && Did(old(View()), old(sent), conn.id, Effect(m, [])) && conn.state == state
    {
      hide E.Books, E.ConnOk, E.Put, ForwardCtx.View, ForwardCtx.Models;
      conn.state := state;
      conn.model := m;
      Lifted(conn);
    }

    method HandleSuccess(conn: Connection)
      requires conn.ctx == this && conn.Live()
      modifies conn, this`waitGroup
      ensures conn.Live() && Did(old(View()), old(sent), conn.id,
        Effect(ApplySuccess(old(conn.model), old(conn.state)), []))
      ensures conn.state == match old(conn.state) case WaitInit => Started case WaitClose => Closed case other => other
      ensures waitGroup == old(waitGroup) - if old(conn.state).WaitClose? then 1 else 0
    {
      ModelOk(conn);
      E.SuccessOk(conn.model, conn.state);
      E.ApplyCases(conn.model, conn.state);
      hide ApplySuccess, AgentConnection.HandleError, E.Books, E.ConnOk, E.Put, View, Models;
      match conn.state {
        case WaitInit =>
          Advance(conn, Started, Starts(Took(conn.model)));
        case WaitClose => Conclude(conn);
        case _ => Advance(conn, conn.state, Took(conn.model));
      }
    }

    method HandleError(conn: Connection)
      requires conn.ctx == this && conn.Live()
      modifies conn, this`waitGroup
      ensures conn.Live() && Did(old(View()), old(sent), conn.id,
        Effect(AgentConnection.HandleError(old(conn.model)), []))
      ensures conn.state.Closed? && waitGroup == old(waitGroup) - if old(conn.state).Closed? then 0 else 1
    {
      Conclude(conn);
    }

    /** Registers and rejects, or waits with the offer: exactly a well-formed id above all others, on an endpoint that
        is not stopped, is offered. */
    method HandleNewConnection(id: nat, details: Option<Details>)
      requires Valid() && E.CanReceive(View(), New(id, details))
      modifies this
      ensures Valid() && Became(E.ReceiveWhole(old(View()), New(id, details)), old(sent))
      ensures forall c | c in connMap.Values :: c in old(connMap.Values) || fresh(c)
      ensures offering ==
        if details.Some? && id !in old(connMap) && id > old(counter) && !stopped then Some(id) else None
      ensures if details.Some? && id !in old(connMap) && id > old(counter)
        then
          && connMap.Keys == old(connMap).Keys + {id} && counter == id && waitGroup == old(waitGroup) + 1
          && connMap[id].details == details.value && !connMap[id].initiator
          && connMap[id].state == (if stopped then Closed else WaitInit)
          && sent == old(sent) + if stopped then [Error(id)] else []
        else connMap == old(connMap) && sent == old(sent) && waitGroup == old(waitGroup)
    {
      hide E.Books, E.ReceiveWhole, Fresh, AgentConnection.Reject, Linked, View, Models, DetailsOf, Connection.Coupled;
      Seen();
      E.NewWhole(View(), id, details);
      if details.None? || id in connMap || id <= counter { return; }
      var conn := Register(id, false, false, details.value);
      Settle(conn);
    }

    /** Rejects the connection if the endpoint is stopped, and waits with it for `Accept` otherwise. */
    method Settle(conn: Connection)
      requires conn.ctx == this && conn.Live() && !conn.initiator && conn.state.WaitInit? && offering.None?
      modifies conn, this`sent, this`offering
      ensures conn.Live() && conn.state == if stopped then Closed else WaitInit
      ensures sent == old(sent) + if stopped then [Error(conn.id)] else []
      ensures offering == if stopped then None else Some(conn.id)
      ensures stopped ==>
        Did(old(View()), old(sent), conn.id, AgentConnection.Reject(old(conn.model), conn.id))
      ensures !stopped ==> View() == old(View()).(busy := Some(E.Offering(conn.id)))
    {
      hide E.Books, AgentConnection.Reject, Linked, View, Models;
      if stopped {
        var _ := conn.Reject();
      } else {
        Offer(conn.id);
      }
    }

    method Offer(id: nat)
      requires Valid() && offering.None? && id in connMap && !connMap[id].initiator
      modifies this`offering
      ensures Valid() && View() == old(View()).(busy := Some(E.Offering(id))) && offering == Some(id)
    {
      hide E.Books;
      offering := Some(id);
      SameModels();
    }

    /** Stops the endpoint on the peer's behalf. */
    method HandleNoMore()
      requires Valid() && E.CanReceive(View(), NoMore)
      modifies this`stopped, this`closed, this`panicked
      ensures Valid() && Became(E.ReceiveWhole(old(View()), NoMore), old(sent))
      ensures stopped && closed && (old(stopped) ==> panicked == old(panicked)) && sent == old(sent)
    {
      hide E.Books;
      if !stopped {
        stopped := true;
        panicked := closed;
        closed := true;
      }
      SameModels();
    }

    /** One packet in the loop of `handleBackend`. */
    method HandlePacket(p: Packet)
      requires Valid() && E.CanReceive(View(), p)
      modifies this, connMap.Values
      ensures Valid() && Became(E.ReceiveWhole(old(View()), p), old(sent))
      ensures forall c | c in connMap.Values :: c in old(connMap.Values) || fresh(c)
    {
      match p {
        case NoMore => HandleNoMore();
        case Unknown(_) =>
        case New(id, details) => HandleNewConnection(id, details);
        case _ => HandleOnConnection(p);
      }
    }

    /** What a packet that names a connection, known or not, comes to. */
    lemma NamedPacket(p: Packet)
      requires Valid() && E.CanReceive(View(), p) && E.OfConnection(p)
      ensures E.ReceiveWhole.requires(View(), p)
      ensures p.id in connMap ==>
        && connMap[p.id].id == p.id && connMap[p.id].ctx == this && connMap[p.id].Live() && p.id in View().conns
        && E.ReceiveWhole(View(), p) == E.Lift(View(), p.id, E.WholeEffect(connMap[p.id].model, p))
      ensures p.id !in connMap ==>
        E.ReceiveWhole(View(), p) == E.Out(if p.Close? then View().(mapLocked := true) else View(), [], true)
    {
      E.NamedWhole(View(), p);
      hide E.Books, E.ReceiveWhole, E.WholeEffect;
    }

    /** `handleClose` forgets to unlock if it does not know the connection. */
    method LeaveLocked()
      requires Valid()
      modifies this`mapLocked
      ensures Valid() && View() == old(View()).(mapLocked := true)
    {
      hide E.Books;
      mapLocked := true;
      SameModels();
    }

    method HandleOnConnection(p: Packet)
      requires Valid() && E.CanReceive(View(), p) && E.OfConnection(p)
      modifies this, connMap.Values
      ensures Valid() && Became(E.ReceiveWhole(old(View()), p), old(sent)) && connMap == old(connMap)
    {
      hide E.Books, E.ReceiveWhole, E.Lift, E.WholeEffect, View, Models, Linked, ForwardCtx.Valid;
      NamedPacket(p);
      if p.id in connMap {
        Dispatch(connMap[p.id], p);
      } else if p.Close? {
        LeaveLocked();
      }
    }

    method Dispatch(conn: Connection, p: Packet)
      requires conn.ctx == this && conn.Live() && E.OfConnection(p) && p.id == conn.id
      modifies conn, this`sent, this`waitGroup
      ensures conn.Live() && Did(old(View()), old(sent), conn.id, E.WholeEffect(old(conn.model), p))
    {
      hide AgentConnection.HandleClose, AgentConnection.HandleData, AgentConnection.HandleError, ApplySuccess;
      hide E.Books, View, Models, Linked, E.ConnOk, E.Lift, E.Put;
      ModelOk(conn);
      match p {
        case Close(_) => HandleClose(conn);
        case Data(_, payload) => HandleData(conn, payload);
        case Success(_) => HandleSuccess(conn);
        case Error(_) => HandleError(conn);
      }
    }

    /** Handles `packets`, all that the pipe delivers; `rest` is what is not read because the handler waits
        for an offer to be taken or for the map lock that it lost. */
    method HandleBackend(packets: seq<Packet>) returns (rest: seq<Packet>)
      requires Valid()
      modifies this, connMap.Values
      ensures Valid()
      ensures var h := E.HandleAll(old(View()), packets);
              View() == h.e && sent == old(sent) + h.sent && rest == h.rest
      ensures rest == [] || mapLocked || offering.Some? || panicked
      ensures forall c | c in connMap.Values :: c in old(connMap.Values) || fresh(c)
    {
      hide E.Books, E.ReceiveWhole;
      rest := packets;
      while rest != [] && !panicked && offering.None? && (!mapLocked || rest[0].NoMore? || rest[0].Unknown?)
        invariant Valid()
        invariant forall c | c in connMap.Values :: c in old(connMap.Values) || fresh(c)
        invariant E.Continues(old(View()), old(sent), packets, View(), sent, rest)
        decreases |rest|
      {
        Alive();
        E.ContinueStep(old(View()), old(sent), packets, View(), sent, rest);
        HandlePacket(rest[0]);
        rest := rest[1..];
      }
    }

    /** `WaitFinish` returns exactly if every connection is CLOSED and none was rejected here. */
    method WaitFinish() returns (done: bool)
      requires Valid()
      ensures done <==> forall i | i in connMap :: connMap[i].state.Closed? && !connMap[i].model.answer.rejected
    {
      E.WaitFinishIff(View());
      assert forall i | i in connMap :: Models()[i] == connMap[i].model && connMap[i].Coupled();
      done := waitGroup == 0;
    }

    static predicate Open(c: Conn) { c.state.WaitInit? || c.state.Started? }

    /** A connection after `Close`. */
    static function Told(c: Conn, id: nat): Conn { FinishClose(BeginClose(c), id).conn }

    /** `ps` are the CLOSE packets of the open connections, one each. */
    static ghost predicate ClosesOf(ps: seq<Packet>, was: map<nat, Conn>, todo: set<nat>) {
      && (forall p | p in ps :: p.Close? && p.id in was && p.id !in todo && Open(was[p.id]))
      && (forall i | i in was && i !in todo && Open(was[i]) :: Packet.Close(i) in ps)
      && (forall j, k | 0 <= j < k < |ps| :: ps[j] != ps[k])
    }

    static lemma PartlyMore(now: map<nat, Conn>, was: map<nat, Conn>, todo: set<nat>, i: nat)
      requires Partly(now, was, todo) && i in todo
      ensures i in now && i in was && Partly(now[i := Told(now[i], i)], was, todo - {i}) && now[i] == was[i]
    {
    }

    static lemma ClosesMore(ps: seq<Packet>, was: map<nat, Conn>, todo: set<nat>, i: nat)
      requires ClosesOf(ps, was, todo) && i in todo && i in was
      ensures ClosesOf(if Open(was[i]) then ps + [Packet.Close(i)] else ps, was, todo - {i})
    {
      assert Packet.Close(i) !in ps;
    }

    lemma NoneTold()
      ensures Partly(Models(), Models(), connMap.Keys) && ClosesOf([], Models(), connMap.Keys)
    {
    }

    method CloseOne(i: nat) returns (told: bool)
      requires Valid() && i in connMap
      modifies this`sent, connMap[i]
      ensures Valid() && Models() == old(Models())[i := Told(old(Models())[i], i)]
      ensures told == Open(old(Models())[i]) && sent == old(sent) + if told then [Packet.Close(i)] else []
    {
      ModelOk(connMap[i]);
      Connection.ToldOk(connMap[i].model, i);
      hide E.Books, E.ConnOk, E.Put, ForwardCtx.View, ForwardCtx.Models;
      told := connMap[i].Tell();
      Lifted(connMap[i]);
    }

    /** The connections in `todo` are still as they were. */
    static ghost predicate Partly(now: map<nat, Conn>, was: map<nat, Conn>, todo: set<nat>) {
      todo <= was.Keys == now.Keys && forall i | i in was :: now[i] == if i in todo then was[i] else Told(was[i], i)
    }

    /** The connections that `Close` has something to do for. */
    ghost function OpenIds(): set<nat>
      reads this`connMap, connMap.Values
    {
      set i | i in connMap && (connMap[i].state.WaitInit? || connMap[i].state.Started?)
    }

    /** One CLOSE for each of `ids`, in some order, and nothing else. */
    static ghost predicate OneCloseEach(ps: seq<Packet>, ids: set<nat>) {
      && (forall p | p in ps :: p.Close? && p.id in ids)
      && (forall i | i in ids :: Packet.Close(i) in ps)
      && (forall j, k | 0 <= j < k < |ps| :: ps[j] != ps[k])
    }

    static ghost function OpenOf(conns: map<nat, Conn>): set<nat> { set i | i in conns && Open(conns[i]) }

    lemma OpenIs()
      requires Valid()
      ensures OpenIds() == OpenOf(Models())
    {
      assert forall i | i in connMap :: Models()[i] == connMap[i].model && connMap[i].Coupled();
      hide E.Books;
    }

    static lemma ClosesEach(ps: seq<Packet>, was: map<nat, Conn>, left: set<nat>)
      requires ClosesOf(ps, was, left)
      ensures OneCloseEach(ps, OpenOf(was) - left)
    {
    }

    /** Calls `Close` on every connection, as `Kill` does, in the order of the map's iteration. If the handler is
        writing to connection `unread`, whose reader does not read, it holds that connection's lock, and the
        loop gets no further than that; `left` are the connections not closed. */
    method CloseAll(unread: Option<nat>) returns (closes: seq<Packet>, left: set<nat>)
      requires Valid() && (unread.Some? ==> unread.value in connMap)
      modifies this`sent, connMap.Values
      ensures Valid() && connMap == old(connMap)
      ensures Partly(Models(), old(Models()), left)
      ensures sent == old(sent) + closes && ClosesOf(closes, old(Models()), left)
      ensures OneCloseEach(closes, old(OpenIds()) - left)
      ensures if unread.Some? then unread.value in left else left == {}
    {
      hide *;
      ghost var was := Models();
      OpenIs();
      NoneTold();
      closes := [];
      left := connMap.Keys;
      while left != {}
        invariant Valid() && Partly(Models(), was, left) && left <= connMap.Keys
        invariant sent == old(sent) + closes && ClosesOf(closes, was, left)
        invariant unread.Some? ==> unread.value in left
        decreases left
      {
        var i :| i in left;
        if unread == Some(i) { break; }
        PartlyMore(Models(), was, left, i);
        ClosesMore(closes, was, left, i);
        Assoc(old(sent), closes, [Packet.Close(i)]);
        var told := CloseOne(i);
        if told { closes := closes + [Packet.Close(i)]; }
        left := left - {i};
      }
      ClosesEach(closes, was, left);
    }

    method ForceOne(i: nat)
      requires Valid() && i in connMap
      modifies this`waitGroup, connMap[i]
      ensures Valid() && Models() == old(Models())[i := AgentConnection.CloseImm(old(Models())[i])]
    {
      hide E.Books;
      var _ := connMap[i].CloseImm();
    }

    /** The connections that are not in `todo` have been forced shut. */
    static ghost predicate PartlyShut(now: map<nat, Conn>, was: map<nat, Conn>, todo: set<nat>) {
      && todo <= was.Keys == now.Keys
      && forall i | i in was :: now[i] == if i in todo then was[i] else AgentConnection.CloseImm(was[i])
    }

    static lemma ShutNone(was: map<nat, Conn>)
      ensures PartlyShut(was, was, was.Keys)
    {
    }

    static lemma ShutMore(now: map<nat, Conn>, was: map<nat, Conn>, todo: set<nat>, i: nat)
      requires PartlyShut(now, was, todo) && i in todo
      ensures PartlyShut(now[i := AgentConnection.CloseImm(now[i])], was, todo - {i})
    {
      hide AgentConnection.CloseImm;
    }

    /** The timer of `Kill`: `CloseImm` on every connection. */
    method ForceAll()
      requires Valid()
      modifies this`waitGroup, connMap.Values
      ensures Valid() && connMap == old(connMap) && PartlyShut(Models(), old(Models()), {})
    {
      hide E.Books, PartlyShut;
      ghost var was := Models();
      ShutNone(was);
      assert was.Keys == connMap.Keys;
      var todo := connMap.Keys;
      while todo != {}
        invariant Valid() && PartlyShut(Models(), was, todo)
        decreases todo
      {
        var i :| i in todo;
        ShutMore(Models(), was, todo, i);
        ForceOne(i);
        todo := todo - {i};
      }
    }

    /** What is left of the wait group after the timer. */
    lemma ForcedFinish(was: map<nat, Conn>)
      requires Valid() && PartlyShut(Models(), was, {})
      ensures waitGroup == 0 <==> forall i | i in connMap :: !connMap[i].model.answer.rejected
      ensures forall i | i in connMap :: connMap[i].state.Closed?
    {
      E.WaitFinishIff(View());
      forall i | i in connMap ensures Models()[i] == connMap[i].model && connMap[i].model.state.Closed? {
        assert i in was;
      }
    }

    static lemma ToldCloses(c: Conn, id: nat)
      ensures T.Closing(Told(c, id))
    {
    }

    /** Nobody is left out: the endpoint is where `Kill` begins to wait. */
    lemma AllClosing(was: map<nat, Conn>)
      requires Valid() && stopped && Partly(Models(), was, {})
      ensures T.Killed(View())
    {
      hide E.Books, Told, T.Closing;
      forall i | i in was ensures T.Closing(Told(was[i], i)) { ToldCloses(was[i], i); }
    }

    /** `Kill` up to the wait: NO_MORE_CONNECTIONS if the endpoint was not stopped, and then a CLOSE for every
        connection that is not closing; fewer, and not for `unread`, if it gets stuck there. */
    method StopAndClose(unread: Option<nat>) returns (closes: seq<Packet>, left: set<nat>)
      requires Valid() && !panicked && (unread.Some? ==> unread.value in connMap)
      modifies this, connMap.Values
      ensures Valid() && connMap == old(connMap) && (panicked <==> !old(stopped) && old(offering).Some?)
      ensures panicked ==> sent == old(sent)
      ensures !panicked ==>
        && sent == old(sent) + (if old(stopped) then [] else [NoMore]) + closes
        && OneCloseEach(closes, old(OpenIds()) - left) && (if unread.Some? then unread.value in left else left == {})
        && stopped && (left == {} ==> T.Killed(View()))
    {
      hide E.Books, Partly, ClosesOf, ForwardCtx.Linked, ForwardCtx.Models, ForwardCtx.OpenIds, OneCloseEach, T.Killed;
      closes, left := [], {};
      if !stopped {
        NoMoreConnections();
        if panicked { return; }
      }
      ghost var was := Models();
      closes, left := CloseAll(unread);
      if left == {} { AllClosing(was); }
    }

    /** Stops the endpoint, closes every connection, and waits; `packets` is what arrives within the five seconds
        of its timer. It panics exactly if a connection is being offered when it stops the endpoint. Else it
        returns exactly if no connection was rejected here and none is `unread`: for that one it waits before
        it starts the timer. It writes NO_MORE_CONNECTIONS exactly if the endpoint was not stopped, then one CLOSE
        for each open connection and no other, then the replies to `packets`; and in the end all is CLOSED. */
    method Kill(packets: seq<Packet>, unread: Option<nat>)
      returns (r: KillResult, ghost closes: seq<Packet>, ghost replies: seq<Packet>)
      requires Valid() && !panicked && (unread.Some? ==> unread.value in connMap)
      modifies this, connMap.Values
      ensures Valid()
      ensures r.Panics? <==> panicked
      ensures panicked <==> !old(stopped) && old(offering).Some?
      ensures !panicked ==> stopped
      ensures r.Returns? <==>
        !panicked && unread.None? && forall i | i in connMap :: !connMap[i].model.answer.rejected
      ensures !panicked ==> sent == old(sent) + (if old(stopped) then [] else [NoMore]) + closes + replies
      ensures !panicked && unread.None? ==>
        && OneCloseEach(closes, old(OpenIds())) && (forall p | p in replies :: p.Success? || p.Error?)
        && forall i | i in connMap :: connMap[i].state.Closed?
      ensures !panicked && unread.Some? ==>
        replies == [] && Packet.Close(unread.value) !in closes
          && forall p | p in closes :: p.Close? && p.id in old(OpenIds())
    {
      hide E.Books, E.HandleAll, Partly, ClosesOf, ForwardCtx.Linked, ForwardCtx.Models;
      replies := [];
      var left;
      closes, left := StopAndClose(unread);
      if panicked { return Panics, closes, replies; }
      if left != {} { return Hangs, closes, replies; }
      r, replies := AwaitEnd(packets);
    }

    /** The wait of `Kill`, with its timer. */
    method AwaitEnd(packets: seq<Packet>) returns (r: KillResult, ghost replies: seq<Packet>)
      requires Valid() && !panicked && stopped
      modifies this, connMap.Values
      ensures Valid() && !panicked && stopped && sent == old(sent) + replies && !r.Panics?
      ensures forall p | p in replies :: p.Success? || p.Error?
      ensures forall i | i in connMap :: connMap[i].state.Closed?
      ensures r.Returns? <==> forall i | i in connMap :: !connMap[i].model.answer.rejected
    {
      hide E.Books, E.HandleAll, ForwardCtx.Linked, ForwardCtx.Models;
      E.StoppedStays(View(), packets);
      E.OnlyReplies(View(), packets);
      replies := E.HandleAll(View(), packets).sent;
      var _ := HandleBackend(packets);
      var done := WaitFinish();
      if done {
        r := Returns;
      } else {
        ghost var was := Models();
        ForceAll();
        ForcedFinish(was);
        r := if waitGroup == 0 then Returns else Hangs;
      }
    }
  }
}
