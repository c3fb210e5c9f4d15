/** What a connection is for: the details that the opener gives to `newConnection` are those that the acceptor
    finds in the connection it is offered. */
module AgentDetails {
  import opened Wrappers
  import opened AgentConnection
  import opened AgentWords
  import opened AgentEndpoint
  import opened AgentSystem
  import opened AgentTheorems

  /** Both sides, and what is to be announced or on the way, have the opener's details. */
  ghost predicate DetailsInv(s: System) {
    && s.a.ids.details.Keys == s.a.conns.Keys && s.b.ids.details.Keys == s.b.conns.Keys
    && (forall i | i in s.b.conns :: i in s.a.conns && s.b.ids.details[i] == s.a.ids.details[i])
    && (forall i | i in s.a.ids.unannounced :: i in s.a.conns && s.a.ids.unannounced[i] == s.a.ids.details[i])
    && (forall p | p in s.ab && p.New? :: p.id in s.a.conns && p.details == Some(s.a.ids.details[p.id]))
  }

  /** A step that has to do with no opening. */
  ghost predicate NoOpening(e: Endpoint, r: Out) {
    && r.e.ids == e.ids && r.e.conns.Keys == e.conns.Keys && forall p | p in r.sent :: !p.New?
  }

  lemma CallNoOpening(e: Endpoint, call: Call)
    requires Possible(e, call) && !call.RegisterConn? && !call.AnnounceConn?
    ensures NoOpening(e, Do(e, call))
  {
    if OnConnection(call) {
      CallSends(e.conns[call.id], call);
      hide OnConn;
    }
  }

  lemma ReceiveNoOpening(e: Endpoint, p: Packet)
    requires !Waits(e) && !p.New?
    ensures NoOpening(e, Receive(e, p))
  {
    hide HandleData, HandleError, ApplySuccess, CloseImm;
  }

  lemma ResumeNoOpening(e: Endpoint)
    requires CanResume(e)
    ensures NoOpening(e, Resume(e))
  {
  }

  /** What one side does without an opening. */
  lemma NoOpeningKeeps(s: System, x: Side, r: Out, inc: seq<Packet>)
    requires DetailsInv(s) && NoOpening(s.End(x), r) && forall p | p in inc :: p in s.Inc(x)
    ensures DetailsInv(s.With(x, r.e, s.Out(x) + r.sent, inc))
  {
  }

  lemma RegisterDetails(s: System, hasCallback: bool, details: Details)
    requires Inv(s) && DetailsInv(s) && s.a.ids.counter < MAX_ID
    ensures DetailsInv(s.With(A, Register(s.a, hasCallback, details), s.ab + [], s.ba))
  {
    hide Inv;
    NextIsFree(s);
    EnterDetails(s.a, hasCallback, details);
    hide Register;
    assert s.ab + [] == s.ab;
  }

  lemma NextIsFree(s: System)
    requires Inv(s) && s.a.ids.counter < MAX_ID
    ensures NextId(s.a.ids.counter) == s.a.ids.counter + 1 && s.a.ids.counter + 1 !in s.a.conns
    ensures forall i: nat :: i in s.a.conns <==> 1 <= i <= s.a.ids.counter
  {
    FreshIdIff(s.a);
    assert Dense(s.a);
  }

  lemma EnterDetails(e: Endpoint, hasCallback: bool, details: Details)
    requires NextId(e.ids.counter) !in e.conns
    ensures var id, e' := NextId(e.ids.counter), Register(e, hasCallback, details);
      && e'.conns.Keys == e.conns.Keys + {id} && e'.ids.details == e.ids.details[id := details]
      && e'.ids.unannounced == e.ids.unannounced[id := details] && e'.ids.counter == id
  {
    hide Fresh;
  }

  lemma AnnounceDetails(s: System, id: nat)
    requires DetailsInv(s) && id in s.a.ids.unannounced
    ensures DetailsInv(s.With(A, Announce(s.a, id).e, s.ab + Announce(s.a, id).sent, s.ba))
  {
  }

  lemma NewDetails(s: System)
    requires DetailsInv(s) && s.ab != [] && s.ab[0].New?
    ensures DetailsInv(s.With(B, HandleNew(s.b, s.ab[0].id, s.ab[0].details), s.ba + [], s.ab[1..]))
  {
    var p := s.ab[0];
    assert p in s.ab && s.ba + [] == s.ba;
    assert forall q | q in s.ab[1..] :: q in s.ab;
    var b := HandleNew(s.b, p.id, p.details);
    assert b.conns.Keys == if b == s.b then s.b.conns.Keys else s.b.conns.Keys + {p.id};
  }

  lemma CallDetails(s: System, x: Side, call: Call)
    requires Inv(s) && DetailsInv(s) && Enabled(s, User(x, call)) && Disciplined(s, User(x, call))
    ensures DetailsInv(Next(s, User(x, call)))
  {
    hide DetailsInv, Register, Announce;
    match call
    case RegisterConn(hasCallback, details) => RegisterDetails(s, hasCallback, details);
    case AnnounceConn(id) => AnnouncesAtA(s, x, id); AnnounceDetails(s, id);
    case _ =>
      CallNoOpening(s.End(x), call);
      hide Do;
      NoOpeningKeeps(s, x, Do(s.End(x), call), s.Inc(x));
  }

  lemma AnnouncesAtA(s: System, x: Side, id: nat)
    requires Inv(s) && id in s.End(x).ids.unannounced
    ensures x == A
  {
  }

  lemma DeliverDetails(s: System, x: Side)
    requires Inv(s) && DetailsInv(s) && Enabled(s, Deliver(x))
    ensures DetailsInv(Next(s, Deliver(x)))
  {
    var p := s.Inc(x)[0];
    if p.New? {
      HeadKnown(s, x, p.id);
      hide Inv, DetailsInv, HandleNew;
      NewDetails(s);
    } else {
      hide Inv, DetailsInv, Receive;
      ReceiveNoOpening(s.End(x), p);
      var r := Receive(s.End(x), p);
      NoOpeningKeeps(s, x, r, if r.done then s.Inc(x)[1..] else s.Inc(x));
    }
  }

  lemma DetailsKept(s: System, act: Action)
    requires Inv(s) && DetailsInv(s) && Enabled(s, act) && Disciplined(s, act)
    ensures DetailsInv(Next(s, act))
  {
    match act
    case User(x, call) => CallDetails(s, x, call);
    case Deliver(x) => DeliverDetails(s, x);
    case Proceed(x) =>
      hide Inv, DetailsInv, Resume;
      ResumeNoOpening(s.End(x));
      NoOpeningKeeps(s, x, Resume(s.End(x)), s.Inc(x));
  }

  // Whole runs.

  /** The details given to `newConnection`, call by call. */
  function Given(acts: seq<Action>): seq<Details> {
    if acts == [] then []
    else
      (if acts[0].User? && acts[0].call.RegisterConn? then [acts[0].call.details] else []) + Given(acts[1..])
  }

  /** The opener's connections are those given so far, numbered from one. */
  ghost predicate Registered(e: Endpoint, given: seq<Details>) {
    && |given| == e.ids.counter
    && forall i | 1 <= i <= e.ids.counter :: i in e.ids.details && e.ids.details[i] == given[i - 1]
  }

  lemma RegisteredCall(s: System, x: Side, call: Call, given: seq<Details>)
    requires Inv(s) && Enabled(s, User(x, call)) && Disciplined(s, User(x, call)) && Registered(s.a, given)
    ensures Registered(Next(s, User(x, call)).a, if call.RegisterConn? then given + [call.details] else given)
  {
    hide Inv, Register;
    if call.RegisterConn? {
      NextIsFree(s);
      EnterDetails(s.a, call.hasCallback, call.details);
    } else if call.AnnounceConn? {
    } else {
      hide Do, Possible;
      if x == A { CallNoOpening(s.a, call); }
    }
  }

  /** The acceptor announces nothing. */
  lemma NothingNewToA(s: System)
    requires Inv(s) && s.ba != []
    ensures !s.ba[0].New?
  {
    assert NewIds(s.ba) == [];
  }

  lemma RegisteredStep(s: System, act: Action, given: seq<Details>)
    requires Inv(s) && Enabled(s, act) && Disciplined(s, act) && Registered(s.a, given)
    ensures Registered(Next(s, act).a, given + Given([act]))
  {
    GivenOne(act);
    assert given + [] == given;
    hide Given, Inv, Receive, Resume, Registered, Do;
    match act
    case User(x, call) => RegisteredCall(s, x, call, given);
    case Deliver(x) =>
      if x == A {
        NothingNewToA(s);
        ReceiveNoOpening(s.a, s.ba[0]);
        StillRegistered(s.a, Receive(s.a, s.ba[0]), given);
      }
    case Proceed(x) =>
      if x == A {
        ResumeNoOpening(s.a);
        StillRegistered(s.a, Resume(s.a), given);
      }
  }

  lemma StillRegistered(e: Endpoint, r: Out, given: seq<Details>)
    requires Registered(e, given) && NoOpening(e, r)
    ensures Registered(r.e, given)
  {
  }

  lemma {:induction false} GivenOne(act: Action)
    ensures Given([act]) == if act.User? && act.call.RegisterConn? then [act.call.details] else []
  {
    assert [act][1..] == [];
  }

  lemma {:induction false} ProperSplit(s: System, acts: seq<Action>)
    requires CodeRun(s, acts) && ProperRun(s, acts) && acts != []
    ensures Enabled(s, acts[0]) && Disciplined(s, acts[0])
    ensures CodeRun(Next(s, acts[0]), acts[1..]) && ProperRun(Next(s, acts[0]), acts[1..])
    ensures Exec(s, acts) == Exec(Next(s, acts[0]), acts[1..])
  {
    hide Enabled, Disciplined, Next;
  }

  lemma {:induction false} DetailsRun(s: System, acts: seq<Action>, given: seq<Details>)
    requires Inv(s) && DetailsInv(s) && Registered(s.a, given) && CodeRun(s, acts) && ProperRun(s, acts)
    ensures DetailsInv(Exec(s, acts)) && Registered(Exec(s, acts).a, given + Given(acts))
    decreases |acts|
  {
    hide Next, Enabled, Disciplined, Inv, DetailsInv, Registered, CodeRun, Exec, ProperRun, Given;
    if acts == [] {
      RunSplit(s, acts);
      GivenNone();
      assert given + [] == given;
    } else {
      ProperSplit(s, acts);
      NextKeeps(s, acts[0]);
      DetailsKept(s, acts[0]);
      RegisteredStep(s, acts[0], given);
      DetailsRun(Next(s, acts[0]), acts[1..], given + Given([acts[0]]));
      GivenMore(acts);
      Assoc(given, Given([acts[0]]), Given(acts[1..]));
    }
  }

  lemma {:induction false} GivenNone()
    ensures Given([]) == []
  {
  }

  lemma {:induction false} GivenMore(acts: seq<Action>)
    requires acts != []
    ensures Given(acts) == Given([acts[0]]) + Given(acts[1..])
  {
    assert [acts[0]][1..] == [];
  }

  /** In every run in intended use, the details of a connection are at the opener, and at the acceptor as soon as
      it knows the connection, those of the call of `newConnection` that opened it: the i-th call opens
      connection i. */
  lemma {:induction false} DetailsArrive(acts: seq<Action>, i: nat)
    requires CodeRun(START, acts) && ProperRun(START, acts)
    ensures var s := Exec(START, acts);
      && (i in s.a.conns <==> 1 <= i <= |Given(acts)|)
      && (i in s.a.conns ==> i in s.a.ids.details && s.a.ids.details[i] == Given(acts)[i - 1])
      && (i in s.b.conns ==>
            i in s.a.conns && i in s.b.ids.details && s.b.ids.details[i] == Given(acts)[i - 1])
  {
    StartInv();
    DetailsRun(START, acts, []);
    ExecKeeps(START, acts);
    hide CodeRun, Exec, ProperRun, Given;
    assert [] + Given(acts) == Given(acts);
    var s := Exec(START, acts);
    assert LinkInv(s, i);
    assert Dense(s.a);
  }
}
