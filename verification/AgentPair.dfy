/** Both ends of one connection and the packets of that connection in flight. `x` is the end under
    consideration, `out` what it has sent and `inc` what its peer has sent; every definition is
    symmetric, so one lemma covers the initiating and the accepting end. */
module AgentPair {
  import opened AgentConnection
  import opened AgentWords

  /** CLOSE packets that `x` has put on the wire. */
  function Sent(x: Conn): nat { Bit(x.shut.began && !x.shut.owed) }

  /** Replies that do not answer a CLOSE: the one that opened the initiator's end. */
  function Base(x: Conn): nat { Bit(x.initiator && x.answer.wasOpen) }

  ghost predicate Local(x: Conn) {
    && (x.shut.owed ==> x.shut.began)
    && (x.state.WaitInit? ==>
          !x.shut.began && x.shut.heard == 0 && x.shut.taken == 0 && !x.answer.wasOpen && !x.io.closed)
    && (x.state.Started? ==>
          !x.shut.began && x.shut.heard == 0 && x.shut.taken == Base(x) && x.answer.wasOpen && !x.io.closed)
    && (x.state.WaitClose? ==> x.shut.began && x.shut.heard == 0 && x.shut.taken == Base(x))
    && (x.answer.rejected ==> x.state.Closed? && !x.answer.accepted)
    && (x.initiator ==> !x.answer.accepted && !x.answer.rejected)
    && (!x.initiator ==> x.answer.wasOpen == x.answer.accepted)
    && (!x.answer.wasOpen ==> x.io.wrote == [] && x.io.got == [])
  }

  ghost predicate Half(x: Conn, y: Conn, out: seq<Packet>, inc: seq<Packet>) {
    && Local(x)
    // packets in flight, against what the peer has handled
    && Closes(out) + y.shut.heard == Sent(x)
    && Replies(out) + y.shut.taken == Bit(x.answer.accepted) + Bit(x.answer.rejected) + x.shut.heard
    && NoNew(out) && NoDataAfterClose(out)
    && (!x.initiator && x.state.WaitInit? ==> out == [])
    && (x.answer.rejected ==> NoSuccess(out))
    // what one end knows of the other
    && (x.shut.heard > 0 ==> y.shut.began)
    && (x.state.Closed? ==> x.shut.began || x.shut.heard > 0 || x.answer.rejected || y.answer.rejected)
    && (x.initiator && x.answer.wasOpen ==> y.answer.accepted)
    && (x.initiator && x.state.WaitInit? && y.answer.accepted ==> inc != [] && inc[0].Success?)
    // bytes from x to y
    && y.io.got <= x.io.wrote
    && (y.state.WaitInit? || y.state.Started? ==> y.io.got + Payload(out) == x.io.wrote)
  }

  ghost predicate Both(x: Conn, y: Conn, out: seq<Packet>, inc: seq<Packet>) {
    x.initiator != y.initiator && Half(x, y, out, inc) && Half(y, x, inc, out)
  }

  /** The peer has not seen NEW yet. */
  ghost predicate Opening(x: Conn, id: nat, out: seq<Packet>, inc: seq<Packet>) {
    && Local(x) && x.initiator && !x.answer.wasOpen && x.shut.heard == 0 && x.shut.taken == 0 && x.io.got == []
    && (x.state.Closed? ==> x.shut.began)
    && out != [] && out[0].New? && out[0].details.Some?
    && out[1..] == (if Sent(x) == 1 then [Packet.Close(id)] else [])
    && inc == []
  }

  /** `handleSuccess` has read `seen` for the SUCCESS packet at the head of `inc`. */
  ghost predicate SeenOk(x: Conn, inc: seq<Packet>, seen: State) {
    && inc != [] && inc[0].Success?
    && (seen.WaitInit? ==> x.state.WaitInit?)
    && (seen.WaitClose? ==> x.state.WaitClose? || x.state.Closed?)
    && (seen.Closed? ==> x.state.Closed?)
    && !seen.Started?
  }

  // What users do.

  lemma PairBeginClose(x: Conn, y: Conn, out: seq<Packet>, inc: seq<Packet>)
    requires Both(x, y, out, inc)
    ensures Both(BeginClose(x), y, out, inc)
  {
  }

  lemma PairFinishClose(x: Conn, y: Conn, out: seq<Packet>, inc: seq<Packet>, id: nat)
    requires Both(x, y, out, inc)
    ensures Both(FinishClose(x, id).conn, y, out + FinishClose(x, id).sent, inc)
  {
    if x.shut.owed { Append(out, Packet.Close(id)); } else { assert out + [] == out; }
  }

  lemma PairWrite(x: Conn, y: Conn, out: seq<Packet>, inc: seq<Packet>, id: nat, data: Bytes)
    requires Both(x, y, out, inc) && !x.state.WaitInit?
    ensures Both(Write(x, id, data).conn, y, out + Write(x, id, data).sent, inc)
  {
    hide Closes, Replies, Payload;
    if x.state.Started? {
      AppendCounts(out, Data(id, data));
      AppendPayload(out, Data(id, data));
      forall i | 0 <= i < |out| ensures !out[i].Close? { Counted(out, i); }
      assert NoDataAfterClose(out + [Data(id, data)]) && NoNew(out + [Data(id, data)]);
      assert y.io.got + (Payload(out) + data) == (y.io.got + Payload(out)) + data;
    } else {
      assert out + [] == out;
    }
  }

  lemma PairAccept(x: Conn, y: Conn, out: seq<Packet>, inc: seq<Packet>, id: nat)
    requires Both(x, y, out, inc)
    ensures Both(Accept(x, id).conn, y, out + Accept(x, id).sent, inc)
  {
    if x.initiator || !x.state.WaitInit? {
      assert out + [] == out;
    } else {
      Append(out, Success(id));
    }
  }

  lemma PairReject(x: Conn, y: Conn, out: seq<Packet>, inc: seq<Packet>, id: nat)
    requires Both(x, y, out, inc)
    ensures Both(Reject(x, id).conn, y, out + Reject(x, id).sent, inc)
  {
    if x.initiator || !x.state.WaitInit? {
      assert out + [] == out;
    } else {
      Append(out, Error(id));
    }
  }

  /** The forced close of `Kill`, which reaches connections that have been closed before. */
  lemma PairForce(x: Conn, y: Conn, out: seq<Packet>, inc: seq<Packet>)
    requires Both(x, y, out, inc) && (x.state.WaitClose? || x.state.Closed?)
    ensures Both(CloseImm(x), y, out, inc)
  {
  }

  // What the handler does with the packet at the head of `inc`.

  lemma PairData(x: Conn, y: Conn, out: seq<Packet>, inc: seq<Packet>)
    requires Both(x, y, out, inc) && inc != [] && inc[0].Data?
    ensures Both(HandleData(x, inc[0].payload), y, out, inc[1..])
  {
    var p := inc[0].payload;
    assert Payload(inc) == p + Payload(inc[1..]);
    if x.state.Started? {
      assert x.io.got + (p + Payload(inc[1..])) == (x.io.got + p) + Payload(inc[1..]);
    } else if x.state.WaitInit? {
      assert y.io.wrote == [];
      assert p == [] && Payload(inc[1..]) == [];
    }
  }

  lemma PairClose(x: Conn, y: Conn, out: seq<Packet>, inc: seq<Packet>, id: nat)
    requires Both(x, y, out, inc) && inc != [] && inc[0].Close?
    ensures Both(HandleClose(x, id).conn, y, out + HandleClose(x, id).sent, inc[1..])
    ensures x.state.Started? ==> x.io.got == y.io.wrote
  {
    hide Closes, Replies, Payload, NoDataAfterClose, NoNew, NoSuccess;
    CloseEndsData(inc);
    Tail(inc);
    Append(out, HandleClose(x, id).sent[0]);
  }

  lemma PairError(x: Conn, y: Conn, out: seq<Packet>, inc: seq<Packet>)
    requires Both(x, y, out, inc) && inc != [] && inc[0].Error?
    ensures Both(HandleError(x), y, out, inc[1..])
  {
  }

  /** SUCCESS never finds a STARTED connection, and finds WAITINIT only as the peer's acceptance. */
  lemma PairReadSuccess(x: Conn, y: Conn, out: seq<Packet>, inc: seq<Packet>)
    requires Both(x, y, out, inc) && inc != [] && inc[0].Success?
    ensures SeenOk(x, inc, x.state)
    ensures x.state.WaitInit? ==> x.initiator && y.answer.accepted
  {
  }

  lemma PairApplySuccess(x: Conn, y: Conn, out: seq<Packet>, inc: seq<Packet>, seen: State)
    requires Both(x, y, out, inc) && SeenOk(x, inc, seen)
    ensures Both(ApplySuccess(x, seen), y, out, inc[1..])
  {
    Tail(inc);
  }

  // Before the peer knows of the connection.

  lemma OpeningSteps(x: Conn, id: nat, out: seq<Packet>)
    requires Opening(x, id, out, [])
    ensures Opening(BeginClose(x), id, out, [])
    ensures Opening(FinishClose(x, id).conn, id, out + FinishClose(x, id).sent, [])
    ensures !x.state.WaitInit? ==> forall d ::
      Write(x, id, d).sent == [] && Opening(Write(x, id, d).conn, id, out, [])
    ensures x.state.WaitClose? || x.state.Closed? ==> Opening(CloseImm(x), id, out, [])
  {
    var f := FinishClose(x, id);
    assert (out + f.sent)[1..] == out[1..] + f.sent;
  }

  /** NEW reaches the peer, which registers the connection or, when stopped, rejects it at once. */
  lemma OpeningDelivered(x: Conn, id: nat, out: seq<Packet>)
    requires Opening(x, id, out, [])
    ensures var y := Fresh(false, false);
            Both(x, y, out[1..], []) &&
            Both(x, Reject(y, id).conn, out[1..], Reject(y, id).sent)
  {
    assert [Error(id)][1..] == [];
    assert [Packet.Close(id)][1..] == [];
  }

  // What the invariant gives.

  /** With nothing in flight and no CLOSE owed the two ends agree, and hold the same bytes if open. */
  lemma PairAgrees(x: Conn, y: Conn)
    requires Both(x, y, [], []) && !x.shut.owed && !y.shut.owed
    ensures x.state == y.state && !y.state.WaitClose?
    ensures x.state.Started? ==> x.io.got == y.io.wrote && y.io.got == x.io.wrote
  {
  }

  /** What `x` has received of the bytes that `y` wrote. */
  lemma {:induction false} PairBytes(x: Conn, y: Conn, out: seq<Packet>, inc: seq<Packet>)
    requires Both(x, y, out, inc)
    ensures x.io.got <= y.io.wrote
    ensures x.state.Started? ==> x.io.got + Payload(inc) == y.io.wrote
    ensures x.state.Started? && inc != [] && inc[0].Close? ==> x.io.got == y.io.wrote
  {
    if inc != [] && inc[0].Close? { CloseEndsData(inc); }
  }

  /** A closing end is never stuck: its CLOSE or an answer is on the way. */
  lemma {:induction false} PairProgress(x: Conn, y: Conn, out: seq<Packet>, inc: seq<Packet>)
    requires Both(x, y, out, inc) && x.state.WaitClose?
    ensures x.shut.owed || Closes(out) > 0 || Replies(inc) > 0
  {
  }
}
