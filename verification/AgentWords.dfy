/** Packet queues and what one connection sees of them. */
module AgentWords {
  import opened AgentConnection

  predicate Names(p: Packet, id: nat) {
    !p.NoMore? && !p.Unknown? && p.id == id
  }

  /** The packets of one connection, in queue order. */
  function Proj(q: seq<Packet>, id: nat): seq<Packet> {
    if q == [] then [] else (if Names(q[0], id) then [q[0]] else []) + Proj(q[1..], id)
  }

  function Closes(w: seq<Packet>): nat {
    if w == [] then 0 else Bit(w[0].Close?) + Closes(w[1..])
  }

  function Replies(w: seq<Packet>): nat {
    if w == [] then 0 else Bit(w[0].Success? || w[0].Error?) + Replies(w[1..])
  }

  function Payload(w: seq<Packet>): Bytes {
    if w == [] then [] else (if w[0].Data? then w[0].payload else []) + Payload(w[1..])
  }

  /** Ids of the NEW packets, in queue order. */
  function NewIds(q: seq<Packet>): seq<nat> {
    if q == [] then [] else (if q[0].New? then [q[0].id] else []) + NewIds(q[1..])
  }

  ghost predicate NoDataAfterClose(w: seq<Packet>) {
    forall i, j | 0 <= i < j < |w| :: w[i].Close? ==> !w[j].Data?
  }

  ghost predicate NoSuccess(w: seq<Packet>) {
    forall i | 0 <= i < |w| :: !w[i].Success?
  }

  ghost predicate NoError(w: seq<Packet>) {
    forall k | 0 <= k < |w| :: !w[k].Error?
  }

  ghost predicate NoNew(w: seq<Packet>) {
    forall i | 0 <= i < |w| :: !w[i].New?
  }

  lemma {:induction false} AppendCounts(w: seq<Packet>, p: Packet)
    ensures Closes(w + [p]) == Closes(w) + Bit(p.Close?)
    ensures Replies(w + [p]) == Replies(w) + Bit(p.Success? || p.Error?)
  {
    if w == [] {
      assert [] + [p] == [p] && [p][1..] == [];
    } else {
      AppendCounts(w[1..], p);
      assert (w + [p])[1..] == w[1..] + [p];
    }
  }

  lemma {:induction false} PayloadHead(w: seq<Packet>)
    ensures Payload(w) == if w == [] then [] else (if w[0].Data? then w[0].payload else []) + Payload(w[1..])
  {
  }

  lemma {:induction false} AppendPayload(w: seq<Packet>, p: Packet)
    ensures Payload(w + [p]) == Payload(w) + (if p.Data? then p.payload else [])
  {
    hide Payload;
    PayloadHead(w + [p]);
    if w == [] {
      PayloadHead(w);
      PayloadHead([]);
      assert [] + [p] == [p] && [p][1..] == [];
    } else {
      PayloadHead(w);
      AppendPayload(w[1..], p);
      assert (w + [p])[1..] == w[1..] + [p];
    }
  }

  lemma {:induction false} AppendNewIds(q: seq<Packet>, p: Packet)
    ensures NewIds(q + [p]) == NewIds(q) + (if p.New? then [p.id] else [])
  {
    if q == [] {
      assert [] + [p] == [p] && [p][1..] == [];
    } else {
      AppendNewIds(q[1..], p);
      assert (q + [p])[1..] == q[1..] + [p];
    }
  }

  /** Appending a packet that is not DATA to a word. */
  lemma {:induction false} Append(w: seq<Packet>, p: Packet)
    requires !p.Data? && !p.New?
    ensures Closes(w + [p]) == Closes(w) + Bit(p.Close?)
    ensures Replies(w + [p]) == Replies(w) + Bit(p.Success? || p.Error?)
    ensures Payload(w + [p]) == Payload(w)
    ensures NoDataAfterClose(w) ==> NoDataAfterClose(w + [p])
    ensures NoNew(w) ==> NoNew(w + [p])
    ensures NoSuccess(w) && !p.Success? ==> NoSuccess(w + [p])
  {
    AppendCounts(w, p);
    AppendPayload(w, p);
  }

  /** Taking a packet off a word. */
  lemma {:induction false} Tail(w: seq<Packet>)
    requires w != []
    ensures Closes(w[1..]) == Closes(w) - Bit(w[0].Close?)
    ensures Replies(w[1..]) == Replies(w) - Bit(w[0].Success? || w[0].Error?)
    ensures Payload(w) == (if w[0].Data? then w[0].payload else []) + Payload(w[1..])
    ensures NoDataAfterClose(w) ==> NoDataAfterClose(w[1..])
    ensures NoNew(w) ==> NoNew(w[1..])
    ensures NoSuccess(w) ==> NoSuccess(w[1..])
  {
  }

  lemma {:induction false} ProjAppend(q: seq<Packet>, p: Packet, id: nat)
    ensures Proj(q + [p], id) == Proj(q, id) + (if Names(p, id) then [p] else [])
  {
    if q == [] {
      assert [] + [p] == [p] && [p][1..] == [];
    } else {
      ProjAppend(q[1..], p, id);
      assert (q + [p])[1..] == q[1..] + [p];
    }
  }

  lemma {:induction false} NoPayload(w: seq<Packet>)
    requires forall j | 0 <= j < |w| :: !w[j].Data?
    ensures Payload(w) == []
  {
    if w != [] { NoPayload(w[1..]); }
  }

  /** A word that starts with CLOSE carries no more data. */
  lemma {:induction false} CloseEndsData(w: seq<Packet>)
    requires w != [] && w[0].Close? && NoDataAfterClose(w)
    ensures Payload(w) == []
  {
    NoPayload(w);
  }

  /** Nothing of a kind is counted where the counts are zero. */
  lemma {:induction false} Counted(w: seq<Packet>, k: nat)
    requires k < |w|
    ensures w[k].Close? ==> Closes(w) > 0
    ensures w[k].Success? || w[k].Error? ==> Replies(w) > 0
  {
    if k > 0 { Counted(w[1..], k - 1); }
  }

  /** Every packet of a queue is in the word of the connection it names. */
  lemma {:induction false} ProjHas(q: seq<Packet>, k: nat, id: nat)
    requires k < |q| && Names(q[k], id)
    ensures q[k] in Proj(q, id)
  {
    if k > 0 { ProjHas(q[1..], k - 1, id); }
  }

  lemma {:induction false} ProjOnly(q: seq<Packet>, id: nat)
    ensures forall p | p in Proj(q, id) :: p in q && Names(p, id)
  {
    if q != [] { ProjOnly(q[1..], id); }
  }
}
