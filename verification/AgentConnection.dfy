/** One end of one multiplexed connection (`agentprotocol/server.go`), as a value: its state, and
    what each `Connection` method and each packet handler does to it. */
module AgentConnection {
  import opened Wrappers

  type Byte = b: int | 0 <= b < 256
  type Bytes = seq<Byte>

  datatype State = WaitInit | Started | WaitClose | Closed

  datatype Details = Details(
    protocol: string,
    connectedAddress: string,
    connectedPort: nat,
    originatorAddress: string,
    originatorPort: nat)

  const NO_DETAILS := Details("", "", 0, "", 0)

  /** `New` carries `None` when its payload cannot be decoded. */
  datatype Packet =
    | Data(id: nat, payload: Bytes)
    | Close(id: nat)
    | Success(id: nat)
    | Error(id: nat)
    | New(id: nat, details: Option<Details>)
    | NoMore
    | Unknown(kind: int)

  /** The close callback and the calls made of it and of waitGroup.Done. */
  datatype Tally = Tally(hasCallback: bool, callbacks: nat, releases: nat)

  /** The pipe to the reader, and the bytes accepted by Write and handed to the reader. */
  datatype Io = Io(closed: bool, wrote: Bytes, got: Bytes)

  /** Closing: `owed` is the moment inside `Close` between releasing the lock and writing the CLOSE packet,
      `began` whether `Close` took effect here, then the CLOSE packets and the replies handled. */
  datatype Shut = Shut(owed: bool, began: bool, heard: nat, taken: nat)

  /** What became of the opening; `wasOpen` if it was STARTED at some time. */
  datatype Answer = Answer(accepted: bool, rejected: bool, wasOpen: bool)

  /** The fields of a connection, with history that the code does not store: what happened to this end so far. */
  datatype Conn = Conn(state: State, initiator: bool, tally: Tally, io: Io, shut: Shut, answer: Answer)

  function Fresh(initiator: bool, hasCallback: bool): Conn {
    Conn(WaitInit, initiator, Tally(hasCallback, 0, 0), Io(false, [], []), Shut(false, false, 0, 0),
      Answer(false, false, false))
  }

  function Bit(b: bool): nat { if b then 1 else 0 }

  /** One more CLOSE, and one more reply, handled. */
  function Heard(c: Conn): Conn { c.(shut := c.shut.(heard := c.shut.heard + 1)) }
  function Took(c: Conn): Conn { c.(shut := c.shut.(taken := c.shut.taken + 1)) }

  function Starts(c: Conn): Conn { c.(state := Started, answer := c.answer.(wasOpen := true)) }

  /** A connection and the packets that the operation wrote. */
  datatype Effect = Effect(conn: Conn, sent: seq<Packet>)

  function CloseImm(c: Conn): Conn {
    if c.state.Closed? then c
    else c.(state := Closed, io := c.io.(closed := true), tally := Released(c.tally))
  }

  function Released(t: Tally): Tally {
    t.(releases := t.releases + 1, callbacks := t.callbacks + Bit(t.hasCallback))
  }

  /** `Close` up to the point where it drops the lock. */
  function BeginClose(c: Conn): Conn {
    if c.state.WaitInit? || c.state.Started?
    then c.(state := WaitClose, shut := c.shut.(owed := true, began := true))
    else c
  }

  /** The rest of `Close`. */
  function FinishClose(c: Conn, id: nat): Effect {
    if c.shut.owed then Effect(c.(shut := c.shut.(owed := false)), [Packet.Close(id)]) else Effect(c, [])
  }

  /** `Write` in WAITINIT waits, so there it has no step. */
  function Write(c: Conn, id: nat, data: Bytes): Effect
    requires !c.state.WaitInit?
  {
    if c.state.Started? then Effect(c.(io := c.io.(wrote := c.io.wrote + data)), [Data(id, data)])
    else Effect(c.(io := c.io.(closed := true)), [])
  }

  function Accept(c: Conn, id: nat): Effect {
    if c.initiator || !c.state.WaitInit? then Effect(c, [])
    else Effect(c.(state := Started, answer := c.answer.(accepted := true, wasOpen := true)), [Success(id)])
  }

  function Reject(c: Conn, id: nat): Effect {
    if c.initiator || !c.state.WaitInit? then Effect(c, [])
    else Effect(c.(state := Closed, answer := c.answer.(rejected := true)), [Error(id)])
  }

  /** Takes effect when the reader has taken the bytes; `handleData` keeps the connection locked until then, so
      that nothing else happens to it meanwhile. */
  function HandleData(c: Conn, payload: Bytes): Conn {
    if c.state.Started? && !c.io.closed then c.(io := c.io.(got := c.io.got + payload)) else c
  }

  function HandleClose(c: Conn, id: nat): Effect {
    Effect(CloseImm(Heard(c)), [if c.state.Closed? then Error(id) else Success(id)])
  }

  /** `handleSuccess` after it has read the state outside the connection's lock. */
  function ApplySuccess(c: Conn, seen: State): Conn {
    match seen
    case WaitInit => Starts(Took(c))
    case WaitClose => CloseImm(Took(c))
    case _ => Took(c)
  }

  function HandleError(c: Conn): Conn { CloseImm(Took(c)) }
}
