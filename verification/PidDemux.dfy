/** The writer that takes the process id off the head of a program's output stream
    (`internal/kubernetes/kubernetesExecutionImpl.go`). */
module PidDemux {
  import opened Wrappers

  type Byte = b: int | 0 <= b < 256
  type Bytes = seq<Byte>

  /** Bytes needed before the pid is read. */
  function Threshold(tty: bool): nat { if tty then 6 else 4 }

  function LittleEndian(b: Bytes): nat {
    if b == [] then 0 else b[0] as int + 256 * LittleEndian(b[1..])
  }

  /** `binary.LittleEndian.Uint32`. */
  function Uint32(b: Bytes): nat
    requires |b| == 4
  {
    var x0: int, x1: int, x2: int, x3: int := b[0], b[1], b[2], b[3];
    x0 + 0x100 * x1 + 0x1_0000 * x2 + 0x100_0000 * x3
  }

  lemma {:induction false} Uint32Value(b: Bytes)
    requires |b| == 4
    ensures Uint32(b) == LittleEndian(b) < 0x1_0000_0000
  {
    assert b[1..][1..] == b[2..] && b[2..][1..] == b[3..] && b[3..][1..] == [];
    assert LittleEndian(b[3..]) == b[3];
    assert LittleEndian(b[2..]) == b[2] + 256 * LittleEndian(b[3..]);
    assert LittleEndian(b[1..]) == b[1] + 256 * LittleEndian(b[2..]);
  }

  /** What the outside has seen after the stream `s`: pids sent and bytes forwarded. */
  datatype Seen = Seen(pids: seq<nat>, forwarded: Bytes)

  function Demux(tty: bool, s: Bytes): Seen {
    if |s| < Threshold(tty) then Seen([], []) else Seen([LittleEndian(s[..4])], s[4..])
  }

  class StdoutProxyWriter {
    const tty: bool
    var pidRead: bool
    var buf: Bytes
    var pids: seq<nat>      // sent on pidChannel
    var backend: Bytes      // written to the backend
    /** Everything written so far, and whether the backend has failed to take some of it. */
    ghost var stream: Bytes
    ghost var lost: bool

    constructor (tty: bool)
      ensures Valid() && stream == [] && !lost && this.tty == tty && Seen(pids, backend) == Seen([], [])
    {
      this.tty, pidRead, buf, pids, backend, stream, lost := tty, false, [], [], [], [], false;
    }

    ghost predicate Valid()
      reads this
    {
      && pidRead == (|stream| >= Threshold(tty))
      && (!pidRead ==> buf == stream)
      && pids == Demux(tty, stream).pids
      && (!lost ==> backend == Demux(tty, stream).forwarded)
      && (!pidRead ==> backend == [] && !lost)
    }

    /** The backend takes at most `room` bytes, and reports an error if that is not all. */
    method Forward(p: Bytes, room: nat) returns (n: nat, ok: bool)
      modifies this`backend, this`lost
      ensures n == (if room < |p| then room else |p|) && ok == (n == |p|)
      ensures backend == old(backend) + p[..n] && lost == (old(lost) || !ok)
    {
      n := if room < |p| then room else |p|;
      ok := n == |p|;
      backend := backend + p[..n];
      lost := lost || !ok;
    }

    /** The pid is sent as soon as it is complete and the rest is forwarded: once four bytes, with a terminal six,
        have been written, the stream is the pid, lowest byte first, and what the backend got; until then it gets
        nothing. An error is reported exactly if the backend took less than it was given; while the head of the
        stream is taken off, all bytes count as written even then. */
    method Write(p: Bytes, room: nat) returns (n: nat, ok: bool)
      requires Valid()
      modifies this
      ensures Valid() && stream == old(stream) + p
      ensures pids != [] <==> |stream| >= if tty then 6 else 4
      ensures pids == [] ==> backend == [] && pidRead == old(pidRead) == false
      ensures pids != [] ==>
        pids == [stream[0] as int + 256 * stream[1] as int + 65536 * stream[2] as int + 16777216 * stream[3] as int]
      ensures pids != [] && !lost ==> stream == stream[..4] + backend
      ensures pids != [] && !old(pidRead) ==>
        backend == old(backend) + stream[4..][..if room < |stream| - 4 then room else |stream| - 4]
      ensures ok ==> n == |p| && lost == old(lost)
      ensures !ok ==> lost && (n == |p| <==> !old(pidRead))
      ensures old(pidRead) ==> n == (if room < |p| then room else |p|) && backend == old(backend) + p[..n]
      ensures room >= |old(buf)| + |p| ==> ok
    {
      if |stream| + |p| >= 4 { Uint32Value((stream + p)[..4]); }
      stream := stream + p;
      if pidRead {
        assert stream[..4] == old(stream)[..4] && stream[4..] == old(stream)[4..] + p;
        n, ok := Forward(p, room);
        return;
      }
      n, ok := |p|, true;
      buf := buf + p;
      if (tty && |buf| >= 6) || (!tty && |buf| >= 4) {
        pidRead := true;
        pids := pids + [Uint32(buf[..4])];
        if |buf| > 4 {
          var m;
          m, ok := Forward(buf[4..], room);
        }
      }
    }

    method WriteAll(chunks: seq<Bytes>)
      requires Valid() && !lost
      modifies this
      ensures Valid() && !lost && stream == old(stream) + Flat(chunks)
      ensures Seen(pids, backend) == Demux(tty, old(stream) + Flat(chunks))
    {
      for k := 0 to |chunks|
        invariant Valid() && !lost && stream == old(stream) + Flat(chunks[..k])
      {
        FlatMore(chunks, k);
        Assoc(old(stream), Flat(chunks[..k]), chunks[k]);
        var room := |chunks[k]| + |buf|;
        var _, _ := Write(chunks[k], room);
      }
      assert chunks[..|chunks|] == chunks;
    }
  }

  function Flat(chunks: seq<Bytes>): Bytes {
    if chunks == [] then [] else chunks[0] + Flat(chunks[1..])
  }

  lemma {:induction false} FlatMore(chunks: seq<Bytes>, k: nat)
    requires k < |chunks|
    ensures Flat(chunks[..k + 1]) == Flat(chunks[..k]) + chunks[k]
  {
    if k == 0 {
      assert chunks[..1] == [chunks[0]] && chunks[..1][1..] == [] && chunks[..0] == [];
    } else {
      FlatMore(chunks[1..], k - 1);
      assert chunks[..k + 1][1..] == chunks[1..][..k] && chunks[..k][1..] == chunks[1..][..k - 1];
      Assoc(chunks[0], Flat(chunks[..k][1..]), chunks[k]);
    }
  }

  /** Two ways to cut the same stream into writes are indistinguishable from outside. */
  method SameStream(tty: bool, one: seq<Bytes>, two: seq<Bytes>) returns (a: Seen, b: Seen)
    requires Flat(one) == Flat(two)
    ensures a == b == Demux(tty, Flat(one))
  {
    var w := new StdoutProxyWriter(tty);
    w.WriteAll(one);
    var v := new StdoutProxyWriter(tty);
    v.WriteAll(two);
    a, b := Seen(w.pids, w.backend), Seen(v.pids, v.backend);
    assert [] + Flat(one) == Flat(one);
  }

  /** Nothing is seen of a stream of less than four bytes, with a terminal six; then it is the pid, lowest byte
      first, and the bytes forwarded. */
  lemma DemuxIs(tty: bool, s: Bytes)
    ensures |s| < (if tty then 6 else 4) <==> Demux(tty, s).pids == []
    ensures |s| < (if tty then 6 else 4) ==> Demux(tty, s).forwarded == []
    ensures |s| >= (if tty then 6 else 4) ==>
      && Demux(tty, s).pids == [s[0] as int + 256 * s[1] as int + 65536 * s[2] as int + 16777216 * s[3] as int]
      && s == s[..4] + Demux(tty, s).forwarded
  {
    if |s| >= 4 { Uint32Value(s[..4]); }
  }

  /** What is seen grows from write to write: a prefix of the stream shows a prefix of the pids and bytes. */
  lemma DemuxGrows(tty: bool, s: Bytes, more: Bytes)
    ensures Demux(tty, s).pids <= Demux(tty, s + more).pids
    ensures Demux(tty, s).forwarded <= Demux(tty, s + more).forwarded
    ensures |Demux(tty, s).pids| <= 1
  {
    if |s| >= Threshold(tty) {
      assert (s + more)[..4] == s[..4] && (s + more)[4..] == s[4..] + more;
    }
  }

  /** The pid and the forwarded bytes together are the whole stream, once it is long enough. */
  lemma DemuxLosesNothing(tty: bool, s: Bytes, t: Bytes)
    requires |s| >= Threshold(tty) && |t| >= Threshold(tty)
    ensures Demux(tty, s) == Demux(tty, t) <==> s == t
  {
    if Demux(tty, s) == Demux(tty, t) {
      assert [LittleEndian(s[..4])][0] == [LittleEndian(t[..4])][0];
      Injective(s[..4], t[..4]);
      assert s == s[..4] + s[4..] && t == t[..4] + t[4..];
    }
  }

  lemma {:induction false} Injective(a: Bytes, b: Bytes)
    requires |a| == |b| && LittleEndian(a) == LittleEndian(b)
    ensures a == b
  {
    if a != [] {
      assert a[0] == b[0] && LittleEndian(a[1..]) == LittleEndian(b[1..]);
      Injective(a[1..], b[1..]);
      assert a == [a[0]] + a[1..] && b == [b[0]] + b[1..];
    }
  }

  /** With a terminal the stream is said to begin with a carriage return and a line feed before the pid.
      Since the pid is taken from the first four bytes all the same, it is then right for one pid only. */
  lemma {:induction false} TtyPidIff(pid: Bytes, rest: Bytes)
    requires |pid| == 4
    ensures Demux(true, [13, 10] + pid + rest).pids == [LittleEndian(pid)] <==> pid == [13, 10, 13, 10]
  {
    var s: Bytes := [13, 10] + pid + rest;
    var head: Bytes := [13, 10, pid[0], pid[1]];
    assert s[..4] == head;
    hide LittleEndian;
    if LittleEndian(head) == LittleEndian(pid) { Injective(head, pid); }
    assert head == pid <==> pid == [13, 10, 13, 10];
  }
}
