/** The cancellation-safe heartbeat reader. */
module Reader {
  import opened Wire
  import opened Transport
  import opened Wrappers

  datatype RecvResult = Received(echo: Heartbeat) | Broken(kind: ErrorKind) | Dropped

  /** What one `Recv` did with the events from..end: it started with the bytes
      `before` of a packet in hand and left the bytes `after`. */
  ghost predicate Outcome(before: seq<byte>, script: seq<Event>, from: nat, end: nat, r: RecvResult, after: seq<byte>)
    requires |before| < PACKET_SIZE && from <= end <= |script|
  {
    if r.Received? then
      var packet := Gather(before, script, from, end);
      && packet.Some? && |packet.value| == PACKET_SIZE
      && r.echo == Decode(packet.value)
      && after == []
    else if r.Broken? then
      && from < end
      && Gather(before, script, from, end - 1) == Some(after)
      && Closes(script[end - 1])
      && r.kind == (if script[end - 1].act.ReadFail? then script[end - 1].act.kind else UnexpectedEof)
    else
      Gather(before, script, from, end) == Some(after)
  }

  class HeartbeatReader {
    const buf: array<byte>
    var filled: nat
    ghost var held: seq<byte>  // bytes of the packet being received

    ghost predicate Valid()
      reads this, buf
    {
      Holds() && filled < PACKET_SIZE
    }

    ghost predicate Holds()
      reads this, buf
    {
      && buf.Length == PACKET_SIZE
      && |held| == filled <= PACKET_SIZE
      && forall i :: 0 <= i < filled ==> buf[i] == held[i]
    }

    constructor ()
      ensures Valid() && fresh(buf) && held == []
    {
      buf := new byte[PACKET_SIZE](_ => 0);
      filled := 0;
      held := [];
    }

    /** One read into the unfilled part of the buffer. */
    method ReadMore(conn: Connection) returns (read: ReadResult)
      requires Valid() && conn.Valid()
      modifies this, buf, conn`pos
      ensures Holds() && conn.Valid()
      ensures read.Pending? <==> !old(conn.AtRead())
      ensures read.Pending? ==> conn.pos == old(conn.pos) && held == old(held)
      ensures !read.Pending? ==>
        var e := conn.script[old(conn.pos)];
        && conn.pos == old(conn.pos) + 1
        && held == Feed(old(held), e)
        && (read.Failed? <==> e.act.ReadFail?) && (read.Failed? ==> e.act.kind == read.kind)
        && (read.Got? ==> (read.n == 0 <==> e.act.bytes == []))
    {
      ghost var got;
      read, got := conn.Read(buf, filled);
      if read.Got? {
        filled := filled + read.n;
      }
      held := held + got;
    }

    /** Read the next packet. `Dropped` is a read future that was dropped while it
        waited, at any point of the packet; nothing read so far is lost. */
    method Recv(conn: Connection) returns (r: RecvResult)
      requires Valid() && conn.Valid()
      modifies this, buf, conn`pos
      ensures Valid() && conn.Valid() && old(conn.pos) <= conn.pos
      ensures Outcome(old(held), conn.script, old(conn.pos), conn.pos, r, held)
      ensures r.Dropped? ==> !conn.AtRead()
    {
      ghost var start, before := conn.pos, held;
      while filled < PACKET_SIZE
        invariant Holds() && conn.Valid() && start <= conn.pos
        invariant Gather(before, conn.script, start, conn.pos) == Some(held)
        decreases PACKET_SIZE - filled
      {
        var read := ReadMore(conn);
        if read.Failed? {
          return Broken(read.kind);
        }
        if read.Pending? {
          return Dropped;
        }
        if read.n == 0 {
          return Broken(UnexpectedEof);
        }
      }
      assert buf[..] == held;
      filled, held := 0, [];
      r := Received(Decode(buf[..]));
    }
  }

  // ---------------------------------------------------------------------
  // The reader over a whole stream
  // ---------------------------------------------------------------------

  /** A stream event by event: the bytes held, the packets out, every byte read. */
  datatype Intake = Intake(held: seq<byte>, echoes: seq<Heartbeat>, bytes: seq<byte>)

  function Absorb(m: Intake, e: Event): (r: Intake)
    requires |m.held| < PACKET_SIZE
    ensures |r.held| < PACKET_SIZE
  {
    var held := Feed(m.held, e);
    var bytes := m.bytes + held[|m.held|..];
    if |held| == PACKET_SIZE then Intake([], m.echoes + [Decode(held)], bytes) else Intake(held, m.echoes, bytes)
  }

  function Absorbed(m: Intake, script: seq<Event>, from: nat, end: nat): (r: Intake)
    requires |m.held| < PACKET_SIZE && from <= end <= |script|
    ensures |r.held| < PACKET_SIZE
    decreases end
  {
    if from == end then m else Absorb(Absorbed(m, script, from, end - 1), script[end - 1])
  }

  lemma {:induction false} AbsorbedJoins(m: Intake, script: seq<Event>, from: nat, mid: nat, end: nat)
    requires |m.held| < PACKET_SIZE && from <= mid <= end <= |script|
    ensures Absorbed(m, script, from, end) == Absorbed(Absorbed(m, script, from, mid), script, mid, end)
    decreases end
  {
    hide Absorb;
    if mid == end {
    } else {
      AbsorbedJoins(m, script, from, mid, end - 1);
    }
  }

  lemma {:induction false} AbsorbKeeps(m: Intake, e: Event)
    requires |m.held| < PACKET_SIZE && m.bytes == EncodeAll(m.echoes) + m.held
    ensures Absorb(m, e).bytes == EncodeAll(Absorb(m, e).echoes) + Absorb(m, e).held
  {
    hide Encode, Decode, EncodeAll;
    var held := Feed(m.held, e);
    var more := held[|m.held|..];
    assert held == m.held + more;
    ConcatAssociates(EncodeAll(m.echoes), m.held, more);
    if |held| == PACKET_SIZE {
      EncodeDecode(held);
      EncodeAllSnoc(m.echoes, Decode(held));
    }
  }

  /** However a stream is segmented and whichever reads are dropped, the bytes read are
      the encodings of the packets that came out, then the bytes still held: the cut of
      the stream into packets. */
  lemma {:induction false} NothingLost(m: Intake, script: seq<Event>, from: nat, end: nat)
    requires |m.held| < PACKET_SIZE && m.bytes == EncodeAll(m.echoes) + m.held
    requires from <= end <= |script|
    ensures
      var r := Absorbed(m, script, from, end);
      && r.bytes == EncodeAll(r.echoes) + r.held
      && r.echoes == CutPackets(r.bytes) && r.held == CutResidue(r.bytes)
    decreases end
  {
    hide Absorb, CutPackets, CutResidue;
    var r := Absorbed(m, script, from, end);
    if from == end {
    } else {
      NothingLost(m, script, from, end - 1);
      AbsorbKeeps(Absorbed(m, script, from, end - 1), script[end - 1]);
    }
    CutIsUnique(r.bytes, r.echoes, r.held);
  }

  lemma {:induction false} GatherIsAbsorbed(m: Intake, script: seq<Event>, from: nat, end: nat, held: seq<byte>)
    requires |m.held| < PACKET_SIZE && from <= end <= |script|
    requires Gather(m.held, script, from, end) == Some(held)
    ensures Absorbed(m, script, from, end).held == if |held| == PACKET_SIZE then [] else held
    ensures Absorbed(m, script, from, end).echoes == m.echoes + if |held| == PACKET_SIZE then [Decode(held)] else []
    decreases end
  {
    hide Feed, Decode;
    if from == end {
    } else {
      GatherIsAbsorbed(m, script, from, end - 1, Gather(m.held, script, from, end - 1).value);
    }
  }

  function Emitted(r: RecvResult): seq<Heartbeat> {
    if r.Received? then [r.echo] else []
  }

  /** One `Recv` is the events it used. */
  lemma {:induction false} RecvAbsorbs(m: Intake, script: seq<Event>, from: nat, end: nat, r: RecvResult, after: seq<byte>)
    requires |m.held| < PACKET_SIZE && from <= end <= |script|
    requires Outcome(m.held, script, from, end, r, after) && |after| < PACKET_SIZE
    ensures Absorbed(m, script, from, end).held == after
    ensures Absorbed(m, script, from, end).echoes == m.echoes + Emitted(r)
  {
    if r.Received? {
      GatherIsAbsorbed(m, script, from, end, Gather(m.held, script, from, end).value);
    } else if r.Broken? {
      GatherIsAbsorbed(m, script, from, end - 1, after);
    } else {
      GatherIsAbsorbed(m, script, from, end, after);
    }
  }

  // ---------------------------------------------------------------------
  // Any sequence of calls
  // ---------------------------------------------------------------------

  /** A finished or dropped call: how far it read, its result, the bytes it left. */
  datatype Call = Call(end: nat, result: RecvResult, left: seq<byte>)

  function EndOf(calls: seq<Call>, n: nat): nat
    requires n <= |calls|
  {
    if n == 0 then 0 else calls[n - 1].end
  }

  function LeftOf(calls: seq<Call>, n: nat): seq<byte>
    requires n <= |calls|
  {
    if n == 0 then [] else calls[n - 1].left
  }

  function Emissions(calls: seq<Call>, n: nat): seq<Heartbeat>
    requires n <= |calls|
  {
    if n == 0 then [] else Emissions(calls, n - 1) + Emitted(calls[n - 1].result)
  }

  /** The first n calls on one new reader, each starting where the one before it stopped. */
  ghost predicate Called(script: seq<Event>, calls: seq<Call>, n: nat)
    requires n <= |calls|
  {
    n == 0 || (
      && Called(script, calls, n - 1)
      && EndOf(calls, n - 1) <= calls[n - 1].end <= |script|
      && |LeftOf(calls, n - 1)| < PACKET_SIZE && |calls[n - 1].left| < PACKET_SIZE
      && Outcome(LeftOf(calls, n - 1), script, EndOf(calls, n - 1), calls[n - 1].end, calls[n - 1].result, calls[n - 1].left))
  }

  const NEW := Intake([], [], [])

  lemma {:induction false} CallsAbsorb(script: seq<Event>, calls: seq<Call>, n: nat)
    requires n <= |calls| && Called(script, calls, n)
    ensures
      && EndOf(calls, n) <= |script|
      && Absorbed(NEW, script, 0, EndOf(calls, n)).held == LeftOf(calls, n)
      && Absorbed(NEW, script, 0, EndOf(calls, n)).echoes == Emissions(calls, n)
  {
    hide Outcome, Absorbed;
    if n == 0 {
      NothingAbsorbed(script);
    } else {
      CallsAbsorb(script, calls, n - 1);
      var from, c := EndOf(calls, n - 1), calls[n - 1];
      AbsorbedJoins(NEW, script, 0, from, c.end);
      RecvAbsorbs(Absorbed(NEW, script, 0, from), script, from, c.end, c.result, c.left);
    }
  }

  lemma {:induction false} NothingAbsorbed(script: seq<Event>)
    ensures Absorbed(NEW, script, 0, 0) == NEW
  {
  }

  /** Whatever the chunks, and whichever calls were dropped at whatever point: the packets
      that came out and the bytes still held are the cut of the bytes read. */
  lemma {:induction false} AnyCallsCutTheStream(script: seq<Event>, calls: seq<Call>, n: nat)
    requires n <= |calls| && Called(script, calls, n)
    ensures
      && EndOf(calls, n) <= |script|
      && var bytes := Absorbed(NEW, script, 0, EndOf(calls, n)).bytes;
      && bytes == EncodeAll(Emissions(calls, n)) + LeftOf(calls, n)
      && Emissions(calls, n) == CutPackets(bytes) && LeftOf(calls, n) == CutResidue(bytes)
  {
    hide Absorbed, CutPackets, CutResidue, Outcome, Called;
    CallsAbsorb(script, calls, n);
    Begin();
    NothingLost(NEW, script, 0, EndOf(calls, n));
  }

  lemma {:induction false} Begin()
    ensures NEW.bytes == EncodeAll(NEW.echoes) + NEW.held
  {
  }
}
