/** What a connection's peer, the network, the clocks and the cancellation token do
    to a session, seen from its await points: a script of events. A method that
    is run on a script stops when the script does, so a claim about every
    script is a claim about every prefix of every execution. */
module Transport {
  import opened Wire
  import opened Wrappers

  datatype ErrorKind = ConnectionReset | UnexpectedEof | BrokenPipe | OtherKind

  datatype Act =
    | Write(n: nat)               // the socket accepts n more bytes of the pending write
    | WriteFail(kind: ErrorKind)
    | Chunk(bytes: seq<byte>)     // a read returns these bytes, as far as its buffer has room;
                                  // no bytes at all means that the peer closed
    | ReadFail(kind: ErrorKind)
    | Clock                       // the monotonic clock is read
    | Stamp(stamp: u64)           // the wall clock is read for the next heartbeat
    | Timer                       // a sleep or a timeout fires
    | Cancel                      // the cancellation token wins a select

  /** `at` is the monotonic time at which the act takes effect. */
  datatype Event = Event(at: int, act: Act)

  predicate IsRead(e: Event) {
    e.act.Chunk? || e.act.ReadFail?
  }

  /** A read that fails, or that returns nothing because the peer closed. */
  predicate Closes(e: Event) {
    e.act.ReadFail? || (e.act.Chunk? && e.act.bytes == [])
  }

  function Take(bytes: seq<byte>, room: nat): (t: seq<byte>)
    ensures |t| <= room && t <= bytes
  {
    if |bytes| <= room then bytes else bytes[..room]
  }

  /** The packet buffer `held` after one more event: a read never goes past the packet. */
  function Feed(held: seq<byte>, e: Event): (r: seq<byte>)
    requires |held| <= PACKET_SIZE
    ensures held <= r && |r| <= PACKET_SIZE
    ensures !IsRead(e) || Closes(e) ==> r == held
  {
    if e.act.Chunk? then held + Take(e.act.bytes, PACKET_SIZE - |held|) else held
  }

  /** The packet buffer after the events from..end, if all of them are successful reads
      and the packet was not complete before the last of them. */
  function Gather(held: seq<byte>, script: seq<Event>, from: nat, end: nat): (r: Option<seq<byte>>)
    requires |held| <= PACKET_SIZE && from <= end <= |script|
    ensures r.Some? ==> |r.value| <= PACKET_SIZE
    decreases end
  {
    if from == end then
      Some(held)
    else
      var h := Gather(held, script, from, end - 1);
      var act := script[end - 1].act;
      if h.Some? && |h.value| < PACKET_SIZE && act.Chunk? && act.bytes != []
      then Some(Feed(h.value, script[end - 1]))
      else None
  }

  datatype ReadResult = Got(n: nat) | Failed(kind: ErrorKind) | Pending

  /** One open connection: the events still to come on it, and what was written to it. */
  class Connection {
    const script: seq<Event>
    var pos: nat
    var out: seq<byte>

    constructor (script: seq<Event>)
      ensures this.script == script && pos == 0 && out == []
    {
      this.script := script;
      pos := 0;
      out := [];
    }

    predicate Valid()
      reads this`pos
    {
      pos <= |script|
    }

    predicate AtRead()
      reads this`pos
      requires Valid()
    {
      pos < |script| && IsRead(script[pos])
    }

    /** Take the next event. */
    method Next() returns (e: Event)
      requires Valid() && pos < |script|
      modifies this`pos
      ensures Valid() && pos == old(pos) + 1 && e == script[old(pos)]
    {
      e := script[pos];
      pos := pos + 1;
    }

    /** The socket takes these bytes. */
    method Accept(bytes: seq<byte>)
      modifies this`out
      ensures out == old(out) + bytes
    {
      out := out + bytes;
    }

    /** Read into the unfilled part of `buf`. Cancel-safe: a pending read takes nothing. */
    method Read(buf: array<byte>, from: nat) returns (r: ReadResult, ghost got: seq<byte>)
      requires Valid() && from < buf.Length
      modifies this`pos, buf
      ensures Valid()
      ensures !old(AtRead()) ==> r == Pending && pos == old(pos) && got == []
      ensures old(AtRead()) ==>
        var act := script[old(pos)].act;
        && pos == old(pos) + 1
        && got == (if act.Chunk? then Take(act.bytes, buf.Length - from) else [])
        && r == (if act.Chunk? then Got(|got|) else Failed(act.kind))
      ensures from + |got| <= buf.Length
      ensures forall i :: 0 <= i < from ==> buf[i] == old(buf[i])
      ensures forall i :: 0 <= i < |got| ==> buf[from + i] == got[i]
    {
      got := [];
      if pos == |script| || !IsRead(script[pos]) {
        return Pending, [];
      }
      var act := script[pos].act;
      pos := pos + 1;
      if act.ReadFail? {
        return Failed(act.kind), [];
      }
      var bytes := Take(act.bytes, buf.Length - from);
      for i := 0 to |bytes|
        invariant pos == old(pos) + 1
        invariant forall k :: 0 <= k < from ==> buf[k] == old(buf[k])
        invariant forall k :: 0 <= k < i ==> buf[from + k] == bytes[k]
      {
        buf[from + i] := bytes[i];
      }
      r, got := Got(|bytes|), bytes;
    }
  }
}
