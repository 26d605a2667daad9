/** A client session and a server connection joined by two FIFO byte channels. Every
    interleaving, every segmentation, every delay and every failure is a run. */
module EndToEnd {
  import opened Wire
  import opened Wrappers
  import opened Transport
  import opened Metrics
  import opened Handshake
  import Reader
  import C = Session
  import V = Echo
  import opened Catchup

  /** `up` carries the client's bytes to the server, `down` the echoes back. */
  datatype Net = Net(client: C.State, up: seq<byte>, server: V.State, down: seq<byte>)

  datatype Move = ClientMove(e: Event) | ServerMove(e: Event)

  /** The bytes that a client event takes off the wire. */
  function ClientTakes(c: C.State, e: Event): seq<byte> {
    if c.pc.Awaiting? && e.act.Chunk? && |c.held| < PACKET_SIZE then Feed(c.held, e)[|c.held|..] else []
  }

  function ServerTakes(v: V.State, e: Event): seq<byte> {
    if !e.act.Chunk? then []
    else if v.pc.Greeting? then Take(e.act.bytes, StillWanted(v.held))
    else if v.pc.Reading? && |v.held| < PACKET_SIZE then Feed(v.held, e)[|v.held|..]
    else []
  }

  /** Channels only deliver what was sent, in order. */
  predicate Possible(p: C.Params, n: Net, m: Move) {
    match m
    case ClientMove(e) => C.Enabled(p, n.client, e) && ClientTakes(n.client, e) <= n.down
    case ServerMove(e) => V.Enabled(n.server, e) && ServerTakes(n.server, e) <= n.up
  }

  function Next(p: C.Params, alnum: char -> bool, n: Net, m: Move): Net
    requires Possible(p, n, m)
  {
    match m
    case ClientMove(e) =>
      var c := C.Step(p, n.client, e);
      var sent := if |n.client.out| <= |c.out| then c.out[|n.client.out|..] else [];
      Net(c, n.up + sent, n.server, n.down[|ClientTakes(n.client, e)|..])
    case ServerMove(e) =>
      var v := V.Step(alnum, n.server, e);
      var sent := if |n.server.wrote| <= |v.wrote| then v.wrote[|n.server.wrote|..] else [];
      Net(n.client, n.up[|ServerTakes(n.server, e)|..], v, n.down + sent)
  }

  function Start(clock: int, base: ClientMetrics): Net {
    Net(C.Fresh(clock, base), [], V.START, [])
  }

  ghost predicate Reaches(p: C.Params, alnum: char -> bool, n: Net, moves: seq<Move>, last: Net)
    decreases |moves|
  {
    if moves == [] then n == last
    else Possible(p, n, moves[0]) && Reaches(p, alnum, Next(p, alnum, n, moves[0]), moves[1..], last)
  }

  // ---------------------------------------------------------------------
  // The client's half
  // ---------------------------------------------------------------------

  /** The bytes of the heartbeat being written. */
  function Inflight(c: C.State): seq<byte> {
    if c.pc.Sending? && c.pc.written <= PACKET_SIZE then Encode(Heartbeat(c.number, c.pc.stamp))[..c.pc.written]
    else if c.pc.Posted? then Encode(Heartbeat(c.number, c.pc.stamp))
    else []
  }

  /** What the client has written is the handshake, then whole heartbeats numbered from 0. */
  ghost predicate Framed(p: C.Params, c: C.State) {
    && |c.held| < PACKET_SIZE
    && Numbered(c.sent) && c.number as int == |c.sent| % U64_LIMIT
    && (c.pc.Greeting? ==> c.pc.written < |p.hello| && c.out == p.hello[..c.pc.written])
    && (c.pc.Opening? ==> c.out == p.hello)
    && (c.pc == C.Done(C.HandshakeFailed) ==> c.out <= p.hello)
    && (!C.Recorded(c) ==> c.sent == [] && c.echoes == [] && c.held == [])
    && (c.pc.Sending? ==> c.pc.written < PACKET_SIZE)
    && (c.pc.Awaiting? ==> |c.sent| > 0 && c.sent[|c.sent| - 1] == c.pc.current)
    && (C.Recorded(c) && !c.pc.Done? ==> c.out == p.hello + EncodeAll(c.sent) + Inflight(c))
    && (C.Recorded(c) ==> p.hello + EncodeAll(c.sent) <= c.out)
  }

  lemma {:induction false} FramedStep(p: C.Params, c: C.State, e: Event)
    requires C.Enabled(p, c, e) && Framed(p, c)
    ensures Framed(p, C.Step(p, c, e))
    ensures c.out <= C.Step(p, c, e).out
  {
    hide Framed, C.Step, C.Enabled;
    if c.pc.Sending? {
      FramedSending(p, c, e);
    } else if c.pc.Posted? {
      FramedPosted(p, c, e);
    } else if c.pc.Awaiting? {
      FramedAwaiting(p, c, e);
    } else {
      FramedQuiet(p, c, e);
    }
  }

  lemma {:induction false} FramedQuiet(p: C.Params, c: C.State, e: Event)
    requires C.Enabled(p, c, e) && Framed(p, c)
    requires !c.pc.Sending? && !c.pc.Posted? && !c.pc.Awaiting?
    ensures Framed(p, C.Step(p, c, e))
    ensures c.out <= C.Step(p, c, e).out
  {
    hide Feed, Decode, Encode, EncodeAll;
    if c.pc.Opening? {
      assert EncodeAll(c.sent) == [];
    }
  }

  lemma {:induction false} FramedSending(p: C.Params, c: C.State, e: Event)
    requires C.Enabled(p, c, e) && Framed(p, c) && c.pc.Sending?
    ensures Framed(p, C.Step(p, c, e))
    ensures c.out <= C.Step(p, c, e).out
  {
    hide Feed, Decode, Encode, EncodeAll;
    if e.act.Write? {
      var w, upto, beat := c.pc.written, c.pc.written + e.act.n, Encode(Heartbeat(c.number, c.pc.stamp));
      assert beat[..w] + beat[w..upto] == beat[..upto];
      ConcatAssociates(p.hello + EncodeAll(c.sent), beat[..w], beat[w..upto]);
      assert beat[..PACKET_SIZE] == beat;
    }
  }

  lemma {:induction false} FramedPosted(p: C.Params, c: C.State, e: Event)
    requires C.Enabled(p, c, e) && Framed(p, c) && c.pc.Posted?
    ensures Framed(p, C.Step(p, c, e))
    ensures c.out <= C.Step(p, c, e).out
  {
    hide Feed, Decode, Encode, EncodeAll;
    var beat := Heartbeat(c.number, c.pc.stamp);
    EncodeAllSnoc(c.sent, beat);
    ConcatAssociates(p.hello, EncodeAll(c.sent), Encode(beat));
  }

  lemma {:induction false} FramedAwaiting(p: C.Params, c: C.State, e: Event)
    requires C.Enabled(p, c, e) && Framed(p, c) && c.pc.Awaiting?
    ensures Framed(p, C.Step(p, c, e))
    ensures c.out <= C.Step(p, c, e).out
  {
    hide Feed, Decode, Encode, EncodeAll;
  }

  /** The bytes a client has read are the echoes it has handled and the bytes it holds. */
  lemma {:induction false} ClientReads(p: C.Params, c: C.State, e: Event)
    requires C.Enabled(p, c, e) && |c.held| < PACKET_SIZE
    ensures
      var t := C.Step(p, c, e);
      && EncodeAll(t.echoes) + t.held == EncodeAll(c.echoes) + c.held + ClientTakes(c, e)
      && (t.echoes == c.echoes || (c.pc.Awaiting? && t.held == [] && t.sent == c.sent && t.out == c.out))
      && c.sent <= t.sent
  {
    hide Decode, Encode, EncodeAll, Feed;
    if c.pc.Awaiting? && e.act.Chunk? {
      var held, more := Feed(c.held, e), ClientTakes(c, e);
      assert held == c.held + more;
      ConcatAssociates(EncodeAll(c.echoes), c.held, more);
      if |held| == PACKET_SIZE {
        EncodeDecode(held);
        EncodeAllSnoc(c.echoes, Decode(held));
      }
    }
  }

  // ---------------------------------------------------------------------
  // The whole
  // ---------------------------------------------------------------------

  /** All the client's bytes that the server has read. */
  function Eaten(v: V.State): seq<byte> {
    if v.hello == [] then v.held else v.hello + v.got
  }

  /** The server has read no more than the handshake until it has accepted exactly that. */
  ghost predicate Greeted(p: C.Params, alnum: char -> bool, v: V.State) {
    if v.hello == [] then
      && (v.pc.Greeting? || v.pc == V.Over(None))
      && (v.pc.Greeting? ==> v.held <= p.hello && StillWanted(v.held) > 0)
      && v.got == [] && v.wrote == [] && v.heard == []
    else
      && !v.pc.Greeting?
      && v.hello == p.hello && |p.hello| > 4 && v.peer == LabelOf(alnum, p.hello[4..])
  }

  ghost predicate Joined(p: C.Params, alnum: char -> bool, n: Net) {
    && Framed(p, n.client)
    && V.Faithful(n.server)
    && Greeted(p, alnum, n.server)
    && n.client.out == Eaten(n.server) + n.up
    && n.server.wrote == EncodeAll(n.client.echoes) + n.client.held + n.down
    && n.client.echoes <= n.client.sent
  }

  lemma {:induction false} JoinedStart(p: C.Params, alnum: char -> bool, clock: int, base: ClientMetrics)
    requires p.hello != []
    ensures Joined(p, alnum, Start(clock, base))
  {
    assert EncodeAll([]) == [];
  }

  /** While the client waits for an echo the server's bytes all come from whole heartbeats. */
  lemma {:induction false} EchoesCome(p: C.Params, alnum: char -> bool, n: Net, echoes: seq<Heartbeat>)
    requires Joined(p, alnum, n) && n.client.pc.Awaiting?
    requires EncodeAll(echoes) <= n.server.wrote
    ensures echoes <= n.client.sent
  {
    hide EncodeAll, Encode, V.Faithful, Framed;
    var sent := EncodeAll(n.client.sent);
    assert n.client.out == p.hello + sent by {
      AwaitingFrame(p, n.client);
    }
    assert n.server.wrote <= n.server.got by {
      WroteIsPrefix(n.server);
    }
    if n.server.hello == [] {
      assert EncodeAll(echoes) <= [];
      Nothing(echoes);
    } else {
      assert n.client.out == p.hello + (n.server.got + n.up);
      assert n.server.got + n.up == (p.hello + (n.server.got + n.up))[|p.hello|..];
      assert sent == (p.hello + sent)[|p.hello|..];
      assert EncodeAll(echoes) <= sent;
      EncodeAllPrefix(echoes, n.client.sent);
    }
  }

  lemma {:induction false} AwaitingFrame(p: C.Params, c: C.State)
    requires Framed(p, c) && c.pc.Awaiting?
    ensures c.out == p.hello + EncodeAll(c.sent)
  {
  }

  lemma {:induction false} WroteIsPrefix(v: V.State)
    requires V.Faithful(v)
    ensures v.wrote <= v.got
  {
  }

  lemma {:induction false} Nothing(hs: seq<Heartbeat>)
    requires |EncodeAll(hs)| == 0
    ensures hs == []
  {
  }

  lemma {:induction false} ClientKeeps(p: C.Params, alnum: char -> bool, n: Net, e: Event)
    requires Joined(p, alnum, n) && Possible(p, n, ClientMove(e))
    ensures Joined(p, alnum, Next(p, alnum, n, ClientMove(e)))
  {
    hide C.Step, C.Enabled, EncodeAll, Framed, V.Faithful, Greeted, Eaten, ClientTakes;
    var c := n.client;
    var t, takes := C.Step(p, c, e), ClientTakes(c, e);
    FramedStep(p, c, e);
    assert |c.held| < PACKET_SIZE by {
      HoldsLess(p, c);
    }
    ClientReads(p, c, e);
    assert n.down == takes + n.down[|takes|..];
    ConcatAssociates(EncodeAll(c.echoes) + c.held, takes, n.down[|takes|..]);
    assert t.out == c.out + t.out[|c.out|..];
    if t.echoes != c.echoes {
      assert EncodeAll(t.echoes) <= n.server.wrote;
      EchoesCome(p, alnum, n, t.echoes);
    }
  }

  lemma {:induction false} HoldsLess(p: C.Params, c: C.State)
    requires Framed(p, c)
    ensures |c.held| < PACKET_SIZE
  {
  }

  lemma {:induction false} ServerKeeps(p: C.Params, name: string, alnum: char -> bool, n: Net, e: Event)
    requires p.hello == Hello(name) && Joined(p, alnum, n) && Possible(p, n, ServerMove(e))
    ensures Joined(p, alnum, Next(p, alnum, n, ServerMove(e)))
  {
    hide V.Step, V.Enabled, EncodeAll, Framed, V.Faithful, Greeted, Eaten, ServerTakes;
    var v := n.server;
    var t, takes := V.Step(alnum, v, e), ServerTakes(v, e);
    V.FaithfulStep(alnum, v, e);
    assert n.up == takes + n.up[|takes|..];
    ServerEats(p, name, alnum, n, e);
    ConcatAssociates(Eaten(v), takes, n.up[|takes|..]);
    assert t.wrote == v.wrote + t.wrote[|v.wrote|..];
    ConcatAssociates(EncodeAll(n.client.echoes) + n.client.held, n.down, t.wrote[|v.wrote|..]);
  }

  lemma {:induction false} ServerEats(p: C.Params, name: string, alnum: char -> bool, n: Net, e: Event)
    requires p.hello == Hello(name) && Joined(p, alnum, n) && Possible(p, n, ServerMove(e))
    ensures
      var v, t := n.server, V.Step(alnum, n.server, e);
      && Eaten(t) == Eaten(v) + ServerTakes(v, e)
      && v.wrote <= t.wrote
      && Greeted(p, alnum, t)
  {
    hide Encode, Decode, EncodeAll, Feed, Framed, V.Faithful, LabelOf;
    var v := n.server;
    if v.pc.Greeting? {
      GreetingEats(p, name, alnum, n, e);
    } else if v.pc.Reading? && e.act.Chunk? {
      ConcatAssociates(v.hello, v.got, ServerTakes(v, e));
    }
  }

  lemma {:induction false} GreetingEats(p: C.Params, name: string, alnum: char -> bool, n: Net, e: Event)
    requires p.hello == Hello(name) && Joined(p, alnum, n) && Possible(p, n, ServerMove(e))
    requires n.server.pc.Greeting?
    ensures
      var v, t := n.server, V.Step(alnum, n.server, e);
      && Eaten(t) == Eaten(v) + ServerTakes(v, e)
      && v.wrote <= t.wrote
      && Greeted(p, alnum, t)
  {
    hide Encode, Decode, EncodeAll, Feed, Framed, V.Faithful, LabelOf;
    var v := n.server;
    if e.act.Chunk? && e.act.bytes != [] {
      var held := v.held + ServerTakes(v, e);
      assert held <= n.client.out;
      HelloBounds(p, name, v.held, held, n.client);
    }
  }

  /** Reading no further than the handshake goes. */
  lemma {:induction false} HelloBounds(p: C.Params, name: string, before: seq<byte>, held: seq<byte>, c: C.State)
    requires p.hello == Hello(name) && Framed(p, c)
    requires before <= p.hello && before <= held <= c.out && |held| - |before| <= StillWanted(before)
    ensures held <= p.hello
    ensures StillWanted(held) == 0 ==> |held| >= 4 && (GoodLength(Announces(held)) ==> held == p.hello && |held| > 4)
  {
    hide EncodeAll, Encode;
    HelloAnnounces(name);
    if |before| >= 4 {
      AnnouncesPrefix(before, p.hello);
    }
    assert |held| <= |p.hello|;
    assert c.out <= p.hello || p.hello <= c.out;
    assert held <= p.hello;
    if |held| >= 4 {
      AnnouncesPrefix(held, p.hello);
    }
  }

  // ---------------------------------------------------------------------
  // Every run
  // ---------------------------------------------------------------------

  lemma {:induction false} EveryRun(p: C.Params, name: string, alnum: char -> bool, n: Net, moves: seq<Move>, last: Net)
    requires p.hello == Hello(name) && Joined(p, alnum, n) && Reaches(p, alnum, n, moves, last)
    ensures Joined(p, alnum, last)
    decreases |moves|
  {
    hide Joined, Possible, Next;
    if moves == [] {
    } else {
      match moves[0] {
        case ClientMove(e) => ClientKeeps(p, alnum, n, e);
        case ServerMove(e) => ServerKeeps(p, name, alnum, n, e);
      }
      EveryRun(p, name, alnum, Next(p, alnum, n, moves[0]), moves[1..], last);
    }
  }

  /** The k-th echo a client reads is heartbeat k, with the same number and timestamp bits:
      no gap, no duplicate, no reordering, and never more echoes than heartbeats. What the
      server wrote is a prefix of what it read, and of what the client sent. */
  lemma {:induction false} EchoesAreHeartbeats(p: C.Params, name: string, alnum: char -> bool, clock: int, base: ClientMetrics,
      moves: seq<Move>, last: Net)
    requires p.hello == Hello(name) && Reaches(p, alnum, Start(clock, base), moves, last)
    ensures last.client.echoes <= last.client.sent
    ensures forall k :: 0 <= k < |last.client.echoes| ==>
      last.client.echoes[k] == last.client.sent[k] && last.client.echoes[k].number as int == k % U64_LIMIT
    ensures last.server.wrote <= last.server.got
    ensures last.server.hello + last.server.got <= last.client.out || last.server.hello == []
    ensures last.server.hello != [] ==>
      last.server.hello == Hello(name) && last.server.peer == LabelOf(alnum, NameBytes(name))
    ensures last.server.hello == [] ==> last.client.echoes == []
  {
    hide EncodeAll, Reaches;
    Reachable(p, name, alnum, clock, base, moves, last);
    HelloAnnounces(name);
    if last.server.hello == [] {
      Nothing(last.client.echoes);
    }
  }

  /** In every run, a wait that ends in a match leaves no echo outstanding; with a 64-bit
      number this needs fewer than 2^64 heartbeats to be outstanding. */
  lemma {:induction false} MatchLeavesNothing(p: C.Params, name: string, alnum: char -> bool, clock: int, base: ClientMetrics,
      moves: seq<Move>, n: Net, e: Event)
    requires p.hello == Hello(name) && Reaches(p, alnum, Start(clock, base), moves, n)
    requires Possible(p, n, ClientMove(e)) && n.client.pc.Awaiting? && e.act.Chunk? && C.Step(p, n.client, e).pc.Head?
    ensures
      var t := C.Step(p, n.client, e);
      && t.metrics.rtt == Some(n.client.pc.current)
      && (|t.sent| - |t.echoes|) % U64_LIMIT == 0
      && (|t.sent| - |t.echoes| < U64_LIMIT ==> t.echoes == t.sent)
  {
    hide C.Step, C.Enabled, Numbered, Joined, Reaches;
    Reachable(p, name, alnum, clock, base, moves, n);
    var t := C.Step(p, n.client, e);
    ClientKeeps(p, alnum, n, e);
    InOrder(p, alnum, Next(p, alnum, n, ClientMove(e)));
    MatchingRead(p, n.client, e);
    LastIsCurrent(p, alnum, n);
    SameNumber(t.sent, t.echoes);
  }

  lemma {:induction false} Reachable(p: C.Params, name: string, alnum: char -> bool, clock: int, base: ClientMetrics,
      moves: seq<Move>, n: Net)
    requires p.hello == Hello(name) && Reaches(p, alnum, Start(clock, base), moves, n)
    ensures Joined(p, alnum, n)
  {
    hide Reaches, Joined;
    HelloAnnounces(name);
    JoinedStart(p, alnum, clock, base);
    EveryRun(p, name, alnum, Start(clock, base), moves, n);
  }

  lemma {:induction false} InOrder(p: C.Params, alnum: char -> bool, n: Net)
    requires Joined(p, alnum, n)
    ensures n.client.echoes <= n.client.sent && Numbered(n.client.sent)
  {
  }

  lemma {:induction false} LastIsCurrent(p: C.Params, alnum: char -> bool, n: Net)
    requires Joined(p, alnum, n) && n.client.pc.Awaiting?
    ensures |n.client.sent| > 0 && n.client.sent[|n.client.sent| - 1] == n.client.pc.current
  {
  }

  lemma {:induction false} MatchingRead(p: C.Params, c: C.State, e: Event)
    requires C.Enabled(p, c, e) && c.pc.Awaiting? && e.act.Chunk? && C.Step(p, c, e).pc.Head?
    ensures
      var t := C.Step(p, c, e);
      && t.metrics.rtt == Some(c.pc.current) && t.sent == c.sent
      && |t.echoes| > 0 && t.echoes[|t.echoes| - 1].number == c.pc.current.number
  {
    hide Decode, Feed;
  }

  lemma {:induction false} SameNumber(sent: seq<Heartbeat>, echoes: seq<Heartbeat>)
    requires echoes <= sent && Numbered(sent) && |echoes| > 0
    requires echoes[|echoes| - 1].number == sent[|sent| - 1].number
    ensures (|sent| - |echoes|) % U64_LIMIT == 0
    ensures |sent| - |echoes| < U64_LIMIT ==> echoes == sent
  {
    var j, k := |echoes| - 1, |sent| - 1;
    assert echoes[j] == sent[j];
    assert j % U64_LIMIT == k % U64_LIMIT;
  }

  /** In every run, once the server has echoed everything, a client that reads what is on its way before
      the deadline ends the round in a match, however far behind it was. */
  lemma {:induction false} ClientCatchesUp(p: C.Params, name: string, alnum: char -> bool, clock: int, base: ClientMetrics,
      moves: seq<Move>, n: Net, script: seq<Event>)
    requires p.hello == Hello(name) && Reaches(p, alnum, Start(clock, base), moves, n)
    requires n.client.pc.Awaiting? && n.server.wrote == EncodeAll(n.client.sent)
    requires |n.client.echoes| < |n.client.sent| <= |n.client.echoes| + U64_LIMIT
    requires script != [] && ReadsOnly(script, n.client.clock)
    requires |n.client.held| < PACKET_SIZE && Reading(n.client, script, |script|).bytes == n.client.held + n.down
    ensures
      && C.Legal(p, n.client, script, |script|)
      && var t := C.Run(p, n.client, script, |script|);
      && t.pc.Head? && t.misses == 0 && t.echoes == t.sent == n.client.sent
      && t.metrics.rtt == Some(n.client.pc.current)
  {
    hide Reaches, Joined, Behind, C.Step, C.Enabled, C.Run, C.Legal, V.Faithful;
    hide EncodeAll, Reading;
    Reachable(p, name, alnum, clock, base, moves, n);
    FallsBehind(p, alnum, n);
    var c := n.client;
    OnTheWay(c, n.down);
    ReadsBacklog(c, script, c.sent[|c.echoes|..]);
    NoPermanentLag(p, c, script);
    assert c.echoes + c.sent[|c.echoes|..] == c.sent;
  }

  /** With everything echoed, what the client holds and what is on its way are the echoes outstanding. */
  lemma {:induction false} OnTheWay(c: C.State, down: seq<byte>)
    requires c.echoes <= c.sent && EncodeAll(c.sent) == EncodeAll(c.echoes) + c.held + down
    ensures c.held + down == EncodeAll(c.sent[|c.echoes|..])
  {
    hide EncodeAll;
    EncodeAllSplit(c.sent, |c.echoes|);
    assert c.sent[..|c.echoes|] == c.echoes;
    ConcatAssociates(EncodeAll(c.echoes), c.held, down);
    SamePrefix(EncodeAll(c.echoes), EncodeAll(c.sent[|c.echoes|..]), c.held + down);
  }

  /** Reads that come to the bytes of these echoes bring exactly them, the last with the last read. */
  lemma {:induction false} ReadsBacklog(c: C.State, script: seq<Event>, outstanding: seq<Heartbeat>)
    requires |c.held| < PACKET_SIZE && script != [] && ReadsOnly(script, c.clock)
    requires Reading(c, script, |script|).bytes == EncodeAll(outstanding)
    ensures Reading(c, script, |script|).echoes == outstanding
    ensures Reading(c, script, |script| - 1).echoes != outstanding
  {
    hide Encode, EncodeAll, Reader.Absorb, Reader.Absorbed, CutPackets, CutResidue;
    var k, start := |script|, Reader.Intake(c.held, [], c.held);
    NoBytes();
    assert EncodeAll([]) + c.held == c.held;
    Reader.NothingLost(start, script, 0, k);
    Reader.NothingLost(start, script, 0, k - 1);
    assert EncodeAll(outstanding) + [] == EncodeAll(outstanding);
    CutIsUnique(EncodeAll(outstanding), outstanding, []);
    BytesGrow(c, script, k);
  }

  lemma {:induction false} FallsBehind(p: C.Params, alnum: char -> bool, n: Net)
    requires Joined(p, alnum, n) && n.client.pc.Awaiting?
    ensures n.client.echoes <= n.client.sent
    ensures n.server.wrote == EncodeAll(n.client.echoes) + n.client.held + n.down
    ensures |n.client.echoes| < |n.client.sent| <= |n.client.echoes| + U64_LIMIT ==> Behind(n.client)
  {
  }

  lemma {:induction false} SamePrefix(a: seq<byte>, b: seq<byte>, c: seq<byte>)
    requires a + b == a + c
    ensures b == c
  {
    assert b == (a + b)[|a|..] && c == (a + c)[|a|..];
  }

  lemma {:induction false} NoBytes()
    ensures EncodeAll([]) == []
  {
  }

  lemma {:induction false} BytesGrow(s: C.State, script: seq<Event>, k: nat)
    requires |s.held| < PACKET_SIZE && ReadsOnly(script, s.clock) && 0 < k <= |script|
    ensures |Reading(s, script, k - 1).bytes| < |Reading(s, script, k).bytes|
  {
    hide Decode;
    var m := Reading(s, script, k - 1);
    assert |m.held| < |Feed(m.held, script[k - 1])|;
  }

  // ---------------------------------------------------------------------
  // A round that goes well
  // ---------------------------------------------------------------------

  lemma {:induction false} Goes(p: C.Params, alnum: char -> bool, n0: Net, before: seq<Move>, n: Net, m: Move)
    returns (moves: seq<Move>, t: Net)
    requires Reaches(p, alnum, n0, before, n) && Possible(p, n, m)
    ensures Reaches(p, alnum, n0, moves, t) && t == Next(p, alnum, n, m)
    decreases |before|
  {
    hide Possible, Next;
    if before == [] {
      moves, t := [m], Next(p, alnum, n, m);
      assert moves[1..] == [];
    } else {
      var rest;
      rest, t := Goes(p, alnum, Next(p, alnum, n0, before[0]), before[1..], n, m);
      moves := [before[0]] + rest;
      assert moves[1..] == rest;
    }
  }

  /** Both ends are past the handshake, and the client is about to send. */
  lemma {:induction false} Introduced(p: C.Params, name: string, alnum: char -> bool, clock: int, base: ClientMetrics)
    returns (moves: seq<Move>, n: Net)
    requires p.hello == Hello(name) && name != ""
    ensures Reaches(p, alnum, Start(clock, base), moves, n)
    ensures n.up == [] && n.down == [] && n.server == V.Accepted(Hello(name), LabelOf(alnum, NameBytes(name)))
    ensures
      var c := n.client;
      c == C.Fresh(clock, base).(pc := C.Ready, nextSend := clock + p.interval, metrics := C.Started(base), out := Hello(name))
  {
    hide Reaches, Hello, LabelOf, V.Step, V.Enabled, C.Step, C.Enabled, StillWanted;
    var n0, hello, at := Start(clock, base), Hello(name), Event(clock, Clock);
    HelloAnnounces(name);
    Utf8.EncodeTextLength(name);
    Nowhere(p, alnum, n0);
    ClientOpens(p, clock, base);
    moves, n := Goes(p, alnum, n0, [], n0, ClientMove(Event(clock, Write(|p.hello|))));
    assert n.up == hello;
    moves, n := Goes(p, alnum, n0, moves, n, ClientMove(at));
    moves, n := Goes(p, alnum, n0, moves, n, ClientMove(at));
    moves, n := ServerGreets(p, name, alnum, n0, moves, n, clock);
  }

  lemma {:induction false} ServerGreets(p: C.Params, name: string, alnum: char -> bool, n0: Net, before: seq<Move>, n: Net, at: int)
    returns (moves: seq<Move>, t: Net)
    requires Reaches(p, alnum, n0, before, n) && n.up == Hello(name) && name != "" && n.server == V.START && n.down == []
    ensures Reaches(p, alnum, n0, moves, t)
    ensures t == Net(n.client, [], V.Accepted(Hello(name), LabelOf(alnum, NameBytes(name))), [])
  {
    hide Reaches, Hello, LabelOf, V.Step, V.Enabled, StillWanted;
    HelloAnnounces(name);
    Utf8.EncodeTextLength(name);
    var hello := Hello(name);
    var a, b := Event(at, Chunk(hello[..4])), Event(at, Chunk(hello[4..]));
    ServerOpens(alnum, name, a, b);
    moves, t := Goes(p, alnum, n0, before, n, ServerMove(a));
    assert t.up == hello[4..];
    moves, t := Goes(p, alnum, n0, moves, t, ServerMove(b));
    assert t.up == [] && t.down == [];
  }

  lemma {:induction false} Nowhere(p: C.Params, alnum: char -> bool, n: Net)
    ensures Reaches(p, alnum, n, [], n)
  {
  }

  lemma {:induction false} ClientOpens(p: C.Params, clock: int, base: ClientMetrics)
    requires p.hello != []
    ensures
      var s, w, at := C.Fresh(clock, base), Event(clock, Write(|p.hello|)), Event(clock, Clock);
      && C.Enabled(p, s, w)
      && var t := C.Step(p, s, w);
      && t.out == p.hello && C.Enabled(p, t, at)
      && var u := C.Step(p, t, at);
      && u.out == p.hello && C.Enabled(p, u, at)
      && C.Step(p, u, at) == s.(pc := C.Ready, nextSend := clock + p.interval, metrics := C.Started(base), out := p.hello)
  {
    assert p.hello[0..|p.hello|] == p.hello;
  }

  lemma {:induction false} ServerOpens(alnum: char -> bool, name: string, a: Event, b: Event)
    requires name != "" && a.act == Chunk(Hello(name)[..4]) && b.act == Chunk(Hello(name)[4..])
    requires |Hello(name)| == 4 + |NameBytes(name)| && |NameBytes(name)| > 0
    ensures
      && V.Enabled(V.START, a)
      && var v := V.Step(alnum, V.START, a);
      && v.pc.Greeting? && v.wrote == [] && v.held == Hello(name)[..4] && V.Enabled(v, b)
      && StillWanted([]) == 4 && StillWanted(v.held) == |NameBytes(name)|
      && V.Step(alnum, v, b) == V.Accepted(Hello(name), LabelOf(alnum, NameBytes(name)))
  {
    hide LabelOf, Hello, V.Step, StillWanted;
    var h := Hello(name);
    HelloWanted(name);
    assert V.START.held + Take(h[..4], 4) == h[..4];
    V.HandshakeOutcome(alnum, V.START, a, name);
    var v := V.Step(alnum, V.START, a);
    assert v.held + h[4..] == h;
    V.HandshakeOutcome(alnum, v, b, name);
  }

  /** The server asks for the length first, and then for the name that it announces. */
  lemma {:induction false} HelloWanted(name: string)
    requires name != "" && |Hello(name)| == 4 + |NameBytes(name)| && |NameBytes(name)| > 0
    ensures StillWanted([]) == 4 && StillWanted(Hello(name)[..4]) == |NameBytes(name)|
  {
    hide Hello, Announces;
    HelloAnnounces(name);
    AnnouncesPrefix(Hello(name)[..4], Hello(name));
  }

  /** And from there the first heartbeat goes out. */
  lemma {:induction false} Sent(p: C.Params, name: string, alnum: char -> bool, clock: int, base: ClientMetrics)
    returns (moves: seq<Move>, n: Net)
    requires p.hello == Hello(name) && name != ""
    ensures Reaches(p, alnum, Start(clock, base), moves, n)
    ensures n.up == Encode(Heartbeat(0, 0)) && n.down == []
    ensures n.server == V.Accepted(Hello(name), LabelOf(alnum, NameBytes(name)))
    ensures
      var c := n.client;
      && c.pc == C.Awaiting(Heartbeat(0, 0), clock + p.interval, false)
      && c.clock == clock && c.held == [] && c.rounds == [] && c.echoes == []
  {
    hide Reaches, Hello, LabelOf, Encode, C.Step, C.Enabled;
    var n0, bytes := Start(clock, base), Encode(Heartbeat(0, 0));
    moves, n := Introduced(p, name, alnum, clock, base);
    ClientSends(p, n.client);
    moves, n := Goes(p, alnum, n0, moves, n, ClientMove(Event(clock, Stamp(0))));
    moves, n := Goes(p, alnum, n0, moves, n, ClientMove(Event(clock, Write(16))));
    assert n.up == bytes;
    moves, n := Goes(p, alnum, n0, moves, n, ClientMove(Event(clock, Clock)));
  }

  lemma {:induction false} ClientSends(p: C.Params, s: C.State)
    requires s.pc.Ready? && s.number == 0
    ensures
      var a, b, c := Event(s.clock, Stamp(0)), Event(s.clock, Write(16)), Event(s.clock, Clock);
      && C.Enabled(p, s, a)
      && var t := C.Step(p, s, a);
      && t.out == s.out && C.Enabled(p, t, b) && !t.pc.Awaiting?
      && var u := C.Step(p, t, b);
      && u.out == s.out + Encode(Heartbeat(0, 0)) && C.Enabled(p, u, c) && !u.pc.Awaiting?
      && var v := C.Step(p, u, c);
      && v.pc == C.Awaiting(Heartbeat(0, 0), s.clock + p.interval, false)
      && v.out == u.out && v.clock == s.clock && v.held == s.held && v.rounds == s.rounds && v.echoes == s.echoes
  {
    hide Encode;
    assert Encode(Heartbeat(0, 0))[0..16] == Encode(Heartbeat(0, 0));
  }

  /** The server hears it and writes it back. */
  lemma {:induction false} EchoesAtOnce(p: C.Params, alnum: char -> bool, n0: Net, before: seq<Move>, n: Net, at: int, beat: Heartbeat)
    returns (moves: seq<Move>, t: Net)
    requires Reaches(p, alnum, n0, before, n)
    requires n.up == Encode(beat) && n.down == [] && n.server.pc.Reading? && n.server.held == []
    ensures Reaches(p, alnum, n0, moves, t) && t.client == n.client && t.up == [] && t.down == Encode(beat)
    ensures t.server.pc.Reading? && t.server.peer == n.server.peer && t.server.heard == n.server.heard + [beat]
  {
    hide Reaches, Encode, Decode;
    var bytes := Encode(beat);
    DecodeEncode(beat);
    assert [] + bytes == bytes && bytes[0..] == bytes && bytes[0..16] == bytes;
    moves, t := Goes(p, alnum, n0, before, n, ServerMove(Event(at, Chunk(bytes))));
    moves, t := Goes(p, alnum, n0, moves, t, ServerMove(Event(at, Write(16))));
    assert t.down == bytes;
  }

  lemma {:induction false} ReadsMatch(p: C.Params, n: Net, alnum: char -> bool, e: Event)
    requires n.client.pc.Awaiting? && n.client.held == [] && n.down == Encode(n.client.pc.current)
    requires e.at >= n.client.clock && e.act == Chunk(n.down)
    ensures
      && Possible(p, n, ClientMove(e))
      && var t := Next(p, alnum, n, ClientMove(e));
      && t.server == n.server && t.client.pc.Head? && t.client.clock == e.at
      && t.client.rounds == n.client.rounds + [true] && t.client.metrics.rtt == Some(n.client.pc.current)
  {
    hide Encode, Decode, Inc;
    DecodeEncode(n.client.pc.current);
    assert [] + n.down == n.down && n.down[0..] == n.down;
  }

  /** Nothing in the model stands in the way of a session: for every node name, setting and
      instant there is a run in which the server accepts it under its label, and the first
      heartbeat is echoed and its RTT taken, in no time at all. */
  lemma {:induction false} FirstRoundMatches(p: C.Params, name: string, alnum: char -> bool, clock: int, base: ClientMetrics)
    returns (moves: seq<Move>, n: Net)
    requires p.hello == Hello(name) && name != ""
    ensures Reaches(p, alnum, Start(clock, base), moves, n)
    ensures n.server.pc.Reading? && n.server.peer == LabelOf(alnum, NameBytes(name)) && n.server.heard == [Heartbeat(0, 0)]
    ensures n.client.pc.Head? && n.client.rounds == [true] && n.client.metrics.rtt == Some(Heartbeat(0, 0)) && n.client.clock == clock
  {
    hide Reaches, Hello, LabelOf, Encode, Possible, Next;
    moves, n := Sent(p, name, alnum, clock, base);
    moves, n := EchoesAtOnce(p, alnum, Start(clock, base), moves, n, clock, Heartbeat(0, 0));
    var e := Event(clock, Chunk(n.down));
    ReadsMatch(p, n, alnum, e);
    moves, n := Goes(p, alnum, Start(clock, base), moves, n, ClientMove(e));
  }
}
