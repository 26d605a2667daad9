/** One inbound connection, run to its end or to the end of its script: the handshake,
    admission, the echo loop and the session's metrics. */
module ServerSession {
  import opened Wire
  import opened Wrappers
  import opened Transport
  import opened Metrics
  import opened Reader
  import opened Handshake
  import opened Echo

  // ---------------------------------------------------------------------
  // Await points
  // ---------------------------------------------------------------------

  ghost predicate At(alnum: char -> bool, conn: Connection, s: State)
    reads conn`pos
  {
    && conn.Valid() && Legal(alnum, START, conn.script, |conn.script|)
    && Legal(alnum, START, conn.script, conn.pos) && s == Run(alnum, START, conn.script, conn.pos)
  }

  /** The connection has come as far as state s, and s's echoes are what was written. */
  ghost predicate Follows(alnum: char -> bool, conn: Connection, s: State)
    reads conn
  {
    conn.Valid() && At(alnum, conn, s) && conn.out == s.wrote
  }

  lemma {:induction false} NothingYet(alnum: char -> bool, script: seq<Event>)
    ensures Legal(alnum, START, script, 0) && Run(alnum, START, script, 0) == START
  {
  }

  method Await(alnum: char -> bool, ghost s: State, conn: Connection) returns (e: Event, ghost t: State)
    requires Follows(alnum, conn, s) && conn.pos != |conn.script|
    modifies conn`pos
    ensures conn.pos == old(conn.pos) + 1 <= |conn.script| && e == conn.script[old(conn.pos)]
    ensures Enabled(s, e) && t == Step(alnum, s, e)
    ensures conn.Valid() && conn.out == s.wrote && At(alnum, conn, t)
  {
    hide Step, Enabled, Legal, Run;
    Advance(alnum, START, conn.script, conn.pos);
    e := conn.Next();
    t := Step(alnum, s, e);
  }

  datatype Progress = Going | Suspended | Finished

  // ---------------------------------------------------------------------
  // The handshake
  // ---------------------------------------------------------------------

  /** Read the handshake: four length bytes, then as many name bytes as they say. */
  method RecvHandshake(alnum: char -> bool, conn: Connection) returns (r: Progress, name: string, ghost t: State)
    requires Follows(alnum, conn, START)
    modifies conn`pos
    ensures Follows(alnum, conn, t)
    ensures match r
      case Going => |t.hello| > 4 && t == Accepted(t.hello, name)
      case Suspended => conn.pos == |conn.script| && t.pc.Greeting? && t == START.(held := t.held)
      case Finished => t == START.(pc := Over(None), held := t.held)
  {
    hide Legal, Run, At, Announces, LabelOf;
    var held: seq<byte> := [];
    t, name := START, "";
    while true
      invariant Follows(alnum, conn, t) && t == START.(held := held)
      decreases |conn.script| - conn.pos
    {
      if conn.pos == |conn.script| {
        return Suspended, name, t;
      }
      var e;
      e, t := Await(alnum, t, conn);
      if !e.act.Chunk? || e.act.bytes == [] {
        return Finished, name, t;
      }
      held := held + Take(e.act.bytes, StillWanted(held));
      if StillWanted(held) == 0 {
        if |held| < 4 || !GoodLength(Announces(held)) {
          return Finished, name, t;
        }
        return Going, LabelOf(alnum, held[4..]), t;
      }
    }
  }

  // ---------------------------------------------------------------------
  // The echo loop
  // ---------------------------------------------------------------------

  lemma {:induction false} GatherRuns(alnum: char -> bool, script: seq<Event>, from: nat, end: nat, held: seq<byte>)
    requires from <= end <= |script| && Legal(alnum, START, script, |script|)
    requires
      && Legal(alnum, START, script, from)
      && var s := Run(alnum, START, script, from);
      s.pc.Reading? && s.held == [] && Gather([], script, from, end) == Some(held)
    requires |held| < PACKET_SIZE
    ensures
      && Legal(alnum, START, script, end)
      && var s := Run(alnum, START, script, from);
      Run(alnum, START, script, end) == s.(held := held, got := s.got + held)
    decreases end
  {
    hide Legal, Run, Feed, Decode, Encode;
    if from == end {
    } else {
      var s := Run(alnum, START, script, from);
      var before := Gather([], script, from, end - 1).value;
      GatherRuns(alnum, script, from, end - 1, before);
      Advance(alnum, START, script, end - 1);
      var now := Feed(before, script[end - 1]);
      ConcatAssociates(s.got, before, now[|before|..]);
    }
  }

  /** One packet read with a fresh reader, as steps of the connection. */
  lemma {:induction false} RecvRuns(alnum: char -> bool, script: seq<Event>, from: nat, end: nat,
      r: RecvResult, after: seq<byte>)
    requires from <= end <= |script| && Legal(alnum, START, script, |script|)
    requires
      && Legal(alnum, START, script, from)
      && Run(alnum, START, script, from).pc.Reading? && Run(alnum, START, script, from).held == []
    requires Outcome([], script, from, end, r, after) && |after| < PACKET_SIZE
    ensures
      && Legal(alnum, START, script, end)
      && var s, t := Run(alnum, START, script, from), Run(alnum, START, script, end);
      match r
      case Received(echo) =>
        && t.pc == Writing(Encode(echo), 0) && t.heard == s.heard + [echo] && t.held == []
        && t.wrote == s.wrote && t.peer == s.peer && t.hello == s.hello
      case Broken(kind) => t == s.(pc := Over(Some(ReadReason(kind))), held := after, got := s.got + after)
      case Dropped => t == s.(held := after, got := s.got + after)
  {
    hide Legal, Run, Feed, Decode, Encode;
    var s := Run(alnum, START, script, from);
    if r.Dropped? {
      GatherRuns(alnum, script, from, end, after);
    } else {
      var before := Gather([], script, from, end - 1).value;
      GatherRuns(alnum, script, from, end - 1, before);
      Advance(alnum, START, script, end - 1);
    }
  }

  /** Write the echo. */
  method WriteEcho(alnum: char -> bool, ghost s: State, conn: Connection, packet: seq<byte>)
    returns (r: Progress, reason: Reason, ghost t: State)
    requires Follows(alnum, conn, s) && s.pc == Writing(packet, 0) && packet != []
    modifies conn
    ensures Follows(alnum, conn, t) && old(conn.pos) <= conn.pos
    ensures t == s.(pc := t.pc, wrote := t.wrote)
    ensures match r
      case Going => t.pc.Reading?
      case Suspended => conn.pos == |conn.script| && t.pc.Writing?
      case Finished => t.pc == Over(Some(reason))
  {
    hide Legal, Run, At;
    var written: nat := 0;
    t, reason := s, LocalError;
    while written < |packet|
      invariant Follows(alnum, conn, t) && old(conn.pos) <= conn.pos && written <= |packet|
      invariant t == s.(pc := if written == |packet| then Reading else Writing(packet, written), wrote := t.wrote)
    {
      if conn.pos == |conn.script| {
        return Suspended, reason, t;
      }
      var e;
      e, t := Await(alnum, t, conn);
      if e.act.WriteFail? {
        return Finished, WriteReason(e.act.kind), t;
      }
      conn.Accept(packet[written..written + e.act.n]);
      written := written + e.act.n;
    }
    r := Going;
  }

  function Heard(m: ServerMetrics, n: nat): ServerMetrics {
    m.(received := m.received + n)
  }

  /** Nothing but the server metrics of one label changed. */
  twostate predicate OthersKept(m: Families, l: PeerLabel)
    reads m
  {
    && (forall k :: k != l ==> m.Server(k) == old(m.Server(k)))
    && forall k :: m.Client(k) == old(m.Client(k))
  }

  method RecordHeartbeat(m: Families, l: PeerLabel)
    modifies m
    ensures m.Server(l) == Heard(old(m.Server(l)), 1) && OthersKept(m, l)
  {
    m.serverHeartbeatsRx := Inc(m.serverHeartbeatsRx, l);
  }

  /** Echo heartbeats until the session ends. */
  method DriveSession(alnum: char -> bool, ghost s: State, conn: Connection, m: Families, l: PeerLabel)
    returns (r: Progress, reason: Reason, ghost t: State)
    requires Follows(alnum, conn, s) && s.pc.Reading? && s.held == [] && s.heard == []
    modifies conn, m
    ensures Follows(alnum, conn, t) && t.peer == s.peer && t.hello == s.hello
    ensures m.Server(l) == Heard(old(m.Server(l)), |t.heard|) && OthersKept(m, l)
    ensures match r
      case Going => false
      case Suspended => conn.pos == |conn.script| && !t.pc.Over?
      case Finished => t.pc == Over(Some(reason))
  {
    hide Legal, Run, Encode, Decode, Outcome;
    t, reason := s, LocalError;
    while true
      invariant Follows(alnum, conn, t) && t.peer == s.peer && t.hello == s.hello
      invariant t.pc.Reading? && t.held == []
      invariant m.Server(l) == Heard(old(m.Server(l)), |t.heard|) && OthersKept(m, l)
      decreases |conn.script| - conn.pos
    {
      r, reason, t := EchoOne(alnum, t, conn, m, l);
      if !r.Going? {
        return;
      }
    }
  }

  /** One heartbeat: read it with a fresh reader, count it, echo it. */
  method EchoOne(alnum: char -> bool, ghost s: State, conn: Connection, m: Families, l: PeerLabel)
    returns (r: Progress, reason: Reason, ghost t: State)
    requires Follows(alnum, conn, s) && s.pc.Reading? && s.held == []
    modifies conn, m
    ensures Follows(alnum, conn, t) && old(conn.pos) <= conn.pos && t.peer == s.peer && t.hello == s.hello
    ensures |s.heard| <= |t.heard| <= |s.heard| + 1
    ensures m.Server(l) == Heard(old(m.Server(l)), |t.heard| - |s.heard|) && OthersKept(m, l)
    ensures match r
      case Going => old(conn.pos) < conn.pos && t.pc.Reading? && t.held == []
      case Suspended => conn.pos == |conn.script| && !t.pc.Over?
      case Finished => t.pc == Over(Some(reason))
  {
    hide Legal, Run, Encode, Decode, Outcome, Gather, Feed;
    t, reason := s, LocalError;
    var reader := new HeartbeatReader();
    ghost var from := conn.pos;
    var got := reader.Recv(conn);
    RecvRuns(alnum, conn.script, from, conn.pos, got, reader.held);
    t := Run(alnum, START, conn.script, conn.pos);
    if got.Broken? {
      return Finished, ReadReason(got.kind), t;
    }
    if got.Dropped? {
      if conn.pos == |conn.script| {
        return Suspended, reason, t;
      }
      var e;
      e, t := Await(alnum, t, conn);
      return Finished, Timeout, t;
    }
    RecordHeartbeat(m, l);
    r, reason, t := WriteEcho(alnum, t, conn, Encode(got.echo));
  }

  // ---------------------------------------------------------------------
  // The whole connection
  // ---------------------------------------------------------------------

  function Opened(m: ServerMetrics): ServerMetrics {
    ServerMetrics(1, m.sessions + 1, m.received, Precreated(m.disconnects, SERVER_DISCONNECT_REASONS))
  }

  function Closed(m: ServerMetrics, reason: Reason): ServerMetrics {
    m.(active := 0, disconnects := Inc(m.disconnects, reason))
  }

  method RecordStart(m: Families, l: PeerLabel)
    modifies m
    ensures m.Server(l) == Opened(old(m.Server(l)))
    ensures m.Client(l) == old(m.Client(l)).(disconnects := Precreated(old(m.Client(l)).disconnects, CLIENT_DISCONNECT_REASONS))
    ensures forall k :: k != l ==> m.Server(k) == old(m.Server(k)) && m.Client(k) == old(m.Client(k))
  {
    m.InitDisconnectLabels(l.node, l.peer);
    m.serverSessionActive := m.serverSessionActive[l := 1];
    m.serverSessionsTotal := Inc(m.serverSessionsTotal, l);
  }

  method RecordEnd(m: Families, l: PeerLabel, reason: Reason)
    modifies m
    ensures m.Server(l) == Closed(old(m.Server(l)), reason) && OthersKept(m, l)
  {
    m.serverSessionActive := m.serverSessionActive[l := 0];
    m.serverDisconnects := m.serverDisconnects[l := Inc(ForLabel(m.serverDisconnects, l), reason)];
  }

  datatype Handled = NoHandshake | Rejected | Running | Ended(reason: Reason)

  /** A connection whose handshake fails, or whose name is one too many, leaves no trace
      in the metrics; any other is counted once when it starts, once for each heartbeat,
      and once, under one reason, when it ends. On the client side it only pre-creates
      entries. */
  method HandleConnection(alnum: char -> bool, node: string, conn: Connection, m: Families, peers: ServerPeers)
    returns (h: Handled)
    requires conn.pos == 0 && conn.out == [] && Legal(alnum, START, conn.script, |conn.script|)
    modifies conn, m, peers
    ensures
      && conn.pos <= |conn.script| && Legal(alnum, START, conn.script, conn.pos)
      && var s := Run(alnum, START, conn.script, conn.pos);
      var l := PeerLabel(node, s.peer);
      && conn.out == s.wrote
      && (h.NoHandshake? <==> s.pc == Over(None))
      && (s.hello == [] ==> m.Server(l) == old(m.Server(l)) && peers.seen == old(peers.seen))
      && (s.hello != [] ==>
        && (peers.seen == if h.Rejected? then old(peers.seen) else old(peers.seen) + {s.peer})
        && (h.Rejected? <==> s.peer !in old(peers.seen) && |old(peers.seen)| >= MAX_UNIQUE_SERVER_PEERS))
      && (h.Rejected? ==> s.hello != [] && m.Server(l) == old(m.Server(l)) && conn.out == [])
      && (h.Running? ==>
        && conn.pos == |conn.script| && !s.pc.Over?
        && (s.hello == [] || m.Server(l) == Heard(Opened(old(m.Server(l))), |s.heard|)))
      && (h.Ended? ==>
        && s.pc == Over(Some(h.reason))
        && m.Server(l) == Closed(Heard(Opened(old(m.Server(l))), |s.heard|), h.reason))
      && (m.Client(l) == if s.hello == [] || h.Rejected? then old(m.Client(l)) else
        old(m.Client(l)).(disconnects := Precreated(old(m.Client(l)).disconnects, CLIENT_DISCONNECT_REASONS)))
      && forall k :: k != l ==> m.Server(k) == old(m.Server(k)) && m.Client(k) == old(m.Client(k))
  {
    hide Legal, Run, Step, Enabled, LabelOf, Precreated;
    ghost var t;
    var r, name, reason;
    NothingYet(alnum, conn.script);
    r, name, t := RecvHandshake(alnum, conn);
    if r.Finished? {
      return NoHandshake;
    }
    if r.Suspended? {
      return Running;
    }
    var admitted := peers.TryRegister(name);
    if !admitted {
      return Rejected;
    }
    var l := PeerLabel(node, name);
    RecordStart(m, l);
    r, reason, t := DriveSession(alnum, t, conn, m, l);
    if r.Suspended? {
      return Running;
    }
    RecordEnd(m, l, reason);
    h := Ended(reason);
  }
}
