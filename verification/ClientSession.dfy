/** The client's session loop over a live connection, and its methods on the shared
    metrics, proved to do exactly the steps of `Session` for every script of events. */
module ClientSession {
  import opened Wire
  import opened Wrappers
  import opened Transport
  import opened Metrics
  import opened Reader
  import opened Session

  // ---------------------------------------------------------------------
  // The shared metrics
  // ---------------------------------------------------------------------

  /** Nothing but the client metrics of one label changed. */
  twostate predicate OthersKept(m: Families, l: PeerLabel)
    reads m
  {
    && (forall k :: k != l ==> m.Client(k) == old(m.Client(k)))
    && forall k :: m.Server(k) == old(m.Server(k))
  }

  method RecordSessionStart(m: Families, l: PeerLabel)
    modifies m
    ensures m.Client(l) == Started(old(m.Client(l))) && OthersKept(m, l)
  {
    m.clientSessionActive := m.clientSessionActive[l := 1];
    m.clientSessionsTotal := Inc(m.clientSessionsTotal, l);
    m.clientConsecutiveMissed := m.clientConsecutiveMissed[l := 0];
  }

  /** `matched` is the heartbeat that the echo answers, unless the echo was a late one. */
  method RecordEcho(m: Families, l: PeerLabel, matched: Option<Heartbeat>)
    modifies m
    ensures m.Client(l) == EchoSeen(old(m.Client(l)), matched) && OthersKept(m, l)
  {
    m.clientHeartbeatsRx := Inc(m.clientHeartbeatsRx, l);
    m.clientConsecutiveMissed := m.clientConsecutiveMissed[l := 0];
    if matched.Some? {
      m.clientRtt := m.clientRtt[l := matched.value];
    }
  }

  method RecordSent(m: Families, l: PeerLabel)
    modifies m
    ensures m.Client(l) == old(m.Client(l)).(sent := old(m.Client(l)).sent + 1) && OthersKept(m, l)
  {
    m.clientHeartbeatsSent := Inc(m.clientHeartbeatsSent, l);
  }

  method RecordMiss(m: Families, l: PeerLabel, misses: int)
    modifies m
    ensures m.Client(l) == RoundMissed(old(m.Client(l)), misses) && OthersKept(m, l)
  {
    m.clientHeartbeatsMissed := Inc(m.clientHeartbeatsMissed, l);
    m.clientConsecutiveMissed := m.clientConsecutiveMissed[l := misses];
  }

  method RecordSessionEnd(m: Families, l: PeerLabel, end: End)
    modifies m
    ensures m.Client(l) == Ended(old(m.Client(l)), end) && OthersKept(m, l)
  {
    m.clientSessionActive := m.clientSessionActive[l := 0];
    if end.Disconnected? {
      m.clientDisconnects :=
        m.clientDisconnects[l := Inc(ForLabel(m.clientDisconnects, l), end.reason)];
    }
  }

  // ---------------------------------------------------------------------
  // Await points
  // ---------------------------------------------------------------------

  /** The events so far lead to state s. */
  ghost predicate At(p: Params, s0: State, conn: Connection, s: State)
    reads conn`pos
  {
    && conn.Valid() && Legal(p, s0, conn.script, |conn.script|)
    && Legal(p, s0, conn.script, conn.pos) && s == Run(p, s0, conn.script, conn.pos)
  }

  /** The session has come as far as state s, and has written what s says. */
  ghost predicate Follows(p: Params, s0: State, conn: Connection, s: State)
    reads conn
  {
    conn.Valid() && At(p, s0, conn, s) && conn.out == s.out
  }

  /** Wait for whatever happens next. What it does to the output is up to the caller. */
  method Await(p: Params, ghost s0: State, ghost s: State, conn: Connection) returns (e: Event, ghost t: State)
    requires Follows(p, s0, conn, s) && conn.pos != |conn.script|
    modifies conn`pos
    ensures conn.pos == old(conn.pos) + 1 <= |conn.script| && e == conn.script[old(conn.pos)]
    ensures Enabled(p, s, e) && t == Step(p, s, e)
    ensures conn.Valid() && conn.out == s.out && At(p, s0, conn, t)
  {
    hide Step, Enabled, Legal, Run;
    Advance(p, s0, conn.script, conn.pos);
    e := conn.Next();
    t := Step(p, s, e);
  }

  /** How far a part of the session got: the script may stop anywhere. */
  datatype Progress = Going | Suspended | Stopped(end: End)

  /** Where a part of the session that did not go on left things. */
  ghost predicate Halted(p: Params, s0: State, conn: Connection, t: State, m: ClientMetrics, r: Progress)
    reads conn
  {
    && Follows(p, s0, conn, t)
    && (r.Suspended? ==> conn.pos == |conn.script| && !t.pc.Done? && t.metrics == m)
    && (r.Stopped? ==> t.pc == Done(r.end) && t.metrics == Ended(m, r.end))
  }

  method SendHello(p: Params, ghost s0: State, ghost s: State, conn: Connection) returns (r: Progress, ghost t: State)
    requires Follows(p, s0, conn, s) && s.pc == Greeting(0) && p.hello != []
    modifies conn
    ensures Follows(p, s0, conn, t)
    ensures t == s.(pc := t.pc, clock := t.clock, out := t.out)
    ensures match r
      case Going => t.pc.Opening?
      case Suspended => conn.pos == |conn.script| && t.pc.Greeting?
      case Stopped(end) => end == HandshakeFailed && t.pc == Done(end)
  {
    hide Legal, Run, Encode, At;
    var written: nat := 0;
    t := s;
    while written < |p.hello|
      invariant Follows(p, s0, conn, t) && written <= |p.hello|
      invariant t == s.(pc := if written == |p.hello| then Opening else Greeting(written), clock := t.clock, out := t.out)
    {
      if conn.pos == |conn.script| {
        return Suspended, t;
      }
      var e;
      e, t := Await(p, s0, t, conn);
      if e.act.WriteFail? {
        return Stopped(HandshakeFailed), t;
      }
      conn.Accept(p.hello[written..written + e.act.n]);
      written := written + e.act.n;
    }
    r := Going;
  }

  /** Write the heartbeat, unless cancelled. */
  method SendHeartbeat(p: Params, ghost s0: State, ghost s: State, conn: Connection, number: u64)
    returns (r: Progress, stamp: u64, ghost t: State)
    requires Follows(p, s0, conn, s) && s.pc.Ready? && s.number == number
    modifies conn
    ensures old(conn.pos) <= conn.pos
    ensures Halted(p, s0, conn, t, s.metrics, r)
    ensures r.Going? ==> t.pc == Posted(stamp) && t == s.(pc := t.pc, clock := t.clock, out := t.out, starts := t.starts)
  {
    hide Legal, Run, Encode, At;
    t, stamp := s, 0;
    if conn.pos == |conn.script| {
      return Suspended, stamp, t;
    }
    var e;
    e, t := Await(p, s0, t, conn);
    if e.act.Cancel? {
      return Stopped(Cancelled), stamp, t;
    }
    stamp := e.act.stamp;
    var packet := Encode(Heartbeat(number, stamp));
    var written: nat := 0;
    while written < PACKET_SIZE
      invariant Follows(p, s0, conn, t) && written <= PACKET_SIZE && old(conn.pos) <= conn.pos
      invariant t == s.(pc := if written == PACKET_SIZE then Posted(stamp) else Sending(stamp, written),
                        clock := t.clock, out := t.out, starts := t.starts)
    {
      if conn.pos == |conn.script| {
        return Suspended, stamp, t;
      }
      e, t := Await(p, s0, t, conn);
      if e.act.Cancel? {
        return Stopped(Cancelled), stamp, t;
      }
      if e.act.WriteFail? {
        return Stopped(Disconnected(Classify(e.act.kind))), stamp, t;
      }
      conn.Accept(packet[written..written + e.act.n]);
      written := written + e.act.n;
    }
    r := Going;
  }

  // ---------------------------------------------------------------------
  // The echo wait
  // ---------------------------------------------------------------------

  lemma {:induction false} GatherRuns(p: Params, s0: State, script: seq<Event>, from: nat, end: nat, held: seq<byte>)
    requires from <= end <= |script| && Legal(p, s0, script, |script|)
    requires
      && Legal(p, s0, script, from)
      && var s := Run(p, s0, script, from);
      s.pc.Awaiting? && |s.held| < PACKET_SIZE && Gather(s.held, script, from, end) == Some(held)
    requires |held| < PACKET_SIZE
    ensures
      && Legal(p, s0, script, end)
      && var s, t := Run(p, s0, script, from), Run(p, s0, script, end);
      t == s.(clock := t.clock, held := held)
    decreases end
  {
    hide Legal, Run, Feed, Decode, Encode;
    if from == end {
    } else {
      var s := Run(p, s0, script, from);
      var before := Gather(s.held, script, from, end - 1).value;
      GatherRuns(p, s0, script, from, end - 1, before);
      Advance(p, s0, script, end - 1);
      assert |Feed(before, script[end - 1])| < PACKET_SIZE;
    }
  }

  /** One `Recv` of the echo wait, as steps: the read future may be dropped at any point. */
  lemma {:induction false} RecvRuns(p: Params, s0: State, script: seq<Event>, from: nat, end: nat,
      r: RecvResult, after: seq<byte>)
    requires from <= end <= |script| && Legal(p, s0, script, |script|)
    requires
      && Legal(p, s0, script, from)
      && var s := Run(p, s0, script, from);
      s.pc.Awaiting? && |s.held| < PACKET_SIZE && Outcome(s.held, script, from, end, r, after)
    requires |after| < PACKET_SIZE
    ensures
      && Legal(p, s0, script, end)
      && var s, t := Run(p, s0, script, from), Run(p, s0, script, end);
      var u := s.(clock := t.clock, held := after);
      t == match r
        case Received(echo) => Echo(u, t.clock, echo)
        case Broken(kind) => Finish(u, t.clock, Disconnected(Classify(kind)))
        case Dropped => u
  {
    hide Legal, Run, Feed, Decode, Encode;
    var s := Run(p, s0, script, from);
    if r.Dropped? {
      GatherRuns(p, s0, script, from, end, after);
    } else {
      var before := Gather(s.held, script, from, end - 1).value;
      GatherRuns(p, s0, script, from, end - 1, before);
      Advance(p, s0, script, end - 1);
    }
  }

  /** The session's variables and metrics are those of state s. */
  ghost predicate Mirrors(s: State, number: u64, misses: int, nextSend: int, held: seq<byte>, m: ClientMetrics) {
    s.number == number && s.misses == misses && s.nextSend == nextSend && s.held == held && s.metrics == m
  }

  /** Read echoes until the current heartbeat's, or until the deadline. */
  method AwaitEcho(p: Params, ghost s0: State, ghost s: State, conn: Connection, echoes: HeartbeatReader,
      current: Heartbeat, deadline: int, misses: int, m: Families, l: PeerLabel)
    returns (r: Progress, gotEcho: bool, now: int, misses': int, ghost u: State, ghost t: State)
    requires Follows(p, s0, conn, s) && echoes.Valid() && s.pc == Awaiting(current, deadline, false)
    requires Mirrors(s, s.number, misses, s.nextSend, echoes.held, m.Client(l))
    modifies conn`pos, echoes, echoes.buf, m
    ensures old(conn.pos) <= conn.pos
    ensures Halted(p, s0, conn, t, m.Client(l), r) && echoes.Valid() && OthersKept(m, l)
    ensures r.Going? ==>
      && Mirrors(if gotEcho then t else u, s.number, misses', s.nextSend, echoes.held, m.Client(l))
      && if gotEcho then t.pc.Head? else u.pc == Awaiting(current, deadline, false) && t == Deadline(p, u, now)
  {
    hide Legal, Run, Encode, Outcome, Decode, Feed;
    t, u, gotEcho, misses', now := s, s, false, misses, deadline;
    while true
      invariant Follows(p, s0, conn, t) && echoes.Valid() && OthersKept(m, l)
      invariant t.pc == Awaiting(current, deadline, gotEcho)
      invariant Mirrors(t, s.number, misses', s.nextSend, echoes.held, m.Client(l))
      decreases |conn.script| - conn.pos, !gotEcho
    {
      ghost var from, before := conn.pos, t;
      var got := echoes.Recv(conn);
      RecvRuns(p, s0, conn.script, from, conn.pos, got, echoes.held);
      t := Run(p, s0, conn.script, conn.pos);
      if got.Broken? {
        return Stopped(Disconnected(Classify(got.kind))), gotEcho, now, misses', u, t;
      }
      if got.Dropped? {
        if conn.pos == |conn.script| {
          return Suspended, gotEcho, now, misses', u, t;
        }
        u := t;
        var e;
        e, t := Await(p, s0, t, conn);
        if e.act.Cancel? {
          return Stopped(Cancelled), gotEcho, now, misses', u, t;
        }
        return Going, gotEcho, e.at, misses', u, t;
      }
      gotEcho, misses' := true, 0;
      var matched := got.echo.number == current.number;
      RecordEcho(m, l, if matched then Some(current) else None);
      if matched {
        return Going, gotEcho, now, misses', u, t;
      }
    }
  }

  // ---------------------------------------------------------------------
  // The session
  // ---------------------------------------------------------------------

  /** Wait for the next send, or not at all when it is due already. */
  method WaitForSlot(p: Params, ghost s0: State, ghost s: State, conn: Connection, nextSend: int)
    returns (r: Progress, nextSend': int, ghost t: State)
    requires Follows(p, s0, conn, s) && s.pc.Head? && s.nextSend == nextSend
    modifies conn`pos
    ensures old(conn.pos) <= conn.pos
    ensures Halted(p, s0, conn, t, s.metrics, r)
    ensures r.Going? ==> old(conn.pos) < conn.pos && t.pc.Ready? && t == s.(pc := t.pc, clock := t.clock, nextSend := nextSend')
  {
    hide Legal, Run, Encode, At;
    t, nextSend' := s, nextSend;
    if conn.pos == |conn.script| {
      return Suspended, nextSend', t;
    }
    var e;
    e, t := Await(p, s0, t, conn);
    if nextSend > e.at {
      if conn.pos == |conn.script| {
        return Suspended, nextSend', t;
      }
      e, t := Await(p, s0, t, conn);
      if e.act.Cancel? {
        return Stopped(Cancelled), nextSend', t;
      }
    }
    nextSend' := nextSend + p.interval;
    r := Going;
  }

  /** The heartbeat is out: count it and start the wait for its echo. */
  method StartWait(p: Params, ghost s0: State, ghost s: State, conn: Connection, number: u64, m: Families, l: PeerLabel)
    returns (r: Progress, number': u64, deadline: int, ghost t: State)
    requires Follows(p, s0, conn, s) && s.pc.Posted? && s.number == number && s.metrics == m.Client(l)
    modifies conn`pos, m
    ensures old(conn.pos) <= conn.pos
    ensures Halted(p, s0, conn, t, m.Client(l), r) && OthersKept(m, l)
    ensures r.Going? ==>
      && old(conn.pos) < conn.pos
      && t.pc == Awaiting(Heartbeat(number, s.pc.stamp), deadline, false)
      && Mirrors(t, number', s.misses, s.nextSend, s.held, m.Client(l))
  {
    hide Legal, Run, Encode, At;
    t, number', deadline := s, number, 0;
    if conn.pos == |conn.script| {
      return Suspended, number', deadline, t;
    }
    RecordSent(m, l);
    number' := if number as int + 1 == U64_LIMIT then 0 else number + 1;
    var e;
    e, t := Await(p, s0, t, conn);
    deadline := e.at + p.interval;
    r := Going;
  }

  /** After the wait: an echo-free round counts as a miss, and enough of them in a row end
      the session. */
  method CloseRound(p: Params, ghost s0: State, ghost u: State, ghost t: State, conn: Connection,
      ghost number: u64, ghost held: seq<byte>,
      gotEcho: bool, now: int, misses: int, nextSend: int, m: Families, l: PeerLabel)
    returns (r: Progress, misses': int, nextSend': int)
    requires Follows(p, s0, conn, t)
    requires Mirrors(if gotEcho then t else u, number, misses, nextSend, held, m.Client(l))
    requires if gotEcho then t.pc.Head? else u.pc.Awaiting? && !u.pc.gotEcho && t == Deadline(p, u, now)
    modifies m
    ensures Halted(p, s0, conn, t, m.Client(l), r) && OthersKept(m, l)
    ensures !r.Suspended? && (r.Going? ==> t.pc.Head? && Mirrors(t, number, misses', nextSend', held, m.Client(l)))
  {
    hide At;
    misses', nextSend' := misses, nextSend;
    if !gotEcho {
      misses' := misses + 1;
      RecordMiss(m, l, misses');
      if misses' >= p.maxMisses {
        return Stopped(Disconnected(Timeout)), misses', nextSend';
      }
      nextSend' := now + p.interval;
    }
    r := Going;
  }

  /** One round: wait, send, and wait for the echo. */
  method PlayRound(p: Params, ghost s0: State, ghost s: State, conn: Connection, echoes: HeartbeatReader,
      number: u64, misses: int, nextSend: int, m: Families, l: PeerLabel)
    returns (r: Progress, number': u64, misses': int, nextSend': int, ghost t: State)
    requires Follows(p, s0, conn, s) && s.pc.Head? && echoes.Valid()
    requires Mirrors(s, number, misses, nextSend, echoes.held, m.Client(l))
    modifies conn, echoes, echoes.buf, m
    ensures old(conn.pos) <= conn.pos
    ensures Halted(p, s0, conn, t, m.Client(l), r) && echoes.Valid() && OthersKept(m, l)
    ensures r.Going? ==>
      && old(conn.pos) < conn.pos && t.pc.Head?
      && Mirrors(t, number', misses', nextSend', echoes.held, m.Client(l))
  {
    hide At, Step, Enabled, Legal, Run, Deadline;
    var stamp, deadline, gotEcho, now;
    ghost var u;
    number', misses', nextSend' := number, misses, nextSend;
    r, nextSend', t := WaitForSlot(p, s0, s, conn, nextSend);
    if r.Going? {
      r, stamp, t := SendHeartbeat(p, s0, t, conn, number);
      if r.Going? {
        r, number', deadline, t := StartWait(p, s0, t, conn, number, m, l);
        if r.Going? {
          var current := Heartbeat(number, stamp);
          r, gotEcho, now, misses', u, t := AwaitEcho(p, s0, t, conn, echoes, current, deadline, misses, m, l);
          if r.Going? {
            r, misses', nextSend' :=
              CloseRound(p, s0, u, t, conn, number', echoes.held, gotEcho, now, misses', nextSend', m, l);
          }
        }
      }
    }
  }

  /** Rounds until the session ends or the script does. */
  method RunRounds(p: Params, ghost s0: State, ghost s: State, conn: Connection, start: int, m: Families, l: PeerLabel)
    returns (r: Progress, ghost t: State)
    requires Follows(p, s0, conn, s) && s.pc.Head? && Mirrors(s, 0, 0, start, [], m.Client(l))
    modifies conn, m
    ensures !r.Going? && Halted(p, s0, conn, t, m.Client(l), r) && OthersKept(m, l)
  {
    hide At, Step, Enabled, Legal, Run;
    var number: u64, misses, nextSend := 0, 0, start;
    var echoes := new HeartbeatReader();
    r, t := Going, s;
    while r.Going?
      invariant Halted(p, s0, conn, t, m.Client(l), r) && OthersKept(m, l)
      invariant fresh(echoes) && fresh(echoes.buf) && echoes.Valid()
      invariant r.Going? ==> t.pc.Head? && Mirrors(t, number, misses, nextSend, echoes.held, m.Client(l))
      decreases r.Going?, |conn.script| - conn.pos
    {
      r, number, misses, nextSend, t := PlayRound(p, s0, t, conn, echoes, number, misses, nextSend, m, l);
    }
  }

  /** The handshake is out: the session starts to count. */
  method Open(p: Params, ghost s0: State, ghost s: State, conn: Connection, m: Families, l: PeerLabel)
    returns (r: Progress, start: int, ghost t: State)
    requires Follows(p, s0, conn, s) && s.pc.Opening? && Mirrors(s, 0, 0, s.nextSend, [], m.Client(l))
    modifies conn`pos, m
    ensures Halted(p, s0, conn, t, m.Client(l), r) && OthersKept(m, l)
    ensures !r.Stopped? && (r.Going? ==> t.pc.Head? && Mirrors(t, 0, 0, start, [], m.Client(l)))
  {
    hide Legal, Run, At;
    t, start := s, 0;
    if conn.pos == |conn.script| {
      return Suspended, start, t;
    }
    RecordSessionStart(m, l);
    var e;
    e, t := Await(p, s0, t, conn);
    start := e.at;
    r := Going;
  }

  /** A session over a fresh connection: every script that can happen is used up, and
      metrics, output and end are those of the steps. */
  method RunSession(p: Params, conn: Connection, ghost clock: int, m: Families, l: PeerLabel) returns (end: Option<End>)
    requires p.hello != [] && conn.pos == 0 && conn.out == []
    requires Legal(p, Fresh(clock, m.Client(l)), conn.script, |conn.script|)
    modifies conn, m
    ensures OthersKept(m, l)
    ensures
      && conn.pos <= |conn.script|
      && Legal(p, Fresh(clock, old(m.Client(l))), conn.script, conn.pos)
      && var s := Run(p, Fresh(clock, old(m.Client(l))), conn.script, conn.pos);
      && m.Client(l) == s.metrics && conn.out == s.out
      && if end.Some? then s.pc == Done(end.value) else conn.pos == |conn.script| && !s.pc.Done?
  {
    hide Step, Enabled;
    ghost var s0 := Fresh(clock, m.Client(l));
    ghost var t;
    var r, start;
    r, t := SendHello(p, s0, s0, conn);
    if r.Stopped? {
      return Some(HandshakeFailed);
    }
    if r.Going? {
      r, start, t := Open(p, s0, t, conn, m, l);
    }
    if r.Going? {
      r, t := RunRounds(p, s0, t, conn, start, m, l);
    }
    if r.Stopped? {
      RecordSessionEnd(m, l, r.end);
      end := Some(r.end);
    } else {
      end := None;
    }
  }
}
