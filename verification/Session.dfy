/** One outbound session as a transition system over its await points. The state
    holds what the session's variables and metrics hold, and what has happened:
    when each send started, what was sent, which echoes came back, when each echo
    wait began and ended, and whether each finished round was answered. */
module Session {
  import opened Wire
  import opened Wrappers
  import opened Transport
  import opened Metrics

  /** How a session ends. A handshake that cannot be sent is not a session. */
  datatype End = HandshakeFailed | Cancelled | Disconnected(reason: Reason)

  /** `interval` is both the heartbeat interval and the echo timeout. */
  datatype Params = Params(interval: nat, maxMisses: nat, hello: seq<byte>)

  datatype Pc =
    | Greeting(written: nat)
    | Opening
    | Head
    | Sleeping
    | Ready
    | Sending(stamp: u64, written: nat)
    | Posted(stamp: u64)
    | Awaiting(current: Heartbeat, deadline: int, gotEcho: bool)
    | Done(end: End)

  /** An instant, and how many echoes had come by then. */
  datatype Mark = Mark(at: int, heard: nat)

  datatype State = State(
    pc: Pc, clock: int, number: u64, misses: int, nextSend: int, held: seq<byte>, metrics: ClientMetrics,
    openedAt: int, starts: seq<int>, sent: seq<Heartbeat>, echoes: seq<Heartbeat>, rounds: seq<bool>,
    waits: seq<Mark>, ends: seq<Mark>, out: seq<byte>)

  function Fresh(clock: int, m: ClientMetrics): State {
    State(Greeting(0), clock, 0, 0, clock, [], m, clock, [], [], [], [], [], [], [])
  }

  // ---------------------------------------------------------------------
  // Effects on the metrics
  // ---------------------------------------------------------------------

  function Classify(kind: ErrorKind): Reason {
    match kind
    case ConnectionReset => Reason.ConnectionReset
    case UnexpectedEof => RemoteClose
    case BrokenPipe => RemoteClose
    case OtherKind => LocalError
  }

  function Started(m: ClientMetrics): ClientMetrics {
    m.(active := 1, sessions := m.sessions + 1, consecutive := 0)
  }

  function EchoSeen(m: ClientMetrics, rtt: Option<Heartbeat>): ClientMetrics {
    m.(received := m.received + 1, consecutive := 0, rtt := if rtt.Some? then rtt else m.rtt)
  }

  function RoundMissed(m: ClientMetrics, misses: int): ClientMetrics {
    m.(missed := m.missed + 1, consecutive := misses)
  }

  function Ended(m: ClientMetrics, end: End): ClientMetrics {
    m.(active := 0, disconnects := if end.Disconnected? then Inc(m.disconnects, end.reason) else m.disconnects)
  }

  // ---------------------------------------------------------------------
  // Steps
  // ---------------------------------------------------------------------

  /** The sequence number wraps as a u64 does. */
  function Successor(n: u64): u64 {
    if n as int + 1 == U64_LIMIT then 0 else n + 1
  }

  function Finish(s: State, at: int, end: End): State {
    s.(clock := at, pc := Done(end), metrics := Ended(s.metrics, end))
  }

  /** The wait for the next send is over. */
  function Due(p: Params, s: State, at: int): State {
    s.(clock := at, pc := Ready, nextSend := s.nextSend + p.interval)
  }

  /** A read in the echo wait: a completed packet is handled at once. */
  function Receive(s: State, e: Event): State
    requires s.pc.Awaiting? && e.act.Chunk? && |s.held| < PACKET_SIZE
  {
    if e.act.bytes == [] then
      Finish(s, e.at, Disconnected(Classify(UnexpectedEof)))
    else
      var held := Feed(s.held, e);
      if |held| < PACKET_SIZE then s.(clock := e.at, held := held) else Echo(s, e.at, Decode(held))
  }

  /** Any echo shows the connection is alive; only the current one ends the wait. */
  function Echo(s: State, at: int, echo: Heartbeat): State
    requires s.pc.Awaiting?
  {
    var matched := echo.number == s.pc.current.number;
    s.(clock := at, held := [], misses := 0, echoes := s.echoes + [echo],
       metrics := EchoSeen(s.metrics, if matched then Some(s.pc.current) else None),
       pc := if matched then Head else s.pc.(gotEcho := true),
       rounds := if matched then s.rounds + [true] else s.rounds,
       ends := if matched then s.ends + [Mark(at, |s.echoes| + 1)] else s.ends)
  }

  /** The echo wait is over. A round without any echo is a miss, and after it the schedule
      starts anew, a full interval from now. */
  function Deadline(p: Params, s: State, at: int): State
    requires s.pc.Awaiting?
  {
    if s.pc.gotEcho then
      s.(clock := at, pc := Head, rounds := s.rounds + [true], ends := s.ends + [Mark(at, |s.echoes|)])
    else
      var misses := s.misses + 1;
      var over, m := misses >= p.maxMisses, RoundMissed(s.metrics, misses);
      s.(clock := at, misses := misses, rounds := s.rounds + [false], ends := s.ends + [Mark(at, |s.echoes|)],
         metrics := if over then Ended(m, Disconnected(Timeout)) else m,
         pc := if over then Done(Disconnected(Timeout)) else Head,
         nextSend := if over then s.nextSend else at + p.interval)
  }

  /** Which events the world may deliver: time does not run backwards, timers are never
      early, a write takes no more than was offered, and each await point only sees
      what it waits for. */
  predicate Enabled(p: Params, s: State, e: Event) {
    && e.at >= s.clock
    && match s.pc
       case Greeting(w) => (e.act.Write? && 1 <= e.act.n <= |p.hello| - w) || (e.act.WriteFail? && w < |p.hello|)
       case Opening => e.act.Clock?
       case Head => e.act.Clock?
       case Sleeping => (e.act.Timer? && e.at >= s.nextSend) || e.act.Cancel?
       case Ready => e.act.Stamp? || e.act.Cancel?
       case Sending(_, w) => (e.act.Write? && 1 <= e.act.n <= PACKET_SIZE - w) || e.act.WriteFail? || e.act.Cancel?
       case Posted(_) => e.act.Clock?
       case Awaiting(_, deadline, _) =>
         (e.act.Chunk? && |s.held| < PACKET_SIZE) || e.act.ReadFail? || (e.act.Timer? && e.at >= deadline) || e.act.Cancel?
       case Done(_) => false
  }

  function Step(p: Params, s: State, e: Event): State
    requires Enabled(p, s, e)
  {
    match s.pc
    case Greeting(w) =>
      if e.act.WriteFail? then s.(clock := e.at, pc := Done(HandshakeFailed))
      else
        var upto := w + e.act.n;
        s.(clock := e.at, pc := if upto == |p.hello| then Opening else Greeting(upto), out := s.out + p.hello[w..upto])
    case Opening =>
      s.(clock := e.at, pc := Head, nextSend := e.at, openedAt := e.at, metrics := Started(s.metrics))
    case Head =>
      if s.nextSend > e.at then s.(clock := e.at, pc := Sleeping) else Due(p, s, e.at)
    case Sleeping =>
      if e.act.Cancel? then Finish(s, e.at, Cancelled) else Due(p, s, e.at)
    case Ready =>
      if e.act.Cancel? then Finish(s, e.at, Cancelled)
      else s.(clock := e.at, pc := Sending(e.act.stamp, 0), starts := s.starts + [e.at])
    case Sending(stamp, w) =>
      if e.act.Cancel? then Finish(s, e.at, Cancelled)
      else if e.act.WriteFail? then Finish(s, e.at, Disconnected(Classify(e.act.kind)))
      else
        var upto := w + e.act.n;
        s.(clock := e.at, pc := if upto == PACKET_SIZE then Posted(stamp) else Sending(stamp, upto),
           out := s.out + Encode(Heartbeat(s.number, stamp))[w..upto])
    case Posted(stamp) =>
      var current := Heartbeat(s.number, stamp);
      s.(clock := e.at, pc := Awaiting(current, e.at + p.interval, false), number := Successor(s.number),
         waits := s.waits + [Mark(e.at, |s.echoes|)], sent := s.sent + [current], metrics := s.metrics.(sent := s.metrics.sent + 1))
    case Awaiting(_, _, _) =>
      if e.act.Cancel? then Finish(s, e.at, Cancelled)
      else if e.act.ReadFail? then Finish(s, e.at, Disconnected(Classify(e.act.kind)))
      else if e.act.Timer? then Deadline(p, s, e.at)
      else Receive(s, e)
  }

  /** The session has been recorded in the metrics. */
  predicate Recorded(s: State) {
    !s.pc.Greeting? && !s.pc.Opening? && s.pc != Done(HandshakeFailed)
  }

  /** The session is live as the metrics see it. */
  predicate InSession(s: State) {
    Recorded(s) && !s.pc.Done?
  }

  /** What one event does to the counters that a session shares with its task: it starts
      to count once, and stops once, under a reason unless it was cancelled. */
  lemma {:induction false} StepEffect(p: Params, s: State, e: Event)
    requires Enabled(p, s, e)
    ensures
      var t := Step(p, s, e);
      && (Recorded(s) ==> Recorded(t))
      && (!Recorded(t) ==> t.metrics == s.metrics && (t.pc.Done? <==> t.pc == Done(HandshakeFailed)))
      && (Recorded(t) ==> t.pc != Done(HandshakeFailed))
      && (Recorded(t) && !Recorded(s) ==> !t.pc.Done? && t.metrics.active == 1)
      && (Recorded(s) ==> t.metrics.active == if t.pc.Done? then 0 else s.metrics.active)
      && t.metrics.sessions == s.metrics.sessions + (if Recorded(t) && !Recorded(s) then 1 else 0)
      && (t.pc.Done? && t.pc.end.Disconnected? ==> t.pc.end.reason in SERVER_DISCONNECT_REASONS)
      && t.metrics.disconnects == (if t.pc.Done? && t.pc.end.Disconnected?
        then Inc(s.metrics.disconnects, t.pc.end.reason) else s.metrics.disconnects)
      && (t.pc == Done(Cancelled) ==> e.act.Cancel?)
  {
    hide Encode, Decode, Feed, Inc, Successor;
  }

  /** An RTT is taken only when an echo of the current heartbeat ends the wait, and then it
      is taken for that heartbeat; a late echo leaves the last RTT alone. */
  lemma {:induction false} RttOnlyOnMatch(p: Params, s: State, e: Event)
    requires Enabled(p, s, e)
    ensures
      var t := Step(p, s, e);
      if s.pc.Awaiting? && |t.echoes| > |s.echoes| && t.echoes[|t.echoes| - 1].number == s.pc.current.number
      then t.metrics.rtt == Some(s.pc.current) && t.pc.Head?
      else t.metrics.rtt == s.metrics.rtt
  {
    hide Encode, Decode, Feed, Inc, Successor;
  }

  /** At any instant from now on, each kind of event may come at exactly these await points:
      no failure, no segmentation, no delay and no cancellation is ruled out. */
  lemma {:induction false} WhatMayHappen(p: Params, s: State, at: int)
    requires at >= s.clock
    ensures Enabled(p, s, Event(at, Clock)) <==> s.pc.Opening? || s.pc.Head? || s.pc.Posted?
    ensures forall x :: Enabled(p, s, Event(at, Stamp(x))) <==> s.pc.Ready?
    ensures Enabled(p, s, Event(at, Timer)) <==>
      (s.pc.Sleeping? && at >= s.nextSend) || (s.pc.Awaiting? && at >= s.pc.deadline)
    ensures Enabled(p, s, Event(at, Cancel)) <==> s.pc.Sleeping? || s.pc.Ready? || s.pc.Sending? || s.pc.Awaiting?
    ensures forall bytes :: Enabled(p, s, Event(at, Chunk(bytes))) <==> s.pc.Awaiting? && |s.held| < 16
    ensures forall kind :: Enabled(p, s, Event(at, ReadFail(kind))) <==> s.pc.Awaiting?
    ensures forall kind :: Enabled(p, s, Event(at, WriteFail(kind))) <==>
      s.pc.Sending? || (s.pc.Greeting? && s.pc.written < |p.hello|)
    ensures forall n: nat :: Enabled(p, s, Event(at, Write(n))) <==>
      (s.pc.Sending? && 1 <= n <= 16 - s.pc.written) || (s.pc.Greeting? && 1 <= n <= |p.hello| - s.pc.written)
  {
  }

  /** An event ends the session, or the attempt at one, exactly when it is a cancellation, a
      failure, an end of file, or the end of a wait that is one miss too many. */
  lemma {:induction false} WhatEnds(p: Params, s: State, e: Event)
    requires Enabled(p, s, e)
    ensures Step(p, s, e).pc.Done? <==>
      || e.act.Cancel? || e.act.ReadFail? || e.act.WriteFail?
      || (e.act.Chunk? && e.act.bytes == [])
      || (s.pc.Awaiting? && e.act.Timer? && !s.pc.gotEcho && s.misses + 1 >= p.maxMisses)
  {
    hide Encode, Decode, Feed, Inc, Successor;
  }

  /** What has happened is recorded as it happens. */
  lemma {:induction false} WhatIsRecorded(p: Params, s: State, e: Event)
    requires Enabled(p, s, e)
    ensures
      var t := Step(p, s, e);
      var over := s.pc.Awaiting? && (e.act.Timer? || (e.act.Chunk? && t.pc.Head?));
      && t.clock == e.at
      && t.openedAt == (if s.pc.Opening? then e.at else s.openedAt)
      && t.starts == (if s.pc.Ready? && e.act.Stamp? then s.starts + [e.at] else s.starts)
      && t.waits == (if s.pc.Posted? then s.waits + [Mark(e.at, |s.echoes|)] else s.waits)
      && t.ends == (if over then s.ends + [Mark(e.at, |t.echoes|)] else s.ends)
      && |t.rounds| == |s.rounds| + (if over then 1 else 0) && s.rounds <= t.rounds
      && s.echoes <= t.echoes && s.sent <= t.sent && s.out <= t.out
  {
    hide Encode, Decode, Feed, Inc, Successor;
  }

  predicate FailsWith(e: Event, kind: ErrorKind) {
    (e.act.ReadFail? || e.act.WriteFail?) && e.act.kind == kind
  }

  /** The reason that is counted tells the cause: a reset for a reset, a remote close for
      an end of file or a broken pipe, a timeout for an echo wait that ran out without any
      echo, and a local error for any other failure. */
  lemma {:induction false} ReasonTellsCause(p: Params, s: State, e: Event)
    requires Enabled(p, s, e) && Recorded(s) && Step(p, s, e).pc.Done?
    ensures
      var end := Step(p, s, e).pc.end;
      && (end == Cancelled <==> e.act.Cancel?)
      && (end == Disconnected(Timeout) <==> e.act.Timer?)
      && (e.act.Timer? ==> s.pc.Awaiting? && !s.pc.gotEcho && s.misses + 1 >= p.maxMisses)
      && (end == Disconnected(Reason.ConnectionReset) <==> FailsWith(e, ErrorKind.ConnectionReset))
      && (end == Disconnected(RemoteClose) <==>
        FailsWith(e, UnexpectedEof) || FailsWith(e, BrokenPipe) || (e.act.Chunk? && e.act.bytes == []))
      && (end == Disconnected(LocalError) <==> FailsWith(e, OtherKind))
  {
    hide Encode, Decode, Feed, Inc, Successor;
  }

  /** The first n events of the script can happen, one after the other. */
  predicate Legal(p: Params, s: State, script: seq<Event>, n: nat)
    requires n <= |script|
    decreases n, 0
  {
    n == 0 || (Legal(p, s, script, n - 1) && Enabled(p, Run(p, s, script, n - 1), script[n - 1]))
  }

  function Run(p: Params, s: State, script: seq<Event>, n: nat): State
    requires n <= |script| && Legal(p, s, script, n)
    decreases n, 1
  {
    if n == 0 then s else Step(p, Run(p, s, script, n - 1), script[n - 1])
  }

  lemma {:induction false} LegalPrefix(p: Params, s: State, script: seq<Event>, n: nat, k: nat)
    requires k <= n <= |script| && Legal(p, s, script, n)
    ensures Legal(p, s, script, k) && (k < n ==> Enabled(p, Run(p, s, script, k), script[k]))
    decreases n
  {
    if k + 1 < n {
      LegalPrefix(p, s, script, n - 1, k);
    } else if k < n {
      assert Legal(p, s, script, n - 1);
    }
  }

  /** In a script that can happen, so can each of its events. */
  lemma {:induction false} Advance(p: Params, s: State, script: seq<Event>, k: nat)
    requires k < |script| && Legal(p, s, script, |script|)
    ensures
      && Legal(p, s, script, k) && Legal(p, s, script, k + 1)
      && Enabled(p, Run(p, s, script, k), script[k])
      && Run(p, s, script, k + 1) == Step(p, Run(p, s, script, k), script[k])
  {
    hide Step, Enabled;
    LegalPrefix(p, s, script, |script|, k);
  }

  lemma {:induction false} RunSnoc(p: Params, s: State, script: seq<Event>, k: nat)
    requires 0 < k <= |script| && Legal(p, s, script, k - 1)
    requires Enabled(p, Run(p, s, script, k - 1), script[k - 1])
    ensures Legal(p, s, script, k) && Run(p, s, script, k) == Step(p, Run(p, s, script, k - 1), script[k - 1])
  {
    hide Step, Enabled;
  }

  /** One more event at the end does not change what came before. */
  lemma {:induction false} PrefixRuns(p: Params, s: State, script: seq<Event>, e: Event, n: nat)
    requires n <= |script| && Legal(p, s, script, n)
    ensures Legal(p, s, script + [e], n) && Run(p, s, script + [e], n) == Run(p, s, script, n)
  {
    hide Step, Enabled;
    if n == 0 {
    } else {
      PrefixRuns(p, s, script, e, n - 1);
      assert (script + [e])[n - 1] == script[n - 1];
    }
  }

  lemma {:induction false} Append(p: Params, s: State, script: seq<Event>, e: Event)
    requires Legal(p, s, script, |script|) && Enabled(p, Run(p, s, script, |script|), e)
    ensures
      && Legal(p, s, script + [e], |script| + 1)
      && Run(p, s, script + [e], |script| + 1) == Step(p, Run(p, s, script, |script|), e)
  {
    hide Step, Enabled;
    PrefixRuns(p, s, script, e, |script|);
    RunSnoc(p, s, script + [e], |script| + 1);
  }

  /** The script can happen to a session with these metrics, and leads to state s. */
  ghost predicate Leads(p: Params, clock: int, base: ClientMetrics, script: seq<Event>, s: State) {
    Legal(p, Fresh(clock, base), script, |script|) && s == Run(p, Fresh(clock, base), script, |script|)
  }

  lemma {:induction false} LeadsOn(p: Params, clock: int, base: ClientMetrics, script: seq<Event>, s: State, e: Event)
    requires Leads(p, clock, base, script, s) && Enabled(p, s, e)
    ensures Leads(p, clock, base, script + [e], Step(p, s, e))
  {
    hide Step, Enabled, Legal, Run, Fresh;
    Append(p, Fresh(clock, base), script, e);
  }
}
