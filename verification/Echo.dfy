/** The server's end of one connection: the handshake, then each heartbeat read with a
    fresh reader, decoded, re-encoded and written back. */
module Echo {
  import opened Wire
  import opened Wrappers
  import opened Transport
  import opened Metrics
  import opened Handshake

  datatype Pc =
    | Greeting
    | Reading
    | Writing(packet: seq<byte>, written: nat)
    | Over(reason: Option<Reason>)  // no reason: the handshake was refused

  /** `got` and `wrote` are the bytes of heartbeats read and of echoes written. */
  datatype State = State(
    pc: Pc, held: seq<byte>, hello: seq<byte>, peer: string,
    got: seq<byte>, wrote: seq<byte>, heard: seq<Heartbeat>)

  function Accepted(hello: seq<byte>, peer: string): State {
    State(Reading, [], hello, peer, [], [], [])
  }

  function ReadReason(kind: ErrorKind): Reason {
    if kind == ErrorKind.ConnectionReset then Reason.ConnectionReset
    else if kind == UnexpectedEof || kind == BrokenPipe then RemoteClose
    else LocalError
  }

  function WriteReason(kind: ErrorKind): Reason {
    if kind == BrokenPipe || kind == ErrorKind.ConnectionReset then Reason.ConnectionReset else LocalError
  }

  /** What each await point can see. */
  predicate Enabled(s: State, e: Event) {
    match s.pc
    case Greeting => IsRead(e) || e.act.Timer?
    case Reading => (IsRead(e) && |s.held| < PACKET_SIZE) || e.act.Timer?
    case Writing(packet, w) => (e.act.Write? && 1 <= e.act.n <= |packet| - w) || e.act.WriteFail?
    case Over(_) => false
  }

  function Step(alnum: char -> bool, s: State, e: Event): State
    requires Enabled(s, e)
  {
    match s.pc
    case Greeting => Greet(alnum, s, e)
    case Reading =>
      if e.act.Timer? then s.(pc := Over(Some(Timeout)))
      else if e.act.ReadFail? then s.(pc := Over(Some(ReadReason(e.act.kind))))
      else if e.act.bytes == [] then s.(pc := Over(Some(ReadReason(UnexpectedEof))))
      else Hear(s, Feed(s.held, e))
    case Writing(packet, w) =>
      if e.act.WriteFail? then s.(pc := Over(Some(WriteReason(e.act.kind))))
      else
        var upto := w + e.act.n;
        s.(pc := if upto == |packet| then Reading else Writing(packet, upto), wrote := s.wrote + packet[w..upto])
  }

  function Greet(alnum: char -> bool, s: State, e: Event): State {
    if !e.act.Chunk? || e.act.bytes == [] then s.(pc := Over(None))
    else
      var held := s.held + Take(e.act.bytes, StillWanted(s.held));
      if StillWanted(held) > 0 then s.(held := held)
      else if |held| < 4 || !GoodLength(Announces(held)) then s.(pc := Over(None), held := held)
      else Accepted(held, LabelOf(alnum, held[4..]))
  }

  function Hear(s: State, held: seq<byte>): State
    requires |s.held| <= |held|
  {
    var t := s.(got := s.got + held[|s.held|..]);
    if |held| == PACKET_SIZE then
      var beat := Decode(held);
      t.(pc := Writing(Encode(beat), 0), held := [], heard := s.heard + [beat])
    else t.(held := held)
  }

  /** However the handshake of a name arrives: while it is incomplete the server waits for
      the rest, and once it is complete the session is accepted under the name's label,
      unless the name is empty. */
  lemma {:induction false} HandshakeOutcome(alnum: char -> bool, s: State, e: Event, name: string)
    requires s.pc.Greeting? && e.act.Chunk? && e.act.bytes != []
    requires s.held + Take(e.act.bytes, StillWanted(s.held)) <= Hello(name)
    ensures
      var t, held := Step(alnum, s, e), s.held + Take(e.act.bytes, StillWanted(s.held));
      if held != Hello(name) then t == s.(held := held)
      else if name != "" then t == Accepted(Hello(name), LabelOf(alnum, NameBytes(name)))
      else t == s.(pc := Over(None), held := held)
  {
    hide LabelOf, Announces;
    var held := s.held + Take(e.act.bytes, StillWanted(s.held));
    HelloAnnounces(name);
    Utf8.EncodeTextLength(name);
    if |held| >= 4 {
      AnnouncesPrefix(held, Hello(name));
    }
  }

  /** The reason tells the cause, and a broken pipe counts differently on either side: as a
      remote close when reading, as a reset when writing. */
  lemma {:induction false} ReasonTellsCause(alnum: char -> bool, s: State, e: Event)
    requires Enabled(s, e) && !s.pc.Greeting? && Step(alnum, s, e).pc.Over?
    ensures
      var reason := Step(alnum, s, e).pc.reason;
      && reason.Some? && reason.value in SERVER_DISCONNECT_REASONS
      && (reason == Some(Timeout) <==> s.pc.Reading? && e.act.Timer?)
      && (reason == Some(Reason.ConnectionReset) <==>
        || (e.act.ReadFail? && e.act.kind == ErrorKind.ConnectionReset)
        || (e.act.WriteFail? && (e.act.kind == ErrorKind.ConnectionReset || e.act.kind == BrokenPipe)))
      && (reason == Some(RemoteClose) <==>
        || (e.act.ReadFail? && (e.act.kind == UnexpectedEof || e.act.kind == BrokenPipe))
        || (e.act.Chunk? && e.act.bytes == []))
  {
    hide Encode, Decode, Feed;
  }

  /** As much of `bytes` as there is room for. */
  function Room(bytes: seq<byte>, room: nat): nat {
    if |bytes| <= room then |bytes| else room
  }

  /** What any event does to a greeting. A failure, an end of file or the timeout ends it.
      Otherwise it takes bytes up to the four of the length, and no further; then, if the
      length is 1 to 256, up to the end of the name; and with any other length it is over
      at once. */
  lemma {:induction false} GreetingExactly(alnum: char -> bool, s: State, e: Event)
    requires Enabled(s, e) && s.pc.Greeting?
    ensures
      var t := Step(alnum, s, e);
      if !e.act.Chunk? || e.act.bytes == [] then t == s.(pc := Over(None))
      else if |s.held| < 4 then
        var held := s.held + e.act.bytes[..Room(e.act.bytes, 4 - |s.held|)];
        if |held| < 4 then t == s.(held := held)
        else
          var len := held[0] as int * 16777216 + held[1] as int * 65536 + held[2] as int * 256 + held[3] as int;
          if 1 <= len <= 256 then t == s.(held := held) else t == s.(pc := Over(None), held := held)
      else
        var len := s.held[0] as int * 16777216 + s.held[1] as int * 65536 + s.held[2] as int * 256 + s.held[3] as int;
        1 <= len <= 256 && |s.held| < 4 + len ==>
          var held := s.held + e.act.bytes[..Room(e.act.bytes, 4 + len - |s.held|)];
          t == if |held| < 4 + len then s.(held := held) else Accepted(held, LabelOf(alnum, held[4..]))
  {
    hide LabelOf, Announces;
    if e.act.Chunk? && e.act.bytes != [] {
      var held := s.held + Take(e.act.bytes, StillWanted(s.held));
      if |s.held| >= 4 {
        AnnouncesLiterally(s.held);
        AnnouncesPrefix(s.held, held);
      } else if |held| >= 4 {
        AnnouncesLiterally(held);
      }
    }
  }

  /** Each kind of event may come at exactly these await points. */
  lemma {:induction false} WhatMayHappen(s: State, at: int)
    ensures forall bytes :: Enabled(s, Event(at, Chunk(bytes))) <==>
      s.pc.Greeting? || (s.pc.Reading? && |s.held| < 16)
    ensures forall kind :: Enabled(s, Event(at, ReadFail(kind))) <==>
      s.pc.Greeting? || (s.pc.Reading? && |s.held| < 16)
    ensures Enabled(s, Event(at, Timer)) <==> s.pc.Greeting? || s.pc.Reading?
    ensures forall kind :: Enabled(s, Event(at, WriteFail(kind))) <==> s.pc.Writing?
    ensures forall n: nat :: Enabled(s, Event(at, Write(n))) <==>
      s.pc.Writing? && 1 <= n <= |s.pc.packet| - s.pc.written
  {
  }

  /** A session ends exactly when its read times out or fails or finds the end of the stream,
      or when its write fails. */
  lemma {:induction false} WhatEnds(alnum: char -> bool, s: State, e: Event)
    requires Enabled(s, e) && !s.pc.Greeting?
    ensures Step(alnum, s, e).pc.Over? <==>
      e.act.Timer? || e.act.ReadFail? || e.act.WriteFail? || (e.act.Chunk? && e.act.bytes == [])
  {
    hide Encode, Decode, Feed;
  }

  /** The greeting goes on, is refused, or makes a session under the announced label. */
  lemma {:induction false} GreetingEnds(alnum: char -> bool, s: State, e: Event)
    requires Enabled(s, e) && s.pc.Greeting?
    ensures
      var t := Step(alnum, s, e);
      || t.pc.Greeting?
      || t.pc == Over(None)
      || (|t.hello| >= 4 && t == Accepted(t.hello, LabelOf(alnum, t.hello[4..])))
  {
    hide LabelOf, Announces;
  }

  /** A session stays the same peer's, hears at most one heartbeat at a time, and only ends
      for one of the four reasons. */
  lemma {:induction false} SessionGoesOn(alnum: char -> bool, s: State, e: Event)
    requires Enabled(s, e) && !s.pc.Greeting?
    ensures
      var t := Step(alnum, s, e);
      && !t.pc.Greeting? && t.peer == s.peer && t.hello == s.hello
      && s.heard <= t.heard && |t.heard| <= |s.heard| + 1
      && (t.pc.Over? ==> t.pc.reason.Some? && t.pc.reason.value in SERVER_DISCONNECT_REASONS)
  {
    hide Encode, Decode, Feed;
  }

  // ---------------------------------------------------------------------
  // The echo is a prefix of what was heard
  // ---------------------------------------------------------------------

  ghost predicate Faithful(s: State) {
    && (s.pc.Reading? ==> |s.held| < PACKET_SIZE && s.got == EncodeAll(s.heard) + s.held && s.wrote == EncodeAll(s.heard))
    && (s.pc.Writing? ==>
      && s.held == [] && s.pc.written < |s.pc.packet|
      && s.got == EncodeAll(s.heard) && s.got == s.wrote + s.pc.packet[s.pc.written..])
    && (s.pc.Greeting? ==> s.got == [] && s.wrote == [] && s.heard == [])
    && s.wrote <= s.got
    && (if s.hello == [] then s.got == [] && s.heard == [] else s.got == EncodeAll(s.heard) + s.held && |s.held| < PACKET_SIZE)
    && (s.pc.Greeting? ==> s.hello == []) && (s.pc.Reading? || s.pc.Writing? ==> s.hello != [])
  }

  lemma {:induction false} FaithfulStep(alnum: char -> bool, s: State, e: Event)
    requires Enabled(s, e) && Faithful(s)
    ensures Faithful(Step(alnum, s, e))
  {
    hide Encode, Decode, EncodeAll, Feed, Greet;
    if s.pc.Reading? {
      if e.act.Chunk? && e.act.bytes != [] {
        FaithfulHear(s, Feed(s.held, e));
      }
    } else if s.pc.Greeting? {
      FaithfulGreet(alnum, s, e);
    }
  }

  lemma {:induction false} FaithfulGreet(alnum: char -> bool, s: State, e: Event)
    requires s.pc.Greeting? && Faithful(s)
    ensures Faithful(Greet(alnum, s, e))
  {
    hide LabelOf;
  }

  lemma {:induction false} FaithfulHear(s: State, held: seq<byte>)
    requires s.pc.Reading? && Faithful(s) && s.held <= held && |held| <= PACKET_SIZE
    ensures Faithful(Hear(s, held))
  {
    hide Encode, Decode, EncodeAll;
    var more := held[|s.held|..];
    assert held == s.held + more;
    ConcatAssociates(EncodeAll(s.heard), s.held, more);
    if |held| == PACKET_SIZE {
      EncodeDecode(held);
      EncodeAllSnoc(s.heard, Decode(held));
      assert Encode(Decode(held))[0..] == held;
    }
  }

  // ---------------------------------------------------------------------
  // Runs
  // ---------------------------------------------------------------------

  const START := State(Greeting, [], [], "", [], [], [])

  predicate Legal(alnum: char -> bool, s: State, script: seq<Event>, n: nat)
    requires n <= |script|
    decreases n, 0
  {
    n == 0 || (Legal(alnum, s, script, n - 1) && Enabled(Run(alnum, s, script, n - 1), script[n - 1]))
  }

  function Run(alnum: char -> bool, s: State, script: seq<Event>, n: nat): State
    requires n <= |script| && Legal(alnum, s, script, n)
    decreases n, 1
  {
    if n == 0 then s else Step(alnum, Run(alnum, s, script, n - 1), script[n - 1])
  }

  lemma {:induction false} LegalPrefix(alnum: char -> bool, s: State, script: seq<Event>, n: nat, k: nat)
    requires k <= n <= |script| && Legal(alnum, s, script, n)
    ensures Legal(alnum, s, script, k) && (k < n ==> Enabled(Run(alnum, s, script, k), script[k]))
    decreases n
  {
    hide Step, Enabled;
    if k + 1 < n {
      LegalPrefix(alnum, s, script, n - 1, k);
    } else if k < n {
      assert Legal(alnum, s, script, n - 1);
    }
  }

  lemma {:induction false} Advance(alnum: char -> bool, s: State, script: seq<Event>, k: nat)
    requires k < |script| && Legal(alnum, s, script, |script|)
    ensures
      && Legal(alnum, s, script, k) && Legal(alnum, s, script, k + 1)
      && Enabled(Run(alnum, s, script, k), script[k])
      && Run(alnum, s, script, k + 1) == Step(alnum, Run(alnum, s, script, k), script[k])
  {
    hide Step, Enabled;
    LegalPrefix(alnum, s, script, |script|, k);
  }

  /** At all times, however the session's reads are segmented and wherever it breaks off:
      the bytes echoed are a prefix of the heartbeat bytes received, and what was heard
      is exactly the packets that those bytes cut into. */
  lemma {:induction false} EchoIsPrefix(alnum: char -> bool, script: seq<Event>, n: nat)
    requires n <= |script| && Legal(alnum, START, script, n)
    ensures
      var s := Run(alnum, START, script, n);
      Faithful(s) && s.wrote <= s.got && s.heard == CutPackets(s.got)
    decreases n
  {
    hide Step, Enabled, Faithful, EncodeAll, CutPackets;
    if n == 0 {
      StartIsFaithful();
    } else {
      EchoIsPrefix(alnum, script, n - 1);
      FaithfulStep(alnum, Run(alnum, START, script, n - 1), script[n - 1]);
    }
    FaithfulMeans(Run(alnum, START, script, n));
  }

  lemma {:induction false} StartIsFaithful()
    ensures Faithful(START)
  {
    assert EncodeAll([]) == [];
  }

  lemma {:induction false} FaithfulMeans(s: State)
    requires Faithful(s)
    ensures s.wrote <= s.got && s.heard == CutPackets(s.got)
  {
    hide CutPackets, CutResidue;
    if s.hello == [] {
      assert EncodeAll([]) == [];
      CutIsUnique(s.got, [], []);
    } else {
      CutIsUnique(s.got, s.heard, s.held);
    }
  }

  // ---------------------------------------------------------------------
  // Runs that go on
  // ---------------------------------------------------------------------

  /** Some script leads a new connection to s. */
  ghost predicate Reached(alnum: char -> bool, s: State) {
    exists script :: Leads(alnum, script, s)
  }

  ghost predicate Leads(alnum: char -> bool, script: seq<Event>, s: State) {
    Legal(alnum, START, script, |script|) && s == Run(alnum, START, script, |script|)
  }

  lemma {:induction false} PrefixRuns(alnum: char -> bool, script: seq<Event>, e: Event, n: nat)
    requires n <= |script| && Legal(alnum, START, script, n)
    ensures Legal(alnum, START, script + [e], n) && Run(alnum, START, script + [e], n) == Run(alnum, START, script, n)
  {
    hide Step, Enabled;
    if n == 0 {
    } else {
      PrefixRuns(alnum, script, e, n - 1);
      assert (script + [e])[n - 1] == script[n - 1];
    }
  }

  lemma {:induction false} ReachedOn(alnum: char -> bool, s: State, e: Event)
    requires Reached(alnum, s) && Enabled(s, e)
    ensures Reached(alnum, Step(alnum, s, e))
  {
    hide Step, Enabled;
    var script :| Leads(alnum, script, s);
    PrefixRuns(alnum, script, e, |script|);
    assert (script + [e])[|script|] == e;
    assert Leads(alnum, script + [e], Step(alnum, s, e));
  }

  lemma {:induction false} StartReached(alnum: char -> bool)
    ensures Reached(alnum, START)
  {
    assert Leads(alnum, [], START);
  }

  lemma {:induction false} RunsWithout(alnum: char -> bool, script: seq<Event>, e: Event, n: nat)
    requires n <= |script| && Legal(alnum, START, script + [e], n)
    ensures Legal(alnum, START, script, n) && Run(alnum, START, script + [e], n) == Run(alnum, START, script, n)
  {
    hide Step, Enabled;
    if n == 0 {
    } else {
      RunsWithout(alnum, script, e, n - 1);
      assert (script + [e])[n - 1] == script[n - 1];
    }
  }

  /** A session that is over was ended by an event, whose cause `ReasonTellsCause` gives. */
  ghost predicate EndedBy(alnum: char -> bool, u: State, e: Event, s: State) {
    Reached(alnum, u) && !u.pc.Greeting? && Enabled(u, e) && Step(alnum, u, e) == s
  }

  lemma {:induction false} OverHasCause(alnum: char -> bool, s: State)
    requires Reached(alnum, s) && s.pc.Over? && s.pc.reason.Some?
    ensures exists u, e :: EndedBy(alnum, u, e, s)
  {
    hide Step, Enabled;
    var script :| Leads(alnum, script, s);
    var n := |script|;
    assert n > 0;
    assert script == script[..n - 1] + [script[n - 1]];
    RunsWithout(alnum, script[..n - 1], script[n - 1], n - 1);
    var u := Run(alnum, START, script, n - 1);
    assert Leads(alnum, script[..n - 1], u);
    if u.pc.Greeting? {
      GreetingEnds(alnum, u, script[n - 1]);
    }
    assert EndedBy(alnum, u, script[n - 1], s);
  }
}
