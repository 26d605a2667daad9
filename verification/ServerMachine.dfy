/** All inbound connections of a server at once: handler tasks over shared metrics,
    permits and the capped set of names. Each shared access is one step; steps of
    different handlers interleave in any order. The handshake and the session inside a
    handler are those of `Echo`, event by event. */
module ServerMachine {
  import opened Wire
  import opened Wrappers
  import opened Transport
  import opened Metrics
  import opened Handshake
  import E = Echo
  import ServerSession

  const MAX_CONNECTIONS := 128

  /** Where a handler task is. `Labelling` pre-creates the disconnect entries one by one;
      a session is active from setting the gauge to 1 until it sets it back to 0. From
      when it is counted on, a session is an entry of the log. */
  datatype Handler =
    | Greeting(echo: E.State)
    | Named(name: string, hello: seq<byte>)
    | Labelling(name: string, hello: seq<byte>, done: set<Reason>)
    | Raised(name: string, hello: seq<byte>)
    | Live(name: string, session: nat)
    | Lowered(name: string, session: nat)

  /** One session that was counted as started, as it is now or was when it ended; it is
      closed when its end has been counted. */
  datatype Session = Session(name: string, echo: E.State, closed: bool)

  function EndOf(x: Session): Option<Reason> {
    if x.echo.pc.Over? then x.echo.pc.reason else None
  }

  /** No code reads `log`, every session ever counted, and `foreign`, the names that client
      tasks of the same process have pre-created disconnect entries for. */
  datatype Server = Server(
    free: nat, handlers: map<nat, Handler>, seen: set<string>,
    active: map<string, int>, total: map<string, int>, received: map<string, int>,
    disconnects: map<string, map<Reason, int>>, log: seq<Session>, foreign: set<string>)

  datatype Move =
    | Accept(id: nat)                 // a permit is free: a handler is spawned
    | Drop                            // no permit is free: the connection is dropped
    | Greet(id: nat, e: Event)        // an event of the handshake
    | Register(id: nat)
    | Precreate(id: nat, reason: Reason)
    | Raise(id: nat)
    | Count(id: nat)
    | Hear(id: nat, e: Event)         // an event of the session
    | Lower(id: nat)
    | Close(id: nat)
    | Foreign(peer: string, reason: Reason)  // a client task pre-creates an entry for its peer

  function Start(): Server {
    Server(MAX_CONNECTIONS, map[], {}, map[], map[], map[], map[], [], {})
  }

  predicate Possible(s: Server, m: Move) {
    match m
    case Accept(id) => s.free > 0 && id !in s.handlers
    case Drop => s.free == 0
    case Greet(id, e) => id in s.handlers && s.handlers[id].Greeting? && E.Enabled(s.handlers[id].echo, e)
    case Register(id) => id in s.handlers && s.handlers[id].Named?
    case Precreate(id, r) =>
      id in s.handlers && s.handlers[id].Labelling? && r in SERVER_DISCONNECT_REASONS - s.handlers[id].done
    case Raise(id) => id in s.handlers && s.handlers[id].Labelling? && s.handlers[id].done == SERVER_DISCONNECT_REASONS
    case Count(id) => id in s.handlers && s.handlers[id].Raised?
    case Hear(id, e) =>
      && id in s.handlers && s.handlers[id].Live? && s.handlers[id].session < |s.log|
      && E.Enabled(s.log[s.handlers[id].session].echo, e)
    case Lower(id) =>
      && id in s.handlers && s.handlers[id].Live? && s.handlers[id].session < |s.log|
      && EndOf(s.log[s.handlers[id].session]).Some?
    case Close(id) =>
      && id in s.handlers && s.handlers[id].Lowered? && s.handlers[id].session < |s.log|
      && EndOf(s.log[s.handlers[id].session]).Some?
    case Foreign(_, r) => r in SERVER_DISCONNECT_REASONS
  }

  /** The handler is gone, and its permit is back. */
  function Released(s: Server, id: nat): Server {
    s.(handlers := s.handlers - {id}, free := s.free + 1)
  }

  /** Where a handler is after an event of its handshake that did not end it. */
  function Greeted(t: E.State): Handler {
    if t.pc.Greeting? then Greeting(t) else Named(t.peer, t.hello)
  }

  function Reasons(s: Server, name: string): map<Reason, int> {
    if name in s.disconnects then s.disconnects[name] else map[]
  }

  function Next(alnum: char -> bool, s: Server, m: Move): Server
    requires Possible(s, m)
  {
    match m
    case Accept(id) => s.(handlers := s.handlers[id := Greeting(E.START)], free := s.free - 1)
    case Drop => s
    case Greet(id, e) =>
      var t := E.Step(alnum, s.handlers[id].echo, e);
      if t.pc.Over? then Released(s, id) else s.(handlers := s.handlers[id := Greeted(t)])
    case Register(id) =>
      var name, hello := s.handlers[id].name, s.handlers[id].hello;
      if name in s.seen || |s.seen| < MAX_UNIQUE_SERVER_PEERS
      then s.(handlers := s.handlers[id := Labelling(name, hello, {})], seen := s.seen + {name})
      else Released(s, id)
    case Precreate(id, r) =>
      var name, hello, done := s.handlers[id].name, s.handlers[id].hello, s.handlers[id].done;
      s.(handlers := s.handlers[id := Labelling(name, hello, done + {r})],
         disconnects := s.disconnects[name := Touch(Reasons(s, name), r)])
    case Raise(id) =>
      var name, hello := s.handlers[id].name, s.handlers[id].hello;
      s.(handlers := s.handlers[id := Raised(name, hello)], active := s.active[name := 1])
    case Count(id) =>
      var name, hello := s.handlers[id].name, s.handlers[id].hello;
      s.(handlers := s.handlers[id := Live(name, |s.log|)], total := Inc(s.total, name),
         log := s.log + [Session(name, E.Accepted(hello, name), false)])
    case Hear(id, e) =>
      var k := s.handlers[id].session;
      var t := E.Step(alnum, s.log[k].echo, e);
      s.(log := s.log[k := s.log[k].(echo := t)],
         received := if |t.heard| > |s.log[k].echo.heard| then Inc(s.received, s.handlers[id].name) else s.received)
    case Lower(id) =>
      var name, k := s.handlers[id].name, s.handlers[id].session;
      s.(handlers := s.handlers[id := Lowered(name, k)], active := s.active[name := 0])
    case Close(id) =>
      var name, k := s.handlers[id].name, s.handlers[id].session;
      s.(handlers := s.handlers - {id}, free := s.free + 1, log := s.log[k := s.log[k].(closed := true)],
         disconnects := s.disconnects[name := Inc(Reasons(s, name), EndOf(s.log[k]).value)])
    case Foreign(peer, r) =>
      s.(disconnects := s.disconnects[peer := Touch(Reasons(s, peer), r)], foreign := s.foreign + {peer})
  }

  predicate Legal(alnum: char -> bool, moves: seq<Move>, n: nat)
    requires n <= |moves|
    decreases n, 0
  {
    n == 0 || (Legal(alnum, moves, n - 1) && Possible(Run(alnum, moves, n - 1), moves[n - 1]))
  }

  function Run(alnum: char -> bool, moves: seq<Move>, n: nat): Server
    requires n <= |moves| && Legal(alnum, moves, n)
    decreases n, 1
  {
    if n == 0 then Start() else Next(alnum, Run(alnum, moves, n - 1), moves[n - 1])
  }

  lemma {:induction false} LegalPrefix(alnum: char -> bool, moves: seq<Move>, n: nat, k: nat)
    requires k <= n <= |moves| && Legal(alnum, moves, n)
    ensures Legal(alnum, moves, k)
    ensures k < n ==>
      && Possible(Run(alnum, moves, k), moves[k])
      && Run(alnum, moves, k + 1) == Next(alnum, Run(alnum, moves, k), moves[k])
    decreases n
  {
    hide Next, Possible;
    if k + 1 < n {
      LegalPrefix(alnum, moves, n - 1, k);
    }
  }

  /** A move leaves the handlers of all other connections alone. */
  lemma {:induction false} OthersStay(alnum: char -> bool, s: Server, m: Move, id: nat)
    requires Possible(s, m) && (m.Drop? || m.Foreign? || id != m.id)
    ensures
      var t := Next(alnum, s, m);
      (id in t.handlers <==> id in s.handlers) && (id in s.handlers ==> t.handlers[id] == s.handlers[id])
  {
    hide LabelOf, Touch, Inc, E.Step, E.Enabled;
  }

  // ---------------------------------------------------------------------
  // Permits, names and labels
  // ---------------------------------------------------------------------

  predicate Admitted(h: Handler) {
    !h.Greeting? && !h.Named?
  }

  /** A handler that is past pre-creating its disconnect entries. */
  predicate Labelled(h: Handler) {
    h.Raised? || h.Live? || h.Lowered?
  }

  /** What holds of one handler, whichever step it is at. */
  ghost predicate Sound(alnum: char -> bool, seen: set<string>, disconnects: map<string, map<Reason, int>>, h: Handler) {
    && (if h.Greeting? then h.echo.pc.Greeting? else IsLabel(alnum, h.name))
    && (Admitted(h) ==> h.name in seen)
    && (h.Labelling? && h.done != {} ==> h.name in disconnects && h.done <= disconnects[h.name].Keys)
    && (Labelled(h) ==> h.name in disconnects && disconnects[h.name].Keys == SERVER_DISCONNECT_REASONS)
  }

  predicate Permits(s: Server) {
    |s.handlers| + s.free == MAX_CONNECTIONS
  }

  /** Permits are neither lost nor made; names are labels, at most 512 of them; only they
      have session metrics, and a disconnect entry under any other name is a client task's. */
  ghost predicate Shared(alnum: char -> bool, s: Server) {
    && Permits(s)
    && |s.seen| <= MAX_UNIQUE_SERVER_PEERS
    && (forall n :: n in s.seen ==> IsLabel(alnum, n))
    && s.active.Keys <= s.seen && s.total.Keys <= s.seen
    && s.received.Keys <= s.seen && s.disconnects.Keys <= s.seen + s.foreign
    && (forall n :: n in s.disconnects ==> s.disconnects[n].Keys <= SERVER_DISCONNECT_REASONS)
  }

  ghost predicate Bounded(alnum: char -> bool, s: Server) {
    && Shared(alnum, s)
    && forall id :: id in s.handlers ==> Sound(alnum, s.seen, s.disconnects, s.handlers[id])
  }

  /** Entries are only ever added. */
  predicate Grows(s: Server, t: Server) {
    && s.seen <= t.seen && s.foreign <= t.foreign
    && (forall n :: n in s.disconnects ==> n in t.disconnects && s.disconnects[n].Keys <= t.disconnects[n].Keys)
    && (forall n :: n in t.disconnects ==> t.disconnects[n].Keys <= SERVER_DISCONNECT_REASONS)
  }

  lemma {:induction false} SoundGrows(alnum: char -> bool, s: Server, t: Server, h: Handler)
    requires Grows(s, t) && Sound(alnum, s.seen, s.disconnects, h)
    ensures Sound(alnum, t.seen, t.disconnects, h)
  {
    hide IsLabel;
  }

  /** The reason of an ending session is one that has an entry. */
  predicate EndsKnown(s: Server, m: Move)
    requires Possible(s, m)
  {
    m.Close? ==> EndOf(s.log[s.handlers[m.id].session]).value in SERVER_DISCONNECT_REASONS
  }

  lemma {:induction false} BoundedStep(alnum: char -> bool, s: Server, m: Move)
    requires KnowsLetters(alnum) && Possible(s, m) && Bounded(alnum, s) && EndsKnown(s, m)
    ensures Bounded(alnum, Next(alnum, s, m)) && s.seen <= Next(alnum, s, m).seen
    ensures m.Close? ==> SameEntries(s, Next(alnum, s, m))
  {
    hide IsLabel, KnowsLetters, LabelOf, Sound, Shared, EndsKnown, E.Step, E.Enabled;
    var t := Next(alnum, s, m);
    SharedStep(alnum, s, m);
    forall id | id in t.handlers ensures Sound(alnum, t.seen, t.disconnects, t.handlers[id]) {
      if !m.Drop? && !m.Foreign? && id == m.id {
        MoverStep(alnum, s, m);
      } else {
        SoundGrows(alnum, s, t, s.handlers[id]);
      }
    }
  }

  predicate SameEntries(s: Server, t: Server) {
    && t.disconnects.Keys == s.disconnects.Keys
    && forall n :: n in s.disconnects ==> t.disconnects[n].Keys == s.disconnects[n].Keys
  }

  lemma {:induction false} SharedStep(alnum: char -> bool, s: Server, m: Move)
    requires Possible(s, m) && Bounded(alnum, s) && EndsKnown(s, m)
    ensures
      var t := Next(alnum, s, m);
      Shared(alnum, t) && Grows(s, t) && (m.Close? ==> SameEntries(s, t))
  {
    hide IsLabel, KnowsLetters, LabelOf, Permits, E.Step, E.Enabled;
    PermitStep(alnum, s, m);
    if m.Register? {
      SeenStep(alnum, s, m);
    } else if m.Precreate? || m.Close? || m.Foreign? {
      EntryStep(alnum, s, m);
    }
  }

  lemma {:induction false} PermitStep(alnum: char -> bool, s: Server, m: Move)
    requires Possible(s, m) && Permits(s)
    ensures Permits(Next(alnum, s, m))
  {
    hide LabelOf, E.Step, E.Enabled;
  }

  lemma {:induction false} SeenStep(alnum: char -> bool, s: Server, m: Move)
    requires Possible(s, m) && Bounded(alnum, s) && m.Register? && Permits(Next(alnum, s, m))
    ensures Shared(alnum, Next(alnum, s, m)) && Grows(s, Next(alnum, s, m))
  {
    hide IsLabel, Permits, Sound;
    var name := s.handlers[m.id].name;
    Announced(alnum, s, m.id);
    assert name in s.seen ==> s.seen + {name} == s.seen;
  }

  lemma {:induction false} Announced(alnum: char -> bool, s: Server, id: nat)
    requires Bounded(alnum, s) && id in s.handlers && s.handlers[id].Named?
    ensures IsLabel(alnum, s.handlers[id].name)
  {
    hide IsLabel, Shared;
    assert Sound(alnum, s.seen, s.disconnects, s.handlers[id]);
  }

  lemma {:induction false} EntryStep(alnum: char -> bool, s: Server, m: Move)
    requires Possible(s, m) && Bounded(alnum, s) && EndsKnown(s, m) && Permits(Next(alnum, s, m))
    requires m.Precreate? || m.Close? || m.Foreign?
    ensures
      var t := Next(alnum, s, m);
      Shared(alnum, t) && Grows(s, t) && (m.Close? ==> SameEntries(s, t))
  {
    hide Sound, Shared, Permits, IsLabel;
    var t := Next(alnum, s, m);
    KnownReasons(alnum, s, if m.Foreign? then m.peer else s.handlers[m.id].name);
    if m.Foreign? {
      OneEntry(alnum, s, t, m.peer, Touch(Reasons(s, m.peer), m.reason));
    } else {
      var name := s.handlers[m.id].name;
      Entered(alnum, s, m.id);
      if m.Precreate? {
        OneEntry(alnum, s, t, name, Touch(Reasons(s, name), m.reason));
      } else {
        OneEntry(alnum, s, t, name, Inc(Reasons(s, name), EndOf(s.log[s.handlers[m.id].session]).value));
      }
    }
  }

  lemma {:induction false} KnownReasons(alnum: char -> bool, s: Server, name: string)
    requires Shared(alnum, s)
    ensures Reasons(s, name).Keys <= SERVER_DISCONNECT_REASONS
  {
    hide IsLabel, Permits;
  }

  lemma {:induction false} Entered(alnum: char -> bool, s: Server, id: nat)
    requires Bounded(alnum, s) && id in s.handlers && Admitted(s.handlers[id])
    ensures s.handlers[id].name in s.seen
    ensures Labelled(s.handlers[id]) ==>
      s.handlers[id].name in s.disconnects && s.disconnects[s.handlers[id].name].Keys == SERVER_DISCONNECT_REASONS
  {
    hide IsLabel, Shared;
    assert Sound(alnum, s.seen, s.disconnects, s.handlers[id]);
  }

  /** From s to t only the entries of one name changed, and none went. */
  lemma {:induction false} OneEntry(alnum: char -> bool, s: Server, t: Server, name: string, d: map<Reason, int>)
    requires Shared(alnum, s) && Permits(t) && t.disconnects == s.disconnects[name := d]
    requires t.seen == s.seen && s.foreign <= t.foreign && name in t.seen + t.foreign
    requires t.active == s.active && t.total == s.total && t.received == s.received
    requires Reasons(s, name).Keys <= d.Keys <= SERVER_DISCONNECT_REASONS
    ensures Shared(alnum, t) && Grows(s, t)
    ensures name in s.disconnects && d.Keys == s.disconnects[name].Keys ==> SameEntries(s, t)
  {
    hide IsLabel, Permits;
  }

  lemma {:induction false} MoverStep(alnum: char -> bool, s: Server, m: Move)
    requires KnowsLetters(alnum) && Possible(s, m) && Bounded(alnum, s) && !m.Drop? && !m.Foreign?
    ensures
      var t := Next(alnum, s, m);
      m.id in t.handlers ==> Sound(alnum, t.seen, t.disconnects, t.handlers[m.id])
  {
    hide IsLabel, KnowsLetters, LabelOf, Permits, Next, E.Step, E.Enabled;
    if m.Greet? {
      assert Sound(alnum, s.seen, s.disconnects, s.handlers[m.id]);
      var t := E.Step(alnum, s.handlers[m.id].echo, m.e);
      E.GreetingEnds(alnum, s.handlers[m.id].echo, m.e);
      if t.pc.Reading? {
        LabelIsLabel(alnum, t.hello[4..]);
      }
    }
    MoverAlone(alnum, s, m);
  }

  lemma {:induction false} MoverAlone(alnum: char -> bool, s: Server, m: Move)
    requires Possible(s, m) && !m.Drop? && !m.Foreign?
    requires m.Greet? ==>
      var t := E.Step(alnum, s.handlers[m.id].echo, m.e);
      t.pc.Greeting? || t.pc.Over? || IsLabel(alnum, t.peer)
    requires m.id in s.handlers ==> Sound(alnum, s.seen, s.disconnects, s.handlers[m.id])
    requires m.Raise? && s.handlers[m.id].name in s.disconnects ==>
      s.disconnects[s.handlers[m.id].name].Keys <= SERVER_DISCONNECT_REASONS
    ensures
      var t := Next(alnum, s, m);
      m.id in t.handlers ==> Sound(alnum, t.seen, t.disconnects, t.handlers[m.id])
  {
    hide IsLabel, LabelOf, E.Step, E.Enabled;
    assert Timeout in SERVER_DISCONNECT_REASONS;
  }

  lemma {:induction false} LabelIsLabel(alnum: char -> bool, text: seq<byte>)
    requires KnowsLetters(alnum)
    ensures IsLabel(alnum, LabelOf(alnum, text))
  {
    hide Sanitize, IsLabel;
    var raw := Utf8.DecodeText(text);
    SanitizeMakesLabels(alnum, if raw.Some? then raw.value else "");
  }

  // ---------------------------------------------------------------------
  // Conservation
  // ---------------------------------------------------------------------

  /** The sessions of one name that have been counted as started, and not yet as ended. */
  function Counted(s: Server, name: string): set<nat> {
    set id | id in s.handlers && CountedAs(s.handlers[id], name)
  }

  predicate InSession(h: Handler) {
    h.Live? || h.Lowered?
  }

  predicate CountedAs(h: Handler, name: string) {
    InSession(h) && h.name == name
  }

  ghost predicate Conserved(s: Server, name: string) {
    Get(s.total, name) == |Counted(s, name)| + EndedTotal(Reasons(s, name))
  }

  lemma {:induction false} ConservedStep(alnum: char -> bool, s: Server, m: Move, name: string)
    requires Possible(s, m) && EndsKnown(s, m) && Conserved(s, name)
    ensures Conserved(Next(alnum, s, m), name)
  {
    hide Next, Possible, EndsKnown, Counted, EndedTotal, Reasons;
    if m.Count? {
      CountingStep(alnum, s, m, name);
    } else if m.Close? {
      ClosingStep(alnum, s, m, name);
    } else {
      QuietSessions(alnum, s, m, name);
      QuietTotals(alnum, s, m, name);
    }
  }

  lemma {:induction false} QuietSessions(alnum: char -> bool, s: Server, m: Move, name: string)
    requires Possible(s, m) && !m.Count? && !m.Close?
    ensures Counted(Next(alnum, s, m), name) == Counted(s, name)
  {
    hide Next, CountedAs;
    var t := Next(alnum, s, m);
    forall id ensures id in Counted(t, name) <==> id in Counted(s, name) {
      if m.Drop? || m.Foreign? || id != m.id {
        OthersStay(alnum, s, m, id);
      } else {
        QuietMover(alnum, s, m, name);
      }
    }
  }

  lemma {:induction false} QuietMover(alnum: char -> bool, s: Server, m: Move, name: string)
    requires Possible(s, m) && !m.Drop? && !m.Foreign? && !m.Count? && !m.Close?
    ensures m.id in Counted(Next(alnum, s, m), name) <==> m.id in Counted(s, name)
  {
    hide LabelOf, Touch, Inc, E.Step, E.Enabled;
  }

  lemma {:induction false} QuietTotals(alnum: char -> bool, s: Server, m: Move, name: string)
    requires Possible(s, m) && !m.Count? && !m.Close?
    ensures Next(alnum, s, m).total == s.total
    ensures EndedTotal(Reasons(Next(alnum, s, m), name)) == EndedTotal(Reasons(s, name))
  {
    hide LabelOf, Touch, EndedTotal, E.Step, E.Enabled;
    if m.Precreate? || m.Foreign? {
      TouchKeepsTotal(Reasons(s, name), m.reason);
    }
  }

  lemma {:induction false} CountingStep(alnum: char -> bool, s: Server, m: Move, name: string)
    requires Possible(s, m) && m.Count? && Conserved(s, name)
    ensures Conserved(Next(alnum, s, m), name)
  {
    hide EndedTotal;
    var before, now := Counted(s, name), Counted(Next(alnum, s, m), name);
    if s.handlers[m.id].name == name {
      assert now == before + {m.id};
    } else {
      assert now == before;
    }
  }

  lemma {:induction false} ClosingStep(alnum: char -> bool, s: Server, m: Move, name: string)
    requires Possible(s, m) && m.Close? && EndsKnown(s, m) && Conserved(s, name)
    ensures Conserved(Next(alnum, s, m), name)
  {
    hide EndedTotal, Inc, Counted;
    ClosingSession(alnum, s, m, name);
    IncAddsOne(Reasons(s, name), EndOf(s.log[s.handlers[m.id].session]).value);
  }

  lemma {:induction false} ClosingSession(alnum: char -> bool, s: Server, m: Move, name: string)
    requires Possible(s, m) && m.Close?
    ensures |Counted(Next(alnum, s, m), name)| == |Counted(s, name)| - if s.handlers[m.id].name == name then 1 else 0
  {
    hide Next, Counted;
    Uncounted(alnum, s, m, name);
  }

  lemma {:induction false} Uncounted(alnum: char -> bool, s: Server, m: Move, name: string)
    requires Possible(s, m) && m.Close?
    ensures Counted(Next(alnum, s, m), name) == Counted(s, name) - {m.id}
    ensures m.id in Counted(s, name) <==> s.handlers[m.id].name == name
  {
    hide Inc;
    var t := Next(alnum, s, m);
    assert forall id :: id in Counted(t, name) <==> id in Counted(s, name) && id != m.id;
  }

  // ---------------------------------------------------------------------
  // The log
  // ---------------------------------------------------------------------

  function SessionsOf(log: seq<Session>, name: string, n: nat): nat
    requires n <= |log|
  {
    if n == 0 then 0 else SessionsOf(log, name, n - 1) + if log[n - 1].name == name then 1 else 0
  }

  /** The heartbeats that the name's sessions heard. */
  function HeardOf(log: seq<Session>, name: string, n: nat): nat
    requires n <= |log|
  {
    if n == 0 then 0 else HeardOf(log, name, n - 1) + if log[n - 1].name == name then |log[n - 1].echo.heard| else 0
  }

  predicate ClosedFor(x: Session, name: string, r: Reason) {
    x.name == name && x.closed && EndOf(x) == Some(r)
  }

  /** The name's sessions whose end was counted, and that ended for this reason. */
  function EndedOf(log: seq<Session>, name: string, r: Reason, n: nat): nat
    requires n <= |log|
  {
    if n == 0 then 0 else EndedOf(log, name, r, n - 1) + if ClosedFor(log[n - 1], name, r) then 1 else 0
  }

  lemma {:induction false} LogGrows(log: seq<Session>, x: Session, name: string, r: Reason, n: nat)
    requires n <= |log|
    ensures SessionsOf(log + [x], name, n) == SessionsOf(log, name, n)
    ensures HeardOf(log + [x], name, n) == HeardOf(log, name, n)
    ensures EndedOf(log + [x], name, r, n) == EndedOf(log, name, r, n)
  {
    if n == 0 {
    } else {
      LogGrows(log, x, name, r, n - 1);
    }
  }

  lemma {:induction false} LogMoves(log: seq<Session>, k: nat, x: Session, name: string, r: Reason, n: nat)
    requires k < |log| && n <= |log| && x.name == log[k].name
    ensures
      var more := log[k := x];
      && SessionsOf(more, name, n) == SessionsOf(log, name, n)
      && HeardOf(more, name, n) ==
        HeardOf(log, name, n) + (if k < n && x.name == name then |x.echo.heard| - |log[k].echo.heard| else 0)
      && EndedOf(more, name, r, n) ==
        EndedOf(log, name, r, n) + (if k >= n then 0 else
          (if ClosedFor(x, name, r) then 1 else 0) - if ClosedFor(log[k], name, r) then 1 else 0)
  {
    hide ClosedFor;
    if n == 0 {
    } else {
      LogMoves(log, k, x, name, r, n - 1);
    }
  }

  /** What holds of every session in the log. */
  predicate Proper(x: Session) {
    && !x.echo.pc.Greeting? && x.echo.peer == x.name
    && (x.echo.pc.Over? ==> x.echo.pc.reason.Some? && x.echo.pc.reason.value in SERVER_DISCONNECT_REASONS)
    && (x.closed ==> x.echo.pc.Over?)
  }

  /** The handler's entry is there, under its name, and not closed yet; it is over once the
      gauge is back to 0. */
  predicate HasEntry(log: seq<Session>, h: Handler) {
    InSession(h) ==>
      && h.session < |log| && log[h.session].name == h.name && !log[h.session].closed
      && (h.Lowered? ==> EndOf(log[h.session]).Some?)
  }

  /** Each session that runs or is still ending has a log entry to itself. */
  ghost predicate Logged(s: Server) {
    && (forall k :: 0 <= k < |s.log| ==> Proper(s.log[k]))
    && (forall id :: id in s.handlers ==> HasEntry(s.log, s.handlers[id]))
    && (forall a, b :: a in s.handlers && b in s.handlers && a != b && InSession(s.handlers[a]) && InSession(s.handlers[b]) ==>
      s.handlers[a].session != s.handlers[b].session)
  }

  ghost predicate Tallied(s: Server, name: string, r: Reason) {
    && Get(s.total, name) == SessionsOf(s.log, name, |s.log|)
    && Get(s.received, name) == HeardOf(s.log, name, |s.log|)
    && Get(Reasons(s, name), r) == EndedOf(s.log, name, r, |s.log|)
  }

  lemma {:induction false} LoggedEndsKnown(s: Server, m: Move)
    requires Possible(s, m) && Logged(s)
    ensures EndsKnown(s, m)
  {
    if m.Close? {
      assert Proper(s.log[s.handlers[m.id].session]);
    }
  }

  lemma {:induction false} LoggedStep(alnum: char -> bool, s: Server, m: Move)
    requires Possible(s, m) && Logged(s)
    ensures Logged(Next(alnum, s, m))
  {
    hide Next, Logged, Possible;
    if m.Count? {
      LoggedCount(alnum, s, m);
    } else if m.Hear? {
      LoggedHear(alnum, s, m);
    } else if m.Lower? {
      LoggedLower(alnum, s, m);
    } else if m.Close? {
      LoggedClose(alnum, s, m);
    } else {
      LoggedQuiet(alnum, s, m);
    }
  }

  lemma {:induction false} LoggedCount(alnum: char -> bool, s: Server, m: Move)
    requires Possible(s, m) && Logged(s) && m.Count?
    ensures Logged(Next(alnum, s, m))
  {
    hide Inc;
    var t := Next(alnum, s, m);
    forall id | id in t.handlers ensures HasEntry(t.log, t.handlers[id]) {
      if id != m.id {
        assert HasEntry(s.log, s.handlers[id]);
      }
    }
    assert forall id :: id in s.handlers && InSession(s.handlers[id]) ==> HasEntry(s.log, s.handlers[id]);
  }

  lemma {:induction false} LoggedHear(alnum: char -> bool, s: Server, m: Move)
    requires Possible(s, m) && Logged(s) && m.Hear?
    ensures Logged(Next(alnum, s, m))
  {
    hide Inc, E.Step, E.Enabled;
    var k := s.handlers[m.id].session;
    assert Proper(s.log[k]);
    assert HasEntry(s.log, s.handlers[m.id]);
    E.SessionGoesOn(alnum, s.log[k].echo, m.e);
    var t := Next(alnum, s, m);
    forall id | id in t.handlers ensures HasEntry(t.log, t.handlers[id]) {
      assert HasEntry(s.log, s.handlers[id]);
      assert id != m.id && InSession(s.handlers[id]) ==> s.handlers[id].session != k;
    }
  }

  lemma {:induction false} LoggedLower(alnum: char -> bool, s: Server, m: Move)
    requires Possible(s, m) && Logged(s) && m.Lower?
    ensures Logged(Next(alnum, s, m))
  {
    hide Proper;
    var t := Next(alnum, s, m);
    forall id | id in t.handlers ensures HasEntry(t.log, t.handlers[id]) {
      assert HasEntry(s.log, s.handlers[id]);
    }
  }

  lemma {:induction false} LoggedClose(alnum: char -> bool, s: Server, m: Move)
    requires Possible(s, m) && Logged(s) && m.Close?
    ensures Logged(Next(alnum, s, m))
  {
    hide Inc;
    var t, k := Next(alnum, s, m), s.handlers[m.id].session;
    assert Proper(s.log[k]);
    forall id | id in t.handlers ensures HasEntry(t.log, t.handlers[id]) {
      assert HasEntry(s.log, s.handlers[id]);
      assert InSession(s.handlers[id]) ==> s.handlers[id].session != k;
    }
  }

  lemma {:induction false} LoggedQuiet(alnum: char -> bool, s: Server, m: Move)
    requires Possible(s, m) && Logged(s) && !m.Count? && !m.Hear? && !m.Lower? && !m.Close?
    ensures Logged(Next(alnum, s, m))
  {
    hide Next, Proper;
    var t := Next(alnum, s, m);
    LogStays(alnum, s, m);
    forall id | id in t.handlers && InSession(t.handlers[id])
      ensures id in s.handlers && t.handlers[id] == s.handlers[id] && HasEntry(t.log, t.handlers[id])
    {
      if m.Drop? || m.Foreign? || id != m.id {
        OthersStay(alnum, s, m, id);
      }
      assert HasEntry(s.log, s.handlers[id]);
    }
  }

  lemma {:induction false} LogStays(alnum: char -> bool, s: Server, m: Move)
    requires Possible(s, m) && !m.Count? && !m.Hear? && !m.Close?
    ensures
      var t := Next(alnum, s, m);
      && t.log == s.log && t.total == s.total && t.received == s.received
      && (!m.Lower? && !m.Drop? && !m.Foreign? && m.id in t.handlers ==> !InSession(t.handlers[m.id]))
  {
    hide LabelOf, Touch, Inc, E.Step, E.Enabled;
  }

  lemma {:induction false} TalliedStep(alnum: char -> bool, s: Server, m: Move, name: string, r: Reason)
    requires Possible(s, m) && Logged(s) && Tallied(s, name, r)
    ensures Tallied(Next(alnum, s, m), name, r)
  {
    hide Next, Logged, Tallied, Possible;
    if m.Count? || m.Hear? || m.Close? {
      TalliedSession(alnum, s, m, name, r);
    } else {
      TalliedQuiet(alnum, s, m, name, r);
    }
  }

  lemma {:induction false} TalliedSession(alnum: char -> bool, s: Server, m: Move, name: string, r: Reason)
    requires Possible(s, m) && Logged(s) && Tallied(s, name, r) && (m.Count? || m.Hear? || m.Close?)
    ensures Tallied(Next(alnum, s, m), name, r)
  {
    hide Logged, E.Step, E.Enabled;
    var n := |s.log|;
    if m.Count? {
      LogGrows(s.log, Session(s.handlers[m.id].name, E.Accepted(s.handlers[m.id].hello, s.handlers[m.id].name), false), name, r, n);
    } else {
      var k := s.handlers[m.id].session;
      OwnEntry(s, m.id);
      if m.Hear? {
        E.SessionGoesOn(alnum, s.log[k].echo, m.e);
        LogMoves(s.log, k, s.log[k].(echo := E.Step(alnum, s.log[k].echo, m.e)), name, r, n);
      } else {
        LogMoves(s.log, k, s.log[k].(closed := true), name, r, n);
      }
    }
  }

  lemma {:induction false} TalliedQuiet(alnum: char -> bool, s: Server, m: Move, name: string, r: Reason)
    requires Possible(s, m) && Tallied(s, name, r) && !m.Count? && !m.Hear? && !m.Close?
    ensures Tallied(Next(alnum, s, m), name, r)
  {
    hide Next, SessionsOf, HeardOf, EndedOf;
    LogStays(alnum, s, m);
    EntriesStay(alnum, s, m, name, r);
  }

  lemma {:induction false} EntriesStay(alnum: char -> bool, s: Server, m: Move, name: string, r: Reason)
    requires Possible(s, m) && !m.Close?
    ensures Get(Reasons(Next(alnum, s, m), name), r) == Get(Reasons(s, name), r)
  {
    hide LabelOf, Inc, E.Step, E.Enabled;
  }

  lemma {:induction false} OwnEntry(s: Server, id: nat)
    requires Logged(s) && id in s.handlers && InSession(s.handlers[id])
    ensures
      var k := s.handlers[id].session;
      && k < |s.log| && Proper(s.log[k]) && s.log[k].name == s.handlers[id].name && !s.log[k].closed
      && (s.handlers[id].Lowered? ==> EndOf(s.log[k]).Some?)
  {
    assert HasEntry(s.log, s.handlers[id]);
  }

  // ---------------------------------------------------------------------
  // The gauge
  // ---------------------------------------------------------------------

  /** The live sessions of one name: from setting the gauge to 1 to setting it to 0. */
  function Active(s: Server, name: string): set<nat> {
    set id | id in s.handlers && ActiveAs(s.handlers[id], name)
  }

  predicate ActiveAs(h: Handler, name: string) {
    (h.Raised? || h.Live?) && h.name == name
  }

  /** One direction always holds. */
  ghost predicate GaugeSound(s: Server, name: string) {
    0 <= Get(s.active, name) <= 1 && (Get(s.active, name) == 1 ==> Active(s, name) != {})
  }

  ghost predicate GaugeTrue(s: Server, name: string) {
    Get(s.active, name) == 1 <==> Active(s, name) != {}
  }

  /** A session of the name ends while another of the same name is live. */
  predicate CutsShort(s: Server, m: Move, name: string) {
    m.Lower? && m.id in Active(s, name) && Active(s, name) != {m.id}
  }

  lemma {:induction false} GaugeStep(alnum: char -> bool, s: Server, m: Move, name: string)
    requires Possible(s, m) && GaugeSound(s, name)
    ensures GaugeSound(Next(alnum, s, m), name)
    ensures GaugeTrue(s, name) ==> (GaugeTrue(Next(alnum, s, m), name) <==> !CutsShort(s, m, name))
  {
    hide Next, Active, CutsShort;
    if m.Raise? && s.handlers[m.id].name == name {
      RaisedIsActive(alnum, s, m);
    } else if m.Lower? && s.handlers[m.id].name == name {
      LoweredIsNot(alnum, s, m);
    } else {
      GaugeQuiet(alnum, s, m, name);
    }
  }

  lemma {:induction false} RaisedIsActive(alnum: char -> bool, s: Server, m: Move)
    requires Possible(s, m) && m.Raise?
    ensures var t, name := Next(alnum, s, m), s.handlers[m.id].name; m.id in Active(t, name) && Get(t.active, name) == 1
    ensures forall name :: !CutsShort(s, m, name)
  {
  }

  lemma {:induction false} LoweredIsNot(alnum: char -> bool, s: Server, m: Move)
    requires Possible(s, m) && m.Lower?
    ensures
      var t, name := Next(alnum, s, m), s.handlers[m.id].name;
      && Active(t, name) == Active(s, name) - {m.id} && Get(t.active, name) == 0
      && (CutsShort(s, m, name) <==> Active(t, name) != {})
  {
    var t, name := Next(alnum, s, m), s.handlers[m.id].name;
    assert Active(t, name) == Active(s, name) - {m.id};
    assert m.id in Active(s, name);
  }

  lemma {:induction false} GaugeQuiet(alnum: char -> bool, s: Server, m: Move, name: string)
    requires Possible(s, m) && (m.Raise? || m.Lower? ==> s.handlers[m.id].name != name)
    ensures Active(Next(alnum, s, m), name) == Active(s, name) && !CutsShort(s, m, name)
    ensures Get(Next(alnum, s, m).active, name) == Get(s.active, name)
  {
    hide Next, ActiveAs;
    var t := Next(alnum, s, m);
    GaugeStays(alnum, s, m, name);
    forall id ensures id in Active(t, name) <==> id in Active(s, name) {
      if m.Drop? || m.Foreign? || id != m.id {
        OthersStay(alnum, s, m, id);
      } else {
        GaugeMover(alnum, s, m, name);
      }
    }
  }

  lemma {:induction false} GaugeStays(alnum: char -> bool, s: Server, m: Move, name: string)
    requires Possible(s, m) && (m.Raise? || m.Lower? ==> s.handlers[m.id].name != name)
    ensures Get(Next(alnum, s, m).active, name) == Get(s.active, name) && !CutsShort(s, m, name)
  {
    hide LabelOf, Touch, Inc, E.Step, E.Enabled;
  }

  lemma {:induction false} GaugeMover(alnum: char -> bool, s: Server, m: Move, name: string)
    requires Possible(s, m) && !m.Drop? && !m.Foreign? && (m.Raise? || m.Lower? ==> s.handlers[m.id].name != name)
    ensures m.id in Active(Next(alnum, s, m), name) <==> m.id in Active(s, name)
  {
    hide LabelOf, Touch, Inc, E.Step, E.Enabled;
  }

  // ---------------------------------------------------------------------
  // Every run
  // ---------------------------------------------------------------------

  lemma {:induction false} StartHolds(alnum: char -> bool, name: string)
    ensures Bounded(alnum, Start()) && Conserved(Start(), name) && GaugeSound(Start(), name) && GaugeTrue(Start(), name)
    ensures Logged(Start()) && forall r :: Tallied(Start(), name, r)
  {
    assert Counted(Start(), name) == {} && Active(Start(), name) == {};
  }

  lemma {:induction false} EveryRun(alnum: char -> bool, moves: seq<Move>, n: nat, name: string)
    requires KnowsLetters(alnum) && n <= |moves| && Legal(alnum, moves, n)
    ensures
      var s := Run(alnum, moves, n);
      Bounded(alnum, s) && Conserved(s, name) && GaugeSound(s, name) && Logged(s)
    decreases n
  {
    hide Next, Possible, EndsKnown, Bounded, Conserved, GaugeSound, GaugeTrue, Logged, Tallied, KnowsLetters, Start;
    if n == 0 {
      StartHolds(alnum, name);
    } else {
      EveryRun(alnum, moves, n - 1, name);
      var s := Run(alnum, moves, n - 1);
      LoggedEndsKnown(s, moves[n - 1]);
      BoundedStep(alnum, s, moves[n - 1]);
      ConservedStep(alnum, s, moves[n - 1], name);
      GaugeStep(alnum, s, moves[n - 1], name);
      LoggedStep(alnum, s, moves[n - 1]);
    }
  }

  lemma {:induction false} EveryTally(alnum: char -> bool, moves: seq<Move>, n: nat, name: string, r: Reason)
    requires KnowsLetters(alnum) && n <= |moves| && Legal(alnum, moves, n)
    ensures Tallied(Run(alnum, moves, n), name, r)
    decreases n
  {
    hide Next, Possible, Bounded, Conserved, GaugeSound, GaugeTrue, Logged, Tallied, KnowsLetters, Start;
    if n == 0 {
      StartHolds(alnum, name);
    } else {
      EveryTally(alnum, moves, n - 1, name, r);
      EveryRun(alnum, moves, n - 1, name);
      TalliedStep(alnum, Run(alnum, moves, n - 1), moves[n - 1], name, r);
    }
  }

  /** In every interleaving: permits in use and free ones are always 128; at most 512
      names are ever admitted, all of them labels; only they have gauges, session counters
      and heartbeat counters; a disconnect entry under another name is one that a client
      task pre-created; and the disconnect counter that an ending session will use exists
      already. */
  lemma {:induction false} LabelsAndPermits(alnum: char -> bool, moves: seq<Move>, n: nat)
    requires KnowsLetters(alnum) && n <= |moves| && Legal(alnum, moves, n)
    ensures
      var s := Run(alnum, moves, n);
      && |s.handlers| + s.free == 128
      && |s.seen| <= 512
      && (forall p :: p in s.seen ==> IsLabel(alnum, p))
      && s.active.Keys + s.total.Keys + s.received.Keys <= s.seen
      && s.disconnects.Keys <= s.seen + s.foreign
      && (forall id :: id in s.handlers && Labelled(s.handlers[id]) ==>
        s.handlers[id].name in s.disconnects && s.disconnects[s.handlers[id].name].Keys == SERVER_DISCONNECT_REASONS)
  {
    hide IsLabel;
    EveryRun(alnum, moves, n, "");
    var s := Run(alnum, moves, n);
    forall id | id in s.handlers && Labelled(s.handlers[id])
      ensures s.handlers[id].name in s.disconnects
      ensures s.disconnects[s.handlers[id].name].Keys == SERVER_DISCONNECT_REASONS
    {
      assert Sound(alnum, s.seen, s.disconnects, s.handlers[id]);
    }
  }

  lemma {:induction false} SeenGrows(alnum: char -> bool, moves: seq<Move>, k: nat, n: nat)
    requires KnowsLetters(alnum) && k <= n <= |moves| && Legal(alnum, moves, n)
    ensures Legal(alnum, moves, k) && Run(alnum, moves, k).seen <= Run(alnum, moves, n).seen
    decreases n
  {
    hide KnowsLetters, Next, Possible, EndsKnown, Bounded, Logged;
    if k == n {
    } else {
      LegalPrefix(alnum, moves, n, n - 1);
      SeenGrows(alnum, moves, k, n - 1);
      EveryRun(alnum, moves, n - 1, "");
      LoggedEndsKnown(Run(alnum, moves, n - 1), moves[n - 1]);
      BoundedStep(alnum, Run(alnum, moves, n - 1), moves[n - 1]);
    }
  }

  /** No disconnect creates an entry: all of its name's were there before. */
  lemma {:induction false} NoLateLabels(alnum: char -> bool, moves: seq<Move>, n: nat)
    requires KnowsLetters(alnum) && n < |moves| && Legal(alnum, moves, n + 1) && moves[n].Close?
    ensures Legal(alnum, moves, n) && SameEntries(Run(alnum, moves, n), Run(alnum, moves, n + 1))
  {
    hide KnowsLetters, Next, Possible, EndsKnown, Bounded, Logged, SameEntries;
    LegalPrefix(alnum, moves, n + 1, n);
    EveryRun(alnum, moves, n, "");
    LoggedEndsKnown(Run(alnum, moves, n), moves[n]);
    BoundedStep(alnum, Run(alnum, moves, n), moves[n]);
  }

  /** A name once admitted is admitted ever after. */
  lemma {:induction false} AdmittedForGood(alnum: char -> bool, moves: seq<Move>, k: nat, n: nat)
    requires KnowsLetters(alnum) && k <= n < |moves| && Legal(alnum, moves, n + 1)
    requires
      && Legal(alnum, moves, n) && Legal(alnum, moves, k)
      && moves[n].Register? && Possible(Run(alnum, moves, n), moves[n])
      && Run(alnum, moves, n).handlers[moves[n].id].name in Run(alnum, moves, k).seen
    ensures
      var id := moves[n].id;
      && id in Run(alnum, moves, n + 1).handlers
      && Run(alnum, moves, n + 1).handlers[id] ==
        Labelling(Run(alnum, moves, n).handlers[id].name, Run(alnum, moves, n).handlers[id].hello, {})
  {
    hide KnowsLetters;
    SeenGrows(alnum, moves, k, n);
  }

  /** For each name, sessions started are those running or still ending, and those that
      ended, each under exactly one of the four reasons. */
  lemma {:induction false} SessionsConserved(alnum: char -> bool, moves: seq<Move>, n: nat, name: string)
    requires KnowsLetters(alnum) && n <= |moves| && Legal(alnum, moves, n)
    ensures
      var s := Run(alnum, moves, n);
      Get(s.total, name) == |Counted(s, name)| + EndedTotal(Reasons(s, name))
  {
    EveryRun(alnum, moves, n, name);
  }

  /** For each name the session counter is the number of its sessions, the heartbeat counter
      is the sum of what they heard, ended ones included, and each disconnect counter is
      the number of those that ended for its reason and are closed. */
  lemma {:induction false} LogIsCounted(alnum: char -> bool, moves: seq<Move>, n: nat, name: string, r: Reason)
    requires KnowsLetters(alnum) && n <= |moves| && Legal(alnum, moves, n)
    ensures
      var s := Run(alnum, moves, n);
      && Get(s.total, name) == SessionsOf(s.log, name, |s.log|)
      && Get(s.received, name) == HeardOf(s.log, name, |s.log|)
      && Get(Reasons(s, name), r) == EndedOf(s.log, name, r, |s.log|)
      && Logged(s)
  {
    hide Logged;
    EveryRun(alnum, moves, n, name);
    EveryTally(alnum, moves, n, name, r);
  }

  /** The gauge tells the truth about the name after each of the first n moves. */
  ghost predicate AlwaysTrue(alnum: char -> bool, moves: seq<Move>, n: nat, name: string)
    requires n <= |moves| && Legal(alnum, moves, n)
  {
    GaugeTrue(Run(alnum, moves, n), name) && (n > 0 ==> AlwaysTrue(alnum, moves, n - 1, name))
  }

  /** In none of the first n moves does a session of the name end while another is live. */
  ghost predicate NeverCutShort(alnum: char -> bool, moves: seq<Move>, n: nat, name: string)
    requires n <= |moves| && Legal(alnum, moves, n)
  {
    n > 0 ==>
      && !CutsShort(Run(alnum, moves, n - 1), moves[n - 1], name)
      && NeverCutShort(alnum, moves, n - 1, name)
  }

  /** The gauge at 1 always means a live session. That it is 1 whenever one is live holds
      throughout a run exactly when no session of the name ends while another is live. */
  lemma {:induction false} GaugeTruth(alnum: char -> bool, moves: seq<Move>, n: nat, name: string)
    requires KnowsLetters(alnum) && n <= |moves| && Legal(alnum, moves, n)
    ensures var s := Run(alnum, moves, n); Get(s.active, name) == 1 ==> Active(s, name) != {}
    ensures AlwaysTrue(alnum, moves, n, name) <==> NeverCutShort(alnum, moves, n, name)
    decreases n
  {
    hide Next, Possible, Bounded, Conserved, GaugeTrue, KnowsLetters, Start, CutsShort;
    EveryRun(alnum, moves, n, name);
    if n == 0 {
      StartHolds(alnum, name);
    } else {
      GaugeTruth(alnum, moves, n - 1, name);
      EveryRun(alnum, moves, n - 1, name);
      GaugeStep(alnum, Run(alnum, moves, n - 1), moves[n - 1], name);
    }
  }

  /** Of the moves so far that set the name's gauge, the last set it to 1. */
  ghost predicate LastRaised(alnum: char -> bool, moves: seq<Move>, n: nat, name: string)
    requires n <= |moves| && Legal(alnum, moves, n)
  {
    n > 0 &&
    var s, m := Run(alnum, moves, n - 1), moves[n - 1];
    if m.Raise? && s.handlers[m.id].name == name then true
    else if m.Lower? && s.handlers[m.id].name == name then false
    else LastRaised(alnum, moves, n - 1, name)
  }

  /** After every move: the gauge is 1 just when it was last set to 1, and it is right just
      when that is so or no session is live. So a wrong gauge, 0 while a session is live,
      stays wrong until the next session of the name starts or the last live one ends. */
  lemma {:induction false} GaugeAtEveryMove(alnum: char -> bool, moves: seq<Move>, n: nat, name: string)
    requires KnowsLetters(alnum) && n <= |moves| && Legal(alnum, moves, n)
    ensures Get(Run(alnum, moves, n).active, name) == 1 <==> LastRaised(alnum, moves, n, name)
    ensures GaugeTrue(Run(alnum, moves, n), name) <==>
      LastRaised(alnum, moves, n, name) || Active(Run(alnum, moves, n), name) == {}
    decreases n
  {
    hide Next, Bounded, Conserved, Logged, KnowsLetters, CutsShort, Active;
    EveryRun(alnum, moves, n, name);
    if n == 0 {
    } else {
      var s, m := Run(alnum, moves, n - 1), moves[n - 1];
      GaugeAtEveryMove(alnum, moves, n - 1, name);
      if m.Raise? && s.handlers[m.id].name == name {
        RaisedIsActive(alnum, s, m);
      } else if m.Lower? && s.handlers[m.id].name == name {
        LoweredIsNot(alnum, s, m);
      } else {
        GaugeQuiet(alnum, s, m, name);
      }
    }
  }

  /** Sessions of the name were never live two at a time. */
  ghost predicate NeverOverlap(alnum: char -> bool, moves: seq<Move>, n: nat, name: string)
    requires n <= |moves| && Legal(alnum, moves, n)
  {
    |Active(Run(alnum, moves, n), name)| <= 1 && (n > 0 ==> NeverOverlap(alnum, moves, n - 1, name))
  }

  lemma {:induction false} GaugeTrueWithoutOverlap(alnum: char -> bool, moves: seq<Move>, n: nat, name: string)
    requires KnowsLetters(alnum) && n <= |moves| && Legal(alnum, moves, n) && NeverOverlap(alnum, moves, n, name)
    ensures AlwaysTrue(alnum, moves, n, name)
  {
    hide AlwaysTrue, KnowsLetters;
    GaugeTruth(alnum, moves, n, name);
    NeverOverlapNeverCuts(alnum, moves, n, name);
  }

  lemma {:induction false} NeverOverlapNeverCuts(alnum: char -> bool, moves: seq<Move>, n: nat, name: string)
    requires n <= |moves| && Legal(alnum, moves, n) && NeverOverlap(alnum, moves, n, name)
    ensures NeverCutShort(alnum, moves, n, name)
  {
    hide Next, Possible, Active;
    if n == 0 {
    } else {
      NeverOverlapNeverCuts(alnum, moves, n - 1, name);
      var active := Active(Run(alnum, moves, n - 1), name);
      if moves[n - 1].Lower? && moves[n - 1].id in active {
        var rest := active - {moves[n - 1].id};
        assert active == rest + {moves[n - 1].id} && |rest| == |active| - 1;
        assert rest == {};
      }
    }
  }

  // ---------------------------------------------------------------------
  // One session on its own, and two that overlap
  // ---------------------------------------------------------------------

  lemma {:induction false} Extend(alnum: char -> bool, moves: seq<Move>, k: nat)
    requires k < |moves| && Legal(alnum, moves, k) && Possible(Run(alnum, moves, k), moves[k])
    ensures Legal(alnum, moves, k + 1) && Run(alnum, moves, k + 1) == Next(alnum, Run(alnum, moves, k), moves[k])
  {
    hide Next, Possible;
  }

  /** The moves of a connection that announces this node: its handshake arrives in two
      reads, the length first. */
  function Opening(id: nat, node: string): seq<Move> {
    [Accept(id), Greet(id, Event(0, Chunk(Hello(node)))), Greet(id, Event(0, Chunk(NameBytes(node)))), Register(id),
     Precreate(id, RemoteClose), Precreate(id, Reason.ConnectionReset), Precreate(id, Timeout), Precreate(id, LocalError),
     Raise(id), Count(id)]
  }

  /** There is a permit and room for the name. */
  predicate Room(s: Server, id: nat, name: string) {
    s.free > 0 && id !in s.handlers && (name in s.seen || |s.seen| < MAX_UNIQUE_SERVER_PEERS)
  }

  /** The metrics of one name. */
  function View(s: Server, name: string): ServerMetrics {
    ServerMetrics(Get(s.active, name), Get(s.total, name), Get(s.received, name), Reasons(s, name))
  }

  lemma {:induction false} HandshakeInTwo(alnum: char -> bool, node: string)
    requires node != ""
    ensures
      var a, b := Event(0, Chunk(Hello(node))), Event(0, Chunk(NameBytes(node)));
      var t := E.Step(alnum, E.START, a);
      && t.pc.Greeting? && E.Enabled(t, b)
      && E.Step(alnum, t, b) == E.Accepted(Hello(node), LabelOf(alnum, NameBytes(node)))
  {
    hide LabelOf, Hello, Announces, E.Step;
    HelloAnnounces(node);
    Utf8.EncodeTextLength(node);
    var a, b, h := Event(0, Chunk(Hello(node))), Event(0, Chunk(NameBytes(node))), Hello(node);
    assert |NameBytes(node)| > 0;
    assert E.START.held + Take(h, StillWanted(E.START.held)) == h[..4];
    E.HandshakeOutcome(alnum, E.START, a, node);
    var t := E.Step(alnum, E.START, a);
    assert t.held == h[..4];
    AnnouncesPrefix(t.held, h);
    assert NameBytes(node) == h[4..] && h == h[..4] + h[4..];
    E.HandshakeOutcome(alnum, t, b, node);
  }

  lemma {:induction false} Enters(alnum: char -> bool, moves: seq<Move>, k: nat, id: nat, node: string)
    requires node != "" && k + 10 <= |moves| && moves[k..k + 10] == Opening(id, node) && Legal(alnum, moves, k)
    requires Room(Run(alnum, moves, k), id, LabelOf(alnum, NameBytes(node)))
    ensures
      && Legal(alnum, moves, k + 4)
      && var s, name := Run(alnum, moves, k), LabelOf(alnum, NameBytes(node));
      Run(alnum, moves, k + 4) ==
        s.(free := s.free - 1, seen := s.seen + {name}, handlers := s.handlers[id := Labelling(name, Hello(node), {})])
  {
    hide Legal, Run, LabelOf, Hello, NameBytes, E.Step;
    var o := moves[k..k + 10];
    assert moves[k] == o[0] && moves[k + 1] == o[1] && moves[k + 2] == o[2] && moves[k + 3] == o[3];
    HandshakeInTwo(alnum, node);
    Extend(alnum, moves, k);
    Extend(alnum, moves, k + 1);
    Extend(alnum, moves, k + 2);
    Extend(alnum, moves, k + 3);
  }

  lemma {:induction false} TouchesAll(d: map<Reason, int>)
    ensures Touch(Touch(Touch(Touch(d, RemoteClose), Reason.ConnectionReset), Timeout), LocalError)
      == Precreated(d, SERVER_DISCONNECT_REASONS)
  {
  }

  lemma {:induction false} Precreates(alnum: char -> bool, moves: seq<Move>, k: nat, id: nat, node: string)
    requires k + 10 <= |moves| && moves[k..k + 10] == Opening(id, node) && Legal(alnum, moves, k + 4)
    requires
      && id in Run(alnum, moves, k + 4).handlers
      && Run(alnum, moves, k + 4).handlers[id] == Labelling(LabelOf(alnum, NameBytes(node)), Hello(node), {})
    ensures
      && Legal(alnum, moves, k + 8)
      && var s, name := Run(alnum, moves, k + 4), LabelOf(alnum, NameBytes(node));
      Run(alnum, moves, k + 8) ==
        s.(handlers := s.handlers[id := Labelling(name, Hello(node), SERVER_DISCONNECT_REASONS)],
           disconnects := s.disconnects[name := Precreated(Reasons(s, name), SERVER_DISCONNECT_REASONS)])
  {
    hide Legal, Run, LabelOf, Hello, NameBytes, Touch, Precreated, Next, Possible;
    var s, name, o := Run(alnum, moves, k + 4), LabelOf(alnum, NameBytes(node)), moves[k..k + 10];
    var d, hello := Reasons(s, name), Hello(node);
    assert moves[k + 4] == o[4] && moves[k + 5] == o[5] && moves[k + 6] == o[6] && moves[k + 7] == o[7];
    FirstEntry(alnum, moves, k + 4, id, name, hello, RemoteClose);
    NextEntry(alnum, moves, k + 5, id, name, hello, s, {RemoteClose}, Touch(d, RemoteClose), Reason.ConnectionReset);
    d := Touch(Touch(d, RemoteClose), Reason.ConnectionReset);
    NextEntry(alnum, moves, k + 6, id, name, hello, s, {RemoteClose} + {Reason.ConnectionReset}, d, Timeout);
    d := Touch(d, Timeout);
    NextEntry(alnum, moves, k + 7, id, name, hello, s, {RemoteClose} + {Reason.ConnectionReset} + {Timeout}, d, LocalError);
    TouchesAll(Reasons(s, name));
    assert {RemoteClose} + {Reason.ConnectionReset} + {Timeout} + {LocalError} == SERVER_DISCONNECT_REASONS;
  }

  /** State `base`, but handler `id` has pre-created `done` for the name, which now has entries d. */
  function With(base: Server, id: nat, name: string, hello: seq<byte>, done: set<Reason>, d: map<Reason, int>): Server {
    base.(handlers := base.handlers[id := Labelling(name, hello, done)], disconnects := base.disconnects[name := d])
  }

  lemma {:induction false} FirstEntry(alnum: char -> bool, moves: seq<Move>, k: nat, id: nat, name: string, hello: seq<byte>, r: Reason)
    requires k < |moves| && moves[k] == Precreate(id, r) && r in SERVER_DISCONNECT_REASONS && Legal(alnum, moves, k)
    requires id in Run(alnum, moves, k).handlers && Run(alnum, moves, k).handlers[id] == Labelling(name, hello, {})
    ensures
      && Legal(alnum, moves, k + 1)
      && var s := Run(alnum, moves, k);
      Run(alnum, moves, k + 1) == With(s, id, name, hello, {r}, Touch(Reasons(s, name), r))
  {
    hide Legal, Run, Touch, E.Step, E.Enabled;
    assert Run(alnum, moves, k).handlers[id].done + {r} == {r};
    Extend(alnum, moves, k);
  }

  lemma {:induction false} NextEntry(alnum: char -> bool, moves: seq<Move>, k: nat, id: nat, name: string, hello: seq<byte>,
      base: Server, done: set<Reason>, d: map<Reason, int>, r: Reason)
    requires k < |moves| && moves[k] == Precreate(id, r) && r in SERVER_DISCONNECT_REASONS - done && Legal(alnum, moves, k)
    requires Run(alnum, moves, k) == With(base, id, name, hello, done, d)
    ensures Legal(alnum, moves, k + 1) && Run(alnum, moves, k + 1) == With(base, id, name, hello, done + {r}, Touch(d, r))
  {
    hide Legal, Run, Touch, E.Step, E.Enabled;
    Extend(alnum, moves, k);
    var t := Run(alnum, moves, k + 1);
    assert t.handlers == base.handlers[id := Labelling(name, hello, done + {r})];
    assert t.disconnects == base.disconnects[name := Touch(d, r)];
  }

  /** A connection that finds room starts its session, with the same effect on the metrics
      as the code run by itself. */
  lemma {:induction false} OpensAlone(alnum: char -> bool, moves: seq<Move>, k: nat, id: nat, node: string)
    requires node != "" && k + 10 <= |moves| && moves[k..k + 10] == Opening(id, node) && Legal(alnum, moves, k)
    requires Room(Run(alnum, moves, k), id, LabelOf(alnum, NameBytes(node)))
    ensures
      && Legal(alnum, moves, k + 10)
      && var s, t, name := Run(alnum, moves, k), Run(alnum, moves, k + 10), LabelOf(alnum, NameBytes(node));
      && t.handlers == s.handlers[id := Live(name, |s.log|)] && t.free == s.free - 1 && t.seen == s.seen + {name}
      && t.log == s.log + [Session(name, E.Accepted(Hello(node), name), false)]
      && View(t, name) == ServerSession.Opened(View(s, name))
      && forall n :: n != name ==> View(t, n) == View(s, n)
  {
    hide Legal, Run, LabelOf, Hello, NameBytes, Precreated, E.Step, E.Enabled;
    Enters(alnum, moves, k, id, node);
    Precreates(alnum, moves, k, id, node);
    var o := moves[k..k + 10];
    assert moves[k + 8] == o[8] && moves[k + 9] == o[9];
    Extend(alnum, moves, k + 8);
    Extend(alnum, moves, k + 9);
  }

  /** So does an event of the session. */
  lemma {:induction false} HearsAlone(alnum: char -> bool, s: Server, id: nat, e: Event)
    requires Logged(s) && Possible(s, Hear(id, e))
    ensures
      var t, name, k := Next(alnum, s, Hear(id, e)), s.handlers[id].name, s.handlers[id].session;
      && t.handlers == s.handlers
      && View(t, name) == ServerSession.Heard(View(s, name), |t.log[k].echo.heard| - |s.log[k].echo.heard|)
      && forall n :: n != name ==> View(t, n) == View(s, n)
  {
    hide Logged, E.Step, E.Enabled;
    OwnEntry(s, id);
    E.SessionGoesOn(alnum, s.log[s.handlers[id].session].echo, e);
  }

  /** And its end. */
  lemma {:induction false} ClosesAlone(alnum: char -> bool, moves: seq<Move>, k: nat, id: nat)
    requires k + 2 <= |moves| && moves[k] == Lower(id) && moves[k + 1] == Close(id)
    requires Legal(alnum, moves, k) && Possible(Run(alnum, moves, k), moves[k])
    ensures
      && Legal(alnum, moves, k + 2)
      && var s, t := Run(alnum, moves, k), Run(alnum, moves, k + 2);
      var name, reason := s.handlers[id].name, EndOf(s.log[s.handlers[id].session]).value;
      && t.handlers == s.handlers - {id} && t.free == s.free + 1 && t.seen == s.seen
      && View(t, name) == ServerSession.Closed(View(s, name), reason)
      && forall n :: n != name ==> View(t, n) == View(s, n)
  {
    hide Legal, Run, E.Step, E.Enabled;
    Extend(alnum, moves, k);
    Extend(alnum, moves, k + 1);
  }

  /** Two connections that announce the same node, the first of which the peer then closes. */
  function Overlapping(node: string): seq<Move> {
    Opening(0, node) + Opening(1, node) + [Hear(0, Event(0, Chunk([]))), Lower(0)]
  }

  /** The overlap: the second session is live, and the gauge says 0. */
  lemma {:induction false} OverlapHidesSession(alnum: char -> bool, node: string)
    requires node != ""
    ensures
      var moves, name := Overlapping(node), LabelOf(alnum, NameBytes(node));
      && Legal(alnum, moves, |moves|)
      && var s := Run(alnum, moves, |moves|);
      && Active(s, name) == {1} && Get(s.active, name) == 0
      && !GaugeTrue(s, name)
  {
    hide Legal, Run, LabelOf, Hello, NameBytes, Precreated, Next;
    var moves, name := Overlapping(node), LabelOf(alnum, NameBytes(node));
    Nothing(alnum, moves);
    assert moves[0..10] == Opening(0, node);
    assert moves[10..20] == Opening(1, node);
    OpensAlone(alnum, moves, 0, 0, node);
    OpensAlone(alnum, moves, 10, 1, node);
    assert |moves| == 22 && moves[20] == Hear(0, Event(0, Chunk([]))) && moves[21] == Lower(0);
    var s := Run(alnum, moves, 20);
    PeerCloses(alnum, s, name, s.log[0], s.log[1]);
    Extend(alnum, moves, 20);
    Extend(alnum, moves, 21);
  }

  lemma {:induction false} Nothing(alnum: char -> bool, moves: seq<Move>)
    ensures Legal(alnum, moves, 0) && Run(alnum, moves, 0) == Start()
  {
  }

  lemma {:induction false} PeerCloses(alnum: char -> bool, s: Server, name: string, x: Session, y: Session)
    requires s.handlers == map[0 := Live(name, 0), 1 := Live(name, 1)] && s.log == [x, y] && x.echo.pc.Reading? && x.echo.held == []
    ensures
      var m := Hear(0, Event(0, Chunk([])));
      && Possible(s, m)
      && var t := Next(alnum, s, m);
      && Possible(t, Lower(0))
      && var u := Next(alnum, t, Lower(0));
      Active(u, name) == {1} && Get(u.active, name) == 0
  {
  }
}
