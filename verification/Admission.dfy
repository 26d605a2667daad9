/** Who gets into a server, and that every handler can get out of it again. */
module Admission {
  import opened Transport
  import opened Metrics
  import opened ServerMachine
  import E = Echo
  import Handshake
  import Wire
  import opened Wrappers

  /** In every reachable state a connection is accepted as long as fewer than 128 handlers are
      in flight, and dropped just when 128 are. */
  lemma {:induction false} AcceptsBelowLimit(alnum: char -> bool, moves: seq<Move>, n: nat, id: nat)
    requires Handshake.KnowsLetters(alnum) && n <= |moves| && Legal(alnum, moves, n)
    ensures
      var s := Run(alnum, moves, n);
      && |s.handlers| <= 128
      && (Possible(s, Drop) <==> |s.handlers| == 128)
      && (id !in s.handlers ==> (Possible(s, Accept(id)) <==> |s.handlers| < 128))
      && (Possible(s, Accept(id)) ==>
        var t := Next(alnum, s, Accept(id));
        t.handlers.Keys == s.handlers.Keys + {id} && (forall e :: Possible(t, Greet(id, e)) <==> E.Enabled(E.START, e)))
  {
    hide Legal, Run, E.Enabled;
    LabelsAndPermits(alnum, moves, n);
  }

  /** A name that was announced is admitted if it is known or fewer than 512 are; otherwise
      the connection is over, its permit is back, and nothing else has changed. */
  lemma {:induction false} RegistersBelowCap(alnum: char -> bool, s: Server, id: nat)
    requires id in s.handlers && s.handlers[id].Named?
    ensures
      && Possible(s, Register(id))
      && var t, name := Next(alnum, s, Register(id)), s.handlers[id].name;
      if name in s.seen || |s.seen| < 512
      then id in t.handlers && t.handlers[id].Labelling? && t.handlers[id].name == name && t.seen == s.seen + {name}
      else t == s.(handlers := s.handlers - {id}, free := s.free + 1)
  {
  }

  // ---------------------------------------------------------------------
  // Every handler can finish
  // ---------------------------------------------------------------------

  /** A move of this handler that waits for nothing that its peer does: a wait that times out,
      a write that fails, or a step of its own. */
  predicate Own(m: Move, id: nat) {
    && !m.Accept? && !m.Drop? && !m.Foreign? && m.id == id
    && (m.Greet? || m.Hear? ==> m.e.act.Timer? || m.e.act.WriteFail?)
  }

  /** Such moves lead from s to t. */
  ghost predicate Leaves(alnum: char -> bool, s: Server, id: nat, moves: seq<Move>, t: Server)
    decreases |moves|
  {
    if moves == [] then s == t
    else Possible(s, moves[0]) && Own(moves[0], id) && Leaves(alnum, Next(alnum, s, moves[0]), id, moves[1..], t)
  }

  /** The handler is somewhere it can be. */
  predicate Fit(s: Server, id: nat) {
    && id in s.handlers
    && var h := s.handlers[id];
    && (h.Greeting? ==> h.echo.pc.Greeting?)
    && (h.Labelling? ==> h.done <= SERVER_DISCONNECT_REASONS)
    && (InSession(h) ==> h.session < |s.log| && Proper(s.log[h.session]))
    && (h.Lowered? ==> EndOf(s.log[h.session]).Some?)
  }

  /** How many more moves the handler has before it. */
  function Left(s: Server, id: nat): nat
    requires Fit(s, id)
  {
    match s.handlers[id]
    case Greeting(_) => 1
    case Named(_, _) => 10
    case Labelling(_, _, done) => 5 + |SERVER_DISCONNECT_REASONS - done|
    case Raised(_, _) => 4
    case Live(_, k) => if EndOf(s.log[k]).Some? then 2 else 3
    case Lowered(_, _) => 1
  }

  /** A move of its own that takes the handler nearer to its end. */
  function Onward(s: Server, id: nat): Move
    requires Fit(s, id)
  {
    match s.handlers[id]
    case Greeting(_) => Greet(id, Event(0, Timer))
    case Named(_, _) => Register(id)
    case Labelling(_, _, done) =>
      if RemoteClose !in done then Precreate(id, RemoteClose)
      else if Reason.ConnectionReset !in done then Precreate(id, Reason.ConnectionReset)
      else if Timeout !in done then Precreate(id, Timeout)
      else if LocalError !in done then Precreate(id, LocalError)
      else Raise(id)
    case Raised(_, _) => Count(id)
    case Live(_, k) =>
      if EndOf(s.log[k]).Some? then Lower(id)
      else if s.log[k].echo.pc.Writing? then Hear(id, Event(0, WriteFail(OtherKind)))
      else Hear(id, Event(0, Timer))
    case Lowered(_, _) => Close(id)
  }

  lemma {:induction false} Fits(alnum: char -> bool, s: Server, id: nat)
    requires Bounded(alnum, s) && Logged(s) && id in s.handlers
    ensures Fit(s, id)
  {
    hide Handshake.IsLabel, Proper;
    assert Sound(alnum, s.seen, s.disconnects, s.handlers[id]);
    if InSession(s.handlers[id]) {
      OwnEntry(s, id);
    }
  }

  /** From s to t the handler came nearer to its end, or is gone with its permit back. */
  predicate Nearer(s: Server, t: Server, id: nat)
    requires Fit(s, id)
  {
    && t.handlers - {id} == s.handlers - {id}
    && if id in t.handlers then t.free == s.free && Fit(t, id) && Left(t, id) < Left(s, id) else t.free == s.free + 1
  }

  lemma {:induction false} GoesOn(alnum: char -> bool, s: Server, id: nat)
    requires Fit(s, id)
    ensures
      var m := Onward(s, id);
      Possible(s, m) && Own(m, id) && Nearer(s, Next(alnum, s, m), id)
  {
    hide Nearer, Possible, Next, Own;
    var h := s.handlers[id];
    if h.Labelling? {
      LabelsOn(alnum, s, id);
    } else if InSession(h) || h.Raised? {
      SessionEnds(alnum, s, id);
    } else {
      ArrivesOn(alnum, s, id);
    }
  }

  lemma {:induction false} ArrivesOn(alnum: char -> bool, s: Server, id: nat)
    requires Fit(s, id) && (s.handlers[id].Greeting? || s.handlers[id].Named?)
    ensures
      var m := Onward(s, id);
      Possible(s, m) && Own(m, id) && Nearer(s, Next(alnum, s, m), id)
  {
    assert |SERVER_DISCONNECT_REASONS - {}| == 4;
  }

  lemma {:induction false} LabelsOn(alnum: char -> bool, s: Server, id: nat)
    requires Fit(s, id) && s.handlers[id].Labelling?
    ensures
      var m := Onward(s, id);
      Possible(s, m) && Own(m, id) && Nearer(s, Next(alnum, s, m), id)
  {
    hide Nearer, Possible, Next, Own;
    var m, done := Onward(s, id), s.handlers[id].done;
    if m.Precreate? {
      PrecreatesOn(alnum, s, id, m.reason);
    } else {
      assert done == SERVER_DISCONNECT_REASONS;
      RaisesOn(alnum, s, id);
    }
  }

  lemma {:induction false} PrecreatesOn(alnum: char -> bool, s: Server, id: nat, r: Reason)
    requires Fit(s, id) && s.handlers[id].Labelling? && r in SERVER_DISCONNECT_REASONS - s.handlers[id].done
    ensures
      var m := Precreate(id, r);
      Possible(s, m) && Own(m, id) && Nearer(s, Next(alnum, s, m), id)
  {
    hide Touch;
    Fewer(SERVER_DISCONNECT_REASONS, s.handlers[id].done, r);
  }

  lemma {:induction false} Fewer(all: set<Reason>, done: set<Reason>, r: Reason)
    requires r in all - done
    ensures |all - (done + {r})| < |all - done|
  {
    var rest := all - done;
    assert all - (done + {r}) == rest - {r};
  }

  lemma {:induction false} RaisesOn(alnum: char -> bool, s: Server, id: nat)
    requires Fit(s, id) && s.handlers[id].Labelling? && s.handlers[id].done == SERVER_DISCONNECT_REASONS
    ensures
      var m := Raise(id);
      Possible(s, m) && Own(m, id) && Nearer(s, Next(alnum, s, m), id)
  {
  }

  lemma {:induction false} SessionEnds(alnum: char -> bool, s: Server, id: nat)
    requires Fit(s, id) && (s.handlers[id].Raised? || InSession(s.handlers[id]))
    ensures
      var m := Onward(s, id);
      Possible(s, m) && Own(m, id) && Nearer(s, Next(alnum, s, m), id)
  {
    hide Inc, Wire.Encode, Wire.Decode;
  }

  lemma {:induction false} CanLeave(alnum: char -> bool, s: Server, id: nat) returns (moves: seq<Move>, t: Server)
    requires Handshake.KnowsLetters(alnum) && Bounded(alnum, s) && Logged(s) && Fit(s, id)
    ensures Leaves(alnum, s, id, moves, t) && |moves| <= Left(s, id)
    ensures t.handlers == s.handlers - {id} && t.free == s.free + 1
    decreases Left(s, id)
  {
    hide Logged, Bounded, Possible, Next, Onward, Left, Fit, Own, EndsKnown, Handshake.KnowsLetters;
    GoesOn(alnum, s, id);
    var m := Onward(s, id);
    var u := Next(alnum, s, m);
    LoggedEndsKnown(s, m);
    LoggedStep(alnum, s, m);
    BoundedStep(alnum, s, m);
    var rest;
    if id in u.handlers {
      rest, t := CanLeave(alnum, u, id);
    } else {
      rest, t := [], u;
      assert u.handlers == u.handlers - {id};
      LeftSome(s, id);
    }
    moves := [m] + rest;
    assert moves[1..] == rest;
  }

  lemma {:induction false} LeftSome(s: Server, id: nat)
    requires Fit(s, id)
    ensures 1 <= Left(s, id) <= 10
  {
    hide Proper;
    if s.handlers[id].Labelling? {
      var rest, all := SERVER_DISCONNECT_REASONS - s.handlers[id].done, SERVER_DISCONNECT_REASONS;
      assert |all| == |rest| + |s.handlers[id].done|;
    }
  }

  /** From every reachable state each handler can, in at most ten moves that wait for nothing
      that its peer does, come to its end: it is gone, its permit is back, and the other
      handlers are as they were. */
  lemma {:induction false} HandlerCanFinish(alnum: char -> bool, before: seq<Move>, n: nat, id: nat) returns (moves: seq<Move>, t: Server)
    requires Handshake.KnowsLetters(alnum) && n <= |before| && Legal(alnum, before, n) && id in Run(alnum, before, n).handlers
    ensures
      var s := Run(alnum, before, n);
      && Leaves(alnum, s, id, moves, t) && |moves| <= 10
      && t.handlers == s.handlers - {id} && t.free == s.free + 1
  {
    hide Legal, Run, Logged, Leaves, Bounded, Fit, Left, Conserved, GaugeSound, Handshake.KnowsLetters;
    var s := Run(alnum, before, n);
    EveryRun(alnum, before, n, "");
    Fits(alnum, s, id);
    LeftSome(s, id);
    moves, t := CanLeave(alnum, s, id);
  }
}
