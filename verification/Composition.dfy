/** The sessions inside the two compositions are sessions: whatever `Schedule` and `Limits`
    say of every run of a session holds of every client joined to a server, and of every
    session of every reachable world of the manager. */
module Composition {
  import opened Transport
  import opened Metrics
  import Config
  import E = EndToEnd
  import Handshake
  import Limits
  import M = ManagerMachine
  import S = Session
  import Schedule
  import V = Echo
  import W = ServerMachine

  /** All that `Schedule` says of a session that found its label's metrics at `base`. */
  ghost predicate KeepsSchedule(p: S.Params, base: ClientMetrics, s: S.State) {
    && Schedule.SendsSpaced(p, s)
    && Schedule.TimesOutDuly(p, s)
    && Schedule.CountsRounds(p, base, s)
    && Schedule.InRange(p, s)
  }

  // ---------------------------------------------------------------------
  // A client joined to a server
  // ---------------------------------------------------------------------

  /** The client's own events are a script of a session. */
  lemma {:induction false} ClientRuns(p: S.Params, alnum: char -> bool, clock: int, base: ClientMetrics, before: seq<Event>,
      n: E.Net, moves: seq<E.Move>, last: E.Net) returns (script: seq<Event>)
    requires S.Leads(p, clock, base, before, n.client) && E.Reaches(p, alnum, n, moves, last)
    ensures S.Leads(p, clock, base, script, last.client)
    decreases |moves|
  {
    hide S.Leads, S.Step, S.Enabled;
    if moves == [] {
      script := before;
    } else {
      script := before;
      if moves[0].ClientMove? {
        S.LeadsOn(p, clock, base, before, n.client, moves[0].e);
        script := before + [moves[0].e];
      }
      script := ClientRuns(p, alnum, clock, base, script, E.Next(p, alnum, n, moves[0]), moves[1..], last);
    }
  }

  lemma {:induction false} FreshLeads(p: S.Params, clock: int, base: ClientMetrics)
    ensures S.Leads(p, clock, base, [], S.Fresh(clock, base))
  {
  }

  /** In every joint run the client keeps its schedule, its count of misses, and the time
      that a timeout takes. */
  lemma {:induction false} JointSchedule(p: S.Params, alnum: char -> bool, clock: int, base: ClientMetrics,
      moves: seq<E.Move>, last: E.Net)
    requires E.Reaches(p, alnum, E.Start(clock, base), moves, last)
    ensures KeepsSchedule(p, base, last.client)
  {
    hide E.Reaches, S.Fresh, KeepsSchedule;
    FreshLeads(p, clock, base);
    var script := ClientRuns(p, alnum, clock, base, [], E.Start(clock, base), moves, last);
    RunKeepsSchedule(p, clock, base, script, last.client);
  }

  lemma {:induction false} RunKeepsSchedule(p: S.Params, clock: int, base: ClientMetrics, script: seq<Event>, s: S.State)
    requires S.Leads(p, clock, base, script, s)
    ensures KeepsSchedule(p, base, s)
  {
    hide S.Legal, S.Run, S.Fresh, Schedule.SendsSpaced, Schedule.TimesOutDuly, Schedule.CountsRounds, Schedule.InRange;
    Schedule.SendSchedule(p, clock, base, script, |script|);
    Schedule.TimeoutBound(p, clock, base, script, |script|);
    Schedule.MissAccounting(p, clock, base, script, |script|);
    Schedule.InstantsInRange(p, clock, base, script, |script|);
  }

  /** What a session has written is framed: the handshake, then whole heartbeats. */
  lemma {:induction false} LeadsFramed(p: S.Params, clock: int, base: ClientMetrics, script: seq<Event>, n: nat)
    requires p.hello != [] && n <= |script| && S.Legal(p, S.Fresh(clock, base), script, n)
    ensures E.Framed(p, S.Run(p, S.Fresh(clock, base), script, n))
    decreases n
  {
    hide S.Step, S.Enabled, E.Framed, S.Fresh;
    if n == 0 {
      FreshFramed(p, clock, base);
    } else {
      LeadsFramed(p, clock, base, script, n - 1);
      E.FramedStep(p, S.Run(p, S.Fresh(clock, base), script, n - 1), script[n - 1]);
    }
  }

  lemma {:induction false} FreshFramed(p: S.Params, clock: int, base: ClientMetrics)
    requires p.hello != []
    ensures E.Framed(p, S.Fresh(clock, base))
  {
  }

  // ---------------------------------------------------------------------
  // The sessions of a manager's world
  // ---------------------------------------------------------------------

  /** The phase is not a session, or one that a script leads to from the metrics that the
      label had at the connect. */
  ghost predicate Grown(k: M.Worker) {
    k.phase.Running? ==> exists clock, script :: S.Leads(M.ParamsOf(k), clock, k.phase.base, script, k.phase.s)
  }

  ghost predicate AllGrown(w: M.World) {
    forall id :: id in w.workers ==> Grown(w.workers[id])
  }

  lemma {:induction false} GrownWorker(k: M.Worker, m: M.WorkerMove, now: ClientMetrics)
    requires M.WorkerMay(k, m) && Grown(k)
    ensures var phase := M.NextPhase(k, m, now); phase.Some? ==> Grown(k.(phase := phase.value))
  {
    hide S.Leads, S.Step, S.Enabled, S.Fresh, Limits.SessionParams;
    if m.ConnectOk? {
      FreshLeads(M.ParamsOf(k), m.at, now);
      assert S.Leads(M.ParamsOf(k.(phase := M.Running(now, S.Fresh(m.at, now)))), m.at, now, [], S.Fresh(m.at, now));
    } else if m.SessionMove? {
      var p, base := M.ParamsOf(k), k.phase.base;
      var clock, script :| S.Leads(p, clock, base, script, k.phase.s);
      S.LeadsOn(p, clock, base, script, k.phase.s, m.e);
      var t := S.Step(p, k.phase.s, m.e);
      assert S.Leads(M.ParamsOf(k.(phase := M.Running(base, t))), clock, base, script + [m.e], t);
    }
  }

  /** From w to t no session moved, and a new worker has none. */
  ghost predicate SessionsStay(w: M.World, t: M.World) {
    forall id :: id in t.workers ==>
      if id in w.workers then M.SameSettings(w.workers[id], t.workers[id]) && t.workers[id].phase == w.workers[id].phase
      else t.workers[id].phase.Preparing?
  }

  lemma {:induction false} ManagerStays(w: M.World, m: M.ManagerMove)
    requires M.ManagerMay(w, m) && M.Owned(w)
    ensures SessionsStay(w, M.NextManager(w, m))
  {
    hide M.ReadConfig, M.StartTask, M.StopTask;
    if m.StartOne? {
      StartStays(w, m.name);
    } else if m.StopOne? {
      StopStays(w, m.name);
    } else {
      M.TurnKeeps(w, m);
    }
  }

  lemma {:induction false} StartStays(w: M.World, name: string)
    requires M.ManagerMay(w, M.StartOne(name)) && M.Owned(w)
    ensures SessionsStay(w, M.StartTask(w, name))
  {
    hide M.Owned, Config.PeersByName;
    M.NextIdIsFree(w);
  }

  lemma {:induction false} StopStays(w: M.World, name: string)
    requires M.ManagerMay(w, M.StopOne(name))
    ensures SessionsStay(w, M.StopTask(w, name))
  {
  }

  lemma {:induction false} GrownStays(w: M.World, t: M.World)
    requires AllGrown(w) && SessionsStay(w, t)
    ensures AllGrown(t)
  {
    hide S.Leads, Limits.SessionParams;
    forall id | id in t.workers ensures Grown(t.workers[id]) {
      if id in w.workers {
        assert Grown(w.workers[id]);
        assert M.ParamsOf(t.workers[id]) == M.ParamsOf(w.workers[id]);
      }
    }
  }

  lemma {:induction false} GrownMove(w: M.World, id: nat, m: M.WorkerMove)
    requires id in w.workers && M.WorkerMay(w.workers[id], m) && AllGrown(w)
    ensures AllGrown(M.NextWorker(w, id, m))
  {
    hide Grown, M.WorkerMay, M.NextPhase, M.NextMetrics, M.NextTally;
    GrownWorker(w.workers[id], m, M.MetricsOf(w, M.Label(w.workers[id])));
  }

  lemma {:induction false} GrownStep(w: M.World, m: M.Move)
    requires M.Possible(w, m) && M.Owned(w) && AllGrown(w)
    ensures AllGrown(M.Next(w, m))
  {
    hide M.Owned, AllGrown, M.ManagerMay, M.WorkerMay, M.NextManager, M.NextWorker;
    if m.Work? {
      GrownMove(w, m.id, m.k);
    } else {
      if m.Manage? {
        ManagerStays(w, m.m);
      }
      GrownStays(w, M.Next(w, m));
    }
  }

  lemma {:induction false} EveryWorldGrown(w: M.World, moves: seq<M.Move>, last: M.World, l: PeerLabel)
    requires M.Owned(w) && M.Progress(w) && M.Books(w, l) && AllGrown(w) && M.Reaches(w, moves, last)
    ensures AllGrown(last)
    decreases |moves|
  {
    hide M.Owned, M.Progress, M.Books, M.Possible, M.Next, AllGrown;
    if moves == [] {
    } else {
      M.StepKeeps(w, moves[0], l);
      GrownStep(w, moves[0]);
      EveryWorldGrown(M.Next(w, moves[0]), moves[1..], last, l);
    }
  }

  /** In every reachable world each session keeps its schedule, the time that a timeout
      takes, and its counts, which are what the metrics of its label have gained since it
      connected; and so it does after whatever event it sees next. */
  lemma {:induction false} WorldSchedule(c: Config.Config, moves: seq<M.Move>, last: M.World, id: nat, e: Event)
    requires M.Reaches(M.Start(c), moves, last) && id in last.workers && last.workers[id].phase.Running?
    ensures
      var k := last.workers[id];
      var p, base, s := M.ParamsOf(k), k.phase.base, k.phase.s;
      && M.MetricsOf(last, M.Label(k)) == s.metrics
      && KeepsSchedule(p, base, s)
      && (S.Enabled(p, s, e) ==> KeepsSchedule(p, base, S.Step(p, s, e)))
  {
    hide M.Reaches, M.Owned, M.Progress, S.Leads, S.Step, S.Enabled, KeepsSchedule;
    var k := last.workers[id];
    var p, base, s := M.ParamsOf(k), k.phase.base, k.phase.s;
    M.StartHolds(c, M.Label(k));
    M.EveryRun(M.Start(c), moves, last, M.Label(k));
    EveryWorldGrown(M.Start(c), moves, last, M.Label(k));
    assert Grown(k);
    var clock, script :| S.Leads(p, clock, base, script, s);
    RunKeepsSchedule(p, clock, base, script, s);
    if S.Enabled(p, s, e) {
      S.LeadsOn(p, clock, base, script, s, e);
      RunKeepsSchedule(p, clock, base, script + [e], S.Step(p, s, e));
    }
  }

  /** If every config sent is valid, then in every reachable world every session's instants
      are at most a day ahead and its miss counter fits. */
  lemma {:induction false} WorldStaysInRange(c: Config.Config, moves: seq<M.Move>, last: M.World, parses: string -> bool, id: nat)
    requires M.Reaches(M.Start(c), moves, last) && id in last.workers && last.workers[id].phase.Running?
    requires forall v :: 0 <= v < |last.sent| ==> Config.Valid(last.sent[v], parses)
    requires last.workers[id].client.maxMisses < Limits.U32_LIMIT
    ensures
      var s := last.workers[id].phase.s;
      && s.nextSend <= s.clock + Config.MAX_SECONDS * Limits.TICKS_PER_SECOND
      && (s.pc.Awaiting? ==> s.pc.deadline <= s.clock + Config.MAX_SECONDS * Limits.TICKS_PER_SECOND)
      && 0 <= s.misses < Limits.I64_LIMIT
  {
    hide M.Reaches, M.Owned, M.Progress, M.Books, S.Leads, M.From, Config.Valid, Handshake.Hello;
    M.StartHolds(c, PeerLabel("", ""));
    EveryWorldGrown(M.Start(c), moves, last, PeerLabel("", ""));
    M.LiveSettings(c, moves, last, parses, id);
    var k := last.workers[id];
    assert Grown(k);
    var clock, script :| S.Leads(M.ParamsOf(k), clock, k.phase.base, script, k.phase.s);
    RunKeepsSchedule(M.ParamsOf(k), clock, k.phase.base, script, k.phase.s);
  }

  // ---------------------------------------------------------------------
  // The handlers of a server
  // ---------------------------------------------------------------------

  /** The connection inside the handler, until it is in the log, is one that a script leads to. */
  ghost predicate HandlerReached(alnum: char -> bool, h: W.Handler) {
    && (h.Greeting? ==> h.echo.pc.Greeting? && V.Reached(alnum, h.echo))
    && (h.Named? || h.Labelling? || h.Raised? ==> V.Reached(alnum, V.Accepted(h.hello, h.name)))
  }

  ghost predicate LogReached(alnum: char -> bool, log: seq<W.Session>) {
    forall k :: 0 <= k < |log| ==> V.Reached(alnum, log[k].echo)
  }

  ghost predicate ServerReached(alnum: char -> bool, s: W.Server) {
    && (forall id :: id in s.handlers ==> HandlerReached(alnum, s.handlers[id]))
    && LogReached(alnum, s.log)
  }

  lemma {:induction false} ServerReachedStep(alnum: char -> bool, s: W.Server, m: W.Move)
    requires W.Possible(s, m) && ServerReached(alnum, s)
    ensures ServerReached(alnum, W.Next(alnum, s, m))
  {
    hide W.Next, HandlerReached, V.Reached, V.Step, V.Enabled;
    var t := W.Next(alnum, s, m);
    forall id | id in t.handlers ensures HandlerReached(alnum, t.handlers[id]) {
      if m.Drop? || m.Foreign? || id != m.id {
        W.OthersStay(alnum, s, m, id);
      } else {
        MoverReached(alnum, s, m);
      }
    }
    LogReachedStep(alnum, s, m);
  }

  lemma {:induction false} MoverReached(alnum: char -> bool, s: W.Server, m: W.Move)
    requires W.Possible(s, m) && !m.Drop? && !m.Foreign?
    requires m.id in s.handlers ==> HandlerReached(alnum, s.handlers[m.id])
    ensures
      var t := W.Next(alnum, s, m);
      m.id in t.handlers ==> HandlerReached(alnum, t.handlers[m.id])
  {
    hide V.Reached, V.Step, V.Enabled, Handshake.LabelOf;
    if m.Accept? {
      V.StartReached(alnum);
    } else if m.Greet? {
      V.ReachedOn(alnum, s.handlers[m.id].echo, m.e);
      V.GreetingEnds(alnum, s.handlers[m.id].echo, m.e);
    }
  }

  lemma {:induction false} LogReachedStep(alnum: char -> bool, s: W.Server, m: W.Move)
    requires W.Possible(s, m) && ServerReached(alnum, s)
    ensures LogReached(alnum, W.Next(alnum, s, m).log)
  {
    hide V.Reached, V.Step, V.Enabled;
    if m.Count? {
      assert HandlerReached(alnum, s.handlers[m.id]);
    } else if m.Hear? {
      V.ReachedOn(alnum, s.log[s.handlers[m.id].session].echo, m.e);
    } else if !m.Close? {
      W.LogStays(alnum, s, m);
    }
  }

  lemma {:induction false} EveryServerReached(alnum: char -> bool, moves: seq<W.Move>, n: nat)
    requires n <= |moves| && W.Legal(alnum, moves, n)
    ensures ServerReached(alnum, W.Run(alnum, moves, n))
    decreases n
  {
    hide W.Next, W.Possible, ServerReached, W.Start;
    if n == 0 {
      EmptyServer(alnum);
    } else {
      EveryServerReached(alnum, moves, n - 1);
      ServerReachedStep(alnum, W.Run(alnum, moves, n - 1), moves[n - 1]);
    }
  }

  lemma {:induction false} EmptyServer(alnum: char -> bool)
    ensures ServerReached(alnum, W.Start())
  {
  }

  /** In every interleaving of all its handlers, each session that a server has counted
      echoes a prefix of what it received and heard exactly its packets; and if it has
      ended, that was by an event whose cause, as `Echo.ReasonTellsCause` has it, is the
      reason it is counted under. */
  lemma {:induction false} ServerSessions(alnum: char -> bool, moves: seq<W.Move>, n: nat, k: nat)
    requires Handshake.KnowsLetters(alnum) && n <= |moves| && W.Legal(alnum, moves, n)
    requires k < |W.Run(alnum, moves, n).log|
    ensures
      var x := W.Run(alnum, moves, n).log[k];
      && V.Reached(alnum, x.echo) && x.name == x.echo.peer
      && x.echo.wrote <= x.echo.got && x.echo.heard == Wire.CutPackets(x.echo.got)
      && (x.closed ==> W.EndOf(x).Some?)
      && (W.EndOf(x).Some? ==> exists u, e :: V.EndedBy(alnum, u, e, x.echo))
  {
    hide W.Next, W.Possible, W.Bounded, W.Conserved, W.GaugeSound, V.Step, V.Enabled, Handshake.KnowsLetters;
    EveryServerReached(alnum, moves, n);
    W.EveryRun(alnum, moves, n, "");
    var x := W.Run(alnum, moves, n).log[k];
    assert W.Proper(x);
    var script :| V.Leads(alnum, script, x.echo);
    V.EchoIsPrefix(alnum, script, |script|);
    if W.EndOf(x).Some? {
      V.OverHasCause(alnum, x.echo);
    }
  }
}
