/** What can always still happen: a peer task that is not in a session can connect again,
    and the manager can apply a config it has not seen, and can leave when it is due to. */
module Headway {
  import opened Wrappers
  import opened ManagerMachine
  import opened Stopping
  import Composition
  import Config
  import EndToEnd
  import Handshake
  import Limits
  import Metrics
  import opened Reconcile
  import S = Session
  import Transport

  // ---------------------------------------------------------------------
  // Connecting again
  // ---------------------------------------------------------------------

  /** These moves of one task. */
  function MovesOf(id: nat, ms: seq<WorkerMove>): seq<Move> {
    seq(|ms|, i requires 0 <= i < |ms| => Work(id, ms[i]))
  }

  /** The task is there, and is running a session for label l that has just connected. */
  ghost predicate JustConnected(w: World, id: nat, l: Metrics.PeerLabel, at: int) {
    && id in w.workers && Label(w.workers[id]) == l && w.workers[id].phase.Running?
    && w.workers[id].phase.s == S.Fresh(at, MetricsOf(w, l))
  }

  lemma {:induction false} OneMove(w: World, m: Move)
    requires Possible(w, m)
    ensures Reaches(w, [m], Next(w, m))
  {
    hide Possible, Next;
    assert [m][1..] == [];
  }

  lemma {:induction false} TwoMoves(w: World, m: Move, n: Move)
    requires Possible(w, m) && Possible(Next(w, m), n)
    ensures Reaches(w, [m, n], Next(Next(w, m), n))
  {
    hide Possible, Next;
    assert [m, n][1..] == [n];
    OneMove(Next(w, m), n);
  }

  /** A task that is on to connect can connect, and can fail to. */
  lemma {:induction false} Connects(w: World, id: nat, ok: bool)
    requires id in w.workers && w.workers[id].phase.Connecting?
    ensures
      var l, at := Label(w.workers[id]), w.workers[id].phase.since;
      var m := Work(id, if ok then ConnectOk(at) else ConnectFail(at));
      && Possible(w, m)
      && var t := Next(w, m);
      && TallyOf(t, l).connects == TallyOf(w, l).connects + 1
      && (if ok then JustConnected(t, id, l, at) else id in t.workers && t.workers[id].phase.Backoff?)
  {
  }

  /** A task that prepares or backs off can go on to connect. */
  lemma {:induction false} GoesOn(w: World, id: nat)
    requires id in w.workers && (w.workers[id].phase.Preparing? || w.workers[id].phase.Backoff?)
    ensures
      var k, l := w.workers[id], Label(w.workers[id]);
      var m := Work(id, if k.phase.Preparing? then Prepare(0) else Retry(k.phase.until));
      && Possible(w, m)
      && var t := Next(w, m);
      && id in t.workers && Label(t.workers[id]) == l && t.workers[id].phase.Connecting?
      && TallyOf(t, l) == TallyOf(w, l)
  {
  }

  /** From every world, a task that runs no session is at most two of its own moves from one
      more finished connect, of either outcome; a successful one starts a new session, from
      the metrics as they are. */
  lemma {:induction false} TaskConnectsAgain(w: World, id: nat, ok: bool)
    returns (ms: seq<WorkerMove>, t: World, at: int)
    requires id in w.workers && !w.workers[id].phase.Running?
    ensures 1 <= |ms| <= 2 && Reaches(w, MovesOf(id, ms), t)
    ensures
      var l := Label(w.workers[id]);
      && TallyOf(t, l).connects == TallyOf(w, l).connects + 1
      && (if ok then JustConnected(t, id, l, at) else id in t.workers && t.workers[id].phase.Backoff?)
  {
    hide Possible, Next, Reaches, TallyOf, JustConnected;
    if w.workers[id].phase.Connecting? {
      Connects(w, id, ok);
      at := w.workers[id].phase.since;
      var m := if ok then ConnectOk(at) else ConnectFail(at);
      ms, t := [m], Next(w, Work(id, m));
      OneMove(w, Work(id, m));
      assert MovesOf(id, [m]) == [Work(id, m)];
    } else {
      GoesOn(w, id);
      var k := w.workers[id];
      var n := if k.phase.Preparing? then Prepare(0) else Retry(k.phase.until);
      var u := Next(w, Work(id, n));
      Connects(u, id, ok);
      at := u.workers[id].phase.since;
      var m := if ok then ConnectOk(at) else ConnectFail(at);
      ms, t := [n, m], Next(u, Work(id, m));
      TwoMoves(w, Work(id, n), Work(id, m));
      assert MovesOf(id, [n, m]) == [Work(id, n), Work(id, m)];
    }
  }

  /** After a failed connect, a failed handshake or a session that was not cancelled, a task
      stays, and all it can do is to try again, once `reconnect_delay` seconds are over, or
      to see its cancellation. */
  lemma {:induction false} WaitsOutDelay(w: World, id: nat, m: WorkerMove, at: int)
    requires id in w.workers && WorkerMay(w.workers[id], m)
    requires
      || m == ConnectFail(at)
      || (m.SessionMove? && m.e.at == at && !m.e.act.Cancel? && S.Step(ParamsOf(w.workers[id]), w.workers[id].phase.s, m.e).pc.Done?)
    ensures
      var t := Next(w, Work(id, m));
      && id in t.workers
      && forall n :: Possible(t, Work(id, n)) <==>
        || (n.Retry? && n.at >= at + w.workers[id].client.reconnectDelay * 1_000_000_000)
        || (n.Quit? && w.workers[id].cancelled)
  {
    hide S.Enabled, S.Step, S.Recorded;
    if m.SessionMove? {
      var p, s := ParamsOf(w.workers[id]), w.workers[id].phase.s;
      NotCancelled(p, s, m.e);
    }
  }

  lemma {:induction false} NotCancelled(p: S.Params, s: S.State, e: Transport.Event)
    requires S.Enabled(p, s, e)
    ensures S.Step(p, s, e).clock == e.at
    ensures S.Step(p, s, e).pc == S.Done(S.Cancelled) ==> e.act.Cancel?
  {
    S.WhatIsRecorded(p, s, e);
    S.StepEffect(p, s, e);
  }

  /** A task sees any event that its session may see, a cancellation only once cancelled. */
  lemma {:induction false} SessionsRunFreely(w: World, id: nat, e: Transport.Event)
    requires id in w.workers && w.workers[id].phase.Running?
    ensures Possible(w, Work(id, SessionMove(e))) <==>
      S.Enabled(ParamsOf(w.workers[id]), w.workers[id].phase.s, e) && (e.act.Cancel? ==> w.workers[id].cancelled)
  {
    hide S.Enabled;
  }

  // ---------------------------------------------------------------------
  // The manager goes on
  // ---------------------------------------------------------------------

  /** What holds of every reachable world, for every label. */
  ghost predicate Sane(w: World) {
    Owned(w) && Progress(w) && Composition.AllGrown(w) && forall l :: Books(w, l)
  }

  lemma {:induction false} SaneStep(w: World, m: Move)
    requires Possible(w, m) && Sane(w)
    ensures Sane(Next(w, m))
  {
    hide Possible, Next, Owned, Progress, Books, Composition.AllGrown;
    Composition.GrownStep(w, m);
    forall l ensures Owned(Next(w, m)) && Progress(Next(w, m)) && Books(Next(w, m), l) {
      StepKeeps(w, m, l);
    }
    StepKeeps(w, m, Metrics.PeerLabel("", ""));
  }

  lemma {:induction false} EverySane(w: World, moves: seq<Move>, last: World)
    requires Sane(w) && Reaches(w, moves, last)
    ensures Sane(last)
    decreases |moves|
  {
    hide Possible, Next, Sane;
    if moves == [] {
    } else {
      SaneStep(w, moves[0]);
      EverySane(Next(w, moves[0]), moves[1..], last);
    }
  }

  lemma {:induction false} ReachableIsSane(c: Config.Config, moves: seq<Move>, last: World)
    requires Reaches(Start(c), moves, last)
    ensures Sane(last)
  {
    hide Reaches, Owned, Progress, Books;
    forall l ensures Owned(Start(c)) && Progress(Start(c)) && Books(Start(c), l) {
      StartHolds(c, l);
    }
    StartHolds(c, Metrics.PeerLabel("", ""));
    EverySane(Start(c), moves, last);
  }

  /** A move of the manager, or of a task that it awaits: of that one, unless it is sending
      the handshake, only a move that waits for neither network nor timer. */
  predicate Own(w: World, m: Move) {
    || m.Manage?
    || (m.Work? && w.stopping.Some? && m.id == w.stopping.value.id && m.id in w.workers
      && (Local(m.k) || SendingHello(w.workers[m.id].phase)))
  }

  /** Such moves lead from w to t. */
  ghost predicate Proceeds(w: World, moves: seq<Move>, t: World)
    decreases |moves|
  {
    if moves == [] then w == t
    else Possible(w, moves[0]) && Own(w, moves[0]) && Proceeds(Next(w, moves[0]), moves[1..], t)
  }

  lemma {:induction false} ProceedsReaches(w: World, moves: seq<Move>, t: World)
    requires Proceeds(w, moves, t)
    ensures Reaches(w, moves, t)
    decreases |moves|
  {
    hide Possible, Next, Own;
    if moves == [] {
    } else {
      ProceedsReaches(Next(w, moves[0]), moves[1..], t);
    }
  }

  /** One more move in front. */
  lemma {:induction false} First(w: World, m: Move, moves: seq<Move>, t: World)
    requires Possible(w, m) && Own(w, m) && Proceeds(Next(w, m), moves, t)
    ensures Proceeds(w, [m] + moves, t)
  {
    hide Possible, Next, Own;
    assert ([m] + moves)[1..] == moves;
  }

  lemma {:induction false} Then(w: World, a: seq<Move>, u: World, b: seq<Move>, t: World)
    requires Proceeds(w, a, u) && Proceeds(u, b, t)
    ensures Proceeds(w, a + b, t)
    decreases |a|
  {
    hide Possible, Next, Own;
    if a == [] {
      assert a + b == b;
    } else {
      Then(Next(w, a[0]), a[1..], u, b, t);
      First(w, a[0], a[1..] + b, t);
      assert [a[0]] + (a[1..] + b) == a + b;
    }
  }

  lemma {:induction false} StaysSane(w: World, moves: seq<Move>, t: World)
    requires Sane(w) && Proceeds(w, moves, t)
    ensures Sane(t)
  {
    hide Sane, Proceeds, Reaches;
    ProceedsReaches(w, moves, t);
    EverySane(w, moves, t);
  }

  /** From w to t no config, hang-up or shutdown came. */
  predicate Undisturbed(w: World, t: World) {
    t.sent == w.sent && t.closed == w.closed && t.shutdown == w.shutdown
  }

  /** The manager stands where it stood, but for what it awaits. */
  predicate StandsStill(w: World, t: World) {
    && Undisturbed(w, t) && t.pc == w.pc && t.seen == w.seen && t.config == w.config
    && t.base == w.base && t.tasks == w.tasks && t.nextId == w.nextId
  }

  /** The moves with which the awaited task ends, and then the end of the wait. */
  lemma {:induction false} AwaitsEnd(w: World, id: nat, ms: seq<WorkerMove>) returns (moves: seq<Move>, t: World)
    requires w.stopping.Some? && w.stopping.value.id == id && Finishes(w, id, ms)
    ensures Proceeds(w, moves, t) && StandsStill(w, t) && t.stopping.None?
    decreases |ms|
  {
    hide WorkerMay, NextPhase, NextMetrics, NextTally, Local;
    if ms == [] {
      t := Next(w, Manage(Awaited));
      moves := [Manage(Awaited)] + [];
      First(w, Manage(Awaited), [], t);
    } else {
      var m := Work(id, ms[0]);
      moves, t := AwaitsEnd(Next(w, m), id, ms[1..]);
      First(w, m, moves, t);
      moves := [m] + moves;
    }
  }

  /** A handshake that is being sent is not all sent, so its write can fail. */
  lemma {:induction false} HelloCanFail(w: World, id: nat)
    requires IsAwaited(w, id) && SendingHello(w.workers[id].phase) && Composition.Grown(w.workers[id])
    ensures
      var m := Work(id, SessionMove(Transport.Event(w.workers[id].phase.s.clock, Transport.WriteFail(Transport.OtherKind))));
      && Possible(w, m) && Own(w, m)
      && var t := Next(w, m);
      && IsAwaited(t, id) && t.workers[id].phase.Backoff? && StandsStill(w, t) && t.stopping == w.stopping
  {
    hide S.Leads, S.Fresh, Limits.SessionParams, S.Step, S.Enabled;
    var k := w.workers[id];
    var p := ParamsOf(k);
    var clock, script :| S.Leads(p, clock, k.phase.base, script, k.phase.s);
    LeadsLeavesSome(k, clock, script);
    var e := Transport.Event(k.phase.s.clock, Transport.WriteFail(Transport.OtherKind));
    HelloFails(p, k.phase.s, e);
    Moves(w, id, SessionMove(e));
  }

  lemma {:induction false} HelloFails(p: S.Params, s: S.State, e: Transport.Event)
    requires s.pc.Greeting? && s.pc.written < |p.hello| && e.act.WriteFail? && e.at >= s.clock
    ensures S.Enabled(p, s, e) && S.Step(p, s, e).pc == S.Done(S.HandshakeFailed)
  {
  }

  lemma {:induction false} LeadsLeavesSome(k: Worker, clock: int, script: seq<Transport.Event>)
    requires SendingHello(k.phase) && S.Leads(ParamsOf(k), clock, k.phase.base, script, k.phase.s)
    ensures k.phase.s.pc.written < |ParamsOf(k).hello|
  {
    hide S.Fresh, S.Legal, S.Run;
    Composition.LeadsFramed(ParamsOf(k), clock, k.phase.base, script, |script|);
  }

  /** Whatever the manager awaits, its wait can come to an end. */
  lemma {:induction false} WaitEnds(w: World) returns (moves: seq<Move>, t: World)
    requires Sane(w) && w.stopping.Some?
    ensures Proceeds(w, moves, t) && StandsStill(w, t) && t.stopping.None? && Sane(t)
  {
    hide Sane, Proceeds, Possible, Next, Finishes, Own;
    var id := w.stopping.value.id;
    if id !in w.workers {
      assert Finishes(w, id, []) by {
        GoneIsFinished(w, id);
      }
      moves, t := AwaitsEnd(w, id, []);
    } else {
      AwaitedInSane(w);
      if SendingHello(w.workers[id].phase) {
        var m := Work(id, SessionMove(Transport.Event(w.workers[id].phase.s.clock, Transport.WriteFail(Transport.OtherKind))));
        HelloCanFail(w, id);
        var u := Next(w, m);
        EndsAtOnce(u, id);
        var ms :| |ms| <= 1 && Finishes(u, id, ms);
        moves, t := AwaitsEnd(u, id, ms);
        First(w, m, moves, t);
        moves := [m] + moves;
      } else {
        EndsSoon(w, id);
        var ms :| |ms| <= 3 && Finishes(w, id, ms);
        moves, t := AwaitsEnd(w, id, ms);
      }
    }
    StaysSane(w, moves, t);
  }

  lemma {:induction false} GoneIsFinished(w: World, id: nat)
    requires w.stopping.Some? && w.stopping.value.id == id && id !in w.workers
    ensures Finishes(w, id, [])
  {
  }

  lemma {:induction false} AwaitedInSane(w: World)
    requires Sane(w) && w.stopping.Some? && w.stopping.value.id in w.workers
    ensures
      var k := w.workers[w.stopping.value.id];
      IsAwaited(w, w.stopping.value.id) && Composition.Grown(k) && (k.phase.Running? ==> !k.phase.s.pc.Done?)
  {
    hide Progress, Composition.Grown;
    assert Books(w, Label(w.workers[w.stopping.value.id]));
  }

  /** One move of the manager that is possible. */
  lemma {:induction false} Manages(w: World, m: ManagerMove)
    requires ManagerMay(w, m) && Sane(w)
    ensures Sane(NextManager(w, m)) && Proceeds(w, [Manage(m)], NextManager(w, m)) && Undisturbed(w, NextManager(w, m))
  {
    hide Sane;
    SaneStep(w, Manage(m));
    First(w, Manage(m), [], NextManager(w, m));
    assert [Manage(m)] + [] == [Manage(m)];
  }

  /** The rest of the stops of a pass. */
  lemma {:induction false} StopsFinish(w: World) returns (moves: seq<Move>, t: World)
    requires Sane(w) && w.pc.Removing?
    ensures Proceeds(w, moves, t) && Sane(t) && Undisturbed(w, t) && t.pc.Spawning? && t.seen == w.seen
    decreases |w.pc.todo|, w.stopping.Some?
  {
    hide Sane, Proceeds, ManagerMay, NextManager;
    var u;
    if w.stopping.Some? {
      moves, u := WaitEnds(w);
      var rest;
      rest, t := StopsFinish(u);
      Then(w, moves, u, rest, t);
      moves := moves + rest;
    } else if w.pc.todo == {} {
      RemovedNext(w);
      Manages(w, Removed);
      moves, t := [Manage(Removed)], NextManager(w, Removed);
    } else {
      var name :| name in w.pc.todo;
      StopNext(w, name);
      Manages(w, StopOne(name));
      u := NextManager(w, StopOne(name));
      var rest;
      rest, t := StopsFinish(u);
      Then(w, [Manage(StopOne(name))], u, rest, t);
      moves := [Manage(StopOne(name))] + rest;
    }
  }

  lemma {:induction false} RemovedNext(w: World)
    requires w.pc.Removing? && w.pc.todo == {} && w.stopping.None?
    ensures ManagerMay(w, Removed)
    ensures var t := NextManager(w, Removed); t.pc.Spawning? && t.seen == w.seen
  {
    hide Wanted;
  }

  lemma {:induction false} StopNext(w: World, name: string)
    requires Sane(w) && w.pc.Removing? && name in w.pc.todo && w.stopping.None?
    ensures ManagerMay(w, StopOne(name))
    ensures var t := NextManager(w, StopOne(name)); t.pc.Removing? && |t.pc.todo| < |w.pc.todo| && t.seen == w.seen
  {
    hide Owned, Books, Composition.AllGrown, Wanted;
    IsStale(w.tasks, Wanted(w.config), name);
    assert |w.pc.todo - {name}| < |w.pc.todo|;
  }

  /** The rest of the starts of a pass. */
  lemma {:induction false} StartsFinish(w: World) returns (moves: seq<Move>, t: World)
    requires Sane(w) && w.pc.Spawning?
    ensures Proceeds(w, moves, t) && Sane(t) && Undisturbed(w, t) && t.pc.Waiting? && t.seen == w.seen
    decreases |w.pc.todo|
  {
    hide Sane, Proceeds, ManagerMay, NextManager;
    if w.pc.todo == {} {
      SettleNext(w);
      Manages(w, Settle);
      moves, t := [Manage(Settle)], NextManager(w, Settle);
    } else {
      var name :| name in w.pc.todo;
      StartNext(w, name);
      Manages(w, StartOne(name));
      var u := NextManager(w, StartOne(name));
      var rest;
      rest, t := StartsFinish(u);
      Then(w, [Manage(StartOne(name))], u, rest, t);
      moves := [Manage(StartOne(name))] + rest;
    }
  }

  lemma {:induction false} SettleNext(w: World)
    requires w.pc.Spawning? && w.pc.todo == {}
    ensures ManagerMay(w, Settle)
    ensures var t := NextManager(w, Settle); t.pc.Waiting? && t.seen == w.seen
  {
  }

  lemma {:induction false} StartNext(w: World, name: string)
    requires Sane(w) && w.pc.Spawning? && name in w.pc.todo
    ensures ManagerMay(w, StartOne(name))
    ensures var t := NextManager(w, StartOne(name)); t.pc.Spawning? && |t.pc.todo| < |w.pc.todo| && t.seen == w.seen
  {
    hide Owned, Books, Composition.AllGrown, Wanted, Keeps, Renews, OnlyWanted;
    assert |w.pc.todo - {name}| < |w.pc.todo|;
  }

  /** The rest of a drain: of a config without a [client] section, or on the way out. */
  lemma {:induction false} DrainFinishes(w: World) returns (moves: seq<Move>, t: World)
    requires Sane(w) && w.pc.Draining?
    ensures Proceeds(w, moves, t) && Sane(t) && Undisturbed(w, t) && t.seen == w.seen
    ensures if w.pc.exit then t.pc.Exited? else t.pc.Waiting?
    decreases |w.pc.queue|, w.stopping.Some?
  {
    hide Sane, Proceeds, ManagerMay, NextManager;
    var u, rest;
    if w.stopping.Some? {
      moves, u := WaitEnds(w);
      rest, t := DrainFinishes(u);
      Then(w, moves, u, rest, t);
      moves := moves + rest;
    } else if w.pc.queue == map[] {
      DrainedNext(w);
      Manages(w, Drained);
      moves, t := [Manage(Drained)], NextManager(w, Drained);
    } else {
      var name :| name in w.pc.queue;
      DrainNext(w, name);
      Manages(w, StopOne(name));
      u := NextManager(w, StopOne(name));
      rest, t := DrainFinishes(u);
      Then(w, [Manage(StopOne(name))], u, rest, t);
      moves := [Manage(StopOne(name))] + rest;
    }
  }

  lemma {:induction false} DrainedNext(w: World)
    requires w.pc.Draining? && w.pc.queue == map[] && w.stopping.None?
    ensures ManagerMay(w, Drained)
    ensures var t := NextManager(w, Drained); t.seen == w.seen && (if w.pc.exit then t.pc.Exited? else t.pc.Waiting?)
  {
  }

  lemma {:induction false} DrainNext(w: World, name: string)
    requires w.pc.Draining? && name in w.pc.queue && w.stopping.None?
    ensures ManagerMay(w, StopOne(name))
    ensures
      var t := NextManager(w, StopOne(name));
      t.pc.Draining? && t.pc.exit == w.pc.exit && |t.pc.queue| < |w.pc.queue| && t.seen == w.seen
  {
    assert (w.pc.queue - {name}).Keys == w.pc.queue.Keys - {name};
    assert |w.pc.queue.Keys - {name}| < |w.pc.queue.Keys|;
  }

  /** From anywhere but on its way out, the manager can come to wait; and having read a
      config, only with it applied. */
  lemma {:induction false} PassFinishes(w: World) returns (moves: seq<Move>, t: World)
    requires Sane(w) && !w.pc.Exited? && !(w.pc.Draining? && w.pc.exit)
    ensures Proceeds(w, moves, t) && Sane(t) && Undisturbed(w, t) && t.pc.Waiting?
    ensures if w.pc.Reading? then t.seen + 1 == |t.sent| else t.seen == w.seen
    ensures w.pc.Waiting? ==> t == w
    decreases w.pc.Reading?, w.pc.Removing?
  {
    hide Sane, Proceeds, ManagerMay, NextManager;
    var u, rest;
    if w.pc.Waiting? {
      moves, t := [], w;
      assert Proceeds(w, [], w) by {
        Idles(w);
      }
    } else if w.pc.Spawning? {
      moves, t := StartsFinish(w);
    } else if w.pc.Draining? {
      moves, t := DrainFinishes(w);
    } else {
      if w.pc.Removing? {
        moves, u := StopsFinish(w);
      } else {
        ReadNext(w);
        Manages(w, Read);
        moves, u := [Manage(Read)], NextManager(w, Read);
      }
      rest, t := PassFinishes(u);
      Then(w, moves, u, rest, t);
      moves := moves + rest;
    }
  }

  lemma {:induction false} Idles(w: World)
    ensures Proceeds(w, [], w)
  {
  }

  lemma {:induction false} ReadNext(w: World)
    requires Sane(w) && w.pc.Reading?
    ensures ManagerMay(w, Read)
    ensures
      var t := NextManager(w, Read);
      t.seen + 1 == |w.sent| && (t.pc.Removing? || (t.pc.Draining? && !t.pc.exit))
  {
    hide Owned, Books, Composition.AllGrown, Wanted, Stale;
  }

  lemma {:induction false} WakeNext(w: World)
    requires w.pc.Waiting? && w.seen + 1 < |w.sent|
    ensures ManagerMay(w, Wake) && NextManager(w, Wake).pc.Reading?
  {
  }

  lemma {:induction false} ExitNext(w: World)
    requires w.pc.Waiting? && (w.shutdown || (w.closed && w.seen + 1 == |w.sent|))
    ensures ManagerMay(w, Exit)
    ensures var t := NextManager(w, Exit); t.pc.Draining? && t.pc.exit && t.seen == w.seen
  {
  }

  lemma {:induction false} SeenIsSent(w: World)
    requires Sane(w)
    ensures w.seen < |w.sent|
  {
    hide Owned, Books, Composition.AllGrown;
  }

  lemma {:induction false} Applies(w: World) returns (moves: seq<Move>, t: World)
    requires Sane(w) && !w.pc.Exited? && !(w.pc.Draining? && w.pc.exit)
    ensures Proceeds(w, moves, t) && Sane(t) && Undisturbed(w, t) && t.pc.Waiting? && t.seen + 1 == |t.sent|
  {
    hide Sane, Proceeds, ManagerMay, NextManager;
    var u, rest;
    moves, u := PassFinishes(w);
    SeenIsSent(u);
    if u.seen + 1 == |u.sent| {
      t := u;
    } else {
      WakeNext(u);
      Manages(u, Wake);
      var v := NextManager(u, Wake);
      Then(w, moves, u, [Manage(Wake)], v);
      rest, t := PassFinishes(v);
      Then(w, moves + [Manage(Wake)], v, rest, t);
      moves := moves + [Manage(Wake)] + rest;
    }
  }

  /** From every reachable world in which the manager is not leaving, whatever it is at and
      whatever was sent, it can come to wait with the last config sent read and applied, by
      its own moves and those with which the tasks that it stops end. */
  lemma {:induction false} ReloadIsApplied(c: Config.Config, before: seq<Move>, w: World) returns (moves: seq<Move>, t: World)
    requires Reaches(Start(c), before, w) && !w.pc.Exited? && !(w.pc.Draining? && w.pc.exit)
    ensures Proceeds(w, moves, t) && t.sent == w.sent
    ensures t.pc.Waiting? && t.seen + 1 == |t.sent|
    ensures Roster(t.tasks) == Wanted(w.sent[|w.sent| - 1])
  {
    hide Reaches, Sane, Proceeds, Roster, Wanted;
    ReachableIsSane(c, before, w);
    moves, t := Applies(w);
    WaitingIsReconciled(t);
  }

  lemma {:induction false} WaitingIsReconciled(w: World)
    requires Sane(w) && w.pc.Waiting? && w.seen + 1 == |w.sent|
    ensures Roster(w.tasks) == Wanted(w.sent[|w.sent| - 1])
  {
    hide Owned, Books, Composition.AllGrown;
  }

  /** From every reachable world that is shut down or hung up, the manager can leave in the
      same way. If it is due to leave as it waits, it reads no further config first. */
  lemma {:induction false} ManagerCanLeave(c: Config.Config, before: seq<Move>, w: World) returns (moves: seq<Move>, t: World)
    requires Reaches(Start(c), before, w) && (w.shutdown || w.closed)
    ensures Proceeds(w, moves, t) && t.sent == w.sent
    ensures t.pc.Exited? && t.workers == map[]
    ensures w.pc.Waiting? && (w.shutdown || w.seen + 1 == |w.sent|) ==> t.seen == w.seen
  {
    hide Reaches, Sane, Proceeds, ManagerMay, NextManager;
    ReachableIsSane(c, before, w);
    var u, rest;
    if w.pc.Exited? {
      Idles(w);
      moves, t := [], w;
    } else if w.pc.Draining? && w.pc.exit {
      moves, t := DrainFinishes(w);
    } else {
      if w.pc.Waiting? && (w.shutdown || w.seen + 1 == |w.sent|) {
        moves, u := [], w;
        Idles(w);
      } else {
        moves, u := Applies(w);
      }
      ExitNext(u);
      Manages(u, Exit);
      var v := NextManager(u, Exit);
      Then(w, moves, u, [Manage(Exit)], v);
      rest, t := DrainFinishes(v);
      Then(w, moves + [Manage(Exit)], v, rest, t);
      moves := moves + [Manage(Exit)] + rest;
    }
    GoneIsEmpty(t);
  }

  lemma {:induction false} GoneIsEmpty(w: World)
    requires Sane(w) && w.pc.Exited?
    ensures w.workers == map[]
  {
    hide Progress, Books, Composition.AllGrown;
    LiveAreTasks(w);
    assert Ids(map[]) == {};
  }
}
