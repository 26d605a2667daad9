/** Whether a peer task that the manager has cancelled and awaits can end. */
module Stopping {
  import opened ManagerMachine
  import Transport

  /** A move that waits for nobody else: not for the network, and not for a timer. */
  predicate Local(m: WorkerMove) {
    m.Prepare? || m.Quit? || (m.SessionMove? && (m.e.act.Clock? || m.e.act.Cancel?))
  }

  /** These moves of the one task are possible, each of them local, and after them the
      manager's wait is over. */
  ghost predicate Finishes(w: World, id: nat, ms: seq<WorkerMove>)
    decreases |ms|
  {
    if ms == [] then
      ManagerMay(w, Awaited)
    else
      && id in w.workers && WorkerMay(w.workers[id], ms[0]) && Local(ms[0])
      && Finishes(NextWorker(w, id, ms[0]), id, ms[1..])
  }

  ghost predicate CanFinish(w: World, id: nat, n: nat) {
    exists ms :: |ms| <= n && Finishes(w, id, ms)
  }

  lemma {:induction false} Prepend(w: World, id: nat, m: WorkerMove, n: nat)
    requires id in w.workers && WorkerMay(w.workers[id], m) && Local(m) && CanFinish(NextWorker(w, id, m), id, n)
    ensures CanFinish(w, id, n + 1)
  {
    hide WorkerMay, NextWorker, Local;
    var ms :| |ms| <= n && Finishes(NextWorker(w, id, m), id, ms);
    assert ([m] + ms)[1..] == ms;
    assert Finishes(w, id, [m] + ms);
  }

  /** Cancelled, and the one that the manager awaits. */
  predicate IsAwaited(w: World, id: nat) {
    id in w.workers && w.workers[id].cancelled && w.stopping.Some? && w.stopping.value.id == id
  }

  lemma {:induction false} Moves(w: World, id: nat, m: WorkerMove)
    requires IsAwaited(w, id) && WorkerMay(w.workers[id], m)
    ensures
      var t, f := NextWorker(w, id, m), NextPhase(w.workers[id], m, MetricsOf(w, Label(w.workers[id])));
      if f.Some? then IsAwaited(t, id) && t.workers[id].phase == f.value else CanFinish(t, id, 0)
  {
    hide WorkerMay, NextPhase, NextMetrics, NextTally;
    var t, f := NextWorker(w, id, m), NextPhase(w.workers[id], m, MetricsOf(w, Label(w.workers[id])));
    if f.None? {
      assert Finishes(t, id, []);
    }
  }

  lemma {:induction false} EndsAtOnce(w: World, id: nat)
    requires IsAwaited(w, id) && (w.workers[id].phase.Connecting? || w.workers[id].phase.Backoff?)
    ensures CanFinish(w, id, 1)
  {
    hide CanFinish;
    Moves(w, id, Quit);
    Prepend(w, id, Quit, 0);
  }

  /** At any of these await points the session's `select!` sees the cancellation. */
  predicate Selecting(s: S.State) {
    s.pc.Sleeping? || s.pc.Ready? || s.pc.Sending? || s.pc.Awaiting?
  }

  lemma {:induction false} EndsSelecting(w: World, id: nat)
    requires IsAwaited(w, id) && w.workers[id].phase.Running? && Selecting(w.workers[id].phase.s)
    ensures CanFinish(w, id, 1)
  {
    hide CanFinish, NextWorker;
    var m := SessionMove(Transport.Event(w.workers[id].phase.s.clock, Transport.Act.Cancel));
    Moves(w, id, m);
    Prepend(w, id, m, 0);
  }

  /** Between them it reads the clock, at most twice. */
  lemma {:induction false} EndsBetween(w: World, id: nat, n: nat)
    requires IsAwaited(w, id) && w.workers[id].phase.Running?
    requires var pc := w.workers[id].phase.s.pc; if pc.Opening? then n == 3 else n == 2 && (pc.Head? || pc.Posted?)
    ensures CanFinish(w, id, n)
    decreases n
  {
    hide CanFinish, NextWorker;
    var m := SessionMove(Transport.Event(w.workers[id].phase.s.clock, Transport.Clock));
    Moves(w, id, m);
    if n == 3 {
      EndsBetween(NextWorker(w, id, m), id, 2);
    } else {
      EndsSelecting(NextWorker(w, id, m), id);
    }
    Prepend(w, id, m, n - 1);
  }

  /** The one await point outside any `select!`. */
  predicate SendingHello(f: Phase) {
    f.Running? && f.s.pc.Greeting?
  }

  lemma {:induction false} EndsSoon(w: World, id: nat)
    requires IsAwaited(w, id) && !SendingHello(w.workers[id].phase)
    requires w.workers[id].phase.Running? ==> !w.workers[id].phase.s.pc.Done?
    ensures CanFinish(w, id, 3)
  {
    hide CanFinish, NextWorker;
    var f := w.workers[id].phase;
    if f.Preparing? {
      Prepares(w, id);
      AtLeast(w, id, 2, 3);
    } else if !f.Running? {
      EndsAtOnce(w, id);
      AtLeast(w, id, 1, 3);
    } else if Selecting(f.s) {
      EndsSelecting(w, id);
      AtLeast(w, id, 1, 3);
    } else if f.s.pc.Opening? {
      EndsBetween(w, id, 3);
    } else {
      EndsBetween(w, id, 2);
      AtLeast(w, id, 2, 3);
    }
  }

  lemma {:induction false} Prepares(w: World, id: nat)
    requires IsAwaited(w, id) && w.workers[id].phase.Preparing?
    ensures CanFinish(w, id, 2)
  {
    hide CanFinish, NextWorker;
    Moves(w, id, Prepare(0));
    EndsAtOnce(NextWorker(w, id, Prepare(0)), id);
    Prepend(w, id, Prepare(0), 1);
  }

  lemma {:induction false} AtLeast(w: World, id: nat, n: nat, more: nat)
    requires CanFinish(w, id, n) && n <= more
    ensures CanFinish(w, id, more)
  {
    hide Finishes;
  }

  lemma {:induction false} HelloDefers(w: World, id: nat, n: nat)
    requires IsAwaited(w, id) && SendingHello(w.workers[id].phase)
    ensures !CanFinish(w, id, n)
  {
    hide NextWorker;
  }

  /** In every reachable world, a task that the manager awaits can end by itself, in at
      most three moves that wait for neither network nor timer, exactly when it is not
      sending the handshake. */
  lemma {:induction false} StopFinishes(c: Config.Config, moves: seq<Move>, last: World)
    requires Reaches(Start(c), moves, last) && last.stopping.Some? && last.stopping.value.id in last.workers
    ensures
      var id := last.stopping.value.id;
      CanFinish(last, id, 3) <==> !SendingHello(last.workers[id].phase)
  {
    hide Reaches, CanFinish;
    var id := last.stopping.value.id;
    AwaitedIsCancelled(c, moves, last);
    if SendingHello(last.workers[id].phase) {
      HelloDefers(last, id, 3);
    } else {
      EndsSoon(last, id);
    }
  }

  lemma {:induction false} AwaitedIsCancelled(c: Config.Config, moves: seq<Move>, last: World)
    requires Reaches(Start(c), moves, last) && last.stopping.Some? && last.stopping.value.id in last.workers
    ensures
      var id := last.stopping.value.id;
      IsAwaited(last, id) && (last.workers[id].phase.Running? ==> !last.workers[id].phase.s.pc.Done?)
  {
    hide Reaches, Progress;
    var l := Label(last.workers[last.stopping.value.id]);
    StartHolds(c, l);
    EveryRun(Start(c), moves, last, l);
  }

  /** While it sends the handshake, each event takes it further or lets it end. */
  lemma {:induction false} HelloGivesWay(c: Config.Config, moves: seq<Move>, last: World, e: Transport.Event)
    requires Reaches(Start(c), moves, last) && last.stopping.Some? && last.stopping.value.id in last.workers
    requires
      var k := last.workers[last.stopping.value.id];
      SendingHello(k.phase) && WorkerMay(k, SessionMove(e))
    ensures
      var id := last.stopping.value.id;
      var t := NextWorker(last, id, SessionMove(e));
      || CanFinish(t, id, 3)
      || (id in t.workers && SendingHello(t.workers[id].phase)
        && t.workers[id].phase.s.pc.written > last.workers[id].phase.s.pc.written)
  {
    hide Reaches, CanFinish, NextWorker;
    var id := last.stopping.value.id;
    AwaitedIsCancelled(c, moves, last);
    Moves(last, id, SessionMove(e));
    var t := NextWorker(last, id, SessionMove(e));
    if e.act.WriteFail? {
      EndsAtOnce(t, id);
      AtLeast(t, id, 1, 3);
    } else if t.workers[id].phase.s.pc.Opening? {
      EndsBetween(t, id, 3);
    }
  }
}
