/** The manager, its watch channel and its peer tasks, all at once. The channel may skip
    configs; every step of every task, down to each event of its sessions, interleaves
    with the manager's. */
module ManagerMachine {
  import opened Wrappers
  import opened Transport
  import opened Metrics
  import opened Config
  import opened Reconcile
  import Limits
  import S = Session

  // ---------------------------------------------------------------------
  // Peer tasks
  // ---------------------------------------------------------------------

  /** `base` is what the metrics of its label were when a session's task connected; no
      code reads it. */
  datatype Phase = Preparing | Connecting(since: int) | Running(base: ClientMetrics, s: S.State) | Backoff(until: int)

  /** A peer task, with the settings and the node name it was started with. */
  datatype Worker = Worker(peer: PeerConfig, client: ClientConfig, node: string, cancelled: bool, phase: Phase)

  function Label(k: Worker): PeerLabel {
    PeerLabel(k.node, k.peer.name)
  }

  function ParamsOf(k: Worker): S.Params {
    Limits.SessionParams(k.client, k.node)
  }

  datatype WorkerMove =
    | Prepare(at: int)      // pre-create the disconnect entries
    | ConnectFail(at: int)
    | ConnectOk(at: int)
    | SessionMove(e: Event)
    | Retry(at: int)        // the reconnect delay is over
    | Quit                  // the cancellation token is seen outside a session

  /** A session only sees a cancellation once its token is cancelled. */
  predicate WorkerMay(k: Worker, m: WorkerMove) {
    match m
    case Prepare(_) => k.phase.Preparing?
    case ConnectFail(at) => k.phase.Connecting? && at >= k.phase.since
    case ConnectOk(at) => k.phase.Connecting? && at >= k.phase.since
    case SessionMove(e) => k.phase.Running? && S.Enabled(ParamsOf(k), k.phase.s, e) && (e.act.Cancel? ==> k.cancelled)
    case Retry(at) => k.phase.Backoff? && at >= k.phase.until
    case Quit => k.cancelled && (k.phase.Connecting? || k.phase.Backoff?)
  }

  /** How long a peer task waits after an attempt that ended. */
  function Delay(k: Worker): nat {
    k.client.reconnectDelay * Limits.TICKS_PER_SECOND
  }

  /** A peer task's next phase; none when it ends. */
  function NextPhase(k: Worker, m: WorkerMove, now: ClientMetrics): Option<Phase>
    requires WorkerMay(k, m)
  {
    match m
    case Prepare(at) => Some(Connecting(at))
    case ConnectFail(at) => Some(Backoff(at + Delay(k)))
    case ConnectOk(at) => Some(Running(now, S.Fresh(at, now)))
    case SessionMove(e) =>
      var t := S.Step(ParamsOf(k), k.phase.s, e);
      if !t.pc.Done? then Some(Running(k.phase.base, t)) else if t.pc.end.Cancelled? then None else Some(Backoff(t.clock + Delay(k)))
    case Retry(at) => Some(Connecting(at))
    case Quit => None
  }

  function NextMetrics(k: Worker, m: WorkerMove, now: ClientMetrics): ClientMetrics
    requires WorkerMay(k, m)
  {
    match m
    case Prepare(_) => now.(disconnects := Precreated(now.disconnects, CLIENT_DISCONNECT_REASONS))
    case ConnectFail(_) => now.(disconnects := Inc(now.disconnects, ConnectFailed))
    case SessionMove(e) => S.Step(ParamsOf(k), k.phase.s, e).metrics
    case _ => now
  }

  /** History that no metric records: connects that finished either way, handshakes that
      could not be sent, and sessions that were cancelled. */
  datatype Tally = Tally(connects: nat, handshakes: nat, cancelled: nat)

  function NextTally(k: Worker, m: WorkerMove, y: Tally): Tally
    requires WorkerMay(k, m)
  {
    match m
    case ConnectFail(_) => y.(connects := y.connects + 1)
    case ConnectOk(_) => y.(connects := y.connects + 1)
    case SessionMove(e) =>
      var pc := S.Step(ParamsOf(k), k.phase.s, e).pc;
      if pc == S.Done(S.Cancelled) then y.(cancelled := y.cancelled + 1)
      else if pc == S.Done(S.HandshakeFailed) then y.(handshakes := y.handshakes + 1)
      else y
    case _ => y
  }

  // ---------------------------------------------------------------------
  // The world
  // ---------------------------------------------------------------------

  datatype Pc =
    | Reading
    | Removing(todo: set<string>)
    | Spawning(todo: set<string>)
    | Draining(queue: map<string, Task>, exit: bool)
    | Waiting
    | Exited

  /** `sent` is every config so far and `seen` the one last read, a copy of which is
      `config`; `base` is what `tasks` was then. `stopping` is what the manager has
      cancelled and awaits. */
  datatype World = World(
    sent: seq<Config>, closed: bool, shutdown: bool,
    pc: Pc, seen: nat, config: Config, base: map<string, Task>,
    tasks: map<string, Task>, stopping: Option<Task>, nextId: nat,
    workers: map<nat, Worker>, metrics: map<PeerLabel, ClientMetrics>, tally: map<PeerLabel, Tally>)

  function Start(c: Config): World {
    World([c], false, false, Reading, 0, c, map[], map[], None, 0, map[], map[], map[])
  }

  function MetricsOf(w: World, l: PeerLabel): ClientMetrics {
    if l in w.metrics then w.metrics[l] else ClientMetrics(0, 0, 0, 0, 0, 0, None, map[])
  }

  function TallyOf(w: World, l: PeerLabel): Tally {
    if l in w.tally then w.tally[l] else Tally(0, 0, 0)
  }

  datatype ManagerMove =
    | Read
    | StopOne(name: string)
    | Awaited
    | Removed
    | StartOne(name: string)
    | Settle
    | Drained
    | Wake
    | Exit

  datatype Move =
    | Send(c: Config)
    | Hangup
    | Shutdown
    | Manage(m: ManagerMove)
    | Work(id: nat, k: WorkerMove)

  /** Shut down, or hung up with every config seen. */
  predicate MayLeave(w: World) {
    w.shutdown || (w.closed && w.seen + 1 == |w.sent|)
  }

  predicate ManagerMay(w: World, m: ManagerMove) {
    match m
    case Read => w.pc.Reading? && w.sent != []
    case StopOne(name) =>
      && w.stopping.None?
      && ((w.pc.Removing? && name in w.pc.todo && name in w.tasks) || (w.pc.Draining? && name in w.pc.queue))
    case Awaited => w.stopping.Some? && w.stopping.value.id !in w.workers
    case Removed => w.pc.Removing? && w.pc.todo == {} && w.stopping.None?
    case StartOne(name) => w.pc.Spawning? && name in w.pc.todo && w.config.client.Some? && name in Wanted(w.config)
    case Settle => w.pc.Spawning? && w.pc.todo == {}
    case Drained => w.pc.Draining? && w.pc.queue == map[] && w.stopping.None?
    case Wake => w.pc.Waiting? && w.seen + 1 < |w.sent|
    case Exit => w.pc.Waiting? && MayLeave(w)
  }

  /** Cancel one token. */
  function Cancel(workers: map<nat, Worker>, id: nat): map<nat, Worker> {
    if id in workers then workers[id := workers[id].(cancelled := true)] else workers
  }

  /** What is to run, or still to be stopped. */
  function Held(w: World): map<string, Task> {
    if w.pc.Draining? then w.pc.queue else w.tasks
  }

  /** Take the last config sent, and settle which tasks go. */
  function ReadConfig(w: World): World
    requires w.sent != []
  {
    var c := w.sent[|w.sent| - 1];
    w.(seen := |w.sent| - 1, config := c, base := w.tasks,
       pc := if c.client.None? then Draining(w.tasks, false) else Removing(Stale(w.tasks, Wanted(c))),
       tasks := if c.client.None? then map[] else w.tasks)
  }

  /** Take a task out of the manager's hands and cancel it. */
  function StopTask(w: World, name: string): World
    requires ManagerMay(w, StopOne(name))
  {
    var task := Held(w)[name];
    w.(pc := if w.pc.Removing? then Removing(w.pc.todo - {name}) else w.pc.(queue := w.pc.queue - {name}),
       tasks := w.tasks - {name}, stopping := Some(task), workers := Cancel(w.workers, task.id))
  }

  function StartTask(w: World, name: string): World
    requires ManagerMay(w, StartOne(name))
  {
    var peer, starts := Wanted(w.config)[name], name !in w.tasks;
    w.(pc := Spawning(w.pc.todo - {name}),
       tasks := if starts then w.tasks[name := Task(peer, w.nextId)] else w.tasks,
       nextId := if starts then w.nextId + 1 else w.nextId,
       workers := if starts then w.workers[w.nextId := NewWorker(peer, w.config)] else w.workers)
  }

  function NewWorker(peer: PeerConfig, c: Config): Worker
    requires c.client.Some?
  {
    Worker(peer, c.client.value, c.node, false, Preparing)
  }

  function NextManager(w: World, m: ManagerMove): World
    requires ManagerMay(w, m)
  {
    match m
    case Read => ReadConfig(w)
    case StopOne(name) => StopTask(w, name)
    case Awaited => w.(stopping := None)
    case Removed => w.(pc := Spawning(Wanted(w.config).Keys))
    case StartOne(name) => StartTask(w, name)
    case Settle => w.(pc := Waiting)
    case Drained => w.(pc := if w.pc.exit then Exited else Waiting)
    case Wake => w.(pc := Reading)
    case Exit => w.(pc := Draining(w.tasks, true), tasks := map[])
  }

  function NextWorker(w: World, id: nat, m: WorkerMove): World
    requires id in w.workers && WorkerMay(w.workers[id], m)
  {
    var k := w.workers[id];
    var l := Label(k);
    var phase := NextPhase(k, m, MetricsOf(w, l));
    w.(workers := if phase.Some? then w.workers[id := k.(phase := phase.value)] else w.workers - {id},
       metrics := w.metrics[l := NextMetrics(k, m, MetricsOf(w, l))],
       tally := w.tally[l := NextTally(k, m, TallyOf(w, l))])
  }

  predicate Possible(w: World, m: Move) {
    match m
    case Send(_) => !w.closed
    case Hangup => true
    case Shutdown => true
    case Manage(mm) => ManagerMay(w, mm)
    case Work(id, k) => id in w.workers && WorkerMay(w.workers[id], k)
  }

  function Next(w: World, m: Move): World
    requires Possible(w, m)
  {
    match m
    case Send(c) => w.(sent := w.sent + [c])
    case Hangup => w.(closed := true)
    case Shutdown => w.(shutdown := true)
    case Manage(mm) => NextManager(w, mm)
    case Work(id, k) => NextWorker(w, id, k)
  }

  ghost predicate Reaches(w: World, moves: seq<Move>, last: World)
    decreases |moves|
  {
    if moves == [] then w == last else Possible(w, moves[0]) && Reaches(Next(w, moves[0]), moves[1..], last)
  }

  // ---------------------------------------------------------------------
  // Who owns which task
  // ---------------------------------------------------------------------

  /** Live, not cancelled, and stored under its peer's name. */
  predicate Runs(workers: map<nat, Worker>, name: string, task: Task) {
    && task.peer.name == name && task.id in workers
    && workers[task.id].peer == task.peer && !workers[task.id].cancelled
  }

  /** Whatever is being stopped is cancelled, if it is still live. */
  predicate Stops(workers: map<nat, Worker>, task: Task) {
    task.id in workers ==> workers[task.id].peer == task.peer && workers[task.id].cancelled
  }

  predicate Accounted(w: World, id: nat)
    requires id in w.workers
  {
    var name := w.workers[id].peer.name;
    (w.stopping.Some? && w.stopping.value.id == id) || (name in Held(w) && Held(w)[name].id == id)
  }

  /** Every live task is either held under its peer's name, and not cancelled, or is the
      one task being stopped, whose name is then held by no other. */
  ghost predicate Owned(w: World) {
    && (w.pc.Draining? || w.pc.Exited? ==> w.tasks == map[])
    && (forall name :: name in Held(w) ==> Runs(w.workers, name, Held(w)[name]))
    && (w.stopping.Some? ==>
      && (w.pc.Removing? || w.pc.Draining?)
      && w.stopping.value.peer.name !in Held(w) && w.stopping.value.id < w.nextId && Stops(w.workers, w.stopping.value))
    && (forall id :: id in w.workers ==> id < w.nextId && Accounted(w, id))
  }

  /** At most one live task for each peer name. */
  lemma {:induction false} OneTaskPerName(w: World, a: nat, b: nat)
    requires Owned(w) && a in w.workers && b in w.workers && w.workers[a].peer.name == w.workers[b].peer.name
    ensures a == b
  {
    assert Accounted(w, a) && Accounted(w, b);
  }

  lemma {:induction false} OwnedManager(w: World, m: ManagerMove)
    requires ManagerMay(w, m) && Owned(w)
    ensures Owned(NextManager(w, m))
  {
    if m.StopOne? {
      OwnedStop(w, m.name);
    } else if m.StartOne? {
      OwnedStart(w, m.name);
    } else {
      OwnedTurn(w, m);
    }
  }

  lemma {:induction false} OwnedStop(w: World, name: string)
    requires ManagerMay(w, StopOne(name)) && Owned(w)
    ensures Owned(NextManager(w, StopOne(name)))
  {
    hide Wanted, Stale;
    var t, task := NextManager(w, StopOne(name)), Held(w)[name];
    assert t.workers == Cancel(w.workers, task.id) && Held(t) == Held(w) - {name} && t.stopping == Some(task);
    assert Runs(w.workers, name, task);
    OwnedCancel(w, t, name, task);
  }

  lemma {:induction false} OwnedCancel(w: World, t: World, name: string, task: Task)
    requires Owned(w) && name in Held(w) && Held(w)[name] == task && w.stopping.None?
    requires t.workers == Cancel(w.workers, task.id) && Held(t) == Held(w) - {name} && t.stopping == Some(task)
    requires t.nextId == w.nextId && (t.pc.Draining? || t.pc.Exited? ==> t.tasks == map[]) && (t.pc.Removing? || t.pc.Draining?)
    ensures Owned(t)
  {
    hide Held;
    assert Runs(w.workers, name, task);
    forall n | n in Held(t) ensures Runs(t.workers, n, Held(t)[n]) {
      assert Runs(w.workers, n, Held(w)[n]);
    }
    forall id | id in t.workers ensures id < t.nextId && Accounted(t, id) {
      assert Accounted(w, id);
    }
  }

  lemma {:induction false} OwnedStart(w: World, name: string)
    requires ManagerMay(w, StartOne(name)) && Owned(w)
    ensures Owned(NextManager(w, StartOne(name)))
  {
    hide PeersByName;
    var t := NextManager(w, StartOne(name));
    forall n | n in Held(t) ensures Runs(t.workers, n, Held(t)[n]) {
      if n in Held(w) {
        assert Runs(w.workers, n, Held(w)[n]);
      }
    }
    forall id | id in t.workers ensures id < t.nextId && Accounted(t, id) {
      assert id in w.workers ==> Accounted(w, id);
    }
  }

  lemma {:induction false} OwnedTurn(w: World, m: ManagerMove)
    requires ManagerMay(w, m) && Owned(w) && !m.StopOne? && !m.StartOne?
    ensures Owned(NextManager(w, m))
  {
    hide Runs, Stops, NextManager, ManagerMay, Held;
    var t := NextManager(w, m);
    TurnKeeps(w, m);
    forall id | id in t.workers ensures id < t.nextId && Accounted(t, id) {
      assert Accounted(w, id);
    }
  }

  /** Any other move of the manager only hands tasks on; after it none is being stopped. */
  lemma {:induction false} TurnKeeps(w: World, m: ManagerMove)
    requires ManagerMay(w, m) && !m.StopOne? && !m.StartOne?
    requires w.pc.Draining? || w.pc.Exited? ==> w.tasks == map[]
    requires w.stopping.Some? ==> w.pc.Removing? || w.pc.Draining?
    ensures
      var t := NextManager(w, m);
      && t.workers == w.workers && t.nextId == w.nextId && Held(t) == Held(w) && t.stopping.None? && t.sent == w.sent
      && (t.pc.Draining? || t.pc.Exited? ==> t.tasks == map[])
      && (w.stopping.Some? ==> w.stopping.value.id !in w.workers)
  {
    hide Wanted, Stale, StopTask, StartTask;
  }

  lemma {:induction false} OwnedWorker(w: World, id: nat, m: WorkerMove)
    requires id in w.workers && WorkerMay(w.workers[id], m) && Owned(w)
    ensures Owned(NextWorker(w, id, m))
  {
    hide NextPhase, NextMetrics, NextTally, WorkerMay, Runs, Stops, Accounted;
    var t := NextWorker(w, id, m);
    EndsCancelled(w.workers[id], m, MetricsOf(w, Label(w.workers[id])));
    forall n | n in Held(t) ensures Runs(t.workers, n, Held(t)[n]) {
      StillRuns(w, id, m, n, Held(w)[n]);
    }
    if w.stopping.Some? {
      StillStops(w, id, m, w.stopping.value);
    }
    forall i | i in t.workers ensures i < t.nextId && Accounted(t, i) {
      StillAccounted(w, id, m, i);
    }
  }

  lemma {:induction false} EndsCancelled(k: Worker, m: WorkerMove, now: ClientMetrics)
    requires WorkerMay(k, m)
    ensures NextPhase(k, m, now).None? ==> k.cancelled
  {
    hide S.Step, S.Enabled, S.Recorded;
    if m.SessionMove? {
      S.StepEffect(ParamsOf(k), k.phase.s, m.e);
    }
  }

  lemma {:induction false} StillRuns(w: World, id: nat, m: WorkerMove, name: string, task: Task)
    requires id in w.workers && WorkerMay(w.workers[id], m) && Runs(w.workers, name, task)
    requires NextPhase(w.workers[id], m, MetricsOf(w, Label(w.workers[id]))).None? ==> w.workers[id].cancelled
    ensures Runs(NextWorker(w, id, m).workers, name, task)
  {
    hide NextPhase, NextMetrics, NextTally, WorkerMay;
  }

  lemma {:induction false} StillStops(w: World, id: nat, m: WorkerMove, task: Task)
    requires id in w.workers && WorkerMay(w.workers[id], m) && Stops(w.workers, task)
    ensures Stops(NextWorker(w, id, m).workers, task)
  {
    hide NextPhase, NextMetrics, NextTally, WorkerMay;
  }

  lemma {:induction false} StillAccounted(w: World, id: nat, m: WorkerMove, i: nat)
    requires id in w.workers && WorkerMay(w.workers[id], m) && i in NextWorker(w, id, m).workers
    requires i in w.workers ==> Accounted(w, i)
    ensures i in w.workers && Accounted(NextWorker(w, id, m), i)
  {
    hide NextPhase, NextMetrics, NextTally, WorkerMay;
  }

  // ---------------------------------------------------------------------
  // A pass reconciles
  // ---------------------------------------------------------------------

  /** Tasks kept so far: those of `base` with a wanted record are untouched. */
  ghost predicate Keeps(base: map<string, Task>, c: Config, tasks: map<string, Task>) {
    forall name :: name in base && Current(Wanted(c), name, base[name]) ==> name in tasks && tasks[name] == base[name]
  }

  /** A task that is not the one `base` has under its name is new. */
  ghost predicate Renews(base: map<string, Task>, tasks: map<string, Task>) {
    forall name :: name in tasks && !(name in base && tasks[name] == base[name]) ==> tasks[name].id !in Ids(base)
  }

  ghost predicate OnlyWanted(c: Config, tasks: map<string, Task>) {
    forall name :: name in tasks ==> Current(Wanted(c), name, tasks[name])
  }

  /** How far the manager's pass over the config it last read has come. */
  ghost predicate Progress(w: World) {
    && w.seen < |w.sent| && (!w.pc.Reading? ==> w.config == w.sent[w.seen])
    && (forall id :: id in Ids(w.base) ==> id < w.nextId)
    && match w.pc
       case Reading => true
       case Removing(todo) =>
         && w.config.client.Some? && Keeps(w.base, w.config, w.tasks) && Renews(w.base, w.tasks)
         && todo == Stale(w.tasks, Wanted(w.config))
       case Spawning(todo) =>
         && w.config.client.Some? && Keeps(w.base, w.config, w.tasks) && Renews(w.base, w.tasks) && OnlyWanted(w.config, w.tasks)
         && (forall name :: name in Wanted(w.config) ==> name in todo || name in w.tasks)
         && todo <= Wanted(w.config).Keys
       case Draining(_, exit) => if exit then MayLeave(w) else w.config.client.None?
       case Waiting => Reconciled(w.base, w.config, w.tasks)
       case Exited => MayLeave(w)
  }

  lemma {:induction false} ProgressManager(w: World, m: ManagerMove)
    requires ManagerMay(w, m) && Owned(w) && Progress(w)
    ensures Progress(NextManager(w, m))
  {
    if m.Read? {
      ProgressRead(w);
    } else if m.StopOne? {
      ProgressStop(w, m.name);
    } else if m.StartOne? {
      ProgressStart(w, m.name);
    } else {
      ProgressTurn(w, m);
    }
  }

  lemma {:induction false} HeldBelow(w: World)
    requires Owned(w) && !w.pc.Draining?
    ensures forall id :: id in Ids(w.tasks) ==> id < w.nextId
  {
    forall id | id in Ids(w.tasks) ensures id < w.nextId {
      var name :| name in w.tasks && w.tasks[name].id == id;
      assert Runs(w.workers, name, Held(w)[name]);
    }
  }

  lemma {:induction false} ProgressRead(w: World)
    requires w.pc.Reading? && w.sent != [] && Owned(w) && Progress(w)
    ensures Progress(ReadConfig(w))
  {
    hide Owned, Wanted, Current, Ids, Keeps, Renews, Stale, OnlyWanted, Reconciled;
    HeldBelow(w);
    UntouchedKeeps(w.sent[|w.sent| - 1], w.tasks);
  }

  lemma {:induction false} UntouchedKeeps(c: Config, tasks: map<string, Task>)
    ensures Keeps(tasks, c, tasks) && Renews(tasks, tasks)
  {
    hide Wanted, Current, Ids;
  }

  lemma {:induction false} ProgressStop(w: World, name: string)
    requires ManagerMay(w, StopOne(name)) && Progress(w)
    ensures Progress(NextManager(w, StopOne(name)))
  {
    hide Wanted, Ids;
  }

  lemma {:induction false} ProgressStart(w: World, name: string)
    requires ManagerMay(w, StartOne(name)) && Progress(w)
    ensures Progress(NextManager(w, StartOne(name)))
  {
    hide PeerMap, Ids;
  }

  lemma {:induction false} ProgressTurn(w: World, m: ManagerMove)
    requires ManagerMay(w, m) && Progress(w) && !m.Read? && !m.StopOne? && !m.StartOne?
    requires w.pc.Draining? ==> w.tasks == map[]
    ensures Progress(NextManager(w, m))
  {
    hide Wanted, Ids, Keeps, Renews, OnlyWanted, Reconciled, Stale, Current;
    if m.Removed? {
      RemovedLeavesWanted(w.config, w.tasks);
    } else if m.Settle? {
      SettledIsReconciled(w.base, w.config, w.tasks);
    } else if m.Drained? && !w.pc.exit {
      DrainedIsReconciled(w.base, w.config);
    }
  }

  lemma {:induction false} RemovedLeavesWanted(c: Config, tasks: map<string, Task>)
    requires Stale(tasks, Wanted(c)) == {}
    ensures OnlyWanted(c, tasks)
  {
    hide Wanted, Current;
    forall name | name in tasks ensures Current(Wanted(c), name, tasks[name]) {
      assert name !in Stale(tasks, Wanted(c));
    }
  }

  lemma {:induction false} SettledIsReconciled(base: map<string, Task>, c: Config, tasks: map<string, Task>)
    requires Keeps(base, c, tasks) && Renews(base, tasks) && OnlyWanted(c, tasks)
    requires forall name :: name in Wanted(c) ==> name in tasks
    ensures Reconciled(base, c, tasks)
  {
    hide Wanted, Ids;
    assert Roster(tasks) == Wanted(c);
  }

  lemma {:induction false} DrainedIsReconciled(base: map<string, Task>, c: Config)
    requires c.client.None?
    ensures Reconciled(base, c, map[])
  {
    hide Ids;
    assert Roster(map[]) == map[];
  }

  lemma {:induction false} ProgressElsewhere(w: World, m: Move)
    requires Possible(w, m) && !m.Manage? && Progress(w)
    ensures Progress(Next(w, m))
  {
    hide Ids, Wanted, Stale, Reconciled, WorkerMay, NextPhase, NextMetrics, NextTally;
  }

  // ---------------------------------------------------------------------
  // The books of one label
  // ---------------------------------------------------------------------

  predicate InSession(f: Phase) {
    f.Running? && S.InSession(f.s)
  }

  /** Connected, and still sending the handshake. */
  predicate Greeting(f: Phase) {
    f.Running? && !S.Recorded(f.s)
  }

  /** What a label's metrics must say when its live task, if any, is in this phase: the
      gauge is 1 just when a session is on; every session is on, or has ended under one of
      four reasons, or was cancelled; and every finished connect failed, or its handshake
      failed or is being sent, or it became a session. */
  ghost predicate Balanced(f: Option<Phase>, m: ClientMetrics, y: Tally) {
    var live := if f.Some? && InSession(f.value) then 1 else 0;
    var greeting := if f.Some? && Greeting(f.value) then 1 else 0;
    && m.active == live
    && m.sessions == live + EndedTotal(m.disconnects) + y.cancelled
    && y.connects == Get(m.disconnects, ConnectFailed) + y.handshakes + greeting + m.sessions
    && (f.Some? && f.value.Running? ==> f.value.s.metrics == m && !f.value.s.pc.Done?)
    && m.disconnects.Keys <= CLIENT_DISCONNECT_REASONS
    && (f.Some? && !f.value.Preparing? ==> m.disconnects.Keys == CLIENT_DISCONNECT_REASONS)
  }

  lemma {:induction false} BalancedStep(k: Worker, m: WorkerMove, now: ClientMetrics, y: Tally)
    requires WorkerMay(k, m) && Balanced(Some(k.phase), now, y)
    ensures Balanced(NextPhase(k, m, now), NextMetrics(k, m, now), NextTally(k, m, y))
  {
    hide S.Step, S.Enabled, EndedTotal, Inc, Get, Precreated;
    if m.SessionMove? {
      BalancedSession(k, m.e, now, y);
    } else if m.ConnectFail? {
      IncKeepsOthers(now.disconnects, ConnectFailed);
      EntriesStay(k, m, now);
    } else if m.Prepare? {
      PreparedEntries(now.disconnects);
      PrecreatedKeepsCounts(now.disconnects, CLIENT_DISCONNECT_REASONS);
    }
  }

  lemma {:induction false} BalancedSession(k: Worker, e: Event, now: ClientMetrics, y: Tally)
    requires WorkerMay(k, SessionMove(e)) && Balanced(Some(k.phase), now, y)
    ensures
      var m := SessionMove(e);
      Balanced(NextPhase(k, m, now), NextMetrics(k, m, now), NextTally(k, m, y))
  {
    hide S.Step, S.Enabled, EndedTotal, Inc, Get, S.Recorded;
    var t := S.Step(ParamsOf(k), k.phase.s, e);
    S.StepEffect(ParamsOf(k), k.phase.s, e);
    EntriesStay(k, SessionMove(e), now);
    if t.pc.Done? && t.pc.end.Disconnected? {
      IncAddsOne(now.disconnects, t.pc.end.reason);
      IncKeepsOthers(now.disconnects, t.pc.end.reason);
    }
  }

  /** Once all of a label's entries are there, no move of its task adds one. */
  lemma {:induction false} EntriesStay(k: Worker, m: WorkerMove, now: ClientMetrics)
    requires WorkerMay(k, m) && !m.Prepare? && now.disconnects.Keys == CLIENT_DISCONNECT_REASONS
    requires k.phase.Running? ==> k.phase.s.metrics == now
    ensures NextMetrics(k, m, now).disconnects.Keys == CLIENT_DISCONNECT_REASONS
  {
    hide S.Step, S.Enabled, S.Recorded;
    if m.SessionMove? {
      S.StepEffect(ParamsOf(k), k.phase.s, m.e);
    }
  }

  lemma {:induction false} PreparedEntries(d: map<Reason, int>)
    requires d.Keys <= CLIENT_DISCONNECT_REASONS
    ensures Precreated(d, CLIENT_DISCONNECT_REASONS).Keys == CLIENT_DISCONNECT_REASONS
  {
  }

  lemma {:induction false} IncKeepsOthers(d: map<Reason, int>, r: Reason)
    ensures Get(Inc(d, r), ConnectFailed) == Get(d, ConnectFailed) + if r == ConnectFailed then 1 else 0
    ensures r == ConnectFailed ==> EndedTotal(Inc(d, r)) == EndedTotal(d)
  {
  }

  /** The books of a label balance, for its live task or for none. */
  ghost predicate Books(w: World, l: PeerLabel) {
    && (forall id :: id in w.workers && Label(w.workers[id]) == l ==>
      Balanced(Some(w.workers[id].phase), MetricsOf(w, l), TallyOf(w, l)))
    && ((forall id :: id in w.workers ==> Label(w.workers[id]) != l) ==>
      Balanced(None, MetricsOf(w, l), TallyOf(w, l)))
  }

  lemma {:induction false} BooksWorker(w: World, id: nat, m: WorkerMove, l: PeerLabel)
    requires id in w.workers && WorkerMay(w.workers[id], m) && Owned(w) && Books(w, l)
    ensures Books(NextWorker(w, id, m), l)
  {
    hide Owned, NextWorker, WorkerMay, Books;
    if Label(w.workers[id]) == l {
      forall b | b in w.workers && Label(w.workers[b]) == l ensures b == id {
        OneTaskPerName(w, id, b);
      }
      BooksOwn(w, id, m, l);
    } else {
      BooksOther(w, id, m, l);
    }
  }

  lemma {:induction false} BooksOwn(w: World, id: nat, m: WorkerMove, l: PeerLabel)
    requires id in w.workers && WorkerMay(w.workers[id], m) && Books(w, l) && Label(w.workers[id]) == l
    requires forall b :: b in w.workers && Label(w.workers[b]) == l ==> b == id
    ensures Books(NextWorker(w, id, m), l)
  {
    hide NextPhase, NextMetrics, NextTally, WorkerMay, Balanced;
    var k, t := w.workers[id], NextWorker(w, id, m);
    BalancedStep(k, m, MetricsOf(w, l), TallyOf(w, l));
    var phase := NextPhase(k, m, MetricsOf(w, l));
    if phase.Some? {
      assert t.workers[id] == k.(phase := phase.value);
      assert Label(t.workers[id]) == l;
    } else {
      assert phase == None;
    }
  }

  lemma {:induction false} BooksOther(w: World, id: nat, m: WorkerMove, l: PeerLabel)
    requires id in w.workers && WorkerMay(w.workers[id], m) && Books(w, l) && Label(w.workers[id]) != l
    ensures Books(NextWorker(w, id, m), l)
  {
    hide NextPhase, NextMetrics, NextTally, WorkerMay, Balanced;
    var t := NextWorker(w, id, m);
    assert MetricsOf(t, l) == MetricsOf(w, l) && TallyOf(t, l) == TallyOf(w, l);
    assert id in t.workers ==> Label(t.workers[id]) != l;
    assert forall b :: b != id ==> (b in t.workers <==> b in w.workers) && (b in w.workers ==> t.workers[b] == w.workers[b]);
  }

  lemma {:induction false} BooksManager(w: World, m: ManagerMove, l: PeerLabel)
    requires ManagerMay(w, m) && Owned(w) && Books(w, l)
    ensures Books(NextManager(w, m), l)
  {
    hide Owned, Balanced, Wanted, Stale, ManagerMay;
    if m.StartOne? {
      BooksStart(w, m.name, l);
    } else {
      BooksElsewhere(w, NextManager(w, m), l);
    }
  }

  /** Cancelling a task does not touch the books. */
  lemma {:induction false} BooksElsewhere(w: World, t: World, l: PeerLabel)
    requires Books(w, l) && t.metrics == w.metrics && t.tally == w.tally && t.workers.Keys == w.workers.Keys
    requires forall id :: id in w.workers ==> Label(t.workers[id]) == Label(w.workers[id]) && t.workers[id].phase == w.workers[id].phase
    ensures Books(t, l)
  {
    hide Balanced;
  }

  lemma {:induction false} BooksStart(w: World, name: string, l: PeerLabel)
    requires ManagerMay(w, StartOne(name)) && Owned(w) && Books(w, l)
    ensures Books(StartTask(w, name), l)
  {
    hide Owned, Balanced, PeersByName, Books;
    var t := StartTask(w, name);
    if name in w.tasks {
      BooksElsewhere(w, t, l);
    } else {
      NobodyCalled(w, name);
      BooksAdded(w, t, w.nextId, t.workers[w.nextId], l);
    }
  }

  /** A new worker whose label had none starts with balanced books. */
  lemma {:induction false} BooksAdded(w: World, t: World, id: nat, k: Worker, l: PeerLabel)
    requires Books(w, l) && t.metrics == w.metrics && t.tally == w.tally
    requires id !in w.workers && t.workers == w.workers[id := k] && k.phase.Preparing?
    requires forall i :: i in w.workers ==> Label(w.workers[i]) != Label(k)
    ensures Books(t, l)
  {
    hide Balanced;
    IdleBalances(MetricsOf(w, l), TallyOf(w, l));
    assert forall i :: i in w.workers ==> i != id && t.workers[i] == w.workers[i];
  }

  /** A name that the manager is about to start has no live task. */
  lemma {:induction false} NobodyCalled(w: World, name: string)
    requires Owned(w) && w.pc.Spawning? && name !in w.tasks
    ensures forall id :: id in w.workers ==> w.workers[id].peer.name != name
    ensures w.nextId !in w.workers
  {
    forall id | id in w.workers ensures w.workers[id].peer.name != name {
      assert Accounted(w, id);
    }
  }

  lemma {:induction false} IdleBalances(m: ClientMetrics, y: Tally)
    ensures Balanced(None, m, y) <==> Balanced(Some(Preparing), m, y)
  {
  }

  // ---------------------------------------------------------------------
  // Every run
  // ---------------------------------------------------------------------

  lemma {:induction false} StartHolds(c: Config, l: PeerLabel)
    ensures Owned(Start(c)) && Progress(Start(c)) && Books(Start(c), l)
  {
    assert Ids(map[]) == {};
  }

  lemma {:induction false} StepKeeps(w: World, m: Move, l: PeerLabel)
    requires Possible(w, m) && Owned(w) && Progress(w) && Books(w, l)
    ensures Owned(Next(w, m)) && Progress(Next(w, m)) && Books(Next(w, m), l)
  {
    hide Owned, Progress, Books, ManagerMay, WorkerMay, NextManager, NextWorker;
    if m.Manage? {
      OwnedManager(w, m.m);
      ProgressManager(w, m.m);
      BooksManager(w, m.m, l);
    } else {
      ProgressElsewhere(w, m);
      if m.Work? {
        OwnedWorker(w, m.id, m.k);
        BooksWorker(w, m.id, m.k, l);
      } else {
        OutsideOnly(w, m, l);
      }
    }
  }

  lemma {:induction false} OutsideOnly(w: World, m: Move, l: PeerLabel)
    requires (m.Send? || m.Hangup? || m.Shutdown?) && Possible(w, m) && Owned(w) && Books(w, l)
    ensures Owned(Next(w, m)) && Books(Next(w, m), l)
  {
    hide Runs, Stops, Balanced;
    var t := Next(w, m);
    BooksElsewhere(w, t, l);
    assert Held(t) == Held(w);
    forall id | id in t.workers ensures id < t.nextId && Accounted(t, id) {
      assert Accounted(w, id);
    }
  }

  lemma {:induction false} EveryRun(w: World, moves: seq<Move>, last: World, l: PeerLabel)
    requires Owned(w) && Progress(w) && Books(w, l) && Reaches(w, moves, last)
    ensures Owned(last) && Progress(last) && Books(last, l)
    decreases |moves|
  {
    hide Owned, Progress, Books, Possible, Next;
    if moves == [] {
    } else {
      StepKeeps(w, moves[0], l);
      EveryRun(Next(w, moves[0]), moves[1..], last, l);
    }
  }

  /** In every reachable state no two live tasks are for peers of the same name, and a
      label's gauge is 1 exactly when a live task, started under that node name for that
      peer, has a session on. */
  lemma {:induction false} ClientGaugeTruth(c: Config, moves: seq<Move>, last: World, l: PeerLabel)
    requires Reaches(Start(c), moves, last)
    ensures forall a, b :: a in last.workers && b in last.workers && last.workers[a].peer.name == last.workers[b].peer.name ==> a == b
    ensures 0 <= MetricsOf(last, l).active <= 1
    ensures MetricsOf(last, l).active == 1 <==>
      exists id :: id in last.workers && Label(last.workers[id]) == l && InSession(last.workers[id].phase)
  {
    hide Reaches, Owned, Progress, InSession;
    StartHolds(c, l);
    EveryRun(Start(c), moves, last, l);
    forall a, b | a in last.workers && b in last.workers && last.workers[a].peer.name == last.workers[b].peer.name
      ensures a == b
    {
      OneTaskPerName(last, a, b);
    }
  }

  /** For each label, sessions started are the one that is on, those that ended under
      exactly one of four reasons, and those that were cancelled; finished connects are
      connect failures, failed handshakes, sessions, and a handshake being sent. */
  lemma {:induction false} ClientConservation(c: Config, moves: seq<Move>, last: World, l: PeerLabel)
    requires Reaches(Start(c), moves, last)
    ensures
      var m, y := MetricsOf(last, l), TallyOf(last, l);
      && m.sessions == m.active + EndedTotal(m.disconnects) + y.cancelled
      && 0 <= y.connects - (Get(m.disconnects, ConnectFailed) + y.handshakes + m.sessions) <= 1
      && ((forall id :: id in last.workers && Label(last.workers[id]) == l ==> !Greeting(last.workers[id].phase)) ==>
        y.connects == Get(m.disconnects, ConnectFailed) + y.handshakes + m.sessions)
  {
    hide Reaches, Owned, Progress, InSession, EndedTotal, Get, Greeting;
    StartHolds(c, l);
    EveryRun(Start(c), moves, last, l);
  }

  /** In every reachable world a task that has pre-created its label's disconnect entries
      has all five, and none of its moves creates another: not a connect failure, and not
      the end of a session. */
  lemma {:induction false} NoLateClientLabels(c: Config, moves: seq<Move>, last: World, id: nat, m: WorkerMove)
    requires Reaches(Start(c), moves, last) && id in last.workers && !last.workers[id].phase.Preparing?
    ensures
      var l := Label(last.workers[id]);
      && MetricsOf(last, l).disconnects.Keys == CLIENT_DISCONNECT_REASONS
      && (WorkerMay(last.workers[id], m) ==>
        MetricsOf(NextWorker(last, id, m), l).disconnects.Keys == CLIENT_DISCONNECT_REASONS)
  {
    hide Reaches, Owned, Progress, WorkerMay, NextPhase, NextMetrics, NextTally;
    var l := Label(last.workers[id]);
    StartHolds(c, l);
    EveryRun(Start(c), moves, last, l);
    if WorkerMay(last.workers[id], m) {
      NotPreparing(last.workers[id], m);
      EntriesStay(last.workers[id], m, MetricsOf(last, l));
    }
  }

  lemma {:induction false} NotPreparing(k: Worker, m: WorkerMove)
    requires WorkerMay(k, m) && !k.phase.Preparing?
    ensures !m.Prepare?
  {
  }

  /** Whenever the manager waits, its tasks are those of the config it last read, and
      nothing else is running; with no config unseen, that is the last one sent, whatever
      came before it. */
  lemma {:induction false} Convergence(c: Config, moves: seq<Move>, last: World)
    requires Reaches(Start(c), moves, last) && last.pc.Waiting?
    ensures last.seen < |last.sent| && last.config == last.sent[last.seen]
    ensures Reconciled(last.base, last.config, last.tasks)
    ensures Roster(last.tasks) == Wanted(last.config)
    ensures last.workers.Keys == Ids(last.tasks)
    ensures forall name :: name in last.tasks ==> Runs(last.workers, name, last.tasks[name])
    ensures last.seen + 1 == |last.sent| ==> Roster(last.tasks) == Wanted(last.sent[|last.sent| - 1])
  {
    hide Reaches, Runs;
    StartHolds(c, PeerLabel("", ""));
    EveryRun(Start(c), moves, last, PeerLabel("", ""));
    LiveAreTasks(last);
  }

  lemma {:induction false} LiveAreTasks(w: World)
    requires Owned(w) && w.stopping.None? && !w.pc.Draining?
    ensures w.workers.Keys == Ids(w.tasks)
    ensures forall name :: name in w.tasks ==> Runs(w.workers, name, w.tasks[name])
  {
    forall id | id in w.workers ensures id in Ids(w.tasks) {
      assert Accounted(w, id);
      assert w.tasks[w.workers[id].peer.name].id == id;
    }
    forall id | id in Ids(w.tasks) ensures id in w.workers {
      var name :| name in w.tasks && w.tasks[name].id == id;
      assert Runs(w.workers, name, Held(w)[name]);
    }
    forall name | name in w.tasks ensures Runs(w.workers, name, w.tasks[name]) {
      assert Runs(w.workers, name, Held(w)[name]);
    }
  }

  /** The manager leaves only when it is shut down, or when the channel has hung up with no
      config unseen. */
  lemma {:induction false} LeavesOnlyWhenDue(c: Config, moves: seq<Move>, last: World)
    requires Reaches(Start(c), moves, last) && (last.pc.Exited? || (last.pc.Draining? && last.pc.exit))
    ensures last.shutdown || (last.closed && last.seen + 1 == |last.sent|)
  {
    hide Reaches;
    StartHolds(c, PeerLabel("", ""));
    EveryRun(Start(c), moves, last, PeerLabel("", ""));
  }

  /** However the manager leaves, no task is left running. */
  lemma {:induction false} NothingOutlivesManager(c: Config, moves: seq<Move>, last: World)
    requires Reaches(Start(c), moves, last) && last.pc.Exited?
    ensures last.workers == map[]
  {
    hide Reaches, Runs;
    StartHolds(c, PeerLabel("", ""));
    EveryRun(Start(c), moves, last, PeerLabel("", ""));
    LiveAreTasks(last);
    assert Ids(map[]) == {};
  }

  // ---------------------------------------------------------------------
  // Whose settings a session runs with
  // ---------------------------------------------------------------------

  /** The worker was started for this config, with its settings and node name. */
  predicate From(c: Config, k: Worker) {
    && c.client == Some(k.client) && c.node == k.node
    && k.peer.name in PeerMap(c) && PeerMap(c)[k.peer.name] == k.peer
  }

  ghost predicate Descends(w: World) {
    forall id :: id in w.workers ==> exists v :: 0 <= v < |w.sent| && From(w.sent[v], w.workers[id])
  }

  predicate SameSettings(a: Worker, b: Worker) {
    a.peer == b.peer && a.client == b.client && a.node == b.node
  }

  lemma {:induction false} FromSame(c: Config, a: Worker, b: Worker)
    requires From(c, a) && SameSettings(a, b)
    ensures From(c, b)
  {
  }

  /** From w to t no worker changed its settings, but t may have one more, from w's config. */
  ghost predicate Inherits(w: World, t: World) {
    && w.sent <= t.sent
    && forall id :: id in t.workers ==>
      if id in w.workers then SameSettings(w.workers[id], t.workers[id])
      else w.seen < |w.sent| && From(w.sent[w.seen], t.workers[id])
  }

  lemma {:induction false} DescendsInherits(w: World, t: World)
    requires Descends(w) && Inherits(w, t)
    ensures Descends(t)
  {
    hide From, SameSettings;
    forall id | id in t.workers ensures exists v :: 0 <= v < |t.sent| && From(t.sent[v], t.workers[id]) {
      if id in w.workers {
        var v :| 0 <= v < |w.sent| && From(w.sent[v], w.workers[id]);
        FromSame(w.sent[v], w.workers[id], t.workers[id]);
        assert t.sent[v] == w.sent[v];
      } else {
        assert t.sent[w.seen] == w.sent[w.seen];
      }
    }
  }

  lemma {:induction false} DescendsStep(w: World, m: Move)
    requires Possible(w, m) && Owned(w) && Progress(w) && Descends(w)
    ensures Descends(Next(w, m))
  {
    hide Owned, Progress, Descends, Inherits, ManagerMay, WorkerMay, NextManager, NextWorker;
    if m.Manage? {
      ManagerInherits(w, m.m);
    } else if m.Work? {
      WorkerInherits(w, m.id, m.k);
    } else {
      OutsideInherits(w, m);
    }
    DescendsInherits(w, Next(w, m));
  }

  lemma {:induction false} OutsideInherits(w: World, m: Move)
    requires (m.Send? || m.Hangup? || m.Shutdown?) && Possible(w, m)
    ensures Inherits(w, Next(w, m))
  {
    hide From;
  }

  lemma {:induction false} WorkerInherits(w: World, id: nat, m: WorkerMove)
    requires id in w.workers && WorkerMay(w.workers[id], m)
    ensures Inherits(w, NextWorker(w, id, m))
  {
    hide From, NextPhase, NextMetrics, NextTally, WorkerMay;
  }

  lemma {:induction false} ManagerInherits(w: World, m: ManagerMove)
    requires ManagerMay(w, m) && Owned(w) && Progress(w)
    ensures Inherits(w, NextManager(w, m))
  {
    hide From, Progress, ReadConfig, StartTask, StopTask;
    if m.StartOne? {
      StartInherits(w, m.name);
    } else if m.StopOne? {
      StopInherits(w, m.name);
    } else {
      TurnKeeps(w, m);
    }
  }

  lemma {:induction false} StopInherits(w: World, name: string)
    requires ManagerMay(w, StopOne(name))
    ensures Inherits(w, StopTask(w, name))
  {
    hide From;
  }

  lemma {:induction false} StartInherits(w: World, name: string)
    requires ManagerMay(w, StartOne(name)) && Owned(w) && Progress(w)
    ensures Inherits(w, StartTask(w, name))
  {
    hide PeersByName, Stale, Reconciled, Keeps, Renews, OnlyWanted, Owned;
    NextIdIsFree(w);
  }

  lemma {:induction false} NextIdIsFree(w: World)
    requires Owned(w)
    ensures w.nextId !in w.workers
  {
    hide Runs, Stops, Accounted;
  }

  lemma {:induction false} EveryDescends(w: World, moves: seq<Move>, last: World)
    requires Owned(w) && Progress(w) && Books(w, PeerLabel("", "")) && Descends(w) && Reaches(w, moves, last)
    ensures Descends(last)
    decreases |moves|
  {
    hide Owned, Progress, Books, Possible, Next, Descends;
    if moves == [] {
    } else {
      StepKeeps(w, moves[0], PeerLabel("", ""));
      DescendsStep(w, moves[0]);
      EveryDescends(Next(w, moves[0]), moves[1..], last);
    }
  }

  /** In every reachable state each live task runs with the [client] settings and the node
      name of one of the configs sent, which asked for exactly its peer; so if all of
      those are valid, its heartbeat interval is between one second and one day. */
  lemma {:induction false} LiveSettings(c: Config, moves: seq<Move>, last: World, parses: string -> bool, id: nat)
    requires Reaches(Start(c), moves, last) && id in last.workers
    ensures exists v :: 0 <= v < |last.sent| && From(last.sent[v], last.workers[id])
    ensures (forall v :: 0 <= v < |last.sent| ==> Valid(last.sent[v], parses)) ==>
      1 <= last.workers[id].client.heartbeatInterval <= MAX_SECONDS
  {
    hide Reaches, Owned, Progress, Books, PeerMap;
    StartHolds(c, PeerLabel("", ""));
    EveryDescends(Start(c), moves, last);
    var v :| 0 <= v < |last.sent| && From(last.sent[v], last.workers[id]);
    if Valid(last.sent[v], parses) {
      assert Timely(Timings(last.sent[v])[2]);
    }
  }
}
