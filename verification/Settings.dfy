/** What the sessions of a manager's world do, in terms of the configs that were sent. */
module Settings {
  import opened Transport
  import opened Metrics
  import opened Composition
  import Config
  import EndToEnd
  import Handshake
  import Limits
  import M = ManagerMachine
  import Plan
  import S = Session
  import Schedule
  import Wire

  /** The session keeps to an interval of this length, whatever happens to it: send k starts at
      least (k + m) intervals after the start, m of the rounds before it having been missed;
      the next send is due as `Plan.Planned` has it; sends are an interval apart but for the
      lateness of the first of the two, and two after a miss; and an echo wait is a full
      interval from when its heartbeat was out. */
  ghost predicate Paced(s: S.State, interval: nat) {
    && |s.ends| == |s.rounds| <= |s.starts| <= |s.rounds| + 1
    && (forall k :: 0 <= k < |s.starts| ==> s.starts[k] >= s.openedAt + (k + Schedule.Missed(s.rounds, k)) * interval)
    && (forall k :: 0 <= k < |s.starts| ==> s.starts[k] >= Due(s, interval, k))
    && (forall k :: 0 <= k < |s.starts| - 1 ==>
      s.starts[k + 1] >= s.starts[k] + interval + if s.rounds[k] then Due(s, interval, k) - s.starts[k] else interval)
    && (s.pc.Head? || s.pc.Sleeping? ==> s.nextSend == Due(s, interval, |s.rounds|))
    && (s.pc.Awaiting? ==> |s.waits| == |s.rounds| + 1 && s.pc.deadline == s.waits[|s.rounds|].at + interval)
  }

  function Due(s: S.State, interval: nat, k: nat): int
    requires k <= |s.rounds| == |s.ends|
  {
    Plan.Planned(interval, s.openedAt, s.rounds, s.ends, k)
  }

  /** It opens with the handshake of this node name, and then sends whole heartbeats. */
  ghost predicate Introduces(s: S.State, node: string) {
    && (s.pc.Greeting? ==> s.out < Handshake.Hello(node))
    && (s.pc.Opening? ==> s.out == Handshake.Hello(node))
    && (S.Recorded(s) ==> Handshake.Hello(node) + Wire.EncodeAll(s.sent) <= s.out)
  }

  /** The event counts a timeout just when it is the end of an echo wait without an echo,
      and with as many missed rounds before it as make `patience` in a row; and that is at
      least 2 * patience - 1 intervals after the first of their sends. */
  ghost predicate TimesOutOn(s: S.State, e: Event, interval: nat, patience: nat, counts: bool)
    requires Paced(s, interval) && patience > 0
  {
    var r := |s.rounds|;
    && (counts <==>
      && e.act.Timer? && s.pc.Awaiting? && !s.pc.gotEcho
      && r + 1 >= patience && forall i :: r + 1 - patience <= i < r ==> !s.rounds[i])
    && (counts ==> |s.starts| == r + 1 >= patience && e.at >= s.starts[r + 1 - patience] + (2 * patience - 1) * interval)
  }

  lemma {:induction false} PacedSession(p: S.Params, s: S.State)
    requires Schedule.SendsSpaced(p, s) && Plan.OnPlan(p, s) && Plan.KeepsPlan(p, s)
    ensures Paced(s, p.interval)
  {
    hide Plan.KeepsPlan, Plan.Planned;
    forall k | 0 <= k < |s.starts| - 1
      ensures s.starts[k + 1] >= s.starts[k] + p.interval + if s.rounds[k] then Due(s, p.interval, k) - s.starts[k] else p.interval
    {
      Plan.SendsApart(p, s, k);
    }
    forall k | 0 <= k < |s.starts| ensures s.starts[k] >= Due(s, p.interval, k) {
      StartsWhenDue(p, s, k);
    }
  }

  lemma {:induction false} StartsWhenDue(p: S.Params, s: S.State, k: nat)
    requires Plan.OnPlan(p, s) && Plan.KeepsPlan(p, s) && k < |s.starts|
    ensures k <= |s.rounds| == |s.ends| && s.starts[k] >= Due(s, p.interval, k)
  {
    hide Plan.Planned;
    assert Plan.DueAt(p, s, k) <= s.starts[k];
  }

  lemma {:induction false} TimeoutCounts(p: S.Params, s: S.State, e: Event)
    requires S.Enabled(p, s, e) && Paced(s, p.interval)
    requires Schedule.TimesOutDuly(p, S.Step(p, s, e))
    ensures TimesOutOn(s, e, p.interval, if p.maxMisses == 0 then 1 else p.maxMisses, Schedule.TimedOut(S.Step(p, s, e)))
  {
    hide S.Enabled, S.Step, Due, Schedule.Missed;
    var u, r, k := S.Step(p, s, e), |s.rounds|, Schedule.Patience(p);
    TimeoutIsMiss(p, s, e);
    if e.act.Timer? && s.pc.Awaiting? && !s.pc.gotEcho {
      assert u.rounds == s.rounds + [false];
      assert Schedule.TimedOut(u) <==> r + 1 >= k && forall i :: r + 1 - k <= i < r + 1 ==> !u.rounds[i];
      assert forall i :: 0 <= i < r ==> u.rounds[i] == s.rounds[i];
      assert !u.rounds[r];
    }
  }

  lemma {:induction false} TimeoutIsMiss(p: S.Params, s: S.State, e: Event)
    requires S.Enabled(p, s, e)
    ensures
      var u := S.Step(p, s, e);
      && u.clock == e.at
      && if e.act.Timer? && s.pc.Awaiting? && !s.pc.gotEcho then u.rounds == s.rounds + [false] && u.starts == s.starts
         else !Schedule.TimedOut(u)
  {
    hide Wire.Encode, Wire.Decode, Feed, Inc, S.Successor, S.EchoSeen, S.RoundMissed, S.Ended;
  }

  // ---------------------------------------------------------------------
  // In every reachable world
  // ---------------------------------------------------------------------

  lemma {:induction false} RunIsPaced(p: S.Params, clock: int, base: ClientMetrics, script: seq<Event>, s: S.State)
    requires S.Leads(p, clock, base, script, s)
    ensures Paced(s, p.interval)
  {
    hide S.Legal, S.Run, S.Fresh, Schedule.SendsSpaced, Plan.OnPlan, Plan.KeepsPlan, Paced;
    Schedule.SendSchedule(p, clock, base, script, |script|);
    Plan.EveryRun(p, clock, base, script, |script|);
    PacedSession(p, s);
  }

  lemma {:induction false} RunIntroduces(k: M.Worker, clock: int, base: ClientMetrics, script: seq<Event>, s: S.State)
    requires S.Leads(M.ParamsOf(k), clock, base, script, s)
    ensures Introduces(s, k.node)
  {
    hide S.Legal, S.Run, S.Fresh, Handshake.Hello;
    var p := M.ParamsOf(k);
    HelloSome(k.node);
    LeadsFramed(p, clock, base, script, |script|);
    assert s.pc.Greeting? ==> p.hello[..s.pc.written] < p.hello;
  }

  lemma {:induction false} HelloSome(node: string)
    ensures Handshake.Hello(node) != []
  {
  }

  ghost predicate CountsTimeout(w: M.World, t: M.World, l: PeerLabel) {
    Get(M.MetricsOf(t, l).disconnects, Timeout) != Get(M.MetricsOf(w, l).disconnects, Timeout)
  }

  /** Every session of every reachable world was started for a config that was sent, and
      does what that config says: it keeps to its `heartbeat_interval`, introduces itself
      under its node name, and times out after as many misses in a row as its `max_misses`. */
  lemma {:induction false} SessionsRunAsSent(c: Config.Config, moves: seq<M.Move>, last: M.World, id: nat) returns (v: nat)
    requires M.Reaches(M.Start(c), moves, last) && id in last.workers && last.workers[id].phase.Running?
    ensures
      var s := last.workers[id].phase.s;
      && v < |last.sent| && M.From(last.sent[v], last.workers[id])
      && var client := last.sent[v].client.value;
      && Paced(s, client.heartbeatInterval * 1_000_000_000)
      && Introduces(s, last.sent[v].node)
      && forall e :: M.Possible(last, M.Work(id, M.SessionMove(e))) ==>
        TimesOutOn(s, e, client.heartbeatInterval * 1_000_000_000, if client.maxMisses == 0 then 1 else client.maxMisses,
          CountsTimeout(last, M.Next(last, M.Work(id, M.SessionMove(e))), M.Label(last.workers[id])))
  {
    hide M.Reaches, M.Owned, M.Progress, M.Books, S.Leads, M.From, Handshake.Hello, M.Possible, Paced, Introduces, TimesOutOn, M.Next, CountsTimeout;
    var k := last.workers[id];
    var l, p, s := M.Label(k), M.ParamsOf(k), k.phase.s;
    M.StartHolds(c, l);
    M.StartHolds(c, PeerLabel("", ""));
    EveryWorldGrown(M.Start(c), moves, last, l);
    assert Grown(k);
    var clock, script :| S.Leads(p, clock, k.phase.base, script, s);
    M.EveryDescends(M.Start(c), moves, last);
    v :| 0 <= v < |last.sent| && M.From(last.sent[v], k);
    FromMeans(last.sent[v], k);
    RunIsPaced(p, clock, k.phase.base, script, s);
    RunIntroduces(k, clock, k.phase.base, script, s);
    forall e | M.Possible(last, M.Work(id, M.SessionMove(e)))
      ensures TimesOutOn(s, e, p.interval, if p.maxMisses == 0 then 1 else p.maxMisses,
        CountsTimeout(last, M.Next(last, M.Work(id, M.SessionMove(e))), l))
    {
      WorldSchedule(c, moves, last, id, e);
      MayMove(last, id, e);
      TimeoutCounts(p, s, e);
      TimeoutShows(last, id, e);
    }
  }

  lemma {:induction false} FromMeans(c: Config.Config, k: M.Worker)
    requires M.From(c, k)
    ensures
      && c.client.Some? && c.node == k.node
      && M.ParamsOf(k).interval == c.client.value.heartbeatInterval * 1_000_000_000
      && M.ParamsOf(k).maxMisses == c.client.value.maxMisses
  {
  }

  lemma {:induction false} MayMove(w: M.World, id: nat, e: Event)
    requires M.Possible(w, M.Work(id, M.SessionMove(e)))
    ensures id in w.workers && w.workers[id].phase.Running? && S.Enabled(M.ParamsOf(w.workers[id]), w.workers[id].phase.s, e)
  {
  }

  /** The metrics show a timeout just when the session has one. */
  lemma {:induction false} TimeoutShows(w: M.World, id: nat, e: Event)
    requires
      && M.Possible(w, M.Work(id, M.SessionMove(e)))
      && M.MetricsOf(w, M.Label(w.workers[id])) == w.workers[id].phase.s.metrics
    ensures
      var p, s := M.ParamsOf(w.workers[id]), w.workers[id].phase.s;
      CountsTimeout(w, M.Next(w, M.Work(id, M.SessionMove(e))), M.Label(w.workers[id])) <==> Schedule.TimedOut(S.Step(p, s, e))
  {
    hide S.Enabled, S.Step, S.Recorded;
    S.StepEffect(M.ParamsOf(w.workers[id]), w.workers[id].phase.s, e);
  }
}
