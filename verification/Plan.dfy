/** The send schedule exactly, for late timers and blocked sends as well: when each send
    is due, and how long each echo wait is. */
module Plan {
  import opened Transport
  import opened Metrics
  import opened Session

  /** When send n is due: one interval after send n - 1 was, unless round n - 1 was missed;
      then one interval after that round ended. */
  function Planned(interval: nat, openedAt: int, rounds: seq<bool>, ends: seq<Mark>, n: nat): int
    requires n <= |rounds| && n <= |ends|
  {
    if n == 0 then openedAt
    else if rounds[n - 1] then Planned(interval, openedAt, rounds, ends, n - 1) + interval
    else ends[n - 1].at + interval
  }

  lemma {:induction false} PlannedBefore(interval: nat, openedAt: int, rounds: seq<bool>, ends: seq<Mark>, b: bool, x: Mark, n: nat)
    requires n <= |rounds| && n <= |ends|
    ensures Planned(interval, openedAt, rounds + [b], ends + [x], n) == Planned(interval, openedAt, rounds, ends, n)
  {
    if n == 0 {
    } else {
      PlannedBefore(interval, openedAt, rounds, ends, b, x, n - 1);
    }
  }

  /** Between misses sends are due on a grid: `since` answered rounds after its first send,
      that many intervals later. */
  lemma {:induction false} PlannedOnGrid(interval: nat, openedAt: int, rounds: seq<bool>, ends: seq<Mark>, n: nat, since: nat)
    requires since <= n <= |rounds| && n <= |ends|
    requires forall k :: n - since <= k < n ==> rounds[k]
    requires since == n || !rounds[n - since - 1]
    ensures Planned(interval, openedAt, rounds, ends, n) ==
      (if since == n then openedAt else ends[n - since - 1].at + interval) + since * interval
  {
    if since == 0 {
    } else {
      PlannedOnGrid(interval, openedAt, rounds, ends, n - 1, since - 1);
    }
  }

  predicate HasOpened(s: State) {
    !s.pc.Greeting? && !s.pc.Opening?
  }

  /** Send k of the session is due then. */
  function DueAt(p: Params, s: State, k: nat): int
    requires k <= |s.rounds| == |s.ends|
  {
    Planned(p.interval, s.openedAt, s.rounds, s.ends, k)
  }

  ghost predicate OnPlan(p: Params, s: State) {
    var n := |s.rounds|;
    && |s.ends| == n && |s.waits| <= |s.starts|
    && (if s.pc.Awaiting? then |s.waits| == n + 1 else if s.pc.Done? then n <= |s.waits| <= n + 1 else |s.waits| == n)
    && (if InFlight(s) then |s.starts| == n + 1 else if s.pc.Done? then n <= |s.starts| <= n + 1 else |s.starts| == n)
    && (!HasOpened(s) ==> n == 0 && s.starts == [])
    && (s.pc.Head? || s.pc.Sleeping? ==> s.nextSend == DueAt(p, s, n))
    && (s.pc.Ready? || InFlight(s) ==> s.nextSend == DueAt(p, s, n) + p.interval)
    && (s.pc.Ready? ==> s.clock >= DueAt(p, s, n))
    && (s.pc.Awaiting? ==>
      && s.pc.deadline == s.waits[n].at + p.interval && s.waits[n].heard <= |s.echoes|
      && (s.pc.gotEcho <==> |s.echoes| > s.waits[n].heard))
  }

  predicate InFlight(s: State) {
    s.pc.Sending? || s.pc.Posted? || s.pc.Awaiting?
  }

  /** No send starts before it is due; no wait without an echo is shorter than a full interval
      from when its heartbeat was out; and a round counts as answered just when an echo,
      of whichever heartbeat, came during its wait. */
  ghost predicate KeepsPlan(p: Params, s: State)
    requires OnPlan(p, s)
  {
    && (forall k :: 0 <= k < |s.starts| ==> DueAt(p, s, k) <= s.starts[k])
    && (forall k :: 0 <= k < |s.rounds| ==> s.waits[k].heard <= s.ends[k].heard && (s.rounds[k] <==> s.ends[k].heard > s.waits[k].heard))
    && (forall k :: 0 <= k < |s.rounds| && !s.rounds[k] ==> s.ends[k].at >= s.waits[k].at + p.interval)
    && (forall k :: 0 <= k < |s.waits| ==> s.starts[k] <= s.waits[k].at)
    && (forall k :: 0 <= k < |s.starts| ==> s.starts[k] <= s.clock)
  }

  lemma {:induction false} FreshOnPlan(p: Params, clock: int, base: ClientMetrics)
    ensures OnPlan(p, Fresh(clock, base)) && KeepsPlan(p, Fresh(clock, base))
  {
  }

  lemma {:induction false} DueBefore(p: Params, s: State, t: State)
    requires |s.rounds| == |s.ends| && |t.rounds| == |t.ends| == |s.rounds| + 1
    requires t.openedAt == s.openedAt && s.rounds <= t.rounds && s.ends <= t.ends
    ensures forall k :: 0 <= k <= |s.rounds| ==> DueAt(p, t, k) == DueAt(p, s, k)
  {
    var n := |s.rounds|;
    forall k | 0 <= k <= n ensures DueAt(p, t, k) == DueAt(p, s, k) {
      PlannedBefore(p.interval, s.openedAt, s.rounds, s.ends, t.rounds[n], t.ends[n], k);
      assert t.rounds == s.rounds + [t.rounds[n]] && t.ends == s.ends + [t.ends[n]];
    }
  }

  lemma {:induction false} PlanStep(p: Params, s: State, e: Event)
    requires Enabled(p, s, e) && OnPlan(p, s) && KeepsPlan(p, s)
    ensures OnPlan(p, Step(p, s, e)) && KeepsPlan(p, Step(p, s, e))
  {
    hide Enabled, Step, OnPlan, KeepsPlan;
    if s.pc.Awaiting? {
      PlanRound(p, s, e);
    } else {
      PlanQuiet(p, s, e);
    }
  }

  lemma {:induction false} PlanQuiet(p: Params, s: State, e: Event)
    requires Enabled(p, s, e) && OnPlan(p, s) && KeepsPlan(p, s) && !s.pc.Awaiting?
    ensures OnPlan(p, Step(p, s, e)) && KeepsPlan(p, Step(p, s, e))
  {
    hide Step, OnPlan, KeepsPlan;
    if s.pc.Opening? {
      PlanOpens(p, s, e);
    } else if InFlight(s) {
      PlanInFlight(p, s, e);
    } else {
      PlanWaits(p, s, e);
    }
  }

  lemma {:induction false} PlanOpens(p: Params, s: State, e: Event)
    requires Enabled(p, s, e) && OnPlan(p, s) && KeepsPlan(p, s) && s.pc.Opening?
    ensures OnPlan(p, Step(p, s, e)) && KeepsPlan(p, Step(p, s, e))
  {
    hide Started;
  }

  lemma {:induction false} PlanInFlight(p: Params, s: State, e: Event)
    requires Enabled(p, s, e) && OnPlan(p, s) && KeepsPlan(p, s) && (s.pc.Sending? || s.pc.Posted?)
    ensures OnPlan(p, Step(p, s, e)) && KeepsPlan(p, Step(p, s, e))
  {
    hide Wire.Encode, Inc, Successor, Ended, Planned;
    SameDue(p, s, Step(p, s, e));
  }

  lemma {:induction false} PlanWaits(p: Params, s: State, e: Event)
    requires Enabled(p, s, e) && OnPlan(p, s) && KeepsPlan(p, s)
    requires s.pc.Greeting? || s.pc.Head? || s.pc.Sleeping? || s.pc.Ready?
    ensures OnPlan(p, Step(p, s, e)) && KeepsPlan(p, Step(p, s, e))
  {
    hide Inc, Ended, Planned;
    SameDue(p, s, Step(p, s, e));
  }

  lemma {:induction false} SameDue(p: Params, s: State, t: State)
    ensures t.openedAt == s.openedAt && t.rounds == s.rounds && t.ends == s.ends && |s.rounds| == |s.ends| ==>
      forall k :: 0 <= k <= |s.rounds| ==> DueAt(p, t, k) == DueAt(p, s, k)
  {
  }

  lemma {:induction false} PlanRound(p: Params, s: State, e: Event)
    requires Enabled(p, s, e) && OnPlan(p, s) && KeepsPlan(p, s) && s.pc.Awaiting?
    ensures OnPlan(p, Step(p, s, e)) && KeepsPlan(p, Step(p, s, e))
  {
    hide Wire.Encode, Wire.Decode, Feed, Inc, Successor, EchoSeen, RoundMissed, Ended, Planned;
    var t, n := Step(p, s, e), |s.rounds|;
    if |t.rounds| > n {
      DueBefore(p, s, t);
      NextDue(p, t, n);
    }
  }

  lemma {:induction false} NextDue(p: Params, s: State, n: nat)
    requires n < |s.rounds| == |s.ends|
    ensures DueAt(p, s, n + 1) == (if s.rounds[n] then DueAt(p, s, n) else s.ends[n].at) + p.interval
  {
  }

  lemma {:induction false} EveryRun(p: Params, clock: int, base: ClientMetrics, script: seq<Event>, n: nat)
    requires n <= |script| && Legal(p, Fresh(clock, base), script, n)
    ensures var s := Run(p, Fresh(clock, base), script, n); OnPlan(p, s) && KeepsPlan(p, s)
    decreases n
  {
    hide Step, Enabled, OnPlan, KeepsPlan, Fresh;
    if n == 0 {
      FreshOnPlan(p, clock, base);
    } else {
      EveryRun(p, clock, base, script, n - 1);
      PlanStep(p, Run(p, Fresh(clock, base), script, n - 1), script[n - 1]);
    }
  }

  /** However late timers fire and however long sends block: the next send is due one
      interval after the one before was due, or one interval after the end of a missed
      round; none starts early; an overdue one starts without any wait; and each echo wait
      is a full interval from when its heartbeat was out. */
  lemma {:induction false} SendsKeepPlan(p: Params, clock: int, base: ClientMetrics, script: seq<Event>, n: nat)
    requires n < |script| && Legal(p, Fresh(clock, base), script, n + 1)
    ensures
      && Legal(p, Fresh(clock, base), script, n)
      && var s, t := Run(p, Fresh(clock, base), script, n), Run(p, Fresh(clock, base), script, n + 1);
      var k := |s.rounds|;
      && OnPlan(p, s) && KeepsPlan(p, s)
      && (s.pc.Head? || s.pc.Sleeping? ==> s.nextSend == DueAt(p, s, k))
      && (s.pc.Head? ==> if DueAt(p, s, k) > script[n].at then t.pc.Sleeping? else t.pc.Ready?)
      && (s.pc.Sleeping? && t.pc.Ready? ==> t.clock >= DueAt(p, s, k))
      && (s.pc.Awaiting? ==> s.pc.deadline == s.waits[k].at + p.interval)
  {
    hide Enabled, OnPlan, KeepsPlan, Fresh, Legal, Run;
    LegalPrefix(p, Fresh(clock, base), script, n + 1, n);
    LastStep(p, Fresh(clock, base), script, n);
    EveryRun(p, clock, base, script, n);
    EveryRun(p, clock, base, script, n + 1);
    var s := Run(p, Fresh(clock, base), script, n);
    PlanMeans(p, s, script[n]);
  }

  lemma {:induction false} LastStep(p: Params, s: State, script: seq<Event>, n: nat)
    requires n < |script| && Legal(p, s, script, n + 1) && Legal(p, s, script, n)
    ensures Enabled(p, Run(p, s, script, n), script[n])
    ensures Run(p, s, script, n + 1) == Step(p, Run(p, s, script, n), script[n])
  {
    hide Step, Enabled;
  }

  lemma {:induction false} PlanMeans(p: Params, s: State, e: Event)
    requires Enabled(p, s, e) && OnPlan(p, s)
    ensures
      var t, k := Step(p, s, e), |s.rounds|;
      && (s.pc.Head? || s.pc.Sleeping? ==> s.nextSend == DueAt(p, s, k))
      && (s.pc.Head? ==> if DueAt(p, s, k) > e.at then t.pc.Sleeping? else t.pc.Ready?)
      && (s.pc.Sleeping? && t.pc.Ready? ==> t.clock >= DueAt(p, s, k))
      && (s.pc.Awaiting? ==> s.pc.deadline == s.waits[k].at + p.interval)
  {
    hide Wire.Encode, Wire.Decode, Feed, Inc, Successor, EchoSeen, RoundMissed, Ended, Planned;
  }

  // ---------------------------------------------------------------------
  // How close two sends can come
  // ---------------------------------------------------------------------

  /** After a missed round the next send starts at least two intervals after the one before.
      After an answered round it starts at least one interval after the one before was due;
      so a full interval apart if that one was on time, and closer by at most its lateness. */
  lemma {:induction false} SendsApart(p: Params, s: State, k: nat)
    requires OnPlan(p, s) && KeepsPlan(p, s) && k + 1 < |s.starts|
    ensures
      var late := s.starts[k] - DueAt(p, s, k);
      && late >= 0
      && s.starts[k + 1] >= s.starts[k] + p.interval + (if s.rounds[k] then -late else p.interval)
      && (late == 0 || !s.rounds[k] ==> s.starts[k + 1] >= s.starts[k] + p.interval)
  {
    hide Planned;
    NextDue(p, s, k);
  }

  /** And for every lateness it can be just that close: after a send that starts `late` late,
      with a prompt echo, the next one starts when it is due, or at once if that has passed. */
  lemma {:induction false} LateSendsBunch(p: Params, clock: int, base: ClientMetrics, late: nat)
    requires p.hello != []
    ensures exists script, s ::
      && Leads(p, clock, base, script, s) && |s.starts| == 2 && s.rounds == [true] && |s.ends| == 1
      && s.starts[0] == DueAt(p, s, 0) + late
      && s.starts[1] == s.starts[0] + if late > p.interval then 0 else p.interval - late
  {
    hide Leads, Wire.Encode, Wire.Decode;
    var beat := Wire.Heartbeat(0, 0);
    var sent := clock + late;
    var s0 := Fresh(clock, base);
    Unstarted(p, clock, base);
    var script, s := Then(p, clock, base, [], s0, Event(clock, Write(|p.hello|)));
    script, s := Then(p, clock, base, script, s, Event(clock, Clock));
    script, s := Then(p, clock, base, script, s, Event(clock, Clock));
    script, s := Then(p, clock, base, script, s, Event(sent, Stamp(0)));
    script, s := Then(p, clock, base, script, s, Event(sent, Write(16)));
    script, s := Then(p, clock, base, script, s, Event(sent, Clock));
    Wire.DecodeEncode(beat);
    assert [] + Wire.Encode(beat) == Wire.Encode(beat);
    script, s := Then(p, clock, base, script, s, Event(sent, Chunk(Wire.Encode(beat))));
    script, s := Then(p, clock, base, script, s, Event(sent, Clock));
    if s.pc.Sleeping? {
      script, s := Then(p, clock, base, script, s, Event(clock + p.interval, Timer));
    }
    script, s := Then(p, clock, base, script, s, Event(s.clock, Stamp(0)));
  }

  lemma {:induction false} Unstarted(p: Params, clock: int, base: ClientMetrics)
    ensures Leads(p, clock, base, [], Fresh(clock, base))
  {
  }

  lemma {:induction false} Then(p: Params, clock: int, base: ClientMetrics, before: seq<Event>, s: State, e: Event)
    returns (script: seq<Event>, t: State)
    requires Leads(p, clock, base, before, s) && Enabled(p, s, e)
    ensures Leads(p, clock, base, script, t) && t == Step(p, s, e)
  {
    hide Leads, Step, Enabled;
    LeadsOn(p, clock, base, before, s, e);
    script, t := before + [e], Step(p, s, e);
  }
}
