/** When sends start, how rounds are counted, and when a session times out. Time is an
    integer; timers are never early but may be late, and a send may block for
    any length of time. */
module Schedule {
  import opened Wire
  import opened Transport
  import opened Metrics
  import opened Session

  /** How many of the first n rounds were missed. */
  function Missed(rounds: seq<bool>, n: nat): nat
    requires n <= |rounds|
  {
    if n == 0 then 0 else Missed(rounds, n - 1) + if rounds[n - 1] then 0 else 1
  }

  /** How many rounds just before the n-th were missed in a row. */
  function Trailing(rounds: seq<bool>, n: nat): (c: nat)
    requires n <= |rounds|
    ensures c <= n
  {
    if n == 0 || rounds[n - 1] then 0 else Trailing(rounds, n - 1) + 1
  }

  lemma {:induction false} TrailingIsMaximalRun(rounds: seq<bool>, n: nat)
    requires n <= |rounds|
    ensures
      var c := Trailing(rounds, n);
      && (forall i :: n - c <= i < n ==> !rounds[i])
      && (c < n ==> rounds[n - c - 1])
  {
    if n == 0 || rounds[n - 1] {
    } else {
      TrailingIsMaximalRun(rounds, n - 1);
    }
  }

  lemma {:induction false} MissedSnoc(rounds: seq<bool>, b: bool, n: nat)
    requires n <= |rounds|
    ensures Missed(rounds + [b], n) == Missed(rounds, n)
    ensures Trailing(rounds + [b], n) == Trailing(rounds, n)
  {
    if n == 0 {
    } else {
      MissedSnoc(rounds, b, n - 1);
    }
  }

  /** The length of n intervals. */
  function Span(p: Params, n: int): int {
    n * p.interval
  }

  /** The k-th interval boundary after t. */
  function Boundary(t: int, k: nat, interval: nat): int {
    if k == 0 then t else Boundary(t, k - 1, interval) + interval
  }

  lemma {:induction false} BoundaryIsSpan(p: Params, t: int, k: nat)
    ensures Boundary(t, k, p.interval) == t + Span(p, k)
  {
    if k == 0 {
    } else {
      BoundaryIsSpan(p, t, k - 1);
    }
  }

  /** The earliest time send k can start. */
  function Slot(p: Params, s: State, k: nat): int
    requires k <= |s.rounds|
  {
    Boundary(s.openedAt, k + Missed(s.rounds, k), p.interval)
  }

  lemma {:induction false} SlotSnoc(p: Params, s: State, t: State, answered: bool)
    requires t.openedAt == s.openedAt && t.rounds == s.rounds + [answered]
    ensures forall k :: 0 <= k <= |s.rounds| ==> Slot(p, t, k) == Slot(p, s, k)
    ensures Slot(p, t, |t.rounds|) == Slot(p, s, |s.rounds|) + p.interval + if answered then 0 else p.interval
  {
    forall k | 0 <= k <= |s.rounds| ensures Slot(p, t, k) == Slot(p, s, k) {
      MissedSnoc(s.rounds, answered, k);
    }
    MissedSnoc(s.rounds, answered, |s.rounds|);
    BoundaryAdds(s.openedAt, |s.rounds| + Missed(s.rounds, |s.rounds|), p.interval);
  }

  predicate InRound(s: State) {
    s.pc.Sending? || s.pc.Posted? || s.pc.Awaiting?
  }

  /** Sends start no earlier than their slots, and every instant the session computes
      is at most one interval ahead of the clock. */
  ghost predicate OnSchedule(p: Params, s: State) {
    var n := |s.rounds|;
    && (if InRound(s) then |s.starts| == n + 1 else n <= |s.starts| <= n + 1 && (!s.pc.Done? ==> |s.starts| == n))
    && (forall j :: 0 <= j < |s.starts| ==> Slot(p, s, j) <= s.starts[j] <= s.clock)
    && (s.pc.Greeting? || s.pc.Opening? ==> s.starts == [])
    && s.nextSend <= s.clock + p.interval
    && (s.pc.Head? || s.pc.Sleeping? ==> Slot(p, s, n) <= s.nextSend)
    && (s.pc.Ready? ==> Slot(p, s, n) <= s.clock)
    && (s.pc.Ready? || InRound(s) ==> Slot(p, s, n) + p.interval <= s.nextSend)
    && (s.pc.Awaiting? ==> s.starts[n] + p.interval <= s.pc.deadline <= s.clock + p.interval)
  }

  lemma {:induction false} OnScheduleStep(p: Params, s: State, e: Event)
    requires Enabled(p, s, e) && OnSchedule(p, s)
    ensures OnSchedule(p, Step(p, s, e))
  {
    hide Encode, Decode, Feed, Boundary, Started, EchoSeen, RoundMissed, Ended, Successor;
    var t := Step(p, s, e);
    if t.rounds == s.rounds {
      assert forall k :: 0 <= k <= |s.rounds| && t.openedAt == s.openedAt ==> Slot(p, t, k) == Slot(p, s, k);
      if s.pc.Opening? {
        OpeningSlot(p, t);
      }
    } else {
      RoundEnds(p, s, e);
    }
  }

  lemma {:induction false} OpeningSlot(p: Params, s: State)
    ensures Slot(p, s, 0) == s.openedAt
  {
  }

  lemma {:induction false} RoundEnds(p: Params, s: State, e: Event)
    requires Enabled(p, s, e) && OnSchedule(p, s)
    requires Step(p, s, e).rounds != s.rounds
    ensures OnSchedule(p, Step(p, s, e))
  {
    hide Encode, Decode, Feed, Boundary, Started, EchoSeen, RoundMissed, Ended, Successor;
    var t := Step(p, s, e);
    SlotSnoc(p, s, t, t.rounds[|s.rounds|]);
  }

  // ---------------------------------------------------------------------
  // Counting rounds and misses
  // ---------------------------------------------------------------------

  /** How many misses in a row end a session; the setting itself may be 0. */
  function Patience(p: Params): nat {
    if p.maxMisses == 0 then 1 else p.maxMisses
  }

  predicate TimedOut(s: State) {
    s.pc == Done(Disconnected(Timeout))
  }

  function MissesInARow(s: State): nat {
    Trailing(s.rounds, |s.rounds|)
  }

  ghost predicate Accounted(p: Params, base: ClientMetrics, s: State) {
    var n, c := |s.rounds|, MissesInARow(s);
    && (!s.pc.Done? ==> s.misses == if s.pc.Awaiting? && s.pc.gotEcho then 0 else c)
    && 0 <= s.misses <= c
    && (if TimedOut(s) then c == Patience(p) else c < Patience(p))
    && (if s.pc.Awaiting? then |s.sent| == n + 1
        else if s.pc.Done? && !TimedOut(s) then n <= |s.sent| <= n + 1
        else |s.sent| == n)
    && (if Recorded(s) then
          && s.metrics.consecutive == s.misses
          && s.metrics.sent == base.sent + |s.sent|
          && s.metrics.received == base.received + |s.echoes|
          && s.metrics.missed == base.missed + Missed(s.rounds, n)
        else
          s.metrics == base && n == 0 && s.sent == [] && s.echoes == [] && s.misses == 0)
  }

  lemma {:induction false} AccountedStep(p: Params, base: ClientMetrics, s: State, e: Event)
    requires Enabled(p, s, e) && Accounted(p, base, s)
    ensures Accounted(p, base, Step(p, s, e))
  {
    hide Step, Accounted;
    if !s.pc.Awaiting? {
      AccountedQuiet(p, base, s, e);
    } else if e.act.Chunk? {
      AccountedRead(p, base, s, e);
    } else {
      AccountedEnd(p, base, s, e);
    }
  }

  lemma {:induction false} AccountedQuiet(p: Params, base: ClientMetrics, s: State, e: Event)
    requires Enabled(p, s, e) && Accounted(p, base, s) && !s.pc.Awaiting?
    ensures Accounted(p, base, Step(p, s, e))
  {
    hide Encode, Decode, Feed, Inc, Successor;
  }

  lemma {:induction false} AccountedRead(p: Params, base: ClientMetrics, s: State, e: Event)
    requires Enabled(p, s, e) && Accounted(p, base, s) && s.pc.Awaiting? && e.act.Chunk?
    ensures Accounted(p, base, Step(p, s, e))
  {
    hide Encode, Decode, Feed, Inc, Successor;
    MissedSnoc(s.rounds, true, |s.rounds|);
  }

  lemma {:induction false} AccountedEnd(p: Params, base: ClientMetrics, s: State, e: Event)
    requires Enabled(p, s, e) && Accounted(p, base, s) && s.pc.Awaiting? && !e.act.Chunk?
    ensures Accounted(p, base, Step(p, s, e))
  {
    hide Encode, Decode, Feed, Inc, Successor;
    MissedSnoc(s.rounds, true, |s.rounds|);
    MissedSnoc(s.rounds, false, |s.rounds|);
  }

  // ---------------------------------------------------------------------
  // The time a timeout takes
  // ---------------------------------------------------------------------

  /** Each miss in a row costs two intervals: the echo wait and the reset after it. */
  ghost predicate Patient(p: Params, s: State)
    requires OnSchedule(p, s)
  {
    var n, c := |s.rounds|, MissesInARow(s);
    && (c > 0 && (s.pc.Head? || s.pc.Sleeping?) ==> Boundary(s.starts[n - c], 2 * c, p.interval) <= s.nextSend)
    && (c > 0 && s.pc.Ready? ==> Boundary(s.starts[n - c], 2 * c, p.interval) <= s.clock)
    && (InRound(s) ==> Boundary(s.starts[n - c], 2 * c, p.interval) <= s.starts[n])
    && (TimedOut(s) ==> c > 0 && |s.starts| == n && Boundary(s.starts[n - c], 2 * c - 1, p.interval) <= s.clock)
  }

  lemma {:induction false} PatientStep(p: Params, s: State, e: Event)
    requires Enabled(p, s, e) && OnSchedule(p, s) && OnSchedule(p, Step(p, s, e)) && Patient(p, s)
    ensures Patient(p, Step(p, s, e))
  {
    hide Step, OnSchedule, Patient;
    if s.pc.Awaiting? && e.act.Chunk? {
      PatientRead(p, s, e);
    } else if s.pc.Awaiting? {
      PatientEnd(p, s, e);
    } else {
      PatientQuiet(p, s, e);
    }
  }

  lemma {:induction false} PatientQuiet(p: Params, s: State, e: Event)
    requires Enabled(p, s, e) && OnSchedule(p, s) && Patient(p, s) && !s.pc.Awaiting?
    requires OnSchedule(p, Step(p, s, e))
    ensures Patient(p, Step(p, s, e))
  {
    hide Encode, Decode, Feed, Slot, Started, EchoSeen, RoundMissed, Ended, Successor;
  }

  lemma {:induction false} PatientRead(p: Params, s: State, e: Event)
    requires Enabled(p, s, e) && OnSchedule(p, s) && Patient(p, s) && s.pc.Awaiting? && e.act.Chunk?
    requires OnSchedule(p, Step(p, s, e))
    ensures Patient(p, Step(p, s, e))
  {
    hide Encode, Decode, Feed, Slot, Started, EchoSeen, RoundMissed, Ended, Successor, Boundary;
    MissedSnoc(s.rounds, true, |s.rounds|);
  }

  lemma {:induction false} PatientEnd(p: Params, s: State, e: Event)
    requires Enabled(p, s, e) && OnSchedule(p, s) && Patient(p, s) && s.pc.Awaiting? && !e.act.Chunk?
    requires OnSchedule(p, Step(p, s, e))
    ensures Patient(p, Step(p, s, e))
  {
    hide Encode, Decode, Feed, Slot, Started, EchoSeen, RoundMissed, Ended, Successor;
    var n, c := |s.rounds|, MissesInARow(s);
    MissedSnoc(s.rounds, true, n);
    MissedSnoc(s.rounds, false, n);
    BoundaryAdds(s.starts[n - c], 2 * c, p.interval);
  }

  lemma {:induction false} BoundaryAdds(t: int, k: nat, interval: nat)
    ensures Boundary(t, k + 1, interval) == Boundary(t, k, interval) + interval
    ensures Boundary(t, k + 2, interval) == Boundary(t, k, interval) + interval + interval
  {
    assert Boundary(t, k + 2, interval) == Boundary(t, k + 1, interval) + interval;
  }

  // ---------------------------------------------------------------------
  // Exact timers and instantaneous sends
  // ---------------------------------------------------------------------

  /** Sleeps and deadlines fire on the tick, and nothing else takes time. */
  predicate Exact(s: State, e: Event) {
    && (e.act.Clock? || e.act.Stamp? || e.act.Write? ==> s.pc.Opening? || s.pc.Greeting? || e.at == s.clock)
    && (e.act.Timer? && s.pc.Sleeping? ==> e.at == s.nextSend)
    && (e.act.Timer? && s.pc.Awaiting? ==> e.at == s.pc.deadline)
    && (e.act.Chunk? && s.pc.Awaiting? ==> e.at <= s.pc.deadline)
  }

  ghost predicate OnGrid(p: Params, s: State)
    requires OnSchedule(p, s)
  {
    var n := |s.rounds|;
    && (forall j :: 0 <= j < |s.starts| ==> s.starts[j] == Slot(p, s, j))
    && (s.pc.Head? || s.pc.Sleeping? ==> s.clock <= s.nextSend == Slot(p, s, n))
    && (s.pc.Ready? || s.pc.Sending? || s.pc.Posted? ==> s.clock == Slot(p, s, n))
    && (s.pc.Ready? || InRound(s) ==> s.nextSend == Slot(p, s, n) + p.interval)
    && (s.pc.Awaiting? ==> s.clock <= s.pc.deadline == s.nextSend)
    && (TimedOut(s) ==> |s.starts| == n && s.clock + p.interval == Slot(p, s, n))
  }

  lemma {:induction false} OnGridStep(p: Params, s: State, e: Event)
    requires Enabled(p, s, e) && Exact(s, e)
    requires OnSchedule(p, s) && OnSchedule(p, Step(p, s, e)) && OnGrid(p, s)
    ensures OnGrid(p, Step(p, s, e))
  {
    hide Step, OnSchedule, OnGrid;
    if s.pc.Awaiting? {
      OnGridRound(p, s, e);
    } else {
      OnGridQuiet(p, s, e);
    }
  }

  lemma {:induction false} OnGridQuiet(p: Params, s: State, e: Event)
    requires Enabled(p, s, e) && Exact(s, e) && OnSchedule(p, s) && OnGrid(p, s) && !s.pc.Awaiting?
    requires OnSchedule(p, Step(p, s, e))
    ensures OnGrid(p, Step(p, s, e))
  {
    hide Encode, Decode, Feed, Boundary, Started, EchoSeen, RoundMissed, Ended, Successor;
    var t := Step(p, s, e);
    assert forall k :: 0 <= k <= |s.rounds| && t.openedAt == s.openedAt ==> Slot(p, t, k) == Slot(p, s, k);
    OpeningSlot(p, t);
  }

  lemma {:induction false} OnGridRound(p: Params, s: State, e: Event)
    requires Enabled(p, s, e) && Exact(s, e) && OnSchedule(p, s) && OnGrid(p, s) && s.pc.Awaiting?
    requires OnSchedule(p, Step(p, s, e))
    ensures OnGrid(p, Step(p, s, e))
  {
    hide Encode, Decode, Feed, Boundary, Started, EchoSeen, RoundMissed, Ended, Successor;
    var t := Step(p, s, e);
    if t.rounds != s.rounds {
      SlotSnoc(p, s, t, t.rounds[|s.rounds|]);
    }
  }

  // ---------------------------------------------------------------------
  // Every run
  // ---------------------------------------------------------------------

  lemma {:induction false} EveryRun(p: Params, clock: int, base: ClientMetrics, script: seq<Event>, n: nat)
    requires n <= |script| && Legal(p, Fresh(clock, base), script, n)
    ensures
      var s := Run(p, Fresh(clock, base), script, n);
      OnSchedule(p, s) && Accounted(p, base, s) && Patient(p, s)
  {
    hide Fresh, Step, Enabled, OnSchedule, Accounted, Patient;
    if n == 0 {
      FreshHolds(p, clock, base);
    } else {
      EveryRun(p, clock, base, script, n - 1);
      var s := Run(p, Fresh(clock, base), script, n - 1);
      OnScheduleStep(p, s, script[n - 1]);
      AccountedStep(p, base, s, script[n - 1]);
      PatientStep(p, s, script[n - 1]);
    }
  }

  lemma {:induction false} FreshHolds(p: Params, clock: int, base: ClientMetrics)
    ensures
      var s := Fresh(clock, base);
      OnSchedule(p, s) && Accounted(p, base, s) && Patient(p, s) && OnGrid(p, s)
  {
  }

  /** Send k starts no earlier than (k + m) intervals after the session opened, m of the
      rounds before it having been missed; hence at most one send per interval. */
  ghost predicate SendsSpaced(p: Params, s: State) {
    && |s.rounds| <= |s.starts| <= |s.rounds| + 1
    && (forall k :: 0 <= k < |s.starts| ==> s.starts[k] >= s.openedAt + Span(p, k + Missed(s.rounds, k)))
    && (s.starts != [] && p.interval > 0 ==> |s.starts| <= 1 + (s.clock - s.openedAt) / p.interval)
  }

  /** Timed out just when `Patience` rounds in a row were missed, and then at least
      2 * Patience - 1 intervals after the first of their sends. */
  ghost predicate TimesOutDuly(p: Params, s: State) {
    var k, r := Patience(p), |s.rounds|;
    && (TimedOut(s) <==> r >= k && forall i :: r - k <= i < r ==> !s.rounds[i])
    && (TimedOut(s) ==> k <= r == |s.starts| == |s.sent| && (k < r ==> s.rounds[r - k - 1]))
    && (TimedOut(s) ==> s.clock >= s.starts[r - k] + Span(p, 2 * k - 1))
  }

  /** The gauge at a loop head is the length of the trailing run of echo-free rounds, and
      below the limit; sends are missed rounds, answered rounds and at most one more. */
  ghost predicate CountsRounds(p: Params, base: ClientMetrics, s: State) {
    && (s.pc.Head? ==> s.metrics.consecutive == s.misses == MissesInARow(s) < Patience(p))
    && (Recorded(s) ==> s.metrics.consecutive == s.misses)
    && 0 <= s.misses <= Patience(p)
    && (s.pc.Head? ==> s.metrics.sent - base.sent == |s.rounds|)
    && |s.rounds| <= s.metrics.sent - base.sent <= |s.rounds| + 1
    && s.metrics.missed - base.missed == Missed(s.rounds, |s.rounds|)
    && s.metrics.received - base.received == |s.echoes|
  }

  /** Every instant that the session has computed is at most one interval away. */
  predicate InRange(p: Params, s: State) {
    s.nextSend <= s.clock + p.interval && (s.pc.Awaiting? ==> s.pc.deadline <= s.clock + p.interval)
  }

  /** With m misses before round k, send k starts no earlier than (k + m) intervals after
      the session opened; so there is never more than one send per interval, even while
      the loop catches up after blocked sends. */
  lemma {:induction false} SendSchedule(p: Params, clock: int, base: ClientMetrics, script: seq<Event>, n: nat)
    requires n <= |script| && Legal(p, Fresh(clock, base), script, n)
    ensures SendsSpaced(p, Run(p, Fresh(clock, base), script, n))
  {
    hide Run, Legal, OnSchedule, Accounted, Patient;
    EveryRun(p, clock, base, script, n);
    SlotsBound(p, Run(p, Fresh(clock, base), script, n));
  }

  lemma {:induction false} SlotsBound(p: Params, s: State)
    requires OnSchedule(p, s)
    ensures |s.rounds| <= |s.starts| <= |s.rounds| + 1
    ensures forall k :: 0 <= k < |s.starts| ==> s.starts[k] >= s.openedAt + Span(p, k + Missed(s.rounds, k))
    ensures s.starts != [] && p.interval > 0 ==> |s.starts| <= 1 + (s.clock - s.openedAt) / p.interval
  {
    hide Boundary;
    forall k | 0 <= k < |s.starts| ensures s.starts[k] >= s.openedAt + Span(p, k + Missed(s.rounds, k)) {
      BoundaryIsSpan(p, s.openedAt, k + Missed(s.rounds, k));
    }
    if s.starts != [] && p.interval > 0 {
      var k := |s.starts| - 1;
      assert k * p.interval <= (k + Missed(s.rounds, k)) * p.interval;
      assert s.clock >= s.starts[k];
      AtMost(s.clock - s.openedAt, k, p.interval);
    }
  }

  lemma {:induction false} AtMost(t: int, k: nat, d: nat)
    requires d > 0 && t >= k * d
    ensures k <= t / d
  {
    var q := t / d;
    assert t < (q + 1) * d;
    assert k >= q + 1 ==> k * d >= (q + 1) * d;
  }

  /** Every instant the session computes is at most one interval away. */
  lemma {:induction false} InstantsInRange(p: Params, clock: int, base: ClientMetrics, script: seq<Event>, n: nat)
    requires n <= |script| && Legal(p, Fresh(clock, base), script, n)
    ensures InRange(p, Run(p, Fresh(clock, base), script, n))
  {
    EveryRun(p, clock, base, script, n);
  }

  /** A session times out exactly when `Patience` rounds in a row were missed, which takes
      at least 2 * Patience - 1 intervals from the first of their sends. */
  lemma {:induction false} TimeoutBound(p: Params, clock: int, base: ClientMetrics, script: seq<Event>, n: nat)
    requires n <= |script| && Legal(p, Fresh(clock, base), script, n)
    ensures TimesOutDuly(p, Run(p, Fresh(clock, base), script, n))
  {
    hide Run, Legal, OnSchedule, Accounted, Patient;
    EveryRun(p, clock, base, script, n);
    var s := Run(p, Fresh(clock, base), script, n);
    TimeoutMeans(p, base, s);
    if TimedOut(s) {
      TimeoutTakes(p, base, s);
    }
  }

  lemma {:induction false} TimeoutMeans(p: Params, base: ClientMetrics, s: State)
    requires Accounted(p, base, s)
    ensures
      var k, r := Patience(p), |s.rounds|;
      && (TimedOut(s) <==> r >= k && forall i :: r - k <= i < r ==> !s.rounds[i])
      && (TimedOut(s) ==> k <= r == |s.sent| && (k < r ==> s.rounds[r - k - 1]))
  {
    var k, r := Patience(p), |s.rounds|;
    TrailingIsMaximalRun(s.rounds, r);
    if !TimedOut(s) && r >= k {
      assert s.rounds[r - MissesInARow(s) - 1];
    }
  }

  lemma {:induction false} TimeoutTakes(p: Params, base: ClientMetrics, s: State)
    requires OnSchedule(p, s) && Accounted(p, base, s) && Patient(p, s) && TimedOut(s)
    ensures Patience(p) <= |s.rounds| == |s.starts|
    ensures s.clock >= s.starts[|s.rounds| - Patience(p)] + Span(p, 2 * Patience(p) - 1)
  {
    BoundaryIsSpan(p, s.starts[|s.rounds| - Patience(p)], 2 * Patience(p) - 1);
  }

  /** At every loop head the exported gauge is the length of the trailing run of echo-free
      rounds, and below the limit; sends are missed rounds, answered rounds and at most
      one round still open or cut short. */
  lemma {:induction false} MissAccounting(p: Params, clock: int, base: ClientMetrics, script: seq<Event>, n: nat)
    requires n <= |script| && Legal(p, Fresh(clock, base), script, n)
    ensures CountsRounds(p, base, Run(p, Fresh(clock, base), script, n))
  {
    EveryRun(p, clock, base, script, n);
  }

  ghost predicate ExactRun(p: Params, s: State, script: seq<Event>, n: nat)
    requires n <= |script| && Legal(p, s, script, n)
  {
    n > 0 ==> ExactRun(p, s, script, n - 1) && Exact(Run(p, s, script, n - 1), script[n - 1])
  }

  lemma {:induction false} EveryExactRun(p: Params, clock: int, base: ClientMetrics, script: seq<Event>, n: nat)
    requires n <= |script| && Legal(p, Fresh(clock, base), script, n)
    requires ExactRun(p, Fresh(clock, base), script, n)
    ensures
      var s := Run(p, Fresh(clock, base), script, n);
      OnSchedule(p, s) && OnGrid(p, s)
  {
    hide Fresh, Step, Enabled, OnSchedule, OnGrid, Exact, Accounted, Patient;
    EveryRun(p, clock, base, script, n);
    if n == 0 {
      FreshHolds(p, clock, base);
    } else {
      EveryExactRun(p, clock, base, script, n - 1);
      OnGridStep(p, Run(p, Fresh(clock, base), script, n - 1), script[n - 1]);
    }
  }

  lemma {:induction false} TrailingSlots(p: Params, s: State, n: nat)
    requires n <= |s.rounds|
    ensures
      var c := Trailing(s.rounds, n);
      Slot(p, s, n) == Boundary(Slot(p, s, n - c), 2 * c, p.interval)
  {
    if n == 0 || s.rounds[n - 1] {
    } else {
      var c := Trailing(s.rounds, n - 1);
      TrailingSlots(p, s, n - 1);
      BoundaryAdds(s.openedAt, n - 1 + Missed(s.rounds, n - 1), p.interval);
      BoundaryAdds(Slot(p, s, n - 1 - c), 2 * c, p.interval);
    }
  }

  /** Every send is on the grid of intervals, and sends are one or two intervals apart. */
  ghost predicate SendsOnGrid(p: Params, s: State) {
    && |s.rounds| <= |s.starts| <= |s.rounds| + 1
    && (forall k :: 0 <= k < |s.starts| ==> s.starts[k] == s.openedAt + Span(p, k + Missed(s.rounds, k)))
    && (forall k {:trigger s.rounds[k]} :: 0 <= k < |s.starts| - 1 ==>
      s.starts[k + 1] == s.starts[k] + p.interval + if s.rounds[k] then 0 else p.interval)
  }

  /** With exact timers and sends that take no time, every send is on the grid, and a
      timeout takes exactly 2 * Patience - 1 intervals. */
  lemma {:induction false} ExactTimeout(p: Params, clock: int, base: ClientMetrics, script: seq<Event>, n: nat)
    requires n <= |script| && Legal(p, Fresh(clock, base), script, n)
    requires ExactRun(p, Fresh(clock, base), script, n)
    ensures
      var s := Run(p, Fresh(clock, base), script, n);
      && SendsOnGrid(p, s)
      && (TimedOut(s) ==>
        && Patience(p) <= |s.rounds| == |s.starts|
        && s.clock == s.starts[|s.rounds| - Patience(p)] + Span(p, 2 * Patience(p) - 1))
  {
    hide Run, Legal, OnSchedule, OnGrid, Accounted, Patient, SendsOnGrid, Slot, Span, Missed;
    EveryExactRun(p, clock, base, script, n);
    EveryRun(p, clock, base, script, n);
    var s := Run(p, Fresh(clock, base), script, n);
    OnGridStarts(p, s);
    GridFacts(p, s);
    if TimedOut(s) {
      GridTimeout(p, base, s);
    }
  }

  /** README.md puts the detection of a dead connection at `max_misses` intervals. With
      exact timers that is the time from the first missed send exactly when `max_misses`
      is 1, or when intervals take no time. */
  lemma {:induction false} DocumentedTimeout(p: Params, clock: int, base: ClientMetrics, script: seq<Event>, n: nat)
    requires n <= |script| && Legal(p, Fresh(clock, base), script, n)
    requires ExactRun(p, Fresh(clock, base), script, n) && TimedOut(Run(p, Fresh(clock, base), script, n))
    ensures
      var s := Run(p, Fresh(clock, base), script, n);
      && Patience(p) <= |s.rounds| == |s.starts|
      && (s.clock == s.starts[|s.rounds| - Patience(p)] + Span(p, p.maxMisses) <==> p.maxMisses == 1 || p.interval == 0)
  {
    hide Run, Legal, ExactRun, SendsOnGrid, Span, Fresh;
    ExactTimeout(p, clock, base, script, n);
    SpansDiffer(p, 2 * Patience(p) - 1, p.maxMisses);
  }

  /** One half needs no exact timers: in any run, a session that times out at the
      documented time, or before, has `max_misses` 1, or intervals that take no time. */
  lemma {:induction false} DocumentedTimeoutIsRare(p: Params, clock: int, base: ClientMetrics, script: seq<Event>, n: nat)
    requires n <= |script| && Legal(p, Fresh(clock, base), script, n) && TimedOut(Run(p, Fresh(clock, base), script, n))
    ensures
      var s := Run(p, Fresh(clock, base), script, n);
      && Patience(p) <= |s.rounds| == |s.starts|
      && (s.clock <= s.starts[|s.rounds| - Patience(p)] + Span(p, p.maxMisses) ==> p.maxMisses == 1 || p.interval == 0)
  {
    hide Run, Legal, Span, Fresh;
    TimeoutBound(p, clock, base, script, n);
    if p.maxMisses != 1 {
      SpansOrder(p, p.maxMisses, 2 * Patience(p) - 1);
    }
  }

  lemma {:induction false} SpansOrder(p: Params, a: int, b: int)
    requires a < b
    ensures Span(p, a) < Span(p, b) || p.interval == 0
  {
    assert Span(p, b) - Span(p, a) == (b - a) * p.interval;
  }

  lemma {:induction false} SpansDiffer(p: Params, a: int, b: int)
    ensures Span(p, a) == Span(p, b) <==> a == b || p.interval == 0
  {
    assert Span(p, a) - Span(p, b) == (a - b) * p.interval;
  }

  lemma {:induction false} SlotIsSpan(p: Params, s: State, k: nat)
    requires k <= |s.rounds|
    ensures Slot(p, s, k) == s.openedAt + Span(p, k + Missed(s.rounds, k))
  {
    BoundaryIsSpan(p, s.openedAt, k + Missed(s.rounds, k));
  }

  lemma {:induction false} OnGridStarts(p: Params, s: State)
    requires OnSchedule(p, s) && OnGrid(p, s)
    ensures |s.rounds| <= |s.starts| <= |s.rounds| + 1
    ensures forall j :: 0 <= j < |s.starts| ==> s.starts[j] == Slot(p, s, j)
  {
  }

  lemma {:induction false} GridFacts(p: Params, s: State)
    requires |s.rounds| <= |s.starts| <= |s.rounds| + 1
    requires forall j :: 0 <= j < |s.starts| ==> s.starts[j] == Slot(p, s, j)
    ensures SendsOnGrid(p, s)
  {
    hide Slot, Span;
    forall k | 0 <= k < |s.starts| ensures s.starts[k] == s.openedAt + Span(p, k + Missed(s.rounds, k)) {
      SlotIsSpan(p, s, k);
    }
    forall k {:trigger s.rounds[k]} | 0 <= k < |s.starts| - 1
      ensures s.starts[k + 1] == s.starts[k] + p.interval + if s.rounds[k] then 0 else p.interval
    {
      NextSlot(p, s, k);
    }
  }

  lemma {:induction false} GridTimeout(p: Params, base: ClientMetrics, s: State)
    requires OnSchedule(p, s) && OnGrid(p, s) && Accounted(p, base, s) && TimedOut(s)
    ensures Patience(p) <= |s.rounds| == |s.starts|
    ensures s.clock == s.starts[|s.rounds| - Patience(p)] + Span(p, 2 * Patience(p) - 1)
  {
    var first := s.starts[|s.rounds| - Patience(p)];
    TrailingSlots(p, s, |s.rounds|);
    BoundaryIsSpan(p, first, 2 * Patience(p) - 1);
  }

  lemma {:induction false} NextSlot(p: Params, s: State, k: nat)
    requires k < |s.rounds|
    ensures Slot(p, s, k + 1) == Slot(p, s, k) + p.interval + if s.rounds[k] then 0 else p.interval
  {
    BoundaryAdds(s.openedAt, k + Missed(s.rounds, k), p.interval);
  }
}
