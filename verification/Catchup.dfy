/** A client that has fallen behind on echoes catches up within one round. */
module Catchup {
  import opened Wire
  import opened Wrappers
  import opened Transport
  import Metrics
  import opened Reader
  import opened Session

  /** The i-th heartbeat of a session carries number i, wrapped. */
  ghost predicate Numbered(sent: seq<Heartbeat>) {
    forall i :: 0 <= i < |sent| ==> sent[i].number as int == i % U64_LIMIT
  }

  /** An echo wait with at least the current heartbeat unanswered. */
  ghost predicate Behind(s: State) {
    && s.pc.Awaiting? && |s.held| < PACKET_SIZE
    && |s.echoes| < |s.sent| && s.sent[|s.sent| - 1] == s.pc.current
    && Numbered(s.sent)
    && |s.sent| - |s.echoes| <= U64_LIMIT
  }

  /** When the k-th event of a script may come at the earliest. */
  function TimeOf(clock: int, script: seq<Event>, k: nat): int
    requires k <= |script|
  {
    if k == 0 then clock else script[k - 1].at
  }

  /** The reads of the script, in time order and each of at least one byte. */
  ghost predicate ReadsOnly(script: seq<Event>, clock: int) {
    forall i :: 0 <= i < |script| ==>
      && script[i].act.Chunk? && script[i].act.bytes != []
      && script[i].at >= TimeOf(clock, script, i)
  }

  function Reading(s: State, script: seq<Event>, k: nat): Intake
    requires |s.held| < PACKET_SIZE && k <= |script|
  {
    Absorbed(Intake(s.held, [], s.held), script, 0, k)
  }

  /** Still waiting, with the echoes read so far all stale. */
  ghost predicate StillWaiting(s: State, t: State, m: Intake, clock: int) {
    && s.pc.Awaiting? && t.pc.Awaiting? && t.pc.current == s.pc.current
    && t.clock == clock
    && t.held == m.held && t.echoes == s.echoes + m.echoes
    && t.sent == s.sent && t.rounds == s.rounds
  }

  lemma {:induction false} StaleStep(p: Params, s: State, t: State, m: Intake, clock: int, e: Event)
    requires Behind(s) && |m.held| < PACKET_SIZE && StillWaiting(s, t, m, clock)
    requires e.act.Chunk? && e.act.bytes != [] && e.at >= clock
    requires var next := Absorb(m, e).echoes; next != m.echoes ==>
      |s.echoes| + |next| < |s.sent| && next[|next| - 1] == s.sent[|s.echoes| + |next| - 1]
    ensures Enabled(p, t, e) && StillWaiting(s, Step(p, t, e), Absorb(m, e), e.at)
  {
    hide Decode;
    var next := Absorb(m, e);
    if next.echoes != m.echoes {
      var i := |s.echoes| + |m.echoes|;
      assert next.echoes == m.echoes + [s.sent[i]];
      Distinct(s.sent, i, |s.sent| - 1);
      assert s.echoes + next.echoes == t.echoes + [s.sent[i]];
    }
  }

  lemma {:induction false} Distinct(sent: seq<Heartbeat>, i: nat, k: nat)
    requires Numbered(sent) && i < k < |sent| && k - i < U64_LIMIT
    ensures sent[i].number != sent[k].number
  {
  }

  lemma {:induction false} Draining(p: Params, s: State, script: seq<Event>, k: nat)
    requires Behind(s) && ReadsOnly(script, s.clock) && k <= |script|
    requires Reading(s, script, k).echoes < s.sent[|s.echoes|..]
    ensures
      && Legal(p, s, script, k)
      && StillWaiting(s, Run(p, s, script, k), Reading(s, script, k), TimeOf(s.clock, script, k))
    decreases k
  {
    if k == 0 {
      assert s.echoes + [] == s.echoes;
    } else {
      DrainingStep(p, s, script, k);
    }
  }

  lemma {:induction false} DrainingStep(p: Params, s: State, script: seq<Event>, k: nat)
    requires Behind(s) && ReadsOnly(script, s.clock) && 0 < k <= |script|
    requires Reading(s, script, k).echoes < s.sent[|s.echoes|..]
    ensures
      && Legal(p, s, script, k)
      && StillWaiting(s, Run(p, s, script, k), Reading(s, script, k), TimeOf(s.clock, script, k))
    decreases k, 0
  {
    hide Step, Enabled, StillWaiting, Absorb, Absorbed, Legal, Run, Decode, Feed;
    ReadingSnoc(s, script, k);
    var before, now := Reading(s, script, k - 1), Reading(s, script, k);
    assert before.echoes <= now.echoes;
    Draining(p, s, script, k - 1);
    if now.echoes != before.echoes {
      assert now.echoes[|now.echoes| - 1] == s.sent[|s.echoes|..][|now.echoes| - 1];
    }
    StaleStep(p, s, Run(p, s, script, k - 1), before, TimeOf(s.clock, script, k - 1), script[k - 1]);
    RunSnoc(p, s, script, k);
  }

  lemma {:induction false} ReadingSnoc(s: State, script: seq<Event>, k: nat)
    requires |s.held| < PACKET_SIZE && 0 < k <= |script|
    ensures Reading(s, script, k) == Absorb(Reading(s, script, k - 1), script[k - 1])
    ensures Reading(s, script, k - 1).echoes <= Reading(s, script, k).echoes
  {
    hide Decode, Feed;
  }

  /** No permanent lag: whatever backlog of echoes a round starts with, if all of them are
      read before its deadline then the wait ends in a match, and the RTT is taken for the
      heartbeat sent in that very round. */
  lemma {:induction false} NoPermanentLag(p: Params, s: State, script: seq<Event>)
    requires Behind(s) && ReadsOnly(script, s.clock) && script != []
    requires Reading(s, script, |script|).echoes == s.sent[|s.echoes|..]
    requires Reading(s, script, |script| - 1).echoes != s.sent[|s.echoes|..]
    ensures
      && Legal(p, s, script, |script|)
      && var t := Run(p, s, script, |script|);
      && t.pc.Head? && t.misses == 0
      && t.sent == s.sent && t.echoes == s.echoes + s.sent[|s.echoes|..]
      && t.metrics.rtt == Some(s.pc.current)
      && t.rounds == s.rounds + [true]
  {
    hide Step, Enabled, StillWaiting, Absorb, Absorbed, Legal, Run, Decode, Feed;
    var n := |script|;
    ReadingSnoc(s, script, n);
    Draining(p, s, script, n - 1);
    var t, m := Run(p, s, script, n - 1), Reading(s, script, n - 1);
    assert script[n - 1].at >= TimeOf(s.clock, script, n - 1);
    MatchingStep(p, s, t, m, TimeOf(s.clock, script, n - 1), script[n - 1]);
    RunSnoc(p, s, script, n);
  }

  lemma {:induction false} MatchingStep(p: Params, s: State, t: State, m: Intake, clock: int, e: Event)
    requires Behind(s) && |m.held| < PACKET_SIZE && StillWaiting(s, t, m, clock)
    requires e.act.Chunk? && e.act.bytes != [] && e.at >= clock
    requires m.echoes != s.sent[|s.echoes|..] && Absorb(m, e).echoes == s.sent[|s.echoes|..]
    ensures
      && Enabled(p, t, e)
      && var u := Step(p, t, e);
      && u.pc.Head? && u.misses == 0
      && u.sent == s.sent && u.echoes == s.echoes + s.sent[|s.echoes|..]
      && u.metrics.rtt == Some(s.pc.current)
      && u.rounds == s.rounds + [true]
  {
    hide Decode;
    var echo := Decode(Feed(m.held, e));
    var outstanding := s.sent[|s.echoes|..];
    assert outstanding == m.echoes + [echo];
    assert echo == outstanding[|outstanding| - 1] == s.pc.current;
    assert t.echoes + [echo] == s.echoes + outstanding;
  }

  // ---------------------------------------------------------------------
  // The contrast: stopping at the first echo
  // ---------------------------------------------------------------------

  /** The session of `Session`, but for an echo wait that ends at the first echo, whichever
      heartbeat that answers. */
  function EchoFirst(s: State, at: int, echo: Heartbeat): State
    requires s.pc.Awaiting?
  {
    s.(clock := at, held := [], misses := 0, echoes := s.echoes + [echo],
       metrics := EchoSeen(s.metrics, if echo.number == s.pc.current.number then Some(s.pc.current) else None),
       pc := Head, rounds := s.rounds + [true], ends := s.ends + [Mark(at, |s.echoes| + 1)])
  }

  function StepFirst(p: Params, s: State, e: Event): State
    requires Enabled(p, s, e)
  {
    if s.pc.Awaiting? && e.act.Chunk? && |Feed(s.held, e)| == PACKET_SIZE
    then EchoFirst(s, e.at, Decode(Feed(s.held, e)))
    else Step(p, s, e)
  }

  /** The first n events can happen to it, and echoes come as `EndToEnd` shows that they do:
      in the order of the heartbeats, each once. */
  predicate LegalFirst(p: Params, s: State, script: seq<Event>, n: nat)
    requires n <= |script|
    decreases n, 0
  {
    if n == 0 then true
    else
      && LegalFirst(p, s, script, n - 1)
      && Enabled(p, RunFirst(p, s, script, n - 1), script[n - 1])
      && var t := StepFirst(p, RunFirst(p, s, script, n - 1), script[n - 1]);
      t.echoes <= t.sent && |t.sent| <= U64_LIMIT
  }

  function RunFirst(p: Params, s: State, script: seq<Event>, n: nat): State
    requires n <= |script| && LegalFirst(p, s, script, n)
    decreases n, 1
  {
    if n == 0 then s else StepFirst(p, RunFirst(p, s, script, n - 1), script[n - 1])
  }

  /** At least `gap` heartbeats from before this round are unanswered. */
  ghost predicate Lags(s: State, gap: nat) {
    && Recorded(s) && Numbered(s.sent) && s.echoes <= s.sent
    && |s.sent| <= U64_LIMIT && s.number as int == |s.sent| % U64_LIMIT
    && (s.pc.Awaiting? ==> |s.echoes| + gap < |s.sent| && s.sent[|s.sent| - 1] == s.pc.current)
    && (!s.pc.Awaiting? && !s.pc.Done? ==> |s.echoes| + gap <= |s.sent|)
  }

  lemma {:induction false} LagsOn(p: Params, s: State, e: Event, gap: nat)
    requires Enabled(p, s, e) && Lags(s, gap) && gap > 0
    requires var t := StepFirst(p, s, e); t.echoes <= t.sent && |t.sent| <= U64_LIMIT
    ensures Lags(StepFirst(p, s, e), gap) && StepFirst(p, s, e).metrics.rtt == s.metrics.rtt
  {
    hide Enabled, Step, Lags, Feed, Decode;
    if s.pc.Awaiting? && e.act.Chunk? && |Feed(s.held, e)| == PACKET_SIZE {
      LagsAfterEcho(s, e.at, Decode(Feed(s.held, e)), gap);
    } else {
      LagsOtherwise(p, s, e, gap);
    }
  }

  lemma {:induction false} LagsAfterEcho(s: State, at: int, echo: Heartbeat, gap: nat)
    requires s.pc.Awaiting? && Lags(s, gap) && gap > 0 && EchoFirst(s, at, echo).echoes <= s.sent
    ensures Lags(EchoFirst(s, at, echo), gap) && EchoFirst(s, at, echo).metrics.rtt == s.metrics.rtt
  {
    var t, i := EchoFirst(s, at, echo), |s.echoes|;
    assert t.echoes[i] == s.sent[i];
    Distinct(s.sent, i, |s.sent| - 1);
  }

  lemma {:induction false} LagsOtherwise(p: Params, s: State, e: Event, gap: nat)
    requires Enabled(p, s, e) && Lags(s, gap) && |Step(p, s, e).sent| <= U64_LIMIT
    requires s.pc.Awaiting? && e.act.Chunk? ==> |Feed(s.held, e)| < PACKET_SIZE
    ensures Lags(Step(p, s, e), gap) && Step(p, s, e).metrics.rtt == s.metrics.rtt
  {
    hide Decode, Encode, Feed, Classify;
  }

  /** Behind by even one echo at the head of a round, such a session never takes an RTT
      again and never catches up, whatever arrives and however promptly. */
  lemma {:induction false} FirstEchoNeverMatches(p: Params, s: State, gap: nat, script: seq<Event>, n: nat)
    requires n <= |script| && LegalFirst(p, s, script, n) && Lags(s, gap) && gap > 0
    ensures
      var t := RunFirst(p, s, script, n);
      && t.metrics.rtt == s.metrics.rtt
      && (t.pc.Head? ==> |t.sent| - |t.echoes| >= gap)
      && Lags(t, gap)
    decreases n
  {
    hide Enabled, StepFirst, Lags;
    if n == 0 {
      LagsAtHead(s, gap);
    } else {
      FirstEchoNeverMatches(p, s, gap, script, n - 1);
      LagsOn(p, RunFirst(p, s, script, n - 1), script[n - 1], gap);
      LagsAtHead(RunFirst(p, s, script, n), gap);
    }
  }

  lemma {:induction false} LagsAtHead(s: State, gap: nat)
    requires Lags(s, gap)
    ensures s.pc.Head? ==> |s.sent| - |s.echoes| >= gap
  {
  }

  // ---------------------------------------------------------------------
  // Such a session does fall behind
  // ---------------------------------------------------------------------

  ghost predicate LeadsFirst(p: Params, clock: int, base: Metrics.ClientMetrics, script: seq<Event>, s: State) {
    LegalFirst(p, Fresh(clock, base), script, |script|) && s == RunFirst(p, Fresh(clock, base), script, |script|)
  }

  lemma {:induction false} PrefixRunsFirst(p: Params, s: State, script: seq<Event>, e: Event, n: nat)
    requires n <= |script| && LegalFirst(p, s, script, n)
    ensures LegalFirst(p, s, script + [e], n) && RunFirst(p, s, script + [e], n) == RunFirst(p, s, script, n)
  {
    hide StepFirst, Enabled;
    if n == 0 {
    } else {
      PrefixRunsFirst(p, s, script, e, n - 1);
      assert (script + [e])[n - 1] == script[n - 1];
    }
  }

  lemma {:induction false} Then(p: Params, clock: int, base: Metrics.ClientMetrics, script: seq<Event>, s: State, e: Event)
    requires LeadsFirst(p, clock, base, script, s) && Enabled(p, s, e)
    requires var t := StepFirst(p, s, e); t.echoes <= t.sent && |t.sent| <= U64_LIMIT
    ensures LeadsFirst(p, clock, base, script + [e], StepFirst(p, s, e))
  {
    hide StepFirst, Enabled, Fresh;
    PrefixRunsFirst(p, Fresh(clock, base), script, e, |script|);
    assert (script + [e])[|script|] == e;
  }

  /** With patience for two misses or more, one echo that does not come in time is enough:
      the next round starts one behind. */
  lemma {:induction false} SomeSessionLags(p: Params, clock: int, base: Metrics.ClientMetrics)
    requires p.hello != [] && p.maxMisses >= 2
    ensures exists script, s :: LeadsFirst(p, clock, base, script, s) && s.pc.Head? && Lags(s, 1)
  {
    hide LeadsFirst, Encode;
    var script, s := Opens(p, clock, base);
    var now, stamp, write := Event(clock, Clock), Event(clock, Stamp(0)), Event(clock, Write(PACKET_SIZE));
    Then(p, clock, base, script, s, now);
    script, s := script + [now], StepFirst(p, s, now);
    Then(p, clock, base, script, s, stamp);
    script, s := script + [stamp], StepFirst(p, s, stamp);
    Then(p, clock, base, script, s, write);
    script, s := script + [write], StepFirst(p, s, write);
    Then(p, clock, base, script, s, now);
    script, s := script + [now], StepFirst(p, s, now);
    var fires := Event(s.pc.deadline, Timer);
    Then(p, clock, base, script, s, fires);
    script, s := script + [fires], StepFirst(p, s, fires);
    assert Lags(s, 1);
  }

  lemma {:induction false} Opens(p: Params, clock: int, base: Metrics.ClientMetrics) returns (script: seq<Event>, s: State)
    requires p.hello != []
    ensures LeadsFirst(p, clock, base, script, s)
    ensures s.pc.Head? && s.clock == s.nextSend == clock && s.number == 0 && s.misses == 0 && s.sent == s.echoes == []
  {
    hide RunFirst, LegalFirst;
    var s0, hello, now := Fresh(clock, base), Event(clock, Write(|p.hello|)), Event(clock, Clock);
    Nothing(p, clock, base);
    Then(p, clock, base, [], s0, hello);
    var s1 := StepFirst(p, s0, hello);
    Then(p, clock, base, [] + [hello], s1, now);
    script, s := [] + [hello] + [now], StepFirst(p, s1, now);
  }

  lemma {:induction false} Nothing(p: Params, clock: int, base: Metrics.ClientMetrics)
    ensures LeadsFirst(p, clock, base, [], Fresh(clock, base))
  {
  }
}
