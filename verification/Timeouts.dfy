/** Sessions that do time out: for every setting, a run that takes exactly the time that
    `Schedule` says a timeout takes. */
module Timeouts {
  import Wire
  import opened Transport
  import opened Metrics
  import opened Session
  import opened Schedule

  /** The script leads to s with exact timers and sends that take no time. */
  ghost predicate LeadsExactly(p: Params, clock: int, base: ClientMetrics, script: seq<Event>, s: State) {
    Leads(p, clock, base, script, s) && ExactRun(p, Fresh(clock, base), script, |script|)
  }

  lemma {:induction false} PrefixIsExact(p: Params, s: State, script: seq<Event>, e: Event, n: nat)
    requires n <= |script| && Legal(p, s, script, n) && ExactRun(p, s, script, n)
    ensures Legal(p, s, script + [e], n) && ExactRun(p, s, script + [e], n)
  {
    hide Step, Enabled, Exact;
    PrefixRuns(p, s, script, e, n);
    if n == 0 {
    } else {
      PrefixIsExact(p, s, script, e, n - 1);
      PrefixRuns(p, s, script, e, n - 1);
      assert (script + [e])[n - 1] == script[n - 1];
    }
  }

  lemma {:induction false} Then(p: Params, clock: int, base: ClientMetrics, script: seq<Event>, s: State, e: Event)
    requires LeadsExactly(p, clock, base, script, s) && Enabled(p, s, e) && Exact(s, e)
    ensures LeadsExactly(p, clock, base, script + [e], Step(p, s, e))
  {
    hide Step, Enabled, Exact, Legal, Fresh, Run;
    LeadsOn(p, clock, base, script, s, e);
    PrefixIsExact(p, Fresh(clock, base), script, e, |script|);
    PrefixRuns(p, Fresh(clock, base), script, e, |script|);
    assert (script + [e])[|script|] == e;
  }

  /** Ready to wait for the next send, with k rounds behind, all of them missed. */
  ghost predicate Waits(s: State, k: nat) {
    s.pc.Head? && s.clock <= s.nextSend && s.misses == k == |s.rounds|
  }

  lemma {:induction false} Opens(p: Params, clock: int, base: ClientMetrics) returns (script: seq<Event>, s: State)
    requires p.hello != []
    ensures LeadsExactly(p, clock, base, script, s) && Waits(s, 0)
  {
    hide Run, Legal;
    var s0, hello, now := Fresh(clock, base), Event(clock, Write(|p.hello|)), Event(clock, Clock);
    NothingYet(p, clock, base);
    Then(p, clock, base, [], s0, hello);
    var s1 := Step(p, s0, hello);
    Then(p, clock, base, [] + [hello], s1, now);
    script, s := [] + [hello] + [now], Step(p, s1, now);
  }

  lemma {:induction false} NothingYet(p: Params, clock: int, base: ClientMetrics)
    ensures LeadsExactly(p, clock, base, [], Fresh(clock, base))
  {
  }

  lemma {:induction false} WaitsForSlot(p: Params, clock: int, base: ClientMetrics, before: seq<Event>, s: State, k: nat)
    returns (script: seq<Event>, t: State)
    requires LeadsExactly(p, clock, base, before, s) && Waits(s, k)
    ensures LeadsExactly(p, clock, base, script, t) && t.pc.Ready? && t.misses == k == |t.rounds|
  {
    hide LeadsExactly;
    var now := Event(s.clock, Clock);
    Then(p, clock, base, before, s, now);
    script, t := before + [now], Step(p, s, now);
    if t.pc.Sleeping? {
      var fires := Event(t.nextSend, Timer);
      Then(p, clock, base, script, t, fires);
      script, t := script + [fires], Step(p, t, fires);
    }
  }

  lemma {:induction false} Sends(p: Params, clock: int, base: ClientMetrics, before: seq<Event>, s: State, k: nat)
    returns (script: seq<Event>, t: State)
    requires LeadsExactly(p, clock, base, before, s) && s.pc.Ready? && s.misses == k == |s.rounds|
    ensures LeadsExactly(p, clock, base, script, t) && t.misses == k == |t.rounds|
    ensures t.pc.Awaiting? && !t.pc.gotEcho && t.clock <= t.pc.deadline
  {
    hide LeadsExactly, Wire.Encode;
    var stamp, write, now := Event(s.clock, Stamp(0)), Event(s.clock, Write(Wire.PACKET_SIZE)), Event(s.clock, Clock);
    Then(p, clock, base, before, s, stamp);
    var s1 := Step(p, s, stamp);
    Then(p, clock, base, before + [stamp], s1, write);
    var s2 := Step(p, s1, write);
    Then(p, clock, base, before + [stamp] + [write], s2, now);
    script, t := before + [stamp] + [write] + [now], Step(p, s2, now);
  }

  /** A round without an echo. */
  lemma {:induction false} Misses(p: Params, clock: int, base: ClientMetrics, before: seq<Event>, s: State, k: nat)
    returns (script: seq<Event>, t: State)
    requires LeadsExactly(p, clock, base, before, s) && Waits(s, k)
    ensures LeadsExactly(p, clock, base, script, t)
    ensures if k + 1 >= p.maxMisses then TimedOut(t) && |t.rounds| == k + 1 else Waits(t, k + 1)
  {
    hide LeadsExactly;
    script, t := WaitsForSlot(p, clock, base, before, s, k);
    script, t := Sends(p, clock, base, script, t, k);
    var fires := Event(t.pc.deadline, Timer);
    Then(p, clock, base, script, t, fires);
    script, t := script + [fires], Step(p, t, fires);
  }

  lemma {:induction false} MissesOn(p: Params, clock: int, base: ClientMetrics, before: seq<Event>, s: State, k: nat)
    returns (script: seq<Event>, t: State)
    requires LeadsExactly(p, clock, base, before, s) && Waits(s, k) && k < Patience(p)
    ensures LeadsExactly(p, clock, base, script, t) && TimedOut(t) && |t.rounds| == Patience(p)
    decreases Patience(p) - k
  {
    hide LeadsExactly, Waits, TimedOut;
    script, t := Misses(p, clock, base, before, s, k);
    if k + 1 < p.maxMisses {
      script, t := MissesOn(p, clock, base, script, t, k + 1);
    }
  }

  /** Timed out after no more rounds than it takes, in exactly 2 * Patience - 1 intervals. */
  ghost predicate TimesOut(p: Params, clock: int, base: ClientMetrics, script: seq<Event>, s: State) {
    && LeadsExactly(p, clock, base, script, s)
    && TimedOut(s) && |s.starts| == Patience(p)
    && s.clock == s.starts[0] + Span(p, 2 * Patience(p) - 1)
  }

  /** The bound on timeouts is attained, whatever the settings. */
  lemma {:induction false} BoundIsAttained(p: Params, clock: int, base: ClientMetrics)
    requires p.hello != []
    ensures exists script, s :: TimesOut(p, clock, base, script, s)
  {
    hide Run, Legal, ExactRun, SendsOnGrid, Span, Fresh, Waits;
    var script, s := Opens(p, clock, base);
    script, s := MissesOn(p, clock, base, script, s, 0);
    ExactTimeout(p, clock, base, script, |script|);
    assert TimesOut(p, clock, base, script, s);
  }

  /** So for any `max_misses` but 1 there are sessions that the documented figure of
      `max_misses` intervals is wrong for. */
  lemma {:induction false} DocumentedTimeoutFails(p: Params, clock: int, base: ClientMetrics)
    requires p.hello != [] && p.maxMisses != 1 && p.interval > 0
    ensures exists script, s :: TimesOut(p, clock, base, script, s) && s.clock != s.starts[0] + Span(p, p.maxMisses)
  {
    hide Span, LeadsExactly;
    BoundIsAttained(p, clock, base);
    var script, s :| TimesOut(p, clock, base, script, s);
    SpansDiffer(p, 2 * Patience(p) - 1, p.maxMisses);
  }
}
