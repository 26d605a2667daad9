/** What validation buys: sessions started from a valid config stay in range. */
module Limits {
  import opened Transport
  import Metrics
  import opened Config
  import Handshake
  import Schedule
  import S = Session

  /** Sessions measure time in nanoseconds. */
  const TICKS_PER_SECOND := 1_000_000_000

  const U32_LIMIT := 0x1_0000_0000

  const I64_LIMIT := 0x8000_0000_0000_0000

  /** What a session is run with; the echo timeout is the heartbeat interval. */
  function SessionParams(client: ClientConfig, node: string): S.Params {
    S.Params(client.heartbeatInterval * TICKS_PER_SECOND, client.maxMisses, Handshake.Hello(node))
  }

  /** With a valid config, every instant that a session computes is at most one day away,
      and its miss counter, an i64 compared with a u32 setting, never overflows. */
  lemma {:induction false} ValidConfigsStayInRange(c: Config, parses: string -> bool,
      clock: int, base: Metrics.ClientMetrics, script: seq<Event>, n: nat)
    requires Valid(c, parses) && c.client.Some? && c.client.value.maxMisses < U32_LIMIT
    requires n <= |script| && S.Legal(SessionParams(c.client.value, c.node), S.Fresh(clock, base), script, n)
    ensures
      var s := S.Run(SessionParams(c.client.value, c.node), S.Fresh(clock, base), script, n);
      && s.nextSend <= s.clock + MAX_SECONDS * TICKS_PER_SECOND
      && (s.pc.Awaiting? ==> s.pc.deadline <= s.clock + MAX_SECONDS * TICKS_PER_SECOND)
      && 0 <= s.misses < I64_LIMIT
  {
    hide S.Run, S.Legal, S.Fresh, Handshake.Hello;
    var p := SessionParams(c.client.value, c.node);
    assert Timings(c)[2].value == c.client.value.heartbeatInterval;
    assert Timely(Timings(c)[2]);
    Schedule.InstantsInRange(p, clock, base, script, n);
    Schedule.MissAccounting(p, clock, base, script, n);
  }
}
