/** The metric families as maps from label to value, and the capped set of
    inbound peer names. Float gauges that only carry wall-clock values are left
    out; the RTT gauge records which heartbeat the sample was measured against. */
module Metrics {
  import Wire
  import opened Wrappers

  datatype Reason = RemoteClose | ConnectionReset | Timeout | LocalError | ConnectFailed

  const SERVER_DISCONNECT_REASONS := {RemoteClose, ConnectionReset, Timeout, LocalError}

  const CLIENT_DISCONNECT_REASONS := {RemoteClose, ConnectionReset, Timeout, LocalError, ConnectFailed}

  const MAX_UNIQUE_SERVER_PEERS := 512

  datatype PeerLabel = PeerLabel(node: string, peer: string)

  /** A disconnect family is keyed by (node, peer, reason); kept here as the
      label first and the reason second. */
  type DisconnectFamily = map<PeerLabel, map<Reason, int>>

  /** Everything the client families say about one label. */
  datatype ClientMetrics = ClientMetrics(
    active: int, sessions: int, sent: int, received: int, missed: int, consecutive: int,
    rtt: Option<Wire.Heartbeat>, disconnects: map<Reason, int>)

  /** Everything the server families say about one label. */
  datatype ServerMetrics = ServerMetrics(
    active: int, sessions: int, received: int, disconnects: map<Reason, int>)

  /** A family creates missing entries at zero. */
  function Get<K>(m: map<K, int>, k: K): int {
    if k in m then m[k] else 0
  }

  function Inc<K>(m: map<K, int>, k: K): map<K, int> {
    m[k := Get(m, k) + 1]
  }

  function Touch<K>(m: map<K, int>, k: K): map<K, int> {
    m[k := Get(m, k)]
  }

  /** The same counts, with an entry for each of `reasons` as well. */
  function Precreated(d: map<Reason, int>, reasons: set<Reason>): map<Reason, int> {
    map r | r in d.Keys + reasons :: Get(d, r)
  }

  function ForLabel(family: DisconnectFamily, l: PeerLabel): map<Reason, int> {
    if l in family then family[l] else map[]
  }

  /** Disconnects under the four reasons that end a session. */
  function EndedTotal(d: map<Reason, int>): int {
    Get(d, RemoteClose) + Get(d, ConnectionReset) + Get(d, Timeout) + Get(d, LocalError)
  }

  lemma {:induction false} TouchKeepsTotal(d: map<Reason, int>, r: Reason)
    ensures EndedTotal(Touch(d, r)) == EndedTotal(d)
  {
  }

  lemma {:induction false} IncAddsOne(d: map<Reason, int>, r: Reason)
    requires r in SERVER_DISCONNECT_REASONS
    ensures EndedTotal(Inc(d, r)) == EndedTotal(d) + 1
  {
  }

  lemma {:induction false} PrecreatedKeepsCounts(d: map<Reason, int>, reasons: set<Reason>)
    ensures forall r :: Get(Precreated(d, reasons), r) == Get(d, r)
    ensures EndedTotal(Precreated(d, reasons)) == EndedTotal(d)
  {
  }

  class ServerPeers {
    var seen: set<string>

    constructor ()
      ensures seen == {}
    {
      seen := {};
    }

    /** Admit a known name always, a new one only below the cap. */
    method TryRegister(peer: string) returns (admitted: bool)
      modifies this
      ensures admitted <==> peer in seen
      ensures old(seen) <= seen <= old(seen) + {peer}
      ensures peer in old(seen) ==> admitted
      ensures peer !in old(seen) ==> (admitted <==> |old(seen)| < MAX_UNIQUE_SERVER_PEERS)
      ensures |old(seen)| <= MAX_UNIQUE_SERVER_PEERS ==> |seen| <= MAX_UNIQUE_SERVER_PEERS
    {
      if peer in seen {
        return true;
      }
      if |seen| >= MAX_UNIQUE_SERVER_PEERS {
        return false;
      }
      seen := seen + {peer};
      admitted := true;
    }
  }

  class Families {
    var serverSessionActive: map<PeerLabel, int>
    var serverSessionsTotal: map<PeerLabel, int>
    var serverHeartbeatsRx: map<PeerLabel, int>
    var serverDisconnects: DisconnectFamily

    var clientSessionActive: map<PeerLabel, int>
    var clientSessionsTotal: map<PeerLabel, int>
    var clientHeartbeatsSent: map<PeerLabel, int>
    var clientHeartbeatsRx: map<PeerLabel, int>
    var clientHeartbeatsMissed: map<PeerLabel, int>
    var clientConsecutiveMissed: map<PeerLabel, int>
    var clientRtt: map<PeerLabel, Wire.Heartbeat>
    var clientDisconnects: DisconnectFamily

    constructor ()
      ensures forall l :: Client(l) == ClientMetrics(0, 0, 0, 0, 0, 0, None, map[])
      ensures forall l :: Server(l) == ServerMetrics(0, 0, 0, map[])
    {
      serverSessionActive, serverSessionsTotal, serverHeartbeatsRx := map[], map[], map[];
      clientSessionActive, clientSessionsTotal, clientHeartbeatsSent := map[], map[], map[];
      clientHeartbeatsRx, clientHeartbeatsMissed, clientConsecutiveMissed := map[], map[], map[];
      clientRtt, clientDisconnects, serverDisconnects := map[], map[], map[];
    }

    ghost function Client(l: PeerLabel): ClientMetrics
      reads this
    {
      ClientMetrics(
        Get(clientSessionActive, l), Get(clientSessionsTotal, l), Get(clientHeartbeatsSent, l),
        Get(clientHeartbeatsRx, l), Get(clientHeartbeatsMissed, l), Get(clientConsecutiveMissed, l),
        if l in clientRtt then Some(clientRtt[l]) else None, ForLabel(clientDisconnects, l))
    }

    ghost function Server(l: PeerLabel): ServerMetrics
      reads this
    {
      ServerMetrics(
        Get(serverSessionActive, l), Get(serverSessionsTotal, l), Get(serverHeartbeatsRx, l),
        ForLabel(serverDisconnects, l))
    }

    /** Pre-create every disconnect entry of both sides for one peer, changing no count. */
    method InitDisconnectLabels(node: string, peer: string)
      modifies this`serverDisconnects, this`clientDisconnects
      ensures var l := PeerLabel(node, peer);
        && Server(l) == old(Server(l)).(disconnects := Precreated(old(Server(l)).disconnects, SERVER_DISCONNECT_REASONS))
        && Client(l) == old(Client(l)).(disconnects := Precreated(old(Client(l)).disconnects, CLIENT_DISCONNECT_REASONS))
      ensures forall k :: k != PeerLabel(node, peer) ==> Server(k) == old(Server(k)) && Client(k) == old(Client(k))
    {
      serverDisconnects := TouchAll(serverDisconnects, PeerLabel(node, peer), SERVER_DISCONNECT_REASONS);
      clientDisconnects := TouchAll(clientDisconnects, PeerLabel(node, peer), CLIENT_DISCONNECT_REASONS);
    }
  }

  method TouchAll(family: DisconnectFamily, l: PeerLabel, reasons: set<Reason>) returns (r: DisconnectFamily)
    ensures ForLabel(r, l) == Precreated(ForLabel(family, l), reasons)
    ensures forall k :: k != l ==> ForLabel(r, k) == ForLabel(family, k)
  {
    r := family;
    var rest := reasons;
    while rest != {}
      invariant rest <= reasons
      invariant ForLabel(r, l) == Precreated(ForLabel(family, l), reasons - rest)
      invariant forall k :: k != l ==> ForLabel(r, k) == ForLabel(family, k)
    {
      var reason :| reason in rest;
      r := r[l := Touch(ForLabel(r, l), reason)];
      rest := rest - {reason};
    }
    assert reasons - rest == reasons;
  }
}
