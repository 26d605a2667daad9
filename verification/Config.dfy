/** The configuration record and its validation. Whether a `bind` string parses as an IP
    address is a parameter. */
module Config {
  import opened Wrappers

  const MAX_SECONDS := 86400

  datatype ServerConfig = ServerConfig(
    bind: string, heartbeatPort: nat, metricsPort: nat, probePort: nat,
    heartbeatRecvTimeout: nat, probeIdleTimeout: nat)

  datatype ClientConfig = ClientConfig(heartbeatInterval: nat, maxMisses: nat, reconnectDelay: nat)

  datatype PeerConfig = PeerConfig(name: string, host: string, heartbeatPort: nat)

  datatype Config = Config(node: string, server: ServerConfig, client: Option<ClientConfig>, peers: seq<PeerConfig>)

  datatype Violation =
    | EmptyNodeName
    | BadBind
    | SharedPort(a: string, b: string, port: nat)
    | TooSmall(field: string, min: nat)
    | TooBig(field: string)
    | EmptyPeerName
    | EmptyHost(peer: string)
    | DuplicatePeer(peer: string)

  // ---------------------------------------------------------------------
  // The rules
  // ---------------------------------------------------------------------

  datatype Port = Port(field: string, port: nat)

  function Ports(s: ServerConfig): seq<Port> {
    [Port("heartbeat_port", s.heartbeatPort), Port("metrics_port", s.metricsPort), Port("probe_port", s.probePort)]
  }

  datatype Timing = Timing(field: string, value: nat, min: nat)

  function Timings(c: Config): seq<Timing> {
    [Timing("server.heartbeat_recv_timeout", c.server.heartbeatRecvTimeout, 1),
     Timing("server.probe_idle_timeout", c.server.probeIdleTimeout, 0)]
    + if c.client.None? then [] else
      [Timing("client.heartbeat_interval", c.client.value.heartbeatInterval, 1),
       Timing("client.reconnect_delay", c.client.value.reconnectDelay, 1)]
  }

  predicate Timely(t: Timing) {
    t.min <= t.value <= MAX_SECONDS
  }

  predicate GoodPeer(peers: seq<PeerConfig>, i: nat)
    requires i < |peers|
  {
    peers[i].name != "" && peers[i].host != "" && forall j :: 0 <= j < i ==> peers[j].name != peers[i].name
  }

  predicate PortsDiffer(s: ServerConfig) {
    s.heartbeatPort != s.metricsPort && s.heartbeatPort != s.probePort && s.metricsPort != s.probePort
  }

  /** The whole rule set. */
  predicate Valid(c: Config, parses: string -> bool) {
    && c.node != ""
    && parses(c.server.bind)
    && PortsDiffer(c.server)
    && (forall k :: 0 <= k < |Timings(c)| ==> Timely(Timings(c)[k]))
    && (forall i :: 0 <= i < |c.peers| ==> GoodPeer(c.peers, i))
  }

  /** Which configs that lets in, with every bound written out. */
  lemma {:induction false} ValidSpelledOut(c: Config, parses: string -> bool)
    ensures Valid(c, parses) <==>
      && c.node != "" && parses(c.server.bind)
      && c.server.heartbeatPort != c.server.metricsPort
      && c.server.heartbeatPort != c.server.probePort && c.server.metricsPort != c.server.probePort
      && 1 <= c.server.heartbeatRecvTimeout <= 86400 && c.server.probeIdleTimeout <= 86400
      && (c.client.Some? ==> 1 <= c.client.value.heartbeatInterval <= 86400 && 1 <= c.client.value.reconnectDelay <= 86400)
      && (forall i :: 0 <= i < |c.peers| ==> c.peers[i].name != "" && c.peers[i].host != "")
      && (forall i, j :: 0 <= i < j < |c.peers| ==> c.peers[i].name != c.peers[j].name)
  {
    var ts := Timings(c);
    assert |ts| == if c.client.None? then 2 else 4;
    assert (forall k :: 0 <= k < |ts| ==> Timely(ts[k])) <==>
      Timely(ts[0]) && Timely(ts[1]) && (c.client.Some? ==> Timely(ts[2]) && Timely(ts[3]));
    PeersSpelledOut(c.peers);
  }

  lemma {:induction false} PeersSpelledOut(peers: seq<PeerConfig>)
    ensures (forall i :: 0 <= i < |peers| ==> GoodPeer(peers, i)) <==>
      && (forall i :: 0 <= i < |peers| ==> peers[i].name != "" && peers[i].host != "")
      && (forall i, j :: 0 <= i < j < |peers| ==> peers[i].name != peers[j].name)
  {
    if forall i :: 0 <= i < |peers| ==> GoodPeer(peers, i) {
      forall i | 0 <= i < |peers| ensures peers[i].name != "" && peers[i].host != "" {
        assert GoodPeer(peers, i);
      }
      forall i, j | 0 <= i < j < |peers| ensures peers[i].name != peers[j].name {
        assert GoodPeer(peers, j);
      }
    }
  }

  predicate Clash(s: ServerConfig, i: nat, j: nat, v: Violation)
    requires i < 3 && j < 3 && v.SharedPort?
  {
    Ports(s)[i] == Port(v.a, v.port) && Ports(s)[j] == Port(v.b, v.port)
  }

  /** The violation is real, and it is the first: whatever is checked before it holds. */
  ghost predicate FirstViolation(c: Config, parses: string -> bool, v: Violation) {
    if v.EmptyNodeName? then c.node == ""
    else if v.BadBind? then c.node != "" && !parses(c.server.bind)
    else
      && c.node != "" && parses(c.server.bind)
      && if v.SharedPort? then
           exists i, j :: 0 <= i < j < 3 && Clash(c.server, i, j, v)
         else
           && PortsDiffer(c.server)
           && if v.TooSmall? || v.TooBig? then
                exists k :: 0 <= k < |Timings(c)| && FirstUntimely(Timings(c), k) && Mistimes(Timings(c)[k], v)
              else
                && (forall k :: 0 <= k < |Timings(c)| ==> Timely(Timings(c)[k]))
                && exists i :: 0 <= i < |c.peers| && FirstBadPeer(c.peers, i) && Blames(c.peers, i, v)
  }

  predicate FirstUntimely(ts: seq<Timing>, k: nat)
    requires k < |ts|
  {
    !Timely(ts[k]) && forall j :: 0 <= j < k ==> Timely(ts[j])
  }

  predicate Mistimes(t: Timing, v: Violation) {
    if v.TooSmall? then v == TooSmall(t.field, t.min) && t.value < t.min
    else v == TooBig(t.field) && t.value > MAX_SECONDS
  }

  predicate FirstBadPeer(peers: seq<PeerConfig>, i: nat)
    requires i < |peers|
  {
    !GoodPeer(peers, i) && forall j :: 0 <= j < i ==> GoodPeer(peers, j)
  }

  predicate Blames(peers: seq<PeerConfig>, i: nat, v: Violation)
    requires i < |peers|
  {
    var p := peers[i];
    if p.name == "" then v == EmptyPeerName
    else if p.host == "" then v == EmptyHost(p.name)
    else v == DuplicatePeer(p.name)
  }

  // ---------------------------------------------------------------------
  // Validation
  // ---------------------------------------------------------------------

  /** Accepts exactly the valid configs, and otherwise names the first violation. */
  method Validate(c: Config, parses: string -> bool) returns (r: Result<(), Violation>)
    ensures r.Ok? <==> Valid(c, parses)
    ensures r.Err? ==> FirstViolation(c, parses, r.error)
  {
    if c.node == "" {
      return Err(EmptyNodeName);
    }
    if !parses(c.server.bind) {
      return Err(BadBind);
    }
    var ports := CheckPorts(c.server);
    if ports.Some? {
      return Err(ports.value);
    }
    var timings := [
      Timing("server.heartbeat_recv_timeout", c.server.heartbeatRecvTimeout, 1),
      Timing("server.probe_idle_timeout", c.server.probeIdleTimeout, 0)];
    if c.client.Some? {
      timings := timings + [Timing("client.heartbeat_interval", c.client.value.heartbeatInterval, 1)];
      timings := timings + [Timing("client.reconnect_delay", c.client.value.reconnectDelay, 1)];
    }
    assert timings == Timings(c);
    for k := 0 to |timings|
      invariant forall j :: 0 <= j < k ==> Timely(timings[j])
    {
      if timings[k].value < timings[k].min {
        r := Err(TooSmall(timings[k].field, timings[k].min));
        assert FirstUntimely(timings, k) && Mistimes(timings[k], r.error);
        return;
      }
      if timings[k].value > MAX_SECONDS {
        r := Err(TooBig(timings[k].field));
        assert FirstUntimely(timings, k) && Mistimes(timings[k], r.error);
        return;
      }
    }
    var peers := CheckPeers(c.peers);
    if peers.Some? {
      return Err(peers.value);
    }
    r := Ok(());
  }

  method CheckPorts(s: ServerConfig) returns (v: Option<Violation>)
    ensures v.None? <==> PortsDiffer(s)
    ensures v.Some? ==>
      && v.value.SharedPort?
      && exists i, j :: 0 <= i < j < 3 && Clash(s, i, j, v.value)
  {
    var ports := Ports(s);
    for i := 0 to |ports|
      invariant forall a, b :: 0 <= a < i && a < b < |ports| ==> ports[a].port != ports[b].port
    {
      for j := i + 1 to |ports|
        invariant forall b :: i < b < j ==> ports[i].port != ports[b].port
      {
        if ports[i].port == ports[j].port {
          v := Some(SharedPort(ports[i].field, ports[j].field, ports[i].port));
          assert Clash(s, i, j, v.value);
          return;
        }
      }
    }
    assert ports[0].port != ports[1].port && ports[0].port != ports[2].port && ports[1].port != ports[2].port;
    v := None;
  }

  method CheckPeers(peers: seq<PeerConfig>) returns (v: Option<Violation>)
    ensures v.None? <==> forall i :: 0 <= i < |peers| ==> GoodPeer(peers, i)
    ensures v.Some? ==>
      && (v.value.EmptyPeerName? || v.value.EmptyHost? || v.value.DuplicatePeer?)
      && exists i :: 0 <= i < |peers| && FirstBadPeer(peers, i) && Blames(peers, i, v.value)
  {
    var seen: set<string> := {};
    for i := 0 to |peers|
      invariant forall j :: 0 <= j < i ==> GoodPeer(peers, j)
      invariant forall n :: n in seen <==> exists j :: 0 <= j < i && peers[j].name == n
    {
      var peer := peers[i];
      if peer.name == "" {
        assert FirstBadPeer(peers, i);
        return Some(EmptyPeerName);
      }
      if peer.host == "" {
        assert FirstBadPeer(peers, i);
        return Some(EmptyHost(peer.name));
      }
      if peer.name in seen {
        assert FirstBadPeer(peers, i);
        return Some(DuplicatePeer(peer.name));
      }
      seen := seen + {peer.name};
    }
    v := None;
  }

  // ---------------------------------------------------------------------
  // The peers as a map
  // ---------------------------------------------------------------------

  /** The first n peers by name; a later one replaces an earlier one of the same name. */
  function PeersByName(peers: seq<PeerConfig>, n: nat): (m: map<string, PeerConfig>)
    requires n <= |peers|
    ensures forall name :: name in m ==> m[name].name == name && m[name] in peers
  {
    if n == 0 then map[] else PeersByName(peers, n - 1)[peers[n - 1].name := peers[n - 1]]
  }

  function PeerMap(c: Config): map<string, PeerConfig> {
    PeersByName(c.peers, |c.peers|)
  }

  predicate DistinctNames(peers: seq<PeerConfig>, n: nat)
    requires n <= |peers|
  {
    forall i, j :: 0 <= i < j < n ==> peers[i].name != peers[j].name
  }

  lemma {:induction false} NamesKept(peers: seq<PeerConfig>, n: nat)
    requires n <= |peers|
    ensures forall i :: 0 <= i < n ==> peers[i].name in PeersByName(peers, n)
    ensures forall name :: name in PeersByName(peers, n) ==> exists i :: 0 <= i < n && peers[i].name == name
  {
    if n == 0 {
    } else {
      NamesKept(peers, n - 1);
    }
  }

  /** Of several records with one name the map keeps the last. */
  lemma {:induction false} LastRecordWins(peers: seq<PeerConfig>, n: nat, i: nat)
    requires i < n <= |peers| && forall j :: i < j < n ==> peers[j].name != peers[i].name
    ensures peers[i].name in PeersByName(peers, n) && PeersByName(peers, n)[peers[i].name] == peers[i]
  {
    if i == n - 1 {
    } else {
      LastRecordWins(peers, n - 1, i);
    }
  }

  /** Collecting peers into a map loses none exactly when their names are distinct. */
  lemma {:induction false} NoneLost(peers: seq<PeerConfig>, n: nat)
    requires n <= |peers|
    ensures |PeersByName(peers, n)| <= n
    ensures |PeersByName(peers, n)| == n <==> DistinctNames(peers, n)
  {
    if n > 0 {
      hide DistinctNames;
      NoneLost(peers, n - 1);
      DistinctSnoc(peers, n);
      var before, last := PeersByName(peers, n - 1), peers[n - 1];
      Sizes(before, last);
    } else {
      assert DistinctNames(peers, 0);
    }
  }

  lemma {:induction false} DistinctSnoc(peers: seq<PeerConfig>, n: nat)
    requires 0 < n <= |peers|
    ensures DistinctNames(peers, n) <==>
      DistinctNames(peers, n - 1) && peers[n - 1].name !in PeersByName(peers, n - 1)
  {
    hide PeersByName;
    NamesKept(peers, n - 1);
  }

  lemma {:induction false} Sizes(before: map<string, PeerConfig>, last: PeerConfig)
    ensures |before[last.name := last]| == |before| + if last.name in before then 0 else 1
  {
    assert before[last.name := last].Keys == before.Keys + {last.name};
  }

  /** A validated config keeps every one of its peers. */
  lemma {:induction false} ValidKeepsPeers(c: Config, parses: string -> bool)
    requires Valid(c, parses)
    ensures |PeerMap(c)| == |c.peers|
    ensures forall i :: 0 <= i < |c.peers| ==>
      c.peers[i].name in PeerMap(c) && PeerMap(c)[c.peers[i].name] == c.peers[i]
  {
    forall i, j | 0 <= i < j < |c.peers| ensures c.peers[i].name != c.peers[j].name {
      assert GoodPeer(c.peers, j);
    }
    NoneLost(c.peers, |c.peers|);
    forall i | 0 <= i < |c.peers|
      ensures c.peers[i].name in PeerMap(c) && PeerMap(c)[c.peers[i].name] == c.peers[i]
    {
      LastRecordWins(c.peers, |c.peers|, i);
    }
  }
}
