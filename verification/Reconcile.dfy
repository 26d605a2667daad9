/** The manager's pass over its tasks: which are stopped, kept and started when
    a config is applied, and the loop that applies the configs it sees. */
module Reconcile {
  import opened Config

  /** The peer record that a task was started with, and which task it is. */
  datatype Task = Task(peer: PeerConfig, id: nat)

  /** The peers a config asks for; none without a [client] section. */
  function Wanted(c: Config): map<string, PeerConfig> {
    if c.client.None? then map[] else PeerMap(c)
  }

  /** A task's record is still what is wanted under its name. */
  predicate Current(wanted: map<string, PeerConfig>, name: string, task: Task) {
    name in wanted && wanted[name] == task.peer
  }

  function Roster(tasks: map<string, Task>): map<string, PeerConfig> {
    map name | name in tasks :: tasks[name].peer
  }

  function Ids(tasks: map<string, Task>): set<nat> {
    set name | name in tasks :: tasks[name].id
  }

  /** What a pass that starts with `base` must leave: the wanted peers and no others, each
      with its wanted record; a task with an unchanged record is the same task as before,
      and any other is a new one. */
  ghost predicate Reconciled(base: map<string, Task>, c: Config, tasks: map<string, Task>) {
    && Roster(tasks) == Wanted(c)
    && (forall name :: name in base && Current(Wanted(c), name, base[name]) ==>
      name in tasks && tasks[name] == base[name])
    && (forall name :: name in tasks && !(name in base && Current(Wanted(c), name, base[name])) ==>
      tasks[name].id !in Ids(base))
  }

  /** Two passes over the same tasks agree, whatever order each visited them in: on every
      name and record, on which tasks are kept, and on which are replaced. */
  lemma {:induction false} OrderDoesNotMatter(base: map<string, Task>, c: Config, a: map<string, Task>, b: map<string, Task>)
    requires Reconciled(base, c, a) && Reconciled(base, c, b)
    ensures Roster(a) == Roster(b) && a.Keys == b.Keys
    ensures forall name :: name in a ==> (a[name].id in Ids(base) <==> b[name].id in Ids(base))
    ensures forall name :: name in a && a[name].id in Ids(base) ==> a[name] == b[name]
  {
    assert a.Keys == Roster(a).Keys && b.Keys == Roster(b).Keys;
    forall name | name in a
      ensures a[name].id in Ids(base) <==> b[name].id in Ids(base)
      ensures a[name].id in Ids(base) ==> a[name] == b[name]
    {
      if name in base && Current(Wanted(c), name, base[name]) {
        assert base[name].id in Ids(base);
      }
    }
  }

  datatype Deed =
    | Stopped(id: nat)
    | Spawned(id: nat, peer: PeerConfig, client: ClientConfig, node: string)

  class Manager {
    var tasks: map<string, Task>
    var nextId: nat
    ghost var live: set<nat>   // tasks that have been spawned and not yet awaited
    ghost var log: seq<Deed>

    ghost predicate Valid()
      reads this
    {
      && live == Ids(tasks)
      && Distinct(tasks)
      && (forall name :: name in tasks ==> tasks[name].id < nextId)
    }

    constructor ()
      ensures Valid() && tasks == map[] && log == []
    {
      tasks, nextId, live, log := map[], 0, {}, [];
    }

    /** Cancel a task and wait for it to finish. */
    method Stop(task: Task)
      modifies this`live, this`log
      ensures live == old(live) - {task.id} && log == old(log) + [Stopped(task.id)]
    {
      live := live - {task.id};
      log := log + [Stopped(task.id)];
    }

    method Spawn(peer: PeerConfig, client: ClientConfig, node: string) returns (task: Task)
      modifies this`live, this`log, this`nextId
      ensures task == Task(peer, old(nextId)) && nextId == old(nextId) + 1
      ensures live == old(live) + {task.id} && log == old(log) + [Spawned(task.id, peer, client, node)]
    {
      task := Task(peer, nextId);
      nextId := nextId + 1;
      live := live + {task.id};
      log := log + [Spawned(task.id, peer, client, node)];
    }

    /** Take one task out and stop it. */
    method StopOne(name: string) returns (ghost id: nat)
      requires Valid() && name in tasks
      modifies this
      ensures Valid() && nextId == old(nextId)
      ensures tasks == old(tasks) - {name}
      ensures id in old(Ids(tasks)) && Ids(tasks) == old(Ids(tasks)) - {id} && log == old(log) + [Stopped(id)]
    {
      hide Distinct, Ids;
      var task := tasks[name];
      Removing(tasks, name);
      tasks := tasks - {name};
      Stop(task);
      id := task.id;
    }

    method StartOne(peer: PeerConfig, client: ClientConfig, node: string)
      requires Valid() && peer.name !in tasks
      modifies this
      ensures Valid() && nextId == old(nextId) + 1
      ensures tasks == old(tasks)[peer.name := Task(peer, old(nextId))]
      ensures log == old(log) + [Spawned(old(nextId), peer, client, node)]
    {
      hide Distinct, Ids;
      Fresh(tasks, nextId);
      var task := Spawn(peer, client, node);
      Adding(tasks, peer.name, task);
      tasks := tasks[peer.name := task];
    }

    /** Stop every task. */
    method Drain() returns (ghost stops: seq<Deed>)
      requires Valid()
      modifies this
      ensures Valid() && tasks == map[] && live == {} && nextId == old(nextId)
      ensures log == old(log) + stops && StopsExactly(stops, old(Ids(tasks)))
    {
      hide Distinct, Ids, StopsExactly;
      ghost var all := Ids(tasks);
      var drained := tasks;
      tasks, stops := map[], [];
      NoStops(all - Ids(drained));
      while drained != map[]
        invariant tasks == map[] && nextId == old(nextId)
        invariant live == Ids(drained) <= all && Distinct(drained)
        invariant log == old(log) + stops && StopsExactly(stops, all - Ids(drained))
        decreases |drained|
      {
        var name :| name in drained;
        var task := drained[name];
        Removing(drained, name);
        MoreStops(stops, task.id, all, Ids(drained));
        drained := drained - {name};
        Stop(task);
        Longer(old(log), stops, Stopped(task.id));
        stops := stops + [Stopped(task.id)];
      }
      NoTasks();
      assert all - {} == all;
    }

    /** Stop every task that is no longer wanted as it is. */
    method RemoveStale(wanted: map<string, PeerConfig>) returns (ghost stops: seq<Deed>)
      requires Valid()
      modifies this
      ensures Valid() && nextId == old(nextId)
      ensures tasks == Kept(old(tasks), wanted)
      ensures log == old(log) + stops && StopsExactly(stops, old(Ids(tasks)) - Ids(tasks))
    {
      hide Valid, Distinct, Ids, StopsExactly, Current, Kept, Stale;
      ghost var base, all := tasks, Ids(tasks);
      var stale := Stale(tasks, wanted);
      ghost var gone: set<string> := {};
      stops := [];
      NoStops(all - Ids(tasks));
      while stale != {}
        invariant Valid() && nextId == old(nextId) && Ids(tasks) <= all
        invariant tasks == base - gone && stale !! gone && stale + gone == Stale(base, wanted)
        invariant log == old(log) + stops && StopsExactly(stops, all - Ids(tasks))
        decreases |stale|
      {
        var name :| name in stale;
        IsStale(base, wanted, name);
        stale := stale - {name};
        ghost var before := Ids(tasks);
        ghost var id := StopOne(name);
        gone := gone + {name};
        MoreStops(stops, id, all, before);
        Longer(old(log), stops, Stopped(id));
        stops := stops + [Stopped(id)];
      }
      NoneStale(base, wanted);
    }

    /** Start a task for every wanted peer that has none. */
    method SpawnMissing(wanted: map<string, PeerConfig>, client: ClientConfig, node: string)
      returns (ghost spawns: seq<Deed>)
      requires Valid() && Kept(tasks, wanted) == tasks
      requires forall name :: name in wanted ==> wanted[name].name == name
      modifies this
      ensures Valid() && Roster(tasks) == wanted
      ensures forall name :: name in old(tasks) ==> name in tasks && tasks[name] == old(tasks)[name]
      ensures forall name :: name in tasks && name !in old(tasks) ==> tasks[name].id >= old(nextId)
      ensures log == old(log) + spawns
      ensures SpawnsExactly(spawns, wanted.Keys - old(tasks).Keys, tasks, client, node)
    {
      hide Valid, Distinct, Ids, SpawnsExactly, Current, Kept, Grown, Roster;
      ghost var base := tasks;
      var rest := wanted.Keys;
      ghost var started: set<string> := {};
      spawns := [];
      StillWanted(base, wanted, nextId);
      NoSpawns(tasks, client, node);
      while rest != {}
        invariant Valid() && old(nextId) <= nextId && rest <= wanted.Keys
        invariant Grown(base, tasks, wanted, old(nextId), started) && wanted.Keys <= rest + tasks.Keys
        invariant log == old(log) + spawns && SpawnsExactly(spawns, started, tasks, client, node)
        decreases |rest|
      {
        var name :| name in rest;
        rest := rest - {name};
        if name !in tasks {
          GrowsOn(base, tasks, wanted, old(nextId), started, name, nextId);
          MoreSpawns(spawns, started, tasks, Task(wanted[name], nextId), client, node);
          ghost var deed := Spawned(nextId, wanted[name], client, node);
          Longer(old(log), spawns, deed);
          StartOne(wanted[name], client, node);
          started, spawns := started + {name}, spawns + [deed];
        }
      }
      GrownUp(base, tasks, wanted, old(nextId), started);
    }

    /** One pass: all stops, each awaited, come before any spawn; they are exactly those
        of those not wanted as they are, and of the wanted peers left without one. */
    method ApplyConfig(c: Config) returns (ghost stops: seq<Deed>, ghost spawns: seq<Deed>)
      requires Valid()
      modifies this
      ensures Valid() && Reconciled(old(tasks), c, tasks)
      ensures log == old(log) + stops + spawns
      ensures StopsExactly(stops, old(Ids(tasks)) - Ids(Kept(old(tasks), Wanted(c))))
      ensures if c.client.None? then spawns == [] else
        SpawnsExactly(spawns, Wanted(c).Keys - Kept(old(tasks), Wanted(c)).Keys, tasks, c.client.value, c.node)
    {
      hide Distinct, Ids, StopsExactly, SpawnsExactly, PeersByName;
      ghost var base := tasks;
      if c.client.None? {
        stops := Drain();
        spawns := [];
        NoTasks();
        assert Kept(base, Wanted(c)) == map[];
        assert Ids(base) - {} == Ids(base);
      } else {
        var wanted := PeerMap(c);
        stops := RemoveStale(wanted);
        spawns := SpawnMissing(wanted, c.client.value, c.node);
        BelowNext(base, old(nextId));
      }
    }

    /** The manager's loop over the configs it sees, which may skip any of those sent, until
        its channel closes or it is cancelled. `states` holds `tasks` at the start and
        then at each wait. */
    method RunManager(seen: seq<Config>) returns (ghost states: seq<map<string, Task>>)
      requires Valid() && tasks == map[]
      modifies this
      ensures Valid() && tasks == map[] && live == {}
      ensures |states| == |seen| + 1 && states[0] == map[]
      ensures forall k :: 0 <= k < |seen| ==> Reconciled(states[k], seen[k], states[k + 1])
    {
      hide Distinct, Ids, StopsExactly, SpawnsExactly, Reconciled;
      states := [tasks];
      for k := 0 to |seen|
        invariant Valid() && |states| == k + 1 && tasks == states[k] && states[0] == map[]
        invariant forall i :: 0 <= i < k ==> Reconciled(states[i], seen[i], states[i + 1])
      {
        ghost var stops, spawns := ApplyConfig(seen[k]);
        states := states + [tasks];
      }
      ghost var stops := Drain();
    }
  }

  /** Those still wanted as they are. */
  function Kept(tasks: map<string, Task>, wanted: map<string, PeerConfig>): map<string, Task> {
    map name | name in tasks && Current(wanted, name, tasks[name]) :: tasks[name]
  }

  /** The names whose task must go: no longer wanted, or wanted with another record. */
  function Stale(tasks: map<string, Task>, wanted: map<string, PeerConfig>): set<string> {
    set name | name in tasks && !Current(wanted, name, tasks[name])
  }

  lemma {:induction false} IsStale(tasks: map<string, Task>, wanted: map<string, PeerConfig>, name: string)
    requires name in Stale(tasks, wanted)
    ensures name in tasks
  {
  }

  lemma {:induction false} NoneStale(tasks: map<string, Task>, wanted: map<string, PeerConfig>)
    ensures tasks - Stale(tasks, wanted) == Kept(tasks, wanted)
  {
  }

  /** These ids are stopped, each once, and nothing else is done. */
  predicate StopsExactly(deeds: seq<Deed>, ids: set<nat>) {
    && |deeds| == |ids|
    && (forall i :: 0 <= i < |deeds| ==> deeds[i].Stopped? && deeds[i].id in ids)
    && (forall id :: id in ids ==> Stopped(id) in deeds)
  }

  /** These names have their tasks started, each once and with these settings, and nothing
      else is done. */
  predicate SpawnsExactly(deeds: seq<Deed>, names: set<string>, tasks: map<string, Task>, client: ClientConfig, node: string) {
    && |deeds| == |names|
    && (forall i :: 0 <= i < |deeds| ==> deeds[i].Spawned? && deeds[i].peer.name in names)
    && (forall name :: name in names ==>
      && name in tasks && tasks[name].peer.name == name
      && Spawned(tasks[name].id, tasks[name].peer, client, node) in deeds)
  }

  /** `tasks` has grown from `base` by these names, with wanted records and new ids. */
  ghost predicate Grown(base: map<string, Task>, tasks: map<string, Task>, wanted: map<string, PeerConfig>, from: nat,
      names: set<string>)
  {
    && tasks.Keys == base.Keys + names && names !! base.Keys
    && (forall name :: name in tasks ==> name in wanted && tasks[name].peer == wanted[name])
    && (forall name :: name in base ==> tasks[name] == base[name])
    && (forall name :: name in names ==> tasks[name].id >= from)
  }

  lemma {:induction false} StillWanted(tasks: map<string, Task>, wanted: map<string, PeerConfig>, from: nat)
    requires Kept(tasks, wanted) == tasks
    ensures Grown(tasks, tasks, wanted, from, {})
  {
  }

  lemma {:induction false} GrowsOn(base: map<string, Task>, tasks: map<string, Task>, wanted: map<string, PeerConfig>, from: nat,
      names: set<string>, name: string, id: nat)
    requires Grown(base, tasks, wanted, from, names) && name in wanted && name !in tasks && id >= from
    ensures Grown(base, tasks[name := Task(wanted[name], id)], wanted, from, names + {name})
  {
  }

  lemma {:induction false} GrownUp(base: map<string, Task>, tasks: map<string, Task>, wanted: map<string, PeerConfig>, from: nat,
      names: set<string>)
    requires Grown(base, tasks, wanted, from, names) && wanted.Keys <= tasks.Keys
    ensures Roster(tasks) == wanted && names == wanted.Keys - base.Keys
    ensures forall name :: name in base ==> name in tasks && tasks[name] == base[name]
    ensures forall name :: name in tasks && name !in base ==> tasks[name].id >= from
  {
    assert tasks.Keys == wanted.Keys;
  }

  lemma {:induction false} Longer(a: seq<Deed>, b: seq<Deed>, deed: Deed)
    ensures a + b + [deed] == a + (b + [deed])
  {
  }

  lemma {:induction false} NoStops(ids: set<nat>)
    requires ids == {}
    ensures StopsExactly([], ids)
  {
  }

  lemma {:induction false} MoreStops(deeds: seq<Deed>, id: nat, all: set<nat>, left: set<nat>)
    requires StopsExactly(deeds, all - left) && id in left && left <= all
    ensures StopsExactly(deeds + [Stopped(id)], all - (left - {id}))
  {
    assert all - (left - {id}) == all - left + {id};
    assert (deeds + [Stopped(id)])[|deeds|] == Stopped(id);
    forall i | i in all - left ensures Stopped(i) in deeds + [Stopped(id)] {
      assert Stopped(i) in deeds;
    }
  }

  lemma {:induction false} NoSpawns(tasks: map<string, Task>, client: ClientConfig, node: string)
    ensures SpawnsExactly([], {}, tasks, client, node)
  {
  }

  lemma {:induction false} MoreSpawns(deeds: seq<Deed>, names: set<string>, tasks: map<string, Task>, task: Task,
      client: ClientConfig, node: string)
    requires SpawnsExactly(deeds, names, tasks, client, node) && task.peer.name !in tasks
    ensures
      var deed := Spawned(task.id, task.peer, client, node);
      SpawnsExactly(deeds + [deed], names + {task.peer.name}, tasks[task.peer.name := task], client, node)
  {
    var deed, more := Spawned(task.id, task.peer, client, node), tasks[task.peer.name := task];
    assert task.peer.name !in names;
    assert (deeds + [deed])[|deeds|] == deed;
    forall name | name in names
      ensures name in more && more[name].peer.name == name
      ensures Spawned(more[name].id, more[name].peer, client, node) in deeds + [deed]
    {
      assert Spawned(tasks[name].id, tasks[name].peer, client, node) in deeds;
    }
    assert |names + {task.peer.name}| == |names| + 1;
  }

  lemma {:induction false} NoTasks()
    ensures Ids(map[]) == {} && Distinct(map[])
  {
  }

  lemma {:induction false} Fresh(tasks: map<string, Task>, next: nat)
    requires forall name :: name in tasks ==> tasks[name].id < next
    ensures next !in Ids(tasks)
  {
  }

  lemma {:induction false} BelowNext(tasks: map<string, Task>, next: nat)
    requires forall name :: name in tasks ==> tasks[name].id < next
    ensures forall id :: id >= next ==> id !in Ids(tasks)
  {
  }

  predicate Distinct(tasks: map<string, Task>) {
    forall a, b :: a in tasks && b in tasks && a != b ==> tasks[a].id != tasks[b].id
  }

  lemma {:induction false} Removing(tasks: map<string, Task>, name: string)
    requires Distinct(tasks) && name in tasks
    ensures Distinct(tasks - {name})
    ensures tasks[name].id in Ids(tasks) && Ids(tasks - {name}) == Ids(tasks) - {tasks[name].id}
    ensures |tasks - {name}| < |tasks|
  {
    var rest := tasks - {name};
    assert tasks == rest[name := tasks[name]];
    assert forall n :: n in rest ==> rest[n].id == tasks[n].id;
    forall id | id in Ids(tasks) && id != tasks[name].id ensures id in Ids(rest) {
      var n :| n in tasks && tasks[n].id == id;
      assert n in rest;
    }
  }

  lemma {:induction false} Adding(tasks: map<string, Task>, name: string, task: Task)
    requires Distinct(tasks) && name !in tasks && task.id !in Ids(tasks)
    ensures Distinct(tasks[name := task])
    ensures Ids(tasks[name := task]) == Ids(tasks) + {task.id}
  {
    var more := tasks[name := task];
    forall id | id in Ids(tasks) + {task.id} ensures id in Ids(more) {
      if id == task.id {
        assert more[name].id == id;
      } else {
        var n :| n in tasks && tasks[n].id == id;
        assert n in more && more[n].id == id;
      }
    }
  }
}
