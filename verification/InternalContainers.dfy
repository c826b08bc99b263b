/** The registry of internally managed static containers: one entry per container name, shared by all
    tests of the process and guarded by one lock. Every method is one lock scope. The functions say what
    a lock scope does to the registry and the daemon; the methods are the code, in place. */
module InternalContainers {
  import opened Containers
  import Docker

  datatype Status =
    | Operational(running: OperationalContainer, pending: PendingContainer)
    | Pending(pending: PendingContainer)
    | Cleaned
    | Failed(error: Error, failedId: Option<Id>)
  {
    function ContainerId(): Option<Id> {
      match this
      case Operational(_, p) => Some(p.id)
      case Pending(p) => Some(p.id)
      case Failed(_, id) => id
      case Cleaned => None
    }
  }

  /** The usage counter is eight bits wide. */
  type Counter = n: int | 0 <= n < 256

  datatype Entry = Entry(status: Status, completionCounter: Counter)

  type Registry = map<Name, Entry>

  function Increment(c: Counter): Counter { (c + 1) % 256 }

  function Decrement(c: Counter): Counter { (c + 255) % 256 }

  const CLEANED_ERROR := Startup("encountered a cleaned container during startup")
  const MISSING_ERROR := Startup("tried to start a non-existing internal container")

  // --- create -----------------------------------------------------------------------------------

  /** The daemon's answers during one `create`: to the creation and to the network request. */
  datatype CreateReplies = CreateReplies(created: Result<Id, Error>, connected: Docker.Reply)

  predicate Fresh(d: Docker.State, replies: CreateReplies) {
    replies.created.Success? ==> replies.created.value !in d.created
  }

  type Created = (Registry, Docker.State, Result<PendingContainer, Error>)

  function CreateSpec(m: Registry, d: Docker.State, c: Composition, network: Option<NetworkName>, mode: Network,
                      replies: CreateReplies): Created
  {
    if c.containerName in m then
      var e := m[c.containerName];
      match e.status
      case Pending(p) => JoinSpec(m, d, c, p, network, mode, replies)
      case Operational(_, p) => JoinSpec(m, d, c, p, network, mode, replies)
      case Failed(error, _) => (m[c.containerName := Counted(e)], d, Failure(error))
      case Cleaned => GenerateSpec(m, d, c, network, replies)
    else
      GenerateSpec(m, d, c, network, replies)
  }

  function Counted(e: Entry): Entry {
    e.(completionCounter := Increment(e.completionCounter))
  }

  /** Using a container somebody else created. */
  function JoinSpec(m: Registry, d: Docker.State, c: Composition, p: PendingContainer, network: Option<NetworkName>,
                    mode: Network, replies: CreateReplies): Created
    requires c.containerName in m
  {
    var counted := m[c.containerName := Counted(m[c.containerName])];
    if network.Some? && mode.Isolated? then
      if replies.connected.Refused? then (m, d, Failure(replies.connected.error))
      else (counted, d.Connect(p.id, network.value), Success(p))
    else
      (counted, d, Success(p))
  }

  /** Creating the first container, or the next one after a clean-up. */
  function GenerateSpec(m: Registry, d: Docker.State, c: Composition, network: Option<NetworkName>,
                        replies: CreateReplies): Created
  {
    match replies.created
    case Failure(e) => (m[c.containerName := Entry(Failed(e, None), 1)], d, Failure(e))
    case Success(id) =>
      var p := PendingOf(c, id);
      var m' := m[c.containerName := Entry(Pending(p), 1)];
      var d' := d.Create(id, c.containerName);
      if network.None? then (m', d', Success(p))
      else if replies.connected.Refused? then (m', d', Failure(replies.connected.error))
      else (m', d'.Connect(id, network.value), Success(p))
  }

  // --- start ------------------------------------------------------------------------------------

  type Started = (Registry, Docker.State, Result<OperationalContainer, Error>)

  /** On failure the entry remembers the id of the container the caller asked for. */
  function StartSpec(m: Registry, d: Docker.State, container: PendingContainer, reply: Docker.Reply): Started {
    if container.name !in m then (m, d, Failure(MISSING_ERROR))
    else
      var e := m[container.name];
      match e.status
      case Failed(error, _) => (m, d, Failure(error))
      case Operational(r, _) => (m, d, Success(r))
      case Cleaned => (m, d, Failure(CLEANED_ERROR))
      case Pending(p) =>
        if reply.Accepted? then
          var r := OperationalOf(p);
          (m[container.name := e.(status := Operational(r, p))], d.Start(p.id), Success(r))
        else
          (m[container.name := e.(status := Failed(reply.error, Some(container.id)))], d.Start(p.id),
           Failure(reply.error))
  }

  // --- cleanup ----------------------------------------------------------------------------------

  function DisconnectTargets(m: Registry, toCleanup: set<Id>): set<Id> {
    set n | n in m && m[n].status.Operational? && m[n].status.running.id in toCleanup :: m[n].status.running.id
  }

  predicate Hit(e: Entry, toCleanup: set<Id>) {
    var id := e.status.ContainerId();
    id.Some? && id.value in toCleanup
  }

  predicate LastHit(e: Entry, toCleanup: set<Id>) {
    Hit(e, toCleanup) && Decrement(e.completionCounter) == 0
  }

  function ReleasedEntry(e: Entry, toCleanup: set<Id>): Entry {
    if LastHit(e, toCleanup) then Entry(Cleaned, 0)
    else if Hit(e, toCleanup) then e.(completionCounter := Decrement(e.completionCounter))
    else e
  }

  function DecrementSpec(m: Registry, toCleanup: set<Id>): Registry {
    map n | n in m :: ReleasedEntry(m[n], toCleanup)
  }

  /** The names whose entry this release retires, and the ids it thereby becomes responsible to remove. */
  function RetiredNames(m: Registry, toCleanup: set<Id>): set<Name> {
    set n | n in m && LastHit(m[n], toCleanup)
  }

  function Responsible(m: Registry, toCleanup: set<Id>): set<Id> {
    IdsOf(m, RetiredNames(m, toCleanup))
  }

  /** The entries that a release retires with container `id`. */
  function RetiredAs(m: Registry, toCleanup: set<Id>, id: Id): set<Name> {
    WithId(m, RetiredNames(m, toCleanup), id)
  }

  function WithId(m: Registry, names: set<Name>, id: Id): set<Name>
    requires names <= m.Keys
  {
    set n | n in names && m[n].status.ContainerId() == Some(id)
  }

  function IdsOf(m: Registry, names: set<Name>): set<Id>
    requires forall n | n in names :: n in m && m[n].status.ContainerId().Some?
  {
    set n | n in names :: m[n].status.ContainerId().value
  }

  // --- the registry -----------------------------------------------------------------------------

  class InternalContainers {
    var inner: Registry

    constructor ()
      ensures inner == map[]
    {
      inner := map[];
    }

    method Create(c: Composition, client: Docker.Client, network: Option<NetworkName>, mode: Network,
                  replies: CreateReplies)
      returns (r: Result<PendingContainer, Error>)
      requires Fresh(client.state, replies)
      modifies this, client
      ensures (inner, client.state, r) == CreateSpec(old(inner), old(client.state), c, network, mode, replies)
    {
      var name := c.containerName;
      if name in inner {
        var entry := inner[name];
        match entry.status {
          case Pending(p) =>
            r := Join(c, p, client, network, mode, replies);
          case Operational(_, p) =>
            r := Join(c, p, client, network, mode, replies);
          case Failed(e, _) =>
            inner := inner[name := Counted(entry)];
            r := Failure(e);
          case Cleaned =>
            r := CreateAndConnect(c, client, network, replies);
        }
      } else {
        r := CreateAndConnect(c, client, network, replies);
      }
    }

    method Join(c: Composition, p: PendingContainer, client: Docker.Client, network: Option<NetworkName>,
                mode: Network, replies: CreateReplies)
      returns (r: Result<PendingContainer, Error>)
      requires c.containerName in inner
      modifies this, client
      ensures (inner, client.state, r) == JoinSpec(old(inner), old(client.state), c, p, network, mode, replies)
    {
      if network.Some? && mode.Isolated? {
        var connected := client.AddContainerToNetwork(p.id, network.value, replies.connected);
        if connected.Refused? {
          return Failure(connected.error);
        }
      }
      inner := inner[c.containerName := Counted(inner[c.containerName])];
      r := Success(p);
    }

    method CreateAndConnect(c: Composition, client: Docker.Client, network: Option<NetworkName>, replies: CreateReplies)
      returns (r: Result<PendingContainer, Error>)
      requires Fresh(client.state, replies)
      modifies this, client
      ensures (inner, client.state, r) == GenerateSpec(old(inner), old(client.state), c, network, replies)
    {
      r := client.CreateContainer(c, replies.created);
      match r {
        case Failure(e) =>
          inner := inner[c.containerName := Entry(Failed(e, None), 1)];
        case Success(p) =>
          inner := inner[c.containerName := Entry(Pending(p), 1)];
          if network.Some? {
            var connected := client.AddContainerToNetwork(p.id, network.value, replies.connected);
            if connected.Refused? {
              r := Failure(connected.error);
            }
          }
      }
    }

    method Start(container: PendingContainer, client: Docker.Client, reply: Docker.Reply)
      returns (r: Result<OperationalContainer, Error>)
      modifies this, client
      ensures (inner, client.state, r) == StartSpec(old(inner), old(client.state), container, reply)
    {
      if container.name in inner {
        var entry := inner[container.name];
        match entry.status {
          case Failed(e, _) => r := Failure(e);
          case Operational(running, _) => r := Success(running);
          case Pending(p) =>
            r := client.StartContainer(p, reply);
            match r {
              case Success(running) =>
                inner := inner[container.name := entry.(status := Operational(running, p))];
              case Failure(e) =>
                inner := inner[container.name := entry.(status := Failed(e, Some(container.id)))];
            }
          case Cleaned => r := Failure(CLEANED_ERROR);
        }
      } else {
        r := Failure(MISSING_ERROR);
      }
    }

    /** Entries are visited in an arbitrary order; `honoured` are the requests the daemon complies with. */
    method Disconnect(client: Docker.Client, network: NetworkName, toCleanup: set<Id>, honoured: set<Id>)
      modifies client
      ensures client.state == old(client.state).Disconnect(DisconnectTargets(inner, toCleanup) * honoured, network)
    {
      var todo := inner.Keys;
      var done: set<Id> := {};
      assert client.state.links == client.state.Disconnect({}, network).links;
      while todo != {}
        invariant todo <= inner.Keys
        invariant done == DisconnectTargets(map n | n in inner && n !in todo :: inner[n], toCleanup) * honoured
        invariant client.state == old(client.state).Disconnect(done, network)
        decreases todo
      {
        var n :| n in todo;
        ghost var before := done;
        todo := todo - {n};
        var status := inner[n].status;
        if status.Operational? && status.running.id in toCleanup {
          var id := status.running.id;
          client.DisconnectContainer(id, network, id in honoured);
          done := if id in honoured then done + {id} else done;
          assert done == before + ({id} * honoured);
        }
        VisitTarget(inner, toCleanup, todo, n);
      }
      assert (map n | n in inner && n !in todo :: inner[n]) == inner;
    }

    /** Entries are visited in an arbitrary order. Each retired entry contributes its id once. */
    method DecrementCompletionCounters(toCleanup: set<Id>) returns (responsible: seq<Id>)
      modifies this
      ensures inner == DecrementSpec(old(inner), toCleanup)
      ensures |responsible| == |RetiredNames(old(inner), toCleanup)|
      ensures (set id | id in responsible) == Responsible(old(inner), toCleanup)
      ensures forall id :: multiset(responsible)[id] == |RetiredAs(old(inner), toCleanup, id)|
    {
      ghost var was := inner;
      responsible := [];
      var todo := inner.Keys;
      while todo != {}
        invariant todo <= was.Keys
        invariant Releasing(was, todo, toCleanup, inner, responsible)
        decreases todo
      {
        var n :| n in todo;
        ReleaseOneMore(was, todo, n, toCleanup, inner, responsible);
        var id := ReleaseOne(n, toCleanup);
        todo := todo - {n};
        if id.Some? {
          responsible := responsible + [id.value];
        }
      }
      assert RetiredNames(was, toCleanup) - {} == RetiredNames(was, toCleanup);
    }

    method ReleaseOne(n: Name, toCleanup: set<Id>) returns (responsible: Option<Id>)
      requires n in inner
      modifies this
      ensures inner == old(inner)[n := ReleasedEntry(old(inner)[n], toCleanup)]
      ensures responsible == if LastHit(old(inner)[n], toCleanup) then old(inner)[n].status.ContainerId() else None
    {
      responsible := None;
      var entry := inner[n];
      var id := entry.status.ContainerId();
      if id.Some? && id.value in toCleanup {
        entry := entry.(completionCounter := Decrement(entry.completionCounter));
        if entry.completionCounter == 0 {
          responsible := id;
          entry := entry.(status := Cleaned);
        }
      }
      inner := inner[n := entry];
    }

    /** What one test does at the end when no other test interferes. */
    method Cleanup(client: Docker.Client, network: NetworkName, toCleanup: set<Id>, disconnects: set<Id>,
                   removals: set<Id>)
      modifies this, client
      ensures inner == DecrementSpec(old(inner), toCleanup)
      ensures TornDown(old(client.state), client.state, Responsible(old(inner), toCleanup), removals,
                       DisconnectTargets(old(inner), toCleanup) * disconnects, network)
      ensures forall id :: client.state.removals[id] == old(client.state.removals)[id]
                                                      + |RetiredAs(old(inner), toCleanup, id)|
    {
      ghost var was := client.state;
      ghost var targets := DisconnectTargets(inner, toCleanup) * disconnects;
      Disconnect(client, network, toCleanup, disconnects);
      var responsible := DecrementCompletionCounters(toCleanup);
      for i := 0 to |responsible|
        invariant inner == DecrementSpec(old(inner), toCleanup)
        invariant TornDown(was, client.state, (set id | id in responsible[..i]), removals, targets, network)
        invariant client.state.removals == was.removals + multiset(responsible[..i])
      {
        client.RemoveContainer(responsible[i], responsible[i] in removals);
        assert responsible[..i + 1] == responsible[..i] + [responsible[i]];
      }
      assert responsible[..|responsible|] == responsible;
    }
  }

  /** From `d` to `d'`, of `ids` those in `honoured` were removed, and `targets` left the network. Apart from requests
      to remove containers, nothing else happened. */
  ghost predicate TornDown(d: Docker.State, d': Docker.State, ids: set<Id>, honoured: set<Id>, targets: set<Id>,
                           network: NetworkName)
  {
    && d'.created == d.created && d'.starts == d.starts
    && d'.removed == d.removed + ids * honoured
    && (forall l :: l in d'.links <==> l in d.links && !(l.0 in targets && l.1 == network) && l.0 !in ids * honoured)
  }

  /** The registry when the entries named in `todo` are still to be visited. */
  function PartlyReleased(m: Registry, todo: set<Name>, toCleanup: set<Id>): Registry {
    map n | n in m :: if n in todo then m[n] else ReleasedEntry(m[n], toCleanup)
  }

  /** How far a release is when the entries named in `todo` are still to be visited. */
  ghost predicate Releasing(m: Registry, todo: set<Name>, toCleanup: set<Id>, inner: Registry, responsible: seq<Id>) {
    && inner == PartlyReleased(m, todo, toCleanup)
    && |responsible| == |RetiredNames(m, toCleanup) - todo|
    && (set id | id in responsible) == IdsOf(m, RetiredNames(m, toCleanup) - todo)
    && forall id :: multiset(responsible)[id] == |WithId(m, RetiredNames(m, toCleanup) - todo, id)|
  }

  lemma ReleaseOneMore(m: Registry, todo: set<Name>, n: Name, toCleanup: set<Id>, inner: Registry, responsible: seq<Id>)
    requires n in todo && todo <= m.Keys && Releasing(m, todo, toCleanup, inner, responsible)
    ensures inner.Keys == m.Keys && inner[n] == m[n]
    ensures var id := m[n].status.ContainerId();
            Releasing(m, todo - {n}, toCleanup, inner[n := ReleasedEntry(m[n], toCleanup)],
                      if LastHit(m[n], toCleanup) then responsible + [id.value] else responsible)
  {
    var retired := RetiredNames(m, toCleanup) - todo;
    assert PartlyReleased(m, todo - {n}, toCleanup) == inner[n := ReleasedEntry(m[n], toCleanup)];
    if LastHit(m[n], toCleanup) {
      assert RetiredNames(m, toCleanup) - (todo - {n}) == retired + {n};
      IdsOfOneMore(m, retired, n);
      forall id
        ensures |WithId(m, retired + {n}, id)|
             == |WithId(m, retired, id)| + if m[n].status.ContainerId() == Some(id) then 1 else 0
      {
        WithIdOneMore(m, retired, n, id);
      }
      SnocSet(responsible, m[n].status.ContainerId().value);
    } else {
      assert RetiredNames(m, toCleanup) - (todo - {n}) == retired;
    }
  }

  lemma SnocSet(ids: seq<Id>, id: Id)
    ensures (set i | i in ids + [id]) == (set i | i in ids) + {id}
  {
  }

  lemma WithIdOneMore(m: Registry, names: set<Name>, n: Name, id: Id)
    requires names <= m.Keys && n in m && n !in names
    ensures |WithId(m, names + {n}, id)|
         == |WithId(m, names, id)| + if m[n].status.ContainerId() == Some(id) then 1 else 0
  {
    if m[n].status.ContainerId() == Some(id) {
      assert WithId(m, names + {n}, id) == WithId(m, names, id) + {n};
    } else {
      assert WithId(m, names + {n}, id) == WithId(m, names, id);
    }
  }

  lemma IdsOfOneMore(m: Registry, names: set<Name>, n: Name)
    requires forall k | k in names + {n} :: k in m && m[k].status.ContainerId().Some?
    ensures IdsOf(m, names + {n}) == IdsOf(m, names) + {m[n].status.ContainerId().value}
  {
    assert n in names + {n};
  }

  lemma VisitTarget(m: Registry, toCleanup: set<Id>, todo: set<Name>, n: Name)
    requires n in m && n !in todo
    ensures DisconnectTargets(map k | k in m && k !in todo :: m[k], toCleanup)
         == DisconnectTargets(map k | k in m && k !in todo + {n} :: m[k], toCleanup)
          + if m[n].status.Operational? && m[n].status.running.id in toCleanup then {m[n].status.running.id} else {}
  {
    var after := map k | k in m && k !in todo :: m[k];
    var before := map k | k in m && k !in todo + {n} :: m[k];
    forall id | id in DisconnectTargets(after, toCleanup)
      ensures id in DisconnectTargets(before, toCleanup)
           || (m[n].status.Operational? && m[n].status.running.id in toCleanup && id == m[n].status.running.id)
    {
      var k :| k in after && after[k].status.Operational? && after[k].status.running.id in toCleanup
               && after[k].status.running.id == id;
      if k != n {
        assert k in before && before[k] == after[k];
      }
    }
    forall id | id in DisconnectTargets(before, toCleanup)
      ensures id in DisconnectTargets(after, toCleanup)
    {
      var k :| k in before && before[k].status.Operational? && before[k].status.running.id in toCleanup
               && before[k].status.running.id == id;
      assert k in after && after[k] == before[k];
    }
    if m[n].status.Operational? && m[n].status.running.id in toCleanup {
      assert n in after && after[n] == m[n];
    }
  }
}
