/** The registry of containers the user manages: looked up once by name, then remembered. */
module ExternalContainers {
  import opened Containers
  import opened DynamicContainers
  import Docker

  type Registry = map<Name, OperationalContainer>

  datatype IncludeReplies = IncludeReplies(inspected: Result<Option<Id>, Error>, connected: Docker.Reply)

  type Included = (Registry, Docker.State, Result<StaticExternal, Error>)

  function IncludeSpec(m: Registry, d: Docker.State, c: Composition, network: Option<NetworkName>, mode: Network,
                       replies: IncludeReplies): Included
  {
    if c.containerName in m then
      var r := m[c.containerName];
      if !mode.Isolated? || network.None? then (m, d, Success(StaticExternal(r.handle, r.id)))
      else if replies.connected.Refused? then (m, d, Failure(replies.connected.error))
      else (m, d.Connect(r.id, network.value), Success(StaticExternal(r.handle, r.id)))
    else
      match replies.inspected
      case Failure(e) => (m, d, Failure(e))
      case Success(None) => (m, d, Failure(NO_ID_ERROR))
      case Success(Some(id)) =>
        var r := FoundContainer(c, id);
        if mode.ExternalNetwork? || network.None? then
          (m[r.name := r], d, Success(StaticExternal(r.handle, r.id)))
        else if replies.connected.Refused? then (m, d, Failure(replies.connected.error))
        else (m[r.name := r], d.Connect(id, network.value), Success(StaticExternal(r.handle, r.id)))
  }

  function DisconnectTargets(m: Registry, toCleanup: set<Id>): set<Id> {
    set n | n in m && m[n].id in toCleanup :: m[n].id
  }

  class ExternalContainers {
    var inner: Registry

    constructor ()
      ensures inner == map[]
    {
      inner := map[];
    }

    method Include(c: Composition, client: Docker.Client, network: Option<NetworkName>, mode: Network,
                   replies: IncludeReplies)
      returns (r: Result<StaticExternal, Error>)
      modifies this, client
      ensures (inner, client.state, r) == IncludeSpec(old(inner), old(client.state), c, network, mode, replies)
    {
      if c.containerName in inner {
        var running := inner[c.containerName];
        if mode.Isolated? && network.Some? {
          var connected := client.AddContainerToNetwork(running.id, network.value, replies.connected);
          if connected.Refused? {
            return Failure(connected.error);
          }
        }
        r := Success(StaticExternal(running.handle, running.id));
      } else {
        var found := IncludeExisting(c, client, network, mode, replies);
        match found {
          case Failure(e) => r := Failure(e);
          case Success(running) =>
            inner := inner[running.name := running];
            r := Success(StaticExternal(running.handle, running.id));
        }
      }
    }

    method IncludeExisting(c: Composition, client: Docker.Client, network: Option<NetworkName>, mode: Network,
                           replies: IncludeReplies)
      returns (r: Result<OperationalContainer, Error>)
      modifies client
      ensures match r
              case Success(running) =>
                && replies.inspected == Success(Some(running.id)) && running == FoundContainer(c, running.id)
                && (mode.ExternalNetwork? || network.None? || replies.connected.Accepted?)
                && client.state == if mode.ExternalNetwork? || network.None? then old(client.state)
                                   else old(client.state).Connect(running.id, network.value)
              case Failure(e) =>
                && client.state == old(client.state)
                && (match replies.inspected
                    case Failure(e') => e == e'
                    case Success(None) => e == NO_ID_ERROR
                    case Success(Some(_)) =>
                      !mode.ExternalNetwork? && network.Some? && replies.connected == Docker.Refused(e))
    {
      match replies.inspected {
        case Failure(e) => return Failure(e);
        case Success(None) => return Failure(NO_ID_ERROR);
        case Success(Some(id)) =>
          var running := FoundContainer(c, id);
          if !mode.ExternalNetwork? && network.Some? {
            var connected := client.AddContainerToNetwork(id, network.value, replies.connected);
            if connected.Refused? {
              return Failure(connected.error);
            }
          }
          r := Success(running);
      }
    }

    /** In an arbitrary order. */
    method Containers() returns (r: seq<OperationalContainer>)
      ensures (set c | c in r) == inner.Values
    {
      r := [];
      var todo := inner.Keys;
      while todo != {}
        invariant todo <= inner.Keys
        invariant (set c | c in r) == (map n | n in inner && n !in todo :: inner[n]).Values
        decreases todo
      {
        var n :| n in todo;
        ghost var visited := map k | k in inner && k !in todo :: inner[k];
        todo := todo - {n};
        assert (map k | k in inner && k !in todo :: inner[k]) == visited[n := inner[n]];
        ValuesMore(visited, n, inner[n]);
        assert (set x | x in r + [inner[n]]) == (set x | x in r) + {inner[n]};
        r := r + [inner[n]];
      }
      assert (map n | n in inner && n !in todo :: inner[n]) == inner;
    }

    /** In an arbitrary order; `complied` are the requests the daemon honours. */
    method Disconnect(client: Docker.Client, network: NetworkName, mode: Network, toCleanup: set<Id>,
                      complied: set<Id>)
      modifies client
      ensures client.state == if mode.Isolated? then
                                old(client.state).Disconnect(DisconnectTargets(inner, toCleanup) * complied, network)
                              else old(client.state)
    {
      if mode.Isolated? {
        var todo := inner.Keys;
        ghost var done: set<Id> := {};
        assert client.state.links == client.state.Disconnect({}, network).links;
        while todo != {}
          invariant todo <= inner.Keys
          invariant done == DisconnectTargets(map n | n in inner && n !in todo :: inner[n], toCleanup) * complied
          invariant client.state == old(client.state).Disconnect(done, network)
          decreases todo
        {
          var n :| n in todo;
          todo := todo - {n};
          var id := inner[n].id;
          VisitTarget(inner, toCleanup, todo, n);
          if id in toCleanup {
            client.DisconnectContainer(id, network, id in complied);
            done := done + ({id} * complied);
          }
        }
        assert (map n | n in inner && n !in todo :: inner[n]) == inner;
      }
    }
  }

  lemma ValuesMore(m: Registry, n: Name, r: OperationalContainer)
    requires n !in m
    ensures m[n := r].Values == m.Values + {r}
  {
    var m' := m[n := r];
    forall c | c in m.Values
      ensures c in m'.Values
    {
      var k :| k in m && m[k] == c;
      assert k in m' && m'[k] == c;
    }
    assert n in m' && m'[n] == r;
  }

  lemma VisitTarget(m: Registry, toCleanup: set<Id>, todo: set<Name>, n: Name)
    requires n in m && n !in todo
    ensures DisconnectTargets(map k | k in m && k !in todo :: m[k], toCleanup)
         == DisconnectTargets(map k | k in m && k !in todo + {n} :: m[k], toCleanup)
          + if m[n].id in toCleanup then {m[n].id} else {}
  {
    var after := map k | k in m && k !in todo :: m[k];
    var before := map k | k in m && k !in todo + {n} :: m[k];
    forall id | id in DisconnectTargets(after, toCleanup)
      ensures id in DisconnectTargets(before, toCleanup) || (m[n].id in toCleanup && id == m[n].id)
    {
      var k :| k in after && after[k].id in toCleanup && after[k].id == id;
      assert k != n ==> k in before && before[k] == after[k];
    }
    forall id | id in DisconnectTargets(before, toCleanup)
      ensures id in DisconnectTargets(after, toCleanup)
    {
      var k :| k in before && before[k].id in toCleanup && before[k].id == id;
      assert k in after && after[k] == before[k];
    }
    if m[n].id in toCleanup {
      assert n in after && after[n] == m[n];
    }
  }
}
