/** The three registries of static containers behind one front. */
module StaticContainers {
  import opened Containers
  import Docker
  import Internal = InternalContainers
  import External = ExternalContainers
  import Dynamic = DynamicContainers

  /** The contents of the three registries. */
  datatype Statics = Statics(internal: Internal.Registry, external: External.Registry, dynamic: Dynamic.Registry)

  datatype CreateReplies = CreateReplies(
    internal: Internal.CreateReplies,
    external: External.IncludeReplies,
    dynamic: Dynamic.CreateReplies)

  const UNMANAGED_ERROR := Startup("tried to create static container without a management policy")
  const EXTERNAL_START_ERROR := Startup("tried to start an external container")
  const UNMANAGED_START_ERROR := Startup("tried to start a non-exiting static container")

  predicate Fresh(d: Docker.State, replies: CreateReplies) {
    Internal.Fresh(d, replies.internal) && Dynamic.Fresh(d, replies.dynamic)
  }

  type Created = (Statics, Docker.State, Result<CreatedContainer, Error>)

  function CreateSpec(m: Statics, d: Docker.State, c: Composition, network: Option<NetworkName>, mode: Network,
                      replies: CreateReplies): Created
  {
    match c.management
    case None => (m, d, Failure(UNMANAGED_ERROR))
    case Some(Internal) =>
      var (m', d', r) := Internal.CreateSpec(m.internal, d, c, network, mode, replies.internal);
      (m.(internal := m'), d', if r.Success? then Success(CreatedPending(r.value)) else Failure(r.error))
    case Some(External) =>
      var (m', d', r) := External.IncludeSpec(m.external, d, c, network, mode, replies.external);
      (m.(external := m'), d', if r.Success? then Success(CreatedExternal(r.value)) else Failure(r.error))
    case Some(Dynamic) =>
      var (m', d', r) := Dynamic.CreateSpec(m.dynamic, d, c, network, mode, replies.dynamic);
      (m.(dynamic := m'), d', r)
  }

  type Started = (Statics, Docker.State, Result<OperationalContainer, Error>)

  function StartSpec(m: Statics, d: Docker.State, p: PendingContainer, reply: Docker.Reply): Started {
    match p.management
    case None => (m, d, Failure(UNMANAGED_START_ERROR))
    case Some(External) => (m, d, Failure(EXTERNAL_START_ERROR))
    case Some(Internal) =>
      var (m', d', r) := Internal.StartSpec(m.internal, d, p, reply);
      (m.(internal := m'), d', r)
    case Some(Dynamic) =>
      var (m', d', r) := Dynamic.StartSpec(m.dynamic, d, p, reply);
      (m.(dynamic := m'), d', r)
  }

  /** The containers that were running before any test used them. */
  function ExternalList(m: Statics): set<OperationalContainer> {
    m.external.Values + Dynamic.PriorRunning(m.dynamic)
  }

  class StaticContainers {
    const internal: Internal.InternalContainers
    const external: External.ExternalContainers
    const dynamic: Dynamic.DynamicContainers

    constructor ()
      ensures fresh(internal) && fresh(external) && fresh(dynamic)
      ensures State() == Statics(map[], map[], map[])
    {
      internal := new Internal.InternalContainers();
      external := new External.ExternalContainers();
      dynamic := new Dynamic.DynamicContainers();
    }

    function State(): Statics
      reads internal, external, dynamic
    {
      Statics(internal.inner, external.inner, dynamic.inner)
    }

    method Create(c: Composition, client: Docker.Client, network: Option<NetworkName>, mode: Network,
                  replies: CreateReplies)
      returns (r: Result<CreatedContainer, Error>)
      requires Fresh(client.state, replies)
      modifies internal, external, dynamic, client
      ensures (State(), client.state, r) == CreateSpec(old(State()), old(client.state), c, network, mode, replies)
      ensures c.management.None? ==>
                r == Failure(UNMANAGED_ERROR) && State() == old(State()) && client.state == old(client.state)
    {
      match c.management {
        case None => r := Failure(UNMANAGED_ERROR);
        case Some(Internal) =>
          var p := internal.Create(c, client, network, mode, replies.internal);
          r := if p.Success? then Success(CreatedPending(p.value)) else Failure(p.error);
        case Some(External) =>
          var e := external.Include(c, client, network, mode, replies.external);
          r := if e.Success? then Success(CreatedExternal(e.value)) else Failure(e.error);
        case Some(Dynamic) =>
          r := dynamic.Create(c, client, network, mode, replies.dynamic);
      }
    }

    method Start(p: PendingContainer, client: Docker.Client, reply: Docker.Reply)
      returns (r: Result<OperationalContainer, Error>)
      modifies internal, dynamic, client
      ensures (State(), client.state, r) == StartSpec(old(State()), old(client.state), p, reply)
    {
      match p.management {
        case None => r := Failure(UNMANAGED_START_ERROR);
        case Some(External) => r := Failure(EXTERNAL_START_ERROR);
        case Some(Internal) => r := internal.Start(p, client, reply);
        case Some(Dynamic) => r := dynamic.Start(p, client, reply);
      }
    }

    method ExternalContainers() returns (r: seq<OperationalContainer>)
      ensures (set c | c in r) == ExternalList(State())
    {
      var externals := external.Containers();
      var prior := dynamic.PriorRunningContainers();
      assert (set c | c in externals + prior) == (set c | c in externals) + set c | c in prior;
      r := externals + prior;
    }

    /** The names of dynamic containers are not ids, so none of these is disconnected. */
    method Cleanup(client: Docker.Client, network: NetworkName, mode: Network, toCleanup: set<Id>,
                   disconnects: set<Id>, removals: set<Id>)
      modifies internal, client
      ensures State() == old(State()).(internal := Internal.DecrementSpec(old(State()).internal, toCleanup))
      ensures var m := old(State());
              && client.state.removed == old(client.state.removed)
                                       + Internal.Responsible(m.internal, toCleanup) * removals
              && (forall id :: client.state.removals[id] == old(client.state.removals)[id]
                                                          + |Internal.RetiredAs(m.internal, toCleanup, id)|)
              && client.state.created == old(client.state.created) && client.state.starts == old(client.state.starts)
              && (forall l :: l in client.state.links <==>
                    l in old(client.state.links)
                    && l.0 !in Internal.Responsible(m.internal, toCleanup) * removals
                    && !(l.1 == network && l.0 in Left(m, mode, toCleanup) * disconnects))
    {
      internal.Cleanup(client, network, toCleanup, disconnects, removals);
      external.Disconnect(client, network, mode, toCleanup, disconnects);
    }
  }

  /** The containers that a cleanup takes off the network of the test. */
  ghost function Left(m: Statics, mode: Network, toCleanup: set<Id>): set<Id> {
    Internal.DisconnectTargets(m.internal, toCleanup)
    + if mode.Isolated? then External.DisconnectTargets(m.external, toCleanup) else {}
  }
}
