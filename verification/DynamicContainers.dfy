/** The registry of dynamically managed static containers: created if they are not there yet, started at
    most once, and never removed. */
module DynamicContainers {
  import opened Containers
  import Docker

  datatype Status =
    | RunningPrior(running: OperationalContainer)
    | Running(running: OperationalContainer, pending: PendingContainer)
    | Pending(pending: PendingContainer)
    | Failed(error: Error)

  type Registry = map<Name, Status>

  const MISSING_ERROR := Startup("tried to start a non-existing dynamic container")
  const NO_ID_ERROR := Daemon("failed to retrieve container id for external container")

  /** What inspecting a container by name can report. */
  datatype Inspection =
    | Found(id: Option<Id>, stopped: bool)
    | NotFound
    | InspectionFailed(error: Error)

  datatype CreateReplies = CreateReplies(
    inspected: Inspection,
    removed: Docker.Reply,
    created: Result<Id, Error>,
    connected: Docker.Reply)

  predicate Fresh(d: Docker.State, replies: CreateReplies) {
    replies.created.Success? ==> replies.created.value !in d.created
  }

  /** A container that runs already is known by the name of the composition only. */
  function FoundContainer(c: Composition, id: Id): OperationalContainer {
    OperationalContainer(c.containerName, id, c.containerName, true, Unspecified)
  }

  type Created = (Registry, Docker.State, Result<CreatedContainer, Error>)

  function CreateSpec(m: Registry, d: Docker.State, c: Composition, network: Option<NetworkName>, mode: Network,
                      replies: CreateReplies): Created
  {
    if c.containerName in m then
      match m[c.containerName]
      case Pending(p) => JoinSpec(m, d, p.id, CreatedPending(p), network, mode, replies)
      case Running(_, p) => JoinSpec(m, d, p.id, CreatedPending(p), network, mode, replies)
      case RunningPrior(r) =>
        JoinSpec(m, d, r.id, CreatedExternal(StaticExternal(r.handle, r.id)), network, mode, replies)
      case Failed(e) => (m, d, Failure(e))
    else
      match replies.inspected
      case InspectionFailed(e) => (m, d, Failure(e))
      case Found(found, stopped) => AdoptSpec(m, d, c, found, stopped, network, replies)
      case NotFound => GenerateSpec(m, d, c, network, replies)
  }

  function JoinSpec(m: Registry, d: Docker.State, id: Id, created: CreatedContainer, network: Option<NetworkName>,
                    mode: Network, replies: CreateReplies): Created
  {
    if network.None? || !mode.Isolated? then (m, d, Success(created))
    else if replies.connected.Refused? then (m, d, Failure(replies.connected.error))
    else (m, d.Connect(id, network.value), Success(created))
  }

  /** A container of that name exists. One that does not run is removed first. */
  function AdoptSpec(m: Registry, d: Docker.State, c: Composition, found: Option<Id>, stopped: bool,
                     network: Option<NetworkName>, replies: CreateReplies): Created
  {
    if stopped && replies.removed.Refused? then (m, d, Failure(replies.removed.error))
    else
      var d' := if stopped && found.Some? then d.Remove(found.value, true) else d;
      if found.None? then (m, d', Failure(NO_ID_ERROR))
      else
        var r := FoundContainer(c, found.value);
        if network.Some? && replies.connected.Refused? then (m, d', Failure(replies.connected.error))
        else
          var d'' := if network.Some? then d'.Connect(r.id, network.value) else d';
          (m[r.name := RunningPrior(r)], d'', Success(CreatedExternal(StaticExternal(r.handle, r.id))))
  }

  function GenerateSpec(m: Registry, d: Docker.State, c: Composition, network: Option<NetworkName>,
                        replies: CreateReplies): Created
  {
    match replies.created
    case Failure(e) => (m, d, Failure(e))
    case Success(id) =>
      var p := PendingOf(c, id);
      var d' := d.Create(id, c.containerName);
      if network.Some? && replies.connected.Refused? then (m, d', Failure(replies.connected.error))
      else
        var d'' := if network.Some? then d'.Connect(id, network.value) else d';
        (m[p.name := Pending(p)], d'', Success(CreatedPending(p)))
  }

  type Started = (Registry, Docker.State, Result<OperationalContainer, Error>)

  function StartSpec(m: Registry, d: Docker.State, container: PendingContainer, reply: Docker.Reply): Started {
    if container.name !in m then (m, d, Failure(MISSING_ERROR))
    else
      match m[container.name]
      case Running(r, _) => (m, d, Success(r))
      case RunningPrior(r) => (m, d, Success(r))
      case Failed(e) => (m, d, Failure(e))
      case Pending(p) =>
        if reply.Accepted? then
          (m[container.name := Running(OperationalOf(p), p)], d.Start(p.id), Success(OperationalOf(p)))
        else
          (m[container.name := Failed(reply.error)], d.Start(p.id), Failure(reply.error))
  }

  function PriorRunning(m: Registry): set<OperationalContainer> {
    set n | n in m && m[n].RunningPrior? :: m[n].running
  }

  class DynamicContainers {
    var inner: Registry

    constructor ()
      ensures inner == map[]
    {
      inner := map[];
    }

    method Create(c: Composition, client: Docker.Client, network: Option<NetworkName>, mode: Network,
                  replies: CreateReplies)
      returns (r: Result<CreatedContainer, Error>)
      requires Fresh(client.state, replies)
      modifies this, client
      ensures (inner, client.state, r) == CreateSpec(old(inner), old(client.state), c, network, mode, replies)
    {
      if c.containerName in inner {
        match inner[c.containerName] {
          case Pending(p) => r := Join(p.id, CreatedPending(p), client, network, mode, replies);
          case Running(_, p) => r := Join(p.id, CreatedPending(p), client, network, mode, replies);
          case RunningPrior(running) =>
            r := Join(running.id, CreatedExternal(StaticExternal(running.handle, running.id)), client, network, mode,
                      replies);
          case Failed(e) => r := Failure(e);
        }
      } else {
        match replies.inspected {
          case InspectionFailed(e) => r := Failure(e);
          case Found(found, stopped) => r := Adopt(c, found, stopped, client, network, replies);
          case NotFound => r := Generate(c, client, network, replies);
        }
      }
    }

    method Join(id: Id, created: CreatedContainer, client: Docker.Client, network: Option<NetworkName>, mode: Network,
                replies: CreateReplies)
      returns (r: Result<CreatedContainer, Error>)
      modifies client
      ensures (inner, client.state, r) == JoinSpec(inner, old(client.state), id, created, network, mode, replies)
    {
      if network.Some? && mode.Isolated? {
        var connected := client.AddContainerToNetwork(id, network.value, replies.connected);
        if connected.Refused? {
          return Failure(connected.error);
        }
      }
      r := Success(created);
    }

    method Adopt(c: Composition, found: Option<Id>, stopped: bool, client: Docker.Client, network: Option<NetworkName>,
                 replies: CreateReplies)
      returns (r: Result<CreatedContainer, Error>)
      modifies this, client
      ensures (inner, client.state, r)
           == AdoptSpec(old(inner), old(client.state), c, found, stopped, network, replies)
    {
      if stopped {
        if replies.removed.Refused? {
          return Failure(replies.removed.error);
        }
        if found.Some? {
          client.RemoveContainer(found.value, true);
        }
      }
      if found.None? {
        return Failure(NO_ID_ERROR);
      }
      var running := FoundContainer(c, found.value);
      if network.Some? {
        var connected := client.AddContainerToNetwork(running.id, network.value, replies.connected);
        if connected.Refused? {
          return Failure(connected.error);
        }
      }
      inner := inner[running.name := RunningPrior(running)];
      r := Success(CreatedExternal(StaticExternal(running.handle, running.id)));
    }

    method Generate(c: Composition, client: Docker.Client, network: Option<NetworkName>, replies: CreateReplies)
      returns (r: Result<CreatedContainer, Error>)
      requires Fresh(client.state, replies)
      modifies this, client
      ensures (inner, client.state, r) == GenerateSpec(old(inner), old(client.state), c, network, replies)
    {
      var created := client.CreateContainer(c, replies.created);
      match created {
        case Failure(e) => r := Failure(e);
        case Success(p) =>
          if network.Some? {
            var connected := client.AddContainerToNetwork(p.id, network.value, replies.connected);
            if connected.Refused? {
              return Failure(connected.error);
            }
          }
          inner := inner[p.name := Pending(p)];
          r := Success(CreatedPending(p));
      }
    }

    method Start(container: PendingContainer, client: Docker.Client, reply: Docker.Reply)
      returns (r: Result<OperationalContainer, Error>)
      modifies this, client
      ensures (inner, client.state, r) == StartSpec(old(inner), old(client.state), container, reply)
    {
      if container.name in inner {
        match inner[container.name] {
          case Running(running, _) => r := Success(running);
          case RunningPrior(running) => r := Success(running);
          case Failed(e) => r := Failure(e);
          case Pending(p) =>
            r := client.StartContainer(p, reply);
            match r {
              case Success(running) => inner := inner[container.name := Running(running, p)];
              case Failure(e) => inner := inner[container.name := Failed(e)];
            }
        }
      } else {
        r := Failure(MISSING_ERROR);
      }
    }

    /** In an arbitrary order. */
    method PriorRunningContainers() returns (r: seq<OperationalContainer>)
      ensures (set c | c in r) == PriorRunning(inner)
    {
      r := [];
      var todo := inner.Keys;
      while todo != {}
        invariant todo <= inner.Keys
        invariant (set c | c in r) == PriorRunning(map n | n in inner && n !in todo :: inner[n])
        decreases todo
      {
        var n :| n in todo;
        todo := todo - {n};
        ghost var visited := map k | k in inner && k !in todo + {n} :: inner[k];
        assert (map k | k in inner && k !in todo :: inner[k]) == visited[n := inner[n]];
        match inner[n] {
          case RunningPrior(c) =>
            PriorRunningMore(visited, n, inner[n]);
            assert (set x | x in r + [c]) == (set x | x in r) + {c};
            r := r + [c];
          case Running(_, _) => PriorRunningMore(visited, n, inner[n]);
          case Pending(_) => PriorRunningMore(visited, n, inner[n]);
          case Failed(_) => PriorRunningMore(visited, n, inner[n]);
        }
      }
      assert (map n | n in inner && n !in todo :: inner[n]) == inner;
    }
  }

  lemma PriorRunningMore(m: Registry, n: Name, status: Status)
    requires n !in m
    ensures PriorRunning(m[n := status]) == PriorRunning(m) + if status.RunningPrior? then {status.running} else {}
  {
    var m' := m[n := status];
    forall c | c in PriorRunning(m)
      ensures c in PriorRunning(m')
    {
      var k :| k in m && m[k].RunningPrior? && m[k].running == c;
      assert k in m' && m'[k] == m[k];
    }
    if status.RunningPrior? {
      assert n in m' && m'[n].running == status.running;
    }
  }

  // --- every run of any number of tests -----------------------------------------------------------

  datatype Op =
    | Create(c: Composition, network: Option<NetworkName>, mode: Network, replies: CreateReplies)
    | Start(container: PendingContainer, reply: Docker.Reply)

  datatype Sys = Sys(registry: Registry, daemon: Docker.State)

  ghost predicate Possible(s: Sys, op: Op) {
    op.Create? ==> Fresh(s.daemon, op.replies)
  }

  ghost function Next(s: Sys, op: Op): Sys {
    match op
    case Create(c, network, mode, replies) =>
      var (m, d, _) := CreateSpec(s.registry, s.daemon, c, network, mode, replies);
      Sys(m, d)
    case Start(container, reply) =>
      var (m, d, _) := StartSpec(s.registry, s.daemon, container, reply);
      Sys(m, d)
  }

  ghost function Execute(s: Sys, ops: seq<Op>): Option<Sys>
    decreases |ops|
  {
    if ops == [] then Some(s)
    else if Possible(s, ops[0]) then Execute(Next(s, ops[0]), ops[1..])
    else None
  }

  /** How the entry of a name may develop: what is pending is started, once; nothing else changes. */
  ghost predicate Evolves(before: Status, after: Status) {
    || before == after
    || (before.Pending? && after == Running(OperationalOf(before.pending), before.pending))
    || (before.Pending? && after.Failed?)
  }

  ghost predicate EntryShape(s: Sys, n: Name)
    requires n in s.registry
  {
    match s.registry[n]
    case Pending(p) =>
      p.name == n && p.id in s.daemon.created && s.daemon.created[p.id] == n && s.daemon.starts[p.id] == 0
    case Running(r, p) => p.name == n && r == OperationalOf(p) && p.id in s.daemon.created
    case RunningPrior(r) => r.name == n && r.handle == n
    case Failed(_) => true
  }

  ghost predicate Inv(s: Sys) {
    && (forall n {:trigger EntryShape(s, n)} :: n in s.registry ==> EntryShape(s, n))
    && (forall id :: id in s.daemon.starts ==> id in s.daemon.created)
    && (forall id :: s.daemon.starts[id] <= 1)
  }

  ghost predicate Keeps(s: Sys, s': Sys) {
    Inv(s') && forall n :: n in s.registry ==> n in s'.registry && Evolves(s.registry[n], s'.registry[n])
  }

  lemma InvStart(s: Sys, container: PendingContainer, reply: Docker.Reply)
    requires Inv(s)
    ensures Keeps(s, Next(s, Start(container, reply)))
  {
    var s' := Next(s, Start(container, reply));
    assert container.name in s.registry ==> EntryShape(s, container.name);
    forall n | n in s'.registry
      ensures EntryShape(s', n)
    {
      assert n in s.registry ==> EntryShape(s, n);
    }
  }

  lemma InvCreate(s: Sys, c: Composition, network: Option<NetworkName>, mode: Network, replies: CreateReplies)
    requires Inv(s) && Fresh(s.daemon, replies)
    ensures Keeps(s, Next(s, Create(c, network, mode, replies)))
  {
    if c.containerName in s.registry {
      InvJoin(s, c, network, mode, replies);
    } else {
      match replies.inspected
      case InspectionFailed(_) =>
      case Found(found, stopped) => InvAdopt(s, c, found, stopped, network, replies);
      case NotFound => InvGenerate(s, c, network, replies);
    }
  }

  /** Entries do not depend on what is attached to which network, or removed. */
  lemma SameEntries(s: Sys, s': Sys)
    requires Inv(s) && s'.registry == s.registry
    requires s'.daemon.created == s.daemon.created && s'.daemon.starts == s.daemon.starts
    ensures Keeps(s, s')
  {
    forall n | n in s'.registry
      ensures EntryShape(s', n)
    {
      assert EntryShape(s, n);
    }
  }

  lemma InvJoin(s: Sys, c: Composition, network: Option<NetworkName>, mode: Network, replies: CreateReplies)
    requires Inv(s) && c.containerName in s.registry
    ensures Keeps(s, Next(s, Create(c, network, mode, replies)))
  {
    SameEntries(s, Next(s, Create(c, network, mode, replies)));
  }

  lemma InvAdopt(s: Sys, c: Composition, found: Option<Id>, stopped: bool, network: Option<NetworkName>,
                 replies: CreateReplies)
    requires Inv(s) && c.containerName !in s.registry
    ensures var (m, d, _) := AdoptSpec(s.registry, s.daemon, c, found, stopped, network, replies); Keeps(s, Sys(m, d))
  {
    var (m, d, r) := AdoptSpec(s.registry, s.daemon, c, found, stopped, network, replies);
    SameEntries(s, Sys(s.registry, d));
    if r.Success? {
      NewEntry(s, Sys(s.registry, d), c.containerName, RunningPrior(FoundContainer(c, found.value)));
    }
  }

  lemma InvGenerate(s: Sys, c: Composition, network: Option<NetworkName>, replies: CreateReplies)
    requires Inv(s) && c.containerName !in s.registry && Fresh(s.daemon, replies)
    ensures var (m, d, _) := GenerateSpec(s.registry, s.daemon, c, network, replies); Keeps(s, Sys(m, d))
  {
    var (m, d, r) := GenerateSpec(s.registry, s.daemon, c, network, replies);
    if replies.created.Success? {
      MoreCreated(s, Sys(s.registry, d), replies.created.value, c.containerName);
    }
    if r.Success? {
      NewEntry(s, Sys(s.registry, d), c.containerName, Pending(PendingOf(c, replies.created.value)));
    }
  }

  lemma MoreCreated(s: Sys, s': Sys, id: Id, n: Name)
    requires Inv(s) && id !in s.daemon.created && s'.registry == s.registry
    requires s'.daemon.created == s.daemon.created[id := n] && s'.daemon.starts == s.daemon.starts
    ensures Keeps(s, s')
  {
    forall k | k in s'.registry
      ensures EntryShape(s', k)
    {
      assert EntryShape(s, k);
    }
  }

  lemma NewEntry(s: Sys, s1: Sys, n: Name, status: Status)
    requires Keeps(s, s1) && n !in s.registry && s1.registry == s.registry
    requires EntryShape(s1.(registry := s1.registry[n := status]), n)
    ensures Keeps(s, s1.(registry := s1.registry[n := status]))
  {
    var s' := s1.(registry := s1.registry[n := status]);
    forall k | k in s'.registry
      ensures EntryShape(s', k)
    {
      assert k != n ==> EntryShape(s1, k);
    }
  }

  lemma InvNext(s: Sys, op: Op)
    requires Inv(s) && Possible(s, op)
    ensures Keeps(s, Next(s, op))
  {
    match op
    case Create(c, network, mode, replies) => InvCreate(s, c, network, mode, replies);
    case Start(container, reply) => InvStart(s, container, reply);
  }

  lemma {:induction false} InvExecute(s: Sys, ops: seq<Op>, s': Sys)
    requires Inv(s) && Execute(s, ops) == Some(s')
    ensures Keeps(s, s')
    decreases |ops|
  {
    if ops != [] {
      InvNext(s, ops[0]);
      InvExecute(Next(s, ops[0]), ops[1..], s');
    }
  }

  /** The registry of a process starts empty, whatever containers the daemon has. */
  ghost predicate Reachable(d: Docker.State, ops: seq<Op>, s: Sys) {
    d.starts == multiset{} && Execute(Sys(map[], d), ops) == Some(s)
  }

  /** Names stay bound, to the same container; a container that was there before stays as it was found;
      and the daemon is asked to start a container at most once. */
  lemma BindingsAreKept(d: Docker.State, before: seq<Op>, s: Sys, ops: seq<Op>, s': Sys)
    requires Reachable(d, before, s) && Execute(s, ops) == Some(s')
    ensures forall id :: s'.daemon.starts[id] <= 1
    ensures forall n :: n in s.registry ==> n in s'.registry && Evolves(s.registry[n], s'.registry[n])
    ensures PriorRunning(s.registry) <= PriorRunning(s'.registry)
  {
    InvExecute(Sys(map[], d), before, s);
    InvExecute(s, ops, s');
  }

  /** Everybody who starts a registered name gets the same container or the same error, and neither is
      about another container than the registered one. */
  lemma StartsAgree(d: Docker.State, before: seq<Op>, s: Sys, p: PendingContainer, reply: Docker.Reply, ops: seq<Op>,
                    s': Sys, q: PendingContainer, reply': Docker.Reply)
    requires Reachable(d, before, s) && p.name in s.registry && q.name == p.name
    requires Execute(Next(s, Start(p, reply)), ops) == Some(s')
    ensures StartSpec(s'.registry, s'.daemon, q, reply').2 == StartSpec(s.registry, s.daemon, p, reply).2
    ensures s.registry[p.name] == Pending(p) && StartSpec(s.registry, s.daemon, p, reply).2.Success? ==>
              StartSpec(s.registry, s.daemon, p, reply).2.value.id == p.id
  {
    InvExecute(Sys(map[], d), before, s);
    InvNext(s, Start(p, reply));
    InvExecute(Next(s, Start(p, reply)), ops, s');
  }

  // --- a container that exists but does not run -----------------------------------------------------------

  predicate FindsStopped(m: Registry, c: Composition, replies: CreateReplies) {
    c.containerName !in m && replies.inspected.Found? && replies.inspected.stopped
  }

  predicate RemovesStopped(m: Registry, c: Composition, replies: CreateReplies) {
    FindsStopped(m, c, replies) && replies.inspected.id.Some? && replies.removed.Accepted?
  }

  /** A creation asks to remove a container exactly when it finds it stopped, and then it creates none. */
  lemma CreateRemovesExactly(m: Registry, d: Docker.State, c: Composition, network: Option<NetworkName>, mode: Network,
                             replies: CreateReplies)
    ensures var (m', d', r) := CreateSpec(m, d, c, network, mode, replies);
            && d'.removals == d.removals + (if RemovesStopped(m, c, replies) then multiset{replies.inspected.id.value}
                                            else multiset{})
            && (RemovesStopped(m, c, replies) ==> d'.created == d.created)
  {
    assert d.removals + multiset{} == d.removals;
  }

  /** The daemon attaches no container that is gone. */
  ghost predicate Lawful(d: Docker.State, replies: CreateReplies) {
    && replies.inspected.Found? && replies.inspected.id.Some? && replies.connected.Accepted? ==>
         replies.inspected.id.value !in d.removed && !(replies.inspected.stopped && replies.removed.Accepted?)
  }

  /** With a network to attach it to, a stopped container makes the creation fail, and no entry remembers it. */
  lemma StoppedFailsExactly(m: Registry, d: Docker.State, c: Composition, network: Option<NetworkName>, mode: Network,
                            replies: CreateReplies)
    requires FindsStopped(m, c, replies) && Lawful(d, replies)
    ensures var (m', d', r) := CreateSpec(m, d, c, network, mode, replies);
            && (r.Failure? <==> network.Some? || replies.removed.Refused? || replies.inspected.id.None?)
            && (r.Failure? ==> m' == m)
            && (r.Success? ==> r.value == CreatedExternal(StaticExternal(c.containerName, replies.inspected.id.value)))
  {
  }

  /** So the failure does not last: it is the attempt that fails which removes the container, and whoever tries
      next finds none and creates it. */
  lemma NextAttemptCreates(s: Sys, c: Composition, network: NetworkName, mode: Network, replies: CreateReplies,
                           network': NetworkName, mode': Network, id: Id)
    requires RemovesStopped(s.registry, c, replies) && Lawful(s.daemon, replies) && id !in s.daemon.created
    ensures var s1 := Next(s, Create(c, Some(network), mode, replies));
            var again := CreateReplies(NotFound, Docker.Accepted, Success(id), Docker.Accepted);
            && replies.inspected.id.value in s1.daemon.removed && Possible(s1, Create(c, Some(network'), mode', again))
            && var (m', d', r) := CreateSpec(s1.registry, s1.daemon, c, Some(network'), mode', again);
               && r == Success(CreatedPending(PendingOf(c, id)))
               && m' == s.registry[c.containerName := Pending(PendingOf(c, id))]
  {
  }
}
