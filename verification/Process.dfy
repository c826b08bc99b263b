/** Any number of tests of one process, with all three static registries, containers of their own, and whatever
    happens outside. A step is one lock scope, or one batch of requests to the daemon. */
module Process {
  import opened Containers
  import Docker
  import opened StaticContainers
  import Internal = InternalContainers
  import External = ExternalContainers
  import Dynamic = DynamicContainers
  import Protocol = InternalProtocol

  type TestId = Protocol.TestId

  type StartResult = Protocol.StartResult

  /** `kept`: the containers the test created or joined; `external`: the ids of those it merely found;
      `answers`: what the registries returned for its static compositions; `results`: what its starts of shared
      containers returned before it let go of them. */
  datatype Member = Member(
    network: NetworkName,
    mode: Network,
    phase: Protocol.Phase,
    kept: set<PendingContainer>,
    external: set<Id>,
    answers: set<(Composition, CreatedContainer)>,
    results: set<(PendingContainer, StartResult)>)
  {
    function StaticIds(): set<Id> {
      (set p | p in kept && p.isStatic :: p.id) + external
    }

    function OwnIds(): set<Id> {
      set p | p in kept && !p.isStatic :: p.id
    }
  }

  /** `registered`: every container ever entered in the dynamic or external registry. */
  datatype World = World(
    statics: Statics,
    daemon: Docker.State,
    tests: map<TestId, Member>,
    registered: set<Id>)

  const INIT := World(Statics(map[], map[], map[]), Docker.EMPTY, map[], {})

  datatype Step =
    | Outside(id: Id, name: Name)
    | Join(t: TestId, network: NetworkName, mode: Network)
    | CreateStatic(t: TestId, c: Composition, replies: CreateReplies)
    | CreateOwn(t: TestId, c: Composition, prior: Option<Id>, created: Result<Id, Error>)
    | StartStatic(t: TestId, p: PendingContainer, reply: Docker.Reply)
    | Disconnect(t: TestId, complied: set<Id>)
    | Release(t: TestId)
    | RemoveInternal(t: TestId, id: Id, honoured: bool)
    | DisconnectExternal(t: TestId, complied: set<Id>)
    | Prune(t: TestId, complied: set<Id>)

  /** How a name is used: under one management policy, or by the containers of a single test, whose names
      carry a random suffix. */
  type Usage = Name -> Option<Management>

  /** The daemon reports a container only under its own name. */
  predicate Honest(d: Docker.State, name: Name, id: Option<Id>) {
    id.Some? ==> id.value in d.created && d.created[id.value] == name
  }

  ghost predicate Alone(w: World, network: NetworkName, mode: Network) {
    forall u :: u in w.tests && w.tests[u].network == network ==> !mode.Isolated? && !w.tests[u].mode.Isolated?
  }

  /** A start may run at any time, see `InternalProtocol.Enabled`. Isolated networks have a random name. */
  ghost predicate Enabled(usage: Usage, w: World, step: Step) {
    match step
    case Outside(id, _) => id !in w.daemon.created
    case Join(t, network, mode) => t !in w.tests && Alone(w, network, mode)
    case CreateStatic(t, c, replies) =>
      && t in w.tests && w.tests[t].phase.Using?
      && c.management.Some? && GoesBy(c, c.containerName) && usage(c.containerName) == c.management
      && Fresh(w.daemon, replies)
      && (replies.external.inspected.Success? ==>
            Honest(w.daemon, c.containerName, replies.external.inspected.value))
      && (replies.dynamic.inspected.Found? ==> Honest(w.daemon, c.containerName, replies.dynamic.inspected.id))
    case CreateOwn(t, c, prior, created) =>
      && t in w.tests && w.tests[t].phase.Using? && c.management.None? && usage(c.containerName).None?
      && Honest(w.daemon, c.containerName, prior) && (created.Success? ==> created.value !in w.daemon.created)
    case StartStatic(t, p, _) => t in w.tests && p in w.tests[t].kept && p.isStatic
    case Disconnect(t, _) => t in w.tests && w.tests[t].phase.Using?
    case Release(t) => t in w.tests && w.tests[t].phase.Disconnected?
    case RemoveInternal(t, id, _) => t in w.tests && w.tests[t].phase.Removing? && id in w.tests[t].phase.todo
    case DisconnectExternal(t, _) => t in w.tests && w.tests[t].phase.Removing?
    case Prune(t, _) => t in w.tests && w.tests[t].phase.Removing?
  }

  ghost function Next(w: World, step: Step): World
    requires step.Join? || step.Outside? || step.t in w.tests
  {
    match step
    case Outside(id, name) => w.(daemon := w.daemon.Create(id, name))
    case Join(t, network, mode) => w.(tests := w.tests[t := Member(network, mode, Protocol.Using, {}, {}, {}, {})])
    case CreateStatic(t, c, replies) => NextCreateStatic(w, t, c, replies)
    case CreateOwn(t, c, prior, created) => NextCreateOwn(w, t, c, prior, created)
    case StartStatic(t, p, reply) => NextStartStatic(w, t, p, reply)
    case Disconnect(t, complied) => NextDisconnectInternal(w, t, complied)
    case Release(t) => NextRelease(w, t)
    case RemoveInternal(t, id, honoured) => NextRemoveInternal(w, t, id, honoured)
    case DisconnectExternal(t, complied) => NextDisconnectExternal(w, t, complied)
    case Prune(t, complied) =>
      w.(daemon := w.daemon.(removed := w.daemon.removed + w.tests[t].OwnIds() * complied))
  }

  ghost function CreateResult(w: World, t: TestId, c: Composition, replies: CreateReplies): Created
    requires t in w.tests
  {
    CreateSpec(w.statics, w.daemon, c, Some(w.tests[t].network), w.tests[t].mode, replies)
  }

  ghost function NextCreateStatic(w: World, t: TestId, c: Composition, replies: CreateReplies): World
    requires t in w.tests
  {
    var (m, d, r) := CreateResult(w, t, c, replies);
    Entered(w.(statics := m, daemon := d, tests := w.tests[t := Answered(w.tests[t], c, r)]))
  }

  ghost function NextCreateOwn(w: World, t: TestId, c: Composition, prior: Option<Id>, created: Result<Id, Error>)
    : World
    requires t in w.tests
  {
    var d := if prior.Some? then w.daemon.Remove(prior.value, true) else w.daemon;
    if created.Failure? then w.(daemon := d)
    else
      w.(daemon := d.Create(created.value, c.containerName),
         tests := w.tests[t := w.tests[t].(kept := w.tests[t].kept + {PendingOf(c, created.value)})])
  }

  ghost function NextStartStatic(w: World, t: TestId, p: PendingContainer, reply: Docker.Reply): World
    requires t in w.tests
  {
    var (m, d, r) := StartSpec(w.statics, w.daemon, p, reply);
    var tests := if w.tests[t].phase.Removing? then w.tests
                 else w.tests[t := w.tests[t].(results := w.tests[t].results + {(p, r)})];
    Entered(w.(statics := m, daemon := d, tests := tests))
  }

  ghost function NextDisconnectInternal(w: World, t: TestId, complied: set<Id>): World
    requires t in w.tests
  {
    var targets := Internal.DisconnectTargets(w.statics.internal, w.tests[t].StaticIds()) * complied;
    w.(daemon := w.daemon.Disconnect(targets, w.tests[t].network),
       tests := w.tests[t := w.tests[t].(phase := Protocol.Disconnected)])
  }

  ghost function NextRelease(w: World, t: TestId): World
    requires t in w.tests
  {
    var toCleanup := w.tests[t].StaticIds();
    var responsible := Internal.Responsible(w.statics.internal, toCleanup);
    w.(statics := w.statics.(internal := Internal.DecrementSpec(w.statics.internal, toCleanup)),
       tests := w.tests[t := w.tests[t].(phase := Protocol.Removing(responsible))])
  }

  ghost function NextRemoveInternal(w: World, t: TestId, id: Id, honoured: bool): World
    requires t in w.tests
  {
    var todo := if w.tests[t].phase.Removing? then w.tests[t].phase.todo - {id} else {};
    w.(daemon := w.daemon.Remove(id, honoured), tests := w.tests[t := w.tests[t].(phase := Protocol.Removing(todo))])
  }

  ghost function NextDisconnectExternal(w: World, t: TestId, complied: set<Id>): World
    requires t in w.tests
  {
    var targets := External.DisconnectTargets(w.statics.external, w.tests[t].StaticIds()) * complied;
    if w.tests[t].mode.Isolated? then w.(daemon := w.daemon.Disconnect(targets, w.tests[t].network)) else w
  }

  ghost function Answered(test: Member, c: Composition, r: Result<CreatedContainer, Error>): Member {
    match r
    case Failure(_) => test
    case Success(CreatedPending(p)) =>
      test.(kept := test.kept + {p}, answers := test.answers + {(c, CreatedPending(p))})
    case Success(CreatedExternal(e)) =>
      test.(external := test.external + {e.id}, answers := test.answers + {(c, CreatedExternal(e))})
  }

  ghost function DynamicIds(m: Dynamic.Registry): set<Id> {
    set n | n in m && !m[n].Failed? :: if m[n].RunningPrior? then m[n].running.id else m[n].pending.id
  }

  ghost function ExternalIds(m: External.Registry): set<Id> {
    set n | n in m :: m[n].id
  }

  ghost function Entered(w: World): World {
    w.(registered := w.registered + DynamicIds(w.statics.dynamic) + ExternalIds(w.statics.external))
  }

  // --- what every step keeps ------------------------------------------------------------------------

  ghost predicate UsedAs(usage: Usage, w: World, id: Id, management: Option<Management>) {
    id in w.daemon.created && usage(w.daemon.created[id]) == management
  }

  ghost predicate InternalShape(usage: Usage, w: World, n: Name)
    requires n in w.statics.internal
  {
    var status := w.statics.internal[n].status;
    && usage(n) == Some(Internal)
    && (status.ContainerId().Some? ==>
          status.ContainerId().value in w.daemon.created && w.daemon.created[status.ContainerId().value] == n)
    && (status.Pending? || status.Operational? ==>
          && status.pending.name == n && status.pending.handle == n && status.pending.isStatic
          && status.pending.management == Some(Internal))
    && (status.Operational? ==> RunsAs(status.pending, status.running))
  }

  ghost predicate DynamicShape(usage: Usage, w: World, n: Name)
    requires n in w.statics.dynamic
  {
    && usage(n) == Some(Dynamic)
    && match w.statics.dynamic[n]
       case RunningPrior(r) => FoundShape(w, n, r)
       case Failed(_) => true
       case Pending(p) => PendingShape(w, n, p)
       case Running(r, p) => PendingShape(w, n, p) && r == OperationalOf(p)
  }

  ghost predicate PendingShape(w: World, n: Name, p: PendingContainer) {
    && p.name == n && p.handle == n && p.isStatic && p.management == Some(Dynamic)
    && p.id in w.daemon.created && w.daemon.created[p.id] == n
  }

  ghost predicate FoundShape(w: World, n: Name, r: OperationalContainer) {
    r.name == n && r.handle == n && r.isStatic && r.id in w.daemon.created && w.daemon.created[r.id] == n
  }

  ghost predicate ExternalShape(usage: Usage, w: World, n: Name)
    requires n in w.statics.external
  {
    usage(n) == Some(External) && FoundShape(w, n, w.statics.external[n])
  }

  /** A container is what its name is used for. */
  ghost predicate Managed(usage: Usage, w: World, p: PendingContainer) {
    && p.id in w.daemon.created && w.daemon.created[p.id] == p.name && usage(p.name) == p.management
    && p.isStatic == p.management.Some? && p.management != Some(External) && (p.isStatic ==> p.handle == p.name)
    && Bound(w, p)
  }

  predicate Fits(c: Composition, answer: CreatedContainer) {
    match answer
    case CreatedPending(p) => p.isStatic && p.name == p.handle && GoesBy(c, p.handle)
    case CreatedExternal(e) => GoesBy(c, e.handle)
  }

  /** What a test was given for a composition is what it asked for, and stays known to the registries. */
  ghost predicate AnswerShape(w: World, t: TestId, c: Composition, answer: CreatedContainer)
    requires t in w.tests
  {
    && Fits(c, answer)
    && match answer
       case CreatedPending(p) => p in w.tests[t].kept
       case CreatedExternal(e) => Backed(w, e)
  }

  ghost predicate ResultShape(w: World, test: Member, p: PendingContainer, r: StartResult) {
    && p in test.kept && (p.management != Some(Internal) && r.Success? ==> r.value == OperationalOf(p))
    && (p.management == Some(Dynamic) ==> Recorded(w.statics.dynamic, p.name, r))
  }

  /** A start of a dynamic container returns what the entry of its name says from then on. */
  ghost predicate Recorded(m: Dynamic.Registry, n: Name, r: StartResult) {
    && n in m
    && match m[n]
       case Running(x, _) => r == Success(x)
       case Failed(e) => r == Failure(e)
       case _ => false
  }

  ghost predicate TestShape(usage: Usage, w: World, t: TestId)
    requires t in w.tests
  {
    && (forall p :: p in w.tests[t].kept ==> Managed(usage, w, p))
    && (forall id :: id in w.tests[t].external ==> Shared(usage, w, id))
    && (forall c, a :: (c, a) in w.tests[t].answers ==> AnswerShape(w, t, c, a))
    && (forall p, r :: (p, r) in w.tests[t].results ==> ResultShape(w, w.tests[t], p, r))
    && (w.tests[t].phase.Removing? ==>
          forall id :: id in w.tests[t].phase.todo ==> UsedAs(usage, w, id, Some(Internal)))
  }

  /** What a creation may give a test. */
  ghost predicate Given(usage: Usage, w: World, c: Composition, answer: CreatedContainer) {
    && Fits(c, answer)
    && match answer
       case CreatedPending(p) => Managed(usage, w, p)
       case CreatedExternal(e) => Backed(w, e) && Shared(usage, w, e.id)
  }

  /** The container of a registry other than the internal one. */
  ghost predicate Shared(usage: Usage, w: World, id: Id) {
    UsedAs(usage, w, id, Some(Dynamic)) || UsedAs(usage, w, id, Some(External))
  }

  /** The entry behind a container that a test merely found. */
  ghost predicate Backed(w: World, e: StaticExternal) {
    || (e.handle in w.statics.external && w.statics.external[e.handle].id == e.id)
    || (e.handle in w.statics.dynamic && w.statics.dynamic[e.handle].RunningPrior?
        && w.statics.dynamic[e.handle].running.id == e.id)
  }

  /** A dynamic container stays the one its name stands for. */
  ghost predicate Bound(w: World, p: PendingContainer) {
    p.management == Some(Dynamic) ==>
      && p.name in w.statics.dynamic && !w.statics.dynamic[p.name].RunningPrior?
      && (!w.statics.dynamic[p.name].Failed? ==> w.statics.dynamic[p.name].pending == p)
  }

  /** A registered container is listed under its name, in the registry its name is used for. */
  ghost predicate RegisteredShape(usage: Usage, w: World, id: Id) {
    && id in w.daemon.created
    && var n := w.daemon.created[id];
       (usage(n) == Some(Dynamic) && n in w.statics.dynamic) || (usage(n) == Some(External) && n in w.statics.external)
  }

  ghost predicate Inv(usage: Usage, w: World) {
    && (forall n {:trigger InternalShape(usage, w, n)} :: n in w.statics.internal ==> InternalShape(usage, w, n))
    && (forall n {:trigger DynamicShape(usage, w, n)} :: n in w.statics.dynamic ==> DynamicShape(usage, w, n))
    && (forall n {:trigger ExternalShape(usage, w, n)} :: n in w.statics.external ==> ExternalShape(usage, w, n))
    && (forall t {:trigger TestShape(usage, w, t)} :: t in w.tests ==> TestShape(usage, w, t))
    && (forall id {:trigger RegisteredShape(usage, w, id)} :: id in w.registered ==> RegisteredShape(usage, w, id))
  }

  /** Created containers keep their names, registered names stay registered. */
  ghost predicate Grows(w: World, w': World) {
    && (forall id :: id in w.daemon.created ==>
          id in w'.daemon.created && w'.daemon.created[id] == w.daemon.created[id])
    && (forall n :: n in w.statics.dynamic ==>
          n in w'.statics.dynamic && Dynamic.Evolves(w.statics.dynamic[n], w'.statics.dynamic[n]))
    && (forall n :: n in w.statics.external ==>
          n in w'.statics.external && w'.statics.external[n] == w.statics.external[n])
  }

  lemma RegisteredKept(usage: Usage, w: World, w': World)
    requires forall id {:trigger RegisteredShape(usage, w, id)} :: id in w.registered ==> RegisteredShape(usage, w, id)
    requires Grows(w, w')
    requires forall n :: n in w'.statics.dynamic ==> DynamicShape(usage, w', n)
    requires forall n :: n in w'.statics.external ==> ExternalShape(usage, w', n)
    requires w'.registered <= w.registered + DynamicIds(w'.statics.dynamic) + ExternalIds(w'.statics.external)
    ensures forall id :: id in w'.registered ==> RegisteredShape(usage, w', id)
  {
    forall id | id in w'.registered
      ensures RegisteredShape(usage, w', id)
    {
      if id in w.registered {
        assert RegisteredShape(usage, w, id);
      } else if id in DynamicIds(w'.statics.dynamic) {
        var n :| n in w'.statics.dynamic && !w'.statics.dynamic[n].Failed?
              && id == if w'.statics.dynamic[n].RunningPrior? then w'.statics.dynamic[n].running.id
                       else w'.statics.dynamic[n].pending.id;
        assert DynamicShape(usage, w', n);
      } else {
        var n :| n in w'.statics.external && id == w'.statics.external[n].id;
        assert ExternalShape(usage, w', n);
      }
    }
  }

  lemma TestsKept(usage: Usage, w: World, w': World, t: TestId)
    requires forall u {:trigger TestShape(usage, w, u)} :: u in w.tests ==> TestShape(usage, w, u)
    requires Grows(w, w') && t in w'.tests && w'.tests == w.tests[t := w'.tests[t]] && TestShape(usage, w', t)
    ensures forall u :: u in w'.tests ==> TestShape(usage, w', u)
  {
    forall u | u in w'.tests
      ensures TestShape(usage, w', u)
    {
      if u != t {
        assert TestShape(usage, w, u);
        StillThere(usage, w, w', u);
      }
    }
  }

  /** Nothing a test knows becomes wrong by what others do. */
  lemma StillThere(usage: Usage, w: World, w': World, u: TestId)
    requires u in w.tests && u in w'.tests && w'.tests[u] == w.tests[u] && TestShape(usage, w, u) && Grows(w, w')
    ensures TestShape(usage, w', u)
  {
    forall c, a | (c, a) in w'.tests[u].answers
      ensures AnswerShape(w', u, c, a)
    {
      assert AnswerShape(w, u, c, a);
    }
    forall p, r | (p, r) in w'.tests[u].results
      ensures ResultShape(w', w'.tests[u], p, r)
    {
      assert ResultShape(w, w.tests[u], p, r);
    }
  }

  lemma InternalKept(usage: Usage, w: World, w': World)
    requires forall n {:trigger InternalShape(usage, w, n)} :: n in w.statics.internal ==> InternalShape(usage, w, n)
    requires Grows(w, w') && w'.statics.internal == w.statics.internal
    ensures forall n :: n in w'.statics.internal ==> InternalShape(usage, w', n)
  {
    forall n | n in w'.statics.internal
      ensures InternalShape(usage, w', n)
    {
      assert InternalShape(usage, w, n);
    }
  }

  lemma DynamicKept(usage: Usage, w: World, w': World)
    requires forall n {:trigger DynamicShape(usage, w, n)} :: n in w.statics.dynamic ==> DynamicShape(usage, w, n)
    requires Grows(w, w') && w'.statics.dynamic == w.statics.dynamic
    ensures forall n :: n in w'.statics.dynamic ==> DynamicShape(usage, w', n)
  {
    forall n | n in w'.statics.dynamic
      ensures DynamicShape(usage, w', n)
    {
      assert DynamicShape(usage, w, n);
    }
  }

  lemma ExternalKept(usage: Usage, w: World, w': World)
    requires forall n {:trigger ExternalShape(usage, w, n)} :: n in w.statics.external ==> ExternalShape(usage, w, n)
    requires Grows(w, w') && w'.statics.external == w.statics.external
    ensures forall n :: n in w'.statics.external ==> ExternalShape(usage, w', n)
  {
    forall n | n in w'.statics.external
      ensures ExternalShape(usage, w', n)
    {
      assert ExternalShape(usage, w, n);
    }
  }

  // --- creating a static container --------------------------------------------------------------------

  /** Containers keep the name they were created under. */
  ghost predicate Remembers(d: Docker.State, d': Docker.State) {
    forall id :: id in d.created ==> id in d'.created && d'.created[id] == d.created[id]
  }

  /** What a creation does to the internal registry, in which only the entry of its name can change. */
  ghost predicate InternalChange(m: Internal.Registry, d: Docker.State, c: Composition, m': Internal.Registry,
                                 d': Docker.State, r: Result<PendingContainer, Error>)
  {
    var n := c.containerName;
    && m'.Keys <= m.Keys + {n} && (forall k :: k in m && k != n ==> k in m' && m'[k] == m[k])
    && (n in m ==> n in m')
    && Remembers(d, d')
    && (n in m' ==> var status := m'[n].status;
          || (n in m && status == m[n].status)
          || (status.Failed? && status.failedId.None?)
          || (status.Pending? && status.pending == PendingOf(c, status.pending.id)
              && status.pending.id in d'.created && d'.created[status.pending.id] == n))
    && (r.Success? ==> n in m' && (m'[n].status.Pending? || m'[n].status.Operational?)
                       && r.value == m'[n].status.pending)
  }

  lemma InternalCreates(m: Internal.Registry, d: Docker.State, c: Composition, network: NetworkName, mode: Network,
                        replies: Internal.CreateReplies)
    requires Internal.Fresh(d, replies)
    ensures var (m', d', r) := Internal.CreateSpec(m, d, c, Some(network), mode, replies);
            InternalChange(m, d, c, m', d', r)
  {
  }

  lemma InternalShapes(usage: Usage, w: World, w': World, c: Composition, r: Result<PendingContainer, Error>)
    requires forall n {:trigger InternalShape(usage, w, n)} :: n in w.statics.internal ==> InternalShape(usage, w, n)
    requires usage(c.containerName) == c.management == Some(Internal) && GoesBy(c, c.containerName)
    requires InternalChange(w.statics.internal, w.daemon, c, w'.statics.internal, w'.daemon, r)
    ensures forall n :: n in w'.statics.internal ==> InternalShape(usage, w', n)
    ensures r.Success? ==> Managed(usage, w', r.value) && Fits(c, CreatedPending(r.value))
  {
    forall n | n in w'.statics.internal
      ensures InternalShape(usage, w', n)
    {
      assert n in w.statics.internal ==> InternalShape(usage, w, n);
    }
    assert r.Success? ==> InternalShape(usage, w', c.containerName);
  }

  lemma CreateInternal(usage: Usage, w: World, t: TestId, c: Composition, replies: CreateReplies)
    requires Inv(usage, w) && Enabled(usage, w, CreateStatic(t, c, replies)) && c.management == Some(Internal)
    ensures Inv(usage, Next(w, CreateStatic(t, c, replies)))
    ensures Grows(w, Next(w, CreateStatic(t, c, replies)))
  {
    var w' := Next(w, CreateStatic(t, c, replies));
    var (m', d', r) := Internal.CreateSpec(w.statics.internal, w.daemon, c, Some(w.tests[t].network), w.tests[t].mode,
                                           replies.internal);
    InternalCreates(w.statics.internal, w.daemon, c, w.tests[t].network, w.tests[t].mode, replies.internal);
    InternalShapes(usage, w, w', c, r);
    DynamicKept(usage, w, w');
    ExternalKept(usage, w, w');
    KeptTests(usage, w, w', t, c, if r.Success? then Success(CreatedPending(r.value)) else Failure(r.error));
    RegisteredKept(usage, w, w');
  }

  ghost predicate ExternalChange(m: External.Registry, d: Docker.State, c: Composition, m': External.Registry,
                                 d': Docker.State, r: Result<StaticExternal, Error>)
  {
    var n := c.containerName;
    && d'.created == d.created
    && m'.Keys <= m.Keys + {n} && (forall k :: k in m ==> k in m' && m'[k] == m[k])
    && (n in m' && n !in m ==> m'[n] == Dynamic.FoundContainer(c, m'[n].id) && Honest(d, n, Some(m'[n].id)))
    && (r.Success? ==> n in m' && m'[n].id == r.value.id && m'[n].handle == r.value.handle)
  }

  lemma ExternalIncludes(m: External.Registry, d: Docker.State, c: Composition, network: NetworkName, mode: Network,
                         replies: External.IncludeReplies)
    requires replies.inspected.Success? ==> Honest(d, c.containerName, replies.inspected.value)
    ensures var (m', d', r) := External.IncludeSpec(m, d, c, Some(network), mode, replies);
            ExternalChange(m, d, c, m', d', r)
  {
  }

  lemma ExternalShapes(usage: Usage, w: World, w': World, c: Composition, r: Result<StaticExternal, Error>)
    requires forall n {:trigger ExternalShape(usage, w, n)} :: n in w.statics.external ==> ExternalShape(usage, w, n)
    requires usage(c.containerName) == c.management == Some(External) && GoesBy(c, c.containerName)
    requires ExternalChange(w.statics.external, w.daemon, c, w'.statics.external, w'.daemon, r)
    ensures forall n :: n in w'.statics.external ==> ExternalShape(usage, w', n)
    ensures r.Success? ==> Backed(w', r.value) && Shared(usage, w', r.value.id) && Fits(c, CreatedExternal(r.value))
  {
    forall n | n in w'.statics.external
      ensures ExternalShape(usage, w', n)
    {
      assert n in w.statics.external ==> ExternalShape(usage, w, n);
    }
    assert r.Success? ==> ExternalShape(usage, w', c.containerName);
  }

  lemma CreateExternal(usage: Usage, w: World, t: TestId, c: Composition, replies: CreateReplies)
    requires Inv(usage, w) && Enabled(usage, w, CreateStatic(t, c, replies)) && c.management == Some(External)
    ensures Inv(usage, Next(w, CreateStatic(t, c, replies)))
    ensures Grows(w, Next(w, CreateStatic(t, c, replies)))
  {
    var w' := Next(w, CreateStatic(t, c, replies));
    var (m', d', r) := External.IncludeSpec(w.statics.external, w.daemon, c, Some(w.tests[t].network), w.tests[t].mode,
                                            replies.external);
    ExternalIncludes(w.statics.external, w.daemon, c, w.tests[t].network, w.tests[t].mode, replies.external);
    ExternalShapes(usage, w, w', c, r);
    InternalKept(usage, w, w');
    DynamicKept(usage, w, w');
    KeptTests(usage, w, w', t, c, if r.Success? then Success(CreatedExternal(r.value)) else Failure(r.error));
    RegisteredKept(usage, w, w');
  }

  ghost predicate DynamicChange(m: Dynamic.Registry, d: Docker.State, c: Composition, m': Dynamic.Registry,
                                d': Docker.State, r: Result<CreatedContainer, Error>)
  {
    var n := c.containerName;
    && Remembers(d, d')
    && m'.Keys <= m.Keys + {n} && (forall k :: k in m ==> k in m' && m'[k] == m[k])
    && (n in m' && n !in m ==>
          match m'[n]
          case RunningPrior(r) => r == Dynamic.FoundContainer(c, r.id) && Honest(d', n, Some(r.id))
          case Pending(p) => p == PendingOf(c, p.id) && Honest(d', n, Some(p.id))
          case _ => false)
    && (r.Success? && r.value.CreatedPending? ==>
          n in m' && (m'[n].Pending? || m'[n].Running?) && m'[n].pending == r.value.pending)
    && (r.Success? && r.value.CreatedExternal? ==>
          n in m' && m'[n].RunningPrior? && m'[n].running.id == r.value.external.id
          && m'[n].running.handle == r.value.external.handle)
  }

  lemma DynamicCreates(m: Dynamic.Registry, d: Docker.State, c: Composition, network: NetworkName, mode: Network,
                       replies: Dynamic.CreateReplies)
    requires Dynamic.Fresh(d, replies)
    requires replies.inspected.Found? ==> Honest(d, c.containerName, replies.inspected.id)
    ensures var (m', d', r) := Dynamic.CreateSpec(m, d, c, Some(network), mode, replies);
            DynamicChange(m, d, c, m', d', r)
  {
  }

  lemma DynamicShapes(usage: Usage, w: World, w': World, c: Composition, r: Result<CreatedContainer, Error>)
    requires forall n {:trigger DynamicShape(usage, w, n)} :: n in w.statics.dynamic ==> DynamicShape(usage, w, n)
    requires usage(c.containerName) == c.management == Some(Dynamic) && GoesBy(c, c.containerName)
    requires DynamicChange(w.statics.dynamic, w.daemon, c, w'.statics.dynamic, w'.daemon, r)
    ensures forall n :: n in w'.statics.dynamic ==> DynamicShape(usage, w', n)
    ensures r.Success? ==> Given(usage, w', c, r.value)
  {
    forall n | n in w'.statics.dynamic
      ensures DynamicShape(usage, w', n)
    {
      assert n in w.statics.dynamic ==> DynamicShape(usage, w, n);
    }
    assert c.containerName in w'.statics.dynamic ==> DynamicShape(usage, w', c.containerName);
  }

  lemma CreateDynamic(usage: Usage, w: World, t: TestId, c: Composition, replies: CreateReplies)
    requires Inv(usage, w) && Enabled(usage, w, CreateStatic(t, c, replies)) && c.management == Some(Dynamic)
    ensures Inv(usage, Next(w, CreateStatic(t, c, replies)))
    ensures Grows(w, Next(w, CreateStatic(t, c, replies)))
  {
    var w' := Next(w, CreateStatic(t, c, replies));
    var (m', d', r) := Dynamic.CreateSpec(w.statics.dynamic, w.daemon, c, Some(w.tests[t].network), w.tests[t].mode,
                                          replies.dynamic);
    DynamicCreates(w.statics.dynamic, w.daemon, c, w.tests[t].network, w.tests[t].mode, replies.dynamic);
    DynamicShapes(usage, w, w', c, r);
    InternalKept(usage, w, w');
    ExternalKept(usage, w, w');
    KeptTests(usage, w, w', t, c, r);
    RegisteredKept(usage, w, w');
  }

  lemma KeptTests(usage: Usage, w: World, w': World, t: TestId, c: Composition, r: Result<CreatedContainer, Error>)
    requires forall u {:trigger TestShape(usage, w, u)} :: u in w.tests ==> TestShape(usage, w, u)
    requires Grows(w, w') && t in w.tests && w'.tests == w.tests[t := Answered(w.tests[t], c, r)]
    requires w.tests[t].phase.Using?
    requires r.Success? ==> Given(usage, w', c, r.value)
    ensures forall u :: u in w'.tests ==> TestShape(usage, w', u)
  {
    assert TestShape(usage, w, t);
    forall x, a | (x, a) in w'.tests[t].answers
      ensures AnswerShape(w', t, x, a)
    {
      assert (x, a) in w.tests[t].answers ==> AnswerShape(w, t, x, a);
    }
    forall p, q | (p, q) in w'.tests[t].results
      ensures ResultShape(w', w'.tests[t], p, q)
    {
      assert ResultShape(w, w.tests[t], p, q);
    }
    TestsKept(usage, w, w', t);
  }

  // --- starting and cleaning up -----------------------------------------------------------------------

  lemma InvStart(usage: Usage, w: World, t: TestId, p: PendingContainer, reply: Docker.Reply)
    requires Inv(usage, w) && Enabled(usage, w, StartStatic(t, p, reply))
    ensures Inv(usage, Next(w, StartStatic(t, p, reply))) && Grows(w, Next(w, StartStatic(t, p, reply)))
  {
    var w' := Next(w, StartStatic(t, p, reply));
    StartShapes(usage, w, w', t, p, reply);
    ExternalKept(usage, w, w');
    StartResultShape(usage, w, w', t, p, reply);
    StartTests(usage, w, w', t, p, StartSpec(w.statics, w.daemon, p, reply).2);
    RegisteredKept(usage, w, w');
  }

  lemma StartResultShape(usage: Usage, w: World, w': World, t: TestId, p: PendingContainer, reply: Docker.Reply)
    requires Inv(usage, w) && t in w.tests && p in w.tests[t].kept && p.isStatic
    requires w'.statics == StartSpec(w.statics, w.daemon, p, reply).0
    ensures ResultShape(w', w.tests[t], p, StartSpec(w.statics, w.daemon, p, reply).2)
  {
    assert TestShape(usage, w, t);
    assert p.management == Some(Dynamic) ==> DynamicShape(usage, w, p.name);
  }

  lemma StartTests(usage: Usage, w: World, w': World, t: TestId, p: PendingContainer, r: StartResult)
    requires forall u {:trigger TestShape(usage, w, u)} :: u in w.tests ==> TestShape(usage, w, u)
    requires Grows(w, w') && t in w.tests && ResultShape(w', w.tests[t], p, r)
    requires w'.tests == if w.tests[t].phase.Removing? then w.tests
                         else w.tests[t := w.tests[t].(results := w.tests[t].results + {(p, r)})]
    ensures forall u :: u in w'.tests ==> TestShape(usage, w', u)
  {
    assert TestShape(usage, w, t);
    forall q, x | (q, x) in w'.tests[t].results
      ensures ResultShape(w', w'.tests[t], q, x)
    {
      assert (q, x) in w.tests[t].results ==> ResultShape(w, w.tests[t], q, x);
    }
    forall c, a | (c, a) in w'.tests[t].answers
      ensures AnswerShape(w', t, c, a)
    {
      assert AnswerShape(w, t, c, a);
    }
    assert w'.tests == w.tests[t := w'.tests[t]];
    TestsKept(usage, w, w', t);
  }

  lemma StartShapes(usage: Usage, w: World, w': World, t: TestId, p: PendingContainer, reply: Docker.Reply)
    requires Inv(usage, w) && Enabled(usage, w, StartStatic(t, p, reply)) && w' == Next(w, StartStatic(t, p, reply))
    ensures Grows(w, w') && w'.statics.external == w.statics.external
    ensures forall n :: n in w'.statics.internal ==> InternalShape(usage, w', n)
    ensures forall n :: n in w'.statics.dynamic ==> DynamicShape(usage, w', n)
  {
    StartFrame(w, w', t, p, reply);
    assert TestShape(usage, w, t);
    forall n | n in w'.statics.internal
      ensures InternalShape(usage, w', n)
    {
      assert InternalShape(usage, w, n);
    }
    forall n | n in w'.statics.dynamic
      ensures DynamicShape(usage, w', n)
    {
      assert DynamicShape(usage, w, n);
    }
  }

  ghost predicate InternalStartFrame(m: Internal.Registry, m': Internal.Registry, p: PendingContainer) {
    && m'.Keys == m.Keys
    && forall n :: n in m && m'[n] != m[n] ==>
         var status := m'[n].status;
         && n == p.name && m[n].status.Pending?
         && (status == Internal.Operational(OperationalOf(m[n].status.pending), m[n].status.pending)
             || (status.Failed? && status.failedId == Some(p.id)))
  }

  lemma InternalStarts(m: Internal.Registry, d: Docker.State, p: PendingContainer, reply: Docker.Reply)
    ensures var (m', d', _) := Internal.StartSpec(m, d, p, reply);
            d'.created == d.created && InternalStartFrame(m, m', p)
  {
  }

  lemma DynamicStarts(m: Dynamic.Registry, d: Docker.State, p: PendingContainer, reply: Docker.Reply)
    ensures var (m', d', _) := Dynamic.StartSpec(m, d, p, reply);
            && d'.created == d.created && m'.Keys == m.Keys
            && forall n :: n in m ==> Dynamic.Evolves(m[n], m'[n])
  {
  }

  /** A start touches at most the entry of the container it starts. */
  lemma StartFrame(w: World, w': World, t: TestId, p: PendingContainer, reply: Docker.Reply)
    requires t in w.tests && w' == Next(w, StartStatic(t, p, reply))
    ensures w'.daemon.created == w.daemon.created
    ensures w'.statics.external == w.statics.external
    ensures InternalStartFrame(w.statics.internal, w'.statics.internal, p)
    ensures w'.statics.dynamic.Keys == w.statics.dynamic.Keys
    ensures forall n :: n in w.statics.dynamic ==> Dynamic.Evolves(w.statics.dynamic[n], w'.statics.dynamic[n])
  {
    match p.management
    case Some(Internal) => InternalStarts(w.statics.internal, w.daemon, p, reply);
    case Some(Dynamic) => DynamicStarts(w.statics.dynamic, w.daemon, p, reply);
    case Some(External) =>
    case None =>
  }

  lemma InvRelease(usage: Usage, w: World, t: TestId)
    requires Inv(usage, w) && Enabled(usage, w, Release(t))
    ensures Inv(usage, Next(w, Release(t))) && Grows(w, Next(w, Release(t)))
  {
    var w' := Next(w, Release(t));
    forall n | n in w'.statics.internal
      ensures InternalShape(usage, w', n)
    {
      assert InternalShape(usage, w, n);
    }
    DynamicKept(usage, w, w');
    ExternalKept(usage, w, w');
    forall id | id in w'.tests[t].phase.todo
      ensures UsedAs(usage, w', id, Some(Internal))
    {
      var n :| n in w.statics.internal && w.statics.internal[n].status.ContainerId() == Some(id);
      assert InternalShape(usage, w, n);
    }
    PhaseTests(usage, w, w', t);
    RegisteredKept(usage, w, w');
  }

  /** A test moves on, without getting hold of anything. */
  lemma PhaseTests(usage: Usage, w: World, w': World, t: TestId)
    requires forall u {:trigger TestShape(usage, w, u)} :: u in w.tests ==> TestShape(usage, w, u)
    requires Grows(w, w') && t in w.tests && t in w'.tests
    requires w'.tests == w.tests[t := w.tests[t].(phase := w'.tests[t].phase)]
    requires w'.tests[t].phase.Removing? ==>
               forall id :: id in w'.tests[t].phase.todo ==> UsedAs(usage, w', id, Some(Internal))
    ensures forall u :: u in w'.tests ==> TestShape(usage, w', u)
  {
    assert TestShape(usage, w, t);
    forall c, a | (c, a) in w'.tests[t].answers
      ensures AnswerShape(w', t, c, a)
    {
      assert AnswerShape(w, t, c, a);
    }
    forall p, r | (p, r) in w'.tests[t].results
      ensures ResultShape(w', w'.tests[t], p, r)
    {
      assert ResultShape(w, w.tests[t], p, r);
    }
    TestsKept(usage, w, w', t);
  }

  lemma InvPhase(usage: Usage, w: World, step: Step)
    requires Inv(usage, w) && Enabled(usage, w, step) && (step.Disconnect? || step.RemoveInternal?)
    ensures Inv(usage, Next(w, step)) && Grows(w, Next(w, step))
  {
    var w' := Next(w, step);
    InternalKept(usage, w, w');
    DynamicKept(usage, w, w');
    ExternalKept(usage, w, w');
    assert TestShape(usage, w, step.t);
    PhaseTests(usage, w, w', step.t);
    RegisteredKept(usage, w, w');
  }

  lemma InvCreateOwn(usage: Usage, w: World, step: Step)
    requires Inv(usage, w) && Enabled(usage, w, step) && step.CreateOwn?
    ensures Inv(usage, Next(w, step)) && Grows(w, Next(w, step))
  {
    var w' := Next(w, step);
    InternalKept(usage, w, w');
    DynamicKept(usage, w, w');
    ExternalKept(usage, w, w');
    var t := step.t;
    assert TestShape(usage, w, t);
    forall c, a | (c, a) in w'.tests[t].answers
      ensures AnswerShape(w', t, c, a)
    {
      assert AnswerShape(w, t, c, a);
    }
    forall p, r | (p, r) in w'.tests[t].results
      ensures ResultShape(w', w'.tests[t], p, r)
    {
      assert ResultShape(w, w.tests[t], p, r);
    }
    assert w'.tests == w.tests[t := w'.tests[t]];
    TestsKept(usage, w, w', t);
    RegisteredKept(usage, w, w');
  }

  /** Steps that leave the registries and the tests that are there alone. */
  lemma InvOther(usage: Usage, w: World, step: Step)
    requires Inv(usage, w) && Enabled(usage, w, step)
    requires step.Outside? || step.Join? || step.DisconnectExternal? || step.Prune?
    ensures Inv(usage, Next(w, step)) && Grows(w, Next(w, step))
  {
    var w' := Next(w, step);
    InternalKept(usage, w, w');
    DynamicKept(usage, w, w');
    ExternalKept(usage, w, w');
    if step.Join? {
      TestsKept(usage, w, w', step.t);
    } else {
      SameTests(usage, w, w');
    }
    RegisteredKept(usage, w, w');
  }

  lemma SameTests(usage: Usage, w: World, w': World)
    requires forall u {:trigger TestShape(usage, w, u)} :: u in w.tests ==> TestShape(usage, w, u)
    requires Grows(w, w') && w'.tests == w.tests
    ensures forall u :: u in w'.tests ==> TestShape(usage, w', u)
  {
    forall u | u in w'.tests
      ensures TestShape(usage, w', u)
    {
      assert TestShape(usage, w, u);
      StillThere(usage, w, w', u);
    }
  }

  lemma InvNext(usage: Usage, w: World, step: Step)
    requires Inv(usage, w) && Enabled(usage, w, step)
    ensures Inv(usage, Next(w, step)) && Grows(w, Next(w, step))
  {
    match step
    case CreateStatic(t, c, replies) =>
      match c.management.value {
        case Internal => CreateInternal(usage, w, t, c, replies);
        case External => CreateExternal(usage, w, t, c, replies);
        case Dynamic => CreateDynamic(usage, w, t, c, replies);
      }
    case StartStatic(t, p, reply) => InvStart(usage, w, t, p, reply);
    case Release(t) => InvRelease(usage, w, t);
    case Disconnect(_, _) => InvPhase(usage, w, step);
    case RemoveInternal(_, _, _) => InvPhase(usage, w, step);
    case CreateOwn(_, _, _, _) => InvCreateOwn(usage, w, step);
    case Outside(_, _) => InvOther(usage, w, step);
    case Join(_, _, _) => InvOther(usage, w, step);
    case DisconnectExternal(_, _) => InvOther(usage, w, step);
    case Prune(_, _) => InvOther(usage, w, step);
  }

  /** The world after a sequence of steps, if each is possible when its turn comes. */
  ghost function Execute(usage: Usage, w: World, steps: seq<Step>): Option<World> {
    if steps == [] then Some(w)
    else
      var before := Execute(usage, w, steps[..|steps| - 1]);
      var step := steps[|steps| - 1];
      if before.Some? && Enabled(usage, before.value, step) then Some(Next(before.value, step)) else None
  }

  /** The state before the last step. */
  lemma LastStep(usage: Usage, w: World, steps: seq<Step>) returns (w1: World)
    requires steps != [] && Execute(usage, w, steps).Some?
    ensures Execute(usage, w, steps[..|steps| - 1]) == Some(w1)
    ensures Enabled(usage, w1, steps[|steps| - 1])
    ensures Execute(usage, w, steps) == Some(Next(w1, steps[|steps| - 1]))
  {
    w1 := Execute(usage, w, steps[..|steps| - 1]).value;
  }

  lemma {:induction false} InvExecute(usage: Usage, w: World, steps: seq<Step>, w': World)
    requires Inv(usage, w) && Execute(usage, w, steps) == Some(w')
    ensures Inv(usage, w') && w.registered <= w'.registered
  {
    if steps != [] {
      var w1 := LastStep(usage, w, steps);
      InvExecute(usage, w, steps[..|steps| - 1], w1);
      InvNext(usage, w1, steps[|steps| - 1]);
    }
  }
}
