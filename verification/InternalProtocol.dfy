/** Any number of tests using the internal registry at the same time. One step is one lock scope of one
    test, or one of the removal requests a test issues after it has let go of the lock, so every
    interleaving of the tests is a sequence of steps. */
module InternalProtocol {
  import opened Containers
  import Docker
  import opened InternalContainers

  type TestId = nat

  datatype Phase = Using | Disconnected | Removing(todo: set<Id>)

  type StartResult = Result<OperationalContainer, Error>

  /** One test: `held` are the ids it will hand to cleanup, `pendings` the containers it may start,
      `results` what its starts returned while it still held the container. */
  datatype Test = Test(
    network: NetworkName,
    mode: Network,
    phase: Phase,
    held: set<Id>,
    pendings: set<PendingContainer>,
    results: set<(PendingContainer, StartResult)>)
  {
    function Hold(p: PendingContainer): Test {
      this.(held := held + {p.id}, pendings := pendings + {p})
    }
  }

  /** The registry and the daemon, the tests, and what happened so far:
      owner: the container last created under a name, until its entry is cleaned;
      leak: how often a container's counter was raised without a test that will lower it again;
      peak: how many users a container had at most at any one time, tests holding it and leaks together;
      scheduled: the ids some test became responsible to remove;
      lost: containers whose entry remembers another container's id;
      outcome: how the start of a container ended;
      networks: the networks in use, with the test that has a network to itself. */
  datatype Sys = Sys(
    registry: Registry,
    daemon: Docker.State,
    tests: map<TestId, Test>,
    owner: map<Name, Id>,
    leak: map<Id, nat>,
    peak: map<Id, nat>,
    scheduled: multiset<Id>,
    lost: set<Id>,
    outcome: map<Id, StartResult>,
    networks: map<NetworkName, Option<TestId>>)

  const INIT := Sys(map[], Docker.EMPTY, map[], map[], map[], map[], multiset{}, {}, map[], map[])

  datatype Step =
    | Join(t: TestId, network: NetworkName, mode: Network)
    | Create(t: TestId, c: Composition, replies: CreateReplies)
    | Start(t: TestId, p: PendingContainer, reply: Docker.Reply)
    | Disconnect(t: TestId, complied: set<Id>)
    | Release(t: TestId)
    | Remove(t: TestId, id: Id, honoured: bool)

  /** The name a static container gets is the handle it is asked for by. */
  predicate Named(c: Composition) {
    c.management == Some(Internal) && GoesBy(c, c.containerName)
  }

  /** A start may run at any time, also after the test has cleaned up: a failing strict start abandons
      the relaxed start tasks without waiting for them. Isolated networks have a random name. */
  ghost predicate Enabled(s: Sys, step: Step) {
    match step
    case Join(t, network, mode) =>
      && t !in s.tests
      && (network in s.networks ==> !mode.Isolated? && s.networks[network].None?)
    case Create(t, c, replies) => t in s.tests && s.tests[t].phase.Using? && Named(c) && Fresh(s.daemon, replies)
    case Start(t, p, _) => t in s.tests && p in s.tests[t].pendings
    case Disconnect(t, _) => t in s.tests && s.tests[t].phase.Using?
    case Release(t) => t in s.tests && s.tests[t].phase.Disconnected?
    case Remove(t, id, _) => t in s.tests && s.tests[t].phase.Removing? && id in s.tests[t].phase.todo
  }

  predicate Generates(m: Registry, n: Name) {
    n !in m || m[n].status.Cleaned?
  }

  ghost function Next(s: Sys, step: Step): Sys
    requires Enabled(s, step)
  {
    match step
    case Join(t, network, mode) => NextJoin(s, t, network, mode)
    case Create(t, c, replies) => NextCreate(s, t, c, replies)
    case Start(t, p, reply) => NextStart(s, t, p, reply)
    case Disconnect(t, complied) => NextDisconnect(s, t, complied)
    case Release(t) => NextDecrement(s, t)
    case Remove(t, id, honoured) => NextRemove(s, t, id, honoured)
  }

  ghost function NextJoin(s: Sys, t: TestId, network: NetworkName, mode: Network): Sys {
    s.(tests := s.tests[t := Test(network, mode, Using, {}, {}, {})],
       networks := s.networks[network := if mode.Isolated? then Some(t) else None])
  }

  ghost function NextDisconnect(s: Sys, t: TestId, complied: set<Id>): Sys
    requires t in s.tests
  {
    var targets := DisconnectTargets(s.registry, s.tests[t].held) * complied;
    s.(daemon := s.daemon.Disconnect(targets, s.tests[t].network),
       tests := s.tests[t := s.tests[t].(phase := Disconnected)])
  }

  ghost function NextRemove(s: Sys, t: TestId, id: Id, honoured: bool): Sys
    requires t in s.tests && s.tests[t].phase.Removing?
  {
    s.(daemon := s.daemon.Remove(id, honoured),
       tests := s.tests[t := s.tests[t].(phase := Removing(s.tests[t].phase.todo - {id}))])
  }

  ghost function CreateResult(s: Sys, t: TestId, c: Composition, replies: CreateReplies): Created
    requires t in s.tests
  {
    CreateSpec(s.registry, s.daemon, c, Some(s.tests[t].network), s.tests[t].mode, replies)
  }

  ghost function NextCreate(s: Sys, t: TestId, c: Composition, replies: CreateReplies): Sys
    requires t in s.tests
  {
    var (m, d, r) := CreateResult(s, t, c, replies);
    Booked(s.(registry := m, daemon := d), s.registry, t, c.containerName, replies.created, r)
  }

  /** The book-keeping of a creation that returned `r`, where `before` was the registry. */
  ghost function Booked(s: Sys, before: Registry, t: TestId, n: Name, created: Result<Id, Error>,
                        r: Result<PendingContainer, Error>): Sys
    requires t in s.tests
  {
    if Generates(before, n) then
      if created.Failure? then s else Generated(s, t, n, created.value, r)
    else if before[n].status.Failed? then
      if n in s.owner && s.owner[n] !in s.lost then Leaked(s, s.owner[n]) else s
    else if r.Failure? then s
    else Joined(s, t, r.value)
  }

  lemma BookingKeeps(s: Sys, before: Registry, t: TestId, n: Name, created: Result<Id, Error>,
                     r: Result<PendingContainer, Error>)
    requires t in s.tests
    ensures var s' := Booked(s, before, t, n, created, r);
            && s'.registry == s.registry && s'.daemon == s.daemon && s'.lost == s.lost
            && (s'.tests == s.tests || (r.Success? && s'.tests == s.tests[t := s.tests[t].Hold(r.value)]))
  {
    if !Generates(before, n) && !before[n].status.Failed? && r.Success? {
      assert Booked(s, before, t, n, created, r) == Joined(s, t, r.value);
    }
  }

  ghost function Generated(s: Sys, t: TestId, n: Name, id: Id, r: Result<PendingContainer, Error>): Sys
    requires t in s.tests
  {
    s.(owner := s.owner[n := id],
       leak := s.leak[id := if r.Success? then 0 else 1],
       peak := s.peak[id := 1],
       tests := if r.Success? then s.tests[t := s.tests[t].Hold(r.value)] else s.tests)
  }

  ghost function OneMore(m: map<Id, nat>, id: Id): map<Id, nat> {
    m[id := (if id in m then m[id] else 0) + 1]
  }

  /** Users of a container: the tests that hold it, and the leaks. */
  ghost function UsersOf(tests: map<TestId, Test>, leak: map<Id, nat>, id: Id): nat {
    |Holders(tests, id)| + if id in leak then leak[id] else 0
  }

  ghost function Raised(peak: map<Id, nat>, id: Id, users: nat): map<Id, nat> {
    peak[id := if id in peak && peak[id] > users then peak[id] else users]
  }

  ghost function Leaked(s: Sys, id: Id): Sys {
    var leak := OneMore(s.leak, id);
    s.(leak := leak, peak := Raised(s.peak, id, UsersOf(s.tests, leak, id)))
  }

  ghost function Joined(s: Sys, t: TestId, p: PendingContainer): Sys
    requires t in s.tests
  {
    var tests := s.tests[t := s.tests[t].Hold(p)];
    var leak := if p.id in s.tests[t].held then OneMore(s.leak, p.id) else s.leak;
    s.(tests := tests, leak := leak, peak := Raised(s.peak, p.id, UsersOf(tests, leak, p.id)))
  }

  ghost function NextStart(s: Sys, t: TestId, p: PendingContainer, reply: Docker.Reply): Sys
    requires t in s.tests
  {
    var (m, d, r) := StartSpec(s.registry, s.daemon, p, reply);
    var tests := if p.id in s.tests[t].held
                 then s.tests[t := s.tests[t].(results := s.tests[t].results + {(p, r)})] else s.tests;
    Settled(s.(registry := m, daemon := d, tests := tests), s.registry, p, r)
  }

  /** The book-keeping of a start that returned `r`, where `before` was the registry. */
  ghost function Settled(s: Sys, before: Registry, p: PendingContainer, r: StartResult): Sys {
    if p.name in before && before[p.name].status.Pending? then
      var id := before[p.name].status.pending.id;
      s.(outcome := s.outcome[id := r], lost := if r.Failure? && id != p.id then s.lost + {id} else s.lost)
    else s
  }

  lemma SettlingKeeps(s: Sys, before: Registry, p: PendingContainer, r: StartResult)
    ensures var s' := Settled(s, before, p, r);
            s'.registry == s.registry && s'.daemon == s.daemon && s'.tests == s.tests && s'.networks == s.networks
  {
  }

  ghost function NextDecrement(s: Sys, t: TestId): Sys
    requires t in s.tests
  {
    var held := s.tests[t].held;
    var responsible := Responsible(s.registry, held);
    s.(registry := DecrementSpec(s.registry, held),
       owner := s.owner - RetiredNames(s.registry, held),
       scheduled := s.scheduled + multiset(responsible),
       tests := s.tests[t := s.tests[t].(phase := Removing(responsible), held := {})])
  }

  // --- what every step keeps ----------------------------------------------------------------------

  ghost function Holders(tests: map<TestId, Test>, id: Id): set<TestId> {
    set t | t in tests && id in tests[t].held
  }

  ghost function Removers(tests: map<TestId, Test>, id: Id): set<TestId> {
    set t | t in tests && tests[t].phase.Removing? && id in tests[t].phase.todo
  }

  /** The container is the one its name's entry stands for. */
  ghost predicate Current(s: Sys, id: Id) {
    id in s.daemon.created && s.daemon.created[id] in s.owner && s.owner[s.daemon.created[id]] == id
  }

  predicate SharedAs(p: PendingContainer, n: Name) {
    p.name == n && p.handle == n && p.isStatic
  }

  ghost predicate EntryShape(s: Sys, n: Name)
    requires n in s.registry
  {
    match s.registry[n].status
    case Pending(p) =>
      && SharedAs(p, n) && n in s.owner && s.owner[n] == p.id && p.id !in s.lost
      && s.daemon.starts[p.id] == 0 && p.id !in s.outcome
    case Operational(r, p) =>
      && SharedAs(p, n) && n in s.owner && s.owner[n] == p.id && p.id !in s.lost
      && r == OperationalOf(p) && p.id in s.outcome && s.outcome[p.id] == Success(r)
    case Failed(error, failedId) =>
      if failedId.None? then n !in s.owner
      else
        && n in s.owner && (s.owner[n] in s.lost <==> failedId.value != s.owner[n])
        && s.owner[n] in s.outcome && s.outcome[s.owner[n]] == Failure(error)
        && failedId.value in s.daemon.created && s.daemon.created[failedId.value] == n
    case Cleaned => n !in s.owner
  }

  ghost predicate Owned(s: Sys, n: Name)
    requires n in s.owner
  {
    n in s.registry && s.owner[n] in s.daemon.created && s.daemon.created[s.owner[n]] == n
  }

  ghost predicate Shape(s: Sys) {
    && (forall n {:trigger EntryShape(s, n)} :: n in s.registry ==> EntryShape(s, n))
    && (forall n {:trigger Owned(s, n)} :: n in s.owner ==> Owned(s, n))
  }

  ghost predicate LedgerAt(s: Sys, id: Id) {
    && (id in s.outcome && s.outcome[id].Success? ==>
          && id in s.daemon.created
          && var n := s.daemon.created[id];
             s.outcome[id].value == OperationalContainer(n, id, n, true, Unspecified))
    && s.daemon.starts[id] <= 1
    && (id in s.daemon.starts || id in s.scheduled || id in s.lost || id in s.outcome ==> id in s.daemon.created)
    && s.scheduled[id] == |Removers(s.tests, id)| + s.daemon.removals[id]
    && (id in s.daemon.removed ==> id in s.daemon.removals)
  }

  ghost predicate Ledger(s: Sys) {
    && s.peak.Keys == s.leak.Keys == s.daemon.created.Keys
    && (forall id {:trigger LedgerAt(s, id)} :: LedgerAt(s, id))
  }

  ghost predicate TestShape(s: Sys, t: TestId)
    requires t in s.tests
  {
    var test := s.tests[t];
    && test.held <= s.daemon.created.Keys
    && (forall p :: p in test.pendings ==>
          p.id in s.daemon.created && s.daemon.created[p.id] == p.name && SharedAs(p, p.name))
    && (test.phase.Removing? ==> test.held == {})
    && test.network in s.networks
    && s.networks[test.network] == if test.mode.Isolated? then Some(t) else None
  }

  ghost predicate Tests(s: Sys) {
    forall t {:trigger TestShape(s, t)} :: t in s.tests ==> TestShape(s, t)
  }

  ghost function Users(s: Sys, id: Id): nat
    requires id in s.leak
  {
    UsersOf(s.tests, s.leak, id)
  }

  /** The counter of an entry is, up to the width of the counter, the number of tests holding its container
      plus the leaks. */
  ghost predicate Accounting(s: Sys) {
    && (forall id {:trigger Within(s, id)} :: id in s.leak ==> Within(s, id))
    && (forall n {:trigger Balanced(s, n)} :: n in s.owner && s.owner[n] !in s.lost ==> Balanced(s, n))
  }

  ghost predicate Within(s: Sys, id: Id)
    requires id in s.leak
  {
    id in s.peak && Users(s, id) <= s.peak[id]
  }

  ghost predicate Balanced(s: Sys, n: Name)
    requires n in s.owner
  {
    && n in s.registry && s.owner[n] in s.leak
    && Users(s, s.owner[n]) > 0 && s.registry[n].completionCounter == Users(s, s.owner[n]) % 256
  }

  /** No container ever had more than `users` users at once. */
  ghost predicate AtMost(s: Sys, users: nat) {
    forall id :: id in s.peak ==> s.peak[id] <= users
  }

  /** As long as the counter does not get past zero it tells the last user from all others. */
  ghost predicate Bounded(s: Sys) {
    AtMost(s, 256)
  }

  ghost predicate Retired(s: Sys, id: Id) {
    && s.scheduled[id] == 1 && !Current(s, id) && id !in s.lost
    && Holders(s.tests, id) == {} && id in s.leak && s.leak[id] == 0
  }

  ghost predicate Connected(s: Sys, t: TestId)
    requires t in s.tests
  {
    var test := s.tests[t];
    test.phase.Using? && test.mode.Isolated? ==> forall id :: id in test.held ==> (id, test.network) in s.daemon.links
  }

  ghost predicate Agreeing(s: Sys, t: TestId)
    requires t in s.tests
  {
    forall p, r :: (p, r) in s.tests[t].results ==> p.id in s.outcome && s.outcome[p.id] == r
  }

  ghost predicate Tight(s: Sys) {
    && (forall id {:trigger Current(s, id)} :: id in s.daemon.created && !Current(s, id) ==> id in s.scheduled)
    && (forall id {:trigger Retired(s, id)} :: id in s.scheduled ==> Retired(s, id))
    && (forall t {:trigger Connected(s, t)} :: t in s.tests ==> Connected(s, t))
    && (forall t {:trigger Agreeing(s, t)} :: t in s.tests ==> Agreeing(s, t))
  }

  ghost predicate Inv(s: Sys) {
    Shape(s) && Ledger(s) && Tests(s) && Accounting(s) && (Bounded(s) ==> Tight(s))
  }

  // --- steps that move no registry entry and no counter -------------------------------------------

  ghost predicate Quiet(s: Sys, s': Sys) {
    && s' == s.(daemon := s'.daemon, tests := s'.tests, networks := s'.networks)
    && s'.daemon.created == s.daemon.created
    && s'.daemon.starts == s.daemon.starts
    && (forall id :: Holders(s'.tests, id) == Holders(s.tests, id))
    && (forall id :: |Removers(s'.tests, id)| + s'.daemon.removals[id]
                  == |Removers(s.tests, id)| + s.daemon.removals[id])
    && s.daemon.removals <= s'.daemon.removals
    && (forall id :: id in s'.daemon.removed ==> id in s.daemon.removed || id in s'.daemon.removals)
  }

  lemma QuietShape(s: Sys, s': Sys)
    requires Shape(s) && Quiet(s, s')
    ensures Shape(s')
  {
    forall n | n in s'.registry
      ensures EntryShape(s', n)
    {
      assert EntryShape(s, n);
    }
    forall n | n in s'.owner
      ensures Owned(s', n)
    {
      assert Owned(s, n);
    }
  }

  lemma QuietLedger(s: Sys, s': Sys)
    requires Ledger(s) && Quiet(s, s')
    ensures Ledger(s')
  {
    forall id
      ensures LedgerAt(s', id)
    {
      assert LedgerAt(s, id);
    }
  }

  lemma QuietAccounting(s: Sys, s': Sys)
    requires Accounting(s) && Quiet(s, s')
    ensures Accounting(s')
  {
    forall id | id in s'.leak
      ensures Within(s', id)
    {
      assert Within(s, id);
    }
    forall n | n in s'.owner && s'.owner[n] !in s'.lost
      ensures Balanced(s', n)
    {
      assert Balanced(s, n);
    }
  }

  lemma QuietTight(s: Sys, s': Sys)
    requires Tight(s) && Quiet(s, s')
    requires forall t :: t in s'.tests ==> Connected(s', t) && Agreeing(s', t)
    ensures Tight(s')
  {
    forall id | id in s'.scheduled
      ensures Retired(s', id)
    {
      assert Retired(s, id);
    }
    forall id | id in s'.daemon.created && !Current(s', id)
      ensures id in s'.scheduled
    {
      assert !Current(s, id);
    }
  }

  lemma QuietInv(s: Sys, s': Sys)
    requires Inv(s) && Quiet(s, s') && Tests(s')
    requires Bounded(s) ==> forall t :: t in s'.tests ==> Connected(s', t) && Agreeing(s', t)
    ensures Inv(s')
  {
    QuietShape(s, s');
    QuietLedger(s, s');
    QuietAccounting(s, s');
    if Bounded(s') {
      QuietTight(s, s');
    }
  }

  lemma InvJoin(s: Sys, t: TestId, network: NetworkName, mode: Network)
    requires Inv(s) && Enabled(s, Join(t, network, mode))
    ensures Inv(NextJoin(s, t, network, mode))
  {
    var s' := NextJoin(s, t, network, mode);
    QuietTests(s, s', t);
    forall u | u in s'.tests
      ensures TestShape(s', u)
      ensures Bounded(s) ==> Connected(s', u) && Agreeing(s', u)
    {
      if u != t {
        assert TestShape(s, u);
        assert Bounded(s) ==> Connected(s, u) && Agreeing(s, u);
      }
    }
    QuietInv(s, s');
  }

  /** Replacing a test by one that holds and removes the same leaves the count of users alone. */
  lemma QuietTests(s: Sys, s': Sys, t: TestId)
    requires s' == s.(daemon := s'.daemon, tests := s'.tests, networks := s'.networks)
    requires t in s'.tests && s'.tests == s.tests[t := s'.tests[t]]
    requires s'.daemon == s.daemon.(links := s'.daemon.links)
    requires s'.tests[t].held == if t in s.tests then s.tests[t].held else {}
    requires !s'.tests[t].phase.Removing? && (t in s.tests ==> !s.tests[t].phase.Removing?)
    ensures Quiet(s, s')
  {
    assert forall id :: Removers(s'.tests, id) == Removers(s.tests, id);
    assert forall id :: Holders(s'.tests, id) == Holders(s.tests, id);
  }

  lemma InvDisconnect(s: Sys, t: TestId, complied: set<Id>)
    requires Inv(s) && Enabled(s, Disconnect(t, complied))
    ensures Inv(NextDisconnect(s, t, complied))
  {
    var s' := NextDisconnect(s, t, complied);
    QuietTests(s, s', t);
    forall u | u in s'.tests
      ensures TestShape(s', u)
      ensures Bounded(s) ==> Connected(s', u) && Agreeing(s', u)
    {
      assert TestShape(s, u) && TestShape(s, t);
      assert Bounded(s) ==> Connected(s, u) && Agreeing(s, u);
    }
    QuietInv(s, s');
  }

  lemma RemovedIsRetired(s: Sys, t: TestId, id: Id)
    requires Inv(s) && Bounded(s) && t in Removers(s.tests, id)
    ensures Retired(s, id)
  {
    assert LedgerAt(s, id);
  }

  lemma InvRemove(s: Sys, t: TestId, id: Id, honoured: bool)
    requires Inv(s) && Enabled(s, Remove(t, id, honoured))
    ensures Inv(NextRemove(s, t, id, honoured))
  {
    var s' := NextRemove(s, t, id, honoured);
    assert TestShape(s, t);
    RemoveQuiet(s, s', t, id, honoured);
    forall u | u in s'.tests
      ensures TestShape(s', u)
      ensures Bounded(s) ==> Connected(s', u) && Agreeing(s', u)
    {
      assert TestShape(s, u);
      if Bounded(s) {
        assert Connected(s, u) && Agreeing(s, u);
        RemovedIsRetired(s, t, id);
        assert u !in Holders(s.tests, id);
      }
    }
    QuietInv(s, s');
  }

  lemma RemoveQuiet(s: Sys, s': Sys, t: TestId, id: Id, honoured: bool)
    requires t in s.tests && s.tests[t].phase.Removing? && id in s.tests[t].phase.todo
    requires s' == NextRemove(s, t, id, honoured)
    ensures Quiet(s, s')
  {
    assert forall i :: Holders(s'.tests, i) == Holders(s.tests, i);
    assert t in Removers(s.tests, id);
    assert Removers(s'.tests, id) == Removers(s.tests, id) - {t};
    assert forall i :: i != id ==> Removers(s'.tests, i) == Removers(s.tests, i);
  }

  // --- start --------------------------------------------------------------------------------------

  /** What a test still holds is what its name's entry stands for. */
  lemma HeldIsCurrent(s: Sys, t: TestId, id: Id)
    requires Inv(s) && Bounded(s) && t in s.tests && id in s.tests[t].held
    ensures Current(s, id) && id !in s.scheduled
  {
    assert TestShape(s, t);
    assert t in Holders(s.tests, id);
    assert id in s.scheduled ==> Retired(s, id);
  }

  predicate Starting(m: Registry, n: Name) {
    n in m && m[n].status.Pending?
  }

  lemma InvStart(s: Sys, t: TestId, p: PendingContainer, reply: Docker.Reply)
    requires Inv(s) && Enabled(s, Start(t, p, reply))
    ensures Inv(NextStart(s, t, p, reply))
  {
    if Starting(s.registry, p.name) {
      InvFirstStart(s, t, p, reply);
    } else {
      InvLateStart(s, t, p, reply);
    }
  }

  lemma InvLateStart(s: Sys, t: TestId, p: PendingContainer, reply: Docker.Reply)
    requires Inv(s) && Enabled(s, Start(t, p, reply)) && !Starting(s.registry, p.name)
    ensures Inv(NextStart(s, t, p, reply))
  {
    var s' := NextStart(s, t, p, reply);
    var r := StartSpec(s.registry, s.daemon, p, reply).2;
    LateStarts(s, s', t, p, reply, r);
    ResultsTests(s, s', t, p, r);
    if Bounded(s) {
      StartReturnsOutcome(s, t, p, reply);
      TightTests(s);
      ResultsTight(s, s', t, p, r);
    }
    QuietInv(s, s');
  }

  lemma LateStarts(s: Sys, s': Sys, t: TestId, p: PendingContainer, reply: Docker.Reply, r: StartResult)
    requires Enabled(s, Start(t, p, reply)) && !Starting(s.registry, p.name)
    requires s' == NextStart(s, t, p, reply) && r == StartSpec(s.registry, s.daemon, p, reply).2
    ensures Quiet(s, s') && Records(s, s', t, p, r) && s'.outcome == s.outcome
  {
    assert forall id :: Removers(s'.tests, id) == Removers(s.tests, id);
    assert forall id :: Holders(s'.tests, id) == Holders(s.tests, id);
  }

  lemma TightTests(s: Sys)
    requires Inv(s) && Bounded(s)
    ensures forall u :: u in s.tests ==> Connected(s, u) && Agreeing(s, u)
  {
  }

  /** The start of `p` by `t` returned `r`, which `t` notes if it still holds the container. */
  ghost predicate Records(s: Sys, s': Sys, t: TestId, p: PendingContainer, r: StartResult) {
    && t in s.tests && t in s'.tests
    && s'.tests == s.tests[t := s.tests[t].(results := s'.tests[t].results)]
    && s'.tests[t].results == s.tests[t].results + (if p.id in s.tests[t].held then {(p, r)} else {})
    && s'.daemon.created == s.daemon.created && s'.daemon.links == s.daemon.links && s'.networks == s.networks
  }

  /** A test that still holds a container gets the one result its start has. */
  lemma StartReturnsOutcome(s: Sys, t: TestId, p: PendingContainer, reply: Docker.Reply)
    requires Inv(s) && Bounded(s) && Enabled(s, Start(t, p, reply))
    ensures p.id in s.tests[t].held ==>
              var s' := NextStart(s, t, p, reply);
              var r := StartSpec(s.registry, s.daemon, p, reply).2;
              && p.name in s.registry
              && p.id in s'.outcome && s'.outcome[p.id] == r && (r.Success? ==> r.value == OperationalOf(p))
  {
    if p.id in s.tests[t].held {
      assert TestShape(s, t);
      HeldIsCurrent(s, t, p.id);
      assert Owned(s, p.name) && EntryShape(s, p.name);
    }
  }

  lemma ResultsTests(s: Sys, s': Sys, t: TestId, p: PendingContainer, r: StartResult)
    requires Tests(s) && Records(s, s', t, p, r)
    ensures Tests(s')
  {
    forall u | u in s'.tests
      ensures TestShape(s', u)
    {
      assert TestShape(s, u);
    }
  }

  lemma ResultsTight(s: Sys, s': Sys, t: TestId, p: PendingContainer, r: StartResult)
    requires forall u :: u in s.tests ==> Connected(s, u) && Agreeing(s, u)
    requires Records(s, s', t, p, r)
    requires p.id in s.tests[t].held ==> p.id in s'.outcome && s'.outcome[p.id] == r
    requires forall id :: id in s.outcome ==> id in s'.outcome && s'.outcome[id] == s.outcome[id]
    ensures forall u :: u in s'.tests ==> Connected(s', u) && Agreeing(s', u)
  {
    forall u | u in s'.tests
      ensures Connected(s', u) && Agreeing(s', u)
    {
      assert Connected(s, u) && Agreeing(s, u);
    }
  }

  /** The entry's container `q` is started, with result `r`. */
  ghost predicate Starts(s: Sys, s': Sys, n: Name, q: PendingContainer, status: Status, r: StartResult) {
    && Starting(s.registry, n) && s.registry[n].status == Pending(q)
    && s' == s.(registry := s.registry[n := Entry(status, s.registry[n].completionCounter)],
                daemon := s.daemon.Start(q.id), outcome := s.outcome[q.id := r], lost := s'.lost, tests := s'.tests)
    && (forall id :: Holders(s'.tests, id) == Holders(s.tests, id))
    && (forall id :: Removers(s'.tests, id) == Removers(s.tests, id))
    && ((status == Operational(OperationalOf(q), q) && r == Success(OperationalOf(q)) && s'.lost == s.lost)
        || (status.Failed? && status.failedId.Some? && r == Failure(status.error)
            && status.failedId.value in s.daemon.created && s.daemon.created[status.failedId.value] == n
            && s'.lost == if status.failedId.value == q.id then s.lost else s.lost + {q.id}))
  }

  lemma StartsShape(s: Sys, s': Sys, n: Name, q: PendingContainer, status: Status, r: StartResult)
    requires Shape(s) && Starts(s, s', n, q, status, r)
    ensures Shape(s')
  {
    assert EntryShape(s, n) && Owned(s, n);
    forall k | k in s'.owner
      ensures Owned(s', k)
    {
      assert Owned(s, k);
    }
    forall k | k in s'.registry
      ensures EntryShape(s', k)
    {
      assert EntryShape(s, k) && (k in s.owner ==> Owned(s, k));
    }
  }

  lemma StartsLedger(s: Sys, s': Sys, n: Name, q: PendingContainer, status: Status, r: StartResult)
    requires Shape(s) && Ledger(s) && Starts(s, s', n, q, status, r)
    ensures Ledger(s')
  {
    assert EntryShape(s, n) && Owned(s, n);
    forall id
      ensures LedgerAt(s', id)
    {
      assert LedgerAt(s, id);
    }
  }

  lemma StartsAccounting(s: Sys, s': Sys, n: Name, q: PendingContainer, status: Status, r: StartResult)
    requires Accounting(s) && Starts(s, s', n, q, status, r)
    ensures Accounting(s')
  {
    forall id | id in s'.leak
      ensures Within(s', id)
    {
      assert Within(s, id);
    }
    forall k | k in s'.owner && s'.owner[k] !in s'.lost
      ensures Balanced(s', k)
    {
      assert Balanced(s, k);
    }
  }

  lemma StartsTight(s: Sys, s': Sys, n: Name, q: PendingContainer, status: Status, r: StartResult)
    requires Shape(s) && Ledger(s) && Starts(s, s', n, q, status, r) && Tight(s)
    requires forall t :: t in s'.tests ==> Connected(s', t) && Agreeing(s', t)
    ensures Tight(s')
  {
    assert EntryShape(s, n) && Owned(s, n);
    assert Current(s, q.id);
    forall id | id in s'.scheduled
      ensures Retired(s', id)
    {
      assert Retired(s, id);
    }
    forall id | id in s'.daemon.created && !Current(s', id)
      ensures id in s'.scheduled
    {
      assert !Current(s, id);
    }
  }

  lemma InvFirstStart(s: Sys, t: TestId, p: PendingContainer, reply: Docker.Reply)
    requires Inv(s) && Enabled(s, Start(t, p, reply)) && Starting(s.registry, p.name)
    ensures Inv(NextStart(s, t, p, reply))
  {
    var s' := NextStart(s, t, p, reply);
    var q := s.registry[p.name].status.pending;
    var status := s'.registry[p.name].status;
    var r := StartSpec(s.registry, s.daemon, p, reply).2;
    FirstStarts(s, s', t, p, reply, q, status, r);
    if Bounded(s) {
      StartReturnsOutcome(s, t, p, reply);
    }
    StartsInv(s, s', t, p, q, status, r);
  }

  lemma FirstStarts(s: Sys, s': Sys, t: TestId, p: PendingContainer, reply: Docker.Reply, q: PendingContainer,
                    status: Status, r: StartResult)
    requires Tests(s) && Enabled(s, Start(t, p, reply)) && Starting(s.registry, p.name)
    requires s' == NextStart(s, t, p, reply) && r == StartSpec(s.registry, s.daemon, p, reply).2
    requires q == s.registry[p.name].status.pending && status == s'.registry[p.name].status
    ensures Starts(s, s', p.name, q, status, r) && Records(s, s', t, p, r)
  {
    assert TestShape(s, t);
  }

  lemma StartsInv(s: Sys, s': Sys, t: TestId, p: PendingContainer, q: PendingContainer, status: Status, r: StartResult)
    requires Inv(s) && Starts(s, s', p.name, q, status, r) && Records(s, s', t, p, r)
    requires Bounded(s) && p.id in s.tests[t].held ==> p.id in s'.outcome && s'.outcome[p.id] == r
    ensures Inv(s')
  {
    StartsShape(s, s', p.name, q, status, r);
    StartsLedger(s, s', p.name, q, status, r);
    StartsAccounting(s, s', p.name, q, status, r);
    ResultsTests(s, s', t, p, r);
    if Bounded(s') {
      StartsTightTests(s, s', t, p, q, status, r);
      StartsTight(s, s', p.name, q, status, r);
    }
  }

  lemma StartsTightTests(s: Sys, s': Sys, t: TestId, p: PendingContainer, q: PendingContainer, status: Status,
                         r: StartResult)
    requires Shape(s) && Tight(s) && Starts(s, s', p.name, q, status, r) && Records(s, s', t, p, r)
    requires p.id in s.tests[t].held ==> p.id in s'.outcome && s'.outcome[p.id] == r
    ensures forall u :: u in s'.tests ==> Connected(s', u) && Agreeing(s', u)
  {
    assert EntryShape(s, p.name);
    ResultsTight(s, s', t, p, r);
  }

  // --- create -------------------------------------------------------------------------------------

  /** An entry nobody owns is written; nothing else changes. */
  ghost predicate Writes(s: Sys, s': Sys, n: Name, e: Entry) {
    && s' == s.(registry := s.registry[n := e])
    && if n in s.owner then s.owner[n] in s.lost && n in s.registry && e.status == s.registry[n].status
       else e.status.Cleaned? || (e.status.Failed? && e.status.failedId.None?)
  }

  lemma WritesInv(s: Sys, s': Sys, n: Name, e: Entry)
    requires Inv(s) && Writes(s, s', n, e)
    ensures Inv(s')
  {
    WritesShape(s, s', n, e);
    WritesAccounting(s, s', n, e);
    WritesTests(s, s', n, e);
    if Bounded(s') {
      WritesTight(s, s', n, e);
    }
  }

  lemma WritesShape(s: Sys, s': Sys, n: Name, e: Entry)
    requires Shape(s) && Writes(s, s', n, e)
    ensures Shape(s')
  {
    forall k | k in s'.registry
      ensures EntryShape(s', k)
    {
      assert k in s.registry ==> EntryShape(s, k);
    }
    forall k | k in s'.owner
      ensures Owned(s', k)
    {
      assert Owned(s, k);
    }
  }

  lemma WritesAccounting(s: Sys, s': Sys, n: Name, e: Entry)
    requires Accounting(s) && Ledger(s) && Writes(s, s', n, e)
    ensures Accounting(s') && Ledger(s')
  {
    forall id
      ensures LedgerAt(s', id)
    {
      assert LedgerAt(s, id);
    }
    forall id | id in s'.leak
      ensures Within(s', id)
    {
      assert Within(s, id);
    }
    forall k | k in s'.owner && s'.owner[k] !in s'.lost
      ensures Balanced(s', k)
    {
      assert Balanced(s, k);
    }
  }

  lemma WritesTests(s: Sys, s': Sys, n: Name, e: Entry)
    requires Tests(s) && Writes(s, s', n, e)
    ensures Tests(s')
  {
    forall u | u in s'.tests
      ensures TestShape(s', u)
    {
      assert TestShape(s, u);
    }
  }

  lemma WritesTight(s: Sys, s': Sys, n: Name, e: Entry)
    requires Tight(s) && Writes(s, s', n, e)
    ensures Tight(s')
  {
    forall id | id in s'.scheduled
      ensures Retired(s', id)
    {
      assert Retired(s, id);
    }
    forall id | id in s'.daemon.created && !Current(s', id)
      ensures id in s'.scheduled
    {
      assert !Current(s, id);
    }
    forall u | u in s'.tests
      ensures Connected(s', u) && Agreeing(s', u)
    {
      assert Connected(s, u) && Agreeing(s, u);
    }
  }

  /** The container owning `n` is registered once more: by one more holder, or by one more leak. */
  ghost predicate Registers(s: Sys, s': Sys, n: Name) {
    && n in s.owner && n in s.registry
    && s' == s.(registry := s.registry[n := Counted(s.registry[n])],
                daemon := s.daemon.(links := s'.daemon.links),
                peak := Raised(s.peak, s.owner[n], UsersOf(s'.tests, s'.leak, s.owner[n])),
                leak := s'.leak, tests := s'.tests)
    && s.owner[n] in s.leak && s'.leak.Keys == s.leak.Keys
    && (forall id :: id in s.leak && id != s.owner[n] ==> s'.leak[id] == s.leak[id])
    && (forall id :: id != s.owner[n] ==> Holders(s'.tests, id) == Holders(s.tests, id))
    && (forall id :: Removers(s'.tests, id) == Removers(s.tests, id))
    && Users(s', s.owner[n]) == Users(s, s.owner[n]) + 1
  }

  lemma RegistersShape(s: Sys, s': Sys, n: Name)
    requires Shape(s) && Registers(s, s', n)
    ensures Shape(s')
  {
    forall k | k in s'.owner
      ensures Owned(s', k)
    {
      assert Owned(s, k);
    }
    forall k | k in s'.registry
      ensures EntryShape(s', k)
    {
      assert EntryShape(s, k);
    }
  }

  lemma RegistersLedger(s: Sys, s': Sys, n: Name)
    requires Shape(s) && Ledger(s) && Registers(s, s', n)
    ensures Ledger(s')
  {
    assert Owned(s, n);
    forall id
      ensures LedgerAt(s', id)
    {
      assert LedgerAt(s, id);
    }
  }

  lemma RegistersAccounting(s: Sys, s': Sys, n: Name)
    requires Shape(s) && Accounting(s) && Registers(s, s', n)
    ensures Accounting(s')
  {
    forall id | id in s'.leak
      ensures Within(s', id)
    {
      assert Within(s, id);
    }
    forall k | k in s'.owner && s'.owner[k] !in s'.lost
      ensures Balanced(s', k)
    {
      assert Balanced(s, k) && Owned(s, k) && Owned(s, n);
      RegistersBalanced(s, s', n, k);
    }
  }

  lemma RegistersBalanced(s: Sys, s': Sys, n: Name, k: Name)
    requires Registers(s, s', n) && k in s.owner && Balanced(s, k) && Owned(s, k) && Owned(s, n)
    ensures Balanced(s', k)
  {
    assert k != n ==> s.owner[k] != s.owner[n];
  }

  lemma RegistersTight(s: Sys, s': Sys, n: Name)
    requires Shape(s) && Tight(s) && Registers(s, s', n)
    requires forall u :: u in s'.tests ==> Connected(s', u) && Agreeing(s', u)
    ensures Tight(s')
  {
    assert Owned(s, n) && Current(s, s.owner[n]);
    forall id | id in s'.scheduled
      ensures Retired(s', id)
    {
      assert Retired(s, id);
    }
    forall id | id in s'.daemon.created && !Current(s', id)
      ensures id in s'.scheduled
    {
      assert !Current(s, id);
    }
  }

  lemma RegistersInv(s: Sys, s': Sys, n: Name)
    requires Inv(s) && Registers(s, s', n) && Tests(s')
    requires Bounded(s) ==> forall u :: u in s'.tests ==> Connected(s', u) && Agreeing(s', u)
    ensures Inv(s')
  {
    RegistersShape(s, s', n);
    RegistersLedger(s, s', n);
    RegistersAccounting(s, s', n);
    if Bounded(s') {
      assert Bounded(s) by {
        forall id | id in s.peak
          ensures s.peak[id] <= 256
        {
          assert s'.peak[id] <= 256;
        }
      }
      RegistersTight(s, s', n);
    }
  }

  /** `t` gets hold of `p` and is attached to it; the other tests do not change. */
  ghost predicate Holds(s: Sys, s': Sys, t: TestId, p: PendingContainer) {
    && t in s.tests && s'.tests == s.tests[t := s.tests[t].Hold(p)]
    && s'.networks == s.networks && s'.outcome == s.outcome
    && p.id in s'.daemon.created && s'.daemon.created[p.id] == p.name && SharedAs(p, p.name)
    && (forall id :: id in s.daemon.created ==>
          id in s'.daemon.created && s'.daemon.created[id] == s.daemon.created[id])
    && s.daemon.links <= s'.daemon.links
    && (s.tests[t].mode.Isolated? ==> (p.id, s.tests[t].network) in s'.daemon.links)
  }

  lemma HoldsTests(s: Sys, s': Sys, t: TestId, p: PendingContainer)
    requires Tests(s) && Holds(s, s', t, p) && s.tests[t].phase.Using?
    ensures Tests(s')
    ensures forall id :: id != p.id ==> Holders(s'.tests, id) == Holders(s.tests, id)
    ensures forall id :: Removers(s'.tests, id) == Removers(s.tests, id)
    ensures Holders(s'.tests, p.id) == Holders(s.tests, p.id) + {t}
  {
    forall u | u in s'.tests
      ensures TestShape(s', u)
    {
      assert TestShape(s, u);
    }
  }

  lemma HoldsTight(s: Sys, s': Sys, t: TestId, p: PendingContainer)
    requires forall u :: u in s.tests ==> Connected(s, u) && Agreeing(s, u)
    requires Holds(s, s', t, p)
    ensures forall u :: u in s'.tests ==> Connected(s', u) && Agreeing(s', u)
  {
    forall u | u in s'.tests
      ensures Connected(s', u) && Agreeing(s', u)
    {
      assert Connected(s, u) && Agreeing(s, u);
    }
  }

  lemma InvJoinContainer(s: Sys, t: TestId, c: Composition, replies: CreateReplies)
    requires Inv(s) && Enabled(s, Create(t, c, replies))
    requires c.containerName in s.registry
    requires s.registry[c.containerName].status.Pending? || s.registry[c.containerName].status.Operational?
    ensures Inv(NextCreate(s, t, c, replies))
  {
    var s' := NextCreate(s, t, c, replies);
    var r := CreateResult(s, t, c, replies).2;
    if r.Failure? {
      assert s' == s;
    } else {
      JoinRegisters(s, s', t, c, replies, r.value);
      if Bounded(s) {
        TightTests(s);
        HoldsTight(s, s', t, r.value);
      }
      RegistersInv(s, s', c.containerName);
    }
  }

  lemma JoinRegisters(s: Sys, s': Sys, t: TestId, c: Composition, replies: CreateReplies, p: PendingContainer)
    requires Shape(s) && Ledger(s) && Tests(s) && Enabled(s, Create(t, c, replies))
    requires c.containerName in s.registry
    requires s.registry[c.containerName].status.Pending? || s.registry[c.containerName].status.Operational?
    requires s' == NextCreate(s, t, c, replies) && CreateResult(s, t, c, replies).2 == Success(p)
    ensures Holds(s, s', t, p) && Registers(s, s', c.containerName) && Tests(s')
  {
    assert EntryShape(s, c.containerName) && Owned(s, c.containerName);
    JoinHolds(s, s', t, c, replies, p);
    HoldsTests(s, s', t, p);
    if p.id in s.tests[t].held {
      assert Holders(s'.tests, p.id) == Holders(s.tests, p.id);
    } else {
      assert t !in Holders(s.tests, p.id);
    }
  }

  lemma JoinHolds(s: Sys, s': Sys, t: TestId, c: Composition, replies: CreateReplies, p: PendingContainer)
    requires Enabled(s, Create(t, c, replies)) && c.containerName in s.registry
    requires s.registry[c.containerName].status.Pending? || s.registry[c.containerName].status.Operational?
    requires EntryShape(s, c.containerName) && c.containerName in s.owner && Owned(s, c.containerName)
    requires s' == NextCreate(s, t, c, replies) && CreateResult(s, t, c, replies).2 == Success(p)
    ensures Holds(s, s', t, p) && p.id == s.owner[c.containerName]
    ensures s' == s.(registry := s.registry[c.containerName := Counted(s.registry[c.containerName])],
                     daemon := s.daemon.(links := s'.daemon.links), tests := s'.tests,
                     peak := Raised(s.peak, p.id, UsersOf(s'.tests, s'.leak, p.id)), leak := s'.leak)
    ensures s'.leak == if p.id in s.tests[t].held then OneMore(s.leak, p.id) else s.leak
  {
  }

  lemma InvCreateFailed(s: Sys, t: TestId, c: Composition, replies: CreateReplies)
    requires Inv(s) && Enabled(s, Create(t, c, replies))
    requires c.containerName in s.registry && s.registry[c.containerName].status.Failed?
    ensures Inv(NextCreate(s, t, c, replies))
  {
    var n := c.containerName;
    var s' := NextCreate(s, t, c, replies);
    assert EntryShape(s, n);
    if n in s.owner && s.owner[n] !in s.lost {
      assert Owned(s, n);
      WritesTestsSame(s, s');
      if Bounded(s) {
        TightTests(s);
      }
      RegistersInv(s, s', n);
    } else {
      WritesInv(s, s', n, Counted(s.registry[n]));
    }
  }

  lemma WritesTestsSame(s: Sys, s': Sys)
    requires Tests(s) && s'.tests == s.tests && s'.daemon == s.daemon && s'.networks == s.networks
    requires s'.outcome == s.outcome
    ensures Tests(s')
    ensures forall u :: u in s.tests && Connected(s, u) ==> Connected(s', u)
    ensures forall u :: u in s.tests && Agreeing(s, u) ==> Agreeing(s', u)
  {
    forall u | u in s'.tests
      ensures TestShape(s', u)
    {
      assert TestShape(s, u);
    }
  }

  /** A fresh container becomes the owner of `n`, registered once: by its first holder or by a leak. */
  ghost predicate Generating(s: Sys, s': Sys, n: Name, p: PendingContainer) {
    && n !in s.owner && SharedAs(p, n) && p.id !in s.daemon.created
    && s' == s.(registry := s.registry[n := Entry(Pending(p), 1)],
                daemon := s.daemon.(created := s.daemon.created[p.id := n], links := s'.daemon.links),
                owner := s.owner[n := p.id],
                peak := s.peak[p.id := 1], leak := s'.leak, tests := s'.tests)
    && s'.leak.Keys == s.leak.Keys + {p.id}
    && (forall id :: id in s.leak && id != p.id ==> s'.leak[id] == s.leak[id])
    && (forall id :: id != p.id ==> Holders(s'.tests, id) == Holders(s.tests, id))
    && (forall id :: Removers(s'.tests, id) == Removers(s.tests, id))
    && Users(s', p.id) == 1
  }

  lemma GeneratingShape(s: Sys, s': Sys, n: Name, p: PendingContainer)
    requires Shape(s) && Ledger(s) && Generating(s, s', n, p)
    ensures Shape(s')
  {
    assert LedgerAt(s, p.id);
    forall k | k in s'.registry
      ensures EntryShape(s', k)
    {
      if k != n {
        assert EntryShape(s, k) && (k in s.owner ==> Owned(s, k));
      }
    }
    forall k | k in s'.owner
      ensures Owned(s', k)
    {
      assert k != n ==> Owned(s, k);
    }
  }

  lemma GeneratingLedger(s: Sys, s': Sys, n: Name, p: PendingContainer)
    requires Ledger(s) && Generating(s, s', n, p)
    ensures Ledger(s')
  {
    forall id
      ensures LedgerAt(s', id)
    {
      assert LedgerAt(s, id);
    }
  }

  lemma GeneratingAccounting(s: Sys, s': Sys, n: Name, p: PendingContainer)
    requires Shape(s) && Ledger(s) && Accounting(s) && Generating(s, s', n, p)
    ensures Accounting(s')
  {
    forall id | id in s'.leak
      ensures Within(s', id)
    {
      assert id != p.id ==> Within(s, id);
    }
    forall k | k in s'.owner && s'.owner[k] !in s'.lost
      ensures Balanced(s', k)
    {
      assert k != n ==> Balanced(s, k) && Owned(s, k);
    }
  }

  lemma GeneratingTight(s: Sys, s': Sys, n: Name, p: PendingContainer)
    requires Shape(s) && Ledger(s) && Tight(s) && Generating(s, s', n, p)
    requires forall u :: u in s'.tests ==> Connected(s', u) && Agreeing(s', u)
    ensures Tight(s')
  {
    assert LedgerAt(s, p.id);
    forall id | id in s'.scheduled
      ensures Retired(s', id)
    {
      assert Retired(s, id);
    }
    forall id | id in s'.daemon.created && !Current(s', id)
      ensures id in s'.scheduled
    {
      assert !Current(s, id);
    }
  }

  lemma GeneratingInv(s: Sys, s': Sys, n: Name, p: PendingContainer)
    requires Inv(s) && Generating(s, s', n, p) && Tests(s')
    requires Bounded(s) ==> forall u :: u in s'.tests ==> Connected(s', u) && Agreeing(s', u)
    ensures Inv(s')
  {
    GeneratingShape(s, s', n, p);
    GeneratingLedger(s, s', n, p);
    GeneratingAccounting(s, s', n, p);
    if Bounded(s') {
      assert Bounded(s) by {
        forall id | id in s.peak
          ensures s.peak[id] <= 256
        {
          assert s'.peak[id] <= 256;
        }
      }
      GeneratingTight(s, s', n, p);
    }
  }

  lemma InvGenerate(s: Sys, t: TestId, c: Composition, replies: CreateReplies)
    requires Inv(s) && Enabled(s, Create(t, c, replies)) && Generates(s.registry, c.containerName)
    ensures Inv(NextCreate(s, t, c, replies))
  {
    var n := c.containerName;
    var s' := NextCreate(s, t, c, replies);
    assert n !in s.owner by {
      assert n in s.owner ==> Owned(s, n);
      assert n in s.registry ==> EntryShape(s, n);
    }
    if replies.created.Failure? {
      WritesInv(s, s', n, Entry(Failed(replies.created.error, None), 1));
    } else {
      var p := PendingOf(c, replies.created.value);
      var r := CreateResult(s, t, c, replies).2;
      if r.Success? {
        GenerateHolds(s, s', t, c, replies);
        if Bounded(s) {
          TightTests(s);
          HoldsTight(s, s', t, p);
        }
      } else {
        GenerateLeaks(s, s', t, c, replies);
        if Bounded(s) {
          TightTests(s);
        }
      }
      GeneratingInv(s, s', n, p);
    }
  }

  lemma GenerateHolds(s: Sys, s': Sys, t: TestId, c: Composition, replies: CreateReplies)
    requires Ledger(s) && Tests(s) && Enabled(s, Create(t, c, replies)) && Generates(s.registry, c.containerName)
    requires c.containerName !in s.owner
    requires s' == NextCreate(s, t, c, replies) && replies.created.Success?
    requires CreateResult(s, t, c, replies).2.Success?
    ensures Generating(s, s', c.containerName, PendingOf(c, replies.created.value))
    ensures Holds(s, s', t, PendingOf(c, replies.created.value)) && Tests(s')
  {
    var p := PendingOf(c, replies.created.value);
    NobodyHoldsFresh(s, p.id);
    HoldsTests(s, s', t, p);
  }

  lemma GenerateLeaks(s: Sys, s': Sys, t: TestId, c: Composition, replies: CreateReplies)
    requires Ledger(s) && Tests(s) && Enabled(s, Create(t, c, replies)) && Generates(s.registry, c.containerName)
    requires c.containerName !in s.owner
    requires s' == NextCreate(s, t, c, replies) && replies.created.Success?
    requires CreateResult(s, t, c, replies).2.Failure?
    ensures Generating(s, s', c.containerName, PendingOf(c, replies.created.value)) && Tests(s')
    ensures forall u :: u in s.tests && Connected(s, u) ==> Connected(s', u)
    ensures forall u :: u in s.tests && Agreeing(s, u) ==> Agreeing(s', u)
  {
    NobodyHoldsFresh(s, replies.created.value);
    forall u | u in s'.tests
      ensures TestShape(s', u)
    {
      assert TestShape(s, u);
    }
  }

  lemma NobodyHoldsFresh(s: Sys, id: Id)
    requires Tests(s) && id !in s.daemon.created
    ensures Holders(s.tests, id) == {}
  {
    forall u | u in s.tests
      ensures id !in s.tests[u].held
    {
      assert TestShape(s, u);
    }
  }

  lemma InvCreate(s: Sys, t: TestId, c: Composition, replies: CreateReplies)
    requires Inv(s) && Enabled(s, Create(t, c, replies))
    ensures Inv(NextCreate(s, t, c, replies))
  {
    if Generates(s.registry, c.containerName) {
      InvGenerate(s, t, c, replies);
    } else if s.registry[c.containerName].status.Failed? {
      InvCreateFailed(s, t, c, replies);
    } else {
      InvJoinContainer(s, t, c, replies);
    }
  }

  // --- decrement ----------------------------------------------------------------------------------

  lemma InvDecrement(s: Sys, t: TestId)
    requires Inv(s) && Enabled(s, Release(t))
    ensures Inv(NextDecrement(s, t))
  {
    var s' := NextDecrement(s, t);
    DecrementShape(s, s', t);
    DecrementLedger(s, s', t);
    DecrementTests(s, s', t);
    DecrementAccounting(s, s', t);
    if Bounded(s') {
      DecrementTight(s, s', t);
    }
  }

  lemma DecrementHolders(s: Sys, s': Sys, t: TestId)
    requires Enabled(s, Release(t)) && s' == NextDecrement(s, t)
    ensures forall id :: Holders(s'.tests, id) == Holders(s.tests, id) - {t}
    ensures forall id :: Removers(s'.tests, id)
                      == Removers(s.tests, id) + if id in Responsible(s.registry, s.tests[t].held) then {t} else {}
    ensures forall id :: t !in Removers(s.tests, id)
  {
    LetsGo(s.tests, s'.tests, t, Responsible(s.registry, s.tests[t].held));
  }

  /** A test lets go of everything and becomes responsible for some of it. */
  lemma LetsGo(tests: map<TestId, Test>, tests': map<TestId, Test>, t: TestId, responsible: set<Id>)
    requires t in tests && !tests[t].phase.Removing?
    requires tests' == tests[t := tests[t].(phase := Removing(responsible), held := {})]
    ensures forall id :: Holders(tests', id) == Holders(tests, id) - {t}
    ensures forall id :: Removers(tests', id) == Removers(tests, id) + if id in responsible then {t} else {}
    ensures forall id :: t !in Removers(tests, id)
  {
  }

  lemma DecrementShape(s: Sys, s': Sys, t: TestId)
    requires Shape(s) && Enabled(s, Release(t)) && s' == NextDecrement(s, t)
    ensures Shape(s')
  {
    forall n | n in s'.owner
      ensures Owned(s', n)
    {
      assert Owned(s, n);
    }
    forall n | n in s'.registry
      ensures EntryShape(s', n)
    {
      assert EntryShape(s, n);
    }
  }

  lemma DecrementLedger(s: Sys, s': Sys, t: TestId)
    requires Shape(s) && Ledger(s) && Enabled(s, Release(t)) && s' == NextDecrement(s, t)
    ensures Ledger(s')
  {
    DecrementHolders(s, s', t);
    forall id
      ensures LedgerAt(s', id)
    {
      assert LedgerAt(s, id);
      if id in Responsible(s.registry, s.tests[t].held) {
        var n :| n in RetiredNames(s.registry, s.tests[t].held) && s.registry[n].status.ContainerId() == Some(id);
        assert EntryShape(s, n) && (n in s.owner ==> Owned(s, n));
      }
    }
  }

  lemma DecrementTests(s: Sys, s': Sys, t: TestId)
    requires Tests(s) && Enabled(s, Release(t)) && s' == NextDecrement(s, t)
    ensures Tests(s')
  {
    forall u | u in s'.tests
      ensures TestShape(s', u)
    {
      assert TestShape(s, u);
    }
  }

  lemma DecrementAccounting(s: Sys, s': Sys, t: TestId)
    requires Shape(s) && Accounting(s) && Enabled(s, Release(t)) && s' == NextDecrement(s, t)
    ensures Accounting(s')
  {
    DecrementHolders(s, s', t);
    forall id | id in s'.leak
      ensures Within(s', id)
    {
      assert Within(s, id);
    }
    forall n | n in s'.owner && s'.owner[n] !in s'.lost
      ensures Balanced(s', n)
    {
      assert Balanced(s, n) && EntryShape(s, n);
      DecrementBalanced(s, s', t, n);
    }
  }

  lemma DecrementBalanced(s: Sys, s': Sys, t: TestId, n: Name)
    requires Enabled(s, Release(t)) && s' == NextDecrement(s, t)
    requires n in s.owner && n in s'.owner && s.owner[n] !in s.lost
    requires n in s.registry && EntryShape(s, n) && Balanced(s, n)
    requires Holders(s'.tests, s.owner[n]) == Holders(s.tests, s.owner[n]) - {t}
    ensures Balanced(s', n)
  {
    var holders := Holders(s.tests, s.owner[n]);
    assert s.registry[n].status.ContainerId() == Some(s.owner[n]);
    assert t in holders <==> Hit(s.registry[n], s.tests[t].held);
    if t in holders {
      assert |holders - {t}| == |holders| - 1;
      CountDown(Users(s, s.owner[n]), s.registry[n].completionCounter);
    } else {
      assert holders - {t} == holders;
    }
  }

  lemma CountDown(users: nat, c: Counter)
    requires users > 0 && c == users % 256
    ensures Decrement(c) == (users - 1) % 256
  {
  }

  /** A release retires only an entry nobody else uses any more. */
  lemma RetiresUnused(s: Sys, t: TestId, n: Name)
    requires Inv(s) && Bounded(s) && Enabled(s, Release(t))
    requires n in s.registry && LastHit(s.registry[n], s.tests[t].held)
    ensures n in s.owner && s.registry[n].status.ContainerId() == Some(s.owner[n])
    ensures Holders(s.tests, s.owner[n]) == {t} && s.owner[n] in s.leak && s.leak[s.owner[n]] == 0
    ensures s.owner[n] !in s.lost && s.owner[n] !in s.scheduled && s.owner[n] in s.tests[t].held
  {
    var id := s.registry[n].status.ContainerId().value;
    assert EntryShape(s, n) && (n in s.owner ==> Owned(s, n));
    HeldIsCurrent(s, t, id);
    assert Balanced(s, n) && Within(s, id);
    assert t in Holders(s.tests, id);
    OnlyMember(Holders(s.tests, id), t);
  }

  lemma OnlyMember(ts: set<TestId>, t: TestId)
    requires t in ts && |ts| == 1
    ensures ts == {t}
  {
    assert |ts - {t}| == 0;
  }

  lemma DecrementTight(s: Sys, s': Sys, t: TestId)
    requires Inv(s) && Bounded(s) && Enabled(s, Release(t)) && s' == NextDecrement(s, t)
    ensures Tight(s')
  {
    DecrementRetired(s, s', t);
    forall id | id in s'.daemon.created && !Current(s', id)
      ensures id in s'.scheduled
    {
      if Current(s, id) {
        RetiresUnused(s, t, s.daemon.created[id]);
      }
    }
    forall u | u in s'.tests
      ensures Connected(s', u) && Agreeing(s', u)
    {
      assert Connected(s, u) && Agreeing(s, u);
    }
  }

  lemma DecrementRetired(s: Sys, s': Sys, t: TestId)
    requires Inv(s) && Bounded(s) && Enabled(s, Release(t)) && s' == NextDecrement(s, t)
    ensures forall id :: id in s'.scheduled ==> Retired(s', id)
  {
    DecrementHolders(s, s', t);
    var held := s.tests[t].held;
    forall id | id in s'.scheduled
      ensures Retired(s', id)
    {
      if id in Responsible(s.registry, held) {
        var n :| n in RetiredNames(s.registry, held) && s.registry[n].status.ContainerId() == Some(id);
        RetiresUnused(s, t, n);
        assert Owned(s, n);
      } else {
        assert Retired(s, id);
      }
    }
  }

  // --- every run ----------------------------------------------------------------------------------

  lemma InvNext(s: Sys, step: Step)
    requires Inv(s) && Enabled(s, step)
    ensures Inv(Next(s, step))
  {
    match step
    case Join(t, network, mode) => InvJoin(s, t, network, mode);
    case Create(t, c, replies) => InvCreate(s, t, c, replies);
    case Start(t, p, reply) => InvStart(s, t, p, reply);
    case Disconnect(t, complied) => InvDisconnect(s, t, complied);
    case Release(t) => InvDecrement(s, t);
    case Remove(t, id, honoured) => InvRemove(s, t, id, honoured);
  }

  /** The state a sequence of steps leads to, if each step is possible when its turn comes. */
  ghost function Execute(steps: seq<Step>): Option<Sys> {
    if steps == [] then Some(INIT)
    else
      var before := Execute(steps[..|steps| - 1]);
      var step := steps[|steps| - 1];
      if before.Some? && Enabled(before.value, step) then Some(Next(before.value, step)) else None
  }

  lemma InvInit()
    ensures Inv(INIT)
  {
  }

  lemma {:induction false} InvExecute(steps: seq<Step>)
    ensures Execute(steps).Some? ==> Inv(Execute(steps).value)
  {
    if steps == [] {
      InvInit();
    } else if Execute(steps).Some? {
      var before := steps[..|steps| - 1];
      InvExecute(before);
      InvNext(Execute(before).value, steps[|steps| - 1]);
    }
  }
}
