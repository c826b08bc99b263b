/** Every run of the whole process, with all registries and the tests' own containers, is as far as internal
    containers are concerned a run of the internal protocol. So what holds in every run of the protocol holds in
    every run of the process. */
module Simulation {
  import opened Containers
  import Docker
  import Internal = InternalContainers
  import External = ExternalContainers
  import Dynamic = DynamicContainers
  import Statics = StaticContainers
  import Protocol = InternalProtocol
  import opened Process

  // --- the daemon -----------------------------------------------------------------------------------------

  /** Everything the daemon knows is about containers it created. */
  ghost predicate Tidy(d: Docker.State) {
    && (forall id :: id in d.starts || id in d.removals || id in d.removed ==> id in d.created)
    && (forall l :: l in d.links ==> l.0 in d.created)
  }

  ghost predicate SameFate(d: Docker.State, e: Docker.State, id: Id) {
    && d.starts[id] == e.starts[id] && d.removals[id] == e.removals[id]
    && (id in d.removed <==> id in e.removed)
    && forall n :: (id, n) in d.links <==> (id, n) in e.links
  }

  /** `e` is `d` seen through its internal containers. */
  ghost predicate Reflects(usage: Usage, d: Docker.State, e: Docker.State) {
    && Tidy(d) && Tidy(e)
    && forall id {:trigger SameFate(d, e, id)} :: id in e.created ==>
         && id in d.created && d.created[id] == e.created[id] && usage(e.created[id]) == Some(Internal)
         && SameFate(d, e, id)
  }

  lemma BothCreate(usage: Usage, d: Docker.State, e: Docker.State, id: Id, n: Name)
    requires Reflects(usage, d, e) && id !in d.created && usage(n) == Some(Internal)
    ensures id !in e.created && Reflects(usage, d.Create(id, n), e.Create(id, n))
  {
    var d', e' := d.Create(id, n), e.Create(id, n);
    assert id in e.created ==> SameFate(d, e, id);
    forall k | k in e'.created
      ensures k in d'.created && d'.created[k] == e'.created[k] && usage(e'.created[k]) == Some(Internal)
      ensures SameFate(d', e', k)
    {
      assert k != id ==> SameFate(d, e, k);
    }
  }

  lemma BothConnect(usage: Usage, d: Docker.State, e: Docker.State, id: Id, network: NetworkName)
    requires Reflects(usage, d, e) && id in e.created
    ensures Reflects(usage, d.Connect(id, network), e.Connect(id, network))
  {
    var d', e' := d.Connect(id, network), e.Connect(id, network);
    assert SameFate(d, e, id);
    forall k | k in e'.created
      ensures k in d'.created && d'.created[k] == e'.created[k] && usage(e'.created[k]) == Some(Internal)
      ensures SameFate(d', e', k)
    {
      assert SameFate(d, e, k);
    }
  }

  lemma BothStart(usage: Usage, d: Docker.State, e: Docker.State, id: Id)
    requires Reflects(usage, d, e) && id in e.created
    ensures Reflects(usage, d.Start(id), e.Start(id))
  {
    var d', e' := d.Start(id), e.Start(id);
    assert SameFate(d, e, id);
    forall k | k in e'.created
      ensures k in d'.created && d'.created[k] == e'.created[k] && usage(e'.created[k]) == Some(Internal)
      ensures SameFate(d', e', k)
    {
      assert SameFate(d, e, k);
    }
  }

  lemma BothRemove(usage: Usage, d: Docker.State, e: Docker.State, id: Id, honoured: bool)
    requires Reflects(usage, d, e) && id in e.created
    ensures Reflects(usage, d.Remove(id, honoured), e.Remove(id, honoured))
  {
    var d', e' := d.Remove(id, honoured), e.Remove(id, honoured);
    assert SameFate(d, e, id);
    forall k | k in e'.created
      ensures k in d'.created && d'.created[k] == e'.created[k] && usage(e'.created[k]) == Some(Internal)
      ensures SameFate(d', e', k)
    {
      assert SameFate(d, e, k);
    }
  }

  lemma BothDisconnect(usage: Usage, d: Docker.State, e: Docker.State, ids: set<Id>, network: NetworkName)
    requires Reflects(usage, d, e)
    ensures Reflects(usage, d.Disconnect(ids, network), e.Disconnect(ids, network))
  {
    var d', e' := d.Disconnect(ids, network), e.Disconnect(ids, network);
    forall k | k in e'.created
      ensures k in d'.created && d'.created[k] == e'.created[k] && usage(e'.created[k]) == Some(Internal)
      ensures SameFate(d', e', k)
    {
      assert SameFate(d, e, k);
    }
  }

  /** Something happened to containers that are not internal. */
  lemma Elsewhere(usage: Usage, d: Docker.State, e: Docker.State, d': Docker.State)
    requires Reflects(usage, d, e) && Tidy(d') && Remembers(d, d')
    requires forall id :: id in d.created && usage(d.created[id]) == Some(Internal) ==> SameFate(d', d, id)
    ensures Reflects(usage, d', e)
  {
    forall id | id in e.created
      ensures id in d'.created && d'.created[id] == e.created[id] && usage(e.created[id]) == Some(Internal)
      ensures SameFate(d', e, id)
    {
      assert SameFate(d, e, id);
      assert SameFate(d', d, id);
    }
  }

  // --- the tests ------------------------------------------------------------------------------------------

  ghost function InternalOnes(test: Member): set<PendingContainer> {
    set p | p in test.kept && p.management == Some(Internal)
  }

  /** What of a test concerns internal containers. */
  ghost function View(test: Member): Protocol.Test {
    Protocol.Test(test.network, test.mode, test.phase,
                  if test.phase.Removing? then {} else set p | p in InternalOnes(test) :: p.id,
                  InternalOnes(test),
                  set x | x in test.results && x.0.management == Some(Internal))
  }

  ghost function Views(tests: map<TestId, Member>): map<TestId, Protocol.Test> {
    map t | t in tests :: View(tests[t])
  }

  lemma ViewsMore(tests: map<TestId, Member>, t: TestId, test: Member)
    ensures Views(tests[t := test]) == Views(tests)[t := View(test)]
  {
  }

  lemma ViewsSame(tests: map<TestId, Member>, t: TestId, test: Member)
    requires t in tests && View(test) == View(tests[t])
    ensures Views(tests[t := test]) == Views(tests)
  {
  }

  ghost predicate Simulates(usage: Usage, w: World, s: Protocol.Sys) {
    && s.registry == w.statics.internal
    && s.tests == Views(w.tests)
    && Reflects(usage, w.daemon, s.daemon)
    && forall n :: n in s.networks ==> Used(w.tests, n)
  }

  ghost predicate Used(tests: map<TestId, Member>, n: NetworkName) {
    exists t :: t in tests && tests[t].network == n
  }

  lemma StillUsed(tests: map<TestId, Member>, t: TestId, member: Member, n: NetworkName)
    requires Used(tests, n) && (t in tests ==> member.network == tests[t].network)
    ensures Used(tests[t := member], n)
  {
    var tests' := tests[t := member];
    var u :| u in tests && tests[u].network == n;
    assert u in tests' && tests'[u].network == n;
  }

  /** One test of the process and its view change together. */
  lemma Assemble(usage: Usage, w: World, w': World, s: Protocol.Sys, s': Protocol.Sys, t: TestId, member: Member)
    requires Simulates(usage, w, s) && t in w.tests
    requires w'.tests == w.tests[t := member] && member.network == w.tests[t].network
    requires s'.tests == s.tests[t := View(member)] && s'.networks == s.networks
    requires s'.registry == w'.statics.internal && Reflects(usage, w'.daemon, s'.daemon)
    ensures Simulates(usage, w', s')
  {
    ViewsMore(w.tests, t, member);
    forall n | n in s'.networks
      ensures Used(w'.tests, n)
    {
      StillUsed(w.tests, t, member, n);
    }
  }

  /** Of the ids a test hands to cleanup those of internal containers are those it holds. */
  lemma SameTargets(usage: Usage, w: World, t: TestId, id: Id)
    requires Inv(usage, w) && t in w.tests && !w.tests[t].phase.Removing?
    requires id in w.daemon.created && usage(w.daemon.created[id]) == Some(Internal)
    ensures id in w.tests[t].StaticIds() <==> id in View(w.tests[t]).held
  {
    assert TestShape(usage, w, t);
    if id in w.tests[t].StaticIds() {
      assert id !in w.tests[t].external;
      var p :| p in w.tests[t].kept && p.isStatic && p.id == id;
      assert Managed(usage, w, p) && p in InternalOnes(w.tests[t]);
    }
    if id in View(w.tests[t]).held {
      var p :| p in InternalOnes(w.tests[t]) && p.id == id;
      assert Managed(usage, w, p) && p.isStatic;
    }
  }

  // --- step by step ---------------------------------------------------------------------------------------

  lemma SimulateJoin(usage: Usage, w: World, s: Protocol.Sys, t: TestId, network: NetworkName, mode: Network)
    requires Simulates(usage, w, s) && Protocol.Tests(s) && Enabled(usage, w, Join(t, network, mode))
    ensures Protocol.Enabled(s, Protocol.Join(t, network, mode))
    ensures Simulates(usage, Next(w, Join(t, network, mode)), Protocol.NextJoin(s, t, network, mode))
  {
    if network in s.networks {
      var u :| u in w.tests && w.tests[u].network == network;
      assert Protocol.TestShape(s, u);
    }
    var w' := Next(w, Join(t, network, mode));
    var member := Member(network, mode, Protocol.Using, {}, {}, {}, {});
    ViewsMore(w.tests, t, member);
    assert View(member) == Protocol.Test(network, mode, Protocol.Using, {}, {}, {});
    assert w'.tests[t].network == network;
    forall n | n in s.networks
      ensures Used(w'.tests, n)
    {
      StillUsed(w.tests, t, member, n);
    }
  }

  lemma JoinAgrees(usage: Usage, m: Internal.Registry, d: Docker.State, e: Docker.State, c: Composition,
                   p: PendingContainer, network: NetworkName, mode: Network, replies: Internal.CreateReplies)
    requires Reflects(usage, d, e) && c.containerName in m && p.id in e.created
    ensures var (m', d', r) := Internal.JoinSpec(m, d, c, p, Some(network), mode, replies);
            var (n', e', q) := Internal.JoinSpec(m, e, c, p, Some(network), mode, replies);
            m' == n' && r == q && Reflects(usage, d', e')
  {
    BothConnect(usage, d, e, p.id, network);
  }

  lemma GenerateAgrees(usage: Usage, m: Internal.Registry, d: Docker.State, e: Docker.State, c: Composition,
                       network: NetworkName, replies: Internal.CreateReplies)
    requires Reflects(usage, d, e) && Internal.Fresh(d, replies) && usage(c.containerName) == Some(Internal)
    ensures var (m', d', r) := Internal.GenerateSpec(m, d, c, Some(network), replies);
            var (n', e', q) := Internal.GenerateSpec(m, e, c, Some(network), replies);
            m' == n' && r == q && Reflects(usage, d', e')
  {
    if replies.created.Success? {
      var id := replies.created.value;
      BothCreate(usage, d, e, id, c.containerName);
      if replies.connected.Accepted? {
        BothConnect(usage, d.Create(id, c.containerName), e.Create(id, c.containerName), id, network);
      }
    }
  }

  /** The internal registry asks of the daemon the same, whatever else the daemon runs. */
  lemma CreateAgrees(usage: Usage, m: Internal.Registry, d: Docker.State, e: Docker.State, c: Composition,
                     network: NetworkName, mode: Network, replies: Internal.CreateReplies)
    requires Reflects(usage, d, e) && Internal.Fresh(d, replies) && usage(c.containerName) == Some(Internal)
    requires c.containerName in m && (m[c.containerName].status.Pending? || m[c.containerName].status.Operational?) ==>
               m[c.containerName].status.pending.id in e.created
    ensures var (m', d', r) := Internal.CreateSpec(m, d, c, Some(network), mode, replies);
            var (n', e', q) := Internal.CreateSpec(m, e, c, Some(network), mode, replies);
            m' == n' && r == q && Reflects(usage, d', e')
  {
    if c.containerName in m {
      match m[c.containerName].status
      case Pending(p) => JoinAgrees(usage, m, d, e, c, p, network, mode, replies);
      case Operational(_, p) => JoinAgrees(usage, m, d, e, c, p, network, mode, replies);
      case Failed(_, _) =>
      case Cleaned => GenerateAgrees(usage, m, d, e, c, network, replies);
    } else {
      GenerateAgrees(usage, m, d, e, c, network, replies);
    }
  }

  /** A creation gives the test hold of what it returns, if it returns something. */
  lemma CreateHolds(s: Protocol.Sys, t: TestId, c: Composition, replies: Internal.CreateReplies)
    requires t in s.tests
    ensures var r := Protocol.CreateResult(s, t, c, replies).2;
            var s' := Protocol.NextCreate(s, t, c, replies);
            && s'.tests == (if r.Success? then s.tests[t := s.tests[t].Hold(r.value)] else s.tests)
            && s'.networks == s.networks
            && s'.registry == Protocol.CreateResult(s, t, c, replies).0
            && s'.daemon == Protocol.CreateResult(s, t, c, replies).1
  {
    var (m, d, r) := Protocol.CreateResult(s, t, c, replies);
    var s1 := s.(registry := m, daemon := d);
    BookingHolds(s1, s.registry, t, c.containerName, replies.created, r);
  }

  lemma BookingHolds(s: Protocol.Sys, before: Internal.Registry, t: TestId, n: Name, created: Result<Id, Error>,
                     r: Result<PendingContainer, Error>)
    requires t in s.tests
    requires Protocol.Generates(before, n) && created.Failure? ==> r.Failure?
    requires !Protocol.Generates(before, n) && before[n].status.Failed? ==> r.Failure?
    ensures var s' := Protocol.Booked(s, before, t, n, created, r);
            && s'.tests == (if r.Success? then s.tests[t := s.tests[t].Hold(r.value)] else s.tests)
            && s'.networks == s.networks && s'.registry == s.registry && s'.daemon == s.daemon
  {
    if !Protocol.Generates(before, n) && !before[n].status.Failed? && r.Success? {
      assert Protocol.Booked(s, before, t, n, created, r) == Protocol.Joined(s, t, r.value);
    }
  }

  ghost function Answer(r: Result<PendingContainer, Error>): Result<CreatedContainer, Error> {
    if r.Success? then Success(CreatedPending(r.value)) else Failure(r.error)
  }

  lemma AnsweredView(test: Member, c: Composition, r: Result<PendingContainer, Error>)
    requires test.phase.Using? && (r.Success? ==> r.value.management == Some(Internal))
    ensures View(Answered(test, c, Answer(r))) == if r.Success? then View(test).Hold(r.value) else View(test)
  {
    if r.Success? {
      var member := Answered(test, c, Answer(r));
      assert InternalOnes(member) == InternalOnes(test) + {r.value};
      assert View(member).held == View(test).held + {r.value.id};
    }
  }

  /** Creating an internal container, piece by piece. */
  lemma CreatedInternally(w: World, t: TestId, c: Composition, replies: Statics.CreateReplies)
    requires t in w.tests && c.management == Some(Internal)
    ensures var w' := Next(w, CreateStatic(t, c, replies));
            var (m, d, r) := Internal.CreateSpec(w.statics.internal, w.daemon, c, Some(w.tests[t].network),
                                                 w.tests[t].mode, replies.internal);
            && w'.statics.internal == m && w'.daemon == d
            && w'.tests == w.tests[t := Answered(w.tests[t], c, Answer(r))]
  {
  }

  lemma CreatedIsInternal(usage: Usage, w: World, c: Composition, network: NetworkName, mode: Network,
                          replies: Internal.CreateReplies)
    requires c.management == Some(Internal) && Internal.Fresh(w.daemon, replies)
    requires c.containerName in w.statics.internal ==> InternalShape(usage, w, c.containerName)
    ensures var r := Internal.CreateSpec(w.statics.internal, w.daemon, c, Some(network), mode, replies).2;
            r.Success? ==> r.value.management == Some(Internal)
  {
  }

  lemma SimulateCreate(usage: Usage, w: World, s: Protocol.Sys, t: TestId, c: Composition,
                       replies: Statics.CreateReplies)
    requires Simulates(usage, w, s) && Protocol.Shape(s) && Inv(usage, w)
    requires Enabled(usage, w, CreateStatic(t, c, replies)) && c.management == Some(Internal)
    ensures Protocol.Enabled(s, Protocol.Create(t, c, replies.internal))
    ensures Simulates(usage, Next(w, CreateStatic(t, c, replies)), Protocol.NextCreate(s, t, c, replies.internal))
  {
    var w' := Next(w, CreateStatic(t, c, replies));
    var s' := Protocol.NextCreate(s, t, c, replies.internal);
    var (network, mode) := (w.tests[t].network, w.tests[t].mode);
    EntryIsThere(s, c.containerName);
    FreshThere(usage, w.daemon, s.daemon, replies.internal);
    CreatedInternally(w, t, c, replies);
    CreateHolds(s, t, c, replies.internal);
    CreateAgrees(usage, s.registry, w.daemon, s.daemon, c, network, mode, replies.internal);
    var r := Internal.CreateSpec(s.registry, s.daemon, c, Some(network), mode, replies.internal).2;
    CreatedIsInternal(usage, w, c, network, mode, replies.internal);
    AnsweredView(w.tests[t], c, r);
    assert s.tests[t := View(w.tests[t])] == s.tests;
    Assemble(usage, w, w', s, s', t, Answered(w.tests[t], c, Answer(r)));
  }

  lemma EntryIsThere(s: Protocol.Sys, n: Name)
    requires Protocol.Shape(s)
    ensures n in s.registry && (s.registry[n].status.Pending? || s.registry[n].status.Operational?) ==>
              s.registry[n].status.pending.id in s.daemon.created
  {
    assert n in s.registry ==> Protocol.EntryShape(s, n);
    assert n in s.owner ==> Protocol.Owned(s, n);
  }

  lemma KnownBoth(usage: Usage, d: Docker.State, e: Docker.State, id: Id)
    requires Reflects(usage, d, e)
    ensures id in e.created ==> id in d.created && SameFate(d, e, id)
  {
    assert id in e.created ==> SameFate(d, e, id);
  }

  lemma FreshThere(usage: Usage, d: Docker.State, e: Docker.State, replies: Internal.CreateReplies)
    requires Reflects(usage, d, e) && Internal.Fresh(d, replies)
    ensures Internal.Fresh(e, replies)
  {
    if replies.created.Success? {
      KnownBoth(usage, d, e, replies.created.value);
    }
  }

  lemma StartAgrees(usage: Usage, m: Internal.Registry, d: Docker.State, e: Docker.State, p: PendingContainer,
                    reply: Docker.Reply)
    requires Reflects(usage, d, e)
    requires p.name in m && m[p.name].status.Pending? ==> m[p.name].status.pending.id in e.created
    ensures var (m', d', r) := Internal.StartSpec(m, d, p, reply);
            var (n', e', q) := Internal.StartSpec(m, e, p, reply);
            m' == n' && r == q && Reflects(usage, d', e')
  {
    if p.name in m && m[p.name].status.Pending? {
      BothStart(usage, d, e, m[p.name].status.pending.id);
    }
  }

  lemma StartedInternally(w: World, t: TestId, p: PendingContainer, reply: Docker.Reply)
    requires t in w.tests && p.management == Some(Internal)
    ensures var w' := Next(w, StartStatic(t, p, reply));
            var (m, d, r) := Internal.StartSpec(w.statics.internal, w.daemon, p, reply);
            && w'.statics.internal == m && w'.daemon == d
            && w'.tests == if w.tests[t].phase.Removing? then w.tests
                           else w.tests[t := w.tests[t].(results := w.tests[t].results + {(p, r)})]
  {
  }

  lemma ProtocolStarts(s: Protocol.Sys, t: TestId, p: PendingContainer, reply: Docker.Reply)
    requires t in s.tests
    ensures var s' := Protocol.NextStart(s, t, p, reply);
            var (m, d, r) := Internal.StartSpec(s.registry, s.daemon, p, reply);
            && s'.registry == m && s'.daemon == d && s'.networks == s.networks
            && s'.tests == if p.id in s.tests[t].held
                           then s.tests[t := s.tests[t].(results := s.tests[t].results + {(p, r)})] else s.tests
  {
    var (m, d, r) := Internal.StartSpec(s.registry, s.daemon, p, reply);
    var tests := if p.id in s.tests[t].held
                 then s.tests[t := s.tests[t].(results := s.tests[t].results + {(p, r)})] else s.tests;
    Protocol.SettlingKeeps(s.(registry := m, daemon := d, tests := tests), s.registry, p, r);
  }

  lemma SimulateStart(usage: Usage, w: World, s: Protocol.Sys, t: TestId, p: PendingContainer, reply: Docker.Reply)
    requires Simulates(usage, w, s) && Protocol.Shape(s)
    requires Enabled(usage, w, StartStatic(t, p, reply)) && p.management == Some(Internal)
    ensures Protocol.Enabled(s, Protocol.Start(t, p, reply))
    ensures Simulates(usage, Next(w, StartStatic(t, p, reply)), Protocol.NextStart(s, t, p, reply))
  {
    var w' := Next(w, StartStatic(t, p, reply));
    var s' := Protocol.NextStart(s, t, p, reply);
    assert p in InternalOnes(w.tests[t]);
    EntryIsThere(s, p.name);
    StartedInternally(w, t, p, reply);
    ProtocolStarts(s, t, p, reply);
    StartAgrees(usage, s.registry, w.daemon, s.daemon, p, reply);
    var r := Internal.StartSpec(s.registry, s.daemon, p, reply).2;
    StartView(w.tests[t], p, r);
    if w.tests[t].phase.Removing? {
      assert s.tests[t := View(w.tests[t])] == s.tests && w.tests[t := w.tests[t]] == w.tests;
      Assemble(usage, w, w', s, s', t, w.tests[t]);
    } else {
      Assemble(usage, w, w', s, s', t, w.tests[t].(results := w.tests[t].results + {(p, r)}));
    }
  }

  lemma StartView(test: Member, p: PendingContainer, r: Protocol.StartResult)
    requires p in InternalOnes(test)
    ensures p.id in View(test).held <==> !test.phase.Removing?
    ensures View(test.(results := test.results + {(p, r)}))
         == View(test).(results := View(test).results + {(p, r)})
  {
    var test' := test.(results := test.results + {(p, r)});
    assert InternalOnes(test') == InternalOnes(test);
    assert View(test').results == View(test).results + {(p, r)};
  }

  lemma PhaseView(test: Member, phase: Protocol.Phase)
    ensures View(test.(phase := phase)) == View(test).(phase := phase, held := View(test.(phase := phase)).held)
    ensures !phase.Removing? && !test.phase.Removing? ==> View(test.(phase := phase)).held == View(test).held
  {
    assert InternalOnes(test.(phase := phase)) == InternalOnes(test);
  }

  lemma SimulateDisconnect(usage: Usage, w: World, s: Protocol.Sys, t: TestId, complied: set<Id>)
    requires Simulates(usage, w, s) && Protocol.Shape(s) && Inv(usage, w) && Enabled(usage, w, Disconnect(t, complied))
    ensures Protocol.Enabled(s, Protocol.Disconnect(t, complied))
    ensures Simulates(usage, Next(w, Disconnect(t, complied)), Protocol.NextDisconnect(s, t, complied))
  {
    SameDisconnects(usage, w, s, t);
    BothDisconnect(usage, w.daemon, s.daemon,
                   Internal.DisconnectTargets(s.registry, s.tests[t].held) * complied, w.tests[t].network);
    PhaseView(w.tests[t], Protocol.Disconnected);
    Assemble(usage, w, Next(w, Disconnect(t, complied)), s, Protocol.NextDisconnect(s, t, complied), t,
             w.tests[t].(phase := Protocol.Disconnected));
  }

  lemma SameDisconnects(usage: Usage, w: World, s: Protocol.Sys, t: TestId)
    requires Simulates(usage, w, s) && Protocol.Shape(s) && Inv(usage, w) && t in w.tests && w.tests[t].phase.Using?
    ensures Internal.DisconnectTargets(s.registry, w.tests[t].StaticIds())
         == Internal.DisconnectTargets(s.registry, s.tests[t].held)
  {
    forall n | n in s.registry && s.registry[n].status.Operational?
      ensures var id := s.registry[n].status.running.id;
              id in w.tests[t].StaticIds() <==> id in s.tests[t].held
    {
      assert Protocol.EntryShape(s, n) && InternalShape(usage, w, n);
      SameTargets(usage, w, t, s.registry[n].status.running.id);
    }
  }

  lemma SimulateRelease(usage: Usage, w: World, s: Protocol.Sys, t: TestId)
    requires Simulates(usage, w, s) && Inv(usage, w) && Enabled(usage, w, Release(t))
    ensures Protocol.Enabled(s, Protocol.Release(t))
    ensures Simulates(usage, Next(w, Release(t)), Protocol.NextDecrement(s, t))
  {
    SameReleases(usage, w, s, t);
    var phase := Protocol.Removing(Internal.Responsible(s.registry, s.tests[t].held));
    PhaseView(w.tests[t], phase);
    Assemble(usage, w, Next(w, Release(t)), s, Protocol.NextDecrement(s, t), t, w.tests[t].(phase := phase));
  }

  lemma SameReleases(usage: Usage, w: World, s: Protocol.Sys, t: TestId)
    requires Simulates(usage, w, s) && Inv(usage, w) && t in w.tests && w.tests[t].phase.Disconnected?
    ensures var (ids, held) := (w.tests[t].StaticIds(), s.tests[t].held);
            && Internal.DecrementSpec(s.registry, ids) == Internal.DecrementSpec(s.registry, held)
            && Internal.Responsible(s.registry, ids) == Internal.Responsible(s.registry, held)
  {
    var m := s.registry;
    var ids, held := w.tests[t].StaticIds(), s.tests[t].held;
    forall n | n in m
      ensures Internal.Hit(m[n], ids) <==> Internal.Hit(m[n], held)
    {
      assert InternalShape(usage, w, n);
      if m[n].status.ContainerId().Some? {
        SameTargets(usage, w, t, m[n].status.ContainerId().value);
      }
    }
    assert Internal.RetiredNames(m, ids) == Internal.RetiredNames(m, held);
  }

  lemma SimulateRemove(usage: Usage, w: World, s: Protocol.Sys, t: TestId, id: Id, honoured: bool)
    requires Simulates(usage, w, s) && Protocol.Ledger(s) && Enabled(usage, w, RemoveInternal(t, id, honoured))
    ensures Protocol.Enabled(s, Protocol.Remove(t, id, honoured))
    ensures Simulates(usage, Next(w, RemoveInternal(t, id, honoured)), Protocol.NextRemove(s, t, id, honoured))
  {
    assert Protocol.LedgerAt(s, id) && t in Protocol.Removers(s.tests, id);
    BothRemove(usage, w.daemon, s.daemon, id, honoured);
    var phase := Protocol.Removing(s.tests[t].phase.todo - {id});
    PhaseView(w.tests[t], phase);
    Assemble(usage, w, Next(w, RemoveInternal(t, id, honoured)), s, Protocol.NextRemove(s, t, id, honoured), t,
             w.tests[t].(phase := phase));
  }

  // --- steps the protocol does not see --------------------------------------------------------------------

  /** A step that leaves internal containers alone. */
  ghost predicate Unseen(usage: Usage, w: World, w': World) {
    && w'.statics.internal == w.statics.internal
    && Views(w'.tests) == Views(w.tests) && w'.tests.Keys == w.tests.Keys
    && (forall u :: u in w.tests ==> w'.tests[u].network == w.tests[u].network)
    && Remembers(w.daemon, w'.daemon)
    && (Tidy(w.daemon) ==> Tidy(w'.daemon))
    && (forall id :: id in w.daemon.created && usage(w.daemon.created[id]) == Some(Internal) ==>
          SameFate(w'.daemon, w.daemon, id))
  }

  lemma SimulateUnseen(usage: Usage, w: World, w': World, s: Protocol.Sys)
    requires Simulates(usage, w, s) && Unseen(usage, w, w')
    ensures Simulates(usage, w', s)
  {
    Elsewhere(usage, w.daemon, s.daemon, w'.daemon);
    forall n | n in s.networks
      ensures Used(w'.tests, n)
    {
      var u :| u in w.tests && w.tests[u].network == n;
      assert w'.tests[u].network == n;
    }
  }

  ghost predicate Foreign(usage: Usage, d: Docker.State, id: Id) {
    id in d.created && usage(d.created[id]) != Some(Internal)
  }

  /** The daemon did something to one container that is not internal, or made a new one. */
  ghost predicate Away(usage: Usage, d: Docker.State, d': Docker.State) {
    && Remembers(d, d') && (Tidy(d) ==> Tidy(d'))
    && (forall id :: id in d.created && usage(d.created[id]) == Some(Internal) ==> SameFate(d', d, id))
  }

  lemma AwayTwice(usage: Usage, d: Docker.State, d1: Docker.State, d2: Docker.State)
    requires Away(usage, d, d1) && Away(usage, d1, d2)
    ensures Away(usage, d, d2)
  {
    forall id | id in d.created && usage(d.created[id]) == Some(Internal)
      ensures SameFate(d2, d, id)
    {
      assert SameFate(d1, d, id) && SameFate(d2, d1, id);
    }
  }

  lemma AwayOps(usage: Usage, d: Docker.State, id: Id, n: Name, network: NetworkName, honoured: bool)
    ensures id !in d.created ==> Away(usage, d, d.Create(id, n))
    ensures Foreign(usage, d, id) ==> Away(usage, d, d.Connect(id, network))
    ensures Foreign(usage, d, id) ==> Away(usage, d, d.Start(id))
    ensures Foreign(usage, d, id) ==> Away(usage, d, d.Remove(id, honoured))
  {
  }

  lemma UnseenExternal(usage: Usage, w: World, t: TestId, c: Composition, replies: Statics.CreateReplies)
    requires Inv(usage, w) && Enabled(usage, w, CreateStatic(t, c, replies)) && c.management == Some(External)
    ensures Unseen(usage, w, Next(w, CreateStatic(t, c, replies)))
  {
    var w' := Next(w, CreateStatic(t, c, replies));
    var n := c.containerName;
    assert n in w.statics.external ==> ExternalShape(usage, w, n);
    ExternalAway(usage, w.statics.external, w.daemon, c, w.tests[t].network, w.tests[t].mode, replies.external);
    assert InternalOnes(w'.tests[t]) == InternalOnes(w.tests[t]);
    ViewsSame(w.tests, t, w'.tests[t]);
  }

  lemma ExternalAway(usage: Usage, m: External.Registry, d: Docker.State, c: Composition, network: NetworkName,
                     mode: Network, replies: External.IncludeReplies)
    requires usage(c.containerName) == Some(External)
    requires c.containerName in m ==> Foreign(usage, d, m[c.containerName].id)
    requires replies.inspected.Success? ==> Honest(d, c.containerName, replies.inspected.value)
    ensures Away(usage, d, External.IncludeSpec(m, d, c, Some(network), mode, replies).1)
  {
    if c.containerName in m {
      AwayOps(usage, d, m[c.containerName].id, c.containerName, network, true);
    } else if replies.inspected.Success? && replies.inspected.value.Some? {
      AwayOps(usage, d, replies.inspected.value.value, c.containerName, network, true);
    }
  }

  lemma UnseenDynamic(usage: Usage, w: World, t: TestId, c: Composition, replies: Statics.CreateReplies)
    requires Inv(usage, w) && Enabled(usage, w, CreateStatic(t, c, replies)) && c.management == Some(Dynamic)
    ensures Unseen(usage, w, Next(w, CreateStatic(t, c, replies)))
  {
    var w' := Next(w, CreateStatic(t, c, replies));
    var n := c.containerName;
    assert n in w.statics.dynamic ==> DynamicShape(usage, w, n);
    DynamicAway(usage, w.statics.dynamic, w.daemon, c, w.tests[t].network, w.tests[t].mode, replies.dynamic);
    var (m', d', r) := Dynamic.CreateSpec(w.statics.dynamic, w.daemon, c, Some(w.tests[t].network), w.tests[t].mode,
                                          replies.dynamic);
    DynamicCreates(w.statics.dynamic, w.daemon, c, w.tests[t].network, w.tests[t].mode, replies.dynamic);
    DynamicShapes(usage, w, w', c, r);
    assert r.Success? && r.value.CreatedPending? ==> r.value.pending.management == Some(Dynamic);
    NothingInternal(w.tests[t], c, r);
    ViewsSame(w.tests, t, w'.tests[t]);
  }

  lemma NothingInternal(test: Member, c: Composition, r: Result<CreatedContainer, Error>)
    requires r.Success? && r.value.CreatedPending? ==> r.value.pending.management != Some(Internal)
    ensures InternalOnes(Answered(test, c, r)) == InternalOnes(test)
  {
  }

  ghost function EntryId(status: Dynamic.Status): Option<Id> {
    match status
    case RunningPrior(r) => Some(r.id)
    case Running(_, p) => Some(p.id)
    case Pending(p) => Some(p.id)
    case Failed(_) => None
  }

  lemma DynamicAway(usage: Usage, m: Dynamic.Registry, d: Docker.State, c: Composition, network: NetworkName,
                    mode: Network, replies: Dynamic.CreateReplies)
    requires usage(c.containerName) == Some(Dynamic) && Dynamic.Fresh(d, replies)
    requires c.containerName in m && EntryId(m[c.containerName]).Some? ==>
               Foreign(usage, d, EntryId(m[c.containerName]).value)
    requires replies.inspected.Found? ==> Honest(d, c.containerName, replies.inspected.id)
    ensures Away(usage, d, Dynamic.CreateSpec(m, d, c, Some(network), mode, replies).1)
  {
    var n := c.containerName;
    if n in m {
      if EntryId(m[n]).Some? {
        AwayOps(usage, d, EntryId(m[n]).value, n, network, true);
      }
    } else if replies.inspected.Found? {
      AdoptAway(usage, m, d, c, replies.inspected.id, replies.inspected.stopped, network, replies);
    } else if replies.inspected.NotFound? {
      GenerateAway(usage, m, d, c, network, replies);
    }
  }

  lemma AdoptAway(usage: Usage, m: Dynamic.Registry, d: Docker.State, c: Composition, found: Option<Id>, stopped: bool,
                  network: NetworkName, replies: Dynamic.CreateReplies)
    requires usage(c.containerName) == Some(Dynamic) && Honest(d, c.containerName, found)
    ensures Away(usage, d, Dynamic.AdoptSpec(m, d, c, found, stopped, Some(network), replies).1)
  {
    if found.Some? {
      AwayOps(usage, d, found.value, c.containerName, network, true);
      var d1 := if stopped then d.Remove(found.value, true) else d;
      assert Away(usage, d, d1);
      AwayOps(usage, d1, found.value, c.containerName, network, true);
      AwayTwice(usage, d, d1, d1.Connect(found.value, network));
    }
  }

  lemma GenerateAway(usage: Usage, m: Dynamic.Registry, d: Docker.State, c: Composition, network: NetworkName,
                     replies: Dynamic.CreateReplies)
    requires usage(c.containerName) == Some(Dynamic) && Dynamic.Fresh(d, replies)
    ensures Away(usage, d, Dynamic.GenerateSpec(m, d, c, Some(network), replies).1)
  {
    if replies.created.Success? {
      var id := replies.created.value;
      AwayOps(usage, d, id, c.containerName, network, true);
      var d1 := d.Create(id, c.containerName);
      AwayOps(usage, d1, id, c.containerName, network, true);
      AwayTwice(usage, d, d1, d1.Connect(id, network));
    }
  }

  lemma UnseenOwn(usage: Usage, w: World, t: TestId, c: Composition, prior: Option<Id>, created: Result<Id, Error>)
    requires Inv(usage, w) && Enabled(usage, w, CreateOwn(t, c, prior, created))
    ensures Unseen(usage, w, Next(w, CreateOwn(t, c, prior, created)))
  {
    var w' := Next(w, CreateOwn(t, c, prior, created));
    var d := if prior.Some? then w.daemon.Remove(prior.value, true) else w.daemon;
    if prior.Some? {
      AwayOps(usage, w.daemon, prior.value, c.containerName, w.tests[t].network, true);
    }
    if created.Success? {
      AwayOps(usage, d, created.value, c.containerName, w.tests[t].network, true);
      AwayTwice(usage, w.daemon, d, w'.daemon);
      assert InternalOnes(w'.tests[t]) == InternalOnes(w.tests[t]);
      ViewsSame(w.tests, t, w'.tests[t]);
    }
  }

  lemma UnseenStart(usage: Usage, w: World, t: TestId, p: PendingContainer, reply: Docker.Reply)
    requires Inv(usage, w) && Enabled(usage, w, StartStatic(t, p, reply)) && p.management != Some(Internal)
    ensures Unseen(usage, w, Next(w, StartStatic(t, p, reply)))
  {
    var w' := Next(w, StartStatic(t, p, reply));
    assert TestShape(usage, w, t) && Managed(usage, w, p);
    StartedElsewhere(w, t, p, reply);
    if p.management == Some(Dynamic) {
      assert DynamicShape(usage, w, p.name);
      DynamicStartAway(usage, w.statics.dynamic, w.daemon, p, w.tests[t].network, reply);
    }
    OtherView(w.tests[t], w'.tests[t]);
    ViewsSame(w.tests, t, w'.tests[t]);
  }

  lemma StartedElsewhere(w: World, t: TestId, p: PendingContainer, reply: Docker.Reply)
    requires t in w.tests && p.management != Some(Internal)
    ensures var w' := Next(w, StartStatic(t, p, reply));
            && w'.statics.internal == w.statics.internal
            && w'.daemon == (if p.management == Some(Dynamic)
                             then Dynamic.StartSpec(w.statics.dynamic, w.daemon, p, reply).1 else w.daemon)
            && t in w'.tests && w'.tests == w.tests[t := w'.tests[t]]
            && w'.tests[t] == w.tests[t].(results := w'.tests[t].results)
            && forall x :: x in w'.tests[t].results && x !in w.tests[t].results ==> x.0 == p
    ensures w.tests[t].results <= Next(w, StartStatic(t, p, reply)).tests[t].results
  {
    assert w.tests == w.tests[t := w.tests[t]];
  }

  lemma OtherView(test: Member, test': Member)
    requires test' == test.(results := test'.results) && test.results <= test'.results
    requires forall x :: x in test'.results && x !in test.results ==> x.0.management != Some(Internal)
    ensures View(test') == View(test)
  {
    assert InternalOnes(test') == InternalOnes(test);
    assert View(test').results == View(test).results;
  }

  lemma DynamicStartAway(usage: Usage, m: Dynamic.Registry, d: Docker.State, p: PendingContainer,
                         network: NetworkName, reply: Docker.Reply)
    requires p.name in m && (m[p.name].Pending? ==> Foreign(usage, d, m[p.name].pending.id))
    ensures Away(usage, d, Dynamic.StartSpec(m, d, p, reply).1)
  {
    if m[p.name].Pending? {
      AwayOps(usage, d, m[p.name].pending.id, p.name, network, true);
    }
  }

  lemma UnseenDisconnect(usage: Usage, w: World, t: TestId, complied: set<Id>)
    requires Inv(usage, w) && Enabled(usage, w, DisconnectExternal(t, complied))
    ensures Unseen(usage, w, Next(w, DisconnectExternal(t, complied)))
  {
    forall id | id in External.DisconnectTargets(w.statics.external, w.tests[t].StaticIds())
      ensures Foreign(usage, w.daemon, id)
    {
      var n :| n in w.statics.external && w.statics.external[n].id == id;
      assert ExternalShape(usage, w, n);
    }
  }

  lemma UnseenPrune(usage: Usage, w: World, t: TestId, complied: set<Id>)
    requires Inv(usage, w) && Enabled(usage, w, Prune(t, complied))
    ensures Unseen(usage, w, Next(w, Prune(t, complied)))
  {
    assert TestShape(usage, w, t);
    forall id | id in w.tests[t].OwnIds()
      ensures Foreign(usage, w.daemon, id)
    {
      var p :| p in w.tests[t].kept && !p.isStatic && p.id == id;
      assert Managed(usage, w, p);
    }
  }

  // --- whole runs -----------------------------------------------------------------------------------------

  lemma UnseenStep(usage: Usage, w: World, step: Step)
    requires Inv(usage, w) && Enabled(usage, w, step) && !Concerns(step)
    ensures Unseen(usage, w, Next(w, step))
  {
    match step
    case Outside(id, name) => OutsideAway(usage, w.daemon, id, name);
    case CreateStatic(t, c, replies) =>
      match c.management.value {
        case External => UnseenExternal(usage, w, t, c, replies);
        case Dynamic => UnseenDynamic(usage, w, t, c, replies);
      }
    case CreateOwn(t, c, prior, created) => UnseenOwn(usage, w, t, c, prior, created);
    case StartStatic(t, p, reply) => UnseenStart(usage, w, t, p, reply);
    case DisconnectExternal(t, complied) => UnseenDisconnect(usage, w, t, complied);
    case Prune(t, complied) => UnseenPrune(usage, w, t, complied);
  }

  lemma OutsideAway(usage: Usage, d: Docker.State, id: Id, name: Name)
    requires id !in d.created
    ensures Away(usage, d, d.Create(id, name))
  {
  }

  /** The steps that have a counterpart in the protocol. */
  predicate Concerns(step: Step) {
    || (step.CreateStatic? && step.c.management == Some(Internal))
    || (step.StartStatic? && step.p.management == Some(Internal))
    || step.Join? || step.Disconnect? || step.Release? || step.RemoveInternal?
  }

  function Counterpart(step: Step): Protocol.Step
    requires Concerns(step)
  {
    match step
    case Join(t, network, mode) => Protocol.Join(t, network, mode)
    case CreateStatic(t, c, replies) => Protocol.Create(t, c, replies.internal)
    case StartStatic(t, p, reply) => Protocol.Start(t, p, reply)
    case Disconnect(t, complied) => Protocol.Disconnect(t, complied)
    case Release(t) => Protocol.Release(t)
    case RemoveInternal(t, id, honoured) => Protocol.Remove(t, id, honoured)
  }

  lemma SimulateStep(usage: Usage, w: World, s: Protocol.Sys, step: Step)
    requires Simulates(usage, w, s) && Protocol.Inv(s) && Inv(usage, w) && Enabled(usage, w, step)
    requires Concerns(step)
    ensures Protocol.Enabled(s, Counterpart(step))
    ensures Simulates(usage, Next(w, step), Protocol.Next(s, Counterpart(step)))
  {
    match step
    case Join(t, network, mode) => SimulateJoin(usage, w, s, t, network, mode);
    case CreateStatic(t, c, replies) => SimulateCreate(usage, w, s, t, c, replies);
    case StartStatic(t, p, reply) => SimulateStart(usage, w, s, t, p, reply);
    case _ => SimulateCleanup(usage, w, s, step);
  }

  lemma SimulateCleanup(usage: Usage, w: World, s: Protocol.Sys, step: Step)
    requires Simulates(usage, w, s) && Protocol.Inv(s) && Inv(usage, w) && Enabled(usage, w, step)
    requires step.Disconnect? || step.Release? || step.RemoveInternal?
    ensures Protocol.Enabled(s, Counterpart(step))
    ensures Simulates(usage, Next(w, step), Protocol.Next(s, Counterpart(step)))
  {
    match step
    case Disconnect(t, complied) => SimulateDisconnect(usage, w, s, t, complied);
    case Release(t) => SimulateRelease(usage, w, s, t);
    case RemoveInternal(t, id, honoured) => SimulateRemove(usage, w, s, t, id, honoured);
  }

  /** A run of the process, seen through its internal containers. */
  function Projection(steps: seq<Step>): seq<Protocol.Step> {
    if steps == [] then []
    else
      var step := steps[|steps| - 1];
      var before := Projection(steps[..|steps| - 1]);
      if Concerns(step) then before + [Counterpart(step)] else before
  }

  /** The projection of a run of the process is a run of the protocol, and ends in what the process shows. */
  lemma {:induction false} Simulated(usage: Usage, steps: seq<Step>, w: World) returns (s: Protocol.Sys)
    requires Execute(usage, INIT, steps) == Some(w)
    ensures Protocol.Execute(Projection(steps)) == Some(s) && Simulates(usage, w, s)
  {
    if steps == [] {
      s := Protocol.INIT;
    } else {
      var before, step := steps[..|steps| - 1], steps[|steps| - 1];
      assert steps == before + [step];
      var w1 := LastStep(usage, INIT, steps);
      s := Simulated(usage, before, w1);
      s := SimulatedMore(usage, before, w1, step, s);
    }
  }

  /** How the protocol follows a step of the process. */
  ghost predicate Follows(s: Protocol.Sys, step: Step, s': Protocol.Sys) {
    if Concerns(step) then Protocol.Enabled(s, Counterpart(step)) && s' == Protocol.Next(s, Counterpart(step))
    else s' == s
  }

  /** One step more on both sides. */
  lemma SimulatedMore(usage: Usage, before: seq<Step>, w1: World, step: Step, s1: Protocol.Sys)
    returns (s: Protocol.Sys)
    requires Execute(usage, INIT, before) == Some(w1) && Enabled(usage, w1, step)
    requires Protocol.Execute(Projection(before)) == Some(s1) && Simulates(usage, w1, s1)
    ensures Protocol.Execute(Projection(before + [step])) == Some(s) && Simulates(usage, Next(w1, step), s)
    ensures Follows(s1, step, s)
  {
    ProjectionMore(before, step);
    InvExecute(usage, INIT, before, w1);
    s := Followed(usage, w1, Projection(before), s1, step);
  }

  lemma ProjectionMore(before: seq<Step>, step: Step)
    ensures Projection(before + [step])
         == if Concerns(step) then Projection(before) + [Counterpart(step)] else Projection(before)
  {
    assert (before + [step])[..|before|] == before;
  }

  lemma Followed(usage: Usage, w: World, run: seq<Protocol.Step>, s: Protocol.Sys, step: Step)
    returns (s': Protocol.Sys)
    requires Protocol.Execute(run) == Some(s) && Simulates(usage, w, s) && Inv(usage, w) && Enabled(usage, w, step)
    ensures Simulates(usage, Next(w, step), s') && Follows(s, step, s')
    ensures Protocol.Execute(if Concerns(step) then run + [Counterpart(step)] else run) == Some(s')
  {
    if Concerns(step) {
      Protocol.InvExecute(run);
      SimulateStep(usage, w, s, step);
      s' := OneStep(run, s, Counterpart(step));
    } else {
      UnseenStep(usage, w, step);
      SimulateUnseen(usage, w, Next(w, step), s);
      s' := s;
    }
  }

  lemma OneStep(run: seq<Protocol.Step>, s: Protocol.Sys, step: Protocol.Step) returns (s': Protocol.Sys)
    requires Protocol.Execute(run) == Some(s) && Protocol.Enabled(s, step)
    ensures s' == Protocol.Next(s, step) && Protocol.Execute(run + [step]) == Some(s')
  {
    s' := Protocol.Next(s, step);
    assert (run + [step])[..|run|] == run;
  }
}
