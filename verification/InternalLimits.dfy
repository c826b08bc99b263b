/** Where the promises of the internal registry end: concrete runs, and the exact conditions they violate. */
module InternalLimits {
  import opened Containers
  import Docker
  import opened InternalContainers
  import opened InternalProtocol
  import opened InternalTheorems

  lemma OneStepMore(steps: seq<Step>, s: Sys, step: Step)
    requires Execute(steps) == Some(s) && Enabled(s, step)
    ensures Execute(steps + [step]) == Some(Next(s, step))
  {
    assert (steps + [step])[..|steps|] == steps;
  }

  // --- a start that outlives its test ---------------------------------------------------------------

  /** The entry of `n` remembers another id than that of the container it stands for. */
  ghost predicate Forgets(s: Sys, n: Name) {
    n in s.owner && n in s.registry && s.registry[n].status.ContainerId() != Some(s.owner[n])
  }

  /** The start of another container than the one the entry of `n` stands for is tried, and fails. */
  ghost predicate FailsOnOther(s: Sys, step: Step, n: Name) {
    && step.Start? && step.reply.Refused? && step.p.name == n && n in s.registry
    && s.registry[n].status.Pending? && s.registry[n].status.pending.id != step.p.id
  }

  /** The containers counted as lost are those whose entry remembers another id. */
  lemma LostExactly(s: Sys, n: Name)
    requires Inv(s) && n in s.owner
    ensures Forgets(s, n) <==> s.owner[n] in s.lost
  {
    assert Owned(s, n) && EntryShape(s, n);
  }

  /** A step makes an entry forget its container exactly when the start of another generation's container
      fails on it. */
  lemma LosesExactly(steps: seq<Step>, s: Sys, step: Step, n: Name)
    requires Execute(steps) == Some(s) && Enabled(s, step) && !Forgets(s, n)
    ensures Forgets(Next(s, step), n) <==> FailsOnOther(s, step, n)
  {
    var s' := Next(s, step);
    InvExecute(steps);
    InvNext(s, step);
    assert n in s.owner ==> Owned(s, n);
    if n in s'.owner {
      LostExactly(s', n);
    }
    match step
    case Start(t, p, reply) => StartLoses(s, t, p, reply, n);
    case Create(t, c, replies) => CreateLoses(s, t, c, replies, n);
    case Join(_, _, _) => KeepsLost(s, s', n);
    case Disconnect(_, _) => KeepsLost(s, s', n);
    case Release(_) => KeepsLost(s, s', n);
    case Remove(_, _, _) => KeepsLost(s, s', n);
  }

  lemma KeepsLost(s: Sys, s': Sys, n: Name)
    requires Inv(s) && !Forgets(s, n) && s'.lost == s.lost
    requires n in s'.owner ==> n in s.owner && s'.owner[n] == s.owner[n]
    ensures n in s'.owner ==> s'.owner[n] !in s'.lost
  {
    if n in s'.owner {
      LostExactly(s, n);
    }
  }

  lemma StartLoses(s: Sys, t: TestId, p: PendingContainer, reply: Docker.Reply, n: Name)
    requires Inv(s) && Enabled(s, Start(t, p, reply)) && !Forgets(s, n)
    ensures var s' := NextStart(s, t, p, reply);
            n in s'.owner && s'.owner[n] in s'.lost <==> FailsOnOther(s, Start(t, p, reply), n)
  {
    if n in s.owner {
      LostExactly(s, n);
      assert Owned(s, n);
    }
    if Starting(s.registry, p.name) {
      assert EntryShape(s, p.name) && Owned(s, p.name);
    }
  }

  lemma CreateLoses(s: Sys, t: TestId, c: Composition, replies: CreateReplies, n: Name)
    requires Inv(s) && Enabled(s, Create(t, c, replies)) && !Forgets(s, n)
    ensures var s' := NextCreate(s, t, c, replies);
            n in s'.owner ==> s'.owner[n] !in s'.lost
  {
    var (m, d, r) := CreateResult(s, t, c, replies);
    BookingKeeps(s.(registry := m, daemon := d), s.registry, t, c.containerName, replies.created, r);
    BookingOwns(s.(registry := m, daemon := d), s.registry, t, c.containerName, replies.created, r);
    if n in s.owner {
      LostExactly(s, n);
      assert Owned(s, n);
    }
    if replies.created.Success? {
      assert LedgerAt(s, replies.created.value);
    }
  }

  lemma BookingOwns(s: Sys, before: Registry, t: TestId, n: Name, created: Result<Id, Error>,
                    r: Result<PendingContainer, Error>)
    requires t in s.tests
    ensures Booked(s, before, t, n, created, r).owner
         == if Generates(before, n) && created.Success? then s.owner[n := created.value] else s.owner
  {
    if !Generates(before, n) && !before[n].status.Failed? && r.Success? {
      assert Booked(s, before, t, n, created, r) == Joined(s, t, r.value);
    }
  }

  /** Whoever asks for such a start has let go of what it asked for. */
  lemma LosersAreDetached(steps: seq<Step>, s: Sys, step: Step, n: Name)
    requires Execute(steps) == Some(s) && Bounded(s) && Enabled(s, step) && FailsOnOther(s, step, n)
    ensures step.p.id !in s.tests[step.t].held
  {
    InvExecute(steps);
    assert EntryShape(s, n);
    if step.p.id in s.tests[step.t].held {
      HoldingPinsIdentity(steps, s, step.t, step.p, step.reply);
    }
  }

  /** It does happen: test 0 is gone, but a start it abandoned fails on the container of test 1. Both tests
      finish, nobody holds the second container and nothing leaked, and yet nobody will ever remove it. */
  lemma StrandedContainer(c: Composition, network: NetworkName, a: Id, b: Id, error: Error)
    returns (steps: seq<Step>, s: Sys)
    requires a != b && Named(c)
    ensures Execute(steps) == Some(s) && Bounded(s) && Finished(s)
    ensures b in s.daemon.created && Holders(s.tests, b) == {} && b in s.leak && s.leak[b] == 0
    ensures b in s.lost && s.daemon.removals[b] == 0
  {
    steps, s := RetiredGeneration(c, network, a);
    steps, s := StrandedGeneration(c, network, a, b, error, steps, s);
    assert RetiredNames(s.registry, s.tests[1].held) == {};
    assert Responsible(s.registry, s.tests[1].held) == {};
    steps, s := Apply(steps, s, Release(1));
    assert Holders(s.tests, b) == {};
  }

  /** Test 0 has come and gone; the only entry is cleaned. */
  ghost predicate Gone(s: Sys, c: Composition, network: NetworkName, a: Id) {
    && s.registry == map[c.containerName := Entry(Cleaned, 0)]
    && s.daemon.created == map[a := c.containerName] && s.daemon.removals == multiset{a}
    && s.tests.Keys == {0} && s.tests[0].phase == Removing({}) && s.tests[0].held == {}
    && PendingOf(c, a) in s.tests[0].pendings
    && s.peak == map[a := 1] && s.leak == map[a := 0] && s.lost == {}
    && s.networks == map[network := None]
  }

  /** A test in the singular network creates a container nobody has created yet. */
  lemma ApplyGenerate(steps: seq<Step>, s: Sys, t: TestId, c: Composition, id: Id)
    returns (steps': seq<Step>, s': Sys)
    requires Execute(steps) == Some(s) && t in s.tests && s.tests[t].phase.Using? && Named(c)
    requires Generates(s.registry, c.containerName) && id !in s.daemon.created
    ensures Execute(steps') == Some(s')
    ensures s' == s.(registry := s.registry[c.containerName := Entry(Pending(PendingOf(c, id)), 1)],
                     daemon := s.daemon.Create(id, c.containerName).Connect(id, s.tests[t].network),
                     owner := s.owner[c.containerName := id], peak := s.peak[id := 1],
                     leak := s.leak[id := 0], tests := s.tests[t := s.tests[t].Hold(PendingOf(c, id))])
  {
    steps', s' := Apply(steps, s, Create(t, c, CreateReplies(Success(id), Docker.Accepted)));
  }

  /** A test in the singular network uses a container that is still pending. */
  lemma ApplyJoin(steps: seq<Step>, s: Sys, t: TestId, c: Composition, p: PendingContainer)
    returns (steps': seq<Step>, s': Sys)
    requires Execute(steps) == Some(s) && t in s.tests && s.tests[t].phase.Using? && s.tests[t].mode.Singular?
    requires Named(c) && c.containerName in s.registry && s.registry[c.containerName].status == Pending(p)
    requires p.id !in s.tests[t].held
    ensures Execute(steps') == Some(s')
    ensures s' == s.(registry := s.registry[c.containerName := Counted(s.registry[c.containerName])],
                     peak := Raised(s.peak, p.id, UsersOf(s'.tests, s.leak, p.id)),
                     tests := s.tests[t := s.tests[t].Hold(p)])
  {
    steps', s' := Apply(steps, s, Create(t, c, CreateReplies(Failure(MISSING_ERROR), Docker.Accepted)));
  }

  /** A test alone with a registry of one entry lets go of it, and removes it. */
  lemma ApplyRetire(steps: seq<Step>, s: Sys, t: TestId, n: Name, id: Id)
    returns (steps': seq<Step>, s': Sys)
    requires Execute(steps) == Some(s) && t in s.tests && s.tests[t].phase.Using?
    requires s.registry.Keys == {n} && LastHit(s.registry[n], s.tests[t].held)
    requires s.registry[n].status.ContainerId() == Some(id)
    ensures Execute(steps') == Some(s')
    ensures s'.registry == map[n := Entry(Cleaned, 0)] && s'.daemon.created == s.daemon.created
    ensures s'.daemon.removals == s.daemon.removals + multiset{id} && s'.daemon.removed == s.daemon.removed + {id}
    ensures s'.tests == s.tests[t := s.tests[t].(phase := Removing({}), held := {})]
    ensures s'.peak == s.peak && s'.leak == s.leak && s'.lost == s.lost && s'.networks == s.networks
  {
    steps', s' := Apply(steps, s, Disconnect(t, {}));
    assert s' == s.(daemon := s'.daemon, tests := s.tests[t := s.tests[t].(phase := Disconnected)]);
    steps', s' := ApplyRelease(steps', s', t, n, id);
  }

  lemma ApplyRelease(steps: seq<Step>, s: Sys, t: TestId, n: Name, id: Id)
    returns (steps': seq<Step>, s': Sys)
    requires Execute(steps) == Some(s) && t in s.tests && s.tests[t].phase.Disconnected?
    requires s.registry.Keys == {n} && LastHit(s.registry[n], s.tests[t].held)
    requires s.registry[n].status.ContainerId() == Some(id)
    ensures Execute(steps') == Some(s')
    ensures s'.registry == map[n := Entry(Cleaned, 0)] && s'.daemon.created == s.daemon.created
    ensures s'.daemon.removals == s.daemon.removals + multiset{id} && s'.daemon.removed == s.daemon.removed + {id}
    ensures s'.tests == s.tests[t := s.tests[t].(phase := Removing({}), held := {})]
    ensures s'.peak == s.peak && s'.leak == s.leak && s'.lost == s.lost && s'.networks == s.networks
  {
    RetireOnly(s, t, n);
    assert DecrementSpec(s.registry, s.tests[t].held) == map[n := Entry(Cleaned, 0)];
    steps', s' := Apply(steps, s, Release(t));
    assert s'.tests[t] == s.tests[t].(phase := Removing({id}), held := {});
    steps', s' := Apply(steps', s', Remove(t, id, true));
    assert {id} - {id} == {};
  }

  lemma FirstTest(network: NetworkName) returns (steps: seq<Step>, s: Sys)
    ensures Execute(steps) == Some(s)
    ensures s == INIT.(tests := map[0 := Test(network, Singular, Using, {}, {}, {})], networks := map[network := None])
  {
    steps, s := Apply([], INIT, Join(0, network, Singular));
  }

  /** Test 0 is the first to create a container. */
  lemma FirstContainer(c: Composition, network: NetworkName, id: Id) returns (steps: seq<Step>, s: Sys)
    requires Named(c)
    ensures Execute(steps) == Some(s)
    ensures s.registry == map[c.containerName := Entry(Pending(PendingOf(c, id)), 1)]
    ensures s.tests == map[0 := Test(network, Singular, Using, {id}, {PendingOf(c, id)}, {})]
    ensures s.daemon.created == map[id := c.containerName] && s.daemon.removals == multiset{}
    ensures s.owner == map[c.containerName := id] && s.peak == map[id := 1] && s.leak == map[id := 0]
    ensures s.lost == {} && s.networks == map[network := None]
    ensures s.daemon.removed == {} && (id, network) in s.daemon.links
  {
    steps, s := FirstTest(network);
    steps, s := ApplyGenerate(steps, s, 0, c, id);
    HoldFirst(network, PendingOf(c, id));
  }

  lemma RetiredGeneration(c: Composition, network: NetworkName, a: Id) returns (steps: seq<Step>, s: Sys)
    requires Named(c)
    ensures Execute(steps) == Some(s) && Gone(s, c, network, a)
  {
    steps, s := FirstContainer(c, network, a);
    var e := s.registry[c.containerName];
    assert e.status.ContainerId() == Some(a) && Decrement(e.completionCounter) == 0;
    assert LastHit(e, s.tests[0].held);
    steps, s := ApplyRetire(steps, s, 0, c.containerName, a);
    assert s.tests == map[0 := Test(network, Singular, Removing({}), {}, {PendingOf(c, a)}, {})];
  }

  /** Test 1 creates the container anew. */
  lemma NextGeneration(c: Composition, network: NetworkName, a: Id, b: Id, steps: seq<Step>, s: Sys)
    returns (steps': seq<Step>, s': Sys)
    requires a != b && Named(c) && Execute(steps) == Some(s) && Gone(s, c, network, a)
    ensures Execute(steps') == Some(s') && s'.lost == {} && s'.leak == map[a := 0, b := 0]
    ensures s'.registry == map[c.containerName := Entry(Pending(PendingOf(c, b)), 1)]
    ensures s'.tests.Keys == {0, 1} && s'.tests[0] == s.tests[0]
    ensures s'.tests[1] == Test(network, Singular, Using, {b}, {PendingOf(c, b)}, {})
    ensures s'.peak == map[a := 1, b := 1] && b in s'.daemon.created && s'.daemon.removals == multiset{a}
  {
    steps', s' := Apply(steps, s, Join(1, network, Singular));
    steps', s' := ApplyGenerate(steps', s', 1, c, b);
    HoldFirst(network, PendingOf(c, b));
  }

  lemma StrandedGeneration(c: Composition, network: NetworkName, a: Id, b: Id, error: Error,
                           steps: seq<Step>, s: Sys)
    returns (steps': seq<Step>, s': Sys)
    requires a != b && Named(c) && Execute(steps) == Some(s) && Gone(s, c, network, a)
    ensures Execute(steps') == Some(s') && s'.lost == {b} && s'.leak == map[a := 0, b := 0]
    ensures s'.registry == map[c.containerName := Entry(Failed(error, Some(a)), 1)]
    ensures s'.tests.Keys == {0, 1} && s'.tests[0].phase == Removing({}) && s'.tests[0].held == {}
    ensures s'.tests[1].phase.Disconnected? && s'.tests[1].held == {b}
    ensures s'.peak == map[a := 1, b := 1] && b in s'.daemon.created && s'.daemon.removals == multiset{a}
  {
    steps', s' := NextGeneration(c, network, a, b, steps, s);
    steps', s' := ApplyStrayStart(steps', s', 0, PendingOf(c, a), PendingOf(c, b), error);
    steps', s' := Apply(steps', s', Disconnect(1, {}));
  }

  lemma ApplyStrayStart(steps: seq<Step>, s: Sys, t: TestId, p: PendingContainer, q: PendingContainer, error: Error)
    returns (steps': seq<Step>, s': Sys)
    requires Execute(steps) == Some(s) && t in s.tests && p in s.tests[t].pendings && p.id !in s.tests[t].held
    requires p.name in s.registry && s.registry[p.name].status == Pending(q) && p.id != q.id
    ensures Execute(steps') == Some(s')
    ensures s' == s.(registry := s.registry[p.name := s.registry[p.name].(status := Failed(error, Some(p.id)))],
                     daemon := s.daemon.Start(q.id), outcome := s.outcome[q.id := Failure(error)],
                     lost := s.lost + {q.id})
  {
    steps', s' := Apply(steps, s, Start(t, p, Docker.Refused(error)));
  }

  lemma Apply(steps: seq<Step>, s: Sys, step: Step) returns (steps': seq<Step>, s': Sys)
    requires Execute(steps) == Some(s) && Enabled(s, step)
    ensures Execute(steps') == Some(s') && s' == Next(s, step)
  {
    OneStepMore(steps, s, step);
    steps', s' := steps + [step], Next(s, step);
  }

  /** A test alone with a registry of one entry is responsible for that entry. */
  lemma RetireOnly(s: Sys, t: TestId, n: Name)
    requires t in s.tests && s.registry.Keys == {n} && LastHit(s.registry[n], s.tests[t].held)
    ensures RetiredNames(s.registry, s.tests[t].held) == {n}
    ensures Responsible(s.registry, s.tests[t].held) == {s.registry[n].status.ContainerId().value}
  {
  }

  // --- a counter that wraps -------------------------------------------------------------------------

  ghost function CrowdTests(c: Composition, network: NetworkName, id: Id, k: nat): (tests: map<TestId, Test>)
    ensures forall t: TestId :: t in tests <==> t < k
    ensures forall t :: t in tests ==> tests[t] == Test(network, Singular, Using, {id}, {PendingOf(c, id)}, {})
  {
    if k == 0 then map[]
    else CrowdTests(c, network, id, k - 1)[k - 1 := Test(network, Singular, Using, {id}, {PendingOf(c, id)}, {})]
  }

  /** `k` tests share a network and a container; each of them registered once. */
  ghost predicate Crowd(s: Sys, c: Composition, network: NetworkName, id: Id, k: nat) {
    && s.registry == map[c.containerName := Entry(Pending(PendingOf(c, id)), k % 256)]
    && s.tests == CrowdTests(c, network, id, k)
    && s.owner == map[c.containerName := id] && s.leak == map[id := 0] && s.lost == {}
    && s.networks == map[network := None]
  }

  lemma CrowdOfOne(c: Composition, network: NetworkName, id: Id) returns (steps: seq<Step>, s: Sys)
    requires Named(c)
    ensures Execute(steps) == Some(s) && Crowd(s, c, network, id, 1)
  {
    steps, s := FirstContainer(c, network, id);
    assert CrowdTests(c, network, id, 0) == map[];
    assert s.tests == CrowdTests(c, network, id, 1);
  }

  lemma {:induction false} CrowdRun(c: Composition, network: NetworkName, id: Id, k: nat)
    returns (steps: seq<Step>, s: Sys)
    requires k > 0 && Named(c)
    ensures Execute(steps) == Some(s) && Crowd(s, c, network, id, k)
  {
    if k == 1 {
      steps, s := CrowdOfOne(c, network, id);
    } else {
      steps, s := CrowdRun(c, network, id, k - 1);
      steps, s := OneMoreInCrowd(c, network, id, k - 1, steps, s);
    }
  }

  lemma OneMoreInCrowd(c: Composition, network: NetworkName, id: Id, k: nat, steps: seq<Step>, s: Sys)
    returns (steps': seq<Step>, s': Sys)
    requires Execute(steps) == Some(s) && Crowd(s, c, network, id, k) && Named(c)
    ensures Execute(steps') == Some(s') && Crowd(s', c, network, id, k + 1)
  {
    var joined: Sys;
    steps', joined := ApplyArrival(steps, s, k, network);
    steps', s' := ApplyJoin(steps', joined, k, c, PendingOf(c, id));
    CrowdJoined(s, joined, s', c, network, id, k);
  }

  lemma CrowdJoined(s: Sys, joined: Sys, s': Sys, c: Composition, network: NetworkName, id: Id, k: nat)
    requires Crowd(s, c, network, id, k)
    requires joined == s.(tests := s.tests[k := Test(network, Singular, Using, {}, {}, {})])
    requires s' == joined.(registry := s'.registry, peak := s'.peak, tests := s'.tests)
    requires s'.registry == s.registry[c.containerName := Counted(s.registry[c.containerName])]
    requires s'.tests == joined.tests[k := joined.tests[k].Hold(PendingOf(c, id))]
    ensures Crowd(s', c, network, id, k + 1)
  {
    HoldFirst(network, PendingOf(c, id));
    CrowdGrows(c, network, id, k);
  }

  lemma CrowdGrows(c: Composition, network: NetworkName, id: Id, k: nat)
    ensures CrowdTests(c, network, id, k)[k := Test(network, Singular, Using, {}, {}, {})]
            [k := Test(network, Singular, Using, {id}, {PendingOf(c, id)}, {})] == CrowdTests(c, network, id, k + 1)
    ensures Increment(k % 256) == (k + 1) % 256
  {
  }

  lemma ApplyArrival(steps: seq<Step>, s: Sys, t: TestId, network: NetworkName)
    returns (steps': seq<Step>, s': Sys)
    requires Execute(steps) == Some(s) && t !in s.tests && s.networks == map[network := None]
    ensures Execute(steps') == Some(s')
    ensures s' == s.(tests := s.tests[t := Test(network, Singular, Using, {}, {}, {})])
  {
    assert s.networks[network := None] == s.networks;
    steps', s' := Apply(steps, s, Join(t, network, Singular));
  }

  lemma HoldFirst(network: NetworkName, p: PendingContainer)
    ensures Test(network, Singular, Using, {}, {}, {}).Hold(p) == Test(network, Singular, Using, {p.id}, {p}, {})
  {
  }

  /** With 257 users, or any further multiple of 256 more, the counter has wrapped to one: the first test
      to finish removes the container all others still hold. With at most 256 users at a time this cannot
      happen. */
  lemma WrappedCounterRemovesHeld(c: Composition, network: NetworkName, id: Id, k: nat)
    returns (steps: seq<Step>, s: Sys)
    requires Named(c) && k > 1 && k % 256 == 1
    ensures Execute(steps) == Some(s) && id in s.daemon.removed
    ensures forall t: TestId :: 0 < t < k ==> t in s.tests && id in s.tests[t].held
  {
    steps, s := CrowdRun(c, network, id, k);
    assert s.registry[c.containerName] == Entry(Pending(PendingOf(c, id)), 1);
    steps, s := ApplyRetire(steps, s, 0, c.containerName, id);
  }

  // --- a counter that is checked --------------------------------------------------------------------

  /** The step adds one to a counter. */
  ghost predicate Raises(s: Sys, step: Step)
    requires Enabled(s, step)
  {
    && step.Create? && !Generates(s.registry, step.c.containerName)
    && (s.registry[step.c.containerName].status.Failed? || CreateResult(s, step.t, step.c, step.replies).2.Success?)
  }

  /** A build that checks its arithmetic panics instead of taking a step that would make a counter overflow. */
  ghost predicate CheckedRun(steps: seq<Step>) {
    steps == [] ||
    var before := Execute(steps[..|steps| - 1]);
    var step := steps[|steps| - 1];
    && CheckedRun(steps[..|steps| - 1]) && before.Some? && Enabled(before.value, step)
    && (Raises(before.value, step) ==> before.value.registry[step.c.containerName].completionCounter < 255)
  }

  /** With checked arithmetic no container ever has more users than can be counted, so such a build does what is
      promised for runs that are `Bounded` whatever the number of tests. */
  lemma {:induction false} CheckedIsBounded(steps: seq<Step>)
    requires CheckedRun(steps) && Execute(steps).Some?
    ensures AtMost(Execute(steps).value, 255) && Bounded(Execute(steps).value)
  {
    if steps != [] {
      var before := steps[..|steps| - 1];
      CheckedIsBounded(before);
      InvExecute(before);
      CheckedStep(Execute(before).value, steps[|steps| - 1]);
    }
  }

  lemma CheckedStep(s: Sys, step: Step)
    requires Inv(s) && AtMost(s, 255) && Enabled(s, step)
    requires Raises(s, step) ==> s.registry[step.c.containerName].completionCounter < 255
    ensures AtMost(Next(s, step), 255)
  {
    match step
    case Create(t, c, replies) => CheckedCreate(s, t, c, replies);
    case Start(t, p, reply) =>
    case Join(_, _, _) =>
    case Disconnect(_, _) =>
    case Release(_) =>
    case Remove(_, _, _) =>
  }

  lemma CheckedCreate(s: Sys, t: TestId, c: Composition, replies: CreateReplies)
    requires Inv(s) && AtMost(s, 255) && Enabled(s, Create(t, c, replies))
    requires Raises(s, Create(t, c, replies)) ==> s.registry[c.containerName].completionCounter < 255
    ensures AtMost(NextCreate(s, t, c, replies), 255)
  {
    var n := c.containerName;
    var s' := NextCreate(s, t, c, replies);
    var r := CreateResult(s, t, c, replies).2;
    if !Generates(s.registry, n) {
      assert EntryShape(s, n) && (n in s.owner ==> Owned(s, n));
      if s.registry[n].status.Failed? {
        if n in s.owner && s.owner[n] !in s.lost {
          assert Balanced(s, n) && Within(s, s.owner[n]);
          FailedRegisters(s, s', t, c, replies);
          RegistersBounded(s, s', n);
        }
      } else if r.Success? {
        assert Balanced(s, n) && Within(s, s.owner[n]);
        JoinRegisters(s, s', t, c, replies, r.value);
        RegistersBounded(s, s', n);
      }
    }
  }

  lemma FailedRegisters(s: Sys, s': Sys, t: TestId, c: Composition, replies: CreateReplies)
    requires Enabled(s, Create(t, c, replies)) && s' == NextCreate(s, t, c, replies)
    requires var n := c.containerName;
             && n in s.registry && s.registry[n].status.Failed?
             && n in s.owner && s.owner[n] !in s.lost && s.owner[n] in s.leak
    ensures Registers(s, s', c.containerName)
  {
  }

  lemma RegistersBounded(s: Sys, s': Sys, n: Name)
    requires AtMost(s, 255) && Registers(s, s', n) && Balanced(s, n) && Within(s, s.owner[n])
    requires s.registry[n].completionCounter < 255
    ensures AtMost(s', 255)
  {
    assert Users(s, s.owner[n]) <= s.peak[s.owner[n]] <= 255;
    assert Users(s, s.owner[n]) == s.registry[n].completionCounter;
  }

  /** With checked arithmetic no container a test holds is removed, or about to be. */
  lemma CheckedNeverPremature(steps: seq<Step>, s: Sys, t: TestId, id: Id)
    requires CheckedRun(steps) && Execute(steps) == Some(s) && t in s.tests && id in s.tests[t].held
    ensures id in s.daemon.created && id !in s.daemon.removed && id !in s.daemon.removals
    ensures Removers(s.tests, id) == {}
  {
    CheckedIsBounded(steps);
    NoPrematureRemoval(steps, s, t, id);
  }

  // --- a network that is shared ---------------------------------------------------------------------

  /** Two tests share a network and a running container. When the first cleans up, the second loses the
      connection to the container it holds. */
  lemma CleanupCutsOff(c: Composition, network: NetworkName, id: Id)
    returns (steps: seq<Step>, before: Sys, s: Sys)
    requires Named(c)
    ensures Execute(steps) == Some(before) && (id, network) in before.daemon.links
    ensures Enabled(before, Disconnect(0, {id})) && s == Next(before, Disconnect(0, {id}))
    ensures 1 in s.tests && s.tests[1].phase.Using? && s.tests[1].network == network && id in s.tests[1].held
    ensures (id, network) !in s.daemon.links
  {
    steps, before := SharedContainer(c, network, id);
    var n := c.containerName;
    assert n in before.registry && before.registry[n].status.Operational? && before.registry[n].status.running.id == id;
    assert id in DisconnectTargets(before.registry, before.tests[0].held);
    s := Next(before, Disconnect(0, {id}));
  }

  lemma SharedContainer(c: Composition, network: NetworkName, id: Id) returns (steps: seq<Step>, s: Sys)
    requires Named(c)
    ensures Execute(steps) == Some(s) && (id, network) in s.daemon.links
    ensures s.registry == map[c.containerName :=
              Entry(Operational(OperationalOf(PendingOf(c, id)), PendingOf(c, id)), 2)]
    ensures s.tests.Keys == {0, 1} && s.tests[0].phase.Using? && s.tests[1].phase.Using?
    ensures s.tests[0].held == {id} && s.tests[1].held == {id}
    ensures s.tests[0].network == network && s.tests[1].network == network
  {
    steps, s := SharedPending(c, network, id);
    steps, s := ApplyStart(steps, s, 0, PendingOf(c, id));
  }

  lemma SharedPending(c: Composition, network: NetworkName, id: Id) returns (steps: seq<Step>, s: Sys)
    requires Named(c)
    ensures Execute(steps) == Some(s) && (id, network) in s.daemon.links
    ensures s.registry == map[c.containerName := Entry(Pending(PendingOf(c, id)), 2)]
    ensures s.tests.Keys == {0, 1}
    ensures s.tests[0] == Test(network, Singular, Using, {id}, {PendingOf(c, id)}, {}) && s.tests[1] == s.tests[0]
  {
    var joined: Sys;
    steps, joined := SecondArrives(c, network, id);
    HoldFirst(network, PendingOf(c, id));
    steps, s := ApplyJoin(steps, joined, 1, c, PendingOf(c, id));
    CountsTwo(joined.registry, c.containerName, PendingOf(c, id));
  }

  lemma CountsTwo(m: Registry, n: Name, p: PendingContainer)
    requires m == map[n := Entry(Pending(p), 1)]
    ensures m[n := Counted(m[n])] == map[n := Entry(Pending(p), 2)]
  {
  }

  lemma SecondArrives(c: Composition, network: NetworkName, id: Id) returns (steps: seq<Step>, s: Sys)
    requires Named(c)
    ensures Execute(steps) == Some(s) && (id, network) in s.daemon.links
    ensures s.registry == map[c.containerName := Entry(Pending(PendingOf(c, id)), 1)]
    ensures s.tests.Keys == {0, 1} && s.tests[0] == Test(network, Singular, Using, {id}, {PendingOf(c, id)}, {})
    ensures s.tests[1] == Test(network, Singular, Using, {}, {}, {})
  {
    var first: Sys;
    steps, first := FirstContainer(c, network, id);
    steps, s := ApplyArrival(steps, first, 1, network);
  }

  lemma ApplyStart(steps: seq<Step>, s: Sys, t: TestId, p: PendingContainer)
    returns (steps': seq<Step>, s': Sys)
    requires Execute(steps) == Some(s) && t in s.tests && p in s.tests[t].pendings && p.id in s.tests[t].held
    requires p.name in s.registry && s.registry[p.name].status == Pending(p)
    ensures Execute(steps') == Some(s') && s'.daemon.links == s.daemon.links
    ensures s'.registry == s.registry[p.name := s.registry[p.name].(status := Operational(OperationalOf(p), p))]
    ensures s'.tests == s.tests[t := s.tests[t].(results := s.tests[t].results + {(p, Success(OperationalOf(p)))})]
  {
    steps', s' := Apply(steps, s, Start(t, p, Docker.Accepted));
  }

  // --- a name that is still taken -------------------------------------------------------------------

  /** A container that its last user is about to remove still has its name when the next test creates it anew.
      If the daemon refuses for that reason the name is of no use to any later test, also when the old container
      is gone. */
  lemma ConflictIsFinal(c: Composition, network: NetworkName, id: Id, error: Error) returns (steps: seq<Step>, s: Sys)
    requires Named(c)
    ensures Execute(steps) == Some(s)
    ensures id in s.daemon.created && s.daemon.created[id] == c.containerName && id !in s.daemon.removed
    ensures Enabled(s, Remove(0, id, true)) && id in Next(s, Remove(0, id, true)).daemon.removed
    ensures forall more: seq<Step> :: Execute(steps + more).Some? ==>
              Barred(Execute(steps + more).value, c.containerName, error)
  {
    steps, s := BeforeRemoval(c, network, id);
    steps, s := ApplyArrival(steps, s, 1, network);
    steps, s := Apply(steps, s, Create(1, c, CreateReplies(Failure(error), Docker.Accepted)));
    assert Barred(s, c.containerName, error);
    forall more: seq<Step> | Execute(steps + more).Some?
      ensures Barred(Execute(steps + more).value, c.containerName, error)
    {
      CreationFailureIsFinal(steps, more, c.containerName, error);
    }
  }

  lemma BeforeRemoval(c: Composition, network: NetworkName, id: Id) returns (steps: seq<Step>, s: Sys)
    requires Named(c)
    ensures Execute(steps) == Some(s) && s.registry == map[c.containerName := Entry(Cleaned, 0)]
    ensures s.tests.Keys == {0} && s.tests[0].phase == Removing({id}) && s.networks == map[network := None]
    ensures s.daemon.created == map[id := c.containerName] && id !in s.daemon.removed
  {
    var left: Sys;
    steps, left := BeforeRelease(c, network, id);
    steps, s := ReleaseOnly(steps, left, 0, c.containerName);
  }

  lemma BeforeRelease(c: Composition, network: NetworkName, id: Id) returns (steps: seq<Step>, s: Sys)
    requires Named(c)
    ensures Execute(steps) == Some(s)
    ensures s.registry == map[c.containerName := Entry(Pending(PendingOf(c, id)), 1)]
    ensures s.tests.Keys == {0} && s.tests[0].phase.Disconnected? && s.tests[0].held == {id}
    ensures s.daemon.created == map[id := c.containerName] && s.daemon.removed == {}
    ensures s.networks == map[network := None]
  {
    var first: Sys;
    steps, first := FirstContainer(c, network, id);
    steps, s := ApplyDisconnect(steps, first, 0);
  }

  lemma ApplyDisconnect(steps: seq<Step>, s: Sys, t: TestId) returns (steps': seq<Step>, s': Sys)
    requires Execute(steps) == Some(s) && t in s.tests && s.tests[t].phase.Using?
    ensures Execute(steps') == Some(s') && s' == s.(daemon := s'.daemon, tests := s'.tests)
    ensures s'.daemon == s.daemon.(links := s'.daemon.links)
    ensures s'.tests == s.tests[t := s.tests[t].(phase := Disconnected)]
  {
    steps', s' := Apply(steps, s, Disconnect(t, {}));
  }

  lemma ReleaseOnly(steps: seq<Step>, s: Sys, t: TestId, n: Name) returns (steps': seq<Step>, s': Sys)
    requires Execute(steps) == Some(s) && t in s.tests && s.tests[t].phase.Disconnected?
    requires s.registry.Keys == {n} && LastHit(s.registry[n], s.tests[t].held)
    ensures Execute(steps') == Some(s') && s'.registry == map[n := Entry(Cleaned, 0)]
    ensures s'.daemon == s.daemon && s'.networks == s.networks
    ensures var id := s.registry[n].status.ContainerId().value;
            s'.tests == s.tests[t := s.tests[t].(phase := Removing({id}), held := {})]
  {
    RetireOnly(s, t, n);
    assert DecrementSpec(s.registry, s.tests[t].held) == map[n := Entry(Cleaned, 0)];
    steps', s' := Apply(steps, s, Release(t));
  }
}
