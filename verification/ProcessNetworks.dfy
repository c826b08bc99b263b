/** A test with a network of its own stays connected to the containers it did not create for itself, whichever
    registry gave them to it and whatever all other tests do. */
module ProcessNetworks {
  import opened Containers
  import Docker
  import External = ExternalContainers
  import Dynamic = DynamicContainers
  import opened StaticContainers
  import opened Process
  import NonInterference

  // --- whose network it is ----------------------------------------------------------------------------------

  /** Nobody else uses the network of an isolated test. */
  ghost predicate OwnNetworks(w: World) {
    forall t, u :: t in w.tests && u in w.tests && t != u && w.tests[t].mode.Isolated? ==>
      w.tests[u].network != w.tests[t].network
  }

  lemma {:induction false} NetworksAreOwn(usage: Usage, steps: seq<Step>, w: World)
    requires Execute(usage, INIT, steps) == Some(w)
    ensures OwnNetworks(w)
  {
    if steps != [] {
      var w1 := LastStep(usage, INIT, steps);
      NetworksAreOwn(usage, steps[..|steps| - 1], w1);
      NetworksNext(usage, w1, steps[|steps| - 1]);
    }
  }

  lemma NetworksNext(usage: Usage, w: World, step: Step)
    requires OwnNetworks(w) && Enabled(usage, w, step)
    ensures OwnNetworks(Next(w, step))
  {
    NonInterference.RecallsNext(usage, w, step);
    TestsNext(usage, w, step);
  }

  lemma TestsNext(usage: Usage, w: World, step: Step)
    requires Enabled(usage, w, step)
    ensures Next(w, step).tests.Keys == w.tests.Keys + if step.Join? then {step.t} else {}
  {
  }

  // --- what stays connected ---------------------------------------------------------------------------------

  predicate CutsOff(w: World, step: Step, network: NetworkName)
    requires step.Disconnect? || step.DisconnectExternal? ==> step.t in w.tests
  {
    (step.Disconnect? || step.DisconnectExternal?) && w.tests[step.t].network == network
  }

  /** The link of a container that was ever registered is only cut by who uses the network. */
  lemma LinkKept(usage: Usage, w: World, step: Step, id: Id, network: NetworkName)
    requires Inv(usage, w) && Enabled(usage, w, step) && id in w.registered && (id, network) in w.daemon.links
    requires !CutsOff(w, step, network)
    ensures (id, network) in Next(w, step).daemon.links
  {
    NonInterference.NotReached(usage, w, step);
    match step
    case CreateStatic(t, c, replies) => CreateKeepsLink(w, t, c, replies, id, network);
    case StartStatic(t, p, reply) => StartKeepsLinks(w.statics, w.daemon, p, reply);
    case _ =>
  }

  lemma CreateKeepsLink(w: World, t: TestId, c: Composition, replies: CreateReplies, id: Id, network: NetworkName)
    requires t in w.tests && (id, network) in w.daemon.links
    requires id !in NonInterference.Reaches(w, CreateStatic(t, c, replies))
    ensures (id, network) in Next(w, CreateStatic(t, c, replies)).daemon.links
  {
    var (m, d, r) := CreateResult(w, t, c, replies);
    assert Next(w, CreateStatic(t, c, replies)).daemon == d;
  }

  lemma StartKeepsLinks(m: Statics, d: Docker.State, p: PendingContainer, reply: Docker.Reply)
    ensures StartSpec(m, d, p, reply).1.links == d.links
  {
  }

  // --- what a test was given --------------------------------------------------------------------------------

  function AnswerId(a: CreatedContainer): Id {
    match a
    case CreatedPending(p) => p.id
    case CreatedExternal(e) => e.id
  }

  /** The answer of the dynamic or of the external registry. */
  predicate Elsewhere(a: CreatedContainer) {
    a.CreatedPending? ==> a.pending.management != Some(Internal)
  }

  ghost predicate Linked(w: World, t: TestId, a: CreatedContainer)
    requires t in w.tests
  {
    AnswerId(a) in w.registered && (AnswerId(a), w.tests[t].network) in w.daemon.links
  }

  ghost predicate Wired(w: World, t: TestId)
    requires t in w.tests
  {
    w.tests[t].mode.Isolated? && w.tests[t].phase.Using? ==>
      forall c, a :: (c, a) in w.tests[t].answers && Elsewhere(a) ==> Linked(w, t, a)
  }

  ghost predicate AllWired(w: World) {
    forall t {:trigger Wired(w, t)} :: t in w.tests ==> Wired(w, t)
  }

  lemma {:induction false} TestsAreWired(usage: Usage, steps: seq<Step>, w: World)
    requires Execute(usage, INIT, steps) == Some(w)
    ensures AllWired(w)
  {
    if steps != [] {
      var before, step := steps[..|steps| - 1], steps[|steps| - 1];
      var w1 := LastStep(usage, INIT, steps);
      TestsAreWired(usage, before, w1);
      InvExecute(usage, INIT, before, w1);
      NetworksAreOwn(usage, before, w1);
      WiredNext(usage, w1, step);
    }
  }

  lemma WiredNext(usage: Usage, w: World, step: Step)
    requires Inv(usage, w) && OwnNetworks(w) && AllWired(w) && Enabled(usage, w, step)
    ensures AllWired(Next(w, step))
  {
    var w' := Next(w, step);
    forall t | t in w'.tests
      ensures Wired(w', t)
    {
      if t in w.tests {
        assert Wired(w, t);
        StaysWired(usage, w, step, t);
      }
    }
  }

  lemma StaysWired(usage: Usage, w: World, step: Step, t: TestId)
    requires Inv(usage, w) && OwnNetworks(w) && Enabled(usage, w, step) && t in w.tests && Wired(w, t)
    ensures t in Next(w, step).tests && Wired(Next(w, step), t)
  {
    var w' := Next(w, step);
    NonInterference.RecallsNext(usage, w, step);
    if w'.tests[t].mode.Isolated? && w'.tests[t].phase.Using? {
      StillUsing(usage, w, step, t);
      forall c, a | (c, a) in w'.tests[t].answers && Elsewhere(a)
        ensures Linked(w', t, a)
      {
        if (c, a) in w.tests[t].answers {
          LinkKept(usage, w, step, AnswerId(a), w.tests[t].network);
        } else {
          AnswerIsLinked(usage, w, step, t, c, a);
        }
      }
    }
  }

  /** A test that goes on using its containers has not begun to clean up, and nobody else cuts its network. */
  lemma StillUsing(usage: Usage, w: World, step: Step, t: TestId)
    requires OwnNetworks(w) && Enabled(usage, w, step) && t in w.tests && t in Next(w, step).tests
    requires w.tests[t].mode.Isolated? && Next(w, step).tests[t].phase.Using?
    ensures w.tests[t].phase.Using? && !CutsOff(w, step, w.tests[t].network)
    ensures w.registered <= Next(w, step).registered
  {
  }

  /** What a creation gives an isolated test is on its network. */
  lemma AnswerIsLinked(usage: Usage, w: World, step: Step, t: TestId, c: Composition, a: CreatedContainer)
    requires Inv(usage, w) && Enabled(usage, w, step) && t in w.tests && w.tests[t].mode.Isolated?
    requires t in Next(w, step).tests && (c, a) in Next(w, step).tests[t].answers && (c, a) !in w.tests[t].answers
    requires Elsewhere(a)
    ensures Linked(Next(w, step), t, a)
  {
    assert step.CreateStatic? && step.t == t && step.c == c;
    var replies, network := step.replies, w.tests[t].network;
    match c.management
    case Some(Internal) => InternalAnswers(usage, w, t, c, replies);
    case Some(External) => ExternalAttaches(w.statics.external, w.daemon, c, network, replies.external);
    case Some(Dynamic) => DynamicAttaches(w.statics.dynamic, w.daemon, c, network, replies.dynamic);
  }

  lemma InternalAnswers(usage: Usage, w: World, t: TestId, c: Composition, replies: CreateReplies)
    requires Inv(usage, w) && t in w.tests && c.management == Some(Internal)
    ensures var r := CreateResult(w, t, c, replies).2; r.Success? ==> !Elsewhere(r.value)
  {
    assert c.containerName in w.statics.internal ==> InternalShape(usage, w, c.containerName);
  }

  lemma ExternalAttaches(m: External.Registry, d: Docker.State, c: Composition, network: NetworkName,
                         replies: External.IncludeReplies)
    ensures var (m', d', r) := External.IncludeSpec(m, d, c, Some(network), Isolated, replies);
            r.Success? ==> r.value.id in ExternalIds(m') && (r.value.id, network) in d'.links
  {
    var (m', d', r) := External.IncludeSpec(m, d, c, Some(network), Isolated, replies);
    assert r.Success? ==> c.containerName in m' && m'[c.containerName].id == r.value.id;
  }

  lemma DynamicAttaches(m: Dynamic.Registry, d: Docker.State, c: Composition, network: NetworkName,
                        replies: Dynamic.CreateReplies)
    ensures var (m', d', r) := Dynamic.CreateSpec(m, d, c, Some(network), Isolated, replies);
            r.Success? ==> AnswerId(r.value) in DynamicIds(m') && (AnswerId(r.value), network) in d'.links
  {
    var (m', d', r) := Dynamic.CreateSpec(m, d, c, Some(network), Isolated, replies);
    assert r.Success? ==> c.containerName in m' && !m'[c.containerName].Failed?;
  }

  /** As long as an isolated test uses its containers, it is connected to all those that the dynamic and the external
      registry gave it, in every run of the process. */
  lemma FoundIsConnected(usage: Usage, steps: seq<Step>, w: World, t: TestId, c: Composition, a: CreatedContainer)
    requires Execute(usage, INIT, steps) == Some(w) && t in w.tests && (c, a) in w.tests[t].answers && Elsewhere(a)
    requires w.tests[t].mode.Isolated? && w.tests[t].phase.Using?
    ensures (AnswerId(a), w.tests[t].network) in w.daemon.links
  {
    TestsAreWired(usage, steps, w);
    assert Wired(w, t);
  }
}
