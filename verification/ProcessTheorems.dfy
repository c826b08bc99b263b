/** The promises about internal containers, in every run of the whole process: any number of tests, all three
    registries, containers of their own, leftovers in the way, and whatever happens outside. */
module ProcessTheorems {
  import opened Containers
  import Docker
  import Protocol = InternalProtocol
  import Theorems = InternalTheorems
  import Dynamic = DynamicContainers
  import Limits = InternalLimits
  import Refusals = InternalRefusals
  import Statics = StaticContainers
  import Internal = InternalContainers
  import opened Process
  import opened Simulation
  import opened ProcessCounts
  import NonInterference

  /** A test holds an internal container until it lets go of it in its cleanup. */
  ghost predicate Holds(w: World, t: TestId, p: PendingContainer) {
    && t in w.tests && !w.tests[t].phase.Removing?
    && p in w.tests[t].kept && p.management == Some(Internal)
  }

  lemma HoldsInView(w: World, s: Protocol.Sys, t: TestId, p: PendingContainer)
    requires s.tests == Views(w.tests) && Holds(w, t, p)
    ensures t in s.tests && p in s.tests[t].pendings && p.id in s.tests[t].held
  {
    assert p in InternalOnes(w.tests[t]);
  }

  /** Nothing any test does, in any run, stops or removes an internal container that a test holds: neither the
      removal by the last user, nor teardown under any prune strategy, nor clearing a name for a new container. */
  lemma HeldIsSafe(usage: Usage, steps: seq<Step>, w: World, t: TestId, p: PendingContainer, step: Step)
    requires Execute(usage, INIT, steps) == Some(w) && Uncrowded(usage, steps)
    requires Holds(w, t, p) && Enabled(usage, w, step)
    ensures p.id in w.daemon.created && p.id !in w.daemon.removed && p.id !in w.daemon.removals
    ensures p.id !in NonInterference.Reaches(w, step) && p.id !in Next(w, step).daemon.removed
  {
    var s := Counted(usage, steps, w);
    HoldsInView(w, s, t, p);
    Theorems.NoPrematureRemoval(Projection(steps), s, t, p.id);
    KnownBoth(usage, w.daemon, s.daemon, p.id);
    InvExecute(usage, INIT, steps, w);
    OnlyRemoversReach(usage, w, t, p, step);
    NonInterference.RemovesOnlyReached(w, step);
  }

  /** Only a test that made itself responsible asks to remove an internal container. */
  lemma OnlyRemoversReach(usage: Usage, w: World, t: TestId, p: PendingContainer, step: Step)
    requires Inv(usage, w) && Enabled(usage, w, step)
    requires t in w.tests && p in w.tests[t].kept && p.management == Some(Internal)
    ensures p.id in NonInterference.Reaches(w, step) ==>
              step.RemoveInternal? && step.t in Protocol.Removers(Views(w.tests), p.id)
  {
    assert TestShape(usage, w, t) && Managed(usage, w, p);
    if step.Prune? {
      OwnAreOther(usage, w, step.t, p);
    }
  }

  lemma OwnAreOther(usage: Usage, w: World, t: TestId, p: PendingContainer)
    requires Inv(usage, w) && t in w.tests && Managed(usage, w, p) && p.management == Some(Internal)
    ensures p.id !in w.tests[t].OwnIds()
  {
    assert TestShape(usage, w, t);
    forall q | q in w.tests[t].kept && !q.isStatic
      ensures q.id != p.id
    {
      assert Managed(usage, w, q);
    }
  }

  /** A test with a network of its own stays connected to the internal containers it holds, whatever happens. */
  lemma HeldIsConnected(usage: Usage, steps: seq<Step>, w: World, t: TestId, p: PendingContainer)
    requires Execute(usage, INIT, steps) == Some(w) && Uncrowded(usage, steps) && Holds(w, t, p)
    requires w.tests[t].mode.Isolated? && w.tests[t].phase.Using?
    ensures (p.id, w.tests[t].network) in w.daemon.links
  {
    var s := Counted(usage, steps, w);
    HoldsInView(w, s, t, p);
    Theorems.NoPrematureRemoval(Projection(steps), s, t, p.id);
    Theorems.IsolatedConnectivity(Projection(steps), s, t, p.id);
    KnownBoth(usage, w.daemon, s.daemon, p.id);
  }

  /** An internal container is started at most once in the life of the process. */
  lemma InternalStartedOnce(usage: Usage, steps: seq<Step>, w: World, t: TestId, p: PendingContainer)
    requires Execute(usage, INIT, steps) == Some(w)
    requires t in w.tests && p in w.tests[t].kept && p.management == Some(Internal)
    ensures w.daemon.starts[p.id] <= 1
  {
    var s := Counted(usage, steps, w);
    Protocol.InvExecute(Projection(steps));
    assert p in InternalOnes(w.tests[t]);
    assert Protocol.TestShape(s, t);
    Theorems.StartedOnce(Projection(steps), s, p.id);
    KnownBoth(usage, w.daemon, s.daemon, p.id);
  }

  /** What a test got by starting a shared container is that very container. */
  lemma StartsKeepIdentity(usage: Usage, steps: seq<Step>, w: World, t: TestId, p: PendingContainer, r: StartResult)
    requires Execute(usage, INIT, steps) == Some(w) && Uncrowded(usage, steps)
    requires t in w.tests && (p, r) in w.tests[t].results
    ensures p in w.tests[t].kept && (r.Success? ==> r.value == OperationalOf(p))
  {
    InvExecute(usage, INIT, steps, w);
    assert TestShape(usage, w, t) && ResultShape(w, w.tests[t], p, r);
    if p.management == Some(Internal) {
      var s := Counted(usage, steps, w);
      assert (p, r) in s.tests[t].results;
      ResultIsOutcome(Projection(steps), s, t, p, r);
    }
  }

  /** A start of an internal container that succeeds, also one that outlived its test, returns the container it was
      asked for exactly if somebody uses that container at the time. */
  lemma StartReturnsOwnExactly(usage: Usage, steps: seq<Step>, w: World, t: TestId, p: PendingContainer,
                               reply: Docker.Reply)
    requires Execute(usage, INIT, steps) == Some(w) && Uncrowded(usage, steps)
    requires Enabled(usage, w, StartStatic(t, p, reply)) && p.management == Some(Internal)
    ensures var r := Statics.StartSpec(w.statics, w.daemon, p, reply).2;
            r.Success? ==> (r.value.id == p.id <==> Crowd(usage, steps, p.id) > 0)
  {
    var s := Counted(usage, steps, w);
    StartInView(w, s, t, p, reply);
    Theorems.StartReturnsOwnExactly(Projection(steps), s, t, p, reply);
    CrowdInView(usage, steps, w, s, p.id);
  }

  lemma StartInView(w: World, s: Protocol.Sys, t: TestId, p: PendingContainer, reply: Docker.Reply)
    requires s.tests == Views(w.tests) && s.registry == w.statics.internal
    requires t in w.tests && p in w.tests[t].kept && p.management == Some(Internal)
    ensures Protocol.Enabled(s, Protocol.Start(t, p, reply))
    ensures Statics.StartSpec(w.statics, w.daemon, p, reply).2 == Internal.StartSpec(s.registry, s.daemon, p, reply).2
  {
    assert p in InternalOnes(w.tests[t]);
  }

  lemma CrowdInView(usage: Usage, steps: seq<Step>, w: World, s: Protocol.Sys, id: Id)
    requires Execute(usage, INIT, steps) == Some(w) && Simulates(usage, w, s) && Tracks(usage, steps, s)
    requires id in s.leak
    ensures Crowd(usage, steps, id) > 0 <==> Protocol.Holders(s.tests, id) != {} || s.leak[id] > 0
  {
    CrowdIsUsers(usage, steps, w, s);
    assert Protocol.UsersOf(s.tests, s.leak, id) == Crowd(usage, steps, id);
  }

  lemma ResultIsOutcome(run: seq<Protocol.Step>, s: Protocol.Sys, t: TestId, p: PendingContainer, r: StartResult)
    requires Protocol.Execute(run) == Some(s) && Protocol.Bounded(s)
    requires t in s.tests && (p, r) in s.tests[t].results && p in s.tests[t].pendings
    ensures p.id in s.outcome && s.outcome[p.id] == r && (r.Success? ==> r.value == OperationalOf(p))
  {
    Protocol.InvExecute(run);
    assert Protocol.TestShape(s, t) && Protocol.Agreeing(s, t) && Protocol.LedgerAt(s, p.id);
  }

  /** All tests that start an internal container get the same container or the same error. */
  lemma InternalStartsAgree(usage: Usage, steps: seq<Step>, w: World, t: TestId, p: PendingContainer, r: StartResult,
                            u: TestId, q: PendingContainer, x: StartResult)
    requires Execute(usage, INIT, steps) == Some(w) && Uncrowded(usage, steps)
    requires t in w.tests && (p, r) in w.tests[t].results && p.management == Some(Internal)
    requires u in w.tests && (q, x) in w.tests[u].results && q.management == Some(Internal)
    requires p.id == q.id
    ensures r == x
  {
    InvExecute(usage, INIT, steps, w);
    assert TestShape(usage, w, t) && ResultShape(w, w.tests[t], p, r);
    assert TestShape(usage, w, u) && ResultShape(w, w.tests[u], q, x);
    var s := Counted(usage, steps, w);
    ResultIsOutcome(Projection(steps), s, t, p, r);
    ResultIsOutcome(Projection(steps), s, u, q, x);
  }

  // --- names that are of no use any more ------------------------------------------------------------------

  ghost predicate Refusing(w: World, n: Name, error: Error) {
    && n in w.statics.internal
    && w.statics.internal[n].status.Failed? && w.statics.internal[n].status.error == error
  }

  /** The container created last under the name, if any, was lost or has a use that leaked. */
  ghost predicate OutOfReach(usage: Usage, steps: seq<Step>, n: Name) {
    match LastCreated(usage, steps, n)
    case None => true
    case Some(id) => LostIn(usage, steps, id) || LeakCount(usage, steps, id) > 0
  }

  /** A failed internal entry whose container is out of reach refuses every later creation with the same error, in
      every continuation of the run. */
  lemma RefusedForGood(usage: Usage, steps: seq<Step>, w: World, more: seq<Step>, w': World, n: Name, error: Error)
    requires Execute(usage, INIT, steps) == Some(w) && Refusing(w, n, error) && OutOfReach(usage, steps, n)
    requires Execute(usage, INIT, steps + more) == Some(w') && Uncrowded(usage, steps + more)
    ensures Refusing(w', n, error)
  {
    var s := Counted(usage, steps, w);
    var s' := Counted(usage, steps + more, w');
    var run := ProjectionOfMore(steps, more);
    OutOfReachInView(usage, steps, w, s, n);
    Refusals.RefusesForGood(Projection(steps), run, n, error);
  }

  lemma OutOfReachInView(usage: Usage, steps: seq<Step>, w: World, s: Protocol.Sys, n: Name)
    requires Protocol.Execute(Projection(steps)) == Some(s) && Simulates(usage, w, s) && Tracks(usage, steps, s)
    requires n in w.statics.internal && w.statics.internal[n].status.Failed? && OutOfReach(usage, steps, n)
    ensures Refusals.OutOfReach(s, n)
  {
    assert OwnerOf(s, n) == LastCreated(usage, steps, n);
    if n in s.owner {
      assert LeakOf(s, s.owner[n]) == LeakCount(usage, steps, s.owner[n]);
    }
  }

  lemma {:induction false} ProjectionOfMore(steps: seq<Step>, more: seq<Step>) returns (run: seq<Protocol.Step>)
    ensures Projection(steps + more) == Projection(steps) + run
  {
    if more == [] {
      run := [];
      assert steps + more == steps;
    } else {
      var less, step := more[..|more| - 1], more[|more| - 1];
      assert steps + more == (steps + less) + [step];
      run := ProjectionOfMore(steps, less);
      ProjectionMore(steps + less, step);
      if Concerns(step) {
        assert Projection(steps) + run + [Counterpart(step)] == Projection(steps) + (run + [Counterpart(step)]);
        run := run + [Counterpart(step)];
      }
    }
  }

  // --- what is left at the end ----------------------------------------------------------------------------

  /** The process made the container: some test has it, or the request that made it leaked. */
  ghost predicate MadeHere(usage: Usage, steps: seq<Step>, w: World, id: Id) {
    LeakCount(usage, steps, id) > 0 || exists t :: t in w.tests && Keeps(w.tests[t], id)
  }

  /** When all tests are done, the daemon was asked exactly once to remove each internal container all of whose uses
      were taken back, and never to remove one with a leaked use, or one that a failed start made its entry forget. */
  lemma Drained(usage: Usage, steps: seq<Step>, w: World, id: Id)
    requires Execute(usage, INIT, steps) == Some(w) && Uncrowded(usage, steps)
    requires forall t :: t in w.tests ==> w.tests[t].phase == Protocol.Removing({})
    requires MadeHere(usage, steps, w, id)
    ensures w.daemon.removals[id] == if LeakCount(usage, steps, id) == 0 && !LostIn(usage, steps, id) then 1 else 0
  {
    var s := Counted(usage, steps, w);
    MadeInView(usage, steps, w, s, id);
    KnownBoth(usage, w.daemon, s.daemon, id);
    if LostIn(usage, steps, id) {
      Theorems.LostIsNeverRemoved(Projection(steps), s, id);
    } else {
      assert LeakOf(s, id) == LeakCount(usage, steps, id);
      Theorems.Quiescence(Projection(steps), s, id);
    }
  }

  lemma MadeInView(usage: Usage, steps: seq<Step>, w: World, s: Protocol.Sys, id: Id)
    requires Protocol.Execute(Projection(steps)) == Some(s) && Simulates(usage, w, s) && Tracks(usage, steps, s)
    requires MadeHere(usage, steps, w, id)
    ensures id in s.daemon.created
  {
    Protocol.InvExecute(Projection(steps));
    if LeakCount(usage, steps, id) > 0 {
      assert LeakOf(s, id) == LeakCount(usage, steps, id);
    } else {
      var t :| t in w.tests && Keeps(w.tests[t], id);
      var p :| p in w.tests[t].kept && p.management == Some(Internal) && p.id == id;
      assert p in InternalOnes(w.tests[t]);
      assert Protocol.TestShape(s, t);
    }
  }

  /** Entries never share a container, so a release asks to remove each container it retires exactly once. */
  lemma RetiredAsOnce(usage: Usage, steps: seq<Step>, w: World, toCleanup: set<Id>, id: Id)
    requires Execute(usage, INIT, steps) == Some(w)
    ensures var m := w.statics.internal;
            |Internal.RetiredAs(m, toCleanup, id)| == if id in Internal.Responsible(m, toCleanup) then 1 else 0
  {
    var m := w.statics.internal;
    InvExecute(usage, INIT, steps, w);
    if id in Internal.Responsible(m, toCleanup) {
      var n :| n in Internal.RetiredNames(m, toCleanup) && m[n].status.ContainerId().value == id;
      forall k | k in Internal.RetiredAs(m, toCleanup, id)
        ensures k == n
      {
        assert InternalShape(usage, w, k) && InternalShape(usage, w, n);
      }
      assert Internal.RetiredAs(m, toCleanup, id) == {n};
    } else {
      assert Internal.RetiredAs(m, toCleanup, id) == {};
    }
  }

  /** A build that checks its arithmetic never gets to a crowd. */
  lemma {:induction false} CheckedIsUncrowded(usage: Usage, steps: seq<Step>, w: World)
    requires Execute(usage, INIT, steps) == Some(w) && Limits.CheckedRun(Projection(steps))
    ensures Uncrowded(usage, steps) && forall id :: Crowd(usage, steps, id) <= 255
  {
    if steps == [] {
      NobodyYet(usage);
    } else {
      var before, step := steps[..|steps| - 1], steps[|steps| - 1];
      assert steps == before + [step];
      CheckedBefore(before, step);
      var w1 := LastStep(usage, INIT, steps);
      CheckedIsUncrowded(usage, before, w1);
      CheckedMore(usage, steps, w);
    }
  }

  lemma CheckedMore(usage: Usage, steps: seq<Step>, w: World)
    requires Execute(usage, INIT, steps) == Some(w) && Limits.CheckedRun(Projection(steps))
    requires steps != [] && Uncrowded(usage, steps[..|steps| - 1])
    ensures Uncrowded(usage, steps) && forall id :: Crowd(usage, steps, id) <= 255
  {
    CheckedCrowd(usage, steps, w);
  }

  lemma NobodyYet(usage: Usage)
    ensures Uncrowded(usage, []) && forall id :: Crowd(usage, [], id) <= 255
  {
    assert Execute(usage, INIT, []) == Some(INIT);
    assert forall id :: HoldersOf(INIT, id) == {};
  }

  lemma CheckedBefore(before: seq<Step>, step: Step)
    requires Limits.CheckedRun(Projection(before + [step]))
    ensures Limits.CheckedRun(Projection(before))
  {
    ProjectionMore(before, step);
    if Concerns(step) {
      var run := Projection(before);
      assert (run + [Counterpart(step)])[..|run|] == run;
    }
  }

  lemma CheckedCrowd(usage: Usage, steps: seq<Step>, w: World)
    requires Execute(usage, INIT, steps) == Some(w) && Limits.CheckedRun(Projection(steps))
    ensures forall id :: Crowd(usage, steps, id) <= 255
  {
    var s := Counted(usage, steps, w);
    Limits.CheckedIsBounded(Projection(steps));
    Protocol.InvExecute(Projection(steps));
    forall id
      ensures Crowd(usage, steps, id) <= 255
    {
      CrowdIsUsers(usage, steps, w, s);
      UsersAreCounted(s, id);
    }
  }

  /** Whom the daemon does not know nobody uses. */
  lemma UsersAreCounted(s: Protocol.Sys, id: Id)
    requires Protocol.Inv(s) && Protocol.AtMost(s, 255)
    ensures Protocol.UsersOf(s.tests, s.leak, id) <= 255
  {
    if id in s.peak {
      assert Protocol.Within(s, id) && s.peak[id] <= 255;
    } else {
      forall t | t in s.tests
        ensures id !in s.tests[t].held
      {
        assert Protocol.TestShape(s, t);
      }
      assert Protocol.Holders(s.tests, id) == {};
    }
  }

  // --- dynamic containers ---------------------------------------------------------------------------------

  /** All tests that start the dynamic container of a name get the same container or the same error. */
  lemma DynamicStartsAgree(usage: Usage, steps: seq<Step>, w: World, t: TestId, p: PendingContainer, r: StartResult,
                           u: TestId, q: PendingContainer, x: StartResult)
    requires Execute(usage, INIT, steps) == Some(w)
    requires t in w.tests && (p, r) in w.tests[t].results && p.management == Some(Dynamic)
    requires u in w.tests && (q, x) in w.tests[u].results && q.management == Some(Dynamic)
    requires p.name == q.name
    ensures r == x && (r.Success? ==> r.value == OperationalOf(p))
  {
    InvExecute(usage, INIT, steps, w);
    assert TestShape(usage, w, t) && ResultShape(w, w.tests[t], p, r);
    assert TestShape(usage, w, u) && ResultShape(w, w.tests[u], q, x);
  }

  /** The daemon was asked to start a dynamic container at most once, and not before its entry says so. */
  ghost predicate StartedAtMostOnce(usage: Usage, w: World) {
    && (forall id :: id in w.daemon.starts ==> id in w.daemon.created)
    && (forall id :: UsedAs(usage, w, id, Some(Dynamic)) ==> w.daemon.starts[id] <= 1)
    && (forall n :: n in w.statics.dynamic && w.statics.dynamic[n].Pending? ==>
          w.daemon.starts[w.statics.dynamic[n].pending.id] == 0)
  }

  lemma {:induction false} DynamicStartedOnce(usage: Usage, steps: seq<Step>, w: World)
    requires Execute(usage, INIT, steps) == Some(w)
    ensures StartedAtMostOnce(usage, w)
  {
    if steps != [] {
      var before, step := steps[..|steps| - 1], steps[|steps| - 1];
      var w1 := LastStep(usage, INIT, steps);
      DynamicStartedOnce(usage, before, w1);
      InvExecute(usage, INIT, before, w1);
      StartsNext(usage, w1, step);
    }
  }

  lemma StartsNext(usage: Usage, w: World, step: Step)
    requires Inv(usage, w) && StartedAtMostOnce(usage, w) && Enabled(usage, w, step)
    ensures StartedAtMostOnce(usage, Next(w, step))
  {
    InvNext(usage, w, step);
    match step
    case StartStatic(t, p, reply) => StartsStart(usage, w, t, p, reply);
    case CreateStatic(t, c, replies) => StartsCreate(usage, w, t, c, replies);
    case _ =>
  }

  /** The container a start asks the daemon to start, if any. */
  function StartTarget(m: Statics.Statics, p: PendingContainer): Option<Id> {
    match p.management
    case Some(Internal) =>
      if p.name in m.internal && m.internal[p.name].status.Pending? then Some(m.internal[p.name].status.pending.id)
      else None
    case Some(Dynamic) =>
      if p.name in m.dynamic && m.dynamic[p.name].Pending? then Some(m.dynamic[p.name].pending.id) else None
    case _ => None
  }

  lemma StartsTarget(m: Statics.Statics, d: Docker.State, p: PendingContainer, reply: Docker.Reply)
    ensures var (m', d', _) := Statics.StartSpec(m, d, p, reply);
            && d'.starts == (if StartTarget(m, p).Some? then d.starts + multiset{StartTarget(m, p).value} else d.starts)
            && d'.created == d.created
            && m'.dynamic.Keys == m.dynamic.Keys
            && forall n :: n in m'.dynamic && m'.dynamic[n].Pending? ==>
                 m'.dynamic[n] == m.dynamic[n] && (p.management == Some(Dynamic) ==> n != p.name)
  {
  }

  lemma StartsStart(usage: Usage, w: World, t: TestId, p: PendingContainer, reply: Docker.Reply)
    requires Inv(usage, w) && StartedAtMostOnce(usage, w) && Enabled(usage, w, StartStatic(t, p, reply))
    ensures StartedAtMostOnce(usage, Next(w, StartStatic(t, p, reply)))
  {
    var w' := Next(w, StartStatic(t, p, reply));
    StartsTarget(w.statics, w.daemon, p, reply);
    var target := StartTarget(w.statics, p);
    if target.Some? {
      TargetIsManaged(usage, w, p);
      forall n | n in w'.statics.dynamic && w'.statics.dynamic[n].Pending?
        ensures w'.daemon.starts[w'.statics.dynamic[n].pending.id] == 0
      {
        assert DynamicShape(usage, w, n);
      }
    }
  }

  lemma TargetIsManaged(usage: Usage, w: World, p: PendingContainer)
    requires Inv(usage, w) && StartTarget(w.statics, p).Some?
    ensures var id := StartTarget(w.statics, p).value;
            UsedAs(usage, w, id, p.management) && w.daemon.created[id] == p.name
  {
    if p.management == Some(Dynamic) {
      assert DynamicShape(usage, w, p.name);
    } else {
      assert InternalShape(usage, w, p.name);
    }
  }

  lemma StartsCreate(usage: Usage, w: World, t: TestId, c: Composition, replies: Statics.CreateReplies)
    requires Inv(usage, w) && StartedAtMostOnce(usage, w) && Enabled(usage, w, CreateStatic(t, c, replies))
    ensures StartedAtMostOnce(usage, Next(w, CreateStatic(t, c, replies)))
  {
    CreateStartsNothing(w.statics, w.daemon, c, w.tests[t].network, w.tests[t].mode, replies);
    InvNext(usage, w, CreateStatic(t, c, replies));
  }

  /** Nothing is started, and what is pending now was pending before or is new. */
  ghost predicate StartsNothing(m: Dynamic.Registry, d: Docker.State, m': Dynamic.Registry, d': Docker.State) {
    && d'.starts == d.starts && Remembers(d, d')
    && forall n :: n in m' && m'[n].Pending? ==> (n in m && m'[n] == m[n]) || m'[n].pending.id !in d.created
  }

  lemma CreateStartsNothing(m: Statics.Statics, d: Docker.State, c: Composition, network: NetworkName, mode: Network,
                            replies: Statics.CreateReplies)
    requires Statics.Fresh(d, replies)
    ensures var (m', d', _) := Statics.CreateSpec(m, d, c, Some(network), mode, replies);
            StartsNothing(m.dynamic, d, m'.dynamic, d')
  {
    match c.management
    case None =>
    case Some(Internal) => InternalStartsNothing(m.internal, d, c, network, mode, replies.internal);
    case Some(External) =>
    case Some(Dynamic) => DynamicStartsNothing(m.dynamic, d, c, network, mode, replies.dynamic);
  }

  lemma InternalStartsNothing(m: Internal.Registry, d: Docker.State, c: Composition, network: NetworkName,
                              mode: Network, replies: Internal.CreateReplies)
    requires Internal.Fresh(d, replies)
    ensures var d' := Internal.CreateSpec(m, d, c, Some(network), mode, replies).1;
            d'.starts == d.starts && Remembers(d, d')
  {
  }

  lemma DynamicStartsNothing(m: Dynamic.Registry, d: Docker.State, c: Composition, network: NetworkName, mode: Network,
                             replies: Dynamic.CreateReplies)
    requires Dynamic.Fresh(d, replies)
    ensures var (m', d', _) := Dynamic.CreateSpec(m, d, c, Some(network), mode, replies);
            StartsNothing(m, d, m', d')
  {
  }
}
