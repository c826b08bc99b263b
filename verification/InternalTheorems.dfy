/** What the internal registry promises about every run of any number of tests. */
module InternalTheorems {
  import opened Containers
  import Docker
  import opened InternalContainers
  import opened InternalProtocol

  /** No container is removed, or about to be removed, while a test holds it. The removal requests come
      after the lock is released, so `Removers` covers the time between the two. */
  lemma NoPrematureRemoval(steps: seq<Step>, s: Sys, t: TestId, id: Id)
    requires Execute(steps) == Some(s) && Bounded(s)
    requires t in s.tests && id in s.tests[t].held
    ensures id in s.daemon.created && id !in s.daemon.removed && id !in s.daemon.removals
    ensures Removers(s.tests, id) == {}
  {
    InvExecute(steps);
    HeldIsCurrent(s, t, id);
    assert LedgerAt(s, id) && TestShape(s, t);
  }

  /** The counter counts the tests holding the container and the leaks, of which there is at least one: modulo its
      width in every state, and exactly as long as there are no more than it can count. */
  lemma ExactAccounting(steps: seq<Step>, s: Sys, n: Name, id: Id)
    requires Execute(steps) == Some(s)
    requires n in s.registry && s.registry[n].status.ContainerId() == Some(id) && id !in s.lost
    requires n in s.owner ==> s.owner[n] !in s.lost
    ensures id in s.leak && s.registry[n].completionCounter == (|Holders(s.tests, id)| + s.leak[id]) % 256
    ensures |Holders(s.tests, id)| + s.leak[id] >= 1
    ensures |Holders(s.tests, id)| + s.leak[id] <= 255 ==>
              s.registry[n].completionCounter == |Holders(s.tests, id)| + s.leak[id]
  {
    InvExecute(steps);
    RemembersOwner(s, n, id);
    CountedUsers(s, n, id);
  }

  lemma RemembersOwner(s: Sys, n: Name, id: Id)
    requires Shape(s) && n in s.registry && s.registry[n].status.ContainerId() == Some(id) && id !in s.lost
    requires n in s.owner ==> s.owner[n] !in s.lost
    ensures n in s.owner && s.owner[n] == id
  {
    assert EntryShape(s, n);
  }

  lemma CountedUsers(s: Sys, n: Name, id: Id)
    requires Accounting(s) && n in s.owner && s.owner[n] == id && id !in s.lost
    ensures n in s.registry && id in s.leak
    ensures s.registry[n].completionCounter == (|Holders(s.tests, id)| + s.leak[id]) % 256
    ensures |Holders(s.tests, id)| + s.leak[id] >= 1
    ensures |Holders(s.tests, id)| + s.leak[id] <= 255 ==>
              s.registry[n].completionCounter == |Holders(s.tests, id)| + s.leak[id]
  {
    assert Balanced(s, n);
    assert Users(s, id) == |Holders(s.tests, id)| + s.leak[id];
  }

  /** Letting go of a container retires it exactly when the remaining users are a multiple of 256. */
  lemma ReleaseRetiresExactly(steps: seq<Step>, s: Sys, t: TestId, n: Name)
    requires Execute(steps) == Some(s) && Enabled(s, Release(t))
    requires n in s.owner && s.owner[n] !in s.lost && s.owner[n] in s.tests[t].held
    ensures n in s.registry && s.owner[n] in s.leak
    ensures Next(s, Release(t)).registry[n].status.Cleaned?
       <==> (|Holders(s.tests, s.owner[n]) - {t}| + s.leak[s.owner[n]]) % 256 == 0
  {
    InvExecute(steps);
    assert Owned(s, n) && EntryShape(s, n) && Balanced(s, n);
    ReleaseRetires(s, t, n);
  }

  lemma ReleaseRetires(s: Sys, t: TestId, n: Name)
    requires t in s.tests && n in s.registry && n in s.owner && s.owner[n] !in s.lost && s.owner[n] in s.tests[t].held
    requires EntryShape(s, n) && Balanced(s, n)
    ensures NextDecrement(s, t).registry[n].status.Cleaned?
       <==> (|Holders(s.tests, s.owner[n]) - {t}| + s.leak[s.owner[n]]) % 256 == 0
  {
    var holders := Holders(s.tests, s.owner[n]);
    assert t in holders;
    assert |holders - {t}| == |holders| - 1;
    CountDown(Users(s, s.owner[n]), s.registry[n].completionCounter);
    assert s.registry[n].status.ContainerId() == Some(s.owner[n]);
  }

  /** A test that lets go of a container makes itself responsible to remove what others still hold exactly when
      others hold it and the counter has wrapped: the remaining users are a multiple of 256. */
  lemma PrematureExactly(steps: seq<Step>, s: Sys, t: TestId, n: Name)
    requires Execute(steps) == Some(s) && Enabled(s, Release(t))
    requires n in s.owner && s.owner[n] !in s.lost && s.owner[n] in s.tests[t].held
    ensures n in s.registry && s.owner[n] in s.leak
    ensures var (s', id) := (Next(s, Release(t)), s.owner[n]);
            && t in s'.tests && s'.tests[t].phase.Removing?
            && (id in s'.tests[t].phase.todo && Holders(s'.tests, id) != {}
                <==> Holders(s.tests, id) - {t} != {} && (|Holders(s.tests, id) - {t}| + s.leak[id]) % 256 == 0)
  {
    InvExecute(steps);
    assert Owned(s, n) && Balanced(s, n);
    PrematureAt(s, t, n);
  }

  lemma PrematureAt(s: Sys, t: TestId, n: Name)
    requires Shape(s) && Enabled(s, Release(t)) && n in s.registry && n in s.owner
    requires s.owner[n] !in s.lost && s.owner[n] in s.tests[t].held && Balanced(s, n)
    ensures var (s', id) := (NextDecrement(s, t), s.owner[n]);
            && t in s'.tests && s'.tests[t].phase.Removing?
            && (id in s'.tests[t].phase.todo && Holders(s'.tests, id) != {}
                <==> Holders(s.tests, id) - {t} != {} && (|Holders(s.tests, id) - {t}| + s.leak[id]) % 256 == 0)
  {
    assert EntryShape(s, n);
    ReleaseRetires(s, t, n);
    ResponsibleFor(s, t, n);
    DecrementHolders(s, NextDecrement(s, t), t);
  }

  /** A test becomes responsible for a container when its entry is retired, and only then. */
  lemma ResponsibleFor(s: Sys, t: TestId, n: Name)
    requires Shape(s) && t in s.tests && n in s.owner && s.owner[n] !in s.lost && s.owner[n] in s.tests[t].held
    ensures n in s.registry
    ensures s.owner[n] in Responsible(s.registry, s.tests[t].held)
       <==> NextDecrement(s, t).registry[n].status.Cleaned?
  {
    var id := s.owner[n];
    assert Owned(s, n) && EntryShape(s, n);
    assert s.registry[n].status.ContainerId() == Some(id);
    forall k | k in s.registry && s.registry[k].status.ContainerId() == Some(id)
      ensures k == n
    {
      assert EntryShape(s, k) && (k in s.owner ==> Owned(s, k));
    }
    assert id in Responsible(s.registry, s.tests[t].held) <==> n in RetiredNames(s.registry, s.tests[t].held);
  }

  /** A container's removal has been scheduled exactly when no test holds it and no registration leaked. */
  lemma ScheduledExactly(steps: seq<Step>, s: Sys, id: Id)
    requires Execute(steps) == Some(s) && Bounded(s)
    requires id in s.daemon.created && id !in s.lost
    ensures id in s.leak
    ensures id in s.scheduled <==> Holders(s.tests, id) == {} && s.leak[id] == 0
  {
    InvExecute(steps);
    if id in s.scheduled {
      assert Retired(s, id);
    } else {
      assert Current(s, id);
      assert Balanced(s, s.daemon.created[id]);
    }
  }

  ghost predicate Finished(s: Sys) {
    forall t :: t in s.tests ==> s.tests[t].phase == Removing({})
  }

  /** Once every test has finished cleaning up, over any number of generations, each container has been
      removed by exactly one request, or leaked and was never asked to be removed. */
  lemma Quiescence(steps: seq<Step>, s: Sys, id: Id)
    requires Execute(steps) == Some(s) && Bounded(s) && Finished(s)
    requires id in s.daemon.created && id !in s.lost
    ensures id in s.leak && s.daemon.removals[id] == if s.leak[id] == 0 then 1 else 0
    ensures s.leak[id] == 0 && s.daemon.created[id] in s.registry ==>
              var n := s.daemon.created[id];
              n in s.owner ==> s.owner[n] != id
  {
    InvExecute(steps);
    ScheduledExactly(steps, s, id);
    assert Holders(s.tests, id) == {} by {
      forall t | t in s.tests
        ensures id !in s.tests[t].held
      {
        assert TestShape(s, t);
      }
    }
    assert Removers(s.tests, id) == {};
    assert LedgerAt(s, id);
    if s.leak[id] == 0 {
      assert Retired(s, id);
    }
  }

  /** The entry of a name none of whose containers leaked ends up cleaned, unless the last attempt to
      create one failed. */
  lemma QuiescentEntry(steps: seq<Step>, s: Sys, n: Name)
    requires Execute(steps) == Some(s) && Bounded(s) && Finished(s) && n in s.registry
    requires forall id :: id in s.daemon.created && s.daemon.created[id] == n ==>
               id !in s.lost && id in s.leak && s.leak[id] == 0
    ensures s.registry[n].status.Cleaned? || s.registry[n].status.ContainerId().None?
  {
    InvExecute(steps);
    assert EntryShape(s, n);
    if n in s.owner {
      assert Owned(s, n);
      Quiescence(steps, s, s.owner[n]);
    }
  }

  /** A test that holds a container never finds its entry missing or cleaned when it starts it, and what
      it gets back is that very container. */
  lemma HoldingPinsIdentity(steps: seq<Step>, s: Sys, t: TestId, p: PendingContainer, reply: Docker.Reply)
    requires Execute(steps) == Some(s) && Bounded(s)
    requires Enabled(s, Start(t, p, reply)) && p.id in s.tests[t].held
    ensures p.name in s.registry && !s.registry[p.name].status.Cleaned?
    ensures s.owner.Keys >= {p.name} && s.owner[p.name] == p.id
    ensures var r := StartSpec(s.registry, s.daemon, p, reply).2;
            r.Success? ==> r.value == OperationalOf(p)
  {
    InvExecute(steps);
    assert TestShape(s, t);
    HeldIsCurrent(s, t, p.id);
    StartReturnsOutcome(s, t, p, reply);
    assert Owned(s, p.name) && EntryShape(s, p.name);
  }

  /** The entry of a name stands for a container exactly as long as it has users, or when it has forgotten it. */
  lemma CurrentExactly(steps: seq<Step>, s: Sys, id: Id)
    requires Execute(steps) == Some(s) && Bounded(s) && id in s.daemon.created
    ensures id in s.leak
    ensures Current(s, id) <==> Holders(s.tests, id) != {} || s.leak[id] > 0 || id in s.lost
  {
    InvExecute(steps);
    if id in s.lost {
      LostIsNeverRemoved(steps, s, id);
      assert !Current(s, id) ==> id in s.scheduled;
    } else {
      ScheduledExactly(steps, s, id);
      assert id in s.scheduled ==> Retired(s, id);
    }
  }

  /** Whoever starts a container, holding it or not: a start that succeeds returns that container exactly if it has
      users, be they tests that hold it or leaks. With users it meets an entry that is not cleaned, and its result is
      the one outcome the start of the container has. */
  lemma StartReturnsOwnExactly(steps: seq<Step>, s: Sys, t: TestId, p: PendingContainer, reply: Docker.Reply)
    requires Execute(steps) == Some(s) && Bounded(s) && Enabled(s, Start(t, p, reply))
    ensures p.id in s.leak
    ensures var (users, r) := (Holders(s.tests, p.id) != {} || s.leak[p.id] > 0,
                               StartSpec(s.registry, s.daemon, p, reply).2);
            && (r.Success? ==> (r.value.id == p.id <==> users) && (users ==> r.value == OperationalOf(p)))
            && (users || p.id in s.lost ==>
                  && p.name in s.registry && !s.registry[p.name].status.Cleaned?
                  && p.id in Next(s, Start(t, p, reply)).outcome && Next(s, Start(t, p, reply)).outcome[p.id] == r)
  {
    InvExecute(steps);
    assert TestShape(s, t);
    CurrentExactly(steps, s, p.id);
    StartMeetsOwner(s, t, p, reply);
  }

  lemma StartMeetsOwner(s: Sys, t: TestId, p: PendingContainer, reply: Docker.Reply)
    requires Shape(s) && Enabled(s, Start(t, p, reply))
    requires p.id in s.daemon.created && s.daemon.created[p.id] == p.name && SharedAs(p, p.name)
    ensures var r := StartSpec(s.registry, s.daemon, p, reply).2;
            && (r.Success? ==> (r.value.id == p.id <==> Current(s, p.id))
                               && (r.value.id == p.id ==> r.value == OperationalOf(p)))
            && (Current(s, p.id) && p.id in s.lost ==> r.Failure?)
            && (Current(s, p.id) ==>
                  && p.name in s.registry && !s.registry[p.name].status.Cleaned?
                  && p.id in NextStart(s, t, p, reply).outcome && NextStart(s, t, p, reply).outcome[p.id] == r)
  {
    assert p.name in s.registry ==> EntryShape(s, p.name);
    assert p.name in s.owner ==> Owned(s, p.name);
  }

  /** The daemon is asked to start a container at most once. */
  lemma StartedOnce(steps: seq<Step>, s: Sys, id: Id)
    requires Execute(steps) == Some(s)
    ensures s.daemon.starts[id] <= 1
  {
    InvExecute(steps);
    assert LedgerAt(s, id);
  }

  lemma OutcomeKept(s: Sys, step: Step, id: Id)
    requires Inv(s) && Enabled(s, step) && id in s.outcome
    ensures id in Next(s, step).outcome && Next(s, step).outcome[id] == s.outcome[id]
  {
    if step.Start? && Starting(s.registry, step.p.name) {
      assert EntryShape(s, step.p.name);
    }
  }

  /** What the step at position `i`, a start, returned. */
  ghost function StartResultAt(steps: seq<Step>, i: nat): StartResult
    requires i < |steps| && steps[i].Start? && Execute(steps[..i]).Some?
  {
    var s := Execute(steps[..i]).value;
    StartSpec(s.registry, s.daemon, steps[i].p, steps[i].reply).2
  }

  ghost predicate HolderStarts(steps: seq<Step>, i: nat, id: Id)
    requires i < |steps|
  {
    && steps[i].Start? && steps[i].p.id == id && Execute(steps[..i]).Some?
    && steps[i].t in Execute(steps[..i]).value.tests && id in Execute(steps[..i]).value.tests[steps[i].t].held
  }

  lemma {:induction false} PrefixExecutes(steps: seq<Step>, i: nat)
    requires i <= |steps| && Execute(steps).Some?
    ensures Execute(steps[..i]).Some?
    ensures Bounded(Execute(steps).value) ==> Bounded(Execute(steps[..i]).value)
  {
    if i == |steps| {
      assert steps[..i] == steps;
    } else {
      var before := steps[..|steps| - 1];
      InvExecute(before);
      if Bounded(Execute(steps).value) {
        BoundedBackwards(Execute(before).value, steps[|steps| - 1]);
      }
      PrefixExecutes(before, i);
      assert before[..i] == steps[..i];
    }
  }

  lemma BoundedBackwards(s: Sys, step: Step)
    requires Inv(s) && Enabled(s, step) && Bounded(Next(s, step))
    ensures Bounded(s)
  {
    var s' := Next(s, step);
    forall id | id in s.peak
      ensures id in s'.peak && s.peak[id] <= s'.peak[id]
    {
      if step.Create? && Generates(s.registry, step.c.containerName) && step.replies.created.Success? {
        assert step.replies.created.value !in s.daemon.created;
      }
    }
  }

  /** Position `k` of a run: the state before it, in which nothing went wrong, leads to the state after it. */
  ghost predicate Leads(states: seq<Sys>, steps: seq<Step>, k: nat)
    requires |states| == |steps| + 1 && k < |steps|
  {
    Inv(states[k]) && Bounded(states[k]) && Enabled(states[k], steps[k]) && states[k + 1] == Next(states[k], steps[k])
  }

  /** The states a run goes through. */
  lemma StatesOf(steps: seq<Step>) returns (states: seq<Sys>)
    requires Execute(steps).Some? && Bounded(Execute(steps).value)
    ensures |states| == |steps| + 1 && states[|steps|] == Execute(steps).value
    ensures forall k: nat {:trigger states[k]} :: k <= |steps| ==> Execute(steps[..k]) == Some(states[k])
    ensures forall k: nat {:trigger Leads(states, steps, k)} :: k < |steps| ==> Leads(states, steps, k)
  {
    forall k: nat | k <= |steps|
      ensures Execute(steps[..k]).Some?
    {
      PrefixExecutes(steps, k);
    }
    states := seq(|steps| + 1, k requires 0 <= k <= |steps| => Execute(steps[..k]).value);
    forall k: nat | k < |steps|
      ensures Leads(states, steps, k)
    {
      PrefixExecutes(steps, k);
      InvExecute(steps[..k]);
      var s := LastStep(steps[..k + 1]);
      assert steps[..k + 1][..k] == steps[..k];
    }
    assert steps[..|steps|] == steps;
  }

  lemma LastStep(steps: seq<Step>) returns (s: Sys)
    requires steps != [] && Execute(steps).Some?
    ensures Execute(steps[..|steps| - 1]) == Some(s)
    ensures Enabled(s, steps[|steps| - 1]) && Execute(steps) == Some(Next(s, steps[|steps| - 1]))
  {
    s := Execute(steps[..|steps| - 1]).value;
  }

  ghost predicate EndedAs(s: Sys, id: Id, r: StartResult) {
    id in s.outcome && s.outcome[id] == r
  }

  lemma EndedAsKept(s: Sys, step: Step, s': Sys, id: Id, r: StartResult)
    requires Inv(s) && Enabled(s, step) && s' == Next(s, step) && EndedAs(s, id, r)
    ensures EndedAs(s', id, r)
  {
    OutcomeKept(s, step, id);
  }

  lemma HolderGetsOutcome(s: Sys, step: Step, s': Sys)
    requires Inv(s) && Bounded(s) && Enabled(s, step) && s' == Next(s, step)
    requires step.Start? && step.p.id in s.tests[step.t].held
    ensures EndedAs(s', step.p.id, StartSpec(s.registry, s.daemon, step.p, step.reply).2)
  {
    StartReturnsOutcome(s, step.t, step.p, step.reply);
  }

  lemma {:induction false} OutcomeStays(states: seq<Sys>, steps: seq<Step>, i: nat, k: nat, id: Id, r: StartResult)
    requires |states| == |steps| + 1 && i <= k <= |steps| && EndedAs(states[i], id, r)
    requires forall k: nat {:trigger Leads(states, steps, k)} :: k < |steps| ==> Leads(states, steps, k)
    ensures EndedAs(states[k], id, r)
    decreases k
  {
    if i < k {
      OutcomeStays(states, steps, i, k - 1, id, r);
      LeadsKeeps(states, steps, k - 1, id, r);
    }
  }

  lemma LeadsKeeps(states: seq<Sys>, steps: seq<Step>, k: nat, id: Id, r: StartResult)
    requires |states| == |steps| + 1 && k < |steps| && EndedAs(states[k], id, r)
    requires Leads(states, steps, k)
    ensures EndedAs(states[k + 1], id, r)
  {
    EndedAsKept(states[k], steps[k], states[k + 1], id, r);
  }

  lemma ResultIsOutcome(steps: seq<Step>, i: nat, id: Id)
    requires Execute(steps).Some? && Bounded(Execute(steps).value)
    requires i < |steps| && HolderStarts(steps, i, id)
    ensures id in Execute(steps).value.outcome && Execute(steps).value.outcome[id] == StartResultAt(steps, i)
  {
    var states := StatesOf(steps);
    assert Execute(steps[..i]) == Some(states[i]);
    assert Leads(states, steps, i);
    HolderGetsOutcome(states[i], steps[i], states[i + 1]);
    OutcomeStays(states, steps, i + 1, |steps|, id, StartResultAt(steps, i));
  }

  /** All tests that start a container while holding it get the same operational container or the same error. */
  lemma StartsAgree(steps: seq<Step>, i: nat, j: nat, id: Id)
    requires Execute(steps).Some? && Bounded(Execute(steps).value)
    requires i < |steps| && HolderStarts(steps, i, id)
    requires j < |steps| && HolderStarts(steps, j, id)
    ensures StartResultAt(steps, i) == StartResultAt(steps, j)
  {
    ResultIsOutcome(steps, i, id);
    ResultIsOutcome(steps, j, id);
  }

  /** A test with a network of its own stays connected to what it holds until its own cleanup. */
  lemma IsolatedConnectivity(steps: seq<Step>, s: Sys, t: TestId, id: Id)
    requires Execute(steps) == Some(s) && Bounded(s)
    requires t in s.tests && s.tests[t].mode.Isolated? && s.tests[t].phase.Using? && id in s.tests[t].held
    ensures (id, s.tests[t].network) in s.daemon.links
  {
    InvExecute(steps);
    assert Connected(s, t);
  }

  /** Networks that tests share are another matter: the cleanup of `t` takes the container of `u` off the
      network exactly when `u` uses the network of `t` and `t` holds the running container as well. */
  lemma SharedNetworkLosesLinkExactly(steps: seq<Step>, s: Sys, t: TestId, complied: set<Id>, u: TestId, id: Id)
    requires Execute(steps) == Some(s) && Enabled(s, Disconnect(t, complied))
    requires u in s.tests && (id, s.tests[u].network) in s.daemon.links && id in complied
    ensures (id, s.tests[u].network) !in Next(s, Disconnect(t, complied)).daemon.links
       <==> && s.tests[u].network == s.tests[t].network && id in s.tests[t].held
            && id in s.outcome && s.outcome[id].Success? && Current(s, id)
  {
    InvExecute(steps);
    if id in DisconnectTargets(s.registry, s.tests[t].held) {
      var n :| n in s.registry && s.registry[n].status.Operational? && s.registry[n].status.running.id == id;
      assert EntryShape(s, n) && Owned(s, n);
    }
    if Current(s, id) && id in s.outcome && s.outcome[id].Success? {
      var n := s.daemon.created[id];
      assert Owned(s, n) && EntryShape(s, n);
      assert s.registry[n].status.Operational?;
    }
  }

  /** A container's counter is raised in vain in three cases only: the container had failed to start, the test
      already holds it, or it was created but could not be attached to the network. */
  lemma LeaksExactly(steps: seq<Step>, s: Sys, step: Step, id: Id)
    requires Execute(steps) == Some(s) && Enabled(s, step)
    requires id in Next(s, step).leak
    ensures Next(s, step).leak[id] == (if id in s.leak then s.leak[id] else 0) + if Leaks(s, step, id) then 1 else 0
  {
    InvExecute(steps);
    match step
    case Create(t, c, replies) => CreateLeaks(s, t, c, replies, id);
    case Join(_, _, _) =>
    case Start(_, _, _) =>
    case Disconnect(_, _) =>
    case Release(_) =>
    case Remove(_, _, _) =>
  }

  lemma CreateLeaks(s: Sys, t: TestId, c: Composition, replies: CreateReplies, id: Id)
    requires Shape(s) && Ledger(s) && Enabled(s, Create(t, c, replies))
    requires id in NextCreate(s, t, c, replies).leak
    ensures NextCreate(s, t, c, replies).leak[id]
         == (if id in s.leak then s.leak[id] else 0) + if Leaks(s, Create(t, c, replies), id) then 1 else 0
  {
    var n := c.containerName;
    if Generates(s.registry, n) {
      GenerateLeaksExactly(s, t, c, replies, id);
    } else {
      assert EntryShape(s, n) && (n in s.owner ==> Owned(s, n));
      RegisterLeaksExactly(s, t, c, replies, id);
    }
  }

  lemma GenerateLeaksExactly(s: Sys, t: TestId, c: Composition, replies: CreateReplies, id: Id)
    requires s.leak.Keys == s.daemon.created.Keys && Enabled(s, Create(t, c, replies))
    requires Generates(s.registry, c.containerName) && id in NextCreate(s, t, c, replies).leak
    ensures NextCreate(s, t, c, replies).leak[id]
         == (if id in s.leak then s.leak[id] else 0) + if Leaks(s, Create(t, c, replies), id) then 1 else 0
  {
  }

  lemma RegisterLeaksExactly(s: Sys, t: TestId, c: Composition, replies: CreateReplies, id: Id)
    requires s.leak.Keys == s.daemon.created.Keys && Enabled(s, Create(t, c, replies))
    requires !Generates(s.registry, c.containerName) && EntryShape(s, c.containerName)
    requires c.containerName in s.owner ==> s.owner[c.containerName] in s.leak
    requires id in NextCreate(s, t, c, replies).leak
    ensures NextCreate(s, t, c, replies).leak[id]
         == (if id in s.leak then s.leak[id] else 0) + if Leaks(s, Create(t, c, replies), id) then 1 else 0
  {
    var n := c.containerName;
    var r := CreateResult(s, t, c, replies).2;
    if s.registry[n].status.Failed? {
    } else if r.Failure? {
      assert NextCreate(s, t, c, replies).leak == s.leak;
    } else {
      assert r.value.id == s.owner[n];
      assert NextCreate(s, t, c, replies).leak
          == if s.owner[n] in s.tests[t].held then OneMore(s.leak, s.owner[n]) else s.leak;
    }
  }

  ghost predicate Leaks(s: Sys, step: Step, id: Id)
    requires Enabled(s, step)
  {
    && step.Create?
    && (if Generates(s.registry, step.c.containerName) then
          step.replies.created == Success(id) && step.replies.connected.Refused?
        else
          && step.c.containerName in s.owner && s.owner[step.c.containerName] == id
          && (if s.registry[step.c.containerName].status.Failed? then id !in s.lost
              else
                && id in s.tests[step.t].held
                && (s.tests[step.t].mode.Isolated? ==> step.replies.connected.Accepted?)))
  }

  // --- failures that stay ---------------------------------------------------------------------------

  ghost predicate Barred(s: Sys, n: Name, error: Error) {
    n in s.registry && s.registry[n].status == Failed(error, None)
  }

  /** A name whose container could not be created once is refused with the same error for ever after. */
  lemma {:induction false} CreationFailureIsFinal(steps: seq<Step>, more: seq<Step>, n: Name, error: Error)
    requires Execute(steps).Some? && Execute(steps + more).Some?
    requires Barred(Execute(steps).value, n, error)
    ensures Barred(Execute(steps + more).value, n, error)
    ensures forall t: TestId, c: Composition, replies: CreateReplies ::
              t in Execute(steps + more).value.tests && c.containerName == n ==>
                CreateResult(Execute(steps + more).value, t, c, replies).2 == Failure(error)
  {
    if more == [] {
      assert steps + more == steps;
    } else {
      var less := more[..|more| - 1];
      assert (steps + more)[..|steps + more| - 1] == steps + less;
      InvExecute(steps + less);
      CreationFailureIsFinal(steps, less, n, error);
      var s := Execute(steps + less).value;
      BarredKept(s, more[|more| - 1], n, error);
    }
  }

  lemma BarredKept(s: Sys, step: Step, n: Name, error: Error)
    requires Enabled(s, step) && Barred(s, n, error)
    ensures Barred(Next(s, step), n, error)
  {
    match step
    case Create(t, c, replies) => CreateKeepsBarred(s, t, c, replies, n, error);
    case Start(t, p, reply) => StartKeepsBarred(s, t, p, reply, n, error);
    case Release(t) => ReleaseKeepsBarred(s, t, n, error);
    case Join(_, _, _) =>
    case Disconnect(_, _) =>
    case Remove(_, _, _) =>
  }

  lemma CreateKeepsBarred(s: Sys, t: TestId, c: Composition, replies: CreateReplies, n: Name, error: Error)
    requires t in s.tests && Barred(s, n, error)
    ensures Barred(NextCreate(s, t, c, replies), n, error)
  {
    SpecKeepsBarred(s.registry, s.daemon, c, Some(s.tests[t].network), s.tests[t].mode, replies, n);
    CreateRegistry(s, t, c, replies);
  }

  lemma SpecKeepsBarred(m: Registry, d: Docker.State, c: Composition, network: Option<NetworkName>, mode: Network,
                        replies: CreateReplies, n: Name)
    requires n in m && m[n].status.Failed?
    ensures n in CreateSpec(m, d, c, network, mode, replies).0
    ensures CreateSpec(m, d, c, network, mode, replies).0[n].status == m[n].status
  {
  }

  lemma CreateRegistry(s: Sys, t: TestId, c: Composition, replies: CreateReplies)
    requires t in s.tests
    ensures NextCreate(s, t, c, replies).registry == CreateResult(s, t, c, replies).0
  {
    var (m, d, r) := CreateResult(s, t, c, replies);
    BookingKeeps(s.(registry := m, daemon := d), s.registry, t, c.containerName, replies.created, r);
  }

  lemma StartKeepsBarred(s: Sys, t: TestId, p: PendingContainer, reply: Docker.Reply, n: Name, error: Error)
    requires t in s.tests && Barred(s, n, error)
    ensures Barred(NextStart(s, t, p, reply), n, error)
  {
  }

  lemma ReleaseKeepsBarred(s: Sys, t: TestId, n: Name, error: Error)
    requires t in s.tests && Barred(s, n, error)
    ensures Barred(NextDecrement(s, t), n, error)
  {
  }

  // --- starts that outlive their test ---------------------------------------------------------------

  ghost predicate Attached(s: Sys, step: Step)
    requires Enabled(s, step)
  {
    step.Start? ==> step.p.id in s.tests[step.t].held
  }

  ghost predicate AttachedRun(steps: seq<Step>) {
    steps == [] ||
    var before := Execute(steps[..|steps| - 1]);
    && AttachedRun(steps[..|steps| - 1]) && before.Some? && Enabled(before.value, steps[|steps| - 1])
    && Attached(before.value, steps[|steps| - 1])
  }

  lemma AttachedStepLosesNothing(steps: seq<Step>, s: Sys, step: Step)
    requires Execute(steps) == Some(s) && Bounded(s) && Enabled(s, step) && Attached(s, step)
    ensures Next(s, step).lost == s.lost
  {
    match step
    case Start(t, p, reply) => AttachedStartLosesNothing(steps, s, t, p, reply);
    case Create(t, c, replies) =>
      var (m, d, r) := CreateResult(s, t, c, replies);
      BookingKeeps(s.(registry := m, daemon := d), s.registry, t, c.containerName, replies.created, r);
    case Join(_, _, _) =>
    case Disconnect(_, _) =>
    case Release(_) =>
    case Remove(_, _, _) =>
  }

  lemma AttachedStartLosesNothing(steps: seq<Step>, s: Sys, t: TestId, p: PendingContainer, reply: Docker.Reply)
    requires Execute(steps) == Some(s) && Bounded(s) && Enabled(s, Start(t, p, reply)) && p.id in s.tests[t].held
    ensures NextStart(s, t, p, reply).lost == s.lost
  {
    HoldingPinsIdentity(steps, s, t, p, reply);
    InvExecute(steps);
    assert EntryShape(s, p.name);
  }

  /** When tests start only what they hold, no entry ever forgets its container. */
  lemma {:induction false} AttachedRunLosesNothing(steps: seq<Step>)
    requires AttachedRun(steps) && Execute(steps).Some? && Bounded(Execute(steps).value)
    ensures Execute(steps).value.lost == {}
  {
    if steps != [] {
      var before := steps[..|steps| - 1];
      PrefixExecutes(steps, |steps| - 1);
      AttachedRunLosesNothing(before);
      AttachedStepLosesNothing(before, Execute(before).value, steps[|steps| - 1]);
    }
  }

  /** A container whose entry was overwritten is never removed. */
  lemma LostIsNeverRemoved(steps: seq<Step>, s: Sys, id: Id)
    requires Execute(steps) == Some(s) && Bounded(s) && id in s.lost
    ensures id !in s.scheduled && id !in s.daemon.removals && id !in s.daemon.removed
  {
    InvExecute(steps);
    assert LedgerAt(s, id);
    assert id in s.scheduled ==> Retired(s, id);
  }
}
