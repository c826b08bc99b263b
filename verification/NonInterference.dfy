/** What no test can do to the containers that are managed outside, or are to stay, and what is listed of them. */
module NonInterference {
  import opened Containers
  import Docker
  import External = ExternalContainers
  import Dynamic = DynamicContainers
  import opened StaticContainers
  import opened Process

  /** The containers a step asks the daemon to stop or remove, whatever the prune strategy. */
  ghost function Reaches(w: World, step: Step): set<Id>
    requires step.Join? || step.Outside? || step.t in w.tests
  {
    match step
    case CreateStatic(_, c, replies) =>
      if c.management == Some(Dynamic) && c.containerName !in w.statics.dynamic && replies.dynamic.inspected.Found?
         && replies.dynamic.inspected.stopped && replies.dynamic.inspected.id.Some?
      then {replies.dynamic.inspected.id.value} else {}
    case CreateOwn(_, _, prior, _) => if prior.Some? then {prior.value} else {}
    case RemoveInternal(_, id, _) => {id}
    case Prune(t, _) => w.tests[t].OwnIds()
    case _ => {}
  }

  lemma {:induction false} ListedIsRegistered(usage: Usage, w: World, steps: seq<Step>, w': World)
    requires Listed(w) && Execute(usage, w, steps) == Some(w')
    ensures Listed(w')
  {
    if steps != [] {
      var w1 := LastStep(usage, w, steps);
      ListedIsRegistered(usage, w, steps[..|steps| - 1], w1);
    }
  }

  ghost predicate Listed(w: World) {
    DynamicIds(w.statics.dynamic) + ExternalIds(w.statics.external) <= w.registered
  }

  /** No step of any test, in any run and under any prune strategy, stops or removes a container that is or
      ever was registered as dynamic or external. */
  lemma RegisteredAreNeverReached(usage: Usage, before: seq<Step>, w: World, after: seq<Step>, w': World, step: Step)
    requires Execute(usage, INIT, before) == Some(w)
    requires Execute(usage, w, after) == Some(w') && Enabled(usage, w', step)
    ensures DynamicIds(w.statics.dynamic) + ExternalIds(w.statics.external) <= w'.registered
    ensures Reaches(w', step) !! w'.registered
  {
    ListedIsRegistered(usage, INIT, before, w);
    InvExecute(usage, INIT, before, w);
    InvExecute(usage, w, after, w');
    NotReached(usage, w', step);
  }

  lemma NotReached(usage: Usage, w: World, step: Step)
    requires Inv(usage, w) && Enabled(usage, w, step)
    ensures Reaches(w, step) !! w.registered
  {
    forall id | id in Reaches(w, step)
      ensures id !in w.registered
    {
      assert !step.Join? && !step.Outside? && TestShape(usage, w, step.t);
      assert id in w.registered ==> RegisteredShape(usage, w, id);
    }
  }

  lemma RemovesOnlyReached(w: World, step: Step)
    requires step.Join? || step.Outside? || step.t in w.tests
    ensures Next(w, step).daemon.removed <= w.daemon.removed + Reaches(w, step)
  {
    if step.StartStatic? {
      var (m, d, _) := StartSpec(w.statics, w.daemon, step.p, step.reply);
      assert Next(w, step).daemon == d && d.removed == w.daemon.removed;
    } else if step.CreateStatic? {
      CreateRemoves(w, step.t, step.c, step.replies);
    }
  }

  lemma CreateRemoves(w: World, t: TestId, c: Composition, replies: CreateReplies)
    requires t in w.tests
    ensures Next(w, CreateStatic(t, c, replies)).daemon.removed
         <= w.daemon.removed + Reaches(w, CreateStatic(t, c, replies))
  {
    var (m, d, r) := CreateResult(w, t, c, replies);
    assert Next(w, CreateStatic(t, c, replies)).daemon == d;
  }

  /** A container that is registered as dynamic or external and alive stays alive through every run of any
      number of tests, under any prune strategy. */
  lemma {:induction false} RegisteredSurvive(usage: Usage, before: seq<Step>, w: World, after: seq<Step>, w': World)
    requires Execute(usage, INIT, before) == Some(w) && Execute(usage, w, after) == Some(w')
    ensures w'.daemon.removed * w.registered <= w.daemon.removed
    ensures DynamicIds(w.statics.dynamic) + ExternalIds(w.statics.external) <= w.registered
  {
    ListedIsRegistered(usage, INIT, before, w);
    InvExecute(usage, INIT, before, w);
    Survive(usage, w, after, w');
  }

  lemma {:induction false} Survive(usage: Usage, w: World, steps: seq<Step>, w': World)
    requires Inv(usage, w) && Execute(usage, w, steps) == Some(w')
    ensures w'.daemon.removed * w.registered <= w.daemon.removed
  {
    if steps != [] {
      var w1 := LastStep(usage, w, steps);
      Survive(usage, w, steps[..|steps| - 1], w1);
      InvExecute(usage, w, steps[..|steps| - 1], w1);
      NotReached(usage, w1, steps[|steps| - 1]);
      RemovesOnlyReached(w1, steps[|steps| - 1]);
    }
  }

  /** The daemon finds no external container that is gone, and attaches no dynamic one. */
  ghost predicate LawfulStep(w: World, step: Step) {
    step.CreateStatic? ==>
      && (step.replies.external.inspected.Success? && step.replies.external.inspected.value.Some? ==>
            step.replies.external.inspected.value.value !in w.daemon.removed)
      && Dynamic.Lawful(w.daemon, step.replies.dynamic)
  }

  ghost predicate LawfulRun(usage: Usage, steps: seq<Step>) {
    steps == [] ||
    var before := Execute(usage, INIT, steps[..|steps| - 1]);
    && LawfulRun(usage, steps[..|steps| - 1])
    && (before.Some? ==> LawfulStep(before.value, steps[|steps| - 1]))
  }

  ghost predicate AllAlive(w: World) {
    w.daemon.removed <= w.daemon.created.Keys && w.registered !! w.daemon.removed && Listed(w)
  }

  /** No container that was ever registered as dynamic or external is gone, in any state of any run: what a creation
      removes never gets registered, and what is registered is never removed. */
  lemma {:induction false} RegisteredAreAlive(usage: Usage, steps: seq<Step>, w: World)
    requires Execute(usage, INIT, steps) == Some(w) && LawfulRun(usage, steps)
    ensures AllAlive(w)
  {
    if steps != [] {
      var before, step := steps[..|steps| - 1], steps[|steps| - 1];
      var w1 := LastStep(usage, INIT, steps);
      RegisteredAreAlive(usage, before, w1);
      InvExecute(usage, INIT, before, w1);
      AliveNext(usage, w1, step);
    }
  }

  lemma AliveNext(usage: Usage, w: World, step: Step)
    requires Inv(usage, w) && AllAlive(w) && Enabled(usage, w, step) && LawfulStep(w, step)
    ensures AllAlive(Next(w, step))
  {
    NotReached(usage, w, step);
    RemovesOnlyReached(w, step);
    ReachesCreated(usage, w, step);
    InvNext(usage, w, step);
    NewAreAlive(usage, w, step);
  }

  lemma ReachesCreated(usage: Usage, w: World, step: Step)
    requires Inv(usage, w) && Enabled(usage, w, step)
    ensures Reaches(w, step) <= w.daemon.created.Keys
  {
    if !step.Join? && !step.Outside? {
      assert TestShape(usage, w, step.t);
    }
  }

  lemma NewAreAlive(usage: Usage, w: World, step: Step)
    requires Inv(usage, w) && AllAlive(w) && Enabled(usage, w, step) && LawfulStep(w, step)
    ensures forall id :: id in Next(w, step).registered && id !in w.registered ==> id !in Next(w, step).daemon.removed
  {
    match step
    case CreateStatic(t, c, replies) =>
      match c.management.value {
        case Internal =>
        case External =>
          ExternalNew(w.statics.external, w.daemon, c, w.tests[t].network, w.tests[t].mode, replies.external);
        case Dynamic =>
          DynamicNew(w.statics.dynamic, w.daemon, c, w.tests[t].network, w.tests[t].mode, replies.dynamic);
      }
    case StartStatic(t, p, reply) => StartsRegisterNothing(w.statics, w.daemon, p, reply);
    case _ =>
  }

  lemma DynamicNew(m: Dynamic.Registry, d: Docker.State, c: Composition, network: NetworkName, mode: Network,
                   replies: Dynamic.CreateReplies)
    requires d.removed <= d.created.Keys && Dynamic.Fresh(d, replies) && Dynamic.Lawful(d, replies)
    ensures var (m', d', r) := Dynamic.CreateSpec(m, d, c, Some(network), mode, replies);
            forall id :: id in DynamicIds(m') && id !in DynamicIds(m) ==> id !in d'.removed
  {
  }

  lemma ExternalNew(m: External.Registry, d: Docker.State, c: Composition, network: NetworkName, mode: Network,
                    replies: External.IncludeReplies)
    requires replies.inspected.Success? && replies.inspected.value.Some? ==> replies.inspected.value.value !in d.removed
    ensures var (m', d', r) := External.IncludeSpec(m, d, c, Some(network), mode, replies);
            forall id :: id in ExternalIds(m') && id !in ExternalIds(m) ==> id !in d'.removed
  {
  }

  lemma StartsRegisterNothing(m: Statics, d: Docker.State, p: PendingContainer, reply: Docker.Reply)
    ensures var m' := StartSpec(m, d, p, reply).0;
            DynamicIds(m'.dynamic) + ExternalIds(m'.external) <= DynamicIds(m.dynamic) + ExternalIds(m.external)
  {
  }

  /** External entries never change, and dynamic ones only get started. */
  lemma {:induction false} EntriesKept(usage: Usage, w: World, steps: seq<Step>, w': World)
    requires Inv(usage, w) && Execute(usage, w, steps) == Some(w')
    ensures Grows(w, w')
  {
    if steps != [] {
      var w1 := LastStep(usage, w, steps);
      EntriesKept(usage, w, steps[..|steps| - 1], w1);
      InvExecute(usage, w, steps[..|steps| - 1], w1);
      InvNext(usage, w1, steps[|steps| - 1]);
    }
  }

  /** Tests stay, and forget nothing they were given. */
  ghost predicate Recalls(w: World, w': World) {
    forall t :: t in w.tests ==>
      && t in w'.tests && w.tests[t].kept <= w'.tests[t].kept && w.tests[t].answers <= w'.tests[t].answers
      && w'.tests[t].mode == w.tests[t].mode && w'.tests[t].network == w.tests[t].network
  }

  lemma RecallsNext(usage: Usage, w: World, step: Step)
    requires Enabled(usage, w, step)
    ensures Recalls(w, Next(w, step))
  {
  }

  /** What holds of the entries and the tests after `k` steps of a run holds at its end. */
  lemma {:induction false} GrownSince(usage: Usage, steps: seq<Step>, k: nat, v: World, w: World)
    requires k <= |steps| && Execute(usage, INIT, steps[..k]) == Some(v) && Execute(usage, INIT, steps) == Some(w)
    ensures Grows(v, w) && Recalls(v, w)
  {
    if k == |steps| {
      assert steps[..k] == steps;
    } else {
      var before, step := steps[..|steps| - 1], steps[|steps| - 1];
      assert before[..k] == steps[..k];
      var w1 := LastStep(usage, INIT, steps);
      GrownSince(usage, before, k, v, w1);
      GrowsMore(usage, before, w1, step);
    }
  }

  lemma GrowsMore(usage: Usage, before: seq<Step>, w: World, step: Step)
    requires Execute(usage, INIT, before) == Some(w) && Enabled(usage, w, step)
    ensures Grows(w, Next(w, step)) && Recalls(w, Next(w, step))
  {
    InvExecute(usage, INIT, before, w);
    InvNext(usage, w, step);
    RecallsNext(usage, w, step);
  }

  /** What creation merely found for a test is listed in every state that follows, under its handle, which is the
      name asked for, with its id; and nothing else is listed under that handle. */
  lemma FoundIsListed(usage: Usage, steps: seq<Step>, w: World, t: TestId, c: Composition, e: StaticExternal)
    requires Execute(usage, INIT, steps) == Some(w) && t in w.tests && (c, CreatedExternal(e)) in w.tests[t].answers
    ensures GoesBy(c, e.handle)
    ensures exists x :: x in ExternalList(w.statics) && x.handle == e.handle && x.id == e.id
    ensures forall x :: x in ExternalList(w.statics) && x.handle == e.handle ==> x.id == e.id
  {
    InvExecute(usage, INIT, steps, w);
    assert TestShape(usage, w, t) && AnswerShape(w, t, c, CreatedExternal(e));
    ListedByHandle(usage, w, e);
  }

  lemma ListedByHandle(usage: Usage, w: World, e: StaticExternal)
    requires Inv(usage, w) && Backed(w, e)
    ensures exists x :: x in ExternalList(w.statics) && x.handle == e.handle && x.id == e.id
    ensures forall x :: x in ExternalList(w.statics) && x.handle == e.handle ==> x.id == e.id
  {
    var m := w.statics;
    var n := e.handle;
    assert n in m.external ==> ExternalShape(usage, w, n);
    assert n in m.dynamic ==> DynamicShape(usage, w, n);
    if n in m.external {
      assert m.external[n] in ExternalList(m);
    } else {
      assert m.dynamic[n].running in ExternalList(m);
    }
    forall x | x in ExternalList(m) && x.handle == n
      ensures x.id == e.id
    {
      if x in m.external.Values {
        var k :| k in m.external && m.external[k] == x;
        assert ExternalShape(usage, w, k);
      } else {
        var k :| k in m.dynamic && m.dynamic[k].RunningPrior? && m.dynamic[k].running == x;
        assert DynamicShape(usage, w, k);
      }
    }
  }
}
