/** Where containers come from: in every run, each container that a test or a registry has hold of was made by one
    creation, for a composition whose name, handle, start policy and management it has. */
module ProcessOrigins {
  import opened Containers
  import Docker
  import Internal = InternalContainers
  import Dynamic = DynamicContainers
  import opened StaticContainers
  import opened Process
  import opened ProcessEffects
  import NonInterference

  /** The id that a creation obtains from the daemon for a new container. */
  ghost function Obtains(w: World, step: Step): Option<Id>
    requires step.CreateStatic? ==> step.t in w.tests
  {
    match step
    case CreateOwn(_, _, _, Success(id)) => Some(id)
    case CreateStatic(t, c, replies) =>
      if c.management.Some? then CourseOf(w.statics, c, w.tests[t].mode, replies).made else None
    case _ => None
  }

  /** The step makes `p`, as its composition asks for. */
  ghost predicate Makes(w: World, step: Step, p: PendingContainer)
    requires step.CreateStatic? ==> step.t in w.tests
  {
    (step.CreateStatic? || step.CreateOwn?) && Obtains(w, step) == Some(p.id) && MadeFrom(step.c, p.id, p)
  }

  /** The state before step `k` of a run. */
  ghost function At(usage: Usage, steps: seq<Step>, k: nat): (w: World)
    requires Execute(usage, INIT, steps).Some? && k < |steps|
    ensures Execute(usage, INIT, steps[..k]) == Some(w) && Enabled(usage, w, steps[k])
  {
    PrefixRuns(usage, steps, k);
    Execute(usage, INIT, steps[..k]).value
  }

  lemma {:induction false} PrefixRuns(usage: Usage, steps: seq<Step>, k: nat)
    requires Execute(usage, INIT, steps).Some? && k < |steps|
    ensures var w := Execute(usage, INIT, steps[..k]); w.Some? && Enabled(usage, w.value, steps[k])
  {
    var before := steps[..|steps| - 1];
    var w1 := LastStep(usage, INIT, steps);
    if k < |before| {
      PrefixRuns(usage, before, k);
      assert before[..k] == steps[..k];
    }
  }

  ghost predicate MadeAt(usage: Usage, steps: seq<Step>, k: nat, p: PendingContainer)
    requires Execute(usage, INIT, steps).Some? && k < |steps|
  {
    Makes(At(usage, steps, k), steps[k], p)
  }

  ghost predicate Made(usage: Usage, steps: seq<Step>, p: PendingContainer)
    requires Execute(usage, INIT, steps).Some?
  {
    exists k: nat | k < |steps| :: MadeAt(usage, steps, k, p)
  }

  lemma MadeLater(usage: Usage, steps: seq<Step>, p: PendingContainer)
    requires Execute(usage, INIT, steps).Some? && steps != []
    requires var before := steps[..|steps| - 1];
             && Execute(usage, INIT, before).Some?
             && (Made(usage, before, p) || Makes(Execute(usage, INIT, before).value, steps[|steps| - 1], p))
    ensures Made(usage, steps, p)
  {
    var before := steps[..|steps| - 1];
    if Made(usage, before, p) {
      var k: nat :| k < |before| && MadeAt(usage, before, k, p);
      assert before[..k] == steps[..k];
      assert MadeAt(usage, steps, k, p);
    } else {
      assert MadeAt(usage, steps, |before|, p);
    }
  }

  // --- what has hold of a container -----------------------------------------------------------------------------

  /** The entry of a name stands for `p`. */
  ghost predicate Stands(m: Statics, n: Name, p: PendingContainer) {
    || (n in m.internal && (m.internal[n].status.Pending? || m.internal[n].status.Operational?)
        && m.internal[n].status.pending == p)
    || (n in m.dynamic && (m.dynamic[n].Pending? || m.dynamic[n].Running?) && m.dynamic[n].pending == p)
  }

  ghost predicate Held(w: World, p: PendingContainer) {
    (exists n :: Stands(w.statics, n, p)) || (exists t :: t in w.tests && p in w.tests[t].kept)
  }

  ghost predicate AllMade(usage: Usage, steps: seq<Step>, w: World)
    requires Execute(usage, INIT, steps).Some?
  {
    forall p :: Held(w, p) ==> Made(usage, steps, p)
  }

  lemma {:induction false} HeldAreMade(usage: Usage, steps: seq<Step>, w: World)
    requires Execute(usage, INIT, steps) == Some(w)
    ensures AllMade(usage, steps, w)
  {
    if steps != [] {
      var before, step := steps[..|steps| - 1], steps[|steps| - 1];
      assert steps == before + [step];
      var w1 := LastStep(usage, INIT, steps);
      HeldAreMade(usage, before, w1);
      forall p | Held(w, p)
        ensures Made(usage, steps, p)
      {
        HeldBefore(usage, w1, step, p);
        MadeLater(usage, steps, p);
      }
    }
  }

  /** What is held after a step was held before it, or is made by it. */
  lemma HeldBefore(usage: Usage, w: World, step: Step, p: PendingContainer)
    requires Enabled(usage, w, step) && Held(Next(w, step), p)
    ensures Held(w, p) || Makes(w, step, p)
  {
    if step.CreateStatic? {
      CreatesExactly(usage, w, step.t, step.c, step.replies);
      CreationHolds(w, step.t, step.c, step.replies, Next(w, step), p, CreateResult(w, step.t, step.c, step.replies).2);
    } else if n :| Stands(Next(w, step).statics, n, p) {
      StoodBefore(usage, w, step, n, p);
    } else {
      KeptBefore(usage, w, step, p);
    }
  }

  lemma StoodBefore(usage: Usage, w: World, step: Step, n: Name, p: PendingContainer)
    requires Enabled(usage, w, step) && !step.CreateStatic? && Stands(Next(w, step).statics, n, p)
    ensures Stands(w.statics, n, p)
  {
    if step.StartStatic? {
      StartFrame(w, Next(w, step), step.t, step.p, step.reply);
      assert n in w.statics.dynamic ==> Dynamic.Evolves(w.statics.dynamic[n], Next(w, step).statics.dynamic[n]);
    }
  }

  lemma KeptBefore(usage: Usage, w: World, step: Step, p: PendingContainer)
    requires Enabled(usage, w, step) && !step.CreateStatic?
    requires exists t :: t in Next(w, step).tests && p in Next(w, step).tests[t].kept
    ensures (exists t :: t in w.tests && p in w.tests[t].kept) || Makes(w, step, p)
  {
    var t :| t in Next(w, step).tests && p in Next(w, step).tests[t].kept;
    assert t in w.tests && p !in w.tests[t].kept ==> step.CreateOwn?;
  }

  lemma CreationHolds(w: World, t: TestId, c: Composition, replies: CreateReplies, w': World, p: PendingContainer,
                      r: Result<CreatedContainer, Error>)
    requires c.management.Some? && t in w.tests && Held(w', p)
    requires var course, connected := CourseOf(w.statics, c, w.tests[t].mode, replies), ConnectReply(c, replies);
             Enters(w.statics, c, course, connected, w'.statics, r) && Tells(w, t, c, course, connected, w')
    ensures Held(w, p) || Makes(w, CreateStatic(t, c, replies), p)
  {
    if n :| Stands(w'.statics, n, p) {
      StandsOrMade(w, t, c, replies, w'.statics, n, p, r);
    } else {
      var u :| u in w'.tests && p in w'.tests[u].kept;
      if u !in w.tests || p !in w.tests[u].kept {
        var a :| Answers(w'.statics, c, a) && Told(w.tests[t], c, a, w'.tests[t]);
        assert a == CreatedPending(p) && Stands(w'.statics, c.containerName, p);
      }
    }
  }

  lemma StandsOrMade(w: World, t: TestId, c: Composition, replies: CreateReplies, m': Statics, n: Name,
                     p: PendingContainer, r: Result<CreatedContainer, Error>)
    requires c.management.Some? && t in w.tests && Stands(m', n, p)
    requires Enters(w.statics, c, CourseOf(w.statics, c, w.tests[t].mode, replies), ConnectReply(c, replies), m', r)
    ensures Stands(w.statics, n, p) || Makes(w, CreateStatic(t, c, replies), p)
  {
  }

  // --- where it comes from --------------------------------------------------------------------------------------

  /** In every run: what a test or a registry has hold of was made, at one step, for a composition whose name, handle,
      start policy and management it has, and no other step made a container of that id. */
  lemma OriginOf(usage: Usage, steps: seq<Step>, w: World, p: PendingContainer) returns (k: nat)
    requires Execute(usage, INIT, steps) == Some(w) && Held(w, p)
    ensures k < |steps| && (steps[k].CreateStatic? || steps[k].CreateOwn?) && MadeFrom(steps[k].c, p.id, p)
    ensures forall j :: 0 <= j < |steps| ==> (Obtains(At(usage, steps, j), steps[j]) == Some(p.id) <==> j == k)
  {
    HeldAreMade(usage, steps, w);
    k :| k < |steps| && MadeAt(usage, steps, k, p);
    forall j: nat | j < |steps| && Obtains(At(usage, steps, j), steps[j]) == Some(p.id)
      ensures j == k
    {
      if j < k {
        OnceOnly(usage, steps, j, k, At(usage, steps, j), At(usage, steps, k), p.id);
      } else if k < j {
        OnceOnly(usage, steps, k, j, At(usage, steps, k), At(usage, steps, j), p.id);
      }
    }
  }

  lemma OnceOnly(usage: Usage, steps: seq<Step>, j: nat, k: nat, v: World, w: World, id: Id)
    requires j < k < |steps|
    requires Execute(usage, INIT, steps[..j]) == Some(v) && Execute(usage, INIT, steps[..k]) == Some(w)
    requires Enabled(usage, v, steps[j]) && Enabled(usage, w, steps[k]) && Obtains(v, steps[j]) == Some(id)
    ensures Obtains(w, steps[k]) != Some(id)
  {
    var before := steps[..k];
    assert before[..j] == steps[..j];
    ObtainedStay(usage, before, w, j, v, id);
    ObtainedIsNew(usage, w, steps[k]);
  }

  lemma {:induction false} ObtainedStay(usage: Usage, steps: seq<Step>, w: World, j: nat, v: World, id: Id)
    requires Execute(usage, INIT, steps) == Some(w) && j < |steps| && Execute(usage, INIT, steps[..j]) == Some(v)
    requires Enabled(usage, v, steps[j]) && Obtains(v, steps[j]) == Some(id)
    ensures id in w.daemon.created
  {
    var before, step := steps[..|steps| - 1], steps[|steps| - 1];
    var w1 := LastStep(usage, INIT, steps);
    if j < |before| {
      assert before[..j] == steps[..j];
      ObtainedStay(usage, before, w1, j, v, id);
      NonInterference.GrowsMore(usage, before, w1, step);
    } else {
      ObtainedIsCreated(usage, w1, step);
    }
  }

  lemma ObtainedIsNew(usage: Usage, w: World, step: Step)
    requires Enabled(usage, w, step)
    ensures Obtains(w, step).Some? ==> Obtains(w, step).value !in w.daemon.created
  {
  }

  lemma ObtainedIsCreated(usage: Usage, w: World, step: Step)
    requires Enabled(usage, w, step) && Obtains(w, step).Some?
    ensures Obtains(w, step).value in Next(w, step).daemon.created
  {
    if step.CreateStatic? {
      CreatesExactly(usage, w, step.t, step.c, step.replies);
    }
  }
}
