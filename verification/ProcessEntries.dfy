/** What the entries of the dynamic and the external registry say about a whole run: there is one exactly if some test
    was given the container, and the container a dynamic entry stands for is attached to a test that was. */
module ProcessEntries {
  import opened Containers
  import Docker
  import Internal = InternalContainers
  import External = ExternalContainers
  import Dynamic = DynamicContainers
  import opened StaticContainers
  import opened Process
  import opened ProcessEffects
  import NonInterference
  import ProcessNetworks

  /** Test `t` was given a container for a composition of that name and policy. */
  ghost predicate GivenTo(w: World, t: TestId, n: Name, management: Management) {
    && t in w.tests
    && exists c, a :: (c, a) in w.tests[t].answers && c.containerName == n && c.management == Some(management)
  }

  ghost predicate Asked(w: World, n: Name, management: Management) {
    exists t :: GivenTo(w, t, n, management)
  }

  ghost predicate EntriesAnswered(w: World) {
    && (forall n :: n in w.statics.dynamic <==> Asked(w, n, Management.Dynamic))
    && (forall n :: n in w.statics.external <==> Asked(w, n, Management.External))
  }

  /** In every run: there is an entry exactly if some creation under its name succeeded. */
  lemma {:induction false} EnteredExactly(usage: Usage, steps: seq<Step>, w: World)
    requires Execute(usage, INIT, steps) == Some(w)
    ensures EntriesAnswered(w)
  {
    if steps != [] {
      var before, step := steps[..|steps| - 1], steps[|steps| - 1];
      assert steps == before + [step];
      var w1 := LastStep(usage, INIT, steps);
      EnteredExactly(usage, before, w1);
      if step.CreateStatic? {
        CreationEnters(usage, w1, step.t, step.c, step.replies);
      } else {
        OthersEnterNothing(usage, w1, step);
      }
    }
  }

  /** The answers of all tests are the same. */
  ghost predicate SameAnswers(w: World, w': World) {
    && (forall t :: t in w.tests ==> t in w'.tests && w'.tests[t].answers == w.tests[t].answers)
    && (forall t :: t in w'.tests && t !in w.tests ==> w'.tests[t].answers == {})
  }

  lemma OthersAnswerNothing(usage: Usage, w: World, step: Step)
    requires Enabled(usage, w, step) && !step.CreateStatic?
    ensures SameAnswers(w, Next(w, step))
    ensures Next(w, step).statics.dynamic.Keys == w.statics.dynamic.Keys
    ensures Next(w, step).statics.external == w.statics.external
  {
    if step.StartStatic? {
      StartFrame(w, Next(w, step), step.t, step.p, step.reply);
    }
  }

  lemma OthersEnterNothing(usage: Usage, w: World, step: Step)
    requires EntriesAnswered(w) && Enabled(usage, w, step) && !step.CreateStatic?
    ensures EntriesAnswered(Next(w, step))
  {
    OthersAnswerNothing(usage, w, step);
    AskedAlike(w, Next(w, step), Management.Dynamic);
    AskedAlike(w, Next(w, step), Management.External);
  }

  lemma AskedAlike(w: World, w': World, management: Management)
    requires SameAnswers(w, w')
    ensures forall n :: Asked(w', n, management) <==> Asked(w, n, management)
  {
    forall t, n
      ensures GivenTo(w', t, n, management) <==> GivenTo(w, t, n, management)
    {
    }
  }

  lemma CreationEnters(usage: Usage, w: World, t: TestId, c: Composition, replies: CreateReplies)
    requires EntriesAnswered(w) && Enabled(usage, w, CreateStatic(t, c, replies))
    ensures EntriesAnswered(Next(w, CreateStatic(t, c, replies)))
  {
    var w' := Next(w, CreateStatic(t, c, replies));
    var r := CreateResult(w, t, c, replies).2;
    CreatesExactly(usage, w, t, c, replies);
    NewKeys(w.statics, c, CourseOf(w.statics, c, w.tests[t].mode, replies), ConnectReply(c, replies), w'.statics, r);
    if r.Success? {
      NewAnswer(w, w', t, c, Management.Dynamic);
      NewAnswer(w, w', t, c, Management.External);
    } else {
      AskedAlike(w, w', Management.Dynamic);
      AskedAlike(w, w', Management.External);
    }
  }

  lemma NewKeys(m: Statics, c: Composition, course: Course, connected: Docker.Reply, m': Statics,
                r: Result<CreatedContainer, Error>)
    requires c.management.Some? && Enters(m, c, course, connected, m', r)
    ensures forall n :: n in m'.dynamic <==>
              n in m.dynamic || (r.Success? && n == c.containerName && c.management == Some(Management.Dynamic))
    ensures forall n :: n in m'.external <==>
              n in m.external || (r.Success? && n == c.containerName && c.management == Some(Management.External))
  {
  }

  lemma NewAnswer(w: World, w': World, t: TestId, c: Composition, management: Management)
    requires t in w.tests && w'.tests.Keys == w.tests.Keys
    requires forall u :: u in w.tests && u != t ==> w'.tests[u] == w.tests[u]
    requires exists a :: w'.tests[t].answers == w.tests[t].answers + {(c, a)}
    ensures forall n :: Asked(w', n, management)
                   <==> Asked(w, n, management) || (n == c.containerName && c.management == Some(management))
  {
    var a :| w'.tests[t].answers == w.tests[t].answers + {(c, a)};
    assert (c, a) in w'.tests[t].answers;
    forall u, n
      ensures GivenTo(w', u, n, management)
         <==> GivenTo(w, u, n, management) || (u == t && n == c.containerName && c.management == Some(management))
    {
    }
    assert c.management == Some(management) ==> GivenTo(w', t, c.containerName, management);
    assert forall u, n :: GivenTo(w, u, n, management) ==> GivenTo(w', u, n, management);
  }

  // --- the container of a dynamic entry ---------------------------------------------------------------------

  function IdOf(status: Dynamic.Status): Id
    requires !status.Failed?
  {
    if status.RunningPrior? then status.running.id else status.pending.id
  }

  /** The container of the entry is attached to the network of test `t`, which was given it. */
  ghost predicate AttachedTo(w: World, n: Name, t: TestId)
    requires n in w.statics.dynamic && !w.statics.dynamic[n].Failed?
  {
    GivenTo(w, t, n, Management.Dynamic) && (IdOf(w.statics.dynamic[n]), w.tests[t].network) in w.daemon.links
  }

  ghost predicate Attached(w: World, n: Name)
    requires n in w.statics.dynamic
  {
    w.statics.dynamic[n].Failed? || exists t :: AttachedTo(w, n, t)
  }

  ghost predicate AllAttached(w: World) {
    forall n {:trigger Attached(w, n)} :: n in w.statics.dynamic ==> Attached(w, n)
  }

  /** In every run and in every network mode: the container of a dynamic entry is attached to the network of the test
      whose creation entered it, and no step of any test ever cuts it off. */
  lemma {:induction false} EnteredAreAttached(usage: Usage, steps: seq<Step>, w: World)
    requires Execute(usage, INIT, steps) == Some(w)
    ensures AllAttached(w)
  {
    if steps != [] {
      var before, step := steps[..|steps| - 1], steps[|steps| - 1];
      assert steps == before + [step];
      var w1 := LastStep(usage, INIT, steps);
      EnteredAreAttached(usage, before, w1);
      InvExecute(usage, INIT, before, w1);
      NonInterference.ListedIsRegistered(usage, INIT, before, w1);
      AttachedNext(usage, w1, step);
    }
  }

  lemma AttachedNext(usage: Usage, w: World, step: Step)
    requires Inv(usage, w) && NonInterference.Listed(w) && AllAttached(w) && Enabled(usage, w, step)
    ensures AllAttached(Next(w, step))
  {
    var w' := Next(w, step);
    InvNext(usage, w, step);
    NonInterference.RecallsNext(usage, w, step);
    forall n | n in w'.statics.dynamic
      ensures Attached(w', n)
    {
      if n in w.statics.dynamic {
        assert Attached(w, n);
        StaysAttached(usage, w, step, n);
      } else {
        NewIsAttached(usage, w, step, n);
      }
    }
  }

  lemma StaysAttached(usage: Usage, w: World, step: Step, n: Name)
    requires Inv(usage, w) && NonInterference.Listed(w) && Enabled(usage, w, step) && Grows(w, Next(w, step))
    requires n in w.statics.dynamic && Attached(w, n)
    ensures Attached(Next(w, step), n)
  {
    var w' := Next(w, step);
    if !w'.statics.dynamic[n].Failed? {
      assert Dynamic.Evolves(w.statics.dynamic[n], w'.statics.dynamic[n]);
      var t :| AttachedTo(w, n, t);
      var id, network := IdOf(w.statics.dynamic[n]), w.tests[t].network;
      assert id in DynamicIds(w.statics.dynamic) && DynamicShape(usage, w, n);
      NeverCutOff(usage, w, step, id, network);
      StillGiven(usage, w, step, t, n);
      assert AttachedTo(w', n, t);
    }
  }

  lemma StillGiven(usage: Usage, w: World, step: Step, t: TestId, n: Name)
    requires Enabled(usage, w, step) && GivenTo(w, t, n, Management.Dynamic)
    ensures GivenTo(Next(w, step), t, n, Management.Dynamic) && Next(w, step).tests[t].network == w.tests[t].network
  {
    NonInterference.RecallsNext(usage, w, step);
  }

  /** No step takes a dynamic container off a network. */
  lemma NeverCutOff(usage: Usage, w: World, step: Step, id: Id, network: NetworkName)
    requires Inv(usage, w) && Enabled(usage, w, step) && (id, network) in w.daemon.links
    requires id in w.registered && UsedAs(usage, w, id, Some(Management.Dynamic))
    ensures (id, network) in Next(w, step).daemon.links
  {
    match step
    case Disconnect(t, _) => InternalTargets(usage, w, w.tests[t].StaticIds());
    case DisconnectExternal(t, _) => ExternalTargets(usage, w, w.tests[t].StaticIds());
    case _ => ProcessNetworks.LinkKept(usage, w, step, id, network);
  }

  lemma InternalTargets(usage: Usage, w: World, ids: set<Id>)
    requires Inv(usage, w)
    ensures forall id :: id in Internal.DisconnectTargets(w.statics.internal, ids) ==>
              UsedAs(usage, w, id, Some(Management.Internal))
  {
    forall id | id in Internal.DisconnectTargets(w.statics.internal, ids)
      ensures UsedAs(usage, w, id, Some(Management.Internal))
    {
      var n :| n in w.statics.internal && w.statics.internal[n].status.Operational?
            && w.statics.internal[n].status.running.id == id;
      assert InternalShape(usage, w, n);
    }
  }

  lemma ExternalTargets(usage: Usage, w: World, ids: set<Id>)
    requires Inv(usage, w)
    ensures forall id :: id in External.DisconnectTargets(w.statics.external, ids) ==>
              UsedAs(usage, w, id, Some(Management.External))
  {
    forall id | id in External.DisconnectTargets(w.statics.external, ids)
      ensures UsedAs(usage, w, id, Some(Management.External))
    {
      var n :| n in w.statics.external && w.statics.external[n].id == id;
      assert ExternalShape(usage, w, n);
    }
  }

  lemma ItWasGiven(test: Member, c: Composition, a: CreatedContainer, test': Member)
    requires Told(test, c, a, test')
    ensures (c, a) in test'.answers && test'.network == test.network
  {
  }

  lemma NewlyAttached(w: World, t: TestId, c: Composition, course: Course, connected: Docker.Reply, w': World,
                      r: Result<CreatedContainer, Error>, n: Name)
    requires c.management.Some? && t in w.tests
    requires Leaves(w.daemon, course, c.containerName, w.tests[t].network, connected, w'.daemon)
    requires Enters(w.statics, c, course, connected, w'.statics, r) && Tells(w, t, c, course, connected, w')
    requires r.Success? <==> Succeeds(course, connected)
    requires course.made.Some? ==> course.attaches == course.made
    requires n in w'.statics.dynamic && n !in w.statics.dynamic
    ensures Attached(w', n)
  {
    var a :| Answers(w'.statics, c, a) && Told(w.tests[t], c, a, w'.tests[t]);
    ItWasGiven(w.tests[t], c, a, w'.tests[t]);
    assert AttachedTo(w', n, t);
  }

  lemma NewIsAttached(usage: Usage, w: World, step: Step, n: Name)
    requires Enabled(usage, w, step) && n in Next(w, step).statics.dynamic && n !in w.statics.dynamic
    ensures Attached(Next(w, step), n)
  {
    if step.CreateStatic? {
      var t, c := step.t, step.c;
      CreatesExactly(usage, w, t, c, step.replies);
      NewlyAttached(w, t, c, CourseOf(w.statics, c, w.tests[t].mode, step.replies), ConnectReply(c, step.replies),
                    Next(w, step), CreateResult(w, t, c, step.replies).2, n);
    } else {
      OthersAnswerNothing(usage, w, step);
    }
  }

  // --- one creation in a run ----------------------------------------------------------------------------------

  /** In every state: a creation that fails changes no entry of the dynamic and of the external registry and gives the
      test nothing. One that succeeds enters its name if it is new; a new dynamic container is on the network of the
      test, in every network mode. */
  lemma EntersExactly(usage: Usage, w: World, t: TestId, c: Composition, replies: CreateReplies)
    requires Enabled(usage, w, CreateStatic(t, c, replies))
    requires c.management != Some(Management.Internal)
    ensures var n, w', r := c.containerName, Next(w, CreateStatic(t, c, replies)), CreateResult(w, t, c, replies).2;
            && (r.Failure? ==> w'.statics == w.statics && w'.tests == w.tests)
            && (if c.management == Some(Management.Dynamic) then
                  n in w'.statics.dynamic <==> n in w.statics.dynamic || r.Success?
                else n in w'.statics.external <==> n in w.statics.external || r.Success?)
            && (n in w'.statics.dynamic && n !in w.statics.dynamic ==>
                  && !w'.statics.dynamic[n].Failed?
                  && (IdOf(w'.statics.dynamic[n]), w.tests[t].network) in w'.daemon.links)
  {
    CreatesExactly(usage, w, t, c, replies);
  }

  /** In every state: an internal container that is there already is attached to the network of the test exactly if that
      is isolated and the daemon agrees; one that is made, exactly if the daemon agrees. Nothing else is attached, and
      nothing is cut off. */
  lemma InternalAttachesExactly(usage: Usage, w: World, t: TestId, c: Composition, replies: CreateReplies)
    requires Enabled(usage, w, CreateStatic(t, c, replies)) && c.management == Some(Management.Internal)
    ensures var n, m, network := c.containerName, w.statics.internal, w.tests[t].network;
            var accepted, links := replies.internal.connected.Accepted?,
                                   Next(w, CreateStatic(t, c, replies)).daemon.links;
            if n !in m || m[n].status.Cleaned? then
              links == w.daemon.links + if replies.internal.created.Success? && accepted
                                        then {(replies.internal.created.value, network)} else {}
            else if m[n].status.Failed? then links == w.daemon.links
            else
              links == w.daemon.links + if w.tests[t].mode.Isolated? && accepted
                                        then {(m[n].status.pending.id, network)} else {}
  {
    var course := CourseOf(w.statics, c, w.tests[t].mode, replies);
    CreatesExactly(usage, w, t, c, replies);
    LinksAfter(w.daemon, course, c.containerName, w.tests[t].network, replies.internal.connected,
               Next(w, CreateStatic(t, c, replies)).daemon);
  }
}
