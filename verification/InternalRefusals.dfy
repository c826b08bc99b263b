/** When a name is of no use any more: which failed entries every later creation gets its error from, in every
    continuation of the run, and which ones are cleaned in the end. */
module InternalRefusals {
  import opened Containers
  import Docker
  import opened InternalContainers
  import opened InternalProtocol
  import opened InternalTheorems
  import opened InternalLimits

  ghost predicate Refusing(s: Sys, n: Name, error: Error) {
    n in s.registry && s.registry[n].status.Failed? && s.registry[n].status.error == error
  }

  /** The entries that refuse a creation with an error are those for which any creation, whatever the daemon would
      answer, returns that error. */
  lemma RefusingExactly(s: Sys, t: TestId, c: Composition, error: Error)
    requires t in s.tests
    ensures Refusing(s, c.containerName, error)
       <==> forall replies {:trigger CreateResult(s, t, c, replies)} ::
              CreateResult(s, t, c, replies).2 == Failure(error)
  {
    if !Refusing(s, c.containerName, error) {
      var other := if error == MISSING_ERROR then CLEANED_ERROR else MISSING_ERROR;
      var replies := CreateReplies(Failure(other), Docker.Accepted);
      assert CreateResult(s, t, c, replies).2 != Failure(error);
    }
  }

  /** No clean-up will reach the container of the entry: the creation left no id, the entry remembers another id,
      or a use of the container will never be taken back. */
  ghost predicate OutOfReach(s: Sys, n: Name) {
    || n !in s.owner
    || s.owner[n] in s.lost
    || (s.owner[n] in s.leak && s.leak[s.owner[n]] > 0)
  }

  ghost predicate Refuses(s: Sys, n: Name, error: Error) {
    Refusing(s, n, error) && OutOfReach(s, n)
  }

  // --- what stays refused -----------------------------------------------------------------------------------

  lemma RefusesNext(s: Sys, step: Step, n: Name, error: Error)
    requires Inv(s) && Bounded(s) && Enabled(s, step) && Refuses(s, n, error)
    ensures Refuses(Next(s, step), n, error)
  {
    assert EntryShape(s, n) && (n in s.owner ==> Owned(s, n));
    match step
    case Create(t, c, replies) => CreateKeepsRefusing(s, t, c, replies, n, error);
    case Start(t, p, reply) => StartKeepsRefusing(s, t, p, reply, n, error);
    case Release(t) => ReleaseKeepsRefusing(s, t, n, error);
    case Join(_, _, _) =>
    case Disconnect(_, _) =>
    case Remove(_, _, _) =>
  }

  lemma CreateKeepsRefusing(s: Sys, t: TestId, c: Composition, replies: CreateReplies, n: Name, error: Error)
    requires Enabled(s, Create(t, c, replies)) && Refuses(s, n, error)
    requires n in s.owner ==> s.owner[n] in s.daemon.created
    ensures Refuses(NextCreate(s, t, c, replies), n, error)
  {
    var (m, d, r) := CreateResult(s, t, c, replies);
    SpecKeepsBarred(s.registry, s.daemon, c, Some(s.tests[t].network), s.tests[t].mode, replies, n);
    BookingKeeps(s.(registry := m, daemon := d), s.registry, t, c.containerName, replies.created, r);
    BookingKeepsLeaks(s.(registry := m, daemon := d), s.registry, t, c.containerName, replies.created, r, n);
  }

  lemma BookingKeepsLeaks(s: Sys, before: Registry, t: TestId, k: Name, created: Result<Id, Error>,
                          r: Result<PendingContainer, Error>, n: Name)
    requires t in s.tests && n in before && !before[n].status.Cleaned? && OutOfReach(s, n)
    requires n in s.owner && created.Success? ==> s.owner[n] != created.value
    ensures OutOfReach(Booked(s, before, t, k, created, r), n)
  {
    if !Generates(before, k) && !before[k].status.Failed? && r.Success? {
      assert Booked(s, before, t, k, created, r) == Joined(s, t, r.value);
    }
  }

  lemma StartKeepsRefusing(s: Sys, t: TestId, p: PendingContainer, reply: Docker.Reply, n: Name, error: Error)
    requires t in s.tests && Refuses(s, n, error)
    ensures Refuses(NextStart(s, t, p, reply), n, error)
  {
  }

  lemma ReleaseKeepsRefusing(s: Sys, t: TestId, n: Name, error: Error)
    requires Inv(s) && Bounded(s) && Enabled(s, Release(t)) && Refuses(s, n, error)
    ensures Refuses(NextDecrement(s, t), n, error)
  {
    if LastHit(s.registry[n], s.tests[t].held) {
      RetiresUnused(s, t, n);
      assert false;
    }
  }

  lemma {:induction false} RefusesForGood(steps: seq<Step>, more: seq<Step>, n: Name, error: Error)
    requires Execute(steps).Some? && Execute(steps + more).Some? && Bounded(Execute(steps + more).value)
    requires Refuses(Execute(steps).value, n, error)
    ensures Refuses(Execute(steps + more).value, n, error)
  {
    if more == [] {
      assert steps + more == steps;
    } else {
      var less, step := more[..|more| - 1], more[|more| - 1];
      assert steps + more == (steps + less) + [step];
      RunBefore(steps + less, step);
      RefusesForGood(steps, less, n, error);
      RefusesNext(Execute(steps + less).value, step, n, error);
    }
  }

  lemma RunBefore(before: seq<Step>, step: Step)
    requires Execute(before + [step]).Some?
    ensures Execute(before).Some? && Inv(Execute(before).value) && Enabled(Execute(before).value, step)
    ensures Execute(before + [step]) == Some(Next(Execute(before).value, step))
    ensures Bounded(Execute(before + [step]).value) ==> Bounded(Execute(before).value)
  {
    assert (before + [step])[..|before|] == before;
    InvExecute(before);
    if Bounded(Execute(before + [step]).value) {
      BoundedBackwards(Execute(before).value, step);
    }
  }

  // --- what does not ------------------------------------------------------------------------------------

  /** An entry that is within reach is cleaned once all tests that hold its container have let go of it, which they
      can at any time. After that a creation asks the daemon for a new container. */
  lemma {:induction false} CleanedInTheEnd(steps: seq<Step>, s: Sys, n: Name) returns (more: seq<Step>, s': Sys)
    requires Execute(steps) == Some(s) && Bounded(s) && n in s.registry && !OutOfReach(s, n)
    ensures Execute(steps + more) == Some(s') && Bounded(s') && Generates(s'.registry, n)
    ensures CleansUpOnly(more)
    decreases |Holders(s.tests, s.owner[n])|
  {
    var first, s1 := OneUserLess(steps, s, n);
    if Generates(s1.registry, n) {
      more, s' := first, s1;
    } else {
      var rest;
      rest, s' := CleanedInTheEnd(steps + first, s1, n);
      more := first + rest;
      CleanUpsFollow(steps, first, rest);
    }
  }

  lemma CleanUpsFollow(steps: seq<Step>, first: seq<Step>, rest: seq<Step>)
    requires CleansUpOnly(first) && CleansUpOnly(rest)
    ensures steps + (first + rest) == steps + first + rest && CleansUpOnly(first + rest)
  {
  }

  /** One of the tests that hold the container cleans up. */
  lemma OneUserLess(steps: seq<Step>, s: Sys, n: Name) returns (more: seq<Step>, s': Sys)
    requires Execute(steps) == Some(s) && Bounded(s) && n in s.registry && !OutOfReach(s, n)
    ensures Execute(steps + more) == Some(s') && Bounded(s') && CleansUpOnly(more)
    ensures !Generates(s'.registry, n) ==>
              && n in s'.registry && !OutOfReach(s', n)
              && |Holders(s'.tests, s'.owner[n])| < |Holders(s.tests, s.owner[n])|
  {
    InvExecute(steps);
    var t := SomeHolder(s, n);
    more, s' := LetGo(steps, s, t);
    HoldersLess(s, s', t, s.owner[n]);
    if Holders(s'.tests, s.owner[n]) == {} {
      LastReleaseCleans(s, s', t, n);
    } else {
      OtherReleaseKeeps(s, s', t, n);
    }
  }

  predicate CleansUpOnly(steps: seq<Step>) {
    forall step :: step in steps ==> step.Disconnect? || step.Release?
  }

  lemma SomeHolder(s: Sys, n: Name) returns (t: TestId)
    requires Inv(s) && n in s.registry && !OutOfReach(s, n)
    ensures t in s.tests && s.owner[n] in s.tests[t].held && !s.tests[t].phase.Removing?
  {
    assert Owned(s, n) && Balanced(s, n);
    var holders := Holders(s.tests, s.owner[n]);
    assert holders != {};
    t :| t in holders;
    assert TestShape(s, t);
  }

  /** The state when test `t` has detached its containers, if it had not yet. */
  ghost predicate Detached(s: Sys, s': Sys, t: TestId) {
    && t in s.tests && s'.registry == s.registry && s'.owner == s.owner && s'.leak == s.leak && s'.lost == s.lost
    && s'.peak == s.peak && s'.tests == s.tests[t := s.tests[t].(phase := Disconnected)]
  }

  /** Test `t` cleans up: it detaches its containers unless it has done so, and releases them. */
  lemma LetGo(steps: seq<Step>, s: Sys, t: TestId) returns (more: seq<Step>, s': Sys)
    requires Execute(steps) == Some(s) && t in s.tests && !s.tests[t].phase.Removing?
    ensures Execute(steps + more) == Some(s') && Released(s, s', t) && CleansUpOnly(more)
  {
    if s.tests[t].phase.Using? {
      more := [Disconnect(t, {}), Release(t)];
      assert steps + more == steps + [Disconnect(t, {})] + [Release(t)];
      var d := Next(s, Disconnect(t, {}));
      OneStepMore(steps, s, Disconnect(t, {}));
      assert Detached(s, d, t);
      s' := ThenReleases(steps + [Disconnect(t, {})], s, d, t);
    } else {
      more := [Release(t)];
      assert s.tests == s.tests[t := s.tests[t].(phase := Disconnected)];
      s' := ThenReleases(steps, s, s, t);
    }
  }

  lemma ThenReleases(steps: seq<Step>, s: Sys, d: Sys, t: TestId) returns (s': Sys)
    requires Execute(steps) == Some(d) && Detached(s, d, t)
    ensures Execute(steps + [Release(t)]) == Some(s') && Released(s, s', t)
  {
    s' := Next(d, Release(t));
    OneStepMore(steps, d, Release(t));
  }

  /** `s'` is `s` after test `t` let go of everything. */
  ghost predicate Released(s: Sys, s': Sys, t: TestId) {
    exists d :: Detached(s, d, t) && s' == NextDecrement(d, t)
  }

  lemma HoldersLess(s: Sys, s': Sys, t: TestId, id: Id)
    requires Released(s, s', t)
    ensures Bounded(s) ==> Bounded(s')
    ensures Holders(s'.tests, id) == Holders(s.tests, id) - {t} && s'.tests.Keys == s.tests.Keys
    ensures id in s.tests[t].held ==> |Holders(s'.tests, id)| < |Holders(s.tests, id)|
  {
    if id in s.tests[t].held {
      assert t in Holders(s.tests, id);
    }
  }

  lemma LastReleaseCleans(s: Sys, s': Sys, t: TestId, n: Name)
    requires Inv(s) && Bounded(s) && n in s.registry && !OutOfReach(s, n) && Released(s, s', t)
    requires s.owner[n] in s.tests[t].held && Holders(s.tests, s.owner[n]) - {t} == {}
    ensures Generates(s'.registry, n)
  {
    var d :| Detached(s, d, t) && s' == NextDecrement(d, t);
    ReleaseCounts(s, d, t, n);
  }

  lemma OtherReleaseKeeps(s: Sys, s': Sys, t: TestId, n: Name)
    requires Inv(s) && Bounded(s) && n in s.registry && !OutOfReach(s, n) && Released(s, s', t)
    requires s.owner[n] in s.tests[t].held && Holders(s.tests, s.owner[n]) - {t} != {}
    ensures n in s'.registry && !OutOfReach(s', n) && s'.owner[n] == s.owner[n]
  {
    var d :| Detached(s, d, t) && s' == NextDecrement(d, t);
    ReleaseCounts(s, d, t, n);
  }

  /** The release of `t` retires the entry exactly when no other test holds its container. */
  lemma ReleaseCounts(s: Sys, d: Sys, t: TestId, n: Name)
    requires Inv(s) && Bounded(s) && n in s.registry && !OutOfReach(s, n) && Detached(s, d, t)
    requires s.owner[n] in s.tests[t].held
    ensures LastHit(d.registry[n], d.tests[t].held) <==> Holders(s.tests, s.owner[n]) - {t} == {}
  {
    var id := s.owner[n];
    assert EntryShape(s, n) && Owned(s, n) && Balanced(s, n) && Within(s, id);
    assert s.registry[n].status.ContainerId() == Some(id);
    var holders := Holders(s.tests, id);
    assert t in holders && |holders - {t}| == |holders| - 1;
    assert |holders| <= s.peak[id] <= 256;
    CountDown(|holders|, s.registry[n].completionCounter);
  }

  // --- exactly --------------------------------------------------------------------------------------------

  /** However the run goes on, as long as counters do not wrap, every creation of the name is refused. */
  ghost predicate StaysRefused(steps: seq<Step>, n: Name, error: Error) {
    forall more {:trigger Execute(steps + more)} ::
      Execute(steps + more).Some? && Bounded(Execute(steps + more).value) ==>
        Refusing(Execute(steps + more).value, n, error)
  }

  /** A name is refused for good exactly when its entry has failed and its container is out of reach: never created,
      forgotten by the entry, or with a use that nobody takes back. */
  lemma RefusedForGoodExactly(steps: seq<Step>, s: Sys, n: Name, error: Error)
    requires Execute(steps) == Some(s) && Bounded(s)
    ensures StaysRefused(steps, n, error) <==> Refuses(s, n, error)
  {
    if Refuses(s, n, error) {
      forall more | Execute(steps + more).Some? && Bounded(Execute(steps + more).value)
        ensures Refusing(Execute(steps + more).value, n, error)
      {
        RefusesForGood(steps, more, n, error);
      }
    } else if Refusing(s, n, error) {
      var more, s' := CleanedInTheEnd(steps, s, n);
      assert Execute(steps + more) == Some(s') && !Refusing(s', n, error);
    } else {
      assert steps + [] == steps;
      assert Execute(steps + []) == Some(s);
    }
  }

  /** A container whose start fails before a second test asks for it. That test is refused and nobody takes its use
      back, so the name is refused for good, although no creation ever failed. */
  lemma StartFailureIsFinal(c: Composition, network: NetworkName, id: Id, error: Error)
    returns (steps: seq<Step>, s: Sys)
    requires Named(c)
    ensures Execute(steps) == Some(s) && Bounded(s) && StaysRefused(steps, c.containerName, error)
    ensures c.containerName in s.registry && s.registry[c.containerName].status == Failed(error, Some(id))
    ensures id in s.daemon.created && s.daemon.created[id] == c.containerName
    ensures s.tests.Keys == {0, 1} && Holders(s.tests, id) == {0} && id in s.leak && s.leak[id] == 1 && s.lost == {}
  {
    steps, s := FailedStart(c, network, id, error);
    steps, s := ApplyArrival(steps, s, 1, network);
    steps, s := ApplyRefused(steps, s, 1, c, id, error);
    assert Holders(s.tests, id) == {0};
    RefusedForGoodExactly(steps, s, c.containerName, error);
  }

  lemma FailedStart(c: Composition, network: NetworkName, id: Id, error: Error) returns (steps: seq<Step>, s: Sys)
    requires Named(c)
    ensures Execute(steps) == Some(s) && s.registry == map[c.containerName := Entry(Failed(error, Some(id)), 1)]
    ensures s.tests.Keys == {0} && s.tests[0].held == {id} && s.daemon.created == map[id := c.containerName]
    ensures s.owner == map[c.containerName := id] && s.leak == map[id := 0] && s.peak == map[id := 1] && s.lost == {}
    ensures s.networks == map[network := None]
  {
    var p := PendingOf(c, id);
    var first: Sys;
    steps, first := FirstContainer(c, network, id);
    steps, s := Apply(steps, first, Start(0, p, Docker.Refused(error)));
    var e := first.registry[c.containerName];
    assert s.registry == map[c.containerName := e.(status := Failed(error, Some(id)))];
  }

  /** A creation that meets a failed entry. */
  lemma ApplyRefused(steps: seq<Step>, s: Sys, t: TestId, c: Composition, id: Id, error: Error)
    returns (steps': seq<Step>, s': Sys)
    requires Execute(steps) == Some(s) && t in s.tests && s.tests[t].phase.Using? && Named(c)
    requires Refusing(s, c.containerName, error) && c.containerName in s.owner && s.owner[c.containerName] == id
    requires id !in s.lost && id in s.leak
    ensures Execute(steps') == Some(s')
    ensures s' == s.(registry := s.registry[c.containerName := Counted(s.registry[c.containerName])],
                     leak := s.leak[id := s.leak[id] + 1],
                     peak := Raised(s.peak, id, UsersOf(s.tests, s'.leak, id)))
  {
    steps', s' := Apply(steps, s, Create(t, c, CreateReplies(Failure(error), Docker.Accepted)));
  }
}
