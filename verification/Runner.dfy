/** Running one test from its compositions to its teardown. Whatever goes wrong on the way, what was created is
    handed to teardown, once. */
module Runner {
  import opened Containers
  import opened Engine
  import opened Launch
  import opened Flight
  import Docker

  // --- what teardown does -----------------------------------------------------------------------------------

  datatype PruneStrategy = RunningRegardless | RunningOnFailure | StopOnFailure | RemoveRegardless

  // --- what the world answers -------------------------------------------------------------------------------

  /** Whether a container with the name of a new one is in the way: no, yes but it could be removed, or it could
      not be removed. */
  datatype Prior = Absent | Removed(id: Id) | Stuck(error: Error)

  /** `shared` is what the registries return for a static composition, the rest what the daemon answers for
      any other. */
  datatype Creation = Creation(shared: Result<CreatedContainer, Error>, prior: Prior, created: Result<Id, Error>)

  /** `shared` is what the registries return for a static container, `own` what the daemon answers otherwise. */
  datatype Starting = Starting(shared: StartResult, own: Docker.Reply)

  /** Everything a run depends on besides its compositions, place by place: `externals` are the containers the
      registries list, `honoured` the removals the daemon complies with. */
  datatype Replies = Replies(
    generated: seq<Name>,
    network: Docker.Reply,
    creations: seq<Creation>,
    starts: seq<Starting>,
    externals: seq<OperationalContainer>,
    inspections: seq<Result<Address, Error>>,
    bodyPasses: bool,
    honoured: set<Id>)

  function CreationOf(c: Composition, reply: Creation): Result<CreatedContainer, Error> {
    if c.management.Some? then reply.shared
    else if reply.prior.Stuck? then Failure(reply.prior.error)
    else
      match reply.created
      case Success(id) => Success(CreatedPending(PendingOf(c, id)))
      case Failure(e) => Failure(e)
  }

  /** What creating must give for a composition: the registries decide about a static one; any other is made by the
      daemon, unless a container of its name is in the way. */
  predicate CreatedAs(c: Composition, reply: Creation, r: Result<CreatedContainer, Error>) {
    if c.management.Some? then r == reply.shared
    else
      match (reply.prior, reply.created)
      case (Stuck(e), _) => r == Failure(e)
      case (_, Failure(e)) => r == Failure(e)
      case (_, Success(id)) => r.Success? && r.value.CreatedPending? && MadeFrom(c, id, r.value.pending)
  }

  /** What the creations made so far have returned. */
  predicate AsCreated(cs: seq<Composition>, creations: seq<Creation>, created: seq<Result<CreatedContainer, Error>>)
    requires |created| <= |cs| == |creations|
  {
    forall k :: 0 <= k < |created| ==>
      created[k] == CreationOf(cs[k], creations[k]) && CreatedAs(cs[k], creations[k], created[k])
  }

  predicate CreatesOwn(c: Composition, reply: Creation) {
    c.management.None? && !reply.prior.Stuck? && reply.created.Success?
  }

  /** The containers that the creations make for this test alone. */
  function OwnCreated(cs: seq<Composition>, creations: seq<Creation>): set<Id>
    requires |cs| == |creations|
  {
    set i | 0 <= i < |cs| && CreatesOwn(cs[i], creations[i]) :: creations[i].created.value
  }

  /** Leftovers that were in the way and were removed. */
  function Leftovers(cs: seq<Composition>, creations: seq<Creation>): set<Id>
    requires |cs| == |creations|
  {
    set i | 0 <= i < |cs| && cs[i].management.None? && creations[i].prior.Removed? :: creations[i].prior.id
  }

  function KeptOf(cs: seq<Composition>, creations: seq<Creation>): (kept: seq<Transitional>)
    requires |cs| == |creations|
    ensures |kept| == |cs| && forall i :: 0 <= i < |cs| ==> kept[i] == Transit(CreationOf(cs[i], creations[i]))
  {
    seq(|cs|, i requires 0 <= i < |cs| => Transit(CreationOf(cs[i], creations[i])))
  }

  function StartOf(t: Transitional, reply: Starting): StartResult {
    if t.Pending? && !t.pending.isStatic then
      if reply.own.Accepted? then Success(OperationalOf(t.pending)) else Failure(reply.own.error)
    else reply.shared
  }

  function StartsOf(kept: seq<Transitional>, starts: seq<Starting>): (results: seq<StartResult>)
    requires |kept| == |starts|
    ensures |results| == |kept| && forall i :: 0 <= i < |kept| ==> results[i] == StartOf(kept[i], starts[i])
  {
    seq(|kept|, i requires 0 <= i < |kept| => StartOf(kept[i], starts[i]))
  }

  /** The daemon gives new containers new ids. */
  predicate FreshIds(d: Docker.State, cs: seq<Composition>, creations: seq<Creation>)
    requires |cs| == |creations|
  {
    && (forall i :: 0 <= i < |cs| && CreatesOwn(cs[i], creations[i]) ==> creations[i].created.value !in d.created)
    && (forall i, j :: 0 <= i < j < |cs| && CreatesOwn(cs[i], creations[i]) && CreatesOwn(cs[j], creations[j]) ==>
          creations[i].created.value != creations[j].created.value)
  }

  /** What the registries promise to every test. */
  ghost predicate RegistriesKeepWord(cs: seq<Composition>, replies: Replies)
    requires |cs| == |replies.creations| == |replies.starts|
  {
    var kept := KeptOf(cs, replies.creations);
    && (forall i :: 0 <= i < |cs| && cs[i].management.Some? && kept[i].Pending? ==> kept[i].pending.isStatic)
    && (AllCreated(kept) ==>
          && Faithful(kept, StartsOf(kept, replies.starts)) && Distinct(kept) && Lists(kept, replies.externals))
  }

  predicate AllCreated(kept: seq<Transitional>) {
    forall i :: 0 <= i < |kept| ==> !kept[i].CreationFailure?
  }

  // --- preparing compositions -------------------------------------------------------------------------------

  function Named(cs: seq<Composition>, generated: seq<Name>): (r: seq<Composition>)
    requires |cs| == |generated|
    ensures |r| == |cs|
  {
    seq(|cs|, i requires 0 <= i < |cs| =>
      cs[i].(containerName := if cs[i].IsStatic() then cs[i].GetHandle() else generated[i]))
  }

  /** Final names: of a static composition what a user asks for it by, of any other a generated one. */
  lemma NamedExactly(cs: seq<Composition>, generated: seq<Name>, named: seq<Composition>)
    requires |cs| == |generated|
    ensures named == Named(cs, generated)
       <==> |named| == |cs| && forall i :: 0 <= i < |cs| ==>
              && named[i] == cs[i].(containerName := named[i].containerName)
              && if cs[i].management.Some? then GoesBy(cs[i], named[i].containerName)
                 else named[i].containerName == generated[i]
  {
  }

  predicate Prepares(cs: seq<Composition>) {
    forall c :: c in cs ==> Injectable(cs, c.injectContainerNameEnv)
  }

  /** The compositions as they are created, names and environments filled in. */
  function Prepared(cs: seq<Composition>, generated: seq<Name>): (r: seq<Composition>)
    requires |cs| == |generated|
    ensures |r| == |cs|
    ensures forall i :: 0 <= i < |r| ==> r[i] == cs[i].(containerName := r[i].containerName, env := r[i].env)
    ensures forall i :: 0 <= i < |r| ==> if cs[i].management.Some? then GoesBy(cs[i], r[i].containerName)
                                         else r[i].containerName == generated[i]
  {
    var named := Named(cs, generated);
    if Prepares(named) then Injected(named) else named
  }

  /** What a container reads of another's name is the name it is created under. */
  lemma PreparedReads(cs: seq<Composition>, generated: seq<Name>, i: nat, j: nat, k: nat)
    requires |cs| == |generated| && Prepares(Named(cs, generated))
    requires i < |cs| && j < |cs[i].injectContainerNameEnv|
    requires GoingBy(cs, cs[i].injectContainerNameEnv[j].0) == {k}
    requires forall l :: j < l < |cs[i].injectContainerNameEnv| ==>
               cs[i].injectContainerNameEnv[l].1 != cs[i].injectContainerNameEnv[j].1
    ensures var v, r := cs[i].injectContainerNameEnv[j].1, Prepared(cs, generated);
            k < |r| && v in r[i].env && r[i].env[v] == r[k].containerName
  {
    var named, h := Named(cs, generated), cs[i].injectContainerNameEnv[j].0;
    NamedExactly(cs, generated, named);
    assert GoingBy(named, h) == GoingBy(cs, h);
    InjectedReads(named, i, j, k);
    GoesByOnce(named, h, k);
    assert named[k] in named && Injected(named)[k] == InjectedAt(named, k);
  }

  function Failures(kept: seq<Transitional>): seq<Error> {
    if kept == [] then []
    else
      var last := |kept| - 1;
      var before := Failures(kept[..last]);
      if kept[last].CreationFailure? then before + [kept[last].error] else before
  }

  lemma {:induction false} FailuresExactly(kept: seq<Transitional>)
    ensures AllCreated(kept) <==> Failures(kept) == []
    ensures forall e :: e in Failures(kept) <==> CreationFailure(e) in kept
  {
    if kept != [] {
      FailuresExactly(kept[..|kept| - 1]);
      assert kept == kept[..|kept| - 1] + [kept[|kept| - 1]];
    }
  }

  /** The last creation that failed. */
  predicate LastFailed(kept: seq<Transitional>, i: nat) {
    && i < |kept| && kept[i].CreationFailure?
    && forall j :: i < j < |kept| ==> !kept[j].CreationFailure?
  }

  lemma {:induction false} LastOfFailures(kept: seq<Transitional>) returns (i: nat)
    requires !AllCreated(kept)
    ensures LastFailed(kept, i) && Failures(kept) != [] && kept[i].error == Failures(kept)[|Failures(kept)| - 1]
  {
    var last := |kept| - 1;
    if kept[last].CreationFailure? {
      i := last;
    } else {
      i := LastOfFailures(kept[..last]);
    }
  }

  datatype Verdict = Passed | Failed(error: Error) | Panicked

  /** Whether a run gets as far as creating containers. */
  predicate Reached(cs: seq<Composition>, mode: Network, replies: Replies)
    requires |replies.generated| == |cs|
  {
    Prepares(Named(cs, replies.generated)) && (mode.Isolated? ==> replies.network.Accepted?)
  }

  /** The containers after a successful start. */
  ghost function Flying(kept: seq<Transitional>, replies: Replies): (kept': seq<Transitional>)
    requires |kept| == |replies.starts| && AllStarted(kept, StartsOf(kept, replies.starts))
    ensures |kept'| == |kept|
  {
    Placed(kept, Started(kept, StartsOf(kept, replies.starts)) + replies.externals)
  }

  ghost predicate Inspects(kept: seq<Transitional>, inspections: seq<Result<Address, Error>>)
    requires |kept| == |inspections|
  {
    forall i :: 0 <= i < |kept| && kept[i].Running? ==> inspections[i].Success?
  }

  /** Whether the test body gets to run. */
  ghost predicate Boards(kept: seq<Transitional>, replies: Replies)
    requires |kept| == |replies.starts| == |replies.inspections|
  {
    && AllCreated(kept) && AllStarted(kept, StartsOf(kept, replies.starts))
    && Inspects(Flying(kept, replies), replies.inspections)
  }

  /** What starting a container must give: the registries decide about a shared one; any other runs as it was made,
      if the daemon agrees. */
  predicate StartsAs(p: PendingContainer, reply: Starting, r: StartResult) {
    if p.isStatic then r == reply.shared
    else
      match reply.own
      case Accepted => r.Success? && RunsAs(p, r.value)
      case Refused(e) => r == Failure(e)
  }

  /** A container is there for the composition, and the daemon or the registries start it. */
  predicate Creates(c: Composition, creation: Creation) {
    if c.management.Some? then creation.shared.Success? else !creation.prior.Stuck? && creation.created.Success?
  }

  predicate Launches(p: PendingContainer, reply: Starting) {
    if p.isStatic then reply.shared.Success? else reply.own.Accepted?
  }

  /** The test body gets to run exactly if every creation and every start goes well, and every running container can be
      inspected. */
  lemma BoardsExactly(cs: seq<Composition>, replies: Replies)
    requires |cs| == |replies.creations| == |replies.starts| == |replies.inspections|
    ensures var kept := KeptOf(cs, replies.creations);
            && (AllCreated(kept) <==> forall i :: 0 <= i < |cs| ==> Creates(cs[i], replies.creations[i]))
            && (AllStarted(kept, StartsOf(kept, replies.starts)) <==>
                  forall i :: 0 <= i < |cs| && kept[i].Pending? ==> Launches(kept[i].pending, replies.starts[i]))
            && (forall i :: 0 <= i < |cs| && kept[i].Pending? ==>
                  StartsAs(kept[i].pending, replies.starts[i], StartsOf(kept, replies.starts)[i]))
            && (Boards(kept, replies) <==>
                  && AllCreated(kept) && AllStarted(kept, StartsOf(kept, replies.starts))
                  && forall i :: 0 <= i < |cs| && Flying(kept, replies)[i].Running? ==> replies.inspections[i].Success?)
  {
    var kept := KeptOf(cs, replies.creations);
    CreatedExactly(cs, replies.creations);
    SucceedsExactly(kept, StartsOf(kept, replies.starts));
    assert forall i :: 0 <= i < |kept| && kept[i].Pending? ==>
             StartsOf(kept, replies.starts)[i] == StartOf(kept[i], replies.starts[i]);
  }

  lemma CreatedExactly(cs: seq<Composition>, creations: seq<Creation>)
    requires |cs| == |creations|
    ensures AllCreated(KeptOf(cs, creations)) <==> forall i :: 0 <= i < |cs| ==> Creates(cs[i], creations[i])
  {
    forall i | 0 <= i < |cs|
      ensures KeptOf(cs, creations)[i].CreationFailure? <==> !Creates(cs[i], creations[i])
    {
      assert KeptOf(cs, creations)[i] == Transit(CreationOf(cs[i], creations[i]));
    }
  }

  /** What goes wrong, and in which order. */
  ghost predicate Reports(kept: seq<Transitional>, replies: Replies, error: Error)
    requires |kept| == |replies.starts| == |replies.inspections|
  {
    if !AllCreated(kept) then exists i: nat :: LastFailed(kept, i) && error == kept[i].error
    else
      var results := StartsOf(kept, replies.starts);
      if StartPhase(kept, results).Failure? then error == StartPhase(kept, results).error
      else AllStarted(kept, results) && MissesLast(Flying(kept, replies), replies.inspections, error)
  }

  ghost predicate MissesLast(kept: seq<Transitional>, inspections: seq<Result<Address, Error>>, error: Error)
    requires |kept| == |inspections|
  {
    exists i: nat :: LastFailing(kept, inspections, i) && inspections[i] == Failure(error)
  }

  /** The runner of one test. `cleanups` are the sets of ids it handed to the registries, `stopped` the containers
      it asked the daemon to stop, `networks` the isolated networks it made and did not ask to delete. */
  class Runner {
    const client: Docker.Client
    const mode: Network
    const strategy: PruneStrategy
    var cleanups: seq<set<Id>>
    var stopped: set<Id>
    var networks: int

    constructor (client: Docker.Client, mode: Network, strategy: PruneStrategy)
      ensures this.client == client && this.mode == mode && this.strategy == strategy
      ensures cleanups == [] && stopped == {} && networks == 0
    {
      this.client, this.mode, this.strategy := client, mode, strategy;
      cleanups, stopped, networks := [], {}, 0;
    }

    predicate LeavesRunning(bodyFailed: bool) {
      strategy.RunningRegardless? || (bodyFailed && strategy.RunningOnFailure?)
    }

    /** What becomes of the containers of its own: with one exception every strategy removes those of a test that
        passed or did not get to its body; of a test whose body failed they are removed, stopped, or left alone.
        `gone` are those removed before. */
    twostate predicate Spares(gone: set<Id>, own: set<Id>, honoured: set<Id>, bodyFailed: bool)
      reads this, client
    {
      && (strategy.RemoveRegardless? || (!bodyFailed && !strategy.RunningRegardless?) ==>
            client.state.removed == gone + own * honoured && stopped == old(stopped))
      && (LeavesRunning(bodyFailed) ==> client.state.removed == gone && stopped == old(stopped))
      && (bodyFailed && strategy.StopOnFailure? ==>
            client.state.removed == gone && stopped == old(stopped) + own)
    }

    /** What one teardown does to the state `d` of the daemon and to the other records. */
    twostate predicate TornDown(d: Docker.State, debris: Debris, testFailed: bool, honoured: set<Id>)
      reads this, client
    {
      && client.state.created == d.created
      && cleanups == old(cleanups) + [debris.SharedIds()]
      && Spares(d.removed, debris.OwnIds(), honoured, testFailed)
      && (LeavesRunning(testFailed) || (testFailed && strategy.StopOnFailure?) ==> client.state == d)
      && networks == old(networks) - (if mode.Isolated? && !LeavesRunning(testFailed) then 1 else 0)
    }

    method StopContainers(kept: seq<Cleanup>)
      modifies this`stopped
      ensures stopped == old(stopped) + OwnOf(kept)
    {
      for i := 0 to |kept|
        invariant stopped == old(stopped) + OwnOf(kept[..i])
      {
        assert kept[..i + 1] == kept[..i] + [kept[i]];
        if !kept[i].isStatic {
          stopped := stopped + {kept[i].id};
        }
      }
      assert kept[..|kept|] == kept;
    }

    method RemoveContainers(kept: seq<Cleanup>, honoured: set<Id>)
      modifies client
      ensures client.state.created == old(client.state.created)
      ensures client.state.removed == old(client.state.removed) + OwnOf(kept) * honoured
    {
      for i := 0 to |kept|
        invariant client.state.created == old(client.state.created)
        invariant client.state.removed == old(client.state.removed) + OwnOf(kept[..i]) * honoured
      {
        assert kept[..i + 1] == kept[..i] + [kept[i]];
        if !kept[i].isStatic {
          client.RemoveContainer(kept[i].id, kept[i].id in honoured);
        }
      }
      assert kept[..|kept|] == kept;
    }

    method Teardown(debris: Debris, testFailed: bool, honoured: set<Id>)
      modifies this, client
      ensures TornDown(old(client.state), debris, testFailed, honoured)
    {
      cleanups := cleanups + [debris.SharedIds()];
      match strategy {
        case RunningRegardless =>
          return;
        case RunningOnFailure =>
          if testFailed {
            return;
          }
        case StopOnFailure =>
          if testFailed {
            StopContainers(debris.kept);
            TeardownNetwork();
            return;
          }
        case RemoveRegardless =>
      }
      RemoveContainers(debris.kept, honoured);
      TeardownNetwork();
    }

    method TeardownNetwork()
      modifies this`networks
      ensures networks == old(networks) - if mode.Isolated? then 1 else 0
    {
      if mode.Isolated? {
        networks := networks - 1;
      }
    }

    method ResolveNetwork(reply: Docker.Reply) returns (r: Outcome)
      modifies this`networks
      ensures r == if mode.Isolated? && reply.Refused? then Fail(reply.error) else Pass
      ensures networks == old(networks) + if mode.Isolated? && reply.Accepted? then 1 else 0
    {
      if mode.Isolated? {
        if reply.Refused? {
          return Fail(reply.error);
        }
        networks := networks + 1;
      }
      r := Pass;
    }

    method CreateContainer(c: Composition, reply: Creation) returns (r: Result<CreatedContainer, Error>)
      requires CreatesOwn(c, reply) ==> reply.created.value !in client.state.created
      modifies client
      ensures r == CreationOf(c, reply) && CreatedAs(c, reply, r)
      ensures client.state.created == if CreatesOwn(c, reply) then
                                        old(client.state.created)[reply.created.value := c.containerName]
                                      else old(client.state.created)
      ensures client.state.removed == old(client.state.removed)
                                    + if c.management.None? && reply.prior.Removed? then {reply.prior.id} else {}
    {
      if c.IsStatic() {
        return reply.shared;
      }
      match reply.prior {
        case Absent =>
        case Removed(id) => client.RemoveContainer(id, true);
        case Stuck(e) => return Failure(e);
      }
      var p := client.CreateContainer(c, reply.created);
      r := if p.Success? then Success(CreatedPending(p.value)) else Failure(p.error);
    }

    method CreateContainers(cs: seq<Composition>, creations: seq<Creation>)
      returns (created: seq<Result<CreatedContainer, Error>>)
      requires |cs| == |creations| && FreshIds(client.state, cs, creations)
      modifies client
      ensures |created| == |cs| && AsCreated(cs, creations, created)
      ensures client.state.created.Keys == old(client.state.created.Keys) + OwnCreated(cs, creations)
      ensures client.state.removed == old(client.state.removed) + Leftovers(cs, creations)
    {
      created := [];
      for i := 0 to |cs|
        invariant |created| == i && AsCreated(cs, creations, created)
        invariant client.state.created.Keys == old(client.state.created.Keys) + OwnCreated(cs[..i], creations[..i])
        invariant client.state.removed == old(client.state.removed) + Leftovers(cs[..i], creations[..i])
      {
        OneMoreCreated(cs, creations, i);
        NotYetCreated(old(client.state), cs, creations, i);
        var r := CreateContainer(cs[i], creations[i]);
        created := created + [r];
      }
      assert cs[..|cs|] == cs && creations[..|cs|] == creations;
    }

    /** One run. It hands the registries and the daemon, exactly once, what it created, unless it fails before
        it creates anything. */
    method Run(compositions: seq<Composition>, replies: Replies) returns (verdict: Verdict)
      requires |compositions| == |replies.generated| == |replies.creations|
            == |replies.starts| == |replies.inspections|
      requires FreshIds(client.state, Prepared(compositions, replies.generated), replies.creations)
      requires RegistriesKeepWord(Prepared(compositions, replies.generated), replies)
      modifies this, client
      ensures !Reached(compositions, mode, replies) ==>
                verdict.Failed? && client.state == old(client.state) && cleanups == old(cleanups)
                && stopped == old(stopped) && networks == old(networks)
      ensures Reached(compositions, mode, replies) ==>
                && Accounted(old(client.state), Prepared(compositions, replies.generated), replies, verdict.Panicked?)
                && networks == old(networks) + if mode.Isolated? && LeavesRunning(verdict.Panicked?) then 1 else 0
      ensures var kept := KeptOf(Prepared(compositions, replies.generated), replies.creations);
              && (verdict.Passed? <==>
                    Reached(compositions, mode, replies) && Boards(kept, replies) && replies.bodyPasses)
              && (verdict.Panicked? <==>
                    Reached(compositions, mode, replies) && Boards(kept, replies) && !replies.bodyPasses)
      ensures verdict.Failed? ==> GivesUpWith(compositions, replies, verdict.error)
    {
      var prepared := Prepare(compositions, replies.generated);
      if prepared.Failure? {
        return Failed(prepared.error);
      }
      var network := ResolveNetwork(replies.network);
      if network.Fail? {
        return Failed(network.error);
      }
      verdict := Execute(prepared.value.0, prepared.value.1, replies);
    }

    /** The error of a run, by how far it got. */
    ghost predicate GivesUpWith(compositions: seq<Composition>, replies: Replies, error: Error)
      requires |compositions| == |replies.generated| == |replies.creations|
            == |replies.starts| == |replies.inspections|
    {
      var named := Named(compositions, replies.generated);
      if !Prepares(named) then exists i :: RejectedBy(named, i, error)
      else if mode.Isolated? && replies.network.Refused? then error == replies.network.error
      else Reports(KeptOf(Prepared(compositions, replies.generated), replies.creations), replies, error)
    }

    method Prepare(compositions: seq<Composition>, generated: seq<Name>)
      returns (r: Result<(Keeper, seq<Composition>), Error>)
      requires |compositions| == |generated|
      ensures r.Success? <==> Prepares(Named(compositions, generated))
      ensures r.Success? ==> r.value.1 == Prepared(compositions, generated) && KeeperFor(r.value.0, Handles(r.value.1))
      ensures r.Failure? ==> exists i :: RejectedBy(Named(compositions, generated), i, r.error)
    {
      var fueling := new Fueling(compositions);
      fueling.ResolveFinalContainerName(generated);
      NamedExactly(compositions, generated, fueling.kept);
      var injected := fueling.ResolveInjectContainerNameEnv();
      if injected.Fail? {
        return Failure(injected.error);
      }
      r := Success((fueling.keeper, fueling.kept));
    }

    /** From prepared compositions to the end of the test. */
    method Execute(keeper: Keeper, cs: seq<Composition>, replies: Replies) returns (verdict: Verdict)
      requires |cs| == |replies.creations| == |replies.starts| == |replies.inspections|
      requires FreshIds(client.state, cs, replies.creations) && RegistriesKeepWord(cs, replies)
      modifies this, client
      ensures Accounted(old(client.state), cs, replies, verdict.Panicked?)
      ensures networks == old(networks) - if mode.Isolated? && !LeavesRunning(verdict.Panicked?) then 1 else 0
      ensures verdict.Passed? <==> Boards(KeptOf(cs, replies.creations), replies) && replies.bodyPasses
      ensures verdict.Panicked? <==> Boards(KeptOf(cs, replies.creations), replies) && !replies.bodyPasses
      ensures verdict.Failed? ==> Reports(KeptOf(cs, replies.creations), replies, verdict.error)
    {
      var created := CreateContainers(cs, replies.creations);
      OwnIsKept(cs, replies.creations);
      var igniting, ok := Ignite(keeper, created);
      assert igniting.kept == KeptOf(cs, replies.creations);
      if ok {
        verdict := Fly(igniting, replies);
      } else {
        verdict := GiveUp(igniting, replies.honoured);
      }
    }

    /** At least one container could not be created; the last such error is reported. */
    method GiveUp(igniting: Igniting, honoured: set<Id>) returns (verdict: Verdict)
      requires !AllCreated(igniting.kept) && forall i :: 0 <= i < |igniting.kept| ==> !igniting.kept[i].Running?
      modifies this, client
      ensures HandedOver(old(client.state), igniting.kept, false, honoured)
      ensures verdict.Failed?
      ensures exists i: nat :: LastFailed(igniting.kept, i) && verdict.error == igniting.kept[i].error
    {
      var failures := Failures(igniting.kept);
      IgnitingDebrisComplete(igniting.kept);
      Teardown(DebrisOfIgniting(igniting.kept), false, honoured);
      ghost var last := LastOfFailures(igniting.kept);
      verdict := Failed(failures[|failures| - 1]);
    }

    /** From created containers to the end of the test. */
    method Fly(igniting: Igniting, replies: Replies) returns (verdict: Verdict)
      requires |igniting.kept| == |replies.starts| == |replies.inspections|
      requires AllCreated(igniting.kept) && forall i :: 0 <= i < |igniting.kept| ==>
                 igniting.kept[i].Pending? || igniting.kept[i].FoundExternal?
      requires Faithful(igniting.kept, StartsOf(igniting.kept, replies.starts))
      requires Distinct(igniting.kept) && Lists(igniting.kept, replies.externals)
      modifies this, client, igniting
      ensures HandedOver(old(client.state), old(igniting.kept), verdict.Panicked?, replies.honoured)
      ensures verdict.Passed? <==> Boards(old(igniting.kept), replies) && replies.bodyPasses
      ensures verdict.Panicked? <==> Boards(old(igniting.kept), replies) && !replies.bodyPasses
      ensures verdict.Failed? ==> Reports(old(igniting.kept), replies, verdict.error)
    {
      ghost var created := igniting.kept;
      var results := StartsOf(igniting.kept, replies.starts);
      var started := igniting.StartContainers(results, replies.externals);
      if started.Fail? {
        IgnitingDebrisComplete(igniting.kept);
        Teardown(DebrisOfIgniting(igniting.kept), false, replies.honoured);
        return Failed(started.error);
      }
      OrbitingDebrisComplete(created, results, replies.externals);
      var orbiting := new Orbiting(igniting.keeper, igniting.kept);
      verdict := Land(orbiting, created, replies);
    }

    /** From started containers to the end of the test; `created` is what they were started from. */
    method Land(orbiting: Orbiting, ghost created: seq<Transitional>, replies: Replies) returns (verdict: Verdict)
      requires |orbiting.kept| == |replies.inspections|
      requires DebrisOfOrbiting(orbiting.kept).OwnIds() == OwnIds(created)
      requires var ids := DebrisOfOrbiting(orbiting.kept).SharedIds();
               SharedIds(created) <= ids <= SharedIds(created) + FoundIds(created)
      modifies this, client, orbiting
      ensures HandedOver(old(client.state), created, verdict.Panicked?, replies.honoured)
      ensures verdict.Passed? <==> Inspects(old(orbiting.kept), replies.inspections) && replies.bodyPasses
      ensures verdict.Panicked? <==> Inspects(old(orbiting.kept), replies.inspections) && !replies.bodyPasses
      ensures verdict.Failed? ==> MissesLast(old(orbiting.kept), replies.inspections, verdict.error)
    {
      ghost var flying := orbiting.kept;
      var errors := orbiting.Inspect(replies.inspections);
      InspectKeepsDebris(flying, orbiting.kept, replies.inspections);
      if errors != [] {
        ghost var last := SomeFails(flying, replies.inspections);
        LastReported(flying, replies.inspections, last);
        Teardown(DebrisOfOrbiting(orbiting.kept), false, replies.honoured);
        return Failed(errors[|errors| - 1]);
      }
      Teardown(DebrisOfOrbiting(orbiting.kept), !replies.bodyPasses, replies.honoured);
      verdict := if replies.bodyPasses then Passed else Panicked;
    }

    /** One teardown took place, and it got exactly the containers created for the test alone, the shared ones
        the test holds, and no shared one that it neither holds nor found. */
    twostate predicate HandedOver(d: Docker.State, kept: seq<Transitional>, testFailed: bool, honoured: set<Id>)
      reads this, client
    {
      && client.state.created == d.created
      && |cleanups| == |old(cleanups)| + 1 && cleanups[..|old(cleanups)|] == old(cleanups)
      && SharedIds(kept) <= cleanups[|old(cleanups)|] <= SharedIds(kept) + FoundIds(kept)
      && Spares(d.removed, OwnIds(kept), honoured, testFailed)
      && networks == old(networks) - (if mode.Isolated? && !LeavesRunning(testFailed) then 1 else 0)
    }

    /** What a run that reached the creation of containers leaves behind. Only a test body that failed counts as
        a failure when deciding what to keep. */
    twostate predicate Accounted(d: Docker.State, cs: seq<Composition>, replies: Replies, testFailed: bool)
      requires |cs| == |replies.creations|
      reads this, client
    {
      var kept := KeptOf(cs, replies.creations);
      var own := OwnCreated(cs, replies.creations);
      && client.state.created.Keys == d.created.Keys + own
      && |cleanups| == |old(cleanups)| + 1 && cleanups[..|old(cleanups)|] == old(cleanups)
      && SharedIds(kept) <= cleanups[|old(cleanups)|] <= SharedIds(kept) + FoundIds(kept)
      && Spares(d.removed + Leftovers(cs, replies.creations), own, replies.honoured, testFailed)
    }
  }

  /** The containers of its own that a test has to clean up are those it created. */
  lemma OwnIsKept(cs: seq<Composition>, creations: seq<Creation>)
    requires |cs| == |creations|
    requires forall i :: 0 <= i < |cs| && cs[i].management.Some? && KeptOf(cs, creations)[i].Pending? ==>
               KeptOf(cs, creations)[i].pending.isStatic
    ensures OwnIds(KeptOf(cs, creations)) == OwnCreated(cs, creations)
  {
    var kept := KeptOf(cs, creations);
    forall i | 0 <= i < |cs|
      ensures kept[i].Pending? && !kept[i].pending.isStatic <==> CreatesOwn(cs[i], creations[i])
      ensures CreatesOwn(cs[i], creations[i]) ==> kept[i].pending.id == creations[i].created.value
    {
      assert kept[i] == Transit(CreationOf(cs[i], creations[i]));
    }
  }

  lemma OneMoreCreated(cs: seq<Composition>, creations: seq<Creation>, i: nat)
    requires |cs| == |creations| && i < |cs|
    ensures OwnCreated(cs[..i + 1], creations[..i + 1])
         == OwnCreated(cs[..i], creations[..i])
          + if CreatesOwn(cs[i], creations[i]) then {creations[i].created.value} else {}
    ensures Leftovers(cs[..i + 1], creations[..i + 1])
         == Leftovers(cs[..i], creations[..i])
          + if cs[i].management.None? && creations[i].prior.Removed? then {creations[i].prior.id} else {}
  {
    var cs', cr' := cs[..i + 1], creations[..i + 1];
    assert forall k :: 0 <= k < i ==> cs'[k] == cs[..i][k] && cr'[k] == creations[..i][k];
    assert cs'[i] == cs[i] && cr'[i] == creations[i];
  }

  lemma NotYetCreated(d: Docker.State, cs: seq<Composition>, creations: seq<Creation>, i: nat)
    requires |cs| == |creations| && i < |cs| && FreshIds(d, cs, creations)
    ensures CreatesOwn(cs[i], creations[i]) ==>
              creations[i].created.value !in d.created.Keys + OwnCreated(cs[..i], creations[..i])
  {
    assert forall k :: 0 <= k < i ==> cs[..i][k] == cs[k] && creations[..i][k] == creations[k];
  }
}
