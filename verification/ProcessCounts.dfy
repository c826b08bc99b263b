/** Who uses an internal container in a run of the whole process, and which of its uses nobody will take back. All of
    it is read off the steps of the run, and agrees with the book-keeping of the protocol. */
module ProcessCounts {
  import opened Containers
  import Docker
  import Internal = InternalContainers
  import Protocol = InternalProtocol
  import Theorems = InternalTheorems
  import Limits = InternalLimits
  import opened Process
  import opened Simulation

  /** The tests that asked for an internal container and have not let go of it. */
  ghost function HoldersOf(w: World, id: Id): set<TestId> {
    set t | t in w.tests && !w.tests[t].phase.Removing? && Keeps(w.tests[t], id)
  }

  ghost predicate Keeps(test: Member, id: Id) {
    exists p :: p in test.kept && p.management == Some(Internal) && p.id == id
  }

  predicate AsksFor(step: Step, n: Name) {
    step.CreateStatic? && step.c.management == Some(Internal) && step.c.containerName == n
  }

  /** The container that was created last under a name, by a step that found no entry of it, or a cleaned one. */
  ghost function LastCreated(usage: Usage, steps: seq<Step>, n: Name): Option<Id> {
    if steps == [] then None
    else
      var before, step := steps[..|steps| - 1], steps[|steps| - 1];
      var w := Execute(usage, INIT, before);
      if w.Some? && AsksFor(step, n) && Protocol.Generates(w.value.statics.internal, n) then
        if step.replies.internal.created.Success? then Some(step.replies.internal.created.value) else None
      else LastCreated(usage, before, n)
  }

  /** A request that raises the counter of container `id` in vain: the container is created but cannot be attached,
      its start has failed, or the test has it already. `last` is the container created last under the name. */
  ghost predicate LeaksAt(w: World, step: Step, last: Option<Id>, id: Id)
    requires step.CreateStatic? ==> step.t in w.tests
  {
    && step.CreateStatic? && step.c.management == Some(Internal)
    && var (m, n, replies) := (w.statics.internal, step.c.containerName, step.replies.internal);
       if Protocol.Generates(m, n) then replies.created == Success(id) && replies.connected.Refused?
       else
         && last == Some(id)
         && if m[n].status.Failed? then m[n].status.failedId == Some(id)
            else Keeps(w.tests[step.t], id) && (w.tests[step.t].mode.Isolated? ==> replies.connected.Accepted?)
  }

  /** A start of another container that fails on container `id`, so that its entry forgets it. */
  ghost predicate LosesAt(w: World, step: Step, id: Id) {
    && step.StartStatic? && step.p.management == Some(Internal) && step.reply.Refused? && step.p.id != id
    && step.p.name in w.statics.internal && w.statics.internal[step.p.name].status.Pending?
    && w.statics.internal[step.p.name].status.pending.id == id
  }

  /** The request `step` leaks after the run `before`. */
  ghost predicate Leaks(usage: Usage, before: seq<Step>, step: Step, id: Id) {
    var w := Execute(usage, INIT, before);
    w.Some? && Enabled(usage, w.value, step) && LeaksAt(w.value, step, LastAsked(usage, before, step), id)
  }

  ghost function LastAsked(usage: Usage, before: seq<Step>, step: Step): Option<Id> {
    if step.CreateStatic? then LastCreated(usage, before, step.c.containerName) else None
  }

  ghost function LeakCount(usage: Usage, steps: seq<Step>, id: Id): nat {
    if steps == [] then 0
    else
      var before, step := steps[..|steps| - 1], steps[|steps| - 1];
      LeakCount(usage, before, id) + if Leaks(usage, before, step, id) then 1 else 0
  }

  ghost predicate Loses(usage: Usage, before: seq<Step>, step: Step, id: Id) {
    var w := Execute(usage, INIT, before);
    w.Some? && LosesAt(w.value, step, id)
  }

  /** Some step of the run made an entry forget the container. */
  ghost predicate LostIn(usage: Usage, steps: seq<Step>, id: Id) {
    && steps != []
    && (LostIn(usage, steps[..|steps| - 1], id) || Loses(usage, steps[..|steps| - 1], steps[|steps| - 1], id))
  }

  /** How many use a container: the tests that hold it and the requests for it that leaked. */
  ghost function Crowd(usage: Usage, steps: seq<Step>, id: Id): nat {
    LeakCount(usage, steps, id)
    + match Execute(usage, INIT, steps)
      case Some(w) => |HoldersOf(w, id)|
      case None => 0
  }

  /** At no time does an internal container have more users than its counter can tell from a single one. */
  ghost predicate Uncrowded(usage: Usage, steps: seq<Step>) {
    && (forall id :: Crowd(usage, steps, id) <= 256)
    && (steps != [] ==> Uncrowded(usage, steps[..|steps| - 1]))
  }

  // --- agreement with the protocol ------------------------------------------------------------------------

  lemma SameHolders(w: World, id: Id)
    ensures HoldersOf(w, id) == Protocol.Holders(Views(w.tests), id)
  {
    forall t | t in w.tests
      ensures !w.tests[t].phase.Removing? && Keeps(w.tests[t], id) <==> id in View(w.tests[t]).held
    {
      HeldIsKept(w.tests[t], id);
    }
  }

  lemma HeldIsKept(test: Member, id: Id)
    ensures !test.phase.Removing? && Keeps(test, id) <==> id in View(test).held
  {
    if !test.phase.Removing? && Keeps(test, id) {
      var p :| p in test.kept && p.management == Some(Internal) && p.id == id;
      assert p in InternalOnes(test);
    }
    if id in View(test).held {
      var p :| p in InternalOnes(test) && p.id == id;
    }
  }

  ghost function LeakOf(s: Protocol.Sys, id: Id): nat {
    if id in s.leak then s.leak[id] else 0
  }

  ghost function OwnerOf(s: Protocol.Sys, n: Name): Option<Id> {
    if n in s.owner then Some(s.owner[n]) else None
  }

  /** The protocol keeps the same books. */
  ghost predicate Tracks(usage: Usage, steps: seq<Step>, s: Protocol.Sys)
  {
    && (forall id {:trigger LeakOf(s, id)} :: LeakOf(s, id) == LeakCount(usage, steps, id))
    && (forall id {:trigger LostIn(usage, steps, id)} :: id in s.lost <==> LostIn(usage, steps, id))
    && (forall n {:trigger OwnerOf(s, n)} :: !Protocol.Generates(s.registry, n) ==>
          OwnerOf(s, n) == LastCreated(usage, steps, n))
  }

  /** A request leaks in the process exactly when its counterpart leaks in the protocol. */
  lemma SameLeaks(usage: Usage, w: World, s: Protocol.Sys, step: Step, last: Option<Id>, id: Id)
    requires Simulates(usage, w, s) && Protocol.Inv(s) && Enabled(usage, w, step)
    requires step.CreateStatic? && step.c.management == Some(Internal)
    requires Protocol.Enabled(s, Counterpart(step))
    requires !Protocol.Generates(s.registry, step.c.containerName) ==> OwnerOf(s, step.c.containerName) == last
    ensures LeaksAt(w, step, last, id) <==> Theorems.Leaks(s, Counterpart(step), id)
  {
    var n := step.c.containerName;
    assert n in s.registry ==> Protocol.EntryShape(s, n);
    HeldIsKept(w.tests[step.t], id);
  }

  lemma LeakStep(run: seq<Protocol.Step>, s: Protocol.Sys, step: Protocol.Step, id: Id)
    requires Protocol.Execute(run) == Some(s) && Protocol.Enabled(s, step)
    ensures LeakOf(Protocol.Next(s, step), id) == LeakOf(s, id) + if Theorems.Leaks(s, step, id) then 1 else 0
  {
    Protocol.InvExecute(run);
    Protocol.InvNext(s, step);
    if id in Protocol.Next(s, step).leak {
      Theorems.LeaksExactly(run, s, step, id);
    } else {
      NoLeak(s, step, id);
    }
  }

  /** Ids the daemon does not know are neither forgotten nor leaked. */
  lemma NoLeak(s: Protocol.Sys, step: Protocol.Step, id: Id)
    requires Protocol.Inv(s) && Protocol.Enabled(s, step) && id !in Protocol.Next(s, step).leak
    ensures id !in s.leak && !Theorems.Leaks(s, step, id)
  {
    if step.Create? {
      var n := step.c.containerName;
      assert n in s.owner ==> Protocol.Owned(s, n);
      var (m, d, r) := Protocol.CreateResult(s, step.t, step.c, step.replies);
      BookingLeaks(s.(registry := m, daemon := d), s.registry, step.t, n, step.replies.created, r);
    } else if step.Start? {
      var (m, d, r) := Internal.StartSpec(s.registry, s.daemon, step.p, step.reply);
      assert Protocol.NextStart(s, step.t, step.p, step.reply).leak == s.leak;
    }
  }

  lemma BookingLeaks(s: Protocol.Sys, before: Internal.Registry, t: TestId, n: Name, created: Result<Id, Error>,
                     r: Result<PendingContainer, Error>)
    requires t in s.tests
    ensures var s' := Protocol.Booked(s, before, t, n, created, r);
            && s.leak.Keys <= s'.leak.Keys
            && (Protocol.Generates(before, n) && created.Success? ==> created.value in s'.leak)
  {
    if !Protocol.Generates(before, n) && !before[n].status.Failed? && r.Success? {
      assert Protocol.Booked(s, before, t, n, created, r) == Protocol.Joined(s, t, r.value);
    }
  }

  /** What a step of the protocol makes lost, and whom it makes own a name. */
  lemma LostStep(s: Protocol.Sys, step: Protocol.Step, id: Id)
    requires Protocol.Enabled(s, step)
    ensures id in Protocol.Next(s, step).lost
       <==> || id in s.lost
            || (&& step.Start? && step.reply.Refused? && step.p.id != id
                && step.p.name in s.registry && s.registry[step.p.name].status.Pending?
                && s.registry[step.p.name].status.pending.id == id)
  {
    if step.Create? {
      var (m, d, r) := Protocol.CreateResult(s, step.t, step.c, step.replies);
      Protocol.BookingKeeps(s.(registry := m, daemon := d), s.registry, step.t, step.c.containerName,
                            step.replies.created, r);
    }
  }

  lemma OwnerStep(s: Protocol.Sys, step: Protocol.Step, n: Name)
    requires Protocol.Inv(s) && Protocol.Enabled(s, step)
    requires !Protocol.Generates(Protocol.Next(s, step).registry, n)
    ensures OwnerOf(Protocol.Next(s, step), n)
         == if step.Create? && step.c.containerName == n && Protocol.Generates(s.registry, n) then
              if step.replies.created.Success? then Some(step.replies.created.value) else None
            else OwnerOf(s, n)
    ensures !(step.Create? && step.c.containerName == n) ==> !Protocol.Generates(s.registry, n)
  {
    assert n in s.owner ==> Protocol.Owned(s, n);
    assert n in s.registry ==> Protocol.EntryShape(s, n);
    match step
    case Create(t, c, replies) => CreateOwner(s, t, c, replies, n);
    case Start(t, p, reply) => StartOwner(s, t, p, reply);
    case Join(_, _, _) =>
    case Disconnect(_, _) =>
    case Release(_) =>
    case Remove(_, _, _) =>
  }

  lemma CreateOwner(s: Protocol.Sys, t: TestId, c: Composition, replies: Internal.CreateReplies, n: Name)
    requires t in s.tests
    ensures var s' := Protocol.NextCreate(s, t, c, replies);
            && s'.owner == (if Protocol.Generates(s.registry, c.containerName) && replies.created.Success?
                            then s.owner[c.containerName := replies.created.value] else s.owner)
            && (n != c.containerName && Protocol.Generates(s.registry, n) ==> Protocol.Generates(s'.registry, n))
  {
    var (m, d, r) := Protocol.CreateResult(s, t, c, replies);
    Limits.BookingOwns(s.(registry := m, daemon := d), s.registry, t, c.containerName, replies.created, r);
    Protocol.BookingKeeps(s.(registry := m, daemon := d), s.registry, t, c.containerName, replies.created, r);
    if n != c.containerName {
      OnlyItsEntry(s.registry, s.daemon, c, s.tests[t].network, s.tests[t].mode, replies, n);
    }
  }

  lemma OnlyItsEntry(m: Internal.Registry, d: Docker.State, c: Composition, network: NetworkName, mode: Network,
                     replies: Internal.CreateReplies, n: Name)
    requires n != c.containerName
    ensures var m' := Internal.CreateSpec(m, d, c, Some(network), mode, replies).0;
            (n in m' <==> n in m) && (n in m ==> m'[n] == m[n])
  {
  }

  lemma StartOwner(s: Protocol.Sys, t: TestId, p: PendingContainer, reply: Docker.Reply)
    requires t in s.tests
    ensures var s' := Protocol.NextStart(s, t, p, reply);
            s'.owner == s.owner && forall n :: Protocol.Generates(s.registry, n) ==> Protocol.Generates(s'.registry, n)
  {
  }

  /** One step in the books of the protocol. */
  lemma FollowsBooks(usage: Usage, w: World, run: seq<Protocol.Step>, s: Protocol.Sys, step: Step, s': Protocol.Sys,
                     last: Option<Id>, id: Id)
    requires Simulates(usage, w, s) && Protocol.Execute(run) == Some(s) && Enabled(usage, w, step)
    requires Follows(s, step, s')
    requires step.CreateStatic? && !Protocol.Generates(s.registry, step.c.containerName) ==>
               OwnerOf(s, step.c.containerName) == last
    ensures LeakOf(s', id) == LeakOf(s, id) + if LeaksAt(w, step, last, id) then 1 else 0
    ensures id in s'.lost <==> id in s.lost || LosesAt(w, step, id)
  {
    if Concerns(step) {
      Protocol.InvExecute(run);
      LeakStep(run, s, Counterpart(step), id);
      LostStep(s, Counterpart(step), id);
      if step.CreateStatic? {
        SameLeaks(usage, w, s, step, last, id);
      }
    }
  }

  /** One step in the books of the process. */
  lemma BooksMore(usage: Usage, before: seq<Step>, w: World, step: Step, id: Id)
    requires Execute(usage, INIT, before) == Some(w) && Enabled(usage, w, step)
    ensures LeakCount(usage, before + [step], id)
         == LeakCount(usage, before, id) + if LeaksAt(w, step, LastAsked(usage, before, step), id) then 1 else 0
    ensures LostIn(usage, before + [step], id) <==> LostIn(usage, before, id) || LosesAt(w, step, id)
  {
    assert (before + [step])[..|before|] == before;
  }

  lemma CreatedMore(usage: Usage, before: seq<Step>, w: World, step: Step, n: Name)
    requires Execute(usage, INIT, before) == Some(w)
    ensures LastCreated(usage, before + [step], n)
         == if AsksFor(step, n) && Protocol.Generates(w.statics.internal, n) then
              if step.replies.internal.created.Success? then Some(step.replies.internal.created.value) else None
            else LastCreated(usage, before, n)
  {
    assert (before + [step])[..|before|] == before;
  }

  lemma FollowsOwner(usage: Usage, w: World, s: Protocol.Sys, step: Step, s': Protocol.Sys, last: Option<Id>, n: Name)
    requires Simulates(usage, w, s) && Protocol.Inv(s) && Follows(s, step, s')
    requires !Protocol.Generates(s'.registry, n)
    requires !Protocol.Generates(s.registry, n) ==> OwnerOf(s, n) == last
    ensures OwnerOf(s', n)
         == if AsksFor(step, n) && Protocol.Generates(s.registry, n) then
              if step.replies.internal.created.Success? then Some(step.replies.internal.created.value) else None
            else last
  {
    if Concerns(step) {
      OwnerStep(s, Counterpart(step), n);
    }
  }

  /** One step more in the books of both. */
  lemma TracksMore(usage: Usage, before: seq<Step>, w: World, s: Protocol.Sys, step: Step, s': Protocol.Sys)
    requires Execute(usage, INIT, before) == Some(w) && Enabled(usage, w, step)
    requires Protocol.Execute(Projection(before)) == Some(s) && Simulates(usage, w, s)
    requires Tracks(usage, before, s) && Follows(s, step, s')
    ensures Tracks(usage, before + [step], s')
  {
    forall id
      ensures LeakOf(s', id) == LeakCount(usage, before + [step], id)
      ensures id in s'.lost <==> LostIn(usage, before + [step], id)
    {
      TracksId(usage, before, w, s, step, s', id);
    }
    forall n | !Protocol.Generates(s'.registry, n)
      ensures OwnerOf(s', n) == LastCreated(usage, before + [step], n)
    {
      TracksOwner(usage, before, w, s, step, s', n);
    }
  }

  lemma TracksId(usage: Usage, before: seq<Step>, w: World, s: Protocol.Sys, step: Step, s': Protocol.Sys, id: Id)
    requires Execute(usage, INIT, before) == Some(w) && Enabled(usage, w, step)
    requires Protocol.Execute(Projection(before)) == Some(s) && Simulates(usage, w, s)
    requires Tracks(usage, before, s) && Follows(s, step, s')
    ensures LeakOf(s', id) == LeakCount(usage, before + [step], id)
    ensures id in s'.lost <==> LostIn(usage, before + [step], id)
  {
    BooksMore(usage, before, w, step, id);
    assert LeakOf(s, id) == LeakCount(usage, before, id);
    assert id in s.lost <==> LostIn(usage, before, id);
    if step.CreateStatic? && !Protocol.Generates(s.registry, step.c.containerName) {
      assert OwnerOf(s, step.c.containerName) == LastCreated(usage, before, step.c.containerName);
    }
    FollowsBooks(usage, w, Projection(before), s, step, s', LastAsked(usage, before, step), id);
  }

  lemma TracksOwner(usage: Usage, before: seq<Step>, w: World, s: Protocol.Sys, step: Step, s': Protocol.Sys, n: Name)
    requires Execute(usage, INIT, before) == Some(w)
    requires Protocol.Execute(Projection(before)) == Some(s) && Simulates(usage, w, s)
    requires Tracks(usage, before, s) && Follows(s, step, s')
    requires !Protocol.Generates(s'.registry, n)
    ensures OwnerOf(s', n) == LastCreated(usage, before + [step], n)
  {
    CreatedMore(usage, before, w, step, n);
    Protocol.InvExecute(Projection(before));
    if !Protocol.Generates(s.registry, n) {
      assert OwnerOf(s, n) == LastCreated(usage, before, n);
    }
    FollowsOwner(usage, w, s, step, s', LastCreated(usage, before, n), n);
  }

  ghost predicate Countable(s: Protocol.Sys) {
    forall id :: Protocol.UsersOf(s.tests, s.leak, id) <= 256
  }

  /** A peak rises only to what the users are. */
  lemma PeakStep(s: Protocol.Sys, step: Protocol.Step)
    requires Protocol.Inv(s) && Protocol.Bounded(s) && Protocol.Enabled(s, step)
    requires Countable(Protocol.Next(s, step))
    ensures Protocol.Bounded(Protocol.Next(s, step))
  {
    match step
    case Create(t, c, replies) => PeakCreate(s, t, c, replies);
    case Start(t, p, reply) =>
    case Join(_, _, _) =>
    case Disconnect(_, _) =>
    case Release(_) =>
    case Remove(_, _, _) =>
  }

  lemma PeakCreate(s: Protocol.Sys, t: TestId, c: Composition, replies: Internal.CreateReplies)
    requires t in s.tests && Protocol.Bounded(s)
    requires Countable(Protocol.NextCreate(s, t, c, replies))
    ensures Protocol.Bounded(Protocol.NextCreate(s, t, c, replies))
  {
    var (m, d, r) := Protocol.CreateResult(s, t, c, replies);
    PeakBooked(s.(registry := m, daemon := d), s.registry, t, c.containerName, replies.created, r);
  }

  lemma PeakBooked(s: Protocol.Sys, before: Internal.Registry, t: TestId, n: Name, created: Result<Id, Error>,
                   r: Result<PendingContainer, Error>)
    requires t in s.tests && Protocol.Bounded(s)
    requires Countable(Protocol.Booked(s, before, t, n, created, r))
    ensures Protocol.Bounded(Protocol.Booked(s, before, t, n, created, r))
  {
    var s' := Protocol.Booked(s, before, t, n, created, r);
    forall id | id in s'.peak
      ensures s'.peak[id] <= 256
    {
      assert Protocol.UsersOf(s'.tests, s'.leak, id) <= 256;
    }
  }

  /** The run of the protocol that shows the internal containers, its books, and what crowds mean for it. */
  ghost predicate Accounts(usage: Usage, steps: seq<Step>, w: World, s: Protocol.Sys) {
    && Protocol.Execute(Projection(steps)) == Some(s) && Simulates(usage, w, s) && Tracks(usage, steps, s)
    && (Uncrowded(usage, steps) ==> Protocol.Bounded(s))
  }

  lemma {:induction false} Counted(usage: Usage, steps: seq<Step>, w: World) returns (s: Protocol.Sys)
    requires Execute(usage, INIT, steps) == Some(w)
    ensures Accounts(usage, steps, w, s)
  {
    if steps == [] {
      s := Protocol.INIT;
      NothingYet(usage);
    } else {
      var before, step := steps[..|steps| - 1], steps[|steps| - 1];
      assert steps == before + [step];
      var w1 := LastStep(usage, INIT, steps);
      s := Counted(usage, before, w1);
      s := CountedMore(usage, before, w1, step, s);
    }
  }

  lemma NothingYet(usage: Usage)
    ensures Accounts(usage, [], INIT, Protocol.INIT)
  {
  }

  lemma CountedMore(usage: Usage, before: seq<Step>, w1: World, step: Step, s1: Protocol.Sys) returns (s: Protocol.Sys)
    requires Execute(usage, INIT, before) == Some(w1) && Enabled(usage, w1, step)
    requires Accounts(usage, before, w1, s1)
    ensures Accounts(usage, before + [step], Next(w1, step), s)
  {
    s := SimulatedMore(usage, before, w1, step, s1);
    TracksMore(usage, before, w1, s1, step, s);
    if Uncrowded(usage, before + [step]) {
      UncrowdedBefore(usage, before, step);
      ExecuteMore(usage, before, w1, step);
      CrowdIsUsers(usage, before + [step], Next(w1, step), s);
      PeakMore(Projection(before), s1, step, s);
    }
  }

  lemma UncrowdedBefore(usage: Usage, before: seq<Step>, step: Step)
    requires Uncrowded(usage, before + [step])
    ensures Uncrowded(usage, before)
  {
    assert (before + [step])[..|before|] == before;
  }

  lemma ExecuteMore(usage: Usage, before: seq<Step>, w1: World, step: Step)
    requires Execute(usage, INIT, before) == Some(w1) && Enabled(usage, w1, step)
    ensures Execute(usage, INIT, before + [step]) == Some(Next(w1, step))
  {
    assert (before + [step])[..|before|] == before;
  }

  lemma PeakMore(run: seq<Protocol.Step>, s: Protocol.Sys, step: Step, s': Protocol.Sys)
    requires Protocol.Execute(run) == Some(s) && Protocol.Bounded(s) && Follows(s, step, s') && Countable(s')
    ensures Protocol.Bounded(s')
  {
    Protocol.InvExecute(run);
    if Concerns(step) {
      PeakStep(s, Counterpart(step));
    }
  }

  /** The users of the protocol are the crowd of the process. */
  lemma CrowdIsUsers(usage: Usage, steps: seq<Step>, w: World, s: Protocol.Sys)
    requires Execute(usage, INIT, steps) == Some(w) && Simulates(usage, w, s) && Tracks(usage, steps, s)
    ensures forall id :: Protocol.UsersOf(s.tests, s.leak, id) == Crowd(usage, steps, id)
    ensures Uncrowded(usage, steps) ==> Countable(s)
  {
    forall id
      ensures Protocol.UsersOf(s.tests, s.leak, id) == Crowd(usage, steps, id)
    {
      SameHolders(w, id);
      assert LeakOf(s, id) == LeakCount(usage, steps, id);
    }
  }
}
