/** A test whose containers all run: resolving handles, refreshing addresses, and what is left to clean up. */
module Flight {
  import opened Containers
  import opened Engine
  import opened Launch

  // --- handles ----------------------------------------------------------------------------------------------

  const MULTIPLE_ERROR := TestBody("handle defined multiple times")
  const UNKNOWN_ERROR := TestBody("container with handle not found")

  ghost predicate InRange(keeper: Keeper, kept: seq<Transitional>) {
    forall h :: h in keeper.lookupHandlers ==> keeper.lookupHandlers[h] < |kept|
  }

  function ResolveHandle(keeper: Keeper, kept: seq<Transitional>, h: Handle): Option<OperationalContainer>
    requires InRange(keeper, kept)
  {
    if h !in keeper.lookupHandlers then None
    else
      match kept[keeper.lookupHandlers[h]]
      case Running(r) => Some(r)
      case _ => None
  }

  function TryHandle(keeper: Keeper, kept: seq<Transitional>, h: Handle): Result<OperationalContainer, Error>
    requires InRange(keeper, kept)
  {
    if h in keeper.lookupCollisions then Failure(MULTIPLE_ERROR)
    else
      match ResolveHandle(keeper, kept, h)
      case Some(r) => Success(r)
      case None => Failure(UNKNOWN_ERROR)
  }

  class Orbiting {
    const keeper: Keeper
    var kept: seq<Transitional>

    constructor (keeper: Keeper, kept: seq<Transitional>)
      ensures this.keeper == keeper && this.kept == kept
    {
      this.keeper := keeper;
      this.kept := kept;
    }

    /** Replies at places that hold no running container are not used. */
    method Inspect(replies: seq<Result<Address, Error>>) returns (errors: seq<Error>)
      requires |replies| == |kept|
      modifies this
      ensures |kept| == |old(kept)| && forall i :: 0 <= i < |kept| ==> SeenAs(old(kept)[i], replies[i], kept[i])
      ensures forall i :: 0 <= i < |kept| ==> kept[i].Running? == old(kept)[i].Running?
      ensures forall i :: 0 <= i < |kept| && kept[i].Running? && replies[i].Success? ==>
                kept[i].running.address == replies[i].value && SameContainer(kept[i].running, old(kept)[i].running)
      ensures forall i :: 0 <= i < |kept| && !(kept[i].Running? && replies[i].Success?) ==> kept[i] == old(kept)[i]
      ensures errors == [] <==> forall i :: 0 <= i < |kept| && old(kept)[i].Running? ==> replies[i].Success?
      ensures errors == FailingReplies(old(kept), replies)
    {
      errors := [];
      var i := 0;
      while i < |kept|
        invariant i <= |kept| == |old(kept)|
        invariant forall k :: 0 <= k < |kept| ==>
                    if k < i then SeenAs(old(kept)[k], replies[k], kept[k]) else kept[k] == old(kept)[k]
        invariant errors == FailingReplies(old(kept)[..i], replies[..i])
      {
        assert old(kept)[..i + 1][..i] == old(kept)[..i] && replies[..i + 1][..i] == replies[..i];
        if kept[i].Running? {
          match replies[i] {
            case Success(address) => kept := kept[i := Running(kept[i].running.(address := address))];
            case Failure(e) => errors := errors + [e];
          }
        }
        i := i + 1;
      }
      assert old(kept)[..|old(kept)|] == old(kept) && replies[..|replies|] == replies;
      FailingExactly(old(kept), replies);
    }
  }

  /** What stays of a running container, whatever its address. */
  predicate SameContainer(r: OperationalContainer, r': OperationalContainer) {
    r.name == r'.name && r.id == r'.id && r.handle == r'.handle && r.isStatic == r'.isStatic
  }

  /** Place `t` after it was inspected. */
  predicate SeenAs(t: Transitional, reply: Result<Address, Error>, t': Transitional) {
    if t.Running? && reply.Success? then
      t'.Running? && t'.running.address == reply.value && SameContainer(t'.running, t.running)
    else t' == t
  }

  /** The errors of the running containers that cannot be inspected, in their order. */
  function FailingReplies(kept: seq<Transitional>, replies: seq<Result<Address, Error>>): seq<Error>
    requires |replies| == |kept|
  {
    if kept == [] then []
    else
      var last := |kept| - 1;
      var before := FailingReplies(kept[..last], replies[..last]);
      if kept[last].Running? && replies[last].Failure? then before + [replies[last].error] else before
  }

  predicate LastFailing(kept: seq<Transitional>, replies: seq<Result<Address, Error>>, i: nat)
    requires |replies| == |kept|
  {
    && i < |kept| && kept[i].Running? && replies[i].Failure?
    && forall j :: i < j < |kept| && kept[j].Running? ==> replies[j].Success?
  }

  /** There are none if and only if every running container is inspected. */
  lemma {:induction false} FailingExactly(kept: seq<Transitional>, replies: seq<Result<Address, Error>>)
    requires |replies| == |kept|
    ensures FailingReplies(kept, replies) == []
       <==> forall i :: 0 <= i < |kept| && kept[i].Running? ==> replies[i].Success?
  {
    if kept != [] {
      var last := |kept| - 1;
      FailingExactly(kept[..last], replies[..last]);
      assert forall i :: 0 <= i < last ==> kept[..last][i] == kept[i] && replies[..last][i] == replies[i];
    }
  }

  /** The last one is that of the last running container for which inspecting fails. */
  lemma {:induction false} LastReported(kept: seq<Transitional>, replies: seq<Result<Address, Error>>, i: nat)
    requires |replies| == |kept| && LastFailing(kept, replies, i)
    ensures var errors := FailingReplies(kept, replies);
            errors != [] && errors[|errors| - 1] == replies[i].error
  {
    var last := |kept| - 1;
    if i < last {
      LastReported(kept[..last], replies[..last], i);
    }
  }

  lemma {:induction false} SomeFails(kept: seq<Transitional>, replies: seq<Result<Address, Error>>) returns (i: nat)
    requires |replies| == |kept| && FailingReplies(kept, replies) != []
    ensures LastFailing(kept, replies, i)
  {
    var last := |kept| - 1;
    if kept[last].Running? && replies[last].Failure? {
      i := last;
    } else {
      i := SomeFails(kept[..last], replies[..last]);
    }
  }

  // --- what starting relies on ------------------------------------------------------------------------------

  /** The container a place was created for. */
  function IdAt(t: Transitional): Id
    requires t.Pending? || t.FoundExternal?
  {
    if t.Pending? then t.pending.id else t.external.id
  }

  function HandleAt(t: Transitional): Handle
    requires t.Pending? || t.FoundExternal?
  {
    if t.Pending? then t.pending.handle else t.external.handle
  }

  /** All creations succeeded, and each returned a container under the handle it was asked for. */
  ghost predicate CreatedFor(hs: seq<Handle>, kept: seq<Transitional>) {
    && |kept| == |hs|
    && forall i :: 0 <= i < |kept| ==> (kept[i].Pending? || kept[i].FoundExternal?) && HandleAt(kept[i]) == hs[i]
  }

  /** A start keeps the identity of the container it starts. */
  ghost predicate Faithful(kept: seq<Transitional>, results: seq<StartResult>) {
    && |results| == |kept|
    && forall i :: 0 <= i < |kept| && kept[i].Pending? && results[i].Success? ==>
         results[i].value == OperationalOf(kept[i].pending)
  }

  /** Containers with the same id are the same container. */
  ghost predicate Distinct(kept: seq<Transitional>) {
    forall i, j :: 0 <= i < |kept| && 0 <= j < |kept|
                   && (kept[i].Pending? || kept[i].FoundExternal?) && (kept[j].Pending? || kept[j].FoundExternal?)
                   && IdAt(kept[i]) == IdAt(kept[j]) ==>
      && HandleAt(kept[i]) == HandleAt(kept[j])
      && (kept[i].Pending? && kept[j].Pending? ==> kept[i].pending.isStatic == kept[j].pending.isStatic)
  }

  /** What the registries list: every container this test found, one container per handle, and none that
      belongs to a single test. */
  ghost predicate Lists(kept: seq<Transitional>, externals: seq<OperationalContainer>) {
    && (forall x :: x in externals ==> x.isStatic && x.name == x.handle)
    && (forall i :: 0 <= i < |kept| && kept[i].FoundExternal? ==>
          exists k :: 0 <= k < |externals| && externals[k].handle == kept[i].external.handle)
    && (forall i, x | 0 <= i < |kept| && kept[i].FoundExternal? && x in externals ::
          x.handle == kept[i].external.handle ==> x.id == kept[i].external.id)
    && (forall i, x | 0 <= i < |kept| && kept[i].Pending? && x in externals :: x.id != kept[i].pending.id)
  }

  ghost predicate AllStarted(kept: seq<Transitional>, results: seq<StartResult>) {
    && |results| == |kept|
    && AllSucceed(Starts(kept, results, Strict)) && AllSucceed(Starts(kept, results, Relaxed))
  }

  // --- handle resolution, end to end ------------------------------------------------------------------------

  /** The container under a handle that is provided once. */
  lemma UniqueSlotFilled(hs: seq<Handle>, kept: seq<Transitional>, results: seq<StartResult>,
                         externals: seq<OperationalContainer>, i: nat)
    requires CreatedFor(hs, kept) && Faithful(kept, results) && Distinct(kept) && Lists(kept, externals)
    requires AllStarted(kept, results) && i < |hs| && Provided(hs, hs[i]) == 1
    ensures var kept' := Placed(kept, Started(kept, results) + externals);
            && kept'[i].Running? && kept'[i].running.id == IdAt(kept[i]) && Delivered(kept[i], kept'[i].running)
  {
    var started := Started(kept, results);
    var all := started + externals;
    StartedExactly(kept, results);
    ProvidedOnce(hs, hs[i], i);
    var k := ContainerFor(hs, kept, results, externals, i);
    forall j | 0 <= j < |kept| && j != i
      ensures !kept[j].Awaits(all[k])
    {
      assert HandleAt(kept[j]) != hs[i];
    }
    SlotFilled(kept, all, i, k);
    var m :| 0 <= m < |all| && kept[i].Awaits(all[m]) && Placed(kept, all)[i] == Running(all[m]);
    assert all[m] in started || all[m] in externals;
    if kept[i].FoundExternal? {
      NotStartedUnder(hs, kept, results, i);
      assert all[m] in externals;
    } else {
      OnlyStartedHere(hs, kept, results, i, all[m]);
    }
  }

  /** `r` is the container that was created or found for the place `t`. */
  predicate Delivered(t: Transitional, r: OperationalContainer) {
    match t
    case Pending(p) => r.name == p.name && r.id == p.id && r.handle == p.handle && r.isStatic == p.isStatic
    case FoundExternal(e) => r.id == e.id && r.handle == r.name == e.handle && r.isStatic
    case _ => false
  }

  lemma OnlyStartedHere(hs: seq<Handle>, kept: seq<Transitional>, results: seq<StartResult>, i: nat,
                        r: OperationalContainer)
    requires CreatedFor(hs, kept) && Faithful(kept, results) && Distinct(kept) && AllStarted(kept, results)
    requires i < |hs| && kept[i].Pending? && Provided(hs, hs[i]) == 1
    requires r in Started(kept, results) && r.id == kept[i].pending.id
    ensures r == OperationalOf(kept[i].pending)
  {
    StartedExactly(kept, results);
    ProvidedOnce(hs, hs[i], i);
    var j :| 0 <= j < |kept| && kept[j].Pending? && results[j] == Success(r);
    assert IdAt(kept[j]) == IdAt(kept[i]);
    assert HandleAt(kept[j]) == hs[j];
  }

  lemma ContainerFor(hs: seq<Handle>, kept: seq<Transitional>, results: seq<StartResult>,
                     externals: seq<OperationalContainer>, i: nat) returns (k: nat)
    requires CreatedFor(hs, kept) && Faithful(kept, results) && Lists(kept, externals)
    requires AllStarted(kept, results) && i < |hs|
    ensures k < |Started(kept, results) + externals|
    ensures var r := (Started(kept, results) + externals)[k];
            kept[i].Awaits(r) && r.id == IdAt(kept[i]) && r.handle == hs[i]
  {
    var started := Started(kept, results);
    StartedExactly(kept, results);
    if kept[i].Pending? {
      k :| 0 <= k < |started| && started[k] == results[i].value;
    } else {
      var x :| 0 <= x < |externals| && externals[x].handle == kept[i].external.handle;
      k := |started| + x;
      assert externals[x] in externals;
    }
  }

  /** No container this test started goes by the handle of one it found. */
  lemma NotStartedUnder(hs: seq<Handle>, kept: seq<Transitional>, results: seq<StartResult>, i: nat)
    requires CreatedFor(hs, kept) && Faithful(kept, results) && AllStarted(kept, results)
    requires i < |hs| && kept[i].FoundExternal? && Provided(hs, hs[i]) == 1
    ensures forall r :: r in Started(kept, results) ==> r.handle != hs[i]
  {
    ProvidedOnce(hs, hs[i], i);
    forall j | 0 <= j < |kept| && kept[j].Pending?
      ensures kept[j].pending.handle != hs[i]
    {
      assert HandleAt(kept[j]) == hs[j];
    }
    NoneStartedUnder(kept, results, hs[i]);
  }

  lemma NoneStartedUnder(kept: seq<Transitional>, results: seq<StartResult>, h: Handle)
    requires Faithful(kept, results) && AllStarted(kept, results)
    requires forall j :: 0 <= j < |kept| && kept[j].Pending? ==> kept[j].pending.handle != h
    ensures forall r :: r in Started(kept, results) ==> r.handle != h
  {
    StartedExactly(kept, results);
    forall r | r in Started(kept, results)
      ensures r.handle != h
    {
      var j :| 0 <= j < |kept| && kept[j].Pending? && results[j] == Success(r);
    }
  }

  /** A handle provided exactly once resolves to the container created for its composition, whatever order
      started and listed containers come in and whatever other handles collide; any other handle is an error. */
  lemma HandlesResolve(hs: seq<Handle>, keeper: Keeper, kept: seq<Transitional>, results: seq<StartResult>,
                       externals: seq<OperationalContainer>, h: Handle)
    requires KeeperFor(keeper, hs) && CreatedFor(hs, kept)
    requires Faithful(kept, results) && Distinct(kept) && Lists(kept, externals) && AllStarted(kept, results)
    ensures var kept' := Placed(kept, Started(kept, results) + externals);
            && InRange(keeper, kept')
            && var r := TryHandle(keeper, kept', h);
               match Provided(hs, h)
               case 0 => r == Failure(UNKNOWN_ERROR)
               case 1 => r.Success? && exists i :: 0 <= i < |hs| && hs[i] == h && r.value.id == IdAt(kept[i])
                                                   && kept'[i] == Running(r.value) && Delivered(kept[i], r.value)
               case _ => r == Failure(MULTIPLE_ERROR)
  {
    if Provided(hs, h) == 1 {
      var i := keeper.lookupHandlers[h];
      UniqueSlotFilled(hs, kept, results, externals, i);
      assert hs[i] == h;
    }
  }

  /** Refreshing addresses does not change which container a handle stands for. */
  lemma InspectKeepsHandles(keeper: Keeper, kept: seq<Transitional>, kept': seq<Transitional>,
                            replies: seq<Result<Address, Error>>, h: Handle)
    requires |kept| == |kept'| == |replies| && InRange(keeper, kept)
    requires forall i :: 0 <= i < |kept| ==> SeenAs(kept[i], replies[i], kept'[i])
    ensures InRange(keeper, kept')
    ensures TryHandle(keeper, kept, h).Failure? ==> TryHandle(keeper, kept', h) == TryHandle(keeper, kept, h)
    ensures TryHandle(keeper, kept, h).Success? ==>
              TryHandle(keeper, kept', h).Success?
              && SameContainer(TryHandle(keeper, kept', h).value, TryHandle(keeper, kept, h).value)
  {
    if h in keeper.lookupHandlers {
      var i := keeper.lookupHandlers[h];
      assert SeenAs(kept[i], replies[i], kept'[i]);
    }
  }

  // --- what is left to clean up -----------------------------------------------------------------------------

  datatype Cleanup = Cleanup(id: Id, isStatic: bool)

  /** The containers that teardown stops or removes itself. */
  function OwnOf(kept: seq<Cleanup>): set<Id> {
    set c | c in kept && !c.isStatic :: c.id
  }

  datatype Debris = Debris(kept: seq<Cleanup>, external: seq<StaticExternal>)
  {
    function OwnIds(): set<Id> {
      OwnOf(kept)
    }

    /** The ids that are handed to the registries of static containers. */
    function SharedIds(): set<Id> {
      (set c | c in kept && c.isStatic :: c.id) + (set e | e in external :: e.id)
    }
  }

  /** Decommissioning a test whose containers were created but did not all start. */
  function DebrisOfIgniting(kept: seq<Transitional>): Debris {
    if kept == [] then Debris([], [])
    else
      var rest := DebrisOfIgniting(kept[1..]);
      match kept[0]
      case Running(r) => rest.(kept := [Cleanup(r.id, r.isStatic)] + rest.kept)
      case Pending(p) => rest.(kept := [Cleanup(p.id, p.isStatic)] + rest.kept)
      case FoundExternal(e) => rest.(external := [e] + rest.external)
      case Sentinel => rest
      case CreationFailure(_) => rest
  }

  /** Decommissioning a test whose containers all started. */
  function DebrisOfOrbiting(kept: seq<Transitional>): Debris {
    if kept == [] then Debris([], [])
    else
      var rest := DebrisOfOrbiting(kept[1..]);
      match kept[0]
      case Running(r) => rest.(kept := [Cleanup(r.id, r.isStatic)] + rest.kept)
      case FoundExternal(e) => rest.(external := [e] + rest.external)
      case _ => rest
  }

  ghost function OwnIds(kept: seq<Transitional>): set<Id> {
    set i | 0 <= i < |kept| && kept[i].Pending? && !kept[i].pending.isStatic :: kept[i].pending.id
  }

  ghost function SharedIds(kept: seq<Transitional>): set<Id> {
    set i | 0 <= i < |kept| && kept[i].Pending? && kept[i].pending.isStatic :: kept[i].pending.id
  }

  ghost function FoundIds(kept: seq<Transitional>): set<Id> {
    set i | 0 <= i < |kept| && kept[i].FoundExternal? :: kept[i].external.id
  }

  lemma {:induction false} IgnitingDebrisMembers(kept: seq<Transitional>)
    requires forall i :: 0 <= i < |kept| ==> !kept[i].Running?
    ensures forall c :: c in DebrisOfIgniting(kept).kept <==>
              exists i :: 0 <= i < |kept| && kept[i].Pending?
                          && c == Cleanup(kept[i].pending.id, kept[i].pending.isStatic)
    ensures forall e :: e in DebrisOfIgniting(kept).external <==>
              exists i :: 0 <= i < |kept| && kept[i] == FoundExternal(e)
  {
    if kept != [] {
      var rest := kept[1..];
      IgnitingDebrisMembers(rest);
      assert forall i :: 0 <= i < |rest| ==> rest[i] == kept[i + 1];
      assert forall i :: 0 < i < |kept| ==> kept[i] == rest[i - 1];
    }
  }

  lemma {:induction false} OrbitingDebrisMembers(kept: seq<Transitional>)
    ensures forall c :: c in DebrisOfOrbiting(kept).kept <==>
              exists i :: 0 <= i < |kept| && kept[i].Running?
                          && c == Cleanup(kept[i].running.id, kept[i].running.isStatic)
    ensures forall e :: e in DebrisOfOrbiting(kept).external <==>
              exists i :: 0 <= i < |kept| && kept[i] == FoundExternal(e)
  {
    if kept != [] {
      var rest := kept[1..];
      OrbitingDebrisMembers(rest);
      assert forall i :: 0 <= i < |rest| ==> rest[i] == kept[i + 1];
      assert forall i :: 0 < i < |kept| ==> kept[i] == rest[i - 1];
    }
  }

  /** After a failed creation or start, teardown gets exactly what was created. */
  lemma IgnitingDebrisComplete(kept: seq<Transitional>)
    requires forall i :: 0 <= i < |kept| ==> !kept[i].Running?
    ensures DebrisOfIgniting(kept).OwnIds() == OwnIds(kept)
    ensures DebrisOfIgniting(kept).SharedIds() == SharedIds(kept) + FoundIds(kept)
  {
    IgnitingDebrisMembers(kept);
    var d := DebrisOfIgniting(kept);
    forall i | 0 <= i < |kept| && kept[i].Pending?
      ensures Cleanup(kept[i].pending.id, kept[i].pending.isStatic) in d.kept
    {
    }
    forall i | 0 <= i < |kept| && kept[i].FoundExternal?
      ensures kept[i].external in d.external
    {
    }
  }

  /** Refreshing addresses does not change what is left to clean up. */
  lemma {:induction false} InspectKeepsDebris(kept: seq<Transitional>, kept': seq<Transitional>,
                                              replies: seq<Result<Address, Error>>)
    requires |kept| == |kept'| == |replies|
    requires forall i :: 0 <= i < |kept| ==> SeenAs(kept[i], replies[i], kept'[i])
    ensures DebrisOfOrbiting(kept') == DebrisOfOrbiting(kept)
  {
    if kept != [] {
      InspectKeepsDebris(kept[1..], kept'[1..], replies[1..]);
      assert SeenAs(kept[0], replies[0], kept'[0]);
    }
  }

  /** After a successful start, even if handles collided, teardown gets exactly the containers created for
      this test, and the registries get every shared container it holds and none that it does not. */
  lemma OrbitingDebrisComplete(kept: seq<Transitional>, results: seq<StartResult>, externals: seq<OperationalContainer>)
    requires forall i :: 0 <= i < |kept| ==> kept[i].Pending? || kept[i].FoundExternal?
    requires Faithful(kept, results) && Distinct(kept) && Lists(kept, externals) && AllStarted(kept, results)
    ensures var d := DebrisOfOrbiting(Placed(kept, Started(kept, results) + externals));
            && d.OwnIds() == OwnIds(kept)
            && SharedIds(kept) <= d.SharedIds() <= SharedIds(kept) + FoundIds(kept)
  {
    var all := Started(kept, results) + externals;
    var kept' := Placed(kept, all);
    var d := DebrisOfOrbiting(kept');
    OrbitingDebrisMembers(kept');
    forall i | 0 <= i < |kept| && kept[i].Pending?
      ensures Cleanup(kept[i].pending.id, kept[i].pending.isStatic) in d.kept
    {
      PendingIsCleanedUp(kept, results, externals, i);
    }
    forall c | c in d.kept
      ensures if c.isStatic then c.id in SharedIds(kept) + FoundIds(kept) else c.id in OwnIds(kept)
    {
      var i :| 0 <= i < |kept'| && kept'[i].Running? && c == Cleanup(kept'[i].running.id, kept'[i].running.isStatic);
      RunningWasCreated(kept, results, externals, i);
    }
    forall e | e in d.external
      ensures e.id in FoundIds(kept)
    {
      var i :| 0 <= i < |kept'| && kept'[i] == FoundExternal(e);
      PlacedEvolves(kept, all, i);
    }
  }

  lemma RunningWasCreated(kept: seq<Transitional>, results: seq<StartResult>, externals: seq<OperationalContainer>,
                          i: nat)
    requires forall i :: 0 <= i < |kept| ==> kept[i].Pending? || kept[i].FoundExternal?
    requires Faithful(kept, results) && Distinct(kept) && Lists(kept, externals) && AllStarted(kept, results)
    requires i < |kept| && Placed(kept, Started(kept, results) + externals)[i].Running?
    ensures var r := Placed(kept, Started(kept, results) + externals)[i].running;
            if r.isStatic then r.id in SharedIds(kept) + FoundIds(kept) else r.id in OwnIds(kept)
  {
    var all := Started(kept, results) + externals;
    PlacedEvolves(kept, all, i);
    StartedExactly(kept, results);
    var k :| 0 <= k < |all| && kept[i].Awaits(all[k]) && Placed(kept, all)[i] == Running(all[k]);
    if k < |Started(kept, results)| {
      assert all[k] in Started(kept, results);
    } else {
      assert all[k] in externals;
    }
  }

  lemma PendingIsCleanedUp(kept: seq<Transitional>, results: seq<StartResult>, externals: seq<OperationalContainer>,
                           i: nat)
    requires forall i :: 0 <= i < |kept| ==> kept[i].Pending? || kept[i].FoundExternal?
    requires Faithful(kept, results) && Distinct(kept) && Lists(kept, externals) && AllStarted(kept, results)
    requires i < |kept| && kept[i].Pending?
    ensures Cleanup(kept[i].pending.id, kept[i].pending.isStatic)
         in DebrisOfOrbiting(Placed(kept, Started(kept, results) + externals)).kept
  {
    var all := Started(kept, results) + externals;
    var kept' := Placed(kept, all);
    var p := kept[i].pending;
    StartedExactly(kept, results);
    assert results[i].value in all && results[i].value.id == p.id;
    Conservation(kept, all, p.id);
    var j :| 0 <= j < |kept'| && kept'[j].Running? && kept'[j].running.id == p.id;
    RunningIsAlike(kept, results, externals, i, j);
    OrbitingDebrisMembers(kept');
  }

  lemma RunningIsAlike(kept: seq<Transitional>, results: seq<StartResult>, externals: seq<OperationalContainer>,
                       i: nat, j: nat)
    requires forall i :: 0 <= i < |kept| ==> kept[i].Pending? || kept[i].FoundExternal?
    requires Faithful(kept, results) && Distinct(kept) && Lists(kept, externals) && AllStarted(kept, results)
    requires i < |kept| && kept[i].Pending? && j < |kept|
    requires var kept' := Placed(kept, Started(kept, results) + externals);
             kept'[j].Running? && kept'[j].running.id == kept[i].pending.id
    ensures Placed(kept, Started(kept, results) + externals)[j].running.isStatic == kept[i].pending.isStatic
  {
    var all := Started(kept, results) + externals;
    PlacedEvolves(kept, all, j);
    StartedExactly(kept, results);
    var k :| 0 <= k < |all| && kept[j].Awaits(all[k]) && Placed(kept, all)[j] == Running(all[k]);
    var r := all[k];
    assert r in Started(kept, results) || r in externals;
    var m :| 0 <= m < |kept| && kept[m].Pending? && results[m] == Success(r);
    assert IdAt(kept[m]) == IdAt(kept[i]);
  }

  // --- found and created containers under one handle ------------------------------------------------------

  /** A container is created under handle `h` for place `j`. */
  predicate Shares(kept: seq<Transitional>, h: Handle, j: nat)
    requires j < |kept|
  {
    kept[j].Pending? && kept[j].pending.handle == h
  }

  /** The places of the containers found under handle `h`, in order. */
  function FoundUnder(kept: seq<Transitional>, h: Handle): (found: seq<nat>)
    ensures forall a :: 0 <= a < |found| ==>
              found[a] < |kept| && kept[found[a]].FoundExternal? && kept[found[a]].external.handle == h
    ensures forall a, b :: 0 <= a < b < |found| ==> found[a] < found[b]
    ensures forall i :: 0 <= i < |kept| && kept[i].FoundExternal? && kept[i].external.handle == h ==> i in found
  {
    if kept == [] then []
    else
      var last := |kept| - 1;
      var before := FoundUnder(kept[..last], h);
      if kept[last].FoundExternal? && kept[last].external.handle == h then before + [last] else before
  }

  /** The containers created under handle `h` are other ones than those found, each its own. */
  ghost predicate OwnApart(kept: seq<Transitional>, h: Handle) {
    && (forall i, j | 0 <= i < |kept| && kept[i].FoundExternal? && kept[i].external.handle == h && 0 <= j < |kept| ::
          Shares(kept, h, j) ==> kept[j].pending.id != kept[i].external.id)
    && (forall j, k :: 0 <= j < k < |kept| && Shares(kept, h, j) && Shares(kept, h, k) ==>
          kept[j].pending.id != kept[k].pending.id)
  }

  /** How many of the containers found under a handle lose their place when those created for `places` start in this
      order: each takes the first place left of a found container, unless its own place comes before. */
  function Overwritten(kept: seq<Transitional>, h: Handle, places: seq<nat>): (d: nat)
    requires forall a :: 0 <= a < |places| ==> places[a] < |kept|
    ensures d <= |FoundUnder(kept, h)|
  {
    if places == [] then 0
    else AfterTurn(kept, h, places[|places| - 1], Overwritten(kept, h, places[..|places| - 1]))
  }

  function AfterTurn(kept: seq<Transitional>, h: Handle, j: nat, d: nat): (d': nat)
    requires j < |kept| && d <= |FoundUnder(kept, h)|
    ensures d' <= |FoundUnder(kept, h)|
  {
    if Shares(kept, h, j) && d < |FoundUnder(kept, h)| && FoundUnder(kept, h)[d] < j then d + 1 else d
  }

  predicate StandsFor(t: Transitional, id: Id) {
    match t
    case FoundExternal(e) => e.id == id
    case Running(r) => r.id == id
    case _ => false
  }

  /** `started` are the pending containers, from distinct `places`. */
  ghost predicate ByPlace(kept: seq<Transitional>, started: seq<OperationalContainer>, places: seq<nat>) {
    && |started| == |places|
    && (forall a :: 0 <= a < |places| ==>
          places[a] < |kept| && kept[places[a]].Pending? && started[a] == OperationalOf(kept[places[a]].pending))
    && (forall a, b :: 0 <= a < b < |places| ==> places[a] != places[b])
    && (forall i :: 0 <= i < |kept| && kept[i].Pending? ==> i in places)
  }

  lemma FaithfulByPlace(kept: seq<Transitional>, results: seq<StartResult>)
    requires Faithful(kept, results) && AllStarted(kept, results)
    ensures ByPlace(kept, Started(kept, results), StartedPlaces(kept))
  {
    StartedByPlace(kept, results);
  }

  lemma ItsOwnId(kept: seq<Transitional>, h: Handle, j: nat, k: nat)
    requires Distinct(kept) && OwnApart(kept, h)
    requires j < |kept| && Shares(kept, h, j) && k < |kept| && kept[k].Pending? && k != j
    ensures kept[k].pending.id != kept[j].pending.id
  {
    assert IdAt(kept[k]) == IdAt(kept[j]) ==> Shares(kept, h, k);
  }

  /** A pending place is filled by its own container only, so it is free until that one comes. */
  lemma StillPending(kept: seq<Transitional>, started: seq<OperationalContainer>, places: seq<nat>, h: Handle, n: nat)
    requires ByPlace(kept, started, places) && Distinct(kept) && OwnApart(kept, h)
    requires n < |started| && Shares(kept, h, places[n])
    ensures Placed(kept, started[..n])[places[n]] == kept[places[n]]
  {
    var j := places[n];
    PlacedEvolves(kept, started[..n], j);
    forall k | 0 <= k < n
      ensures !kept[j].Awaits(started[..n][k])
    {
      ItsOwnId(kept, h, j, places[k]);
    }
  }

  /** The first `d` places of containers found under the handle are taken, and the others as they were. */
  ghost predicate Taken(kept: seq<Transitional>, h: Handle, now: seq<Transitional>, d: nat) {
    var found := FoundUnder(kept, h);
    && |now| == |kept| && d <= |found|
    && forall a :: 0 <= a < |found| ==> if a < d then now[found[a]].Running? else now[found[a]] == kept[found[a]]
  }

  lemma {:induction false} TakenInTurn(kept: seq<Transitional>, started: seq<OperationalContainer>, places: seq<nat>,
                                       h: Handle, n: nat)
    requires ByPlace(kept, started, places) && Distinct(kept) && OwnApart(kept, h) && n <= |started|
    ensures Taken(kept, h, Placed(kept, started[..n]), Overwritten(kept, h, places[..n]))
  {
    if n > 0 {
      assert places[..n][..n - 1] == places[..n - 1];
      TakenInTurn(kept, started, places, h, n - 1);
      OneMoreTurn(kept, started, places, h, n - 1, Overwritten(kept, h, places[..n - 1]));
    }
  }

  lemma OneMoreTurn(kept: seq<Transitional>, started: seq<OperationalContainer>, places: seq<nat>, h: Handle, n: nat,
                    d: nat)
    requires ByPlace(kept, started, places) && Distinct(kept) && OwnApart(kept, h)
    requires n < |started| && Taken(kept, h, Placed(kept, started[..n]), d)
    ensures Taken(kept, h, Placed(kept, started[..n + 1]), AfterTurn(kept, h, places[n], d))
  {
    var before, j := Placed(kept, started[..n]), places[n];
    assert started[..n + 1][..n] == started[..n];
    if !Shares(kept, h, j) {
      OthersTakeNone(kept, h, before, d, started[n]);
    } else {
      StillPending(kept, started, places, h, n);
      if d < |FoundUnder(kept, h)| && FoundUnder(kept, h)[d] < j {
        TakesFirst(kept, started, places, h, n, d);
      } else {
        TakesOwn(kept, h, before, d, started[n], j);
      }
    }
  }

  lemma OthersTakeNone(kept: seq<Transitional>, h: Handle, before: seq<Transitional>, d: nat, r: OperationalContainer)
    requires Taken(kept, h, before, d) && r.handle != h
    ensures Taken(kept, h, PlaceOne(before, r), d)
  {
    var found := FoundUnder(kept, h);
    forall a | 0 <= a < |found|
      ensures PlaceOne(before, r)[found[a]] == before[found[a]]
    {
      PlaceEvolves(before, r, found[a]);
    }
  }

  /** A container created at an earlier place takes that place. */
  lemma TakesOwn(kept: seq<Transitional>, h: Handle, before: seq<Transitional>, d: nat, r: OperationalContainer, j: nat)
    requires Taken(kept, h, before, d) && j < |before| && before[j].Awaits(r)
    requires d < |FoundUnder(kept, h)| ==> j < FoundUnder(kept, h)[d]
    ensures Taken(kept, h, PlaceOne(before, r), d)
  {
    var first := FirstAwaiting(before, r, j);
    PlaceOneAt(before, r, first);
  }

  /** A container created at a later place takes the first place left of a found one. */
  lemma TakesFirst(kept: seq<Transitional>, started: seq<OperationalContainer>, places: seq<nat>, h: Handle, n: nat,
                   d: nat)
    requires ByPlace(kept, started, places) && Distinct(kept) && OwnApart(kept, h)
    requires n < |started| && Shares(kept, h, places[n]) && Taken(kept, h, Placed(kept, started[..n]), d)
    requires d < |FoundUnder(kept, h)| && FoundUnder(kept, h)[d] < places[n]
    ensures Taken(kept, h, PlaceOne(Placed(kept, started[..n]), started[n]), d + 1)
  {
    var found, before, r := FoundUnder(kept, h), Placed(kept, started[..n]), started[n];
    forall k | 0 <= k < found[d]
      ensures !before[k].Awaits(r)
    {
      PlacedEvolves(kept, started[..n], k);
      NobodyBefore(kept, h, before, d, places[n], k);
    }
    PlaceOneAt(before, r, found[d]);
    FirstIsTaken(kept, h, before, d, r);
  }

  lemma FirstIsTaken(kept: seq<Transitional>, h: Handle, before: seq<Transitional>, d: nat, r: OperationalContainer)
    requires Taken(kept, h, before, d) && d < |FoundUnder(kept, h)|
    ensures Taken(kept, h, before[FoundUnder(kept, h)[d] := Running(r)], d + 1)
  {
  }

  lemma NobodyBefore(kept: seq<Transitional>, h: Handle, before: seq<Transitional>, d: nat, j: nat, k: nat)
    requires Distinct(kept) && OwnApart(kept, h) && Taken(kept, h, before, d) && d < |FoundUnder(kept, h)|
    requires j < |kept| && Shares(kept, h, j) && k < FoundUnder(kept, h)[d] < j
    requires before[k] == kept[k] || before[k].Running?
    ensures !before[k].Awaits(OperationalOf(kept[j].pending))
  {
    if kept[k].Pending? {
      ItsOwnId(kept, h, j, k);
    } else if kept[k].FoundExternal? && kept[k].external.handle == h {
      var a :| 0 <= a < |FoundUnder(kept, h)| && FoundUnder(kept, h)[a] == k;
      assert a < d;
    }
  }

  /** Of the containers found under a handle, those in the first places are dropped, as many as are overwritten, and
      the places of the others stand for them at the end. */
  lemma FoundStandsExactly(kept: seq<Transitional>, results: seq<StartResult>, externals: seq<OperationalContainer>,
                           h: Handle, a: nat)
    requires Faithful(kept, results) && Distinct(kept) && Lists(kept, externals) && AllStarted(kept, results)
    requires OwnApart(kept, h) && a < |FoundUnder(kept, h)|
    ensures var i := FoundUnder(kept, h)[a];
            StandsFor(Placed(kept, Started(kept, results) + externals)[i], kept[i].external.id)
            <==> Overwritten(kept, h, StartedPlaces(kept)) <= a
  {
    var started, places, i := Started(kept, results), StartedPlaces(kept), FoundUnder(kept, h)[a];
    var flying := Placed(kept, started);
    FaithfulByPlace(kept, results);
    PlacedInTurn(kept, started, externals);
    TakenInTurn(kept, started, places, h, |started|);
    assert started[..|started|] == started && places[..|places|] == places;
    if a < Overwritten(kept, h, places) {
      FilledStays(flying, externals, i);
      TakenByOther(kept, started, places, h, i);
    } else {
      PlacedEvolves(flying, externals, i);
    }
  }

  lemma TakenByOther(kept: seq<Transitional>, started: seq<OperationalContainer>, places: seq<nat>, h: Handle, i: nat)
    requires ByPlace(kept, started, places) && OwnApart(kept, h)
    requires i < |kept| && kept[i].FoundExternal? && kept[i].external.handle == h && Placed(kept, started)[i].Running?
    ensures Placed(kept, started)[i].running.id != kept[i].external.id
  {
    PlacedEvolves(kept, started, i);
    var k :| 0 <= k < |started| && kept[i].Awaits(started[k]) && Placed(kept, started)[i] == Running(started[k]);
    assert Shares(kept, h, places[k]);
  }

  /** Not all places of the containers found under the handle of the one at place `i` are overwritten. */
  predicate Survives(kept: seq<Transitional>, i: nat)
    requires i < |kept| && kept[i].FoundExternal?
  {
    var h := kept[i].external.handle;
    Overwritten(kept, h, StartedPlaces(kept)) < |FoundUnder(kept, h)|
  }

  /** The container found under a handle is handed to the registries when the test is torn down exactly if not all of
      its places are overwritten. */
  lemma FoundIsHandedOver(kept: seq<Transitional>, results: seq<StartResult>, externals: seq<OperationalContainer>,
                          i: nat)
    requires forall k :: 0 <= k < |kept| ==> kept[k].Pending? || kept[k].FoundExternal?
    requires Faithful(kept, results) && Distinct(kept) && Lists(kept, externals) && AllStarted(kept, results)
    requires i < |kept| && kept[i].FoundExternal? && OwnApart(kept, kept[i].external.handle)
    ensures kept[i].external.id in DebrisOfOrbiting(Placed(kept, Started(kept, results) + externals)).SharedIds()
       <==> Survives(kept, i)
  {
    if Survives(kept, i) {
      LastStands(kept, results, externals, i);
    } else {
      var kept' := Placed(kept, Started(kept, results) + externals);
      forall k | 0 <= k < |kept'|
        ensures !StandsFor(kept'[k], kept[i].external.id)
      {
        NowhereElse(kept, results, externals, i, k);
      }
      NotInDebris(kept', kept[i].external.id);
    }
  }

  lemma NotInDebris(kept: seq<Transitional>, id: Id)
    requires forall k :: 0 <= k < |kept| ==> !StandsFor(kept[k], id)
    ensures id !in DebrisOfOrbiting(kept).SharedIds()
  {
    OrbitingDebrisMembers(kept);
  }

  lemma SameFound(kept: seq<Transitional>, externals: seq<OperationalContainer>, i: nat, k: nat)
    requires Lists(kept, externals) && i < |kept| && kept[i].FoundExternal? && k < |kept| && kept[k].FoundExternal?
    requires kept[i].external.handle == kept[k].external.handle
    ensures kept[k].external.id == kept[i].external.id
  {
    var x :| 0 <= x < |externals| && externals[x].handle == kept[i].external.handle;
    assert externals[x] in externals;
  }

  lemma LastStands(kept: seq<Transitional>, results: seq<StartResult>, externals: seq<OperationalContainer>, i: nat)
    requires Faithful(kept, results) && Distinct(kept) && Lists(kept, externals) && AllStarted(kept, results)
    requires i < |kept| && kept[i].FoundExternal? && OwnApart(kept, kept[i].external.handle)
    requires Survives(kept, i)
    ensures kept[i].external.id in DebrisOfOrbiting(Placed(kept, Started(kept, results) + externals)).SharedIds()
  {
    var all, e := Started(kept, results) + externals, kept[i].external;
    var d := DebrisOfOrbiting(Placed(kept, all));
    var last := |FoundUnder(kept, e.handle)| - 1;
    var k := FoundUnder(kept, e.handle)[last];
    FoundStandsExactly(kept, results, externals, e.handle, last);
    SameFound(kept, externals, i, k);
    StandingIsStatic(kept, results, externals, k);
    OrbitingDebrisMembers(Placed(kept, all));
    assert kept[k].external in d.external || Cleanup(e.id, true) in d.kept;
  }

  lemma StandingIsStatic(kept: seq<Transitional>, results: seq<StartResult>, externals: seq<OperationalContainer>,
                         i: nat)
    requires Faithful(kept, results) && Distinct(kept) && Lists(kept, externals) && AllStarted(kept, results)
    requires i < |kept| && kept[i].FoundExternal? && OwnApart(kept, kept[i].external.handle)
    requires StandsFor(Placed(kept, Started(kept, results) + externals)[i], kept[i].external.id)
    ensures var place := Placed(kept, Started(kept, results) + externals)[i];
            place == kept[i] || (place.Running? && place.running.isStatic)
  {
    var all := Started(kept, results) + externals;
    PlacedEvolves(kept, all, i);
    if Placed(kept, all)[i] != kept[i] {
      var k :| 0 <= k < |all| && kept[i].Awaits(all[k]) && Placed(kept, all)[i] == Running(all[k]);
      NoneStartedAs(kept, results, i);
      assert all[k] in Started(kept, results) || all[k] in externals;
    }
  }

  /** No container the test created is the one found at place `i`. */
  lemma NoneStartedAs(kept: seq<Transitional>, results: seq<StartResult>, i: nat)
    requires Faithful(kept, results) && Distinct(kept) && AllStarted(kept, results)
    requires i < |kept| && kept[i].FoundExternal? && OwnApart(kept, kept[i].external.handle)
    ensures forall r :: r in Started(kept, results) ==> r.id != kept[i].external.id
  {
    StartedExactly(kept, results);
    forall r | r in Started(kept, results)
      ensures r.id != kept[i].external.id
    {
      var j :| 0 <= j < |kept| && kept[j].Pending? && results[j] == Success(r);
      NotItsId(kept, i, j);
    }
  }

  lemma NotItsId(kept: seq<Transitional>, i: nat, j: nat)
    requires Distinct(kept) && i < |kept| && kept[i].FoundExternal? && OwnApart(kept, kept[i].external.handle)
    requires j < |kept| && kept[j].Pending?
    ensures kept[j].pending.id != kept[i].external.id
  {
    assert IdAt(kept[j]) == IdAt(kept[i]) ==> Shares(kept, kept[i].external.handle, j);
  }

  /** A found container all of whose places were taken is nowhere. */
  lemma NowhereElse(kept: seq<Transitional>, results: seq<StartResult>, externals: seq<OperationalContainer>, i: nat,
                    k: nat)
    requires forall k :: 0 <= k < |kept| ==> kept[k].Pending? || kept[k].FoundExternal?
    requires Faithful(kept, results) && Distinct(kept) && Lists(kept, externals) && AllStarted(kept, results)
    requires i < |kept| && kept[i].FoundExternal? && OwnApart(kept, kept[i].external.handle) && k < |kept|
    requires !Survives(kept, i)
    ensures !StandsFor(Placed(kept, Started(kept, results) + externals)[k], kept[i].external.id)
  {
    var all, e := Started(kept, results) + externals, kept[i].external;
    if kept[k].FoundExternal? && kept[k].external.handle == e.handle {
      var a :| 0 <= a < |FoundUnder(kept, e.handle)| && FoundUnder(kept, e.handle)[a] == k;
      FoundStandsExactly(kept, results, externals, e.handle, a);
      SameFound(kept, externals, i, k);
    } else {
      AwaitsAnother(kept, results, externals, i, k);
    }
  }

  lemma AwaitsAnother(kept: seq<Transitional>, results: seq<StartResult>, externals: seq<OperationalContainer>, i: nat,
                      k: nat)
    requires Faithful(kept, results) && Distinct(kept) && Lists(kept, externals) && AllStarted(kept, results)
    requires i < |kept| && kept[i].FoundExternal? && OwnApart(kept, kept[i].external.handle) && k < |kept|
    requires kept[k].Pending? || (kept[k].FoundExternal? && kept[k].external.handle != kept[i].external.handle)
    ensures !StandsFor(Placed(kept, Started(kept, results) + externals)[k], kept[i].external.id)
  {
    var all, e := Started(kept, results) + externals, kept[i].external;
    PlacedEvolves(kept, all, k);
    NoneStartedAs(kept, results, i);
    assert IdAt(kept[k]) == IdAt(kept[i]) ==> HandleAt(kept[k]) == e.handle;
    if kept[k].Pending? {
      NotItsId(kept, i, k);
    }
    forall m | 0 <= m < |all| && kept[k].Awaits(all[m])
      ensures all[m].id != e.id
    {
      assert all[m] in Started(kept, results) || all[m] in externals;
    }
  }

  // --- one container found under a handle -----------------------------------------------------------------

  /** Some container is created under the handle of the one found at place `i`, at a later place. */
  predicate Displaced(kept: seq<Transitional>, i: nat)
    requires i < |kept| && kept[i].FoundExternal?
  {
    exists j :: i < j < |kept| && Shares(kept, kept[i].external.handle, j)
  }

  ghost predicate FoundOnce(kept: seq<Transitional>, i: nat)
    requires i < |kept| && kept[i].FoundExternal?
  {
    FoundUnder(kept, kept[i].external.handle) == [i]
  }

  /** A container found once under its handle is overwritten exactly if one is created under it at a later place. */
  lemma {:induction false} OverwrittenOnce(kept: seq<Transitional>, i: nat, places: seq<nat>)
    requires i < |kept| && kept[i].FoundExternal? && FoundOnce(kept, i)
    requires forall a :: 0 <= a < |places| ==> places[a] < |kept|
    ensures Overwritten(kept, kept[i].external.handle, places) == 0
       <==> forall a :: 0 <= a < |places| && Shares(kept, kept[i].external.handle, places[a]) ==> places[a] < i
  {
    if places != [] {
      var before := places[..|places| - 1];
      OverwrittenOnce(kept, i, before);
      assert forall a :: 0 <= a < |before| ==> places[a] == before[a];
    }
  }

  lemma HandedOverUnlessDisplaced(kept: seq<Transitional>, results: seq<StartResult>,
                                  externals: seq<OperationalContainer>, i: nat)
    requires forall k :: 0 <= k < |kept| ==> kept[k].Pending? || kept[k].FoundExternal?
    requires Faithful(kept, results) && Distinct(kept) && Lists(kept, externals) && AllStarted(kept, results)
    requires i < |kept| && kept[i].FoundExternal? && OwnApart(kept, kept[i].external.handle) && FoundOnce(kept, i)
    ensures kept[i].external.id in DebrisOfOrbiting(Placed(kept, Started(kept, results) + externals)).SharedIds()
       <==> !Displaced(kept, i)
  {
    FoundIsHandedOver(kept, results, externals, i);
    FaithfulByPlace(kept, results);
    SurvivesUnlessDisplaced(kept, Started(kept, results), i);
  }

  lemma SurvivesUnlessDisplaced(kept: seq<Transitional>, started: seq<OperationalContainer>, i: nat)
    requires i < |kept| && kept[i].FoundExternal? && FoundOnce(kept, i) && ByPlace(kept, started, StartedPlaces(kept))
    ensures Survives(kept, i) <==> !Displaced(kept, i)
  {
    var places, h := StartedPlaces(kept), kept[i].external.handle;
    OverwrittenOnce(kept, i, places);
    if !Displaced(kept, i) {
      assert forall a :: 0 <= a < |places| && Shares(kept, h, places[a]) ==> places[a] <= i;
    } else {
      var j :| i < j < |kept| && Shares(kept, h, j);
      assert j in places;
    }
  }

  /** Teardown gets exactly what was created or found if and only if under no handle all places of found containers are
      overwritten. */
  lemma NothingIsForgotten(kept: seq<Transitional>, results: seq<StartResult>, externals: seq<OperationalContainer>)
    requires forall i :: 0 <= i < |kept| ==> kept[i].Pending? || kept[i].FoundExternal?
    requires Faithful(kept, results) && Distinct(kept) && Lists(kept, externals) && AllStarted(kept, results)
    requires forall i :: 0 <= i < |kept| && kept[i].FoundExternal? ==> OwnApart(kept, kept[i].external.handle)
    ensures var d := DebrisOfOrbiting(Placed(kept, Started(kept, results) + externals));
            && d.OwnIds() == OwnIds(kept)
            && (d.SharedIds() == SharedIds(kept) + FoundIds(kept)
                <==> forall i :: 0 <= i < |kept| && kept[i].FoundExternal? ==> Survives(kept, i))
  {
    OrbitingDebrisComplete(kept, results, externals);
    FaithfulByPlace(kept, results);
    var ids := DebrisOfOrbiting(Placed(kept, Started(kept, results) + externals)).SharedIds();
    forall i | 0 <= i < |kept| && kept[i].FoundExternal?
      ensures kept[i].external.id in FoundIds(kept)
      ensures kept[i].external.id in ids <==> Survives(kept, i)
    {
      FoundIsHandedOver(kept, results, externals, i);
    }
  }

  /** A found container that is dropped: the container of the same handle that was created after it takes its place,
      and the one that was found is neither placed nor handed over. */
  lemma FoundIsDropped(e: StaticExternal, p: PendingContainer, x: OperationalContainer)
    requires !p.isStatic && p.handle == e.handle == x.handle == x.name && x.id == e.id && x.isStatic && p.id != e.id
    ensures var kept := [FoundExternal(e), Pending(p)];
            var results := [Success(x), Success(OperationalOf(p))];
            && Faithful(kept, results) && Distinct(kept) && Lists(kept, [x]) && AllStarted(kept, results)
            && e.id in FoundIds(kept)
            && Placed(kept, Started(kept, results) + [x]) == [Running(OperationalOf(p)), Pending(p)]
            && e.id !in DebrisOfOrbiting(Placed(kept, Started(kept, results) + [x])).SharedIds()
  {
    var kept := [FoundExternal(e), Pending(p)];
    var results: seq<StartResult> := [Success(x), Success(OperationalOf(p))];
    Colliding(e, p, x, results);
    assert Started(kept, results) + [x] == [OperationalOf(p), x];
    OwnComesFirst(e, p, OperationalOf(p), x);
    OwnDebris(p, OperationalOf(p), e.id);
  }

  lemma Colliding(e: StaticExternal, p: PendingContainer, x: OperationalContainer, results: seq<StartResult>)
    requires !p.isStatic && p.handle == e.handle == x.handle == x.name && x.id == e.id && x.isStatic && p.id != e.id
    requires |results| == 2 && results[1] == Success(OperationalOf(p))
    ensures var kept := [FoundExternal(e), Pending(p)];
            && Faithful(kept, results) && Distinct(kept) && Lists(kept, [x]) && e.id in FoundIds(kept)
            && AllStarted(kept, results) && Started(kept, results) == [OperationalOf(p)]
  {
    var kept := [FoundExternal(e), Pending(p)];
    assert results == [results[0], results[1]];
    OnlyPending(e, p, results[0], results[1]);
    assert kept[0].FoundExternal? && kept[0].external == e;
    assert x in [x] && [x][0] == x;
  }

  lemma OwnDebris(p: PendingContainer, own: OperationalContainer, id: Id)
    requires !own.isStatic
    ensures id !in DebrisOfOrbiting([Running(own), Pending(p)]).SharedIds()
  {
    OrbitingDebrisMembers([Running(own), Pending(p)]);
  }

  lemma OwnComesFirst(e: StaticExternal, p: PendingContainer, own: OperationalContainer, x: OperationalContainer)
    requires own.handle == e.handle && x.id != p.id
    ensures Placed([FoundExternal(e), Pending(p)], [own, x]) == [Running(own), Pending(p)]
  {
    var kept, filled := [FoundExternal(e), Pending(p)], [Running(own), Pending(p)];
    PlaceOneAt(kept, own, 0);
    assert [own][..0] == [];
    assert Placed(kept, [own]) == filled;
    PlaceOneNowhere(filled, x);
    assert [own, x][..1] == [own];
  }

  lemma OnlyPending(e: StaticExternal, p: PendingContainer, r: StartResult, r': StartResult)
    ensures Starts([FoundExternal(e), Pending(p)], [r, r'], Strict)
         == if p.startPolicy == Strict then [(p, r')] else []
    ensures Starts([FoundExternal(e), Pending(p)], [r, r'], Relaxed)
         == if p.startPolicy == Relaxed then [(p, r')] else []
  {
    var kept := [FoundExternal(e), Pending(p)];
    assert kept[..1] == [FoundExternal(e)] && [r, r'][..1] == [r];
    assert [FoundExternal(e)][..0] == [] && [r][..0] == [];
    assert Starts([FoundExternal(e)], [r], Strict) == [] && Starts([FoundExternal(e)], [r], Relaxed) == [];
  }
}
