/** Where the engine of one test meets the registries all tests share: the engine recognises what it started
    by id, so it relies on a registry to start the very container it created. */
module Meeting {
  import opened Containers
  import opened Engine
  import opened Launch
  import opened Flight
  import opened Runner
  import Docker
  import Registry = InternalContainers
  import Protocol = InternalProtocol
  import Limits = InternalLimits
  import Statics = StaticContainers
  import Dynamic = DynamicContainers
  import World = Process
  import ProcessCounts
  import ProcessTheorems
  import NonInterference

  /** Without holding a container there is no promise about starting it: a start that outlived its test succeeds
      with the container another test created later under the same name. */
  lemma DetachedStartMeetsAnother(c: Composition, network: NetworkName, a: Id, b: Id)
    returns (steps: seq<Protocol.Step>, s: Protocol.Sys)
    requires a != b && Protocol.Named(c)
    ensures Protocol.Execute(steps) == Some(s) && Protocol.Bounded(s)
    ensures Protocol.Enabled(s, Protocol.Start(0, PendingOf(c, a), Docker.Accepted))
    ensures Registry.StartSpec(s.registry, s.daemon, PendingOf(c, a), Docker.Accepted).2
         == Success(OperationalOf(PendingOf(c, b)))
    ensures OperationalOf(PendingOf(c, b)).id != PendingOf(c, a).id
  {
    steps, s := Limits.RetiredGeneration(c, network, a);
    steps, s := Limits.NextGeneration(c, network, a, b, steps, s);
  }

  // --- a test among others ----------------------------------------------------------------------------------

  /** The creations of test `t`: shared containers are what the registries answered, own ones have ids of their own. */
  ghost predicate Created(w: World.World, t: World.TestId, cs: seq<Composition>, creations: seq<Creation>)
    requires t in w.tests && |cs| == |creations|
  {
    && (forall i :: 0 <= i < |cs| && cs[i].management.Some? && creations[i].shared.Success? ==>
          (cs[i], creations[i].shared.value) in w.tests[t].answers)
    && (forall i :: 0 <= i < |cs| && CreatesOwn(cs[i], creations[i]) ==>
          PendingOf(cs[i], creations[i].created.value) in w.tests[t].kept)
    && (forall i, j :: 0 <= i < j < |cs| && CreatesOwn(cs[i], creations[i]) && CreatesOwn(cs[j], creations[j]) ==>
          creations[i].created.value != creations[j].created.value)
  }

  /** What its starts of shared containers returned before it let go of them. */
  ghost predicate StartedBy(w: World.World, t: World.TestId, kept: seq<Transitional>, results: seq<StartResult>)
    requires t in w.tests && |results| == |kept|
  {
    forall i :: 0 <= i < |kept| && kept[i].Pending? && kept[i].pending.isStatic && results[i].Success? ==>
      (kept[i].pending, results[i]) in w.tests[t].results
  }

  /** What the registries list: the external one is read in state `v`, the dynamic one in state `w`. */
  ghost function Listing(v: World.World, w: World.World): set<OperationalContainer> {
    v.statics.external.Values + Dynamic.PriorRunning(w.statics.dynamic)
  }

  /** A run of test `t` in a process that is in state `v` after `k` steps, when the external registry lists its
      containers, and in state `w` when the dynamic registry does. The shared part of its `replies` comes from the
      registries. */
  ghost predicate TakesPart(usage: World.Usage, steps: seq<World.Step>, k: nat, v: World.World, w: World.World,
                            t: World.TestId, cs: seq<Composition>, replies: Replies)
    requires |cs| == |replies.creations| == |replies.starts|
  {
    && k <= |steps| && World.Execute(usage, World.INIT, steps[..k]) == Some(v)
    && World.Execute(usage, World.INIT, steps) == Some(w) && ProcessCounts.Uncrowded(usage, steps)
    && t in v.tests && t in w.tests
    && Created(v, t, cs, replies.creations)
    && StartedBy(w, t, KeptOf(cs, replies.creations), StartsOf(KeptOf(cs, replies.creations), replies.starts))
    && (set x | x in replies.externals) == Listing(v, w)
  }

  /** The process has moved on from `v` to `w`, in both of which its invariant holds. */
  ghost predicate MovedOn(usage: World.Usage, v: World.World, w: World.World) {
    World.Inv(usage, v) && World.Inv(usage, w) && World.Grows(v, w) && NonInterference.Recalls(v, w)
  }

  lemma PartMovedOn(usage: World.Usage, steps: seq<World.Step>, k: nat, v: World.World, w: World.World)
    requires k <= |steps| && World.Execute(usage, World.INIT, steps[..k]) == Some(v)
    requires World.Execute(usage, World.INIT, steps) == Some(w)
    ensures MovedOn(usage, v, w)
  {
    InvReached(usage, steps[..k], v);
    InvReached(usage, steps, w);
    NonInterference.GrownSince(usage, steps, k, v, w);
  }

  lemma InvReached(usage: World.Usage, steps: seq<World.Step>, w: World.World)
    requires World.Execute(usage, World.INIT, steps) == Some(w)
    ensures World.Inv(usage, w)
  {
    World.InvExecute(usage, World.INIT, steps, w);
  }

  lemma StillCreated(usage: World.Usage, v: World.World, w: World.World, t: World.TestId, cs: seq<Composition>,
                     creations: seq<Creation>)
    requires MovedOn(usage, v, w) && t in v.tests && |cs| == |creations| && Created(v, t, cs, creations)
    ensures t in w.tests && Created(w, t, cs, creations)
  {
    assert v.tests[t].answers <= w.tests[t].answers && v.tests[t].kept <= w.tests[t].kept;
  }

  // --- what was created -------------------------------------------------------------------------------------

  /** The place at `i` holds what was asked for. */
  ghost predicate PlaceFits(w: World.World, t: World.TestId, c: Composition, place: Transitional)
    requires t in w.tests
  {
    match place
    case Pending(p) => p in w.tests[t].kept && GoesBy(c, p.handle) && (p.isStatic <==> c.management.Some?)
    case FoundExternal(e) => World.Backed(w, e) && GoesBy(c, e.handle)
    case CreationFailure(_) => true
    case _ => false
  }

  lemma CreatedAsAsked(usage: World.Usage, w: World.World, t: World.TestId, cs: seq<Composition>,
                       creations: seq<Creation>, i: nat)
    requires World.Inv(usage, w) && t in w.tests && |cs| == |creations| && Created(w, t, cs, creations)
    requires i < |cs|
    ensures PlaceFits(w, t, cs[i], KeptOf(cs, creations)[i])
  {
    if cs[i].management.Some? && creations[i].shared.Success? {
      assert World.TestShape(usage, w, t);
      assert World.AnswerShape(w, t, cs[i], creations[i].shared.value);
    }
  }

  lemma AllAsAsked(usage: World.Usage, w: World.World, t: World.TestId, cs: seq<Composition>, creations: seq<Creation>)
    requires World.Inv(usage, w) && t in w.tests && |cs| == |creations| && Created(w, t, cs, creations)
    ensures forall i :: 0 <= i < |cs| ==> PlaceFits(w, t, cs[i], KeptOf(cs, creations)[i])
    ensures AllCreated(KeptOf(cs, creations)) ==> CreatedFor(Handles(cs), KeptOf(cs, creations))
  {
    forall i | 0 <= i < |cs|
      ensures PlaceFits(w, t, cs[i], KeptOf(cs, creations)[i])
    {
      CreatedAsAsked(usage, w, t, cs, creations, i);
    }
  }

  /** A shared container goes by the name it was created under, an own one by a name of no registry. */
  ghost predicate NamedAlike(usage: World.Usage, w: World.World, place: Transitional)
    requires place.Pending? || place.FoundExternal?
  {
    && IdAt(place) in w.daemon.created
    && var name := w.daemon.created[IdAt(place)];
       if place.Pending? && !place.pending.isStatic then usage(name).None?
       else usage(name).Some? && HandleAt(place) == name
  }

  lemma PlaceIsNamed(usage: World.Usage, w: World.World, t: World.TestId, c: Composition, place: Transitional)
    requires World.Inv(usage, w) && t in w.tests && PlaceFits(w, t, c, place)
    requires place.Pending? || place.FoundExternal?
    ensures NamedAlike(usage, w, place)
  {
    assert World.TestShape(usage, w, t);
    if place.FoundExternal? {
      var n := place.external.handle;
      assert n in w.statics.external ==> World.ExternalShape(usage, w, n);
      assert n in w.statics.dynamic ==> World.DynamicShape(usage, w, n);
    } else {
      assert World.Managed(usage, w, place.pending);
    }
  }

  /** Containers of one test with the same id are the same container. */
  lemma CreatedAreDistinct(usage: World.Usage, w: World.World, t: World.TestId, cs: seq<Composition>,
                           creations: seq<Creation>)
    requires World.Inv(usage, w) && t in w.tests && |cs| == |creations| && Created(w, t, cs, creations)
    ensures Distinct(KeptOf(cs, creations))
  {
    var kept := KeptOf(cs, creations);
    AllAsAsked(usage, w, t, cs, creations);
    forall i, j | 0 <= i < |kept| && 0 <= j < |kept|
                  && (kept[i].Pending? || kept[i].FoundExternal?) && (kept[j].Pending? || kept[j].FoundExternal?)
                  && IdAt(kept[i]) == IdAt(kept[j]) && i != j
      ensures HandleAt(kept[i]) == HandleAt(kept[j])
      ensures kept[i].Pending? && kept[j].Pending? ==> kept[i].pending.isStatic == kept[j].pending.isStatic
    {
      PlaceIsNamed(usage, w, t, cs[i], kept[i]);
      PlaceIsNamed(usage, w, t, cs[j], kept[j]);
    }
  }

  // --- what was listed and started --------------------------------------------------------------------------

  /** What is listed is nothing that a test created or joined. */
  lemma ListedShape(usage: World.Usage, w: World.World, t: World.TestId, x: OperationalContainer)
    requires World.Inv(usage, w) && x in Statics.ExternalList(w.statics) && t in w.tests
    ensures x.isStatic && x.name == x.handle
    ensures forall p :: p in w.tests[t].kept ==> p.id != x.id
  {
    var m := w.statics;
    assert World.TestShape(usage, w, t);
    if x in m.external.Values {
      var n :| n in m.external && m.external[n] == x;
      assert World.ExternalShape(usage, w, n);
      assert forall p :: p in w.tests[t].kept ==> World.Managed(usage, w, p);
    } else {
      var n :| n in m.dynamic && m.dynamic[n].RunningPrior? && m.dynamic[n].running == x;
      assert World.DynamicShape(usage, w, n);
      assert forall p :: p in w.tests[t].kept ==> World.Managed(usage, w, p) && World.Bound(w, p);
    }
  }

  /** What is listed in two states is listed in the later one. */
  lemma ListedLater(usage: World.Usage, v: World.World, w: World.World)
    requires MovedOn(usage, v, w)
    ensures Listing(v, w) <= Statics.ExternalList(w.statics)
  {
    forall x | x in v.statics.external.Values
      ensures x in w.statics.external.Values
    {
      var n :| n in v.statics.external && v.statics.external[n] == x;
      assert n in w.statics.external && w.statics.external[n] == x;
    }
  }

  /** The registries list every container the test found, under its handle only, and none of its own, although what
      they list need not be there at one time. */
  lemma RegistriesList(usage: World.Usage, v: World.World, w: World.World, t: World.TestId, cs: seq<Composition>,
                       creations: seq<Creation>, externals: seq<OperationalContainer>)
    requires MovedOn(usage, v, w) && t in v.tests && |cs| == |creations| && Created(v, t, cs, creations)
    requires (set x | x in externals) == Listing(v, w)
    ensures Lists(KeptOf(cs, creations), externals)
  {
    var kept := KeptOf(cs, creations);
    StillCreated(usage, v, w, t, cs, creations);
    forall i | 0 <= i < |kept| && kept[i].Pending?
      ensures kept[i].pending in w.tests[t].kept
    {
      CreatedAsAsked(usage, w, t, cs, creations, i);
    }
    AllListed(usage, v, w, t, externals);
    forall i | 0 <= i < |kept| && kept[i].FoundExternal?
      ensures exists k :: 0 <= k < |externals| && externals[k].handle == kept[i].external.handle
      ensures forall x | x in externals :: x.handle == kept[i].external.handle ==> x.id == kept[i].external.id
    {
      CreatedAsAsked(usage, v, t, cs, creations, i);
      FoundInList(usage, v, w, kept[i].external, externals);
    }
  }

  lemma AllListed(usage: World.Usage, v: World.World, w: World.World, t: World.TestId,
                  externals: seq<OperationalContainer>)
    requires MovedOn(usage, v, w) && t in w.tests && (set x | x in externals) == Listing(v, w)
    ensures forall x :: x in externals ==> x.isStatic && x.name == x.handle
    ensures forall x, p :: x in externals && p in w.tests[t].kept ==> p.id != x.id
  {
    ListedLater(usage, v, w);
    forall x | x in externals
      ensures x.isStatic && x.name == x.handle && forall p :: p in w.tests[t].kept ==> p.id != x.id
    {
      assert x in Listing(v, w);
      ListedShape(usage, w, t, x);
    }
  }

  lemma FoundInList(usage: World.Usage, v: World.World, w: World.World, e: StaticExternal,
                    externals: seq<OperationalContainer>)
    requires MovedOn(usage, v, w) && World.Backed(v, e)
    requires (set x | x in externals) == Listing(v, w)
    ensures exists k :: 0 <= k < |externals| && externals[k].handle == e.handle
    ensures forall x | x in externals :: x.handle == e.handle ==> x.id == e.id
  {
    var x := FoundListed(usage, v, w, e);
    assert x in externals;
    NonInterference.ListedByHandle(usage, w, e);
    ListedLater(usage, v, w);
    assert forall y :: y in externals ==> y in Listing(v, w);
  }

  /** What was found in state `v` is listed, whichever registry found it. */
  lemma FoundListed(usage: World.Usage, v: World.World, w: World.World, e: StaticExternal)
    returns (x: OperationalContainer)
    requires MovedOn(usage, v, w) && World.Backed(v, e)
    ensures x in Listing(v, w) && x.handle == e.handle && World.Backed(w, e)
  {
    var n := e.handle;
    if n in v.statics.external && v.statics.external[n].id == e.id {
      assert World.ExternalShape(usage, v, n);
      x := v.statics.external[n];
    } else {
      assert World.DynamicShape(usage, v, n);
      assert Dynamic.Evolves(v.statics.dynamic[n], w.statics.dynamic[n]);
      x := w.statics.dynamic[n].running;
    }
  }

  /** Every start of a test returns the container it created, whichever registry it went through. */
  lemma StartsAreFaithful(usage: World.Usage, steps: seq<World.Step>, w: World.World, t: World.TestId,
                          kept: seq<Transitional>, starts: seq<Starting>)
    requires World.Execute(usage, World.INIT, steps) == Some(w) && ProcessCounts.Uncrowded(usage, steps) && t in w.tests
    requires |kept| == |starts| && StartedBy(w, t, kept, StartsOf(kept, starts))
    ensures Faithful(kept, StartsOf(kept, starts))
  {
    var results := StartsOf(kept, starts);
    forall i | 0 <= i < |kept| && kept[i].Pending? && results[i].Success?
      ensures results[i].value == OperationalOf(kept[i].pending)
    {
      if kept[i].pending.isStatic {
        ProcessTheorems.StartsKeepIdentity(usage, steps, w, t, kept[i].pending, results[i]);
      }
    }
  }

  // --- what is cleaned up -----------------------------------------------------------------------------------

  /** Every shared container the test has hold of was created for one of its compositions. */
  ghost predicate NothingElse(w: World.World, t: World.TestId, cs: seq<Composition>, creations: seq<Creation>)
    requires t in w.tests && |cs| == |creations|
  {
    forall p :: p in w.tests[t].kept && p.isStatic ==> Pending(p) in KeptOf(cs, creations)
  }

  /** An internal container is among the ids that teardown hands over exactly when the test holds it. */
  lemma HandsOverHeld(usage: World.Usage, w: World.World, t: World.TestId, cs: seq<Composition>,
                      creations: seq<Creation>, ids: set<Id>, id: Id)
    requires World.Inv(usage, w) && t in w.tests && |cs| == |creations| && Created(w, t, cs, creations)
    requires NothingElse(w, t, cs, creations)
    requires var kept := KeptOf(cs, creations); SharedIds(kept) <= ids <= SharedIds(kept) + FoundIds(kept)
    requires id in w.daemon.created && usage(w.daemon.created[id]) == Some(Internal)
    ensures id in ids <==> id in w.tests[t].StaticIds()
  {
    var kept := KeptOf(cs, creations);
    AllAsAsked(usage, w, t, cs, creations);
    assert World.TestShape(usage, w, t);
    if id in w.tests[t].StaticIds() {
      assert id !in w.tests[t].external;
      var p :| p in w.tests[t].kept && p.isStatic && p.id == id;
      var i :| 0 <= i < |kept| && kept[i] == Pending(p);
      assert id in SharedIds(kept);
    }
    forall i | 0 <= i < |kept| && kept[i].FoundExternal?
      ensures kept[i].external.id != id
    {
      PlaceIsNamed(usage, w, t, cs[i], kept[i]);
      FoundIsForeign(usage, w, kept[i].external);
    }
  }

  lemma FoundIsForeign(usage: World.Usage, w: World.World, e: StaticExternal)
    requires World.Inv(usage, w) && World.Backed(w, e)
    ensures World.Shared(usage, w, e.id)
  {
    var n := e.handle;
    assert n in w.statics.external ==> World.ExternalShape(usage, w, n);
    assert n in w.statics.dynamic ==> World.DynamicShape(usage, w, n);
  }

  /** What teardown hands to the registries makes the internal one count down exactly for what the test holds. */
  lemma TeardownReleases(usage: World.Usage, w: World.World, t: World.TestId, cs: seq<Composition>,
                         creations: seq<Creation>, ids: set<Id>)
    requires World.Inv(usage, w) && t in w.tests && |cs| == |creations| && Created(w, t, cs, creations)
    requires NothingElse(w, t, cs, creations)
    requires var kept := KeptOf(cs, creations); SharedIds(kept) <= ids <= SharedIds(kept) + FoundIds(kept)
    ensures var m := w.statics.internal;
            && Registry.DecrementSpec(m, ids) == Registry.DecrementSpec(m, w.tests[t].StaticIds())
            && Registry.Responsible(m, ids) == Registry.Responsible(m, w.tests[t].StaticIds())
  {
    var m := w.statics.internal;
    forall n | n in m
      ensures Registry.Hit(m[n], ids) <==> Registry.Hit(m[n], w.tests[t].StaticIds())
    {
      assert World.InternalShape(usage, w, n);
      if m[n].status.ContainerId().Some? {
        HandsOverHeld(usage, w, t, cs, creations, ids, m[n].status.ContainerId().value);
      }
    }
    assert Registry.RetiredNames(m, ids) == Registry.RetiredNames(m, w.tests[t].StaticIds());
  }

  // --- both together ----------------------------------------------------------------------------------------

  /** What a run relies on is what the registries provide, whatever other tests do at the same time. */
  lemma RegistriesProvide(usage: World.Usage, steps: seq<World.Step>, k: nat, v: World.World, w: World.World,
                          t: World.TestId, cs: seq<Composition>, replies: Replies)
    requires |cs| == |replies.creations| == |replies.starts| && TakesPart(usage, steps, k, v, w, t, cs, replies)
    ensures RegistriesKeepWord(cs, replies)
  {
    PartMovedOn(usage, steps, k, v, w);
    StillCreated(usage, v, w, t, cs, replies.creations);
    AllAsAsked(usage, w, t, cs, replies.creations);
    StartsAreFaithful(usage, steps, w, t, KeptOf(cs, replies.creations), replies.starts);
    CreatedAreDistinct(usage, w, t, cs, replies.creations);
    RegistriesList(usage, v, w, t, cs, replies.creations, replies.externals);
  }

  /** `r` is the container that was created for `c`, or is shared or was found for it, under the handle a test body asks
      for it by, with the address the daemon reports. */
  predicate Delivers(c: Composition, creation: Creation, inspection: Result<Address, Error>, h: Handle,
                     r: OperationalContainer)
  {
    && GoesBy(c, h) && r.handle == h && inspection == Success(r.address) && (r.isStatic <==> c.management.Some?)
    && if c.management.None? then creation.created == Success(r.id) && r.name == c.containerName
       else
         r.name == h && match creation.shared
                        case Success(CreatedPending(p)) => r.id == p.id
                        case Success(CreatedExternal(e)) => r.id == e.id
                        case Failure(_) => false
  }

  lemma IsDelivered(usage: World.Usage, w: World.World, t: World.TestId, cs: seq<Composition>, replies: Replies,
                    seen: seq<Transitional>, h: Handle, i: nat)
    requires |cs| == |replies.creations| == |replies.starts| == |replies.inspections| == |seen|
    requires World.Inv(usage, w) && t in w.tests && Created(w, t, cs, replies.creations)
    requires Boards(KeptOf(cs, replies.creations), replies) && i in GoingBy(cs, h)
    requires var place := Flying(KeptOf(cs, replies.creations), replies)[i];
             && place.Running? && Delivered(KeptOf(cs, replies.creations)[i], place.running)
             && SeenAs(place, replies.inspections[i], seen[i])
    ensures seen[i].Running?
    ensures Delivers(cs[i], replies.creations[i], replies.inspections[i], h, seen[i].running)
  {
    CreatedAsAsked(usage, w, t, cs, replies.creations, i);
    if cs[i].management.Some? {
      assert World.TestShape(usage, w, t);
      assert World.AnswerShape(w, t, cs[i], replies.creations[i].shared.value);
    }
  }

  lemma GoneByOnce(cs: seq<Composition>, h: Handle, i: nat)
    requires Provided(Handles(cs), h) == 1 && i in GoingBy(cs, h)
    ensures GoingBy(cs, h) == {i}
  {
    ProvidedOnce(Handles(cs), h, i);
    forall j | j in GoingBy(cs, h)
      ensures j == i
    {
      assert Handles(cs)[j] == h;
    }
  }

  lemma OneIsDelivered(usage: World.Usage, w: World.World, t: World.TestId, cs: seq<Composition>, keeper: Keeper,
                       replies: Replies, seen: seq<Transitional>, h: Handle, i: nat)
    requires |cs| == |replies.creations| == |replies.starts| == |replies.inspections| == |seen|
    requires World.Inv(usage, w) && t in w.tests && Created(w, t, cs, replies.creations)
    requires KeeperFor(keeper, Handles(cs)) && RegistriesKeepWord(cs, replies)
    requires Boards(KeptOf(cs, replies.creations), replies) && GoingBy(cs, h) == {i}
    requires CreatedFor(Handles(cs), KeptOf(cs, replies.creations))
    requires forall i :: 0 <= i < |seen| ==>
               SeenAs(Flying(KeptOf(cs, replies.creations), replies)[i], replies.inspections[i], seen[i])
    ensures i < |cs| && InRange(keeper, seen) && TryHandle(keeper, seen, h).Success?
    ensures Delivers(cs[i], replies.creations[i], replies.inspections[i], h, TryHandle(keeper, seen, h).value)
  {
    var kept := KeptOf(cs, replies.creations);
    GoesByOnce(cs, h, i);
    UniqueSlotFilled(Handles(cs), kept, StartsOf(kept, replies.starts), replies.externals, i);
    IsDelivered(usage, w, t, cs, replies, seen, h, i);
    Looked(keeper, cs, seen, h, i);
  }

  lemma Looked(keeper: Keeper, cs: seq<Composition>, seen: seq<Transitional>, h: Handle, i: nat)
    requires KeeperFor(keeper, Handles(cs)) && |seen| == |cs| && GoingBy(cs, h) == {i}
    requires i < |seen| && seen[i].Running?
    ensures InRange(keeper, seen) && TryHandle(keeper, seen, h) == Success(seen[i].running)
  {
    GoesByOnce(cs, h, i);
    ProvidedOnce(Handles(cs), h, i);
  }

  /** End to end. In every run of the process, with any number of tests: a test body that asks for a handle gets the
      container created for the one composition that goes by it, with the address that inspecting it reported, and an
      error if there is none or more than one. */
  lemma EndToEnd(usage: World.Usage, steps: seq<World.Step>, k: nat, v: World.World, w: World.World,
                 t: World.TestId, cs: seq<Composition>, keeper: Keeper, replies: Replies, seen: seq<Transitional>,
                 h: Handle)
    requires |cs| == |replies.creations| == |replies.starts| == |replies.inspections| == |seen|
    requires TakesPart(usage, steps, k, v, w, t, cs, replies) && KeeperFor(keeper, Handles(cs))
    requires Boards(KeptOf(cs, replies.creations), replies)
    requires forall i :: 0 <= i < |seen| ==>
               SeenAs(Flying(KeptOf(cs, replies.creations), replies)[i], replies.inspections[i], seen[i])
    ensures InRange(keeper, seen)
    ensures var r := TryHandle(keeper, seen, h);
            match |GoingBy(cs, h)|
            case 0 => r == Failure(UNKNOWN_ERROR)
            case 1 =>
              && r.Success?
              && forall i :: i in GoingBy(cs, h) ==>
                   Delivers(cs[i], replies.creations[i], replies.inspections[i], h, r.value)
            case _ => r == Failure(MULTIPLE_ERROR)
  {
    var kept := KeptOf(cs, replies.creations);
    var flying := Flying(kept, replies);
    PartMovedOn(usage, steps, k, v, w);
    StillCreated(usage, v, w, t, cs, replies.creations);
    RegistriesProvide(usage, steps, k, v, w, t, cs, replies);
    AllAsAsked(usage, w, t, cs, replies.creations);
    HandlesResolve(Handles(cs), keeper, kept, StartsOf(kept, replies.starts), replies.externals, h);
    InspectKeepsHandles(keeper, flying, seen, replies.inspections, h);
    ProvidedExactly(cs, h);
    forall i | i in GoingBy(cs, h) && Provided(Handles(cs), h) == 1
      ensures Delivers(cs[i], replies.creations[i], replies.inspections[i], h, TryHandle(keeper, seen, h).value)
    {
      GoneByOnce(cs, h, i);
      OneIsDelivered(usage, w, t, cs, keeper, replies, seen, h, i);
    }
  }

  // --- what teardown is given of found containers -------------------------------------------------------------

  /** No shared container is created under the handle of one that was found, and own ones have ids of their own. */
  lemma CreatedApart(usage: World.Usage, w: World.World, t: World.TestId, cs: seq<Composition>,
                     creations: seq<Creation>, i: nat)
    requires World.Inv(usage, w) && t in w.tests && |cs| == |creations| && Created(w, t, cs, creations)
    requires i < |cs| && KeptOf(cs, creations)[i].FoundExternal?
    ensures OwnApart(KeptOf(cs, creations), KeptOf(cs, creations)[i].external.handle)
  {
    var kept := KeptOf(cs, creations);
    var h := kept[i].external.handle;
    forall j, k | 0 <= j < |kept| && Shares(kept, h, j) && 0 <= k < |kept| && kept[k].FoundExternal?
                  && kept[k].external.handle == h
      ensures kept[j].pending.id != kept[k].external.id
    {
      SharingIsOwn(usage, w, t, cs, creations, k, j);
    }
    forall j | 0 <= j < |kept| && Shares(kept, h, j)
      ensures CreatesOwn(cs[j], creations[j]) && kept[j] == Pending(PendingOf(cs[j], creations[j].created.value))
    {
      SharingIsOwn(usage, w, t, cs, creations, i, j);
    }
  }

  lemma SharingIsOwn(usage: World.Usage, w: World.World, t: World.TestId, cs: seq<Composition>,
                     creations: seq<Creation>, i: nat, j: nat)
    requires World.Inv(usage, w) && t in w.tests && |cs| == |creations| && Created(w, t, cs, creations)
    requires i < |cs| && KeptOf(cs, creations)[i].FoundExternal?
    requires j < |cs| && Shares(KeptOf(cs, creations), KeptOf(cs, creations)[i].external.handle, j)
    ensures CreatesOwn(cs[j], creations[j])
    ensures KeptOf(cs, creations)[j] == Pending(PendingOf(cs[j], creations[j].created.value))
    ensures KeptOf(cs, creations)[j].pending.id != KeptOf(cs, creations)[i].external.id
  {
    var kept := KeptOf(cs, creations);
    CreatedAsAsked(usage, w, t, cs, creations, i);
    CreatedAsAsked(usage, w, t, cs, creations, j);
    PlaceIsNamed(usage, w, t, cs[i], kept[i]);
    PlaceIsNamed(usage, w, t, cs[j], kept[j]);
    NotShared(usage, w, t, kept[j].pending, kept[i].external);
  }

  /** A shared container that a test was given under a handle is not one that another creation merely finds. */
  lemma NotShared(usage: World.Usage, w: World.World, t: World.TestId, p: PendingContainer, e: StaticExternal)
    requires World.Inv(usage, w) && t in w.tests && p in w.tests[t].kept && World.Backed(w, e) && p.handle == e.handle
    ensures !p.isStatic
  {
    assert World.TestShape(usage, w, t);
    assert World.Managed(usage, w, p);
    assert e.handle in w.statics.external ==> World.ExternalShape(usage, w, e.handle);
    assert e.handle in w.statics.dynamic ==> World.DynamicShape(usage, w, e.handle);
  }

  /** In every run of the process: a container that a test found is among the ids its teardown hands over exactly if
      not all places of that container are overwritten by own ones created under its handle. Found once, it is
      overwritten exactly if an own one is created under its handle at a later place. */
  lemma FoundHandedOverExactly(usage: World.Usage, steps: seq<World.Step>, k: nat, v: World.World, w: World.World,
                               t: World.TestId, cs: seq<Composition>, replies: Replies, i: nat)
    requires |cs| == |replies.creations| == |replies.starts| && TakesPart(usage, steps, k, v, w, t, cs, replies)
    requires var kept := KeptOf(cs, replies.creations);
             && AllCreated(kept) && AllStarted(kept, StartsOf(kept, replies.starts))
             && i < |cs| && kept[i].FoundExternal?
    ensures var kept := KeptOf(cs, replies.creations);
            var ids := DebrisOfOrbiting(Flying(kept, replies)).SharedIds();
            && (kept[i].external.id in ids <==> Survives(kept, i))
            && (FoundOnce(kept, i) ==> (kept[i].external.id in ids <==> !Displaced(kept, i)))
  {
    var kept := KeptOf(cs, replies.creations);
    PartMovedOn(usage, steps, k, v, w);
    StillCreated(usage, v, w, t, cs, replies.creations);
    RegistriesProvide(usage, steps, k, v, w, t, cs, replies);
    AllAsAsked(usage, w, t, cs, replies.creations);
    CreatedApart(usage, w, t, cs, replies.creations, i);
    FoundIsHandedOver(kept, StartsOf(kept, replies.starts), replies.externals, i);
    if FoundOnce(kept, i) {
      HandedOverUnlessDisplaced(kept, StartsOf(kept, replies.starts), replies.externals, i);
    }
  }
}
