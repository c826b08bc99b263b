/** The start order a user asks for: which compositions are started one after the other, which at the same time, and
    whose choice counts for a container that several tests share. */
module CompositionOrder {
  import opened Containers
  import opened Launch
  import opened Runner
  import Flight
  import StartOrder
  import World = Process
  import ProcessOrigins
  import Meeting

  /** The container of this composition is made for this test alone. */
  predicate Owned(c: Composition, creation: Creation) {
    c.management.None? && !creation.prior.Stuck? && creation.created.Success?
  }

  lemma OwnPlace(cs: seq<Composition>, creations: seq<Creation>, i: nat)
    requires |cs| == |creations| && i < |cs| && cs[i].management.None?
    ensures KeptOf(cs, creations)[i].Pending? <==> Owned(cs[i], creations[i])
    ensures Owned(cs[i], creations[i]) ==>
              MadeFrom(cs[i], creations[i].created.value, KeptOf(cs, creations)[i].pending)
  {
    assert KeptOf(cs, creations)[i] == Transit(CreationOf(cs[i], creations[i]));
  }

  lemma {:induction false} PlacesExactly(kept: seq<Transitional>, policy: StartPolicy)
    ensures var places := PlacesOf(kept, policy);
            && (forall a, b :: 0 <= a < b < |places| ==> places[a] < places[b])
            && (forall i :: 0 <= i < |kept| ==>
                  (i in places <==> kept[i].Pending? && kept[i].pending.startPolicy == policy))
  {
    if kept != [] {
      var last := |kept| - 1;
      PlacesExactly(kept[..last], policy);
      assert forall i :: 0 <= i < last ==> kept[..last][i] == kept[i];
    }
  }

  /** Of the containers made for the test alone, those started with a policy are, in the order of the compositions,
      those whose composition asks for it. */
  lemma OwnPlaces(cs: seq<Composition>, creations: seq<Creation>, policy: StartPolicy)
    requires |cs| == |creations|
    ensures var places := PlacesOf(KeptOf(cs, creations), policy);
            && (forall a, b :: 0 <= a < b < |places| ==> places[a] < places[b])
            && (forall i :: 0 <= i < |cs| && cs[i].management.None? ==>
                  (i in places <==> Owned(cs[i], creations[i]) && cs[i].startPolicy == policy))
  {
    PlacesExactly(KeptOf(cs, creations), policy);
    forall i | 0 <= i < |cs| && cs[i].management.None?
      ensures i in PlacesOf(KeptOf(cs, creations), policy)
         <==> Owned(cs[i], creations[i]) && cs[i].startPolicy == policy
    {
      OwnPlace(cs, creations, i);
    }
  }

  /** What is started for a composition is what the daemon made for it. */
  lemma StartedAsAsked(cs: seq<Composition>, creations: seq<Creation>, results: seq<StartResult>, policy: StartPolicy,
                       a: nat)
    requires |cs| == |creations| == |results| && a < |PlacesOf(KeptOf(cs, creations), policy)|
    ensures var i := PlacesOf(KeptOf(cs, creations), policy)[a];
            && i < |cs| && a < |Starts(KeptOf(cs, creations), results, policy)|
            && Starts(KeptOf(cs, creations), results, policy)[a].1 == results[i]
            && (cs[i].management.None? ==>
                  Owned(cs[i], creations[i])
                  && MadeFrom(cs[i], creations[i].created.value, Starts(KeptOf(cs, creations), results, policy)[a].0))
  {
    var i := PlacesOf(KeptOf(cs, creations), policy)[a];
    StartsByPlace(KeptOf(cs, creations), results, policy);
    if cs[i].management.None? {
      OwnPlace(cs, creations, i);
    }
  }

  /** In every interleaving: of two compositions that ask for a strict start, the later one is started only after the
      earlier one started well. */
  lemma StrictInOrder(cs: seq<Composition>, creations: seq<Creation>, steps: seq<StartOrder.Step>, s: StartOrder.State,
                      i: nat, j: nat) returns (x: nat, y: nat)
    requires |cs| == |creations| && i < j < |cs|
    requires Owned(cs[i], creations[i]) && cs[i].startPolicy == Strict
    requires Owned(cs[j], creations[j]) && cs[j].startPolicy == Strict
    requires var kept := KeptOf(cs, creations);
             StartOrder.Execute(|PlacesOf(kept, Strict)|, |PlacesOf(kept, Relaxed)|, steps) == Some(s)
    ensures var places := PlacesOf(KeptOf(cs, creations), Strict);
            x < |places| && places[x] == i && y < |places| && places[y] == j
    ensures forall e :: 0 <= e < |s.log| && s.log[e] == StartOrder.Began(Strict, y) ==>
              StartOrder.EndedWell(s.log, e, x)
  {
    var kept := KeptOf(cs, creations);
    var places := PlacesOf(kept, Strict);
    OwnPlaces(cs, creations, Strict);
    x :| x < |places| && places[x] == i;
    y :| y < |places| && places[y] == j;
    assert x < y;
    forall e | 0 <= e < |s.log| && s.log[e] == StartOrder.Began(Strict, y)
      ensures StartOrder.EndedWell(s.log, e, x)
    {
      StartOrder.StrictInOrder(|places|, |PlacesOf(kept, Relaxed)|, steps, s, e, y, x);
    }
  }

  /** In every run of the process: a shared container is started as the composition asks for which made it, whatever
      the one asks for that the test joined it with. */
  lemma SharedByMaker(usage: World.Usage, steps: seq<World.Step>, w: World.World, t: World.TestId,
                      cs: seq<Composition>, creations: seq<Creation>, i: nat) returns (k: nat)
    requires World.Execute(usage, World.INIT, steps) == Some(w) && t in w.tests && |cs| == |creations|
    requires Meeting.Created(w, t, cs, creations) && i < |cs| && KeptOf(cs, creations)[i].Pending?
    ensures k < |steps| && (steps[k].CreateStatic? || steps[k].CreateOwn?)
    ensures MadeFrom(steps[k].c, KeptOf(cs, creations)[i].pending.id, KeptOf(cs, creations)[i].pending)
    ensures forall policy :: i in PlacesOf(KeptOf(cs, creations), policy) <==> steps[k].c.startPolicy == policy
  {
    var p := KeptOf(cs, creations)[i].pending;
    Meeting.InvReached(usage, steps, w);
    Meeting.CreatedAsAsked(usage, w, t, cs, creations, i);
    assert ProcessOrigins.Held(w, p);
    k := ProcessOrigins.OriginOf(usage, steps, w, p);
    forall policy
      ensures i in PlacesOf(KeptOf(cs, creations), policy) <==> steps[k].c.startPolicy == policy
    {
      PlacesExactly(KeptOf(cs, creations), policy);
    }
  }
}
