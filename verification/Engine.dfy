/** The pipeline of one test: compositions are prepared, created, started and finally torn down, while a
    table from handles to positions, built once, must stay right. */
module Engine {
  import opened Containers

  datatype Outcome = Pass | Fail(error: Error)

  // --- the handle table ---------------------------------------------------------------------------------

  datatype Keeper = Keeper(lookupCollisions: set<Handle>, lookupHandlers: map<Handle, nat>)

  function Handles(cs: seq<Composition>): (hs: seq<Handle>)
    ensures |hs| == |cs| && forall i :: 0 <= i < |cs| ==> hs[i] == cs[i].GetHandle()
  {
    seq(|cs|, i requires 0 <= i < |cs| => cs[i].GetHandle())
  }

  /** How many compositions are asked for by a handle. */
  function Provided(hs: seq<Handle>, h: Handle): nat {
    multiset(hs)[h]
  }

  /** The places of the compositions that go by `h`. */
  function GoingBy(cs: seq<Composition>, h: Handle): set<nat> {
    set i: nat | i < |cs| && GoesBy(cs[i], h)
  }

  lemma {:induction false} ProvidedExactly(cs: seq<Composition>, h: Handle)
    ensures Provided(Handles(cs), h) == |GoingBy(cs, h)|
  {
    if cs != [] {
      var last := |cs| - 1;
      ProvidedExactly(cs[..last], h);
      GoingOneMore(cs, h);
      assert Handles(cs) == Handles(cs[..last]) + [cs[last].GetHandle()];
    }
  }

  lemma GoingOneMore(cs: seq<Composition>, h: Handle)
    requires cs != []
    ensures var last := |cs| - 1;
            |GoingBy(cs, h)| == |GoingBy(cs[..last], h)| + if GoesBy(cs[last], h) then 1 else 0
  {
    var last := |cs| - 1;
    assert GoingBy(cs, h) == GoingBy(cs[..last], h) + if GoesBy(cs[last], h) then {last} else {};
  }

  /** One composition goes by `h`, at place `i`. */
  lemma GoesByOnce(cs: seq<Composition>, h: Handle, i: nat)
    requires GoingBy(cs, h) == {i}
    ensures i < |cs| && Provided(Handles(cs), h) == 1 && Handles(cs)[i] == h && FirstOf(Handles(cs), h) == i
  {
    ProvidedExactly(cs, h);
    assert i in GoingBy(cs, h);
    ProvidedOnce(Handles(cs), h, i);
  }

  /** The handle table of `cs`: every handle stands for the first composition that goes by it. */
  ghost predicate TableOf(keeper: Keeper, cs: seq<Composition>) {
    forall h ::
      && (h in keeper.lookupHandlers <==> GoingBy(cs, h) != {})
      && (h in keeper.lookupHandlers ==> IsLeast(keeper.lookupHandlers[h], GoingBy(cs, h)))
      && (h in keeper.lookupCollisions <==> |GoingBy(cs, h)| >= 2)
  }

  predicate IsLeast(i: nat, places: set<nat>) {
    i in places && forall j :: j in places ==> i <= j
  }

  lemma TableFor(keeper: Keeper, cs: seq<Composition>)
    requires KeeperFor(keeper, Handles(cs))
    ensures TableOf(keeper, cs)
  {
    forall h
      ensures Provided(Handles(cs), h) == |GoingBy(cs, h)|
      ensures Provided(Handles(cs), h) >= 1 <==> GoingBy(cs, h) != {}
      ensures h in keeper.lookupHandlers ==> IsLeast(keeper.lookupHandlers[h], GoingBy(cs, h))
    {
      ProvidedExactly(cs, h);
      LeastIsFirst(keeper, cs, h);
    }
  }

  lemma LeastIsFirst(keeper: Keeper, cs: seq<Composition>, h: Handle)
    requires KeeperFor(keeper, Handles(cs))
    ensures h in keeper.lookupHandlers ==> IsLeast(keeper.lookupHandlers[h], GoingBy(cs, h))
  {
    forall j | j in GoingBy(cs, h)
      ensures Handles(cs)[j] == h
    {
    }
  }

  ghost predicate KeeperFor(keeper: Keeper, hs: seq<Handle>) {
    && (forall h :: h in keeper.lookupHandlers <==> Provided(hs, h) >= 1)
    && (forall h :: h in keeper.lookupHandlers ==>
          && keeper.lookupHandlers[h] < |hs| && hs[keeper.lookupHandlers[h]] == h
          && forall j :: 0 <= j < |hs| && hs[j] == h ==> keeper.lookupHandlers[h] <= j)
    && (forall h :: h in keeper.lookupCollisions <==> Provided(hs, h) >= 2)
  }

  method Bootstrap(compositions: seq<Composition>) returns (keeper: Keeper)
    ensures KeeperFor(keeper, Handles(compositions)) && TableOf(keeper, compositions)
  {
    var handlers: map<Handle, nat> := map[];
    var collisions: set<Handle> := {};
    ghost var hs := Handles(compositions);
    for i := 0 to |compositions|
      invariant KeeperFor(Keeper(collisions, handlers), hs[..i])
    {
      var handle := compositions[i].GetHandle();
      assert hs[..i + 1] == hs[..i] + [handle];
      assert handle !in handlers ==> handle !in hs[..i];
      if handle !in handlers {
        handlers := handlers[handle := i];
      } else {
        collisions := collisions + {handle};
      }
    }
    assert hs[..|compositions|] == hs;
    keeper := Keeper(collisions, handlers);
    TableFor(keeper, compositions);
  }

  lemma TwoPlaces(hs: seq<Handle>, h: Handle, i: nat, j: nat)
    requires i < j < |hs| && hs[i] == h && hs[j] == h
    ensures Provided(hs, h) >= 2
  {
    assert hs == hs[..j] + [hs[j]] + hs[j + 1..];
    assert hs[..j][i] == h;
  }

  function FirstOf(hs: seq<Handle>, h: Handle): (i: nat)
    requires h in hs
    ensures i < |hs| && hs[i] == h
  {
    if hs[0] == h then 0 else 1 + FirstOf(hs[1..], h)
  }

  /** A handle provided once stands for one position. */
  lemma ProvidedOnce(hs: seq<Handle>, h: Handle, i: nat)
    requires Provided(hs, h) == 1 && i < |hs| && hs[i] == h
    ensures FirstOf(hs, h) == i
    ensures forall j :: 0 <= j < |hs| && j != i ==> hs[j] != h
  {
    forall j: nat | j < |hs| && hs[j] == h
      ensures j == i
    {
      if i < j {
        TwoPlaces(hs, h, i, j);
      } else if j < i {
        TwoPlaces(hs, h, j, i);
      }
    }
  }

  // --- injecting container names --------------------------------------------------------------------------

  predicate Injectable(cs: seq<Composition>, injects: seq<(Handle, Text)>) {
    forall x :: x in injects ==> Provided(Handles(cs), x.0) == 1
  }

  function NameUnder(cs: seq<Composition>, h: Handle): Name
    requires Provided(Handles(cs), h) == 1
  {
    cs[FirstOf(Handles(cs), h)].containerName
  }

  /** The assignments, from left to right, that injecting makes to an environment. */
  function Assignments(cs: seq<Composition>, injects: seq<(Handle, Text)>): (r: seq<(Text, Name)>)
    requires Injectable(cs, injects)
    ensures |r| == |injects|
    ensures forall i :: 0 <= i < |r| ==> r[i] == (injects[i].1, NameUnder(cs, injects[i].0))
  {
    seq(|injects|, i requires 0 <= i < |injects| => (injects[i].1, NameUnder(cs, injects[i].0)))
  }

  function Overlay(env: map<Text, Text>, assignments: seq<(Text, Text)>): map<Text, Text> {
    if assignments == [] then env
    else
      var last := assignments[|assignments| - 1];
      Overlay(env, assignments[..|assignments| - 1])[last.0 := last.1]
  }

  /** A variable nothing is injected into keeps its value. */
  lemma {:induction false} OverlayKeeps(env: map<Text, Text>, assignments: seq<(Text, Text)>, v: Text)
    requires forall i :: 0 <= i < |assignments| ==> assignments[i].0 != v
    ensures v in Overlay(env, assignments) <==> v in env
    ensures v in env ==> Overlay(env, assignments)[v] == env[v]
  {
    if assignments != [] {
      OverlayKeeps(env, assignments[..|assignments| - 1], v);
    }
  }

  /** The last name injected into a variable counts. */
  lemma {:induction false} OverlayLast(env: map<Text, Text>, assignments: seq<(Text, Text)>, i: nat)
    requires i < |assignments|
    requires forall j :: i < j < |assignments| ==> assignments[j].0 != assignments[i].0
    ensures assignments[i].0 in Overlay(env, assignments)
    ensures Overlay(env, assignments)[assignments[i].0] == assignments[i].1
  {
    if i < |assignments| - 1 {
      OverlayLast(env, assignments[..|assignments| - 1], i);
    }
  }

  /** A composition with the names of others filled into its environment. */
  function InjectedAt(cs: seq<Composition>, i: nat): Composition
    requires i < |cs| && Injectable(cs, cs[i].injectContainerNameEnv)
  {
    cs[i].(env := Overlay(cs[i].env, Assignments(cs, cs[i].injectContainerNameEnv)))
  }

  function Injected(cs: seq<Composition>): (r: seq<Composition>)
    requires forall c :: c in cs ==> Injectable(cs, c.injectContainerNameEnv)
  {
    seq(|cs|, i requires 0 <= i < |cs| => assert cs[i] in cs; InjectedAt(cs, i))
  }

  /** What a composition reads of another's name: injecting changes environments only, and the last assignment to a
      variable gives it the final name of the one composition that goes by the handle. */
  lemma InjectedReads(cs: seq<Composition>, i: nat, j: nat, k: nat)
    requires forall c :: c in cs ==> Injectable(cs, c.injectContainerNameEnv)
    requires i < |cs| && j < |cs[i].injectContainerNameEnv|
    requires GoingBy(cs, cs[i].injectContainerNameEnv[j].0) == {k}
    requires forall l :: j < l < |cs[i].injectContainerNameEnv| ==>
               cs[i].injectContainerNameEnv[l].1 != cs[i].injectContainerNameEnv[j].1
    ensures k < |cs| && |Injected(cs)| == |cs| && Injected(cs)[i] == cs[i].(env := Injected(cs)[i].env)
    ensures var v := cs[i].injectContainerNameEnv[j].1;
            v in Injected(cs)[i].env && Injected(cs)[i].env[v] == cs[k].containerName
  {
    var injects := cs[i].injectContainerNameEnv;
    assert cs[i] in cs && Injected(cs)[i] == InjectedAt(cs, i);
    GoesByOnce(cs, injects[j].0, k);
    OverlayLast(cs[i].env, Assignments(cs, injects), j);
  }

  /** Nothing else changes: the other variables keep their values. */
  lemma InjectedKeeps(cs: seq<Composition>, i: nat, v: Text)
    requires forall c :: c in cs ==> Injectable(cs, c.injectContainerNameEnv)
    requires i < |cs| && forall j :: 0 <= j < |cs[i].injectContainerNameEnv| ==> cs[i].injectContainerNameEnv[j].1 != v
    ensures |Injected(cs)| == |cs|
    ensures v in Injected(cs)[i].env <==> v in cs[i].env
    ensures v in cs[i].env ==> Injected(cs)[i].env[v] == cs[i].env[v]
  {
    assert cs[i] in cs && Injected(cs)[i] == InjectedAt(cs, i);
    OverlayKeeps(cs[i].env, Assignments(cs, cs[i].injectContainerNameEnv), v);
  }

  /** The first name that cannot be injected decides the error. */
  ghost predicate RejectedAt(cs: seq<Composition>, injects: seq<(Handle, Text)>, j: nat, e: Error) {
    && j < |injects| && Injectable(cs, injects[..j])
    && var going := GoingBy(cs, injects[j].0);
       (going == {} && e == UNKNOWN_HANDLE) || (|going| >= 2 && e == DUPLICATE_HANDLE)
  }

  ghost predicate RejectedBy(cs: seq<Composition>, i: nat, e: Error) {
    && i < |cs| && (exists j :: RejectedAt(cs, cs[i].injectContainerNameEnv, j, e))
    && forall k :: 0 <= k < i ==> Injectable(cs, cs[k].injectContainerNameEnv)
  }

  const DUPLICATE_HANDLE := Startup("attempted to inject_container_name_env on duplicate handle")
  const UNKNOWN_HANDLE := Startup("attempted to inject_container_name_env on non-existent handle")

  /** The engine while it prepares compositions (its bootstrapping and fueling phases). */
  class Fueling {
    const keeper: Keeper
    var kept: seq<Composition>

    ghost predicate Valid()
      reads this
    {
      KeeperFor(keeper, Handles(kept))
    }

    constructor (compositions: seq<Composition>)
      ensures Valid() && kept == compositions
    {
      var table := Bootstrap(compositions);
      keeper := table;
      kept := compositions;
    }

    /** A static container gets the name it is asked for by; any other one gets a generated name. Nothing else
        changes. */
    method ResolveFinalContainerName(generated: seq<Name>)
      requires Valid() && |generated| == |kept|
      modifies this
      ensures Valid() && |kept| == |old(kept)| && Handles(kept) == Handles(old(kept))
      ensures forall i :: 0 <= i < |kept| ==>
                && kept[i] == old(kept)[i].(containerName := kept[i].containerName)
                && if kept[i].management.Some? then GoesBy(kept[i], kept[i].containerName)
                   else kept[i].containerName == generated[i]
    {
      var i := 0;
      while i < |kept|
        invariant i <= |kept| == |old(kept)|
        invariant forall k :: 0 <= k < |kept| ==>
                    kept[k] == if k < i then old(kept)[k].(containerName := if old(kept)[k].IsStatic()
                                                                            then old(kept)[k].GetHandle()
                                                                            else generated[k])
                               else old(kept)[k]
      {
        var c := kept[i];
        kept := kept[i := c.(containerName := if c.IsStatic() then c.GetHandle() else generated[i])];
        i := i + 1;
      }
      assert Handles(kept) == Handles(old(kept));
    }

    /** All or nothing: the environments change only if every handle resolves to one composition. */
    method ResolveInjectContainerNameEnv() returns (r: Outcome)
      requires Valid()
      modifies this
      ensures Valid()
      ensures r.Pass? <==> forall c :: c in old(kept) ==> Injectable(old(kept), c.injectContainerNameEnv)
      ensures r.Pass? ==> kept == Injected(old(kept))
      ensures r.Fail? ==> kept == old(kept) && exists i :: RejectedBy(kept, i, r.error)
    {
      var transforms: seq<seq<(Text, Name)>> := [];
      for i := 0 to |kept|
        invariant kept == old(kept) && |transforms| == i
        invariant forall k :: 0 <= k < i ==>
                    && Injectable(kept, kept[k].injectContainerNameEnv)
                    && transforms[k] == Assignments(kept, kept[k].injectContainerNameEnv)
      {
        var error, transformed := Transform(kept[i].injectContainerNameEnv);
        if error.Fail? {
          assert kept[i] in old(kept) && RejectedBy(kept, i, error.error);
          return error;
        }
        transforms := transforms + [transformed];
      }
      assert forall c :: c in kept ==> Injectable(kept, c.injectContainerNameEnv);
      ApplyAll(transforms);
      r := Pass;
    }

    method ApplyAll(transforms: seq<seq<(Text, Name)>>)
      requires Valid() && |transforms| == |kept|
      requires forall c :: c in kept ==> Injectable(kept, c.injectContainerNameEnv)
      requires forall k :: 0 <= k < |kept| ==> transforms[k] == Assignments(kept, kept[k].injectContainerNameEnv)
      modifies this
      ensures Valid() && kept == Injected(old(kept))
    {
      ghost var was := kept;
      for i := 0 to |kept|
        invariant |kept| == |was|
        invariant forall k :: 0 <= k < i ==> kept[k] == InjectedAt(was, k)
        invariant forall k :: i <= k < |kept| ==> kept[k] == was[k]
      {
        assert was[i] in was;
        var env := Apply(kept[i].env, transforms[i]);
        kept := kept[i := kept[i].(env := env)];
      }
      assert kept == Injected(was);
      assert Handles(kept) == Handles(was);
    }

    method Transform(injects: seq<(Handle, Text)>) returns (error: Outcome, transformed: seq<(Text, Name)>)
      requires Valid()
      ensures error.Pass? <==> Injectable(kept, injects)
      ensures error.Pass? ==> transformed == Assignments(kept, injects)
      ensures error.Fail? ==> exists j :: RejectedAt(kept, injects, j, error.error)
    {
      transformed := [];
      for j := 0 to |injects|
        invariant Injectable(kept, injects[..j]) && transformed == Assignments(kept, injects[..j])
      {
        var (handle, variable) := injects[j];
        assert injects[j] in injects && injects[..j + 1] == injects[..j] + [injects[j]];
        ProvidedExactly(kept, handle);
        if handle in keeper.lookupCollisions {
          assert RejectedAt(kept, injects, j, DUPLICATE_HANDLE);
          return Fail(DUPLICATE_HANDLE), [];
        }
        if handle !in keeper.lookupHandlers {
          assert RejectedAt(kept, injects, j, UNKNOWN_HANDLE);
          return Fail(UNKNOWN_HANDLE), [];
        }
        var index := keeper.lookupHandlers[handle];
        ProvidedOnce(Handles(kept), handle, index);
        transformed := transformed + [(variable, kept[index].containerName)];
      }
      assert injects[..|injects|] == injects;
      error := Pass;
    }
  }

  method Apply(env: map<Text, Text>, assignments: seq<(Text, Text)>) returns (r: map<Text, Text>)
    ensures r == Overlay(env, assignments)
  {
    r := env;
    for j := 0 to |assignments|
      invariant r == Overlay(env, assignments[..j])
    {
      assert assignments[..j + 1][..j] == assignments[..j];
      r := r[assignments[j].0 := assignments[j].1];
    }
    assert assignments[..|assignments|] == assignments;
  }
}
