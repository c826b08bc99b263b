/** Creating and starting the containers of one test. Started containers come back in an order of their own
    and overwrite, one by one, the list the handle table points into. */
module Launch {
  import opened Containers
  import opened Engine

  type StartResult = Result<OperationalContainer, Error>

  datatype Transitional =
    | Pending(pending: PendingContainer)
    | Running(running: OperationalContainer)
    | CreationFailure(error: Error)
    | FoundExternal(external: StaticExternal)
    | Sentinel
  {
    /** Whether a started container belongs in this place. */
    predicate Awaits(r: OperationalContainer) {
      match this
      case Pending(p) => p.id == r.id
      case FoundExternal(e) => e.handle == r.handle
      case _ => false
    }
  }

  // --- creation -----------------------------------------------------------------------------------------

  function Transit(r: Result<CreatedContainer, Error>): Transitional {
    match r
    case Failure(e) => CreationFailure(e)
    case Success(CreatedPending(p)) => Pending(p)
    case Success(CreatedExternal(e)) => FoundExternal(e)
  }

  /** What the creations returned, in the order of the compositions. */
  method Ignite(keeper: Keeper, created: seq<Result<CreatedContainer, Error>>) returns (engine: Igniting, ok: bool)
    ensures fresh(engine) && engine.keeper == keeper
    ensures |engine.kept| == |created| && forall i :: 0 <= i < |created| ==> engine.kept[i] == Transit(created[i])
    ensures ok <==> forall i :: 0 <= i < |created| ==> created[i].Success?
  {
    var kept: seq<Transitional> := [];
    ok := true;
    for i := 0 to |created|
      invariant |kept| == i && forall k :: 0 <= k < i ==> kept[k] == Transit(created[k])
      invariant ok <==> forall k :: 0 <= k < i ==> created[k].Success?
    {
      ok := ok && created[i].Success?;
      kept := kept + [Transit(created[i])];
    }
    engine := new Igniting(keeper, kept);
  }

  // --- starting -----------------------------------------------------------------------------------------

  type Start = (PendingContainer, StartResult)

  /** The pending containers with the given policy, in order, each with what starting it returns. */
  function Starts(kept: seq<Transitional>, results: seq<StartResult>, policy: StartPolicy): seq<Start>
    requires |results| == |kept|
  {
    if kept == [] then []
    else
      var last := |kept| - 1;
      var before := Starts(kept[..last], results[..last], policy);
      if kept[last].Pending? && kept[last].pending.startPolicy == policy then
        before + [(kept[last].pending, results[last])]
      else before
  }

  predicate AllSucceed(starts: seq<Start>) {
    forall k :: 0 <= k < |starts| ==> starts[k].1.Success?
  }

  function Values(starts: seq<Start>): (rs: seq<OperationalContainer>)
    requires AllSucceed(starts)
    ensures |rs| == |starts| && forall k :: 0 <= k < |rs| ==> rs[k] == starts[k].1.value
  {
    seq(|starts|, k requires 0 <= k < |starts| => starts[k].1.value)
  }

  /** The error of the first start that fails. */
  function FirstError(starts: seq<Start>): (e: Option<Error>)
    ensures e.None? <==> AllSucceed(starts)
  {
    if starts == [] then None
    else
      match starts[0].1
      case Failure(e) => Some(e)
      case Success(_) => FirstError(starts[1..])
  }

  lemma {:induction false} FirstErrorAt(starts: seq<Start>, k: nat)
    requires k < |starts| && AllSucceed(starts[..k]) && starts[k].1.Failure?
    ensures FirstError(starts) == Some(starts[k].1.error)
  {
    if k > 0 {
      assert forall j :: 0 <= j < k ==> starts[..k][j] == starts[j];
      assert starts[1..][..k - 1] == starts[..k][1..];
      FirstErrorAt(starts[1..], k - 1);
    }
  }

  /** One after the other, until one fails. `attempted` is how many were started at all. */
  method StartStrict(starts: seq<Start>) returns (r: Result<seq<OperationalContainer>, Error>, attempted: nat)
    ensures r.Success? <==> AllSucceed(starts)
    ensures r.Success? ==> attempted == |starts| && r.value == Values(starts)
    ensures r.Failure? ==> && 0 < attempted <= |starts| && AllSucceed(starts[..attempted - 1])
                           && starts[attempted - 1].1 == Failure(r.error) && FirstError(starts) == Some(r.error)
  {
    var running: seq<OperationalContainer> := [];
    var firstError: Option<Error> := None;
    attempted := 0;
    while attempted < |starts|
      invariant attempted <= |starts| && firstError.None?
      invariant AllSucceed(starts[..attempted]) && running == Values(starts[..attempted])
    {
      var result := starts[attempted].1;
      attempted := attempted + 1;
      assert starts[..attempted] == starts[..attempted - 1] + [starts[attempted - 1]];
      match result {
        case Success(c) => running := running + [c];
        case Failure(e) =>
          FirstErrorAt(starts, attempted - 1);
          firstError := Some(e);
          break;
      }
    }
    match firstError {
      case Some(e) => r := Failure(e);
      case None =>
        assert starts[..|starts|] == starts;
        r := Success(running);
    }
  }

  /** All of them are awaited; the first error is reported. */
  method WaitForRelaxed(starts: seq<Start>) returns (r: Result<seq<OperationalContainer>, Error>)
    ensures r.Success? <==> AllSucceed(starts)
    ensures r.Success? ==> r.value == Values(starts)
    ensures r.Failure? ==> FirstError(starts) == Some(r.error)
  {
    var running: seq<OperationalContainer> := [];
    var firstError: Option<Error> := None;
    for k := 0 to |starts|
      invariant firstError.None? ==> AllSucceed(starts[..k]) && running == Values(starts[..k])
      invariant firstError.Some? ==> FirstError(starts) == firstError
    {
      assert starts[..k + 1] == starts[..k] + [starts[k]];
      match starts[k].1 {
        case Success(c) => running := running + [c];
        case Failure(e) =>
          if firstError.None? {
            FirstErrorAt(starts, k);
            firstError := Some(e);
          }
      }
    }
    assert starts[..|starts|] == starts;
    r := if firstError.Some? then Failure(firstError.value) else Success(running);
  }

  /** A started container takes the first place that awaits it; without such a place it is dropped. */
  function PlaceOne(kept: seq<Transitional>, r: OperationalContainer): (kept': seq<Transitional>)
    ensures |kept'| == |kept|
  {
    if kept == [] then []
    else if kept[0].Awaits(r) then [Running(r)] + kept[1..]
    else [kept[0]] + PlaceOne(kept[1..], r)
  }

  function Placed(kept: seq<Transitional>, started: seq<OperationalContainer>): (kept': seq<Transitional>)
    ensures |kept'| == |kept|
  {
    if started == [] then kept
    else PlaceOne(Placed(kept, started[..|started| - 1]), started[|started| - 1])
  }

  lemma {:induction false} PlaceOneAt(kept: seq<Transitional>, r: OperationalContainer, i: nat)
    requires i < |kept| && kept[i].Awaits(r) && forall j :: 0 <= j < i ==> !kept[j].Awaits(r)
    ensures PlaceOne(kept, r) == kept[i := Running(r)]
  {
    if i > 0 {
      PlaceOneAt(kept[1..], r, i - 1);
      assert kept == [kept[0]] + kept[1..];
    }
  }

  lemma {:induction false} PlaceOneNowhere(kept: seq<Transitional>, r: OperationalContainer)
    requires forall j :: 0 <= j < |kept| ==> !kept[j].Awaits(r)
    ensures PlaceOne(kept, r) == kept
  {
    if kept != [] {
      PlaceOneNowhere(kept[1..], r);
      assert kept == [kept[0]] + kept[1..];
    }
  }

  class Igniting {
    const keeper: Keeper
    var kept: seq<Transitional>

    constructor (keeper: Keeper, kept: seq<Transitional>)
      ensures this.keeper == keeper && this.kept == kept
    {
      this.keeper := keeper;
      this.kept := kept;
    }

    /** `results`: what starting the container at each position returns; `externals`: the containers found
        by any test, in any order. */
    method StartContainers(results: seq<StartResult>, externals: seq<OperationalContainer>) returns (r: Outcome)
      requires |results| == |kept|
      modifies this
      ensures match StartPhase(old(kept), results)
              case Success(started) => r == Pass && kept == Placed(old(kept), started + externals)
              case Failure(e) => r == Fail(e) && kept == old(kept)
    {
      var relaxed, strict := Partition(results);
      var strictSuccess, _ := StartStrict(strict);
      if strictSuccess.Failure? {
        return Fail(strictSuccess.error);
      }
      var relaxedSuccess := WaitForRelaxed(relaxed);
      if relaxedSuccess.Failure? {
        return Fail(relaxedSuccess.error);
      }
      Place(strictSuccess.value + relaxedSuccess.value + externals);
      r := Pass;
    }

    method Partition(results: seq<StartResult>) returns (relaxed: seq<Start>, strict: seq<Start>)
      requires |results| == |kept|
      ensures relaxed == Starts(kept, results, Relaxed) && strict == Starts(kept, results, Strict)
    {
      relaxed, strict := [], [];
      for i := 0 to |kept|
        invariant relaxed == Starts(kept[..i], results[..i], Relaxed)
        invariant strict == Starts(kept[..i], results[..i], Strict)
      {
        assert kept[..i + 1][..i] == kept[..i] && results[..i + 1][..i] == results[..i];
        if kept[i].Pending? {
          if kept[i].pending.startPolicy == Relaxed {
            relaxed := relaxed + [(kept[i].pending, results[i])];
          } else {
            strict := strict + [(kept[i].pending, results[i])];
          }
        }
      }
      assert kept[..|kept|] == kept && results[..|kept|] == results;
    }

    method Place(containers: seq<OperationalContainer>)
      modifies this
      ensures kept == Placed(old(kept), containers)
    {
      for k := 0 to |containers|
        invariant kept == Placed(old(kept), containers[..k])
      {
        assert containers[..k + 1][..k] == containers[..k];
        var started := containers[k];
        var position := Position(started);
        if position.None? {
          PlaceOneNowhere(kept, started);
          continue;
        }
        PlaceOneAt(kept, started, position.value);
        var current := kept[position.value];
        kept := kept[position.value := Sentinel];
        match current {
          case Pending(_) => kept := kept[position.value := Running(started)];
          case FoundExternal(_) => kept := kept[position.value := Running(started)];
          case Running(_) => continue;
          case CreationFailure(_) => continue;
          case Sentinel => continue;
        }
      }
      assert containers[..|containers|] == containers;
    }

    method Position(started: OperationalContainer) returns (position: Option<nat>)
      ensures position.None? ==> forall j :: 0 <= j < |kept| ==> !kept[j].Awaits(started)
      ensures position.Some? ==> && position.value < |kept| && kept[position.value].Awaits(started)
                                 && forall j :: 0 <= j < position.value ==> !kept[j].Awaits(started)
    {
      for i := 0 to |kept|
        invariant forall j :: 0 <= j < i ==> !kept[j].Awaits(started)
      {
        if kept[i].Awaits(started) {
          return Some(i);
        }
      }
      position := None;
    }
  }

  /** What starting gives, read one after the other: all containers, or the error of the first strict start that
      fails, or else of the first relaxed one. */
  function StartPhase(kept: seq<Transitional>, results: seq<StartResult>)
    : (r: Result<seq<OperationalContainer>, Error>)
    requires |results| == |kept|
  {
    match (FirstError(Starts(kept, results, Strict)), FirstError(Starts(kept, results, Relaxed)))
    case (Some(e), _) => Failure(e)
    case (None, Some(e)) => Failure(e)
    case (None, None) => Success(Started(kept, results))
  }

  /** Everything that was started, strict containers first. */
  function Started(kept: seq<Transitional>, results: seq<StartResult>): seq<OperationalContainer>
    requires |results| == |kept|
    requires AllSucceed(Starts(kept, results, Strict)) && AllSucceed(Starts(kept, results, Relaxed))
  {
    Values(Starts(kept, results, Strict)) + Values(Starts(kept, results, Relaxed))
  }

  // --- what placing keeps ---------------------------------------------------------------------------------

  /** A place keeps what it held, or holds a started container it awaited. */
  lemma {:induction false} PlaceEvolves(kept: seq<Transitional>, r: OperationalContainer, i: nat)
    requires i < |kept|
    ensures PlaceOne(kept, r)[i] == kept[i] || (kept[i].Awaits(r) && PlaceOne(kept, r)[i] == Running(r))
  {
    if !kept[0].Awaits(r) && i > 0 {
      PlaceEvolves(kept[1..], r, i - 1);
    }
  }

  lemma {:induction false} PlacedEvolves(kept: seq<Transitional>, started: seq<OperationalContainer>, i: nat)
    requires i < |kept|
    ensures Placed(kept, started)[i] == kept[i]
         || exists k :: 0 <= k < |started| && kept[i].Awaits(started[k])
                        && Placed(kept, started)[i] == Running(started[k])
  {
    if started != [] {
      var last := |started| - 1;
      PlacedEvolves(kept, started[..last], i);
      PlaceEvolves(Placed(kept, started[..last]), started[last], i);
      if Placed(kept, started[..last])[i] != kept[i] {
        var k :| 0 <= k < last && kept[i].Awaits(started[..last][k])
              && Placed(kept, started[..last])[i] == Running(started[..last][k]);
        assert started[k] == started[..last][k];
      }
    }
  }

  /** Who awaits a container that nobody else awaits gets one it awaited. */
  lemma {:induction false} SlotFilled(kept: seq<Transitional>, started: seq<OperationalContainer>, i: nat, k: nat)
    requires i < |kept| && k < |started| && kept[i].Awaits(started[k])
    requires forall j :: 0 <= j < |kept| && j != i ==> !kept[j].Awaits(started[k])
    ensures exists m :: 0 <= m < |started| && kept[i].Awaits(started[m])
                        && Placed(kept, started)[i] == Running(started[m])
  {
    var last := |started| - 1;
    var before := Placed(kept, started[..last]);
    PlacedEvolves(kept, started, i);
    if k < last {
      SlotFilled(kept, started[..last], i, k);
      PlaceEvolves(before, started[last], i);
    } else {
      forall j | 0 <= j < |kept| && j != i
        ensures !before[j].Awaits(started[k])
      {
        PlacedEvolves(kept, started[..last], j);
      }
      PlacedEvolves(kept, started[..last], i);
      if before[i] == kept[i] {
        PlaceOneAt(before, started[k], i);
      } else {
        PlaceEvolves(before, started[last], i);
      }
    }
  }

  predicate Waiting(kept: seq<Transitional>, id: Id) {
    exists i :: 0 <= i < |kept| && kept[i].Pending? && kept[i].pending.id == id
  }

  predicate Covered(kept: seq<Transitional>, id: Id) {
    exists i :: 0 <= i < |kept| && kept[i].Running? && kept[i].running.id == id
  }

  lemma PlaceOneCovers(kept: seq<Transitional>, r: OperationalContainer, id: Id)
    requires Waiting(kept, id) || Covered(kept, id)
    ensures Waiting(PlaceOne(kept, r), id) || Covered(PlaceOne(kept, r), id)
    ensures r.id == id || Covered(kept, id) ==> Covered(PlaceOne(kept, r), id)
  {
    var kept' := PlaceOne(kept, r);
    if Covered(kept, id) {
      var i :| 0 <= i < |kept| && kept[i].Running? && kept[i].running.id == id;
      PlaceEvolves(kept, r, i);
      assert kept'[i].running.id == id;
    } else {
      var i :| 0 <= i < |kept| && kept[i].Pending? && kept[i].pending.id == id;
      PlaceEvolves(kept, r, i);
      if kept'[i] == kept[i] {
        assert Waiting(kept', id);
      } else {
        assert kept'[i] == Running(r);
      }
      if r.id == id {
        var first := FirstAwaiting(kept, r, i);
        PlaceOneAt(kept, r, first);
        assert kept'[first] == Running(r);
      }
    }
  }

  lemma FirstAwaiting(kept: seq<Transitional>, r: OperationalContainer, i: nat) returns (first: nat)
    requires i < |kept| && kept[i].Awaits(r)
    ensures first <= i && kept[first].Awaits(r) && forall j :: 0 <= j < first ==> !kept[j].Awaits(r)
  {
    first := 0;
    while !kept[first].Awaits(r)
      invariant first <= i && forall j :: 0 <= j < first ==> !kept[j].Awaits(r)
      decreases i - first
    {
      first := first + 1;
    }
  }

  /** Every id that was pending and got started appears as running, even when handles collide. */
  lemma {:induction false} Conservation(kept: seq<Transitional>, started: seq<OperationalContainer>, id: Id)
    requires Waiting(kept, id)
    ensures Waiting(Placed(kept, started), id) || Covered(Placed(kept, started), id)
    ensures (exists r :: r in started && r.id == id) ==> Covered(Placed(kept, started), id)
  {
    if started != [] {
      var last := |started| - 1;
      Conservation(kept, started[..last], id);
      PlaceOneCovers(Placed(kept, started[..last]), started[last], id);
      if exists r :: r in started && r.id == id {
        var r :| r in started && r.id == id;
        if r != started[last] {
          assert r in started[..last];
        }
      }
    }
  }

  /** No place is lost or left blank, and nothing but started containers comes in. */
  lemma NothingBlank(kept: seq<Transitional>, started: seq<OperationalContainer>)
    requires forall i :: 0 <= i < |kept| ==> !kept[i].Sentinel?
    ensures |Placed(kept, started)| == |kept|
    ensures forall i :: 0 <= i < |kept| ==> !Placed(kept, started)[i].Sentinel?
  {
    forall i | 0 <= i < |kept|
      ensures !Placed(kept, started)[i].Sentinel?
    {
      PlacedEvolves(kept, started, i);
    }
  }

  /** What is started are exactly the pending containers. */
  lemma {:induction false} StartsAreThePending(kept: seq<Transitional>, results: seq<StartResult>, policy: StartPolicy)
    requires |results| == |kept|
    ensures forall i :: 0 <= i < |kept| && kept[i].Pending? && kept[i].pending.startPolicy == policy ==>
              (kept[i].pending, results[i]) in Starts(kept, results, policy)
    ensures forall s :: s in Starts(kept, results, policy) ==>
              exists i :: 0 <= i < |kept| && kept[i] == Pending(s.0) && results[i] == s.1 && s.0.startPolicy == policy
  {
    if kept != [] {
      var last := |kept| - 1;
      StartsAreThePending(kept[..last], results[..last], policy);
      var before := Starts(kept[..last], results[..last], policy);
      forall s | s in before
        ensures exists i :: 0 <= i < |kept| && kept[i] == Pending(s.0) && results[i] == s.1 && s.0.startPolicy == policy
      {
        var i :| 0 <= i < last && kept[..last][i] == Pending(s.0) && results[..last][i] == s.1
              && s.0.startPolicy == policy;
        assert kept[i] == Pending(s.0) && results[i] == s.1;
      }
      forall i | 0 <= i < |kept| && kept[i].Pending? && kept[i].pending.startPolicy == policy
        ensures (kept[i].pending, results[i]) in Starts(kept, results, policy)
      {
        if i < last {
          assert kept[..last][i] == kept[i] && results[..last][i] == results[i];
        }
      }
    }
  }

  /** The places of the pending containers with the given policy, in order. */
  function PlacesOf(kept: seq<Transitional>, policy: StartPolicy): (places: seq<nat>)
    ensures forall a :: 0 <= a < |places| ==> places[a] < |kept|
  {
    if kept == [] then []
    else
      var last := |kept| - 1;
      var before := PlacesOf(kept[..last], policy);
      if kept[last].Pending? && kept[last].pending.startPolicy == policy then before + [last] else before
  }

  lemma {:induction false} StartsByPlace(kept: seq<Transitional>, results: seq<StartResult>, policy: StartPolicy)
    requires |results| == |kept|
    ensures var (starts, places) := (Starts(kept, results, policy), PlacesOf(kept, policy));
            && |starts| == |places|
            && (forall a :: 0 <= a < |places| ==>
                  && places[a] < |kept| && kept[places[a]].Pending? && kept[places[a]].pending.startPolicy == policy
                  && starts[a] == (kept[places[a]].pending, results[places[a]]))
            && (forall a, b :: 0 <= a < b < |places| ==> places[a] < places[b])
            && (forall i :: 0 <= i < |kept| && kept[i].Pending? && kept[i].pending.startPolicy == policy ==>
                  i in places)
  {
    if kept != [] {
      StartsByPlace(kept[..|kept| - 1], results[..|kept| - 1], policy);
    }
  }

  /** The start phase succeeds exactly when every start does. */
  lemma SucceedsExactly(kept: seq<Transitional>, results: seq<StartResult>)
    requires |results| == |kept|
    ensures (AllSucceed(Starts(kept, results, Strict)) && AllSucceed(Starts(kept, results, Relaxed)))
       <==> forall i :: 0 <= i < |kept| && kept[i].Pending? ==> results[i].Success?
    ensures StartPhase(kept, results).Success?
       <==> forall i :: 0 <= i < |kept| && kept[i].Pending? ==> results[i].Success?
  {
    StartsAreThePending(kept, results, Strict);
    StartsAreThePending(kept, results, Relaxed);
    var strict, relaxed := Starts(kept, results, Strict), Starts(kept, results, Relaxed);
    if AllSucceed(strict) && AllSucceed(relaxed) {
      forall i | 0 <= i < |kept| && kept[i].Pending?
        ensures results[i].Success?
      {
        assert (kept[i].pending, results[i]) in strict || (kept[i].pending, results[i]) in relaxed;
      }
    }
    if forall i :: 0 <= i < |kept| && kept[i].Pending? ==> results[i].Success? {
      assert forall k :: 0 <= k < |strict| ==> strict[k] in strict;
      assert forall k :: 0 <= k < |relaxed| ==> relaxed[k] in relaxed;
    }
  }

  lemma StartedExactly(kept: seq<Transitional>, results: seq<StartResult>)
    requires |results| == |kept|
    requires AllSucceed(Starts(kept, results, Strict)) && AllSucceed(Starts(kept, results, Relaxed))
    ensures forall i :: 0 <= i < |kept| && kept[i].Pending? ==>
              results[i].Success? && results[i].value in Started(kept, results)
    ensures forall r :: r in Started(kept, results) ==>
              exists i :: 0 <= i < |kept| && kept[i].Pending? && results[i] == Success(r)
  {
    StartsAreThePending(kept, results, Strict);
    StartsAreThePending(kept, results, Relaxed);
    SucceedsExactly(kept, results);
    var strict, relaxed := Starts(kept, results, Strict), Starts(kept, results, Relaxed);
    forall i | 0 <= i < |kept| && kept[i].Pending?
      ensures results[i].value in Started(kept, results)
    {
      var s := (kept[i].pending, results[i]);
      if s in strict {
        var k :| 0 <= k < |strict| && strict[k] == s;
        assert Values(strict)[k] == results[i].value;
      } else {
        var k :| 0 <= k < |relaxed| && relaxed[k] == s;
        assert Values(relaxed)[k] == results[i].value;
      }
    }
    forall r | r in Started(kept, results)
      ensures exists i :: 0 <= i < |kept| && kept[i].Pending? && results[i] == Success(r)
    {
      if r in Values(strict) {
        var k :| 0 <= k < |strict| && Values(strict)[k] == r;
        assert strict[k] in strict;
      } else {
        var k :| 0 <= k < |relaxed| && Values(relaxed)[k] == r;
        assert relaxed[k] in relaxed;
      }
    }
  }

  /** What was started, place by place, strict containers first. */
  function StartedPlaces(kept: seq<Transitional>): (places: seq<nat>)
    ensures forall a :: 0 <= a < |places| ==> places[a] < |kept|
  {
    PlacesOf(kept, Strict) + PlacesOf(kept, Relaxed)
  }

  /** Each pending container was started once. */
  lemma StartedByPlace(kept: seq<Transitional>, results: seq<StartResult>)
    requires |results| == |kept|
    requires AllSucceed(Starts(kept, results, Strict)) && AllSucceed(Starts(kept, results, Relaxed))
    ensures var (started, places) := (Started(kept, results), StartedPlaces(kept));
            && |started| == |places|
            && (forall a :: 0 <= a < |places| ==>
                  places[a] < |kept| && kept[places[a]].Pending? && results[places[a]] == Success(started[a]))
            && (forall a, b :: 0 <= a < b < |places| ==> places[a] != places[b])
            && (forall i :: 0 <= i < |kept| && kept[i].Pending? ==> i in places)
  {
    StartsByPlace(kept, results, Strict);
    StartsByPlace(kept, results, Relaxed);
  }

  lemma {:induction false} PlacedInTurn(kept: seq<Transitional>, started: seq<OperationalContainer>,
                                        later: seq<OperationalContainer>)
    ensures Placed(kept, started + later) == Placed(Placed(kept, started), later)
  {
    if later == [] {
      assert started + later == started;
    } else {
      var last := |later| - 1;
      assert (started + later)[..|started + later| - 1] == started + later[..last];
      PlacedInTurn(kept, started, later[..last]);
    }
  }

  /** A place that was filled stays as it is. */
  lemma FilledStays(kept: seq<Transitional>, started: seq<OperationalContainer>, i: nat)
    requires i < |kept| && kept[i].Running?
    ensures Placed(kept, started)[i] == kept[i]
  {
    PlacedEvolves(kept, started, i);
  }
}
