/** Starting the containers of one test, with all interleavings: the relaxed containers are started by tasks of
    their own, the strict ones one after the other, and the caller may return while relaxed tasks still run. */
module StartOrder {
  import opened Containers
  import opened Launch

  datatype Task = Waiting | Busy | Done(result: StartResult)

  /** A start is identified by its policy and its place among the containers with that policy. */
  datatype Event =
    | Began(policy: StartPolicy, place: nat)
    | Ended(policy: StartPolicy, place: nat, result: StartResult)

  /** `strict`: how the strict starts that ended did end; `busy`: another one is under way. */
  datatype State = State(
    strict: seq<StartResult>,
    busy: bool,
    relaxed: seq<Task>,
    returned: Option<Result<seq<OperationalContainer>, Error>>,
    log: seq<Event>)

  datatype Step =
    | BeginStrict
    | EndStrict(result: StartResult)
    | BeginRelaxed(k: nat)
    | EndRelaxed(k: nat, result: StartResult)
    | Return

  function Init(m: nat): State {
    State([], false, seq(m, _ => Waiting), None, [])
  }

  predicate AllSuccess(results: seq<StartResult>) {
    forall i :: 0 <= i < |results| ==> results[i].Success?
  }

  predicate AllDone(tasks: seq<Task>) {
    forall k :: 0 <= k < |tasks| ==> tasks[k].Done?
  }

  function Results(tasks: seq<Task>): (rs: seq<StartResult>)
    requires AllDone(tasks)
    ensures |rs| == |tasks| && forall k :: 0 <= k < |rs| ==> rs[k] == tasks[k].result
  {
    seq(|tasks|, k requires 0 <= k < |tasks| => tasks[k].result)
  }

  /** `n` strict containers are to be started. */
  predicate Enabled(n: nat, s: State, step: Step) {
    match step
    case BeginStrict => s.returned.None? && !s.busy && |s.strict| < n && AllSuccess(s.strict)
    case EndStrict(_) => s.busy
    case BeginRelaxed(k) => k < |s.relaxed| && s.relaxed[k].Waiting?
    case EndRelaxed(k, _) => k < |s.relaxed| && s.relaxed[k].Busy?
    case Return =>
      && s.returned.None? && !s.busy
      && (!AllSuccess(s.strict) || (|s.strict| == n && AllDone(s.relaxed)))
  }

  /** The values of a list of results, or its first error. */
  function Gather(results: seq<StartResult>): Result<seq<OperationalContainer>, Error> {
    if results == [] then Success([])
    else
      match results[0]
      case Failure(e) => Failure(e)
      case Success(r) =>
        match Gather(results[1..])
        case Failure(e) => Failure(e)
        case Success(rs) => Success([r] + rs)
  }

  function Next(n: nat, s: State, step: Step): State
    requires Enabled(n, s, step)
  {
    match step
    case BeginStrict => s.(busy := true, log := s.log + [Began(Strict, |s.strict|)])
    case EndStrict(r) => s.(busy := false, strict := s.strict + [r], log := s.log + [Ended(Strict, |s.strict|, r)])
    case BeginRelaxed(k) => s.(relaxed := s.relaxed[k := Busy], log := s.log + [Began(Relaxed, k)])
    case EndRelaxed(k, r) => s.(relaxed := s.relaxed[k := Done(r)], log := s.log + [Ended(Relaxed, k, r)])
    case Return =>
      s.(returned := Some(if AllSuccess(s.strict) then Gather(s.strict + Results(s.relaxed)) else Gather(s.strict)))
  }

  /** The state after a sequence of steps, each possible when its turn comes. */
  function Execute(n: nat, m: nat, steps: seq<Step>): Option<State> {
    if steps == [] then Some(Init(m))
    else
      var before := Execute(n, m, steps[..|steps| - 1]);
      var step := steps[|steps| - 1];
      if before.Some? && Enabled(n, before.value, step) then Some(Next(n, before.value, step)) else None
  }

  // --- what every step keeps --------------------------------------------------------------------------------

  /** The strict start at place `j` ended well before position `a` of the log. */
  predicate EndedWell(log: seq<Event>, a: nat, j: nat) {
    exists b :: 0 <= b < a && b < |log| && log[b].Ended? && log[b].policy == Strict && log[b].place == j
                && log[b].result.Success?
  }

  /** An event of the log is what it says, and comes after all it must come after. */
  ghost predicate Sound(s: State, a: nat)
    requires a < |s.log|
  {
    match s.log[a]
    case Began(Strict, i) =>
      && i < |s.strict| + (if s.busy then 1 else 0)
      && forall j: nat :: j < i ==> EndedWell(s.log, a, j)
    case Ended(Strict, i, r) => i < |s.strict| && s.strict[i] == r
    case Began(Relaxed, k) => k < |s.relaxed| && !s.relaxed[k].Waiting?
    case Ended(Relaxed, k, r) => k < |s.relaxed| && s.relaxed[k] == Done(r)
  }

  ghost predicate Logged(n: nat, s: State) {
    && |s.strict| + (if s.busy then 1 else 0) <= n
    && (forall i :: 0 <= i < |s.strict| - 1 ==> s.strict[i].Success?)
    && (s.busy ==> AllSuccess(s.strict))
    && (forall i: nat :: i < |s.strict| + (if s.busy then 1 else 0) ==> Began(Strict, i) in s.log)
    && (forall i: nat :: i < |s.strict| ==> Ended(Strict, i, s.strict[i]) in s.log)
    && (forall k: nat :: k < |s.relaxed| && !s.relaxed[k].Waiting? ==> Began(Relaxed, k) in s.log)
  }

  ghost predicate Inv(n: nat, m: nat, s: State) {
    && |s.relaxed| == m
    && Logged(n, s)
    && (forall a: nat {:trigger Sound(s, a)} :: a < |s.log| ==> Sound(s, a))
    && (s.returned.Some? ==>
          && !s.busy
          && if AllSuccess(s.strict) then
               |s.strict| == n && AllDone(s.relaxed) && s.returned.value == Gather(s.strict + Results(s.relaxed))
             else s.returned.value == Gather(s.strict))
  }

  lemma EndedWellLonger(log: seq<Event>, e: Event, a: nat, j: nat)
    requires a <= |log|
    ensures EndedWell(log + [e], a, j) <==> EndedWell(log, a, j)
  {
    if EndedWell(log, a, j) {
      var b :| 0 <= b < a && b < |log| && log[b].Ended? && log[b].policy == Strict && log[b].place == j
            && log[b].result.Success?;
      assert (log + [e])[b] == log[b];
    }
  }

  lemma AllEndedWell(n: nat, s: State, j: nat)
    requires Logged(n, s) && AllSuccess(s.strict) && j < |s.strict|
    ensures EndedWell(s.log, |s.log|, j)
  {
    var e := Ended(Strict, j, s.strict[j]);
    assert e in s.log;
    var b :| 0 <= b < |s.log| && s.log[b] == e;
  }

  lemma InvNext(n: nat, m: nat, s: State, step: Step)
    requires Inv(n, m, s) && Enabled(n, s, step)
    ensures Inv(n, m, Next(n, s, step))
  {
    var s' := Next(n, s, step);
    forall a: nat | a < |s'.log|
      ensures Sound(s', a)
    {
      if a < |s.log| {
        assert Sound(s, a) && s'.log[a] == s.log[a];
        if !step.Return? {
          forall j: nat
            ensures EndedWell(s'.log, a, j) <==> EndedWell(s.log, a, j)
          {
            EndedWellLonger(s.log, s'.log[|s.log|], a, j);
          }
        }
      } else if step.BeginStrict? {
        forall j: nat | j < |s.strict|
          ensures EndedWell(s'.log, a, j)
        {
          AllEndedWell(n, s, j);
          EndedWellLonger(s.log, s'.log[|s.log|], a, j);
        }
      }
    }
    LoggedNext(n, s, step);
  }

  lemma LoggedNext(n: nat, s: State, step: Step)
    requires Logged(n, s) && Enabled(n, s, step)
    ensures Logged(n, Next(n, s, step))
  {
    var s' := Next(n, s, step);
    assert s'.log == s.log || s'.log == s.log + [s'.log[|s.log|]];
    if step.EndStrict? {
      assert s'.log[|s.log|] in s'.log;
    }
  }

  lemma {:induction false} InvExecute(n: nat, m: nat, steps: seq<Step>)
    ensures Execute(n, m, steps).Some? ==> Inv(n, m, Execute(n, m, steps).value)
  {
    if steps != [] && Execute(n, m, steps).Some? {
      var before := steps[..|steps| - 1];
      InvExecute(n, m, before);
      InvNext(n, m, Execute(n, m, before).value, steps[|steps| - 1]);
    }
  }

  // --- theorems ---------------------------------------------------------------------------------------------

  /** In every interleaving a strict container is started only after every earlier strict one started well. */
  lemma StrictInOrder(n: nat, m: nat, steps: seq<Step>, s: State, a: nat, i: nat, j: nat)
    requires Execute(n, m, steps) == Some(s)
    requires a < |s.log| && s.log[a] == Began(Strict, i) && j < i
    ensures EndedWell(s.log, a, j)
  {
    InvExecute(n, m, steps);
    assert Sound(s, a);
  }

  /** The strict containers attempted are a prefix, all of which started well but perhaps the last. */
  lemma AttemptedIsPrefix(n: nat, m: nat, steps: seq<Step>, s: State) returns (attempted: nat)
    requires Execute(n, m, steps) == Some(s)
    ensures attempted <= n && forall i: nat :: Began(Strict, i) in s.log <==> i < attempted
    ensures forall i: nat :: i + 1 < attempted ==> EndedWell(s.log, |s.log|, i)
    ensures forall i: nat, r :: Ended(Strict, i, r) in s.log && r.Failure? ==> i + 1 == attempted
  {
    InvExecute(n, m, steps);
    attempted := |s.strict| + if s.busy then 1 else 0;
    forall i: nat | Began(Strict, i) in s.log
      ensures i < attempted
    {
      var a :| 0 <= a < |s.log| && s.log[a] == Began(Strict, i);
      assert Sound(s, a);
    }
    forall i: nat | i + 1 < attempted
      ensures EndedWell(s.log, |s.log|, i)
    {
      assert Began(Strict, i + 1) in s.log;
      var a :| 0 <= a < |s.log| && s.log[a] == Began(Strict, i + 1);
      assert Sound(s, a) && EndedWell(s.log, a, i);
      var b :| 0 <= b < a && b < |s.log| && s.log[b].Ended? && s.log[b].policy == Strict && s.log[b].place == i
            && s.log[b].result.Success?;
      assert b < |s.log|;
    }
    forall i: nat, r | Ended(Strict, i, r) in s.log && r.Failure?
      ensures i + 1 == attempted
    {
      var a :| 0 <= a < |s.log| && s.log[a] == Ended(Strict, i, r);
      assert Sound(s, a);
    }
  }

  lemma {:induction false} GatherExactly(results: seq<StartResult>)
    ensures Gather(results).Success? <==> AllSuccess(results)
    ensures AllSuccess(results) ==>
              && |Gather(results).value| == |results|
              && forall i :: 0 <= i < |results| ==> results[i] == Success(Gather(results).value[i])
    ensures !AllSuccess(results) ==>
              exists i :: 0 <= i < |results| && AllSuccess(results[..i]) && results[i] == Failure(Gather(results).error)
  {
    if results != [] {
      GatherExactly(results[1..]);
      assert forall i :: 0 <= i < |results| - 1 ==> results[1..][i] == results[i + 1];
      if results[0].Success? && !AllSuccess(results[1..]) {
        var i :| 0 <= i < |results| - 1 && AllSuccess(results[1..][..i])
              && results[1..][i] == Failure(Gather(results[1..]).error);
        assert forall k :: 0 < k < i + 1 ==> results[k] == results[1..][..i][k - 1];
        assert AllSuccess(results[..i + 1]) && results[i + 1] == Failure(Gather(results).error);
      } else if results[0].Failure? {
        assert AllSuccess(results[..0]);
      }
    }
  }

  lemma GatherSucceeds(strict: seq<StartResult>, relaxed: seq<StartResult>)
    requires AllSuccess(strict) && AllSuccess(relaxed)
    ensures Gather(strict + relaxed).Success?
    ensures var all := Gather(strict + relaxed).value;
            && |all| == |strict| + |relaxed|
            && (forall i :: 0 <= i < |strict| ==> strict[i] == Success(all[i]))
            && (forall k :: 0 <= k < |relaxed| ==> relaxed[k] == Success(all[|strict| + k]))
  {
    var all := strict + relaxed;
    GatherExactly(all);
    forall k | 0 <= k < |relaxed|
      ensures relaxed[k] == Success(Gather(all).value[|strict| + k])
    {
      assert all[|strict| + k] == relaxed[k];
    }
  }

  lemma {:induction false} GatherFails(strict: seq<StartResult>, relaxed: seq<StartResult>)
    requires AllSuccess(strict) && !AllSuccess(relaxed)
    ensures Gather(strict + relaxed).Failure?
    ensures exists k :: FirstFailure(relaxed, k, Gather(strict + relaxed).error)
  {
    if strict == [] {
      assert strict + relaxed == relaxed;
      GatherExactly(relaxed);
      var i :| 0 <= i < |relaxed| && AllSuccess(relaxed[..i]) && relaxed[i] == Failure(Gather(relaxed).error);
      assert FirstFailure(relaxed, i, Gather(relaxed).error);
    } else {
      assert (strict + relaxed)[1..] == strict[1..] + relaxed;
      GatherFails(strict[1..], relaxed);
    }
  }

  predicate FirstFailure(results: seq<StartResult>, k: int, error: Error) {
    0 <= k < |results| && results[k] == Failure(error) && AllSuccess(results[..k])
  }

  /** Whatever the interleaving, the caller gets all started containers, strict ones first, if and only if every
      single start ended well; then all of them did end. Otherwise it gets the error of the strict start that
      failed or, when all strict ones started, of the first relaxed one that failed. */
  lemma ReturnsExactly(n: nat, m: nat, steps: seq<Step>, s: State)
    requires Execute(n, m, steps) == Some(s) && s.returned.Some?
    ensures s.returned.value.Success? <==>
              |s.strict| == n && AllSuccess(s.strict) && AllDone(s.relaxed) && AllSuccess(Results(s.relaxed))
    ensures s.returned.value.Success? ==>
              && |s.relaxed| == m && |s.returned.value.value| == n + m
              && (forall i :: 0 <= i < n ==> s.strict[i] == Success(s.returned.value.value[i]))
              && (forall k :: 0 <= k < m ==> s.relaxed[k] == Done(Success(s.returned.value.value[n + k])))
    ensures s.returned.value.Failure? && !AllSuccess(s.strict) ==>
              FirstFailure(s.strict, |s.strict| - 1, s.returned.value.error)
    ensures s.returned.value.Failure? && AllSuccess(s.strict) ==>
              AllDone(s.relaxed) && exists k :: FirstFailure(Results(s.relaxed), k, s.returned.value.error)
  {
    InvExecute(n, m, steps);
    if AllSuccess(s.strict) {
      if AllSuccess(Results(s.relaxed)) {
        GatherSucceeds(s.strict, Results(s.relaxed));
      } else {
        GatherFails(s.strict, Results(s.relaxed));
      }
    } else {
      StrictFailure(s.strict);
    }
  }

  lemma StrictFailure(strict: seq<StartResult>)
    requires !AllSuccess(strict) && forall i :: 0 <= i < |strict| - 1 ==> strict[i].Success?
    ensures Gather(strict).Failure? && FirstFailure(strict, |strict| - 1, Gather(strict).error)
  {
    GatherExactly(strict);
  }

  /** The interleaved starts ended as `results` says, as far as they got. */
  ghost predicate Agrees(kept: seq<Transitional>, results: seq<StartResult>, s: State)
    requires |results| == |kept|
  {
    var strict, relaxed := Starts(kept, results, Strict), Starts(kept, results, Relaxed);
    && |s.strict| <= |strict| && (forall i :: 0 <= i < |s.strict| ==> s.strict[i] == strict[i].1)
    && |s.relaxed| == |relaxed|
    && (forall k :: 0 <= k < |relaxed| && s.relaxed[k].Done? ==> s.relaxed[k].result == relaxed[k].1)
  }

  /** All interleavings return what the start phase gives when read one after the other: the same containers in the
      same order, or the same error. */
  lemma InterleavingIrrelevant(kept: seq<Transitional>, results: seq<StartResult>, steps: seq<Step>, s: State)
    requires |results| == |kept|
    requires Execute(|Starts(kept, results, Strict)|, |Starts(kept, results, Relaxed)|, steps) == Some(s)
    requires s.returned.Some? && Agrees(kept, results, s)
    ensures s.returned.value == StartPhase(kept, results)
  {
    var n, m := |Starts(kept, results, Strict)|, |Starts(kept, results, Relaxed)|;
    InvExecute(n, m, steps);
    ReturnsExactly(n, m, steps, s);
    if s.returned.value.Success? {
      SameValues(kept, results, s, s.returned.value.value);
    } else if !AllSuccess(s.strict) {
      SameStrictError(kept, results, s, s.returned.value.error);
    } else {
      SameRelaxedError(kept, results, s, s.returned.value.error);
    }
  }

  lemma SameValues(kept: seq<Transitional>, results: seq<StartResult>, s: State, values: seq<OperationalContainer>)
    requires |results| == |kept| && Agrees(kept, results, s)
    requires |s.strict| == |Starts(kept, results, Strict)| && |values| == |s.strict| + |s.relaxed|
    requires forall i :: 0 <= i < |s.strict| ==> s.strict[i] == Success(values[i])
    requires forall k :: 0 <= k < |s.relaxed| ==> s.relaxed[k] == Done(Success(values[|s.strict| + k]))
    ensures StartPhase(kept, results) == Success(values)
  {
    var strict, relaxed := Starts(kept, results, Strict), Starts(kept, results, Relaxed);
    assert forall k :: 0 <= k < |relaxed| ==> s.relaxed[k].Done? && relaxed[k].1 == Success(values[|strict| + k]);
    assert Values(strict) + Values(relaxed) == values;
  }

  lemma SameStrictError(kept: seq<Transitional>, results: seq<StartResult>, s: State, error: Error)
    requires |results| == |kept| && Agrees(kept, results, s) && FirstFailure(s.strict, |s.strict| - 1, error)
    ensures StartPhase(kept, results) == Failure(error)
  {
    var strict, last := Starts(kept, results, Strict), |s.strict| - 1;
    assert forall i :: 0 <= i < last ==> strict[i].1 == s.strict[..last][i];
    FirstErrorAt(strict, last);
  }

  lemma SameRelaxedError(kept: seq<Transitional>, results: seq<StartResult>, s: State, error: Error)
    requires |results| == |kept| && Agrees(kept, results, s)
    requires |s.strict| == |Starts(kept, results, Strict)| && AllSuccess(s.strict) && AllDone(s.relaxed)
    requires exists k :: FirstFailure(Results(s.relaxed), k, error)
    ensures StartPhase(kept, results) == Failure(error)
  {
    SameFirstError(Starts(kept, results, Relaxed), Results(s.relaxed), error);
    assert AllSucceed(Starts(kept, results, Strict));
  }

  lemma {:induction false} SameFirstError(starts: seq<Start>, results: seq<StartResult>, error: Error)
    requires |starts| == |results| && forall k :: 0 <= k < |starts| ==> starts[k].1 == results[k]
    requires exists k :: FirstFailure(results, k, error)
    ensures FirstError(starts) == Some(error)
  {
    var k :| FirstFailure(results, k, error);
    assert forall j :: 0 <= j < k ==> starts[j].1 == results[..k][j];
    FirstErrorAt(starts, k);
  }

  // --- no interleaving gets stuck or runs for ever ----------------------------------------------------------

  lemma NeverStuck(n: nat, m: nat, steps: seq<Step>, s: State) returns (step: Step)
    requires Execute(n, m, steps) == Some(s)
    requires s.returned.None?
    ensures Enabled(n, s, step)
  {
    InvExecute(n, m, steps);
    if s.busy {
      step := EndStrict(Failure(Processing("")));
    } else if !AllSuccess(s.strict) {
      step := Return;
    } else if |s.strict| < n {
      step := BeginStrict;
    } else if AllDone(s.relaxed) {
      step := Return;
    } else {
      var k :| 0 <= k < |s.relaxed| && !s.relaxed[k].Done?;
      step := if s.relaxed[k].Waiting? then BeginRelaxed(k) else EndRelaxed(k, Failure(Processing("")));
    }
  }

  function Effort(tasks: seq<Task>): nat {
    if tasks == [] then 0
    else Effort(tasks[1..]) + match tasks[0] case Waiting => 0 case Busy => 1 case Done(_) => 2
  }

  lemma {:induction false} EffortMore(tasks: seq<Task>, k: nat, task: Task)
    requires k < |tasks|
    requires (tasks[k].Waiting? && task.Busy?) || (tasks[k].Busy? && task.Done?)
    ensures Effort(tasks[k := task]) == Effort(tasks) + 1
  {
    if k > 0 {
      EffortMore(tasks[1..], k - 1, task);
      assert tasks[k := task][1..] == tasks[1..][k - 1 := task];
    } else {
      assert tasks[k := task][1..] == tasks[1..];
    }
  }

  lemma {:induction false} EffortBounded(tasks: seq<Task>)
    ensures Effort(tasks) <= 2 * |tasks|
  {
    if tasks != [] {
      EffortBounded(tasks[1..]);
    }
  }

  lemma {:induction false} EffortInit(m: nat)
    ensures Effort(seq(m, _ => Waiting)) == 0
  {
    if m > 0 {
      EffortInit(m - 1);
      assert seq<Task>(m, _ => Waiting)[1..] == seq<Task>(m - 1, _ => Waiting);
    }
  }

  /** Every step begins or ends a start, or returns. */
  lemma {:induction false} StepsAreWork(n: nat, m: nat, steps: seq<Step>, s: State)
    requires Execute(n, m, steps) == Some(s)
    ensures |steps| == 2 * |s.strict| + (if s.busy then 1 else 0) + Effort(s.relaxed)
                       + (if s.returned.Some? then 1 else 0)
  {
    if steps == [] {
      EffortInit(m);
    } else {
      var before := Execute(n, m, steps[..|steps| - 1]).value;
      var step := steps[|steps| - 1];
      StepsAreWork(n, m, steps[..|steps| - 1], before);
      InvExecute(n, m, steps[..|steps| - 1]);
      if step.BeginRelaxed? {
        EffortMore(before.relaxed, step.k, Busy);
      } else if step.EndRelaxed? {
        EffortMore(before.relaxed, step.k, Done(step.result));
      }
    }
  }

  /** Every run ends: no interleaving has more than two steps for each container and one for the return. */
  lemma RunsEnd(n: nat, m: nat, steps: seq<Step>, s: State)
    requires Execute(n, m, steps) == Some(s)
    ensures |steps| <= 2 * n + 2 * m + 1
  {
    InvExecute(n, m, steps);
    StepsAreWork(n, m, steps, s);
    EffortBounded(s.relaxed);
  }
}
