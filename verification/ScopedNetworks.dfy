/** The networks tests share: one per namespace, looked up or created on demand, remembered for good. */
module ScopedNetworks {
  import opened Containers
  import Docker

  const FAILED_BEFORE := Startup("failed to create singular network")

  // --- picking among existing networks ---------------------------------------------------------------

  /** A network as the daemon lists it; an id is always present. */
  datatype Listed = Listed(name: Option<Text>, created: Option<string>, id: Text)

  /** The order on time stamps is the one on strings. */
  predicate Earlier(a: string, b: string) {
    if b == "" then false
    else if a == "" then true
    else a[0] < b[0] || (a[0] == b[0] && Earlier(a[1..], b[1..]))
  }

  lemma {:induction false} EarlierIsTotal(a: string, b: string)
    ensures a == b || Earlier(a, b) || Earlier(b, a)
  {
    if a != "" && b != "" && a[0] == b[0] {
      EarlierIsTotal(a[1..], b[1..]);
      assert a == [a[0]] + a[1..] && b == [b[0]] + b[1..];
    }
  }

  lemma {:induction false} EarlierIsTransitive(a: string, b: string, c: string)
    requires Earlier(a, b) && Earlier(b, c)
    ensures Earlier(a, c)
  {
    if a != "" && a[0] == b[0] == c[0] {
      EarlierIsTransitive(a[1..], b[1..], c[1..]);
    }
  }

  lemma {:induction false} EarlierIsStrict(a: string)
    ensures !Earlier(a, a)
  {
    if a != "" {
      EarlierIsStrict(a[1..]);
    }
  }

  predicate Candidate(n: Listed, wanted: Text) {
    n.name == Some(wanted) && n.created.Some?
  }

  /** The position of the first candidate with the highest time stamp. */
  ghost predicate Newest(networks: seq<Listed>, wanted: Text, i: nat) {
    && i < |networks| && Candidate(networks[i], wanted)
    && (forall j :: 0 <= j < |networks| && Candidate(networks[j], wanted) ==>
          !Earlier(networks[i].created.value, networks[j].created.value))
    && (forall j :: 0 <= j < i && Candidate(networks[j], wanted) ==>
          Earlier(networks[j].created.value, networks[i].created.value))
  }

  /** The network that already has exactly the wanted name and was created last, if there is one. */
  method ExistingNetwork(networks: seq<Listed>, wanted: Text) returns (id: Option<Text>)
    ensures id.None? <==> forall j :: 0 <= j < |networks| ==> !Candidate(networks[j], wanted)
    ensures id.Some? ==> exists i: nat :: Newest(networks, wanted, i) && id == Some(networks[i].id)
  {
    var highestTimestamp: Option<string> := None;
    id := None;
    ghost var at := 0;
    for k := 0 to |networks|
      invariant highestTimestamp.Some? == id.Some?
      invariant id.None? ==> forall j :: 0 <= j < k ==> !Candidate(networks[j], wanted)
      invariant id.Some? ==>
        Newest(networks[..k], wanted, at) && highestTimestamp == networks[at].created && id == Some(networks[at].id)
    {
      var n := networks[k];
      assert forall j :: 0 <= j < k ==> networks[..k + 1][j] == networks[..k][j];
      if n.name == Some(wanted) && n.created.Some? {
        if highestTimestamp.Some? {
          if Earlier(highestTimestamp.value, n.created.value) {
            assert networks[..k + 1][..|networks[..k + 1]| - 1] == networks[..k];
            NewerIsNewest(networks[..k + 1], wanted, at);
            highestTimestamp := n.created;
            id := Some(n.id);
            at := k;
          }
        } else {
          EarlierIsStrict(n.created.value);
          highestTimestamp := n.created;
          id := Some(n.id);
          at := k;
        }
      }
    }
    assert networks[..|networks|] == networks;
  }

  lemma NewerIsNewest(networks: seq<Listed>, wanted: Text, at: nat)
    requires networks != [] && Newest(networks[..|networks| - 1], wanted, at)
    requires Candidate(networks[|networks| - 1], wanted)
    requires Earlier(networks[at].created.value, networks[|networks| - 1].created.value)
    ensures Newest(networks, wanted, |networks| - 1)
  {
    var last := |networks| - 1;
    var stamp := networks[last].created.value;
    EarlierIsStrict(stamp);
    forall j | 0 <= j < last && Candidate(networks[j], wanted)
      ensures Earlier(networks[j].created.value, stamp) && !Earlier(stamp, networks[j].created.value)
    {
      assert networks[..last][j] == networks[j] && networks[..last][at] == networks[at];
      var other := networks[j].created.value;
      EarlierIsTotal(other, networks[at].created.value);
      if other != networks[at].created.value {
        EarlierIsTransitive(other, networks[at].created.value, stamp);
      }
      if Earlier(stamp, other) {
        EarlierIsTransitive(stamp, other, stamp);
      }
    }
  }

  /** The two clauses pin the choice down. */
  lemma NewestIsUnique(networks: seq<Listed>, wanted: Text, i: nat, j: nat)
    requires Newest(networks, wanted, i) && Newest(networks, wanted, j)
    ensures i == j
  {
    var a, b := networks[i].created.value, networks[j].created.value;
    assert !Earlier(a, b) && !Earlier(b, a);
  }

  // --- one network per namespace ---------------------------------------------------------------------

  datatype Creation = Failed | Complete(id: Text)

  type Memo = map<Text, Creation>

  datatype CreationReply = Made(id: Text) | Conflict | Rejected(error: Error)

  /** The daemon's answers: which network of the right name exists, before and after the attempt to create
      one, how the attempt went, and whether the test's own container could be attached. */
  datatype Replies = Replies(
    existing: Result<Option<Text>, Error>,
    created: CreationReply,
    conflicting: Result<Option<Text>, Error>,
    attached: Docker.Reply)

  /** A test that panics fails, without having recorded anything. */
  datatype Outcome = Returned(result: Result<Text, Error>) | Panicked

  type Created = (Memo, multiset<Text>, Outcome)

  /** `attempts` counts the requests to create a network, per namespace. */
  function CreateSpec(m: Memo, attempts: multiset<Text>, namespace: Text, inContainer: bool, replies: Replies)
    : Created
  {
    if namespace in m then
      (m, attempts, Returned(if m[namespace].Failed? then Failure(FAILED_BEFORE) else Success(m[namespace].id)))
    else
      match replies.existing
      case Failure(e) => (m, attempts, Returned(Failure(e)))
      case Success(Some(id)) => (m[namespace := Complete(id)], attempts, Returned(Success(id)))
      case Success(None) =>
        var tried := attempts + multiset{namespace};
        match CreationOutcome(replies)
        case Panicked => (m, tried, Panicked)
        case Returned(Failure(e)) => (m[namespace := Failed], tried, Returned(Failure(e)))
        case Returned(Success(id)) =>
          if inContainer && replies.attached.Refused? then
            (m[namespace := Failed], tried, Returned(Failure(replies.attached.error)))
          else
            (m[namespace := Complete(id)], tried, Returned(Success(id)))
  }

  /** A conflict should mean that somebody else created the network just now. When it is not listed all the same,
      the test panics. */
  function CreationOutcome(replies: Replies): Outcome {
    match replies.created
    case Made(id) => Returned(Success(id))
    case Conflict =>
      (match replies.conflicting
       case Failure(e) => Returned(Failure(e))
       case Success(None) => Panicked
       case Success(Some(id)) => Returned(Success(id)))
    case Rejected(e) => Returned(Failure(e))
  }

  class ScopedNetworks {
    var singular: Memo
    ghost var attempts: multiset<Text>

    constructor ()
      ensures singular == map[] && attempts == multiset{}
    {
      singular := map[];
      attempts := multiset{};
    }

    method CreateSingularNetwork(namespace: Text, inContainer: bool, replies: Replies)
      returns (r: Outcome)
      modifies this
      ensures (singular, attempts, r) == CreateSpec(old(singular), old(attempts), namespace, inContainer, replies)
    {
      if namespace in singular {
        match singular[namespace] {
          case Failed => return Returned(Failure(FAILED_BEFORE));
          case Complete(id) => return Returned(Success(id));
        }
      }
      match replies.existing {
        case Failure(e) => return Returned(Failure(e));
        case Success(Some(id)) =>
          singular := singular[namespace := Complete(id)];
          return Returned(Success(id));
        case Success(None) =>
      }
      attempts := attempts + multiset{namespace};
      r := CreateNetwork(replies);
      if r.Panicked? {
        return;
      }
      if r.result.Failure? {
        singular := singular[namespace := Failed];
        return;
      }
      if inContainer && replies.attached.Refused? {
        singular := singular[namespace := Failed];
        return Returned(Failure(replies.attached.error));
      }
      singular := singular[namespace := Complete(r.result.value)];
    }

    method CreateNetwork(replies: Replies) returns (r: Outcome)
      ensures r == CreationOutcome(replies)
    {
      match replies.created {
        case Made(id) => r := Returned(Success(id));
        case Rejected(e) => r := Returned(Failure(e));
        case Conflict =>
          if replies.conflicting.Failure? {
            return Returned(Failure(replies.conflicting.error));
          }
          r := if replies.conflicting.value.Some? then Returned(Success(replies.conflicting.value.value)) else Panicked;
      }
    }
  }

  datatype Call = Call(namespace: Text, inContainer: bool, replies: Replies)

  /** The memo and the attempts after a sequence of calls by any tests, and what each call returned. */
  ghost function Execute(m: Memo, attempts: multiset<Text>, calls: seq<Call>)
    : (Memo, multiset<Text>, seq<Outcome>)
    decreases |calls|
  {
    if calls == [] then (m, attempts, [])
    else
      var (m', attempts', r) := CreateSpec(m, attempts, calls[0].namespace, calls[0].inContainer, calls[0].replies);
      var (m'', attempts'', rs) := Execute(m', attempts', calls[1..]);
      (m'', attempts'', [r] + rs)
  }

  predicate Succeeded(r: Outcome) {
    r.Returned? && r.result.Success?
  }

  /** What the daemon must answer for a call to panic when nothing is recorded: no network of the name is there, the
      creation meets a conflict, and still no network of the name is there. */
  predicate Panics(call: Call) {
    var replies := call.replies;
    replies.existing == Success(None) && replies.created.Conflict? && replies.conflicting == Success(None)
  }

  /** Otherwise the call records an outcome, unless looking for an existing network failed. */
  predicate Settles(call: Call) {
    call.replies.existing.Success? && !Panics(call)
  }

  /** The calls for namespace `n` that panic, up to the first that records an outcome. */
  ghost function PanicsBefore(calls: seq<Call>, n: Text): nat {
    if calls == [] then 0
    else if calls[0].namespace != n then PanicsBefore(calls[1..], n)
    else if Settles(calls[0]) then 0
    else (if Panics(calls[0]) then 1 else 0) + PanicsBefore(calls[1..], n)
  }

  /** The first call for namespace `n` that records an outcome finds no network and tries to create it. */
  ghost predicate SettledByAttempt(calls: seq<Call>, n: Text) {
    && calls != []
    && if calls[0].namespace == n && Settles(calls[0]) then calls[0].replies.existing == Success(None)
       else SettledByAttempt(calls[1..], n)
  }

  /** How many creations a sequence of calls attempts when nothing is recorded for `n`. */
  ghost function AttemptsFor(calls: seq<Call>, n: Text): nat {
    PanicsBefore(calls, n) + if SettledByAttempt(calls, n) then 1 else 0
  }

  lemma CallKeeps(m: Memo, attempts: multiset<Text>, call: Call)
    ensures var (m', attempts', r) := CreateSpec(m, attempts, call.namespace, call.inContainer, call.replies);
            var n := call.namespace;
            && (forall k :: k in m ==> k in m' && m'[k] == m[k] && attempts'[k] == attempts[k])
            && (forall k :: k != n ==> (k in m' <==> k in m) && attempts'[k] == attempts[k])
            && (r.Panicked? ==> n !in m' && attempts'[n] == attempts[n] + 1)
            && (r.Returned? && n !in m' ==> attempts'[n] == attempts[n])
            && attempts[n] <= attempts'[n] <= attempts[n] + 1
            && (Succeeded(r) ==> n in m' && m'[n] == Complete(r.result.value))
            && (n in m && m[n].Failed? ==> r == Returned(Failure(FAILED_BEFORE)))
  {
  }

  /** How often the creation of network `n` is attempted: once for each panic before an outcome is recorded, and once
      more if the call that records it is an attempt. After that never again, and what is recorded stays. */
  lemma {:induction false} AttemptsAreCounted(m: Memo, attempts: multiset<Text>, calls: seq<Call>, n: Text)
    ensures var (m', attempts', outcomes) := Execute(m, attempts, calls);
            && |outcomes| == |calls|
            && attempts'[n] == attempts[n] + (if n in m then 0 else AttemptsFor(calls, n))
            && (n in m' <==> n in m || exists i :: 0 <= i < |calls| && calls[i].namespace == n && Settles(calls[i]))
            && (n in m ==> n in m' && m'[n] == m[n])
    decreases |calls|
  {
    if calls != [] {
      CallKeeps(m, attempts, calls[0]);
      CallCounts(m, attempts, calls[0], n);
      var (m', attempts', r) := CreateSpec(m, attempts, calls[0].namespace, calls[0].inContainer, calls[0].replies);
      AttemptsAreCounted(m', attempts', calls[1..], n);
      assert forall i :: 0 < i < |calls| ==> calls[i] == calls[1..][i - 1];
    }
  }

  /** One call, for any namespace. */
  lemma CallCounts(m: Memo, attempts: multiset<Text>, call: Call, n: Text)
    ensures var (m', attempts', r) := CreateSpec(m, attempts, call.namespace, call.inContainer, call.replies);
            && (n in m' <==> n in m || (call.namespace == n && Settles(call)))
            && (r.Panicked? <==> call.namespace !in m && Panics(call))
            && attempts'[n] == attempts[n] + if n !in m && call.namespace == n && call.replies.existing == Success(None)
                                             then 1 else 0
  {
  }

  /** Which calls panic: those that meet such answers before an outcome is recorded for their namespace. */
  lemma {:induction false} PanickedExactly(m: Memo, attempts: multiset<Text>, calls: seq<Call>, i: nat)
    requires i < |calls|
    ensures |Execute(m, attempts, calls).2| == |calls|
    ensures Execute(m, attempts, calls).2[i].Panicked?
       <==> && Panics(calls[i]) && calls[i].namespace !in m
            && forall k :: 0 <= k < i && calls[k].namespace == calls[i].namespace ==> !Settles(calls[k])
    decreases |calls|
  {
    CallCounts(m, attempts, calls[0], calls[i].namespace);
    var (m', attempts', r) := CreateSpec(m, attempts, calls[0].namespace, calls[0].inContainer, calls[0].replies);
    AttemptsAreCounted(m', attempts', calls[1..], calls[i].namespace);
    if i > 0 {
      PanickedExactly(m', attempts', calls[1..], i - 1);
      assert forall k :: 0 < k < i ==> calls[k] == calls[1..][k - 1];
    }
  }

  /** At most one creation is ever attempted for a namespace exactly if no call panics before an outcome is recorded,
      or one does and the outcome is that of a network which is found. What is recorded stays. */
  lemma RecordedForGood(calls: seq<Call>, more: seq<Call>, n: Text)
    ensures var (m, attempts, outcomes) := Execute(map[], multiset{}, calls);
            var (m', attempts', outcomes') := Execute(m, attempts, more);
            && (attempts[n] <= 1 <==>
                  PanicsBefore(calls, n) == 0 || (PanicsBefore(calls, n) == 1 && !SettledByAttempt(calls, n)))
            && (n in m ==> n in m' && m'[n] == m[n] && attempts'[n] == attempts[n])
  {
    var (m, attempts, outcomes) := Execute(map[], multiset{}, calls);
    AttemptsAreCounted(map[], multiset{}, calls, n);
    AttemptsAreCounted(m, attempts, more, n);
  }

  /** One test that panics is enough for a second attempt: a conflict with a network that is not listed, and then,
      with nothing recorded, a creation that works. */
  lemma PanicAllowsAnother(n: Text, id: Text)
    ensures var first := Call(n, false, Replies(Success(None), Conflict, Success(None), Docker.Accepted));
            var second := Call(n, false, Replies(Success(None), Made(id), Success(None), Docker.Accepted));
            var (m, attempts, outcomes) := Execute(map[], multiset{}, [first, second]);
            && m == map[n := Complete(id)] && attempts[n] == 2
            && outcomes == [Panicked, Returned(Success(id))]
  {
    var first := Call(n, false, Replies(Success(None), Conflict, Success(None), Docker.Accepted));
    var second := Call(n, false, Replies(Success(None), Made(id), Success(None), Docker.Accepted));
    TwoCalls(map[], multiset{}, first, second);
  }

  lemma TwoCalls(m: Memo, attempts: multiset<Text>, first: Call, second: Call)
    ensures var (m1, attempts1, r1) := CreateSpec(m, attempts, first.namespace, first.inContainer, first.replies);
            var (m2, attempts2, r2) := CreateSpec(m1, attempts1, second.namespace, second.inContainer, second.replies);
            Execute(m, attempts, [first, second]) == (m2, attempts2, [r1, r2])
  {
    var (m1, attempts1, r1) := CreateSpec(m, attempts, first.namespace, first.inContainer, first.replies);
    var (m2, attempts2, r2) := CreateSpec(m1, attempts1, second.namespace, second.inContainer, second.replies);
    assert [first, second][1..] == [second] && [second][1..] == [];
    assert [r2] + Execute(m2, attempts2, []).2 == [r2];
    assert [r1] + Execute(m1, attempts1, [second]).2 == [r1, r2];
  }

  /** A successful call returned what the memo says at the end; once a failure is recorded all calls fail. */
  lemma {:induction false} ResultsFollowMemo(m: Memo, attempts: multiset<Text>, calls: seq<Call>, i: nat)
    requires i < |calls|
    ensures |Execute(m, attempts, calls).2| == |calls|
    ensures var (m', _, outcomes) := Execute(m, attempts, calls);
            var n := calls[i].namespace;
            && (Succeeded(outcomes[i]) ==> n in m' && m'[n] == Complete(outcomes[i].result.value))
            && (n in m && m[n].Failed? ==> outcomes[i] == Returned(Failure(FAILED_BEFORE)))
    decreases |calls|
  {
    CallKeeps(m, attempts, calls[0]);
    var (m', attempts', r) := CreateSpec(m, attempts, calls[0].namespace, calls[0].inContainer, calls[0].replies);
    AttemptsAreCounted(m', attempts', calls[1..], calls[i].namespace);
    if i > 0 {
      ResultsFollowMemo(m', attempts', calls[1..], i - 1);
    }
  }

  /** Everybody who gets a network for a namespace gets the same one. */
  lemma CallersAgree(calls: seq<Call>, i: nat, j: nat)
    requires i < |calls| && j < |calls| && calls[i].namespace == calls[j].namespace
    ensures var outcomes := Execute(map[], multiset{}, calls).2;
            && |outcomes| == |calls|
            && (Succeeded(outcomes[i]) && Succeeded(outcomes[j]) ==> outcomes[i] == outcomes[j])
  {
    ResultsFollowMemo(map[], multiset{}, calls, i);
    ResultsFollowMemo(map[], multiset{}, calls, j);
  }

  // --- what is recorded -------------------------------------------------------------------------------------

  /** With nothing recorded the daemon's answers give the call network `id`: it is there, or it is made, or somebody
      else has just made it; and the test's own container can be attached to a network that was not there. */
  predicate Grants(call: Call, id: Text) {
    var r := call.replies;
    || r.existing == Success(Some(id))
    || (r.existing == Success(None) && Obtained(r, id) && (call.inContainer ==> r.attached.Accepted?))
  }

  predicate Obtained(r: Replies, id: Text) {
    r.created == Made(id) || (r.created.Conflict? && r.conflicting == Success(Some(id)))
  }

  /** They end it with error `e`. */
  ghost predicate Denies(call: Call, e: Error) {
    var r := call.replies;
    || r.existing == Failure(e)
    || (r.existing == Success(None)
        && (|| r.created == Rejected(e)
            || (r.created.Conflict? && r.conflicting == Failure(e))
            || (call.inContainer && r.attached == Docker.Refused(e) && exists id :: Obtained(r, id))))
  }

  /** The outcome is what the answers say. */
  ghost predicate Fits(call: Call, r: Outcome) {
    match r
    case Panicked => Panics(call)
    case Returned(Success(id)) => Grants(call, id)
    case Returned(Failure(e)) => Denies(call, e)
  }

  function Recorded(r: Outcome): Creation {
    if Succeeded(r) then Complete(r.result.value) else Failed
  }

  lemma CallExactly(m: Memo, attempts: multiset<Text>, call: Call)
    ensures var (m', _, r) := CreateSpec(m, attempts, call.namespace, call.inContainer, call.replies);
            var n := call.namespace;
            if n in m then m' == m && r == Returned(if m[n].Failed? then Failure(FAILED_BEFORE) else Success(m[n].id))
            else Fits(call, r) && m' == if Settles(call) then m[n := Recorded(r)] else m
  {
    var r := call.replies;
    assert r.created.Made? ==> Obtained(r, r.created.id);
    assert r.conflicting.Success? && r.conflicting.value.Some? && r.created.Conflict? ==>
        Obtained(r, r.conflicting.value.value);
  }

  /** The call at `k` is the first for its namespace that records an outcome. */
  predicate SettlesFirst(calls: seq<Call>, k: nat) {
    && k < |calls| && Settles(calls[k])
    && forall j :: 0 <= j < k && calls[j].namespace == calls[k].namespace ==> !Settles(calls[j])
  }

  /** Every call of every run: up to the one that records an outcome, a call ends as the daemon's answers to it say.
      Whatever that one ends with is recorded, a refused attachment, a rejected creation or a conflict that cannot be
      looked up as a failure; all later ones repeat the success, or fail. */
  lemma {:induction false} OutcomesExactly(m: Memo, attempts: multiset<Text>, calls: seq<Call>, k: nat, i: nat)
    requires SettlesFirst(calls, k) && calls[k].namespace !in m
    requires i < |calls| && calls[i].namespace == calls[k].namespace
    ensures var (m', _, outcomes) := Execute(m, attempts, calls);
            var n := calls[k].namespace;
            && |outcomes| == |calls| && n in m' && m'[n] == Recorded(outcomes[k])
            && (i <= k ==> Fits(calls[i], outcomes[i]))
            && (i > k ==> outcomes[i] == Returned(if Succeeded(outcomes[k]) then outcomes[k].result
                                                  else Failure(FAILED_BEFORE)))
    decreases |calls|
  {
    CallExactly(m, attempts, calls[0]);
    var (m', attempts', r) := CreateSpec(m, attempts, calls[0].namespace, calls[0].inContainer, calls[0].replies);
    if k > 0 {
      assert forall j :: 0 < j < k ==> calls[j] == calls[1..][j - 1];
      OutcomesExactly(m', attempts', calls[1..], k - 1, if i > 0 then i - 1 else k - 1);
    } else {
      AttemptsAreCounted(m', attempts', calls[1..], calls[0].namespace);
      if i > 0 {
        RepeatsRecorded(m', attempts', calls[1..], i - 1);
      }
    }
  }

  lemma {:induction false} RepeatsRecorded(m: Memo, attempts: multiset<Text>, calls: seq<Call>, i: nat)
    requires i < |calls| && calls[i].namespace in m
    ensures |Execute(m, attempts, calls).2| == |calls|
    ensures var c := m[calls[i].namespace];
            Execute(m, attempts, calls).2[i] == Returned(if c.Failed? then Failure(FAILED_BEFORE) else Success(c.id))
    decreases |calls|
  {
    CallExactly(m, attempts, calls[0]);
    CallKeeps(m, attempts, calls[0]);
    var (m', attempts', r) := CreateSpec(m, attempts, calls[0].namespace, calls[0].inContainer, calls[0].replies);
    AttemptsAreCounted(m', attempts', calls[1..], calls[i].namespace);
    if i > 0 {
      RepeatsRecorded(m', attempts', calls[1..], i - 1);
    }
  }
}
