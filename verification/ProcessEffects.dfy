/** What one creation of a shared container does, whatever the registries hold and whatever the daemon answers: which
    requests it makes, what it returns, and which entries it changes. */
module ProcessEffects {
  import opened Containers
  import Docker
  import Internal = InternalContainers
  import External = ExternalContainers
  import Dynamic = DynamicContainers
  import Protocol = InternalProtocol
  import opened StaticContainers
  import opened Process

  /** The course of a creation: the container it makes, the one it removes, the one that is then to be attached to the
      network of the test, and the error that ends it before that. */
  datatype Course = Course(made: Option<Id>, removed: Option<Id>, attaches: Option<Id>, failed: Option<Error>)

  function Fails(e: Error): Course {
    Course(None, None, None, Some(e))
  }

  /** Using a container that is there already, which is attached for a test with a network of its own only. */
  function Joins(id: Id, mode: Network): Course {
    Course(None, None, if mode.Isolated? then Some(id) else None, None)
  }

  function Makes(created: Result<Id, Error>): Course {
    match created
    case Success(id) => Course(Some(id), None, Some(id), None)
    case Failure(e) => Fails(e)
  }

  function InternalCourse(m: Internal.Registry, n: Name, mode: Network, replies: Internal.CreateReplies): Course {
    if n !in m || m[n].status.Cleaned? then Makes(replies.created)
    else if m[n].status.Failed? then Fails(m[n].status.error)
    else Joins(m[n].status.pending.id, mode)
  }

  function ExternalCourse(m: External.Registry, n: Name, mode: Network, replies: External.IncludeReplies): Course {
    if n in m then Joins(m[n].id, mode)
    else
      match replies.inspected
      case Failure(e) => Fails(e)
      case Success(None) => Fails(Dynamic.NO_ID_ERROR)
      case Success(Some(id)) => Course(None, None, if mode.ExternalNetwork? then None else Some(id), None)
  }

  function DynamicCourse(m: Dynamic.Registry, n: Name, mode: Network, replies: Dynamic.CreateReplies): Course {
    if n in m then
      match m[n]
      case Failed(e) => Fails(e)
      case RunningPrior(r) => Joins(r.id, mode)
      case Pending(p) => Joins(p.id, mode)
      case Running(_, p) => Joins(p.id, mode)
    else
      match (replies.inspected, replies.removed)
      case (InspectionFailed(e), _) => Fails(e)
      case (NotFound, _) => Makes(replies.created)
      case (Found(_, true), Refused(e)) => Fails(e)
      case (Found(None, _), _) => Fails(Dynamic.NO_ID_ERROR)
      case (Found(Some(id), stopped), _) => Course(None, if stopped then Some(id) else None, Some(id), None)
  }

  /** What the daemon is left with after a course under name `n`. */
  ghost predicate Leaves(d: Docker.State, course: Course, n: Name, network: NetworkName, connected: Docker.Reply,
                         d': Docker.State)
  {
    && d'.created == (if course.made.Some? then d.created[course.made.value := n] else d.created)
    && d'.starts == d.starts
    && d'.removals == d.removals + (if course.removed.Some? then multiset{course.removed.value} else multiset{})
    && d'.removed == d.removed + (if course.removed.Some? then {course.removed.value} else {})
    && forall l :: l in d'.links <==>
         || (l in d.links && course.removed != Some(l.0))
         || (connected.Accepted? && course.attaches == Some(l.0) && l.1 == network)
  }

  /** Nothing goes wrong on a course, the attachment included. */
  predicate Succeeds(course: Course, connected: Docker.Reply) {
    course.failed.None? && (course.attaches.Some? ==> connected.Accepted?)
  }

  predicate EndsWith(course: Course, connected: Docker.Reply, e: Error) {
    course.failed == Some(e) || (course.failed.None? && course.attaches.Some? && connected == Docker.Refused(e))
  }

  // --- the internal registry --------------------------------------------------------------------------------

  /** One more user, as far as the eight bits of the counter go. */
  predicate OneMore(e: Internal.Entry, e': Internal.Entry) {
    e'.status == e.status && (e'.completionCounter == e.completionCounter + 1
                              || (e.completionCounter == 255 && e'.completionCounter == 0))
  }

  /** The entry of the name after a creation. One that fails to attach a new container keeps it. */
  ghost predicate InternalEntry(m: Internal.Registry, c: Composition, course: Course, connected: Docker.Reply,
                                m': Internal.Registry)
  {
    var n := c.containerName;
    && n in m'
    && (if course.made.Some? then
          m'[n].completionCounter == 1 && m'[n].status.Pending? && MadeFrom(c, course.made.value, m'[n].status.pending)
        else if n !in m || m[n].status.Cleaned? then
          m'[n].completionCounter == 1 && m'[n].status.Failed? && course.failed == Some(m'[n].status.error)
          && m'[n].status.failedId.None?
        else if m[n].status.Failed? || Succeeds(course, connected) then OneMore(m[n], m'[n])
        else m'[n] == m[n])
  }

  ghost predicate OthersKept<T>(m: map<Name, T>, n: Name, m': map<Name, T>) {
    && (forall k :: k in m && k != n ==> k in m' && m'[k] == m[k])
    && (forall k :: k in m' && k != n ==> k in m)
  }

  ghost predicate InternalFollows(m: Internal.Registry, d: Docker.State, c: Composition, network: NetworkName,
                                  course: Course, connected: Docker.Reply, m': Internal.Registry, d': Docker.State,
                                  r: Result<PendingContainer, Error>)
  {
    var n := c.containerName;
    && Leaves(d, course, n, network, connected, d')
    && InternalEntry(m, c, course, connected, m') && OthersKept(m, n, m')
    && match r
       case Failure(e) => EndsWith(course, connected, e)
       case Success(p) =>
         && Succeeds(course, connected) && n in m' && (m'[n].status.Pending? || m'[n].status.Operational?)
         && p == m'[n].status.pending
  }

  lemma InternalJoins(m: Internal.Registry, d: Docker.State, c: Composition, network: NetworkName, mode: Network,
                      replies: Internal.CreateReplies)
    requires c.containerName in m
    requires var status := m[c.containerName].status; status.Pending? || status.Operational?
    ensures var p := m[c.containerName].status.pending;
            var (m', d', r) := Internal.JoinSpec(m, d, c, p, Some(network), mode, replies);
            InternalFollows(m, d, c, network, Joins(p.id, mode), replies.connected, m', d', r)
  {
  }

  lemma InternalMakes(m: Internal.Registry, d: Docker.State, c: Composition, network: NetworkName,
                      replies: Internal.CreateReplies)
    requires Internal.Fresh(d, replies) && (c.containerName !in m || m[c.containerName].status.Cleaned?)
    ensures var (m', d', r) := Internal.GenerateSpec(m, d, c, Some(network), replies);
            InternalFollows(m, d, c, network, Makes(replies.created), replies.connected, m', d', r)
  {
  }

  lemma InternalExactly(m: Internal.Registry, d: Docker.State, c: Composition, network: NetworkName, mode: Network,
                        replies: Internal.CreateReplies)
    requires Internal.Fresh(d, replies)
    ensures var (m', d', r) := Internal.CreateSpec(m, d, c, Some(network), mode, replies);
            InternalFollows(m, d, c, network, InternalCourse(m, c.containerName, mode, replies), replies.connected,
                            m', d', r)
  {
    if c.containerName !in m || m[c.containerName].status.Cleaned? {
      InternalMakes(m, d, c, network, replies);
    } else if !m[c.containerName].status.Failed? {
      InternalJoins(m, d, c, network, mode, replies);
    }
  }

  // --- the external and the dynamic registry ----------------------------------------------------------------

  /** An entry appears exactly if there is none and the creation succeeds. */
  ghost predicate EnteredBy<T>(m: map<Name, T>, n: Name, m': map<Name, T>, r: Result<CreatedContainer, Error>) {
    && (forall k :: k in m ==> k in m' && m'[k] == m[k])
    && (forall k :: k in m' && k !in m ==> k == n && r.Success?)
    && (r.Success? ==> n in m')
  }

  predicate FoundAs(r: OperationalContainer, n: Name, id: Id) {
    r.name == n && r.handle == n && r.id == id && r.isStatic && r.address == Unspecified
  }

  ghost predicate ExternalFollows(m: External.Registry, d: Docker.State, n: Name, network: NetworkName, course: Course,
                                  connected: Docker.Reply, m': External.Registry, d': Docker.State,
                                  i: Result<StaticExternal, Error>)
  {
    && Leaves(d, course, n, network, connected, d')
    && EnteredBy(m, n, m', if i.Success? then Success(CreatedExternal(i.value)) else Failure(i.error))
    && match i
       case Failure(e) => EndsWith(course, connected, e)
       case Success(e) => Succeeds(course, connected) && n in m' && e == StaticExternal(m'[n].handle, m'[n].id)
  }

  lemma ExternalExactly(m: External.Registry, d: Docker.State, c: Composition, network: NetworkName, mode: Network,
                        replies: External.IncludeReplies)
    ensures var n := c.containerName;
            var (m', d', i) := External.IncludeSpec(m, d, c, Some(network), mode, replies);
            && ExternalFollows(m, d, n, network, ExternalCourse(m, n, mode, replies), replies.connected, m', d', i)
            && (i.Success? && n !in m ==>
                  replies.inspected == Success(Some(i.value.id)) && n in m' && FoundAs(m'[n], n, i.value.id))
  {
    if c.containerName in m {
      ExternalJoins(m, d, c, network, mode, replies);
    } else {
      ExternalLooksUp(m, d, c, network, mode, replies);
    }
  }

  lemma ExternalJoins(m: External.Registry, d: Docker.State, c: Composition, network: NetworkName, mode: Network,
                      replies: External.IncludeReplies)
    requires c.containerName in m
    ensures var (m', d', i) := External.IncludeSpec(m, d, c, Some(network), mode, replies);
            ExternalFollows(m, d, c.containerName, network, Joins(m[c.containerName].id, mode), replies.connected,
                            m', d', i)
  {
  }

  lemma ExternalLooksUp(m: External.Registry, d: Docker.State, c: Composition, network: NetworkName, mode: Network,
                        replies: External.IncludeReplies)
    requires c.containerName !in m
    ensures var n := c.containerName;
            var (m', d', i) := External.IncludeSpec(m, d, c, Some(network), mode, replies);
            && ExternalFollows(m, d, n, network, ExternalCourse(m, n, mode, replies), replies.connected, m', d', i)
            && (i.Success? ==>
                  replies.inspected == Success(Some(i.value.id)) && n in m' && FoundAs(m'[n], n, i.value.id))
  {
  }

  /** The entry that a dynamic creation answers with. */
  ghost predicate AnswersWith(status: Dynamic.Status, a: CreatedContainer) {
    match status
    case Pending(p) => a == CreatedPending(p)
    case Running(_, p) => a == CreatedPending(p)
    case RunningPrior(r) => a == CreatedExternal(StaticExternal(r.handle, r.id))
    case Failed(_) => false
  }

  /** A new entry is for the container made, or for the one found. */
  ghost predicate DynamicEntry(status: Dynamic.Status, c: Composition, course: Course) {
    if course.made.Some? then status.Pending? && MadeFrom(c, course.made.value, status.pending)
    else
      status.RunningPrior? && course.attaches == Some(status.running.id)
      && FoundAs(status.running, c.containerName, status.running.id)
  }

  ghost predicate DynamicFollows(m: Dynamic.Registry, d: Docker.State, c: Composition, network: NetworkName,
                                 course: Course, connected: Docker.Reply, m': Dynamic.Registry, d': Docker.State,
                                 r: Result<CreatedContainer, Error>)
  {
    var n := c.containerName;
    && Leaves(d, course, n, network, connected, d') && EnteredBy(m, n, m', r)
    && match r
       case Failure(e) => EndsWith(course, connected, e)
       case Success(a) =>
         && Succeeds(course, connected) && n in m' && AnswersWith(m'[n], a)
         && (n !in m ==> DynamicEntry(m'[n], c, course))
  }

  lemma DynamicJoins(m: Dynamic.Registry, d: Docker.State, c: Composition, id: Id, a: CreatedContainer,
                     network: NetworkName, mode: Network, replies: Dynamic.CreateReplies)
    requires c.containerName in m && AnswersWith(m[c.containerName], a)
    ensures var (m', d', r) := Dynamic.JoinSpec(m, d, id, a, Some(network), mode, replies);
            DynamicFollows(m, d, c, network, Joins(id, mode), replies.connected, m', d', r)
  {
  }

  lemma DynamicMakes(m: Dynamic.Registry, d: Docker.State, c: Composition, network: NetworkName,
                     replies: Dynamic.CreateReplies)
    requires Dynamic.Fresh(d, replies) && c.containerName !in m
    ensures var (m', d', r) := Dynamic.GenerateSpec(m, d, c, Some(network), replies);
            DynamicFollows(m, d, c, network, Makes(replies.created), replies.connected, m', d', r)
  {
  }

  lemma AdoptLeaves(m: Dynamic.Registry, d: Docker.State, c: Composition, network: NetworkName, mode: Network,
                    replies: Dynamic.CreateReplies)
    requires c.containerName !in m && replies.inspected.Found?
    ensures var (_, d', _) := Dynamic.AdoptSpec(m, d, c, replies.inspected.id, replies.inspected.stopped,
                                                Some(network), replies);
            Leaves(d, DynamicCourse(m, c.containerName, mode, replies), c.containerName, network, replies.connected, d')
  {
  }

  lemma DynamicAdopts(m: Dynamic.Registry, d: Docker.State, c: Composition, network: NetworkName, mode: Network,
                      replies: Dynamic.CreateReplies)
    requires c.containerName !in m && replies.inspected.Found?
    ensures var (m', d', r) := Dynamic.AdoptSpec(m, d, c, replies.inspected.id, replies.inspected.stopped,
                                                 Some(network), replies);
            DynamicFollows(m, d, c, network, DynamicCourse(m, c.containerName, mode, replies), replies.connected,
                           m', d', r)
  {
    AdoptLeaves(m, d, c, network, mode, replies);
  }

  lemma DynamicExactly(m: Dynamic.Registry, d: Docker.State, c: Composition, network: NetworkName, mode: Network,
                       replies: Dynamic.CreateReplies)
    requires Dynamic.Fresh(d, replies)
    ensures var (m', d', r) := Dynamic.CreateSpec(m, d, c, Some(network), mode, replies);
            DynamicFollows(m, d, c, network, DynamicCourse(m, c.containerName, mode, replies), replies.connected,
                           m', d', r)
  {
    if c.containerName in m {
      match m[c.containerName]
      case Failed(_) =>
      case Pending(p) => DynamicJoins(m, d, c, p.id, CreatedPending(p), network, mode, replies);
      case Running(_, p) => DynamicJoins(m, d, c, p.id, CreatedPending(p), network, mode, replies);
      case RunningPrior(r) =>
        DynamicJoins(m, d, c, r.id, CreatedExternal(StaticExternal(r.handle, r.id)), network, mode, replies);
    } else {
      match replies.inspected
      case InspectionFailed(_) =>
      case NotFound => DynamicMakes(m, d, c, network, replies);
      case Found(_, _) => DynamicAdopts(m, d, c, network, mode, replies);
    }
  }

  // --- every creation of every run ----------------------------------------------------------------------------

  function CourseOf(m: Statics, c: Composition, mode: Network, replies: CreateReplies): Course
    requires c.management.Some?
  {
    match c.management.value
    case Internal => InternalCourse(m.internal, c.containerName, mode, replies.internal)
    case External => ExternalCourse(m.external, c.containerName, mode, replies.external)
    case Dynamic => DynamicCourse(m.dynamic, c.containerName, mode, replies.dynamic)
  }

  function ConnectReply(c: Composition, replies: CreateReplies): Docker.Reply
    requires c.management.Some?
  {
    match c.management.value
    case Internal => replies.internal.connected
    case External => replies.external.connected
    case Dynamic => replies.dynamic.connected
  }

  /** Only the registry that the composition belongs to changes, and that only under its name. */
  ghost predicate Enters(m: Statics, c: Composition, course: Course, connected: Docker.Reply, m': Statics,
                         r: Result<CreatedContainer, Error>)
    requires c.management.Some?
  {
    var n := c.containerName;
    match c.management.value
    case Internal =>
      && m'.external == m.external && m'.dynamic == m.dynamic
      && InternalEntry(m.internal, c, course, connected, m'.internal) && OthersKept(m.internal, n, m'.internal)
    case External =>
      m'.internal == m.internal && m'.dynamic == m.dynamic && EnteredBy(m.external, n, m'.external, r)
    case Dynamic =>
      && m'.internal == m.internal && m'.external == m.external && EnteredBy(m.dynamic, n, m'.dynamic, r)
      && (n in m'.dynamic && n !in m.dynamic ==> DynamicEntry(m'.dynamic[n], c, course))
  }

  /** The answer is what the registry has under the name. */
  ghost predicate Answers(m: Statics, c: Composition, a: CreatedContainer)
    requires c.management.Some?
  {
    var n := c.containerName;
    match c.management.value
    case Internal =>
      && n in m.internal && (m.internal[n].status.Pending? || m.internal[n].status.Operational?)
      && a == CreatedPending(m.internal[n].status.pending)
    case External =>
      n in m.external && a == CreatedExternal(StaticExternal(m.external[n].handle, m.external[n].id))
    case Dynamic => n in m.dynamic && AnswersWith(m.dynamic[n], a)
  }

  lemma CreateExactly(m: Statics, d: Docker.State, c: Composition, network: NetworkName, mode: Network,
                      replies: CreateReplies)
    requires Fresh(d, replies) && c.management.Some?
    ensures var (m', d', r) := CreateSpec(m, d, c, Some(network), mode, replies);
            var course, connected := CourseOf(m, c, mode, replies), ConnectReply(c, replies);
            && Leaves(d, course, c.containerName, network, connected, d') && Enters(m, c, course, connected, m', r)
            && match r
               case Failure(e) => EndsWith(course, connected, e)
               case Success(a) => Succeeds(course, connected) && Answers(m', c, a)
  {
    match c.management.value
    case Internal => InternalExactly(m.internal, d, c, network, mode, replies.internal);
    case External => ExternalExactly(m.external, d, c, network, mode, replies.external);
    case Dynamic => DynamicExactly(m.dynamic, d, c, network, mode, replies.dynamic);
  }

  /** A test gets the answer `a`. */
  ghost predicate Told(test: Member, c: Composition, a: CreatedContainer, test': Member) {
    && test'.answers == test.answers + {(c, a)} && test'.results == test.results
    && test'.network == test.network && test'.mode == test.mode && test'.phase == test.phase
    && match a
       case CreatedPending(p) => test'.kept == test.kept + {p} && test'.external == test.external
       case CreatedExternal(e) => test'.kept == test.kept && test'.external == test.external + {e.id}
  }

  /** Nobody but test `t` learns anything, and it does exactly if the creation succeeds. */
  ghost predicate Tells(w: World, t: TestId, c: Composition, course: Course, connected: Docker.Reply, w': World)
    requires c.management.Some?
  {
    if Succeeds(course, connected) then
      && w'.tests.Keys == w.tests.Keys && (forall u :: u in w.tests && u != t ==> w'.tests[u] == w.tests[u])
      && exists a :: Answers(w'.statics, c, a) && t in w.tests && Told(w.tests[t], c, a, w'.tests[t])
    else w'.tests == w.tests
  }

  /** A creation of a shared container, in any state. */
  lemma CreatesExactly(usage: Usage, w: World, t: TestId, c: Composition, replies: CreateReplies)
    requires Enabled(usage, w, CreateStatic(t, c, replies))
    ensures var w' := Next(w, CreateStatic(t, c, replies));
            var course, connected := CourseOf(w.statics, c, w.tests[t].mode, replies), ConnectReply(c, replies);
            && Leaves(w.daemon, course, c.containerName, w.tests[t].network, connected, w'.daemon)
            && Enters(w.statics, c, course, connected, w'.statics, CreateResult(w, t, c, replies).2)
            && (CreateResult(w, t, c, replies).2.Success? <==> Succeeds(course, connected))
            && Tells(w, t, c, course, connected, w')
  {
    CreateExactly(w.statics, w.daemon, c, w.tests[t].network, w.tests[t].mode, replies);
    var r := CreateResult(w, t, c, replies).2;
    if r.Success? {
      assert Told(w.tests[t], c, r.value, Answered(w.tests[t], c, r));
    }
  }

  // --- starting -----------------------------------------------------------------------------------------------

  /** The daemon is asked to start container `id`, and nothing else. */
  predicate AsksToStart(d: Docker.State, id: Id, d': Docker.State) {
    d' == d.(starts := d.starts + multiset{id})
  }

  /** Starting `p` under name `n` as the entry demands. The first one asks the daemon and settles the outcome. */
  ghost predicate InternalStarted(m: Internal.Registry, d: Docker.State, p: PendingContainer, reply: Docker.Reply,
                                  m': Internal.Registry, d': Docker.State, r: StartResult)
  {
    var n := p.name;
    if n in m && m[n].status.Pending? then
      var q := m[n].status.pending;
      && AsksToStart(d, q.id, d') && OthersKept(m, n, m') && n in m'
      && m'[n].completionCounter == m[n].completionCounter
      && match reply
         case Accepted => r.Success? && RunsAs(q, r.value) && m'[n].status == Internal.Operational(r.value, q)
         case Refused(e) => r == Failure(e) && m'[n].status == Internal.Failed(e, Some(p.id))
    else
      && m' == m && d' == d
      && (n in m && m[n].status.Operational? ==> r == Success(m[n].status.running))
      && (n in m && m[n].status.Failed? ==> r == Failure(m[n].status.error))
      && (n in m && m[n].status.Cleaned? ==> r == Failure(Internal.CLEANED_ERROR))
      && (n !in m ==> r == Failure(Internal.MISSING_ERROR))
  }

  ghost predicate DynamicStarted(m: Dynamic.Registry, d: Docker.State, p: PendingContainer, reply: Docker.Reply,
                                 m': Dynamic.Registry, d': Docker.State, r: StartResult)
  {
    var n := p.name;
    if n in m && m[n].Pending? then
      var q := m[n].pending;
      && AsksToStart(d, q.id, d') && OthersKept(m, n, m') && n in m'
      && match reply
         case Accepted => r.Success? && RunsAs(q, r.value) && m'[n] == Dynamic.Running(r.value, q)
         case Refused(e) => r == Failure(e) && m'[n] == Dynamic.Failed(e)
    else
      && m' == m && d' == d
      && (n in m && (m[n].Running? || m[n].RunningPrior?) ==> r == Success(m[n].running))
      && (n in m && m[n].Failed? ==> r == Failure(m[n].error))
      && (n !in m ==> r == Failure(Dynamic.MISSING_ERROR))
  }

  /** A start goes to the registry that manages the container, and leaves the others alone. */
  lemma StartExactly(m: Statics, d: Docker.State, p: PendingContainer, reply: Docker.Reply)
    ensures var (m', d', r) := StartSpec(m, d, p, reply);
            match p.management
            case None => m' == m && d' == d && r == Failure(UNMANAGED_START_ERROR)
            case Some(External) => m' == m && d' == d && r == Failure(EXTERNAL_START_ERROR)
            case Some(Internal) =>
              && m' == m.(internal := m'.internal)
              && InternalStarted(m.internal, d, p, reply, m'.internal, d', r)
            case Some(Dynamic) =>
              && m' == m.(dynamic := m'.dynamic)
              && DynamicStarted(m.dynamic, d, p, reply, m'.dynamic, d', r)
  {
    match p.management
    case Some(Internal) => InternalStartExactly(m.internal, d, p, reply);
    case Some(Dynamic) => DynamicStartExactly(m.dynamic, d, p, reply);
    case _ =>
  }

  lemma InternalStartExactly(m: Internal.Registry, d: Docker.State, p: PendingContainer, reply: Docker.Reply)
    ensures var (m', d', r) := Internal.StartSpec(m, d, p, reply); InternalStarted(m, d, p, reply, m', d', r)
  {
  }

  lemma DynamicStartExactly(m: Dynamic.Registry, d: Docker.State, p: PendingContainer, reply: Docker.Reply)
    ensures var (m', d', r) := Dynamic.StartSpec(m, d, p, reply); DynamicStarted(m, d, p, reply, m', d', r)
  {
  }

  // --- cleaning up --------------------------------------------------------------------------------------------

  predicate RunsUnder(m: Internal.Registry, n: Name, id: Id) {
    n in m && m[n].status.Operational? && m[n].status.running.id == id
  }

  predicate ListedUnder(m: External.Registry, n: Name, id: Id) {
    n in m && m[n].id == id
  }

  /** What a test asks to be taken off its network when it cleans up: of the containers it got, the internal ones that
      run, in every mode, and in isolated mode the external ones. */
  ghost predicate TakenOff(w: World, step: Step, id: Id)
    requires (step.Disconnect? || step.DisconnectExternal?) && step.t in w.tests
  {
    && id in w.tests[step.t].StaticIds()
    && if step.Disconnect? then exists n :: RunsUnder(w.statics.internal, n, id)
       else w.tests[step.t].mode.Isolated? && exists n :: ListedUnder(w.statics.external, n, id)
  }

  /** Exactly those leave it, as far as the daemon complies, and nothing else happens to any container or entry. */
  lemma CutsExactly(usage: Usage, w: World, step: Step)
    requires Enabled(usage, w, step) && (step.Disconnect? || step.DisconnectExternal?)
    ensures var w' := Next(w, step);
            && w'.statics == w.statics && w'.daemon == w.daemon.(links := w'.daemon.links)
            && forall l :: l in w'.daemon.links <==>
                 && l in w.daemon.links
                 && !(l.1 == w.tests[step.t].network && l.0 in step.complied && TakenOff(w, step, l.0))
  {
    InternalTargets(w.statics.internal, w.tests[step.t].StaticIds());
    ExternalTargets(w.statics.external, w.tests[step.t].StaticIds());
  }

  lemma InternalTargets(m: Internal.Registry, ids: set<Id>)
    ensures forall id :: id in Internal.DisconnectTargets(m, ids) <==> id in ids && exists n :: RunsUnder(m, n, id)
  {
    forall id | id in Internal.DisconnectTargets(m, ids)
      ensures exists n :: RunsUnder(m, n, id)
    {
      var n :| n in m && m[n].status.Operational? && m[n].status.running.id == id;
      assert RunsUnder(m, n, id);
    }
    forall id | id in ids && exists n :: RunsUnder(m, n, id)
      ensures id in Internal.DisconnectTargets(m, ids)
    {
      var n :| RunsUnder(m, n, id);
      assert n in m;
    }
  }

  lemma ExternalTargets(m: External.Registry, ids: set<Id>)
    ensures forall id :: id in External.DisconnectTargets(m, ids) <==> id in ids && exists n :: ListedUnder(m, n, id)
  {
    forall id | id in External.DisconnectTargets(m, ids)
      ensures exists n :: ListedUnder(m, n, id)
    {
      var n :| n in m && m[n].id == id;
      assert ListedUnder(m, n, id);
    }
    forall id | id in ids && exists n :: ListedUnder(m, n, id)
      ensures id in External.DisconnectTargets(m, ids)
    {
      var n :| ListedUnder(m, n, id);
      assert n in m;
    }
  }

  // --- the network of the test --------------------------------------------------------------------------------

  lemma LinksAfter(d: Docker.State, course: Course, n: Name, network: NetworkName, connected: Docker.Reply,
                   d': Docker.State)
    requires Leaves(d, course, n, network, connected, d') && course.removed.None?
    ensures d'.links == d.links + if connected.Accepted? && course.attaches.Some?
                                  then {(course.attaches.value, network)} else {}
  {
  }

  lemma NextLinks(s: Protocol.Sys, t: Protocol.TestId, c: Composition, replies: Internal.CreateReplies)
    requires Protocol.Enabled(s, Protocol.Create(t, c, replies))
    ensures Protocol.Next(s, Protocol.Create(t, c, replies)).daemon == Protocol.CreateResult(s, t, c, replies).1
  {
    var (m, d, r) := Protocol.CreateResult(s, t, c, replies);
    Protocol.BookingKeeps(s.(registry := m, daemon := d), s.registry, t, c.containerName, replies.created, r);
  }

  /** In every run of the internal registry: joining a container attaches it exactly for a test with a network of its
      own, making one attaches it for any, and nothing else is attached or cut off. */
  lemma InternalLinksExactly(steps: seq<Protocol.Step>, s: Protocol.Sys, t: Protocol.TestId, c: Composition,
                             replies: Internal.CreateReplies)
    requires Protocol.Execute(steps) == Some(s) && Protocol.Enabled(s, Protocol.Create(t, c, replies))
    ensures var n, network := c.containerName, s.tests[t].network;
            var links := Protocol.Next(s, Protocol.Create(t, c, replies)).daemon.links;
            if Protocol.Generates(s.registry, n) then
              links == s.daemon.links + if replies.created.Success? && replies.connected.Accepted?
                                        then {(replies.created.value, network)} else {}
            else if s.registry[n].status.Failed? then links == s.daemon.links
            else
              && n in s.owner
              && links == s.daemon.links + if s.tests[t].mode.Isolated? && replies.connected.Accepted?
                                           then {(s.owner[n], network)} else {}
  {
    var n, test := c.containerName, s.tests[t];
    var course := InternalCourse(s.registry, n, test.mode, replies);
    Protocol.InvExecute(steps);
    assert n in s.registry ==> Protocol.EntryShape(s, n);
    InternalExactly(s.registry, s.daemon, c, test.network, test.mode, replies);
    LinksAfter(s.daemon, course, n, test.network, replies.connected, Protocol.CreateResult(s, t, c, replies).1);
    NextLinks(s, t, c, replies);
  }
}
