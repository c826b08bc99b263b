# dockertest, modelled and verified

Dockertest runs many tests at the same time in one process. Every test creates and starts docker containers,
runs its body, and tears down what it created; some containers are shared by tests through registries that live
as long as the process. This project models the two machines behind that, and the point where they meet:

* **the registries of static containers**: internal containers (reference-counted, removed by whoever stops using
  them last), dynamic containers (created if missing, never cleaned up), external containers (only looked up), and
  the networks that tests share;
* **the engine and the runner of one test**: compositions are named and injected into each other, created, started
  (strict ones in order, relaxed ones by concurrent tasks), inspected, used by the test body, and torn down, while a
  table from handles to positions that was built once must stay right;
* **where they meet**: the engine recognises the containers it started by id, so it relies on a registry to start
  the very container it created.

`dafny verify dfyconfig.toml` checks everything.

## How the model is built

Code that changes things in place is a class whose methods are the code, proved against a function (`...Spec`) from
the old state and the replies of the daemon to the new state. These functions in turn are held against relations that
say in plain terms what must come out (`Containers.MadeFrom` and `GoesBy`, `ProcessEffects.CreatesExactly`,
`ScopedNetworks.Fits`, `Flight.SeenAs`, `Meeting.Delivers`). What the source promises about all runs is proved
about transition systems whose steps are exactly these functions, one step for each scope of a lock, so a sequence
of steps is an interleaving of any number of tests. What the daemon answers is arbitrary in every step; so is the
order in which a hash map is visited. There are two such systems: `InternalProtocol` has the internal registry alone,
with the ghost state its invariant needs, and `Process` has everything. `Simulation` proves that a run of the second,
seen through its internal containers (`Projection`), is a run of the first, and `ProcessCounts` that the users, leaks
and losses read off the steps of the process are those of the first.

| file | part of the program |
|---|---|
| `Containers.dfy`, `Docker.dfy` | the values that travel through the pipeline; the daemon as the registries see it |
| `InternalContainers.dfy` | the internal registry, its five operations in place |
| `InternalProtocol.dfy` | any number of tests using it concurrently; the invariant of every run |
| `InternalTheorems.dfy` | what follows for every run: no premature removal, exact accounting, quiescence, agreement |
| `InternalLimits.dfy`, `InternalRefusals.dfy` | where these promises end, with the exact conditions and concrete runs |
| `DynamicContainers.dfy`, `ExternalContainers.dfy`, `StaticContainers.dfy` | the other registries and their front |
| `Process.dfy` | the whole process: any number of tests, all three registries, containers of their own, the outside |
| `NonInterference.dfy` | what no test can do to external and dynamic containers, and what is listed of them |
| `Simulation.dfy`, `ProcessCounts.dfy` | every run of the process is a run of the internal protocol, with the same users, leaks and losses |
| `ProcessTheorems.dfy`, `ProcessNetworks.dfy` | so its promises hold for the process; dynamic containers are started once and alike; isolated tests stay connected |
| `ProcessEffects.dfy`, `ProcessEntries.dfy`, `ProcessOrigins.dfy` | what one creation does, exactly, in every state; what entries say about a whole run; where every container comes from |
| `ScopedNetworks.dfy` | one shared network per namespace, and which existing network is adopted |
| `Engine.dfy`, `Launch.dfy`, `StartOrder.dfy`, `Flight.dfy` | the phases of one test |
| `Runner.dfy` | a whole run with all its exits, and teardown |
| `Meeting.dfy` | the registries discharge what the engine assumes; handle resolution end to end |
| `CompositionOrder.dfy` | the start order, in terms of the compositions of a test |
| `Ports.dfy`, `Volumes.dfy` | port mappings on real text; named volumes |

What the model assumes: the daemon never gives out an id twice; a name is used under one management policy; a static
container's name is the handle it is asked for by, which `Engine.Fueling.ResolveFinalContainerName` establishes;
isolated networks and generated names carry fresh random suffixes; a wait condition keeps the identity of the
container or fails. Names, handles, ids and network names are types without structure because the code only compares
them; ports and volumes, which are printed and parsed, use real strings.

## What the proofs found

* The usage counter of an internal container has eight bits. `InternalTheorems.ExactAccounting` holds modulo 256 in
  every state, and exactly while a container has at most 255 users, tests that hold it and leaked requests together.
  The safety theorems need that no container has more than 256 users at the same time (`Bounded`, or for a whole
  process `ProcessCounts.Uncrowded`); how many use it over time does not matter. One more is too many:
  `InternalLimits.WrappedCounterRemovesHeld` is a run with 257 users in which the first test to finish removes the
  container the other 256 hold, and `InternalTheorems.PrematureExactly` says exactly when that happens. A build that
  checks its arithmetic, as `cargo test` does by default, panics instead of wrapping: then the bound holds by itself
  (`InternalLimits.CheckedIsBounded`, `ProcessTheorems.CheckedIsUncrowded`) and no container is removed too early, with
  no bound on the number of users (`InternalLimits.CheckedNeverPremature`).
* A failing `start` records the id its caller asked for, not the id of the entry's container
  (`src/static_container/internal.rs:95-96`). If the caller is a relaxed start task that outlived its test, the entry
  forgets its container, which nobody will ever remove: `InternalLimits.StrandedContainer` is such a run,
  `LosesExactly` says which steps do it, and `InternalTheorems.AttachedRunLosesNothing` that nothing is lost while
  tests start only what they hold.
* The comment at `src/static_container/internal.rs:101-104`, that a test never meets a cleaned entry when it starts
  its container, is right for a test that holds it (`InternalTheorems.HoldingPinsIdentity`). A start that outlived its
  test can return another container (`Meeting.DetachedStartMeetsAnother`): `InternalTheorems.StartReturnsOwnExactly`
  says that a start returns the container it was asked for exactly if that container has any user at the time.
* A name can be refused for ever, also when no creation of its container failed: a test that is refused because the
  container failed to start raises the counter and never lowers it (`InternalRefusals.StartFailureIsFinal` is such a
  run of two tests). `InternalRefusals.RefusedForGoodExactly` says which names: those whose entry has failed and whose
  container was never created, is forgotten by the entry, or has a use nobody takes back. Any other failed entry is
  cleaned once the tests that hold its container let go of it. The creation that fails may do so because of a conflict
  with a container about to be removed (`InternalLimits.ConflictIsFinal`).
* A shared container is started as the composition asks for which made it. The start policy of a composition that joins
  it later has no effect (`CompositionOrder.SharedByMaker`).
* Internal containers are disconnected whatever the network mode, so on a shared network the clean-up of one test
  cuts others off: `InternalTheorems.SharedNetworkLosesLinkExactly` says when, and `InternalLimits.CleanupCutsOff` is
  such a run. Isolated networks are safe (`InternalTheorems.IsolatedConnectivity`).
* The documentation says that start-up fails if a dynamic container exists but does not run, and that dynamic
  containers are never removed. Start-up does fail (`DynamicContainers.StoppedFailsExactly`), because the daemon does
  not attach a container that is gone; but it is gone because the code removed it
  (`DynamicContainers.CreateRemovesExactly`), and the next attempt creates a new one
  (`DynamicContainers.NextAttemptCreates`). What is registered once is never removed
  (`NonInterference.RegisteredAreAlive`).
* A container that a test found may be dropped from its list, and then it is never detached from the network of the
  test: `Flight.FoundIsDropped` is an input. `Meeting.FoundHandedOverExactly` says when, in every run of the process:
  exactly if all its places are overwritten by containers created for the test alone under the same handle. If it was
  found once, that is exactly if one of those is created at a later place.
* A conflict on creating a shared network with a network that is not listed makes the test panic with nothing recorded,
  so another test attempts the creation again (`ScopedNetworks.PanicAllowsAnother`).
  `ScopedNetworks.AttemptsAreCounted` gives the number of attempts, and `ScopedNetworks.RecordedForGood` says exactly
  when there is at most one.
* Teardown after a failed creation, start or inspection is called as for a successful test
  (`src/runner.rs:212`, `232`, `259`), so `stop_on_failure` and `running_on_failure` still remove the containers;
  only a failed test body counts (`Runner.Runner.Run`).
* If two protocols publish the same container port at different host ports, which one is reported depends on the
  iteration order of a hash map: `Ports.ProtocolsClash` gives two orders with two results for any such port, and
  `Ports.OrderIrrelevantExactly` the exact condition.

## Model

| member | source | states |
|---|---|---|
| InternalContainers.InternalContainers.Create | src/static_container/internal.rs:124-187 | one lock scope of `create`: registry, daemon and result are those of `CreateSpec`; join counts once and attaches only in isolated mode, a failed entry is counted and refused, a cleaned or missing one is created anew |
| ProcessEffects.InternalLinksExactly | src/static_container/internal.rs:137-186 | in every run a creation of an internal container that is there attaches it to the test's network if and only if that is isolated and the daemon agrees; one that makes it attaches it in any mode if the daemon agrees; nothing else is attached or cut off |
| InternalContainers.InternalContainers.CreateAndConnect | src/static_container/internal.rs:189-216 | the entry is inserted with counter 1 before the network is attached, also as a failure without an id |
| InternalContainers.InternalContainers.Start | src/static_container/internal.rs:72-114 | the daemon is asked only if the entry is pending; the outcome is stored for everybody; a failure stores the caller's id |
| InternalContainers.InternalContainers.Disconnect | src/static_container/internal.rs:218-227 | exactly the running containers among the ids leave the network, whatever the order of visits |
| InternalContainers.InternalContainers.DecrementCompletionCounters | src/static_container/internal.rs:229-249 | each entry with one of the ids counts down, those reaching zero become cleaned, and the result has each id as often as entries with it were retired |
| InternalContainers.InternalContainers.Cleanup | src/static_container/internal.rs:116-122 | the three phases of a clean-up with nobody interfering: what is removed and detached, how often each id is asked to be removed, and nothing else |
| InternalProtocol.InvNext | src/static_container/internal.rs:72-249 | every step of every test keeps the invariant: shape of entries, ledger of ids, modular accounting and, with at most 256 users of a container at any time, no retired container in use |
| InternalProtocol.InvExecute | src/static_container/internal.rs:72-249 | the invariant holds after every run of any number of tests |
| InternalProtocol.HeldIsCurrent | src/static_container/internal.rs:161-172 | what a test holds is what its name stands for, and is not scheduled for removal |
| InternalProtocol.RetiresUnused | src/static_container/internal.rs:237-245 | a release retires an entry only if the releasing test was the last to hold it, nothing leaked, and nobody else was made responsible |
| InternalProtocol.StartReturnsOutcome | src/static_container/internal.rs:82-108 | a test that holds a container gets the one outcome its start has, and a success is that container |
| InternalTheorems.NoPrematureRemoval | src/static_container/internal.rs:116-122 | in every run no held container is removed, asked to be removed, or about to be, including between the lock and the request |
| InternalTheorems.ExactAccounting | src/static_container/internal.rs:21-27 | the counter is the number of holders plus leaked registrations, of which there is at least one, modulo 256, and exactly while they are at most 255 |
| InternalTheorems.ReleaseRetiresExactly | src/static_container/internal.rs:240-244 | a release cleans the entry if and only if the remaining users are a multiple of 256 |
| InternalTheorems.PrematureExactly | src/static_container/internal.rs:237-245 | a test makes itself responsible to remove what others still hold if and only if others hold it and the remaining users are a multiple of 256 |
| InternalTheorems.ScheduledExactly | src/static_container/internal.rs:229-249 | a container is scheduled for removal if and only if nobody holds it and no registration leaked |
| InternalTheorems.Quiescence | src/static_container/internal.rs:41-47 | when all tests are done, over any number of generations, each container was removed by exactly one request, or leaked and by none |
| InternalTheorems.QuiescentEntry | src/static_container/internal.rs:41-47 | the entry of a name without leaks ends up cleaned, unless creating its container failed last |
| InternalTheorems.HoldingPinsIdentity | src/static_container/internal.rs:101-107 | between create and clean-up a start meets neither a missing nor a cleaned entry and succeeds only with the created container |
| InternalTheorems.CurrentExactly | src/static_container/internal.rs:229-249 | an entry stands for a container if and only if that has users or was lost |
| InternalTheorems.StartReturnsOwnExactly | src/static_container/internal.rs:72-114 | for every start, detached or not: a success is the container asked for if and only if that has users; with users the entry is neither missing nor cleaned and the result is the recorded outcome |
| InternalTheorems.StartedOnce | src/static_container/internal.rs:82-100 | the daemon is asked to start a container at most once in a whole run |
| InternalTheorems.OutcomeKept | src/static_container/internal.rs:84-99 | no step changes how the start of a container ended |
| InternalTheorems.ResultIsOutcome | src/static_container/internal.rs:84-99 | what a holder's start returned anywhere in a run is the outcome recorded at its end |
| InternalTheorems.StartsAgree | src/static_container/internal.rs:84-99 | all holders that start a container get the same result |
| InternalTheorems.IsolatedConnectivity | src/static_container/internal.rs:141-186 | in isolated mode a held container stays on the test's network until the test's own clean-up, whatever others do |
| InternalTheorems.SharedNetworkLosesLinkExactly | src/static_container/internal.rs:218-227 | when a clean-up takes another test's container off its network: if and only if both use the network and the container runs and is held by the cleaning test |
| InternalTheorems.LeaksExactly | src/static_container/internal.rs:153-183 | a registration leaks in exactly three cases: failed entry, container already held, created but not attached |
| InternalTheorems.CreationFailureIsFinal | src/static_container/internal.rs:207-213 | after a failed creation every later create of that name returns the same error, in every run, whatever the number of users |
| InternalTheorems.AttachedRunLosesNothing | src/static_container/internal.rs:94-98 | while tests start only what they hold no entry forgets its container |
| InternalTheorems.LostIsNeverRemoved | src/static_container/internal.rs:94-98 | a container its entry forgot is never asked to be removed |
| InternalLimits.LostExactly | src/static_container/internal.rs:94-98 | the containers counted as lost are those whose entry remembers another id than that of the container it stands for |
| InternalLimits.LosesExactly | src/static_container/internal.rs:94-98 | in every run, of all steps, exactly those make an entry remember another id in which the start of another generation's container fails on it |
| InternalLimits.LosersAreDetached | src/engine.rs:271-273 | whoever asks for such a start has let go of what it asked for |
| InternalLimits.StrandedContainer | src/engine.rs:271-273 | a concrete run of two tests after which a container without users is never removed |
| InternalLimits.CrowdRun | src/static_container/internal.rs:153 | any number of tests can share a container, the counter being their number modulo 256 |
| InternalLimits.WrappedCounterRemovesHeld | src/static_container/internal.rs:26 | with 257 users, or a multiple of 256 more, the first to finish removes what all others hold |
| InternalLimits.CheckedIsBounded | src/static_container/internal.rs:153 | with arithmetic that panics on overflow no container ever has more than 255 users, in every run |
| InternalRefusals.RefusingExactly | src/static_container/internal.rs:157-160 | a failed entry is one for which a create returns its error whatever the daemon would answer |
| InternalRefusals.RefusedForGoodExactly | src/static_container/internal.rs:124-249 | every create of a name is refused with an error in every continuation of a run if and only if its entry has failed with it and its container was never created, is lost, or leaked |
| InternalRefusals.CleanedInTheEnd | src/static_container/internal.rs:229-249 | any other entry is cleaned by the clean-ups of the tests that hold its container, which are possible at any time |
| InternalRefusals.StartFailureIsFinal | src/static_container/internal.rs:157-160 | a concrete run of two tests after which a name is refused for good although its container was created |
| InternalLimits.CheckedNeverPremature | src/static_container/internal.rs:229-249 | then no held container is removed or about to be, whatever the number of tests |
| InternalLimits.CleanupCutsOff | src/static_container/internal.rs:218-227 | a concrete run of two tests on a shared network in which the clean-up of one cuts the other off a container it holds |
| InternalLimits.ConflictIsFinal | src/static_container/internal.rs:207-213 | a concrete run in which a creation is refused between a release and the removal it leads to, and every later one of that name fails with the same error |
| DynamicContainers.DynamicContainers.Create | src/static_container/dynamic.rs:41-107 | one lock scope of `create`: join, adopt what exists, or create, as `CreateSpec` says |
| DynamicContainers.DynamicContainers.Adopt | src/docker/static_container.rs:55-86 | an existing container is adopted as running before; one that does not run is removed first |
| DynamicContainers.DynamicContainers.Generate | src/docker/static_container.rs:92-100 | a missing container is created and attached whatever the network mode |
| DynamicContainers.DynamicContainers.Start | src/static_container/dynamic.rs:109-139 | the daemon is asked only if the entry is pending, and the outcome is stored |
| DynamicContainers.DynamicContainers.PriorRunningContainers | src/static_container/dynamic.rs:141-153 | exactly the containers that ran before, whatever the order of visits |
| DynamicContainers.InvNext | src/static_container/dynamic.rs:41-139 | every operation keeps the invariant, and an entry only ever goes from pending to running or failed |
| DynamicContainers.BindingsAreKept | src/static_container/dynamic.rs:50-106 | in every run from an empty registry names stay bound to the same container, prior containers stay listed, and every container is started at most once |
| DynamicContainers.StartsAgree | src/static_container/dynamic.rs:115-133 | in every run from an empty registry everybody who ever starts a registered name gets the same container or error |
| DynamicContainers.CreateRemovesExactly | src/docker/static_container.rs:56-75 | a creation asks to remove a container if and only if it finds it stopped, and then it creates none |
| DynamicContainers.StoppedFailsExactly | src/docker/static_container.rs:55-85 | finding it stopped, a creation succeeds only without a network to attach to; a failure registers nothing |
| DynamicContainers.NextAttemptCreates | src/docker/static_container.rs:92-100 | after that failure the next attempt, by any test, creates the container anew and registers it |
| ExternalContainers.ExternalContainers.Include | src/static_container/external.rs:17-54 | looked up once, remembered, and attached as the network mode demands, as `IncludeSpec` says |
| ExternalContainers.ExternalContainers.IncludeExisting | src/docker/static_container.rs:13-43 | succeeds if and only if the container is inspected with an id and, unless the network is external, attached |
| ExternalContainers.ExternalContainers.Containers | src/static_container/external.rs:56-58 | exactly the remembered containers, whatever the order of visits |
| ExternalContainers.ExternalContainers.Disconnect | src/static_container/external.rs:60-85 | in isolated mode exactly the named containers leave the network, otherwise none |
| StaticContainers.StaticContainers.Create | src/static_container/mod.rs:44-76 | the request changes the registry of its policy and no other |
| StaticContainers.StaticContainers.Start | src/static_container/mod.rs:89-106 | the start goes to the registry of the container's policy; external ones are refused |
| StaticContainers.StaticContainers.ExternalContainers | src/static_container/mod.rs:78-87 | the external containers and the dynamic ones that ran before, and no other |
| StaticContainers.StaticContainers.Cleanup | src/static_container/mod.rs:108-123 | only internal entries change and only internal containers are removed, each asked for as often as it was retired; nothing is created or started; which links are cut in which mode |
| Process.InvNext | src/static_container/mod.rs:44-123 | every step of every test keeps names, ids, policies, handles, answers and results consistent across the three registries, and no registry forgets |
| ProcessEffects.CreatesExactly | src/static_container/mod.rs:44-76 | every creation of a shared container, in every state and for all answers of the daemon: which containers it makes, removes and attaches, whether it succeeds or with which error it ends, which one entry changes and how, and that the test is told what the entry then stands for |
| ProcessEffects.StartExactly | src/static_container/mod.rs:89-106 | every start of a shared container, in every state: it goes to the registry that manages the container; the first one of a pending entry asks the daemon and settles the entry, any other returns what the entry says and asks for nothing |
| ProcessEffects.CutsExactly | src/static_container/external.rs:60-85 | what the clean-up of a test takes off its network, as far as the daemon complies: of the containers it got exactly the internal ones that run, in every mode, and in isolated mode the external ones; nothing else happens |
| ProcessEffects.InternalExactly | src/static_container/internal.rs:124-216 | for the internal registry: a new container gets a pending entry with counter 1, attached or not; a failed creation a failed entry; joining and being refused count one more user, failing to attach to a joined one none |
| ProcessEffects.ExternalExactly | src/static_container/external.rs:17-54 | for the external registry: an entry appears if and only if there is none and the creation succeeds, for the id that inspection reports; it is attached unless the network is external, and later only if it is isolated |
| ProcessEffects.DynamicExactly | src/static_container/dynamic.rs:41-107 | for the dynamic registry: an entry appears if and only if there is none and the creation succeeds, for the container made or found, attached in every network mode; joining attaches in isolated mode only |
| ProcessEntries.InternalAttachesExactly | src/static_container/internal.rs:137-216 | the links a creation of an internal container adds, in every state of the process |
| ProcessEntries.EntersExactly | src/docker/static_container.rs:92-100 | a failing creation leaves the dynamic and the external registry and all tests as they were; a new dynamic entry is for a container attached to the test's network in every mode |
| ProcessEntries.EnteredExactly | src/static_container/dynamic.rs:85-106 | in every run there is a dynamic or external entry if and only if some test was given a container of that name |
| ProcessEntries.EnteredAreAttached | src/docker/static_container.rs:76-100 | in every run and every network mode the container of a dynamic entry is attached to the network of a test that was given it, and no step ever cuts it off |
| ProcessOrigins.OriginOf | src/docker/composition.rs:36-195 | in every run whatever a test or a registry has hold of was made at one step, for a composition whose name, handle, start policy and management it has, and no other step made a container of that id |
| NonInterference.RegisteredAreNeverReached | src/docker/container.rs:280-325 | no step of any test, under any prune strategy, stops or removes a container ever registered as dynamic or external |
| NonInterference.RegisteredSurvive | src/docker/container.rs:294-325 | such a container stays alive through every run |
| NonInterference.RegisteredAreAlive | src/docker/static_container.rs:55-86 | in every run with a daemon that neither finds nor attaches what is gone, no container ever registered as dynamic or external is gone |
| NonInterference.RemovesOnlyReached | src/docker/container.rs:294-325 | what a step makes disappear is among what it is said to reach |
| NonInterference.EntriesKept | src/static_container/external.rs:26-53 | over every run external entries never change and dynamic ones only get started |
| NonInterference.FoundIsListed | src/static_container/mod.rs:78-87 | what a creation merely found is listed ever after, under the name asked for, with its id, and nothing else under that name |
| Simulation.CreateAgrees | src/static_container/internal.rs:124-216 | a creation in the internal registry returns and asks the same, whatever else the daemon runs |
| Simulation.SimulateStep | src/static_container/internal.rs:72-249 | a step of the process that concerns the internal registry is possible in the protocol and has the same effect there |
| Simulation.UnseenStep | src/docker/composition.rs:47-60 | any other step, pruning and clearing of leftovers included, leaves internal containers alone |
| Simulation.Simulated | src/static_container/mod.rs:44-123 | for every run of the process the counterparts of its steps are a run of the protocol, which ends in what the process shows of internal containers |
| ProcessCounts.Counted | src/static_container/internal.rs:124-249 | the leaks, losses and last created containers read off the steps of the process are those of that run; if at no time more than 256 use a container, it is bounded |
| ProcessCounts.CrowdIsUsers | src/static_container/internal.rs:21-27 | the tests that asked for a container and have not let go of it, and the leaked requests, are its users |
| ProcessCounts.SameLeaks | src/static_container/internal.rs:153-183 | a request leaks in the process if and only if it leaks in the protocol |
| ProcessTheorems.HeldIsSafe | src/docker/container.rs:280-325 | in every run of the process no step of any test stops or removes an internal container that a test holds, be it the last user's removal, teardown under any strategy, or clearing a name |
| ProcessTheorems.HeldIsConnected | src/static_container/internal.rs:141-186 | in every run of the process an isolated test stays connected to the internal containers it holds |
| ProcessNetworks.FoundIsConnected | src/static_container/external.rs:17-54 | in every run of the process an isolated test stays connected to what the external and the dynamic registry gave it |
| ProcessNetworks.LinkKept | src/docker/container.rs:328-338 | no step cuts a registered container off a network but the clean-up of a test on that network |
| ProcessTheorems.InternalStartedOnce | src/static_container/internal.rs:82-100 | in every run of the process an internal container is started at most once |
| ProcessTheorems.StartReturnsOwnExactly | src/static_container/internal.rs:72-114 | in every run of the process a start of an internal container that succeeds, also one that outlived its test, returns the container asked for if and only if somebody uses it |
| ProcessTheorems.RefusedForGood | src/static_container/internal.rs:157-160 | a failed entry whose container was never created, lost or leaked refuses every creation in every continuation of a run of the process |
| ProcessTheorems.StartsKeepIdentity | src/engine.rs:286-290 | in every run of the process the start of a shared container the test has not let go of returns the container its creation returned |
| ProcessTheorems.InternalStartsAgree | src/static_container/internal.rs:84-99 | in every run of the process all tests that start an internal container get the same result |
| ProcessTheorems.Drained | src/static_container/internal.rs:116-122 | when all tests of the process are done, each internal container it made was asked to be removed exactly once if none of the steps leaked or lost it, and never otherwise |
| ProcessTheorems.RetiredAsOnce | src/static_container/internal.rs:229-249 | in every state of the process a release asks to remove each container it retires exactly once |
| ProcessTheorems.CheckedIsUncrowded | src/static_container/internal.rs:153 | with arithmetic that panics on overflow no run of the process has more than 255 users of a container at any time |
| ProcessTheorems.DynamicStartsAgree | src/static_container/dynamic.rs:115-133 | in every run of the process all tests that start the dynamic container of a name get the same container or the same error |
| ProcessTheorems.DynamicStartedOnce | src/static_container/dynamic.rs:115-127 | in every run of the process a dynamic container is started at most once, and not while its entry is pending |
| ScopedNetworks.EarlierIsTotal | src/docker/network.rs:80 | the comparison of time stamps is total |
| ScopedNetworks.EarlierIsTransitive | src/docker/network.rs:80 | and transitive |
| ScopedNetworks.ExistingNetwork | src/docker/network.rs:71-93 | none if no network has exactly the name and a time stamp, otherwise the first one with the highest time stamp |
| ScopedNetworks.NewestIsUnique | src/docker/network.rs:71-93 | these conditions determine the network |
| ScopedNetworks.ScopedNetworks.CreateSingularNetwork | src/static_container/network.rs:39-98 | the memo and the result of one call on all its early returns and its panic, as `CreateSpec` says |
| ScopedNetworks.AttemptsAreCounted | src/docker/network.rs:31-40 | in every sequence of calls the creations attempted for a namespace are as many as panics before an outcome is recorded, and one more if the recording call attempts it |
| ScopedNetworks.PanickedExactly | src/docker/network.rs:37-40 | a call panics if and only if nothing is recorded, no network is there, the creation meets a conflict and still no network is listed |
| ScopedNetworks.RecordedForGood | src/static_container/network.rs:49-55 | at most one creation is attempted if and only if no call panics before an outcome is recorded, or one does and the recorded network was found; what is recorded stays |
| ScopedNetworks.PanicAllowsAnother | src/docker/network.rs:37-40 | two calls of which the first panics and the second attempts the creation again |
| ScopedNetworks.ResultsFollowMemo | src/static_container/network.rs:79-96 | a call that succeeds recorded the id it returns |
| ScopedNetworks.OutcomesExactly | src/static_container/network.rs:49-97 | every call of every run: until an outcome is recorded a call ends as the daemon's answers say; what the recording call ends with is recorded, a rejected creation, a conflict that cannot be looked up and a refused attachment as failure; later calls repeat the success or fail |
| ScopedNetworks.CallersAgree | src/static_container/network.rs:49-55 | all successful callers of a namespace get the same id |
| Engine.Bootstrap | src/engine.rs:77-102 | the table has exactly the names that some composition goes by, each with the first that does; the collisions are exactly those that two or more go by |
| Engine.ProvidedExactly | src/composition.rs:590-595 | a handle is provided as often as there are compositions that the user gave that name, or gave no name and whose repository it is |
| Engine.ProvidedOnce | src/engine.rs:85-90 | a handle provided once stands for one position |
| Engine.Fueling.ResolveFinalContainerName | src/engine.rs:106-111 | a static container is named as the user named it, or by its repository without such a name; any other gets a generated name; nothing else changes |
| Engine.Fueling.ResolveInjectContainerNameEnv | src/engine.rs:125-162 | succeeds if and only if every injected handle names exactly one composition; then the environments are overlaid with final names, otherwise nothing changes and the error is that of the first handle that nobody or more than one goes by |
| Engine.InjectedReads | src/engine.rs:144-159 | the last variable a handle is injected into has the final name of the one composition that goes by it; only environments change |
| Engine.InjectedKeeps | src/engine.rs:152-159 | all other variables keep their values |
| Engine.OverlayKeeps | src/engine.rs:152-159 | a variable nothing is injected into keeps its value |
| Engine.OverlayLast | src/engine.rs:152-159 | the last name injected into a variable counts |
| Launch.Ignite | src/engine.rs:187-230 | places keep the order of the compositions, and it succeeds if and only if every creation did |
| Launch.StartStrict | src/engine.rs:323-351 | all values in order, or the error of the first failure in order, after which nothing is attempted |
| Launch.WaitForRelaxed | src/engine.rs:354-396 | all values in order, or the first error in order |
| Launch.Igniting.StartContainers | src/engine.rs:254-308 | returns what `StartPhase` says: the error of the first failing strict start, else of the first failing relaxed one, with no place changed; or each place overwritten as placing strict, relaxed and listed containers in turn demands |
| Launch.Igniting.Place | src/engine.rs:284-305 | the loop that overwrites places in place computes the fold `Placed` |
| Launch.PlacedEvolves | src/engine.rs:284-305 | a place keeps what it held or holds a container it awaited |
| Launch.SlotFilled | src/engine.rs:286-304 | a place that alone awaits some container ends up with one it awaited |
| Launch.Conservation | src/engine.rs:284-305 | every id that was pending and got started appears as running, even when handles collide |
| Launch.NothingBlank | src/engine.rs:296-304 | the list keeps its length and no blank remains |
| Launch.SucceedsExactly | src/engine.rs:261-273 | starting succeeds if and only if the start of every pending container does |
| Launch.StartedExactly | src/engine.rs:261-278 | what was started are exactly the pending containers |
| CompositionOrder.OwnPlaces | src/engine.rs:261-268 | of the containers made for the test alone those started with a policy are, in the order of the compositions, exactly those whose composition asks for it |
| CompositionOrder.StartedAsAsked | src/docker/composition.rs:44-195 | what is started for a composition is the container the daemon made for it, with the name, handle and policy it asks for |
| CompositionOrder.StrictInOrder | src/engine.rs:261-273 | in every interleaving, of two compositions that ask for a strict start the later one is started only after the earlier one started well |
| CompositionOrder.SharedByMaker | src/engine.rs:261-268 | in every run of the process a shared container is started with the policy of the composition that made it |
| StartOrder.StrictInOrder | src/engine.rs:261-273 | in every interleaving a strict container begins only after all earlier strict ones ended well |
| StartOrder.AttemptedIsPrefix | src/engine.rs:323-351 | in every interleaving the strict containers attempted are a prefix, and only its last can have failed |
| StartOrder.ReturnsExactly | src/engine.rs:261-278 | the caller gets all containers if and only if every start ended well, otherwise the error of the failing strict start or of the first failing relaxed one |
| StartOrder.InterleavingIrrelevant | src/engine.rs:254-278 | all interleavings return what starting one after the other returns: the same containers in the same order, or the same error |
| StartOrder.NeverStuck | src/engine.rs:254-308 | until the caller returned some step is possible |
| StartOrder.RunsEnd | src/engine.rs:254-308 | no interleaving has more than two steps per container and one for the return |
| Flight.Orbiting.Inspect | src/engine.rs:476-525 | every running container that can be inspected gets the address reported, and keeps its name, id, handle and staticness; no other place changes; the errors are those of the running containers that cannot be inspected |
| Flight.FailingExactly | src/engine.rs:513-524 | inspection fails if and only if that of some running container does |
| Flight.LastReported | src/runner.rs:250-264 | and its last error is that of the last such container |
| Flight.HandlesResolve | src/engine.rs:461-474 | a handle provided once resolves to the container created for its composition, whatever the order and whatever else collides; any other handle is an error |
| Flight.UniqueSlotFilled | src/engine.rs:284-305 | the place of a handle provided once ends up running the container created for it |
| Flight.InspectKeepsHandles | src/engine.rs:485-518 | inspection does not change which container a handle stands for |
| Flight.IgnitingDebrisComplete | src/engine.rs:414-435 | after a failed creation or start teardown gets exactly what was created, and the registries all shared ids |
| Flight.OrbitingDebrisComplete | src/engine.rs:439-459 | after a successful start, even with collisions, teardown gets exactly the own containers, and the registries every shared one held and none neither held nor found |
| Flight.FoundStandsExactly | src/engine.rs:284-305 | of the containers found under a handle exactly the first few are dropped, as many as containers created under it come to start while a place of a found one is left before their own |
| Flight.FoundIsHandedOver | src/engine.rs:439-459 | a found container is handed to the registries if and only if not all its places are overwritten |
| Flight.HandedOverUnlessDisplaced | src/engine.rs:439-459 | found once, it is handed over if and only if no container is created under its handle at a later place |
| Flight.NothingIsForgotten | src/engine.rs:439-459 | teardown gets exactly what was created or found if and only if under no handle all places of found containers are overwritten |
| Flight.FoundIsDropped | src/engine.rs:284-305 | a found and then an own container under one handle, of which only the own one is placed and handed over |
| Flight.InspectKeepsDebris | src/engine.rs:476-525 | inspection does not change what is cleaned up |
| Runner.FailuresExactly | src/engine.rs:400-410 | the collected errors are exactly those of the failed creations |
| Runner.NamedExactly | src/composition.rs:565-579 | what naming changes: a static composition gets the name it goes by, any other a generated one |
| Runner.PreparedReads | src/engine.rs:125-162 | the name a container reads from its environment is the name the other one is created under |
| Runner.BoardsExactly | src/runner.rs:199-262 | the body gets to run if and only if every creation and every start goes well and every running container can be inspected; an own container starts as it was made if and only if the daemon agrees |
| Runner.OwnIsKept | src/docker/composition.rs:23-31 | the non-static containers in the list are exactly those the run created |
| Runner.Runner.CreateContainers | src/engine.rs:198-219 | the daemon ends up with exactly the new ids; results keep the order of the compositions: what the registries say for a static one, otherwise a container made as the composition asks for, or the first error of the two requests |
| Runner.Runner.Teardown | src/runner.rs:342-391 | the registries always get the shared ids; the own containers are left, stopped or removed as the strategy says, and the isolated network with them |
| Runner.Runner.StopContainers | src/docker/container.rs:280-292 | exactly the non-static containers are stopped |
| Runner.Runner.RemoveContainers | src/docker/container.rs:294-313 | exactly the non-static containers are removed, as far as the daemon complies |
| Runner.Runner.GiveUp | src/runner.rs:199-218 | a failed creation tears down once, as for a passed test, and reports the last creation error |
| Runner.Runner.Fly | src/runner.rs:221-308 | failed start, failed inspection, passed and failed body: one teardown each, with exactly what was created; a failed start reports the error of the start phase, a failed inspection that of the last container it fails for |
| Runner.Runner.Execute | src/runner.rs:193-308 | the same from the creation on, and when the body runs at all |
| Runner.Runner.Run | src/runner.rs:169-308 | a run that fails before creating changes nothing; any other tears down exactly once, with exactly the own ids it created and the shared ones it holds, which are removed after a pass or an early failure under all strategies but one, and after a failed body removed, stopped or left as the strategy says; the error is the first obstacle met; passes if and only if everything succeeds |
| Meeting.DetachedStartMeetsAnother | src/static_container/internal.rs:82-93 | a concrete run in which a start that outlived its test returns another container |
| Meeting.AllAsAsked | src/static_container/mod.rs:44-76 | every place of a test holds a container under the handle its composition asked for |
| Meeting.CreatedAreDistinct | src/engine.rs:286-290 | containers of a test with the same id are the same container |
| Meeting.RegistriesList | src/static_container/mod.rs:78-87 | what the external registry lists at one time and the dynamic one later includes every container the test found, under its handle only, and never its own |
| Meeting.StartsAreFaithful | src/engine.rs:286-290 | all starts of a test return the containers it created, whichever registry they went through |
| Meeting.TeardownReleases | src/engine.rs:606-633 | the ids teardown hands over make the internal registry count down exactly for what the test holds |
| Meeting.RegistriesProvide | src/engine.rs:254-308 | all that a run relies on holds in every run of the process with any number of tests |
| Meeting.EndToEnd | src/runner.rs:83-97 | in every run of the process a test body that asks for a handle gets, if one composition goes by it, by the user's name or without one by its repository, the container created, joined or found for it, with the address inspection reported; otherwise the error for none or for several |
| Meeting.FoundHandedOverExactly | src/engine.rs:439-459 | in every run of the process a found container is among the ids handed to the registries if and only if not all its places are overwritten by own containers created under its handle |
| Ports.RequestedAt | src/composition.rs:342-346 | for every sequence of mappings the request has an entry `port/tcp` for exactly the exported ports, each bound to the local host and the host port of the last mapping |
| Ports.LastCallCounts | src/composition.rs:340-346 | of several mappings of a port the last counts |
| Ports.PortBindings | src/docker/composition.rs:102-112 | of several mappings of a port the last is requested, on the local host |
| Ports.ReadsExactly | src/container/operational.rs:73-74 | checked reading succeeds if and only if all characters are digits and the number fits 32 bits, with the right value |
| Ports.ReadDecimal | src/composition.rs:342-346 | every 32-bit number is read back as it was printed |
| Ports.ReadU32Exactly | src/container/operational.rs:73-74 | a 32-bit number is read if and only if the text is digits that stand for it, after a plus sign or none |
| Ports.ReadV4Exactly | src/container/operational.rs:95-98 | a version-4 address is read if and only if the text is the address as it is printed, without leading zeros |
| Ports.TryFrom | src/container/operational.rs:59-86 | succeeds if and only if every entry is well-formed; then each offered port is mapped to a target it is offered at; the result is the one `Reading` has for some order of the keys, errors included |
| Ports.AllWellFormed | src/container/operational.rs:63-82 | reading succeeds if and only if every entry is well-formed, in any order of the keys |
| Ports.MapsOffered | src/container/operational.rs:63-82 | a port is mapped if and only if some entry offers it |
| Ports.FirstOfferCounts | src/container/operational.rs:76-80 | a port is mapped to the target of the entry visited first among those that offer it |
| Ports.Visit | src/container/operational.rs:76-80 | the first version-4 binding counts, and all must be well-formed |
| Ports.BindingExactly | src/container/operational.rs:88-108 | a binding is read if and only if it has an address of version 4 with a port that can be read, and skipped if and only if its address is of version 6, whatever its port |
| Ports.FirstV4Counts | src/container/operational.rs:76-80 | of all bindings of a port the first of version 4 counts |
| Ports.BothVersions | src/container/operational.rs:92-104 | of the two bindings that publishing all ports makes for a port, in either order, the one of version 4 is reported |
| Ports.OrderIrrelevantExactly | src/container/operational.rs:63-82 | all orders of the keys give the same result if and only if no two entries offer the same port at different targets |
| Ports.ProtocolsClash | src/container/operational.rs:63-82 | a port published for two protocols is reported with the host port of the one visited first |
| Ports.PortRoundTrip | src/container/operational.rs:59-146 | for all sequences of mappings over all ports, if the daemon echoes the request, reading succeeds and gives the last host port of each exported port and nothing else, in any iteration order |
| Volumes.VolumeResolver.ResolveNamedVolumes | src/runner.rs:395-433 | every mount, in order, is the name of the volume, a dash, the id of the run, a colon and the path, and the clean-up list has each used volume's suffixed name exactly once |
| Volumes.FirstColon | src/runner.rs:409-417 | the first colon of a mount separates a name on the clean-up list from the path, unless the user's name or the id has one |
| Volumes.SuffixedDiffer | src/runner.rs:412-416 | different volumes stay different |

## Left out

- Talking to the daemon: requests, their encoding and error texts are arbitrary replies; the daemon is the set of its containers, links, starts and removals.
- Overflow panics: `u8` arithmetic wraps in the model, as in builds without overflow checks; a build with them has the runs that `InternalLimits.CheckedRun` describes, without what becomes of the test that panics.
- Dynamic disconnection: `src/static_container/dynamic.rs:155-173` compares names with ids; they are different types here, so it does nothing.
- Starting by name: `src/docker/container.rs:249-251` starts a container by its name, the model by its id, which the daemon keeps apart.
- Automatic attachment: a container is attached to its network when it is created as well as by the later request; only the request is modelled.
- Time, logs, wait conditions and image pulls: a wait condition keeps the container or fails; pulling never fails the run and surfaces as a failed creation.
- Joining the container the tests themselves run in to a network: only its effect on the singular network's memo is modelled.
- Windows branches, builder setters and parsing of environment variables such as the prune strategy.
- IPv6 notation: which texts are version-6 addresses is a parameter of the port mappings.
- Volume removal: the clean-up list of volumes is computed, the requests to remove them are not modelled.
- Runner.Runner.Run: takes what the registries return as given; Meeting.RegistriesProvide proves that they return it, in every run of the process.
- Meeting.EndToEnd: needs that no internal container has more than 256 users at the same time, which a build that checks its arithmetic guarantees.
- InternalTheorems.NoPrematureRemoval: needs that no container has more than 256 users at the same time; with 257 it is false by InternalLimits.WrappedCounterRemovesHeld, and InternalTheorems.PrematureExactly is the exact condition.
- InternalRefusals.RefusedForGoodExactly: is about continuations in which no container has more than 256 users at the same time, as a wrapped counter can clean any entry.
- InternalTheorems.Quiescence: excludes containers whose entry was overwritten, for which it is false by InternalLimits.StrandedContainer.
