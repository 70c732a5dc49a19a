# Short-circuit resolution of configurations without dependencies

A Dafny model of Gradle's `ShortCircuitEmptyConfigurationResolver`. This resolver decorates
the real (delegate) configuration resolver. A configuration that declares dependencies goes
to the delegate in both phases:

- build-dependencies resolution (`resolveBuildDependencies`);
- graph resolution (`resolveGraph`).

A configuration without dependencies gets an empty result instead, built without any
resolution work. Graph resolution first consults the dependency-locking provider when locking
is on:

- a lock state that must be validated and pins modules sends the call to the delegate, so
  that the real engine reports the lock failure;
- otherwise an empty lock record is persisted for the configuration before the empty result
  is returned.

The empty results use two null objects:

- `EmptyResults`, an artifact set whose selection is itself and which visits nothing;
- `EmptyLenientConfiguration`, a lenient view that answers every query with the empty set.

Files:

- `Artifacts.dfy`: the result values (identifiers, visited graph, resolved configuration,
  phase-tagged resolver results) and the two null objects with their queries.
- `Collaborators.dfy`: what the resolver is given, reduced to what it can observe:
  - the resolve context;
  - the lock store as an in-memory value;
  - the `DependencyLockingProvider` class, holding that store and the ordered log of calls
    made to it;
  - the `DelegateResolver` class, with fixed but arbitrary answers and a log of its
    `resolveGraph` calls.
- `ShortCircuit.dfy`: the `ShortCircuitResolver` class and the pure description
  `ResolveGraphRun` that its `ResolveGraph` method is proved against. It also holds the
  lemmas about one call, two calls, and any series of calls.

`resolveBuildDependencies`, `emptyGraphResults` and the null objects are pure, so they are
functions. `resolveGraph` changes the lock provider's state and calls the delegate, so it is a
method. Its postcondition gives the outcome, the new lock store, and the exact calls made to
the provider and to the delegate.

## Model

| member | source | states |
|---|---|---|
| `ShortCircuit.ShortCircuitResolver.constructor` | platforms/software/dependency-management/src/main/java/org/gradle/api/internal/artifacts/ivyservice/ShortCircuitEmptyConfigurationResolver.java:60-65 | the resolver wraps the delegate it is given |
| `ShortCircuit.ShortCircuitResolver.GetAllRepositories` | platforms/software/dependency-management/src/main/java/org/gradle/api/internal/artifacts/ivyservice/ShortCircuitEmptyConfigurationResolver.java:67-70 | a pass-through: the repository list is the delegate's, unchanged and in the same order |
| `ShortCircuit.ShortCircuitResolver.ResolveBuildDependencies` | platforms/software/dependency-management/src/main/java/org/gradle/api/internal/artifacts/ivyservice/ShortCircuitEmptyConfigurationResolver.java:72-80 | with dependencies, exactly the delegate's answer; without, a "build dependencies resolved" result whose graph is the empty graph of the context and whose artifact set is `EmptyResults` |
| `ShortCircuit.BuildDependenciesIgnoreDelegate` | platforms/software/dependency-management/src/main/java/org/gradle/api/internal/artifacts/ivyservice/ShortCircuitEmptyConfigurationResolver.java:73-80 | without dependencies the build-dependencies phase never consults the delegate: resolvers around any two delegates answer alike |
| `ShortCircuit.ResolveGraphRun` | platforms/software/dependency-management/src/main/java/org/gradle/api/internal/artifacts/ivyservice/ShortCircuitEmptyConfigurationResolver.java:82-103 | the delegate is called if and only if the context has dependencies, or locking is on and the loaded state must be validated and pins modules; when called, its answer is returned unchanged, and otherwise the empty "graph resolved" result is returned. With dependencies or with locking off there are no lock calls and the store is unchanged. With locking on there is one load of the configuration's name; after that comes either the delegate with nothing persisted, or one persist of the empty record under that name, and the store changes only there. Every persist follows a load of the same name, and no name's gate decision (must be validated and non-empty) differs in the store the call leaves |
| `ShortCircuit.ShortCircuitResolver.ResolveGraph` | platforms/software/dependency-management/src/main/java/org/gradle/api/internal/artifacts/ivyservice/ShortCircuitEmptyConfigurationResolver.java:82-103 | the returned outcome, the provider's new store, the calls appended to the provider's log and the delegate calls appended to the delegate's log are exactly those of `ResolveGraphRun` on the store before the call; the load-then-persist protocol of the provider's log is preserved |
| `ShortCircuit.EmptyGraphResults` | platforms/software/dependency-management/src/main/java/org/gradle/api/internal/artifacts/ivyservice/ShortCircuitEmptyConfigurationResolver.java:105-111 | the empty graph's root is the owning module's group/name/version, with the component identifier made for that module and the context's attributes; the root has no dependencies, nothing is unresolved and there is no failure |
| `ShortCircuit.ShortCircuitGraphResults` | platforms/software/dependency-management/src/main/java/org/gradle/api/internal/artifacts/ivyservice/ShortCircuitEmptyConfigurationResolver.java:98-102 | the short-circuit "graph resolved" result: the empty graph, a resolved configuration over that same graph with the context's resolution host and the empty lenient view, and the `EmptyResults` artifact set |
| `ShortCircuit.PhasesAgreeWhenShortCircuited` | platforms/software/dependency-management/src/main/java/org/gradle/api/internal/artifacts/ivyservice/ShortCircuitEmptyConfigurationResolver.java:78-102 | when graph resolution short-circuits, both phases report the same graph and the same `EmptyResults` artifact set, and the lenient view has no files (filtered or not) and no unresolved dependencies |
| `ShortCircuit.ShortCircuitIsIdempotent` | platforms/software/dependency-management/src/main/java/org/gradle/api/internal/artifacts/ivyservice/ShortCircuitEmptyConfigurationResolver.java:88-102 | after a short-circuit with locking on, resolving the same configuration again short-circuits again, with the same outcome and lock calls, and leaves the store as the first call left it |
| `ShortCircuit.ResolveGraphSeries` | platforms/software/dependency-management/src/main/java/org/gradle/api/internal/artifacts/ivyservice/ShortCircuitEmptyConfigurationResolver.java:82-103 | a series of `resolveGraph` calls by configurations that all reach one locking provider yields one outcome per configuration |
| `ShortCircuit.SeriesOutcomesAsIfResolvedAlone` | platforms/software/dependency-management/src/main/java/org/gradle/api/internal/artifacts/ivyservice/ShortCircuitEmptyConfigurationResolver.java:84-102 | in such a series each configuration gets exactly the outcome it would get on the initial store: the empty records persisted by earlier short-circuits never change a later delegate-or-short-circuit decision |
| `ShortCircuit.SeriesKeepsLockProtocol` | platforms/software/dependency-management/src/main/java/org/gradle/api/internal/artifacts/ivyservice/ShortCircuitEmptyConfigurationResolver.java:88-96 | over any series of calls, every persist writes the empty record and directly follows a load of the same configuration name |
| `ShortCircuit.SeriesOnlyWritesEmptyRecords` | platforms/software/dependency-management/src/main/java/org/gradle/api/internal/artifacts/ivyservice/ShortCircuitEmptyConfigurationResolver.java:88-96 | over any series of calls the lock store keeps every record and its validation mode; a record that is new or changed afterwards is the empty one and belongs to a configuration of the series that has no dependencies and locking on |
| `Collaborators.LockStore.Load` | platforms/software/dependency-management/src/main/java/org/gradle/api/internal/artifacts/ivyservice/ShortCircuitEmptyConfigurationResolver.java:90 | the loaded state carries the stored locked modules of that name (none for a configuration never locked) and the store's validation mode |
| `Collaborators.LockStore.Persist` | platforms/software/dependency-management/src/main/java/org/gradle/api/internal/artifacts/ivyservice/ShortCircuitEmptyConfigurationResolver.java:95 | persisting replaces only that name's record: loading it back gives the persisted modules, and every other name loads as before |
| `Collaborators.DependencyLockingProvider.LoadLockState` | platforms/software/dependency-management/src/main/java/org/gradle/api/internal/artifacts/ivyservice/ShortCircuitEmptyConfigurationResolver.java:89-90 | returns the store's state for the name and logs one load; the store is untouched |
| `Collaborators.DependencyLockingProvider.PersistResolvedDependencies` | platforms/software/dependency-management/src/main/java/org/gradle/api/internal/artifacts/ivyservice/ShortCircuitEmptyConfigurationResolver.java:95 | stores the record under the name and logs one persist |
| `Collaborators.DelegateResolver.ResolveGraph` | platforms/software/dependency-management/src/main/java/org/gradle/api/internal/artifacts/ivyservice/ShortCircuitEmptyConfigurationResolver.java:84-86 | the delegate answers its fixed answer for the context and logs the call |
| `Artifacts.ArtifactSet.Select` | platforms/software/dependency-management/src/main/java/org/gradle/api/internal/artifacts/ivyservice/ShortCircuitEmptyConfigurationResolver.java:116-119 | selecting from `EmptyResults` returns the same instance, whatever the filters |
| `Artifacts.ArtifactSet.VisitDependencies` | platforms/software/dependency-management/src/main/java/org/gradle/api/internal/artifacts/ivyservice/ShortCircuitEmptyConfigurationResolver.java:121-123 | `EmptyResults` adds no build dependency |
| `Artifacts.ArtifactSet.VisitArtifacts` | platforms/software/dependency-management/src/main/java/org/gradle/api/internal/artifacts/ivyservice/ShortCircuitEmptyConfigurationResolver.java:125-127 | `EmptyResults` sends the visitor no callback, whatever the failure policy |
| `Artifacts.EmptySelectionIsFixedPoint` | platforms/software/dependency-management/src/main/java/org/gradle/api/internal/artifacts/ivyservice/ShortCircuitEmptyConfigurationResolver.java:113-127 | selection from `EmptyResults` is a fixed point: selecting again with any filters gives the same set, and the selection visits nothing |
| `Artifacts.LenientConfiguration.Select` | platforms/software/dependency-management/src/main/java/org/gradle/api/internal/artifacts/ivyservice/ShortCircuitEmptyConfigurationResolver.java:133-141 | both overloads of the empty lenient view's selection return `EmptyResults` |
| `Artifacts.LenientConfiguration.GetFirstLevelModuleDependencies` | platforms/software/dependency-management/src/main/java/org/gradle/api/internal/artifacts/ivyservice/ShortCircuitEmptyConfigurationResolver.java:143-151 | the empty view has no first-level dependencies, filtered or not |
| `Artifacts.LenientConfiguration.GetAllModuleDependencies` | platforms/software/dependency-management/src/main/java/org/gradle/api/internal/artifacts/ivyservice/ShortCircuitEmptyConfigurationResolver.java:153-156 | the empty view has no module dependencies |
| `Artifacts.LenientConfiguration.GetUnresolvedModuleDependencies` | platforms/software/dependency-management/src/main/java/org/gradle/api/internal/artifacts/ivyservice/ShortCircuitEmptyConfigurationResolver.java:158-161 | the empty view has no unresolved dependencies |
| `Artifacts.LenientConfiguration.GetFiles` | platforms/software/dependency-management/src/main/java/org/gradle/api/internal/artifacts/ivyservice/ShortCircuitEmptyConfigurationResolver.java:163-171 | the empty view has no files, filtered or not |
| `Artifacts.LenientConfiguration.GetArtifacts` | platforms/software/dependency-management/src/main/java/org/gradle/api/internal/artifacts/ivyservice/ShortCircuitEmptyConfigurationResolver.java:173-181 | the empty view has no artifacts, filtered or not |
| `Artifacts.EmptyLenientQueriesAgree` | platforms/software/dependency-management/src/main/java/org/gradle/api/internal/artifacts/ivyservice/ShortCircuitEmptyConfigurationResolver.java:131-181 | filtered and unfiltered overloads of the empty view agree, its files are the files of its artifacts, its first-level dependencies are among all its dependencies, and its selection visits nothing |

## Left out

- The real delegate resolver (graph walking, conflict resolution, lock validation). It is a class with a fixed but arbitrary answer per context. It does not read or write the lock store here, although the real engine does. Its answer to the same context does not vary between calls.
- How the locking provider loads and writes lock files (disk I/O, file format, lock modes). The store is an in-memory map from configuration name to record, with one validation flag for the whole store. A name never locked loads as no locked modules.
- `hasDependencies` is implemented by the resolve context, outside this file. It is a boolean field of the context, taken as given.
- The series of calls (`ResolveGraphSeries` and its lemmas) stands for repeated `resolveGraph` calls by configurations that share one locking provider; it requires that, and says nothing about configurations whose strategies name different providers.
- Results are compared as values. The source builds new graph, resolved-configuration and lenient-view objects on every call; object identity is modelled only for the shared `EmptyResults` instance.
- The identifier factories, `DefaultResolutionResultBuilder.empty`, `DefaultResolvedConfiguration`, `DefaultVisitedGraphResults` and `DefaultResolverResults` are foreign classes. They are modelled as datatype constructors holding what they are given. The build identifier stored by the constructor is never read in this file, so it is not modelled.
- Artifact sets and lenient views built by the delegate are opaque variants (`DelegateArtifactSet`, `DelegateLenientConfiguration`). Their queries are defined only on the null objects.
- Visitors and the task-dependency context are modelled by what they receive: a sequence of callbacks and a set of task dependencies.
- Exceptions: a `ResolveException` raised by the delegate is a `Raised` outcome, returned unchanged like any other answer. Failures raised by the lock provider itself are not modelled.
- Concurrency: calls are sequential in the model. The source adds no synchronisation of its own.
- `ConfigurableFileCollection` and `DefaultListProperty` are not part of this model. The first is an interface with no behaviour. The second forwards every call to a superclass whose code is not available.
