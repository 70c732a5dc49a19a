/** The collaborators the short-circuit resolver is given: the resolve context it is asked
    about, the dependency-locking provider reached through the context's resolution
    strategy, and the delegate resolver it wraps. Their real implementations are not part
    of this model; each is reduced to the state the short-circuit resolver can observe. */
module Collaborators {
  import opened Artifacts

  /** What the locking provider persists for one configuration: the locked modules and the
      changing modules among them. */
  datatype LockRecord = LockRecord(modules: set<ModuleVersionId>, changingModules: set<ModuleVersionId>)

  /** The record that says "this configuration resolved to nothing". */
  const EmptyLockRecord := LockRecord({}, {})

  /** A loaded lock state: the locked dependencies and whether they must be validated. */
  datatype LockState = LockState(lockedDependencies: set<ModuleVersionId>, mustValidate: bool)

  /** The lock store, kept in memory: one record per configuration name, and whether the
      current build validates lock state (it does not while locks are being written). */
  datatype LockStore = LockStore(records: map<string, LockRecord>, mustValidate: bool) {

    /** The lock state for a configuration: its locked modules, none for a configuration
        never locked. */
    function Load(name: string): (s: LockState)
      ensures s.mustValidate == mustValidate
      ensures name !in records ==> s.lockedDependencies == {}
      ensures name in records ==> s.lockedDependencies == records[name].modules
    {
      LockState(if name in records then records[name].modules else {}, mustValidate)
    }

    /** Persisting replaces the record of this configuration and of no other: loading it
        back gives the persisted modules, loading any other name gives what it gave before. */
    function Persist(name: string, modules: set<ModuleVersionId>, changing: set<ModuleVersionId>): (st: LockStore)
      ensures name in st.records && st.records[name] == LockRecord(modules, changing)
      ensures st.Load(name) == LockState(modules, mustValidate)
      ensures forall other :: other != name ==> st.Load(other) == Load(other)
      ensures st.records.Keys == records.Keys + {name}
    {
      LockStore(records[name := LockRecord(modules, changing)], mustValidate)
    }
  }

  /** One call made to the locking provider. */
  datatype LockCall = LockStateLoaded(name: string) | DependenciesPersisted(name: string, record: LockRecord)

  /** The DependencyLockingProvider: a lock store and the calls made to it, in order. */
  class DependencyLockingProvider {
    var store: LockStore
    var calls: seq<LockCall>

    constructor (store: LockStore)
      ensures this.store == store && calls == []
    {
      this.store := store;
      calls := [];
    }

    method LoadLockState(name: string) returns (s: LockState)
      modifies this`calls
      ensures s == store.Load(name)
      ensures calls == old(calls) + [LockStateLoaded(name)]
    {
      s := store.Load(name);
      calls := calls + [LockStateLoaded(name)];
    }

    method PersistResolvedDependencies(name: string, modules: set<ModuleVersionId>, changing: set<ModuleVersionId>)
      modifies this
      ensures store == old(store).Persist(name, modules, changing)
      ensures calls == old(calls) + [DependenciesPersisted(name, LockRecord(modules, changing))]
    {
      store := store.Persist(name, modules, changing);
      calls := calls + [DependenciesPersisted(name, LockRecord(modules, changing))];
    }
  }

  /** The resolution strategy of a configuration, as far as locking goes. */
  datatype ResolutionStrategy = ResolutionStrategy(
    dependencyLockingEnabled: bool,
    dependencyLockingProvider: DependencyLockingProvider)

  /** The configuration being resolved (a ResolveContext). Whether it has dependencies is
      the context's own answer, taken as given. */
  datatype ResolveContext = ResolveContext(
    name: string,
    hasDependencies: bool,
    resolutionStrategy: ResolutionStrategy,
    owningModule: Module,
    attributes: Attributes,
    resolutionHost: ResolutionHost)

  datatype Repository = Repository(name: string)

  /** The resolver being wrapped. What it answers is fixed but arbitrary; its resolveGraph
      calls are recorded so that one can say whether, and with what, it was called. */
  class DelegateResolver {
    const repositories: seq<Repository>
    const buildDependenciesAnswer: ResolveContext -> Outcome
    const graphAnswer: ResolveContext -> Outcome
    var graphCalls: seq<ResolveContext>

    constructor (repositories: seq<Repository>,
                 buildDependenciesAnswer: ResolveContext -> Outcome,
                 graphAnswer: ResolveContext -> Outcome)
      ensures this.repositories == repositories
      ensures this.buildDependenciesAnswer == buildDependenciesAnswer
      ensures this.graphAnswer == graphAnswer
      ensures graphCalls == []
    {
      this.repositories := repositories;
      this.buildDependenciesAnswer := buildDependenciesAnswer;
      this.graphAnswer := graphAnswer;
      graphCalls := [];
    }

    method ResolveGraph(ctx: ResolveContext) returns (r: Outcome)
      modifies this`graphCalls
      ensures r == graphAnswer(ctx)
      ensures graphCalls == old(graphCalls) + [ctx]
    {
      r := graphAnswer(ctx);
      graphCalls := graphCalls + [ctx];
    }
  }
}
