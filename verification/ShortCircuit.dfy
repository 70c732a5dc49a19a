/** The short-circuit resolver: a decorator around the delegate resolver that answers
    for a configuration declaring no dependencies without running a real resolution,
    unless the configuration's lock state has to be checked by the real engine. */
module ShortCircuit {
  import opened Artifacts
  import opened Collaborators

  /** The graph reported for a configuration that is not resolved for real: the owning
      module is the root, nothing hangs below it, nothing is unresolved, nothing failed. */
  function EmptyGraphResults(ctx: ResolveContext): (g: VisitedGraphResults)
    ensures g.resolutionResult.rootId == ModuleVersionId(ctx.owningModule.group, ctx.owningModule.name, ctx.owningModule.version)
    ensures g.resolutionResult.rootComponent == ComponentIdFor(ctx.owningModule)
    ensures g.resolutionResult.rootAttributes == ctx.attributes
    ensures g.resolutionResult.rootDependencies == {}
    ensures g.unresolvedDependencies == {}
    ensures g.failure == None
  {
    var id := ModuleVersionId(ctx.owningModule.group, ctx.owningModule.name, ctx.owningModule.version);
    var emptyResult := ResolutionResult(id, ComponentIdFor(ctx.owningModule), ctx.attributes, {});
    VisitedGraphResults(emptyResult, {}, None)
  }

  /** The "graph resolved" results of the short-circuit path: the empty graph, a resolved
      configuration over that same graph whose lenient view is the empty one, and the
      empty artifact set. */
  function ShortCircuitGraphResults(ctx: ResolveContext): (r: ResolverResults)
    ensures r.GraphResolved?
    ensures r.graph == EmptyGraphResults(ctx)
    ensures r.configuration.graph == r.graph
    ensures r.configuration.host == ctx.resolutionHost
    ensures r.configuration.lenient == EmptyLenientConfiguration
    ensures r.artifacts == EmptyResults
  {
    var graphResults := EmptyGraphResults(ctx);
    var resolvedConfiguration := ResolvedConfiguration(graphResults, ctx.resolutionHost, EmptyLenientConfiguration);
    GraphResolved(graphResults, resolvedConfiguration, EmptyResults)
  }

  /** A lock state that a configuration without dependencies contradicts: it must be
      validated and it pins at least one module. */
  predicate MustBeValidated(s: LockState) {
    s.mustValidate && s.lockedDependencies != {}
  }

  /** What one resolveGraph call amounts to: its outcome, the lock store it leaves, the
      calls it made to the locking provider, and whether it called the delegate. */
  datatype GraphRun = GraphRun(outcome: Outcome, store: LockStore, lockCalls: seq<LockCall>, delegated: bool)

  /** Every persist is of the empty record and comes right after a load of the same
      configuration. */
  ghost predicate LockProtocol(calls: seq<LockCall>) {
    forall i :: 0 <= i < |calls| && calls[i].DependenciesPersisted? ==>
      0 < i && calls[i - 1] == LockStateLoaded(calls[i].name) && calls[i].record == EmptyLockRecord
  }

  /** resolveGraph for ctx against the lock store `store`, when the delegate would answer
      `delegateAnswer`. */
  function ResolveGraphRun(ctx: ResolveContext, store: LockStore, delegateAnswer: Outcome): (run: GraphRun)
    // the delegate is called exactly when the configuration declares dependencies, or
    // locking is on and the loaded lock state must be validated and is non-empty
    ensures run.delegated <==>
      ctx.hasDependencies ||
      (ctx.resolutionStrategy.dependencyLockingEnabled && MustBeValidated(store.Load(ctx.name)))
    ensures run.delegated ==> run.outcome == delegateAnswer
    ensures !run.delegated ==> run.outcome == Resolved(ShortCircuitGraphResults(ctx))
    // no lock traffic of its own with dependencies or with locking off
    ensures ctx.hasDependencies || !ctx.resolutionStrategy.dependencyLockingEnabled ==>
      run.lockCalls == [] && run.store == store
    // otherwise one load of this configuration, then either the delegate, or one persist
    // of the empty record under the same name
    ensures !ctx.hasDependencies && ctx.resolutionStrategy.dependencyLockingEnabled && run.delegated ==>
      run.lockCalls == [LockStateLoaded(ctx.name)] && run.store == store
    ensures !ctx.hasDependencies && ctx.resolutionStrategy.dependencyLockingEnabled && !run.delegated ==>
      run.lockCalls == [LockStateLoaded(ctx.name), DependenciesPersisted(ctx.name, EmptyLockRecord)] &&
      run.store == store.Persist(ctx.name, {}, {})
    ensures LockProtocol(run.lockCalls)
    // what the call leaves in the store never changes the gate decision for any name
    ensures forall n :: MustBeValidated(run.store.Load(n)) == MustBeValidated(store.Load(n))
  {
    if ctx.hasDependencies then
      GraphRun(delegateAnswer, store, [], true)
    else if !ctx.resolutionStrategy.dependencyLockingEnabled then
      GraphRun(Resolved(ShortCircuitGraphResults(ctx)), store, [], false)
    else
      var lockingState := store.Load(ctx.name);
      if lockingState.mustValidate && lockingState.lockedDependencies != {} then
        GraphRun(delegateAnswer, store, [LockStateLoaded(ctx.name)], true)
      else
        GraphRun(Resolved(ShortCircuitGraphResults(ctx)), store.Persist(ctx.name, {}, {}),
                 [LockStateLoaded(ctx.name), DependenciesPersisted(ctx.name, EmptyLockRecord)], false)
  }

  lemma LockProtocolAppend(a: seq<LockCall>, b: seq<LockCall>)
    requires LockProtocol(a) && LockProtocol(b)
    ensures LockProtocol(a + b)
  {
  }

  class ShortCircuitResolver {
    const delegate: DelegateResolver

    constructor (delegate: DelegateResolver)
      ensures this.delegate == delegate
    {
      this.delegate := delegate;
    }

    /** The repositories are the delegate's, unchanged and in the same order. */
    function GetAllRepositories(): (r: seq<Repository>)
      ensures r == delegate.repositories
    {
      delegate.repositories
    }

    /** With declared dependencies, exactly what the delegate answers; without, a
        "build dependencies resolved" result over the empty graph and the empty artifact
        set, whatever the delegate would have answered. */
    function ResolveBuildDependencies(ctx: ResolveContext): (r: Outcome)
      ensures ctx.hasDependencies ==> r == delegate.buildDependenciesAnswer(ctx)
      ensures !ctx.hasDependencies ==>
        r.Resolved? && r.results.BuildDependenciesResolved? &&
        r.results.graph == EmptyGraphResults(ctx) && r.results.artifacts == EmptyResults
    {
      if ctx.hasDependencies then
        delegate.buildDependenciesAnswer(ctx)
      else
        var graphResults := EmptyGraphResults(ctx);
        Resolved(BuildDependenciesResolved(graphResults, EmptyResults))
    }

    /** Resolves the graph of ctx as ResolveGraphRun describes: the outcome, the new lock
        store and the calls made to the locking provider and to the delegate are exactly
        those of ResolveGraphRun, and the lock protocol of the provider's calls is kept. */
    method ResolveGraph(ctx: ResolveContext) returns (r: Outcome)
      modifies ctx.resolutionStrategy.dependencyLockingProvider, delegate`graphCalls
      ensures
        var provider := ctx.resolutionStrategy.dependencyLockingProvider;
        var run := ResolveGraphRun(ctx, old(provider.store), delegate.graphAnswer(ctx));
        && r == run.outcome
        && provider.store == run.store
        && provider.calls == old(provider.calls) + run.lockCalls
        && delegate.graphCalls == old(delegate.graphCalls) + (if run.delegated then [ctx] else [])
      ensures
        var provider := ctx.resolutionStrategy.dependencyLockingProvider;
        LockProtocol(old(provider.calls)) ==> LockProtocol(provider.calls)
    {
      var provider := ctx.resolutionStrategy.dependencyLockingProvider;
      ghost var run := ResolveGraphRun(ctx, provider.store, delegate.graphAnswer(ctx));
      ghost var callsBefore := provider.calls;
      if LockProtocol(callsBefore) {
        LockProtocolAppend(callsBefore, run.lockCalls);
      }
      if ctx.hasDependencies {
        r := delegate.ResolveGraph(ctx);
        return;
      }
      if ctx.resolutionStrategy.dependencyLockingEnabled {
        var lockingState := provider.LoadLockState(ctx.name);
        if lockingState.mustValidate && lockingState.lockedDependencies != {} {
          // the real engine reports the lock failures
          r := delegate.ResolveGraph(ctx);
          return;
        }
        provider.PersistResolvedDependencies(ctx.name, {}, {});
      }
      r := Resolved(ShortCircuitGraphResults(ctx));
    }
  }

  /** Without dependencies, the build-dependencies phase does not depend on the delegate:
      two resolvers around different delegates give the same answer. */
  lemma BuildDependenciesIgnoreDelegate(a: ShortCircuitResolver, b: ShortCircuitResolver, ctx: ResolveContext)
    requires !ctx.hasDependencies
    ensures a.ResolveBuildDependencies(ctx) == b.ResolveBuildDependencies(ctx)
  {
  }

  /** When resolveGraph short-circuits, both phases report the same empty graph and the
      same empty artifact set, and the lenient view of the graph phase has no files. */
  lemma PhasesAgreeWhenShortCircuited(resolver: ShortCircuitResolver, ctx: ResolveContext,
                                      store: LockStore, answer: Outcome, spec: DependencySpec)
    requires !ResolveGraphRun(ctx, store, answer).delegated
    ensures
      var build := resolver.ResolveBuildDependencies(ctx).results;
      var graph := ResolveGraphRun(ctx, store, answer).outcome.results;
      && build.graph == graph.graph
      && build.artifacts == graph.artifacts == EmptyResults
      && graph.configuration.lenient.GetFiles(None) == {}
      && graph.configuration.lenient.GetFiles(Some(spec)) == {}
      && graph.configuration.lenient.GetUnresolvedModuleDependencies() == {}
  {
  }

  /** Resolving a configuration without dependencies again, after it was short-circuited
      with locking on, short-circuits again with the same calls and leaves the lock store
      as the first call left it. */
  lemma ShortCircuitIsIdempotent(ctx: ResolveContext, store: LockStore, answer1: Outcome, answer2: Outcome)
    requires !ctx.hasDependencies && ctx.resolutionStrategy.dependencyLockingEnabled
    requires !ResolveGraphRun(ctx, store, answer1).delegated
    ensures
      var first := ResolveGraphRun(ctx, store, answer1);
      var second := ResolveGraphRun(ctx, first.store, answer2);
      && !second.delegated
      && second.outcome == first.outcome
      && second.lockCalls == first.lockCalls
      && second.store == first.store
  {
  }

  /** What a series of resolveGraph calls amounts to. */
  datatype SeriesRun = SeriesRun(outcomes: seq<Outcome>, store: LockStore, lockCalls: seq<LockCall>)

  /** All contexts reach the same locking provider through their resolution strategy. */
  predicate SharesLockingProvider(ctxs: seq<ResolveContext>) {
    forall i, j :: 0 <= i < |ctxs| && 0 <= j < |ctxs| ==>
      ctxs[i].resolutionStrategy.dependencyLockingProvider == ctxs[j].resolutionStrategy.dependencyLockingProvider
  }

  /** resolveGraph called for each context in turn, all of them reaching one locking
      provider whose store is `store`, with a delegate that answers graphAnswer(ctx) for
      each context it is given. */
  function ResolveGraphSeries(ctxs: seq<ResolveContext>, store: LockStore, graphAnswer: ResolveContext -> Outcome): (run: SeriesRun)
    requires SharesLockingProvider(ctxs)
    ensures |run.outcomes| == |ctxs|
    decreases |ctxs|
  {
    if ctxs == [] then
      SeriesRun([], store, [])
    else
      var first := ResolveGraphRun(ctxs[0], store, graphAnswer(ctxs[0]));
      var rest := ResolveGraphSeries(ctxs[1..], first.store, graphAnswer);
      SeriesRun([first.outcome] + rest.outcomes, rest.store, first.lockCalls + rest.lockCalls)
  }

  /** Over any series of calls, every persist is of the empty record and directly
      follows a load of the same configuration. */
  lemma {:induction false} SeriesKeepsLockProtocol(ctxs: seq<ResolveContext>, store: LockStore,
                                                   graphAnswer: ResolveContext -> Outcome)
    requires SharesLockingProvider(ctxs)
    ensures LockProtocol(ResolveGraphSeries(ctxs, store, graphAnswer).lockCalls)
  {
    if ctxs != [] {
      var first := ResolveGraphRun(ctxs[0], store, graphAnswer(ctxs[0]));
      SeriesKeepsLockProtocol(ctxs[1..], first.store, graphAnswer);
      LockProtocolAppend(first.lockCalls, ResolveGraphSeries(ctxs[1..], first.store, graphAnswer).lockCalls);
    }
  }

  /** Some context of the series declares no dependencies, has locking on and is named n. */
  ghost predicate LockedEmptyConfiguration(ctxs: seq<ResolveContext>, n: string) {
    exists i :: 0 <= i < |ctxs| && ctxs[i].name == n && !ctxs[i].hasDependencies &&
                ctxs[i].resolutionStrategy.dependencyLockingEnabled
  }

  /** Over any series of calls, the lock store never loses a record and never changes the
      validation mode; a record that is new or different afterwards is the empty one and
      belongs to a configuration of the series that has no dependencies and locking on. */
  lemma {:induction false} SeriesOnlyWritesEmptyRecords(ctxs: seq<ResolveContext>, store: LockStore,
                                                        graphAnswer: ResolveContext -> Outcome)
    requires SharesLockingProvider(ctxs)
    ensures
      var after := ResolveGraphSeries(ctxs, store, graphAnswer).store;
      && after.mustValidate == store.mustValidate
      && store.records.Keys <= after.records.Keys
      && forall n :: n in after.records && (n !in store.records || after.records[n] != store.records[n]) ==>
           after.records[n] == EmptyLockRecord && LockedEmptyConfiguration(ctxs, n)
  {
    if ctxs != [] {
      var first := ResolveGraphRun(ctxs[0], store, graphAnswer(ctxs[0]));
      var after := ResolveGraphSeries(ctxs, store, graphAnswer).store;
      assert after == ResolveGraphSeries(ctxs[1..], first.store, graphAnswer).store;
      SeriesOnlyWritesEmptyRecords(ctxs[1..], first.store, graphAnswer);
      forall n | n in after.records && (n !in store.records || after.records[n] != store.records[n])
        ensures after.records[n] == EmptyLockRecord && LockedEmptyConfiguration(ctxs, n)
      {
        if n !in first.store.records || after.records[n] != first.store.records[n] {
          assert LockedEmptyConfiguration(ctxs[1..], n);
          var i :| 0 <= i < |ctxs[1..]| && ctxs[1..][i].name == n && !ctxs[1..][i].hasDependencies &&
                   ctxs[1..][i].resolutionStrategy.dependencyLockingEnabled;
          assert ctxs[i + 1] == ctxs[1..][i];
        } else {
          assert first.store != store;
          assert n == ctxs[0].name;
        }
      }
    }
  }

  /** In a series, each configuration gets the outcome it would get if it were resolved
      first: the empty records the short-circuit path persists never change a later gate
      decision, so a later call delegates exactly when it would have on the initial store. */
  lemma {:induction false} SeriesOutcomesAsIfResolvedAlone(ctxs: seq<ResolveContext>, store: LockStore,
                                                           graphAnswer: ResolveContext -> Outcome)
    requires SharesLockingProvider(ctxs)
    ensures forall i :: 0 <= i < |ctxs| ==>
      ResolveGraphSeries(ctxs, store, graphAnswer).outcomes[i] == ResolveGraphRun(ctxs[i], store, graphAnswer(ctxs[i])).outcome
  {
    if ctxs != [] {
      var first := ResolveGraphRun(ctxs[0], store, graphAnswer(ctxs[0]));
      var rest := ResolveGraphSeries(ctxs[1..], first.store, graphAnswer);
      SeriesOutcomesAsIfResolvedAlone(ctxs[1..], first.store, graphAnswer);
      forall i | 0 < i < |ctxs|
        ensures ResolveGraphSeries(ctxs, store, graphAnswer).outcomes[i] == ResolveGraphRun(ctxs[i], store, graphAnswer(ctxs[i])).outcome
      {
        assert ctxs[1..][i - 1] == ctxs[i];
        assert MustBeValidated(first.store.Load(ctxs[i].name)) == MustBeValidated(store.Load(ctxs[i].name));
      }
    }
  }
}
