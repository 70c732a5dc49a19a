/** Values that dependency resolution hands back to its callers: identifiers, the visited
    graph, artifact sets, lenient views and the phase-tagged resolver results. Two of them
    are the null objects of the short-circuit resolver: the artifact set EmptyResults and the
    lenient view EmptyLenientConfiguration. Anything built by the real (delegate) resolver is
    an opaque variant here, because that resolver is not part of this model. */
module Artifacts {

  datatype Option<+T> = None | Some(value: T)

  /** group:name:version of a module (a ModuleVersionIdentifier). */
  datatype ModuleVersionId = ModuleVersionId(group: string, name: string, version: string)

  /** The module that owns a configuration. */
  datatype Module = Module(group: string, name: string, version: string)

  /** The component identifier the component identifier factory makes for a module. The
      factory is not part of this model, so the identifier only records its module. */
  datatype ComponentId = ComponentIdFor(owner: Module)

  /** An immutable attribute container, key to value. */
  type Attributes = map<string, string>

  /** A declared dependency of a configuration. */
  datatype Dependency = Dependency(group: string, name: string, version: string)

  /** A `Spec<? super Dependency>`: a filter over dependencies. */
  type DependencySpec = Dependency -> bool

  /** Which artifacts of the selected variants are wanted. */
  datatype ArtifactSelectionSpec = ArtifactSelectionSpec(requestedAttributes: Attributes)

  datatype File = File(path: string)
  datatype ResolvedArtifact = ResolvedArtifact(owner: ModuleVersionId, file: File)
  datatype ResolvedDependency = ResolvedDependency(id: ModuleVersionId)
  datatype UnresolvedDependency = UnresolvedDependency(requested: ModuleVersionId, cause: string)

  /** A build step that must run before the selected artifacts exist. */
  datatype TaskDependency = TaskDependency(taskPath: string)

  /** A callback an artifact visitor receives while an artifact set is visited. */
  datatype VisitorCallback = ArtifactVisited(artifact: ResolvedArtifact) | FailureVisited(cause: string)

  /** A visited or selected artifact set. EmptyResults is the shared instance the
      short-circuit resolver returns; DelegateArtifactSet stands for a set the delegate
      resolver built, whose behaviour is outside this model. */
  datatype ArtifactSet = EmptyResults | DelegateArtifactSet(id: nat) {

    /** Selecting from the empty set gives back the very same instance, whatever the filters. */
    function Select(dependencySpec: DependencySpec, spec: ArtifactSelectionSpec): (r: ArtifactSet)
      requires EmptyResults?
      ensures r == this
    {
      this
    }

    /** The empty set needs no build step: nothing is added to the task dependency context. */
    function VisitDependencies(): (r: set<TaskDependency>)
      requires EmptyResults?
      ensures r == {}
    {
      {}
    }

    /** Visiting the empty set sends the visitor no callback, with or without the
        continue-on-failure policy. */
    function VisitArtifacts(continueOnSelectionFailure: bool): (r: seq<VisitorCallback>)
      requires EmptyResults?
      ensures r == []
    {
      []
    }
  }

  /** A lenient (failure-tolerant) view of a resolved configuration. EmptyLenientConfiguration
      answers every query with nothing; DelegateLenientConfiguration is one built by the
      delegate resolver. The filtered and unfiltered overloads of each query are one function
      with an optional dependency filter (None is the unfiltered overload). */
  datatype LenientConfiguration = EmptyLenientConfiguration | DelegateLenientConfiguration(id: nat) {

    function Select(dependencySpec: Option<DependencySpec>): (r: ArtifactSet)
      requires EmptyLenientConfiguration?
      ensures r == EmptyResults
    {
      EmptyResults
    }

    function GetFirstLevelModuleDependencies(dependencySpec: Option<DependencySpec>): (r: set<ResolvedDependency>)
      requires EmptyLenientConfiguration?
      ensures r == {}
    {
      {}
    }

    function GetAllModuleDependencies(): (r: set<ResolvedDependency>)
      requires EmptyLenientConfiguration?
      ensures r == {}
    {
      {}
    }

    function GetUnresolvedModuleDependencies(): (r: set<UnresolvedDependency>)
      requires EmptyLenientConfiguration?
      ensures r == {}
    {
      {}
    }

    function GetFiles(dependencySpec: Option<DependencySpec>): (r: set<File>)
      requires EmptyLenientConfiguration?
      ensures r == {}
    {
      {}
    }

    function GetArtifacts(dependencySpec: Option<DependencySpec>): (r: set<ResolvedArtifact>)
      requires EmptyLenientConfiguration?
      ensures r == {}
    {
      {}
    }
  }

  /** Selection from the empty set is a fixed point: selecting again, with any filters,
      still gives EmptyResults, and the selection visits nothing. */
  lemma EmptySelectionIsFixedPoint(d1: DependencySpec, s1: ArtifactSelectionSpec,
                                   d2: DependencySpec, s2: ArtifactSelectionSpec, continueOnFailure: bool)
    ensures EmptyResults.Select(d1, s1) == EmptyResults
    ensures EmptyResults.Select(d1, s1).Select(d2, s2) == EmptyResults.Select(d2, s2)
    ensures EmptyResults.Select(d1, s1).VisitArtifacts(continueOnFailure) == []
    ensures EmptyResults.Select(d1, s1).VisitDependencies() == {}
  {
  }

  /** Every query of the empty lenient view agrees between its filtered and unfiltered
      overloads, and its files are exactly the files of its artifacts, which the selection it
      hands out would visit. */
  lemma EmptyLenientQueriesAgree(spec: DependencySpec, continueOnFailure: bool)
    ensures EmptyLenientConfiguration.GetFirstLevelModuleDependencies(None)
         == EmptyLenientConfiguration.GetFirstLevelModuleDependencies(Some(spec))
    ensures EmptyLenientConfiguration.GetFiles(None) == EmptyLenientConfiguration.GetFiles(Some(spec))
    ensures EmptyLenientConfiguration.GetArtifacts(None) == EmptyLenientConfiguration.GetArtifacts(Some(spec))
    ensures EmptyLenientConfiguration.Select(None) == EmptyLenientConfiguration.Select(Some(spec))
    ensures EmptyLenientConfiguration.GetFiles(Some(spec))
         == set a | a in EmptyLenientConfiguration.GetArtifacts(Some(spec)) :: a.file
    ensures EmptyLenientConfiguration.GetFirstLevelModuleDependencies(Some(spec))
         <= EmptyLenientConfiguration.GetAllModuleDependencies()
    ensures EmptyLenientConfiguration.Select(Some(spec)).VisitArtifacts(continueOnFailure) == []
  {
  }

  /** The root of a resolution (a MinimalResolutionResult): its identity, its component,
      its attributes and the modules it depends on directly. */
  datatype ResolutionResult = ResolutionResult(
    rootId: ModuleVersionId,
    rootComponent: ComponentId,
    rootAttributes: Attributes,
    rootDependencies: set<ModuleVersionId>)

  /** A ResolveException: the whole graph could not be produced. */
  datatype ResolveFailure = ResolveFailure(configurationName: string, message: string)

  /** A visited graph: the resolution result, the dependencies that could not be resolved,
      and an optional failure of the resolution as a whole. */
  datatype VisitedGraphResults = VisitedGraphResults(
    resolutionResult: ResolutionResult,
    unresolvedDependencies: set<UnresolvedDependency>,
    failure: Option<ResolveFailure>)

  /** The owner of a resolution, used when reporting failures. */
  datatype ResolutionHost = ResolutionHost(displayName: string)

  /** The legacy resolved-configuration view: a graph, its host and its lenient view. */
  datatype ResolvedConfiguration = ResolvedConfiguration(
    graph: VisitedGraphResults,
    host: ResolutionHost,
    lenient: LenientConfiguration)

  /** Phase-tagged results: the build-dependencies phase carries no resolved configuration. */
  datatype ResolverResults =
    | BuildDependenciesResolved(graph: VisitedGraphResults, artifacts: ArtifactSet)
    | GraphResolved(graph: VisitedGraphResults, configuration: ResolvedConfiguration, artifacts: ArtifactSet)

  /** What a resolve call ends with: results, or a raised resolve failure. */
  datatype Outcome = Resolved(results: ResolverResults) | Raised(failure: ResolveFailure)
}
