/** The current plugin's reaction to a ready selection: for one implementation
    it gets or creates the source set, then the run, then registers the
    dependencies into the pair's three configurations
    (`ProjectPlugin.apply`'s callback, `configureDependencies` and
    `getOrCreateRunConfigurations`). */
module Dispatch {
  import opened Common
  import opened Gradle
  import opened Model
  import opened Registration
  import opened SourceSets
  import opened Runs

  /** The implementation's own coordinates on the platform. */
  function ImplementationPlan(p: Platform, i: Implementation, v: Versions): seq<Addition>
  {
    if IsNeoForge(p) then NeoForgePlan(i, v) else FabricPlan(i, v)
  }

  /** `configureDependencies`: nothing at all for an implementation the platform
      does not support; otherwise the implementation's coordinates, then
      Iris's. */
  function DependencyPlan(p: Platform, i: Implementation, v: Versions): seq<Addition>
  {
    if !IsSupported(i, p) then [] else ImplementationPlan(p, i, v) + IrisPlan(p, i, v)
  }

  /** An unsupported pair gets no coordinate, not even Iris; a supported pair's
      buckets hold the implementation's coordinates followed by Iris's. */
  lemma DependencyContents(p: Platform, i: Implementation, v: Versions, b: Bucket)
    ensures !IsSupported(i, p) ==> Contents(DependencyPlan(p, i, v), b) == []
    ensures IsSupported(i, p) ==>
              Contents(DependencyPlan(p, i, v), b) == Contents(ImplementationPlan(p, i, v), b) + Contents(IrisPlan(p, i, v), b)
  {
    if IsSupported(i, p) {
      ContentsAppend(ImplementationPlan(p, i, v), IrisPlan(p, i, v), b);
    }
  }

  /** Only Embeddium on NeoForge downloads mods: Monocle, then Iris. Every
      other pair leaves its downloaded-mods configuration empty. */
  lemma DownloadedMods(p: Platform, i: Implementation, v: Versions)
    ensures Contents(DependencyPlan(p, i, v), ModDownloads)
         == if p == NEOFORGE && i == EMBEDDIUM then ToSeq(MonocleCoordinate(v)) + ToSeq(IrisCoordinate(NEOFORGE, v)) else []
  {
    DependencyContents(p, i, v, ModDownloads);
  }

  /** `configureDependencies`. */
  method ConfigureDependencies(project: Project, p: Platform, i: Implementation, v: Versions, c: ConfigurationSetup)
    requires SetupExists(project.Snapshot(), c)
    modifies project
    ensures project.Snapshot() == ApplyPlan(old(project.Snapshot()), c, DependencyPlan(p, i, v))
  {
    ghost var h := project.Snapshot();
    if IsNeoForge(p) {
      if !IsSupported(i, NEOFORGE) {
        assert false;
        return;
      }
      RegisterNeoForgeDependencies(i, project, v, c);
    } else if IsFabric(p) {
      if !IsSupported(i, FARBIC) {
        assert DependencyPlan(p, i, v) == [];
        return;
      }
      RegisterFabricDependencies(i, project, v, c);
    }
    ApplyPlanAppend(h, c, ImplementationPlan(p, i, v), IrisPlan(p, i, v));
    ConfigureIrisDependencies(p, project, v, i, c);
  }

  /** What the callback needs of the project: a consistent project with the
      plain client run to copy shader runs from. */
  predicate Host(h: HostState, p: Platform)
  {
    Consistent(h, p) && Client in h.runs
  }

  /** A state that differs from a host only in dependency lists and runs, with
      the same configurations and the client run kept, is a host too. */
  lemma HostKept(h: HostState, r: HostState, p: Platform)
    requires Host(h, p) && Client in r.runs && r.configurations.Keys == h.configurations.Keys
    requires r == h.(configurations := r.configurations, detached := r.detached, runs := r.runs)
    ensures Host(r, p)
  {
    forall j ensures (LowerName(j) in r.sourceSets ==> SetupExists(r, ConfigurationsFor(p, j)))
                  && (LowerName(j) !in r.sourceSets ==> Untouched(r, p, j))
    {
      assert (LowerName(j) in h.sourceSets ==> SetupExists(h, ConfigurationsFor(p, j)))
          && (LowerName(j) !in h.sourceSets ==> Untouched(h, p, j));
    }
  }

  /** Getting or creating the source set keeps a host a host. */
  lemma GetOrCreateHost(h: HostState, p: Platform, i: Implementation)
    requires Host(h, p)
    ensures var r := GetOrCreate(Current, h, p, i);
            Host(r, p) && LowerName(i) in r.sourceSets && SetupExists(r, ConfigurationsFor(p, i))
            && ListsKept(h, r) && r.detached == h.detached && r.installTasks == h.installTasks
  {
    GetOrCreateConsistent(Current, h, p, i);
    GetOrCreateFrame(Current, h, p, i);
  }

  /** `getOrCreateRunConfigurations` on an enabled extension: the source set is
      looked up (or created), then the run. */
  function RunStep(h: HostState, p: Platform, i: Implementation): HostState
    requires Host(h, p)
  {
    GetOrCreateHost(h, p, i);
    GetOrCreateRun(GetOrCreate(Current, h, p, i), p, i, LowerName(i))
  }

  /** The run step keeps the project a host, with the pair's source set,
      configurations and run in place, and changes no dependency list. */
  lemma RunStepEffect(h: HostState, p: Platform, i: Implementation)
    requires Host(h, p)
    ensures var r := RunStep(h, p, i);
            Host(r, p) && LowerName(i) in r.sourceSets && RunName(i) in r.runs
            && SetupExists(r, ConfigurationsFor(p, i)) && ListsKept(h, r) && r.detached == h.detached
            && r.installTasks == h.installTasks
  {
    GetOrCreateHost(h, p, i);
    var h1 := GetOrCreate(Current, h, p, i);
    GetOrCreateRunFrame(h1, p, i, LowerName(i));
    RunNamesApart(i, i);
    HostKept(h1, RunStep(h, p, i), p);
  }

  /** The callback: source set, run, then dependencies, for one implementation. */
  function OnConfigured(h: HostState, p: Platform, i: Implementation, v: Versions): HostState
    requires Host(h, p)
  {
    GetOrCreateHost(h, p, i);
    var h1 := GetOrCreate(Current, h, p, i);
    RunStepEffect(h1, p, i);
    ApplyPlan(RunStep(h1, p, i), ConfigurationsFor(p, i), DependencyPlan(p, i, v))
  }

  /** After the callback the project is still a host, and the pair's source
      set, run and configurations exist. */
  lemma OnConfiguredHost(h: HostState, p: Platform, i: Implementation, v: Versions)
    requires Host(h, p)
    ensures var r := OnConfigured(h, p, i, v);
            Host(r, p) && LowerName(i) in r.sourceSets && RunName(i) in r.runs
            && SetupExists(r, ConfigurationsFor(p, i))
  {
    GetOrCreateHost(h, p, i);
    var h1 := GetOrCreate(Current, h, p, i);
    RunStepEffect(h1, p, i);
    var h2 := RunStep(h1, p, i);
    var c := ConfigurationsFor(p, i);
    ApplyPlanFrame(h2, c, DependencyPlan(p, i, v));
    HostKept(h2, ApplyPlan(h2, c, DependencyPlan(p, i, v)), p);
  }

  /** The callback adds the pair's source set and run, if missing, and removes
      neither a source set nor a run. */
  lemma OnConfiguredGrows(h: HostState, p: Platform, i: Implementation, v: Versions)
    requires Host(h, p)
    ensures var r := OnConfigured(h, p, i, v);
            r.sourceSets.Keys == h.sourceSets.Keys + {LowerName(i)} && r.runs.Keys == h.runs.Keys + {RunName(i)}
  {
    GetOrCreateHost(h, p, i);
    GetOrCreateFrame(Current, h, p, i);
    var h1 := GetOrCreate(Current, h, p, i);
    GetOrCreateHost(h1, p, i);
    GetOrCreateFrame(Current, h1, p, i);
    var h2 := GetOrCreate(Current, h1, p, i);
    GetOrCreateRunFrame(h2, p, i, LowerName(i));
    RunStepEffect(h1, p, i);
    ApplyPlanFrame(RunStep(h1, p, i), ConfigurationsFor(p, i), DependencyPlan(p, i, v));
  }

  /** Every dependency list that existed before the callback has grown by
      exactly what the pair's plan puts there. */
  lemma OnConfiguredLists(h: HostState, p: Platform, i: Implementation, v: Versions, t: Target)
    requires Host(h, p) && Exists(h, t)
    ensures var r := OnConfigured(h, p, i, v);
            Exists(r, t)
            && Dependencies(r, t) == Dependencies(h, t) + Landed(ConfigurationsFor(p, i), DependencyPlan(p, i, v), t)
  {
    GetOrCreateHost(h, p, i);
    var h1 := GetOrCreate(Current, h, p, i);
    RunStepEffect(h1, p, i);
    var h2 := RunStep(h1, p, i);
    assert Exists(h2, t) && Dependencies(h2, t) == Dependencies(h, t);
    ApplyPlanEffect(h2, ConfigurationsFor(p, i), DependencyPlan(p, i, v), t);
  }

  /** Dispatching a pair again finds its source set and run in place and
      changes neither, but appends the pair's coordinates to its
      configurations a second time. */
  lemma RedispatchAppendsAgain(h: HostState, p: Platform, i: Implementation, v: Versions, b: Bucket)
    requires Host(h, p)
    ensures var r1 := OnConfigured(h, p, i, v);
            var t := TargetOf(ConfigurationsFor(p, i), b);
            Host(r1, p) && Exists(r1, t)
            && var r2 := OnConfigured(r1, p, i, v);
               r2.sourceSets == r1.sourceSets && r2.runs == r1.runs && r2.features == r1.features
               && Exists(r2, t) && Dependencies(r2, t) == Dependencies(r1, t) + Contents(DependencyPlan(p, i, v), b)
  {
    var c := ConfigurationsFor(p, i);
    var t := TargetOf(c, b);
    OnConfiguredHost(h, p, i, v);
    var r1 := OnConfigured(h, p, i, v);
    OnConfiguredLists(r1, p, i, v, t);
    GetOrCreateIdempotent(Current, r1, p, i);
    GetOrCreateRunExisting(r1, p, i, LowerName(i));
    ApplyPlanFrame(r1, c, DependencyPlan(p, i, v));
  }

  /** `getOrCreateRunConfigurations`: no run for a disabled extension;
      otherwise the run of the implementation, made if missing. */
  method GetOrCreateRunConfigurations(project: Project, enabled: bool, p: Platform, i: Implementation)
    returns (runs: set<string>)
    requires Host(project.Snapshot(), p)
    modifies project
    ensures !enabled ==> runs == {} && project.Snapshot() == old(project.Snapshot())
    ensures enabled ==> runs == {RunName(i)} && project.Snapshot() == RunStep(old(project.Snapshot()), p, i)
  {
    if !enabled {
      return {};
    }
    ghost var h := project.Snapshot();
    GetOrCreateHost(h, p, i);
    var sourceSet := GetOrCreateShaderSourceSetIn(Current, project, p, i);
    ghost var h1 := project.Snapshot();
    assert h1 == GetOrCreate(Current, h, p, i) && Host(h1, p);
    var run := GetOrCreateRunFor(project, p, i, sourceSet);
    runs := {run};
  }

  /** The callback registered with the extension. */
  method OnConfiguredIn(project: Project, p: Platform, i: Implementation, v: Versions)
    requires Host(project.Snapshot(), p)
    modifies project
    ensures project.Snapshot() == OnConfigured(old(project.Snapshot()), p, i, v)
  {
    ghost var h := project.Snapshot();
    GetOrCreateHost(h, p, i);
    var _ := GetOrCreateShaderSourceSetIn(Current, project, p, i);
    ghost var h1 := project.Snapshot();
    RunStepEffect(h1, p, i);
    var _ := GetOrCreateRunConfigurations(project, true, p, i);
    assert project.Snapshot() == RunStep(h1, p, i);
    ConfigureDependencies(project, p, i, v, ConfigurationsFor(p, i));
  }
}
