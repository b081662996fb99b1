/** The older, single-implementation generation of the plugin
    (`plugin/.../ProjectPlugin.java`): an extension holding one implementation,
    a callback that only registers dependencies, a compile/runtime
    configuration pair per platform created when the plugin is applied, and
    one detached configuration shared by every callback for the mods to
    download. */
module Legacy {
  import opened Common
  import opened Gradle
  import opened Model
  import opened Registration
  import Dispatch

  /** The inner `ShadersExtension`'s selection as a value. */
  datatype Choice = Choice(isEnabled: bool, platform: Option<Platform>, implementation: Option<Implementation>)

  /** A newly created extension: disabled, no platform, no implementation. */
  const Unchosen := Choice(false, None, None)

  /** The gate of `configure()` (and of `setIsEnabled(..)`, which repeats it). */
  predicate Ready(s: Choice)
  {
    s.isEnabled && s.platform.Some? && s.implementation.Some?
  }

  /** The callback invocations of one `configure()`: the selected pair, once,
      when the gate is open. */
  function Fires(s: Choice): (r: seq<(Platform, Implementation)>)
    ensures |r| <= 1
  {
    if Ready(s) then [(s.platform.value, s.implementation.value)] else []
  }

  /** The extension's public setters. `platform(..)`, `neoforge()` and
      `fabric()` are `SetPlatform`; `implementation(..)`, `sodium()` and
      `embeddium()` are `SetImplementation`. */
  datatype Call =
    | SetIsEnabled(enabled: bool)
    | Enabled(enabled: bool)
    | Enable
    | Disable
    | SetPlatform(platform: Platform)
    | SetImplementation(implementation: Implementation)

  /** The calls that run the gate after updating the field. */
  predicate Dispatching(c: Call)
  {
    !c.Enabled? && !c.Disable?
  }

  /** The selection after a call. */
  function Apply(s: Choice, c: Call): Choice
  {
    match c
    case SetIsEnabled(b) => s.(isEnabled := b)
    case Enabled(b) => s.(isEnabled := b)
    case Enable => s.(isEnabled := true)
    case Disable => s.(isEnabled := false)
    case SetPlatform(p) => s.(platform := Some(p))
    case SetImplementation(i) => s.(implementation := Some(i))
  }

  /** The callback invocations a call causes. */
  function Fired(s: Choice, c: Call): seq<(Platform, Implementation)>
  {
    if Dispatching(c) then Fires(Apply(s, c)) else []
  }

  /** A call fires the callback at most once, exactly when it is a dispatching
      call that leaves the extension ready, and then for the pair it leaves
      selected; `enabled(..)` and `disable()` fire nothing. */
  lemma FiresOnlyWhenReady(s: Choice, c: Call)
    ensures |Fired(s, c)| <= 1
    ensures Fired(s, c) != [] <==> Dispatching(c) && Ready(Apply(s, c))
    ensures Fired(s, c) != [] ==>
              Fired(s, c)[0] == (Apply(s, c).platform.value, Apply(s, c).implementation.value)
    ensures !Dispatching(c) ==> Apply(s, c) == s.(isEnabled := c.Enabled? && c.enabled)
  {
  }

  /** `setImplementation(..)` overwrites the one implementation and touches
      nothing else; `setPlatform(..)` likewise overwrites the platform. */
  lemma SettersOverwrite(s: Choice, c: Call)
    ensures c.SetImplementation? ==> Apply(s, c) == Choice(s.isEnabled, s.platform, Some(c.implementation))
    ensures c.SetPlatform? ==> Apply(s, c) == Choice(s.isEnabled, Some(c.platform), s.implementation)
  {
  }

  /** The selected pair has been dispatched, if the extension is ready. */
  predicate Covered(s: Choice, log: seq<(Platform, Implementation)>)
  {
    Ready(s) ==> (s.platform.value, s.implementation.value) in log
  }

  /** Any call other than `enabled(true)` keeps the log covering the selection. */
  lemma CallKeepsCovered(s: Choice, log: seq<(Platform, Implementation)>, c: Call)
    requires Covered(s, log) && c != Enabled(true)
    ensures Covered(Apply(s, c), log + Fired(s, c))
  {
  }

  /** The selection and the callback log after a sequence of calls. */
  function Run(s: Choice, log: seq<(Platform, Implementation)>, calls: seq<Call>): (Choice, seq<(Platform, Implementation)>)
    decreases |calls|
  {
    if calls == [] then (s, log)
    else Run(Apply(s, calls[0]), log + Fired(s, calls[0]), calls[1..])
  }

  /** Calls that avoid `enabled(true)` keep the log covering the selection. */
  lemma {:induction false} RunKeepsCovered(s: Choice, log: seq<(Platform, Implementation)>, calls: seq<Call>)
    requires Covered(s, log) && Enabled(true) !in calls
    ensures Covered(Run(s, log, calls).0, Run(s, log, calls).1)
    decreases |calls|
  {
    if calls != [] {
      CallKeepsCovered(s, log, calls[0]);
      assert Enabled(true) !in calls[1..];
      RunKeepsCovered(Apply(s, calls[0]), log + Fired(s, calls[0]), calls[1..]);
    }
  }

  /** Starting from a new extension, in whatever order the setters are called,
      once the extension is ready the callback has been invoked for the
      selected pair — provided `enabled(true)` is never called. */
  lemma SettersDispatchChoice(calls: seq<Call>)
    requires Enabled(true) !in calls
    ensures var (s, log) := Run(Unchosen, [], calls);
            Ready(s) ==> (s.platform.value, s.implementation.value) in log
  {
    RunKeepsCovered(Unchosen, [], calls);
  }

  /** Switching the implementation of a ready extension dispatches the new
      one; the earlier dispatch of the old one stays in the log. */
  lemma SwitchDispatchesBoth(p: Platform, i: Implementation, j: Implementation)
    ensures var (s, log) := Run(Choice(true, Some(p), None), [], [SetImplementation(i), SetImplementation(j)]);
            s == Choice(true, Some(p), Some(j)) && log == [(p, i), (p, j)]
  {
    var calls := [SetImplementation(i), SetImplementation(j)];
    var s0 := Choice(true, Some(p), None);
    var s1 := Choice(true, Some(p), Some(i));
    assert Apply(s0, calls[0]) == s1 && Fired(s0, calls[0]) == [(p, i)];
    assert Apply(s1, calls[1]) == Choice(true, Some(p), Some(j)) && Fired(s1, calls[1]) == [(p, j)];
    assert calls[1..] == [SetImplementation(j)];
    assert calls[1..][1..] == [];
    assert [] + [(p, i)] == [(p, i)];
    assert Run(s0, [], calls) == Run(s1, [(p, i)], [SetImplementation(j)]);
    assert Run(s1, [(p, i)], [SetImplementation(j)]) == Run(Choice(true, Some(p), Some(j)), [(p, i)] + [(p, j)], []);
  }

  /** The configurations `getConfigurations` binds, per platform. The record's
      first component is the runtime one, but the compile configuration is
      passed first, so the two are swapped: coordinates meant for compiling
      land in the runtime configuration and the other way round. The shared
      detached configuration stands for the mods to download. */
  datatype PlatformConfigurations = PlatformConfigurations(neoForge: ConfigurationSetup, fabric: ConfigurationSetup)

  /** The configuration each platform's pair puts in the record's runtime
      slot: NeoForge's `compileOnly`, Loom's `modCompileOnly`. */
  function CompileConfiguration(p: Platform): string
  {
    if IsNeoForge(p) then "compileOnly" else "modCompileOnly"
  }

  /** The configuration each platform's pair puts in the record's compile
      slot: `localRuntime`, Loom's `modLocalRuntime`. */
  function RuntimeConfiguration(p: Platform): string
  {
    if IsNeoForge(p) then "localRuntime" else "modLocalRuntime"
  }

  const Setups := PlatformConfigurations(
    ConfigurationSetup(Named(CompileConfiguration(NEOFORGE)), Named(RuntimeConfiguration(NEOFORGE)), Detached),
    ConfigurationSetup(Named(CompileConfiguration(FARBIC)), Named(RuntimeConfiguration(FARBIC)), Detached))

  /** The callback's choice between the two pairs. */
  function SetupFor(p: Platform): (c: ConfigurationSetup)
    ensures Distinct(c)
  {
    if IsNeoForge(p) then Setups.neoForge else Setups.fabric
  }

  /** The swap: what a plan adds for compiling lands in the platform's runtime
      configuration, what it adds for running lands in the compile
      configuration, and the mods to download land in the shared detached
      configuration, whatever the platform. */
  lemma SwappedRouting(p: Platform, plan: seq<Addition>)
    ensures Landed(SetupFor(p), plan, Named(RuntimeConfiguration(p))) == Contents(plan, LocalCompileOnly)
    ensures Landed(SetupFor(p), plan, Named(CompileConfiguration(p))) == Contents(plan, LocalRuntimeOnly)
    ensures Landed(SetupFor(p), plan, Detached) == Contents(plan, ModDownloads)
  {
  }

  /** What the callback needs of the project: the four configurations of the
      two pairs, which the plugin makes when it is applied. */
  predicate LegacyHost(h: HostState)
  {
    SetupExists(h, SetupFor(NEOFORGE)) && SetupExists(h, SetupFor(FARBIC))
  }

  /** `getConfigurations`: `compileOnly` is looked up, the other three are
      created if missing. */
  function WithConfigurations(h: HostState): (r: HostState)
    requires CompileConfiguration(NEOFORGE) in h.configurations
    ensures LegacyHost(r) && ListsKept(h, r)
    ensures r.configurations.Keys
         == h.configurations.Keys + {RuntimeConfiguration(NEOFORGE), CompileConfiguration(FARBIC), RuntimeConfiguration(FARBIC)}
  {
    var h1 := WithMaybeConfiguration(h, RuntimeConfiguration(NEOFORGE));
    var h2 := WithMaybeConfiguration(h1, CompileConfiguration(FARBIC));
    WithMaybeConfiguration(h2, RuntimeConfiguration(FARBIC))
  }

  /** `getConfigurations`. */
  method GetConfigurations(project: Project) returns (configurations: PlatformConfigurations)
    requires CompileConfiguration(NEOFORGE) in project.configurations
    modifies project
    ensures configurations == Setups
    ensures project.Snapshot() == WithConfigurations(old(project.Snapshot()))
  {
    project.MaybeCreateConfiguration(RuntimeConfiguration(NEOFORGE));
    project.MaybeCreateConfiguration(CompileConfiguration(FARBIC));
    project.MaybeCreateConfiguration(RuntimeConfiguration(FARBIC));
    configurations := Setups;
  }

  /** The shape of the Embeddium NeoForge plan, for any providers. */
  lemma EmbeddiumShape(embeddium: Option<string>, monocle: Option<string>)
    ensures var r := AddAll(LocalCompileOnly, [embeddium]) + AddAll(LocalRuntimeOnly, [embeddium])
                     + AddAll(LocalCompileOnly, [monocle]) + AddAll(ModDownloads, [monocle]);
            Contents(r, LocalCompileOnly) == ToSeq(embeddium) + ToSeq(monocle)
            && Contents(r, LocalRuntimeOnly) == ToSeq(embeddium) && Contents(r, ModDownloads) == ToSeq(monocle)
  {
    var first := AddAll(LocalCompileOnly, [embeddium]) + AddAll(LocalRuntimeOnly, [embeddium]) + AddAll(LocalCompileOnly, [monocle]);
    Chunks3(LocalCompileOnly, [embeddium], LocalRuntimeOnly, [embeddium], LocalCompileOnly, [monocle]);
    forall b ensures Contents(first + AddAll(ModDownloads, [monocle]), b)
                  == Contents(first, b) + (if b == ModDownloads then ToSeq(monocle) else [])
    {
      ContentsAppend(first, AddAll(ModDownloads, [monocle]), b);
      ContentsAddAll(ModDownloads, [monocle], b);
      assert Present([monocle]) == ToSeq(monocle);
    }
    assert Present([embeddium]) == ToSeq(embeddium) && Present([monocle]) == ToSeq(monocle);
  }

  /** Embeddium on NeoForge in this generation: the Embeddium jar for
      compiling and running, and Monocle both for compiling and among the
      mods to download. */
  function EmbeddiumNeoForgePlan(v: Versions): (r: seq<Addition>)
    ensures Contents(r, LocalCompileOnly) == ToSeq(EmbeddiumCoordinate(v)) + ToSeq(MonocleCoordinate(v))
    ensures Contents(r, LocalRuntimeOnly) == ToSeq(EmbeddiumCoordinate(v))
    ensures Contents(r, ModDownloads) == ToSeq(MonocleCoordinate(v))
  {
    var embeddium := EmbeddiumCoordinate(v);
    var monocle := MonocleCoordinate(v);
    EmbeddiumShape(embeddium, monocle);
    AddAll(LocalCompileOnly, [embeddium]) + AddAll(LocalRuntimeOnly, [embeddium])
    + AddAll(LocalCompileOnly, [monocle]) + AddAll(ModDownloads, [monocle])
  }

  /** `registerNeoForgeDependencies`: Sodium's plan is the current one. */
  function NeoForgePlan(i: Implementation, v: Versions): seq<Addition>
  {
    match i
    case SODIUM => SodiumNeoForgePlan(v)
    case EMBEDDIUM => EmbeddiumNeoForgePlan(v)
  }

  /** The implementation's own coordinates on the platform. */
  function ImplementationPlan(p: Platform, i: Implementation, v: Versions): seq<Addition>
  {
    if IsNeoForge(p) then NeoForgePlan(i, v) else FabricPlan(i, v)
  }

  /** `configureDependencies`: nothing for an unsupported pair, otherwise the
      implementation's coordinates, then Iris's. */
  function DependencyPlan(p: Platform, i: Implementation, v: Versions): seq<Addition>
  {
    if !IsSupported(i, p) then [] else ImplementationPlan(p, i, v) + IrisPlan(p, i, v)
  }

  /** Against the current generation, only one bucket of one pair differs:
      Embeddium on NeoForge also compiles against Monocle. An unsupported pair
      gets nothing, Iris included. */
  lemma PlanAgainstCurrent(p: Platform, i: Implementation, v: Versions, b: Bucket)
    ensures !IsSupported(i, p) ==> DependencyPlan(p, i, v) == []
    ensures (p, i, b) != (NEOFORGE, EMBEDDIUM, LocalCompileOnly) ==>
              Contents(DependencyPlan(p, i, v), b) == Contents(Dispatch.DependencyPlan(p, i, v), b)
    ensures Contents(DependencyPlan(NEOFORGE, EMBEDDIUM, v), LocalCompileOnly)
         == ToSeq(EmbeddiumCoordinate(v)) + ToSeq(MonocleCoordinate(v)) + ToSeq(IrisCoordinate(NEOFORGE, v))
  {
    Dispatch.DependencyContents(p, i, v, b);
    if IsSupported(i, p) {
      ContentsAppend(ImplementationPlan(p, i, v), IrisPlan(p, i, v), b);
    }
    ContentsAppend(ImplementationPlan(NEOFORGE, EMBEDDIUM, v), IrisPlan(NEOFORGE, EMBEDDIUM, v), LocalCompileOnly);
  }

  /** Only Embeddium on NeoForge has mods to download: Monocle, then Iris. */
  lemma DownloadedMods(p: Platform, i: Implementation, v: Versions)
    ensures Contents(DependencyPlan(p, i, v), ModDownloads)
         == if p == NEOFORGE && i == EMBEDDIUM then ToSeq(MonocleCoordinate(v)) + ToSeq(IrisCoordinate(NEOFORGE, v)) else []
  {
    PlanAgainstCurrent(p, i, v, ModDownloads);
    Dispatch.DownloadedMods(p, i, v);
  }

  /** The callback: the pair's coordinates into the platform's configurations. */
  function Callback(h: HostState, p: Platform, i: Implementation, v: Versions): (r: HostState)
    requires LegacyHost(h)
    ensures LegacyHost(r) && r.configurations.Keys == h.configurations.Keys
  {
    ApplyPlan(h, SetupFor(p), DependencyPlan(p, i, v))
  }

  /** The project after the callback has run for each pair in turn. */
  function AfterCallbacks(h: HostState, log: seq<(Platform, Implementation)>, v: Versions): (r: HostState)
    requires LegacyHost(h)
    ensures LegacyHost(r) && r.configurations.Keys == h.configurations.Keys
    decreases |log|
  {
    if log == [] then h
    else
      var last := log[|log| - 1];
      Callback(AfterCallbacks(h, log[..|log| - 1], v), last.0, last.1, v)
  }

  /** One callback appends to every configuration exactly what the pair's plan
      routes there, through the swapped pair of the platform. */
  lemma CallbackLists(h: HostState, p: Platform, i: Implementation, v: Versions, t: Target)
    requires LegacyHost(h) && Exists(h, t)
    ensures Exists(Callback(h, p, i, v), t)
    ensures Dependencies(Callback(h, p, i, v), t) == Dependencies(h, t) + Landed(SetupFor(p), DependencyPlan(p, i, v), t)
  {
    ApplyPlanEffect(h, SetupFor(p), DependencyPlan(p, i, v), t);
  }

  /** Callbacks only append: no dependency list loses or reorders an entry,
      so switching the implementation leaves the old one's coordinates in
      place. */
  lemma {:induction false} CallbacksOnlyAppend(h: HostState, log: seq<(Platform, Implementation)>, v: Versions, t: Target)
    requires LegacyHost(h) && Exists(h, t)
    ensures Exists(AfterCallbacks(h, log, v), t)
    ensures Dependencies(h, t) <= Dependencies(AfterCallbacks(h, log, v), t)
    decreases |log|
  {
    if log != [] {
      var last := log[|log| - 1];
      CallbacksOnlyAppend(h, log[..|log| - 1], v, t);
      CallbackLists(AfterCallbacks(h, log[..|log| - 1], v), last.0, last.1, v, t);
    }
  }

  /** What Sodium on NeoForge asks for, per bucket, Iris included. */
  lemma SodiumNeoForgeContents(v: Versions)
    ensures Contents(DependencyPlan(NEOFORGE, SODIUM, v), LocalCompileOnly)
         == ToSeq(SodiumCoordinate(NEOFORGE, v)) + ToSeq(FabricApiCoordinate(v)) + ToSeq(FabricRendererCoordinate(v))
            + ToSeq(IrisCoordinate(NEOFORGE, v))
    ensures Contents(DependencyPlan(NEOFORGE, SODIUM, v), LocalRuntimeOnly)
         == ToSeq(SodiumCoordinate(NEOFORGE, v)) + ToSeq(IrisCoordinate(NEOFORGE, v))
  {
    ContentsAppend(SodiumNeoForgePlan(v), IrisPlan(NEOFORGE, SODIUM, v), LocalCompileOnly);
    ContentsAppend(SodiumNeoForgePlan(v), IrisPlan(NEOFORGE, SODIUM, v), LocalRuntimeOnly);
  }

  /** The swap, concretely: Sodium on NeoForge puts the Forgified Fabric API
      modules, meant for compiling only, on `localRuntime`, and `compileOnly`
      receives only what is meant for running. */
  lemma SodiumNeoForgeSwapped(h: HostState, v: Versions)
    requires LegacyHost(h)
    ensures var r := Callback(h, NEOFORGE, SODIUM, v);
            var sodium := ToSeq(SodiumCoordinate(NEOFORGE, v));
            var iris := ToSeq(IrisCoordinate(NEOFORGE, v));
            Dependencies(r, Named("localRuntime"))
            == Dependencies(h, Named("localRuntime"))
               + (sodium + ToSeq(FabricApiCoordinate(v)) + ToSeq(FabricRendererCoordinate(v)) + iris)
            && Dependencies(r, Named("compileOnly")) == Dependencies(h, Named("compileOnly")) + (sodium + iris)
  {
    var plan := DependencyPlan(NEOFORGE, SODIUM, v);
    var r := Callback(h, NEOFORGE, SODIUM, v);
    var runtime := Named(RuntimeConfiguration(NEOFORGE));
    var compile := Named(CompileConfiguration(NEOFORGE));
    CallbackLists(h, NEOFORGE, SODIUM, v, runtime);
    CallbackLists(h, NEOFORGE, SODIUM, v, compile);
    SwappedRouting(NEOFORGE, plan);
    SodiumNeoForgeContents(v);
    assert Dependencies(r, runtime) == Dependencies(h, runtime) + Contents(plan, LocalCompileOnly);
    assert Dependencies(r, compile) == Dependencies(h, compile) + Contents(plan, LocalRuntimeOnly);
  }

  /** Four `addLater` calls, one per group, as the method makes them. */
  lemma FourSingleCalls(b1: Bucket, d1: Option<string>, b2: Bucket, d2: Option<string>,
                        b3: Bucket, d3: Option<string>, b4: Bucket, d4: Option<string>)
    ensures AddAll(b1, [d1]) + AddAll(b2, [d2]) + AddAll(b3, [d3]) + AddAll(b4, [d4])
         == [] + [Addition(b1, d1)] + [Addition(b2, d2)] + [Addition(b3, d3)] + [Addition(b4, d4)]
  {
  }

  /** `registerEmbeddiumNeoForgeDependencies`. */
  method RegisterEmbeddiumNeoForgeDependencies(project: Project, v: Versions, c: ConfigurationSetup)
    requires SetupExists(project.Snapshot(), c)
    modifies project
    ensures project.Snapshot() == ApplyPlan(old(project.Snapshot()), c, EmbeddiumNeoForgePlan(v))
  {
    ghost var h := project.Snapshot();
    var embeddium := EmbeddiumCoordinate(v);
    var monocle := MonocleCoordinate(v);
    ghost var done: seq<Addition> := [];
    AddLaterStep(project, h, c, done, Addition(LocalCompileOnly, embeddium));
    done := done + [Addition(LocalCompileOnly, embeddium)];
    AddLaterStep(project, h, c, done, Addition(LocalRuntimeOnly, embeddium));
    done := done + [Addition(LocalRuntimeOnly, embeddium)];
    AddLaterStep(project, h, c, done, Addition(LocalCompileOnly, monocle));
    done := done + [Addition(LocalCompileOnly, monocle)];
    AddLaterStep(project, h, c, done, Addition(ModDownloads, monocle));
    done := done + [Addition(ModDownloads, monocle)];
    FourSingleCalls(LocalCompileOnly, embeddium, LocalRuntimeOnly, embeddium, LocalCompileOnly, monocle, ModDownloads, monocle);
  }

  /** `registerNeoForgeDependencies`. */
  method RegisterNeoForgeDependencies(i: Implementation, project: Project, v: Versions, c: ConfigurationSetup)
    requires SetupExists(project.Snapshot(), c)
    modifies project
    ensures project.Snapshot() == ApplyPlan(old(project.Snapshot()), c, NeoForgePlan(i, v))
  {
    if i == SODIUM {
      RegisterSodiumNeoForgeDependencies(project, v, c);
    } else if i == EMBEDDIUM {
      RegisterEmbeddiumNeoForgeDependencies(project, v, c);
    }
  }

  /** `configureDependencies`. */
  method ConfigureDependencies(project: Project, p: Platform, i: Implementation, v: Versions, c: ConfigurationSetup)
    requires SetupExists(project.Snapshot(), c)
    modifies project
    ensures project.Snapshot() == ApplyPlan(old(project.Snapshot()), c, DependencyPlan(p, i, v))
  {
    ghost var h := project.Snapshot();
    if IsNeoForge(p) {
      if !IsSupported(i, NEOFORGE) {
        assert false;
        return;
      }
      RegisterNeoForgeDependencies(i, project, v, c);
    } else if IsFabric(p) {
      if !IsSupported(i, FARBIC) {
        assert DependencyPlan(p, i, v) == [];
        return;
      }
      RegisterFabricDependencies(i, project, v, c);
    }
    ApplyPlanAppend(h, c, ImplementationPlan(p, i, v), IrisPlan(p, i, v));
    ConfigureIrisDependencies(p, project, v, i, c);
  }

  /** The callback registered with the extension. */
  method OnConfigured(project: Project, p: Platform, i: Implementation, v: Versions)
    requires LegacyHost(project.Snapshot())
    modifies project
    ensures project.Snapshot() == Callback(old(project.Snapshot()), p, i, v)
  {
    var setup := if IsNeoForge(p) then Setups.neoForge else Setups.fabric;
    ConfigureDependencies(project, p, i, v, setup);
  }

  class ShadersExtension {
    var isEnabled: bool
    var platform: Option<Platform>
    var implementation: Option<Implementation>
    /** The run names added with `run(..)`. */
    var runs: set<string>
    /** The run names the build falls back to while none was added. */
    const runsConvention: set<string>
    /** The version slots, at their final values. */
    const versions: Versions
    /** The project the callback registers dependencies in. */
    const project: Project

    function State(): Choice
      reads this
    {
      Choice(isEnabled, platform, implementation)
    }

    /** `getRuns()`: the names added with `run(..)`, or the convention while
        there are none (adding to a set property replaces its convention). */
    function Runs(): set<string>
      reads this
    {
      if runs != {} then runs else runsConvention
    }

    ghost predicate Valid()
      reads this, project
    {
      LegacyHost(project.Snapshot())
    }

    /** A new extension: disabled, no platform, no implementation, no run
        added. */
    constructor (project: Project, versions: Versions, runsConvention: set<string>)
      requires LegacyHost(project.Snapshot())
      ensures Valid() && State() == Unchosen && runs == {}
      ensures this.project == project && this.versions == versions && this.runsConvention == runsConvention
    {
      this.isEnabled := false;
      this.platform := None;
      this.implementation := None;
      this.runs := {};
      this.runsConvention := runsConvention;
      this.versions := versions;
      this.project := project;
    }

    /** `configure()`: the callback for the selected pair, when enabled with
        both a platform and an implementation. */
    method Configure()
      requires Valid()
      modifies project
      ensures Valid()
      ensures project.Snapshot() == AfterCallbacks(old(project.Snapshot()), Fires(State()), versions)
    {
      if isEnabled && platform.Some? && implementation.Some? {
        OnConfigured(project, platform.value, implementation.value, versions);
      }
    }

    /** `setIsEnabled(..)`: sets the flag, then the same gate as `configure()`. */
    method SetIsEnabled(enabled: bool)
      requires Valid()
      modifies this, project
      ensures Valid() && State() == Apply(old(State()), Call.SetIsEnabled(enabled)) && runs == old(runs)
      ensures project.Snapshot() == AfterCallbacks(old(project.Snapshot()), Fired(old(State()), Call.SetIsEnabled(enabled)), versions)
    {
      isEnabled := enabled;
      if isEnabled && platform.Some? && implementation.Some? {
        OnConfigured(project, platform.value, implementation.value, versions);
      }
    }

    /** `enabled(..)`: sets the flag and nothing else. */
    method Enabled(enabled: bool)
      requires Valid()
      modifies this
      ensures Valid() && State() == Apply(old(State()), Call.Enabled(enabled)) && runs == old(runs)
    {
      isEnabled := enabled;
    }

    /** `enable()`: sets the flag, then `configure()`. */
    method Enable()
      requires Valid()
      modifies this, project
      ensures Valid() && State() == Apply(old(State()), Call.Enable) && runs == old(runs)
      ensures project.Snapshot() == AfterCallbacks(old(project.Snapshot()), Fired(old(State()), Call.Enable), versions)
    {
      isEnabled := true;
      Configure();
    }

    /** `disable()`: clears the flag and nothing else. */
    method Disable()
      requires Valid()
      modifies this
      ensures Valid() && State() == Apply(old(State()), Call.Disable) && runs == old(runs)
    {
      isEnabled := false;
    }

    /** `setPlatform(..)`: overwrites the platform, then `configure()`. */
    method SetPlatform(p: Platform)
      requires Valid()
      modifies this, project
      ensures Valid() && State() == Apply(old(State()), Call.SetPlatform(p)) && runs == old(runs)
      ensures project.Snapshot() == AfterCallbacks(old(project.Snapshot()), Fired(old(State()), Call.SetPlatform(p)), versions)
    {
      platform := Some(p);
      Configure();
    }

    /** `platform(..)`, `neoforge()` and `fabric()`: `setPlatform(..)`. */
    method UsePlatform(p: Platform)
      requires Valid()
      modifies this, project
      ensures Valid() && State() == Apply(old(State()), Call.SetPlatform(p)) && runs == old(runs)
      ensures project.Snapshot() == AfterCallbacks(old(project.Snapshot()), Fired(old(State()), Call.SetPlatform(p)), versions)
    {
      SetPlatform(p);
    }

    /** `setImplementation(..)`: overwrites the implementation, then
        `configure()`. */
    method SetImplementation(i: Implementation)
      requires Valid()
      modifies this, project
      ensures Valid() && State() == Apply(old(State()), Call.SetImplementation(i)) && runs == old(runs)
      ensures project.Snapshot() == AfterCallbacks(old(project.Snapshot()), Fired(old(State()), Call.SetImplementation(i)), versions)
    {
      implementation := Some(i);
      Configure();
    }

    /** `implementation(..)`, `sodium()` and `embeddium()`:
        `setImplementation(..)`. */
    method UseImplementation(i: Implementation)
      requires Valid()
      modifies this, project
      ensures Valid() && State() == Apply(old(State()), Call.SetImplementation(i)) && runs == old(runs)
      ensures project.Snapshot() == AfterCallbacks(old(project.Snapshot()), Fired(old(State()), Call.SetImplementation(i)), versions)
    {
      SetImplementation(i);
    }

    /** `run(..)`: adds a run name. */
    method AddRun(name: string)
      modifies this
      ensures State() == old(State()) && runs == old(runs) + {name}
      ensures Runs() == old(runs) + {name}
    {
      runs := runs + {name};
    }
  }
}
