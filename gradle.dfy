/** The host build as the plugin sees it: name-keyed tables of source sets,
    configurations (each a list of dependency coordinates), Loom remap
    configurations, runs and install tasks, plus the one detached configuration
    the older plugin creates. Everything here is Gradle's (or Loom's, or
    NeoGradle's) behaviour, reduced to what the plugin reads and writes; the
    plugin's own logic lives in the modules that import this one. */
module Gradle {
  import opened Common

  /** The modding toolchain applied to the project: Loom for Fabric builds,
      NeoGradle for NeoForge builds. */
  datatype Toolchain = Loom | NeoGradle

  datatype SourceSet = SourceSet(javaDirs: seq<string>, resourcesDirs: seq<string>)

  /** A run configuration: its working directory, the name shown in the IDE and
      the source set it launches. */
  datatype Run = Run(workDir: string, ideName: string, sourceSet: string)

  /** Where a dependency is added: a configuration registered under a name, or
      the project's detached configuration (which has no name in the container). */
  datatype Target = Named(name: string) | Detached

  datatype HostState = HostState(
    toolchain: Toolchain,
    sourceSets: map<string, SourceSet>,
    features: seq<string>,
    configurations: map<string, seq<string>>,
    detached: seq<string>,
    remapTargets: map<string, string>,
    runs: map<string, Run>,
    installTasks: map<string, string>)

  /** Names of the configurations Gradle derives from a source set's name. */
  function CompileOnlyOf(s: string): string { s + "CompileOnly" }
  function CompileClasspathOf(s: string): string { s + "CompileClasspath" }
  function RuntimeClasspathOf(s: string): string { s + "RuntimeClasspath" }
  /** NeoGradle's per-source-set local runtime configuration; the Fabric path of
      the plugin creates a configuration of the same name itself. */
  function LocalRuntimeOf(s: string): string { s + "LocalRuntime" }

  /** The configurations the host registers together with a new source set. */
  function SourceSetConfigurations(t: Toolchain, s: string): set<string>
  {
    {CompileOnlyOf(s), CompileClasspathOf(s), RuntimeClasspathOf(s)}
    + (if t == NeoGradle then {LocalRuntimeOf(s)} else {})
  }

  predicate Exists(h: HostState, t: Target)
  {
    t.Named? ==> t.name in h.configurations
  }

  /** The dependency list a target currently holds. */
  function Dependencies(h: HostState, t: Target): seq<string>
    requires Exists(h, t)
  {
    match t
    case Named(n) => h.configurations[n]
    case Detached => h.detached
  }

  /** Every configuration of `h` is still in `r`, with the same list. */
  predicate ListsKept(h: HostState, r: HostState)
  {
    forall n :: n in h.configurations ==> n in r.configurations && r.configurations[n] == h.configurations[n]
  }

  /** `sourceSets.create(name)`: Gradle's conventional directories and configurations. */
  function WithSourceSet(h: HostState, name: string): (r: HostState)
    requires name !in h.sourceSets
    ensures r.sourceSets.Keys == h.sourceSets.Keys + {name}
    ensures r.configurations.Keys == h.configurations.Keys + SourceSetConfigurations(h.toolchain, name)
    ensures ListsKept(h, r)
    ensures r.(sourceSets := h.sourceSets, configurations := h.configurations) == h
  {
    var created := SourceSetConfigurations(h.toolchain, name);
    h.(sourceSets := h.sourceSets[name := SourceSet(["src/" + name + "/java"], ["src/" + name + "/resources"])],
       configurations := h.configurations + map n | n in created && n !in h.configurations :: [])
  }

  /** `getJava().setSrcDirs(..)` and `getResources().setSrcDirs(..)`. */
  function WithSrcDirs(h: HostState, name: string, java: seq<string>, resources: seq<string>): HostState
    requires name in h.sourceSets
  {
    h.(sourceSets := h.sourceSets[name := SourceSet(java, resources)])
  }

  /** `getJava().srcDir(..)` and `getResources().srcDir(..)`: one more directory each. */
  function WithExtraSrcDirs(h: HostState, name: string, java: string, resources: string): HostState
    requires name in h.sourceSets
  {
    var s := h.sourceSets[name];
    h.(sourceSets := h.sourceSets[name := SourceSet(s.javaDirs + [java], s.resourcesDirs + [resources])])
  }

  /** `java.registerFeature(name, ..)`. */
  function WithFeature(h: HostState, name: string): HostState
    requires name !in h.features
  {
    h.(features := h.features + [name])
  }

  /** The configuration Loom remaps a remap configuration's dependencies into;
      its name is Loom's and is taken here to be the remap configuration's name
      followed by `Mapped`. */
  function RemappedOf(name: string): string { name + "Mapped" }

  /** `configurations.create(name)`, which fails when the name is taken. */
  function WithConfiguration(h: HostState, name: string): (r: HostState)
    requires name !in h.configurations
    ensures r.configurations.Keys == h.configurations.Keys + {name}
    ensures r.toolchain == h.toolchain && r.sourceSets == h.sourceSets && r.remapTargets == h.remapTargets
    ensures ListsKept(h, r)
  {
    h.(configurations := h.configurations[name := []])
  }

  /** `configurations.maybeCreate(name)`. */
  function WithMaybeConfiguration(h: HostState, name: string): (r: HostState)
    ensures r.configurations.Keys == h.configurations.Keys + {name}
    ensures r.toolchain == h.toolchain && r.sourceSets == h.sourceSets && r.remapTargets == h.remapTargets
    ensures ListsKept(h, r)
  {
    if name in h.configurations then h else h.(configurations := h.configurations[name := []])
  }

  /** Loom's `addRemapConfiguration(name, ..)` with the given target configuration. */
  function WithRemapConfiguration(h: HostState, name: string, target: string): (r: HostState)
    requires name !in h.configurations && name !in h.remapTargets
    ensures r.configurations.Keys == h.configurations.Keys + {name}
    ensures r.remapTargets.Keys == h.remapTargets.Keys + {name}
    ensures r.toolchain == h.toolchain && r.sourceSets == h.sourceSets
    ensures ListsKept(h, r)
  {
    h.(configurations := h.configurations[name := []], remapTargets := h.remapTargets[name := target])
  }

  /** `getDependencies().addLater(provider)`: the provider's value, when it has one. */
  function WithDependency(h: HostState, t: Target, dependency: Option<string>): (r: HostState)
    requires Exists(h, t)
    ensures r.configurations.Keys == h.configurations.Keys
  {
    match t
    case Named(n) => h.(configurations := h.configurations[n := h.configurations[n] + ToSeq(dependency)])
    case Detached => h.(detached := h.detached + ToSeq(dependency))
  }

  /** `addLater` changes the target's list only, and only at its end. */
  lemma DependencyAdded(h: HostState, target: Target, dependency: Option<string>, t: Target)
    requires Exists(h, target) && Exists(h, t)
    ensures Exists(WithDependency(h, target, dependency), t)
    ensures Dependencies(WithDependency(h, target, dependency), t)
         == Dependencies(h, t) + (if t == target then ToSeq(dependency) else [])
  {
  }

  /** `configurations.detachedConfiguration()`: a new detached configuration,
      with no dependencies yet. */
  function WithDetached(h: HostState): HostState
  {
    h.(detached := [])
  }

  function WithRun(h: HostState, name: string, run: Run): HostState
  {
    h.(runs := h.runs[name := run])
  }

  /** `tasks.register(name, InstallMods, ..)` with the task's mods directory.
      Registering a name that is taken fails, which `RegisterInstallTask`
      requires away. */
  function WithInstallTask(h: HostState, name: string, modsDir: string): HostState
  {
    h.(installTasks := h.installTasks[name := modsDir])
  }

  class Project {
    const toolchain: Toolchain
    var sourceSets: map<string, SourceSet>
    var features: seq<string>
    var configurations: map<string, seq<string>>
    var detached: seq<string>
    var remapTargets: map<string, string>
    var runs: map<string, Run>
    var installTasks: map<string, string>

    function Snapshot(): HostState
      reads this
    {
      HostState(toolchain, sourceSets, features, configurations, detached, remapTargets, runs, installTasks)
    }

    constructor (toolchain: Toolchain, sourceSets: map<string, SourceSet>,
                 configurations: map<string, seq<string>>, runs: map<string, Run>)
      ensures Snapshot() == HostState(toolchain, sourceSets, [], configurations, [], map[], runs, map[])
    {
      this.toolchain := toolchain;
      this.sourceSets := sourceSets;
      this.features := [];
      this.configurations := configurations;
      this.detached := [];
      this.remapTargets := map[];
      this.runs := runs;
      this.installTasks := map[];
    }

    method CreateSourceSet(name: string)
      requires name !in sourceSets
      modifies this
      ensures Snapshot() == WithSourceSet(old(Snapshot()), name)
    {
      var created := SourceSetConfigurations(toolchain, name);
      sourceSets := sourceSets[name := SourceSet(["src/" + name + "/java"], ["src/" + name + "/resources"])];
      configurations := configurations + map n | n in created && n !in configurations :: [];
    }

    method SetSrcDirs(name: string, java: seq<string>, resources: seq<string>)
      requires name in sourceSets
      modifies this
      ensures Snapshot() == WithSrcDirs(old(Snapshot()), name, java, resources)
    {
      sourceSets := sourceSets[name := SourceSet(java, resources)];
    }

    method AddSrcDirs(name: string, java: string, resources: string)
      requires name in sourceSets
      modifies this
      ensures Snapshot() == WithExtraSrcDirs(old(Snapshot()), name, java, resources)
    {
      var s := sourceSets[name];
      sourceSets := sourceSets[name := SourceSet(s.javaDirs + [java], s.resourcesDirs + [resources])];
    }

    method RegisterFeature(name: string)
      requires name !in features
      modifies this
      ensures Snapshot() == WithFeature(old(Snapshot()), name)
    {
      features := features + [name];
    }

    method CreateConfiguration(name: string)
      requires name !in configurations
      modifies this
      ensures Snapshot() == WithConfiguration(old(Snapshot()), name)
    {
      configurations := configurations[name := []];
    }

    method MaybeCreateConfiguration(name: string)
      modifies this
      ensures Snapshot() == WithMaybeConfiguration(old(Snapshot()), name)
    {
      if name !in configurations {
        configurations := configurations[name := []];
      }
    }

    method AddRemapConfiguration(name: string, target: string)
      requires name !in configurations && name !in remapTargets
      modifies this
      ensures Snapshot() == WithRemapConfiguration(old(Snapshot()), name, target)
    {
      configurations := configurations[name := []];
      remapTargets := remapTargets[name := target];
    }

    method AddLater(t: Target, dependency: Option<string>)
      requires Exists(Snapshot(), t)
      modifies this
      ensures Snapshot() == WithDependency(old(Snapshot()), t, dependency)
    {
      match t
      case Named(n) => configurations := configurations[n := configurations[n] + ToSeq(dependency)];
      case Detached => detached := detached + ToSeq(dependency);
    }

    method DetachedConfiguration()
      modifies this
      ensures Snapshot() == WithDetached(old(Snapshot()))
    {
      detached := [];
    }

    method PutRun(name: string, run: Run)
      modifies this
      ensures Snapshot() == WithRun(old(Snapshot()), name, run)
    {
      runs := runs[name := run];
    }

    method RegisterInstallTask(name: string, modsDir: string)
      requires name !in installTasks
      modifies this
      ensures Snapshot() == WithInstallTask(old(Snapshot()), name, modsDir)
    {
      installTasks := installTasks[name := modsDir];
    }
  }
}
