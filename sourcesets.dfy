/** The per-implementation source set and its configurations: the names
    `SourceSetUtils` derives, the get-or-create provisioning of the source set,
    and the lookup of a pair's three configurations. */
module SourceSets {
  import opened Common
  import opened Gradle
  import opened Model
  import opened Registration

  /** `SourceSet.MAIN_SOURCE_SET_NAME`. */
  const Main: string := "main"

  /** The source set's name: the capitalized name lower-cased again. */
  function SourceSetName(i: Implementation): (r: string)
    ensures r == LowerName(i)
    ensures r != Main
  {
    ToLower(CapitalName(i))
  }

  function JavaDir(i: Implementation): string
  {
    "src/shaders/" + LowerName(i) + "/java"
  }

  function ResourcesDir(i: Implementation): string
  {
    "src/shaders/" + LowerName(i) + "/resources"
  }

  /** `{uncapitalized name}ModDownloads`: the mods to install into a run. */
  function ModDownloadsName(i: Implementation): (r: string)
    ensures r == LowerName(i) + "ModDownloads"
  {
    Uncapitalize(CapitalName(i)) + "ModDownloads"
  }

  /** The Fabric path's own `{lower}LocalRuntime` configuration. */
  function SourceSetLocalRuntimeName(i: Implementation): (r: string)
    ensures r == LocalRuntimeOf(LowerName(i))
  {
    LocalRuntimeOf(ToLower(CapitalName(i)))
  }

  /** Loom's remap configuration for compiling against the implementation. */
  function ModCompileOnlyName(i: Implementation): string
  {
    "mod" + CapitalName(i) + "CompileOnly"
  }

  /** Loom's remap configuration for running with the implementation. */
  function ModLocalRuntimeName(i: Implementation): string
  {
    "mod" + CapitalName(i) + "LocalRuntime"
  }

  /** A name built on the source set's name: it starts with its first letter. */
  predicate LowerPrefixed(n: string, i: Implementation)
  {
    |n| > 0 && n[0] == Initial(i)
  }

  /** A name built as `mod{Cap}..`. */
  predicate ModPrefixed(n: string, i: Implementation)
  {
    |n| > 3 && n[0] == 'm' && n[3] == CapitalInitial(i)
  }

  /** Which family each derived name belongs to. */
  lemma NamesPrefixed(t: Toolchain, i: Implementation)
    ensures forall n :: n in SourceSetConfigurations(t, LowerName(i)) ==> LowerPrefixed(n, i)
    ensures LowerPrefixed(ModDownloadsName(i), i) && LowerPrefixed(SourceSetLocalRuntimeName(i), i)
    ensures ModPrefixed(ModCompileOnlyName(i), i) && ModPrefixed(RemappedOf(ModCompileOnlyName(i)), i)
    ensures ModPrefixed(ModLocalRuntimeName(i), i) && ModPrefixed(RemappedOf(ModLocalRuntimeName(i)), i)
  {
    InitialsOf(i);
  }

  /** Names of different families, or of different implementations, differ. */
  lemma PrefixedApart(a: string, b: string, i: Implementation, j: Implementation)
    ensures LowerPrefixed(a, i) && ModPrefixed(b, j) ==> a != b
    ensures i != j && LowerPrefixed(a, i) && LowerPrefixed(b, j) ==> a != b
    ensures i != j && ModPrefixed(a, i) && ModPrefixed(b, j) ==> a != b
  {
    if LowerPrefixed(a, i) && ModPrefixed(b, j) {
      DifferAt(a, b, 0);
    }
    if i != j && LowerPrefixed(a, i) && LowerPrefixed(b, j) {
      DifferAt(a, b, 0);
    }
    if i != j && ModPrefixed(a, i) && ModPrefixed(b, j) {
      DifferAt(a, b, 3);
    }
  }

  /** Names of one implementation in the same family differ in their
      suffixes. */
  lemma SuffixesApart(t: Toolchain, i: Implementation)
    ensures ModDownloadsName(i) !in SourceSetConfigurations(t, LowerName(i))
    ensures SourceSetLocalRuntimeName(i) !in SourceSetConfigurations(Loom, LowerName(i))
    ensures SourceSetLocalRuntimeName(i) != ModDownloadsName(i)
    ensures ModCompileOnlyName(i) != ModLocalRuntimeName(i)
    ensures RemappedOf(ModCompileOnlyName(i)) != ModLocalRuntimeName(i)
  {
    var lower, mod := LowerName(i), "mod" + CapitalName(i);
    SuffixesDiffer(lower, "ModDownloads", "CompileOnly");
    SuffixesDiffer(lower, "ModDownloads", "CompileClasspath");
    SuffixesDiffer(lower, "ModDownloads", "RuntimeClasspath");
    SuffixesDiffer(lower, "ModDownloads", "LocalRuntime");
    SuffixesDiffer(lower, "LocalRuntime", "CompileOnly");
    SuffixesDiffer(lower, "LocalRuntime", "CompileClasspath");
    SuffixesDiffer(lower, "LocalRuntime", "RuntimeClasspath");
    SuffixesDiffer(mod, "CompileOnly", "LocalRuntime");
    assert |RemappedOf(ModCompileOnlyName(i))| != |ModLocalRuntimeName(i)|;
  }

  /** `getConfigurationFor`: the configurations standing for a pair's three
      buckets. The downloaded mods have the same configuration on both
      platforms, and the three are always different configurations. */
  function ConfigurationsFor(p: Platform, i: Implementation): (r: ConfigurationSetup)
    ensures r.modDownloads == Named(ModDownloadsName(i))
    ensures IsFabric(p) ==>
              r.localRuntimeOnly == Named(ModLocalRuntimeName(i)) && r.localCompileOnly == Named(ModCompileOnlyName(i))
    ensures IsNeoForge(p) ==>
              r.localRuntimeOnly == Named(LocalRuntimeOf(LowerName(i))) && r.localCompileOnly == Named(CompileOnlyOf(LowerName(i)))
    ensures Distinct(r)
  {
    LowerStable(Name(i));
    SuffixesApart(NeoGradle, i);
    NamesPrefixed(NeoGradle, i);
    PrefixedApart(ModDownloadsName(i), ModLocalRuntimeName(i), i, i);
    PrefixedApart(ModDownloadsName(i), ModCompileOnlyName(i), i, i);
    if IsFabric(p) then
      ConfigurationSetup(Named(ModLocalRuntimeName(i)), Named(ModCompileOnlyName(i)), Named(ModDownloadsName(i)))
    else
      var name := Uncapitalize(LowerName(i));
      assert ToLower(name) + "ModDownloads" == ModDownloadsName(i);
      ConfigurationSetup(Named(LocalRuntimeOf(ToLower(name))), Named(CompileOnlyOf(ToLower(name))),
                         Named(ToLower(name) + "ModDownloads"))
  }

  /** The three names spelled out: `mod{Cap}LocalRuntime` and
      `mod{Cap}CompileOnly` on Fabric, `{lower}LocalRuntime` and
      `{lower}CompileOnly` on NeoForge, `{lower}ModDownloads` on both. */
  lemma ConfigurationNames(p: Platform, i: Implementation)
    ensures ConfigurationsFor(p, i).modDownloads == Named(LowerName(i) + "ModDownloads")
    ensures IsFabric(p) ==>
              ConfigurationsFor(p, i).localRuntimeOnly == Named("mod" + CapitalName(i) + "LocalRuntime")
              && ConfigurationsFor(p, i).localCompileOnly == Named("mod" + CapitalName(i) + "CompileOnly")
    ensures IsNeoForge(p) ==>
              ConfigurationsFor(p, i).localRuntimeOnly == Named(LowerName(i) + "LocalRuntime")
              && ConfigurationsFor(p, i).localCompileOnly == Named(LowerName(i) + "CompileOnly")
  {
  }

  /** Every configuration `getConfigurationFor` names is built on the
      implementation's name. */
  lemma ConfigurationsPrefixed(p: Platform, i: Implementation, b: Bucket)
    ensures TargetOf(ConfigurationsFor(p, i), b).Named?
    ensures var n := TargetOf(ConfigurationsFor(p, i), b).name;
            LowerPrefixed(n, i) || ModPrefixed(n, i)
  {
    NamesPrefixed(NeoGradle, i);
    assert CompileOnlyOf(LowerName(i)) in SourceSetConfigurations(NeoGradle, LowerName(i));
  }

  /** The two implementations never share a configuration. */
  lemma ConfigurationsDisjoint(p: Platform, q: Platform, i: Implementation, j: Implementation, a: Bucket, b: Bucket)
    requires i != j
    ensures TargetOf(ConfigurationsFor(p, i), a) != TargetOf(ConfigurationsFor(q, j), b)
  {
    ConfigurationsPrefixed(p, i, a);
    ConfigurationsPrefixed(q, j, b);
    var n, m := TargetOf(ConfigurationsFor(p, i), a).name, TargetOf(ConfigurationsFor(q, j), b).name;
    PrefixedApart(n, m, i, j);
    PrefixedApart(m, n, j, i);
  }

  /** Every name that provisioning `i` creates, other than those the host
      creates with the source set itself. */
  predicate Untouched(h: HostState, p: Platform, i: Implementation)
  {
    && ModDownloadsName(i) !in h.configurations
    && LowerName(i) !in h.features
    && (IsFabric(p) ==>
          && SourceSetLocalRuntimeName(i) !in h.configurations
          && ModCompileOnlyName(i) !in h.configurations && ModCompileOnlyName(i) !in h.remapTargets
          && ModLocalRuntimeName(i) !in h.configurations && ModLocalRuntimeName(i) !in h.remapTargets)
  }

  /** The state the plugin keeps in a project: the platform's toolchain is
      applied, the main source set exists, and each implementation is either
      fully provisioned (its source set and all three bucket configurations
      exist) or not provisioned at all (none of its names is taken). */
  predicate Consistent(h: HostState, p: Platform)
  {
    && h.toolchain == ToolchainOf(p)
    && Main in h.sourceSets
    && forall i :: (LowerName(i) in h.sourceSets ==> SetupExists(h, ConfigurationsFor(p, i)))
                && (LowerName(i) !in h.sourceSets ==> Untouched(h, p, i))
  }

  /** The configurations the common part of creation adds: those the host
      registers with the source set, and the downloaded-mods configuration. */
  function CommonNames(p: Platform, i: Implementation): set<string>
  {
    SourceSetConfigurations(ToolchainOf(p), LowerName(i)) + {ModDownloadsName(i)}
  }

  /** The first part of creation, common to both generations: the source set
      with exactly its two shader directories, its feature and its
      downloaded-mods configuration. */
  function CreateCommon(h: HostState, p: Platform, i: Implementation): (r: HostState)
    requires h.toolchain == ToolchainOf(p) && LowerName(i) !in h.sourceSets && Untouched(h, p, i)
    ensures r.configurations.Keys == h.configurations.Keys + CommonNames(p, i)
  {
    var name := LowerName(i);
    SuffixesApart(h.toolchain, i);
    var withSet := WithSourceSet(h, name);
    var withDirs := WithSrcDirs(withSet, name, [JavaDir(i)], [ResourcesDir(i)]);
    var withFeature := WithFeature(withDirs, name);
    WithConfiguration(withFeature, ModDownloadsName(i))
  }

  /** Apart from the configurations, the common part adds the source set
      with exactly its two shader directories and its feature. */
  lemma CreateCommonEffect(h: HostState, p: Platform, i: Implementation)
    requires h.toolchain == ToolchainOf(p) && LowerName(i) !in h.sourceSets && Untouched(h, p, i)
    ensures var r := CreateCommon(h, p, i);
            r == h.(sourceSets := h.sourceSets[LowerName(i) := SourceSet([JavaDir(i)], [ResourcesDir(i)])],
                    features := h.features + [LowerName(i)],
                    configurations := r.configurations)
  {
    var name := LowerName(i);
    SuffixesApart(h.toolchain, i);
    var withSet := WithSourceSet(h, name);
    var withDirs := WithSrcDirs(withSet, name, [JavaDir(i)], [ResourcesDir(i)]);
    var withFeature := WithFeature(withDirs, name);
    assert withFeature == h.(sourceSets := h.sourceSets[name := SourceSet([JavaDir(i)], [ResourcesDir(i)])],
                             features := h.features + [name], configurations := withSet.configurations);
  }

  /** The common part keeps every list that existed before. */
  lemma CreateCommonKeepsLists(h: HostState, p: Platform, i: Implementation)
    requires h.toolchain == ToolchainOf(p) && LowerName(i) !in h.sourceSets && Untouched(h, p, i)
    ensures ListsKept(h, CreateCommon(h, p, i))
  {
  }

  /** The two generations of `getOrCreateShaderSourceSetIn`. They differ only
      on Fabric: the current one points both remap configurations at `api` and
      creates the configurations Loom remaps them into; the older one points
      them at the source set's compile classpath and local runtime. */
  datatype Generation = Current | Legacy

  function CompileRemapTarget(g: Generation, i: Implementation): string
  {
    match g
    case Current => "api"
    case Legacy => CompileClasspathOf(LowerName(i))
  }

  function RuntimeRemapTarget(g: Generation, i: Implementation): string
  {
    match g
    case Current => "api"
    case Legacy => SourceSetLocalRuntimeName(i)
  }

  /** The three names the Fabric branch creates are free in `c` and differ
      from each other and from the first remapped configuration. */
  predicate FreshNames(c: HostState, local: string, compileOnly: string, localRuntime: string)
  {
    && local !in c.configurations
    && compileOnly !in c.configurations && compileOnly !in c.remapTargets
    && localRuntime !in c.configurations && localRuntime !in c.remapTargets
    && local != compileOnly && local != localRuntime && compileOnly != localRuntime
    && RemappedOf(compileOnly) != localRuntime
  }

  /** The configurations the Fabric branch adds: the local runtime
      configuration and the two remap configurations, and in the current
      generation the configurations Loom remaps them into. */
  function FabricNames(local: string, compileOnly: string, localRuntime: string, mapped: bool): set<string>
  {
    {local, compileOnly, localRuntime} + (if mapped then {RemappedOf(compileOnly), RemappedOf(localRuntime)} else {})
  }

  /** The Fabric branch of creation, after the common part: the local runtime
      configuration and the two remap configurations with their targets, each
      followed, when `mapped`, by the configuration Loom remaps it into. */
  function FabricTail(c: HostState, local: string, compileOnly: string, localRuntime: string,
                      compileTarget: string, runtimeTarget: string, mapped: bool): HostState
    requires FreshNames(c, local, compileOnly, localRuntime)
  {
    var withLocal := WithConfiguration(c, local);
    var withCompileRemap := WithRemapConfiguration(withLocal, compileOnly, compileTarget);
    var withCompileMapped := if mapped then WithMaybeConfiguration(withCompileRemap, RemappedOf(compileOnly)) else withCompileRemap;
    var withRuntimeRemap := WithRemapConfiguration(withCompileMapped, localRuntime, runtimeTarget);
    if mapped then WithMaybeConfiguration(withRuntimeRemap, RemappedOf(localRuntime)) else withRuntimeRemap
  }

  /** The Fabric branch adds exactly `FabricNames` to the configurations. */
  lemma FabricTailNames(c: HostState, local: string, compileOnly: string, localRuntime: string,
                        compileTarget: string, runtimeTarget: string, mapped: bool)
    requires FreshNames(c, local, compileOnly, localRuntime)
    ensures FabricTail(c, local, compileOnly, localRuntime, compileTarget, runtimeTarget, mapped).configurations.Keys
         == c.configurations.Keys + FabricNames(local, compileOnly, localRuntime, mapped)
  {
  }

  /** The Fabric branch keeps every list that existed before. */
  lemma FabricTailKeepsLists(c: HostState, local: string, compileOnly: string, localRuntime: string,
                             compileTarget: string, runtimeTarget: string, mapped: bool)
    requires FreshNames(c, local, compileOnly, localRuntime)
    ensures ListsKept(c, FabricTail(c, local, compileOnly, localRuntime, compileTarget, runtimeTarget, mapped))
  {
    var withLocal := WithConfiguration(c, local);
    var withCompileRemap := WithRemapConfiguration(withLocal, compileOnly, compileTarget);
    var withCompileMapped := if mapped then WithMaybeConfiguration(withCompileRemap, RemappedOf(compileOnly)) else withCompileRemap;
    assert ListsKept(c, withCompileMapped);
  }

  /** Apart from the configurations, the Fabric branch only registers the two
      remap targets. */
  lemma FabricTailRest(c: HostState, local: string, compileOnly: string, localRuntime: string,
                       compileTarget: string, runtimeTarget: string, mapped: bool)
    requires FreshNames(c, local, compileOnly, localRuntime)
    ensures var r := FabricTail(c, local, compileOnly, localRuntime, compileTarget, runtimeTarget, mapped);
            r == c.(configurations := r.configurations,
                    remapTargets := c.remapTargets[compileOnly := compileTarget][localRuntime := runtimeTarget])
  {
  }

  /** On Fabric, the three names the Fabric branch creates are none of the
      common part's, and differ from each other and from the first remapped
      configuration. */
  lemma FabricNamesApart(p: Platform, i: Implementation)
    requires IsFabric(p)
    ensures {SourceSetLocalRuntimeName(i), ModCompileOnlyName(i), ModLocalRuntimeName(i)} !! CommonNames(p, i)
    ensures SourceSetLocalRuntimeName(i) != ModCompileOnlyName(i) && SourceSetLocalRuntimeName(i) != ModLocalRuntimeName(i)
    ensures ModCompileOnlyName(i) != ModLocalRuntimeName(i) && RemappedOf(ModCompileOnlyName(i)) != ModLocalRuntimeName(i)
  {
    SuffixesApart(Loom, i);
    NamesPrefixed(Loom, i);
    forall n | n in CommonNames(p, i)
      ensures n != ModCompileOnlyName(i) && n != ModLocalRuntimeName(i)
    {
      PrefixedApart(n, ModCompileOnlyName(i), i, i);
      PrefixedApart(n, ModLocalRuntimeName(i), i, i);
    }
    PrefixedApart(SourceSetLocalRuntimeName(i), ModCompileOnlyName(i), i, i);
    PrefixedApart(SourceSetLocalRuntimeName(i), ModLocalRuntimeName(i), i, i);
  }

  /** On Fabric, the names the Fabric branch creates are still free after the
      common part of creation. */
  lemma FabricNamesFresh(h: HostState, p: Platform, i: Implementation)
    requires h.toolchain == ToolchainOf(p) && LowerName(i) !in h.sourceSets && Untouched(h, p, i) && IsFabric(p)
    ensures FreshNames(CreateCommon(h, p, i), SourceSetLocalRuntimeName(i), ModCompileOnlyName(i), ModLocalRuntimeName(i))
  {
    FabricNamesApart(p, i);
    var names := {SourceSetLocalRuntimeName(i), ModCompileOnlyName(i), ModLocalRuntimeName(i)};
    assert SourceSetLocalRuntimeName(i) in names && ModCompileOnlyName(i) in names && ModLocalRuntimeName(i) in names;
  }

  /** The configurations creating `i`'s source set adds. */
  function ProvisionedNames(g: Generation, p: Platform, i: Implementation): set<string>
  {
    CommonNames(p, i)
    + (if IsFabric(p) then FabricNames(SourceSetLocalRuntimeName(i), ModCompileOnlyName(i), ModLocalRuntimeName(i), g == Current)
       else {})
  }

  /** The creation branch of `getOrCreateShaderSourceSetIn`: the common part,
      then on Fabric the Fabric branch (the `isMain` guard around it always
      holds, since the source set is never `main`). */
  function Provision(g: Generation, h: HostState, p: Platform, i: Implementation): HostState
    requires h.toolchain == ToolchainOf(p) && LowerName(i) !in h.sourceSets && Untouched(h, p, i)
  {
    var common := CreateCommon(h, p, i);
    if IsFabric(p) && SourceSetName(i) != Main then
      FabricNamesFresh(h, p, i);
      FabricTail(common, SourceSetLocalRuntimeName(i), ModCompileOnlyName(i), ModLocalRuntimeName(i),
                 CompileRemapTarget(g, i), RuntimeRemapTarget(g, i), g == Current)
    else
      common
  }

  /** First creation adds exactly `ProvisionedNames` to the configurations. */
  lemma ProvisionNames(g: Generation, h: HostState, p: Platform, i: Implementation)
    requires h.toolchain == ToolchainOf(p) && LowerName(i) !in h.sourceSets && Untouched(h, p, i)
    ensures Provision(g, h, p, i).configurations.Keys == h.configurations.Keys + ProvisionedNames(g, p, i)
  {
    if IsFabric(p) {
      FabricNamesFresh(h, p, i);
      FabricTailNames(CreateCommon(h, p, i), SourceSetLocalRuntimeName(i), ModCompileOnlyName(i), ModLocalRuntimeName(i),
                      CompileRemapTarget(g, i), RuntimeRemapTarget(g, i), g == Current);
    }
  }

  /** First creation keeps every dependency list that existed before. */
  lemma ProvisionKeepsLists(g: Generation, h: HostState, p: Platform, i: Implementation)
    requires h.toolchain == ToolchainOf(p) && LowerName(i) !in h.sourceSets && Untouched(h, p, i)
    ensures ListsKept(h, Provision(g, h, p, i))
  {
    CreateCommonKeepsLists(h, p, i);
    if IsFabric(p) {
      FabricNamesFresh(h, p, i);
      FabricTailKeepsLists(CreateCommon(h, p, i), SourceSetLocalRuntimeName(i), ModCompileOnlyName(i), ModLocalRuntimeName(i),
                           CompileRemapTarget(g, i), RuntimeRemapTarget(g, i), g == Current);
    }
  }

  /** First creation, apart from the configurations: the source set with
      exactly its two shader directories, its feature, and on Fabric only the
      two remap configurations with their generation's targets; no run, task
      or detached dependency changes. */
  lemma ProvisionEffect(g: Generation, h: HostState, p: Platform, i: Implementation)
    requires h.toolchain == ToolchainOf(p) && LowerName(i) !in h.sourceSets && Untouched(h, p, i)
    ensures var r := Provision(g, h, p, i);
            r == h.(sourceSets := h.sourceSets[LowerName(i) := SourceSet([JavaDir(i)], [ResourcesDir(i)])],
                    features := h.features + [LowerName(i)],
                    configurations := r.configurations,
                    remapTargets := if IsFabric(p)
                                    then h.remapTargets[ModCompileOnlyName(i) := CompileRemapTarget(g, i)]
                                                       [ModLocalRuntimeName(i) := RuntimeRemapTarget(g, i)]
                                    else h.remapTargets)
  {
    CreateCommonEffect(h, p, i);
    if IsFabric(p) {
      FabricNamesFresh(h, p, i);
      FabricTailRest(CreateCommon(h, p, i), SourceSetLocalRuntimeName(i), ModCompileOnlyName(i), ModLocalRuntimeName(i),
                     CompileRemapTarget(g, i), RuntimeRemapTarget(g, i), g == Current);
    }
  }

  /** The older `getOrCreateShaderSourceSetIn` against the current one: the
      same on NeoForge; on Fabric it creates the same configurations less the
      two remapped ones. */
  lemma LegacyProvision(h: HostState, p: Platform, i: Implementation)
    requires h.toolchain == ToolchainOf(p) && LowerName(i) !in h.sourceSets && Untouched(h, p, i)
    ensures IsNeoForge(p) ==> Provision(Legacy, h, p, i) == Provision(Current, h, p, i)
    ensures ProvisionedNames(Current, p, i)
         == ProvisionedNames(Legacy, p, i)
            + (if IsFabric(p) then {RemappedOf(ModCompileOnlyName(i)), RemappedOf(ModLocalRuntimeName(i))} else {})
  {
  }

  /** On Fabric the older variant's remap configurations target the source
      set's compile classpath and `{lower}LocalRuntime`. */
  lemma LegacyRemapTargets(h: HostState, p: Platform, i: Implementation)
    requires h.toolchain == ToolchainOf(p) && LowerName(i) !in h.sourceSets && Untouched(h, p, i) && IsFabric(p)
    ensures var r := Provision(Legacy, h, p, i);
            r.remapTargets[ModCompileOnlyName(i)] == CompileClasspathOf(LowerName(i))
            && r.remapTargets[ModLocalRuntimeName(i)] == LocalRuntimeOf(LowerName(i))
  {
    ProvisionEffect(Legacy, h, p, i);
    SuffixesApart(Loom, i);
    var m := h.remapTargets[ModCompileOnlyName(i) := CompileClasspathOf(LowerName(i))]
                           [ModLocalRuntimeName(i) := LocalRuntimeOf(LowerName(i))];
    assert Provision(Legacy, h, p, i).remapTargets == m;
  }

  /** The configuration names `Untouched` requires to be free. */
  function ClaimedNames(p: Platform, i: Implementation): set<string>
  {
    {ModDownloadsName(i)}
    + (if IsFabric(p) then {SourceSetLocalRuntimeName(i), ModCompileOnlyName(i), ModLocalRuntimeName(i)} else {})
  }

  /** Every name provisioned for, or claimed by, an implementation is built on
      its name. */
  lemma ProvisionedPrefixed(g: Generation, p: Platform, i: Implementation)
    ensures forall n :: n in ProvisionedNames(g, p, i) ==> LowerPrefixed(n, i) || ModPrefixed(n, i)
    ensures forall n :: n in ClaimedNames(p, i) ==> LowerPrefixed(n, i) || ModPrefixed(n, i)
  {
    NamesPrefixed(ToolchainOf(p), i);
  }

  /** What one implementation provisions never clashes with the names the
      other one needs free. */
  lemma ProvisionedNamesDisjoint(g: Generation, p: Platform, i: Implementation, j: Implementation)
    requires i != j
    ensures ProvisionedNames(g, p, i) !! ClaimedNames(p, j)
  {
    ProvisionedPrefixed(g, p, i);
    ProvisionedPrefixed(g, p, j);
    forall n, m | n in ProvisionedNames(g, p, i) && m in ClaimedNames(p, j)
      ensures n != m
    {
      PrefixedApart(n, m, i, j);
      PrefixedApart(m, n, j, i);
    }
  }

  /** A state that grows from `h` by `i`'s names only leaves `j` untouched. */
  lemma UntouchedKept(g: Generation, h: HostState, r: HostState, p: Platform, i: Implementation, j: Implementation)
    requires r.configurations.Keys == h.configurations.Keys + ProvisionedNames(g, p, i)
    requires r.features == h.features + [LowerName(i)]
    requires r.remapTargets.Keys <= h.remapTargets.Keys + {ModCompileOnlyName(i), ModLocalRuntimeName(i)}
    requires i != j && Untouched(h, p, j)
    ensures Untouched(r, p, j)
  {
    ProvisionedNamesDisjoint(g, p, i, j);
    NamesDistinct(i, j);
    assert ModDownloadsName(j) in ClaimedNames(p, j);
    if IsFabric(p) {
      assert SourceSetLocalRuntimeName(j) in ClaimedNames(p, j);
      assert ModCompileOnlyName(j) in ClaimedNames(p, j);
      assert ModLocalRuntimeName(j) in ClaimedNames(p, j);
      assert ModCompileOnlyName(i) in ProvisionedNames(g, p, i) && ModLocalRuntimeName(i) in ProvisionedNames(g, p, i);
    }
  }

  /** Provisioning one implementation takes none of the other's names. */
  lemma ProvisionLeavesOther(g: Generation, h: HostState, p: Platform, i: Implementation, j: Implementation)
    requires h.toolchain == ToolchainOf(p) && LowerName(i) !in h.sourceSets && Untouched(h, p, i)
    requires i != j && Untouched(h, p, j)
    ensures Untouched(Provision(g, h, p, i), p, j)
  {
    ProvisionEffect(g, h, p, i);
    ProvisionNames(g, h, p, i);
    UntouchedKept(g, h, Provision(g, h, p, i), p, i, j);
  }

  /** Provisioning creates every configuration `getConfigurationFor` looks up. */
  lemma ProvisionSetupExists(g: Generation, h: HostState, p: Platform, i: Implementation)
    requires h.toolchain == ToolchainOf(p) && LowerName(i) !in h.sourceSets && Untouched(h, p, i)
    ensures SetupExists(Provision(g, h, p, i), ConfigurationsFor(p, i))
  {
    ProvisionNames(g, h, p, i);
    assert ModDownloadsName(i) in ProvisionedNames(g, p, i);
    if IsFabric(p) {
      assert ModCompileOnlyName(i) in ProvisionedNames(g, p, i) && ModLocalRuntimeName(i) in ProvisionedNames(g, p, i);
    } else {
      assert CompileOnlyOf(LowerName(i)) in ProvisionedNames(g, p, i) && LocalRuntimeOf(LowerName(i)) in ProvisionedNames(g, p, i);
    }
  }

  /** `getOrCreateShaderSourceSetIn`, as a function of the project state: an
      existing source set is returned as it is, otherwise it is created. */
  function GetOrCreate(g: Generation, h: HostState, p: Platform, i: Implementation): HostState
    requires Consistent(h, p)
  {
    if SourceSetName(i) in h.sourceSets then h
    else
      assert Untouched(h, p, i);
      Provision(g, h, p, i)
  }

  /** Provisioning adds the implementation's source set (if missing) and
      touches neither the toolchain, the runs, the install tasks nor the
      detached configuration. */
  lemma GetOrCreateFrame(g: Generation, h: HostState, p: Platform, i: Implementation)
    requires Consistent(h, p)
    ensures var r := GetOrCreate(g, h, p, i);
            r.toolchain == h.toolchain && r.runs == h.runs && r.installTasks == h.installTasks && r.detached == h.detached
            && r.sourceSets.Keys == h.sourceSets.Keys + {LowerName(i)}
  {
    if LowerName(i) !in h.sourceSets {
      ProvisionEffect(g, h, p, i);
    }
  }

  /** `getOrCreateShaderSourceSetIn` keeps the project consistent, leaves the
      source set and all three of the pair's configurations in place, and
      keeps every dependency list that existed before. */
  lemma GetOrCreateConsistent(g: Generation, h: HostState, p: Platform, i: Implementation)
    requires Consistent(h, p)
    ensures var r := GetOrCreate(g, h, p, i);
            && Consistent(r, p) && LowerName(i) in r.sourceSets && SetupExists(r, ConfigurationsFor(p, i))
            && ListsKept(h, r)
  {
    if LowerName(i) !in h.sourceSets {
      var r := Provision(g, h, p, i);
      ProvisionEffect(g, h, p, i);
      ProvisionNames(g, h, p, i);
      ProvisionKeepsLists(g, h, p, i);
      ProvisionSetupExists(g, h, p, i);
      forall j | j != i
        ensures (LowerName(j) in r.sourceSets ==> SetupExists(r, ConfigurationsFor(p, j)))
                && (LowerName(j) !in r.sourceSets ==> Untouched(r, p, j))
      {
        NamesDistinct(i, j);
        if LowerName(j) !in h.sourceSets {
          ProvisionLeavesOther(g, h, p, i, j);
        }
      }
    }
  }

  /** Creating the source set a second time changes nothing. */
  lemma GetOrCreateIdempotent(g: Generation, h: HostState, p: Platform, i: Implementation)
    requires Consistent(h, p)
    ensures Consistent(GetOrCreate(g, h, p, i), p)
    ensures GetOrCreate(g, GetOrCreate(g, h, p, i), p, i) == GetOrCreate(g, h, p, i)
  {
    GetOrCreateConsistent(g, h, p, i);
  }

  /** The common part of creation, step by step on the project. */
  method CreateCommonIn(project: Project, p: Platform, i: Implementation)
    requires project.toolchain == ToolchainOf(p) && LowerName(i) !in project.sourceSets && Untouched(project.Snapshot(), p, i)
    modifies project
    ensures project.Snapshot() == CreateCommon(old(project.Snapshot()), p, i)
  {
    var capitalized := CapitalName(i);
    var name := ToLower(capitalized);
    assert name == SourceSetName(i);
    SuffixesApart(project.toolchain, i);
    project.CreateSourceSet(name);
    project.SetSrcDirs(name, [JavaDir(i)], [ResourcesDir(i)]);
    project.RegisterFeature(ToLower(Name(i)));
    project.CreateConfiguration(Uncapitalize(capitalized) + "ModDownloads");
  }

  /** The Fabric branch of creation, step by step on the project. */
  method FabricTailIn(project: Project, local: string, compileOnly: string, localRuntime: string,
                      compileTarget: string, runtimeTarget: string, mapped: bool)
    requires FreshNames(project.Snapshot(), local, compileOnly, localRuntime)
    modifies project
    ensures project.Snapshot()
         == FabricTail(old(project.Snapshot()), local, compileOnly, localRuntime, compileTarget, runtimeTarget, mapped)
  {
    project.CreateConfiguration(local);
    project.AddRemapConfiguration(compileOnly, compileTarget);
    if mapped {
      project.MaybeCreateConfiguration(RemappedOf(compileOnly));
    }
    project.AddRemapConfiguration(localRuntime, runtimeTarget);
    if mapped {
      project.MaybeCreateConfiguration(RemappedOf(localRuntime));
    }
  }

  /** `getOrCreateShaderSourceSetIn`: look the source set up by name and,
      when it is missing, create it with its directories, feature and
      configurations. Returns the source set's name. */
  method GetOrCreateShaderSourceSetIn(g: Generation, project: Project, p: Platform, i: Implementation) returns (name: string)
    requires Consistent(project.Snapshot(), p)
    modifies project
    ensures name == LowerName(i)
    ensures project.Snapshot() == GetOrCreate(g, old(project.Snapshot()), p, i)
  {
    ghost var h := project.Snapshot();
    var capitalized := Capitalize(ToLower(Name(i)));
    name := ToLower(capitalized);
    assert name == SourceSetName(i);
    if name in project.sourceSets {
      return;
    }
    assert Untouched(h, p, i);
    CreateCommonIn(project, p, i);
    if IsFabric(p) && name != Main {
      FabricNamesFresh(h, p, i);
      FabricTailIn(project, LocalRuntimeOf(ToLower(capitalized)), "mod" + capitalized + "CompileOnly",
                   "mod" + capitalized + "LocalRuntime", CompileRemapTarget(g, i), RuntimeRemapTarget(g, i), g == Current);
    }
  }
}
