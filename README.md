# Obumbratio configuration engine, in Dafny

Obumbratio is a Gradle plugin that adds shader-mod compatibility to a
Minecraft mod build. The build script chooses a mod loader platform (Fabric,
spelled `FARBIC` in the code, or NeoForge) and one or more renderer
implementations (Sodium, Embeddium). From that choice the plugin does four
things:

- it provisions a source set, configurations and a client run per
  implementation;
- it fills those configurations with Maven coordinates built from version
  slots;
- it validates the choice after the build script has run, stopping at the
  first problem with a fixed problem id;
- it registers tasks that copy downloaded mods into each run's `mods`
  directory.

This project models that configuration engine in both generations of the
code:

- **Current** (`src/...`): an `EnumSet` of implementations, a `ConfigurationSetup`
  per implementation, and a callback that provisions a source set, a run and
  dependencies each time it is dispatched.
- **Legacy** (`plugin/src/...`): a single implementation, one pair of shared
  configurations per platform whose compile and runtime roles are swapped,
  and one shared downloading configuration.

The Gradle project is reduced to a handful of name-keyed tables. It is a
class, `Gradle.Project`, whose value is `Gradle.HostState`:

- the toolchain (Loom or NeoGradle);
- source sets with their Java and resources directories;
- registered features;
- configurations, each with its list of coordinates;
- the detached downloading configuration's list;
- Loom remap targets;
- runs, each with a working directory, IDE name and source set;
- install tasks, each with its target `mods` directory.

Version slots are `Option<string>` at their final values. A coordinate exists
exactly when every slot substituted into it is present, which is what
`Provider.zip`/`map` followed by `addLater` gives.

Modules follow the code:

| module | models |
|---|---|
| `Common` | `Option`, ASCII case helpers (`StringUtils.capitalize`/`uncapitalize`, `toLowerCase`) |
| `Gradle` | the host tables and the container operations the plugin calls |
| `Model` | `Platform`, `Implementation`, the version slots and the coordinate templates |
| `Registration` | `register*Dependencies` and `configureIris*Dependencies` (a plan of additions per bucket, applied in place) |
| `SourceSets` | both `SourceSetUtils` (`getOrCreateShaderSourceSetIn`, `getConfigurationFor`) |
| `Runs` | `RunUtils` (`getOrCreateRunFor` and its Loom and NeoGradle paths) |
| `Dispatch` | the current plugin's callback, `configureDependencies`, `getOrCreateRunConfigurations` |
| `Selections` | the current `ShadersExtension` as a state machine over setter calls |
| `Extension` | the current `ShadersExtension` class and its `configure()` loop |
| `Finalize` | the current `afterEvaluate`: the validator chain and install tasks |
| `Conventions` | the current `apply`, `configureConventions`, `parseProperty` |
| `Legacy` | the legacy inner `ShadersExtension`, enums, callback and swapped `getConfigurations` |
| `LegacyFinalize` | the legacy `afterEvaluate`, `getRunConfigurations`, `configureConventions` and `apply` |

The current plugin calls `utils/RunUtils.getOrCreateRunFor`. The current
generation's `src/.../utils/RunUtils.java` is not part of this model, so its
runs are modelled by the `plugin/src/.../utils/RunUtils.java` version.

## Model

| member | source | states |
|---|---|---|
| Common.Zip | src/main/java/com/communi/suggestu/obumbratio/model/Implementation.java:43-47 | a coordinate zipped from two slots exists exactly when both slots are present, and is the template applied to both values |
| Common.Map | src/main/java/com/communi/suggestu/obumbratio/model/Implementation.java:82-85 | a coordinate mapped from one slot exists exactly when that slot is present |
| Common.ToLower | src/main/java/com/communi/suggestu/obumbratio/utils/SourceSetUtils.java:37 | lower-casing keeps the length and lower-cases every letter position by position |
| Common.Capitalize | src/main/java/com/communi/suggestu/obumbratio/utils/SourceSetUtils.java:36 | `StringUtils.capitalize`: upper-cases the first character only and keeps the rest |
| Common.Uncapitalize | src/main/java/com/communi/suggestu/obumbratio/utils/SourceSetUtils.java:75 | `StringUtils.uncapitalize`: lower-cases the first character only and keeps the rest |
| Common.LowerStable | src/main/java/com/communi/suggestu/obumbratio/utils/SourceSetUtils.java:145-149 | lower-casing twice, or uncapitalizing a lower-cased name, changes nothing, so both platforms' spellings of a name agree |
| Model.LoaderExclusive | src/main/java/com/communi/suggestu/obumbratio/model/Platform.java:9-19 | every platform is exactly one of Fabric and NeoForge |
| Model.SupportMatrix | src/main/java/com/communi/suggestu/obumbratio/model/Implementation.java:10-22 | Sodium is supported on every platform; Embeddium exactly on NeoForge |
| Model.Ordered | src/main/java/com/communi/suggestu/obumbratio/extensions/ShadersExtension.java:21 | the `EnumSet` iteration order: exactly the set's members, each once, Sodium before Embeddium |
| Model.NamesDistinct | src/main/java/com/communi/suggestu/obumbratio/utils/SourceSetUtils.java:36-37 | the two implementations have different lower-case and different capitalized names |
| Model.Spelling | src/main/java/com/communi/suggestu/obumbratio/utils/SourceSetUtils.java:36-37 | the names are `sodium`/`Sodium` and `embeddium`/`Embeddium` |
| Model.ParseRender | src/main/java/com/communi/suggestu/obumbratio/model/Implementation.java:61 | a coordinate written as `group:artifact:version` parses back to the same three parts |
| Model.Dependency | src/main/java/com/communi/suggestu/obumbratio/model/Platform.java:36-39 | a single-slot coordinate exists exactly when its version is present, and it reads back as that group, artifact and version |
| Model.SodiumCoordinate | src/main/java/com/communi/suggestu/obumbratio/model/Implementation.java:43-58 | `maven.modrinth:sodium:mc{minecraft}-{sodium}-{fabric or neoforge}`, present exactly when both slots are |
| Model.FabricApiCoordinate | src/main/java/com/communi/suggestu/obumbratio/model/Implementation.java:59-62 | `org.sinytra.forgified-fabric-api:fabric-api-base:{fabricApi}`, present exactly when its slot is |
| Model.FabricRendererCoordinate | src/main/java/com/communi/suggestu/obumbratio/model/Implementation.java:63-66 | `org.sinytra.forgified-fabric-api:fabric-renderer-api-v1:{fabricRenderer}`, present exactly when its slot is |
| Model.EmbeddiumCoordinate | src/main/java/com/communi/suggestu/obumbratio/model/Implementation.java:76-81 | `maven.modrinth:embeddium:{embeddium}+mc{minecraft}`, present exactly when both slots are |
| Model.MonocleCoordinate | src/main/java/com/communi/suggestu/obumbratio/model/Implementation.java:82-85 | `maven.modrinth:monocle-iris:{monocle}`, present exactly when its slot is |
| Model.IrisCoordinate | src/main/java/com/communi/suggestu/obumbratio/model/Platform.java:31-66 | `maven.modrinth:iris:{iris}+{minecraft}-{fabric or neoforge}`, present exactly when both slots are |
| Model.Antlr4RuntimeCoordinate | src/main/java/com/communi/suggestu/obumbratio/model/Platform.java:36-39 | `org.antlr:antlr4-runtime:{v}`, present exactly when its slot is |
| Model.GlslTransformerCoordinate | src/main/java/com/communi/suggestu/obumbratio/model/Platform.java:40-43 | `io.github.douira:glsl-transformer:{v}`, present exactly when its slot is |
| Model.JCppCoordinate | src/main/java/com/communi/suggestu/obumbratio/model/Platform.java:44-47 | `org.anarres:jcpp:{v}`, present exactly when its slot is |
| Model.LoaderCoordinatesDiffer | src/main/java/com/communi/suggestu/obumbratio/model/Implementation.java:46-57 | the Fabric and NeoForge Sodium coordinates differ, and so do the two Iris coordinates |
| Registration.ApplyPlanEffect | src/main/java/com/communi/suggestu/obumbratio/model/Implementation.java:49-50 | applying a plan appends to each configuration exactly the present coordinates routed to it, in plan order, and leaves every other list as it was |
| Registration.ApplyPlanFrame | src/main/java/com/communi/suggestu/obumbratio/model/Implementation.java:49-50 | registering dependencies changes only configuration lists, never source sets, runs, features or tasks |
| Registration.SodiumFabricPlan | src/main/java/com/communi/suggestu/obumbratio/model/Implementation.java:42-51 | Sodium on Fabric: its coordinate to compile-only and to runtime-only, nothing downloaded |
| Registration.SodiumNeoForgePlan | src/main/java/com/communi/suggestu/obumbratio/model/Implementation.java:53-73 | Sodium on NeoForge: Sodium then the two Fabric API coordinates to compile-only, Sodium alone to runtime-only, nothing downloaded |
| Registration.EmbeddiumNeoForgePlan | src/main/java/com/communi/suggestu/obumbratio/model/Implementation.java:75-92 | Embeddium on NeoForge: Embeddium to compile-only and runtime-only, Monocle only to mod downloads |
| Registration.FabricPlan | src/main/java/com/communi/suggestu/obumbratio/model/Implementation.java:28-32 | Embeddium adds nothing on Fabric |
| Registration.IrisFabricPlan | src/main/java/com/communi/suggestu/obumbratio/model/Platform.java:29-58 | Fabric Iris: Iris, antlr4, glsl-transformer and jcpp, in that order, to compile-only and in the same order to runtime-only; nothing downloaded |
| Registration.IrisNeoForgePlan | src/main/java/com/communi/suggestu/obumbratio/model/Platform.java:60-75 | NeoForge Iris: only the Iris coordinate, always to compile-only, and to mod downloads when the implementation needs a downloaded Iris, otherwise to runtime-only |
| Registration.IrisFabricIgnoresImplementation | src/main/java/com/communi/suggestu/obumbratio/model/Platform.java:29-58 | the Fabric Iris registration is the same whatever the implementation |
| Registration.IrisRuntimeOrDownloaded | src/main/java/com/communi/suggestu/obumbratio/model/Platform.java:68-74 | a present Iris coordinate lands in exactly one of runtime-only and mod downloads |
| Registration.RegisterSodiumFabricDependencies | src/main/java/com/communi/suggestu/obumbratio/model/Implementation.java:42-51 | the project afterwards is the old one with the Sodium-on-Fabric plan applied |
| Registration.RegisterSodiumNeoForgeDependencies | src/main/java/com/communi/suggestu/obumbratio/model/Implementation.java:53-73 | the project afterwards is the old one with the Sodium-on-NeoForge plan applied |
| Registration.RegisterEmbeddiumNeoForgeDependencies | src/main/java/com/communi/suggestu/obumbratio/model/Implementation.java:75-92 | the project afterwards is the old one with the Embeddium-on-NeoForge plan applied |
| Registration.RegisterFabricDependencies | src/main/java/com/communi/suggestu/obumbratio/model/Implementation.java:28-32 | dispatch on the implementation: Sodium's Fabric plan, nothing for Embeddium |
| Registration.RegisterNeoForgeDependencies | src/main/java/com/communi/suggestu/obumbratio/model/Implementation.java:34-40 | dispatch on the implementation to its NeoForge plan |
| Registration.ConfigureIrisFabricDependencies | src/main/java/com/communi/suggestu/obumbratio/model/Platform.java:29-58 | the project afterwards is the old one with the Fabric Iris plan applied |
| Registration.ConfigureIrisNeoForgeDependencies | src/main/java/com/communi/suggestu/obumbratio/model/Platform.java:60-75 | the project afterwards is the old one with the NeoForge Iris plan applied |
| Registration.ConfigureIrisDependencies | src/main/java/com/communi/suggestu/obumbratio/model/Platform.java:21-27 | dispatch on the platform to its Iris plan |
| SourceSets.SourceSetName | src/main/java/com/communi/suggestu/obumbratio/utils/SourceSetUtils.java:36-37 | the source set's key is the lower-case implementation name, whatever the platform, and never `main` |
| SourceSets.ModDownloadsName | src/main/java/com/communi/suggestu/obumbratio/utils/SourceSetUtils.java:74-79 | the mod downloads configuration is `{lower}ModDownloads` |
| SourceSets.SourceSetLocalRuntimeName | src/main/java/com/communi/suggestu/obumbratio/utils/SourceSetUtils.java:88-94 | the Fabric source set's local runtime configuration is `{lower}LocalRuntime` |
| SourceSets.ConfigurationsFor | src/main/java/com/communi/suggestu/obumbratio/utils/SourceSetUtils.java:131-159 | `getConfigurationFor`: Fabric uses the two `mod{Cap}` remap configurations, NeoForge the source set's own `{lower}` ones; mod downloads is the same on both; the three targets differ |
| SourceSets.ConfigurationNames | src/main/java/com/communi/suggestu/obumbratio/utils/SourceSetUtils.java:131-156 | the three names spelled out per platform |
| SourceSets.ConfigurationsDisjoint | src/main/java/com/communi/suggestu/obumbratio/utils/SourceSetUtils.java:133-149 | no configuration of one implementation is a configuration of the other, on any pair of platforms |
| SourceSets.CreateCommonEffect | src/main/java/com/communi/suggestu/obumbratio/utils/SourceSetUtils.java:42-79 | first creation adds the source set with `src/shaders/{lower}/java` and `src/shaders/{lower}/resources`, the feature `{lower}`, and its configurations, and nothing else |
| SourceSets.ProvisionNames | src/main/java/com/communi/suggestu/obumbratio/utils/SourceSetUtils.java:74-126 | the configurations created are the source set's own, `{lower}ModDownloads`, and only on Fabric `{lower}LocalRuntime`, the two `mod{Cap}` remap configurations and, in the current variant, their remapped counterparts |
| SourceSets.ProvisionEffect | src/main/java/com/communi/suggestu/obumbratio/utils/SourceSetUtils.java:42-126 | first creation in full: the source set, the feature, the configurations, and on Fabric the remap targets (`api` for both in the current variant) |
| SourceSets.LegacyRemapTargets | plugin/src/main/java/com/communi/suggestu/obumbratio/utils/SourceSetUtils.java:93-111 | in the legacy variant on Fabric, `mod{Cap}CompileOnly` targets the source set's compile classpath and `mod{Cap}LocalRuntime` targets `{lower}LocalRuntime` |
| SourceSets.ProvisionedNamesDisjoint | src/main/java/com/communi/suggestu/obumbratio/utils/SourceSetUtils.java:74-126 | what one implementation creates never collides with a name the other one claims |
| SourceSets.ProvisionLeavesOther | src/main/java/com/communi/suggestu/obumbratio/utils/SourceSetUtils.java:42-126 | provisioning one implementation leaves the other one's names free |
| SourceSets.GetOrCreateFrame | src/main/java/com/communi/suggestu/obumbratio/utils/SourceSetUtils.java:31-129 | get-or-create touches no run, task or downloading list, and the source sets afterwards are the old ones plus this implementation's |
| SourceSets.GetOrCreateConsistent | src/main/java/com/communi/suggestu/obumbratio/utils/SourceSetUtils.java:31-129 | afterwards the source set and every configuration `getConfigurationFor` looks up exist, and no dependency list changed |
| SourceSets.GetOrCreateIdempotent | src/main/java/com/communi/suggestu/obumbratio/utils/SourceSetUtils.java:38-40 | a second get-or-create of the same implementation changes nothing |
| SourceSets.GetOrCreateShaderSourceSetIn | src/main/java/com/communi/suggestu/obumbratio/utils/SourceSetUtils.java:31-129 | returns the lower-case name, and the project afterwards is the get-or-create of the old one |
| SourceSets.LegacyProvision | plugin/src/main/java/com/communi/suggestu/obumbratio/utils/SourceSetUtils.java:27-116 | the legacy variant creates the same as the current one on NeoForge, and on Fabric the same configurations less the two remapped ones |
| Runs.RunNamesApart | plugin/src/main/java/com/communi/suggestu/obumbratio/utils/RunUtils.java:30 | `clientWith{Cap}Shaders` is never `client`, and differs between implementations |
| Runs.WorkDirsApart | plugin/src/main/java/com/communi/suggestu/obumbratio/utils/RunUtils.java:52-67 | `runs/client/{lower}-shader` is never `runs/client/no-shader`, and differs between implementations |
| Runs.IdeNamesApart | plugin/src/main/java/com/communi/suggestu/obumbratio/utils/RunUtils.java:61-63 | the IDE name extends the client's, and differs between implementations |
| Runs.GetOrCreateRunExisting | plugin/src/main/java/com/communi/suggestu/obumbratio/utils/RunUtils.java:28-50 | an existing run is returned and nothing changes, on either path |
| Runs.GetOrCreateRunFrame | plugin/src/main/java/com/communi/suggestu/obumbratio/utils/RunUtils.java:21-69 | only the runs change: the named run is added and no other run except `client` is altered |
| Runs.NewLoomRun | plugin/src/main/java/com/communi/suggestu/obumbratio/utils/RunUtils.java:35-42 | a new Loom run takes the client's working directory and IDE name (assuming `inherit` copies them) and the shader source set; the client run is untouched |
| Runs.NewNeoGradleRun | plugin/src/main/java/com/communi/suggestu/obumbratio/utils/RunUtils.java:52-67 | a new NeoGradle run gets its own shader working directory, the client's IDE name with ` with {Cap} shaders`, and the source set; the client run moves to `runs/client/no-shader` |
| Runs.GetOrCreateRunIdempotent | plugin/src/main/java/com/communi/suggestu/obumbratio/utils/RunUtils.java:21-69 | a second get-or-create changes nothing, whatever source set it names |
| Runs.RunsCoexist | plugin/src/main/java/com/communi/suggestu/obumbratio/utils/RunUtils.java:21-69 | creating one implementation's run leaves the other's run as it was |
| Runs.GetOrCreateLoomRunFor | plugin/src/main/java/com/communi/suggestu/obumbratio/utils/RunUtils.java:28-43 | returns the run name; the project afterwards is the Loom get-or-create of the old one |
| Runs.GetOrCreateNeoGradleRunFor | plugin/src/main/java/com/communi/suggestu/obumbratio/utils/RunUtils.java:45-69 | returns the run name; the project afterwards is the NeoGradle get-or-create of the old one |
| Runs.GetOrCreateRunFor | plugin/src/main/java/com/communi/suggestu/obumbratio/utils/RunUtils.java:21-26 | Fabric goes the Loom way, NeoForge the NeoGradle way |
| Dispatch.DependencyContents | src/main/java/com/communi/suggestu/obumbratio/ProjectPlugin.java:158-174 | an unsupported implementation adds nothing, Iris included; otherwise each bucket gets the implementation's coordinates, then Iris's |
| Dispatch.DownloadedMods | src/main/java/com/communi/suggestu/obumbratio/ProjectPlugin.java:158-174 | only Embeddium on NeoForge downloads anything: Monocle, then Iris |
| Dispatch.ConfigureDependencies | src/main/java/com/communi/suggestu/obumbratio/ProjectPlugin.java:158-174 | the project afterwards is the old one with that dependency plan applied to the implementation's configurations |
| Dispatch.RunStepEffect | src/main/java/com/communi/suggestu/obumbratio/ProjectPlugin.java:177-190 | after the source set and run get-or-create both exist, with every configuration, and no list or task changed |
| Dispatch.OnConfiguredHost | src/main/java/com/communi/suggestu/obumbratio/ProjectPlugin.java:48-52 | after the callback the implementation's source set, run and configurations exist |
| Dispatch.OnConfiguredGrows | src/main/java/com/communi/suggestu/obumbratio/ProjectPlugin.java:48-52 | the callback adds exactly this implementation's source set and run, if missing |
| Dispatch.OnConfiguredLists | src/main/java/com/communi/suggestu/obumbratio/ProjectPlugin.java:48-52 | the callback only appends, to each list, what the dependency plan routes there |
| Dispatch.RedispatchAppendsAgain | src/main/java/com/communi/suggestu/obumbratio/ProjectPlugin.java:48-52 | a second dispatch of the same implementation leaves source sets, runs and features unchanged but appends the coordinates again |
| Dispatch.GetOrCreateRunConfigurations | src/main/java/com/communi/suggestu/obumbratio/ProjectPlugin.java:177-190 | disabled: no run and no change; enabled: the one run of the implementation, after its source set and run get-or-create |
| Dispatch.OnConfiguredIn | src/main/java/com/communi/suggestu/obumbratio/ProjectPlugin.java:48-52 | the project afterwards is the callback applied to the old one |
| Selections.Dispatches | src/main/java/com/communi/suggestu/obumbratio/extensions/ShadersExtension.java:48-52 | `configure()` fires once per selected implementation when ready, none otherwise, in declaration order |
| Selections.DispatchesExactly | src/main/java/com/communi/suggestu/obumbratio/extensions/ShadersExtension.java:48-52 | a pair is fired exactly when the selection is ready with that platform and the implementation is selected |
| Selections.FreshIsIdle | src/main/java/com/communi/suggestu/obumbratio/extensions/ShadersExtension.java:19-21 | a fresh extension is not ready, and no single call on it fires anything |
| Selections.QuietCalls | src/main/java/com/communi/suggestu/obumbratio/extensions/ShadersExtension.java:39-56 | `enabled(..)` and `disable()` fire nothing and change only the flag |
| Selections.SettersOnlyAdd | src/main/java/com/communi/suggestu/obumbratio/extensions/ShadersExtension.java:62-82 | `setPlatform` overwrites only the platform; `implementation` inserts into the set, and a selected one leaves it unchanged; nothing is ever removed |
| Selections.RedispatchesAll | src/main/java/com/communi/suggestu/obumbratio/extensions/ShadersExtension.java:48-52 | a dispatching call on a ready selection fires again every implementation selected before it |
| Selections.SettersDispatchSelection | src/main/java/com/communi/suggestu/obumbratio/extensions/ShadersExtension.java:34-82 | for any sequence of calls without `enabled(true)`, every implementation of a ready end state has been dispatched at least once |
| Selections.EnabledSkipsDispatch | src/main/java/com/communi/suggestu/obumbratio/extensions/ShadersExtension.java:39-41 | `enabled(true)` as the last call reaches a ready state with no dispatch at all |
| Extension.DispatchAllProvisions | src/main/java/com/communi/suggestu/obumbratio/extensions/ShadersExtension.java:48-52 | after the callbacks every dispatched implementation has its source set and run, and nothing was removed |
| Extension.DispatchAllGrows | src/main/java/com/communi/suggestu/obumbratio/extensions/ShadersExtension.java:48-52 | each callback in the loop adds its own source set and run names |
| Extension.ShadersExtension.constructor | src/main/java/com/communi/suggestu/obumbratio/extensions/ShadersExtension.java:25-28 | disabled, no platform, no implementation |
| Extension.ShadersExtension.Configure | src/main/java/com/communi/suggestu/obumbratio/extensions/ShadersExtension.java:48-52 | the project afterwards is the callbacks for the fired pairs, in order |
| Extension.ShadersExtension.SetIsEnabled | src/main/java/com/communi/suggestu/obumbratio/extensions/ShadersExtension.java:34-37 | sets the flag, then the project takes the callbacks the new state fires |
| Extension.ShadersExtension.Enabled | src/main/java/com/communi/suggestu/obumbratio/extensions/ShadersExtension.java:39-41 | sets the flag and changes nothing else |
| Extension.ShadersExtension.Enable | src/main/java/com/communi/suggestu/obumbratio/extensions/ShadersExtension.java:43-46 | sets the flag, then the callbacks the new state fires |
| Extension.ShadersExtension.Disable | src/main/java/com/communi/suggestu/obumbratio/extensions/ShadersExtension.java:54-56 | clears the flag and changes nothing else |
| Extension.ShadersExtension.SetPlatform | src/main/java/com/communi/suggestu/obumbratio/extensions/ShadersExtension.java:62-65 | overwrites the platform, then the callbacks the new state fires |
| Extension.ShadersExtension.UsePlatform | src/main/java/com/communi/suggestu/obumbratio/extensions/ShadersExtension.java:67-69 | the same as `setPlatform` |
| Extension.ShadersExtension.NeoForge | src/main/java/com/communi/suggestu/obumbratio/extensions/ShadersExtension.java:71-73 | exactly `setPlatform(NEOFORGE)` |
| Extension.ShadersExtension.Fabric | src/main/java/com/communi/suggestu/obumbratio/extensions/ShadersExtension.java:75-77 | exactly `setPlatform(FARBIC)` |
| Extension.ShadersExtension.AddImplementation | src/main/java/com/communi/suggestu/obumbratio/extensions/ShadersExtension.java:79-82 | inserts into the set, then the callbacks for every selected implementation |
| Extension.ShadersExtension.Sodium | src/main/java/com/communi/suggestu/obumbratio/extensions/ShadersExtension.java:84-86 | exactly `implementation(SODIUM)` |
| Extension.ShadersExtension.Embeddium | src/main/java/com/communi/suggestu/obumbratio/extensions/ShadersExtension.java:88-90 | exactly `implementation(EMBEDDIUM)` |
| Finalize.IdsNamespaced | src/main/java/com/communi/suggestu/obumbratio/ProjectPlugin.java:56-125 | every problem id is under `obumbratio.shaders.` |
| Finalize.FirstMissingSpec | src/main/java/com/communi/suggestu/obumbratio/ProjectPlugin.java:192-224 | validation passes exactly when every checked slot is present; otherwise it reports the first missing slot's problem |
| Finalize.FirstMissingAppend | src/main/java/com/communi/suggestu/obumbratio/ProjectPlugin.java:192-201 | checks run one group after the other: a later group only speaks when the earlier ones pass |
| Finalize.ValidationOrder | src/main/java/com/communi/suggestu/obumbratio/ProjectPlugin.java:192-224 | Minecraft first, then the platform's Iris slots, then every selected implementation's slots in set order |
| Finalize.ValidatedSlots | src/main/java/com/communi/suggestu/obumbratio/ProjectPlugin.java:192-224 | after validation passes, Minecraft, the Iris slots and each selected implementation's slots are present |
| Finalize.ValidatedPlanResolves | src/main/java/com/communi/suggestu/obumbratio/ProjectPlugin.java:82-96 | after validation passes, every coordinate the callback registers for a supported selected implementation exists |
| Finalize.ValidationFindsVersions | src/main/java/com/communi/suggestu/obumbratio/ProjectPlugin.java:192-224 | validation only ever reports a missing version |
| Finalize.CompleteValidates | src/main/java/com/communi/suggestu/obumbratio/ProjectPlugin.java:192-224 | with every slot set, validation passes on either platform for any selection |
| Finalize.Outcome | src/main/java/com/communi/suggestu/obumbratio/ProjectPlugin.java:98-108 | `runs.missing` is never the outcome: an enabled extension always has the implementation's run |
| Finalize.GateOrder | src/main/java/com/communi/suggestu/obumbratio/ProjectPlugin.java:57-80 | disabled passes; then `platform.missing`, then `implementation.missing`, before any per-implementation check |
| Finalize.OutcomePasses | src/main/java/com/communi/suggestu/obumbratio/ProjectPlugin.java:56-124 | the build goes on exactly when disabled, or ready with every implementation supported and validation passing |
| Finalize.SlotsBeforeLaterUnsupported | src/main/java/com/communi/suggestu/obumbratio/ProjectPlugin.java:82-96 | Sodium and Embeddium on Fabric: a missing slot of either is reported before Embeddium's `implementation.unsupported` |
| Finalize.InstallTaskNamesApart | src/main/java/com/communi/suggestu/obumbratio/ProjectPlugin.java:113 | the two implementations' install tasks have different names |
| Finalize.FinalizeStepTasks | src/main/java/com/communi/suggestu/obumbratio/ProjectPlugin.java:98-122 | a task `installMods{Cap run}` targeting `{workDir}/mods` is added exactly when the pair's mod downloads are non-empty; older tasks are kept |
| Finalize.FinalizeImplementation | src/main/java/com/communi/suggestu/obumbratio/ProjectPlugin.java:82-123 | one turn of the loop: unsupported before validation; on success the project is the finalize step of the old one |
| Finalize.InstallModsTasks | src/main/java/com/communi/suggestu/obumbratio/ProjectPlugin.java:110-122 | registers the install task of the implementation's run, so the project becomes the finalize step of the old one |
| Finalize.FinalizeImplementations | src/main/java/com/communi/suggestu/obumbratio/ProjectPlugin.java:82-124 | the loop over the set stops at the first problem of the checks; on success the project is every step applied in order |
| Finalize.AfterEvaluate | src/main/java/com/communi/suggestu/obumbratio/ProjectPlugin.java:56-125 | the problem is the outcome of the selection, and a passing build gets every implementation's finalize step in order; the configurations and free task names are required only of an enabled extension, since a disabled one returns at once |
| Conventions.ParseBooleanLower | src/main/java/com/communi/suggestu/obumbratio/ProjectPlugin.java:151 | `Boolean.parseBoolean` holds exactly for text that lower-cases to `true` |
| Conventions.ParseBooleanExamples | src/main/java/com/communi/suggestu/obumbratio/ProjectPlugin.java:151 | `true` in any case is true; `yes`, `1`, padded and empty text are not |
| Conventions.ParsePropertyMeaning | src/main/java/com/communi/suggestu/obumbratio/ProjectPlugin.java:146-152 | an absent property is false; a present one is true exactly when it lower-cases to `true` |
| Conventions.ConventionsFillGaps | src/main/java/com/communi/suggestu/obumbratio/ProjectPlugin.java:128-143 | conventions only fill slots the build script left unset |
| Conventions.PropertiesValidate | src/main/java/com/communi/suggestu/obumbratio/ProjectPlugin.java:128-143 | with all ten version properties set, every slot is set and validation passes |
| Conventions.NothingSetMissesMinecraft | src/main/java/com/communi/suggestu/obumbratio/ProjectPlugin.java:128-143 | with nothing set anywhere, validation stops at the Minecraft version |
| Conventions.ConfigureConventions | src/main/java/com/communi/suggestu/obumbratio/ProjectPlugin.java:128-129 | `setIsEnabled` with the parsed property, with its callbacks |
| Conventions.ApplyPlugin | src/main/java/com/communi/suggestu/obumbratio/ProjectPlugin.java:44-54 | the new extension has the conventions' versions, the parsed flag, no platform and no implementation, and the project is unchanged |
| Legacy.Fires | plugin/src/main/java/com/communi/suggestu/obumbratio/ProjectPlugin.java:484-488 | `configure()` fires at most one pair |
| Legacy.FiresOnlyWhenReady | plugin/src/main/java/com/communi/suggestu/obumbratio/ProjectPlugin.java:464-526 | a call fires exactly when it is a dispatching one and leaves the extension enabled with a platform and an implementation; it fires that pair; `enabled(..)` and `disable()` change only the flag |
| Legacy.SettersOverwrite | plugin/src/main/java/com/communi/suggestu/obumbratio/ProjectPlugin.java:498-521 | `setPlatform` and `setImplementation` overwrite their field and nothing else |
| Legacy.SettersDispatchChoice | plugin/src/main/java/com/communi/suggestu/obumbratio/ProjectPlugin.java:464-526 | for any sequence of calls without `enabled(true)`, a ready end state's pair has been dispatched |
| Legacy.SwitchDispatchesBoth | plugin/src/main/java/com/communi/suggestu/obumbratio/ProjectPlugin.java:519-521 | switching the implementation on a ready extension dispatches the first pair, then the second |
| Legacy.SetupFor | plugin/src/main/java/com/communi/suggestu/obumbratio/ProjectPlugin.java:187-202 | each platform's pair of configurations, with the downloading configuration, are three distinct targets |
| Legacy.SwappedRouting | plugin/src/main/java/com/communi/suggestu/obumbratio/ProjectPlugin.java:189-202 | compile-only coordinates land in the runtime-named configuration and runtime-only ones in the compile-named one; downloads go to the detached configuration |
| Legacy.WithConfigurations | plugin/src/main/java/com/communi/suggestu/obumbratio/ProjectPlugin.java:191-202 | `getConfigurations` adds `localRuntime`, `modCompileOnly` and `modLocalRuntime` if missing and changes no list |
| Legacy.GetConfigurations | plugin/src/main/java/com/communi/suggestu/obumbratio/ProjectPlugin.java:191-202 | returns the swapped pairs; the project afterwards has the three configurations |
| Legacy.EmbeddiumNeoForgePlan | plugin/src/main/java/com/communi/suggestu/obumbratio/ProjectPlugin.java:690-708 | Embeddium to compile-only and runtime-only; Monocle to compile-only and to downloads |
| Legacy.PlanAgainstCurrent | plugin/src/main/java/com/communi/suggestu/obumbratio/ProjectPlugin.java:167-185 | unsupported adds nothing; every bucket matches the current plugin except Embeddium on NeoForge's compile-only, which also holds Monocle |
| Legacy.DownloadedMods | plugin/src/main/java/com/communi/suggestu/obumbratio/ProjectPlugin.java:606-708 | only Embeddium on NeoForge downloads: Monocle, then Iris |
| Legacy.Callback | plugin/src/main/java/com/communi/suggestu/obumbratio/ProjectPlugin.java:54-57 | the callback keeps the configuration names and the legacy host |
| Legacy.CallbackLists | plugin/src/main/java/com/communi/suggestu/obumbratio/ProjectPlugin.java:54-57 | the callback appends to each list what the swapped routing sends there |
| Legacy.CallbacksOnlyAppend | plugin/src/main/java/com/communi/suggestu/obumbratio/ProjectPlugin.java:54-57 | any sequence of callbacks only extends each list |
| Legacy.SodiumNeoForgeContents | plugin/src/main/java/com/communi/suggestu/obumbratio/ProjectPlugin.java:668-688 | Sodium on NeoForge: compile-only gets Sodium, the two Fabric API coordinates, then Iris; runtime-only gets Sodium then Iris |
| Legacy.SodiumNeoForgeSwapped | plugin/src/main/java/com/communi/suggestu/obumbratio/ProjectPlugin.java:189-202 | with the swap, `localRuntime` receives the compile-only coordinates and `compileOnly` the runtime-only ones |
| Legacy.RegisterEmbeddiumNeoForgeDependencies | plugin/src/main/java/com/communi/suggestu/obumbratio/ProjectPlugin.java:690-708 | the project afterwards is the old one with the legacy Embeddium plan applied |
| Legacy.RegisterNeoForgeDependencies | plugin/src/main/java/com/communi/suggestu/obumbratio/ProjectPlugin.java:649-655 | dispatch on the implementation to its legacy NeoForge plan |
| Legacy.ConfigureDependencies | plugin/src/main/java/com/communi/suggestu/obumbratio/ProjectPlugin.java:167-185 | the project afterwards is the old one with the legacy dependency plan applied |
| Legacy.OnConfigured | plugin/src/main/java/com/communi/suggestu/obumbratio/ProjectPlugin.java:54-57 | the project afterwards is the callback applied to the old one, with the platform's swapped pair |
| Legacy.ShadersExtension.constructor | plugin/src/main/java/com/communi/suggestu/obumbratio/ProjectPlugin.java:458-462 | disabled, no platform, no implementation, no run added |
| Legacy.ShadersExtension.Configure | plugin/src/main/java/com/communi/suggestu/obumbratio/ProjectPlugin.java:484-488 | the callback for the selected pair when ready, nothing otherwise |
| Legacy.ShadersExtension.SetIsEnabled | plugin/src/main/java/com/communi/suggestu/obumbratio/ProjectPlugin.java:468-473 | sets the flag, then the callback the new state fires |
| Legacy.ShadersExtension.Enabled | plugin/src/main/java/com/communi/suggestu/obumbratio/ProjectPlugin.java:475-477 | sets the flag and changes nothing else |
| Legacy.ShadersExtension.Enable | plugin/src/main/java/com/communi/suggestu/obumbratio/ProjectPlugin.java:479-482 | sets the flag, then the callback the new state fires |
| Legacy.ShadersExtension.Disable | plugin/src/main/java/com/communi/suggestu/obumbratio/ProjectPlugin.java:490-492 | clears the flag and changes nothing else |
| Legacy.ShadersExtension.SetPlatform | plugin/src/main/java/com/communi/suggestu/obumbratio/ProjectPlugin.java:498-501 | overwrites the platform, then the callback the new state fires |
| Legacy.ShadersExtension.UsePlatform | plugin/src/main/java/com/communi/suggestu/obumbratio/ProjectPlugin.java:503-513 | `platform(..)`, `neoforge()` and `fabric()` are `setPlatform(..)` |
| Legacy.ShadersExtension.SetImplementation | plugin/src/main/java/com/communi/suggestu/obumbratio/ProjectPlugin.java:519-522 | overwrites the implementation, then the callback the new state fires |
| Legacy.ShadersExtension.UseImplementation | plugin/src/main/java/com/communi/suggestu/obumbratio/ProjectPlugin.java:524-534 | `implementation(..)`, `sodium()` and `embeddium()` are `setImplementation(..)` |
| Legacy.ShadersExtension.AddRun | plugin/src/main/java/com/communi/suggestu/obumbratio/ProjectPlugin.java:546-552 | `run(..)` adds the name, and the runs are then the added names, without the convention |
| LegacyFinalize.JoinPieces | plugin/src/main/java/com/communi/suggestu/obumbratio/ProjectPlugin.java:150 | the comma-separated pieces joined with commas give back the property text |
| LegacyFinalize.SplitPieces | plugin/src/main/java/com/communi/suggestu/obumbratio/ProjectPlugin.java:150 | `split(",")` gives comma-free pieces that are the text's pieces less only empty ones at the end |
| LegacyFinalize.SplitEmpty | plugin/src/main/java/com/communi/suggestu/obumbratio/ProjectPlugin.java:150 | `split(",")` gives nothing exactly for a non-empty text of commas only; the empty text gives one empty piece |
| LegacyFinalize.SplitPair | plugin/src/main/java/com/communi/suggestu/obumbratio/ProjectPlugin.java:150 | two names around a comma split into those two names |
| LegacyFinalize.SplitEnds | plugin/src/main/java/com/communi/suggestu/obumbratio/ProjectPlugin.java:150 | a leading empty piece is kept and trailing empty pieces are dropped |
| LegacyFinalize.RunsConventionEmpty | plugin/src/main/java/com/communi/suggestu/obumbratio/ProjectPlugin.java:148-152 | without the property the runs are `client`; they are empty exactly when the property is commas only; an empty property names the empty run |
| LegacyFinalize.ValidationAsCurrent | plugin/src/main/java/com/communi/suggestu/obumbratio/ProjectPlugin.java:261-290 | the legacy validation of one implementation is the current validation of that one-element selection |
| LegacyFinalize.OutcomeAgainstCurrent | plugin/src/main/java/com/communi/suggestu/obumbratio/ProjectPlugin.java:61-107 | with nothing to download or some run, both generations stop with the same problem; `runs.missing` is raised exactly when the current one would go on but there are downloads and no run |
| LegacyFinalize.RunsMissingReachable | plugin/src/main/java/com/communi/suggestu/obumbratio/ProjectPlugin.java:98-107 | Embeddium on NeoForge, all versions set and the runs property `,` stops with `runs.missing` |
| LegacyFinalize.RegisterInstallTasks | plugin/src/main/java/com/communi/suggestu/obumbratio/ProjectPlugin.java:111-121 | one task per run, `installMods{Cap run}`, targeting `{workDir}/mods`, added to the existing tasks, whatever order the set is visited in |
| LegacyFinalize.GetRunConfigurations | plugin/src/main/java/com/communi/suggestu/obumbratio/ProjectPlugin.java:221-259 | disabled: no run; otherwise every named run with its working directory |
| LegacyFinalize.FinalizedEffect | plugin/src/main/java/com/communi/suggestu/obumbratio/ProjectPlugin.java:109-127 | a run gets its task exactly when something is downloaded; no list or run changes; `main` gains `src/shaders/java` and `src/shaders/resources` |
| LegacyFinalize.ValidatedOutcome | plugin/src/main/java/com/communi/suggestu/obumbratio/ProjectPlugin.java:61-98 | the runs are looked up exactly when the extension is enabled and the outcome is a pass or `runs.missing` |
| LegacyFinalize.AfterEvaluate | plugin/src/main/java/com/communi/suggestu/obumbratio/ProjectPlugin.java:61-128 | the problem is the legacy outcome; a problem or a disabled extension changes nothing; otherwise the project is finalized. The runs must exist only once validation passed, and the main source set only on a passing build, where the lookups happen |
| LegacyFinalize.ConfigureConventions | plugin/src/main/java/com/communi/suggestu/obumbratio/ProjectPlugin.java:131-132 | `setIsEnabled` with the parsed property, with its callback |
| LegacyFinalize.ApplyPlugin | plugin/src/main/java/com/communi/suggestu/obumbratio/ProjectPlugin.java:51-59 | the configuration pairs and the detached configuration are made; the extension has the conventions' versions and runs, the parsed flag, and no platform or implementation |

The table lists the members whose contracts state something. The definitions
those contracts are about have no contract of their own. Each is stated by the
lemmas named beside it:

- `Finalize.ValidateRequiredVersions` (src/main/java/com/communi/suggestu/obumbratio/ProjectPlugin.java:192-224): `Finalize.ValidationOrder`, `Finalize.FirstMissingSpec`, `Finalize.ValidatedSlots`, `Finalize.ValidationFindsVersions`, `Finalize.CompleteValidates`.
- `LegacyFinalize.ValidateRequiredVersions` (plugin/src/main/java/com/communi/suggestu/obumbratio/ProjectPlugin.java:261-290): `LegacyFinalize.ValidationAsCurrent`.
- `LegacyFinalize.Split` (plugin/src/main/java/com/communi/suggestu/obumbratio/ProjectPlugin.java:150): `LegacyFinalize.SplitPieces`, `LegacyFinalize.JoinPieces`, `LegacyFinalize.SplitEmpty`, `LegacyFinalize.SplitPair`, `LegacyFinalize.SplitEnds`.
- `LegacyFinalize.Outcome` (plugin/src/main/java/com/communi/suggestu/obumbratio/ProjectPlugin.java:61-107): `LegacyFinalize.OutcomeAgainstCurrent`, `LegacyFinalize.ValidatedOutcome`, `LegacyFinalize.RunsMissingReachable`, `LegacyFinalize.AfterEvaluate`.
- `Conventions.ParseProperty` (src/main/java/com/communi/suggestu/obumbratio/ProjectPlugin.java:146-152): `Conventions.ParsePropertyMeaning`.
- `Dispatch.OnConfigured` (src/main/java/com/communi/suggestu/obumbratio/ProjectPlugin.java:48-52): `Dispatch.OnConfiguredHost`, `Dispatch.OnConfiguredGrows`, `Dispatch.OnConfiguredLists`, `Dispatch.RedispatchAppendsAgain`, `Dispatch.OnConfiguredIn`.
- `SourceSets.GetOrCreate` (src/main/java/com/communi/suggestu/obumbratio/utils/SourceSetUtils.java:31-129): `SourceSets.GetOrCreateFrame`, `SourceSets.GetOrCreateConsistent`, `SourceSets.GetOrCreateIdempotent`, `SourceSets.GetOrCreateShaderSourceSetIn`.
- `Runs.LoomRunFor` (plugin/src/main/java/com/communi/suggestu/obumbratio/utils/RunUtils.java:28-43) and `Runs.NeoGradleRunFor` (plugin/src/main/java/com/communi/suggestu/obumbratio/utils/RunUtils.java:45-69): `Runs.GetOrCreateRunExisting`, `Runs.GetOrCreateRunFrame`, `Runs.NewLoomRun`, `Runs.NewNeoGradleRun`, `Runs.GetOrCreateRunIdempotent`, `Runs.RunsCoexist`.

## Left out

- Repository setup (`RepositoryUtils`, the legacy repository block): network configuration with no logic.
- `InstallMods` (both generations): file copying. Only the task's name and target directory are modelled.
- Source-set classpaths, jar wiring, sources and javadoc jars, `extendsFrom` links, `IdeaRunExtension`, and the `processResources` dependency on install tasks: host details. Only the names created, the directories and remap targets are recorded.
- Runs.LoomRunFor, Runs.NewLoomRun: assume that Loom's `run.inherit(client)` copies the client run's working directory and IDE name. Loom's source is not part of this model. The copied working directory becomes the install task's `mods` directory (`Finalize.ModsDir`). Nothing else `inherit` or `configure` may set on a run is modelled.
- Provider laziness, `convention` and `afterEvaluate` timing: version slots are taken at their final values. An `addLater` of an absent coordinate adds nothing, and the legacy downloading configuration counts as empty when it holds no present coordinate.
- The Problems reporter and exception types: only the problem id is modelled. The project's state after a thrown problem is not.
- `getByName` failing on an absent name is a precondition, not behaviour (`Finalize.SetupsExist`, the runs of `LegacyFinalize.GetRunConfigurations`). Registering a task name twice is excluded the same way (`Finalize.TasksFree`, `LegacyFinalize.TaskNamesApart`).
- The project's toolchain (Loom or NeoGradle) is fixed. Choosing the other platform in the current plugin makes `getByType` fail, so it is a precondition of `Extension.ShadersExtension.SetPlatform`.
- Locale: names are ASCII, so `Locale.ROOT` and the default locale agree.
- `gradleProperty` and `hasProperty`/`property` read one map of project properties.
- Loom's remapped configuration name is assumed to be `{name}Mapped` (`Gradle.RemappedOf`).
- NeoGradle is assumed to give every source set a `{name}LocalRuntime` and a `{name}CompileOnly` configuration, which `getConfigurationFor` looks up on NeoForge.
- The current `ConfigurationSetup` record is not part of this model. Its component order is taken as (local runtime, local compile, mod downloads), as the calls to its constructor pass them.
- `ShadersExtension.Versions` and `getImplementations()`: plain getters and property holders, modelled by the `Versions` datatype and the `implementations` field.
- `run(Named)` of the legacy extension is `run(named.getName())`, so `Legacy.ShadersExtension.AddRun` covers it.
- Legacy `getRunConfigurations` on a platform that is neither loader returns no run; with two platforms that branch is dead and not modelled.
- Finalize.AfterEvaluate: an enabled extension must have the configurations of every selected implementation and free task names for all of them. Java looks them up one implementation at a time and stops at the first problem, so an implementation after a failing one is never looked up. With both implementations selected and dispatched the configurations exist, so this matters only for a project the plugin did not set up.
- LegacyFinalize.FinalizedEffect: states the effect for one run at a time rather than the whole task map; `LegacyFinalize.RegisterInstallTasks` states the map.
- Finalize.Outcome: its own contract only excludes `runs.missing`. The full decision is stated by `Finalize.GateOrder`, `Finalize.OutcomePasses` and `Finalize.SlotsBeforeLaterUnsupported`.
- Each dispatching setter of the current extension dispatches every selected implementation again, and each dispatch appends its coordinates again. The model follows the code here (`Selections.RedispatchesAll`, `Dispatch.RedispatchAppendsAgain`).
- The legacy compile/runtime swap in `getConfigurations` is reproduced as written (`Legacy.SwappedRouting`), not corrected.
