/** The current plugin's last word on the build (`ProjectPlugin.apply`'s
    `afterEvaluate` block and the `validate*` chain it calls): a fail-fast
    sequence of checks that ends in one problem id, and, when every check
    passes, a run per implementation and an install task wherever the
    implementation downloads mods. Also the property conventions read when the
    plugin is applied. */
module Finalize {
  import opened Common
  import opened Gradle
  import opened Model
  import opened Registration
  import opened SourceSets
  import opened Runs
  import opened Dispatch
  import opened Extension
  import Sel = Selections

  /** What the problems reporter is told before the build fails. */
  datatype Problem =
    | PlatformMissing
    | ImplementationMissing
    | ImplementationUnsupported
    | MinecraftVersionMissing
    | IrisVersionMissing
    | Antlr4RuntimeMissing
    | GlslTransformerMissing
    | JCppMissing
    | SodiumVersionMissing
    | SodiumFabricApiMissing
    | SodiumFabricRendererMissing
    | EmbeddiumVersionMissing
    | MonocleVersionMissing
    | RunsMissing

  /** The problem id registered for each problem. The Iris helper libraries'
      ids sit under `sodium`, as the plugin spells them. */
  function Id(pr: Problem): string
  {
    match pr
    case PlatformMissing => "obumbratio.shaders.platform.missing"
    case ImplementationMissing => "obumbratio.shaders.implementation.missing"
    case ImplementationUnsupported => "obumbratio.shaders.implementation.unsupported"
    case MinecraftVersionMissing => "obumbratio.shaders.versions.minecraft.version.missing"
    case IrisVersionMissing => "obumbratio.shaders.versions.iris.version.missing"
    case Antlr4RuntimeMissing => "obumbratio.shaders.versions.sodium.antlr4Runtime.missing"
    case GlslTransformerMissing => "obumbratio.shaders.versions.sodium.glslTransformer.missing"
    case JCppMissing => "obumbratio.shaders.versions.sodium.jCpp.missing"
    case SodiumVersionMissing => "obumbratio.shaders.versions.sodium.version.missing"
    case SodiumFabricApiMissing => "obumbratio.shaders.versions.sodium.fabricApi.missing"
    case SodiumFabricRendererMissing => "obumbratio.shaders.versions.sodium.fabricRenderer.missing"
    case EmbeddiumVersionMissing => "obumbratio.shaders.versions.embeddium.version.missing"
    case MonocleVersionMissing => "obumbratio.shaders.versions.monocle.version.missing"
    case RunsMissing => "obumbratio.shaders.runs.missing"
  }

  /** Every id lives under the plugin's `obumbratio.shaders.` namespace. */
  lemma IdsNamespaced(pr: Problem)
    ensures |Id(pr)| > 19 && Id(pr)[..19] == "obumbratio.shaders."
  {
  }

  /** A version slot together with the problem raised when it has no value. */
  datatype Slot = Slot(value: Option<string>, problem: Problem)

  /** The first slot without a value raises its problem, and no later slot is
      looked at. */
  function FirstMissing(slots: seq<Slot>): Option<Problem>
  {
    if slots == [] then None
    else if slots[0].value.None? then Some(slots[0].problem)
    else FirstMissing(slots[1..])
  }

  /** `FirstMissing` passes exactly when every slot has a value, and otherwise
      names the problem of the earliest empty slot. */
  lemma {:induction false} FirstMissingSpec(slots: seq<Slot>)
    ensures FirstMissing(slots) == None <==> forall k :: 0 <= k < |slots| ==> slots[k].value.Some?
    ensures FirstMissing(slots).Some? ==>
              exists k :: 0 <= k < |slots| && slots[k].value.None? && slots[k].problem == FirstMissing(slots).value
                          && forall j :: 0 <= j < k ==> slots[j].value.Some?
    decreases |slots|
  {
    if slots != [] && slots[0].value.Some? {
      FirstMissingSpec(slots[1..]);
      assert forall k :: 0 < k < |slots| ==> slots[k] == slots[1..][k - 1];
      if FirstMissing(slots).Some? {
        var k :| 0 <= k < |slots[1..]| && slots[1..][k].value.None? && slots[1..][k].problem == FirstMissing(slots).value
                 && forall j :: 0 <= j < k ==> slots[1..][j].value.Some?;
        assert slots[k + 1] == slots[1..][k];
        assert forall j :: 0 < j < k + 1 ==> slots[j] == slots[1..][j - 1];
      }
    }
  }

  /** Checks run one group after another: a later group is only looked at when
      every slot of the earlier one has a value. */
  lemma {:induction false} FirstMissingAppend(a: seq<Slot>, b: seq<Slot>)
    ensures FirstMissing(a + b) == if FirstMissing(a).Some? then FirstMissing(a) else FirstMissing(b)
    decreases |a|
  {
    if a != [] {
      assert (a + b)[0] == a[0];
      assert (a + b)[1..] == a[1..] + b;
      FirstMissingAppend(a[1..], b);
    } else {
      assert a + b == b;
    }
  }

  /** `validateMinecraftVersion`. */
  function MinecraftSlots(v: Versions): seq<Slot>
  {
    [Slot(v.minecraft, MinecraftVersionMissing)]
  }

  /** `validateRequiredIrisNeoForgeVersions`. */
  function IrisNeoForgeSlots(v: Versions): seq<Slot>
  {
    [Slot(v.iris.version, IrisVersionMissing)]
  }

  /** `validateRequiredIrisFabricVersions`. */
  function IrisFabricSlots(v: Versions): seq<Slot>
  {
    [Slot(v.iris.version, IrisVersionMissing), Slot(v.iris.antlr4Runtime, Antlr4RuntimeMissing),
     Slot(v.iris.glslTransformer, GlslTransformerMissing), Slot(v.iris.jCpp, JCppMissing)]
  }

  /** `validateRequiredSodiumNeoForgeVersions`: the Forgified Fabric API
      versions are demanded on NeoForge. */
  function SodiumNeoForgeSlots(v: Versions): seq<Slot>
  {
    [Slot(v.sodium.version, SodiumVersionMissing), Slot(v.sodium.fabricApi, SodiumFabricApiMissing),
     Slot(v.sodium.fabricRenderer, SodiumFabricRendererMissing)]
  }

  /** `validateRequiredEmbeddiumNeoForgeVersions`. */
  function EmbeddiumNeoForgeSlots(v: Versions): seq<Slot>
  {
    [Slot(v.embeddium, EmbeddiumVersionMissing), Slot(v.monocle, MonocleVersionMissing)]
  }

  /** `validateRequiredSodiumFabricVersions`. */
  function SodiumFabricSlots(v: Versions): seq<Slot>
  {
    [Slot(v.sodium.version, SodiumVersionMissing)]
  }

  /** The platform's Iris slots. */
  function IrisSlots(p: Platform, v: Versions): seq<Slot>
  {
    if IsNeoForge(p) then IrisNeoForgeSlots(v) else IrisFabricSlots(v)
  }

  /** One implementation's slots on the platform; Embeddium on Fabric has none. */
  function ImplementationSlots(p: Platform, i: Implementation, v: Versions): seq<Slot>
  {
    if IsNeoForge(p) then (if i == SODIUM then SodiumNeoForgeSlots(v) else EmbeddiumNeoForgeSlots(v))
    else (if i == SODIUM then SodiumFabricSlots(v) else [])
  }

  /** The implementations' slots, in the order the set is visited. */
  function ImplementationsSlots(p: Platform, order: seq<Implementation>, v: Versions): seq<Slot>
  {
    if order == [] then [] else ImplementationSlots(p, order[0], v) + ImplementationsSlots(p, order[1..], v)
  }

  /** `validateRequiredVersions`: Minecraft, then the platform's Iris slots,
      then the slots of every selected implementation. */
  function ValidateRequiredVersions(p: Platform, impls: set<Implementation>, v: Versions): Option<Problem>
  {
    FirstMissing(MinecraftSlots(v) + IrisSlots(p, v) + ImplementationsSlots(p, Ordered(impls), v))
  }

  /** The order of the version checks: Minecraft first, then the platform's
      Iris slots, then the implementations' slots. */
  lemma ValidationOrder(p: Platform, impls: set<Implementation>, v: Versions)
    ensures ValidateRequiredVersions(p, impls, v)
         == if v.minecraft.None? then Some(MinecraftVersionMissing)
            else if FirstMissing(IrisSlots(p, v)).Some? then FirstMissing(IrisSlots(p, v))
            else FirstMissing(ImplementationsSlots(p, Ordered(impls), v))
  {
    var m := MinecraftSlots(v);
    var iris := IrisSlots(p, v);
    var rest := ImplementationsSlots(p, Ordered(impls), v);
    FirstMissingAppend(m + iris, rest);
    FirstMissingAppend(m, iris);
  }

  /** Every coordinate of the plan has a value. */
  predicate Resolved(plan: seq<Addition>)
  {
    forall a :: a in plan ==> a.dependency.Some?
  }

  lemma AddAllResolved(b: Bucket, ds: seq<Option<string>>)
    requires forall k :: 0 <= k < |ds| ==> ds[k].Some?
    ensures Resolved(AddAll(b, ds))
  {
  }

  /** Passing validation means Minecraft, the platform's Iris slots and the
      slots of each selected implementation all have values. */
  lemma ValidatedSlots(p: Platform, impls: set<Implementation>, v: Versions, i: Implementation)
    requires i in impls && ValidateRequiredVersions(p, impls, v) == None
    ensures v.minecraft.Some?
    ensures forall s :: s in IrisSlots(p, v) ==> s.value.Some?
    ensures forall s :: s in ImplementationSlots(p, i, v) ==> s.value.Some?
  {
    var all := MinecraftSlots(v) + IrisSlots(p, v) + ImplementationsSlots(p, Ordered(impls), v);
    FirstMissingSpec(all);
    ImplementationsSlotsHave(p, Ordered(impls), v, i);
    assert all[0] == MinecraftSlots(v)[0];
    forall s | s in IrisSlots(p, v) + ImplementationSlots(p, i, v) ensures s.value.Some? {
      assert s in all;
    }
  }

  /** Two groups of additions whose coordinates all have values. */
  lemma ChunksResolved(b1: Bucket, ds1: seq<Option<string>>, b2: Bucket, ds2: seq<Option<string>>)
    requires forall k :: 0 <= k < |ds1| ==> ds1[k].Some?
    requires forall k :: 0 <= k < |ds2| ==> ds2[k].Some?
    ensures Resolved(AddAll(b1, ds1) + AddAll(b2, ds2))
  {
    AddAllResolved(b1, ds1);
    AddAllResolved(b2, ds2);
  }

  lemma SodiumFabricResolved(v: Versions)
    requires v.minecraft.Some? && v.sodium.version.Some?
    ensures Resolved(SodiumFabricPlan(v))
  {
    ChunksResolved(LocalCompileOnly, [SodiumCoordinate(FARBIC, v)], LocalRuntimeOnly, [SodiumCoordinate(FARBIC, v)]);
  }

  /** The shape of the NeoForge Sodium plan, with every coordinate present. */
  lemma ThreeChunksResolved(sodium: Option<string>, api: Option<string>, renderer: Option<string>)
    requires sodium.Some? && api.Some? && renderer.Some?
    ensures Resolved(AddAll(LocalCompileOnly, [sodium]) + AddAll(LocalRuntimeOnly, [sodium])
                     + AddAll(LocalCompileOnly, [api, renderer]))
  {
    ChunksResolved(LocalCompileOnly, [sodium], LocalRuntimeOnly, [sodium]);
    AddAllResolved(LocalCompileOnly, [api, renderer]);
  }

  lemma SodiumNeoForgeResolved(v: Versions)
    requires v.minecraft.Some? && v.sodium.version.Some? && v.sodium.fabricApi.Some? && v.sodium.fabricRenderer.Some?
    ensures Resolved(SodiumNeoForgePlan(v))
  {
    ThreeChunksResolved(SodiumCoordinate(NEOFORGE, v), FabricApiCoordinate(v), FabricRendererCoordinate(v));
  }

  lemma EmbeddiumNeoForgeResolved(v: Versions)
    requires v.minecraft.Some? && v.embeddium.Some? && v.monocle.Some?
    ensures Resolved(EmbeddiumNeoForgePlan(v))
  {
    ChunksResolved(LocalCompileOnly, [EmbeddiumCoordinate(v)], LocalRuntimeOnly, [EmbeddiumCoordinate(v)]);
    AddAllResolved(ModDownloads, [MonocleCoordinate(v)]);
  }

  /** Four values, all present. */
  lemma FourPresent(a: Option<string>, b: Option<string>, c: Option<string>, d: Option<string>)
    requires a.Some? && b.Some? && c.Some? && d.Some?
    ensures forall k :: 0 <= k < |[a, b, c, d]| ==> [a, b, c, d][k].Some?
  {
  }

  /** With every Iris slot filled, each of the four Fabric Iris coordinates has a value. */
  lemma IrisFabricPresent(v: Versions)
    requires v.minecraft.Some? && v.iris.version.Some? && v.iris.antlr4Runtime.Some?
    requires v.iris.glslTransformer.Some? && v.iris.jCpp.Some?
    ensures forall k :: 0 <= k < |IrisFabricDependencies(v)| ==> IrisFabricDependencies(v)[k].Some?
  {
    FourPresent(IrisCoordinate(FARBIC, v), Antlr4RuntimeCoordinate(v), GlslTransformerCoordinate(v), JCppCoordinate(v));
  }

  lemma IrisFabricResolved(v: Versions)
    requires v.minecraft.Some? && v.iris.version.Some? && v.iris.antlr4Runtime.Some?
    requires v.iris.glslTransformer.Some? && v.iris.jCpp.Some?
    ensures Resolved(IrisFabricPlan(v))
  {
    IrisFabricPresent(v);
    ChunksResolved(LocalCompileOnly, IrisFabricDependencies(v), LocalRuntimeOnly, IrisFabricDependencies(v));
  }

  lemma IrisNeoForgeResolved(i: Implementation, v: Versions)
    requires v.minecraft.Some? && v.iris.version.Some?
    ensures Resolved(IrisNeoForgePlan(i, v))
  {
    ChunksResolved(LocalCompileOnly, [IrisCoordinate(NEOFORGE, v)],
                   if RequiresDownloadedIris(i) then ModDownloads else LocalRuntimeOnly, [IrisCoordinate(NEOFORGE, v)]);
  }

  /** Validation guards dependency registration: once the version checks pass,
      every coordinate a supported selected implementation registers has a
      value, so no `addLater` is silently dropped. */
  lemma ValidatedPlanResolves(p: Platform, impls: set<Implementation>, v: Versions, i: Implementation)
    requires i in impls && IsSupported(i, p) && ValidateRequiredVersions(p, impls, v) == None
    ensures Resolved(DependencyPlan(p, i, v))
  {
    ValidatedSlots(p, impls, v, i);
    var slots := ImplementationSlots(p, i, v);
    if IsNeoForge(p) {
      assert IrisNeoForgeSlots(v)[0] in IrisSlots(p, v);
      IrisNeoForgeResolved(i, v);
      if i == SODIUM {
        assert slots[0] in slots && slots[1] in slots && slots[2] in slots;
        SodiumNeoForgeResolved(v);
      } else {
        assert slots[0] in slots && slots[1] in slots;
        EmbeddiumNeoForgeResolved(v);
      }
    } else {
      var iris := IrisSlots(p, v);
      assert iris[0] in iris && iris[1] in iris && iris[2] in iris && iris[3] in iris;
      IrisFabricResolved(v);
      assert slots[0] in slots;
      SodiumFabricResolved(v);
    }
  }

  /** The slots of every implementation in the order are among the combined slots. */
  lemma {:induction false} ImplementationsSlotsHave(p: Platform, order: seq<Implementation>, v: Versions, i: Implementation)
    requires i in order
    ensures forall s :: s in ImplementationSlots(p, i, v) ==> s in ImplementationsSlots(p, order, v)
    decreases |order|
  {
    if order[0] != i {
      ImplementationsSlotsHave(p, order[1..], v, i);
    }
  }

  /** The per-implementation part of `afterEvaluate`, from one implementation
      on: each is first checked for support on the platform, then the versions
      of the whole selection are validated again, which gives `missing` each
      time. */
  function Checks(p: Platform, order: seq<Implementation>, missing: Option<Problem>): Option<Problem>
  {
    if order == [] then None
    else if !IsSupported(order[0], p) then Some(ImplementationUnsupported)
    else if missing.Some? then missing
    else Checks(p, order[1..], missing)
  }

  /** The problem `afterEvaluate` stops the build with, if any. The runs of an
      enabled extension are never empty, so `runs.missing` is never the
      answer. */
  function Outcome(s: Sel.Selection, v: Versions): (r: Option<Problem>)
    ensures r != Some(RunsMissing)
  {
    if !s.isEnabled then None
    else if s.platform.None? then Some(PlatformMissing)
    else if s.implementations == {} then Some(ImplementationMissing)
    else
      var missing := ValidateRequiredVersions(s.platform.value, s.implementations, v);
      ValidationFindsVersions(s.platform.value, s.implementations, v);
      ChecksNeverRuns(s.platform.value, Ordered(s.implementations), missing);
      Checks(s.platform.value, Ordered(s.implementations), missing)
  }

  lemma {:induction false} ChecksNeverRuns(p: Platform, order: seq<Implementation>, missing: Option<Problem>)
    requires missing != Some(RunsMissing)
    ensures Checks(p, order, missing) != Some(RunsMissing)
    decreases |order|
  {
    if order != [] {
      ChecksNeverRuns(p, order[1..], missing);
    }
  }

  /** The version check only ever reports a missing version. */
  lemma ValidationFindsVersions(p: Platform, impls: set<Implementation>, v: Versions)
    ensures ValidateRequiredVersions(p, impls, v) != Some(RunsMissing)
    ensures ValidateRequiredVersions(p, impls, v) != Some(ImplementationUnsupported)
  {
    var all := MinecraftSlots(v) + IrisSlots(p, v) + ImplementationsSlots(p, Ordered(impls), v);
    FirstMissingSpec(all);
    if ValidateRequiredVersions(p, impls, v).Some? {
      var k :| 0 <= k < |all| && all[k].value.None? && all[k].problem == ValidateRequiredVersions(p, impls, v).value
               && forall j :: 0 <= j < k ==> all[j].value.Some?;
      SlotProblemsAreVersions(p, impls, v, all[k]);
    }
  }

  /** A version slot only ever raises a version problem. */
  lemma SlotProblemsAreVersions(p: Platform, impls: set<Implementation>, v: Versions, s: Slot)
    requires s in MinecraftSlots(v) + IrisSlots(p, v) + ImplementationsSlots(p, Ordered(impls), v)
    ensures s.problem != RunsMissing && s.problem != ImplementationUnsupported
  {
    if s !in MinecraftSlots(v) + IrisSlots(p, v) {
      ImplementationsSlotsProblems(p, Ordered(impls), v, s);
    }
  }

  lemma {:induction false} ImplementationsSlotsProblems(p: Platform, order: seq<Implementation>, v: Versions, s: Slot)
    requires s in ImplementationsSlots(p, order, v)
    ensures s.problem != RunsMissing && s.problem != ImplementationUnsupported
    decreases |order|
  {
    if s !in ImplementationSlots(p, order[0], v) {
      ImplementationsSlotsProblems(p, order[1..], v, s);
    }
  }

  /** Every version slot has a value. */
  predicate Complete(v: Versions)
  {
    && v.minecraft.Some? && v.embeddium.Some? && v.monocle.Some?
    && v.sodium.version.Some? && v.sodium.fabricApi.Some? && v.sodium.fabricRenderer.Some?
    && v.iris.version.Some? && v.iris.antlr4Runtime.Some? && v.iris.glslTransformer.Some? && v.iris.jCpp.Some?
  }

  /** With every slot filled, validation passes whatever the platform and the
      selection. */
  lemma CompleteValidates(p: Platform, impls: set<Implementation>, v: Versions)
    requires Complete(v)
    ensures ValidateRequiredVersions(p, impls, v) == None
  {
    var all := MinecraftSlots(v) + IrisSlots(p, v) + ImplementationsSlots(p, Ordered(impls), v);
    ImplementationsSlotsComplete(p, Ordered(impls), v);
    forall k | 0 <= k < |all| ensures all[k].value.Some? {
      assert all[k] in all;
    }
    FirstMissingSpec(all);
  }

  lemma {:induction false} ImplementationsSlotsComplete(p: Platform, order: seq<Implementation>, v: Versions)
    requires Complete(v)
    ensures forall s :: s in ImplementationsSlots(p, order, v) ==> s.value.Some?
    decreases |order|
  {
    if order != [] {
      ImplementationsSlotsComplete(p, order[1..], v);
    }
  }

  /** The gate of `afterEvaluate`: nothing when disabled; a missing platform
      is reported before a missing implementation, and both before any check
      of an implementation. */
  lemma GateOrder(s: Sel.Selection, v: Versions)
    ensures !s.isEnabled ==> Outcome(s, v) == None
    ensures s.isEnabled && s.platform.None? ==> Outcome(s, v) == Some(PlatformMissing)
    ensures s.isEnabled && s.platform.Some? && s.implementations == {} ==> Outcome(s, v) == Some(ImplementationMissing)
  {
  }

  /** `afterEvaluate` lets the build go on exactly when the extension is
      disabled, or ready with every selected implementation supported on the
      platform and every required version present. */
  lemma OutcomePasses(s: Sel.Selection, v: Versions)
    ensures Outcome(s, v) == None <==>
              !s.isEnabled
              || (Sel.Ready(s) && (forall i :: i in s.implementations ==> IsSupported(i, s.platform.value))
                  && ValidateRequiredVersions(s.platform.value, s.implementations, v) == None)
  {
    if Sel.Ready(s) {
      var order := Ordered(s.implementations);
      ChecksPass(s.platform.value, order, ValidateRequiredVersions(s.platform.value, s.implementations, v));
      if forall k :: 0 <= k < |order| ==> IsSupported(order[k], s.platform.value) {
        forall i | i in s.implementations ensures IsSupported(i, s.platform.value) {
          var k :| 0 <= k < |order| && order[k] == i;
        }
      }
    }
  }

  lemma {:induction false} ChecksPass(p: Platform, order: seq<Implementation>, missing: Option<Problem>)
    requires order != []
    ensures Checks(p, order, missing) == None <==>
              (forall k :: 0 <= k < |order| ==> IsSupported(order[k], p)) && missing == None
    decreases |order|
  {
    if |order| > 1 && IsSupported(order[0], p) && missing == None {
      ChecksPass(p, order[1..], missing);
      assert forall k :: 0 < k < |order| ==> order[k] == order[1..][k - 1];
    }
  }

  /** The selection's version slots are checked while the first
      implementation is processed, so a missing slot is reported before a
      later implementation is found unsupported; the unsupported
      implementation is only reported once every slot has a value. */
  lemma SlotsBeforeLaterUnsupported(v: Versions)
    ensures var s := Sel.Selection(true, Some(FARBIC), {SODIUM, EMBEDDIUM});
            Outcome(s, v) == if ValidateRequiredVersions(FARBIC, {SODIUM, EMBEDDIUM}, v).Some?
                             then ValidateRequiredVersions(FARBIC, {SODIUM, EMBEDDIUM}, v)
                             else Some(ImplementationUnsupported)
  {
    var missing := ValidateRequiredVersions(FARBIC, {SODIUM, EMBEDDIUM}, v);
    assert Ordered({SODIUM, EMBEDDIUM}) == [SODIUM, EMBEDDIUM];
    assert IsSupported(SODIUM, FARBIC) && !IsSupported(EMBEDDIUM, FARBIC);
    assert [SODIUM, EMBEDDIUM][1..] == [EMBEDDIUM];
    assert Checks(FARBIC, [EMBEDDIUM], missing) == Some(ImplementationUnsupported);
  }

  /** `installMods{Run}`: the install task of a run. */
  function InstallTaskName(runName: string): string
  {
    "installMods" + Capitalize(runName)
  }

  /** The `mods` directory inside a run's working directory. */
  function ModsDir(workDir: string): string
  {
    workDir + "/mods"
  }

  /** The two implementations' runs never share an install task. */
  lemma InstallTaskNamesApart(i: Implementation, j: Implementation)
    requires i != j
    ensures InstallTaskName(RunName(i)) != InstallTaskName(RunName(j))
  {
    InitialsOf(i);
    InitialsOf(j);
    assert RunName(i)[10] == CapitalInitial(i) && RunName(j)[10] == CapitalInitial(j);
    assert Capitalize(RunName(i))[10] == RunName(i)[10];
    assert Capitalize(RunName(j))[10] == RunName(j)[10];
    assert InstallTaskName(RunName(i))[21] == Capitalize(RunName(i))[10];
    assert InstallTaskName(RunName(j))[21] == Capitalize(RunName(j))[10];
    DifferAt(InstallTaskName(RunName(i)), InstallTaskName(RunName(j)), 21);
  }

  /** None of the implementations in `pending` has its install task yet. */
  predicate TasksFree(h: HostState, pending: seq<Implementation>)
  {
    forall i :: i in pending ==> InstallTaskName(RunName(i)) !in h.installTasks
  }

  /** What the run step leaves in the implementation's downloaded-mods
      configuration. */
  function Downloads(h: HostState, p: Platform, i: Implementation): seq<string>
    requires Host(h, p)
  {
    RunStepEffect(h, p, i);
    Dependencies(RunStep(h, p, i), ConfigurationsFor(p, i).modDownloads)
  }

  /** The run step makes the implementation's run and registers no task. */
  lemma RunStepTasks(h: HostState, p: Platform, i: Implementation)
    requires Host(h, p)
    ensures RunName(i) in RunStep(h, p, i).runs && RunStep(h, p, i).installTasks == h.installTasks
  {
    RunStepEffect(h, p, i);
  }

  /** One pass of the loop for a supported implementation once validation
      passed: the run is looked up or created, and when the implementation
      downloads mods an install task targeting the run's `mods` directory is
      registered. */
  function FinalizeStep(h: HostState, p: Platform, i: Implementation): HostState
    requires Host(h, p)
  {
    RunStepTasks(h, p, i);
    var r := RunStep(h, p, i);
    if Downloads(h, p, i) == [] then r
    else WithInstallTask(r, InstallTaskName(RunName(i)), ModsDir(r.runs[RunName(i)].workDir))
  }

  /** The step keeps the project a host, with the implementation's run, and
      changes nothing but the install tasks after the run step. */
  lemma FinalizeStepHost(h: HostState, p: Platform, i: Implementation)
    requires Host(h, p)
    ensures var r := FinalizeStep(h, p, i);
            Host(r, p) && RunName(i) in r.runs && r == RunStep(h, p, i).(installTasks := r.installTasks)
  {
    RunStepEffect(h, p, i);
    HostTasksKept(RunStep(h, p, i), FinalizeStep(h, p, i), p);
  }

  /** Registering a task or not: the keys grow by the name exactly when
      registered, and the existing tasks keep their directories. */
  lemma TaskRegistered(h: HostState, r: HostState, name: string, modsDir: string, register: bool)
    requires name !in h.installTasks
    requires r == if register then WithInstallTask(h, name, modsDir) else h
    ensures r.installTasks.Keys == h.installTasks.Keys + (if register then {name} else {})
    ensures forall n :: n in h.installTasks ==> r.installTasks[n] == h.installTasks[n]
    ensures register ==> r.installTasks[name] == modsDir
  {
  }

  /** The step registers the implementation's install task, aimed at the
      `mods` directory of its run, exactly when its downloaded-mods
      configuration is non-empty, and keeps every other task. */
  lemma FinalizeStepTasks(h: HostState, p: Platform, i: Implementation)
    requires Host(h, p) && InstallTaskName(RunName(i)) !in h.installTasks
    ensures var r := FinalizeStep(h, p, i);
            RunName(i) in r.runs
            && r.installTasks.Keys == h.installTasks.Keys + (if Downloads(h, p, i) == [] then {} else {InstallTaskName(RunName(i))})
            && (forall n :: n in h.installTasks ==> r.installTasks[n] == h.installTasks[n])
            && (Downloads(h, p, i) != [] ==> r.installTasks[InstallTaskName(RunName(i))] == ModsDir(r.runs[RunName(i)].workDir))
  {
    RunStepTasks(h, p, i);
    var r1 := RunStep(h, p, i);
    TaskRegistered(r1, FinalizeStep(h, p, i), InstallTaskName(RunName(i)), ModsDir(r1.runs[RunName(i)].workDir), Downloads(h, p, i) != []);
  }

  /** Registering a task changes nothing the callback relies on. */
  lemma HostTasksKept(h: HostState, r: HostState, p: Platform)
    requires Host(h, p) && r == h.(installTasks := r.installTasks)
    ensures Host(r, p)
  {
    forall j ensures (LowerName(j) in r.sourceSets ==> SetupExists(r, ConfigurationsFor(p, j)))
                  && (LowerName(j) !in r.sourceSets ==> Untouched(r, p, j))
    {
      assert (LowerName(j) in h.sourceSets ==> SetupExists(h, ConfigurationsFor(p, j)))
          && (LowerName(j) !in h.sourceSets ==> Untouched(h, p, j));
    }
  }

  /** Distinct implementations, as the iteration of a set visits them. */
  predicate DistinctOrder(order: seq<Implementation>)
  {
    forall a, b :: 0 <= a < b < |order| ==> order[a] != order[b]
  }

  /** The project after the loop has handled the implementations in `order`,
      one after the other, from `h` on. */
  function FinalizeAll(h: HostState, p: Platform, order: seq<Implementation>): (r: HostState)
    requires Host(h, p)
    ensures Host(r, p)
    ensures h.sourceSets.Keys <= r.sourceSets.Keys
    decreases |order|
  {
    if order == [] then h
    else
      var r0 := FinalizeAll(h, p, order[..|order| - 1]);
      FinalizeStepHost(r0, p, order[|order| - 1]);
      FinalizeStepGrows(r0, p, order[|order| - 1]);
      FinalizeStep(r0, p, order[|order| - 1])
  }

  /** The passes for the first `k + 1` implementations are those for the
      first `k`, then the pass for `order[k]`. */
  lemma FinalizeAllSnoc(h: HostState, p: Platform, order: seq<Implementation>, k: nat)
    requires Host(h, p) && k < |order|
    ensures FinalizeAll(h, p, order[..k + 1]) == FinalizeStep(FinalizeAll(h, p, order[..k]), p, order[k])
  {
    assert order[..k + 1][..k] == order[..k];
  }

  /** The pass for `order[k]` leaves the later implementations' install
      tasks free. */
  lemma StepKeepsFree(h: HostState, p: Platform, order: seq<Implementation>, k: nat)
    requires Host(h, p) && DistinctOrder(order) && k < |order| && TasksFree(h, order[k..])
    ensures TasksFree(FinalizeStep(h, p, order[k]), order[k + 1..])
  {
    assert order[k] == order[k..][0];
    FinalizeStepTasks(h, p, order[k]);
    FreeAfter(h, FinalizeStep(h, p, order[k]), order, k);
  }

  /** A pass adds the implementation's source set and removes none. */
  lemma FinalizeStepGrows(h: HostState, p: Platform, i: Implementation)
    requires Host(h, p)
    ensures FinalizeStep(h, p, i).sourceSets.Keys == h.sourceSets.Keys + {LowerName(i)}
  {
    FinalizeStepHost(h, p, i);
    RunStepGrows(h, p, i);
  }

  /** The passes for the first `k` implementations leave the install tasks of
      the implementations still to come free. */
  lemma {:induction false} FinalizeAllKeepsFree(h: HostState, p: Platform, order: seq<Implementation>, k: nat)
    requires Host(h, p) && DistinctOrder(order) && TasksFree(h, order) && k <= |order|
    ensures TasksFree(FinalizeAll(h, p, order[..k]), order[k..])
    decreases k
  {
    if k == 0 {
      assert order[..0] == [] && order[0..] == order;
    } else {
      FinalizeAllKeepsFree(h, p, order, k - 1);
      FinalizeAllSnoc(h, p, order, k - 1);
      StepKeepsFree(FinalizeAll(h, p, order[..k - 1]), p, order, k - 1);
    }
  }

  /** Registering at most `order[k]`'s install task leaves the later
      implementations' tasks free. */
  lemma FreeAfter(h: HostState, r: HostState, order: seq<Implementation>, k: nat)
    requires DistinctOrder(order) && k < |order| && TasksFree(h, order[k..])
    requires r.installTasks.Keys <= h.installTasks.Keys + {InstallTaskName(RunName(order[k]))}
    ensures TasksFree(r, order[k + 1..])
  {
    forall j | j in order[k + 1..] ensures InstallTaskName(RunName(j)) !in r.installTasks {
      var m :| 0 <= m < |order[k + 1..]| && order[k + 1..][m] == j;
      assert order[k + 1 + m] == j && order[k..][m + 1] == j;
      InstallTaskNamesApart(order[k], j);
    }
  }

  /** The run step adds the implementation's source set and removes none. */
  lemma RunStepGrows(h: HostState, p: Platform, i: Implementation)
    requires Host(h, p)
    ensures RunStep(h, p, i).sourceSets.Keys == h.sourceSets.Keys + {LowerName(i)}
  {
    GetOrCreateHost(h, p, i);
    GetOrCreateFrame(Current, h, p, i);
    GetOrCreateRunFrame(GetOrCreate(Current, h, p, i), p, i, LowerName(i));
  }

  /** In a host, a pair's configurations exist only once its source set does. */
  lemma SetupNeedsSourceSet(h: HostState, p: Platform, i: Implementation)
    requires Host(h, p) && SetupExists(h, ConfigurationsFor(p, i))
    ensures LowerName(i) in h.sourceSets
  {
    assert ModDownloadsName(i) in h.configurations;
  }

  /** The configurations `getConfigurationFor` looks up exist for every
      selected implementation. */
  predicate SetupsExist(h: HostState, p: Platform, impls: set<Implementation>)
  {
    forall i :: i in impls ==> SetupExists(h, ConfigurationsFor(p, i))
  }

  /** What one pass of the loop decides for an implementation: unsupported,
      a missing version, or nothing. */
  function StepOutcome(p: Platform, i: Implementation, missing: Option<Problem>): Option<Problem>
  {
    if !IsSupported(i, p) then Some(ImplementationUnsupported) else missing
  }

  /** The body of the loop in `afterEvaluate` for one implementation;
      `missing` is what `validateRequiredVersions` finds, the same on every
      pass since its arguments do not change inside the loop. */
  method FinalizeImplementation(project: Project, p: Platform, i: Implementation, missing: Option<Problem>)
    returns (problem: Option<Problem>)
    requires Host(project.Snapshot(), p) && SetupExists(project.Snapshot(), ConfigurationsFor(p, i))
    requires InstallTaskName(RunName(i)) !in project.installTasks
    modifies project
    ensures problem == StepOutcome(p, i, missing)
    ensures problem.None? ==> project.Snapshot() == FinalizeStep(old(project.Snapshot()), p, i)
  {
    ghost var h := project.Snapshot();
    var setup := ConfigurationsFor(p, i);
    if !IsSupported(i, p) {
      return Some(ImplementationUnsupported);
    }
    if missing.Some? {
      return missing;
    }
    problem := None;
    RunStepEffect(h, p, i);
    var runs := GetOrCreateRunConfigurations(project, true, p, i);
    var downloads := project.configurations[setup.modDownloads.name];
    assert downloads == Downloads(h, p, i);
    if downloads != [] {
      if runs == {} {
        assert false;
        return Some(RunsMissing);
      }
      InstallModsTasks(project, p, i, runs, h);
    }
  }

  /** An install task for each of the runs, which here is the
      implementation's own. */
  method InstallModsTasks(project: Project, p: Platform, i: Implementation, runs: set<string>, ghost h: HostState)
    requires Host(h, p) && InstallTaskName(RunName(i)) !in h.installTasks && Downloads(h, p, i) != []
    requires runs == {RunName(i)} && project.Snapshot() == RunStep(h, p, i)
    modifies project
    ensures project.Snapshot() == FinalizeStep(h, p, i)
  {
    // `Set.of(run)`: the set always holds the one run, so the loop turns once.
    var rest := runs;
    while rest != {}
      invariant rest <= {RunName(i)}
      invariant rest != {} ==> project.Snapshot() == RunStep(h, p, i)
      invariant rest == {} ==> project.Snapshot() == FinalizeStep(h, p, i)
      decreases |rest|
    {
      var run :| run in rest;
      RegisterRunTask(project, p, i, run, h);
      rest := rest - {run};
    }
  }

  /** The loop's one turn: the task for the implementation's run, targeting
      the `mods` directory of the run's working directory. */
  method RegisterRunTask(project: Project, p: Platform, i: Implementation, run: string, ghost h: HostState)
    requires Host(h, p) && InstallTaskName(RunName(i)) !in h.installTasks && Downloads(h, p, i) != []
    requires run == RunName(i) && project.Snapshot() == RunStep(h, p, i)
    modifies project
    ensures project.Snapshot() == FinalizeStep(h, p, i)
  {
    RunStepTasks(h, p, i);
    project.RegisterInstallTask(InstallTaskName(run), ModsDir(project.runs[run].workDir));
  }

  /** `afterEvaluate`: the gate, then for each selected implementation in
      `EnumSet` order its configurations, the support check, the version
      check, its run, and an install task for the run when it downloads
      mods. A problem ends the loop; the state the project is left in then
      is not stated. */
  method AfterEvaluate(ext: ShadersExtension) returns (problem: Option<Problem>)
    requires ext.Valid()
    requires ext.isEnabled && ext.platform.Some? ==> SetupsExist(ext.project.Snapshot(), ext.platform.value, ext.implementations)
    requires ext.isEnabled ==> TasksFree(ext.project.Snapshot(), Ordered(ext.implementations))
    modifies ext.project
    ensures problem == Outcome(ext.State(), ext.versions)
    ensures problem.None? ==> ext.project.Snapshot() == FinalizeAll(old(ext.project.Snapshot()), ext.loader, Sel.Configured(ext.State()))
  {
    GateOrder(ext.State(), ext.versions);
    if !ext.isEnabled {
      return None;
    }
    if ext.platform.None? {
      return Some(PlatformMissing);
    }
    if ext.implementations == {} {
      return Some(ImplementationMissing);
    }
    OutcomeReady(ext.State(), ext.versions);
    var missing := ValidateRequiredVersions(ext.platform.value, ext.implementations, ext.versions);
    problem := FinalizeImplementations(ext.project, ext.platform.value, ext.implementations, missing);
  }

  /** The loop of `afterEvaluate` over the selected implementations, in
      `EnumSet` order, stopping at the first problem. */
  method FinalizeImplementations(project: Project, p: Platform, impls: set<Implementation>, missing: Option<Problem>)
    returns (problem: Option<Problem>)
    requires Host(project.Snapshot(), p) && SetupsExist(project.Snapshot(), p, impls)
    requires TasksFree(project.Snapshot(), Ordered(impls))
    modifies project
    ensures problem == Checks(p, Ordered(impls), missing)
    ensures problem.None? ==> project.Snapshot() == FinalizeAll(old(project.Snapshot()), p, Ordered(impls))
  {
    var order := Ordered(impls);
    ghost var h := project.Snapshot();
    PrefixEnds(order);
    problem := None;
    var k := 0;
    while k < |order|
      invariant 0 <= k <= |order|
      invariant project.Snapshot() == FinalizeAll(h, p, order[..k])
      invariant Passed(p, order, missing, k) && problem == None
    {
      problem := FinalizeNext(project, h, p, impls, order, k, missing);
      if problem.Some? {
        return;
      }
      k := k + 1;
    }
    ChecksPassAll(p, order, missing);
  }

  /** The empty prefix is empty, and the prefix as long as the sequence is the
      sequence. */
  lemma PrefixEnds(s: seq<Implementation>)
    ensures s[..0] == [] && s[..|s|] == s
  {
  }

  /** One turn of the loop: the pass for `order[k]`, after those for the
      implementations before it. */
  method FinalizeNext(project: Project, ghost h: HostState, p: Platform, impls: set<Implementation>, order: seq<Implementation>, k: nat, missing: Option<Problem>)
    returns (problem: Option<Problem>)
    requires Host(h, p) && SetupsExist(h, p, impls) && order == Ordered(impls) && TasksFree(h, order) && k < |order|
    requires project.Snapshot() == FinalizeAll(h, p, order[..k]) && Passed(p, order, missing, k)
    modifies project
    ensures problem == StepOutcome(p, order[k], missing)
    ensures problem.Some? ==> problem == Checks(p, order, missing)
    ensures problem.None? ==> project.Snapshot() == FinalizeAll(h, p, order[..k + 1]) && Passed(p, order, missing, k + 1)
  {
    SetupNeedsSourceSet(h, p, order[k]);
    FinalizeAllKeepsFree(h, p, order, k);
    FinalizeAllSnoc(h, p, order, k);
    assert order[k] == order[k..][0] && order[k] in impls;
    problem := FinalizeImplementation(project, p, order[k], missing);
    if problem.Some? {
      ChecksStop(p, order, missing, k);
    }
  }

  /** A ready selection's outcome is decided by the loop's checks. */
  lemma OutcomeReady(s: Sel.Selection, v: Versions)
    requires Sel.Ready(s)
    ensures Outcome(s, v) == Checks(s.platform.value, Ordered(s.implementations), ValidateRequiredVersions(s.platform.value, s.implementations, v))
  {
  }

  /** The first `k` implementations passed their checks. */
  predicate Passed(p: Platform, order: seq<Implementation>, missing: Option<Problem>, k: nat)
  {
    (k > 0 ==> missing == None) && forall j :: 0 <= j < k <= |order| ==> IsSupported(order[j], p)
  }

  /** The checks stop at the first implementation that fails. */
  lemma {:induction false} ChecksStop(p: Platform, order: seq<Implementation>, missing: Option<Problem>, k: nat)
    requires k < |order| && Passed(p, order, missing, k) && StepOutcome(p, order[k], missing).Some?
    ensures Checks(p, order, missing) == StepOutcome(p, order[k], missing)
    decreases k
  {
    if k > 0 {
      assert order[1..][k - 1] == order[k];
      assert Passed(p, order[1..], missing, k - 1) by {
        forall j | 0 <= j < k - 1 ensures IsSupported(order[1..][j], p) {
          assert order[1..][j] == order[j + 1];
        }
      }
      ChecksStop(p, order[1..], missing, k - 1);
    }
  }

  /** When every implementation passed, so do the checks. */
  lemma ChecksPassAll(p: Platform, order: seq<Implementation>, missing: Option<Problem>)
    requires Passed(p, order, missing, |order|)
    ensures Checks(p, order, missing) == None
  {
    if order != [] {
      ChecksPass(p, order, missing);
    }
  }
}
