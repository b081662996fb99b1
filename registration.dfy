/** Dependency registration: which coordinates `Implementation` and `Platform`
    add to which of a pair's three configurations, and in what order.

    The plugin adds each coordinate with `addLater`, one call per
    (configuration, coordinate). A registration routine is described here by its
    plan, the sequence of those calls, and the routine itself is a method that
    performs the calls on a `Project` and is proved to leave the project in the
    state the plan describes. */
module Registration {
  import opened Common
  import opened Gradle
  import opened Model

  /** The three roles a configuration plays for one (platform, implementation) pair. */
  datatype Bucket = LocalCompileOnly | LocalRuntimeOnly | ModDownloads

  /** One `addLater` call: the bucket and the coordinate provider. */
  datatype Addition = Addition(bucket: Bucket, dependency: Option<string>)

  /** The configurations standing for the three buckets. */
  datatype ConfigurationSetup = ConfigurationSetup(localRuntimeOnly: Target, localCompileOnly: Target, modDownloads: Target)

  function TargetOf(c: ConfigurationSetup, b: Bucket): Target
  {
    match b
    case LocalCompileOnly => c.localCompileOnly
    case LocalRuntimeOnly => c.localRuntimeOnly
    case ModDownloads => c.modDownloads
  }

  predicate SetupExists(h: HostState, c: ConfigurationSetup)
  {
    Exists(h, c.localRuntimeOnly) && Exists(h, c.localCompileOnly) && Exists(h, c.modDownloads)
  }

  /** No two buckets share a configuration. */
  predicate Distinct(c: ConfigurationSetup)
  {
    c.localRuntimeOnly != c.localCompileOnly && c.localRuntimeOnly != c.modDownloads
    && c.localCompileOnly != c.modDownloads
  }

  /** The values of the providers that have one, in order. */
  function Present(ds: seq<Option<string>>): (r: seq<string>)
    ensures |r| <= |ds|
    ensures r == [] <==> forall k :: 0 <= k < |ds| ==> ds[k].None?
  {
    if ds == [] then [] else ToSeq(ds[0]) + Present(ds[1..])
  }

  lemma PresentPair(a: Option<string>, b: Option<string>)
    ensures Present([a, b]) == ToSeq(a) + ToSeq(b)
  {
    assert [a, b][1..] == [b];
  }

  /** The coordinates a plan adds to bucket `b`, in the order it adds them. */
  function Contents(plan: seq<Addition>, b: Bucket): seq<string>
  {
    if plan == [] then []
    else (if plan[0].bucket == b then ToSeq(plan[0].dependency) else []) + Contents(plan[1..], b)
  }

  /** `addLater` of every provider in `ds` to the same bucket, in order. */
  function AddAll(b: Bucket, ds: seq<Option<string>>): (r: seq<Addition>)
    ensures |r| == |ds|
    ensures forall k :: 0 <= k < |ds| ==> r[k] == Addition(b, ds[k])
  {
    seq(|ds|, k requires 0 <= k < |ds| => Addition(b, ds[k]))
  }

  /** Adding to one bucket puts the present coordinates there, in order, and
      nothing anywhere else. */
  lemma {:induction false} ContentsAddAll(b: Bucket, ds: seq<Option<string>>, other: Bucket)
    ensures Contents(AddAll(b, ds), other) == if other == b then Present(ds) else []
  {
    if ds != [] {
      assert AddAll(b, ds)[1..] == AddAll(b, ds[1..]);
      ContentsAddAll(b, ds[1..], other);
    }
  }

  lemma {:induction false} ContentsAppend(p: seq<Addition>, q: seq<Addition>, b: Bucket)
    ensures Contents(p + q, b) == Contents(p, b) + Contents(q, b)
  {
    if p == [] {
      assert p + q == q;
    } else {
      assert (p + q)[1..] == p[1..] + q;
      ContentsAppend(p[1..], q, b);
    }
  }

  /** The state after the plan's `addLater` calls, performed in order. */
  function ApplyPlan(h: HostState, c: ConfigurationSetup, plan: seq<Addition>): (r: HostState)
    requires SetupExists(h, c)
    ensures r.configurations.Keys == h.configurations.Keys
    decreases |plan|
  {
    if plan == [] then h
    else
      var last := plan[|plan| - 1];
      var prev := ApplyPlan(h, c, plan[..|plan| - 1]);
      WithDependency(prev, TargetOf(c, last.bucket), last.dependency)
  }

  /** What a plan leaves in target `t`: the bucket's contents when `t` stands for
      a bucket, and nothing otherwise. */
  function Landed(c: ConfigurationSetup, plan: seq<Addition>, t: Target): seq<string>
  {
    if t == c.localCompileOnly then Contents(plan, LocalCompileOnly)
    else if t == c.localRuntimeOnly then Contents(plan, LocalRuntimeOnly)
    else if t == c.modDownloads then Contents(plan, ModDownloads)
    else []
  }

  lemma LandedSnoc(c: ConfigurationSetup, init: seq<Addition>, last: Addition, t: Target)
    requires Distinct(c)
    ensures Landed(c, init + [last], t)
         == Landed(c, init, t) + (if t == TargetOf(c, last.bucket) then ToSeq(last.dependency) else [])
  {
    ContentsAppend(init, [last], LocalCompileOnly);
    ContentsAppend(init, [last], LocalRuntimeOnly);
    ContentsAppend(init, [last], ModDownloads);
  }

  /** With three distinct configurations, a plan appends to each exactly the
      contents of its bucket and leaves every other configuration alone. */
  lemma {:induction false} ApplyPlanEffect(h: HostState, c: ConfigurationSetup, plan: seq<Addition>, t: Target)
    requires SetupExists(h, c) && Distinct(c) && Exists(h, t)
    ensures Exists(ApplyPlan(h, c, plan), t)
    ensures Dependencies(ApplyPlan(h, c, plan), t) == Dependencies(h, t) + Landed(c, plan, t)
    decreases |plan|
  {
    if plan != [] {
      var init := plan[..|plan| - 1];
      var last := plan[|plan| - 1];
      ApplyPlanEffect(h, c, init, t);
      DependencyAdded(ApplyPlan(h, c, init), TargetOf(c, last.bucket), last.dependency, t);
      assert init + [last] == plan;
      LandedSnoc(c, init, last, t);
    }
  }

  /** Performing two plans one after the other is performing their
      concatenation. */
  lemma {:induction false} ApplyPlanAppend(h: HostState, c: ConfigurationSetup, p: seq<Addition>, q: seq<Addition>)
    requires SetupExists(h, c)
    ensures SetupExists(ApplyPlan(h, c, p), c)
    ensures ApplyPlan(h, c, p + q) == ApplyPlan(ApplyPlan(h, c, p), c, q)
    decreases |q|
  {
    if q != [] {
      var init := q[..|q| - 1];
      assert (p + q)[..|p + q| - 1] == p + init;
      ApplyPlanAppend(h, c, p, init);
    } else {
      assert p + q == p;
    }
  }

  /** A plan changes dependency lists only: the same configurations exist, and
      everything else about the project is as it was. */
  lemma {:induction false} ApplyPlanFrame(h: HostState, c: ConfigurationSetup, plan: seq<Addition>)
    requires SetupExists(h, c)
    ensures var r := ApplyPlan(h, c, plan);
            r == h.(configurations := r.configurations, detached := r.detached)
    decreases |plan|
  {
    if plan != [] {
      ApplyPlanFrame(h, c, plan[..|plan| - 1]);
    }
  }

  /** Two groups of `addLater` calls, one bucket each. */
  lemma Chunks2(b1: Bucket, ds1: seq<Option<string>>, b2: Bucket, ds2: seq<Option<string>>)
    ensures forall b :: Contents(AddAll(b1, ds1) + AddAll(b2, ds2), b)
                     == (if b == b1 then Present(ds1) else []) + (if b == b2 then Present(ds2) else [])
  {
    forall b
      ensures Contents(AddAll(b1, ds1) + AddAll(b2, ds2), b)
           == (if b == b1 then Present(ds1) else []) + (if b == b2 then Present(ds2) else [])
    {
      ContentsAppend(AddAll(b1, ds1), AddAll(b2, ds2), b);
      ContentsAddAll(b1, ds1, b);
      ContentsAddAll(b2, ds2, b);
    }
  }

  /** Three groups of `addLater` calls, one bucket each. */
  lemma Chunks3(b1: Bucket, ds1: seq<Option<string>>, b2: Bucket, ds2: seq<Option<string>>,
                b3: Bucket, ds3: seq<Option<string>>)
    ensures forall b :: Contents(AddAll(b1, ds1) + AddAll(b2, ds2) + AddAll(b3, ds3), b)
                     == (if b == b1 then Present(ds1) else []) + (if b == b2 then Present(ds2) else [])
                        + (if b == b3 then Present(ds3) else [])
  {
    Chunks2(b1, ds1, b2, ds2);
    forall b
      ensures Contents(AddAll(b1, ds1) + AddAll(b2, ds2) + AddAll(b3, ds3), b)
           == (if b == b1 then Present(ds1) else []) + (if b == b2 then Present(ds2) else [])
              + (if b == b3 then Present(ds3) else [])
    {
      ContentsAppend(AddAll(b1, ds1) + AddAll(b2, ds2), AddAll(b3, ds3), b);
      ContentsAddAll(b3, ds3, b);
    }
  }

  /** The plan shapes below, written as their calls one by one (the form the
      registration methods build them in). */
  lemma OneTwiceCalls(b1: Bucket, b2: Bucket, d: Option<string>)
    ensures AddAll(b1, [d]) + AddAll(b2, [d]) == [] + [Addition(b1, d)] + [Addition(b2, d)]
  {
  }

  lemma ThreeCalls(b1: Bucket, d1: Option<string>, b2: Bucket, d2: Option<string>, b3: Bucket, d3: Option<string>)
    ensures AddAll(b1, [d1]) + AddAll(b2, [d2]) + AddAll(b3, [d3])
         == [] + [Addition(b1, d1)] + [Addition(b2, d2)] + [Addition(b3, d3)]
  {
  }

  lemma FourCalls(b1: Bucket, d1: Option<string>, b2: Bucket, d2: Option<string>, b3: Bucket, d3: Option<string>, d4: Option<string>)
    ensures AddAll(b1, [d1]) + AddAll(b2, [d2]) + AddAll(b3, [d3, d4])
         == [] + [Addition(b1, d1)] + [Addition(b2, d2)] + [Addition(b3, d3)] + [Addition(b3, d4)]
  {
  }

  lemma FourTwiceCalls(b1: Bucket, b2: Bucket, d1: Option<string>, d2: Option<string>, d3: Option<string>, d4: Option<string>)
    ensures AddAll(b1, [d1, d2, d3, d4]) + AddAll(b2, [d1, d2, d3, d4])
         == [] + [Addition(b1, d1)] + [Addition(b1, d2)] + [Addition(b1, d3)] + [Addition(b1, d4)]
            + [Addition(b2, d1)] + [Addition(b2, d2)] + [Addition(b2, d3)] + [Addition(b2, d4)]
  {
  }

  /** What the Sodium NeoForge plan puts in each bucket, for any providers. */
  lemma SodiumNeoForgeShape(sodium: Option<string>, api: Option<string>, renderer: Option<string>)
    ensures var r := AddAll(LocalCompileOnly, [sodium]) + AddAll(LocalRuntimeOnly, [sodium]) + AddAll(LocalCompileOnly, [api, renderer]);
            Contents(r, LocalCompileOnly) == ToSeq(sodium) + ToSeq(api) + ToSeq(renderer)
            && Contents(r, LocalRuntimeOnly) == ToSeq(sodium) && Contents(r, ModDownloads) == []
  {
    var r := AddAll(LocalCompileOnly, [sodium]) + AddAll(LocalRuntimeOnly, [sodium]) + AddAll(LocalCompileOnly, [api, renderer]);
    Chunks3(LocalCompileOnly, [sodium], LocalRuntimeOnly, [sodium], LocalCompileOnly, [api, renderer]);
    PresentPair(api, renderer);
    assert Present([sodium]) == ToSeq(sodium);
    assert Contents(r, LocalCompileOnly) == ToSeq(sodium) + [] + (ToSeq(api) + ToSeq(renderer));
    assert Contents(r, LocalRuntimeOnly) == [] + ToSeq(sodium) + [];
    assert Contents(r, ModDownloads) == [] + [] + [];
  }

  /** Sodium on Fabric: the Sodium jar for compiling and for running. */
  function SodiumFabricPlan(v: Versions): (r: seq<Addition>)
    ensures Contents(r, LocalCompileOnly) == ToSeq(SodiumCoordinate(FARBIC, v))
    ensures Contents(r, LocalRuntimeOnly) == ToSeq(SodiumCoordinate(FARBIC, v))
    ensures Contents(r, ModDownloads) == []
  {
    var sodium := SodiumCoordinate(FARBIC, v);
    Chunks2(LocalCompileOnly, [sodium], LocalRuntimeOnly, [sodium]);
    AddAll(LocalCompileOnly, [sodium]) + AddAll(LocalRuntimeOnly, [sodium])
  }

  /** Sodium on NeoForge: the Sodium jar for compiling and running, and the two
      Forgified Fabric API modules for compiling only. */
  function SodiumNeoForgePlan(v: Versions): (r: seq<Addition>)
    ensures Contents(r, LocalCompileOnly)
         == ToSeq(SodiumCoordinate(NEOFORGE, v)) + ToSeq(FabricApiCoordinate(v)) + ToSeq(FabricRendererCoordinate(v))
    ensures Contents(r, LocalRuntimeOnly) == ToSeq(SodiumCoordinate(NEOFORGE, v))
    ensures Contents(r, ModDownloads) == []
  {
    var sodium := SodiumCoordinate(NEOFORGE, v);
    SodiumNeoForgeShape(sodium, FabricApiCoordinate(v), FabricRendererCoordinate(v));
    AddAll(LocalCompileOnly, [sodium]) + AddAll(LocalRuntimeOnly, [sodium])
    + AddAll(LocalCompileOnly, [FabricApiCoordinate(v), FabricRendererCoordinate(v)])
  }

  /** Embeddium on NeoForge: the Embeddium jar for compiling and running, and
      Monocle among the downloaded mods only. */
  function EmbeddiumNeoForgePlan(v: Versions): (r: seq<Addition>)
    ensures Contents(r, LocalCompileOnly) == ToSeq(EmbeddiumCoordinate(v))
    ensures Contents(r, LocalRuntimeOnly) == ToSeq(EmbeddiumCoordinate(v))
    ensures Contents(r, ModDownloads) == ToSeq(MonocleCoordinate(v))
  {
    var embeddium := EmbeddiumCoordinate(v);
    var monocle := MonocleCoordinate(v);
    Chunks3(LocalCompileOnly, [embeddium], LocalRuntimeOnly, [embeddium], ModDownloads, [monocle]);
    AddAll(LocalCompileOnly, [embeddium]) + AddAll(LocalRuntimeOnly, [embeddium]) + AddAll(ModDownloads, [monocle])
  }

  /** `registerFabricDependencies`: only Sodium has Fabric dependencies. */
  function FabricPlan(i: Implementation, v: Versions): (r: seq<Addition>)
    ensures i == EMBEDDIUM ==> r == []
  {
    if i == SODIUM then SodiumFabricPlan(v) else []
  }

  /** `registerNeoForgeDependencies`. */
  function NeoForgePlan(i: Implementation, v: Versions): seq<Addition>
  {
    match i
    case SODIUM => SodiumNeoForgePlan(v)
    case EMBEDDIUM => EmbeddiumNeoForgePlan(v)
  }

  /** The four Iris coordinates on Fabric, in the order they are added. */
  function IrisFabricDependencies(v: Versions): seq<Option<string>>
  {
    [IrisCoordinate(FARBIC, v), Antlr4RuntimeCoordinate(v), GlslTransformerCoordinate(v), JCppCoordinate(v)]
  }

  /** Iris on Fabric: all four coordinates for compiling, then the same four in
      the same order for running; nothing is downloaded. */
  function IrisFabricPlan(v: Versions): (r: seq<Addition>)
    ensures Contents(r, LocalCompileOnly) == Present(IrisFabricDependencies(v))
    ensures Contents(r, LocalRuntimeOnly) == Present(IrisFabricDependencies(v))
    ensures Contents(r, ModDownloads) == []
  {
    var deps := IrisFabricDependencies(v);
    Chunks2(LocalCompileOnly, deps, LocalRuntimeOnly, deps);
    AddAll(LocalCompileOnly, deps) + AddAll(LocalRuntimeOnly, deps)
  }

  /** Iris on NeoForge: the Iris jar for compiling, and for running only when the
      implementation does not need it downloaded; otherwise among the
      downloaded mods. */
  function IrisNeoForgePlan(i: Implementation, v: Versions): (r: seq<Addition>)
    ensures Contents(r, LocalCompileOnly) == ToSeq(IrisCoordinate(NEOFORGE, v))
    ensures RequiresDownloadedIris(i) ==>
              Contents(r, ModDownloads) == ToSeq(IrisCoordinate(NEOFORGE, v)) && Contents(r, LocalRuntimeOnly) == []
    ensures !RequiresDownloadedIris(i) ==>
              Contents(r, LocalRuntimeOnly) == ToSeq(IrisCoordinate(NEOFORGE, v)) && Contents(r, ModDownloads) == []
  {
    var iris := IrisCoordinate(NEOFORGE, v);
    var second := if RequiresDownloadedIris(i) then ModDownloads else LocalRuntimeOnly;
    Chunks2(LocalCompileOnly, [iris], second, [iris]);
    AddAll(LocalCompileOnly, [iris]) + AddAll(second, [iris])
  }

  /** `configureIrisDependencies`. */
  function IrisPlan(p: Platform, i: Implementation, v: Versions): seq<Addition>
  {
    if IsFabric(p) then IrisFabricPlan(v) else IrisNeoForgePlan(i, v)
  }

  lemma IrisFabricIgnoresImplementation(i: Implementation, j: Implementation, v: Versions)
    ensures IrisPlan(FARBIC, i, v) == IrisPlan(FARBIC, j, v)
  {
  }

  /** The Iris coordinate reaches the runtime classpath and the downloaded mods
      together never: it is in exactly one of the two, whenever it exists. */
  lemma IrisRuntimeOrDownloaded(p: Platform, i: Implementation, v: Versions)
    requires IrisCoordinate(p, v).Some?
    ensures (IrisCoordinate(p, v).value in Contents(IrisPlan(p, i, v), LocalRuntimeOnly))
        != (IrisCoordinate(p, v).value in Contents(IrisPlan(p, i, v), ModDownloads))
  {
    if IsFabric(p) {
      assert Present(IrisFabricDependencies(v))[0] == IrisCoordinate(p, v).value;
    }
  }

  /** One `addLater` call of a plan, performed on the project: the calls made so
      far are `done`, and `a` is the next. */
  method AddLaterStep(project: Project, ghost h: HostState, c: ConfigurationSetup, ghost done: seq<Addition>, a: Addition)
    requires SetupExists(h, c) && project.Snapshot() == ApplyPlan(h, c, done)
    modifies project
    ensures project.Snapshot() == ApplyPlan(h, c, done + [a])
  {
    assert (done + [a])[..|done|] == done;
    project.AddLater(TargetOf(c, a.bucket), a.dependency);
  }

  /** `registerSodiumFabricDependencies`. */
  method RegisterSodiumFabricDependencies(project: Project, v: Versions, c: ConfigurationSetup)
    requires SetupExists(project.Snapshot(), c)
    modifies project
    ensures project.Snapshot() == ApplyPlan(old(project.Snapshot()), c, SodiumFabricPlan(v))
  {
    ghost var h := project.Snapshot();
    var sodium := SodiumCoordinate(FARBIC, v);
    ghost var done: seq<Addition> := [];
    AddLaterStep(project, h, c, done, Addition(LocalCompileOnly, sodium));
    done := done + [Addition(LocalCompileOnly, sodium)];
    AddLaterStep(project, h, c, done, Addition(LocalRuntimeOnly, sodium));
    done := done + [Addition(LocalRuntimeOnly, sodium)];
    OneTwiceCalls(LocalCompileOnly, LocalRuntimeOnly, sodium);
  }

  /** `registerSodiumNeoForgeDependencies`. */
  method RegisterSodiumNeoForgeDependencies(project: Project, v: Versions, c: ConfigurationSetup)
    requires SetupExists(project.Snapshot(), c)
    modifies project
    ensures project.Snapshot() == ApplyPlan(old(project.Snapshot()), c, SodiumNeoForgePlan(v))
  {
    ghost var h := project.Snapshot();
    var sodium := SodiumCoordinate(NEOFORGE, v);
    var fabricApi := FabricApiCoordinate(v);
    var fabricRenderer := FabricRendererCoordinate(v);
    ghost var done: seq<Addition> := [];
    AddLaterStep(project, h, c, done, Addition(LocalCompileOnly, sodium));
    done := done + [Addition(LocalCompileOnly, sodium)];
    AddLaterStep(project, h, c, done, Addition(LocalRuntimeOnly, sodium));
    done := done + [Addition(LocalRuntimeOnly, sodium)];
    AddLaterStep(project, h, c, done, Addition(LocalCompileOnly, fabricApi));
    done := done + [Addition(LocalCompileOnly, fabricApi)];
    AddLaterStep(project, h, c, done, Addition(LocalCompileOnly, fabricRenderer));
    done := done + [Addition(LocalCompileOnly, fabricRenderer)];
    FourCalls(LocalCompileOnly, sodium, LocalRuntimeOnly, sodium, LocalCompileOnly, fabricApi, fabricRenderer);
  }

  /** `registerEmbeddiumNeoForgeDependencies`. */
  method RegisterEmbeddiumNeoForgeDependencies(project: Project, v: Versions, c: ConfigurationSetup)
    requires SetupExists(project.Snapshot(), c)
    modifies project
    ensures project.Snapshot() == ApplyPlan(old(project.Snapshot()), c, EmbeddiumNeoForgePlan(v))
  {
    ghost var h := project.Snapshot();
    var embeddium := EmbeddiumCoordinate(v);
    var monocle := MonocleCoordinate(v);
    ghost var done: seq<Addition> := [];
    AddLaterStep(project, h, c, done, Addition(LocalCompileOnly, embeddium));
    done := done + [Addition(LocalCompileOnly, embeddium)];
    AddLaterStep(project, h, c, done, Addition(LocalRuntimeOnly, embeddium));
    done := done + [Addition(LocalRuntimeOnly, embeddium)];
    AddLaterStep(project, h, c, done, Addition(ModDownloads, monocle));
    done := done + [Addition(ModDownloads, monocle)];
    ThreeCalls(LocalCompileOnly, embeddium, LocalRuntimeOnly, embeddium, ModDownloads, monocle);
  }

  /** `registerFabricDependencies`. */
  method RegisterFabricDependencies(i: Implementation, project: Project, v: Versions, c: ConfigurationSetup)
    requires SetupExists(project.Snapshot(), c)
    modifies project
    ensures project.Snapshot() == ApplyPlan(old(project.Snapshot()), c, FabricPlan(i, v))
  {
    if i == SODIUM {
      RegisterSodiumFabricDependencies(project, v, c);
    }
  }

  /** `registerNeoForgeDependencies`. */
  method RegisterNeoForgeDependencies(i: Implementation, project: Project, v: Versions, c: ConfigurationSetup)
    requires SetupExists(project.Snapshot(), c)
    modifies project
    ensures project.Snapshot() == ApplyPlan(old(project.Snapshot()), c, NeoForgePlan(i, v))
  {
    if i == SODIUM {
      RegisterSodiumNeoForgeDependencies(project, v, c);
    } else if i == EMBEDDIUM {
      RegisterEmbeddiumNeoForgeDependencies(project, v, c);
    }
  }

  /** `configureIrisFabricDependencies`. */
  method ConfigureIrisFabricDependencies(project: Project, v: Versions, i: Implementation, c: ConfigurationSetup)
    requires SetupExists(project.Snapshot(), c)
    modifies project
    ensures project.Snapshot() == ApplyPlan(old(project.Snapshot()), c, IrisFabricPlan(v))
  {
    ghost var h := project.Snapshot();
    var iris := IrisCoordinate(FARBIC, v);
    var antlr4Runtime := Antlr4RuntimeCoordinate(v);
    var glslTransformer := GlslTransformerCoordinate(v);
    var jCpp := JCppCoordinate(v);
    ghost var done: seq<Addition> := [];
    AddLaterStep(project, h, c, done, Addition(LocalCompileOnly, iris));
    done := done + [Addition(LocalCompileOnly, iris)];
    AddLaterStep(project, h, c, done, Addition(LocalCompileOnly, antlr4Runtime));
    done := done + [Addition(LocalCompileOnly, antlr4Runtime)];
    AddLaterStep(project, h, c, done, Addition(LocalCompileOnly, glslTransformer));
    done := done + [Addition(LocalCompileOnly, glslTransformer)];
    AddLaterStep(project, h, c, done, Addition(LocalCompileOnly, jCpp));
    done := done + [Addition(LocalCompileOnly, jCpp)];
    AddLaterStep(project, h, c, done, Addition(LocalRuntimeOnly, iris));
    done := done + [Addition(LocalRuntimeOnly, iris)];
    AddLaterStep(project, h, c, done, Addition(LocalRuntimeOnly, antlr4Runtime));
    done := done + [Addition(LocalRuntimeOnly, antlr4Runtime)];
    AddLaterStep(project, h, c, done, Addition(LocalRuntimeOnly, glslTransformer));
    done := done + [Addition(LocalRuntimeOnly, glslTransformer)];
    AddLaterStep(project, h, c, done, Addition(LocalRuntimeOnly, jCpp));
    done := done + [Addition(LocalRuntimeOnly, jCpp)];
    FourTwiceCalls(LocalCompileOnly, LocalRuntimeOnly, iris, antlr4Runtime, glslTransformer, jCpp);
  }

  /** `configureIrisNeoForgeDependencies`. */
  method ConfigureIrisNeoForgeDependencies(project: Project, v: Versions, i: Implementation, c: ConfigurationSetup)
    requires SetupExists(project.Snapshot(), c)
    modifies project
    ensures project.Snapshot() == ApplyPlan(old(project.Snapshot()), c, IrisNeoForgePlan(i, v))
  {
    ghost var h := project.Snapshot();
    var iris := IrisCoordinate(NEOFORGE, v);
    ghost var done: seq<Addition> := [];
    AddLaterStep(project, h, c, done, Addition(LocalCompileOnly, iris));
    done := done + [Addition(LocalCompileOnly, iris)];
    if RequiresDownloadedIris(i) {
      AddLaterStep(project, h, c, done, Addition(ModDownloads, iris));
      done := done + [Addition(ModDownloads, iris)];
      OneTwiceCalls(LocalCompileOnly, ModDownloads, iris);
    } else {
      AddLaterStep(project, h, c, done, Addition(LocalRuntimeOnly, iris));
      done := done + [Addition(LocalRuntimeOnly, iris)];
      OneTwiceCalls(LocalCompileOnly, LocalRuntimeOnly, iris);
    }
  }

  /** `configureIrisDependencies`. */
  method ConfigureIrisDependencies(p: Platform, project: Project, v: Versions, i: Implementation, c: ConfigurationSetup)
    requires SetupExists(project.Snapshot(), c)
    modifies project
    ensures project.Snapshot() == ApplyPlan(old(project.Snapshot()), c, IrisPlan(p, i, v))
  {
    if p == FARBIC {
      ConfigureIrisFabricDependencies(project, v, i, c);
    } else if p == NEOFORGE {
      ConfigureIrisNeoForgeDependencies(project, v, i, c);
    }
  }
}
