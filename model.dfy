/** The two enums of the plugin's model package, the version slots of the
    extension, and the Maven coordinates built from them.

    A version slot is a Gradle property that may have no value; a coordinate
    built from slots exists exactly when every slot it reads has a value, which
    is what `Provider.zip` and `Provider.map` give the plugin. */
module Model {
  import opened Common
  import opened Gradle

  /** The mod loader the project builds for. The constant keeps the source's
      spelling. */
  datatype Platform = FARBIC | NEOFORGE

  predicate IsFabric(p: Platform) { p == FARBIC }
  predicate IsNeoForge(p: Platform) { p == NEOFORGE }

  /** Every platform is exactly one of the two loaders. */
  lemma LoaderExclusive(p: Platform)
    ensures IsFabric(p) <==> !IsNeoForge(p)
  {
  }

  /** The loader name that ends the Sodium and Iris artifact versions. */
  function LoaderSuffix(p: Platform): string
  {
    if IsFabric(p) then "fabric" else "neoforge"
  }

  /** The toolchain whose run container the plugin uses for a platform: Loom for
      Fabric and NeoGradle for every other platform. */
  function ToolchainOf(p: Platform): Toolchain
  {
    if IsFabric(p) then Loom else NeoGradle
  }

  /** A shader-compatible renderer mod. */
  datatype Implementation = SODIUM | EMBEDDIUM

  /** Declaration order, which is the iteration order of an `EnumSet`. */
  function Ordinal(i: Implementation): nat
  {
    match i
    case SODIUM => 0
    case EMBEDDIUM => 1
  }

  /** Sodium runs on every platform; Embeddium only on NeoForge. */
  predicate IsSupported(i: Implementation, p: Platform)
  {
    match i
    case SODIUM => true
    case EMBEDDIUM => IsNeoForge(p)
  }

  lemma SupportMatrix(p: Platform)
    ensures IsSupported(SODIUM, p)
    ensures IsSupported(EMBEDDIUM, p) <==> p == NEOFORGE
  {
  }

  /** Embeddium needs the Iris jar placed among the downloaded mods instead of on
      the runtime classpath. */
  predicate RequiresDownloadedIris(i: Implementation)
  {
    i == EMBEDDIUM
  }

  /** A set of implementations is determined by which of the two it holds. */
  lemma SetByMembers(s: set<Implementation>)
    ensures s == (if SODIUM in s then {SODIUM} else {}) + (if EMBEDDIUM in s then {EMBEDDIUM} else {})
  {
    forall i ensures i in s <==> i in (if SODIUM in s then {SODIUM} else {}) + (if EMBEDDIUM in s then {EMBEDDIUM} else {}) {
      if i == SODIUM {} else {}
    }
  }

  /** The members of an `EnumSet`, in the order its iteration visits them. */
  function Ordered(s: set<Implementation>): (r: seq<Implementation>)
    ensures forall i :: i in r <==> i in s
    ensures forall j, k :: 0 <= j < k < |r| ==> Ordinal(r[j]) < Ordinal(r[k])
    ensures |r| == |s|
  {
    SetByMembers(s);
    (if SODIUM in s then [SODIUM] else []) + (if EMBEDDIUM in s then [EMBEDDIUM] else [])
  }

  /** The enum constant's name, as `name()` returns it. */
  function Name(i: Implementation): string
  {
    match i
    case SODIUM => "SODIUM"
    case EMBEDDIUM => "EMBEDDIUM"
  }

  /** The lower-cased name: the key of the implementation's source set. */
  function LowerName(i: Implementation): string
  {
    ToLower(Name(i))
  }

  /** The capitalized lower-cased name used inside derived names. */
  function CapitalName(i: Implementation): string
  {
    Capitalize(LowerName(i))
  }

  /** The two implementations never share a derived name. */
  lemma NamesDistinct(i: Implementation, j: Implementation)
    requires i != j
    ensures LowerName(i) != LowerName(j)
    ensures CapitalName(i) != CapitalName(j)
  {
    InitialsOf(i);
    InitialsOf(j);
    DifferAt(LowerName(i), LowerName(j), 0);
    DifferAt(CapitalName(i), CapitalName(j), 0);
  }

  /** How the derived names are spelled. */
  lemma Spelling()
    ensures LowerName(SODIUM) == "sodium" && LowerName(EMBEDDIUM) == "embeddium"
    ensures CapitalName(SODIUM) == "Sodium" && CapitalName(EMBEDDIUM) == "Embeddium"
  {
  }

  /** The first letter of the implementation's lower-case name. */
  function Initial(i: Implementation): char
  {
    match i
    case SODIUM => 's'
    case EMBEDDIUM => 'e'
  }

  /** The first letter of the implementation's capitalized name. */
  function CapitalInitial(i: Implementation): char
  {
    match i
    case SODIUM => 'S'
    case EMBEDDIUM => 'E'
  }

  lemma InitialsOf(i: Implementation)
    ensures |LowerName(i)| > 0 && LowerName(i)[0] == Initial(i)
    ensures |CapitalName(i)| > 0 && CapitalName(i)[0] == CapitalInitial(i)
  {
    Spelling();
  }

  datatype SodiumVersions = SodiumVersions(
    version: Option<string>,
    fabricApi: Option<string>,
    fabricRenderer: Option<string>)

  datatype IrisVersions = IrisVersions(
    version: Option<string>,
    antlr4Runtime: Option<string>,
    glslTransformer: Option<string>,
    jCpp: Option<string>)

  /** The extension's version slots, each with its final value if it has one. */
  datatype Versions = Versions(
    minecraft: Option<string>,
    sodium: SodiumVersions,
    embeddium: Option<string>,
    iris: IrisVersions,
    monocle: Option<string>)

  /** A Maven dependency notation `group:artifact:version`. */
  datatype Coordinate = Coordinate(group: string, artifact: string, version: string)

  function Render(c: Coordinate): string
  {
    c.group + ":" + c.artifact + ":" + c.version
  }

  /** `s` cut at its first colon. */
  function SplitAtColon(s: string): (r: Option<(string, string)>)
    ensures r.None? <==> ':' !in s
    ensures r.Some? ==> s == r.value.0 + ":" + r.value.1 && ':' !in r.value.0
  {
    if s == [] then None
    else if s[0] == ':' then Some(([], s[1..]))
    else
      match SplitAtColon(s[1..])
      case None => None
      case Some(parts) => Some(([s[0]] + parts.0, parts.1))
  }

  /** Reads a notation back into its three parts; the version is everything after
      the second colon. */
  function Parse(s: string): (r: Option<Coordinate>)
    ensures r.Some? ==> Render(r.value) == s
    ensures r.Some? ==> ':' !in r.value.group && ':' !in r.value.artifact
  {
    match SplitAtColon(s)
    case None => None
    case Some(first) =>
      match SplitAtColon(first.1)
      case None => None
      case Some(second) =>
        JoinAssoc(first.0, second.0, second.1);
        Some(Coordinate(first.0, second.0, second.1))
  }

  lemma JoinAssoc(a: string, b: string, c: string)
    ensures a + ":" + (b + ":" + c) == a + ":" + b + ":" + c
  {
  }

  lemma {:induction false} SplitAtColonOf(a: string, b: string)
    requires ':' !in a
    ensures SplitAtColon(a + ":" + b) == Some((a, b))
  {
    if a != [] {
      assert (a + ":" + b)[1..] == a[1..] + ":" + b;
      SplitAtColonOf(a[1..], b);
      assert [a[0]] + a[1..] == a;
    }
  }

  /** A notation whose group and artifact hold no colon reads back to itself. */
  lemma ParseRender(c: Coordinate)
    requires ':' !in c.group && ':' !in c.artifact
    ensures Parse(Render(c)) == Some(c)
  {
    assert Render(c) == c.group + ":" + (c.artifact + ":" + c.version);
    SplitAtColonOf(c.group, c.artifact + ":" + c.version);
    SplitAtColonOf(c.artifact, c.version);
  }

  /** `project.getDependencies().create(..)` of a notation built from a provider
      of the version: present exactly when the version is. */
  function Dependency(group: string, artifact: string, version: Option<string>): (r: Option<string>)
    requires ':' !in group && ':' !in artifact
    ensures r.Some? <==> version.Some?
    ensures r.Some? ==> Parse(r.value) == Some(Coordinate(group, artifact, version.value))
  {
    match version
    case None => None
    case Some(ver) =>
      ParseRender(Coordinate(group, artifact, ver));
      Some(Render(Coordinate(group, artifact, ver)))
  }

  /** `maven.modrinth:sodium:mc{minecraft}-{sodium}-{loader}`. */
  function SodiumCoordinate(p: Platform, v: Versions): (r: Option<string>)
    ensures r.Some? <==> v.minecraft.Some? && v.sodium.version.Some?
    ensures r.Some? ==> Parse(r.value) == Some(Coordinate("maven.modrinth", "sodium",
      "mc" + v.minecraft.value + "-" + v.sodium.version.value + "-" + LoaderSuffix(p)))
  {
    Dependency("maven.modrinth", "sodium",
      Zip(v.minecraft, v.sodium.version, (mc: string, s: string) => "mc" + mc + "-" + s + "-" + LoaderSuffix(p)))
  }

  /** `org.sinytra.forgified-fabric-api:fabric-api-base:{fabricApi}`. */
  function FabricApiCoordinate(v: Versions): (r: Option<string>)
    ensures r.Some? <==> v.sodium.fabricApi.Some?
    ensures r.Some? ==> Parse(r.value) == Some(Coordinate("org.sinytra.forgified-fabric-api", "fabric-api-base", v.sodium.fabricApi.value))
  {
    Dependency("org.sinytra.forgified-fabric-api", "fabric-api-base", v.sodium.fabricApi)
  }

  /** `org.sinytra.forgified-fabric-api:fabric-renderer-api-v1:{fabricRenderer}`. */
  function FabricRendererCoordinate(v: Versions): (r: Option<string>)
    ensures r.Some? <==> v.sodium.fabricRenderer.Some?
    ensures r.Some? ==> Parse(r.value) == Some(Coordinate("org.sinytra.forgified-fabric-api", "fabric-renderer-api-v1", v.sodium.fabricRenderer.value))
  {
    Dependency("org.sinytra.forgified-fabric-api", "fabric-renderer-api-v1", v.sodium.fabricRenderer)
  }

  /** `maven.modrinth:embeddium:{embeddium}+mc{minecraft}`. */
  function EmbeddiumCoordinate(v: Versions): (r: Option<string>)
    ensures r.Some? <==> v.embeddium.Some? && v.minecraft.Some?
    ensures r.Some? ==> Parse(r.value) == Some(Coordinate("maven.modrinth", "embeddium", v.embeddium.value + "+mc" + v.minecraft.value))
  {
    Dependency("maven.modrinth", "embeddium", Zip(v.embeddium, v.minecraft, (e: string, mc: string) => e + "+mc" + mc))
  }

  /** `maven.modrinth:monocle-iris:{monocle}`. */
  function MonocleCoordinate(v: Versions): (r: Option<string>)
    ensures r.Some? <==> v.monocle.Some?
    ensures r.Some? ==> Parse(r.value) == Some(Coordinate("maven.modrinth", "monocle-iris", v.monocle.value))
  {
    Dependency("maven.modrinth", "monocle-iris", v.monocle)
  }

  /** `maven.modrinth:iris:{iris}+{minecraft}-{loader}`. */
  function IrisCoordinate(p: Platform, v: Versions): (r: Option<string>)
    ensures r.Some? <==> v.iris.version.Some? && v.minecraft.Some?
    ensures r.Some? ==> Parse(r.value) == Some(Coordinate("maven.modrinth", "iris",
      v.iris.version.value + "+" + v.minecraft.value + "-" + LoaderSuffix(p)))
  {
    Dependency("maven.modrinth", "iris",
      Zip(v.iris.version, v.minecraft, (i: string, mc: string) => i + "+" + mc + "-" + LoaderSuffix(p)))
  }

  /** `org.antlr:antlr4-runtime:{antlr4Runtime}`. */
  function Antlr4RuntimeCoordinate(v: Versions): (r: Option<string>)
    ensures r.Some? <==> v.iris.antlr4Runtime.Some?
    ensures r.Some? ==> Parse(r.value) == Some(Coordinate("org.antlr", "antlr4-runtime", v.iris.antlr4Runtime.value))
  {
    Dependency("org.antlr", "antlr4-runtime", v.iris.antlr4Runtime)
  }

  /** `io.github.douira:glsl-transformer:{glslTransformer}`. */
  function GlslTransformerCoordinate(v: Versions): (r: Option<string>)
    ensures r.Some? <==> v.iris.glslTransformer.Some?
    ensures r.Some? ==> Parse(r.value) == Some(Coordinate("io.github.douira", "glsl-transformer", v.iris.glslTransformer.value))
  {
    Dependency("io.github.douira", "glsl-transformer", v.iris.glslTransformer)
  }

  /** `org.anarres:jcpp:{jCpp}`. */
  function JCppCoordinate(v: Versions): (r: Option<string>)
    ensures r.Some? <==> v.iris.jCpp.Some?
    ensures r.Some? ==> Parse(r.value) == Some(Coordinate("org.anarres", "jcpp", v.iris.jCpp.value))
  {
    Dependency("org.anarres", "jcpp", v.iris.jCpp)
  }

  /** The Fabric and NeoForge builds of Sodium and of Iris are different
      artifacts for the same versions. */
  lemma LoaderCoordinatesDiffer(v: Versions)
    ensures SodiumCoordinate(FARBIC, v).Some? ==> SodiumCoordinate(FARBIC, v) != SodiumCoordinate(NEOFORGE, v)
    ensures IrisCoordinate(FARBIC, v).Some? ==> IrisCoordinate(FARBIC, v) != IrisCoordinate(NEOFORGE, v)
  {
    if SodiumCoordinate(FARBIC, v).Some? {
      var fabric := "mc" + v.minecraft.value + "-" + v.sodium.version.value + "-" + "fabric";
      var neo := "mc" + v.minecraft.value + "-" + v.sodium.version.value + "-" + "neoforge";
      assert |fabric| != |neo|;
    }
    if IrisCoordinate(FARBIC, v).Some? {
      var fabric := v.iris.version.value + "+" + v.minecraft.value + "-" + "fabric";
      var neo := v.iris.version.value + "+" + v.minecraft.value + "-" + "neoforge";
      assert |fabric| != |neo|;
    }
  }
}
