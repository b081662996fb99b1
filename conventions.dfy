/** What the current plugin does when it is applied, before the build script
    runs (`ProjectPlugin.apply`, `configureConventions`, `parseProperty`):
    it creates the extension, switches it on or off from a project property,
    and gives every version slot a project property as its convention. */
module Conventions {
  import opened Common
  import opened Model
  import opened Gradle
  import opened Dispatch
  import opened Extension
  import opened Finalize
  import Sel = Selections

  /** `Boolean.parseBoolean`: "true" in any letter case, and nothing else. */
  predicate ParseBoolean(s: string)
  {
    EqualsIgnoreCase(s, "true")
  }

  /** A value parses as true exactly when it lower-cases to "true". */
  lemma ParseBooleanLower(s: string)
    ensures ParseBoolean(s) <==> ToLower(s) == "true"
  {
    var t := "true";
    assert forall k :: 0 <= k < |t| ==> LowerChar(t[k]) == t[k];
    if ParseBoolean(s) {
      assert forall k :: 0 <= k < |t| ==> ToLower(s)[k] == t[k];
    }
    if ToLower(s) == t {
      assert forall k :: 0 <= k < |s| ==> LowerChar(s[k]) == ToLower(s)[k];
    }
  }

  /** Only the word itself counts: no other spelling of a yes, and no padding. */
  lemma ParseBooleanExamples()
    ensures ParseBoolean("true") && ParseBoolean("TRUE") && ParseBoolean("True")
    ensures !ParseBoolean("false") && !ParseBoolean("yes") && !ParseBoolean("1") && !ParseBoolean("")
    ensures !ParseBoolean(" true") && !ParseBoolean("truee")
  {
    ParseBooleanLower("true");
    ParseBooleanLower("TRUE");
    ParseBooleanLower("True");
    assert "TRUE"[0] == 'T' && "True"[0] == 'T';
  }

  /** The project property that switches the plugin on. */
  const EnabledProperty := "compat.shaders.enabled"

  /** `parseProperty`: false for a property that is not set, otherwise the
      property's text parsed as a boolean. */
  predicate ParseProperty(props: map<string, string>, key: string)
  {
    key in props && ParseBoolean(props[key])
  }

  /** A property switches a flag on exactly when it is set and lower-cases to
      "true"; an absent property is false. */
  lemma ParsePropertyMeaning(props: map<string, string>, key: string)
    ensures ParseProperty(props, key) <==> key in props && ToLower(props[key]) == "true"
    ensures key !in props ==> !ParseProperty(props, key)
  {
    if key in props {
      ParseBooleanLower(props[key]);
    }
  }

  /** `gradleProperty(key)`: a provider with the property's value, if set. */
  function Property(props: map<string, string>, key: string): Option<string>
  {
    if key in props then Some(props[key]) else None
  }

  /** `Property.convention(..)`: the slot's own value if the build script set
      one, otherwise the convention's. */
  function Or(explicit: Option<string>, convention: Option<string>): Option<string>
  {
    if explicit.Some? then explicit else convention
  }

  /** The property each slot takes as its convention, in the order
      `configureConventions` sets them. */
  const VersionProperties: seq<string> := [
    "minecraft.version",
    "compat.shaders.versions.embeddium",
    "compat.shaders.versions.monocle",
    "compat.shaders.versions.sodium.version",
    "compat.shaders.versions.sodium.fabric.api",
    "compat.shaders.versions.sodium.fabric.renderer",
    "compat.shaders.versions.iris.version",
    "compat.shaders.versions.iris.antlr4.runtime",
    "compat.shaders.versions.iris.glsl.transformer",
    "compat.shaders.versions.iris.jcpp"
  ]

  /** The final version slots: what the build script set, and the property
      conventions for the slots it left unset. */
  function WithConventions(explicit: Versions, props: map<string, string>): Versions
  {
    Versions(
      Or(explicit.minecraft, Property(props, VersionProperties[0])),
      SodiumVersions(
        Or(explicit.sodium.version, Property(props, VersionProperties[3])),
        Or(explicit.sodium.fabricApi, Property(props, VersionProperties[4])),
        Or(explicit.sodium.fabricRenderer, Property(props, VersionProperties[5]))),
      Or(explicit.embeddium, Property(props, VersionProperties[1])),
      IrisVersions(
        Or(explicit.iris.version, Property(props, VersionProperties[6])),
        Or(explicit.iris.antlr4Runtime, Property(props, VersionProperties[7])),
        Or(explicit.iris.glslTransformer, Property(props, VersionProperties[8])),
        Or(explicit.iris.jCpp, Property(props, VersionProperties[9]))),
      Or(explicit.monocle, Property(props, VersionProperties[2])))
  }

  /** No slot set, as a build script that sets none leaves them. */
  const Unset := Versions(None, SodiumVersions(None, None, None), None, IrisVersions(None, None, None, None), None)

  /** Conventions only fill gaps: slots the build script set keep their
      values, and without properties nothing is filled. */
  lemma ConventionsFillGaps(explicit: Versions, props: map<string, string>)
    ensures Complete(explicit) ==> WithConventions(explicit, props) == explicit
    ensures WithConventions(explicit, map[]) == explicit
    ensures WithConventions(Unset, props).minecraft == Property(props, "minecraft.version")
  {
  }

  /** With every version property set, every slot has a value, so validation
      passes on either platform for any selection. */
  lemma PropertiesValidate(explicit: Versions, props: map<string, string>, p: Platform, impls: set<Implementation>)
    requires forall k :: 0 <= k < |VersionProperties| ==> VersionProperties[k] in props
    ensures Complete(WithConventions(explicit, props))
    ensures ValidateRequiredVersions(p, impls, WithConventions(explicit, props)) == None
  {
    CompleteValidates(p, impls, WithConventions(explicit, props));
  }

  /** A build with no version set anywhere stops at the first check: the
      Minecraft version. */
  lemma NothingSetMissesMinecraft(p: Platform, impls: set<Implementation>)
    ensures ValidateRequiredVersions(p, impls, WithConventions(Unset, map[])) == Some(MinecraftVersionMissing)
  {
    ValidationOrder(p, impls, WithConventions(Unset, map[]));
  }

  /** `configureConventions`: `setIsEnabled` with the parsed property, a
      dispatching setter like any other. */
  method ConfigureConventions(ext: ShadersExtension, props: map<string, string>)
    requires ext.Valid()
    modifies ext, ext.project
    ensures ext.Valid() && ext.State() == Sel.Apply(old(ext.State()), Sel.SetIsEnabled(ParseProperty(props, EnabledProperty)))
    ensures ext.project.Snapshot()
         == DispatchAll(old(ext.project.Snapshot()), ext.loader, Sel.Fired(old(ext.State()), Sel.SetIsEnabled(ParseProperty(props, EnabledProperty))), ext.versions)
  {
    ext.SetIsEnabled(ParseProperty(props, EnabledProperty));
  }

  /** `apply`: the extension is created with the final version slots and
      switched by the property. It has no platform yet, so nothing is
      dispatched and the project is unchanged. */
  method ApplyPlugin(project: Project, props: map<string, string>, explicit: Versions, ghost loader: Platform)
    returns (ext: ShadersExtension)
    requires ToolchainOf(loader) == project.toolchain && Host(project.Snapshot(), loader)
    modifies project
    ensures ext.Valid() && ext.project == project && ext.loader == loader
    ensures ext.versions == WithConventions(explicit, props)
    ensures ext.State() == Sel.Selection(ParseProperty(props, EnabledProperty), None, {})
    ensures project.Snapshot() == old(project.Snapshot())
  {
    ext := new ShadersExtension(project, WithConventions(explicit, props), loader);
    Sel.FreshIsIdle();
    ConfigureConventions(ext, props);
  }
}
