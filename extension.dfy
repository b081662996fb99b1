/** The current `ShadersExtension` (`extensions/ShadersExtension.java`): the
    mutable selection, whose dispatching setters run `configure()`, which hands
    every selected implementation to the plugin's callback in turn. */
module Extension {
  import opened Common
  import opened Gradle
  import opened Model
  import opened Runs
  import opened Dispatch
  import Sel = Selections

  /** The project after the callback has run for each pair in turn, from `h`
      on; every pair carries the extension's platform `p`, so only its
      implementation is read. */
  function DispatchAll(h: HostState, p: Platform, pairs: seq<(Platform, Implementation)>, v: Versions): (r: HostState)
    requires Host(h, p)
    ensures Host(r, p)
    decreases |pairs|
  {
    if pairs == [] then h
    else
      var r0 := DispatchAll(h, p, pairs[..|pairs| - 1], v);
      OnConfiguredHost(r0, p, pairs[|pairs| - 1].1, v);
      OnConfigured(r0, p, pairs[|pairs| - 1].1, v)
  }

  /** The callbacks for the first `k + 1` pairs are those for the first `k`,
      then the callback for pair `k`. */
  lemma DispatchAllSnoc(h: HostState, p: Platform, pairs: seq<(Platform, Implementation)>, k: nat, v: Versions)
    requires Host(h, p) && k < |pairs|
    ensures DispatchAll(h, p, pairs[..k + 1], v) == OnConfigured(DispatchAll(h, p, pairs[..k], v), p, pairs[k].1, v)
  {
    assert pairs[..k + 1][..k] == pairs[..k];
  }

  /** The last callback adds its pair's source set and run, if missing, and
      removes neither a source set nor a run. */
  lemma DispatchAllGrows(h: HostState, p: Platform, pairs: seq<(Platform, Implementation)>, v: Versions)
    requires Host(h, p) && pairs != []
    ensures var r0 := DispatchAll(h, p, pairs[..|pairs| - 1], v);
            var r := DispatchAll(h, p, pairs, v);
            r.sourceSets.Keys == r0.sourceSets.Keys + {LowerName(pairs[|pairs| - 1].1)}
            && r.runs.Keys == r0.runs.Keys + {RunName(pairs[|pairs| - 1].1)}
  {
    OnConfiguredGrows(DispatchAll(h, p, pairs[..|pairs| - 1], v), p, pairs[|pairs| - 1].1, v);
  }

  /** Every implementation among the pairs has a source set among `sourceSets`
      and a run among `runs`. */
  predicate Covers(pairs: seq<(Platform, Implementation)>, sourceSets: set<string>, runs: set<string>)
  {
    forall q :: q in pairs ==> LowerName(q.1) in sourceSets && RunName(q.1) in runs
  }

  /** Covering all pairs but the last, plus the last pair's names, covers all. */
  lemma CoversSnoc(pairs: seq<(Platform, Implementation)>, sourceSets: set<string>, runs: set<string>)
    requires pairs != [] && Covers(pairs[..|pairs| - 1], sourceSets, runs)
    ensures Covers(pairs, sourceSets + {LowerName(pairs[|pairs| - 1].1)}, runs + {RunName(pairs[|pairs| - 1].1)})
  {
    assert pairs == pairs[..|pairs| - 1] + [pairs[|pairs| - 1]];
  }

  /** After the callbacks, every dispatched implementation has its source set
      and its run, and nothing that existed before is gone. */
  lemma {:induction false} DispatchAllProvisions(h: HostState, p: Platform, pairs: seq<(Platform, Implementation)>, v: Versions)
    requires Host(h, p)
    ensures var r := DispatchAll(h, p, pairs, v);
            h.sourceSets.Keys <= r.sourceSets.Keys && h.runs.Keys <= r.runs.Keys
            && Covers(pairs, r.sourceSets.Keys, r.runs.Keys)
    decreases |pairs|
  {
    if pairs != [] {
      var init := pairs[..|pairs| - 1];
      DispatchAllProvisions(h, p, init, v);
      DispatchAllGrows(h, p, pairs, v);
      var r0 := DispatchAll(h, p, init, v);
      CoversSnoc(pairs, r0.sourceSets.Keys, r0.runs.Keys);
    }
  }

  /** One turn of `configure()`'s loop: the callback for pair `k`, after those
      for the pairs before it. */
  method DispatchNext(project: Project, ghost h: HostState, p: Platform, ghost pairs: seq<(Platform, Implementation)>, k: nat, i: Implementation, v: Versions)
    requires Host(h, p) && k < |pairs| && pairs[k].1 == i
    requires project.Snapshot() == DispatchAll(h, p, pairs[..k], v)
    modifies project
    ensures project.Snapshot() == DispatchAll(h, p, pairs[..k + 1], v)
  {
    DispatchAllSnoc(h, p, pairs, k, v);
    OnConfiguredIn(project, p, i, v);
  }

  class ShadersExtension {
    var isEnabled: bool
    var platform: Option<Platform>
    var implementations: set<Implementation>
    /** The version slots, at their final values. */
    const versions: Versions
    /** The project the callback provisions. */
    const project: Project
    /** The platform the project's toolchain is for; the only one that can be
        set without the host's lookups failing. */
    ghost const loader: Platform

    function State(): Sel.Selection
      reads this
    {
      Sel.Selection(isEnabled, platform, implementations)
    }

    ghost predicate Valid()
      reads this, project
    {
      && ToolchainOf(loader) == project.toolchain
      && Host(project.Snapshot(), loader)
      && (platform.Some? ==> platform.value == loader)
    }

    /** A new extension: disabled, no platform, no implementation. */
    constructor (project: Project, versions: Versions, ghost loader: Platform)
      requires ToolchainOf(loader) == project.toolchain && Host(project.Snapshot(), loader)
      ensures Valid() && State() == Sel.Fresh
      ensures this.project == project && this.versions == versions && this.loader == loader
    {
      this.isEnabled := false;
      this.platform := None;
      this.implementations := {};
      this.versions := versions;
      this.project := project;
      this.loader := loader;
    }

    /** `configure()`: when enabled, with a platform and at least one
        implementation, the callback for each implementation in `EnumSet`
        order. */
    method Configure()
      requires Valid()
      modifies project
      ensures Valid()
      ensures project.Snapshot() == DispatchAll(old(project.Snapshot()), loader, Sel.Dispatches(State()), versions)
    {
      ghost var h := project.Snapshot();
      ghost var pairs := Sel.Dispatches(State());
      if isEnabled && platform.Some? && implementations != {} {
        var order := Ordered(implementations);
        assert |pairs| == |order| && pairs[0..] == pairs;
        var k := 0;
        while k < |order|
          invariant 0 <= k <= |order|
          invariant project.Snapshot() == DispatchAll(h, loader, pairs[..k], versions)
        {
          assert pairs[k].1 == order[k];
          DispatchNext(project, h, platform.value, pairs, k, order[k], versions);
          k := k + 1;
        }
        assert pairs[..k] == pairs;
      }
    }

    /** `setIsEnabled(..)`: sets the flag, then `configure()`. */
    method SetIsEnabled(enabled: bool)
      requires Valid()
      modifies this, project
      ensures Valid() && State() == Sel.Apply(old(State()), Sel.SetIsEnabled(enabled))
      ensures project.Snapshot() == DispatchAll(old(project.Snapshot()), loader, Sel.Fired(old(State()), Sel.SetIsEnabled(enabled)), versions)
    {
      isEnabled := enabled;
      Configure();
    }

    /** `enabled(..)`: sets the flag and nothing else. */
    method Enabled(enabled: bool)
      requires Valid()
      modifies this
      ensures Valid() && State() == Sel.Apply(old(State()), Sel.Enabled(enabled))
    {
      isEnabled := enabled;
    }

    /** `enable()`: sets the flag, then `configure()`. */
    method Enable()
      requires Valid()
      modifies this, project
      ensures Valid() && State() == Sel.Apply(old(State()), Sel.Enable)
      ensures project.Snapshot() == DispatchAll(old(project.Snapshot()), loader, Sel.Fired(old(State()), Sel.Enable), versions)
    {
      isEnabled := true;
      Configure();
    }

    /** `disable()`: clears the flag and nothing else. */
    method Disable()
      requires Valid()
      modifies this
      ensures Valid() && State() == Sel.Apply(old(State()), Sel.Disable)
    {
      isEnabled := false;
    }

    /** `setPlatform(..)`: overwrites the platform, then `configure()`. */
    method SetPlatform(p: Platform)
      requires Valid() && ToolchainOf(p) == project.toolchain
      modifies this, project
      ensures Valid() && State() == Sel.Apply(old(State()), Sel.SetPlatform(p))
      ensures project.Snapshot() == DispatchAll(old(project.Snapshot()), loader, Sel.Fired(old(State()), Sel.SetPlatform(p)), versions)
    {
      assert p == loader;
      platform := Some(p);
      Configure();
    }

    /** `platform(..)`: the same as `setPlatform(..)`. */
    method UsePlatform(p: Platform)
      requires Valid() && ToolchainOf(p) == project.toolchain
      modifies this, project
      ensures Valid() && State() == Sel.Apply(old(State()), Sel.SetPlatform(p))
      ensures project.Snapshot() == DispatchAll(old(project.Snapshot()), loader, Sel.Fired(old(State()), Sel.SetPlatform(p)), versions)
    {
      SetPlatform(p);
    }

    /** `neoforge()`: `setPlatform(NEOFORGE)`. */
    method NeoForge()
      requires Valid() && ToolchainOf(NEOFORGE) == project.toolchain
      modifies this, project
      ensures Valid() && State() == Sel.Apply(old(State()), Sel.SetPlatform(NEOFORGE))
      ensures project.Snapshot() == DispatchAll(old(project.Snapshot()), loader, Sel.Fired(old(State()), Sel.SetPlatform(NEOFORGE)), versions)
    {
      UsePlatform(NEOFORGE);
    }

    /** `fabric()`: `setPlatform(FARBIC)`. */
    method Fabric()
      requires Valid() && ToolchainOf(FARBIC) == project.toolchain
      modifies this, project
      ensures Valid() && State() == Sel.Apply(old(State()), Sel.SetPlatform(FARBIC))
      ensures project.Snapshot() == DispatchAll(old(project.Snapshot()), loader, Sel.Fired(old(State()), Sel.SetPlatform(FARBIC)), versions)
    {
      UsePlatform(FARBIC);
    }

    /** `implementation(..)`: adds to the set, then `configure()`. */
    method AddImplementation(i: Implementation)
      requires Valid()
      modifies this, project
      ensures Valid() && State() == Sel.Apply(old(State()), Sel.AddImplementation(i))
      ensures project.Snapshot() == DispatchAll(old(project.Snapshot()), loader, Sel.Fired(old(State()), Sel.AddImplementation(i)), versions)
    {
      implementations := implementations + {i};
      Configure();
    }

    /** `sodium()`: `implementation(SODIUM)`. */
    method Sodium()
      requires Valid()
      modifies this, project
      ensures Valid() && State() == Sel.Apply(old(State()), Sel.AddImplementation(SODIUM))
      ensures project.Snapshot() == DispatchAll(old(project.Snapshot()), loader, Sel.Fired(old(State()), Sel.AddImplementation(SODIUM)), versions)
    {
      AddImplementation(SODIUM);
    }

    /** `embeddium()`: `implementation(EMBEDDIUM)`. */
    method Embeddium()
      requires Valid()
      modifies this, project
      ensures Valid() && State() == Sel.Apply(old(State()), Sel.AddImplementation(EMBEDDIUM))
      ensures project.Snapshot() == DispatchAll(old(project.Snapshot()), loader, Sel.Fired(old(State()), Sel.AddImplementation(EMBEDDIUM)), versions)
    {
      AddImplementation(EMBEDDIUM);
    }
  }
}
