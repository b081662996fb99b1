/** The older plugin's last word on the build (`plugin/.../ProjectPlugin.java`,
    the `afterEvaluate` block, `validateRequiredVersions` and
    `getRunConfigurations`) and the conventions it sets when applied
    (`configureConventions`), including the run names read from a
    comma-separated project property. */
module LegacyFinalize {
  import opened Common
  import opened Gradle
  import opened Model
  import opened SourceSets
  import opened Runs
  import opened Finalize
  import opened Conventions
  import opened Legacy
  import Sel = Selections

  /** The text between the commas of `s`, every comma splitting, empty pieces
      kept. */
  function Pieces(s: string): (r: seq<string>)
    ensures |r| >= 1
    decreases |s|
  {
    if s == [] then [""]
    else
      var rest := Pieces(s[1..]);
      if s[0] == ',' then [""] + rest else [[s[0]] + rest[0]] + rest[1..]
  }

  /** The pieces written out again, a comma between each two. */
  function Join(pieces: seq<string>): string
    requires |pieces| >= 1
    decreases |pieces|
  {
    if |pieces| == 1 then pieces[0] else pieces[0] + "," + Join(pieces[1..])
  }

  /** Joining the pieces gives back the text. */
  lemma {:induction false} JoinPieces(s: string)
    ensures Join(Pieces(s)) == s
    decreases |s|
  {
    if s != [] {
      var rest := Pieces(s[1..]);
      JoinPieces(s[1..]);
      if s[0] == ',' {
        assert ([""] + rest)[1..] == rest;
        assert s == [','] + s[1..];
      } else if |rest| == 1 {
        assert s == [s[0]] + s[1..];
      } else {
        var ps := [[s[0]] + rest[0]] + rest[1..];
        assert ps[1..] == rest[1..];
        assert Join(rest) == rest[0] + "," + Join(rest[1..]);
        assert s == [s[0]] + s[1..];
      }
    }
  }

  /** No piece contains a comma. */
  lemma {:induction false} PiecesCommaFree(s: string)
    ensures forall k :: 0 <= k < |Pieces(s)| ==> ',' !in Pieces(s)[k]
    decreases |s|
  {
    if s != [] {
      var rest := Pieces(s[1..]);
      PiecesCommaFree(s[1..]);
      if s[0] != ',' {
        var ps := [[s[0]] + rest[0]] + rest[1..];
        assert forall k :: 1 <= k < |ps| ==> ps[k] == rest[k];
      } else {
        assert forall k :: 1 <= k < |Pieces(s)| ==> Pieces(s)[k] == rest[k - 1];
      }
    }
  }

  /** A text of commas only splits into empty pieces. */
  lemma {:induction false} PiecesOfCommas(s: string)
    requires forall k :: 0 <= k < |s| ==> s[k] == ','
    ensures forall k :: 0 <= k < |Pieces(s)| ==> Pieces(s)[k] == ""
    decreases |s|
  {
    if s != [] {
      PiecesOfCommas(s[1..]);
      assert forall k :: 1 <= k < |Pieces(s)| ==> Pieces(s)[k] == Pieces(s[1..])[k - 1];
    }
  }

  /** Empty pieces join to commas only. */
  lemma {:induction false} JoinOfEmpties(pieces: seq<string>)
    requires |pieces| >= 1 && forall k :: 0 <= k < |pieces| ==> pieces[k] == ""
    ensures forall k :: 0 <= k < |Join(pieces)| ==> Join(pieces)[k] == ','
    decreases |pieces|
  {
    if |pieces| > 1 {
      JoinOfEmpties(pieces[1..]);
      assert Join(pieces) == "," + Join(pieces[1..]);
    }
  }

  /** The pieces without the empty ones at the end. */
  function DropTrailingEmpty(pieces: seq<string>): (r: seq<string>)
    ensures r <= pieces
    ensures r == [] || r[|r| - 1] != ""
    ensures forall k :: |r| <= k < |pieces| ==> pieces[k] == ""
    decreases |pieces|
  {
    if pieces != [] && pieces[|pieces| - 1] == "" then DropTrailingEmpty(pieces[..|pieces| - 1]) else pieces
  }

  /** Java's `String.split(",")`: a text without a comma is its own single
      piece (the empty text included); otherwise the pieces between the commas
      with the empty ones at the end removed. */
  function Split(s: string): seq<string>
  {
    if ',' !in s then [s] else DropTrailingEmpty(Pieces(s))
  }

  /** Splitting gives the comma-free pieces of the text, less empty ones at the
      end: written out again with the dropped ones they are the text. */
  lemma SplitPieces(s: string)
    ensures Split(s) <= Pieces(s) && Join(Pieces(s)) == s
    ensures forall k :: 0 <= k < |Split(s)| ==> ',' !in Split(s)[k]
    ensures forall k :: |Split(s)| <= k < |Pieces(s)| ==> Pieces(s)[k] == ""
  {
    JoinPieces(s);
    PiecesCommaFree(s);
    if ',' !in s {
      NoCommaOnePiece(s);
    }
  }

  /** A text without a comma is a single piece. */
  lemma {:induction false} NoCommaOnePiece(s: string)
    requires ',' !in s
    ensures Pieces(s) == [s]
    decreases |s|
  {
    if s != [] {
      assert ',' !in s[1..];
      NoCommaOnePiece(s[1..]);
      assert s == [s[0]] + s[1..];
    }
  }

  /** Splitting gives no piece at all exactly for a non-empty text of commas
      only; the empty text gives one empty piece. */
  lemma SplitEmpty(s: string)
    ensures Split(s) == [] <==> s != "" && forall k :: 0 <= k < |s| ==> s[k] == ','
    ensures Split("") == [""]
  {
    if s != "" && forall k :: 0 <= k < |s| ==> s[k] == ',' {
      assert s[0] in s;
      PiecesOfCommas(s);
      var ps := Pieces(s);
      assert forall k :: 0 <= k < |ps| ==> ps[k] == "";
      DropAllEmpty(ps);
    }
    if Split(s) == [] {
      if ',' in s {
        var ps := Pieces(s);
        JoinPieces(s);
        JoinOfEmpties(ps);
      }
    }
  }

  /** Dropping the empty pieces at the end of only empty pieces leaves none. */
  lemma {:induction false} DropAllEmpty(pieces: seq<string>)
    requires forall k :: 0 <= k < |pieces| ==> pieces[k] == ""
    ensures DropTrailingEmpty(pieces) == []
    decreases |pieces|
  {
    if pieces != [] {
      DropAllEmpty(pieces[..|pieces| - 1]);
    }
  }

  /** As Java splits: two names around a comma are two pieces. */
  lemma SplitPair(x: char, y: char)
    requires x != ',' && y != ','
    ensures Split([x, ',', y]) == [[x], [y]]
  {
    var s := [x, ',', y];
    assert s[1..] == [',', y] && s[1..][1..] == [y] && [y][1..] == [];
    NoCommaOnePiece([y]);
    assert Pieces([',', y]) == ["", [y]];
    assert [x] + "" == [x] && ["", [y]][1..] == [[y]];
    assert Pieces(s) == [[x], [y]];
    assert s[1] == ',';
  }

  /** As Java splits: an empty piece in front is kept, empty pieces at the end
      are dropped. */
  lemma SplitEnds(x: char)
    requires x != ','
    ensures Split([',', x, ',', ',']) == ["", [x]]
  {
    var s := [',', x, ',', ','];
    assert s[1..] == [x, ',', ','] && s[2..] == [',', ','] && s[3..] == [','] && s[4..] == [];
    assert Pieces([',']) == ["", ""];
    assert Pieces([',', ',']) == ["", "", ""];
    assert [x] + "" == [x] && ["", "", ""][1..] == ["", ""];
    assert Pieces([x, ',', ',']) == [[x], "", ""];
    assert Pieces(s) == ["", [x], "", ""];
    assert s[0] == ',';
    var ps := Pieces(s);
    assert ps[..3] == ["", [x], ""] && ps[..3][..2] == ["", [x]];
    assert DropTrailingEmpty(ps) == DropTrailingEmpty(ps[..3]);
    assert DropTrailingEmpty(ps[..3]) == DropTrailingEmpty(["", [x]]);
    assert DropTrailingEmpty(["", [x]]) == ["", [x]];
  }

  /** The project property listing the runs that get install tasks. */
  const RunsProperty := "compat.shaders.runs"

  /** The convention of `runs`: the property's pieces, as a set, or the
      plain client run when the property is not set. */
  function RunsConvention(props: map<string, string>): set<string>
  {
    if RunsProperty in props then (set r | r in Split(props[RunsProperty])) else {Client}
  }

  /** The convention names no run at all exactly when the property is set to
      commas only; an empty property still names one run, the empty name. */
  lemma RunsConventionEmpty(props: map<string, string>)
    ensures RunsConvention(props) == {} <==>
              RunsProperty in props && props[RunsProperty] != "" && forall k :: 0 <= k < |props[RunsProperty]| ==> props[RunsProperty][k] == ','
    ensures RunsProperty !in props ==> RunsConvention(props) == {Client}
    ensures RunsProperty in props && props[RunsProperty] == "" ==> RunsConvention(props) == {""}
  {
    if RunsProperty in props {
      var s := props[RunsProperty];
      SplitEmpty(s);
      if Split(s) != [] {
        assert Split(s)[0] in RunsConvention(props);
      }
    }
  }

  /** `validateRequiredVersions` for the one implementation: Minecraft, the
      platform's Iris slots, then the implementation's. */
  function ValidateRequiredVersions(p: Platform, i: Implementation, v: Versions): Option<Problem>
  {
    FirstMissing(MinecraftSlots(v) + IrisSlots(p, v) + ImplementationSlots(p, i, v))
  }

  /** It is the current validation of a selection of that one implementation. */
  lemma ValidationAsCurrent(p: Platform, i: Implementation, v: Versions)
    ensures ValidateRequiredVersions(p, i, v) == Finalize.ValidateRequiredVersions(p, {i}, v)
  {
    OrderedSingle(i);
    assert [i][1..] == [];
    assert ImplementationsSlots(p, [i], v) == ImplementationSlots(p, i, v) + [];
    assert ImplementationSlots(p, i, v) + [] == ImplementationSlots(p, i, v);
  }

  /** A one-element set is visited as that element alone. */
  lemma OrderedSingle(i: Implementation)
    ensures Ordered({i}) == [i]
  {
    var r := Ordered({i});
    assert r[0] in {i};
  }

  /** The problem `afterEvaluate` stops the build with, if any, given what the
      shared downloading configuration holds and the run names. An
      unsupported implementation is reported before any version. */
  function Outcome(s: Choice, v: Versions, downloading: seq<string>, runs: set<string>): Option<Problem>
  {
    if !s.isEnabled then None
    else if s.platform.None? then Some(PlatformMissing)
    else if s.implementation.None? then Some(ImplementationMissing)
    else if !IsSupported(s.implementation.value, s.platform.value) then Some(ImplementationUnsupported)
    else if ValidateRequiredVersions(s.platform.value, s.implementation.value, v).Some? then
      ValidateRequiredVersions(s.platform.value, s.implementation.value, v)
    else if downloading != [] && runs == {} then Some(RunsMissing)
    else None
  }

  /** The current selection holding the same one implementation, or none. */
  function AsSelection(s: Choice): Sel.Selection
  {
    Sel.Selection(s.isEnabled, s.platform, if s.implementation.Some? then {s.implementation.value} else {})
  }

  /** Against the current plugin: with nothing to download, or with runs to
      install into, both generations stop with the same problem on the same
      selection; `runs.missing` is this generation's own, raised exactly when
      the current one would let the build go on. */
  lemma OutcomeAgainstCurrent(s: Choice, v: Versions, downloading: seq<string>, runs: set<string>)
    ensures downloading == [] || runs != {} ==> Outcome(s, v, downloading, runs) == Finalize.Outcome(AsSelection(s), v)
    ensures Outcome(s, v, downloading, runs) == Some(RunsMissing) <==>
              s.isEnabled && Finalize.Outcome(AsSelection(s), v) == None && downloading != [] && runs == {}
  {
    if s.isEnabled && s.platform.Some? && s.implementation.Some? {
      var p := s.platform.value;
      var i := s.implementation.value;
      var missing := Finalize.ValidateRequiredVersions(p, {i}, v);
      ValidationAsCurrent(p, i, v);
      OrderedSingle(i);
      assert [i][1..] == [];
      assert Checks(p, [i], missing) == if !IsSupported(i, p) then Some(ImplementationUnsupported) else missing;
      ValidationFindsVersions(p, {i}, v);
    }
  }

  /** Embeddium on NeoForge with every version set has mods to download; with
      the runs property set to a lone comma there is no run to install them
      into, and the build stops with `runs.missing`. */
  lemma RunsMissingReachable(v: Versions)
    requires Complete(v)
    ensures var runs := RunsConvention(map[RunsProperty := ","]);
            runs == {}
            && Outcome(Choice(true, Some(NEOFORGE), Some(EMBEDDIUM)), v, ToSeq(MonocleCoordinate(v)), runs) == Some(RunsMissing)
  {
    RunsConventionEmpty(map[RunsProperty := ","]);
    CompleteValidates(NEOFORGE, {EMBEDDIUM}, v);
    ValidationAsCurrent(NEOFORGE, EMBEDDIUM, v);
  }

  /** The install tasks of the runs (name to working directory): one per run,
      named after it, targeting the `mods` directory in its working
      directory. */
  function Tasks(runs: map<string, string>, names: set<string>): (r: map<string, string>)
    requires names <= runs.Keys && TaskNamesApart(runs.Keys)
  {
    map n | n in names :: InstallTaskName(n) := ModsDir(runs[n])
  }

  /** No two runs share an install task name (registering a taken name
      fails). */
  predicate TaskNamesApart(names: set<string>)
  {
    forall a, b :: a in names && b in names && InstallTaskName(a) == InstallTaskName(b) ==> a == b
  }

  /** A run not yet visited has no task yet. */
  lemma TaskAbsent(runs: map<string, string>, done: set<string>, n: string)
    requires TaskNamesApart(runs.Keys) && done <= runs.Keys && n in runs && n !in done
    ensures InstallTaskName(n) !in Tasks(runs, done)
  {
  }

  /** The tasks after one more run have the keys of those before, plus the
      run's own. */
  lemma TasksStepKeys(runs: map<string, string>, done: set<string>, n: string)
    requires TaskNamesApart(runs.Keys) && done <= runs.Keys && n in runs && n !in done
    ensures Tasks(runs, done + {n}).Keys == Tasks(runs, done).Keys + {InstallTaskName(n)}
  {
    var t := Tasks(runs, done);
    var a := Tasks(runs, done + {n});
    forall k | k in a
      ensures k in t || k == InstallTaskName(n)
    {
      var m :| m in done + {n} && InstallTaskName(m) == k;
    }
    forall k | k in t
      ensures k in a
    {
      var m :| m in done && InstallTaskName(m) == k;
    }
  }

  /** Every earlier task keeps its working directory after one more run. */
  lemma TasksStepValues(runs: map<string, string>, done: set<string>, n: string, k: string)
    requires TaskNamesApart(runs.Keys) && done <= runs.Keys && n in runs && n !in done
    requires k in Tasks(runs, done)
    ensures k in Tasks(runs, done + {n}) && Tasks(runs, done + {n})[k] == Tasks(runs, done)[k]
  {
    var m :| m in done && InstallTaskName(m) == k;
    assert Tasks(runs, done)[k] == ModsDir(runs[m]);
  }

  /** One more run's task. */
  lemma TasksStep(runs: map<string, string>, done: set<string>, n: string)
    requires TaskNamesApart(runs.Keys) && done <= runs.Keys && n in runs && n !in done
    ensures Tasks(runs, done + {n}) == Tasks(runs, done)[InstallTaskName(n) := ModsDir(runs[n])]
  {
    TaskAbsent(runs, done, n);
    TasksStepKeys(runs, done, n);
    var t := Tasks(runs, done);
    var a := Tasks(runs, done + {n});
    var b := t[InstallTaskName(n) := ModsDir(runs[n])];
    forall k | k in t
      ensures a[k] == b[k]
    {
      TasksStepValues(runs, done, n, k);
    }
    assert a[InstallTaskName(n)] == b[InstallTaskName(n)];
    assert a.Keys == b.Keys;
  }

  /** Registering one more task on top of those already there. */
  lemma UnionUpdate(a: map<string, string>, b: map<string, string>, k: string, x: string)
    ensures (a + b)[k := x] == a + b[k := x]
  {
    assert ((a + b)[k := x]).Keys == (a + b[k := x]).Keys;
  }

  /** One turn of the `forEach`: the task of run `n`, after those of `done`. */
  method RegisterNext(project: Project, ghost h: HostState, runs: map<string, string>, ghost done: set<string>, n: string)
    requires TaskNamesApart(runs.Keys) && done <= runs.Keys && n in runs && n !in done
    requires forall m :: m in runs ==> InstallTaskName(m) !in h.installTasks
    requires project.Snapshot() == h.(installTasks := h.installTasks + Tasks(runs, done))
    modifies project
    ensures project.Snapshot() == h.(installTasks := h.installTasks + Tasks(runs, done + {n}))
  {
    TaskAbsent(runs, done, n);
    TasksStep(runs, done, n);
    UnionUpdate(h.installTasks, Tasks(runs, done), InstallTaskName(n), ModsDir(runs[n]));
    project.RegisterInstallTask(InstallTaskName(n), ModsDir(runs[n]));
  }

  /** `registerInstallTasks`, the `forEach` over the runs: a task per run, in
      whatever order the set is visited. */
  method RegisterInstallTasks(project: Project, runs: map<string, string>)
    requires TaskNamesApart(runs.Keys)
    requires forall n :: n in runs ==> InstallTaskName(n) !in project.installTasks
    modifies project
    ensures project.Snapshot() == old(project.Snapshot()).(installTasks := old(project.installTasks) + Tasks(runs, runs.Keys))
  {
    ghost var h := project.Snapshot();
    var remaining := runs.Keys;
    ghost var done: set<string> := {};
    assert Tasks(runs, done) == map[];
    assert h.installTasks + map[] == h.installTasks;
    while remaining != {}
      invariant remaining !! done && remaining + done == runs.Keys
      invariant project.Snapshot() == h.(installTasks := h.installTasks + Tasks(runs, done))
      decreases remaining
    {
      var n :| n in remaining;
      RegisterNext(project, h, runs, done, n);
      remaining := remaining - {n};
      done := done + {n};
    }
  }

  /** The working directories of the named runs. */
  function WorkDirs(h: HostState, names: set<string>): (r: map<string, string>)
    requires names <= h.runs.Keys
    ensures r.Keys == names
  {
    map n | n in names :: h.runs[n].workDir
  }

  /** `getRunConfigurations`: no run for a disabled extension, otherwise every
      named run, which must exist, with its working directory. */
  method GetRunConfigurations(ext: ShadersExtension) returns (runs: map<string, string>)
    requires ext.platform.Some? && (ext.isEnabled ==> ext.Runs() <= ext.project.runs.Keys)
    ensures !ext.isEnabled ==> runs == map[]
    ensures ext.isEnabled ==> runs == WorkDirs(ext.project.Snapshot(), ext.Runs())
  {
    if !ext.isEnabled {
      return map[];
    }
    runs := map n | n in ext.Runs() :: ext.project.runs[n].workDir;
  }

  /** Where the project stands after a passing `afterEvaluate`: when the shared
      downloading configuration holds anything, an install task per run; and
      in any case the main source set's extra directories. */
  function Finalized(h: HostState, runs: set<string>): (r: HostState)
    requires Main in h.sourceSets
    requires h.detached != [] ==> runs <= h.runs.Keys && TaskNamesApart(runs)
  {
    var h1 := if h.detached == [] then h else h.(installTasks := h.installTasks + Tasks(WorkDirs(h, runs), runs));
    WithExtraSrcDirs(h1, Main, "src/shaders/java", "src/shaders/resources")
  }

  /** A passing `afterEvaluate` registers a task for each run exactly when
      there are mods to download, changes no dependency list and no run, and
      gives the main source set one more Java and one more resources
      directory. */
  lemma FinalizedEffect(h: HostState, runs: set<string>, n: string)
    requires Main in h.sourceSets
    requires h.detached != [] ==> runs <= h.runs.Keys && TaskNamesApart(runs)
    requires n in runs && InstallTaskName(n) !in h.installTasks
    ensures var r := Finalized(h, runs);
            (InstallTaskName(n) in r.installTasks <==> h.detached != [])
            && (h.detached != [] ==> r.installTasks[InstallTaskName(n)] == ModsDir(h.runs[n].workDir))
            && r.configurations == h.configurations && r.detached == h.detached && r.runs == h.runs
            && r.sourceSets[Main].javaDirs == h.sourceSets[Main].javaDirs + ["src/shaders/java"]
            && r.sourceSets[Main].resourcesDirs == h.sourceSets[Main].resourcesDirs + ["src/shaders/resources"]
  {
  }

  /** `afterEvaluate` gets past the gates, the support check and the version
      check: only then are the runs looked up. */
  predicate Validated(s: Choice, v: Versions)
  {
    && s.isEnabled && s.platform.Some? && s.implementation.Some?
    && IsSupported(s.implementation.value, s.platform.value)
    && ValidateRequiredVersions(s.platform.value, s.implementation.value, v) == None
  }

  /** Being validated is exactly getting past every check but the runs one. */
  lemma ValidatedOutcome(s: Choice, v: Versions, downloading: seq<string>, runs: set<string>)
    ensures Validated(s, v) <==> s.isEnabled && Outcome(s, v, downloading, runs) in {None, Some(RunsMissing)}
  {
    if s.platform.Some? && s.implementation.Some? {
      ValidationAsCurrent(s.platform.value, s.implementation.value, v);
      ValidationFindsVersions(s.platform.value, {s.implementation.value}, v);
    }
  }

  /** `afterEvaluate`. The problem is reported before anything changes. The
      runs are looked up, and the main source set is looked up, only on the
      paths where the Java code reaches those lookups. */
  method AfterEvaluate(ext: ShadersExtension) returns (problem: Option<Problem>)
    requires ext.isEnabled && Outcome(ext.State(), ext.versions, ext.project.detached, ext.Runs()) == None ==>
               Main in ext.project.sourceSets
    requires Validated(ext.State(), ext.versions) && ext.project.detached != [] ==>
               ext.Runs() <= ext.project.runs.Keys && TaskNamesApart(ext.Runs())
               && forall n :: n in ext.Runs() ==> InstallTaskName(n) !in ext.project.installTasks
    modifies ext.project
    ensures problem == Outcome(ext.State(), ext.versions, old(ext.project.detached), ext.Runs())
    ensures problem.Some? || !ext.isEnabled ==> ext.project.Snapshot() == old(ext.project.Snapshot())
    ensures problem.None? && ext.isEnabled ==> ext.project.Snapshot() == Finalized(old(ext.project.Snapshot()), ext.Runs())
  {
    var project := ext.project;
    if !ext.isEnabled {
      return None;
    }
    if ext.platform.None? {
      return Some(PlatformMissing);
    }
    if ext.implementation.None? {
      return Some(ImplementationMissing);
    }
    var p := ext.platform.value;
    var i := ext.implementation.value;
    if !IsSupported(i, p) {
      return Some(ImplementationUnsupported);
    }
    problem := ValidateRequiredVersions(p, i, ext.versions);
    if problem.Some? {
      return;
    }
    if project.detached != [] {
      var runs := GetRunConfigurations(ext);
      if runs == map[] {
        return Some(RunsMissing);
      }
      RegisterInstallTasks(project, runs);
    }
    project.AddSrcDirs(Main, "src/shaders/java", "src/shaders/resources");
  }

  /** `configureConventions`: `setIsEnabled` with the parsed property. The
      version slots and the runs take their conventions when the extension
      is made. */
  method ConfigureConventions(ext: ShadersExtension, props: map<string, string>)
    requires ext.Valid()
    modifies ext, ext.project
    ensures ext.Valid() && ext.runs == old(ext.runs)
    ensures ext.State() == Apply(old(ext.State()), Call.SetIsEnabled(ParseProperty(props, EnabledProperty)))
    ensures ext.project.Snapshot()
         == AfterCallbacks(old(ext.project.Snapshot()), Fired(old(ext.State()), Call.SetIsEnabled(ParseProperty(props, EnabledProperty))), ext.versions)
  {
    ext.SetIsEnabled(ParseProperty(props, EnabledProperty));
  }

  /** `apply`: the two configuration pairs and the shared downloading
      configuration are made, then the extension with its conventions,
      switched by the property. It has no platform yet, so no dependency is
      registered. */
  method ApplyPlugin(project: Project, props: map<string, string>, explicit: Versions) returns (ext: ShadersExtension)
    requires CompileConfiguration(NEOFORGE) in project.configurations
    modifies project
    ensures ext.Valid() && ext.project == project && ext.runs == {}
    ensures ext.State() == Choice(ParseProperty(props, EnabledProperty), None, None)
    ensures ext.versions == WithConventions(explicit, props) && ext.runsConvention == RunsConvention(props)
    ensures project.Snapshot() == WithDetached(WithConfigurations(old(project.Snapshot())))
  {
    var configurations := GetConfigurations(project);
    project.DetachedConfiguration();
    ext := new ShadersExtension(project, WithConventions(explicit, props), RunsConvention(props));
    ConfigureConventions(ext, props);
  }
}
