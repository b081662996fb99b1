/** The client run that launches the game with one shader implementation:
    `RunUtils.getOrCreateRunFor` and its Loom and NeoGradle variants. */
module Runs {
  import opened Common
  import opened Gradle
  import opened Model

  /** The run both toolchains create for the plain client. */
  const Client: string := "client"

  /** `clientWith{Cap}Shaders`. */
  function RunName(i: Implementation): string
  {
    "clientWith" + CapitalName(i) + "Shaders"
  }

  /** The working directory NeoGradle's plain client run is moved to. */
  const NoShaderWorkDir: string := "runs/client/no-shader"

  /** `runs/client/{lower}-shader`: the shader run's own working directory on NeoGradle. */
  function ShaderWorkDir(i: Implementation): string
  {
    "runs/client/" + LowerName(i) + "-shader"
  }

  /** The client run's IDE name followed by ` with {Cap} shaders`. */
  function ShaderIdeName(clientIdeName: string, i: Implementation): string
  {
    clientIdeName + " with " + CapitalName(i) + " shaders"
  }

  /** No shader run takes the plain client run's name, and the two
      implementations' runs have different names. */
  lemma RunNamesApart(i: Implementation, j: Implementation)
    ensures RunName(i) != Client
    ensures i != j ==> RunName(i) != RunName(j)
  {
    InitialsOf(i);
    InitialsOf(j);
    assert RunName(i)[10] == CapitalInitial(i);
    assert RunName(j)[10] == CapitalInitial(j);
    assert |RunName(i)| > |Client|;
    if i != j {
      DifferAt(RunName(i), RunName(j), 10);
    }
  }

  /** On NeoGradle every run writes to its own directory: the plain client run's
      is never a shader run's, and the two shader runs' differ. */
  lemma WorkDirsApart(i: Implementation, j: Implementation)
    ensures ShaderWorkDir(i) != NoShaderWorkDir
    ensures i != j ==> ShaderWorkDir(i) != ShaderWorkDir(j)
  {
    InitialsOf(i);
    InitialsOf(j);
    assert ShaderWorkDir(i)[12] == Initial(i);
    assert ShaderWorkDir(j)[12] == Initial(j);
    DifferAt(ShaderWorkDir(i), NoShaderWorkDir, 12);
    if i != j {
      DifferAt(ShaderWorkDir(i), ShaderWorkDir(j), 12);
    }
  }

  /** The shader run's IDE name extends the client's, and differs per
      implementation. */
  lemma IdeNamesApart(clientIdeName: string, i: Implementation, j: Implementation)
    ensures clientIdeName < ShaderIdeName(clientIdeName, i)
    ensures i != j ==> ShaderIdeName(clientIdeName, i) != ShaderIdeName(clientIdeName, j)
  {
    InitialsOf(i);
    InitialsOf(j);
    var k := |clientIdeName| + 6;
    assert ShaderIdeName(clientIdeName, i) == clientIdeName + (" with " + CapitalName(i) + " shaders");
    assert ShaderIdeName(clientIdeName, i)[k] == CapitalInitial(i);
    assert ShaderIdeName(clientIdeName, j)[k] == CapitalInitial(j);
    if i != j {
      DifferAt(ShaderIdeName(clientIdeName, i), ShaderIdeName(clientIdeName, j), k);
    }
  }

  /** A run can be looked up or made: either it exists already or the plain
      client run it is copied from does (`getByName("client")` throws
      otherwise). */
  predicate CanGetOrCreate(h: HostState, i: Implementation)
  {
    RunName(i) in h.runs || Client in h.runs
  }

  /** `getOrCreateLoomRunFor`: a new run inherits the client run's settings
      and launches the implementation's source set. What `inherit` copies is
      Loom's; it is taken here to be the whole client run, working directory
      and IDE name included. */
  function LoomRunFor(h: HostState, i: Implementation, sourceSet: string): HostState
    requires CanGetOrCreate(h, i)
  {
    if RunName(i) in h.runs then h
    else WithRun(h, RunName(i), h.runs[Client].(sourceSet := sourceSet))
  }

  /** `getOrCreateNeoGradleRunFor`: the client run moves to
      `runs/client/no-shader`; the new run copies it, launches the
      implementation's source set, extends its IDE name and works in
      `runs/client/{lower}-shader`. */
  function NeoGradleRunFor(h: HostState, i: Implementation, sourceSet: string): HostState
    requires CanGetOrCreate(h, i)
  {
    if RunName(i) in h.runs then h
    else
      var client := h.runs[Client].(workDir := NoShaderWorkDir);
      var h1 := WithRun(h, Client, client);
      WithRun(h1, RunName(i), Run(ShaderWorkDir(i), ShaderIdeName(client.ideName, i), sourceSet))
  }

  /** `getOrCreateRunFor`: Loom's runs on Fabric, NeoGradle's otherwise. */
  function GetOrCreateRun(h: HostState, p: Platform, i: Implementation, sourceSet: string): HostState
    requires h.toolchain == ToolchainOf(p) && CanGetOrCreate(h, i)
  {
    if IsFabric(p) then LoomRunFor(h, i, sourceSet) else NeoGradleRunFor(h, i, sourceSet)
  }

  /** An existing shader run is returned as it is. */
  lemma GetOrCreateRunExisting(h: HostState, p: Platform, i: Implementation, sourceSet: string)
    requires h.toolchain == ToolchainOf(p) && RunName(i) in h.runs
    ensures GetOrCreateRun(h, p, i, sourceSet) == h
  {
  }

  /** A new shader run: the run table gains exactly that run, only the plain
      client run besides it may change, and nothing outside the run table
      changes. */
  lemma GetOrCreateRunFrame(h: HostState, p: Platform, i: Implementation, sourceSet: string)
    requires h.toolchain == ToolchainOf(p) && CanGetOrCreate(h, i)
    ensures var r := GetOrCreateRun(h, p, i, sourceSet);
            r.runs.Keys == h.runs.Keys + {RunName(i)}
            && r == h.(runs := r.runs)
            && forall n :: n in h.runs && n != Client ==> r.runs[n] == h.runs[n]
  {
    RunNamesApart(i, i);
  }

  /** What a new shader run is on Loom: the client run launching the
      implementation's source set; the client run itself is untouched. */
  lemma NewLoomRun(h: HostState, p: Platform, i: Implementation, sourceSet: string)
    requires h.toolchain == ToolchainOf(p) && IsFabric(p) && RunName(i) !in h.runs && Client in h.runs
    ensures var r := GetOrCreateRun(h, p, i, sourceSet);
            r.runs[RunName(i)].sourceSet == sourceSet
            && r.runs[RunName(i)].workDir == h.runs[Client].workDir
            && r.runs[RunName(i)].ideName == h.runs[Client].ideName
            && r.runs[Client] == h.runs[Client]
  {
    RunNamesApart(i, i);
  }

  /** What a new shader run is on NeoGradle: its own working directory, the
      client's IDE name extended, the implementation's source set; the client
      run moves to the no-shader directory and keeps everything else. */
  lemma NewNeoGradleRun(h: HostState, p: Platform, i: Implementation, sourceSet: string)
    requires h.toolchain == ToolchainOf(p) && IsNeoForge(p) && RunName(i) !in h.runs && Client in h.runs
    ensures var r := GetOrCreateRun(h, p, i, sourceSet);
            r.runs[RunName(i)] == Run(ShaderWorkDir(i), ShaderIdeName(h.runs[Client].ideName, i), sourceSet)
            && r.runs[Client] == h.runs[Client].(workDir := NoShaderWorkDir)
            && r.runs[RunName(i)].workDir != r.runs[Client].workDir
  {
    RunNamesApart(i, i);
    WorkDirsApart(i, i);
  }

  /** Looking the run up a second time changes nothing. */
  lemma GetOrCreateRunIdempotent(h: HostState, p: Platform, i: Implementation, s: string, t: string)
    requires h.toolchain == ToolchainOf(p) && CanGetOrCreate(h, i)
    ensures var r := GetOrCreateRun(h, p, i, s);
            CanGetOrCreate(r, i) && GetOrCreateRun(r, p, i, t) == r
  {
    GetOrCreateRunFrame(h, p, i, s);
  }

  /** The two implementations' runs coexist: making one keeps the other as it
      was. */
  lemma RunsCoexist(h: HostState, p: Platform, i: Implementation, j: Implementation, sourceSet: string)
    requires h.toolchain == ToolchainOf(p) && CanGetOrCreate(h, j) && i != j && RunName(i) in h.runs
    ensures var r := GetOrCreateRun(h, p, j, sourceSet);
            RunName(i) in r.runs && r.runs[RunName(i)] == h.runs[RunName(i)]
  {
    RunNamesApart(i, j);
    GetOrCreateRunFrame(h, p, j, sourceSet);
  }

  /** `getOrCreateLoomRunFor`. */
  method GetOrCreateLoomRunFor(project: Project, i: Implementation, sourceSet: string) returns (name: string)
    requires CanGetOrCreate(project.Snapshot(), i)
    modifies project
    ensures name == RunName(i)
    ensures project.Snapshot() == LoomRunFor(old(project.Snapshot()), i, sourceSet)
  {
    name := "clientWith" + Capitalize(ToLower(Name(i))) + "Shaders";
    if name in project.runs {
      return;
    }
    var clientRun := project.runs[Client];
    project.PutRun(name, clientRun.(sourceSet := sourceSet));
  }

  /** `getOrCreateNeoGradleRunFor`. */
  method GetOrCreateNeoGradleRunFor(project: Project, i: Implementation, sourceSet: string) returns (name: string)
    requires CanGetOrCreate(project.Snapshot(), i)
    modifies project
    ensures name == RunName(i)
    ensures project.Snapshot() == NeoGradleRunFor(old(project.Snapshot()), i, sourceSet)
  {
    name := "clientWith" + Capitalize(ToLower(Name(i))) + "Shaders";
    if name in project.runs {
      return;
    }
    var clientRun := project.runs[Client].(workDir := NoShaderWorkDir);
    project.PutRun(Client, clientRun);
    var run := Run(ShaderWorkDir(i), clientRun.ideName + " with " + Capitalize(ToLower(Name(i))) + " shaders", sourceSet);
    project.PutRun(name, run);
  }

  /** `getOrCreateRunFor`; the run is returned by name. */
  method GetOrCreateRunFor(project: Project, p: Platform, i: Implementation, sourceSet: string) returns (name: string)
    requires project.toolchain == ToolchainOf(p) && CanGetOrCreate(project.Snapshot(), i)
    modifies project
    ensures name == RunName(i)
    ensures project.Snapshot() == GetOrCreateRun(old(project.Snapshot()), p, i, sourceSet)
  {
    if IsFabric(p) {
      name := GetOrCreateLoomRunFor(project, i, sourceSet);
    } else {
      name := GetOrCreateNeoGradleRunFor(project, i, sourceSet);
    }
  }
}
