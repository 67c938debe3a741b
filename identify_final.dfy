/**
 * The final iteration of project detection: classify the nearest
 * pyproject.toml, resolve the detection to a Python environment (a command
 * and, for a virtual environment, its bin directory), and put that bin
 * directory in front of `PATH`.
 */
module Identify {
  import opened PyValues
  import opened Paths
  import opened ProjectKinds
  import DotKeys
  import CD = ConfigData
  import Shlex

  /** `ProjectDetection`: the manifest found, its kind, its configuration and why it is invalid. */
  datatype Detection = Detection(path: Option<Path>, kind: ProjectKind, config: CD.ConfigData, errorContext: Option<string>)

  /** `PythonEnvironment`: the interpreter command and, for a virtual environment, its bin directory. */
  datatype PythonEnvironment = PythonEnvironment(pythonCmd: seq<Arg>, venvBinDir: Option<Path>)

  /** What opening and parsing the manifest gave: the document, or the message of the OSError or TOMLDecodeError. */
  datatype ReadResult = Parsed(doc: Value) | ReadFailed(msg: string)

  /** What `_identify_toml` returns: the kind, the configuration and an error context. */
  datatype Identity = Identity(kind: ProjectKind, config: Option<CD.ConfigData>, errorContext: Option<string>)

  const CouldNotRead := "Could not read pyproject.toml"
  const NoProjectTable := "No valid project table or configuration"
  const ReadingError := "Error on reading pyproject.toml: "

  // ----- the tool predicates

  function IsRye(data: Value): Outcome<bool> {
    AndAlso(HasProjectTable(data), RyeManaged(data))
  }

  function IsPoetry(data: Value): Outcome<bool> {
    PoetryNamed(data)
  }

  function IsPdm(data: Value): Outcome<bool> {
    AndAlso(HasProjectTable(data), PdmSection(data))
  }

  function IsHatch(data: Value): Outcome<bool> {
    AndAlso(HasProjectTable(data), HatchSection(data))
  }

  function IsUv(data: Value): Outcome<bool> {
    AndAlso(HasProjectTable(data), UvSection(data))
  }

  /** `IDENTIFY_FUNCTIONS[kind](data)`; kinds without a predicate never match. */
  function Detects(k: ProjectKind, data: Value): Outcome<bool> {
    match k
    case Rye => IsRye(data)
    case Pdm => IsPdm(data)
    case Poetry => IsPoetry(data)
    case Hatch => IsHatch(data)
    case Uv => IsUv(data)
    case _ => Ok(false)
  }

  /** The order in which `IDENTIFY_FUNCTIONS` is tried. */
  const DetectionOrder: seq<ProjectKind> := [Rye, Pdm, Poetry, Hatch, Uv]

  function ToolMatch(data: Value): Outcome<Option<ProjectKind>> {
    FirstMatch(DetectionOrder, k => Detects(k, data), 0)
  }

  /** Every tool kind except Poetry is detected only inside a proper project table. */
  lemma ProjectTableRequired(data: Value, k: ProjectKind)
    requires k in DetectionOrder && k != Poetry && Detects(k, data) == Ok(true)
    ensures HasProjectTable(data) == Ok(true)
  {
  }

  /** Rye needs `tool.rye.managed` to be the boolean true, not merely a truthy value. */
  lemma RyeNeedsTrue(data: Value)
    ensures Detects(Rye, data) == Ok(true) <==>
              HasProjectTable(data) == Ok(true) && DotKeys.Walk(data, ["tool", "rye", "managed"]) == DotKeys.Found(Bool(true))
  {
  }

  // ----- classification

  /** `Config.from_dict(get_dotkey(data, "tool.pyproject-local-kernel", {}))` */
  function ToolConfig(data: Value): Outcome<CD.ConfigData> {
    var section :- DotKeys.DotKey(data, ToolTableKey, Dict(map[]));
    CD.FromDictSpec(section)
  }

  /** `_identify_toml(data)` */
  function IdentifyToml(data: Value): (r: Outcome<Identity>)
    ensures !data.Dict? ==> r == Ok(Identity(InvalidData, None, Some(CouldNotRead)))
    ensures r.Ok? ==> r.value.kind != NoProject
    ensures r.Ok? ==> (r.value.kind == InvalidData <==> r.value.config.None?)
    ensures r.Ok? ==> (r.value.kind == InvalidData <==> r.value.errorContext.Some?)
  {
    if !data.Dict? then Ok(Identity(InvalidData, None, Some(CouldNotRead)))
    else match ToolConfig(data)
      case Raise(TypeError(msg)) => Ok(Identity(InvalidData, None, Some(ReadingError + msg)))
      case Raise(e) => Raise(e)
      case Ok(config) =>
        if config.pythonCmd.Some? then Ok(Identity(CustomConfiguration, Some(config), None))
        else if config.useVenv.Some? then Ok(Identity(UseVenv, Some(config), None))
        else
          var hit :- ToolMatch(data);
          if hit.Some? then
            assert hit.value in DetectionOrder;
            Ok(Identity(hit.value, Some(config), None))
          else
            // `is_rye` has already evaluated `has_project_table` without raising
            if HasProjectTable(data) == Ok(true) then Ok(Identity(Unknown, Some(config), None))
            else Ok(Identity(InvalidData, None, Some(NoProjectTable)))
  }

  /** A configured `python_cmd` makes the project custom, whatever else the document says. */
  lemma CustomWins(data: Value, c: CD.ConfigData)
    requires data.Dict? && ToolConfig(data) == Ok(c) && c.pythonCmd.Some?
    ensures IdentifyToml(data) == Ok(Identity(CustomConfiguration, Some(c), None))
  {
  }

  /** Otherwise a configured `use_venv` wins over every tool section. */
  lemma UseVenvWins(data: Value, c: CD.ConfigData)
    requires data.Dict? && ToolConfig(data) == Ok(c) && c.pythonCmd.None? && c.useVenv.Some?
    ensures IdentifyToml(data) == Ok(Identity(UseVenv, Some(c), None))
  {
  }

  /** A TypeError from reading the configuration makes the data invalid and is reported; other errors escape. */
  lemma ConfigErrorIsInvalidData(data: Value, e: Exc)
    requires data.Dict? && ToolConfig(data) == Raise(e)
    ensures e.TypeError? ==> IdentifyToml(data) == Ok(Identity(InvalidData, None, Some(ReadingError + e.msg)))
    ensures !e.TypeError? ==> IdentifyToml(data) == Raise(e)
  {
  }

  /** A `python-cmd` with an unbalanced quote is not turned into InvalidData: its ValueError escapes. */
  lemma UnbalancedQuoteEscapes(data: Value, section: map<string, Value>, s: string)
    requires data.Dict? && DotKeys.Walk(data, ToolTableKey) == DotKeys.Found(Dict(section))
    requires section == map["python-cmd" := Str(s)] && Shlex.Split(s).Raise?
    ensures IdentifyToml(data) == Raise(Shlex.Split(s).exc)
  {
    CD.UnbalancedPythonCmd(s);
    Shlex.SplitRaisesValueError(s);
    assert ToolConfig(data) == Raise(Shlex.Split(s).exc);
  }

  /** The first tool predicate that holds, in the fixed order, gives the kind. */
  lemma ToolOrder(data: Value, c: CD.ConfigData, i: nat)
    requires data.Dict? && ToolConfig(data) == Ok(c) && c.pythonCmd.None? && c.useVenv.None?
    requires i < |DetectionOrder| && Detects(DetectionOrder[i], data) == Ok(true)
    requires forall j :: 0 <= j < i ==> Detects(DetectionOrder[j], data) == Ok(false)
    ensures IdentifyToml(data) == Ok(Identity(DetectionOrder[i], Some(c), None))
  {
    FirstMatchPicks(DetectionOrder, k => Detects(k, data), 0, i);
  }

  /** With no tool match, a missing project table is invalid data and a present one is Unknown. */
  lemma NoToolMatch(data: Value, c: CD.ConfigData)
    requires data.Dict? && ToolConfig(data) == Ok(c) && c.pythonCmd.None? && c.useVenv.None?
    requires forall j :: 0 <= j < |DetectionOrder| ==> Detects(DetectionOrder[j], data) == Ok(false)
    ensures HasProjectTable(data) == Ok(false) ==> IdentifyToml(data) == Ok(Identity(InvalidData, None, Some(NoProjectTable)))
    ensures HasProjectTable(data) == Ok(true) ==> IdentifyToml(data) == Ok(Identity(Unknown, Some(c), None))
  {
    assert ToolMatch(data) == Ok(None);
  }

  /** `identify(file)` for the resolved directory `cwd`. */
  function IdentifySpec(cwd: Path, pathExists: Path -> bool, read: Path -> ReadResult): (r: Outcome<Detection>)
    ensures Locate(cwd, pathExists).None? ==> r == Ok(Detection(None, NoProject, CD.EmptyConfig, None))
    ensures Locate(cwd, pathExists).Some? && r.Ok? ==> r.value.path == Locate(cwd, pathExists) && r.value.kind != NoProject
  {
    match Locate(cwd, pathExists)
    case None => Ok(Detection(None, NoProject, CD.EmptyConfig, None))
    case Some(pyproj) =>
      match read(pyproj)
      case ReadFailed(msg) => Ok(Detection(Some(pyproj), InvalidData, CD.EmptyConfig, Some(msg)))
      case Parsed(doc) =>
        var identity :- IdentifyToml(doc);
        Ok(Detection(Some(pyproj), identity.kind,
                     if identity.config.Some? then identity.config.value else CD.EmptyConfig,
                     if identity.errorContext.Some? && identity.errorContext.value != "" then identity.errorContext else None))
  }

  /** `identify` as written: locate the manifest with the directory loop, then read and classify it. */
  method Identify(cwd: Path, pathExists: Path -> bool, read: Path -> ReadResult) returns (r: Outcome<Detection>)
    ensures r == IdentifySpec(cwd, pathExists, read)
  {
    var pyproj := FindPyprojectFile(cwd, pathExists);
    if pyproj.None? {
      return Ok(Detection(None, NoProject, CD.EmptyConfig, None));
    }
    var tomlStructure := read(pyproj.value);
    if tomlStructure.ReadFailed? {
      return Ok(Detection(pyproj, InvalidData, CD.EmptyConfig, Some(tomlStructure.msg)));
    }
    var identity :- IdentifyToml(tomlStructure.doc);
    var config := CD.EmptyConfig;
    var errorContext := None;
    if identity.config.Some? {
      config := identity.config.value;
    }
    if identity.errorContext.Some? && identity.errorContext.value != "" {
      errorContext := identity.errorContext;
    }
    return Ok(Detection(pyproj, identity.kind, config, errorContext));
  }

  /** The manifest is the nearest one above `cwd`; the kind is NoProject exactly when there is none. */
  lemma NearestManifest(cwd: Path, pathExists: Path -> bool, read: Path -> ReadResult)
    requires IdentifySpec(cwd, pathExists, read).Ok?
    ensures var d := IdentifySpec(cwd, pathExists, read).value;
            (d.kind == NoProject <==> forall j :: 0 <= j < |Candidates(cwd)| ==> !pathExists(ManifestIn(Candidates(cwd)[j]))) &&
            (d.path.Some? ==> exists i :: 0 <= i < |Candidates(cwd)| && d.path.value == ManifestIn(Candidates(cwd)[i]) &&
                               pathExists(d.path.value) &&
                               forall j :: 0 <= j < i ==> !pathExists(ManifestIn(Candidates(cwd)[j])))
  {
    FirstManifestNearest(Candidates(cwd), pathExists, 0);
  }

  /** A manifest that cannot be read or parsed is invalid data carrying the error message. */
  lemma UnreadableIsInvalid(cwd: Path, pathExists: Path -> bool, read: Path -> ReadResult, p: Path, msg: string)
    requires Locate(cwd, pathExists) == Some(p) && read(p) == ReadFailed(msg)
    ensures IdentifySpec(cwd, pathExists, read) == Ok(Detection(Some(p), InvalidData, CD.EmptyConfig, Some(msg)))
  {
  }

  // ----- resolving a detection

  /** `use_venv` after the hatch quirk: a non-empty answer from hatch replaces the configured one. */
  function EffectiveUseVenv(det: Detection, allowHatch: bool, hatch: HatchAnswer): Outcome<Option<string>> {
    if det.kind == Hatch && allowHatch then
      if det.path.None? then Raise(AssertionError)
      else
        var hatchEnv :- HatchVenv(hatch);
        Ok(if hatchEnv.Some? && hatchEnv.value != "" then hatchEnv else det.config.useVenv)
    else Ok(det.config.useVenv)
  }

  /** The environment of the virtual environment `useVenv`, taken relative to the manifest's directory. */
  function VenvEnvironment(manifest: Path, useVenv: string, windows: bool): PythonEnvironment {
    var python := Join(Parent(manifest), VenvBinPython(ParsePath(useVenv, windows), windows));
    PythonEnvironment([PathArg(python)], Some(Parent(python)))
  }

  /** `resolve(allow_fallback, allow_hatch_workaround)` */
  function Resolve(det: Detection, allowFallback: bool, allowHatch: bool, host: Host, hatch: HatchAnswer)
    : (r: Outcome<Option<PythonEnvironment>>)
    ensures EffectiveUseVenv(det, allowHatch, hatch).Raise? ==> r == Raise(EffectiveUseVenv(det, allowHatch, hatch).exc)
    ensures r.Ok? && r.value.Some? && r.value.value.pythonCmd == [] ==> det.config.pythonCmd == Some([])
    ensures r.Ok? && r.value.Some? ==> (r.value.value.venvBinDir.Some? <==> EffectiveUseVenv(det, allowHatch, hatch).value.Some?)
  {
    var useVenv :- EffectiveUseVenv(det, allowHatch, hatch);
    ResolveFrom(det, allowFallback, host, useVenv)
  }

  /** The rest of `resolve`, once `use_venv` is settled: a virtual environment, the configured command, the kind's command, the fallback. */
  function ResolveFrom(det: Detection, allowFallback: bool, host: Host, useVenv: Option<string>)
    : (r: Outcome<Option<PythonEnvironment>>)
    ensures r.Ok? && r.value.Some? && r.value.value.pythonCmd == [] ==> det.config.pythonCmd == Some([])
    ensures r.Ok? && r.value.Some? ==> (r.value.value.venvBinDir.Some? <==> useVenv.Some?)
  {
    if useVenv.Some? then
      if det.path.None? then Raise(AssertionError)
      else Ok(Some(VenvEnvironment(det.path.value, useVenv.value, host.windows)))
    else if det.config.pythonCmd.Some? then
      Ok(Some(PythonEnvironment(Texts(det.config.pythonCmd.value), None)))
    else if KindCommand(det.kind).Some? then
      Ok(Some(PythonEnvironment(Texts(KindCommand(det.kind).value), None)))
    else if allowFallback && det.kind !in {NoProject, InvalidData} && KindCommand(FallbackKind(host)).Some? then
      Ok(Some(PythonEnvironment(Texts(KindCommand(FallbackKind(host)).value), None)))
    else Ok(None)
  }

  /** `get_python_cmd`: the command of the resolved environment, if any. */
  function GetPythonCmd(det: Detection, allowFallback: bool, allowHatch: bool, host: Host, hatch: HatchAnswer)
    : (r: Outcome<Option<seq<Arg>>>)
    ensures r.Raise? <==> Resolve(det, allowFallback, allowHatch, host, hatch).Raise?
    ensures r.Ok? ==> (r.value.Some? <==> Resolve(det, allowFallback, allowHatch, host, hatch).value.Some?)
    ensures r.Ok? && r.value.Some? ==> r.value.value == Resolve(det, allowFallback, allowHatch, host, hatch).value.value.pythonCmd
  {
    var penv :- Resolve(det, allowFallback, allowHatch, host, hatch);
    Ok(if penv.Some? then Some(penv.value.pythonCmd) else None)
  }

  /** Precedence: a virtual environment, then the configured command, then the kind's command. */
  lemma ResolvePrecedence(det: Detection, allowFallback: bool, allowHatch: bool, host: Host, hatch: HatchAnswer)
    requires !(det.kind == Hatch && allowHatch) && det.path.Some?
    ensures det.config.useVenv.Some? ==>
              Resolve(det, allowFallback, allowHatch, host, hatch) ==
              Ok(Some(VenvEnvironment(det.path.value, det.config.useVenv.value, host.windows)))
    ensures det.config.useVenv.None? && det.config.pythonCmd.Some? ==>
              Resolve(det, allowFallback, allowHatch, host, hatch) == Ok(Some(PythonEnvironment(Texts(det.config.pythonCmd.value), None)))
    ensures det.config.useVenv.None? && det.config.pythonCmd.None? && det.kind.IsTool() ==>
              Resolve(det, allowFallback, allowHatch, host, hatch) == Ok(Some(PythonEnvironment(Texts(KindCommand(det.kind).value), None)))
  {
  }

  /** The fallback is used only when allowed, for a kind without a command that is not NoProject or InvalidData. */
  lemma FallbackRules(det: Detection, allowFallback: bool, allowHatch: bool, host: Host, hatch: HatchAnswer)
    requires det.config.useVenv.None? && det.config.pythonCmd.None? && !det.kind.IsTool()
    ensures Resolve(det, allowFallback, allowHatch, host, hatch) ==
            if allowFallback && det.kind !in {NoProject, InvalidData} && (host.uvOnPath || host.ryeOnPath)
            then Ok(Some(PythonEnvironment(Texts(if host.uvOnPath then UvCommand else KindCommand(Rye).value), None)))
            else Ok(None)
  {
    FallbackCommand(host);
  }

  /** The hatch quirk: a non-blank answer is used as `use_venv`; a blank one or OSError changes nothing. */
  lemma HatchQuirk(det: Detection, allowFallback: bool, host: Host, hatch: HatchAnswer, other: HatchAnswer)
    requires det.kind == Hatch && det.path.Some?
    ensures hatch.HatchOutput? && Strip(hatch.stdout) != "" ==>
              Resolve(det, allowFallback, true, host, hatch) ==
              Ok(Some(VenvEnvironment(det.path.value, Strip(hatch.stdout), host.windows)))
    ensures hatch.HatchOSError? || (hatch.HatchOutput? && Strip(hatch.stdout) == "") ==>
              Resolve(det, allowFallback, true, host, hatch) == Resolve(det, allowFallback, false, host, other)
    ensures hatch.HatchFailed? ==> Resolve(det, allowFallback, true, host, hatch) == Raise(hatch.exc)
  {
    if hatch.HatchOutput? && Strip(hatch.stdout) != "" {
      HatchAnswerUsed(det, allowFallback, host, hatch);
    } else if hatch.HatchOSError? || hatch.HatchOutput? {
      HatchAnswerIgnored(det, allowFallback, host, hatch, other);
    }
  }

  lemma HatchAnswerUsed(det: Detection, allowFallback: bool, host: Host, hatch: HatchAnswer)
    requires det.kind == Hatch && det.path.Some?
    requires hatch.HatchOutput? && Strip(hatch.stdout) != ""
    ensures Resolve(det, allowFallback, true, host, hatch) ==
            Ok(Some(VenvEnvironment(det.path.value, Strip(hatch.stdout), host.windows)))
  {
    assert EffectiveUseVenv(det, true, hatch) == Ok(Some(Strip(hatch.stdout)));
  }

  lemma HatchAnswerIgnored(det: Detection, allowFallback: bool, host: Host, hatch: HatchAnswer, other: HatchAnswer)
    requires det.kind == Hatch && det.path.Some?
    requires hatch.HatchOSError? || (hatch.HatchOutput? && Strip(hatch.stdout) == "")
    ensures Resolve(det, allowFallback, true, host, hatch) == Resolve(det, allowFallback, false, host, other)
  {
    if hatch.HatchOSError? {
      assert HatchVenv(hatch) == Ok(None);
    } else {
      assert HatchVenv(hatch) == Ok(Some(""));
    }
    HatchVenvKept(det, hatch);
    ResolveSettled(det, allowFallback, true, host, hatch, det.config.useVenv);
    ResolveSettled(det, allowFallback, false, host, other, det.config.useVenv);
  }

  lemma HatchVenvKept(det: Detection, hatch: HatchAnswer)
    requires det.kind == Hatch && det.path.Some?
    requires HatchVenv(hatch) == Ok(None) || HatchVenv(hatch) == Ok(Some(""))
    ensures EffectiveUseVenv(det, true, hatch) == Ok(det.config.useVenv)
  {
  }

  lemma ResolveSettled(det: Detection, allowFallback: bool, allowHatch: bool, host: Host, hatch: HatchAnswer, useVenv: Option<string>)
    requires EffectiveUseVenv(det, allowHatch, hatch) == Ok(useVenv)
    ensures Resolve(det, allowFallback, allowHatch, host, hatch) == ResolveFrom(det, allowFallback, host, useVenv)
  {
  }

  /**
   * The layout of a virtual environment: for a relative `use_venv` the
   * command is `<manifest dir>/<use_venv>/bin/python` (`Scripts\python.exe`
   * on Windows) and the bin directory is the command's directory; an absolute
   * `use_venv` replaces the manifest directory.
   */
  lemma VenvLayout(manifest: Path, useVenv: string, windows: bool)
    ensures var env := VenvEnvironment(manifest, useVenv, windows);
            var venv := ParsePath(useVenv, windows);
            var bin := if windows then "Scripts" else "bin";
            var base := if venv.absolute then venv else Path(manifest.absolute, Parent(manifest).parts + venv.parts);
            env.venvBinDir == Some(Path(base.absolute, base.parts + [bin])) &&
            env.pythonCmd == [PathArg(Path(base.absolute, base.parts + [bin, if windows then "python.exe" else "python"]))]
  {
    VenvPaths(Parent(manifest), ParsePath(useVenv, windows), windows);
  }

  /** The interpreter and bin directory of the virtual environment `venv`, taken relative to `dir`. */
  lemma VenvPaths(dir: Path, venv: Path, windows: bool)
    ensures var bin := if windows then "Scripts" else "bin";
            var base := Join(dir, venv);
            var python := Join(dir, VenvBinPython(venv, windows));
            python == Path(base.absolute, base.parts + [bin, if windows then "python.exe" else "python"]) &&
            Parent(python) == Path(base.absolute, base.parts + [bin])
  {
    var bin := if windows then "Scripts" else "bin";
    var exe := if windows then "python.exe" else "python";
    assert VenvBinPython(venv, windows) == Join(venv, Path(false, [bin, exe]));
    JoinBelow(dir, venv, bin, exe);
  }

  /** Two components below a venv that is itself taken relative to `dir`. */
  lemma JoinBelow(dir: Path, venv: Path, bin: string, exe: string)
    ensures var base := Join(dir, venv);
            var python := Join(dir, Join(venv, Path(false, [bin, exe])));
            python == Path(base.absolute, base.parts + [bin, exe]) &&
            Parent(python) == Path(base.absolute, base.parts + [bin])
  {
    var base := Join(dir, venv);
    var full := base.parts + [bin, exe];
    if !venv.absolute {
      assert dir.parts + (venv.parts + [bin, exe]) == full;
    }
    assert full[..|full| - 1] == base.parts + [bin];
  }

  // ----- the PATH update

  /** A process environment, which `update_environment` changes in place. */
  class EnvDict {
    var vars: map<string, string>

    constructor (vars0: map<string, string>)
      ensures vars == vars0
    {
      vars := vars0;
    }
  }

  /** `os.pathsep` */
  function PathSep(windows: bool): char {
    if windows then ';' else ':'
  }

  /** `os.defpath` */
  function DefPath(windows: bool): string {
    if windows then ".;C:\\bin" else "/bin:/usr/bin"
  }

  /** `PATH` with the bin directory put in front of the current (or default) value. */
  function PrependedPath(vars: map<string, string>, bin: Path, windows: bool): string {
    Render(bin, windows) + [PathSep(windows)] + Get(vars, "PATH", DefPath(windows))
  }

  /** Python's `==` between a `str` and a `Path`, which never holds. */
  predicate StrEqualsPath(s: string, p: Path) {
    false
  }

  /** `update_environment(env)` */
  method UpdateEnvironment(penv: PythonEnvironment, env: EnvDict, windows: bool)
    modifies env
    ensures penv.venvBinDir.None? ==> env.vars == old(env.vars)
    ensures penv.venvBinDir.Some? ==>
              env.vars == old(env.vars)["PATH" := PrependedPath(old(env.vars), penv.venvBinDir.value, windows)]
  {
    if penv.venvBinDir.None? {
      return;
    }
    var bin := penv.venvBinDir.value;
    var pathEnv := Get(env.vars, "PATH", DefPath(windows));
    var pathEntries := SplitOn(pathEnv, PathSep(windows));
    if |pathEntries| == 0 || !StrEqualsPath(pathEntries[0], bin) {
      JoinSplit(pathEnv, PathSep(windows));
      JoinPrepend(Render(bin, windows), pathEntries, [PathSep(windows)]);
      env.vars := env.vars["PATH" := JoinWith([Render(bin, windows)] + pathEntries, [PathSep(windows)])];
    }
  }

  lemma JoinPrepend(x: string, xs: seq<string>, sep: string)
    requires xs != []
    ensures JoinWith([x] + xs, sep) == x + sep + JoinWith(xs, sep)
  {
    assert ([x] + xs)[1..] == xs;
  }

  /**
   * After the update the PATH entries are the bin directory followed by the
   * entries that were there before (or those of the default path), provided
   * the directory's own name has no path separator in it.
   */
  lemma PathEntries(vars: map<string, string>, bin: Path, windows: bool)
    requires PathSep(windows) !in Render(bin, windows)
    ensures SplitOn(PrependedPath(vars, bin, windows), PathSep(windows)) ==
            [Render(bin, windows)] + SplitOn(Get(vars, "PATH", DefPath(windows)), PathSep(windows))
  {
    var sep := PathSep(windows);
    var rest := [sep] + Get(vars, "PATH", DefPath(windows));
    assert PrependedPath(vars, bin, windows) == Render(bin, windows) + rest;
    SplitOfFreePrefix(Render(bin, windows), rest, sep);
    assert rest[1..] == Get(vars, "PATH", DefPath(windows));
  }
}
