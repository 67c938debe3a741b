/**
 * The earlier iteration of project detection. The configuration is read
 * straight from the document: a string `python-cmd` becomes a one-element
 * list without splitting, values of other types are treated as unset, the
 * tool predicates need no project table, and any table is classified (only a
 * document that is not a table is invalid).
 */
module EarlyIdentify {
  import opened PyValues
  import opened Paths
  import opened ProjectKinds
  import DotKeys
  import Identify

  /** `ProjectDetection` of this iteration: the configured values are fields of their own. */
  datatype Detection = Detection(path: Option<Path>, kind: ProjectKind, pythonCmd: Option<seq<Value>>, useVenv: Option<string>)

  /** What `_identify_toml` returns: the kind and the extra fields. */
  datatype Identity = Identity(kind: ProjectKind, pythonCmd: Option<seq<Value>>, useVenv: Option<string>)

  const PythonCmdKey: seq<string> := ToolTableKey + ["python-cmd"]
  const UseVenvKey: seq<string> := ToolTableKey + ["use-venv"]

  /** `is_custom`: a string is wrapped in a list; anything but a list counts as unset. */
  function IsCustom(data: Value): (r: Outcome<Option<seq<Value>>>)
    ensures r.Raise? <==> DotKeys.Walk(data, PythonCmdKey).NotSubscriptable?
    ensures r.Ok? && DotKeys.Walk(data, PythonCmdKey).Found? ==>
              var v := DotKeys.Walk(data, PythonCmdKey).v;
              r.value == (if v.Str? then Some([v]) else if v.List? then Some(v.items) else None)
    ensures r.Ok? && !DotKeys.Walk(data, PythonCmdKey).Found? ==> r.value.None?
  {
    var value :- DotKeys.DotKey(data, PythonCmdKey, NoneValue);
    var pythonCmd := if value.Str? then List([value]) else value;
    Ok(if pythonCmd.List? then Some(pythonCmd.items) else None)
  }

  /** `is_use_venv`: anything but a string counts as unset. */
  function IsUseVenv(data: Value): (r: Outcome<Option<string>>)
    ensures r.Raise? <==> DotKeys.Walk(data, UseVenvKey).NotSubscriptable?
    ensures r.Ok? ==> (r.value.Some? <==> DotKeys.Walk(data, UseVenvKey).Found? && DotKeys.Walk(data, UseVenvKey).v.Str?)
    ensures r.Ok? && r.value.Some? ==> DotKeys.Walk(data, UseVenvKey).v == Str(r.value.value)
  {
    var value :- DotKeys.DotKey(data, UseVenvKey, NoneValue);
    Ok(if value.Str? then Some(value.s) else None)
  }

  /** The tool predicates of this iteration look only at their own sections. */
  function Detects(k: ProjectKind, data: Value): Outcome<bool> {
    match k
    case Rye => RyeManaged(data)
    case Pdm => PdmSection(data)
    case Poetry => PoetryNamed(data)
    case Hatch => HatchSection(data)
    case Uv => UvSection(data)
    case _ => Ok(false)
  }

  const DetectionOrder: seq<ProjectKind> := [Rye, Pdm, Poetry, Hatch, Uv]

  /** `_identify_toml(data)` */
  function IdentifyToml(data: Value): (r: Outcome<Identity>)
    ensures !data.Dict? ==> r == Ok(Identity(InvalidData, None, None))
    ensures data.Dict? && r.Ok? ==> r.value.kind != InvalidData && r.value.kind != NoProject
    ensures r.Ok? ==> (r.value.kind == CustomConfiguration <==> r.value.pythonCmd.Some?)
    ensures r.Ok? ==> (r.value.kind == UseVenv <==> r.value.useVenv.Some?)
  {
    if !data.Dict? then Ok(Identity(InvalidData, None, None))
    else
      var custom :- IsCustom(data);
      if custom.Some? then Ok(Identity(CustomConfiguration, custom, None))
      else
        var useVenv :- IsUseVenv(data);
        if useVenv.Some? then Ok(Identity(UseVenv, None, useVenv))
        else
          var hit :- FirstMatch(DetectionOrder, k => Detects(k, data), 0);
          if hit.Some? then
            assert hit.value in DetectionOrder;
            Ok(Identity(hit.value, None, None))
          else Ok(Identity(Unknown, None, None))
  }

  /** A string `python-cmd` is custom as a one-element command, not shell-split. */
  lemma StringIsOneElement(data: Value, s: string)
    requires data.Dict? && DotKeys.Walk(data, PythonCmdKey) == DotKeys.Found(Str(s))
    ensures IdentifyToml(data) == Ok(Identity(CustomConfiguration, Some([Str(s)]), None))
  {
  }

  /** A list `python-cmd` is taken as it is, whatever its elements are. */
  lemma ListTakenAsIs(data: Value, items: seq<Value>)
    requires data.Dict? && DotKeys.Walk(data, PythonCmdKey) == DotKeys.Found(List(items))
    ensures IdentifyToml(data) == Ok(Identity(CustomConfiguration, Some(items), None))
  {
  }

  /** A `python-cmd` that is neither a string nor a list is ignored, and so is a `use-venv` that is not a string. */
  lemma WrongTypesIgnored(data: Value)
    requires data.Dict?
    requires DotKeys.Walk(data, PythonCmdKey).Found? && !DotKeys.Walk(data, PythonCmdKey).v.Str?
    requires !DotKeys.Walk(data, PythonCmdKey).v.List?
    requires DotKeys.Walk(data, UseVenvKey).Found? && !DotKeys.Walk(data, UseVenvKey).v.Str?
    ensures IdentifyToml(data).Ok? ==> IdentifyToml(data).value.kind !in {CustomConfiguration, UseVenv}
  {
  }

  /** Without configuration, the first tool section in the fixed order gives the kind; none gives Unknown. */
  lemma ToolOrder(data: Value, i: nat)
    requires data.Dict? && IsCustom(data) == Ok(None) && IsUseVenv(data) == Ok(None)
    requires i <= |DetectionOrder|
    requires forall j :: 0 <= j < i ==> Detects(DetectionOrder[j], data) == Ok(false)
    ensures i < |DetectionOrder| && Detects(DetectionOrder[i], data) == Ok(true) ==>
              IdentifyToml(data) == Ok(Identity(DetectionOrder[i], None, None))
    ensures i == |DetectionOrder| ==> IdentifyToml(data) == Ok(Identity(Unknown, None, None))
  {
    if i < |DetectionOrder| && Detects(DetectionOrder[i], data) == Ok(true) {
      FirstMatchPicks(DetectionOrder, k => Detects(k, data), 0, i);
    }
  }

  /** `identify(file)` for the resolved directory `cwd`. */
  function IdentifySpec(cwd: Path, pathExists: Path -> bool, read: Path -> Identify.ReadResult): (r: Outcome<Detection>)
    ensures Locate(cwd, pathExists).None? ==> r == Ok(Detection(None, NoProject, None, None))
    ensures Locate(cwd, pathExists).Some? && r.Ok? ==> r.value.path == Locate(cwd, pathExists) && r.value.kind != NoProject
    ensures Locate(cwd, pathExists).Some? && read(Locate(cwd, pathExists).value).ReadFailed? ==>
              r == Ok(Detection(Locate(cwd, pathExists), InvalidData, None, None))
  {
    match Locate(cwd, pathExists)
    case None => Ok(Detection(None, NoProject, None, None))
    case Some(pyproj) =>
      match read(pyproj)
      case ReadFailed(_) => Ok(Detection(Some(pyproj), InvalidData, None, None))
      case Parsed(doc) =>
        var identity :- IdentifyToml(doc);
        Ok(Detection(Some(pyproj), identity.kind, identity.pythonCmd, identity.useVenv))
  }

  /** An invalid detection of this iteration always comes from a manifest that is unreadable or not a table. */
  lemma InvalidOnlyFromBadManifest(cwd: Path, pathExists: Path -> bool, read: Path -> Identify.ReadResult)
    requires IdentifySpec(cwd, pathExists, read).Ok? && IdentifySpec(cwd, pathExists, read).value.kind == InvalidData
    ensures Locate(cwd, pathExists).Some?
    ensures read(Locate(cwd, pathExists).value).ReadFailed? || !read(Locate(cwd, pathExists).value).doc.Dict?
  {
  }

  function Items(vs: seq<Value>): (r: seq<Arg>)
    ensures |r| == |vs| && forall k :: 0 <= k < |vs| ==> r[k] == Item(vs[k])
  {
    seq(|vs|, k requires 0 <= k < |vs| => Item(vs[k]))
  }

  function CommandArgs(cmd: Option<seq<string>>): (r: Option<seq<Arg>>)
    ensures r.Some? <==> cmd.Some?
    ensures cmd.Some? ==> r.value == Texts(cmd.value)
  {
    if cmd.Some? then Some(Texts(cmd.value)) else None
  }

  /** `get_python_cmd(allow_fallback, allow_hatch_workaround)` */
  function GetPythonCmd(det: Detection, allowFallback: bool, allowHatch: bool, host: Host, hatch: HatchAnswer)
    : (r: Outcome<Option<seq<Arg>>>)
    ensures det.kind != Hatch && det.useVenv.None? && det.pythonCmd.None? ==>
              r == Ok(if KindCommand(det.kind).None? && allowFallback && det.kind !in {NoProject, InvalidData}
                      then CommandArgs(KindCommand(FallbackKind(host)))
                      else CommandArgs(KindCommand(det.kind)))
  {
    var useVenv :-
      if det.kind == Hatch && allowHatch then
        if det.path.None? then Raise(AssertionError)
        else
          var hatchEnv :- HatchVenv(hatch);
          Ok(if hatchEnv.Some? && hatchEnv.value != "" then hatchEnv else det.useVenv)
      else Ok(det.useVenv);
    if useVenv.Some? then
      if det.path.None? then Raise(AssertionError)
      else Ok(Some(Identify.VenvEnvironment(det.path.value, useVenv.value, host.windows).pythonCmd))
    else if det.pythonCmd.Some? then Ok(Some(Items(det.pythonCmd.value)))
    else
      var result := KindCommand(det.kind);
      if result.None? && allowFallback && det.kind !in {NoProject, InvalidData} then
        Ok(CommandArgs(KindCommand(FallbackKind(host))))
      else Ok(CommandArgs(result))
  }

  /** Precedence: the virtual environment, then the configured command as given, then the kind's command. */
  lemma CommandPrecedence(det: Detection, allowFallback: bool, allowHatch: bool, host: Host, hatch: HatchAnswer)
    requires !(det.kind == Hatch && allowHatch) && det.path.Some?
    ensures det.useVenv.Some? ==>
              GetPythonCmd(det, allowFallback, allowHatch, host, hatch) ==
              Ok(Some(Identify.VenvEnvironment(det.path.value, det.useVenv.value, host.windows).pythonCmd))
    ensures det.useVenv.None? && det.pythonCmd.Some? ==>
              GetPythonCmd(det, allowFallback, allowHatch, host, hatch) == Ok(Some(Items(det.pythonCmd.value)))
    ensures det.useVenv.None? && det.pythonCmd.None? && det.kind.IsTool() ==>
              GetPythonCmd(det, allowFallback, allowHatch, host, hatch) == Ok(Some(Texts(KindCommand(det.kind).value)))
  {
  }

  /** The fallback: uv, then rye, then nothing; never for NoProject or InvalidData, never when not allowed. */
  lemma FallbackRules(det: Detection, allowFallback: bool, host: Host, hatch: HatchAnswer)
    requires det.useVenv.None? && det.pythonCmd.None? && !det.kind.IsTool()
    ensures GetPythonCmd(det, allowFallback, true, host, hatch) ==
            if allowFallback && det.kind !in {NoProject, InvalidData} && (host.uvOnPath || host.ryeOnPath)
            then Ok(Some(Texts(if host.uvOnPath then UvCommand else KindCommand(Rye).value)))
            else Ok(None)
  {
    FallbackCommand(host);
  }
}
