/**
 * The oldest iteration of project detection: four tools, no virtual
 * environment support, any non-None `python-cmd` taken as custom (reported
 * with the boolean True in place of a kind), a command that falls back to
 * `rye run python`, and a detection that records the directory it was asked
 * about rather than the manifest it found.
 */
module OldestIdentify {
  import opened PyValues
  import opened Paths
  import DotKeys
  import PK = ProjectKinds
  import Identify

  /** `ProjectKind` of this iteration. */
  datatype ProjectKind = CustomConfiguration | Rye | Poetry | Pdm | Hatch | Unknown | NoProject | InvalidData

  /** The kind slot of a detection: a kind, or the boolean True that a custom project gets. */
  datatype Identity = Kind(k: ProjectKind) | TrueFlag

  /** `ProjectDetection`: the directory asked about, the identity and the raw configured command. */
  datatype Detection = Detection(path: Path, kind: Identity, pythonCmd: Value)

  const DefaultRyeRunCmd: seq<string> := ["rye", "run", "python"]

  /** `ProjectKind.python_cmd()` */
  function KindCommand(k: ProjectKind): (r: Option<seq<string>>)
    ensures r.Some? <==> k in {Rye, Poetry, Pdm, Hatch}
    ensures r.Some? ==> |r.value| == 3 && r.value[1..] == ["run", "python"]
    ensures k == Rye ==> r == Some(DefaultRyeRunCmd)
  {
    match k
    case Rye => Some(DefaultRyeRunCmd)
    case Poetry => Some(["poetry", "run", "python"])
    case Pdm => Some(["pdm", "run", "python"])
    case Hatch => Some(["hatch", "run", "python"])
    case _ => None
  }

  /** `get_python_cmd()`: the configured command, else the kind's, else `rye run python`. */
  function GetPythonCmd(det: Detection): (r: Outcome<Value>)
    ensures det.pythonCmd != NoneValue ==> r == Ok(det.pythonCmd)
    ensures det.pythonCmd == NoneValue && det.kind.Kind? ==>
              r == Ok(StrList(if KindCommand(det.kind.k).Some? then KindCommand(det.kind.k).value else DefaultRyeRunCmd))
    ensures r.Raise? <==> det.pythonCmd == NoneValue && det.kind.TrueFlag?
  {
    if det.pythonCmd != NoneValue then Ok(det.pythonCmd)
    else match det.kind
      case TrueFlag => Raise(AttributeError("'bool' object has no attribute 'python_cmd'"))
      case Kind(k) =>
        var cmd := KindCommand(k);
        Ok(StrList(if cmd.Some? then cmd.value else DefaultRyeRunCmd))
  }

  const PythonCmdKey: seq<string> := PK.ToolTableKey + ["python-cmd"]

  /** `is_custom`: any value other than None. */
  function IsCustom(data: Value): (r: Outcome<Value>)
    ensures r.Raise? <==> DotKeys.Walk(data, PythonCmdKey).NotSubscriptable?
    ensures r.Ok? ==> r.value == if DotKeys.Walk(data, PythonCmdKey).Found? then DotKeys.Walk(data, PythonCmdKey).v else NoneValue
  {
    DotKeys.DotKey(data, PythonCmdKey, NoneValue)
  }

  function Detects(k: ProjectKind, data: Value): Outcome<bool> {
    match k
    case Rye => PK.RyeManaged(data)
    case Pdm => PK.PdmSection(data)
    case Poetry => PK.PoetryNamed(data)
    case Hatch => PK.HatchSection(data)
    case _ => Ok(false)
  }

  const DetectionOrder: seq<ProjectKind> := [Rye, Pdm, Poetry, Hatch]

  /** `_identify_toml(data)`: the identity and the configured command (None unless custom). */
  function IdentifyToml(data: Value): (r: Outcome<(Identity, Value)>)
    ensures !data.Dict? ==> r == Ok((Kind(InvalidData), NoneValue))
    ensures r.Ok? ==> (r.value.0 == TrueFlag <==> r.value.1 != NoneValue)
    ensures r.Ok? ==> r.value.0 != Kind(CustomConfiguration) && r.value.0 != Kind(NoProject)
  {
    if !data.Dict? then Ok((Kind(InvalidData), NoneValue))
    else
      var pythonCmd :- IsCustom(data);
      if pythonCmd != NoneValue then Ok((TrueFlag, pythonCmd))
      else
        var hit :- PK.FirstMatch(DetectionOrder, k => Detects(k, data), 0);
        if hit.Some? then
          assert hit.value in DetectionOrder;
          Ok((Kind(hit.value), NoneValue))
        else Ok((Kind(Unknown), NoneValue))
  }

  /** Any configured `python-cmd`, of whatever type, makes the project custom and is kept as it is. */
  lemma AnyValueIsCustom(data: Value, v: Value)
    requires data.Dict? && DotKeys.Walk(data, PythonCmdKey) == DotKeys.Found(v) && v != NoneValue
    ensures IdentifyToml(data) == Ok((TrueFlag, v))
  {
  }

  /** Without `python-cmd`, the first of Rye, Pdm, Poetry and Hatch that holds gives the kind; none gives Unknown. */
  lemma ToolOrder(data: Value, i: nat)
    requires data.Dict? && IsCustom(data) == Ok(NoneValue)
    requires i <= |DetectionOrder|
    requires forall j :: 0 <= j < i ==> Detects(DetectionOrder[j], data) == Ok(false)
    ensures i < |DetectionOrder| && Detects(DetectionOrder[i], data) == Ok(true) ==>
              IdentifyToml(data) == Ok((Kind(DetectionOrder[i]), NoneValue))
    ensures i == |DetectionOrder| ==> IdentifyToml(data) == Ok((Kind(Unknown), NoneValue))
  {
    if i < |DetectionOrder| && Detects(DetectionOrder[i], data) == Ok(true) {
      PK.FirstMatchPicks(DetectionOrder, k => Detects(k, data), 0, i);
    }
  }

  /** `identify(file)`, where `resolved` is `Path(file).resolve()`. */
  function IdentifySpec(file: Path, resolved: Path, pathExists: Path -> bool, read: Path -> Identify.ReadResult)
    : (r: Outcome<Detection>)
    ensures r.Ok? ==> r.value.path == file
    ensures r.Ok? ==> (r.value.kind == TrueFlag <==> r.value.pythonCmd != NoneValue)
    ensures Locate(resolved, pathExists).None? ==> r == Ok(Detection(file, Kind(NoProject), NoneValue))
    ensures Locate(resolved, pathExists).Some? && read(Locate(resolved, pathExists).value).ReadFailed? ==>
              r == Ok(Detection(file, Kind(InvalidData), NoneValue))
  {
    match Locate(resolved, pathExists)
    case None => Ok(Detection(file, Kind(NoProject), NoneValue))
    case Some(pyproj) =>
      match read(pyproj)
      case ReadFailed(_) => Ok(Detection(file, Kind(InvalidData), NoneValue))
      case Parsed(doc) =>
        var identity :- IdentifyToml(doc);
        Ok(Detection(file, identity.0, identity.1))
  }

  /** Whatever `identify` returns has a command: `get_python_cmd` never fails and never gives None. */
  lemma AlwaysACommand(file: Path, resolved: Path, pathExists: Path -> bool, read: Path -> Identify.ReadResult)
    requires IdentifySpec(file, resolved, pathExists, read).Ok?
    ensures GetPythonCmd(IdentifySpec(file, resolved, pathExists, read).value).Ok?
    ensures GetPythonCmd(IdentifySpec(file, resolved, pathExists, read).value).value != NoneValue
  {
  }

  /** Kinds without a tool of their own run through rye. */
  lemma RyeDefault(path: Path, k: ProjectKind)
    requires k in {CustomConfiguration, Unknown, NoProject, InvalidData}
    ensures GetPythonCmd(Detection(path, Kind(k), NoneValue)) == Ok(StrList(DefaultRyeRunCmd))
  {
  }
}
