/**
 * What the two later iterations share: the project kinds and their launch
 * commands, the host facts that the resolver consults (`os.name`,
 * `shutil.which`, `hatch env find`), the tool-section detectors over a parsed
 * pyproject.toml, and the ordered first-match search.
 */
module ProjectKinds {
  import opened PyValues
  import opened Paths
  import DotKeys

  /** `ProjectKind` of the two later iterations. */
  datatype ProjectKind =
    | CustomConfiguration
    | UseVenv
    | Rye
    | Poetry
    | Pdm
    | Hatch
    | Uv
    | Unknown
    | NoProject
    | InvalidData
  {
    /** Kinds that are run through a project manager. */
    predicate IsTool() {
      this in {Rye, Poetry, Pdm, Hatch, Uv}
    }
  }

  /** `ProjectKind.python_cmd()` */
  function KindCommand(k: ProjectKind): (r: Option<seq<string>>)
    ensures r.Some? <==> k.IsTool()
    ensures r.Some? ==> |r.value| >= 3 && r.value[1] == "run" && r.value[|r.value| - 1] == "python"
    ensures k.IsTool() && k != Uv ==> |r.value| == 3
  {
    match k
    case Rye => Some(["rye", "run", "python"])
    case Poetry => Some(["poetry", "run", "python"])
    case Pdm => Some(["pdm", "run", "python"])
    case Hatch => Some(["hatch", "run", "python"])
    case Uv => Some(UvCommand)
    case _ => None
  }

  /** uv is asked to provide ipykernel itself. */
  const UvCommand: seq<string> := ["uv", "run", "--with", "ipykernel", "python"]

  /** An element of a launch command: a string, a `Path`, or (in the earlier iteration) any configured value. */
  datatype Arg = Text(s: string) | PathArg(p: Path) | Item(v: Value)

  function Texts(xs: seq<string>): (r: seq<Arg>)
    ensures |r| == |xs| && forall k :: 0 <= k < |xs| ==> r[k] == Text(xs[k])
  {
    seq(|xs|, k requires 0 <= k < |xs| => Text(xs[k]))
  }

  /** The facts about the host that the resolver reads. */
  datatype Host = Host(windows: bool, uvOnPath: bool, ryeOnPath: bool)

  /** `_fallback_project_kind()`: uv if it is on PATH, else rye, else Unknown. */
  function FallbackKind(host: Host): (r: ProjectKind)
    ensures r in {Uv, Rye, Unknown}
    ensures r == Uv <==> host.uvOnPath
    ensures r == Rye <==> !host.uvOnPath && host.ryeOnPath
  {
    if host.uvOnPath then Uv
    else if host.ryeOnPath then Rye
    else Unknown
  }

  /** The fallback kind's command is exactly the table command of a tool that was found. */
  lemma FallbackCommand(host: Host)
    ensures KindCommand(FallbackKind(host)).Some? <==> host.uvOnPath || host.ryeOnPath
    ensures host.uvOnPath ==> KindCommand(FallbackKind(host)) == Some(UvCommand)
    ensures !host.uvOnPath && host.ryeOnPath ==> KindCommand(FallbackKind(host)) == KindCommand(Rye)
  {
  }

  // ----- `hatch env find`

  /** What running `hatch env find` produced. */
  datatype HatchAnswer =
    | HatchOutput(stdout: string)   // the process exited with status 0
    | HatchOSError                  // it could not be started
    | HatchFailed(exc: Exc)         // CalledProcessError or TimeoutExpired, which are not caught

  /** The ASCII characters for which `str.isspace()` holds: space, `\t`..`\r` and the separators `\x1c`..`\x1f`. */
  predicate IsWhitespace(c: char) {
    c == ' ' || '\t' <= c <= '\r' || '\U{001C}' <= c <= '\U{001F}'
  }

  function TrimStart(s: string): (r: string)
    ensures |r| <= |s| && r == s[|s| - |r|..]
    ensures r == [] || !IsWhitespace(r[0])
    ensures forall k :: 0 <= k < |s| - |r| ==> IsWhitespace(s[k])
  {
    if s != [] && IsWhitespace(s[0]) then TrimStart(s[1..]) else s
  }

  function TrimEnd(s: string): (r: string)
    ensures |r| <= |s| && r == s[..|r|]
    ensures r == [] || !IsWhitespace(r[|r| - 1])
    ensures forall k :: |r| <= k < |s| ==> IsWhitespace(s[k])
  {
    if s != [] && IsWhitespace(s[|s| - 1]) then TrimEnd(s[..|s| - 1]) else s
  }

  /** `str.strip()` for ASCII whitespace. */
  function Strip(s: string): string {
    TrimEnd(TrimStart(s))
  }

  /** Stripping leaves nothing exactly when the text is all whitespace. */
  lemma StripEmpty(s: string)
    ensures Strip(s) == [] <==> forall k :: 0 <= k < |s| ==> IsWhitespace(s[k])
  {
    var t := TrimStart(s);
    if Strip(s) == [] {
      // what TrimStart leaves starts with a non-blank, and TrimEnd removed all of it: nothing was left
      assert t == [];
    } else {
      assert !IsWhitespace(Strip(s)[0]) && Strip(s)[0] == t[0] == s[|s| - |t|];
    }
  }

  /** Stripping keeps the text between the first and the last non-whitespace character. */
  lemma StripIsInfix(s: string)
    ensures exists i, j :: 0 <= i <= j <= |s| && Strip(s) == s[i..j]
  {
    var t := TrimStart(s);
    var i := |s| - |t|;
    assert Strip(s) == t[..|Strip(s)|] == s[i..i + |Strip(s)|];
  }

  /** `get_hatch_venv`: the stripped output, None when hatch cannot be started, other errors raised. */
  function HatchVenv(ans: HatchAnswer): (r: Outcome<Option<string>>)
    ensures ans.HatchOutput? ==> r == Ok(Some(Strip(ans.stdout)))
    ensures ans.HatchOSError? ==> r == Ok(None)
    ensures ans.HatchFailed? ==> r == Raise(ans.exc)
  {
    match ans
    case HatchOutput(out) => Ok(Some(Strip(out)))
    case HatchOSError => Ok(None)
    case HatchFailed(e) => Raise(e)
  }

  // ----- detectors over the parsed document

  /** Python's `a and b` on two predicates; `b` only matters when `a` held. */
  function AndAlso(a: Outcome<bool>, b: Outcome<bool>): (r: Outcome<bool>)
    ensures r == Ok(true) <==> a == Ok(true) && b == Ok(true)
    ensures a == Ok(false) ==> r == Ok(false)
  {
    if a.Raise? then a else if !a.value then Ok(false) else b
  }

  /** Python's `a or b` on two predicates; `b` only matters when `a` failed. */
  function OrElse(a: Outcome<bool>, b: Outcome<bool>): (r: Outcome<bool>)
    ensures r == Ok(false) <==> a == Ok(false) && b == Ok(false)
    ensures a == Ok(true) ==> r == Ok(true)
  {
    if a.Raise? then a else if a.value then Ok(true) else b
  }

  /** The configuration table of this tool. */
  const ToolTableKey: seq<string> := ["tool", "pyproject-local-kernel"]

  /** `has_project_table`: `project.name`, and `project.version` or `project.dynamic`. */
  function HasProjectTable(data: Value): Outcome<bool> {
    AndAlso(DotKeys.HasDotKey(data, ["project", "name"]),
            OrElse(DotKeys.HasDotKey(data, ["project", "version"]), DotKeys.HasDotKey(data, ["project", "dynamic"])))
  }

  /** `get_dotkey(data, 'tool.rye.managed', False) is True` */
  function RyeManaged(data: Value): (r: Outcome<bool>)
    ensures r == Ok(true) <==> DotKeys.Walk(data, ["tool", "rye", "managed"]) == DotKeys.Found(Bool(true))
  {
    var managed :- DotKeys.DotKey(data, ["tool", "rye", "managed"], Bool(false));
    Ok(managed == Bool(true))
  }

  /** `bool(get_dotkey(data, 'tool.poetry.name', ""))` */
  function PoetryNamed(data: Value): (r: Outcome<bool>)
    ensures r == Ok(true) <==> exists v :: DotKeys.Walk(data, ["tool", "poetry", "name"]) == DotKeys.Found(v) && Truthy(v)
  {
    var name :- DotKeys.DotKey(data, ["tool", "poetry", "name"], Str(""));
    Ok(Truthy(name))
  }

  /** `tool.pdm` is present and not None. */
  function PdmSection(data: Value): Outcome<bool> {
    DotKeys.HasDotKey(data, ["tool", "pdm"])
  }

  /** `tool.hatch.version` or `tool.hatch.envs` is present. */
  function HatchSection(data: Value): Outcome<bool> {
    OrElse(DotKeys.HasDotKey(data, ["tool", "hatch", "version"]), DotKeys.HasDotKey(data, ["tool", "hatch", "envs"]))
  }

  /** `tool.uv` is present and not None. */
  function UvSection(data: Value): Outcome<bool> {
    DotKeys.HasDotKey(data, ["tool", "uv"])
  }

  /** `has_project_table` holds exactly when the name and a version or dynamic list are present. */
  lemma ProjectTableMeaning(data: Value)
    ensures HasProjectTable(data) == Ok(true) <==>
              DotKeys.HasDotKey(data, ["project", "name"]) == Ok(true) &&
              (DotKeys.HasDotKey(data, ["project", "version"]) == Ok(true) ||
               (DotKeys.HasDotKey(data, ["project", "version"]) == Ok(false) &&
                DotKeys.HasDotKey(data, ["project", "dynamic"]) == Ok(true)))
  {
  }

  // ----- ordered first match

  /**
   * The first kind of `order[from..]` whose detector holds. A detector that
   * raises stops the search with its exception.
   */
  function FirstMatch<K>(order: seq<K>, test: K -> Outcome<bool>, from: nat): (r: Outcome<Option<K>>)
    requires from <= |order|
    ensures r == Ok(None) <==> forall j :: from <= j < |order| ==> test(order[j]) == Ok(false)
    ensures r.Ok? && r.value.Some? ==>
              exists i :: from <= i < |order| && order[i] == r.value.value && test(order[i]) == Ok(true) &&
                          forall j :: from <= j < i ==> test(order[j]) == Ok(false)
    ensures r.Raise? ==>
              exists i :: from <= i < |order| && test(order[i]) == Raise(r.exc) &&
                          forall j :: from <= j < i ==> test(order[j]) == Ok(false)
    decreases |order| - from
  {
    if from == |order| then Ok(None)
    else
      var hit :- test(order[from]);
      if hit then Ok(Some(order[from])) else FirstMatch(order, test, from + 1)
  }

  /** The first hit wins: a kind is reported when it holds and every earlier one is known not to. */
  lemma {:induction false} FirstMatchPicks<K>(order: seq<K>, test: K -> Outcome<bool>, from: nat, i: nat)
    requires from <= i < |order|
    requires test(order[i]) == Ok(true)
    requires forall j :: from <= j < i ==> test(order[j]) == Ok(false)
    ensures FirstMatch(order, test, from) == Ok(Some(order[i]))
    decreases i - from
  {
    if from < i {
      FirstMatchPicks(order, test, from + 1, i);
    }
  }
}
