/**
 * The configuration table as the earlier iteration reads it: only the
 * hyphenated keys, each value type-checked before the object is built, a
 * string `python-cmd` kept raw until `python_cmd_normalized` splits it, and a
 * `merge_with` that builds a new object with Python's `or`.
 */
module EarlyConfigData {
  import opened PyValues
  import opened TypeSchema
  import Shlex
  import DotKeys
  import ConfigData

  /** A field: its name, its key, its annotation and the annotation text shown in errors. */
  datatype Field = Field(name: string, configName: string, annot: TypeAnnot, declared: string)

  const PythonCmdField := Field("python_cmd", "python-cmd", PythonCmdType, "t.Optional[t.Union[str, t.List[str]]]")
  const UseVenvField := Field("use_venv", "use-venv", UseVenvType, "t.Optional[str]")
  const Fields := [PythonCmdField, UseVenvField]

  lemma FieldKeys()
    ensures forall j :: 0 <= j < |Fields| ==> Fields[j].configName == ConfigData.ToSkewerCase(Fields[j].name)
  {
    ConfigData.PythonCmdKey();
    ConfigData.UseVenvKey();
  }

  /** A checked `python_cmd`: a string or a list of strings. */
  datatype Cmd = CmdStr(s: string) | CmdList(xs: seq<string>)

  datatype EarlyConfig = EarlyConfig(pythonCmd: Option<Cmd>, useVenv: Option<string>)

  const EmptyConfig := EarlyConfig(None, None)

  /** The TypeError for a value that fails its field's check; the type is the annotation's source text. */
  function Invalid(f: Field, v: Value): Exc {
    TypeError("invalid config " + f.configName + " = " + Repr(v) + ", expected value of type " + f.declared)
  }

  /** The keyword arguments after checking the first `n` fields, or the first TypeError. */
  function Checked(m: map<string, Value>, n: nat): (r: Outcome<map<string, Value>>)
    requires n <= |Fields|
    ensures r.Ok? ==> forall j :: 0 <= j < n ==> (Fields[j].name in r.value <==> Fields[j].configName in m)
    ensures r.Ok? ==> forall j :: 0 <= j < n && Fields[j].configName in m ==>
              r.value[Fields[j].name] == m[Fields[j].configName] && TypeCheck(Fields[j].annot, m[Fields[j].configName])
    ensures r.Ok? ==> forall k :: k in r.value ==> exists j :: 0 <= j < n && Fields[j].name == k
  {
    if n == 0 then Ok(map[])
    else
      var kwargs :- Checked(m, n - 1);
      var f := Fields[n - 1];
      if f.configName !in m then Ok(kwargs)
      else if !TypeCheck(f.annot, m[f.configName]) then Raise(Invalid(f, m[f.configName]))
      else Ok(kwargs[f.name := m[f.configName]])
  }

  /** Once a field fails its check, the later fields are never looked at. */
  lemma {:induction false} CheckedStops(m: map<string, Value>, i: nat, n: nat)
    requires i <= n <= |Fields| && Checked(m, i).Raise?
    ensures Checked(m, n) == Checked(m, i)
    decreases n - i
  {
    if i < n {
      CheckedStops(m, i, n - 1);
    }
  }

  /** `cls(**kwargs)`; the values already passed their checks. */
  function Build(kwargs: map<string, Value>): EarlyConfig {
    var pc := if "python_cmd" in kwargs then kwargs["python_cmd"] else NoneValue;
    var uv := if "use_venv" in kwargs then kwargs["use_venv"] else NoneValue;
    EarlyConfig(
      if pc.Str? then Some(CmdStr(pc.s)) else if IsStrList(pc) then Some(CmdList(Strings(pc))) else None,
      if uv.Str? then Some(uv.s) else None)
  }

  /** `Config.from_dict(data)` */
  function FromDictSpec(data: Value): Outcome<EarlyConfig> {
    if !data.Dict? then Raise(DotKeys.SubscriptError(data))
    else
      var kwargs :- Checked(data.entries, |Fields|);
      Ok(Build(kwargs))
  }

  /** The keys logged as unknown: everything but the hyphenated field keys. */
  function Warned(m: map<string, Value>): set<string> {
    m.Keys - {PythonCmdField.configName, UseVenvField.configName}
  }

  /** The keys the first `n` fields were read from. */
  function UsedKeys(m: map<string, Value>, n: nat): set<string>
    requires n <= |Fields|
  {
    if n == 0 then {}
    else UsedKeys(m, n - 1) + (if Fields[n - 1].configName in m then {Fields[n - 1].configName} else {})
  }

  /** `TypeCheckedFromDict.from_dict`: the checking loop, then the warnings, then the constructor. */
  method FromDict(data: Value) returns (r: Outcome<EarlyConfig>, unknown: set<string>)
    ensures r == FromDictSpec(data)
    ensures r.Ok? ==> unknown == Warned(data.entries)
  {
    unknown := {};
    if !data.Dict? {
      return Raise(DotKeys.SubscriptError(data)), unknown;
    }
    var m := data.entries;
    FieldKeys();
    var kwargs: map<string, Value> := map[];
    var used: set<string> := {};
    var i := 0;
    while i < |Fields|
      invariant 0 <= i <= |Fields|
      invariant Checked(m, i) == Ok(kwargs)
      invariant used == UsedKeys(m, i)
    {
      var field := Fields[i];
      var configName := ConfigData.ToSkewerCase(field.name);
      if configName in m {
        var configValue := m[configName];
        if !TypeCheck(field.annot, configValue) {
          CheckedStops(m, i + 1, |Fields|);
          return Raise(Invalid(field, configValue)), unknown;
        }
        kwargs := kwargs[field.name := configValue];
        used := used + {configName};
      }
      i := i + 1;
    }
    assert used == UsedKeys(m, 2);
    unknown := m.Keys - used;
    r := Ok(Build(kwargs));
  }

  // ----- properties of from_dict

  /** The underscored spelling is never read: such a key leaves the field unset and is warned about. */
  lemma UnderscoreKeyIgnored(m: map<string, Value>)
    requires "python_cmd" in m && "python-cmd" !in m && FromDictSpec(Dict(m)).Ok?
    ensures FromDictSpec(Dict(m)).value.pythonCmd.None?
    ensures "python_cmd" in Warned(m)
  {
  }

  /** A string `python-cmd` is stored as written, without shell splitting. */
  lemma StringKeptRaw(m: map<string, Value>, s: string)
    requires "python-cmd" in m && m["python-cmd"] == Str(s) && FromDictSpec(Dict(m)).Ok?
    ensures FromDictSpec(Dict(m)).value.pythonCmd == Some(CmdStr(s))
  {
    assert Fields[0].configName in m;
  }

  /** A wrongly typed `python-cmd` raises a TypeError naming the key, the value and the annotation text. */
  lemma WrongPythonCmdRejected(m: map<string, Value>)
    requires "python-cmd" in m && !TypeCheck(PythonCmdType, m["python-cmd"])
    ensures FromDictSpec(Dict(m)) == Raise(Invalid(PythonCmdField, m["python-cmd"]))
  {
    assert Fields[0] == PythonCmdField;
    assert Checked(m, 1) == Raise(Invalid(PythonCmdField, m["python-cmd"]));
    CheckedStops(m, 1, 2);
  }

  /** A wrongly typed `use-venv` raises its TypeError once `python-cmd` has passed. */
  lemma WrongUseVenvRejected(m: map<string, Value>)
    requires "use-venv" in m && !TypeCheck(UseVenvType, m["use-venv"])
    requires "python-cmd" in m ==> TypeCheck(PythonCmdType, m["python-cmd"])
    ensures FromDictSpec(Dict(m)) == Raise(Invalid(UseVenvField, m["use-venv"]))
  {
    assert Checked(m, 1).Ok?;
  }

  /** Values that pass their checks are all accepted, whatever other keys the table has. */
  lemma AcceptedTable(m: map<string, Value>)
    requires forall j :: 0 <= j < |Fields| && Fields[j].configName in m ==> TypeCheck(Fields[j].annot, m[Fields[j].configName])
    ensures FromDictSpec(Dict(m)).Ok?
  {
    assert Checked(m, 1).Ok?;
  }

  // ----- python_cmd_normalized and merge_with

  /** `python_cmd_normalized()`: a string is shell-split, a list is returned as it is. */
  function PythonCmdNormalized(c: EarlyConfig): (r: Outcome<Option<seq<string>>>)
    ensures c.pythonCmd.None? ==> r == Ok(None)
    ensures c.pythonCmd.Some? && c.pythonCmd.value.CmdList? ==> r == Ok(Some(c.pythonCmd.value.xs))
    ensures c.pythonCmd.Some? && c.pythonCmd.value.CmdStr? ==>
              r == (match Shlex.Split(c.pythonCmd.value.s) case Ok(ts) => Ok(Some(ts)) case Raise(e) => Raise(e))
  {
    match c.pythonCmd
    case None => Ok(None)
    case Some(CmdList(xs)) => Ok(Some(xs))
    case Some(CmdStr(s)) =>
      var tokens :- Shlex.Split(s);
      Ok(Some(tokens))
  }

  predicate CmdTruthy(c: Option<Cmd>) {
    match c
    case None => false
    case Some(CmdStr(s)) => s != ""
    case Some(CmdList(xs)) => xs != []
  }

  predicate StrTruthy(s: Option<string>) {
    s.Some? && s.value != ""
  }

  /** `self.merge_with(other)`: a new Config of `self.field or other.field`. */
  function MergeWith(self: EarlyConfig, other: EarlyConfig): (r: EarlyConfig)
    ensures CmdTruthy(self.pythonCmd) ==> r.pythonCmd == self.pythonCmd
    ensures !CmdTruthy(self.pythonCmd) ==> r.pythonCmd == other.pythonCmd
    ensures StrTruthy(self.useVenv) ==> r.useVenv == self.useVenv
    ensures !StrTruthy(self.useVenv) ==> r.useVenv == other.useVenv
  {
    EarlyConfig(
      if CmdTruthy(self.pythonCmd) then self.pythonCmd else other.pythonCmd,
      if StrTruthy(self.useVenv) then self.useVenv else other.useVenv)
  }

  /**
   * Unlike the final iteration's merge, an empty string or list set in `self`
   * does not survive a merge with an empty configuration.
   */
  lemma MergeDropsFalsy(self: EarlyConfig)
    requires self.pythonCmd == Some(CmdStr("")) || self.pythonCmd == Some(CmdList([]))
    ensures MergeWith(self, EmptyConfig).pythonCmd.None?
  {
  }

  /** `or` is associative and idempotent, so merging is too. */
  lemma MergeLaws(a: EarlyConfig, b: EarlyConfig, c: EarlyConfig)
    ensures MergeWith(MergeWith(a, b), c) == MergeWith(a, MergeWith(b, c))
    ensures MergeWith(a, a) == a
    ensures MergeWith(EmptyConfig, a) == a
  {
  }
}
