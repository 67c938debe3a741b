/**
 * The `[tool.pyproject-local-kernel]` configuration table, as the final
 * iteration reads it: each field is looked up under its hyphenated name and
 * then under its own underscored name, a string `python-cmd` is shell-split,
 * every field is type-checked after construction, and `merge_with` fills
 * the fields that are None from another configuration, in place.
 */
module ConfigData {
  import opened PyValues
  import opened TypeSchema
  import Shlex
  import DotKeys

  /** `_to_skewer_case(name)`: every underscore becomes a hyphen. */
  function ToSkewerCase(name: string): string {
    seq(|name|, k requires 0 <= k < |name| => if name[k] == '_' then '-' else name[k])
  }

  /** A field of `Config`: its name, its key in the table, its annotation and how errors show that annotation. */
  datatype Field = Field(name: string, configName: string, annot: TypeAnnot, shownType: string)

  const PythonCmdField := Field("python_cmd", "python-cmd", PythonCmdType, "'" + "str | list[str] | None" + "'")
  const UseVenvField := Field("use_venv", "use-venv", UseVenvType, "'" + "str | None" + "'")
  const SanityCheckField := Field("sanity_check", "sanity-check", SanityCheckType, "'" + "bool | None" + "'")
  /** `dataclasses.fields(Config)`, in declaration order. */
  const Fields := [PythonCmdField, UseVenvField, SanityCheckField]

  /** Each field's table key is `_to_skewer_case` of its name. */
  lemma FieldKeys()
    ensures forall j :: 0 <= j < |Fields| ==> Fields[j].configName == ToSkewerCase(Fields[j].name)
  {
    PythonCmdKey();
    UseVenvKey();
    SanityCheckKey();
  }

  lemma PythonCmdKey() ensures ToSkewerCase("python_cmd") == "python-cmd" {}
  lemma UseVenvKey() ensures ToSkewerCase("use_venv") == "use-venv" {}
  lemma SanityCheckKey() ensures ToSkewerCase("sanity_check") == "sanity-check" {}

  /**
   * Each field's shown type is `repr(_type_name(annot))`: the rendered
   * annotation in single quotes, as `StrRepr` writes printable ASCII without
   * quotes or backslashes (`PlainStrRepr`).
   */
  lemma FieldShownTypes()
    ensures forall j :: 0 <= j < |Fields| ==> Fields[j].shownType == "'" + TypeName(Fields[j].annot) + "'"
  {
    FieldTypeNames();
  }

  /** A constructed configuration; None is a field left unset. */
  datatype ConfigData = ConfigData(pythonCmd: Option<seq<string>>, useVenv: Option<string>, sanityCheck: Option<bool>)

  /** `Config()` */
  const EmptyConfig := ConfigData(None, None, None)

  // ----- _dataclass_from_dict

  /** The key a field is read from and its value: the hyphenated name first, then the field's own name. */
  function LookupField(m: map<string, Value>, f: Field): (r: Option<(string, Value)>)
    ensures r.None? <==> f.configName !in m && f.name !in m
    ensures f.configName in m ==> r == Some((f.configName, m[f.configName]))
    ensures f.configName !in m && f.name in m ==> r == Some((f.name, m[f.name]))
  {
    if f.configName in m then Some((f.configName, m[f.configName]))
    else if f.name in m then Some((f.name, m[f.name]))
    else None
  }

  /** The keyword arguments and the used keys after the first `n` fields. */
  function Collected(m: map<string, Value>, n: nat): (map<string, Value>, set<string>)
    requires n <= |Fields|
  {
    if n == 0 then (map[], {})
    else
      var (kwargs, used) := Collected(m, n - 1);
      match LookupField(m, Fields[n - 1])
      case None => (kwargs, used)
      case Some((key, v)) => (kwargs[Fields[n - 1].name := v], used + {key})
  }

  /** What the first `n` fields collect: each found field maps to the value of the key it was found under. */
  lemma CollectedFields(m: map<string, Value>, n: nat)
    requires n <= |Fields|
    ensures forall k :: k in Collected(m, n).0 <==> exists j :: 0 <= j < n && Fields[j].name == k && LookupField(m, Fields[j]).Some?
    ensures forall j :: 0 <= j < n && LookupField(m, Fields[j]).Some? ==>
              Fields[j].name in Collected(m, n).0 && Collected(m, n).0[Fields[j].name] == LookupField(m, Fields[j]).value.1
    ensures forall k :: k in Collected(m, n).1 <==> exists j :: 0 <= j < n && LookupField(m, Fields[j]).Some? && LookupField(m, Fields[j]).value.0 == k
  {
    CollectedNames(m, n);
    CollectedValues(m, n);
    CollectedUsed(m, n);
  }

  lemma {:induction false} CollectedNames(m: map<string, Value>, n: nat)
    requires n <= |Fields|
    ensures forall k :: k in Collected(m, n).0 <==> exists j :: 0 <= j < n && Fields[j].name == k && LookupField(m, Fields[j]).Some?
  {
    if n > 0 {
      CollectedNames(m, n - 1);
    }
  }

  lemma {:induction false} CollectedValues(m: map<string, Value>, n: nat)
    requires n <= |Fields|
    ensures forall j :: 0 <= j < n && LookupField(m, Fields[j]).Some? ==>
              Fields[j].name in Collected(m, n).0 && Collected(m, n).0[Fields[j].name] == LookupField(m, Fields[j]).value.1
  {
    if n > 0 {
      CollectedValues(m, n - 1);
      assert forall j :: 0 <= j < n - 1 ==> Fields[j].name != Fields[n - 1].name;
    }
  }

  lemma {:induction false} CollectedUsed(m: map<string, Value>, n: nat)
    requires n <= |Fields|
    ensures forall k :: k in Collected(m, n).1 <==> exists j :: 0 <= j < n && LookupField(m, Fields[j]).Some? && LookupField(m, Fields[j]).value.0 == k
  {
    if n > 0 {
      CollectedUsed(m, n - 1);
    }
  }

  /** The loop of `_dataclass_from_dict` over the fields of a table. */
  method CollectFields(m: map<string, Value>) returns (kwargs: map<string, Value>, used: set<string>)
    ensures (kwargs, used) == Collected(m, |Fields|)
  {
    kwargs := map[];
    used := {};
    FieldKeys();
    var i := 0;
    while i < |Fields|
      invariant 0 <= i <= |Fields|
      invariant (kwargs, used) == Collected(m, i)
    {
      var field := Fields[i];
      var configName := ToSkewerCase(field.name);
      assert configName == field.configName;
      var lookupName := "";
      var found := false;
      if configName in m {
        lookupName, found := configName, true;
      } else if field.name in m {
        lookupName, found := field.name, true;
      }
      if found {
        kwargs := kwargs[field.name := m[lookupName]];
        used := used + {lookupName};
      }
      i := i + 1;
    }
  }

  /** The keys logged as "unknown (or duplicate)". */
  function Warned(m: map<string, Value>): set<string> {
    m.Keys - Collected(m, |Fields|).1
  }

  /** A keyword argument, or the field default None. */
  function ArgOf(kwargs: map<string, Value>, f: Field): Value {
    if f.name in kwargs then kwargs[f.name] else NoneValue
  }

  /** `_python_cmd_normalized`: a string is shell-split; anything else is kept. */
  function Normalized(v: Value): (r: Outcome<Value>)
    ensures v.Str? ==> r == (match Shlex.Split(v.s) case Ok(ts) => Ok(StrList(ts)) case Raise(e) => Raise(e))
    ensures !v.Str? ==> r == Ok(v)
  {
    if v.Str? then
      var tokens :- Shlex.Split(v.s);
      Ok(StrList(tokens))
    else Ok(v)
  }

  /** The TypeError raised for a field whose value has the wrong type. */
  function Invalid(f: Field, v: Value): Exc {
    TypeError("invalid config " + f.configName + " = " + Repr(v) + ", expected value of type " + f.shownType)
  }

  /** `Config(**kwargs)`: a string `python_cmd` is shell-split, then each field is type-checked in order. */
  function Construct(kwargs: map<string, Value>): (r: Outcome<ConfigData>)
    // shlex's error comes out first, unchanged
    ensures Normalized(ArgOf(kwargs, PythonCmdField)).Raise? ==> r == Raise(Normalized(ArgOf(kwargs, PythonCmdField)).exc)
    // accepted exactly when every field passes its check
    ensures Normalized(ArgOf(kwargs, PythonCmdField)).Ok? ==>
              (r.Ok? <==> TypeCheck(PythonCmdType, Normalized(ArgOf(kwargs, PythonCmdField)).value) &&
                          TypeCheck(UseVenvType, ArgOf(kwargs, UseVenvField)) &&
                          TypeCheck(SanityCheckType, ArgOf(kwargs, SanityCheckField)))
    // otherwise the first field in declaration order that fails its check is named
    ensures Normalized(ArgOf(kwargs, PythonCmdField)).Ok? && !TypeCheck(PythonCmdType, Normalized(ArgOf(kwargs, PythonCmdField)).value) ==>
              r == Raise(Invalid(PythonCmdField, Normalized(ArgOf(kwargs, PythonCmdField)).value))
    ensures Normalized(ArgOf(kwargs, PythonCmdField)).Ok? && TypeCheck(PythonCmdType, Normalized(ArgOf(kwargs, PythonCmdField)).value) &&
            !TypeCheck(UseVenvType, ArgOf(kwargs, UseVenvField)) ==>
              r == Raise(Invalid(UseVenvField, ArgOf(kwargs, UseVenvField)))
    ensures Normalized(ArgOf(kwargs, PythonCmdField)).Ok? && TypeCheck(PythonCmdType, Normalized(ArgOf(kwargs, PythonCmdField)).value) &&
            TypeCheck(UseVenvType, ArgOf(kwargs, UseVenvField)) && !TypeCheck(SanityCheckType, ArgOf(kwargs, SanityCheckField)) ==>
              r == Raise(Invalid(SanityCheckField, ArgOf(kwargs, SanityCheckField)))
    // an accepted configuration stores the given values: None stays unset, a list of strings is the command
    ensures r.Ok? ==> var pc := Normalized(ArgOf(kwargs, PythonCmdField)).value;
                      (pc == NoneValue && r.value.pythonCmd == None) || (IsStrList(pc) && r.value.pythonCmd == Some(Strings(pc)))
    ensures r.Ok? ==> r.value.useVenv == (if ArgOf(kwargs, UseVenvField).Str? then Some(ArgOf(kwargs, UseVenvField).s) else None)
    ensures r.Ok? ==> r.value.sanityCheck == (if ArgOf(kwargs, SanityCheckField).Bool? then Some(ArgOf(kwargs, SanityCheckField).b) else None)
  {
    var pc :- Normalized(ArgOf(kwargs, PythonCmdField));
    var useVenv := ArgOf(kwargs, UseVenvField);
    var sanity := ArgOf(kwargs, SanityCheckField);
    if !TypeCheck(PythonCmdType, pc) then Raise(Invalid(PythonCmdField, pc))
    else if !TypeCheck(UseVenvType, useVenv) then Raise(Invalid(UseVenvField, useVenv))
    else if !TypeCheck(SanityCheckType, sanity) then Raise(Invalid(SanityCheckField, sanity))
    else
      PythonCmdAccepts(pc);
      UseVenvAccepts(useVenv);
      SanityCheckAccepts(sanity);
      Ok(ConfigData(
        if pc.List? then Some(Strings(pc)) else None,
        if useVenv.Str? then Some(useVenv.s) else None,
        if sanity.Bool? then Some(sanity.b) else None))
  }

  /** `Config.from_dict(data)` */
  function FromDictSpec(data: Value): Outcome<ConfigData> {
    if !data.Dict? then Raise(DotKeys.SubscriptError(data))
    else Construct(Collected(data.entries, |Fields|).0)
  }

  // ----- properties of from_dict

  /** Both spellings present: the hyphenated value is used and the underscored key is warned about. */
  lemma DuplicateKeyWarned(m: map<string, Value>, j: nat)
    requires j < |Fields| && Fields[j].configName in m && Fields[j].name in m
    ensures Fields[j].name in Collected(m, |Fields|).0
    ensures Collected(m, |Fields|).0[Fields[j].name] == m[Fields[j].configName]
    ensures Fields[j].name in Warned(m)
  {
    CollectedValues(m, |Fields|);
    CollectedUsed(m, |Fields|);
    forall i | 0 <= i < |Fields| && LookupField(m, Fields[i]).Some?
      ensures LookupField(m, Fields[i]).value.0 != Fields[j].name
    {
      assert Fields[i].configName != Fields[j].name && (i != j ==> Fields[i].name != Fields[j].name);
    }
  }

  /** Every key that either spelling of a field name could be. */
  function KnownKeys(): set<string> {
    {"python_cmd", "python-cmd", "use_venv", "use-venv", "sanity_check", "sanity-check"}
  }

  /** Keys that name no field are only warned about: the result is that of the table without them. */
  lemma UnknownKeysIgnored(m: map<string, Value>)
    ensures FromDictSpec(Dict(m)) == FromDictSpec(Dict(map k | k in m && k in KnownKeys() :: m[k]))
    ensures forall k :: k in m && k !in KnownKeys() ==> k in Warned(m)
  {
    var known := map k | k in m && k in KnownKeys() :: m[k];
    SameLookups(m, known, |Fields|);
    CollectedFields(m, |Fields|);
  }

  lemma {:induction false} SameLookups(m: map<string, Value>, m': map<string, Value>, n: nat)
    requires n <= |Fields|
    requires forall k :: k in KnownKeys() ==> (k in m <==> k in m') && (k in m ==> m[k] == m'[k])
    ensures Collected(m, n) == Collected(m', n)
  {
    if n > 0 {
      SameLookups(m, m', n - 1);
      assert LookupField(m, Fields[n - 1]) == LookupField(m', Fields[n - 1]);
    }
  }

  /** The keyword arguments of a table whose only key is `python-cmd`. */
  lemma OnlyPythonCmd(v: Value)
    ensures Collected(map["python-cmd" := v], |Fields|).0 == map["python_cmd" := v]
  {
    var m := map["python-cmd" := v];
    assert LookupField(m, Fields[0]) == Some(("python-cmd", v));
    assert LookupField(m, Fields[1]) == None;
    assert LookupField(m, Fields[2]) == None;
    assert Collected(m, 0) == (map[], {});
    assert Collected(m, 1).0 == map["python_cmd" := v];
    assert Collected(m, 2).0 == map["python_cmd" := v];
  }

  /** An accepted table: a string `python-cmd` becomes its shell words, a list of strings is kept. */
  lemma PythonCmdNormalized(m: map<string, Value>)
    requires "python-cmd" in m && FromDictSpec(Dict(m)).Ok?
    ensures m["python-cmd"].Str? ==>
              Shlex.Split(m["python-cmd"].s).Ok? &&
              FromDictSpec(Dict(m)).value.pythonCmd == Some(Shlex.Split(m["python-cmd"].s).value)
    ensures IsStrList(m["python-cmd"]) ==> FromDictSpec(Dict(m)).value.pythonCmd == Some(Strings(m["python-cmd"]))
  {
    CollectedFields(m, |Fields|);
    assert LookupField(m, Fields[0]) == Some(("python-cmd", m["python-cmd"]));
    var v := m["python-cmd"];
    if v.Str? {
      var ts := Shlex.Split(v.s).value;
      assert Strings(StrList(ts)) == ts;
    }
  }

  /** An empty or all-blank `python-cmd` string gives an empty command list, not an unset one. */
  lemma BlankPythonCmdIsEmptyList(s: string)
    requires forall k :: 0 <= k < |s| ==> Shlex.IsSpace(s[k])
    ensures FromDictSpec(Dict(map["python-cmd" := Str(s)])) == Ok(ConfigData(Some([]), None, None))
  {
    Shlex.BlankSplit(s);
    OnlyPythonCmd(Str(s));
    assert Normalized(Str(s)) == Ok(StrList([]));
    PythonCmdAccepts(StrList([]));
    UseVenvAccepts(NoneValue);
    SanityCheckAccepts(NoneValue);
  }

  /** A `python-cmd` string with an unbalanced quote is not a TypeError: shlex's ValueError escapes. */
  lemma UnbalancedPythonCmd(s: string)
    requires Shlex.Split(s).Raise?
    ensures FromDictSpec(Dict(map["python-cmd" := Str(s)])) == Raise(Shlex.Split(s).exc)
  {
    OnlyPythonCmd(Str(s));
  }

  /** A value of the wrong type is rejected with a TypeError naming the key, the value and the type. */
  lemma WrongTypeRejected(v: Value)
    requires !v.Str? && !(v == NoneValue) && !IsStrList(v)
    ensures FromDictSpec(Dict(map["python-cmd" := v])) ==
            Raise(TypeError("invalid config " + "python-cmd" + " = " + Repr(v) + ", expected value of type " + ("'" + "str | list[str] | None" + "'")))
  {
    OnlyPythonCmd(v);
    assert FromDictSpec(Dict(map["python-cmd" := v])) == Construct(map["python_cmd" := v]);
    ConstructRejects(v);
  }

  lemma ConstructRejects(v: Value)
    requires !v.Str? && !(v == NoneValue) && !IsStrList(v)
    ensures Construct(map["python_cmd" := v]) == Raise(Invalid(PythonCmdField, v))
  {
    assert ArgOf(map["python_cmd" := v], PythonCmdField) == v;
    assert Normalized(v) == Ok(v);
    PythonCmdAccepts(v);
  }

  /** The value a field receives from a table: the one found under either spelling, or the default None. */
  function FieldValue(m: map<string, Value>, f: Field): (v: Value)
    ensures LookupField(m, f).Some? ==> v == LookupField(m, f).value.1
    ensures LookupField(m, f).None? ==> v == NoneValue
  {
    match LookupField(m, f)
    case Some((_, v)) => v
    case None => NoneValue
  }

  /** What `Config(**kwargs)` sees for each field is that field's value in the table. */
  lemma TableArgs(m: map<string, Value>)
    ensures ArgOf(Collected(m, |Fields|).0, PythonCmdField) == FieldValue(m, PythonCmdField)
    ensures ArgOf(Collected(m, |Fields|).0, UseVenvField) == FieldValue(m, UseVenvField)
    ensures ArgOf(Collected(m, |Fields|).0, SanityCheckField) == FieldValue(m, SanityCheckField)
  {
    CollectedNames(m, |Fields|);
    CollectedValues(m, |Fields|);
    assert Fields[0] == PythonCmdField && Fields[1] == UseVenvField && Fields[2] == SanityCheckField;
  }

  /** The `python_cmd` of a table normalizes and passes its check (an absent one always does). */
  predicate PythonCmdValid(m: map<string, Value>) {
    Normalized(FieldValue(m, PythonCmdField)).Ok? && TypeCheck(PythonCmdType, Normalized(FieldValue(m, PythonCmdField)).value)
  }

  /** A wrongly typed `python_cmd`, after normalization, raises the TypeError naming `python-cmd`, whatever else the table holds. */
  lemma WrongPythonCmdRejected(m: map<string, Value>)
    requires Normalized(FieldValue(m, PythonCmdField)).Ok?
    requires !TypeCheck(PythonCmdType, Normalized(FieldValue(m, PythonCmdField)).value)
    ensures FromDictSpec(Dict(m)) == Raise(Invalid(PythonCmdField, Normalized(FieldValue(m, PythonCmdField)).value))
  {
    TableArgs(m);
  }

  /** A wrongly typed `use_venv`, once `python_cmd` passed, raises the TypeError naming `use-venv`. */
  lemma WrongUseVenvRejected(m: map<string, Value>)
    requires PythonCmdValid(m) && !TypeCheck(UseVenvType, FieldValue(m, UseVenvField))
    ensures FromDictSpec(Dict(m)) == Raise(Invalid(UseVenvField, FieldValue(m, UseVenvField)))
  {
    TableArgs(m);
  }

  /** A wrongly typed `sanity_check`, once the other two passed, raises the TypeError naming `sanity-check`. */
  lemma WrongSanityCheckRejected(m: map<string, Value>)
    requires PythonCmdValid(m) && TypeCheck(UseVenvType, FieldValue(m, UseVenvField))
    requires !TypeCheck(SanityCheckType, FieldValue(m, SanityCheckField))
    ensures FromDictSpec(Dict(m)) == Raise(Invalid(SanityCheckField, FieldValue(m, SanityCheckField)))
  {
    TableArgs(m);
  }

  /** `{"use-venv": 1}` raises `TypeError("invalid config use-venv = 1, expected value of type 'str | None'")`. */
  lemma UseVenvIntRejected()
    ensures FromDictSpec(Dict(map["use-venv" := Int(1)])) ==
            Raise(TypeError("invalid config " + "use-venv" + " = " + "1" + ", expected value of type " + ("'" + "str | None" + "'")))
  {
    var m := map["use-venv" := Int(1)];
    assert FieldValue(m, PythonCmdField) == NoneValue;
    assert FieldValue(m, UseVenvField) == Int(1);
    PythonCmdAccepts(NoneValue);
    UseVenvAccepts(Int(1));
    WrongUseVenvRejected(m);
    assert Repr(Int(1)) == "1";
  }

  /** A table whose values all pass their checks is accepted and stores them; absent fields stay unset. */
  lemma AcceptedTable(m: map<string, Value>)
    requires PythonCmdValid(m)
    requires TypeCheck(UseVenvType, FieldValue(m, UseVenvField)) && TypeCheck(SanityCheckType, FieldValue(m, SanityCheckField))
    ensures FromDictSpec(Dict(m)).Ok?
    ensures var c := FromDictSpec(Dict(m)).value;
            var pc := Normalized(FieldValue(m, PythonCmdField)).value;
            var uv := FieldValue(m, UseVenvField);
            var sc := FieldValue(m, SanityCheckField);
            ((pc == NoneValue && c.pythonCmd == None) || (IsStrList(pc) && c.pythonCmd == Some(Strings(pc)))) &&
            c.useVenv == (if uv.Str? then Some(uv.s) else None) &&
            c.sanityCheck == (if sc.Bool? then Some(sc.b) else None)
  {
    TableArgs(m);
  }

  /** A value that is not a table raises the TypeError of subscripting it. */
  lemma NotATable(data: Value)
    requires !data.Dict?
    ensures FromDictSpec(data).Raise? && FromDictSpec(data).exc.TypeError?
  {
  }

  /** `merge_with`: each field of `self` that is None takes the other's value; set values, even False, stay. */
  function Merge(self: ConfigData, other: ConfigData): (r: ConfigData)
    ensures self.pythonCmd.Some? ==> r.pythonCmd == self.pythonCmd
    ensures self.useVenv.Some? ==> r.useVenv == self.useVenv
    ensures self.sanityCheck.Some? ==> r.sanityCheck == self.sanityCheck
    ensures self.pythonCmd.None? ==> r.pythonCmd == other.pythonCmd
    ensures self.useVenv.None? ==> r.useVenv == other.useVenv
    ensures self.sanityCheck.None? ==> r.sanityCheck == other.sanityCheck
  {
    ConfigData(
      if self.pythonCmd.None? then other.pythonCmd else self.pythonCmd,
      if self.useVenv.None? then other.useVenv else self.useVenv,
      if self.sanityCheck.None? then other.sanityCheck else self.sanityCheck)
  }

  /** The empty configuration is neutral on both sides, and merging is associative and idempotent. */
  lemma MergeLaws(a: ConfigData, b: ConfigData, c: ConfigData)
    ensures Merge(a, EmptyConfig) == a && Merge(EmptyConfig, a) == a
    ensures Merge(Merge(a, b), c) == Merge(a, Merge(b, c))
    ensures Merge(a, a) == a
  {
  }

  /** A Python `Config` object; `Data()` is the value of its fields. */
  class Config {
    var pythonCmd: Option<seq<string>>
    var useVenv: Option<string>
    var sanityCheck: Option<bool>

    function Data(): ConfigData
      reads this
    {
      ConfigData(pythonCmd, useVenv, sanityCheck)
    }

    constructor (d: ConfigData)
      ensures Data() == d
    {
      pythonCmd := d.pythonCmd;
      useVenv := d.useVenv;
      sanityCheck := d.sanityCheck;
    }

    /**
     * `Config(**kwargs)` with its `__post_init__`: normalise `python_cmd`, then
     * type-check every field. It walks the steps as `__post_init__` does,
     * rewriting `python_cmd` on the object before the checks, and its ensures
     * proves the outcome equal to `Construct`.
     */
    static method Make(kwargs: map<string, Value>) returns (r: Outcome<Config>)
      ensures r.Raise? ==> Construct(kwargs) == Raise(r.exc)
      ensures r.Ok? ==> fresh(r.value) && Construct(kwargs) == Ok(r.value.Data())
    {
      var pc := ArgOf(kwargs, PythonCmdField);
      if pc.Str? {
        var tokens := Shlex.Split(pc.s);
        if tokens.Raise? {
          return Raise(tokens.exc);
        }
        pc := StrList(tokens.value);
      }
      var useVenv := ArgOf(kwargs, UseVenvField);
      var sanity := ArgOf(kwargs, SanityCheckField);
      if !TypeCheck(PythonCmdType, pc) {
        return Raise(Invalid(PythonCmdField, pc));
      }
      if !TypeCheck(UseVenvType, useVenv) {
        return Raise(Invalid(UseVenvField, useVenv));
      }
      if !TypeCheck(SanityCheckType, sanity) {
        return Raise(Invalid(SanityCheckField, sanity));
      }
      PythonCmdAccepts(pc);
      UseVenvAccepts(useVenv);
      SanityCheckAccepts(sanity);
      var c := new Config(ConfigData(
        if pc.List? then Some(Strings(pc)) else None,
        if useVenv.Str? then Some(useVenv.s) else None,
        if sanity.Bool? then Some(sanity.b) else None));
      return Ok(c);
    }

    /** `Config.from_dict(data)` */
    static method FromDict(data: Value) returns (r: Outcome<Config>)
      ensures r.Raise? ==> FromDictSpec(data) == Raise(r.exc)
      ensures r.Ok? ==> fresh(r.value) && FromDictSpec(data) == Ok(r.value.Data())
    {
      if !data.Dict? {
        return Raise(DotKeys.SubscriptError(data));
      }
      var kwargs, used := CollectFields(data.entries);
      r := Make(kwargs);
    }

    /** `self.merge_with(other)`: fills the None fields of `self` in place and returns `self`. */
    method MergeWith(other: Config) returns (r: Config)
      modifies this
      ensures r == this
      ensures Data() == Merge(old(Data()), old(other.Data()))
    {
      var o := other.Data();
      if pythonCmd.None? {
        pythonCmd := o.pythonCmd;
      }
      if useVenv.None? {
        useVenv := o.useVenv;
      }
      if sanityCheck.None? {
        sanityCheck := o.sanityCheck;
      }
      return this;
    }
  }
}
