/**
 * The ad-hoc type checker that validates configuration values against the
 * dataclass field annotations: `Union`/`Optional` accept when any member
 * accepts, `list[T]` accepts a list whose elements all satisfy `T`, and every
 * other annotation is an `isinstance` test.
 */
module TypeSchema {
  import opened PyValues

  /** The annotations that occur on configuration fields. */
  datatype TypeAnnot =
    | TNone                          // type(None)
    | TStr
    | TBool
    | TList(elem: TypeAnnot)         // t.List[elem]
    | TUnion(members: seq<TypeAnnot>)

  /** `isinstance(v, cls)` for the plain classes that occur. */
  predicate IsInstance(t: TypeAnnot, v: Value)
    requires !t.TList? && !t.TUnion?
  {
    match t
    case TNone => v == NoneValue
    case TStr => v.Str?
    case TBool => v.Bool?
  }

  /** `_type_check(type_annot, obj)` */
  predicate TypeCheck(t: TypeAnnot, v: Value)
    decreases t, 1
  {
    match t
    case TUnion(ms) => AnyMember(ms, v, 0)
    case TList(e) => v.List? && forall k :: 0 <= k < |v.items| ==> TypeCheck(e, v.items[k])
    case _ => IsInstance(t, v)
  }

  /** `any(_type_check(arg, obj) for arg in args[from..])` */
  predicate AnyMember(ms: seq<TypeAnnot>, v: Value, from: nat)
    requires from <= |ms|
    decreases TUnion(ms), 0, |ms| - from
  {
    from < |ms| && (TypeCheck(ms[from], v) || AnyMember(ms, v, from + 1))
  }

  lemma {:induction false} AnyMemberExists(ms: seq<TypeAnnot>, v: Value, from: nat)
    requires from <= |ms|
    ensures AnyMember(ms, v, from) <==> exists k :: from <= k < |ms| && TypeCheck(ms[k], v)
    decreases |ms| - from
  {
    if from < |ms| {
      AnyMemberExists(ms, v, from + 1);
    }
  }

  /** A union accepts exactly what one of its members accepts. */
  lemma UnionAccepts(ms: seq<TypeAnnot>, v: Value)
    ensures TypeCheck(TUnion(ms), v) <==> exists k :: 0 <= k < |ms| && TypeCheck(ms[k], v)
  {
    AnyMemberExists(ms, v, 0);
  }

  /** `_type_name(type_annot)` */
  function TypeName(t: TypeAnnot): string
    decreases t, 1
  {
    match t
    case TNone => "None"
    case TStr => "str"
    case TBool => "bool"
    case TList(e) => "list[" + TypeName(e) + "]"
    case TUnion(ms) => JoinWith(MemberNames(ms, 0), " | ")
  }

  function MemberNames(ms: seq<TypeAnnot>, from: nat): (r: seq<string>)
    requires from <= |ms|
    ensures |r| == |ms| - from
    decreases TUnion(ms), 0, |ms| - from
  {
    if from == |ms| then [] else [TypeName(ms[from])] + MemberNames(ms, from + 1)
  }

  /** `t.Optional[t.Union[str, t.List[str]]]`, which Python flattens to `Union[str, List[str], None]`. */
  const PythonCmdType := TUnion([TStr, TList(TStr), TNone])
  /** `t.Optional[str]` */
  const UseVenvType := TUnion([TStr, TNone])
  /** `t.Optional[bool]` */
  const SanityCheckType := TUnion([TBool, TNone])

  /** The `python_cmd` field accepts None, a string or a list of strings, and nothing else. */
  lemma PythonCmdAccepts(v: Value)
    ensures TypeCheck(PythonCmdType, v) <==> v == NoneValue || v.Str? || IsStrList(v)
  {
    UnionAccepts(PythonCmdType.members, v);
    if IsStrList(v) {
      assert TypeCheck(PythonCmdType.members[1], v);
    }
  }

  /** The `use_venv` field accepts None or a string. */
  lemma UseVenvAccepts(v: Value)
    ensures TypeCheck(UseVenvType, v) <==> v == NoneValue || v.Str?
  {
    UnionAccepts(UseVenvType.members, v);
  }

  /** The `sanity_check` field accepts None or a boolean. */
  lemma SanityCheckAccepts(v: Value)
    ensures TypeCheck(SanityCheckType, v) <==> v == NoneValue || v.Bool?
  {
    UnionAccepts(SanityCheckType.members, v);
  }

  /** How the field types are shown in error messages. */
  lemma FieldTypeNames()
    ensures TypeName(PythonCmdType) == "str | list[str] | None"
    ensures TypeName(UseVenvType) == "str | None"
    ensures TypeName(SanityCheckType) == "bool | None"
  {
    PythonCmdTypeName();
    assert MemberNames(UseVenvType.members, 0) == ["str", "None"];
    assert MemberNames(SanityCheckType.members, 0) == ["bool", "None"];
  }

  lemma PythonCmdTypeName()
    ensures TypeName(PythonCmdType) == "str | list[str] | None"
  {
    assert TypeName(TList(TStr)) == "list[" + "str" + "]" == "list[str]";
    assert MemberNames(PythonCmdType.members, 2) == ["None"];
    assert MemberNames(PythonCmdType.members, 1) == ["list[str]", "None"];
    assert MemberNames(PythonCmdType.members, 0) == ["str", "list[str]", "None"];
  }
}
