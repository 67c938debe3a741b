/**
 * The Python values and exceptions that the project-detection engine handles.
 *
 * A parsed pyproject.toml is a nested `Dict`; tables, strings, integers,
 * booleans and arrays get their own constructor, and every other TOML value
 * (floats, dates and times) is an `Other` that records its Python type name,
 * its repr and its truth value. `NoneValue` is Python's `None`, which never
 * comes out of a TOML parser but is the default of every configuration field.
 */
module PyValues {

  datatype Option<+T> = None | Some(value: T)

  datatype Value =
    | NoneValue
    | Bool(b: bool)
    | Int(i: int)
    | Str(s: string)
    | List(items: seq<Value>)
    | Dict(entries: map<string, Value>)
    | Other(typeName: string, repr: string, truthy: bool)

  /** The exceptions that the modelled code raises or lets through. */
  datatype Exc =
    | TypeError(msg: string)
    | ValueError(msg: string)
    | RuntimeError(msg: string)
    | OSError(msg: string)
    | SubprocessError(msg: string)  // subprocess.TimeoutExpired / CalledProcessError
    | AssertionError
    | AttributeError(msg: string)
  {
    /** `str(exc)` */
    function Message(): string {
      match this
      case TypeError(m) => m
      case ValueError(m) => m
      case RuntimeError(m) => m
      case OSError(m) => m
      case SubprocessError(m) => m
      case AssertionError => ""
      case AttributeError(m) => m
    }
  }

  /** A computation that returns a value or raises a Python exception. */
  datatype Outcome<+T> = Ok(value: T) | Raise(exc: Exc) {
    predicate IsFailure() { Raise? }
    function PropagateFailure<U>(): Outcome<U> requires Raise? { Raise(exc) }
    function Extract(): T requires Ok? { value }
  }

  /** Python's `bool(v)`. */
  predicate Truthy(v: Value) {
    match v
    case NoneValue => false
    case Bool(b) => b
    case Int(i) => i != 0
    case Str(s) => s != ""
    case List(xs) => xs != []
    case Dict(m) => m != map[]
    case Other(_, _, t) => t
  }

  /** `type(v).__name__` */
  function TypeNameOf(v: Value): string {
    match v
    case NoneValue => "NoneType"
    case Bool(_) => "bool"
    case Int(_) => "int"
    case Str(_) => "str"
    case List(_) => "list"
    case Dict(_) => "dict"
    case Other(n, _, _) => n
  }

  /** Decimal digits of a natural number, most significant first. */
  function DecimalString(n: nat): (r: string)
    ensures |r| > 0
    ensures forall i :: 0 <= i < |r| ==> '0' <= r[i] <= '9'
    ensures n > 0 ==> r[0] != '0'
  {
    if n < 10 then [Digit(n)] else DecimalString(n / 10) + [Digit(n % 10)]
  }

  function Digit(d: nat): (c: char)
    requires d < 10
    ensures '0' <= c <= '9' && c as int - '0' as int == d
  {
    ('0' as int + d) as char
  }

  /** `str(i)` for a Python int. */
  function IntString(i: int): string {
    if i < 0 then "-" + DecimalString(-i) else DecimalString(i)
  }

  /** `sep.join(xs)` */
  function JoinWith(xs: seq<string>, sep: string): (r: string)
    ensures |xs| == 1 ==> r == xs[0]
  {
    if |xs| == 0 then "" else if |xs| == 1 then xs[0] else xs[0] + sep + JoinWith(xs[1..], sep)
  }

  /**
   * Python's string repr: single quotes unless the text holds a single quote
   * and no double quote; backslash, the quote, `\n`, `\t` and `\r` get a
   * backslash; the other control characters and `\x7f`..`\xa0`, `\xad` are
   * written `\xNN`.
   */
  function StrRepr(s: string): string {
    var q := if '\'' in s && '"' !in s then '"' else '\'';
    [q] + EscapeFor(s, q) + [q]
  }

  /** Characters that `repr` writes as `\xNN`. */
  predicate HexEscaped(c: char) {
    (c < ' ' && c != '\n' && c != '\t' && c != '\r') || ('\U{007F}' <= c <= '\U{00A0}') || c == '\U{00AD}'
  }

  function HexDigit(d: nat): char
    requires d < 16
  {
    if d < 10 then '0' + d as char else 'a' + (d - 10) as char
  }

  /** `\xNN` with two lower-case hex digits. */
  function HexEscape(c: char): (r: string)
    requires c as int < 256
    ensures |r| == 4 && r[0] == '\\' && r[1] == 'x'
  {
    "\\x" + [HexDigit(c as int / 16), HexDigit(c as int % 16)]
  }

  function EscapeFor(s: string, q: char): string {
    if s == [] then []
    else
      var c := s[0];
      var e :=
        if c == '\\' then "\\\\"
        else if c == q then ['\\', q]
        else if c == '\n' then "\\n"
        else if c == '\t' then "\\t"
        else if c == '\r' then "\\r"
        else if HexEscaped(c) then HexEscape(c)
        else [c];
      e + EscapeFor(s[1..], q)
  }

  /** Printable ASCII other than the backslash and the quote `q`: `repr` writes these as they are. */
  predicate Unescaped(s: string, q: char) {
    forall k :: 0 <= k < |s| ==> ' ' <= s[k] <= '~' && s[k] != '\\' && s[k] != q
  }

  lemma {:induction false} EscapeFree(s: string, q: char)
    requires Unescaped(s, q)
    ensures EscapeFor(s, q) == s
  {
    if s != [] {
      EscapeFree(s[1..], q);
      assert [s[0]] + s[1..] == s;
    }
  }

  /** A control character is written as its two-digit hex escape. */
  lemma EscapeRepr()
    ensures StrRepr("\U{001B}") == "'" + "\\x1b" + "'"
    ensures StrRepr("\U{00A0}") == "'" + "\\xa0" + "'"
  {
    assert EscapeFor("\U{001B}", '\'') == HexEscape('\U{001B}') + EscapeFor([], '\'');
    assert EscapeFor("\U{00A0}", '\'') == HexEscape('\U{00A0}') + EscapeFor([], '\'');
  }

  /** A string without quotes or escapes is shown in single quotes, unchanged. */
  lemma PlainStrRepr(s: string)
    requires Unescaped(s, '\'') && '"' !in s
    ensures StrRepr(s) == "'" + s + "'"
  {
    EscapeFree(s, '\'');
  }

  /** `repr(v)`; dictionaries are rendered without their (unordered) entries. */
  function Repr(v: Value): string {
    match v
    case NoneValue => "None"
    case Bool(b) => if b then "True" else "False"
    case Int(i) => IntString(i)
    case Str(s) => StrRepr(s)
    case List(xs) => "[" + JoinWith(seq(|xs|, k requires 0 <= k < |xs| => Repr(xs[k])), ", ") + "]"
    case Dict(_) => "{...}"
    case Other(_, r, _) => r
  }

  /** A list of Python strings. */
  function StrList(xs: seq<string>): (v: Value)
    ensures v.List? && |v.items| == |xs|
    ensures forall k :: 0 <= k < |xs| ==> v.items[k] == Str(xs[k])
  {
    List(seq(|xs|, k requires 0 <= k < |xs| => Str(xs[k])))
  }

  predicate IsStrList(v: Value) {
    v.List? && forall k :: 0 <= k < |v.items| ==> v.items[k].Str?
  }

  /** The strings of a list of Python strings. */
  function Strings(v: Value): (xs: seq<string>)
    requires IsStrList(v)
    ensures StrList(xs) == v
    ensures |xs| == |v.items| && forall k :: 0 <= k < |xs| ==> xs[k] == v.items[k].s
  {
    seq(|v.items|, k requires 0 <= k < |v.items| => v.items[k].s)
  }

  /** Python's `s.split(c)` for a one-character separator: never empty. */
  function SplitOn(s: string, c: char): (r: seq<string>)
    ensures |r| >= 1
    ensures forall k :: 0 <= k < |r| ==> c !in r[k]
  {
    if s == [] then [""]
    else
      var rest := SplitOn(s[1..], c);
      if s[0] == c then [""] + rest else [[s[0]] + rest[0]] + rest[1..]
  }

  /** Joining the pieces of a split gives back the string. */
  lemma {:induction false} JoinSplit(s: string, c: char)
    ensures JoinWith(SplitOn(s, c), [c]) == s
  {
    if s != [] {
      var rest := SplitOn(s[1..], c);
      JoinSplit(s[1..], c);
      if s[0] == c {
        assert SplitOn(s, c) == [""] + rest;
        assert ([""] + rest)[1..] == rest;
      } else {
        assert SplitOn(s, c) == [[s[0]] + rest[0]] + rest[1..];
        if |rest| == 1 {
          assert JoinWith(rest, [c]) == rest[0];
        } else {
          assert JoinWith(rest, [c]) == rest[0] + [c] + JoinWith(rest[1..], [c]);
          assert ([[s[0]] + rest[0]] + rest[1..])[1..] == rest[1..];
        }
      }
    }
  }

  /** Splitting a join of separator-free pieces gives back the pieces. */
  lemma {:induction false} SplitJoin(xs: seq<string>, c: char)
    requires |xs| >= 1
    requires forall k :: 0 <= k < |xs| ==> c !in xs[k]
    ensures SplitOn(JoinWith(xs, [c]), c) == xs
  {
    if |xs| == 1 {
      SplitOfFree(xs[0], c);
    } else {
      SplitJoin(xs[1..], c);
      var tail := [c] + JoinWith(xs[1..], [c]);
      assert JoinWith(xs, [c]) == xs[0] + tail;
      SplitOfFreePrefix(xs[0], tail, c);
      assert tail[1..] == JoinWith(xs[1..], [c]);
      assert [xs[0]] + xs[1..] == xs;
    }
  }

  lemma {:induction false} SplitOfFree(s: string, c: char)
    requires c !in s
    ensures SplitOn(s, c) == [s]
  {
    if s != [] {
      SplitOfFree(s[1..], c);
      assert [s[0]] + s[1..] == s;
    }
  }

  /** A separator-free prefix glues onto the first piece of what follows it. */
  lemma {:induction false} SplitOfFreePrefix(p: string, t: string, c: char)
    requires c !in p
    requires t != [] && t[0] == c
    ensures SplitOn(p + t, c) == [p] + SplitOn(t[1..], c)
  {
    if p == [] {
      assert p + t == t;
    } else {
      assert (p + t)[1..] == p[1..] + t;
      SplitOfFreePrefix(p[1..], t, c);
      assert [p[0]] + p[1..] == p;
    }
  }

  /** `d.get(k, default)` on a Python dict of strings. */
  function Get(m: map<string, string>, k: string, default: string): string {
    if k in m then m[k] else default
  }
}
