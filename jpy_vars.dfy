/**
 * The variables jupyter-client sets when it launches a kernel:
 * `JPY_PARENT_PID`, the process id of the parent, and
 * `JPY_INTERRUPT_EVENT`, an interrupt event handle that only exists on
 * Windows. Each is read as a positive integer, with 0 standing for absent or
 * unusable.
 */
module JpyVars {
  import opened PyValues

  predicate IsDigitChar(c: char) {
    '0' <= c <= '9'
  }

  predicate DigitsOrUnderscores(s: string) {
    forall i :: 0 <= i < |s| ==> IsDigitChar(s[i]) || s[i] == '_'
  }

  /** The digit part that `int()` accepts: digits, with single underscores between two digits. */
  predicate WellFormedDigits(s: string) {
    s != [] && IsDigitChar(s[0]) && IsDigitChar(s[|s| - 1]) && DigitsOrUnderscores(s) &&
    forall i :: 0 <= i < |s| - 1 && s[i] == '_' ==> IsDigitChar(s[i + 1])
  }

  /** The value of a run of digits and underscores; underscores are skipped. */
  function LiteralValue(s: string): nat
    requires DigitsOrUnderscores(s)
  {
    if s == [] then 0
    else
      var last := s[|s| - 1];
      assert IsDigitChar(last) || last == '_';
      if last == '_' then LiteralValue(s[..|s| - 1])
      else LiteralValue(s[..|s| - 1]) * 10 + (last as int - '0' as int)
  }

  /**
   * The characters `int()` skips around the digits of ASCII text: space and
   * `\t`..`\r`. Unlike `str.strip`, it does not skip `\x1c`..`\x1f`.
   */
  predicate IsIntSpace(c: char) {
    c == ' ' || '\t' <= c <= '\r'
  }

  function SkipSpaceStart(s: string): (r: string)
    ensures |r| <= |s| && r == s[|s| - |r|..]
    ensures r == [] || !IsIntSpace(r[0])
  {
    if s != [] && IsIntSpace(s[0]) then SkipSpaceStart(s[1..]) else s
  }

  function SkipSpaceEnd(s: string): (r: string)
    ensures |r| <= |s| && r == s[..|r|]
    ensures r == [] || !IsIntSpace(r[|r| - 1])
  {
    if s != [] && IsIntSpace(s[|s| - 1]) then SkipSpaceEnd(s[..|s| - 1]) else s
  }

  /** The text `int()` reads: leading and trailing `IsIntSpace` characters removed. */
  function IntStrip(s: string): string {
    SkipSpaceEnd(SkipSpaceStart(s))
  }

  /** `int(text)` in base 10: surrounding whitespace, an optional sign, then the digits; None for ValueError. */
  function ParseInt(text: string): (r: Option<int>)
    ensures r.Some? ==> IntStrip(text) != []
  {
    ParseStripped(IntStrip(text))
  }

  /** An optional sign and then the digits, on text without surrounding whitespace. */
  function ParseStripped(t: string): (r: Option<int>)
    ensures r.Some? ==> t != []
  {
    var signed := t != [] && (t[0] == '+' || t[0] == '-');
    var body := if signed then t[1..] else t;
    if WellFormedDigits(body) then
      Some(if signed && t[0] == '-' then -(LiteralValue(body) as int) else LiteralValue(body))
    else None
  }

  /** `int_parse_from_text(text)`: a positive integer, else 0. */
  function IntParseFromText(text: Option<string>): (r: nat)
    ensures r > 0 <==> text.Some? && text.value != "" && ParseInt(text.value).Some? && ParseInt(text.value).value > 0
    ensures r > 0 ==> ParseInt(text.value) == Some(r)
  {
    if text.Some? && text.value != "" then
      match ParseInt(text.value)
      case Some(v) => if v > 0 then v else 0
      case None => 0
    else 0
  }

  /** `int_from_env(name)` on the process environment. */
  function IntFromEnv(environ: map<string, string>, name: string): nat {
    IntParseFromText(if name in environ then Some(environ[name]) else None)
  }

  /** The value read back from a positive number's decimal text is that number. */
  lemma {:induction false} LiteralValueOfDecimal(n: nat)
    ensures LiteralValue(DecimalString(n)) == n
  {
    var s := DecimalString(n);
    if n >= 10 {
      LiteralValueOfDecimal(n / 10);
      assert s[..|s| - 1] == DecimalString(n / 10);
    }
  }

  /** Text that neither starts nor ends with whitespace is not changed by stripping. */
  lemma StripUnchanged(s: string)
    requires s != [] && !IsIntSpace(s[0]) && !IsIntSpace(s[|s| - 1])
    ensures IntStrip(s) == s
  {
  }

  /** Text that strips to itself and is a sign followed by digits parses to the signed value of the digits. */
  lemma ParseSigned(t: string)
    requires |t| > 1 && (t[0] == '+' || t[0] == '-') && WellFormedDigits(t[1..])
    ensures ParseStripped(t) == Some(if t[0] == '-' then -(LiteralValue(t[1..]) as int) else LiteralValue(t[1..]))
  {
  }

  /** Digits without a sign parse to their value. */
  lemma ParseDigits(s: string, n: nat)
    requires WellFormedDigits(s) && LiteralValue(s) == n
    ensures ParseInt(s) == Some(n)
  {
    StripUnchanged(s);
    assert ParseStripped(s) == Some(LiteralValue(s));
  }

  /** A number's decimal text parses to that number. */
  lemma ParseDecimal(n: nat)
    ensures ParseInt(DecimalString(n)) == Some(n)
  {
    DecimalWellFormed(n);
    LiteralValueOfDecimal(n);
    ParseDigits(DecimalString(n), n);
  }

  /** Digits with a sign in front parse to the signed value of the digits. */
  lemma ParseSignedDigits(s: string, n: nat, sign: char)
    requires sign == '+' || sign == '-'
    requires WellFormedDigits(s) && LiteralValue(s) == n
    ensures ParseInt([sign] + s) == Some(if sign == '-' then -(n as int) else n)
  {
    var t := [sign] + s;
    assert t[0] == sign && t[|t| - 1] == s[|s| - 1];
    StripUnchanged(t);
    assert t[1..] == s;
    ParseSigned(t);
  }

  /** With a sign in front, a number's decimal text parses to that number with that sign. */
  lemma ParseSignedDecimal(n: nat, sign: char)
    requires sign == '+' || sign == '-'
    ensures ParseInt([sign] + DecimalString(n)) == Some(if sign == '-' then -(n as int) else n)
  {
    DecimalWellFormed(n);
    LiteralValueOfDecimal(n);
    ParseSignedDigits(DecimalString(n), n, sign);
  }

  lemma DecimalWellFormed(n: nat)
    ensures WellFormedDigits(DecimalString(n))
  {
    var s := DecimalString(n);
    assert forall i :: 0 <= i < |s| ==> IsDigitChar(s[i]);
  }

  /** Text that parses to a positive number is read as that number. */
  lemma PositiveRead(t: string, n: int)
    requires n > 0 && ParseInt(t) == Some(n)
    ensures IntParseFromText(Some(t)) == n
  {
    assert t != "" by {
      assert IntStrip("") == "";
    }
  }

  /** A positive number written in decimal, as jupyter-client writes a pid, is read back as itself. */
  lemma ParsePositive(n: nat)
    requires n > 0
    ensures IntParseFromText(Some(DecimalString(n))) == n
    ensures IntParseFromText(Some("+" + DecimalString(n))) == n
  {
    ParseDecimal(n);
    PositiveRead(DecimalString(n), n);
    ParseSignedDecimal(n, '+');
    PositiveRead("+" + DecimalString(n), n);
  }

  /** Zero and negative numbers are read as 0, like a missing variable. */
  lemma NonPositiveIsZero(n: nat)
    ensures IntParseFromText(Some("-" + DecimalString(n))) == 0
    ensures IntParseFromText(Some(DecimalString(0))) == 0
    ensures IntParseFromText(None) == 0
  {
    var t := "-" + DecimalString(n);
    ParseSignedDecimal(n, '-');
    assert ParseInt(t) == Some(-(n as int));
    ZeroIsZero();
  }

  /**
   * The information separators `\x1c`..`\x1f`, which `str.strip` removes, are
   * not skipped by `int()`: such text is a ValueError and reads as 0.
   */
  lemma SeparatorNotSkipped(n: nat, c: char)
    requires '\U{001C}' <= c <= '\U{001F}'
    ensures IntParseFromText(Some([c] + DecimalString(n))) == 0
  {
    var d := DecimalString(n);
    var t := [c] + d;
    DecimalWellFormed(n);
    assert t[|t| - 1] == d[|d| - 1];
    StripUnchanged(t);
    assert !IsDigitChar(t[0]);
    assert ParseInt(t) == None;
  }

  /** ASCII whitespace around the digits is skipped. */
  lemma SpaceSkipped(n: nat)
    requires n > 0
    ensures IntParseFromText(Some(" \t" + DecimalString(n) + "\n")) == n
  {
    var d := DecimalString(n);
    DecimalWellFormed(n);
    SpacesAround(d);
    StripUnchanged(d);
    ParseDecimal(n);
    PositiveRead(" \t" + d + "\n", n);
  }

  lemma SpacesAround(d: string)
    requires d != [] && !IsIntSpace(d[0]) && !IsIntSpace(d[|d| - 1])
    ensures IntStrip(" \t" + d + "\n") == d
  {
    var v := d + "\n";
    var u := " \t" + d + "\n";
    assert u == [' '] + (['\t'] + v);
    SkipLeading(' ', ['\t'] + v);
    SkipLeading('\t', v);
    assert v[0] == d[0];
    assert SkipSpaceStart(v) == v;
    assert SkipSpaceStart(u) == v;
    SkipTrailing(d, '\n');
    assert SkipSpaceEnd(d) == d;
  }

  lemma SkipLeading(c: char, s: string)
    requires IsIntSpace(c)
    ensures SkipSpaceStart([c] + s) == SkipSpaceStart(s)
  {
    assert ([c] + s)[1..] == s;
  }

  lemma SkipTrailing(s: string, c: char)
    requires IsIntSpace(c)
    ensures SkipSpaceEnd(s + [c]) == SkipSpaceEnd(s)
  {
    assert (s + [c])[..|s|] == s;
  }

  lemma ZeroIsZero()
    ensures IntParseFromText(Some(DecimalString(0))) == 0
  {
    ParseDecimal(0);
  }

  /** `JpyVars`: the fields are filled in after construction from the environment. */
  class JpyVars {
    var parentPid: nat
    var interruptEvent: nat

    /** `__post_init__`, for the environment `environ` and `sys.platform` equal to `platform`. */
    constructor (environ: map<string, string>, platform: string)
      ensures parentPid == IntFromEnv(environ, "JPY_PARENT_PID")
      ensures interruptEvent == if platform == "win32" then IntFromEnv(environ, "JPY_INTERRUPT_EVENT") else 0
    {
      parentPid := IntFromEnv(environ, "JPY_PARENT_PID");
      interruptEvent := if platform == "win32" then IntFromEnv(environ, "JPY_INTERRUPT_EVENT") else 0;
    }
  }
}
