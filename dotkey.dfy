/**
 * `get_dotkey`: follow a dotted key such as "tool.rye.managed" through nested
 * tables. A missing key gives the caller's default; indexing into something
 * that is not a table raises TypeError, which `get_dotkey` does not catch.
 */
module DotKeys {
  import opened PyValues

  datatype Lookup = Found(v: Value) | Missing | NotSubscriptable(v: Value)

  /** The TypeError message of `v[key]` for a string key and a non-dict `v`. */
  function SubscriptError(v: Value): Exc {
    match v
    case Str(_) => TypeError("string indices must be integers, not 'str'")
    case List(_) => TypeError("list indices must be integers or slices, not str")
    case _ => TypeError("'" + TypeNameOf(v) + "' object is not subscriptable")
  }

  /** `root = root[part]` for each part in turn. */
  function Walk(root: Value, parts: seq<string>): (r: Lookup)
    ensures parts == [] ==> r == Found(root)
    ensures r.NotSubscriptable? ==> !r.v.Dict?
  {
    if parts == [] then Found(root)
    else match root
      case Dict(m) => if parts[0] in m then Walk(m[parts[0]], parts[1..]) else Missing
      case _ => NotSubscriptable(root)
  }

  /** Walking a concatenated key walks the first half, then the second from where it ended. */
  lemma {:induction false} WalkAppend(root: Value, a: seq<string>, b: seq<string>)
    ensures Walk(root, a + b) == match Walk(root, a) { case Found(w) => Walk(w, b) case other => other }
  {
    if a == [] {
      assert a + b == b;
    } else {
      assert (a + b)[0] == a[0] && (a + b)[1..] == a[1..] + b;
      if root.Dict? && a[0] in root.entries {
        WalkAppend(root.entries[a[0]], a[1..], b);
      }
    }
  }

  /** `get_dotkey(data, ".".join(parts), default)` */
  function DotKey(data: Value, parts: seq<string>, default: Value): (r: Outcome<Value>)
    ensures r.Raise? <==> Walk(data, parts).NotSubscriptable?
    ensures r.Ok? && Walk(data, parts).Found? ==> r.value == Walk(data, parts).v
    ensures r.Ok? && !Walk(data, parts).Found? ==> r.value == default
  {
    match Walk(data, parts)
    case Found(v) => Ok(v)
    case Missing => Ok(default)
    case NotSubscriptable(v) => Raise(SubscriptError(v))
  }

  /** `has_dotkey`: the key leads to a value other than None. */
  function HasDotKey(data: Value, parts: seq<string>): (r: Outcome<bool>)
    ensures r.Ok? ==> (r.value <==> Walk(data, parts).Found? && Walk(data, parts).v != NoneValue)
    ensures r.Raise? <==> Walk(data, parts).NotSubscriptable?
  {
    var v :- DotKey(data, parts, NoneValue);
    Ok(v != NoneValue)
  }

  /** One more step of a walk that has reached `w`. */
  lemma WalkStep(data: Value, pre: seq<string>, part: string, w: Value)
    requires Walk(data, pre) == Found(w)
    ensures w.Dict? && part in w.entries ==> Walk(data, pre + [part]) == Found(w.entries[part])
    ensures w.Dict? && part !in w.entries ==> Walk(data, pre + [part]) == Missing
    ensures !w.Dict? ==> Walk(data, pre + [part]) == NotSubscriptable(w)
  {
    WalkAppend(data, pre, [part]);
  }

  /** A walk that stopped early ends the same however many parts follow. */
  lemma WalkStops(data: Value, pre: seq<string>, rest: seq<string>)
    requires !Walk(data, pre).Found?
    ensures Walk(data, pre + rest) == Walk(data, pre)
  {
    WalkAppend(data, pre, rest);
  }

  /** `get_dotkey` as written: split the dotted key, then index part by part. */
  method GetDotkey(data: Value, dotkey: string, default: Value) returns (r: Outcome<Value>)
    ensures r == DotKey(data, SplitOn(dotkey, '.'), default)
  {
    var parts := SplitOn(dotkey, '.');
    var root := data;
    var i := 0;
    while i < |parts|
      invariant 0 <= i <= |parts|
      invariant Walk(data, parts[..i]) == Found(root)
    {
      WalkStep(data, parts[..i], parts[i], root);
      assert parts[..i] + [parts[i]] == parts[..i + 1];
      if !root.Dict? || parts[i] !in root.entries {
        WalkStops(data, parts[..i + 1], parts[i + 1..]);
        assert parts[..i + 1] + parts[i + 1..] == parts;
        if !root.Dict? {
          return Raise(SubscriptError(root));
        }
        return Ok(default);
      }
      root := root.entries[parts[i]];
      i := i + 1;
    }
    assert parts[..i] == parts;
    return Ok(root);
  }
}
