/** The already-loaded document: the tree of mappings, sequences and
    scalars that the YAML loader hands to the parser, with the pieces of
    Python's value semantics the parser relies on (truthiness, `in`,
    subscription, `str()`). */
module Yaml {
  import opened Outcomes
  import Dict

  /** A loaded YAML value. Mappings keep their insertion order. */
  datatype Value =
    | Str(s: string)
    | Int(i: int)
    | Bool(b: bool)
    | Null
    | List(items: seq<Value>)
    | Map(entries: seq<(string, Value)>)

  /** Python's `not v`: empty strings, zero, False, None and empty
      containers are falsy. */
  predicate Falsy(v: Value) {
    match v
    case Str(s) => s == ""
    case Int(i) => i == 0
    case Bool(b) => !b
    case Null => true
    case List(xs) => xs == []
    case Map(es) => es == []
  }

  /** `k` occurs as a contiguous piece of `s` (Python's `k in s` on strings). */
  predicate IsSubstring(k: string, s: string)
    decreases |s|
  {
    (|k| <= |s| && s[..|k|] == k) || (s != [] && IsSubstring(k, s[1..]))
  }

  /** Python's `k in container` for a string `k`: key membership for a
      mapping, element membership for a list, substring search for a
      string, and a TypeError for scalars that are not containers. */
  function Contains(container: Value, k: string): (r: Result<bool>)
    ensures container.Map? ==> r == Ok(Dict.HasKey(container.entries, k))
    ensures r.Err? <==> container.Int? || container.Bool? || container.Null?
  {
    match container
    case Map(es) => Ok(Dict.HasKey(es, k))
    case List(xs) => Ok(Str(k) in xs)
    case Str(s) => Ok(IsSubstring(k, s))
    case _ => Err(TypeError)
  }

  /** Python's `container[k]` for a string `k`, used only after `k in
      container` held: a mapping yields the value, and every other kind of
      value raises a TypeError (a string or a list cannot be subscripted by
      a string). */
  function Index(container: Value, k: string): (r: Result<Value>)
    requires Contains(container, k) == Ok(true)
    ensures r.Ok? <==> container.Map?
    ensures r.Ok? ==> Dict.Get(container.entries, k) == Some(r.value)
  {
    match container
    case Map(es) => Ok(Dict.Get(es, k).value)
    case _ => Err(TypeError)
  }

  /** The strings of a list that holds only strings, in order. */
  function Strings(xs: seq<Value>): (ss: seq<string>)
    requires forall i :: 0 <= i < |xs| ==> xs[i].Str?
    ensures |ss| == |xs| && forall i :: 0 <= i < |xs| ==> xs[i] == Str(ss[i])
  {
    seq(|xs|, i requires 0 <= i < |xs| && xs[i].Str? => xs[i].s)
  }

  /** Python's `str(v)`, as `'{}'.format(v)` renders it into messages. */
  function Show(v: Value): string {
    match v
    case Str(s) => s
    case _ => Repr(v)
  }

  /** Python's `repr(v)`. Strings are quoted with single quotes; the
      escaping Python applies to quotes and control characters inside them
      is not modelled. */
  function Repr(v: Value): string {
    match v
    case Str(s) => "'" + s + "'"
    case Int(i) => IntToString(i)
    case Bool(b) => if b then "True" else "False"
    case Null => "None"
    case List(xs) =>
      "[" + Join(seq(|xs|, k requires 0 <= k < |xs| => Repr(xs[k]))) + "]"
    case Map(es) =>
      "{" + Join(seq(|es|, k requires 0 <= k < |es| => "'" + es[k].0 + "': " + Repr(es[k].1))) + "}"
  }

  /** The parts separated by ", ". */
  function Join(parts: seq<string>): string {
    if parts == [] then ""
    else if |parts| == 1 then parts[0]
    else parts[0] + ", " + Join(parts[1..])
  }

  /** Decimal rendering of an integer, with a leading '-' when negative. */
  function IntToString(i: int): string {
    if i < 0 then "-" + NatToString(-i) else NatToString(i)
  }

  function NatToString(n: nat): (r: string)
    ensures |r| > 0
    ensures forall c :: c in r ==> '0' <= c <= '9'
  {
    if n < 10 then [Digit(n)] else NatToString(n / 10) + [Digit(n % 10)]
  }

  function Digit(d: nat): char
    requires d < 10
  {
    "0123456789"[d]
  }
}
