/** The JavaScript values the plugin reads from its configuration, from
    function definitions and from remote answers, with the few operations of
    the language and of lodash that its decisions depend on. */
module Js {
  import opened Text

  datatype Option<T> = None | Some(value: T)

  /** A JavaScript value; numbers are integers here, objects appear only as
      arrays. */
  datatype Value =
    | Undefined
    | Null
    | Bool(b: bool)
    | Num(n: int)
    | Str(s: string)
    | Arr(items: seq<Value>)

  /** How an expression finishes: with a value, or by throwing a TypeError
      (a method called on a value that does not have it). */
  datatype Completion<T> = Normal(value: T) | Thrown

  /** JavaScript truthiness: `undefined`, `null`, `false`, `0` and `""` are
      falsy, every other value is truthy. */
  predicate Truthy(v: Value)
  {
    match v
    case Undefined => false
    case Null => false
    case Bool(b) => b
    case Num(n) => n != 0
    case Str(s) => s != ""
    case Arr(_) => true
  }

  /** `a || b` */
  function Or(a: Value, b: Value): (r: Value)
    ensures Truthy(a) ==> r == a
    ensures !Truthy(a) ==> r == b
  {
    if Truthy(a) then a else b
  }

  /** The string form of a value, as `String(v)` and template interpolation
      `${v}` produce it; array elements that are `null` or `undefined`
      render as empty. */
  function Show(v: Value): string
    decreases v
  {
    match v
    case Undefined => "undefined"
    case Null => "null"
    case Bool(b) => if b then "true" else "false"
    case Num(n) => IntToString(n)
    case Str(s) => s
    case Arr(xs) =>
      Join(seq(|xs|, i requires 0 <= i < |xs| =>
                       if xs[i].Undefined? || xs[i].Null? then "" else Show(xs[i])), ",")
  }

  /** `a === b`: primitives compare by value; two arrays are distinct objects
      (object identity is not modelled). */
  predicate StrictEquals(a: Value, b: Value)
  {
    !a.Arr? && !b.Arr? && a == b
  }

  /** `xs.indexOf(x)`: the first position holding a value `=== x`, or -1. */
  function IndexOf(xs: seq<Value>, x: Value): (i: int)
    ensures -1 <= i < |xs|
    ensures i >= 0 ==> StrictEquals(xs[i], x)
    ensures forall j :: 0 <= j < |xs| && (i == -1 || j < i) ==> !StrictEquals(xs[j], x)
  {
    if |xs| == 0 then -1
    else if StrictEquals(xs[0], x) then 0
    else
      var k := IndexOf(xs[1..], x);
      if k == -1 then -1 else k + 1
  }

  /** `v.includes(x)`: substring search on a string (after converting `x`
      to a string), element search on an array, and a TypeError on a value
      that has no `includes` method. */
  function Includes(v: Value, x: Value): (r: Completion<bool>)
    ensures v.Str? ==> r == Normal(Contains(v.s, Show(x)))
    ensures v.Arr? ==> r == Normal(exists i :: 0 <= i < |v.items| && StrictEquals(v.items[i], x))
    ensures !v.Str? && !v.Arr? ==> r == Thrown
  {
    match v
    case Str(s) => Normal(Contains(s, Show(x)))
    case Arr(xs) => Normal(IndexOf(xs, x) != -1)
    case _ => Thrown
  }

  /** lodash `_.isEmpty`: true of `null`, `undefined`, booleans, numbers, the
      empty string and the empty array. */
  predicate IsEmpty(v: Value)
  {
    match v
    case Str(s) => s == ""
    case Arr(xs) => xs == []
    case _ => true
  }

  /** Reading a key of an environment object: `undefined` when absent. */
  function Get(env: map<string, Value>, key: string): (v: Value)
    ensures key !in env ==> v == Undefined
  {
    if key in env then env[key] else Undefined
  }
}
