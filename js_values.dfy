/**
 * The JSON values the client receives from the backend, with the few
 * JavaScript operations applied to them: truthiness, `typeof`, property
 * reads, `Object.keys` and conversion to text in template literals.
 */
module JsValues {
  import opened Common

  /**
   * A parsed JSON value. An object keeps its properties in the order
   * `Object.keys` enumerates them. Numbers are integers in this model.
   */
  datatype Js =
    | Undefined
    | Null
    | Bool(b: bool)
    | Num(n: int)
    | Str(s: string)
    | Arr(elems: seq<Js>)
    | Obj(props: seq<(string, Js)>)

  /** JavaScript truthiness. */
  predicate Truthy(v: Js) {
    match v
    case Undefined => false
    case Null => false
    case Bool(b) => b
    case Num(n) => n != 0
    case Str(s) => s != ""
    case Arr(_) => true
    case Obj(_) => true
  }

  /** `a || b`: the first operand when it is truthy, else the second. */
  function Or(a: Js, b: Js): (r: Js)
    ensures Truthy(r) <==> Truthy(a) || Truthy(b)
    ensures Truthy(a) ==> r == a
    ensures !Truthy(a) ==> r == b
  {
    if Truthy(a) then a else b
  }

  /** `typeof v === 'object'` (true for null as well). */
  predicate IsObjectType(v: Js) {
    v.Null? || v.Arr? || v.Obj?
  }

  /** Reading a property of null or undefined throws a TypeError. */
  predicate IsNullish(v: Js) {
    v.Null? || v.Undefined?
  }

  /** No element is null or undefined, so each has properties to read. */
  predicate NoNullish(elems: seq<Js>) {
    forall k :: 0 <= k < |elems| ==> !IsNullish(elems[k])
  }

  /** The value stored under `key` in a property list, undefined when absent. */
  function Lookup(props: seq<(string, Js)>, key: string): Js {
    if props == [] then Undefined
    else if props[0].0 == key then props[0].1
    else Lookup(props[1..], key)
  }

  /**
   * `v[key]` for a named property of a value that is not null or
   * undefined. Only objects carry named properties in this model (the names
   * read by the client are never `length` or an array index).
   */
  function Get(v: Js, key: string): (r: Js)
    requires !IsNullish(v)
  {
    if v.Obj? then Lookup(v.props, key) else Undefined
  }

  /** The property name of index i: `String(i)`. */
  function IndexKey(i: nat): string {
    NatToString(i)
  }

  /** Elements paired with their index keys. */
  function IndexedEntries(elems: seq<Js>): (r: seq<(string, Js)>)
    ensures |r| == |elems| && forall i :: 0 <= i < |r| ==> r[i] == (IndexKey(i), elems[i])
  {
    if elems == [] then []
    else IndexedEntries(elems[..|elems| - 1]) + [(IndexKey(|elems| - 1), elems[|elems| - 1])]
  }

  /** The one-character strings a string indexes to. */
  function CharStrings(s: string): (r: seq<Js>)
    ensures |r| == |s| && forall i :: 0 <= i < |s| ==> r[i] == Str([s[i]])
  {
    if s == [] then [] else CharStrings(s[..|s| - 1]) + [Str([s[|s| - 1]])]
  }

  /**
   * `Object.keys(v).map(k => [k, v[k]])`: an object's properties, an
   * array's or a string's indices with their elements, nothing for
   * booleans and numbers. Null and undefined throw.
   */
  function Entries(v: Js): (r: seq<(string, Js)>)
    requires !IsNullish(v)
    ensures v.Obj? ==> r == v.props
    ensures v.Arr? ==> |r| == |v.elems| && forall i :: 0 <= i < |r| ==> r[i] == (IndexKey(i), v.elems[i])
    ensures v.Str? ==> |r| == |v.s| && forall i :: 0 <= i < |r| ==> r[i] == (IndexKey(i), Str([v.s[i]]))
    ensures v.Bool? || v.Num? ==> r == []
  {
    match v
    case Obj(props) => props
    case Arr(elems) => IndexedEntries(elems)
    case Str(s) => IndexedEntries(CharStrings(s))
    case _ => []
  }

  /** `String(v)`, as a template literal renders v. */
  function ToText(v: Js): string
    decreases v, 1
  {
    match v
    case Undefined => "undefined"
    case Null => "null"
    case Bool(b) => if b then "true" else "false"
    case Num(n) => IntToString(n)
    case Str(s) => s
    case Arr(elems) => JoinElems(v, elems)
    case Obj(_) => "[object Object]"
  }

  /** `Array.prototype.join(",")`, where null and undefined elements render empty. */
  function JoinElems(whole: Js, elems: seq<Js>): string
    requires whole.Arr? && elems <= whole.elems
    decreases whole, 0, |elems|
  {
    if elems == [] then ""
    else
      var last := elems[|elems| - 1];
      assert last in whole.elems;
      var text := if IsNullish(last) then "" else ToText(last);
      if |elems| == 1 then text else JoinElems(whole, elems[..|elems| - 1]) + "," + text
  }
}
