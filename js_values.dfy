/** JavaScript values as the Waterline schema compiler sees them: the raw
    attribute definitions it reads, the modifier values it copies, and the
    truthiness and property-lookup rules its guards rely on. */
module JsValues {

  datatype Option<+T> = None | Some(value: T)

  /** The two TypeErrors the compiler can raise while it walks the attributes. */
  datatype TypeError =
    | KeysOfNonObject       // Object.keys applied to null, undefined or a primitive (ES5)
    | LowerCaseOfNonString  // `.toLowerCase()` called on a `type` that is not a string

  /** The outcome of an operation that may throw. */
  datatype Result<+T> = Ok(value: T) | Fail(error: TypeError)

  /** A JavaScript value. Numbers are integers; a function is opaque; an object
      is the list of its own enumerable properties in the order Object.keys
      yields them (arrays are objects whose keys are "0", "1", ...). */
  datatype Value =
    | Undefined
    | Null
    | Bool(b: bool)
    | Num(n: int)
    | Str(s: string)
    | Fn
    | Obj(props: Props)

  type Props = seq<(string, Value)>

  /** JavaScript's ToBoolean: the falsy values are undefined, null, false, 0 and "". */
  predicate Truthy(v: Value) {
    match v
    case Undefined => false
    case Null => false
    case Bool(b) => b
    case Num(n) => n != 0
    case Str(s) => s != ""
    case Fn => true
    case Obj(_) => true
  }

  /** The property names of an object. */
  function KeysOf(props: Props): set<string> {
    set i | 0 <= i < |props| :: props[i].0
  }

  /** A well-formed object never lists the same property twice. */
  predicate DistinctKeys(props: Props) {
    forall i, j :: 0 <= i < j < |props| ==> props[i].0 != props[j].0
  }

  /** The own property `k` of an object: the last binding of `k`, which is the
      only one when the keys are distinct. */
  function Lookup(props: Props, k: string): (r: Option<Value>)
    ensures r.None? <==> k !in KeysOf(props)
    ensures r.Some? ==> (k, r.value) in props
    decreases |props|
  {
    if props == [] then None
    else if props[|props| - 1].0 == k then Some(props[|props| - 1].1)
    else
      assert KeysOf(props) == KeysOf(props[..|props| - 1]) + {props[|props| - 1].0};
      Lookup(props[..|props| - 1], k)
  }

  /** `obj.k`: the property, or undefined when the object has none. */
  function Get(props: Props, k: string): Value {
    match Lookup(props, k)
    case Some(v) => v
    case None => Undefined
  }

  /** `v.k` for an arbitrary value: only objects carry the flags read here. */
  function Prop(v: Value, k: string): Value {
    if v.Obj? then Get(v.props, k) else Undefined
  }

  /** Adding a binding in front changes a lookup only when nothing later binds the key. */
  lemma {:induction false} LookupCons(x: (string, Value), rest: Props, k: string)
    ensures Lookup([x] + rest, k) ==
      if Lookup(rest, k).Some? then Lookup(rest, k)
      else if x.0 == k then Some(x.1) else None
    decreases |rest|
  {
    var p := [x] + rest;
    if rest != [] {
      assert p[..|p| - 1] == [x] + rest[..|rest| - 1];
      assert p[|p| - 1] == rest[|rest| - 1];
      LookupCons(x, rest[..|rest| - 1], k);
    }
  }

  /** The bindings of `props` whose key is in `keys`, in their order. */
  function KeepKeys(props: Props, keys: set<string>): (r: Props)
    ensures forall x :: x in r <==> x in props && x.0 in keys
    decreases |props|
  {
    if props == [] then []
    else
      var last := props[|props| - 1];
      assert props == props[..|props| - 1] + [last];
      KeepKeys(props[..|props| - 1], keys) + if last.0 in keys then [last] else []
  }

  /** Filtering a list extended at the front filters the first binding and then the rest. */
  lemma {:induction false} KeepKeysCons(x: (string, Value), rest: Props, keys: set<string>)
    ensures KeepKeys([x] + rest, keys) == (if x.0 in keys then [x] else []) + KeepKeys(rest, keys)
    decreases |rest|
  {
    var p := [x] + rest;
    if rest == [] {
      assert p[..|p| - 1] == [];
    } else {
      var q := rest[..|rest| - 1];
      assert p[..|p| - 1] == [x] + q;
      assert p[|p| - 1] == rest[|rest| - 1];
      assert rest == q + [rest[|rest| - 1]];
      KeepKeysCons(x, q, keys);
    }
  }

  /** Lower-casing of a single character, on the ASCII range. */
  function LowerChar(c: char): char {
    if 'A' <= c <= 'Z' then (c as int + 32) as char else c
  }

  predicate IsLower(s: string) {
    forall i :: 0 <= i < |s| ==> !('A' <= s[i] <= 'Z')
  }

  /** String.prototype.toLowerCase, restricted to ASCII. */
  function Lower(s: string): (r: string)
    ensures |r| == |s|
    ensures IsLower(r)
    ensures forall i :: 0 <= i < |s| ==> r[i] == LowerChar(s[i])
  {
    seq(|s|, i requires 0 <= i < |s| => LowerChar(s[i]))
  }

  /** Lower-casing a lower-case string changes nothing. */
  lemma LowerOfLower(s: string)
    requires IsLower(s)
    ensures Lower(s) == s
  {
  }
}
