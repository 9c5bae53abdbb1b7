/** Compilation of a single attribute definition: `keyAttribute` for the bare
    type string form and `objectAttribute` for the object form. */
module Attributes {
  import opened JsValues

  /** A compiled attribute. Each field is None exactly when the compiled object
      lacks that own property, so `primaryKey == Some(Bool(false))` still counts
      as a declared primary key. `typ` is the `type` property. */
  datatype Attr = Attr(
    typ: Option<string>,
    defaultsTo: Option<Value>,
    primaryKey: Option<Value>,
    autoIncrement: Option<Value>,
    unique: Option<Value>,
    index: Option<Value>,
    default: Option<string>)

  /** The empty object `{}`. */
  const Empty := Attr(None, None, None, None, None, None, None)

  /** The keys `objectAttribute` acts on; every other key is ignored. */
  const RecognisedKeys: set<string> := {"type", "defaultsTo", "primaryKey", "autoIncrement", "unique", "index"}

  /** The keys whose processing writes the `type` property. */
  predicate SetsType(key: string) {
    key == "type" || key == "autoIncrement"
  }

  /** A declared type, lower-cased and checked against the allow-list `types`;
      anything outside the list becomes "string". */
  function NormalizeType(types: seq<string>, declared: string): (t: string)
    ensures t in types || t == "string"
    ensures IsLower(t)
    ensures Lower(declared) in types ==> t == Lower(declared)
    ensures Lower(declared) !in types ==> t == "string"
  {
    var lowered := Lower(declared);
    if lowered in types then lowered else "string"
  }

  /** Normalising an already normalised type changes nothing. */
  lemma NormalizeTypeIdempotent(types: seq<string>, declared: string)
    ensures NormalizeType(types, NormalizeType(types, declared)) == NormalizeType(types, declared)
  {
    var t := NormalizeType(types, declared);
    LowerOfLower(t);
  }

  /** `keyAttribute`: a bare type string becomes a record holding only `type`. */
  function KeyAttribute(types: seq<string>, value: string): (a: Attr)
    ensures a.typ.Some? && (a.typ.value in types || a.typ.value == "string")
    ensures Lower(value) in types ==> a.typ == Some(Lower(value))
    ensures Lower(value) !in types ==> a.typ == Some("string")
    ensures a.(typ := None) == Empty
  {
    Empty.(typ := Some(NormalizeType(types, value)))
  }

  /** The effect of one key of an object definition on the record built so far:
      one case of the switch in `objectAttribute`. */
  function Step(types: seq<string>, a: Attr, key: string, v: Value): Result<Attr> {
    if key == "type" then
      if v.Str? then Ok(a.(typ := Some(NormalizeType(types, v.s)))) else Fail(LowerCaseOfNonString)
    else if key == "defaultsTo" then Ok(a.(defaultsTo := Some(v)))
    else if key == "primaryKey" then Ok(a.(primaryKey := Some(v)))
    else if key == "autoIncrement" then Ok(a.(autoIncrement := Some(v), typ := Some("integer")))
    else if key == "unique" then Ok(a.(unique := Some(v)))
    else if key == "index" then Ok(a.(index := Some(v)))
    else Ok(a)
  }

  /** What one key changes, field by field. */
  lemma StepEffect(types: seq<string>, a: Attr, key: string, v: Value)
    ensures Step(types, a, key, v).Fail? <==> key == "type" && !v.Str?
    ensures Step(types, a, key, v).Ok? ==>
            var b := Step(types, a, key, v).value;
            && b.typ == (if key == "type" then Some(NormalizeType(types, v.s))
                         else if key == "autoIncrement" then Some("integer") else a.typ)
            && b.defaultsTo == (if key == "defaultsTo" then Some(v) else a.defaultsTo)
            && b.primaryKey == (if key == "primaryKey" then Some(v) else a.primaryKey)
            && b.autoIncrement == (if key == "autoIncrement" then Some(v) else a.autoIncrement)
            && b.unique == (if key == "unique" then Some(v) else a.unique)
            && b.index == (if key == "index" then Some(v) else a.index)
            && b.default == a.default
            && (key !in RecognisedKeys ==> b == a)
  {
  }

  /** The left fold of Step over the keys in order, starting from `{}`; the
      first TypeError stops it. */
  function FoldKeys(types: seq<string>, props: Props): Result<Attr>
    decreases |props|
  {
    if props == [] then Ok(Empty)
    else
      match FoldKeys(types, props[..|props| - 1])
      case Fail(e) => Fail(e)
      case Ok(a) => Step(types, a, props[|props| - 1].0, props[|props| - 1].1)
  }

  /** What `objectAttribute(value)` returns or throws, for any value. */
  function ObjectAttributeValue(types: seq<string>, value: Value): Result<Attr> {
    match value
    case Obj(props) => FoldKeys(types, props)
    case Fn => Ok(Empty)  // a function is an object without own enumerable properties
    case _ => Fail(KeysOfNonObject)
  }

  /** `objectAttribute`: builds a fresh record with one pass over the keys. */
  method ObjectAttribute(types: seq<string>, value: Value) returns (r: Result<Attr>)
    ensures r == ObjectAttributeValue(types, value)
  {
    if !value.Obj? {
      if value.Fn? {
        return Ok(Empty);
      }
      return Fail(KeysOfNonObject);
    }
    var props := value.props;
    var attr := Empty;
    var i := 0;
    while i < |props|
      invariant 0 <= i <= |props|
      invariant FoldKeys(types, props[..i]) == Ok(attr)
    {
      var (key, v) := props[i];
      assert props[..i + 1][..i] == props[..i];
      if key == "type" {
        if !v.Str? {
          FoldFailSticks(types, props[..i + 1], props[i + 1..]);
          assert props[..i + 1] + props[i + 1..] == props;
          return Fail(LowerCaseOfNonString);
        }
        attr := attr.(typ := Some(NormalizeType(types, v.s)));
      } else if key == "defaultsTo" {
        attr := attr.(defaultsTo := Some(v));
      } else if key == "primaryKey" {
        attr := attr.(primaryKey := Some(v));
      } else if key == "autoIncrement" {
        attr := attr.(autoIncrement := Some(v));
        attr := attr.(typ := Some("integer"));
      } else if key == "unique" {
        attr := attr.(unique := Some(v));
      } else if key == "index" {
        attr := attr.(index := Some(v));
      }
      i := i + 1;
    }
    assert props[..i] == props;
    r := Ok(attr);
  }

  /** Once a key has thrown, later keys are never processed. */
  lemma {:induction false} FoldFailSticks(types: seq<string>, p: Props, q: Props)
    requires FoldKeys(types, p).Fail?
    ensures FoldKeys(types, p + q) == FoldKeys(types, p)
    decreases |q|
  {
    if q != [] {
      assert (p + q)[..|p + q| - 1] == p + q[..|q| - 1];
      FoldFailSticks(types, p, q[..|q| - 1]);
    } else {
      assert p + q == p;
    }
  }

  /** `objectAttribute` throws exactly when some `type` value is not a string. */
  lemma {:induction false} ObjectAttributeSucceeds(types: seq<string>, p: Props)
    ensures FoldKeys(types, p).Ok? <==> forall i :: 0 <= i < |p| && p[i].0 == "type" ==> p[i].1.Str?
    decreases |p|
  {
    if p != [] {
      var q := p[..|p| - 1];
      ObjectAttributeSucceeds(types, q);
      assert forall i :: 0 <= i < |q| ==> q[i] == p[i];
    }
  }

  /** `defaultsTo`, `primaryKey`, `autoIncrement`, `unique` and `index` are
      copied verbatim from the definition, and `default` is never set. */
  lemma {:induction false} ModifiersCopiedVerbatim(types: seq<string>, p: Props, a: Attr)
    requires FoldKeys(types, p) == Ok(a)
    ensures a.defaultsTo == Lookup(p, "defaultsTo")
    ensures a.primaryKey == Lookup(p, "primaryKey")
    ensures a.autoIncrement == Lookup(p, "autoIncrement")
    ensures a.unique == Lookup(p, "unique")
    ensures a.index == Lookup(p, "index")
    ensures a.default == None
    decreases |p|
  {
    if p != [] {
      var q := p[..|p| - 1];
      var x := p[|p| - 1];
      var b := FoldKeys(types, q).value;
      assert FoldKeys(types, p) == Step(types, b, x.0, x.1);
      StepEffect(types, b, x.0, x.1);
      ModifiersCopiedVerbatim(types, q, b);
    }
  }

  /** Index `i` holds the last `type` or `autoIncrement` key of `p`. */
  predicate LastTypeSetter(p: Props, i: int) {
    0 <= i < |p| && SetsType(p[i].0) && forall j :: i < j < |p| ==> !SetsType(p[j].0)
  }

  /** The `type` of an object attribute comes from whichever of `type` and
      `autoIncrement` is processed last: "integer" after `autoIncrement`, the
      normalised declared type after `type`, and nothing when neither occurs. */
  lemma {:induction false} TypeLastWriterWins(types: seq<string>, p: Props, a: Attr)
    requires FoldKeys(types, p) == Ok(a)
    ensures (forall i :: 0 <= i < |p| ==> !SetsType(p[i].0)) ==> a.typ == None
    ensures forall i :: LastTypeSetter(p, i) && p[i].0 == "autoIncrement" ==> a.typ == Some("integer")
    ensures forall i :: LastTypeSetter(p, i) && p[i].0 == "type" ==>
              p[i].1.Str? && a.typ == Some(NormalizeType(types, p[i].1.s))
    decreases |p|
  {
    if p != [] {
      var q := p[..|p| - 1];
      var x := p[|p| - 1];
      var b := FoldKeys(types, q).value;
      assert FoldKeys(types, p) == Step(types, b, x.0, x.1);
      StepEffect(types, b, x.0, x.1);
      TypeLastWriterWins(types, q, b);
      if !SetsType(x.0) {
        assert a.typ == b.typ;
        forall i | LastTypeSetter(p, i) ensures LastTypeSetter(q, i) {
          assert i < |p| - 1;
          assert forall j :: i < j < |q| ==> q[j] == p[j];
        }
        if forall i :: 0 <= i < |q| ==> !SetsType(q[i].0) {
          assert forall i :: 0 <= i < |p| ==> !SetsType(p[i].0) by {
            forall i | 0 <= i < |p| ensures !SetsType(p[i].0) {
              if i < |q| {
                assert q[i] == p[i];
              }
            }
          }
        }
      }
    }
  }

  /** Every type an object attribute ends up with is in the allow-list, or is
      "string" or "integer". */
  lemma {:induction false} ObjectAttributeTypeAllowed(types: seq<string>, p: Props, a: Attr)
    requires FoldKeys(types, p) == Ok(a)
    ensures a.typ.Some? ==> a.typ.value in types || a.typ.value == "string" || a.typ.value == "integer"
    decreases |p|
  {
    if p != [] {
      var q := p[..|p| - 1];
      ObjectAttributeTypeAllowed(types, q, FoldKeys(types, q).value);
    }
  }

  /** Unrecognised keys have no effect on the compiled record. */
  lemma {:induction false} UnrecognisedKeysIgnored(types: seq<string>, p: Props)
    ensures FoldKeys(types, p) == FoldKeys(types, KeepKeys(p, RecognisedKeys))
    decreases |p|
  {
    if p != [] {
      var q := p[..|p| - 1];
      var last := p[|p| - 1];
      UnrecognisedKeysIgnored(types, q);
      var rq := KeepKeys(q, RecognisedKeys);
      assert p == q + [last];
      if FoldKeys(types, q).Ok? {
        StepEffect(types, FoldKeys(types, q).value, last.0, last.1);
      }
      if last.0 in RecognisedKeys {
        assert (rq + [last])[..|rq + [last]| - 1] == rq;
      } else {
        assert rq + [] == rq;
      }
    }
  }

  /** The example of the doc comment: `phone: {type: 'string', defaultsTo:
      '555-555-5555'}` compiles to the same two properties. */
  lemma PhoneExample(types: seq<string>)
    ensures ObjectAttributeValue(types, Obj([("type", Str("string")), ("defaultsTo", Str("555-555-5555"))]))
         == Ok(Empty.(typ := Some("string"), defaultsTo := Some(Str("555-555-5555"))))
  {
    var p := [("type", Str("string")), ("defaultsTo", Str("555-555-5555"))];
    LowerOfLower("string");
    assert NormalizeType(types, "string") == "string";
    assert p[..1] == [("type", Str("string"))];
    assert p[..1][..0] == [];
    assert FoldKeys(types, p[..1]) == Ok(Empty.(typ := Some("string")));
  }

  /** `autoIncrement` forces "integer" only when no `type` comes after it:
      listed before `type`, the declared type wins. */
  lemma AutoIncrementThenType(types: seq<string>)
    ensures FoldKeys(types, [("autoIncrement", Bool(true)), ("type", Str("string"))])
         == Ok(Empty.(autoIncrement := Some(Bool(true)), typ := Some("string")))
    ensures FoldKeys(types, [("type", Str("string")), ("autoIncrement", Bool(true))])
         == Ok(Empty.(autoIncrement := Some(Bool(true)), typ := Some("integer")))
  {
    LowerOfLower("string");
    var p := [("autoIncrement", Bool(true)), ("type", Str("string"))];
    assert p[..1] == [("autoIncrement", Bool(true))];
    assert p[..1][..0] == [];
    var q := [("type", Str("string")), ("autoIncrement", Bool(true))];
    assert q[..1] == [("type", Str("string"))];
    assert q[..1][..0] == [];
  }
}
