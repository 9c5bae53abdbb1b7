/** The Waterline `Schema` object: compiles a model's raw attribute map into a
    schema, injects the automatic `id`, `createdAt` and `updatedAt`
    attributes, and strips records of keys the schema does not define. */
module SchemaCompiler {
  import opened JsValues
  import opened Attributes

  /** A compiled schema: attribute name to compiled attribute. */
  type Compiled = map<string, Attr>

  /** The automatic primary key. */
  const AutoId := Attr(Some("integer"), Some(Str("AUTO_INCREMENT")), Some(Bool(true)), Some(Bool(true)), None, None, None)

  /** The automatic timestamp attribute, `{type: 'DATE', default: 'NOW'}`. */
  const Now := Attr(Some("DATE"), None, None, None, None, None, Some("NOW"))

  /** The only names `addAutoAttributes` may write. */
  const AutoNames: set<string> := {"id", "createdAt", "updatedAt"}

  /** What `initialize` stores for an attribute that is not a function. */
  function CompileEntry(types: seq<string>, v: Value): Result<Attr> {
    if v.Str? then Ok(KeyAttribute(types, v.s)) else ObjectAttributeValue(types, v)
  }

  /** The attribute loop of `initialize`, starting from the schema `schema`:
      the schema it leaves behind and the TypeError that stopped it, if any.
      A throwing attribute leaves its entry as `{}`. */
  function CompileFrom(types: seq<string>, schema: Compiled, attrs: Props): (Compiled, Option<TypeError>)
    decreases |attrs|
  {
    if attrs == [] then (schema, None)
    else
      var (name, v) := attrs[0];
      if v.Fn? then CompileFrom(types, schema, attrs[1..])
      else
        match CompileEntry(types, v)
        case Fail(e) => (schema[name := Empty], Some(e))
        case Ok(a) => CompileFrom(types, schema[name := a], attrs[1..])
  }

  /** Some compiled entry has a `primaryKey` property, whatever its value. */
  predicate DeclaresPrimaryKey(schema: Compiled) {
    exists name :: name in schema && schema[name].primaryKey.Some?
  }

  /** The condition under which `addAutoAttributes` adds the automatic `id`. */
  predicate InjectsId(schema: Compiled, context: Value, attrs: Props) {
    !DeclaresPrimaryKey(schema) && Truthy(Prop(context, "autoPK")) && !Truthy(Get(attrs, "id"))
  }

  /** The condition under which the timestamp `name` is added, given its flag. */
  predicate InjectsTimestamp(context: Value, attrs: Props, flag: string, name: string) {
    Truthy(Prop(context, flag)) && !Truthy(Get(attrs, name))
  }

  /** `r` has the same entry for `name` as `s`, or neither has one. */
  predicate Keeps(r: Compiled, s: Compiled, name: string) {
    (name in r <==> name in s) && (name in s ==> r[name] == s[name])
  }

  /** `addAutoAttributes` as a function of the schema it starts from. */
  function AutoAttributes(schema: Compiled, context: Value, attrs: Props): (r: Compiled)
    ensures forall name :: name !in AutoNames ==> Keeps(r, schema, name)
    ensures InjectsId(schema, context, attrs) ==> "id" in r && r["id"] == AutoId
    ensures !InjectsId(schema, context, attrs) ==> Keeps(r, schema, "id")
    ensures InjectsTimestamp(context, attrs, "autoCreatedAt", "createdAt") ==> "createdAt" in r && r["createdAt"] == Now
    ensures !InjectsTimestamp(context, attrs, "autoCreatedAt", "createdAt") ==> Keeps(r, schema, "createdAt")
    ensures InjectsTimestamp(context, attrs, "autoUpdatedAt", "updatedAt") ==> "updatedAt" in r && r["updatedAt"] == Now
    ensures !InjectsTimestamp(context, attrs, "autoUpdatedAt", "updatedAt") ==> Keeps(r, schema, "updatedAt")
  {
    var withId := if InjectsId(schema, context, attrs) then schema["id" := AutoId] else schema;
    var withCreated :=
      if InjectsTimestamp(context, attrs, "autoCreatedAt", "createdAt") then withId["createdAt" := Now] else withId;
    if InjectsTimestamp(context, attrs, "autoUpdatedAt", "updatedAt") then withCreated["updatedAt" := Now] else withCreated
  }

  /** The bindings of `props` whose key is not in `gone`: `delete` of each of them. */
  function Without(props: Props, gone: set<string>): Props
    decreases |props|
  {
    if props == [] then []
    else (if props[0].0 in gone then [] else [props[0]]) + Without(props[1..], gone)
  }

  /** A mutable JavaScript object holding a record's values. */
  class Record {
    var props: Props

    constructor (props: Props)
      ensures this.props == props
    {
      this.props := props;
    }
  }

  /** The stateful schema builder. `types` stands for the allow-list of the
      required `../utils/types` module. */
  class Schema {
    const types: seq<string>
    var context: Value
    var attributes: Props
    var schema: Compiled

    /** `new Schema(context, attrs)`: a falsy context becomes `{}`. */
    constructor (types: seq<string>, context: Value, attrs: Props)
      ensures this.types == types
      ensures this.context == if Truthy(context) then context else Obj([])
      ensures attributes == attrs && schema == map[]
    {
      this.types := types;
      this.context := if Truthy(context) then context else Obj([]);
      this.attributes := attrs;
      this.schema := map[];
    }

    /** `initialize`: compiles every attribute in order, then adds the automatic
        attributes. A TypeError stops it with the schema as far as it got. */
    method Initialize() returns (err: Option<TypeError>)
      modifies this`schema
      ensures var (compiled, e) := CompileFrom(types, old(schema), attributes);
              err == e && schema == if e.None? then AutoAttributes(compiled, context, attributes) else compiled
    {
      var i := 0;
      while i < |attributes|
        invariant 0 <= i <= |attributes|
        invariant CompileFrom(types, schema, attributes[i..]) == CompileFrom(types, old(schema), attributes)
      {
        var (name, v) := attributes[i];
        ghost var before := schema;
        assert attributes[i..][0] == (name, v);
        assert attributes[i..][1..] == attributes[i + 1..];
        if !v.Fn? {
          schema := schema[name := Empty];
          if v.Str? {
            schema := schema[name := KeyAttribute(types, v.s)];
            assert schema == before[name := KeyAttribute(types, v.s)];
          } else {
            var r := ObjectAttribute(types, v);
            assert r == CompileEntry(types, v);
            if r.Fail? {
              return Some(r.error);
            }
            schema := schema[name := r.value];
            assert schema == before[name := r.value];
          }
        }
        i := i + 1;
      }
      AddAutoAttributes();
      err := None;
    }

    /** `addAutoAttributes`: scans the schema for a declared primary key, then
        adds `id`, `createdAt` and `updatedAt` as the context allows. */
    method AddAutoAttributes()
      modifies this`schema
      ensures schema == AutoAttributes(old(schema), context, attributes)
    {
      var defined := false;
      var unvisited := schema.Keys;
      while unvisited != {}
        invariant unvisited <= schema.Keys
        invariant defined <==> exists name :: name in schema.Keys - unvisited && schema[name].primaryKey.Some?
        decreases unvisited
      {
        var name :| name in unvisited;
        if schema[name].primaryKey.Some? {
          defined := true;
        }
        unvisited := unvisited - {name};
      }
      if !defined && Truthy(Prop(context, "autoPK")) && !Truthy(Get(attributes, "id")) {
        schema := schema["id" := AutoId];
      }
      if Truthy(Prop(context, "autoCreatedAt")) && !Truthy(Get(attributes, "createdAt")) {
        schema := schema["createdAt" := Now];
      }
      if Truthy(Prop(context, "autoUpdatedAt")) && !Truthy(Get(attributes, "updatedAt")) {
        schema := schema["updatedAt" := Now];
      }
    }

    /** `cleanValues`: deletes from `values`, in place, every key the schema
        does not define, and returns the same object. */
    method CleanValues(values: Record) returns (r: Record)
      modifies values
      ensures r == values
      ensures values.props == KeepKeys(old(values.props), schema.Keys)
    {
      var keys := values.props;
      ghost var deleted: set<string> := {};
      WithoutNothing(keys);
      var i := 0;
      while i < |keys|
        invariant 0 <= i <= |keys|
        invariant values.props == Without(keys, deleted)
        invariant forall name :: name in deleted ==> name !in schema
        invariant forall j :: 0 <= j < i ==> keys[j].0 in schema || keys[j].0 in deleted
      {
        var name := keys[i].0;
        if name !in schema {
          WithoutMore(keys, deleted, name);
          values.props := Without(values.props, {name});
          deleted := deleted + {name};
        }
        i := i + 1;
      }
      WithoutIsKeepKeys(keys, deleted, schema.Keys);
      r := values;
    }
  }

  /** Deleting no key changes nothing. */
  lemma {:induction false} WithoutNothing(props: Props)
    ensures Without(props, {}) == props
    decreases |props|
  {
    if props != [] {
      WithoutNothing(props[1..]);
      assert props == [props[0]] + props[1..];
    }
  }

  /** Deleting one more key from a record already stripped of `gone`. */
  lemma {:induction false} WithoutMore(props: Props, gone: set<string>, name: string)
    ensures Without(Without(props, gone), {name}) == Without(props, gone + {name})
    decreases |props|
  {
    if props != [] {
      WithoutMore(props[1..], gone, name);
      var head := if props[0].0 in gone then [] else [props[0]];
      var rest := Without(props[1..], gone);
      assert Without(props, gone) == head + rest;
      if head == [] {
        assert head + rest == rest;
      } else {
        assert (head + rest)[1..] == rest;
      }
    }
  }

  /** Deleting exactly the keys outside `keys` keeps exactly the keys inside. */
  lemma {:induction false} WithoutIsKeepKeys(props: Props, gone: set<string>, keys: set<string>)
    requires forall x :: x in props ==> (x.0 in gone <==> x.0 !in keys)
    ensures Without(props, gone) == KeepKeys(props, keys)
    decreases |props|
  {
    if props != [] {
      assert props[0] in props;
      assert forall x :: x in props[1..] ==> x in props;
      WithoutIsKeepKeys(props[1..], gone, keys);
      assert props == [props[0]] + props[1..];
      KeepKeysCons(props[0], props[1..], keys);
    }
  }

  // ---------------------------------------------------------------------------
  // Properties of `initialize`

  /** The compiled entries do not depend on the schema the loop starts from:
      the result is the starting schema overridden by the entries compiled
      from an empty one. */
  lemma {:induction false} CompileDecomposes(types: seq<string>, schema: Compiled, attrs: Props)
    ensures CompileFrom(types, schema, attrs).0 == schema + CompileFrom(types, map[], attrs).0
    ensures CompileFrom(types, schema, attrs).1 == CompileFrom(types, map[], attrs).1
    decreases |attrs|
  {
    if attrs == [] {
      assert schema + map[] == schema;
    } else {
      var (name, v) := attrs[0];
      if v.Fn? {
        CompileDecomposes(types, schema, attrs[1..]);
        CompileDecomposes(types, map[], attrs[1..]);
      } else if CompileEntry(types, v).Ok? {
        var a := CompileEntry(types, v).value;
        var rest := CompileFrom(types, map[], attrs[1..]).0;
        CompileDecomposes(types, schema[name := a], attrs[1..]);
        CompileDecomposes(types, map[name := a], attrs[1..]);
        assert schema[name := a] + rest == schema + (map[name := a] + rest);
      } else {
        assert schema[name := Empty] == schema + map[name := Empty];
      }
    }
  }

  /** `initialize` throws exactly when some attribute that is not a function
      fails to compile. */
  lemma {:induction false} CompileFails(types: seq<string>, schema: Compiled, attrs: Props)
    ensures CompileFrom(types, schema, attrs).1.Some? <==>
            exists i :: 0 <= i < |attrs| && !attrs[i].1.Fn? && CompileEntry(types, attrs[i].1).Fail?
    decreases |attrs|
  {
    if attrs != [] {
      var (name, v) := attrs[0];
      var next := if v.Fn? || CompileEntry(types, v).Fail? then schema else schema[name := CompileEntry(types, v).value];
      CompileFails(types, next, attrs[1..]);
      assert forall i :: 0 < i < |attrs| ==> attrs[i] == attrs[1..][i - 1];
      if exists i :: 0 <= i < |attrs| && !attrs[i].1.Fn? && CompileEntry(types, attrs[i].1).Fail? {
        var i :| 0 <= i < |attrs| && !attrs[i].1.Fn? && CompileEntry(types, attrs[i].1).Fail?;
        if i > 0 {
          assert attrs[1..][i - 1] == attrs[i];
        }
      }
    }
  }

  /** Function-valued attributes get no entry of their own; every other
      attribute gets exactly the entry its definition compiles to; names the
      attributes do not mention keep the entry they started with. */
  lemma {:induction false} CompiledEntries(types: seq<string>, schema: Compiled, attrs: Props, name: string)
    requires DistinctKeys(attrs)
    requires CompileFrom(types, schema, attrs).1 == None
    ensures var s := CompileFrom(types, schema, attrs).0;
            match Lookup(attrs, name)
            case Some(v) => if v.Fn? then Keeps(s, schema, name) else name in s && CompileEntry(types, v) == Ok(s[name])
            case None => Keeps(s, schema, name)
    decreases |attrs|
  {
    if attrs != [] {
      var x := attrs[0];
      var rest := attrs[1..];
      assert attrs == [x] + rest;
      LookupCons(x, rest, name);
      assert DistinctKeys(rest) by {
        forall i, j | 0 <= i < j < |rest| ensures rest[i].0 != rest[j].0 {
          assert rest[i] == attrs[i + 1] && rest[j] == attrs[j + 1];
        }
      }
      if x.0 == name {
        assert name !in KeysOf(rest) by {
          forall i | 0 <= i < |rest| ensures rest[i].0 != name {
            assert rest[i] == attrs[i + 1];
          }
        }
      }
      var next := if x.1.Fn? then schema else schema[x.0 := CompileEntry(types, x.1).value];
      CompiledEntries(types, next, rest, name);
    }
  }

  /** The names a successful `initialize` from `{}` defines: the attributes that
      are not functions, and at most the three automatic names. */
  lemma {:induction false} CompiledNames(types: seq<string>, context: Value, attrs: Props, name: string)
    requires DistinctKeys(attrs)
    requires CompileFrom(types, map[], attrs).1 == None
    ensures var s := AutoAttributes(CompileFrom(types, map[], attrs).0, context, attrs);
            && (name in s ==> name in AutoNames || (Lookup(attrs, name).Some? && !Lookup(attrs, name).value.Fn?))
            && (Lookup(attrs, name).Some? && !Lookup(attrs, name).value.Fn? ==> name in s)
  {
    CompiledEntries(types, map[], attrs, name);
  }

  /** The set of names whose entry has a `primaryKey` property. */
  function PrimaryKeyNames(schema: Compiled): set<string> {
    set name | name in schema && schema[name].primaryKey.Some?
  }

  /** The automatic `id` never becomes a second primary key: when it is added
      it is the only entry with `primaryKey`, and otherwise no entry gains one. */
  lemma AutoIdIsOnlyPrimaryKey(schema: Compiled, context: Value, attrs: Props)
    ensures var r := AutoAttributes(schema, context, attrs);
            && (InjectsId(schema, context, attrs) ==> PrimaryKeyNames(r) == {"id"})
            && (!InjectsId(schema, context, attrs) ==> PrimaryKeyNames(r) <= PrimaryKeyNames(schema))
  {
  }

  /** A type is one `initialize` may produce: from the allow-list, the
      fallback "string", "integer" (auto-increment) or "DATE" (timestamps). */
  predicate TypesAllowed(types: seq<string>, schema: Compiled) {
    forall name :: name in schema && schema[name].typ.Some? ==>
      schema[name].typ.value in types || schema[name].typ.value in {"string", "integer", "DATE"}
  }

  /** The attribute loop only writes allowed types. */
  lemma {:induction false} CompileTypesAllowed(types: seq<string>, schema: Compiled, attrs: Props)
    requires TypesAllowed(types, schema)
    ensures TypesAllowed(types, CompileFrom(types, schema, attrs).0)
    decreases |attrs|
  {
    if attrs != [] {
      var (name, v) := attrs[0];
      if !v.Fn? && CompileEntry(types, v).Ok? {
        var a := CompileEntry(types, v).value;
        if v.Obj? {
          ObjectAttributeTypeAllowed(types, v.props, a);
        }
        CompileTypesAllowed(types, schema[name := a], attrs[1..]);
      } else if v.Fn? {
        CompileTypesAllowed(types, schema, attrs[1..]);
      }
    }
  }

  /** Every type in a schema compiled from `{}` is allowed; a type outside the
      allow-list never survives except as "string", "integer" or "DATE". */
  lemma SchemaTypesAllowed(types: seq<string>, context: Value, attrs: Props)
    ensures var (s, e) := CompileFrom(types, map[], attrs);
            TypesAllowed(types, if e.None? then AutoAttributes(s, context, attrs) else s)
  {
    CompileTypesAllowed(types, map[], attrs);
  }

  /** Re-running the attribute loop over a schema `initialize` built puts the
      compiled entries back; the automatic `id` is then added again exactly
      when it had been added over a compiled `id` entry. */
  lemma RecompileInjectsId(c: Compiled, context: Value, attrs: Props)
    ensures var again := AutoAttributes(c, context, attrs) + c;
            InjectsId(again, context, attrs) <==> InjectsId(c, context, attrs) && "id" in c
  {
    var once := AutoAttributes(c, context, attrs);
    var again := once + c;
    if DeclaresPrimaryKey(c) {
      var name :| name in c && c[name].primaryKey.Some?;
      assert again[name] == c[name];
    } else if InjectsId(c, context, attrs) {
      if "id" !in c {
        assert again["id"] == AutoId;
      } else {
        forall name | name in again ensures again[name].primaryKey.None? {
          if name !in c {
            assert name in AutoNames;
          }
        }
      }
    }
  }

  /** Running `initialize` a second time on the schema it built changes
      nothing: the compilation is idempotent. */
  lemma InitializeIdempotent(types: seq<string>, context: Value, attrs: Props)
    requires CompileFrom(types, map[], attrs).1 == None
    ensures var once := AutoAttributes(CompileFrom(types, map[], attrs).0, context, attrs);
            && CompileFrom(types, once, attrs).1 == None
            && AutoAttributes(CompileFrom(types, once, attrs).0, context, attrs) == once
  {
    var c := CompileFrom(types, map[], attrs).0;
    var once := AutoAttributes(c, context, attrs);
    CompileDecomposes(types, once, attrs);
    var again := once + c;
    var twice := AutoAttributes(again, context, attrs);
    RecompileInjectsId(c, context, attrs);
    forall name ensures Keeps(twice, once, name) {
      if name !in AutoNames {
        assert Keeps(once, c, name);
        assert Keeps(twice, again, name);
      }
    }
    assert twice.Keys == once.Keys;
  }

  // ---------------------------------------------------------------------------
  // Properties of `cleanValues`

  /** The keys left are exactly the old keys the schema defines. */
  lemma CleanedKeys(props: Props, keys: set<string>)
    ensures KeysOf(KeepKeys(props, keys)) == KeysOf(props) * keys
  {
  }

  /** Every key that survives keeps its old value. */
  lemma {:induction false} CleanedValuesKept(props: Props, keys: set<string>, name: string)
    requires name in keys
    ensures Lookup(KeepKeys(props, keys), name) == Lookup(props, name)
    decreases |props|
  {
    if props != [] {
      var x := props[0];
      var rest := KeepKeys(props[1..], keys);
      CleanedValuesKept(props[1..], keys, name);
      assert props == [x] + props[1..];
      KeepKeysCons(x, props[1..], keys);
      LookupCons(x, props[1..], name);
      if x.0 in keys {
        LookupCons(x, rest, name);
      } else {
        assert KeepKeys(props, keys) == rest;
      }
    }
  }

  /** Cleaning twice is the same as cleaning once. */
  lemma {:induction false} CleanIdempotent(props: Props, keys: set<string>)
    ensures KeepKeys(KeepKeys(props, keys), keys) == KeepKeys(props, keys)
    decreases |props|
  {
    if props != [] {
      CleanIdempotent(props[1..], keys);
      var rest := KeepKeys(props[1..], keys);
      assert props == [props[0]] + props[1..];
      KeepKeysCons(props[0], props[1..], keys);
      if props[0].0 in keys {
        KeepKeysCons(props[0], rest, keys);
      } else {
        assert [] + rest == rest;
      }
    }
  }

  // ---------------------------------------------------------------------------
  // Scenarios

  /** With `autoPK`, `autoCreatedAt` and `autoUpdatedAt` all set and only
      `name: 'string'` declared, the three automatic attributes are added. */
  lemma AutoAttributesAdded(types: seq<string>)
    ensures var context := Obj([("autoPK", Bool(true)), ("autoCreatedAt", Bool(true)), ("autoUpdatedAt", Bool(true))]);
            var attrs := [("name", Str("string"))];
            var (c, e) := CompileFrom(types, map[], attrs);
            && e == None
            && AutoAttributes(c, context, attrs)
               == map["name" := Empty.(typ := Some("string")), "id" := AutoId, "createdAt" := Now, "updatedAt" := Now]
  {
    LowerOfLower("string");
    var context := Obj([("autoPK", Bool(true)), ("autoCreatedAt", Bool(true)), ("autoUpdatedAt", Bool(true))]);
    var attrs := [("name", Str("string"))];
    assert attrs[1..] == [];
    var c := map["name" := Empty.(typ := Some("string"))];
    assert CompileFrom(types, map[], attrs) == (c, None);
    var flags := context.props;
    assert flags[..2] == [("autoPK", Bool(true)), ("autoCreatedAt", Bool(true))];
    assert flags[..2][..1] == [("autoPK", Bool(true))];
    assert Lookup(flags[..2][..1], "autoPK") == Some(Bool(true));
    assert Lookup(flags[..2], "autoPK") == Some(Bool(true));
    assert Prop(context, "autoPK") == Bool(true);
    assert Prop(context, "autoCreatedAt") == Bool(true);
    assert Prop(context, "autoUpdatedAt") == Bool(true);
    assert Lookup(attrs, "id") == None && Lookup(attrs, "createdAt") == None && Lookup(attrs, "updatedAt") == None;
    assert !DeclaresPrimaryKey(c);
    var r := AutoAttributes(c, context, attrs);
    assert r.Keys == {"name", "id", "createdAt", "updatedAt"} by {
      forall name ensures name in r <==> name in {"name", "id", "createdAt", "updatedAt"} {
        if name !in AutoNames {
          assert Keeps(r, c, name);
        }
      }
    }
  }

  /** A `primaryKey: false` modifier still suppresses the automatic `id`. */
  lemma PrimaryKeyFalseSuppressesId(types: seq<string>)
    ensures var context := Obj([("autoPK", Bool(true))]);
            var attrs := [("name", Obj([("primaryKey", Bool(false))]))];
            var (c, e) := CompileFrom(types, map[], attrs);
            e == None && "id" !in AutoAttributes(c, context, attrs)
  {
    var attrs := [("name", Obj([("primaryKey", Bool(false))]))];
    var p := [("primaryKey", Bool(false))];
    assert p[..0] == [];
    assert FoldKeys(types, p) == Ok(Empty.(primaryKey := Some(Bool(false))));
    assert attrs[1..] == [];
    var c := CompileFrom(types, map[], attrs).0;
    assert c["name"].primaryKey.Some?;
  }

  /** An `id` attribute that is a function gets no entry, yet being truthy it
      still suppresses the automatic `id`: the schema has no `id` at all. */
  lemma FunctionIdLeavesNoId(types: seq<string>)
    ensures var context := Obj([("autoPK", Bool(true))]);
            var attrs := [("id", Fn)];
            var (c, e) := CompileFrom(types, map[], attrs);
            e == None && "id" !in AutoAttributes(c, context, attrs)
  {
  }

  /** A declared `id` whose definition is falsy (the empty string) is compiled
      and then overwritten by the automatic `id`. */
  lemma FalsyIdOverwritten(types: seq<string>)
    ensures var context := Obj([("autoPK", Bool(true))]);
            var attrs := [("id", Str(""))];
            var (c, e) := CompileFrom(types, map[], attrs);
            && e == None && "id" in c
            && AutoAttributes(c, context, attrs)["id"] == AutoId
  {
  }
}
