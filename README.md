# Waterline attribute-schema compiler, in Dafny

This project models the `Schema` object of Waterline, the data mapper under Sails
(`lib/waterline/core/schema.js`). A model's raw `attributes` map goes in; a compiled
schema comes out. The compiler does four things:

- it skips instance methods (function-valued attributes);
- it turns a bare type string into `{type}`, lower-cased and checked against the
  allow-list of known types ("string" when unknown);
- it turns an object definition into a record of the recognised modifiers `type`,
  `defaultsTo`, `primaryKey`, `autoIncrement`, `unique` and `index`;
- it injects an auto-increment `id` primary key and the `createdAt` / `updatedAt`
  timestamps as the context flags allow.

`cleanValues` then strips a record, in place, of every key the schema does not define.

Files:

- `js_values.dfy` (module `JsValues`): JavaScript values. Objects are ordered lists of
  own properties, as `Object.keys` yields them. The module also gives truthiness,
  property lookup, the order-keeping key filter `KeepKeys` and ASCII lower-casing.
- `attributes.dfy` (module `Attributes`): the compiled attribute record `Attr`, plus
  `keyAttribute` and `objectAttribute`. `objectAttribute` is a loop method, proved
  equal to a left fold (`FoldKeys`) of one switch case (`Step`) per key.
- `schema.dfy` (module `SchemaCompiler`): the `Schema` class. It has the `context`,
  `attributes` and `schema` fields and the methods `Initialize`, `AddAutoAttributes`
  and `CleanValues`. Each method is proved against a function of the old state
  (`CompileFrom`, `AutoAttributes`, `KeepKeys`). A `Record` class stands for the
  caller's values object. The lemmas state the compiler's properties.

The code behaves as follows, which may be unexpected:

- `autoIncrement` forces `type` to "integer" only when no `type` key comes after it
  (`AutoIncrementThenType`). With `type` listed after it, the declared type wins.
- Nothing limits a schema to a single primary key. The user's declarations are kept as
  written. Only the automatic `id` is guaranteed never to become a second primary key
  (`AutoIdIsOnlyPrimaryKey`).
- The automatic `id` is suppressed when `attributes.id` is truthy, not when an `id`
  attribute exists. A function-valued `id` gets no entry yet blocks injection
  (`FunctionIdLeavesNoId`). A falsy `id: ''` is compiled and then overwritten
  (`FalsyIdOverwritten`).
- Compiled types are not always lower-case members of the allow-list. The
  timestamps carry "DATE", and `autoIncrement` writes "integer" whether or not it is
  listed (`SchemaTypesAllowed`).
- The timestamps use the property `default`, while everything else uses `defaultsTo`.
- A malformed definition raises a JavaScript TypeError partway through `initialize`,
  not a dedicated validation error. The entries compiled so far stay in the schema,
  and the failing attribute's entry stays `{}`.

## Model

| member | source | states |
|---|---|---|
| `JsValues.Lower` | node_modules/sails/node_modules/waterline/lib/waterline/core/schema.js:76 | lower-casing keeps the length, maps each character to its lower-case form and leaves no upper-case letter |
| `Attributes.NormalizeType` | node_modules/sails/node_modules/waterline/lib/waterline/core/schema.js:76-79 | the normalised type is in the allow-list or is "string", is lower-case, is the lower-cased declaration when that is listed and "string" otherwise |
| `Attributes.NormalizeTypeIdempotent` | node_modules/sails/node_modules/waterline/lib/waterline/core/schema.js:106-109 | normalising a normalised type changes nothing |
| `Attributes.KeyAttribute` | node_modules/sails/node_modules/waterline/lib/waterline/core/schema.js:71-84 | a bare type string compiles to a record with only `type`, whose value is the lower-cased string when that is in the allow-list and "string" otherwise |
| `Attributes.StepEffect` | node_modules/sails/node_modules/waterline/lib/waterline/core/schema.js:100-139 | one key throws only when it is `type` with a non-string value; otherwise it sets exactly its own property (and `type` = "integer" for `autoIncrement`); an unrecognised key changes nothing |
| `Attributes.ObjectAttribute` | node_modules/sails/node_modules/waterline/lib/waterline/core/schema.js:93-143 | the key loop returns the left fold of the per-key effect over the keys in order, stops at the first TypeError, and throws on a non-object |
| `Attributes.ObjectAttributeSucceeds` | node_modules/sails/node_modules/waterline/lib/waterline/core/schema.js:103-112 | an object definition compiles without throwing exactly when every `type` value is a string |
| `Attributes.ModifiersCopiedVerbatim` | node_modules/sails/node_modules/waterline/lib/waterline/core/schema.js:114-138 | `defaultsTo`, `primaryKey`, `autoIncrement`, `unique` and `index` equal the definition's own property of that name (absent when absent); `default` is never set |
| `Attributes.TypeLastWriterWins` | node_modules/sails/node_modules/waterline/lib/waterline/core/schema.js:103-128 | the final `type` is "integer" when `autoIncrement` is the last of the two type-setting keys, the normalised declared type when `type` is, and absent when neither occurs |
| `Attributes.ObjectAttributeTypeAllowed` | node_modules/sails/node_modules/waterline/lib/waterline/core/schema.js:103-128 | an object attribute's type is in the allow-list, "string" or "integer" |
| `Attributes.UnrecognisedKeysIgnored` | node_modules/sails/node_modules/waterline/lib/waterline/core/schema.js:98-139 | removing every unrecognised key from a definition does not change what it compiles to |
| `Attributes.PhoneExample` | node_modules/sails/node_modules/waterline/lib/waterline/core/schema.js:14-25 | `{type: 'string', defaultsTo: '555-555-5555'}` compiles to exactly those two properties |
| `Attributes.AutoIncrementThenType` | node_modules/sails/node_modules/waterline/lib/waterline/core/schema.js:124-128 | `autoIncrement` before `type` leaves the declared type; after it, the type is "integer" |
| `SchemaCompiler.AutoAttributes` | node_modules/sails/node_modules/waterline/lib/waterline/core/schema.js:152-177 | `id` becomes the auto-increment primary key iff no entry has a `primaryKey` property, `autoPK` is truthy and `attributes.id` is falsy; each timestamp becomes `{type: 'DATE', default: 'NOW'}` iff its flag is truthy and the declared attribute is falsy; otherwise that entry, and every other entry, is unchanged |
| `SchemaCompiler.Schema.constructor` | node_modules/sails/node_modules/waterline/lib/waterline/core/schema.js:30-36 | the context is the given one or `{}` when falsy, the attributes are kept and the schema starts empty |
| `SchemaCompiler.Schema.Initialize` | node_modules/sails/node_modules/waterline/lib/waterline/core/schema.js:38-62 | the new schema is the attribute loop's result followed by the automatic attributes, or the partial schema and the TypeError when an attribute throws |
| `SchemaCompiler.Schema.AddAutoAttributes` | node_modules/sails/node_modules/waterline/lib/waterline/core/schema.js:152-177 | the primary-key scan and the three injections leave the schema equal to `AutoAttributes` of the old one |
| `SchemaCompiler.Schema.CleanValues` | node_modules/sails/node_modules/waterline/lib/waterline/core/schema.js:193-204 | the same object is returned, now holding exactly its old bindings whose key the schema defines, in their old order |
| `SchemaCompiler.CompileDecomposes` | node_modules/sails/node_modules/waterline/lib/waterline/core/schema.js:41-58 | the attribute loop overrides the starting schema with entries that do not depend on it, and throws independently of it |
| `SchemaCompiler.CompileFails` | node_modules/sails/node_modules/waterline/lib/waterline/core/schema.js:41-58 | `initialize` throws exactly when some attribute that is not a function fails to compile |
| `SchemaCompiler.CompiledEntries` | node_modules/sails/node_modules/waterline/lib/waterline/core/schema.js:41-58 | a function-valued or undeclared name keeps its old entry; every other attribute gets exactly the entry its definition compiles to |
| `SchemaCompiler.CompiledNames` | node_modules/sails/node_modules/waterline/lib/waterline/core/schema.js:38-62 | after `initialize` from `{}`, the schema defines every non-function attribute and nothing else but the automatic names |
| `SchemaCompiler.CompileTypesAllowed` | node_modules/sails/node_modules/waterline/lib/waterline/core/schema.js:41-58 | the attribute loop writes only allowed types: listed ones, "string", "integer" or "DATE" |
| `SchemaCompiler.SchemaTypesAllowed` | node_modules/sails/node_modules/waterline/lib/waterline/core/schema.js:38-177 | every type in a schema compiled from `{}` is in the allow-list or is "string", "integer" or "DATE" |
| `SchemaCompiler.AutoIdIsOnlyPrimaryKey` | node_modules/sails/node_modules/waterline/lib/waterline/core/schema.js:156-170 | when the automatic `id` is added it is the only entry with `primaryKey`; otherwise no entry gains one |
| `SchemaCompiler.RecompileInjectsId` | node_modules/sails/node_modules/waterline/lib/waterline/core/schema.js:156-170 | over a schema re-filled with its compiled entries, the automatic `id` is added again exactly when it had replaced a compiled `id` |
| `SchemaCompiler.InitializeIdempotent` | node_modules/sails/node_modules/waterline/lib/waterline/core/schema.js:38-62 | running `initialize` again on the schema it built succeeds and leaves it unchanged |
| `SchemaCompiler.CleanedKeys` | node_modules/sails/node_modules/waterline/lib/waterline/core/schema.js:197-201 | the keys left after cleaning are exactly the old keys that the schema defines |
| `SchemaCompiler.CleanedValuesKept` | node_modules/sails/node_modules/waterline/lib/waterline/core/schema.js:197-201 | every surviving key keeps its old value |
| `SchemaCompiler.CleanIdempotent` | node_modules/sails/node_modules/waterline/lib/waterline/core/schema.js:193-204 | cleaning twice is the same as cleaning once |
| `SchemaCompiler.AutoAttributesAdded` | node_modules/sails/node_modules/waterline/lib/waterline/core/schema.js:162-176 | with all three flags set and only `name: 'string'` declared, the schema is `name`, the automatic `id` and both timestamps |
| `SchemaCompiler.PrimaryKeyFalseSuppressesId` | node_modules/sails/node_modules/waterline/lib/waterline/core/schema.js:156-163 | `primaryKey: false` still counts as declared and no `id` is added |
| `SchemaCompiler.FunctionIdLeavesNoId` | node_modules/sails/node_modules/waterline/lib/waterline/core/schema.js:41-170 | a function-valued `id` gets no entry and still blocks the automatic `id` |
| `SchemaCompiler.FalsyIdOverwritten` | node_modules/sails/node_modules/waterline/lib/waterline/core/schema.js:163-170 | a declared `id: ''` is compiled and then replaced by the automatic `id` |

## Left out

- The contents of the allow-list `../utils/types` are not part of this model. The list is a constructor parameter, `types`.
- `String.prototype.toLowerCase` is modelled on ASCII only. Unicode case mapping is left out.
- Numbers are integers. NaN, -0 and fractions are left out; NaN would be falsy like 0.
- A function is opaque: its own properties are not modelled, so it carries no `autoPK` flag and no keys.
- Property lookup reads own properties only. Inherited properties, getters and a `__proto__` key are left out.
- A `type` value that is an object with its own `toLowerCase` method is treated like any other non-string. That is, it throws.
- `Object.keys` follows ES5, the semantics of the runtime this code targeted: it throws a TypeError on every non-object. From ES2015 on it still throws on null and undefined, but returns `[]` for numbers and booleans and the index keys for a string; those later results are not modelled.
- The order of the compiled schema's keys is left out (it is a `map`). Nothing in the compiler depends on it. `AddAutoAttributes` visits the keys in an arbitrary order, which cannot change the OR it computes.
- The `createdAt` and `updatedAt` entries share one `now` object in the source. Here they are two equal values, so their aliasing is not modelled.
- The `attrs` argument is always an object here (`Props`). A non-object `attrs` would make `Object.keys` throw in `initialize`.
- An object is a list of bindings. JavaScript never lists a key twice, and the lemmas that need this require `DistinctKeys`.
- SchemaCompiler.Schema.CleanValues: two TypeErrors the code can raise are not modelled. An attribute named `hasOwnProperty` compiles to a schema entry that shadows the method, so the `self.schema.hasOwnProperty(key)` call (schema.js:198) throws; here the record is cleaned as usual. A null or primitive `values` makes `Object.keys` (schema.js:197) throw under ES5; here `values` is always an object (`Record`).
- The lifecycle-hook pipeline, the adapter resolution and calls, the collection factory and the configuration files are not part of this model. They are asynchronous I/O and glue around the compiler.
