# bro2json serialisers, modelled in Dafny

bro2json reads a broma binding description and prints a JSON document describing
its classes. This project models the projection at its core: the functions that
turn the broma AST into matjson values. It covers the per-platform offset lookup
`n_forPlatform`, the three `setIfNotEmpty` insertion helpers, and every
`Serialize<...>::to_json` specialisation from Platform up to Root.

Layout:

- `json.dfy` (module `Json`) holds the JSON value datatype. `Obj` is an association
  list kept in insertion order, as matjson's object is. The module also holds two classes
  that stand in for `matjson::Object` and `matjson::Array`; the serialisers fill them
  in place. It also defines the key and lookup vocabulary used to state properties:
  `Keys`, `Lookup`, `DistinctKeys`, and `Build`, a run of conditional insertions
  `if (c) obj[key] = val;` with generic lemmas proved once by induction.
  `Put` models `obj[key] = val` with insert-or-overwrite semantics. A serialiser
  never assigns a key twice, so `JsonObject.Set` appends. `AppendAssigns` and
  `AssignsReplay` prove that an append and an overwriting assignment agree whenever
  the resulting keys are distinct. `ReplayDistinct` extends this to a whole object.
  `Properties.AssignmentsAgree` applies it to the output of every object serialiser,
  whose keys the `...Values`/`...Keys`/`...Distinct` lemmas prove distinct.
- `broma.dfy` (module `Broma`) holds the AST as datatypes. A `Field` is either a
  function bind or `Other`, an opaque stand-in for every other field variant.
- `platforms.dfy` holds `n_forPlatform` and the Platform and PlatformNumber serialisers.
- `filter.dfy` holds the `setIfNotEmpty` overloads, as methods that edit a
  `JsonArray`/`JsonObject` in place.
- `serialize.dfy` holds, for each entity, a function `XJson` that states the value
  the serialiser produces. It also holds a method `SerializeX` that builds that value
  the way the source does, one in-place insertion or loop step at a time, and is
  proved to return exactly `XJson(x)`.
- `properties.dfy` holds lemmas about the `XJson` functions: which keys appear, in
  which order, under which condition, and with which value. It also has the field
  filtering results, the flag rules, and a complete end-to-end document.

One might expect a member prototype with no arguments, attributes or flags to be
just `{"name":"bar"}`. The code always adds `type` and `ret` (src/main.cpp:214-215):
`setIfNotEmpty` is called with values that are never empty, a kind name and a type
object. So `Properties.EndToEnd` states the prototype as
`{"name":"bar","type":"normal","ret":{"name":"void"}}`.

## Model

| member | source | states |
|---|---|---|
| Platforms.ForPlatform | src/main.cpp:7-26 | the result is never the sentinel -1; Android and None (no slot) give absent; each slot platform gives its slot's offset, or absent when that offset is -1 |
| Platforms.PlatformJson | src/main.cpp:34-46 | every platform serialises to a non-empty string, so the Platform overload of setIfNotEmpty sets exactly the non-None platforms |
| Properties.PlatformJsonInjective | src/main.cpp:34-46 | distinct platforms get distinct codes |
| Platforms.PlatformNumberJson | src/main.cpp:94-108 | the offset record is a non-empty object exactly when some offset is not -1 |
| Platforms.SetAddress | src/main.cpp:98-100 | `get_set_n` appends the code with the resolved offset, and nothing when n_forPlatform resolves none |
| Platforms.OffsetEntries | src/main.cpp:102-106 | the five `get_set_n` steps together give one entry per slot whose offset is not -1, in the fixed order |
| Platforms.SerializePlatformNumber | src/main.cpp:94-108 | the in-place builder returns exactly the offset record |
| Properties.PlatformNumberKeys | src/main.cpp:102-106 | the keys are exactly the slot codes with an offset other than -1, in the order win, mac, android32, android64, ios |
| Properties.PlatformNumberValues | src/main.cpp:98-106 | the keys are distinct, and each code reads back its integer offset or is absent when the offset is -1 |
| Properties.PlatformNumberOnlyCodes | src/main.cpp:102-106 | no key other than the five codes ever occurs |
| Properties.PlatformNumberLookup | src/main.cpp:98-100 | under a slot platform's code the record holds exactly what n_forPlatform resolves |
| Properties.PlatformNumberEmpty | src/main.cpp:94-108 | the record is empty exactly when all five offsets are -1 |
| Properties.PlatformNumberTwoOffsets | src/main.cpp:102-106 | win = 100 and ios = 50 give exactly `{"win":100,"ios":50}`, win first |
| Filter.AppendIfNotEmpty | src/main.cpp:51-65 | the array grows by `val` exactly when `val` is a non-empty array, object or string, or `true`; numbers, null and `false` leave it unchanged |
| Filter.SetIfNotEmpty | src/main.cpp:69-82 | the object gains `key` exactly when `val` is a non-empty array, object or string; booleans, numbers and null leave it unchanged |
| Filter.SetPlatformIfNotNone | src/main.cpp:84-87 | the object gains `key` with the platform's code exactly when the platform is not None |
| Filter.SetWhen | src/main.cpp:220-227 | a guarded assignment `if (c) ret[key] = val` adds `key` exactly when `c` holds |
| Json.JsonObject.Set | src/main.cpp:72 | `obj[key] = val` on a key not yet present appends the entry |
| Json.JsonArray.PushBack | src/main.cpp:54 | `push_back` appends the value |
| Json.AppendAssigns | src/main.cpp:72 | assigning a key with overwrite semantics is an append when the resulting keys are distinct |
| Json.AssignsReplay | src/main.cpp:72 | replaying an object with distinct keys through overwriting assignments appends each entry in turn |
| Json.ReplayDistinct | src/main.cpp:72 | assigning the entries of a distinct-key object one at a time with overwriting semantics rebuilds exactly that object |
| Serialize.TypeJson | src/main.cpp:114-120 | a type serialises to a non-empty object |
| Serialize.SerializeType | src/main.cpp:114-120 | the builder returns exactly `{name}`: the boolean `struct` is passed to the object overload, which never sets booleans |
| Serialize.ArgumentJson | src/main.cpp:126-132 | an argument's object is never empty, so the argument vector's elements always carry something |
| Serialize.SerializeArgument | src/main.cpp:126-132 | an argument is `{type, name}` |
| Serialize.ArgumentsJson | src/main.cpp:137-145 | one element per argument |
| Serialize.SerializeArguments | src/main.cpp:137-145 | the loop pushes each argument's serialisation, in order |
| Serialize.AttributesJson | src/main.cpp:152-160 | the attribute object is non-empty exactly when some attribute carries something |
| Serialize.SerializeAttributes | src/main.cpp:152-160 | the builder returns exactly the attribute object |
| Properties.AttributesKeys | src/main.cpp:155-158 | keys depends, docs, links, missing in that order; depends and docs exactly when non-empty, links and missing exactly when not None |
| Properties.AttributesValues | src/main.cpp:155-158 | distinct keys; each reads back its list, text or platform code, or is absent |
| Serialize.FunctionProtoJson | src/main.cpp:166-174 | a free-function prototype is never empty |
| Serialize.SerializeFunctionProto | src/main.cpp:166-174 | the builder returns exactly the prototype object |
| Properties.FunctionProtoKeys | src/main.cpp:169-172 | arguments (when any) and attributes (when any carries something) come before the always-present name and ret |
| Properties.FunctionProtoValues | src/main.cpp:169-172 | distinct keys; arguments, attributes, name and ret (the type's name only) read back as stated |
| Serialize.FunctionJson | src/main.cpp:181-187 | a free function's object is never empty: the always-named prototype is always set |
| Serialize.SerializeFunction | src/main.cpp:181-187 | the builder returns exactly the function object |
| Properties.FunctionValues | src/main.cpp:184-185 | keys addresses (exactly when some offset is not -1) then prototype, distinct, reading back the offset record and the prototype |
| Serialize.FunctionTypeJson | src/main.cpp:193-201 | each kind serialises to a non-empty name, so `type` is always set |
| Serialize.MemberFunctionProtoJson | src/main.cpp:209-230 | a member prototype is never empty |
| Serialize.SerializeMemberFunctionProto | src/main.cpp:209-230 | the builder returns exactly the member prototype object |
| Properties.MemberFunctionProtoKeys | src/main.cpp:213-227 | keys in order: name, type, ret always; arguments, links, missing, depends under their conditions; then one key per set flag |
| Properties.MemberFunctionProtoDistinct | src/main.cpp:213-227 | no key occurs twice |
| Properties.MemberFunctionProtoValues | src/main.cpp:213-223 | name, kind (one of ctor/dtor/normal), return type, arguments and flattened attributes read back as stated |
| Properties.MemberFunctionProtoFlags | src/main.cpp:224-227 | each of callback, const, static, virtual reads back `true` exactly when the flag is set and is absent otherwise |
| Properties.MemberFunctionProtoOnlyKeys | src/main.cpp:209-230 | no other key occurs; in particular there is no docs and no nested attributes key |
| Properties.MemberFunctionProtoNeverFalse | src/main.cpp:224-227 | no key ever holds `false` |
| Properties.MemberFunctionProtoNoFlags | src/main.cpp:224-227 | with all four flags unset none of their keys is present |
| Properties.MemberFunctionProtoOneFlag | src/main.cpp:224-227 | with exactly one flag set, exactly that flag's key follows the plain keys |
| Serialize.FunctionBindFieldJson | src/main.cpp:236-243 | a function-bind field's object is never empty |
| Serialize.SerializeFunctionBindField | src/main.cpp:236-243 | the builder returns exactly the function-bind object |
| Properties.FunctionBindFieldKeys | src/main.cpp:239-241 | keys binds (exactly when some offset is not -1), prototype, type, all distinct |
| Properties.FunctionBindFieldValues | src/main.cpp:239-241 | binds reads back the offset record, prototype the member prototype, type the string "function" |
| Serialize.FieldJson | src/main.cpp:249-257 | a field's object is non-empty exactly when the field is a function bind |
| Serialize.SerializeField | src/main.cpp:249-257 | a function bind serialises as its own object, every other variant as `{}` |
| Serialize.FieldsStep | src/main.cpp:268-271 | one loop round keeps a field's object exactly when the field is a function bind |
| Serialize.FieldsJson | src/main.cpp:264-273 | one element per function-bind field |
| Serialize.SerializeFields | src/main.cpp:264-273 | the loop leaves exactly the function-bind fields' objects, in order |
| Properties.BoundFunctionsAppend | src/main.cpp:268-271 | filtering commutes with concatenation, so kept fields keep their relative order |
| Properties.BoundFunctionsMember | src/main.cpp:268-271 | a function bind is kept exactly when it occurs among the fields |
| Properties.BoundFunctionsEmpty | src/main.cpp:268-271 | something is kept exactly when some field is a function bind |
| Properties.FieldsEntries | src/main.cpp:236-273 | every element of `fields` comes from a function-bind field, carries prototype and `"type": "function"`, and has binds exactly when that field has an address |
| Properties.FieldsMixed | src/main.cpp:264-273 | one function bind and one other field, in either order, give a one-element array holding the function bind |
| Serialize.ClassJson | src/main.cpp:280-289 | a class object is never empty: it always has its name |
| Serialize.SerializeClass | src/main.cpp:280-289 | the builder returns exactly the class object |
| Properties.ClassKeys | src/main.cpp:283-287 | keys in order: name always; attributes, inherits, fields exactly when they carry something (fields: when some field is a function bind) |
| Properties.ClassDistinct | src/main.cpp:283-287 | no key occurs twice |
| Properties.ClassValues | src/main.cpp:283-287 | name, attributes, superclasses and the fields array read back as stated |
| Properties.ClassInherits | src/main.cpp:286 | `inherits` lists the superclasses in their order |
| Serialize.ClassesJson | src/main.cpp:295-304 | one element per class |
| Serialize.SerializeClasses | src/main.cpp:295-304 | the loop pushes one object per class, in order |
| Serialize.RootJson | src/main.cpp:310-321 | the document is never the empty object |
| Serialize.SerializeRoot | src/main.cpp:310-321 | the builder returns exactly `{classes}`; the free-function array it fills is dropped |
| Properties.RootValues | src/main.cpp:310-321 | the single key is classes (so the keys are distinct), one element per class in order, and the free functions do not affect the document |
| Properties.TypeArgumentDistinct | src/main.cpp:114-132 | the type and argument objects have distinct keys |
| Properties.AssignmentsAgree | src/main.cpp:72 | for every object serialiser, assigning its entries in order with matjson's overwriting `obj[key] = val` yields exactly its output, so appending loses nothing |
| Properties.BarJson | src/main.cpp:209-230 | a member prototype with no arguments, attributes or flags is name, type, ret |
| Properties.FooFieldsJson | src/main.cpp:236-273 | one field bound at win = 10 gives a one-element fields array with binds `{"win":10}` |
| Properties.EndToEnd | src/main.cpp:280-321 | the complete document for class Foo with one bound member function bar |

## Left out

- `main` (src/main.cpp:328-372) is not part of this model. It covers option parsing, file checks, printing, exceptions, the indentation clamp and `dump`. It is all I/O and text rendering.
- The broma parser is not part of this model: the AST is taken as given datatypes. So are the broma field variants other than function binds, which are folded into `Other` because the serialisers emit nothing for them.
- matjson's text rendering and its number representation are left out. Offsets (`ptrdiff_t`) are modelled as unbounded integers, with no width or floating-point conversion.
- Json.JsonObject.Set: appends rather than overwriting. The overwrite case of `obj[key] = val` never arises, because every serialiser's keys are proved distinct. `Properties.AssignmentsAgree` shows that the overwriting reading (`Json.Put`, `Json.Replay`) gives the same objects.
- `broma::Platform` is a bit-flag enumeration. A combination of flags matches no case of the Platform switch (src/main.cpp:36-45) and falls off its end, which is undefined behaviour. The model's Platform holds single tags only.
- A `broma::FunctionType` outside Ctor, Dtor and Normal would likewise fall off the end of its switch (src/main.cpp:195-200). The model's FunctionType has exactly those three kinds.
- The free-function array built in the Root serialiser is modelled as built and discarded. Nothing about its contents is stated beyond one serialisation per function.
