/** The per-entity serialisers. Each `...Json` function states the value a
    serialiser produces, in terms of the AST; each `Serialize...` method builds
    that value the way the serialiser does, one insertion at a time, and is proved
    to produce exactly it. */
module Serialize {
  import opened Json
  import opened Broma
  import opened Platforms
  import opened Filter

  // ---------------------------------------------------------------- values

  /** A `std::vector<std::string>` as matjson converts it: an array of strings. */
  function StringsJson(ss: seq<string>): (r: Json)
    ensures r.Arr? && |r.elems| == |ss|
  {
    Arr(seq(|ss|, i requires 0 <= i < |ss| => Str(ss[i])))
  }

  function TypeJson(t: Type): (r: Json)
    ensures NonEmptyContainer(r)
  {
    Obj([("name", Str(t.name))])
  }

  function ArgumentJson(a: Argument): (r: Json)
    ensures NonEmptyContainer(r)
  {
    Obj([("type", TypeJson(a.ty)), ("name", Str(a.name))])
  }

  function ArgumentsJson(args: seq<Argument>): (r: Json)
    ensures r.Arr? && |r.elems| == |args|
  {
    Arr(seq(|args|, i requires 0 <= i < |args| => ArgumentJson(args[i])))
  }

  /** True when any attribute carries something. */
  predicate HasAttributes(a: Attributes)
  {
    |a.depends| > 0 || |a.docs| > 0 || a.links != None || a.missing != None
  }

  function AttributesJson(a: Attributes): (r: Json)
    ensures r.Obj? && (NonEmptyContainer(r) <==> HasAttributes(a))
  {
    Obj(Optional(|a.depends| > 0, "depends", StringsJson(a.depends))
        + Optional(|a.docs| > 0, "docs", Str(a.docs))
        + Optional(a.links != None, "links", PlatformJson(a.links))
        + Optional(a.missing != None, "missing", PlatformJson(a.missing)))
  }

  function FunctionProtoJson(f: FunctionProto): (r: Json)
    ensures NonEmptyContainer(r)
  {
    Obj(Optional(|f.args| > 0, "arguments", ArgumentsJson(f.args))
        + Optional(HasAttributes(f.attributes), "attributes", AttributesJson(f.attributes))
        + [("name", Str(f.name))] + [("ret", TypeJson(f.ret))])
  }

  /** A free function's object is never empty: its prototype always has a name,
      so `setIfNotEmpty` always sets it. */
  function FunctionJson(fn: Function): (r: Json)
    ensures NonEmptyContainer(r)
  {
    Obj(Optional(HasAddress(fn.binds), "addresses", PlatformNumberJson(fn.binds))
        + [("prototype", FunctionProtoJson(fn.prototype))])
  }

  /** The FunctionType serialiser: a fixed, non-empty name per kind. */
  function FunctionTypeJson(k: FunctionType): (r: Json)
    ensures r.Str? && |r.s| > 0
  {
    match k
    case Ctor => Str("ctor")
    case Dtor => Str("dtor")
    case Normal => Str("normal")
  }

  function MemberFunctionProtoJson(p: MemberFunctionProto): (r: Json)
    ensures NonEmptyContainer(r)
  {
    Obj([("name", Str(p.name))] + [("type", FunctionTypeJson(p.kind))] + [("ret", TypeJson(p.ret))]
        + Optional(|p.args| > 0, "arguments", ArgumentsJson(p.args))
        + Optional(p.attributes.links != None, "links", PlatformJson(p.attributes.links))
        + Optional(p.attributes.missing != None, "missing", PlatformJson(p.attributes.missing))
        + Optional(|p.attributes.depends| > 0, "depends", StringsJson(p.attributes.depends))
        + Optional(p.isCallback, "callback", Bool(true))
        + Optional(p.isConst, "const", Bool(true))
        + Optional(p.isStatic, "static", Bool(true))
        + Optional(p.isVirtual, "virtual", Bool(true)))
  }

  function FunctionBindFieldJson(b: FunctionBindField): (r: Json)
    ensures NonEmptyContainer(r)
  {
    Obj(Optional(HasAddress(b.binds), "binds", PlatformNumberJson(b.binds))
        + [("prototype", MemberFunctionProtoJson(b.prototype))] + [("type", Str("function"))])
  }

  /** A field's object is non-empty exactly when the field is a function bind,
      which is what the field-list serialiser's emptiness test relies on. */
  function FieldJson(f: Field): (r: Json)
    ensures NonEmptyContainer(r) <==> f.FunctionBind?
  {
    match f
    case FunctionBind(b) => FunctionBindFieldJson(b)
    case Other(_) => Obj([])
  }

  /** The function-bind entries of a field list, in their original order. */
  function BoundFunctions(fs: seq<Field>): seq<FunctionBindField>
  {
    if fs == [] then []
    else
      BoundFunctions(fs[..|fs| - 1])
      + match fs[|fs| - 1]
        case FunctionBind(b) => [b]
        case Other(_) => []
  }

  function BindsJson(bs: seq<FunctionBindField>): seq<Json>
  {
    seq(|bs|, i requires 0 <= i < |bs| => FunctionBindFieldJson(bs[i]))
  }

  function FieldsJson(fs: seq<Field>): (r: Json)
    ensures r.Arr? && |r.elems| == |BoundFunctions(fs)|
  {
    Arr(BindsJson(BoundFunctions(fs)))
  }

  function ClassJson(c: Class): (r: Json)
    ensures NonEmptyContainer(r)
  {
    Obj([("name", Str(c.name))]
        + Optional(HasAttributes(c.attributes), "attributes", AttributesJson(c.attributes))
        + Optional(|c.superclasses| > 0, "inherits", StringsJson(c.superclasses))
        + Optional(|BoundFunctions(c.fields)| > 0, "fields", FieldsJson(c.fields)))
  }

  function ClassesJson(cs: seq<Class>): (r: Json)
    ensures r.Arr? && |r.elems| == |cs|
  {
    Arr(seq(|cs|, i requires 0 <= i < |cs| => ClassJson(cs[i])))
  }

  /** The Root serialiser's output: the classes only. */
  function RootJson(root: Root): (r: Json)
    ensures NonEmptyContainer(r)
  {
    Obj([("classes", ClassesJson(root.classes))])
  }

  // ------------------------------------------------------------- builders

  method SerializeType(t: Type) returns (v: Json)
    ensures v == TypeJson(t)
  {
    var ret := new JsonObject();
    ret.Set("name", Str(t.name));
    SetIfNotEmpty(ret, "struct", Bool(t.isStruct));
    v := Obj(ret.entries);
  }

  method SerializeArgument(a: Argument) returns (v: Json)
    ensures v == ArgumentJson(a)
  {
    var ret := new JsonObject();
    var ty := SerializeType(a.ty);
    ret.Set("type", ty);
    ret.Set("name", Str(a.name));
    v := Obj(ret.entries);
  }

  method SerializeArguments(args: seq<Argument>) returns (v: Json)
    ensures v == ArgumentsJson(args)
  {
    var ret := new JsonArray();
    for i := 0 to |args|
      invariant |ret.elems| == i
      invariant forall j :: 0 <= j < i ==> ret.elems[j] == ArgumentJson(args[j])
    {
      var arg := SerializeArgument(args[i]);
      ret.PushBack(arg);
    }
    v := Arr(ret.elems);
  }

  method SerializeAttributes(a: Attributes) returns (v: Json)
    ensures v == AttributesJson(a)
  {
    var ret := new JsonObject();
    SetIfNotEmpty(ret, "depends", StringsJson(a.depends));
    assert ret.entries == Optional(|a.depends| > 0, "depends", StringsJson(a.depends));
    SetIfNotEmpty(ret, "docs", Str(a.docs));
    SetPlatformIfNotNone(ret, "links", a.links);
    SetPlatformIfNotNone(ret, "missing", a.missing);
    v := Obj(ret.entries);
  }

  method SerializeFunctionProto(f: FunctionProto) returns (v: Json)
    ensures v == FunctionProtoJson(f)
  {
    var ret := new JsonObject();
    var args := SerializeArguments(f.args);
    SetIfNotEmpty(ret, "arguments", args);
    assert ret.entries == Optional(|f.args| > 0, "arguments", ArgumentsJson(f.args));
    var attributes := SerializeAttributes(f.attributes);
    SetIfNotEmpty(ret, "attributes", attributes);
    ret.Set("name", Str(f.name));
    var rt := SerializeType(f.ret);
    ret.Set("ret", rt);
    v := Obj(ret.entries);
  }

  method SerializeFunction(fn: Function) returns (v: Json)
    ensures v == FunctionJson(fn)
  {
    var ret := new JsonObject();
    var binds := SerializePlatformNumber(fn.binds);
    SetIfNotEmpty(ret, "addresses", binds);
    assert ret.entries == Optional(HasAddress(fn.binds), "addresses", PlatformNumberJson(fn.binds));
    var prototype := SerializeFunctionProto(fn.prototype);
    SetIfNotEmpty(ret, "prototype", prototype);
    v := Obj(ret.entries);
  }

  method SerializeMemberFunctionProto(p: MemberFunctionProto) returns (v: Json)
    ensures v == MemberFunctionProtoJson(p)
  {
    var ret := new JsonObject();
    ret.Set("name", Str(p.name));
    assert ret.entries == [("name", Str(p.name))];
    SetIfNotEmpty(ret, "type", FunctionTypeJson(p.kind));
    var rt := SerializeType(p.ret);
    SetIfNotEmpty(ret, "ret", rt);
    var args := SerializeArguments(p.args);
    SetIfNotEmpty(ret, "arguments", args);
    SetWhen(ret, p.attributes.links != None, "links", PlatformJson(p.attributes.links));
    SetWhen(ret, p.attributes.missing != None, "missing", PlatformJson(p.attributes.missing));
    SetWhen(ret, |p.attributes.depends| > 0, "depends", StringsJson(p.attributes.depends));
    SetWhen(ret, p.isCallback, "callback", Bool(true));
    SetWhen(ret, p.isConst, "const", Bool(true));
    SetWhen(ret, p.isStatic, "static", Bool(true));
    SetWhen(ret, p.isVirtual, "virtual", Bool(true));
    v := Obj(ret.entries);
  }

  method SerializeFunctionBindField(b: FunctionBindField) returns (v: Json)
    ensures v == FunctionBindFieldJson(b)
  {
    var ret := new JsonObject();
    var binds := SerializePlatformNumber(b.binds);
    SetIfNotEmpty(ret, "binds", binds);
    assert ret.entries == Optional(HasAddress(b.binds), "binds", PlatformNumberJson(b.binds));
    var prototype := SerializeMemberFunctionProto(b.prototype);
    ret.Set("prototype", prototype);
    ret.Set("type", Str("function"));
    v := Obj(ret.entries);
  }

  method SerializeField(f: Field) returns (v: Json)
    ensures v == FieldJson(f)
  {
    match f
    case FunctionBind(b) => v := SerializeFunctionBindField(b);
    case Other(_) => v := Obj([]);
  }

  /** One round of the field loop: the field's serialisation is kept exactly when
      the field is a function bind. */
  lemma FieldsStep(fs: seq<Field>, i: int)
    requires 0 <= i < |fs|
    ensures BindsJson(BoundFunctions(fs[..i + 1]))
            == BindsJson(BoundFunctions(fs[..i]))
               + (if NonEmptyContainer(FieldJson(fs[i])) || FieldJson(fs[i]) == Bool(true) then [FieldJson(fs[i])] else [])
  {
    assert fs[..i + 1][..i] == fs[..i];
    var before := BoundFunctions(fs[..i]);
    match fs[i]
    case FunctionBind(b) =>
      assert BoundFunctions(fs[..i + 1]) == before + [b];
      assert BindsJson(before + [b]) == BindsJson(before) + [FunctionBindFieldJson(b)];
    case Other(_) =>
      assert BoundFunctions(fs[..i + 1]) == before;
  }

  method SerializeFields(fields: seq<Field>) returns (v: Json)
    ensures v == FieldsJson(fields)
  {
    var ret := new JsonArray();
    for i := 0 to |fields|
      invariant ret.elems == BindsJson(BoundFunctions(fields[..i]))
    {
      var field := SerializeField(fields[i]);
      AppendIfNotEmpty(ret, field);
      FieldsStep(fields, i);
    }
    assert fields[..|fields|] == fields;
    v := Arr(ret.elems);
  }

  method SerializeClass(c: Class) returns (v: Json)
    ensures v == ClassJson(c)
  {
    var ret := new JsonObject();
    ret.Set("name", Str(c.name));
    assert ret.entries == [("name", Str(c.name))];
    var attributes := SerializeAttributes(c.attributes);
    SetIfNotEmpty(ret, "attributes", attributes);
    SetIfNotEmpty(ret, "inherits", StringsJson(c.superclasses));
    var fields := SerializeFields(c.fields);
    SetIfNotEmpty(ret, "fields", fields);
    v := Obj(ret.entries);
  }

  method SerializeClasses(classes: seq<Class>) returns (v: Json)
    ensures v == ClassesJson(classes)
  {
    var ret := new JsonArray();
    for i := 0 to |classes|
      invariant |ret.elems| == i
      invariant forall j :: 0 <= j < i ==> ret.elems[j] == ClassJson(classes[j])
    {
      var cl := SerializeClass(classes[i]);
      ret.PushBack(cl);
    }
    v := Arr(ret.elems);
  }

  /** The Root serialiser. The free functions are serialised into an array that
      is then dropped: the result holds the classes only. */
  method SerializeRoot(root: Root) returns (v: Json)
    ensures v == RootJson(root)
  {
    var ret := new JsonObject();
    var classes := SerializeClasses(root.classes);
    ret.Set("classes", classes);
    var freeFunctions := new JsonArray();
    for i := 0 to |root.functions|
      invariant ret.entries == [("classes", classes)]
      invariant |freeFunctions.elems| == i
    {
      var f := SerializeFunction(root.functions[i]);
      freeFunctions.PushBack(f);
    }
    v := Obj(ret.entries);
  }
}
