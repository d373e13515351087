/** What the serialisers' outputs contain: which keys, in which order, under which
    conditions, with which values. Every lemma is about the `...Json` functions,
    which the `Serialize...` builders are proved to produce.

    Each object-producing serialiser is restated as a run of conditional
    insertions (`...Slots`); the generic `Build` lemmas of module Json then give
    the distinctness of its keys and the value each key reads back. */
module Properties {
  import opened Json
  import opened Broma
  import opened Platforms
  import opened Serialize

  // -------------------------------------------------------- offset records

  function PlatformNumberSlots(n: PlatformNumber): seq<Slot>
  {
    [Slot(n.win != -1, "win", Int(n.win))] + [Slot(n.mac != -1, "mac", Int(n.mac))]
    + [Slot(n.android32 != -1, "android32", Int(n.android32))]
    + [Slot(n.android64 != -1, "android64", Int(n.android64))]
    + [Slot(n.ios != -1, "ios", Int(n.ios))]
  }

  lemma PlatformNumberBuild(n: PlatformNumber)
    ensures PlatformNumberJson(n).entries == Build(PlatformNumberSlots(n))
  {
    var s0 := Slot(n.win != -1, "win", Int(n.win));
    var s1 := Slot(n.mac != -1, "mac", Int(n.mac));
    var s2 := Slot(n.android32 != -1, "android32", Int(n.android32));
    var s3 := Slot(n.android64 != -1, "android64", Int(n.android64));
    var s4 := Slot(n.ios != -1, "ios", Int(n.ios));
    BuildOne(s0);
    BuildSnoc([s0], s1);
    BuildSnoc([s0] + [s1], s2);
    BuildSnoc([s0] + [s1] + [s2], s3);
    BuildSnoc([s0] + [s1] + [s2] + [s3], s4);
  }

  lemma PlatformNumberSlotKeys(n: PlatformNumber)
    ensures SlotKeys(PlatformNumberSlots(n)) == ["win"] + ["mac"] + ["android32"] + ["android64"] + ["ios"]
    ensures Distinct(SlotKeys(PlatformNumberSlots(n)))
  {
    var s0 := Slot(n.win != -1, "win", Int(n.win));
    var s1 := Slot(n.mac != -1, "mac", Int(n.mac));
    var s2 := Slot(n.android32 != -1, "android32", Int(n.android32));
    var s3 := Slot(n.android64 != -1, "android64", Int(n.android64));
    var s4 := Slot(n.ios != -1, "ios", Int(n.ios));
    BuildOne(s0);
    SlotKeysSnoc([s0], s1);
    SlotKeysSnoc([s0] + [s1], s2);
    SlotKeysSnoc([s0] + [s1] + [s2], s3);
    SlotKeysSnoc([s0] + [s1] + [s2] + [s3], s4);
    DistinctOne("win");
    DistinctSnoc(["win"], "mac");
    DistinctSnoc(["win"] + ["mac"], "android32");
    DistinctSnoc(["win"] + ["mac"] + ["android32"], "android64");
    DistinctSnoc(["win"] + ["mac"] + ["android32"] + ["android64"], "ios");
  }

  /** The offset record holds one key per slot whose offset is not -1, in the
      order win, mac, android32, android64, ios. */
  lemma PlatformNumberKeys(n: PlatformNumber)
    ensures Keys(PlatformNumberJson(n).entries)
            == Present(n.win != -1, "win") + Present(n.mac != -1, "mac")
               + Present(n.android32 != -1, "android32") + Present(n.android64 != -1, "android64")
               + Present(n.ios != -1, "ios")
  {
    var e1 := Optional(n.win != -1, "win", Int(n.win));
    var e2 := e1 + Optional(n.mac != -1, "mac", Int(n.mac));
    var e3 := e2 + Optional(n.android32 != -1, "android32", Int(n.android32));
    var e4 := e3 + Optional(n.android64 != -1, "android64", Int(n.android64));
    OptionalKeys(n.win != -1, "win", Int(n.win));
    KeysSnoc(e1, n.mac != -1, "mac", Int(n.mac));
    KeysSnoc(e2, n.android32 != -1, "android32", Int(n.android32));
    KeysSnoc(e3, n.android64 != -1, "android64", Int(n.android64));
    KeysSnoc(e4, n.ios != -1, "ios", Int(n.ios));
  }

  /** No key of the offset record occurs twice, and each slot's code reads back
      its offset, or nothing when the offset is the sentinel. */
  lemma PlatformNumberValues(n: PlatformNumber)
    ensures DistinctKeys(PlatformNumberJson(n).entries)
    ensures Lookup(PlatformNumberJson(n).entries, "win") == if n.win != -1 then Some(Int(n.win)) else Nothing
    ensures Lookup(PlatformNumberJson(n).entries, "mac") == if n.mac != -1 then Some(Int(n.mac)) else Nothing
    ensures Lookup(PlatformNumberJson(n).entries, "android32")
            == if n.android32 != -1 then Some(Int(n.android32)) else Nothing
    ensures Lookup(PlatformNumberJson(n).entries, "android64")
            == if n.android64 != -1 then Some(Int(n.android64)) else Nothing
    ensures Lookup(PlatformNumberJson(n).entries, "ios") == if n.ios != -1 then Some(Int(n.ios)) else Nothing
  {
    var ss := PlatformNumberSlots(n);
    PlatformNumberBuild(n);
    PlatformNumberSlotKeys(n);
    BuildDistinct(ss);
    DistinctKeysByKeys(Build(ss));
    BuildLookup(ss, 0);
    BuildLookup(ss, 1);
    BuildLookup(ss, 2);
    BuildLookup(ss, 3);
    BuildLookup(ss, 4);
  }

  /** Only the five slot codes can occur as keys. */
  lemma PlatformNumberOnlyCodes(n: PlatformNumber, k: string)
    requires k !in ["win", "mac", "android32", "android64", "ios"]
    ensures Lookup(PlatformNumberJson(n).entries, k) == Nothing
  {
    PlatformNumberBuild(n);
    PlatformNumberSlotKeys(n);
    BuildAbsent(PlatformNumberSlots(n), k);
  }

  /** Under a slot platform's own code, the offset record holds exactly what
      `n_forPlatform` resolves for that platform. */
  lemma PlatformNumberLookup(n: PlatformNumber, p: Platform)
    requires HasSlot(p)
    ensures Lookup(PlatformNumberJson(n).entries, PlatformJson(p).s)
            == match ForPlatform(n, p) case Some(offset) => Some(Int(offset)) case Nothing => Nothing
  {
    PlatformNumberValues(n);
  }

  /** The offset record is empty exactly when every offset is the sentinel. */
  lemma PlatformNumberEmpty(n: PlatformNumber)
    ensures PlatformNumberJson(n) == Obj([])
            <==> n.win == -1 && n.mac == -1 && n.android32 == -1 && n.android64 == -1 && n.ios == -1
  {
    PlatformNumberKeys(n);
  }

  /** Two offsets, win = 100 and ios = 50, give exactly those two keys, win first. */
  lemma PlatformNumberTwoOffsets()
    ensures PlatformNumberJson(PlatformNumber(100, -1, 50, -1, -1)) == Obj([("win", Int(100)), ("ios", Int(50))])
  {
  }

  /** The Platform serialiser tells every tag apart. */
  lemma PlatformJsonInjective(p: Platform, q: Platform)
    ensures PlatformJson(p) == PlatformJson(q) <==> p == q
  {
  }

  // ------------------------------------------------------------ attributes

  function AttributesSlots(a: Attributes): seq<Slot>
  {
    [Slot(|a.depends| > 0, "depends", StringsJson(a.depends))] + [Slot(|a.docs| > 0, "docs", Str(a.docs))]
    + [Slot(a.links != None, "links", PlatformJson(a.links))]
    + [Slot(a.missing != None, "missing", PlatformJson(a.missing))]
  }

  lemma AttributesBuild(a: Attributes)
    ensures AttributesJson(a).entries == Build(AttributesSlots(a))
  {
    var s0 := Slot(|a.depends| > 0, "depends", StringsJson(a.depends));
    var s1 := Slot(|a.docs| > 0, "docs", Str(a.docs));
    var s2 := Slot(a.links != None, "links", PlatformJson(a.links));
    var s3 := Slot(a.missing != None, "missing", PlatformJson(a.missing));
    BuildOne(s0);
    BuildSnoc([s0], s1);
    BuildSnoc([s0] + [s1], s2);
    BuildSnoc([s0] + [s1] + [s2], s3);
  }

  lemma AttributesSlotKeys(a: Attributes)
    ensures SlotKeys(AttributesSlots(a)) == ["depends"] + ["docs"] + ["links"] + ["missing"]
    ensures Distinct(SlotKeys(AttributesSlots(a)))
  {
    var s0 := Slot(|a.depends| > 0, "depends", StringsJson(a.depends));
    var s1 := Slot(|a.docs| > 0, "docs", Str(a.docs));
    var s2 := Slot(a.links != None, "links", PlatformJson(a.links));
    var s3 := Slot(a.missing != None, "missing", PlatformJson(a.missing));
    BuildOne(s0);
    SlotKeysSnoc([s0], s1);
    SlotKeysSnoc([s0] + [s1], s2);
    SlotKeysSnoc([s0] + [s1] + [s2], s3);
    DistinctOne("depends");
    DistinctSnoc(["depends"], "docs");
    DistinctSnoc(["depends"] + ["docs"], "links");
    DistinctSnoc(["depends"] + ["docs"] + ["links"], "missing");
  }

  /** The attribute object's keys, in order: depends, docs, links, missing, each
      present exactly when it carries something. */
  lemma AttributesKeys(a: Attributes)
    ensures Keys(AttributesJson(a).entries)
            == Present(|a.depends| > 0, "depends") + Present(|a.docs| > 0, "docs")
               + Present(a.links != None, "links") + Present(a.missing != None, "missing")
  {
    var e1 := Optional(|a.depends| > 0, "depends", StringsJson(a.depends));
    var e2 := e1 + Optional(|a.docs| > 0, "docs", Str(a.docs));
    var e3 := e2 + Optional(a.links != None, "links", PlatformJson(a.links));
    OptionalKeys(|a.depends| > 0, "depends", StringsJson(a.depends));
    KeysSnoc(e1, |a.docs| > 0, "docs", Str(a.docs));
    KeysSnoc(e2, a.links != None, "links", PlatformJson(a.links));
    KeysSnoc(e3, a.missing != None, "missing", PlatformJson(a.missing));
  }

  /** Each attribute reads back as what it holds; a platform reads back as its code
      unless it is None, and an empty list or text is absent. */
  lemma AttributesValues(a: Attributes)
    ensures DistinctKeys(AttributesJson(a).entries)
    ensures Lookup(AttributesJson(a).entries, "depends")
            == if |a.depends| > 0 then Some(StringsJson(a.depends)) else Nothing
    ensures Lookup(AttributesJson(a).entries, "docs") == if |a.docs| > 0 then Some(Str(a.docs)) else Nothing
    ensures Lookup(AttributesJson(a).entries, "links")
            == if a.links != None then Some(PlatformJson(a.links)) else Nothing
    ensures Lookup(AttributesJson(a).entries, "missing")
            == if a.missing != None then Some(PlatformJson(a.missing)) else Nothing
  {
    var ss := AttributesSlots(a);
    AttributesBuild(a);
    AttributesSlotKeys(a);
    BuildDistinct(ss);
    DistinctKeysByKeys(Build(ss));
    BuildLookup(ss, 0);
    BuildLookup(ss, 1);
    BuildLookup(ss, 2);
    BuildLookup(ss, 3);
  }

  // ------------------------------------------------------------ prototypes

  function FunctionProtoSlots(f: FunctionProto): seq<Slot>
  {
    [Slot(|f.args| > 0, "arguments", ArgumentsJson(f.args))]
    + [Slot(HasAttributes(f.attributes), "attributes", AttributesJson(f.attributes))]
    + [Slot(true, "name", Str(f.name))] + [Slot(true, "ret", TypeJson(f.ret))]
  }

  lemma FunctionProtoBuild(f: FunctionProto)
    ensures FunctionProtoJson(f).entries == Build(FunctionProtoSlots(f))
  {
    var s0 := Slot(|f.args| > 0, "arguments", ArgumentsJson(f.args));
    var s1 := Slot(HasAttributes(f.attributes), "attributes", AttributesJson(f.attributes));
    var s2 := Slot(true, "name", Str(f.name));
    var s3 := Slot(true, "ret", TypeJson(f.ret));
    BuildOne(s0);
    BuildSnoc([s0], s1);
    BuildSnoc([s0] + [s1], s2);
    BuildSnoc([s0] + [s1] + [s2], s3);
  }

  lemma FunctionProtoSlotKeys(f: FunctionProto)
    ensures SlotKeys(FunctionProtoSlots(f)) == ["arguments"] + ["attributes"] + ["name"] + ["ret"]
    ensures Distinct(SlotKeys(FunctionProtoSlots(f)))
  {
    var s0 := Slot(|f.args| > 0, "arguments", ArgumentsJson(f.args));
    var s1 := Slot(HasAttributes(f.attributes), "attributes", AttributesJson(f.attributes));
    var s2 := Slot(true, "name", Str(f.name));
    var s3 := Slot(true, "ret", TypeJson(f.ret));
    BuildOne(s0);
    SlotKeysSnoc([s0], s1);
    SlotKeysSnoc([s0] + [s1], s2);
    SlotKeysSnoc([s0] + [s1] + [s2], s3);
    DistinctOne("arguments");
    DistinctSnoc(["arguments"], "attributes");
    DistinctSnoc(["arguments"] + ["attributes"], "name");
    DistinctSnoc(["arguments"] + ["attributes"] + ["name"], "ret");
  }

  /** A free function's prototype: arguments when there are any, attributes when
      any attribute carries something, then always name and ret. */
  lemma FunctionProtoKeys(f: FunctionProto)
    ensures Keys(FunctionProtoJson(f).entries)
            == Present(|f.args| > 0, "arguments") + Present(HasAttributes(f.attributes), "attributes")
               + ["name"] + ["ret"]
  {
    var e1 := Optional(|f.args| > 0, "arguments", ArgumentsJson(f.args));
    var e2 := e1 + Optional(HasAttributes(f.attributes), "attributes", AttributesJson(f.attributes));
    var e3 := e2 + [("name", Str(f.name))];
    OptionalKeys(|f.args| > 0, "arguments", ArgumentsJson(f.args));
    KeysSnoc(e1, HasAttributes(f.attributes), "attributes", AttributesJson(f.attributes));
    KeysAppend(e2, [("name", Str(f.name))]);
    KeysAppend(e3, [("ret", TypeJson(f.ret))]);
  }

  lemma FunctionProtoValues(f: FunctionProto)
    ensures DistinctKeys(FunctionProtoJson(f).entries)
    ensures Lookup(FunctionProtoJson(f).entries, "arguments")
            == if |f.args| > 0 then Some(ArgumentsJson(f.args)) else Nothing
    ensures Lookup(FunctionProtoJson(f).entries, "attributes")
            == if HasAttributes(f.attributes) then Some(AttributesJson(f.attributes)) else Nothing
    ensures Lookup(FunctionProtoJson(f).entries, "name") == Some(Str(f.name))
    ensures Lookup(FunctionProtoJson(f).entries, "ret") == Some(Obj([("name", Str(f.ret.name))]))
  {
    var ss := FunctionProtoSlots(f);
    FunctionProtoBuild(f);
    FunctionProtoSlotKeys(f);
    BuildDistinct(ss);
    DistinctKeysByKeys(Build(ss));
    BuildLookup(ss, 0);
    BuildLookup(ss, 1);
    BuildLookup(ss, 2);
    BuildLookup(ss, 3);
  }

  /** A free function: its addresses when it has any, then always its prototype. */
  lemma FunctionValues(fn: Function)
    ensures Keys(FunctionJson(fn).entries) == Present(HasAddress(fn.binds), "addresses") + ["prototype"]
    ensures DistinctKeys(FunctionJson(fn).entries)
    ensures Lookup(FunctionJson(fn).entries, "addresses")
            == if HasAddress(fn.binds) then Some(PlatformNumberJson(fn.binds)) else Nothing
    ensures Lookup(FunctionJson(fn).entries, "prototype") == Some(FunctionProtoJson(fn.prototype))
  {
    var e1 := Optional(HasAddress(fn.binds), "addresses", PlatformNumberJson(fn.binds));
    OptionalKeys(HasAddress(fn.binds), "addresses", PlatformNumberJson(fn.binds));
    KeysAppend(e1, [("prototype", FunctionProtoJson(fn.prototype))]);
    LookupOptional(HasAddress(fn.binds), "addresses", PlatformNumberJson(fn.binds));
    LookupSnoc(e1, true, "prototype", FunctionProtoJson(fn.prototype));
  }

  // ----------------------------------------------------- member functions

  function MemberFunctionProtoSlots(p: MemberFunctionProto): seq<Slot>
  {
    [Slot(true, "name", Str(p.name))] + [Slot(true, "type", FunctionTypeJson(p.kind))]
    + [Slot(true, "ret", TypeJson(p.ret))]
    + [Slot(|p.args| > 0, "arguments", ArgumentsJson(p.args))]
    + [Slot(p.attributes.links != None, "links", PlatformJson(p.attributes.links))]
    + [Slot(p.attributes.missing != None, "missing", PlatformJson(p.attributes.missing))]
    + [Slot(|p.attributes.depends| > 0, "depends", StringsJson(p.attributes.depends))]
    + [Slot(p.isCallback, "callback", Bool(true))] + [Slot(p.isConst, "const", Bool(true))]
    + [Slot(p.isStatic, "static", Bool(true))] + [Slot(p.isVirtual, "virtual", Bool(true))]
  }

  lemma MemberFunctionProtoBuild(p: MemberFunctionProto)
    ensures MemberFunctionProtoJson(p).entries == Build(MemberFunctionProtoSlots(p))
  {
    var s0 := Slot(true, "name", Str(p.name));
    var s1 := Slot(true, "type", FunctionTypeJson(p.kind));
    var s2 := Slot(true, "ret", TypeJson(p.ret));
    var s3 := Slot(|p.args| > 0, "arguments", ArgumentsJson(p.args));
    var s4 := Slot(p.attributes.links != None, "links", PlatformJson(p.attributes.links));
    var s5 := Slot(p.attributes.missing != None, "missing", PlatformJson(p.attributes.missing));
    var s6 := Slot(|p.attributes.depends| > 0, "depends", StringsJson(p.attributes.depends));
    var s7 := Slot(p.isCallback, "callback", Bool(true));
    var s8 := Slot(p.isConst, "const", Bool(true));
    var s9 := Slot(p.isStatic, "static", Bool(true));
    var s10 := Slot(p.isVirtual, "virtual", Bool(true));
    BuildOne(s0);
    BuildSnoc([s0], s1);
    BuildSnoc([s0] + [s1], s2);
    BuildSnoc([s0] + [s1] + [s2], s3);
    BuildSnoc([s0] + [s1] + [s2] + [s3], s4);
    BuildSnoc([s0] + [s1] + [s2] + [s3] + [s4], s5);
    BuildSnoc([s0] + [s1] + [s2] + [s3] + [s4] + [s5], s6);
    BuildSnoc([s0] + [s1] + [s2] + [s3] + [s4] + [s5] + [s6], s7);
    BuildSnoc([s0] + [s1] + [s2] + [s3] + [s4] + [s5] + [s6] + [s7], s8);
    BuildSnoc([s0] + [s1] + [s2] + [s3] + [s4] + [s5] + [s6] + [s7] + [s8], s9);
    BuildSnoc([s0] + [s1] + [s2] + [s3] + [s4] + [s5] + [s6] + [s7] + [s8] + [s9], s10);
  }

  lemma MemberFunctionProtoSlotKeys(p: MemberFunctionProto)
    ensures SlotKeys(MemberFunctionProtoSlots(p))
            == ["name"] + ["type"] + ["ret"] + ["arguments"] + ["links"] + ["missing"] + ["depends"]
               + ["callback"] + ["const"] + ["static"] + ["virtual"]
  {
    var s0 := Slot(true, "name", Str(p.name));
    var s1 := Slot(true, "type", FunctionTypeJson(p.kind));
    var s2 := Slot(true, "ret", TypeJson(p.ret));
    var s3 := Slot(|p.args| > 0, "arguments", ArgumentsJson(p.args));
    var s4 := Slot(p.attributes.links != None, "links", PlatformJson(p.attributes.links));
    var s5 := Slot(p.attributes.missing != None, "missing", PlatformJson(p.attributes.missing));
    var s6 := Slot(|p.attributes.depends| > 0, "depends", StringsJson(p.attributes.depends));
    var s7 := Slot(p.isCallback, "callback", Bool(true));
    var s8 := Slot(p.isConst, "const", Bool(true));
    var s9 := Slot(p.isStatic, "static", Bool(true));
    var s10 := Slot(p.isVirtual, "virtual", Bool(true));
    BuildOne(s0);
    SlotKeysSnoc([s0], s1);
    SlotKeysSnoc([s0] + [s1], s2);
    SlotKeysSnoc([s0] + [s1] + [s2], s3);
    SlotKeysSnoc([s0] + [s1] + [s2] + [s3], s4);
    SlotKeysSnoc([s0] + [s1] + [s2] + [s3] + [s4], s5);
    SlotKeysSnoc([s0] + [s1] + [s2] + [s3] + [s4] + [s5], s6);
    SlotKeysSnoc([s0] + [s1] + [s2] + [s3] + [s4] + [s5] + [s6], s7);
    SlotKeysSnoc([s0] + [s1] + [s2] + [s3] + [s4] + [s5] + [s6] + [s7], s8);
    SlotKeysSnoc([s0] + [s1] + [s2] + [s3] + [s4] + [s5] + [s6] + [s7] + [s8], s9);
    SlotKeysSnoc([s0] + [s1] + [s2] + [s3] + [s4] + [s5] + [s6] + [s7] + [s8] + [s9], s10);
  }

  /** The member-function keys are pairwise distinct. */
  lemma MemberFunctionProtoKeysDistinct()
    ensures Distinct(["name"] + ["type"] + ["ret"] + ["arguments"] + ["links"] + ["missing"] + ["depends"]
                     + ["callback"] + ["const"] + ["static"] + ["virtual"])
  {
    DistinctOne("name");
    DistinctSnoc(["name"], "type");
    DistinctSnoc(["name"] + ["type"], "ret");
    DistinctSnoc(["name"] + ["type"] + ["ret"], "arguments");
    DistinctSnoc(["name"] + ["type"] + ["ret"] + ["arguments"], "links");
    DistinctSnoc(["name"] + ["type"] + ["ret"] + ["arguments"] + ["links"], "missing");
    DistinctSnoc(["name"] + ["type"] + ["ret"] + ["arguments"] + ["links"] + ["missing"], "depends");
    DistinctSnoc(["name"] + ["type"] + ["ret"] + ["arguments"] + ["links"] + ["missing"] + ["depends"],
                 "callback");
    DistinctSnoc(["name"] + ["type"] + ["ret"] + ["arguments"] + ["links"] + ["missing"] + ["depends"]
                 + ["callback"], "const");
    DistinctSnoc(["name"] + ["type"] + ["ret"] + ["arguments"] + ["links"] + ["missing"] + ["depends"]
                 + ["callback"] + ["const"], "static");
    DistinctSnoc(["name"] + ["type"] + ["ret"] + ["arguments"] + ["links"] + ["missing"] + ["depends"]
                 + ["callback"] + ["const"] + ["static"], "virtual");
  }

  lemma MemberFunctionProtoKept(p: MemberFunctionProto)
    ensures KeptKeys(MemberFunctionProtoSlots(p))
            == Present(true, "name") + Present(true, "type") + Present(true, "ret")
               + Present(|p.args| > 0, "arguments")
               + Present(p.attributes.links != None, "links") + Present(p.attributes.missing != None, "missing")
               + Present(|p.attributes.depends| > 0, "depends")
               + Present(p.isCallback, "callback") + Present(p.isConst, "const")
               + Present(p.isStatic, "static") + Present(p.isVirtual, "virtual")
  {
    var s0 := Slot(true, "name", Str(p.name));
    var s1 := Slot(true, "type", FunctionTypeJson(p.kind));
    var s2 := Slot(true, "ret", TypeJson(p.ret));
    var s3 := Slot(|p.args| > 0, "arguments", ArgumentsJson(p.args));
    var s4 := Slot(p.attributes.links != None, "links", PlatformJson(p.attributes.links));
    var s5 := Slot(p.attributes.missing != None, "missing", PlatformJson(p.attributes.missing));
    var s6 := Slot(|p.attributes.depends| > 0, "depends", StringsJson(p.attributes.depends));
    var s7 := Slot(p.isCallback, "callback", Bool(true));
    var s8 := Slot(p.isConst, "const", Bool(true));
    var s9 := Slot(p.isStatic, "static", Bool(true));
    var s10 := Slot(p.isVirtual, "virtual", Bool(true));
    BuildOne(s0);
    KeptKeysSnoc([s0], s1);
    KeptKeysSnoc([s0] + [s1], s2);
    KeptKeysSnoc([s0] + [s1] + [s2], s3);
    KeptKeysSnoc([s0] + [s1] + [s2] + [s3], s4);
    KeptKeysSnoc([s0] + [s1] + [s2] + [s3] + [s4], s5);
    KeptKeysSnoc([s0] + [s1] + [s2] + [s3] + [s4] + [s5], s6);
    KeptKeysSnoc([s0] + [s1] + [s2] + [s3] + [s4] + [s5] + [s6], s7);
    KeptKeysSnoc([s0] + [s1] + [s2] + [s3] + [s4] + [s5] + [s6] + [s7], s8);
    KeptKeysSnoc([s0] + [s1] + [s2] + [s3] + [s4] + [s5] + [s6] + [s7] + [s8], s9);
    KeptKeysSnoc([s0] + [s1] + [s2] + [s3] + [s4] + [s5] + [s6] + [s7] + [s8] + [s9], s10);
  }

  /** The keys of a member function before its flags, in order: always name, type and
      ret; then arguments when there are any; links and missing unless None; depends
      when non-empty. */
  function MemberFunctionProtoPlainKeys(p: MemberFunctionProto): seq<string>
  {
    ["name"] + ["type"] + ["ret"] + Present(|p.args| > 0, "arguments")
    + Present(p.attributes.links != None, "links") + Present(p.attributes.missing != None, "missing")
    + Present(|p.attributes.depends| > 0, "depends")
  }

  /** A member function's keys, in order: the plain keys, then one key per flag
      that is set. */
  lemma MemberFunctionProtoKeys(p: MemberFunctionProto)
    ensures Keys(MemberFunctionProtoJson(p).entries)
            == MemberFunctionProtoPlainKeys(p)
               + Present(p.isCallback, "callback") + Present(p.isConst, "const")
               + Present(p.isStatic, "static") + Present(p.isVirtual, "virtual")
  {
    MemberFunctionProtoBuild(p);
    BuildKeys(MemberFunctionProtoSlots(p));
    MemberFunctionProtoKept(p);
    assert Present(true, "name") == ["name"] && Present(true, "type") == ["type"] && Present(true, "ret") == ["ret"];
  }

  /** No key of a member function occurs twice. */
  lemma MemberFunctionProtoDistinct(p: MemberFunctionProto)
    ensures DistinctKeys(MemberFunctionProtoJson(p).entries)
  {
    var ss := MemberFunctionProtoSlots(p);
    MemberFunctionProtoBuild(p);
    MemberFunctionProtoSlotKeys(p);
    MemberFunctionProtoKeysDistinct();
    BuildDistinct(ss);
    DistinctKeysByKeys(Build(ss));
  }

  /** The keys every member function has read back its name, its kind and its
      return type (the type's name only); the arguments read back when there are
      any, and the flattened attributes when they carry something. */
  lemma MemberFunctionProtoValues(p: MemberFunctionProto)
    ensures Lookup(MemberFunctionProtoJson(p).entries, "name") == Some(Str(p.name))
    ensures Lookup(MemberFunctionProtoJson(p).entries, "type") == Some(FunctionTypeJson(p.kind))
    ensures Lookup(MemberFunctionProtoJson(p).entries, "ret") == Some(Obj([("name", Str(p.ret.name))]))
    ensures Lookup(MemberFunctionProtoJson(p).entries, "arguments")
            == if |p.args| > 0 then Some(ArgumentsJson(p.args)) else Nothing
    ensures Lookup(MemberFunctionProtoJson(p).entries, "links")
            == if p.attributes.links != None then Some(PlatformJson(p.attributes.links)) else Nothing
    ensures Lookup(MemberFunctionProtoJson(p).entries, "missing")
            == if p.attributes.missing != None then Some(PlatformJson(p.attributes.missing)) else Nothing
    ensures Lookup(MemberFunctionProtoJson(p).entries, "depends")
            == if |p.attributes.depends| > 0 then Some(StringsJson(p.attributes.depends)) else Nothing
  {
    var ss := MemberFunctionProtoSlots(p);
    MemberFunctionProtoBuild(p);
    MemberFunctionProtoSlotKeys(p);
    MemberFunctionProtoKeysDistinct();
    BuildLookup(ss, 0);
    BuildLookup(ss, 1);
    BuildLookup(ss, 2);
    BuildLookup(ss, 3);
    BuildLookup(ss, 4);
    BuildLookup(ss, 5);
    BuildLookup(ss, 6);
  }

  /** Each flag's key reads back `true` when the flag is set and is absent when it
      is not. */
  lemma MemberFunctionProtoFlags(p: MemberFunctionProto)
    ensures Lookup(MemberFunctionProtoJson(p).entries, "callback") == if p.isCallback then Some(Bool(true)) else Nothing
    ensures Lookup(MemberFunctionProtoJson(p).entries, "const") == if p.isConst then Some(Bool(true)) else Nothing
    ensures Lookup(MemberFunctionProtoJson(p).entries, "static") == if p.isStatic then Some(Bool(true)) else Nothing
    ensures Lookup(MemberFunctionProtoJson(p).entries, "virtual") == if p.isVirtual then Some(Bool(true)) else Nothing
  {
    var ss := MemberFunctionProtoSlots(p);
    MemberFunctionProtoBuild(p);
    MemberFunctionProtoSlotKeys(p);
    MemberFunctionProtoKeysDistinct();
    BuildLookup(ss, 7);
    BuildLookup(ss, 8);
    BuildLookup(ss, 9);
    BuildLookup(ss, 10);
  }

  /** Member functions omit docs, and their attributes are flattened: there is no
      key other than the eleven above. */
  lemma MemberFunctionProtoOnlyKeys(p: MemberFunctionProto, k: string)
    requires k !in ["name", "type", "ret", "arguments", "links", "missing", "depends",
                    "callback", "const", "static", "virtual"]
    ensures Lookup(MemberFunctionProtoJson(p).entries, k) == Nothing
  {
    MemberFunctionProtoBuild(p);
    MemberFunctionProtoSlotKeys(p);
    BuildAbsent(MemberFunctionProtoSlots(p), k);
  }

  /** No key of a member function ever holds `false`: an unset flag leaves its key out. */
  lemma MemberFunctionProtoNeverFalse(p: MemberFunctionProto, k: string)
    ensures Lookup(MemberFunctionProtoJson(p).entries, k) != Some(Bool(false))
  {
    MemberFunctionProtoBuild(p);
    BuildNever(MemberFunctionProtoSlots(p), Bool(false), k);
  }

  /** With every flag unset, none of the four flag keys is present. */
  lemma MemberFunctionProtoNoFlags(p: MemberFunctionProto)
    requires !p.isCallback && !p.isConst && !p.isStatic && !p.isVirtual
    ensures !HasKey(MemberFunctionProtoJson(p).entries, "callback")
    ensures !HasKey(MemberFunctionProtoJson(p).entries, "const")
    ensures !HasKey(MemberFunctionProtoJson(p).entries, "static")
    ensures !HasKey(MemberFunctionProtoJson(p).entries, "virtual")
  {
    MemberFunctionProtoFlags(p);
    LookupAbsent(MemberFunctionProtoJson(p).entries, "callback");
    LookupAbsent(MemberFunctionProtoJson(p).entries, "const");
    LookupAbsent(MemberFunctionProtoJson(p).entries, "static");
    LookupAbsent(MemberFunctionProtoJson(p).entries, "virtual");
  }

  /** How many of the four flags are set. */
  function FlagCount(p: MemberFunctionProto): nat
  {
    (if p.isCallback then 1 else 0) + (if p.isConst then 1 else 0)
    + (if p.isStatic then 1 else 0) + (if p.isVirtual then 1 else 0)
  }

  /** With no flag set the keys are the plain keys; with exactly one flag set,
      exactly that flag's key follows them. */
  lemma MemberFunctionProtoOneFlag(p: MemberFunctionProto)
    requires FlagCount(p) <= 1
    ensures FlagCount(p) == 0 ==> Keys(MemberFunctionProtoJson(p).entries) == MemberFunctionProtoPlainKeys(p)
    ensures p.isCallback ==> Keys(MemberFunctionProtoJson(p).entries) == MemberFunctionProtoPlainKeys(p) + ["callback"]
    ensures p.isConst ==> Keys(MemberFunctionProtoJson(p).entries) == MemberFunctionProtoPlainKeys(p) + ["const"]
    ensures p.isStatic ==> Keys(MemberFunctionProtoJson(p).entries) == MemberFunctionProtoPlainKeys(p) + ["static"]
    ensures p.isVirtual ==> Keys(MemberFunctionProtoJson(p).entries) == MemberFunctionProtoPlainKeys(p) + ["virtual"]
  {
    var pre := MemberFunctionProtoPlainKeys(p);
    var none: seq<string> := [];
    MemberFunctionProtoKeys(p);
    if p.isCallback {
      assert pre + ["callback"] + none + none + none == pre + ["callback"];
    } else if p.isConst {
      assert pre + none + ["const"] + none + none == pre + ["const"];
    } else if p.isStatic {
      assert pre + none + none + ["static"] + none == pre + ["static"];
    } else if p.isVirtual {
      assert pre + none + none + none + ["virtual"] == pre + ["virtual"];
    } else {
      assert pre + none + none + none + none == pre;
    }
  }

  // --------------------------------------------------- function-bind fields

  function FunctionBindFieldSlots(b: FunctionBindField): seq<Slot>
  {
    [Slot(HasAddress(b.binds), "binds", PlatformNumberJson(b.binds))]
    + [Slot(true, "prototype", MemberFunctionProtoJson(b.prototype))] + [Slot(true, "type", Str("function"))]
  }

  lemma FunctionBindFieldBuild(b: FunctionBindField)
    ensures FunctionBindFieldJson(b).entries == Build(FunctionBindFieldSlots(b))
    ensures SlotKeys(FunctionBindFieldSlots(b)) == ["binds"] + ["prototype"] + ["type"]
    ensures Distinct(SlotKeys(FunctionBindFieldSlots(b)))
  {
    var s0 := Slot(HasAddress(b.binds), "binds", PlatformNumberJson(b.binds));
    var s1 := Slot(true, "prototype", MemberFunctionProtoJson(b.prototype));
    var s2 := Slot(true, "type", Str("function"));
    BuildOne(s0);
    BuildSnoc([s0], s1);
    BuildSnoc([s0] + [s1], s2);
    SlotKeysSnoc([s0], s1);
    SlotKeysSnoc([s0] + [s1], s2);
    DistinctOne("binds");
    DistinctSnoc(["binds"], "prototype");
    DistinctSnoc(["binds"] + ["prototype"], "type");
  }

  /** A function-bind field's keys: binds when it has any address, then always
      prototype and type; none occurs twice. */
  lemma FunctionBindFieldKeys(b: FunctionBindField)
    ensures Keys(FunctionBindFieldJson(b).entries) == Present(HasAddress(b.binds), "binds") + ["prototype"] + ["type"]
    ensures DistinctKeys(FunctionBindFieldJson(b).entries)
  {
    var e1 := Optional(HasAddress(b.binds), "binds", PlatformNumberJson(b.binds));
    var e2 := e1 + [("prototype", MemberFunctionProtoJson(b.prototype))];
    OptionalKeys(HasAddress(b.binds), "binds", PlatformNumberJson(b.binds));
    KeysAppend(e1, [("prototype", MemberFunctionProtoJson(b.prototype))]);
    KeysAppend(e2, [("type", Str("function"))]);
    FunctionBindFieldBuild(b);
    BuildDistinct(FunctionBindFieldSlots(b));
    DistinctKeysByKeys(Build(FunctionBindFieldSlots(b)));
  }

  /** A function-bind field reads back its offset record when it has an address,
      its prototype, and the tag `"type": "function"`. */
  lemma FunctionBindFieldValues(b: FunctionBindField)
    ensures Lookup(FunctionBindFieldJson(b).entries, "binds")
            == if HasAddress(b.binds) then Some(PlatformNumberJson(b.binds)) else Nothing
    ensures Lookup(FunctionBindFieldJson(b).entries, "prototype") == Some(MemberFunctionProtoJson(b.prototype))
    ensures Lookup(FunctionBindFieldJson(b).entries, "type") == Some(Str("function"))
  {
    var ss := FunctionBindFieldSlots(b);
    FunctionBindFieldBuild(b);
    BuildLookup(ss, 0);
    BuildLookup(ss, 1);
    BuildLookup(ss, 2);
  }

  // ---------------------------------------------------------------- fields

  /** Keeping the function binds commutes with concatenating field lists: the
      kept entries keep their relative order. */
  lemma {:induction false} BoundFunctionsAppend(a: seq<Field>, b: seq<Field>)
    ensures BoundFunctions(a + b) == BoundFunctions(a) + BoundFunctions(b)
  {
    if b == [] {
      assert a + b == a;
    } else {
      var init := b[..|b| - 1];
      assert (a + b)[..|a + b| - 1] == a + init && (a + b)[|a + b| - 1] == b[|b| - 1];
      BoundFunctionsAppend(a, init);
    }
  }

  /** A function-bind field is kept exactly when it occurs in the field list. */
  lemma {:induction false} BoundFunctionsMember(fs: seq<Field>, b: FunctionBindField)
    ensures b in BoundFunctions(fs) <==> FunctionBind(b) in fs
  {
    if fs != [] {
      var init := fs[..|fs| - 1];
      assert fs == init + [fs[|fs| - 1]];
      BoundFunctionsMember(init, b);
    }
  }

  /** True when some field is a function bind. */
  predicate HasFunctionBind(fs: seq<Field>)
  {
    exists i :: 0 <= i < |fs| && fs[i].FunctionBind?
  }

  /** Some entry is kept exactly when some field is a function bind. */
  lemma {:induction false} BoundFunctionsEmpty(fs: seq<Field>)
    ensures |BoundFunctions(fs)| > 0 <==> HasFunctionBind(fs)
  {
    if fs != [] {
      var init := fs[..|fs| - 1];
      BoundFunctionsEmpty(init);
      assert forall i :: 0 <= i < |init| ==> init[i] == fs[i];
    }
  }

  /** Every entry of a class's `fields` array is a function-bind field's object:
      it carries the prototype and the tag `"type": "function"`, and its addresses
      exactly when it has any. */
  lemma FieldsEntries(fs: seq<Field>, i: int)
    requires 0 <= i < |FieldsJson(fs).elems|
    ensures var b := BoundFunctions(fs)[i];
            FunctionBind(b) in fs
            && FieldsJson(fs).elems[i] == FunctionBindFieldJson(b)
            && Lookup(FieldsJson(fs).elems[i].entries, "type") == Some(Str("function"))
            && Lookup(FieldsJson(fs).elems[i].entries, "prototype") == Some(MemberFunctionProtoJson(b.prototype))
            && (HasKey(FieldsJson(fs).elems[i].entries, "binds") <==> HasAddress(b.binds))
  {
    var b := BoundFunctions(fs)[i];
    BoundFunctionsMember(fs, b);
    FunctionBindFieldValues(b);
    LookupAbsent(FunctionBindFieldJson(b).entries, "binds");
  }

  /** A mixed field list, one function bind and one other field in either order,
      keeps only the function bind. */
  lemma FieldsMixed(b: FunctionBindField, x: string)
    ensures FieldsJson([FunctionBind(b), Other(x)]) == Arr([FunctionBindFieldJson(b)])
    ensures FieldsJson([Other(x), FunctionBind(b)]) == Arr([FunctionBindFieldJson(b)])
  {
    assert [FunctionBind(b), Other(x)][..1] == [FunctionBind(b)];
    assert [FunctionBind(b)][..0] == [];
    assert [Other(x), FunctionBind(b)][..1] == [Other(x)];
    assert [Other(x)][..0] == [];
    assert BoundFunctions([FunctionBind(b)]) == [] + [b] == [b];
    assert BoundFunctions([Other(x)]) == [] + [] == [];
    assert BoundFunctions([FunctionBind(b), Other(x)]) == [b] + [] == [b];
    assert BoundFunctions([Other(x), FunctionBind(b)]) == [] + [b] == [b];
    assert BindsJson([b]) == [FunctionBindFieldJson(b)];
  }

  // --------------------------------------------------------------- classes

  function ClassSlots(c: Class): seq<Slot>
  {
    [Slot(true, "name", Str(c.name))]
    + [Slot(HasAttributes(c.attributes), "attributes", AttributesJson(c.attributes))]
    + [Slot(|c.superclasses| > 0, "inherits", StringsJson(c.superclasses))]
    + [Slot(|BoundFunctions(c.fields)| > 0, "fields", FieldsJson(c.fields))]
  }

  lemma ClassBuild(c: Class)
    ensures ClassJson(c).entries == Build(ClassSlots(c))
  {
    var s0 := Slot(true, "name", Str(c.name));
    var s1 := Slot(HasAttributes(c.attributes), "attributes", AttributesJson(c.attributes));
    var s2 := Slot(|c.superclasses| > 0, "inherits", StringsJson(c.superclasses));
    var s3 := Slot(|BoundFunctions(c.fields)| > 0, "fields", FieldsJson(c.fields));
    BuildOne(s0);
    BuildSnoc([s0], s1);
    BuildSnoc([s0] + [s1], s2);
    BuildSnoc([s0] + [s1] + [s2], s3);
  }

  lemma ClassSlotKeys(c: Class)
    ensures SlotKeys(ClassSlots(c)) == ["name"] + ["attributes"] + ["inherits"] + ["fields"]
    ensures Distinct(SlotKeys(ClassSlots(c)))
  {
    var s0 := Slot(true, "name", Str(c.name));
    var s1 := Slot(HasAttributes(c.attributes), "attributes", AttributesJson(c.attributes));
    var s2 := Slot(|c.superclasses| > 0, "inherits", StringsJson(c.superclasses));
    var s3 := Slot(|BoundFunctions(c.fields)| > 0, "fields", FieldsJson(c.fields));
    BuildOne(s0);
    SlotKeysSnoc([s0], s1);
    SlotKeysSnoc([s0] + [s1], s2);
    SlotKeysSnoc([s0] + [s1] + [s2], s3);
    DistinctOne("name");
    DistinctSnoc(["name"], "attributes");
    DistinctSnoc(["name"] + ["attributes"], "inherits");
    DistinctSnoc(["name"] + ["attributes"] + ["inherits"], "fields");
  }

  /** A class's keys, in order: always name; attributes when any attribute
      carries something; inherits when it has superclasses; fields when it has a
      function-bind field. */
  lemma ClassKeys(c: Class)
    ensures Keys(ClassJson(c).entries)
            == ["name"] + Present(HasAttributes(c.attributes), "attributes")
               + Present(|c.superclasses| > 0, "inherits") + Present(HasFunctionBind(c.fields), "fields")
  {
    var e1 := [("name", Str(c.name))];
    var e2 := e1 + Optional(HasAttributes(c.attributes), "attributes", AttributesJson(c.attributes));
    var e3 := e2 + Optional(|c.superclasses| > 0, "inherits", StringsJson(c.superclasses));
    KeysSnoc(e1, HasAttributes(c.attributes), "attributes", AttributesJson(c.attributes));
    KeysSnoc(e2, |c.superclasses| > 0, "inherits", StringsJson(c.superclasses));
    KeysSnoc(e3, |BoundFunctions(c.fields)| > 0, "fields", FieldsJson(c.fields));
    BoundFunctionsEmpty(c.fields);
  }

  /** No key of a class occurs twice. */
  lemma ClassDistinct(c: Class)
    ensures DistinctKeys(ClassJson(c).entries)
  {
    ClassBuild(c);
    ClassSlotKeys(c);
    BuildDistinct(ClassSlots(c));
    DistinctKeysByKeys(Build(ClassSlots(c)));
  }

  /** A class reads back its name, its attributes object, its superclasses in
      their order, and the array of its function-bind fields, each present under
      the condition `ClassKeys` states. */
  lemma ClassValues(c: Class)
    ensures Lookup(ClassJson(c).entries, "name") == Some(Str(c.name))
    ensures Lookup(ClassJson(c).entries, "attributes")
            == if HasAttributes(c.attributes) then Some(AttributesJson(c.attributes)) else Nothing
    ensures Lookup(ClassJson(c).entries, "inherits")
            == if |c.superclasses| > 0 then Some(StringsJson(c.superclasses)) else Nothing
    ensures Lookup(ClassJson(c).entries, "fields")
            == if |BoundFunctions(c.fields)| > 0 then Some(FieldsJson(c.fields)) else Nothing
  {
    var ss := ClassSlots(c);
    ClassBuild(c);
    ClassSlotKeys(c);
    BuildLookup(ss, 0);
    BuildLookup(ss, 1);
    BuildLookup(ss, 2);
    BuildLookup(ss, 3);
  }

  /** The `inherits` array lists the superclasses in their order. */
  lemma ClassInherits(c: Class, i: int)
    requires 0 <= i < |c.superclasses|
    ensures Lookup(ClassJson(c).entries, "inherits") == Some(StringsJson(c.superclasses))
    ensures StringsJson(c.superclasses).elems[i] == Str(c.superclasses[i])
  {
    ClassValues(c);
  }

  // ------------------------------------------------------------------ root

  /** The document holds the single key `classes`, one element per class in
      order; the free functions never appear, whatever they are. */
  lemma RootValues(r: Root, functions: seq<Function>)
    ensures Keys(RootJson(r).entries) == ["classes"]
    ensures Lookup(RootJson(r).entries, "classes") == Some(ClassesJson(r.classes))
    ensures |ClassesJson(r.classes).elems| == |r.classes|
    ensures forall i :: 0 <= i < |r.classes| ==> ClassesJson(r.classes).elems[i] == ClassJson(r.classes[i])
    ensures RootJson(r) == RootJson(Root(r.classes, functions))
    ensures DistinctKeys(RootJson(r).entries)
  {
  }

  // ------------------------------------------------- assignment semantics

  /** The type and argument objects have distinct keys. */
  lemma TypeArgumentDistinct(t: Type, a: Argument)
    ensures DistinctKeys(TypeJson(t).entries)
    ensures DistinctKeys(ArgumentJson(a).entries)
  {
  }

  /** Every object serialiser's output is exactly what matjson's overwriting
      `obj[key] = val` leaves when its entries are assigned in order, so the
      appending `JsonObject.Set` the builders use loses nothing. */
  lemma AssignmentsAgree(n: PlatformNumber, t: Type, a: Argument, at: Attributes, f: FunctionProto,
                         fn: Function, p: MemberFunctionProto, b: FunctionBindField, c: Class, r: Root)
    ensures Replay(PlatformNumberJson(n).entries) == PlatformNumberJson(n).entries
    ensures Replay(TypeJson(t).entries) == TypeJson(t).entries
    ensures Replay(ArgumentJson(a).entries) == ArgumentJson(a).entries
    ensures Replay(AttributesJson(at).entries) == AttributesJson(at).entries
    ensures Replay(FunctionProtoJson(f).entries) == FunctionProtoJson(f).entries
    ensures Replay(FunctionJson(fn).entries) == FunctionJson(fn).entries
    ensures Replay(MemberFunctionProtoJson(p).entries) == MemberFunctionProtoJson(p).entries
    ensures Replay(FunctionBindFieldJson(b).entries) == FunctionBindFieldJson(b).entries
    ensures Replay(ClassJson(c).entries) == ClassJson(c).entries
    ensures Replay(RootJson(r).entries) == RootJson(r).entries
  {
    PlatformNumberValues(n);
    ReplayDistinct(PlatformNumberJson(n).entries);
    TypeArgumentDistinct(t, a);
    ReplayDistinct(TypeJson(t).entries);
    ReplayDistinct(ArgumentJson(a).entries);
    AttributesValues(at);
    ReplayDistinct(AttributesJson(at).entries);
    FunctionProtoValues(f);
    ReplayDistinct(FunctionProtoJson(f).entries);
    FunctionValues(fn);
    ReplayDistinct(FunctionJson(fn).entries);
    MemberFunctionProtoDistinct(p);
    ReplayDistinct(MemberFunctionProtoJson(p).entries);
    FunctionBindFieldKeys(b);
    ReplayDistinct(FunctionBindFieldJson(b).entries);
    ClassDistinct(c);
    ReplayDistinct(ClassJson(c).entries);
    RootValues(r, []);
    ReplayDistinct(RootJson(r).entries);
  }

  // ------------------------------------------------------------ end to end

  const NoAttributes := Attributes("", [], None, None)

  /** A member function `bar` with no arguments, no attributes and no flags. */
  const Bar := MemberFunctionProto(NoAttributes, Type("void", false), [], "bar", Normal, false, false, false, false)

  /** A class `Foo` with no superclasses whose only field binds `bar` at win = 10. */
  const Foo := Class(NoAttributes, "Foo", [],
                     [FunctionBind(FunctionBindField(Bar, PlatformNumber(10, -1, -1, -1, -1)))])

  /** `bar`'s prototype object: name, then the kind and return type the serialiser
      always adds. */
  lemma BarJson()
    ensures MemberFunctionProtoJson(Bar)
            == Obj([("name", Str("bar")), ("type", Str("normal")), ("ret", Obj([("name", Str("void"))]))])
  {
  }

  /** `Foo`'s one field, bound at win = 10. */
  lemma FooFieldsJson()
    ensures FieldsJson(Foo.fields)
            == Arr([Obj([("binds", Obj([("win", Int(10))])), ("prototype", MemberFunctionProtoJson(Bar)),
                         ("type", Str("function"))])])
  {
    var b := FunctionBindField(Bar, PlatformNumber(10, -1, -1, -1, -1));
    assert PlatformNumberJson(b.binds) == Obj([("win", Int(10))]);
    assert BoundFunctions(Foo.fields) == [] + [b] == [b];
    assert FunctionBindFieldJson(b)
           == Obj([("binds", Obj([("win", Int(10))])), ("prototype", MemberFunctionProtoJson(Bar)),
                   ("type", Str("function"))]);
    assert BindsJson([b]) == [FunctionBindFieldJson(b)];
  }

  /** The whole document for `Foo`: the prototype carries its kind and return type
      as well as its name, and a free function list leaves no trace. */
  lemma EndToEnd(functions: seq<Function>)
    ensures RootJson(Root([Foo], functions))
            == Obj([("classes", Arr([Obj([
                 ("name", Str("Foo")),
                 ("fields", Arr([Obj([
                   ("binds", Obj([("win", Int(10))])),
                   ("prototype", Obj([("name", Str("bar")), ("type", Str("normal")),
                                      ("ret", Obj([("name", Str("void"))]))])),
                   ("type", Str("function"))])]))])]))])
  {
    BarJson();
    FooFieldsJson();
    assert ClassJson(Foo) == Obj([("name", Str("Foo")), ("fields", FieldsJson(Foo.fields))]);
    assert ClassesJson([Foo]).elems == [ClassJson(Foo)];
  }
}
