/** The binding-description AST that the broma parser hands to the serialisers.
    Only the members the serialisers read are kept. */
module Broma {

  /** broma::Platform. `None` means "not applicable". */
  datatype Platform = None | Mac | Windows | Android | iOS | Android32 | Android64

  /** broma::PlatformNumber: one signed offset per platform; -1 means "no address". */
  datatype PlatformNumber = PlatformNumber(win: int, mac: int, ios: int, android32: int, android64: int)

  /** broma::Type: a type name, and whether it was written as a struct. */
  datatype Type = Type(name: string, isStruct: bool)

  /** An element of a prototype's argument list: std::pair<broma::Type, std::string>. */
  datatype Argument = Argument(ty: Type, name: string)

  datatype Attributes = Attributes(docs: string, depends: seq<string>, links: Platform, missing: Platform)

  datatype FunctionProto = FunctionProto(attributes: Attributes, ret: Type, args: seq<Argument>, name: string)

  /** A free function: its prototype and its addresses. */
  datatype Function = Function(prototype: FunctionProto, binds: PlatformNumber)

  datatype FunctionType = Ctor | Dtor | Normal

  datatype MemberFunctionProto = MemberFunctionProto(
    attributes: Attributes,
    ret: Type,
    args: seq<Argument>,
    name: string,
    kind: FunctionType,
    isConst: bool,
    isVirtual: bool,
    isCallback: bool,
    isStatic: bool)

  datatype FunctionBindField = FunctionBindField(prototype: MemberFunctionProto, binds: PlatformNumber)

  /** broma::Field: a variant of which only the function-bind alternative carries
      anything the serialisers emit; the data, padding and inline alternatives are
      folded into `Other`, whose payload is opaque. */
  datatype Field = FunctionBind(bind: FunctionBindField) | Other(payload: string)

  datatype Class = Class(attributes: Attributes, name: string, superclasses: seq<string>, fields: seq<Field>)

  datatype Root = Root(classes: seq<Class>, functions: seq<Function>)
}
