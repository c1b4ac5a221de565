/** The IDL records the generator reads. They are produced by an external loader
    and never changed by the generator. */
module Idl {
  import opened Results

  /** A Move module identifier: account address and module name. */
  datatype ModuleId = ModuleId(address: string, name: string)

  /** A Move type as the IDL describes it. The generator only hands these to the
      type generator and the serializer, so the variants are not inspected here. */
  datatype IdlType =
    | Primitive(kind: string)
    | Vector(elem: IdlType)
    | TypeParam(index: nat)
    | Struct(moduleId: ModuleId, name: string, tyArgs: seq<IdlType>)
    | Reference(mutable: bool, referent: IdlType)

  datatype IdlArgument = IdlArgument(name: string, ty: IdlType)

  /** An entry function: arguments and type parameters are in declaration order. */
  datatype IdlScriptFunction = IdlScriptFunction(
    name: string,
    doc: Option<string>,
    args: seq<IdlArgument>,
    tyArgs: seq<string>)

  datatype IdlModule = IdlModule(moduleId: ModuleId, functions: seq<IdlScriptFunction>)
}
