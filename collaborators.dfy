/** The functions the generator calls but does not define. Each is a deterministic
    function whose behaviour is left open, so everything proved about the generator
    holds for every choice of them. The generation context (`CodegenContext`) is
    fixed for one generation pass and is folded into the functions that take it. */
module Collaborators {
  import opened Results
  import opened Idl

  datatype Env = Env(
    /** `heck::ToPascalCase`, `ToLowerCamelCase`, `ToUpperCamelCase` */
    pascalCase: string -> string,
    lowerCamelCase: string -> string,
    upperCamelCase: string -> string,
    /** `Display` of a module id, and its `short_str_lossless`; not assumed equal */
    displayModuleId: ModuleId -> string,
    shortStrLossless: ModuleId -> string,
    /** `{:?}` rendering of an IDL type */
    debugType: IdlType -> string,
    /** `IDLType::generate_typescript(ctx)` */
    typeCodegen: IdlType -> Result<string>,
    /** `generate_idl_type_with_type_args(ty, ctx, &[], false)` */
    generateType: IdlType -> Result<string>,
    /** `serialize_arg(expr, ty, ctx)` */
    serializeArg: (string, IdlType) -> Result<string>,
    /** `format::indent` on a string and `CodeText::indent` */
    indent: string -> string,
    indentCode: string -> string,
    /** `gen_doc_string` */
    genDocString: string -> string,
    /** `CodeText::new_fields_export(name, fields)`, `.docs(text)`, `.append_newline()` */
    fieldsExport: (string, string) -> string,
    withDocs: (string, string) -> string,
    appendNewline: string -> string)
}
