/** Code generation for one Move script function (`script_function.rs`): the
    payload-arguments type, the entry-payload type and the payload builder. */
module ScriptFunction {
  import opened Results
  import opened Text
  import opened Idl
  import opened Collaborators

  /** A script function about to be generated: its module, its IDL record, and
      the Pascal-case type name computed once at construction. */
  datatype ScriptFunctionType = ScriptFunctionType(
    typeName: string,
    idlModule: IdlModule,
    script: IdlScriptFunction)

  /** The four fields of an entry payload, in the order they are emitted. */
  const EntryFieldNames: seq<string> := ["type", "function", "arguments", "type_arguments"]

  // ---------------------------------------------------------------------------
  // Naming

  function New(env: Env, idlModule: IdlModule, script: IdlScriptFunction): (t: ScriptFunctionType)
    ensures t.typeName == env.pascalCase(script.name)
    ensures t.idlModule == idlModule && t.script == script
  {
    ScriptFunctionType(env.pascalCase(script.name), idlModule, script)
  }

  function DocLink(t: ScriptFunctionType): string {
    "{@link entry." + t.script.name + "}"
  }

  /** `module_id::name`, with the module id in its `Display` form. */
  function FullName(env: Env, t: ScriptFunctionType): string {
    env.displayModuleId(t.idlModule.moduleId) + "::" + t.script.name
  }

  function PayloadArgsTypeName(t: ScriptFunctionType): string {
    t.typeName + "Args"
  }

  function ShouldRenderPayloadStruct(t: ScriptFunctionType): (b: bool)
    ensures b <==> |t.script.args| > 0 || |t.script.tyArgs| > 0
  {
    !(|t.script.args| == 0 && |t.script.tyArgs| == 0)
  }

  /** The naming rules: the entry-payload type is the Pascal case of the script
      name, the arguments type appends `Args` (so the two never collide), and the
      full name is the displayed module id, `::`, and the raw script name. */
  lemma NamingRules(env: Env, idlModule: IdlModule, script: IdlScriptFunction)
    ensures New(env, idlModule, script).typeName == env.pascalCase(script.name)
    ensures PayloadArgsTypeName(New(env, idlModule, script)) == env.pascalCase(script.name) + "Args"
    ensures PayloadArgsTypeName(New(env, idlModule, script)) != New(env, idlModule, script).typeName
    ensures FullName(env, New(env, idlModule, script)) == env.displayModuleId(idlModule.moduleId) + "::" + script.name
  {
  }

  // ---------------------------------------------------------------------------
  // Payload-arguments type (`ScriptFunctionPayloadStruct`)

  /** One `<param>: string;` line per type parameter. */
  function ScriptFnTypeArgs(tyArgs: seq<string>): string {
    Join("\n", Wrap("", tyArgs, ": string;"))
  }

  /** The type-parameter block holds one line per type parameter, in order. */
  lemma TypeArgLines(tyArgs: seq<string>)
    requires |tyArgs| > 0
    requires forall p :: p in tyArgs ==> '\n' !in p
    ensures Split("\n", ScriptFnTypeArgs(tyArgs)) == Wrap("", tyArgs, ": string;")
    ensures forall i :: 0 <= i < |tyArgs| ==> Split("\n", ScriptFnTypeArgs(tyArgs))[i] == tyArgs[i] + ": string;"
  {
    var lines := Wrap("", tyArgs, ": string;");
    forall x | x in lines
      ensures "\n"[0] !in x
    {
      var i :| 0 <= i < |lines| && lines[i] == x;
      assert tyArgs[i] in tyArgs;
      assert x == tyArgs[i] + ": string;";
    }
    SplitJoin("\n", lines);
  }

  /** The declaration of one argument: its IDL type as a doc comment, then
      `name: type;` (`IDLArgument::generate_typescript`). */
  function GenerateArgument(env: Env, a: IdlArgument): (r: Result<string>)
    ensures r.Err? <==> env.typeCodegen(a.ty).Err?
    ensures r.Err? ==> r.error == env.typeCodegen(a.ty).error
    ensures r.Ok? ==> r.value == env.genDocString("IDL type: `" + env.debugType(a.ty) + "`")
                                 + a.name + ": " + env.typeCodegen(a.ty).value + ";"
  {
    var doc := env.genDocString("IDL type: `" + env.debugType(a.ty) + "`");
    var ty :- env.typeCodegen(a.ty);
    Ok(doc + a.name + ": " + ty + ";")
  }

  /** The argument declarations, one per argument in IDL order, or the first error. */
  function ArgumentDecls(env: Env, args: seq<IdlArgument>): (r: Result<seq<string>>)
    ensures r.Ok? <==> forall i :: 0 <= i < |args| ==> env.typeCodegen(args[i].ty).Ok?
    ensures r.Ok? ==> |r.value| == |args|
    ensures r.Ok? ==> forall i :: 0 <= i < |args| ==> GenerateArgument(env, args[i]) == Ok(r.value[i])
    ensures r.Err? ==> exists i :: 0 <= i < |args| && env.typeCodegen(args[i].ty) == Err(r.error)
                                   && forall j :: 0 <= j < i ==> env.typeCodegen(args[j].ty).Ok?
  {
    var r := Collect((a: IdlArgument) => GenerateArgument(env, a), args);
    assert forall i :: 0 <= i < |args| ==>
      (GenerateArgument(env, args[i]).Ok? <==> env.typeCodegen(args[i].ty).Ok?);
    r
  }

  /** A named block of the payload-arguments type: `heading: { inner };`, indented,
      followed by a newline. */
  function Block(env: Env, heading: string, inner: string): (r: string)
    ensures |r| > 0 && r[|r| - 1] == '\n'
  {
    env.indent(heading + ": {\n" + inner + "\n};\n") + "\n"
  }

  /** The fields of the payload-arguments type: the `args` block if there are
      arguments, then the `typeArgs` block if there are type parameters. Only the
      `args` block can fail. */
  function PayloadStructBody(env: Env, t: ScriptFunctionType): (r: Result<string>)
    ensures r.Err? <==> exists i :: 0 <= i < |t.script.args| && env.typeCodegen(t.script.args[i].ty).Err?
    ensures r.Err? ==> exists i :: 0 <= i < |t.script.args| && env.typeCodegen(t.script.args[i].ty) == Err(r.error)
                                   && forall j :: 0 <= j < i ==> env.typeCodegen(t.script.args[j].ty).Ok?
  {
    var argsBlock :-
      if |t.script.args| == 0 then Ok("")
      else
        var decls :- ArgumentDecls(env, t.script.args);
        Ok(Block(env, "args", env.indentCode(Join("\n", decls))));
    var typeArgsBlock :=
      if |t.script.tyArgs| == 0 then ""
      else Block(env, "typeArgs", env.indentCode(ScriptFnTypeArgs(t.script.tyArgs)));
    Ok(argsBlock + typeArgsBlock)
  }

  /** `ScriptFunctionPayloadStruct::generate_typescript`: the exported
      `<Name>Args` type, documented with a link to the entry function. */
  function GeneratePayloadStruct(env: Env, t: ScriptFunctionType): (r: Result<string>)
    ensures r.Err? <==> PayloadStructBody(env, t).Err?
    ensures r.Err? ==> r.error == PayloadStructBody(env, t).error
    ensures r.Ok? ==> r.value == env.withDocs(env.fieldsExport(PayloadArgsTypeName(t), PayloadStructBody(env, t).value),
                                              "Payload arguments for " + DocLink(t) + ".")
  {
    var body :- PayloadStructBody(env, t);
    Ok(env.withDocs(env.fieldsExport(PayloadArgsTypeName(t), body), "Payload arguments for " + DocLink(t) + "."))
  }

  /** The blocks of the payload-arguments type: `args` present iff there are
      arguments, `typeArgs` present iff there are type parameters, `args` first;
      the body is empty exactly when no payload struct is rendered. */
  lemma PayloadStructBlocks(env: Env, t: ScriptFunctionType)
    requires PayloadStructBody(env, t).Ok?
    ensures |t.script.args| > 0 ==> ArgumentDecls(env, t.script.args).Ok?
    ensures PayloadStructBody(env, t).value ==
      (if |t.script.args| == 0 then ""
       else Block(env, "args", env.indentCode(Join("\n", ArgumentDecls(env, t.script.args).value))))
      + (if |t.script.tyArgs| == 0 then ""
         else Block(env, "typeArgs", env.indentCode(ScriptFnTypeArgs(t.script.tyArgs))))
    ensures PayloadStructBody(env, t).value == "" <==> !ShouldRenderPayloadStruct(t)
  {
  }

  /** The argument declarations inside the `args` block keep IDL order:
      argument `i` comes after the declarations of arguments `0..i`. */
  lemma ArgumentDeclAt(env: Env, args: seq<IdlArgument>, i: nat)
    requires ArgumentDecls(env, args).Ok? && i < |args|
    ensures var decls := ArgumentDecls(env, args).value;
      Join("\n", decls) == Join("\n", decls[..i]) + (if i == 0 then "" else "\n")
                           + GenerateArgument(env, args[i]).value
                           + (if i == |args| - 1 then "" else "\n") + Join("\n", decls[i + 1..])
  {
    JoinAt("\n", ArgumentDecls(env, args).value, i);
  }

  // ---------------------------------------------------------------------------
  // Entry-payload type (`generate_entry_payload_struct`)

  function EntryArgument(env: Env, a: IdlArgument): Result<string> {
    var ty :- env.generateType(a.ty);
    Ok(a.name + ": " + ty)
  }

  /** The `name: type` entries of the entry payload's `arguments` tuple, in IDL
      order, or the first argument whose type cannot be generated. */
  function EntryArgumentItems(env: Env, args: seq<IdlArgument>): (r: Result<seq<string>>)
    ensures r.Ok? <==> forall i :: 0 <= i < |args| ==> env.generateType(args[i].ty).Ok?
    ensures r.Ok? ==> |r.value| == |args|
    ensures r.Ok? ==> forall i :: 0 <= i < |args| ==> r.value[i] == args[i].name + ": " + env.generateType(args[i].ty).value
    ensures r.Err? ==> exists i :: 0 <= i < |args| && env.generateType(args[i].ty) == Err(r.error)
                                   && forall j :: 0 <= j < i ==> env.generateType(args[j].ty).Ok?
  {
    var r := Collect((a: IdlArgument) => EntryArgument(env, a), args);
    assert forall i :: 0 <= i < |args| ==>
      (EntryArgument(env, args[i]).Ok? <==> env.generateType(args[i].ty).Ok?);
    r
  }

  /** The `type_arguments` tuple of the entry payload: `<param>: string` per type parameter. */
  function EntryTypeArguments(tyArgs: seq<string>): string {
    "[" + Join(", ", Wrap("", tyArgs, ": string")) + "]"
  }

  /** The four readonly fields of the entry payload, in emission order. */
  function EntryPayloadFields(fullName: string, arguments: string, typeArguments: string): (fields: seq<string>)
    ensures |fields| == |EntryFieldNames|
    ensures forall k :: 0 <= k < |fields| ==> StartsWith(fields[k], "readonly " + EntryFieldNames[k] + ": ")
    ensures fields[0] == "readonly type: \"script_function_payload\";"
    ensures fields[1] == "readonly function: \"" + fullName + "\";"
    ensures fields[2] == "readonly arguments: " + arguments + ";"
    ensures fields[3] == "readonly type_arguments: " + typeArguments + ";"
  {
    var fields := [
      "readonly type: \"script_function_payload\";",
      "readonly function: \"" + fullName + "\";",
      "readonly arguments: " + arguments + ";",
      "readonly type_arguments: " + typeArguments + ";"
    ];
    PrefixOfConcat("readonly function: ", "\"" + fullName + "\";");
    PrefixOfConcat("readonly arguments: ", arguments + ";");
    PrefixOfConcat("readonly type_arguments: ", typeArguments + ";");
    assert StartsWith(fields[0], "readonly " + EntryFieldNames[0] + ": ");
    fields
  }

  function EntryPayloadDocs(env: Env, t: ScriptFunctionType): string {
    "Script function payload for `" + FullName(env, t) + "`."
    + match t.script.doc
      case None => ""
      case Some(d) => "\n\n" + d
  }

  /** `generate_entry_payload_struct`: the exported `<Name>` type with the four
      readonly fields; the `arguments` field lists `name: type` per argument
      and the `type_arguments` field `<param>: string` per type parameter. */
  function GenerateEntryPayloadStruct(env: Env, t: ScriptFunctionType): (r: Result<string>)
    ensures r.Err? <==> exists i :: 0 <= i < |t.script.args| && env.generateType(t.script.args[i].ty).Err?
    ensures r.Err? ==> exists i :: 0 <= i < |t.script.args| && env.generateType(t.script.args[i].ty) == Err(r.error)
                                   && forall j :: 0 <= j < i ==> env.generateType(t.script.args[j].ty).Ok?
    ensures r.Ok? ==> EntryArgumentItems(env, t.script.args).Ok?
    ensures r.Ok? ==> r.value == env.withDocs(
      env.fieldsExport(t.typeName, env.appendNewline(env.indentCode(Join("\n", EntryPayloadFields(
        FullName(env, t),
        "[" + Join(", ", EntryArgumentItems(env, t.script.args).value) + "]",
        EntryTypeArguments(t.script.tyArgs)))))),
      EntryPayloadDocs(env, t))
  {
    var items :- EntryArgumentItems(env, t.script.args);
    var arguments := "[" + Join(", ", items) + "]";
    var fields := EntryPayloadFields(FullName(env, t), arguments, EntryTypeArguments(t.script.tyArgs));
    var body := env.appendNewline(env.indentCode(Join("\n", fields)));
    Ok(env.withDocs(env.fieldsExport(t.typeName, body), EntryPayloadDocs(env, t)))
  }

  /** The `type_arguments` tuple of the entry payload lists every type parameter,
      in declaration order, as `<param>: string`. */
  lemma EntryTypeArgumentsList(tyArgs: seq<string>)
    requires forall p :: p in tyArgs ==> ',' !in p
    ensures |tyArgs| == 0 ==> EntryTypeArguments(tyArgs) == "[]"
    ensures |tyArgs| > 0 ==> Split(", ", EntryTypeArguments(tyArgs)[1..|EntryTypeArguments(tyArgs)| - 1])
                             == Wrap("", tyArgs, ": string")
  {
    var items := Wrap("", tyArgs, ": string");
    var s := EntryTypeArguments(tyArgs);
    assert s[1..|s| - 1] == Join(", ", items);
    if |tyArgs| > 0 {
      forall x | x in items
        ensures ", "[0] !in x
      {
        var i :| 0 <= i < |items| && items[i] == x;
        assert tyArgs[i] in tyArgs;
        assert x == tyArgs[i] + ": string";
      }
      SplitJoin(", ", items);
    }
  }

  // ---------------------------------------------------------------------------
  // Payload builder (`ScriptFunctionType::generate_typescript`)

  /** `module_id::name`, with the module id in its `short_str_lossless` form. */
  function BuilderFunctionId(env: Env, t: ScriptFunctionType): string {
    env.shortStrLossless(t.idlModule.moduleId) + "::" + t.script.name
  }

  /** The builder's `type_arguments`: `typeArgs.<param>` per type parameter. */
  function BuilderTypeArguments(tyArgs: seq<string>): string {
    "[" + Join(", ", Wrap("typeArgs.", tyArgs, "")) + "]"
  }

  /** The builder's `type_arguments` list references every type parameter as
      `typeArgs.<param>`, in declaration order, and nothing else. */
  lemma BuilderTypeArgumentsList(tyArgs: seq<string>)
    requires forall p :: p in tyArgs ==> ',' !in p
    ensures |tyArgs| == 0 ==> BuilderTypeArguments(tyArgs) == "[]"
    ensures |tyArgs| > 0 ==> Split(", ", BuilderTypeArguments(tyArgs)[1..|BuilderTypeArguments(tyArgs)| - 1])
                             == Wrap("typeArgs.", tyArgs, "")
  {
    var refs := Wrap("typeArgs.", tyArgs, "");
    var s := BuilderTypeArguments(tyArgs);
    assert s[1..|s| - 1] == Join(", ", refs);
    if |tyArgs| > 0 {
      forall x | x in refs
        ensures ", "[0] !in x
      {
        var i :| 0 <= i < |refs| && refs[i] == x;
        assert tyArgs[i] in tyArgs;
        assert x == "typeArgs." + tyArgs[i];
      }
      SplitJoin(", ", refs);
    }
  }

  function SerializeArgument(env: Env, a: IdlArgument): Result<string> {
    env.serializeArg("args." + a.name, a.ty)
  }

  /** The serialized arguments, each rooted at `args.<name>`, in IDL order, or
      the error of the first argument that cannot be serialized. */
  function SerializedArguments(env: Env, args: seq<IdlArgument>): (r: Result<seq<string>>)
    ensures r.Ok? <==> forall i :: 0 <= i < |args| ==> env.serializeArg("args." + args[i].name, args[i].ty).Ok?
    ensures r.Ok? ==> |r.value| == |args|
    ensures r.Ok? ==> forall i :: 0 <= i < |args| ==> env.serializeArg("args." + args[i].name, args[i].ty) == Ok(r.value[i])
    ensures r.Err? ==> exists i :: 0 <= i < |args| && env.serializeArg("args." + args[i].name, args[i].ty) == Err(r.error)
                                   && forall j :: 0 <= j < i ==> env.serializeArg("args." + args[j].name, args[j].ty).Ok?
  {
    Collect((a: IdlArgument) => SerializeArgument(env, a), args)
  }

  /** The names destructured from the builder's parameter: `args` when there are
      arguments, then `typeArgs` when there are type parameters. */
  function ParamNames(script: IdlScriptFunction): (names: seq<string>)
    ensures names == (if |script.args| == 0 then [] else ["args"])
                     + (if |script.tyArgs| == 0 then [] else ["typeArgs"])
  {
    var options := [
      if |script.args| == 0 then None else Some("args"),
      if |script.tyArgs| == 0 then None else Some("typeArgs")
    ];
    SomesAppend([options[0]], [options[1]]);
    assert [options[0]] + [options[1]] == options;
    Somes(options)
  }

  /** The builder's parameter: `{ <names> }: mod.<Name>Args`, or nothing at all
      when no payload struct is rendered. */
  function BuilderParams(t: ScriptFunctionType): (r: string)
    ensures r == "" <==> !ShouldRenderPayloadStruct(t)
    ensures ShouldRenderPayloadStruct(t) ==>
      r == "{ " + Join(", ", ParamNames(t.script)) + " }: mod." + PayloadArgsTypeName(t)
  {
    if ShouldRenderPayloadStruct(t) then
      "{ " + Join(", ", ParamNames(t.script)) + " }: mod." + PayloadArgsTypeName(t)
    else ""
  }

  /** The builder's parameter, spelled out for the three non-empty shapes. */
  lemma BuilderParamShapes(t: ScriptFunctionType)
    ensures |t.script.args| > 0 && |t.script.tyArgs| == 0 ==>
      BuilderParams(t) == "{ args }: mod." + PayloadArgsTypeName(t)
    ensures |t.script.args| == 0 && |t.script.tyArgs| > 0 ==>
      BuilderParams(t) == "{ typeArgs }: mod." + PayloadArgsTypeName(t)
    ensures |t.script.args| > 0 && |t.script.tyArgs| > 0 ==>
      BuilderParams(t) == "{ args, typeArgs }: mod." + PayloadArgsTypeName(t)
  {
    var names := ParamNames(t.script);
    if |t.script.args| > 0 && |t.script.tyArgs| > 0 {
      assert names == ["args", "typeArgs"];
      assert Join(", ", names) == "args" + ", " + Join(", ", ["typeArgs"]);
    }
  }

  function DocComment(env: Env, doc: Option<string>): string {
    match doc
    case None => ""
    case Some(d) => env.genDocString(d)
  }

  /** The text of an exported payload builder: it takes `params` and returns a
      `payloads.<typeName>` record with the tag, the function id, the type
      arguments and the arguments, in that order. */
  function BuilderText(doc: string, name: string, params: string, typeName: string,
                       functionId: string, typeArguments: string, arguments: string): string
  {
    doc + "export const " + name + " = (" + params + "): payloads." + typeName + " => ({\n"
    + "  type: \"script_function_payload\",\n"
    + "  function: \"" + functionId + "\",\n"
    + "  type_arguments: " + typeArguments + ",\n"
    + "  arguments: " + arguments + ",\n"
    + "});"
  }

  /** `ScriptFunctionType::generate_typescript`: the payload builder, or the
      error of the first argument that cannot be serialized (and no text). */
  function GenerateBuilder(env: Env, t: ScriptFunctionType): (r: Result<string>)
    ensures r.Err? <==> exists i :: 0 <= i < |t.script.args| && env.serializeArg("args." + t.script.args[i].name, t.script.args[i].ty).Err?
    ensures r.Err? ==> exists i :: 0 <= i < |t.script.args|
                                   && env.serializeArg("args." + t.script.args[i].name, t.script.args[i].ty) == Err(r.error)
                                   && forall j :: 0 <= j < i ==> env.serializeArg("args." + t.script.args[j].name, t.script.args[j].ty).Ok?
    ensures r.Ok? ==> SerializedArguments(env, t.script.args).Ok?
    ensures r.Ok? ==> r.value == BuilderText(DocComment(env, t.script.doc), t.script.name, BuilderParams(t), t.typeName,
                                             BuilderFunctionId(env, t), BuilderTypeArguments(t.script.tyArgs),
                                             "[" + Join(", ", SerializedArguments(env, t.script.args).value) + "]")
  {
    var typeArguments := BuilderTypeArguments(t.script.tyArgs);
    var serialized :- SerializedArguments(env, t.script.args);
    var arguments := "[" + Join(", ", serialized) + "]";
    Ok(BuilderText(DocComment(env, t.script.doc), t.script.name, BuilderParams(t), t.typeName,
                   BuilderFunctionId(env, t), typeArguments, arguments))
  }

  /** The builder's `arguments` list keeps IDL order: the serialization of
      argument `i` comes after those of arguments `0..i` and before the rest. */
  lemma BuilderArgumentAt(env: Env, args: seq<IdlArgument>, i: nat)
    requires SerializedArguments(env, args).Ok? && i < |args|
    ensures var items := SerializedArguments(env, args).value;
      Join(", ", items) == Join(", ", items[..i]) + (if i == 0 then "" else ", ")
                           + env.serializeArg("args." + args[i].name, args[i].ty).value
                           + (if i == |args| - 1 then "" else ", ") + Join(", ", items[i + 1..])
  {
    JoinAt(", ", SerializedArguments(env, args).value, i);
  }

  /** A function with neither arguments nor type parameters: no payload struct
      is rendered, its body is empty, and the builder takes no parameter, passes
      empty lists and cannot fail. */
  lemma DegenerateFunction(env: Env, t: ScriptFunctionType)
    requires |t.script.args| == 0 && |t.script.tyArgs| == 0
    ensures !ShouldRenderPayloadStruct(t)
    ensures PayloadStructBody(env, t) == Ok("")
    ensures GenerateBuilder(env, t) == Ok(BuilderText(DocComment(env, t.script.doc), t.script.name, "", t.typeName,
                                                      BuilderFunctionId(env, t), "[]", "[]"))
  {
    assert Wrap("typeArgs.", t.script.tyArgs, "") == [];
    assert SerializedArguments(env, t.script.args) == Ok([]);
    assert PayloadStructBody(env, t) == Ok("" + "");
    assert "" + "" == "";
    assert BuilderTypeArguments(t.script.tyArgs) == "[]";
    assert BuilderParams(t) == "";
  }

  // ---------------------------------------------------------------------------
  // Worked examples

  /** `transfer(to: address, amount: u64)` in `0x1::coin`: an `args`-only
      parameter typed `mod.TransferArgs`, function id `0x1::coin::transfer`, no
      type arguments, and the two serialized arguments in declaration order. */
  lemma TransferExample(env: Env, coin: IdlModule)
    requires coin.moduleId == ModuleId("0x1", "coin")
    requires env.shortStrLossless(coin.moduleId) == "0x1::coin"
    requires env.pascalCase("transfer") == "Transfer"
    requires env.serializeArg("args.to", Primitive("address")).Ok?
    requires env.serializeArg("args.amount", Primitive("u64")).Ok?
    ensures var t := New(env, coin, IdlScriptFunction("transfer", None,
                           [IdlArgument("to", Primitive("address")), IdlArgument("amount", Primitive("u64"))], []));
      && ShouldRenderPayloadStruct(t)
      && BuilderParams(t) == "{ args }: mod.TransferArgs"
      && BuilderFunctionId(env, t) == "0x1::coin::transfer"
      && BuilderTypeArguments(t.script.tyArgs) == "[]"
      && GenerateBuilder(env, t).Ok?
      && SerializedArguments(env, t.script.args).value
         == [env.serializeArg("args.to", Primitive("address")).value,
             env.serializeArg("args.amount", Primitive("u64")).value]
  {
    var t := New(env, coin, IdlScriptFunction("transfer", None,
                 [IdlArgument("to", Primitive("address")), IdlArgument("amount", Primitive("u64"))], []));
    BuilderParamShapes(t);
    assert Wrap("typeArgs.", t.script.tyArgs, "") == [];
    assert "args." + t.script.args[0].name == "args.to";
    assert "args." + t.script.args[1].name == "args.amount";
  }

  /** The payload-arguments type of `transfer(to: address, amount: u64)`: exported
      as `TransferArgs`, linked to `entry.transfer`, holding an `args` block with
      the two declarations and no `typeArgs` block. */
  lemma TransferPayloadStruct(env: Env, coin: IdlModule)
    requires env.pascalCase("transfer") == "Transfer"
    requires env.typeCodegen(Primitive("address")).Ok? && env.typeCodegen(Primitive("u64")).Ok?
    ensures var t := New(env, coin, IdlScriptFunction("transfer", None,
                           [IdlArgument("to", Primitive("address")), IdlArgument("amount", Primitive("u64"))], []));
      && PayloadArgsTypeName(t) == "TransferArgs"
      && ArgumentDecls(env, t.script.args).Ok?
      && GeneratePayloadStruct(env, t)
         == Ok(env.withDocs(env.fieldsExport("TransferArgs",
                 Block(env, "args", env.indentCode(Join("\n", ArgumentDecls(env, t.script.args).value)))),
               "Payload arguments for {@link entry.transfer}."))
  {
    var t := New(env, coin, IdlScriptFunction("transfer", None,
                 [IdlArgument("to", Primitive("address")), IdlArgument("amount", Primitive("u64"))], []));
    assert t.typeName + "Args" == "TransferArgs";
    assert DocLink(t) == "{@link entry.transfer}";
    assert "Payload arguments for " + DocLink(t) + "." == "Payload arguments for {@link entry.transfer}.";
    assert GeneratePayloadStruct(env, t) == Ok(env.withDocs(env.fieldsExport(PayloadArgsTypeName(t), PayloadStructBody(env, t).value),
                                              "Payload arguments for " + DocLink(t) + "."));
    assert forall i :: 0 <= i < |t.script.args| ==> env.typeCodegen(t.script.args[i].ty).Ok?;
    PayloadStructBlocks(env, t);
    var block := Block(env, "args", env.indentCode(Join("\n", ArgumentDecls(env, t.script.args).value)));
    assert block + "" == block;
  }

  /** `swap<T>(amount: u64)`: both blocks in the payload-arguments type, the
      type block holding `T: string;`, and a builder whose type arguments are
      exactly `[typeArgs.T]`. */
  lemma SwapExample(env: Env, m: IdlModule)
    requires env.pascalCase("swap") == "Swap"
    ensures var t := New(env, m, IdlScriptFunction("swap", None, [IdlArgument("amount", Primitive("u64"))], ["T"]));
      && BuilderParams(t) == "{ args, typeArgs }: mod.SwapArgs"
      && ScriptFnTypeArgs(t.script.tyArgs) == "T: string;"
      && BuilderTypeArguments(t.script.tyArgs) == "[typeArgs.T]"
      && EntryTypeArguments(t.script.tyArgs) == "[T: string]"
  {
    var t := New(env, m, IdlScriptFunction("swap", None, [IdlArgument("amount", Primitive("u64"))], ["T"]));
    BuilderParamShapes(t);
    assert "" + "T" + ": string;" == "T: string;";
    assert Wrap("", ["T"], ": string;") == ["T: string;"];
    assert "typeArgs." + "T" + "" == "typeArgs.T";
    assert Wrap("typeArgs.", ["T"], "") == ["typeArgs.T"];
    assert "" + "T" + ": string" == "T: string";
    assert Wrap("", ["T"], ": string") == ["T: string"];
  }
}
