/** The per-module wrapper class (`Vec<ScriptFunctionType>::generate_typescript`):
    one method per script function that builds the payload and submits it, in
    one of two shapes chosen by a build-time feature. */
module ModuleWrapper {
  import opened Results
  import opened Text
  import opened Idl
  import opened Collaborators
  import opened ScriptFunction

  /** The crate features `address20` (Sui) and `address32` (Aptos); when both
      are enabled, `address20` wins. */
  datatype Features = Features(address20: bool, address32: bool)

  /** The opening of each shape, which tells the two apart. */
  const AptosTag: string := "\ntype TransactionPayload"
  const SuiTag: string := "\ntype SuiCallOverrides"

  const AptosPrelude: string := AptosTag + AptosPreludeRest

  const AptosPreludeRest: string :=
    " = {\n\ttype: string;\n  function: string;\n  arguments: unknown[];\n"
    + "  type_arguments: string[];\n}\n\nexport class "

  const AptosClassOpen: string :=
    "AptosModule {\n\tconstructor(private readonly client: AptosClient, private readonly account: AptosAccount) {}\n\t"

  const AptosClassClose: string :=
    "\n\n\tprivate async sendTransaction(payload: TransactionPayload) {\n"
    + "    const txnRequest = await this.client.generateTransaction(\n"
    + "      this.account.address(),\n"
    + "      this.transformTxnPayload(payload)\n"
    + "    );\n\n"
    + "    const signedTxn = await this.client.signTransaction(this.account, txnRequest);\n"
    + "    const txnResponse = await this.client.submitTransaction(signedTxn);\n\n"
    + "    return {\n"
    + "      ...txnResponse,\n"
    + "      wait: async () => {\n"
    + "        return this.client.waitForTransaction(txnResponse.hash);\n"
    + "      },\n"
    + "    };\n"
    + "  }\n\n"
    + "  private transformTxnPayload(payload: TransactionPayload): Types.TransactionPayload {\n"
    + "    const [moduleAddress, moduleName, functionName] = payload.function.split(\"::\");\n"
    + "    return {\n"
    + "      ...payload,\n"
    + "      function: {\n"
    + "        name: functionName,\n"
    + "        module: { address: moduleAddress, name: moduleName },\n"
    + "      },\n"
    + "    };\n"
    + "  }\n}"

  const SuiPrelude: string := SuiTag + SuiPreludeRest

  const SuiPreludeRest: string :=
    " = {\n\tgasBudget?: number;\n\tgasPayment?: ObjectId;\n};\n\nexport class "

  const SuiClassOpen: string :=
    "SuiModule {\nprivate readonly defaultGasBudget = 1000;\n\nconstructor(private readonly signer: RawSigner) {}\n\n"

  const SuiClassClose: string := "\n}"

  /** The class name stem: the upper-camel module name of the FIRST function. */
  function ModuleName(env: Env, fns: seq<ScriptFunctionType>): string
    requires |fns| > 0
  {
    env.upperCamelCase(fns[0].idlModule.moduleId.name)
  }

  /** An Aptos method: named by the lower-camel script name, taking the
      `<Name>Args` type, and sending what the builder (by raw name) returns. */
  function AptosMethod(env: Env, t: ScriptFunctionType): string {
    "\n\tasync " + env.lowerCamelCase(t.script.name) + "(args: mod." + PayloadArgsTypeName(t) + ") {\n"
    + "\t\treturn this.sendTransaction(" + t.script.name + "(args));\n\t}"
  }

  /** A Sui method: the same name and argument type, plus call overrides; it
      builds the payload with the builder and passes the raw name as `function`. */
  function SuiMethod(env: Env, t: ScriptFunctionType): string {
    "\nasync " + env.lowerCamelCase(t.script.name) + "(args: mod." + PayloadArgsTypeName(t)
    + ", overrides: SuiCallOverrides) {\n"
    + "\tconst payload = " + t.script.name + "(args);\n\n"
    + "\treturn this.signer.executeMoveCall({\n"
    + "\t\t\tmodule: mod.NAME,\n"
    + "\t\t\tpackageObjectId: mod.ADDRESS,\n"
    + "\t\t\tfunction: \"" + t.script.name + "\",\n"
    + "\t\t\ttypeArguments: payload.type_arguments,\n"
    + "\t\t\targuments: payload.arguments,\n"
    + "\t\t\tgasBudget: overrides?.gasBudget ?? this.defaultGasBudget,\n"
    + "\t\t\t...overrides,\n"
    + "\t})\n}"
  }

  function AptosMethods(env: Env, fns: seq<ScriptFunctionType>): (ms: seq<string>)
    ensures |ms| == |fns|
    ensures forall i :: 0 <= i < |fns| ==> ms[i] == AptosMethod(env, fns[i])
  {
    seq(|fns|, i requires 0 <= i < |fns| => AptosMethod(env, fns[i]))
  }

  function SuiMethods(env: Env, fns: seq<ScriptFunctionType>): (ms: seq<string>)
    ensures |ms| == |fns|
    ensures forall i :: 0 <= i < |fns| ==> ms[i] == SuiMethod(env, fns[i])
  {
    seq(|fns|, i requires 0 <= i < |fns| => SuiMethod(env, fns[i]))
  }

  function AptosModule(env: Env, fns: seq<ScriptFunctionType>): string
    requires |fns| > 0
  {
    AptosPrelude + ModuleName(env, fns) + AptosClassOpen + Join("", AptosMethods(env, fns)) + AptosClassClose
  }

  function SuiModule(env: Env, fns: seq<ScriptFunctionType>): string
    requires |fns| > 0
  {
    SuiPrelude + ModuleName(env, fns) + SuiClassOpen + Join("", SuiMethods(env, fns)) + SuiClassClose
  }

  /** `Vec<ScriptFunctionType>::generate_typescript`: nothing for an empty list;
      otherwise the Sui class under `address20`, else the Aptos class under
      `address32`, else nothing. It never fails. */
  function GenerateModuleWrapper(env: Env, features: Features, fns: seq<ScriptFunctionType>): (r: Result<string>)
    ensures r.Ok?
    ensures |fns| == 0 ==> r.value == ""
    ensures !features.address20 && !features.address32 ==> r.value == ""
    ensures |fns| > 0 && features.address20 ==> r.value == SuiModule(env, fns) + "\n"
    ensures |fns| > 0 && !features.address20 && features.address32 ==> r.value == AptosModule(env, fns) + "\n"
  {
    if |fns| == 0 then Ok("")
    else if features.address20 then Ok(SuiModule(env, fns) + "\n")
    else if features.address32 then Ok(AptosModule(env, fns) + "\n")
    else Ok("")
  }

  /** The Sui output for a non-empty module opens with the Sui prelude, and so
      with the Sui tag. */
  lemma SuiOpening(env: Env, fns: seq<ScriptFunctionType>)
    requires |fns| > 0
    ensures StartsWith(SuiModule(env, fns) + "\n", SuiPrelude)
    ensures StartsWith(SuiModule(env, fns) + "\n", SuiTag)
  {
    PrefixOfConcat(SuiPrelude, "");
    ExtendPrefix5(SuiPrelude, SuiPrelude, ModuleName(env, fns), SuiClassOpen, Join("", SuiMethods(env, fns)), SuiClassClose);
    ExtendPrefix(SuiModule(env, fns), "\n", SuiPrelude);
    PrefixOfConcat(SuiTag, SuiPreludeRest);
    PrefixOfPrefix(SuiModule(env, fns) + "\n", SuiPrelude, SuiTag);
  }

  /** The Aptos output for a non-empty module opens with the Aptos prelude, and
      so with the Aptos tag. */
  lemma AptosOpening(env: Env, fns: seq<ScriptFunctionType>)
    requires |fns| > 0
    ensures StartsWith(AptosModule(env, fns) + "\n", AptosPrelude)
    ensures StartsWith(AptosModule(env, fns) + "\n", AptosTag)
  {
    PrefixOfConcat(AptosPrelude, "");
    ExtendPrefix5(AptosPrelude, AptosPrelude, ModuleName(env, fns), AptosClassOpen, Join("", AptosMethods(env, fns)), AptosClassClose);
    ExtendPrefix(AptosModule(env, fns), "\n", AptosPrelude);
    PrefixOfConcat(AptosTag, AptosPreludeRest);
    PrefixOfPrefix(AptosModule(env, fns) + "\n", AptosPrelude, AptosTag);
  }

  /** The two shapes exclude each other: for a non-empty module the Sui output
      opens with the Sui prelude, the Aptos output with the Aptos prelude, the
      two never coincide and neither is empty. */
  lemma EnvironmentExclusive(env: Env, fns: seq<ScriptFunctionType>, aptos: Features, sui: Features)
    requires |fns| > 0
    requires sui.address20
    requires !aptos.address20 && aptos.address32
    ensures StartsWith(GenerateModuleWrapper(env, sui, fns).value, SuiPrelude)
    ensures StartsWith(GenerateModuleWrapper(env, aptos, fns).value, AptosPrelude)
    ensures GenerateModuleWrapper(env, sui, fns).value != GenerateModuleWrapper(env, aptos, fns).value
    ensures GenerateModuleWrapper(env, sui, fns).value != ""
    ensures GenerateModuleWrapper(env, aptos, fns).value != ""
  {
    SuiOpening(env, fns);
    AptosOpening(env, fns);
    var s := GenerateModuleWrapper(env, sui, fns).value;
    var a := GenerateModuleWrapper(env, aptos, fns).value;
    assert s[6] == SuiTag[6] == 'S';
    assert a[6] == AptosTag[6] == 'T';
  }

  /** The Aptos class holds one method per script function, in list order:
      method `i` follows the methods of functions `0..i` and precedes the rest. */
  lemma AptosMethodsInOrder(env: Env, fns: seq<ScriptFunctionType>, i: nat)
    requires i < |fns|
    ensures Join("", AptosMethods(env, fns)) ==
      Join("", AptosMethods(env, fns)[..i]) + AptosMethod(env, fns[i]) + Join("", AptosMethods(env, fns)[i + 1..])
  {
    JoinAt("", AptosMethods(env, fns), i);
  }

  /** The Sui class holds one method per script function, in list order. */
  lemma SuiMethodsInOrder(env: Env, fns: seq<ScriptFunctionType>, i: nat)
    requires i < |fns|
    ensures Join("", SuiMethods(env, fns)) ==
      Join("", SuiMethods(env, fns)[..i]) + SuiMethod(env, fns[i]) + Join("", SuiMethods(env, fns)[i + 1..])
  {
    JoinAt("", SuiMethods(env, fns), i);
  }

  /** Each wrapper method is named by the lower-camel script name, takes the
      function's `<Name>Args` type and calls the builder by its raw name. */
  lemma WrapperMethodShape(env: Env, t: ScriptFunctionType)
    ensures StartsWith(AptosMethod(env, t),
                       "\n\tasync " + env.lowerCamelCase(t.script.name) + "(args: mod." + PayloadArgsTypeName(t) + ") {\n"
                       + "\t\treturn this.sendTransaction(" + t.script.name + "(args));")
    ensures StartsWith(SuiMethod(env, t),
                       "\nasync " + env.lowerCamelCase(t.script.name) + "(args: mod." + PayloadArgsTypeName(t)
                       + ", overrides: SuiCallOverrides) {\n" + "\tconst payload = " + t.script.name + "(args);")
  {
  }

  /** The wrapper methods do not follow `should_render_payload_struct`: for a
      function with neither arguments nor type parameters the builder takes no
      parameter, yet both wrapper methods still declare `args: mod.<Name>Args`
      and pass `args` to the builder. */
  lemma WrapperPassesArgsToParameterlessBuilder(env: Env, t: ScriptFunctionType)
    requires |t.script.args| == 0 && |t.script.tyArgs| == 0
    ensures !ShouldRenderPayloadStruct(t) && BuilderParams(t) == ""
    ensures StartsWith(AptosMethod(env, t),
                       "\n\tasync " + env.lowerCamelCase(t.script.name) + "(args: mod." + PayloadArgsTypeName(t) + ") {\n"
                       + "\t\treturn this.sendTransaction(" + t.script.name + "(args));")
    ensures StartsWith(SuiMethod(env, t),
                       "\nasync " + env.lowerCamelCase(t.script.name) + "(args: mod." + PayloadArgsTypeName(t)
                       + ", overrides: SuiCallOverrides) {\n" + "\tconst payload = " + t.script.name + "(args);")
  {
    WrapperMethodShape(env, t);
  }
}
