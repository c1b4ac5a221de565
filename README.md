# move-ts script-function generator, modelled in Dafny

move-ts turns a Move IDL into TypeScript. For every entry ("script") function
of a module it emits:

- a payload-arguments type `<Name>Args` (only rendered when the function has
  arguments or type parameters);
- an entry-payload type `<Name>` with four readonly fields;
- a payload builder `export const <name> = (...) => ({ ... })`.

For the whole module it emits one wrapper class with one method per function.
The class is the Sui shape under the `address20` feature, the Aptos shape under
`address32`, and nothing otherwise.

This project models `crates/move-ts/src/script_function.rs` as pure Dafny
functions over sequences and strings, with lemmas about them:

- `results.dfy` (module `Results`) holds `Result`/`Option` and
  `collect::<Result<Vec<_>>>()` (`Collect`): all values in order, or the first
  error. It also holds `flatten()` over options (`Somes`).
- `text.dfy` (module `Text`) holds `join` (`Join`, recursive), `split` as its
  inverse (`Split`), and the map-to-decorated-strings helper (`Wrap`).
- `idl.dfy` (module `Idl`) holds the IDL records the generator reads.
- `collaborators.dfy` (module `Collaborators`) holds every function the file
  calls but does not define, as fields of arrow type of `Env`. They are
  deterministic and otherwise unconstrained, so every lemma holds for any choice
  of them.
- `script_function.dfy` (module `ScriptFunction`) covers naming, the
  payload-arguments type, the entry-payload type and the builder.
- `module_wrapper.dfy` (module `ModuleWrapper`) covers the per-module Aptos/Sui
  wrapper class.

The `cfg!(feature = ...)` tests become a `Features(address20, address32)`
value. `address20` is checked first, as in the source, so with both features
set the Sui class is emitted.

Points of the code worth knowing when reading the model:

- The entry-payload type lists `arguments` before `type_arguments`
  (script_function.rs:126-129). The builder emits `type_arguments` before
  `arguments` (script_function.rs:200-203).
- The builder serializes each argument from the expression `args.<name>`
  (script_function.rs:191).
- The type-parameter block of the payload-arguments type declares every
  parameter as `string` (script_function.rs:63).
- The module wrapper is empty when the module has no script functions,
  whatever the features are (script_function.rs:245-246).

Generation is a set of total functions, so running it twice on the same input
gives the same text by construction. No lemma is needed for that.

## Model

| member | source | states |
|---|---|---|
| `ScriptFunction.New` | crates/move-ts/src/script_function.rs:82-89 | the type name is computed once as the Pascal case of the script name; module and script are kept unchanged |
| `ScriptFunction.NamingRules` | crates/move-ts/src/script_function.rs:156-162 | `type_name` is PascalCase(name); the args type name is that plus `Args`, so it never equals the entry-payload type name; the full name is the displayed module id, `::`, then the raw name |
| `ScriptFunction.ShouldRenderPayloadStruct` | crates/move-ts/src/script_function.rs:164-166 | true iff the function has at least one argument or at least one type parameter |
| `ScriptFunction.FullName` | crates/move-ts/src/script_function.rs:156-158 | defined by its body; properties in `ScriptFunction.NamingRules` |
| `ScriptFunction.PayloadArgsTypeName` | crates/move-ts/src/script_function.rs:160-162 | defined by its body; properties in `ScriptFunction.NamingRules` |
| `ScriptFunction.DocLink` | crates/move-ts/src/script_function.rs:91-93 | defined by its body; used by `ScriptFunction.GeneratePayloadStruct` and pinned in `ScriptFunction.TransferPayloadStruct` |
| `ScriptFunction.ScriptFnTypeArgs` | crates/move-ts/src/script_function.rs:61-67 | defined by its body; properties in `ScriptFunction.TypeArgLines` |
| `ScriptFunction.TypeArgLines` | crates/move-ts/src/script_function.rs:61-67 | splitting the type-parameter text at newlines gives exactly one `<p>: string;` line per type parameter, in declaration order |
| `ScriptFunction.GenerateArgument` | crates/move-ts/src/script_function.rs:69-79 | an argument declaration fails exactly when its type fails to generate, with that error; otherwise it is the doc comment of the IDL type followed by `name: type;` |
| `ScriptFunction.ArgumentDecls` | crates/move-ts/src/script_function.rs:15-19 | the `args` block's declarations: one per argument, in IDL order, when every type generates; otherwise the error of the first failing argument |
| `ScriptFunction.ArgumentDeclAt` | crates/move-ts/src/script_function.rs:15-19 | in the newline join of the declarations, argument i comes after the declarations of arguments 0..i and before the rest |
| `ScriptFunction.Block` | crates/move-ts/src/script_function.rs:35-38 | a rendered `args`/`typeArgs` block is never empty: it always ends with a newline |
| `ScriptFunction.PayloadStructBody` | crates/move-ts/src/script_function.rs:30-48 | the payload-arguments fields fail iff some argument type fails to generate, and then with the first such error; a function without arguments cannot fail |
| `ScriptFunction.PayloadStructBlocks` | crates/move-ts/src/script_function.rs:32-47 | the `args` block is present iff there are arguments, the `typeArgs` block iff there are type parameters, `args` first; the fields are empty exactly when no payload struct should be rendered |
| `ScriptFunction.GeneratePayloadStruct` | crates/move-ts/src/script_function.rs:27-52 | the payload-arguments type is exported under `<Name>Args`, documented with the entry link, and fails exactly when its fields fail |
| `ScriptFunction.EntryArgumentItems` | crates/move-ts/src/script_function.rs:100-111 | the entry `arguments` entries are `name: type` for each argument, in IDL order, when every type generates; otherwise the first failing argument's error |
| `ScriptFunction.EntryArgument` | crates/move-ts/src/script_function.rs:105-108 | defined by its body; properties in `ScriptFunction.EntryArgumentItems` |
| `ScriptFunction.EntryTypeArguments` | crates/move-ts/src/script_function.rs:112-120 | defined by its body; properties in `ScriptFunction.EntryTypeArgumentsList` |
| `ScriptFunction.EntryPayloadDocs` | crates/move-ts/src/script_function.rs:137-145 | defined by its body; it is the doc text `ScriptFunction.GenerateEntryPayloadStruct` attaches |
| `ScriptFunction.EntryTypeArgumentsList` | crates/move-ts/src/script_function.rs:112-120 | the entry `type_arguments` tuple is `[]` without type parameters; otherwise splitting its inside at `, ` gives `<p>: string` per parameter, in order |
| `ScriptFunction.EntryPayloadFields` | crates/move-ts/src/script_function.rs:124-132 | exactly four readonly fields, named `type`, `function`, `arguments`, `type_arguments` in that order, carrying the full name, the argument tuple and the type-argument tuple |
| `ScriptFunction.GenerateEntryPayloadStruct` | crates/move-ts/src/script_function.rs:99-146 | fails iff some argument type fails to generate, with the first such error; otherwise it exports `<Name>` with the four fields, the argument tuple built from the entries in IDL order |
| `ScriptFunction.BuilderFunctionId` | crates/move-ts/src/script_function.rs:171-175 | defined by its body; pinned in `ScriptFunction.TransferExample` |
| `ScriptFunction.BuilderTypeArguments` | crates/move-ts/src/script_function.rs:176-184 | defined by its body; properties in `ScriptFunction.BuilderTypeArgumentsList` |
| `ScriptFunction.SerializeArgument` | crates/move-ts/src/script_function.rs:190-193 | defined by its body; properties in `ScriptFunction.SerializedArguments` |
| `ScriptFunction.DocComment` | crates/move-ts/src/script_function.rs:205-209 | defined by its body; the doc prefix `ScriptFunction.GenerateBuilder` emits |
| `ScriptFunction.BuilderText` | crates/move-ts/src/script_function.rs:198-204 | defined by its body; the layout `ScriptFunction.GenerateBuilder` states its result in |
| `ScriptFunction.BuilderTypeArgumentsList` | crates/move-ts/src/script_function.rs:176-184 | the builder's `type_arguments` is `[]` without type parameters; otherwise splitting its inside at `, ` gives `typeArgs.<p>` per parameter, in declaration order |
| `ScriptFunction.SerializedArguments` | crates/move-ts/src/script_function.rs:185-196 | the builder's arguments are `serialize_arg("args.<name>", ty)` for each argument, in IDL order; if any fails, the result is the first failure's error |
| `ScriptFunction.BuilderArgumentAt` | crates/move-ts/src/script_function.rs:185-196 | in the joined `arguments` list, argument i's serialization comes after those of arguments 0..i and before the rest |
| `ScriptFunction.ParamNames` | crates/move-ts/src/script_function.rs:214-229 | the destructured names are `args` iff there are arguments, then `typeArgs` iff there are type parameters |
| `ScriptFunction.BuilderParams` | crates/move-ts/src/script_function.rs:211-234 | the builder parameter is empty iff no payload struct should be rendered; otherwise `{ <names> }: mod.<Name>Args` |
| `ScriptFunction.BuilderParamShapes` | crates/move-ts/src/script_function.rs:211-234 | the three non-empty parameter shapes: `{ args }`, `{ typeArgs }` and `{ args, typeArgs }`, each typed `mod.<Name>Args` |
| `ScriptFunction.GenerateBuilder` | crates/move-ts/src/script_function.rs:170-240 | the builder fails iff some argument fails to serialize, with the first such error and no text; otherwise it is the builder text over the doc, params, `payloads.<Name>`, the short-form function id, the type arguments and the serialized arguments |
| `ScriptFunction.DegenerateFunction` | crates/move-ts/src/script_function.rs:164-240 | with neither arguments nor type parameters, nothing is rendered for the payload struct, the builder takes no parameter, passes `[]` twice and cannot fail |
| `ScriptFunction.TransferExample` | crates/move-ts/src/script_function.rs:170-240 | `transfer(to, amount)` in `0x1::coin` gets a `{ args }: mod.TransferArgs` parameter, function id `0x1::coin::transfer`, `type_arguments: []`, and `to` then `amount` serialized |
| `ScriptFunction.TransferPayloadStruct` | crates/move-ts/src/script_function.rs:27-52 | the payload-arguments type of `transfer(to, amount)` is exported as `TransferArgs`, documented with `{@link entry.transfer}`, and holds the `args` block of the two declarations and no `typeArgs` block |
| `ScriptFunction.SwapExample` | crates/move-ts/src/script_function.rs:176-229 | `swap<T>(amount)` gets `{ args, typeArgs }: mod.SwapArgs`, a `T: string;` type block, builder type arguments `[typeArgs.T]` and entry type arguments `[T: string]` |
| `ModuleWrapper.GenerateModuleWrapper` | crates/move-ts/src/script_function.rs:244-369 | never fails; an empty function list gives `""`; `address20` gives the Sui class alone, else `address32` the Aptos class alone, else `""` |
| `ModuleWrapper.ModuleName` | crates/move-ts/src/script_function.rs:248-254 | defined by its body: the upper-camel module name of the first function |
| `ModuleWrapper.AptosMethod` | crates/move-ts/src/script_function.rs:303-311 | defined by its body; properties in `ModuleWrapper.WrapperMethodShape` |
| `ModuleWrapper.SuiMethod` | crates/move-ts/src/script_function.rs:336-355 | defined by its body; properties in `ModuleWrapper.WrapperMethodShape` |
| `ModuleWrapper.AptosModule` | crates/move-ts/src/script_function.rs:257-315 | defined by its body; properties in `ModuleWrapper.AptosOpening` and `ModuleWrapper.AptosMethodsInOrder` |
| `ModuleWrapper.SuiModule` | crates/move-ts/src/script_function.rs:317-358 | defined by its body; properties in `ModuleWrapper.SuiOpening` and `ModuleWrapper.SuiMethodsInOrder` |
| `ModuleWrapper.AptosOpening` | crates/move-ts/src/script_function.rs:257-298 | a non-empty Aptos wrapper opens with the `TransactionPayload` prelude, and so with its tag |
| `ModuleWrapper.SuiOpening` | crates/move-ts/src/script_function.rs:317-331 | a non-empty Sui wrapper opens with the `SuiCallOverrides` prelude, and so with its tag |
| `ModuleWrapper.EnvironmentExclusive` | crates/move-ts/src/script_function.rs:361-367 | for a non-empty module, the Sui output opens with the Sui prelude and the Aptos output with the Aptos prelude; the two outputs differ and neither is empty |
| `ModuleWrapper.AptosMethods` | crates/move-ts/src/script_function.rs:299-314 | one Aptos method per script function, method i being that of function i |
| `ModuleWrapper.AptosMethodsInOrder` | crates/move-ts/src/script_function.rs:299-314 | in the Aptos class, method i follows the methods of functions 0..i and precedes the rest |
| `ModuleWrapper.SuiMethods` | crates/move-ts/src/script_function.rs:332-358 | one Sui method per script function, method i being that of function i |
| `ModuleWrapper.SuiMethodsInOrder` | crates/move-ts/src/script_function.rs:332-358 | in the Sui class, method i follows the methods of functions 0..i and precedes the rest |
| `ModuleWrapper.WrapperMethodShape` | crates/move-ts/src/script_function.rs:303-339 | each method is named by the lower-camel script name, takes `mod.<Name>Args` and calls the builder by its raw name |
| `ModuleWrapper.WrapperPassesArgsToParameterlessBuilder` | crates/move-ts/src/script_function.rs:303-339 | with neither arguments nor type parameters the builder takes no parameter, yet both wrapper methods declare `args: mod.<Name>Args` and call the builder with `args` |
| `Results.Collect` | crates/move-ts/src/script_function.rs:105-109 | `collect::<Result<Vec<_>>>`: Ok iff every element succeeds, with the values in order; otherwise the error of the first failing element |
| `Results.Somes` | crates/move-ts/src/script_function.rs:226-228 | `flatten` keeps exactly the present values |
| `Results.SomesAppend` | crates/move-ts/src/script_function.rs:226-228 | `flatten` preserves order: it distributes over concatenation |
| `Text.Wrap` | crates/move-ts/src/script_function.rs:62-64 | each element decorated with the same prefix and suffix, in order |
| `Text.Join` | crates/move-ts/src/script_function.rs:62-65 | defined by its body; properties in `Text.JoinAppend`, `Text.JoinAt` and `Text.SplitJoin` |
| `Text.JoinAppend` | crates/move-ts/src/script_function.rs:62-65 | joining two non-empty lists puts one separator between their joins |
| `Text.JoinAt` | crates/move-ts/src/script_function.rs:62-65 | order and membership: element i sits between the join of the elements before it and the join of those after it |
| `Text.SplitJoin` | crates/move-ts/src/script_function.rs:62-65 | round trip: splitting a non-empty join at its separator gives back the list when no element contains the separator's first character |

## Left out

- `generate_idl_type_with_type_args`, `serialize_arg` and `IDLType::generate_typescript` live in `idl_type`, which is not part of this model. They are uninterpreted fields of `Env` that may fail. Their per-variant rules, such as u64 rendered as a string, are not modelled. The first two are not assumed to agree with the third.
- The `heck` case conversions, `format::indent`, `CodeText::indent`, `gen_doc_string`, `CodeText::new_fields_export`, `.docs` and `.append_newline` are defined outside this file. They are uninterpreted string functions, so layout inside them is not modelled.
- The `Display` and `short_str_lossless` renderings of a module id are two separate uninterpreted functions and are not assumed equal. `name()` is the module id's name field.
- `CodegenContext::try_join_with_separator` is not part of this model. It is taken to generate every argument, stop at the first error, and join with the separator. `CodeText::try_join_with_separator` over `CodeText::new` values is taken to be a join that cannot fail.
- `payload()`, `doc()` and `name()` only wrap or read the record. The model reads the fields directly. `doc_link` is `DocLink`.
- What the emitted TypeScript does at run time is not modelled. That covers Aptos transaction generation, signing and submission, Sui `executeMoveCall`, and the default gas budget of 1000. Only the text that names them is modelled.
- Rust borrowing and lifetimes (`'info`) have no counterpart. All records are immutable values.
- `ScriptFunction.TypeArgLines`: stated only for type-parameter names without a newline, because a name containing one would itself be split. Move identifiers contain none.
- `ScriptFunction.EntryTypeArgumentsList`: stated only for type-parameter names without a comma, for the same reason.
- `ScriptFunction.BuilderTypeArgumentsList`: stated only for type-parameter names without a comma, for the same reason.
- `ModuleWrapper.EnvironmentExclusive`: states that the two shapes differ and open with their own prelude. It does not state that no text of one shape appears in the other. Module and function names come from uninterpreted collaborators and could contain that text.
- The wrapper methods always declare `args: mod.<Name>Args` and call `<name>(args)`, even when the builder takes no parameter (`ModuleWrapper.WrapperPassesArgsToParameterlessBuilder`). Whether `<Name>Args` is emitted at all in that case is decided by the caller that assembles the generated files, which is not part of this model.
