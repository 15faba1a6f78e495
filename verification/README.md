# Quint-to-Rust transpiler and generated IBC-transfer contract, in Dafny

This project models the core of a Quint-to-Rust pipeline and of the Rust
contract it targets. It has three parts.

- **Resolution** (`parser/main.go`). The Quint intermediate representation
  (IR) arrives as JSON. `resolveType` turns an IR type descriptor into a
  typed AST type. `resolveDef` turns a `pureval` or `puredef` definition
  into a declaration. `main` walks the modules, skips the `_stdlib` and
  `_test` ones, collects each module's `typedef`s, reports unknown
  declaration kinds and definition qualifiers, and dumps the collected
  declarations per module. Every
  Go panic (a failed type assertion, an unknown type kind, an index out of
  range) is an explicit `Failure`. A panic ends the run, but the output
  already written (earlier messages and dumps) is kept in the model.
- **Rust emission**. There are two emitters.
  - The current one, `PrettyPrint(level)` in `parser/rust_printing.go`,
    prints the typed AST with four-space indentation levels.
  - The older one, `rust-go/rust.go`, has its own AST. In it, types of
    fields and parameters are ready-made text, and nothing takes a level.
  - Both are modelled as text-producing functions. The lemmas state the
    layout of the output:
    - line by line for structs, functions and struct literals;
    - declarations in order;
    - level-independence of types;
    - the `mut ` marker;
    - that literals can be read back.
- **Contract logic** (`rust/src/contract/`, plus the older `rust/src/`).
  - `quint_stdlib.rs` provides the set and map helpers generated code calls.
  - The IBC-transfer contract is a three-operation state machine over
    `ContractStorage`: instantiate, send, and reply.
  - The invariant "no pending id is above the counter" is proved to hold
    for every operation and for any sequence of calls.
  - The older contract is proved to agree with the newer one wherever the
    older one is defined.

Modules and their files:

- `Wrappers`: `Option` and `Result`.
- `Strings`: text helpers. These cover `strings.Join`, `strings.Repeat`,
  `strings.HasSuffix`, `%d`, and the quote escaping `strings.ReplaceAll`
  does.
- `Json`: the decoded JSON value.
- `Ast`: the typed AST of `parser/ast.go`, together with the printer-only
  variants.
- `Resolver`: `resolveType`, `resolveDef` and `resolveExpr`.
- `Pipeline`: the module and declaration loops of `main`.
- `RustPrinting`: the current emitter.
- `RustGo`: the older emitter.
- `QuintStdlib`: the Quint helpers.
- `ContractTypes`: the records of both contract versions.
- `IbcTransfer`: the newer contract.
- `LegacyIbcTransfer`: the older contract.

## Model

| member | source | states |
|---|---|---|
| Resolver.GetString | parser/main.go:15 | a string field lookup succeeds exactly when the key holds a JSON string; otherwise it is the type-assertion panic on that key |
| Resolver.GetObject | parser/main.go:32 | an object field lookup succeeds exactly when the key holds an object; otherwise it is the type-assertion panic on that key |
| Resolver.GetArray | parser/main.go:174 | an array field lookup succeeds exactly when the key holds an array; otherwise it is the type-assertion panic on that key |
| Resolver.ResolveLeafKinds | parser/main.go:25-44 | `str`, `int` and `bool` resolve to `StrType`, `UInt64Type` and `BoolType` |
| Resolver.ResolveConst | parser/main.go:27-30 | `const` resolves to a non-mutable reference to `name` when `name` is a string, and fails otherwise |
| Resolver.ResolveMissingKind | parser/main.go:15 | a descriptor without a string `kind` panics on `kind` |
| Resolver.ResolveUnknownKind | parser/main.go:54-55 | every kind outside the nine known ones panics with that kind |
| Resolver.ResolveCollection | parser/main.go:31-38 | `list` and `set` wrap the resolved `elem` and fail exactly when `elem` is missing or fails to resolve |
| Resolver.ResolveFun | parser/main.go:39-42 | `fun` resolves `arg` and `res` into argument and return types and fails exactly when either does |
| Resolver.ResolveRecord | parser/main.go:16-24 | `rec` yields one field per IR entry, in order: the name is copied and the type is resolved from `fieldType` |
| Resolver.ResolveTuple | parser/main.go:45-53 | `tup` yields one type per IR entry, in order, each resolved from `fieldType` |
| Resolver.RecordFieldsMatch | parser/main.go:19-23 | the record loop's i-th field comes from the i-th entry |
| Resolver.TupleFieldsMatch | parser/main.go:48-52 | the tuple loop's i-th type comes from the i-th entry |
| Resolver.ResolvedIsIr | parser/main.go:13-57 | every resolved type lies in the image of the IR grammar, and its variant matches the descriptor's `kind` |
| Resolver.ResolveEncode | parser/main.go:13-57 | round trip: resolving the IR descriptor built for any type in that image gives the type back |
| Resolver.ResolveEncodeFields | parser/main.go:19-23 | round trip for the record loop |
| Resolver.ResolveEncodeElements | parser/main.go:48-52 | round trip for the tuple loop |
| Resolver.ResolveExprIsEmptyBlock | parser/main.go:113-115 | `resolveExpr` ignores its input and yields an empty block |
| Resolver.ParamNames | parser/main.go:81-85 | the names loop succeeds exactly when every entry has a string `name`, and then yields those names in order |
| Resolver.ResolveTypes | parser/main.go:88-90 | the argument-type loop succeeds exactly when every entry is an object that resolves, and then yields those types in order |
| Resolver.ZipParams | parser/main.go:97-101 | the parameter loop succeeds exactly when there are at least as many types as names; it then builds one non-mutable parameter per name, paired with the type at the same index, and otherwise panics on an index out of range |
| Resolver.ResolveDefOtherQualifier | parser/main.go:107-110 | a qualifier other than `pureval` and `puredef` resolves to no declaration |
| Resolver.ResolveDefPureval | parser/main.go:62-65 | a `pureval` becomes an untyped constant with the definition's name and an empty block; it fails exactly when `name` or `expr` is malformed |
| Resolver.ResolveDefPuredef | parser/main.go:66-106 | a `puredef` resolves to the function its branch builds, or fails with that branch's panic |
| Resolver.PuredefWithoutParams | parser/main.go:72-78 | without `expr.params`, the function has no parameters, its return type is the whole `typeAnnotation`, and its body is empty |
| Resolver.SignatureWithParams | parser/main.go:79-94 | with `expr.params`, the names come from `expr.params`, the types from `typeAnnotation.args`, and the return type from `typeAnnotation.res` |
| Resolver.PuredefWithParams | parser/main.go:79-106 | with `expr.params`, there is one non-mutable parameter per name, in order, typed by the argument at the same index; this needs at least as many argument types as names |
| Resolver.ZippedParams | parser/main.go:97-101 | every built parameter resolves from the IR entries at its index |
| Resolver.PuredefTooFewTypes | parser/main.go:98-100 | with fewer argument types than names, resolution panics with an index out of range |
| Pipeline.ResolveDeclaration | parser/main.go:174-189 | one turn of the declaration loop: a non-object entry or a missing kind panics; a type definition is collected exactly when the kind is `typedef`; an unknown kind is reported under that kind; the line printed is the entry's reference message |
| Pipeline.DeclarationTypedef | parser/main.go:177-181 | a `typedef` is collected under its name with its resolved type, and fails exactly when one of them fails |
| Pipeline.DeclarationDef | parser/main.go:185-186 | a `def` is resolved only for its panics and its message: its result is dropped, and exactly a qualifier other than `pureval` and `puredef` prints `qualifier not supported` with that qualifier |
| Pipeline.DeclarationOther | parser/main.go:183-188 | `import` is ignored and an unknown kind is reported; neither panics |
| Pipeline.RunSteps | parser/main.go:171-190 | the loop collects at most one declaration per entry, and only type declarations |
| Pipeline.DeclarationsSucceed | parser/main.go:174-190 | the loop finishes without a panic exactly when every entry resolves |
| Pipeline.DeclarationsCollectTypedefs | parser/main.go:174-190 | a finished loop collects one declaration per `typedef` entry, in order, each resolved from its entry, and prints exactly the reference messages of the entries (unknown kinds and unresolved qualifiers), in order |
| Pipeline.DeclarationsFailAtFirst | parser/main.go:174-190 | a panic is the first failing entry's, after the messages of the entries before it |
| Pipeline.DeclarationsAppend | parser/main.go:174-190 | looping over `a + b` when `a` finishes is looping over `a`, then over `b` |
| Pipeline.ResolveModule | parser/main.go:164-193 | a module that does not panic ends with the dump of its declarations (or prints nothing), and every dump holds only type declarations |
| Pipeline.SkippedModuleSilent | parser/main.go:165-169 | a module named `…_stdlib` or `…_test` prints nothing and never panics |
| Pipeline.ResolvedModuleDump | parser/main.go:170-192 | any other module prints its entries' messages in order, then dumps its type declarations; with a panic, only the messages printed before it |
| Pipeline.UnresolvedQualifierPrinted | parser/main.go:107-108 | a module whose only declaration is a `def` with qualifier `val` prints the qualifier line, then an empty dump |
| Pipeline.ModulesAppend | parser/main.go:164-193 | running modules `a + b` when `a` finishes is running `a`, then `b` |
| Pipeline.ModulesDumpOnlyTypes | parser/main.go:164-193 | everything dumped is a type declaration |
| Pipeline.ResolveDocument | parser/main.go:164 | a document whose `modules` is not an array panics before printing anything; otherwise the module loop runs over it |
| RustPrinting.TypeLevelFree | parser/rust_printing.go:8-80 | every type prints the same at every indentation level |
| RustPrinting.RefTypeMutable | parser/rust_printing.go:74-80 | a mutable reference prints as the shared one with `mut ` after the `&` |
| RustPrinting.ParamMutable | parser/rust_printing.go:168-174 | a mutable parameter prints as the immutable one preceded by `mut ` |
| RustPrinting.StructDeclLines | parser/rust_printing.go:102-122 | a struct is its header, then one `    pub name: type,` line per field in order, then `}` |
| RustPrinting.FunctionDeclLines | parser/rust_printing.go:135-162 | a function is its signature line with comma-separated parameters, then one line per body statement printed one level deeper, in order, then `}` |
| RustPrinting.ProgramDeclsInOrder | parser/rust_printing.go:86-100 | a declaration added to a program prints after all earlier ones, followed by an empty line |
| RustPrinting.StmtIndented | parser/rust_printing.go:176-189 | a statement at level L starts with 4·L spaces, followed by `let ` for a let and by one more space for a return |
| RustPrinting.StructConsLines | parser/rust_printing.go:208-230 | a struct literal at level L is its header, then one field line per value printed at level L+1 and ending in a comma, then `}` indented to L |
| RustPrinting.UInt64LiteralDigits | parser/rust_printing.go:322-324 | an integer literal is decimal digits followed by `_u64`, and the digits read back as the value |
| RustPrinting.StringLiteralRoundTrip | parser/rust_printing.go:326-329 | a string literal is quoted and followed by `.to_string()`, and undoing the quote escaping of its body recovers the value |
| RustGo.StructDeclLines | rust-go/rust.go:142-169 | a struct is its header, then one `    name: type,` line per field in order, then `}` |
| RustGo.FunctionDeclLines | rust-go/rust.go:180-206 | a function is its signature line, then one line per body statement indented by four spaces, in order, then `}` |
| RustGo.ProgramStructsBeforeFunctions | rust-go/rust.go:110-129 | a struct added to a program prints after every earlier struct and before every function |
| RustGo.ParamMutable | rust-go/rust.go:216-222 | a mutable parameter prints as the immutable one preceded by `mut ` |
| RustGo.UInt64LiteralDigits | rust-go/rust.go:491-493 | an integer literal is decimal digits followed by `_u64`, and the digits read back as the value |
| RustGo.StringLiteralRoundTrip | rust-go/rust.go:501-503 | a string literal is quoted, and undoing the quote escaping of its body recovers the value |
| QuintStdlib.RequiresAgreesWithRequire | rust/src/contract/quint_stdlib.rs:3-24 | with a non-empty message, `requires(c, e)` is empty exactly when `require(c)` holds, and is `e` when it fails |
| QuintStdlib.Max | rust/src/contract/quint_stdlib.rs:37-43 | `max` is at least both arguments and equal to one of them |
| QuintStdlib.Abs | rust/src/contract/quint_stdlib.rs:59-61 | `abs` is non-negative and equal to the argument or its negation; it requires the argument to differ from `i32::MIN` |
| QuintStdlib.SetRemove | rust/src/contract/quint_stdlib.rs:78-85 | the result lacks the element, lies within the input, and differs from it at most by that element |
| QuintStdlib.SetRemoveAbsent | rust/src/contract/quint_stdlib.rs:78-102 | removing an absent element gives an equal set |
| QuintStdlib.HasAfterMapRemove | rust/src/contract/quint_stdlib.rs:107-160 | after `mapRemove(m, k)`, `has` holds for exactly the keys of `m` other than `k` |
| QuintStdlib.GetOrElseDefaultUnused | rust/src/contract/quint_stdlib.rs:107-136 | `getOrElse` answers the same for two different defaults exactly when `has` holds, and answers the default when it fails |
| QuintStdlib.GetOrElseWithout | rust/src/contract/quint_stdlib.rs:126-193 | after `mapRemoveAll(m, keys)`, `getOrElse` gives the default on the removed keys and the old answer on every other key |
| QuintStdlib.MapRemove | rust/src/contract/quint_stdlib.rs:153-160 | the result's keys are the input's minus the key, and every surviving key keeps its value |
| QuintStdlib.MapRemoveAll | rust/src/contract/quint_stdlib.rs:184-193 | removing the keys one by one, in any order, leaves the input's keys minus the removed ones, with unchanged values |
| QuintStdlib.WithoutAbsentKeys | rust/src/contract/quint_stdlib.rs:184-219 | keys absent from the map have no effect on `mapRemoveAll` |
| QuintStdlib.MapRemoveIsWithoutOne | rust/src/contract/quint_stdlib.rs:153-193 | `mapRemove` is `mapRemoveAll` with a single key |
| QuintStdlib.RequireExamples | rust/src/contract/quint_stdlib.rs:12-33 | the unit tests of `require` and `requires` hold of the model |
| QuintStdlib.MaxExamples | rust/src/contract/quint_stdlib.rs:50-55 | the unit tests of `max` hold of the model |
| QuintStdlib.AbsExamples | rust/src/contract/quint_stdlib.rs:68-71 | the unit tests of `abs` hold of the model |
| QuintStdlib.SetRemoveExamples | rust/src/contract/quint_stdlib.rs:92-102 | the unit tests of `setRemove` hold of the model |
| QuintStdlib.HasExamples | rust/src/contract/quint_stdlib.rs:116-121 | the unit tests of `has` hold of the model |
| QuintStdlib.GetOrElseExamples | rust/src/contract/quint_stdlib.rs:143-148 | the unit tests of `getOrElse` hold of the model |
| QuintStdlib.MapRemoveExamples | rust/src/contract/quint_stdlib.rs:169-177 | the unit test of `mapRemove` holds of the model |
| QuintStdlib.MapRemoveAllExamples | rust/src/contract/quint_stdlib.rs:202-219 | the unit tests of `mapRemoveAll` hold of the model |
| IbcTransfer.InstantiateHelper | rust/src/contract/ibc_transfer.rs:39-64 | instantiation answers `Ok("instantiated")`, sets the version to `("ibc_transfer", "0.1.0")`, and leaves the queue, the counter and the acknowledged senders unchanged |
| IbcTransfer.InstantiateIdempotent | rust/src/contract/ibc_transfer.rs:59-62 | instantiating twice leaves the storage as instantiating once does |
| IbcTransfer.ExecuteSendHelper | rust/src/contract/ibc_transfer.rs:66-100 | a send increments the counter, maps the new id to the sender, and leaves the version and the acknowledged senders unchanged; it answers with exactly one submessage carrying that id, `reply_on` `always`, port `transfer`, the message's channel, recipient, coin and timeout height, timestamp 0, an empty memo and the minimum fee; it requires the `i64` counter not to overflow |
| IbcTransfer.ReplyHelper | rust/src/contract/ibc_transfer.rs:102-124 | a reply to an unknown id is the unknown-transfer error with the storage unchanged; a reply to a known id removes that id (the other entries keep their values), adds its sender to the acknowledged ones, keeps the counter and the version, and answers `Ok` |
| IbcTransfer.InstantiateKeepsKeysIssued | rust/src/contract/ibc_transfer.rs:59-62 | instantiation keeps every pending id at or below the counter |
| IbcTransfer.SendKeepsKeysIssued | rust/src/contract/ibc_transfer.rs:89-91 | a send keeps every pending id at or below the counter |
| IbcTransfer.ReplyKeepsKeysIssued | rust/src/contract/ibc_transfer.rs:115 | a reply keeps every pending id at or below the counter |
| IbcTransfer.SendIdFresh | rust/src/contract/ibc_transfer.rs:89-91 | under that invariant, a send's id is not pending yet, so the queue grows by exactly that id and nothing is overwritten |
| IbcTransfer.SendThenReply | rust/src/contract/ibc_transfer.rs:89-122 | replying to a fresh send restores the queue and records the sender |
| IbcTransfer.ReplyTwiceFails | rust/src/contract/ibc_transfer.rs:107-116 | a second reply with the same id is the unknown-transfer error and changes nothing |
| IbcTransfer.Step | rust/src/contract/ibc_transfer.rs:51-124 | one call panics only when it is a send at the largest `i64` id |
| IbcTransfer.StepKeepsKeysIssued | rust/src/contract/ibc_transfer.rs:51-124 | every call that does not panic keeps every pending id at or below the counter |
| IbcTransfer.RunKeepsKeysIssued | rust/src/contract/ibc_transfer.rs:51-124 | every sequence of calls that does not panic keeps that invariant |
| IbcTransfer.ReachableKeysIssued | rust/src/contract/ibc_transfer.rs:11-124 | from the default storage, every sequence of calls that does not panic ends with every pending id at or below the counter |
| LegacyIbcTransfer.Instantiate | rust/src/ibc_transfer.rs:13-29 | instantiation answers `Ok("instantiated")`, sets the version, and leaves the other fields unchanged |
| LegacyIbcTransfer.ExecuteSend | rust/src/ibc_transfer.rs:31-65 | a send increments the counter and maps the new id to the sender; it answers with one submessage that has the new id, `reply_on` `always`, and the transfer message built from the send message; it requires the `i32` counter not to overflow |
| LegacyIbcTransfer.Reply | rust/src/ibc_transfer.rs:67-80 | a reply requires a pending id (the lookup is unwrapped); it removes that id, keeps the other entries, adds the sender to the acknowledged ones, keeps the counter, and answers `Ok` |
| LegacyIbcTransfer.InstantiateAgrees | rust/src/ibc_transfer.rs:16-29 | the older instantiation is the newer one |
| LegacyIbcTransfer.ExecuteSendAgrees | rust/src/ibc_transfer.rs:31-65 | wherever the `i32` counter does not overflow, the older send is the newer one |
| LegacyIbcTransfer.ReplyAgrees | rust/src/ibc_transfer.rs:67-80 | on a pending id, the older reply is the newer one |
| LegacyIbcTransfer.OperationsKeepKeysIssued | rust/src/ibc_transfer.rs:54-74 | the older operations keep every pending id at or below the counter |

## Left out

- `main`'s I/O is not modelled: reading the file named on the command
  line, `json.Unmarshal`, and the output of `fmt.Println` and `spew.Dump`.
  The input is an already-decoded `Json` value. The output is a sequence of
  events: the unknown-kind and unresolved-qualifier lines, and one dump per
  module.
- The preprocessing of `data["types"]` into `namedTypeMap`
  (parser/main.go:139-156) is not modelled. The map is never read
  afterwards. Its only effects come before any module is processed: a panic
  on a malformed type table and, for an entry whose key is not a number,
  the line `Error parsing type id for entry <key>` printed just before that
  panic.
- Pipeline.ResolveDocument: it therefore states nothing about a malformed
  `types` table.
- Numbers in the IR are not modelled. The resolver never reads a number,
  so JSON numbers carry a `real`, and integer widths of the IR do not
  appear.
- Go maps are modelled as association lists where the first key wins. The
  decoder's behaviour on duplicate keys is not modelled.
- RustPrinting: there is no printer rule for the resolver's `StringType`,
  `FunType` and named `TypeRef`, nor for a constant without a type, so the
  Go code would call a method on a nil interface. Every printer therefore
  requires the `Printable…` predicates instead of modelling that crash.
- RustPrinting.StringLiteralRoundTrip, RustGo.StringLiteralRoundTrip: the
  emitters escape only `"` and not `\`, so the round trip is stated
  against the matching unescaping. A value containing a backslash before a
  quote does not print as a Rust literal that denotes the same string.
- The current emitter's `Todo` rule and the bodies of the older emitter's
  expression printers are modelled, but only the lemmas above state
  properties of them.
- The `From` conversions into `cosmwasm_std` and `neutron_sdk` types are
  not modelled: they wrap libraries outside the repository.
  `set_contract_version` (which calls `rand::random`) and the entry points
  and storage (de)serialisation of `rust/src/lib.rs` are not modelled
  either.
- `get_min_fee` is the constant `MinFee`.
- `addresses()`, `tokens()` and `contractAddress()` are not modelled. No
  operation of the contract reads them.
- `Addr` is an opaque string.
- Fixed-width integers are modelled as preconditions, with no wrap-around:
  - the `i64` and `i32` counter increments, via ExecuteSendHelper and
    ExecuteSend;
  - `i32::abs`, via Abs.
- Amounts are unbounded naturals. The newer contract copies a `Uint128`
  amount into an `i64` coin field and an `i64` id into a `u64` submessage
  id; these conversions are not modelled.
- IbcTransfer.Step: a panic (the counter overflow) is modelled as the call
  leaving nothing behind. What the chain does with a panicking transaction
  is outside the repository.
- Hash iteration order is not modelled: `mapRemoveAll`'s loop is proved
  correct for every order of removal.
