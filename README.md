# A verified model of the FCE host core

FCE is a multi-module WebAssembly engine. It loads several guest Wasm modules, exposes the functions they export, and calls them with rich arguments. This project models three pieces of its host side in Dafny and proves their properties:

- **The guest-memory protocol** of a module wrapper (`FCEModule` and its older twin `FrankModule`). To run a guest, the host:
  1. asks the guest's `allocate` export for room and copies the argument bytes into its linear memory;
  2. calls the guest's `invoke` export;
  3. reads the result the guest left at the returned address, as a 4-byte little-endian size followed by that many bytes;
  4. releases the result with `deallocate`.

  Each wrapper is a class. Its fields are the linear memory (a `seq<bv8>`) and a ghost log of the calls made into the guest. The guest's exports are foreign code, given as pure functions from memory and arguments to a result and a new memory. The loops that write and read memory are methods with loop invariants. The step sequence of `invoke` is proved against the specification function `GuestProtocol.Invoke`, and the properties of the protocol are lemmas about that function.
- **The adapter-instruction generator** (`generate_wit` and the per-type instruction tables) and the table of the six helper functions every module exports (`allocate`, `deallocate`, and the result pointer and size getters and setters). The instruction tables are pure functions. `generate_wit` is a method of a class holding the four growing sections: types, exports, adapters and implementations.
- **The FaaS facade** (`FluenceFaaS`). It loads the modules a config names, caches module interfaces as it looks functions up, and replaces the call parameters before forwarding a call to the engine. The engine (`FCE`) is a value holding the interface of each loaded module. Loading a module and calling a function are engine operations passed in as function parameters.

Files:

- `wrappers.dfy` holds `Option` and `Result`.
- `little_endian.dfy` holds Rust's `i32`, `u32` and `usize` casts, and the little-endian size header.
- `guest_protocol.dfy` holds the protocol as functions, with its lemmas.
- `fce_module.dfy` and `frank_module.dfy` hold the two wrappers.
- `interface_types.dfy` and `default_export_api_config.dfy` hold the interface-type vocabulary and the helper table.
- `fn_instructions.dfy` holds the generator.
- `faas.dfy` holds the facade.

Rust panics are modelled as an explicit error value that ends the operation. These are an out-of-range slice in `write_to_mem` or `read_result_from_mem`, an `expect` on a failed call in `FrankModule`'s `ModuleABI`, and the `unimplemented!()` arm for a type the generator does not support. Integer casts are written out: `len as i32`, `address as usize` (sign extension on a 64-bit host) and `len as u32`.

## Model

| member | source | states |
|---|---|---|
| MachineInts.WrapI32 | src/vm/module/fce_module.rs:162 | `len as i32` agrees with `len` modulo 2^32 and is `len` itself below 2^31 |
| MachineInts.ToUsize | src/vm/module/fce_module.rs:167 | `i32 as usize` is the value itself when it is not negative and the value plus 2^64 otherwise, so it is below 2^64 and congruent to the value |
| MachineInts.AsU32 | crates/wit-generator/src/instructions_generator/fn_instructions.rs:52-53 | `usize as u32` keeps the value modulo 2^32 and is exact below 2^32 |
| LittleEndian.Pow256 | src/vm/module/fce_module.rs:148 | the byte weight 256^k is positive |
| LittleEndian.Encode32 | src/vm/module/fce_module.rs:145-149 | the little-endian header of a size below 2^32 is four bytes long |
| LittleEndian.DecodeBound | src/vm/module/fce_module.rs:145-149 | a decoded k-byte header is below 256^k |
| LittleEndian.Decode4 | src/vm/module/fce_module.rs:145-149 | a 4-byte header decodes to b0 + 256·b1 + 65536·b2 + 16777216·b3 |
| LittleEndian.DecodeEncode32 | src/vm/module/fce_module.rs:145-149 | decoding the encoding of a size below 2^32 gives the size back |
| LittleEndian.EncodeDecode32 | src/vm/module/fce_module.rs:145-149 | encoding the decoded value of four bytes gives the bytes back |
| LittleEndian.OrPrefixIsDecode | src/vm/module/fce_module.rs:147-148 | or-ing `byte << (8 * byte_id)` over the four header bytes yields the little-endian value of the header |
| LittleEndian.OrOfBytes | src/vm/module/fce_module.rs:148 | the shifted bytes do not overlap, so their bitwise or is their weighted sum |
| GuestProtocol.ReadLengthPrefixed | src/vm/module/fce_module.rs:142-157 | if the header at `a` encodes the length of `p` and `p` follows it, reading at `a` returns exactly `p` |
| GuestProtocol.WriteThenRead | src/vm/module/fce_module.rs:128-157 | writing header-then-payload at `a` and reading at `a` returns the payload |
| GuestProtocol.ReadResultLength | src/vm/module/fce_module.rs:151-156 | a successful read returns as many bytes as the header says, which is below 2^32 |
| GuestProtocol.InvokeEmptyArgument | src/vm/module/fce_module.rs:162-174 | an empty argument is never allocated: the first guest call is `invoke(0, 0)` on the untouched memory, and `allocate` is never called |
| GuestProtocol.InvokeWritesArgument | src/vm/module/fce_module.rs:162-174 | an argument whose `len as i32` is not zero is allocated with that wrapped length, which is the length itself below 2^31 bytes and negative when the low 32 bits of the length reach 2^31; when the slice is in range, the guest's `invoke` receives the allocated address and the wrapped length, and sees the argument copied there |
| GuestProtocol.InvokeDropsWrappedArgument | src/vm/module/fce_module.rs:162-171 | a non-empty argument whose length is a multiple of 2^32 wraps to a zero `len as i32`: it is never allocated nor written, and the guest's `invoke` receives (0, 0) on the untouched memory |
| GuestProtocol.InvokeReleasesResult | src/vm/module/fce_module.rs:174-178 | a successful invoke returns the payload read at the address the guest returned, then deallocates that address with the payload length, which excludes the header |
| GuestProtocol.Invoke | src/vm/module/fce_module.rs:161-179 | the protocol itself: at most three guest calls (allocate, invoke, deallocate); a success makes exactly the invoke and deallocate calls, plus the allocate call when the wrapped argument length is not zero |
| GuestProtocol.InvokeStopsAtFirstError | src/vm/module/fce_module.rs:166-176 | every guest call before the last succeeded; a `CallError` comes from exactly the last call failing and carries the trap that call answered; a panic or a success follows a successful last call; the final memory is the one the last guest call left, so no step runs after it |
| FceModules.FceModule.WriteToMem | src/vm/module/fce_module.rs:128-139 | it succeeds iff `value` fits in memory at `address`; on success it writes `value` at `address` and leaves every other cell and the length unchanged; out of range it panics with memory unchanged |
| FceModules.FceModule.ReadResultSize | src/vm/module/fce_module.rs:145-149 | the accumulated `result_size` is the little-endian value of the 4 header bytes |
| FceModules.FceModule.ReadResultFromMem | src/vm/module/fce_module.rs:142-157 | it succeeds iff the header and the announced payload are in range; it then returns exactly the payload after the header; it panics otherwise |
| FceModules.FceModule.Allocate | src/vm/module/fce_module.rs:201-203 | forwards to the guest's `allocate`: the memory becomes the guest's, a runtime error becomes `CallError`, and the call is logged |
| FceModules.FceModule.Deallocate | src/vm/module/fce_module.rs:205-207 | forwards to the guest's `deallocate` in the same way |
| FceModules.FceModule.AbiInvoke | src/vm/module/fce_module.rs:209-211 | forwards to the guest's `invoke` in the same way |
| FceModules.FceModule.Store | src/vm/module/fce_module.rs:213-215 | forwards to the guest's `store` in the same way |
| FceModules.FceModule.Load | src/vm/module/fce_module.rs:217-219 | forwards to the guest's `load` in the same way |
| FceModules.FceModule.Invoke | src/vm/module/fce_module.rs:161-179 | the result, final memory and guest calls are those of the protocol `GuestProtocol.Invoke`, whose lemmas are above |
| FrankModules.FrankModule.WriteToMem | src/vm/module/frank_module.rs:99-110 | as `FCEModule`'s: the in-range write sets exactly the cells of `value`; out of range it panics |
| FrankModules.FrankModule.ReadResultSize | src/vm/module/frank_module.rs:116-120 | the accumulated size is the little-endian value of the header |
| FrankModules.FrankModule.ReadResultFromMem | src/vm/module/frank_module.rs:113-128 | returns exactly the announced payload after the header when in range; panics otherwise; memory is unchanged |
| FrankModules.FrankModule.CallAllocate | src/vm/module/frank_module.rs:174 | the raw call of the guest's `allocate` as `invoke` makes it: a runtime error is returned |
| FrankModules.FrankModule.CallDeallocate | src/vm/module/frank_module.rs:189-192 | the raw call of the guest's `deallocate`: a runtime error is returned |
| FrankModules.FrankModule.CallInvoke | src/vm/module/frank_module.rs:182-186 | the raw call of the guest's `invoke`: a runtime error is returned |
| FrankModules.FrankModule.CallStore | src/vm/module/frank_module.rs:161-165 | the raw call of the guest's `store`, which the `ModuleABI` method wraps |
| FrankModules.FrankModule.CallLoad | src/vm/module/frank_module.rs:157 | the raw call of the guest's `load`, which the `ModuleABI` method wraps |
| FrankModules.FrankModule.Allocate | src/vm/module/frank_module.rs:132-138 | the guest's `allocate`; a runtime error panics with "allocate failed" |
| FrankModules.FrankModule.Deallocate | src/vm/module/frank_module.rs:140-146 | the guest's `deallocate`; a runtime error panics with the message "allocate failed", as written |
| FrankModules.FrankModule.AbiInvoke | src/vm/module/frank_module.rs:148-154 | the guest's `invoke`; a runtime error panics with "invoke failed" |
| FrankModules.FrankModule.Load | src/vm/module/frank_module.rs:156-158 | the guest's `load`; a runtime error panics with "load failed" |
| FrankModules.FrankModule.Store | src/vm/module/frank_module.rs:160-166 | the guest's `store`; a runtime error panics with "store failed" |
| FrankModules.FrankModule.Invoke | src/vm/module/frank_module.rs:170-195 | the result, final memory and guest calls are those of `GuestProtocol.Invoke`; the raw exports return errors instead of panicking |
| DefaultExportApiConfig.IdsArePositions | crates/wit-generator/src/default_export_api_config.rs:29-93 | there are six descriptors, with ids 0 to 5 in declaration order |
| DefaultExportApiConfig.DescriptorsDistinct | crates/wit-generator/src/default_export_api_config.rs:31-86 | no two descriptors share a name or an id |
| DefaultExportApiConfig.AllocationSignatures | crates/wit-generator/src/default_export_api_config.rs:29-55 | `allocate(size: I32) -> I32`; `deallocate(pointer: I32, size: I32)` has no outputs |
| DefaultExportApiConfig.ResultRegisterSignatures | crates/wit-generator/src/default_export_api_config.rs:57-93 | the getters take nothing and return one I32; the setters take one I32 and return nothing |
| FnInstructions.InputInstructions | crates/wit-generator/src/instructions_generator/fn_instructions.rs:96-124 | defined iff the type is supported; starts with `ArgumentGet(index)`; reads no other argument; calls only `allocate`; is five instructions long iff the value goes through memory; otherwise has at most two instructions and calls nothing |
| FnInstructions.OutputInstructions | crates/wit-generator/src/instructions_generator/fn_instructions.rs:127-157 | defined iff the type is supported; reads no argument; calls only `get_result_ptr`, `get_result_size` and `deallocate`; is six instructions ending with `deallocate` for memory types; otherwise has at most one instruction and calls nothing |
| FnInstructions.InputsInstructions | crates/wit-generator/src/instructions_generator/fn_instructions.rs:60-67 | the concatenated input part is defined iff every input type is supported |
| FnInstructions.ResultInstructions | crates/wit-generator/src/instructions_generator/fn_instructions.rs:74-77 | the output part is defined iff there is no output type or it is supported |
| FnInstructions.AdapterInstructions | crates/wit-generator/src/instructions_generator/fn_instructions.rs:60-77 | the adapter body is defined iff the whole signature is supported |
| FnInstructions.InputCalls | crates/wit-generator/src/instructions_generator/fn_instructions.rs:108-121 | a string or byte-vector input calls `allocate` exactly once; a numeric input calls nothing |
| FnInstructions.OutputCalls | crates/wit-generator/src/instructions_generator/fn_instructions.rs:139-154 | a memory-typed output calls get_result_ptr, get_result_size, get_result_ptr, get_result_size, deallocate, in that order; a numeric output calls nothing |
| FnInstructions.ArgumentsInRange | crates/wit-generator/src/instructions_generator/fn_instructions.rs:60-67 | every argument index read by the input part is the position of an input |
| FnInstructions.ArgumentsReadInOrder | crates/wit-generator/src/instructions_generator/fn_instructions.rs:60-67 | the argument indices of the input part never decrease |
| FnInstructions.EveryArgumentRead | crates/wit-generator/src/instructions_generator/fn_instructions.rs:60-67 | every input position is read by some `ArgumentGet` |
| FnInstructions.InputsCallOnlyAllocate | crates/wit-generator/src/instructions_generator/fn_instructions.rs:60-67 | the input part calls only `allocate`, once per input passed through memory |
| FnInstructions.AdapterShape | crates/wit-generator/src/instructions_generator/fn_instructions.rs:60-77 | an adapter is the input part, then one `CallCore` of the export, then the output part, and reads no argument after the call |
| FnInstructions.OutputMirrorsInput | crates/wit-generator/src/instructions_generator/fn_instructions.rs:98-107 | for a numeric type, the output instructions are the inverse conversions of the input's (S8, S16, U8, U16, U32 from I32; U64 from I64), and none for I32, I64, F32, F64 |
| FnInstructions.InMemoryLowerLift | crates/wit-generator/src/instructions_generator/fn_instructions.rs:108-154 | a string is lowered by `StringLowerMemory` and lifted by `StringLiftMemory`, and likewise for byte arrays; the output ends by calling the two-argument `deallocate` |
| FnInstructions.Interfaces.GenerateWit | crates/wit-generator/src/instructions_generator/fn_instructions.rs:27-92 | appends two equal function types at indices n and n+1, an export pointing to n+1, an adapter on n that calls the new export, and an implementation linking n+1 (core) to n (adapter); an unsupported type panics after the types and the export were appended (this assumes `ptype_to_itype` does not panic first, see below); the index invariant `Valid` is kept while indices fit in `u32` |
| FaaS.LoadSucceedsOnlyIfAvailable | fluence-faas/src/faas.rs:101-117 | loading succeeds only if every configured module is among the given modules and none is configured twice; with an engine that accepts every module, that is also enough |
| FaaS.LoadsEveryEntryInOrder | fluence-faas/src/faas.rs:101-123 | a successful load hands every configured module to the engine once, under its own name and with its own bytes, in config order |
| FaaS.LoadModules | fluence-faas/src/faas.rs:86-124 | the load loop from a given engine: it never loads more modules than the config names, and a success loads one per entry |
| FaaS.InstantiationErrorNamesMissingModule | fluence-faas/src/faas.rs:102-108 | an `InstantiationError` names a configured module that was not given, or that an earlier entry had already taken out |
| FaaS.LoadStopsAtFirstError | fluence-faas/src/faas.rs:101-117 | the first error ends the loop: exactly the entries before it were loaded, each with its own bytes; an `InstantiationError` names the entry right after the last load, whose module was never given or already taken out; an `EngineError` is the engine's refusal of the last load, on the engine the earlier loads left |
| FaaS.SignatureMap | fluence-faas/src/faas.rs:220-225 | the `map`/`collect` of a module's signatures into a hash map, one insert per signature in list order; what it holds is stated by `FaaS.SignatureMapLastWins` |
| FaaS.SignatureMapLastWins | fluence-faas/src/faas.rs:220-225 | a name is in the collected signature map iff some signature has it, and it maps to the last such signature's types |
| FaaS.LookupCacheEffect | fluence-faas/src/faas.rs:203-243 | a hit answers the cached entry's argument, output and record types; a cached module without the function gives `MissingFunctionError`; a miss answers what the engine says, `NoSuchModule` for a module it does not know; a hit or any error leaves the cache unchanged; a successful miss adds exactly that module's interface under the insert key, and the answer is that entry's |
| FaaS.LookupAsWritten | fluence-faas/src/faas.rs:195-244 | the lookup as the source writes it: the cache only ever gains the function's name as a key, and a successful miss files the entry under it |
| FaaS.CorrectedLookupMatchesReference | fluence-faas/src/faas.rs:193-244 | with the entry filed under the module name, a lookup on a coherent cache answers what the engine itself says and leaves the cache coherent |
| FaaS.AsWrittenAnswersForUnloadedModule | fluence-faas/src/faas.rs:240-241 | as written, the entry filed under a function name makes a later lookup in a module that was never loaded answer with another module's function |
| FaaS.FluenceFaaS.WithModules | fluence-faas/src/faas.rs:86-124 | the outcome and the modules handed to the engine are those of `LoadModules` from an empty engine; a new facade has default call parameters and an empty cache, so it is `Valid` (its cache is coherent) |
| FaaS.FluenceFaaS.CallWithIValues | fluence-faas/src/faas.rs:144-156 | the call parameters are replaced first, and the engine call sees the new ones; its result is returned, with an error wrapped as an engine error; the loaded modules and the cache are unchanged, so `Valid` is kept |
| FaaS.FluenceFaaS.LookupModuleInterface | fluence-faas/src/faas.rs:195-244 | the result and the new cache are those of the corrected lookup; from a `Valid` facade it answers as the engine does and stays `Valid` |

## Left out

- Compiling and instantiating modules, building WASI import objects, `create_abi` and `Drop` are not modelled (src/vm/module/fce_module.rs:52-109, src/vm/module/frank_module.rs:54-87, 216-239). A wrapper is created from a given guest and memory.
- `compute_state_hash` and `logger_log_utf8_string` are not modelled. They are SHA-256 hashing and printing through foreign libraries.
- The `unwrap()` on `FrankModule`'s optional exports is not modelled: the exports are always present. The source comment (src/vm/module/frank_module.rs:33-35) says every optional export is `Some` once `FrankModule::new` has succeeded.
- The wrappers do not model the guest's own behaviour. A guest export is a total, deterministic function of the guest's linear memory and the call's arguments, whose answer may include a grown memory up to the wasm32 limit of 2^32 bytes. Guests whose answers depend on other state are not representable: Wasm globals, or WASI imports such as the clock, randomness and preopened files, which the import object at src/vm/module/fce_module.rs:60-68 supplies. Neither is a guest call that never returns.
- `FCEResult::new` and `FrankResult::new` are not modelled: a successful invoke returns the payload bytes themselves.
- The conversion of parsed types to interface types (`ptype_to_itype`) is not part of this model. Function types record the parsed types. `Interfaces.GenerateWit` assumes this conversion succeeds for every type: if it panicked on an unsupported type, that panic would come before the types and export are appended, not after.
- The semantics of the interface-types instructions are not modelled. They live in the `wasmer_wit` interpreter.
- The SDK's `ParsedType` has more variants than the generator handles. `Boolean` and `Record` stand for the unsupported ones.
- Config loading from TOML or the file system (`with_config_path`, `with_raw_config`, `with_module_names`) is not modelled, and neither is the config `try_into()`. `WithModules` takes the already converted config.
- The `LoggerFilter` built from the environment is not modelled.
- `make_fce_config` is not modelled separately: it is folded into the engine's load operation, and an error from either is an engine error.
- FaaS.InstantiationErrorNamesMissingModule: the error message's text (the modules directory and the remaining keys) is reduced to the missing module's name.
- `call_with_json` is not modelled, because its JSON conversions live in a helper module that is not part of this model. `get_interface` is not modelled either: it is a direct delegation.
- The `raw-module-api` wrappers (fluence-faas/src/faas.rs:248-288) are not modelled: they are thin delegations for testing.
- `unsafe impl Send` is not modelled: no concurrency is modelled.
- The engine's own `call` and `load_module` are not modelled: they are parameters. Call parameters and module configs are opaque values.
- The engine's guest memories are not modelled: the engine value holds only the interfaces of the loaded modules. A call changes only the guests' memories, so in the model it leaves the engine as it was.
- `examples/ipfs_node/src/errors.rs` (error formatting) and `engine/src/host_imports/mod.rs` (declarations only) are not modelled.
- FaaS.FluenceFaaS.LookupModuleInterface: it files the new cache entry under the module name rather than the function name, as explained under Findings. The as-written behaviour is `FaaS.LookupAsWritten`.

## Findings

| source | as written | input that shows it | evidently intended | confidence | as-written member | corrected member |
|---|---|---|---|---|---|---|
| fluence-faas/src/faas.rs:240-241 | a successful cache miss inserts the module's interface under `func_name`, while the cache is read by `module_name` (line 203) | module "m" with functions "f" and "g": looking up ("m", "f") and then ("f", "g") returns m's "g" instead of `NoSuchModule("f")` | insert under `module_name`, so that the cache only holds loaded modules' interfaces under their own names | high; not executed | FaaS.AsWrittenAnswersForUnloadedModule | FaaS.CorrectedLookupMatchesReference |
