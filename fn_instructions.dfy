/**
 * The adapter generator: for every exported function of a guest module it
 * emits two function types, an export, an adapter (the interface-types
 * instructions that lower the rich arguments into the guest, call it, and
 * lift its result back) and an implementation linking the two types.
 */
module FnInstructions {
  import opened Wrappers
  import opened MachineInts
  import Api = DefaultExportApiConfig

  /** The types an SDK-annotated function may declare. */
  datatype ParsedType =
    | I8 | I16 | I32 | I64
    | U8 | U16 | U32 | U64
    | F32 | F64
    | Boolean
    | Utf8String
    | ByteVector
    | Record(name: string)

  /** The types the generator has instructions for; any other one reaches `unimplemented!()`. */
  predicate Supported(t: ParsedType) {
    !t.Boolean? && !t.Record?
  }

  /** Types passed through guest memory rather than as a single Wasm value. */
  predicate InMemory(t: ParsedType) {
    t == Utf8String || t == ByteVector
  }

  datatype Instruction =
    | ArgumentGet(index: u32)
    | CallCore(functionIndex: u32)
    | I32FromS8 | I32FromS16 | I32FromU8 | I32FromU16 | I32FromU32 | I64FromU64
    | S8FromI32 | S16FromI32 | U8FromI32 | U16FromI32 | U32FromI32 | U64FromI64
    | StringSize | StringLowerMemory | StringLiftMemory
    | ByteArraySize | ByteArrayLowerMemory | ByteArrayLiftMemory

  /** `generate_instructions_for_input_type`; `None` stands for the `unimplemented!()` panic. */
  function InputInstructions(t: ParsedType, index: u32): (r: Option<seq<Instruction>>)
    ensures r.Some? <==> Supported(t)
    ensures r.Some? ==> |r.value| > 0 && r.value[0] == ArgumentGet(index)
    ensures r.Some? ==> forall ins :: ins in r.value && ins.ArgumentGet? ==> ins.index == index
    ensures r.Some? ==> forall ins :: ins in r.value && ins.CallCore? ==> ins.functionIndex == Api.ALLOCATE_FUNC.id
    ensures r.Some? ==> (|r.value| == 5 <==> InMemory(t))
    ensures r.Some? && !InMemory(t) ==> |r.value| <= 2 && forall ins :: ins in r.value ==> !ins.CallCore?
  {
    match t
    case I8 => Some([ArgumentGet(index), I32FromS8])
    case I16 => Some([ArgumentGet(index), I32FromS16])
    case I32 => Some([ArgumentGet(index)])
    case I64 => Some([ArgumentGet(index)])
    case U8 => Some([ArgumentGet(index), I32FromU8])
    case U16 => Some([ArgumentGet(index), I32FromU16])
    case U32 => Some([ArgumentGet(index), I32FromU32])
    case U64 => Some([ArgumentGet(index), I64FromU64])
    case F32 => Some([ArgumentGet(index)])
    case F64 => Some([ArgumentGet(index)])
    case Utf8String => Some([ArgumentGet(index), StringSize, CallCore(Api.ALLOCATE_FUNC.id),
                             ArgumentGet(index), StringLowerMemory])
    case ByteVector => Some([ArgumentGet(index), ByteArraySize, CallCore(Api.ALLOCATE_FUNC.id),
                             ArgumentGet(index), ByteArrayLowerMemory])
    case _ => None
  }

  /** `generate_instructions_for_output_type`; `None` stands for the `unimplemented!()` panic. */
  function OutputInstructions(t: ParsedType): (r: Option<seq<Instruction>>)
    ensures r.Some? <==> Supported(t)
    ensures r.Some? ==> forall ins :: ins in r.value ==> !ins.ArgumentGet?
    ensures r.Some? ==> forall ins :: ins in r.value && ins.CallCore? ==>
      ins.functionIndex in {Api.GET_RESULT_PTR_FUNC.id, Api.GET_RESULT_SIZE_FUNC.id, Api.DEALLOCATE_FUNC.id}
    ensures r.Some? && InMemory(t) ==> |r.value| == 6 && r.value[5] == CallCore(Api.DEALLOCATE_FUNC.id)
    ensures r.Some? && !InMemory(t) ==> |r.value| <= 1 && forall ins :: ins in r.value ==> !ins.CallCore?
  {
    match t
    case I8 => Some([S8FromI32])
    case I16 => Some([S16FromI32])
    case I32 => Some([])
    case I64 => Some([])
    case U8 => Some([U8FromI32])
    case U16 => Some([U16FromI32])
    case U32 => Some([U32FromI32])
    case U64 => Some([U64FromI64])
    case F32 => Some([])
    case F64 => Some([])
    case Utf8String => Some([CallCore(Api.GET_RESULT_PTR_FUNC.id), CallCore(Api.GET_RESULT_SIZE_FUNC.id),
                             StringLiftMemory,
                             CallCore(Api.GET_RESULT_PTR_FUNC.id), CallCore(Api.GET_RESULT_SIZE_FUNC.id),
                             CallCore(Api.DEALLOCATE_FUNC.id)])
    case ByteVector => Some([CallCore(Api.GET_RESULT_PTR_FUNC.id), CallCore(Api.GET_RESULT_SIZE_FUNC.id),
                             ByteArrayLiftMemory,
                             CallCore(Api.GET_RESULT_PTR_FUNC.id), CallCore(Api.GET_RESULT_SIZE_FUNC.id),
                             CallCore(Api.DEALLOCATE_FUNC.id)])
    case _ => None
  }

  /** The function indices of the `CallCore` instructions, in order. */
  function CallsOf(instrs: seq<Instruction>): seq<int> {
    if instrs == [] then []
    else (if instrs[0].CallCore? then [instrs[0].functionIndex as int] else []) + CallsOf(instrs[1..])
  }

  /** The argument indices of the `ArgumentGet` instructions, in order. */
  function ArgIndices(instrs: seq<Instruction>): seq<int> {
    if instrs == [] then []
    else (if instrs[0].ArgumentGet? then [instrs[0].index as int] else []) + ArgIndices(instrs[1..])
  }

  /**
   * The input part of an adapter: each input's instructions, with the
   * input's position (cast to `u32`) as its argument index, left to right.
   */
  function InputsInstructions(inputs: seq<ParsedType>): (r: Option<seq<Instruction>>)
    decreases |inputs|
    ensures r.Some? <==> forall t :: t in inputs ==> Supported(t)
  {
    if inputs == [] then Some([])
    else
      var n := |inputs| - 1;
      assert inputs == inputs[..n] + [inputs[n]];
      match (InputsInstructions(inputs[..n]), InputInstructions(inputs[n], AsU32(n)))
      case (Some(front), Some(last)) => Some(front + last)
      case _ => None
  }

  datatype FunctionSignature = FunctionSignature(
    name: string,
    inputTypes: seq<ParsedType>,
    outputType: Option<ParsedType>)

  /** An exported function found in the guest's source annotations. */
  datatype AstFunctionItem = AstFunctionItem(signature: FunctionSignature)

  predicate SignatureSupported(sig: FunctionSignature) {
    (forall t :: t in sig.inputTypes ==> Supported(t))
    && (sig.outputType.Some? ==> Supported(sig.outputType.value))
  }

  /** The output part of an adapter: nothing for a function without a result. */
  function ResultInstructions(output: Option<ParsedType>): (r: Option<seq<Instruction>>)
    ensures r.Some? <==> (output.Some? ==> Supported(output.value))
  {
    match output
    case None => Some([])
    case Some(t) => OutputInstructions(t)
  }

  /**
   * The instructions of the adapter of `sig`: inputs lowered, the core
   * function at `exportFunctionIndex` called, the result lifted.
   */
  function AdapterInstructions(sig: FunctionSignature, exportFunctionIndex: u32): (r: Option<seq<Instruction>>)
    ensures r.Some? <==> SignatureSupported(sig)
  {
    match (InputsInstructions(sig.inputTypes), ResultInstructions(sig.outputType))
    case (Some(inputs), Some(outputs)) => Some(inputs + [CallCore(exportFunctionIndex)] + outputs)
    case _ => None
  }

  // ---------------------------------------------------------------------------
  // Properties of the generated instructions

  lemma {:induction false} ArgIndicesAppend(a: seq<Instruction>, b: seq<Instruction>)
    ensures ArgIndices(a + b) == ArgIndices(a) + ArgIndices(b)
    decreases |a|
  {
    if a == [] {
      assert a + b == b;
    } else {
      var head := if a[0].ArgumentGet? then [a[0].index as int] else [];
      assert (a + b)[0] == a[0] && (a + b)[1..] == a[1..] + b;
      assert ArgIndices(a + b) == head + ArgIndices(a[1..] + b);
      ArgIndicesAppend(a[1..], b);
      assert head + (ArgIndices(a[1..]) + ArgIndices(b)) == (head + ArgIndices(a[1..])) + ArgIndices(b);
    }
  }

  lemma {:induction false} CallsOfAppend(a: seq<Instruction>, b: seq<Instruction>)
    ensures CallsOf(a + b) == CallsOf(a) + CallsOf(b)
    decreases |a|
  {
    if a == [] {
      assert a + b == b;
    } else {
      var head := if a[0].CallCore? then [a[0].functionIndex as int] else [];
      assert (a + b)[0] == a[0] && (a + b)[1..] == a[1..] + b;
      assert CallsOf(a + b) == head + CallsOf(a[1..] + b);
      CallsOfAppend(a[1..], b);
      assert head + (CallsOf(a[1..]) + CallsOf(b)) == (head + CallsOf(a[1..])) + CallsOf(b);
    }
  }

  lemma CallsOfCons(x: Instruction, rest: seq<Instruction>)
    ensures CallsOf([x] + rest) == (if x.CallCore? then [x.functionIndex as int] else []) + CallsOf(rest)
  {
    assert ([x] + rest)[1..] == rest;
  }

  lemma {:induction false} CallsOfNone(instrs: seq<Instruction>)
    requires forall ins :: ins in instrs ==> !ins.CallCore?
    ensures CallsOf(instrs) == []
    decreases |instrs|
  {
    if instrs != [] {
      assert forall ins :: ins in instrs[1..] ==> ins in instrs;
      CallsOfNone(instrs[1..]);
    }
  }

  /** The input instructions of a type call `allocate` once if the value goes through memory, nothing otherwise. */
  lemma InputCalls(t: ParsedType, index: u32)
    requires Supported(t)
    ensures CallsOf(InputInstructions(t, index).value) == if InMemory(t) then [Api.ALLOCATE_FUNC.id as int] else []
  {
    var input := InputInstructions(t, index).value;
    if InMemory(t) {
      CallsOfNone(input[3..]);
      assert input[2..] == [input[2]] + input[3..];
      CallsOfCons(input[2], input[3..]);
      CallsOfNone(input[..2]);
      CallsOfAppend(input[..2], input[2..]);
      assert input == input[..2] + input[2..];
    } else {
      CallsOfNone(input);
    }
  }

  /**
   * The output instructions of a type passed in memory read the result
   * pointer and size twice (to lift, then to release) and call `deallocate`.
   */
  lemma OutputCalls(t: ParsedType)
    requires Supported(t)
    ensures CallsOf(OutputInstructions(t).value) ==
      if InMemory(t) then [Api.GET_RESULT_PTR_FUNC.id as int, Api.GET_RESULT_SIZE_FUNC.id as int,
                           Api.GET_RESULT_PTR_FUNC.id as int, Api.GET_RESULT_SIZE_FUNC.id as int,
                           Api.DEALLOCATE_FUNC.id as int]
      else []
  {
    var output := OutputInstructions(t).value;
    if t == Utf8String {
      ResultCalls(Api.GET_RESULT_PTR_FUNC.id, Api.GET_RESULT_SIZE_FUNC.id, Api.DEALLOCATE_FUNC.id, StringLiftMemory);
    } else if t == ByteVector {
      ResultCalls(Api.GET_RESULT_PTR_FUNC.id, Api.GET_RESULT_SIZE_FUNC.id, Api.DEALLOCATE_FUNC.id, ByteArrayLiftMemory);
    } else {
      CallsOfNone(output);
    }
  }

  /** The calls of a memory-typed output, around its lifting instruction. */
  lemma ResultCalls(ptrId: u32, sizeId: u32, releaseId: u32, lift: Instruction)
    requires !lift.CallCore?
    ensures CallsOf([CallCore(ptrId), CallCore(sizeId), lift, CallCore(ptrId), CallCore(sizeId), CallCore(releaseId)])
         == [ptrId as int, sizeId as int, ptrId as int, sizeId as int, releaseId as int]
  {
    var ptr, size, release := CallCore(ptrId), CallCore(sizeId), CallCore(releaseId);
    CallsOfCons(release, []);
    assert [release] + [] == [release];
    CallsOfCons(size, [release]);
    assert [size] + [release] == [size, release];
    CallsOfCons(ptr, [size, release]);
    assert [ptr] + [size, release] == [ptr, size, release];
    CallsOfCons(lift, [ptr, size, release]);
    assert [lift] + [ptr, size, release] == [lift, ptr, size, release];
    CallsOfCons(size, [lift, ptr, size, release]);
    assert [size] + [lift, ptr, size, release] == [size, lift, ptr, size, release];
    CallsOfCons(ptr, [size, lift, ptr, size, release]);
    assert [ptr] + [size, lift, ptr, size, release] == [ptr, size, lift, ptr, size, release];
  }

  /** Every argument index in `instrs` is `index`, and there is at least one when `instrs` starts with `ArgumentGet(index)`. */
  lemma {:induction false} ArgIndicesAllEqual(instrs: seq<Instruction>, index: u32)
    requires forall ins :: ins in instrs && ins.ArgumentGet? ==> ins.index == index
    ensures forall k :: k in ArgIndices(instrs) ==> k == index as int
    ensures |instrs| > 0 && instrs[0] == ArgumentGet(index) ==> |ArgIndices(instrs)| > 0
    decreases |instrs|
  {
    if instrs != [] {
      assert forall ins :: ins in instrs[1..] ==> ins in instrs;
      ArgIndicesAllEqual(instrs[1..], index);
    }
  }

  /** Each argument index the input part uses is the position of an input (positions fit in `u32`). */
  lemma {:induction false} ArgumentsInRange(inputs: seq<ParsedType>, instrs: seq<Instruction>)
    requires |inputs| <= U32_LIMIT
    requires InputsInstructions(inputs) == Some(instrs)
    ensures forall k :: k in ArgIndices(instrs) ==> 0 <= k < |inputs|
    decreases |inputs|
  {
    if inputs != [] {
      var n := |inputs| - 1;
      var front := InputsInstructions(inputs[..n]).value;
      var last := InputInstructions(inputs[n], AsU32(n)).value;
      assert instrs == front + last;
      ArgumentsInRange(inputs[..n], front);
      ArgIndicesAppend(front, last);
      ArgIndicesAllEqual(last, AsU32(n));
    }
  }

  /** The input part reads its arguments in order: the argument indices it uses never decrease. */
  lemma {:induction false} ArgumentsReadInOrder(inputs: seq<ParsedType>, instrs: seq<Instruction>)
    requires |inputs| <= U32_LIMIT
    requires InputsInstructions(inputs) == Some(instrs)
    ensures forall i, j :: 0 <= i < j < |ArgIndices(instrs)| ==> ArgIndices(instrs)[i] <= ArgIndices(instrs)[j]
    decreases |inputs|
  {
    if inputs != [] {
      var n := |inputs| - 1;
      var front := InputsInstructions(inputs[..n]).value;
      var last := InputInstructions(inputs[n], AsU32(n)).value;
      assert instrs == front + last;
      ArgumentsReadInOrder(inputs[..n], front);
      ArgumentsInRange(inputs[..n], front);
      ArgIndicesAppend(front, last);
      ArgIndicesAllEqual(last, AsU32(n));
      var a := ArgIndices(instrs);
      var p := |ArgIndices(front)|;
      forall i, j | 0 <= i < j < |a|
        ensures a[i] <= a[j]
      {
        if j >= p {
          assert a[j] == ArgIndices(last)[j - p];
          assert a[j] in ArgIndices(last);
          if i < p {
            assert a[i] == ArgIndices(front)[i];
            assert a[i] in ArgIndices(front);
          } else {
            assert a[i] == ArgIndices(last)[i - p];
            assert a[i] in ArgIndices(last);
          }
        } else {
          assert a[i] == ArgIndices(front)[i] && a[j] == ArgIndices(front)[j];
        }
      }
    }
  }

  /** The input part reads every argument. */
  lemma {:induction false} EveryArgumentRead(inputs: seq<ParsedType>, instrs: seq<Instruction>)
    requires |inputs| <= U32_LIMIT
    requires InputsInstructions(inputs) == Some(instrs)
    ensures forall p :: 0 <= p < |inputs| ==> p in ArgIndices(instrs)
    decreases |inputs|
  {
    if inputs != [] {
      var n := |inputs| - 1;
      var front := InputsInstructions(inputs[..n]).value;
      var last := InputInstructions(inputs[n], AsU32(n)).value;
      assert instrs == front + last;
      EveryArgumentRead(inputs[..n], front);
      ArgIndicesAppend(front, last);
      ArgIndicesAllEqual(last, AsU32(n));
      assert AsU32(n) as int == n;
      assert ArgIndices(last)[0] in ArgIndices(last);
    }
  }

  /** The input part calls nothing but `allocate`, once per input passed in memory. */
  lemma {:induction false} InputsCallOnlyAllocate(inputs: seq<ParsedType>, instrs: seq<Instruction>)
    requires InputsInstructions(inputs) == Some(instrs)
    ensures forall k :: k in CallsOf(instrs) ==> k == Api.ALLOCATE_FUNC.id as int
    ensures |CallsOf(instrs)| == InMemoryCount(inputs)
    decreases |inputs|
  {
    if inputs != [] {
      var n := |inputs| - 1;
      var front := InputsInstructions(inputs[..n]).value;
      var last := InputInstructions(inputs[n], AsU32(n)).value;
      assert instrs == front + last;
      InputsCallOnlyAllocate(inputs[..n], front);
      CallsOfAppend(front, last);
      InputCalls(inputs[n], AsU32(n));
    }
  }

  /** How many of `inputs` are passed through memory. */
  function InMemoryCount(inputs: seq<ParsedType>): nat
    decreases |inputs|
  {
    if inputs == [] then 0
    else InMemoryCount(inputs[..|inputs| - 1]) + (if InMemory(inputs[|inputs| - 1]) then 1 else 0)
  }

  /**
   * The shape of an adapter: the input part, then exactly one call of the
   * exported function, then the output part, which reads no argument.
   */
  lemma AdapterShape(sig: FunctionSignature, exportFunctionIndex: u32)
    requires SignatureSupported(sig)
    ensures var instrs := AdapterInstructions(sig, exportFunctionIndex).value;
      var p := |InputsInstructions(sig.inputTypes).value|;
      && p < |instrs|
      && instrs[..p] == InputsInstructions(sig.inputTypes).value
      && instrs[p] == CallCore(exportFunctionIndex)
      && instrs[p + 1..] == ResultInstructions(sig.outputType).value
      && forall j :: p < j < |instrs| ==> !instrs[j].ArgumentGet?
  {
    var instrs := AdapterInstructions(sig, exportFunctionIndex).value;
    var p := |InputsInstructions(sig.inputTypes).value|;
    var outputs := ResultInstructions(sig.outputType).value;
    assert instrs[p + 1..] == outputs;
    forall j | p < j < |instrs|
      ensures !instrs[j].ArgumentGet?
    {
      assert instrs[j] == outputs[j - p - 1];
      assert instrs[j] in outputs;
    }
  }

  /** The output conversion undoing each input conversion. */
  function Mirror(ins: Instruction): Instruction {
    match ins
    case I32FromS8 => S8FromI32
    case I32FromS16 => S16FromI32
    case I32FromU8 => U8FromI32
    case I32FromU16 => U16FromI32
    case I32FromU32 => U32FromI32
    case I64FromU64 => U64FromI64
    case _ => ins
  }

  /**
   * For a value passed as a number, the output instructions undo exactly
   * the conversion the input instructions apply after reading the argument.
   */
  lemma OutputMirrorsInput(t: ParsedType, index: u32)
    requires Supported(t) && !InMemory(t)
    ensures var input := InputInstructions(t, index).value;
      var output := OutputInstructions(t).value;
      |output| == |input| - 1
      && forall k :: 0 <= k < |output| ==> output[k] == Mirror(input[k + 1])
  {
    match t
    case I8 =>
    case I16 =>
    case I32 =>
    case I64 =>
    case U8 =>
    case U16 =>
    case U32 =>
    case U64 =>
    case F32 =>
    case F64 =>
  }

  /** A value passed in memory is lowered and lifted by the matching pair of instructions. */
  lemma InMemoryLowerLift(t: ParsedType, index: u32)
    requires InMemory(t)
    ensures var input := InputInstructions(t, index).value;
      var output := OutputInstructions(t).value;
      (t == Utf8String ==> StringLowerMemory in input && StringLiftMemory in output)
      && (t == ByteVector ==> ByteArrayLowerMemory in input && ByteArrayLiftMemory in output)
      && output[|output| - 1] == CallCore(Api.DEALLOCATE_FUNC.id)
      && |Api.DEALLOCATE_FUNC.arguments| == 2
  {
    var input := InputInstructions(t, index).value;
    var output := OutputInstructions(t).value;
    assert input[4] in input;
    assert output[2] in output;
  }

  // ---------------------------------------------------------------------------
  // `generate_wit`

  /** `Type::Function`; the parsed types stand for their interface types. */
  datatype FunctionType = Function(inputs: seq<ParsedType>, outputs: seq<ParsedType>)

  datatype Export = Export(name: string, functionType: u32)

  datatype Adapter = Adapter(functionType: u32, instructions: seq<Instruction>)

  datatype Implementation = Implementation(coreFunctionType: u32, adapterFunctionType: u32)

  function FunctionTypeOf(sig: FunctionSignature): FunctionType {
    Function(sig.inputTypes, match sig.outputType case Some(t) => [t] case None => [])
  }

  /**
   * Every type index held by an export, an adapter or an implementation
   * names an existing type, and an implementation joins two types of the
   * same signature.
   */
  predicate SectionsValid(types: seq<FunctionType>, exports: seq<Export>, adapters: seq<Adapter>,
                          implementations: seq<Implementation>)
  {
    && (forall e :: e in exports ==> e.functionType as int < |types|)
    && (forall a :: a in adapters ==> a.functionType as int < |types|)
    && (forall m :: m in implementations ==>
          m.coreFunctionType as int < |types| && m.adapterFunctionType as int < |types|
          && types[m.coreFunctionType] == types[m.adapterFunctionType])
  }

  /** Appending two types and an export pointing at the second keeps the sections valid. */
  lemma AppendTypesKeepsValid(types: seq<FunctionType>, exports: seq<Export>, adapters: seq<Adapter>,
                              implementations: seq<Implementation>, f: FunctionType, name: string)
    requires SectionsValid(types, exports, adapters, implementations)
    requires |types| + 2 <= U32_LIMIT
    ensures SectionsValid(types + [f, f], exports + [Export(name, AsU32(|types| + 1))], adapters, implementations)
  {
    var types' := types + [f, f];
    forall m | m in implementations
      ensures types'[m.coreFunctionType] == types'[m.adapterFunctionType]
    {
      assert types'[m.coreFunctionType] == types[m.coreFunctionType];
      assert types'[m.adapterFunctionType] == types[m.adapterFunctionType];
    }
  }

  /** Appending an adapter on type `n` and an implementation linking `n + 1` to `n`, two equal types, keeps the sections valid. */
  lemma AppendAdapterKeepsValid(types: seq<FunctionType>, exports: seq<Export>, adapters: seq<Adapter>,
                                implementations: seq<Implementation>, n: nat, instructions: seq<Instruction>)
    requires SectionsValid(types, exports, adapters, implementations)
    requires n + 2 == |types| <= U32_LIMIT && types[n] == types[n + 1]
    ensures SectionsValid(types, exports, adapters + [Adapter(AsU32(n), instructions)],
                          implementations + [Implementation(AsU32(n + 1), AsU32(n))])
  {
  }

  /** The interface sections under construction for one module. */
  class Interfaces {
    var types: seq<FunctionType>
    var exports: seq<Export>
    var adapters: seq<Adapter>
    var implementations: seq<Implementation>

    constructor ()
      ensures types == [] && exports == [] && adapters == [] && implementations == []
    {
      types := [];
      exports := [];
      adapters := [];
      implementations := [];
    }

    /** The index invariant `SectionsValid` of the current sections. */
    predicate Valid()
      reads this
    {
      SectionsValid(types, exports, adapters, implementations)
    }

    /**
     * `generate_wit`: appends the two function types, the export (pointing
     * at the second type), the adapter (at the first type, calling the new
     * export) and the implementation. An unsupported type panics after the
     * types and the export were appended; `ok` is false then.
     */
    method GenerateWit(item: AstFunctionItem) returns (ok: bool)
      modifies this
      ensures var sig := item.signature;
        && (ok <==> SignatureSupported(sig))
        && types == old(types) + [FunctionTypeOf(sig), FunctionTypeOf(sig)]
        && exports == old(exports) + [Export(sig.name, AsU32(|old(types)| + 1))]
        && (ok ==>
              && adapters == old(adapters)
                   + [Adapter(AsU32(|old(types)|), AdapterInstructions(sig, AsU32(|old(exports)|)).value)]
              && implementations == old(implementations)
                   + [Implementation(AsU32(|old(types)| + 1), AsU32(|old(types)|))])
        && (!ok ==> adapters == old(adapters) && implementations == old(implementations))
      ensures old(Valid()) && |old(types)| + 2 <= U32_LIMIT ==> Valid()
    {
      var sig := item.signature;
      var functionType := FunctionTypeOf(sig);
      ghost var wasValid := Valid() && |types| + 2 <= U32_LIMIT;
      // After the two pushes the adapter's type is at `len - 2` and the core's at `len - 1`.
      var n := |types|;
      var adapterIdx := AsU32(n);
      var exportIdx := AsU32(n + 1);
      var exportFunctionIndex := AsU32(|exports|);
      var types' := types + [functionType, functionType];
      var exports' := exports + [Export(sig.name, exportIdx)];
      if wasValid {
        AppendTypesKeepsValid(types, exports, adapters, implementations, functionType, sig.name);
      }
      types, exports := types', exports';

      var instructions := AdapterInstructions(sig, exportFunctionIndex);
      if instructions.None? {
        return false;
      }
      var body := instructions.value;
      if wasValid {
        AppendAdapterKeepsValid(types', exports', adapters, implementations, n, body);
      }
      adapters := adapters + [Adapter(adapterIdx, body)];
      implementations := implementations + [Implementation(exportIdx, adapterIdx)];
      return true;
    }
  }
}
