/**
 * The byte protocol a host module wrapper (`FCEModule`, and its older twin
 * `FrankModule`) uses to pass one argument into a guest Wasm module and get
 * one result back:
 *
 *   1. if the argument is not empty, call the guest's `allocate(len)` export
 *      and copy the argument into linear memory at the returned address;
 *   2. call the guest's `invoke(address, len)` export, which returns the
 *      address of its result;
 *   3. read the result there: a 4-byte little-endian size followed by that
 *      many payload bytes;
 *   4. call the guest's `deallocate(result_address, payload_len)` export.
 *
 * The guest's exports are foreign code. Each is modelled as a function from
 * the guest's memory and the call's arguments to what the call returned and
 * the memory the guest left behind; a `GuestExports` value is one such
 * guest. A Rust panic (a slice index out of range, an `expect` on an error)
 * is made explicit as the error `Panic`, which ends the operation.
 */
module GuestProtocol {
  import opened Wrappers
  import opened MachineInts
  import LittleEndian

  /** Largest wasm32 linear memory: 65536 pages of 65536 bytes. */
  const MAX_MEMORY_BYTES: int := 0x1_0000_0000

  /** Size of the little-endian length header in front of a result. */
  const RESULT_HEADER_SIZE: nat := 4

  /** A guest's linear memory, as seen through `memory.view::<u8>()`. */
  type Memory = m: seq<bv8> | |m| <= MAX_MEMORY_BYTES

  /** The runtime's error for a call into a guest export that trapped or failed. */
  datatype Trap = Trap(message: string)

  datatype PanicReason =
    | SliceOutOfRange
    | ExpectFailed(message: string)

  /** `FCEError` / `FrankError` as far as this protocol produces them, plus panics. */
  datatype ModuleError =
    | CallError(trap: Trap)
    | Panic(reason: PanicReason)

  /** What one call into a guest export produced, and the memory the guest left. */
  datatype Call<T> = Call(result: Result<T, Trap>, memory: Memory)

  /** The five exports every guest module provides, as functions of its memory. */
  datatype GuestExports = GuestExports(
    allocate: (Memory, i32) -> Call<i32>,
    deallocate: (Memory, i32, i32) -> Call<()>,
    invoke: (Memory, i32, i32) -> Call<i32>,
    store: (Memory, i32, i32) -> Call<()>,
    load: (Memory, i32) -> Call<i32>)

  /** One call into a guest export: its arguments and the memory the guest saw. */
  datatype GuestCall =
    | AllocateCall(size: i32, seen: Memory)
    | DeallocateCall(ptr: i32, len: i32, seen: Memory)
    | InvokeCall(ptr: i32, len: i32, seen: Memory)
    | StoreCall(address: i32, value: i32, seen: Memory)
    | LoadCall(address: i32, seen: Memory)

  /** What one guest call answered: its trap, if it failed, and the memory the guest left. */
  function AnswerOf<T>(call: Call<T>): (Option<Trap>, Memory)
  {
    (if call.result.Err? then Some(call.result.error) else None, call.memory)
  }

  /** What the guest answers the recorded call. */
  function Answer(g: GuestExports, c: GuestCall): (Option<Trap>, Memory)
  {
    match c
    case AllocateCall(size, m) => AnswerOf(g.allocate(m, size))
    case DeallocateCall(ptr, len, m) => AnswerOf(g.deallocate(m, ptr, len))
    case InvokeCall(ptr, len, m) => AnswerOf(g.invoke(m, ptr, len))
    case StoreCall(address, value, m) => AnswerOf(g.store(m, address, value))
    case LoadCall(address, m) => AnswerOf(g.load(m, address))
  }

  /** True when the guest answers the recorded call with an error. */
  predicate Trapped(g: GuestExports, c: GuestCall)
  {
    Answer(g, c).0.Some?
  }

  /** `mem` with `value` copied in at `address`. */
  function Written(mem: Memory, address: nat, value: seq<bv8>): Memory
    requires address + |value| <= |mem|
  {
    mem[..address] + value + mem[address + |value|..]
  }

  /** The payload size announced by the header at `address`. */
  function ResultSize(mem: Memory, address: nat): nat
    requires address + RESULT_HEADER_SIZE <= |mem|
  {
    LittleEndian.Decode(mem[address..address + RESULT_HEADER_SIZE])
  }

  /** The header is little-endian: byte `k` weighs `256^k`. */
  lemma ResultSizeBytes(mem: Memory, address: nat)
    requires address + RESULT_HEADER_SIZE <= |mem|
    ensures ResultSize(mem, address) == mem[address] as nat + 256 * mem[address + 1] as nat
                                        + 65536 * mem[address + 2] as nat + 16777216 * mem[address + 3] as nat
  {
    var header := mem[address..address + RESULT_HEADER_SIZE];
    LittleEndian.Decode4(header);
    assert header[0] == mem[address] && header[1] == mem[address + 1];
    assert header[2] == mem[address + 2] && header[3] == mem[address + 3];
  }

  /** The header's bytes or-ed into place, as the readers compute them, give `ResultSize`. */
  lemma OrOfHeader(mem: Memory, address: nat, size: bv64)
    requires address + RESULT_HEADER_SIZE <= |mem|
    requires size == LittleEndian.OrPrefix(mem[address..address + RESULT_HEADER_SIZE], 4)
    ensures size as int == ResultSize(mem, address)
  {
    LittleEndian.OrPrefixIsDecode(mem[address..address + RESULT_HEADER_SIZE]);
  }

  /** What `write_to_mem(address, value)` does to memory: the slice panics out of range. */
  function WriteArgument(mem: Memory, address: nat, value: seq<bv8>): Result<Memory, ModuleError>
  {
    if address + |value| <= |mem| then Ok(Written(mem, address, value))
    else Err(Panic(SliceOutOfRange))
  }

  /** What `read_result_from_mem(address)` returns: both slices panic out of range. */
  function ReadResult(mem: Memory, address: nat): Result<seq<bv8>, ModuleError>
  {
    if address + RESULT_HEADER_SIZE > |mem| then Err(Panic(SliceOutOfRange))
    else
      var size := ResultSize(mem, address);
      if address + RESULT_HEADER_SIZE + size > |mem| then Err(Panic(SliceOutOfRange))
      else Ok(mem[address + RESULT_HEADER_SIZE..address + RESULT_HEADER_SIZE + size])
  }

  /** The outcome of one `invoke`: its result, the final memory and the guest calls made, in order. */
  datatype InvokeOutcome = InvokeOutcome(result: Result<seq<bv8>, ModuleError>, memory: Memory, calls: seq<GuestCall>)

  /** The host side of `ModuleAPI::invoke(argument)`. */
  function Invoke(g: GuestExports, mem: Memory, argument: seq<bv8>): (o: InvokeOutcome)
    ensures 1 <= |o.calls| <= 3
    ensures o.result.Ok? ==> |o.calls| == 2 + (if WrapI32(|argument|) != 0 then 1 else 0)
  {
    var argumentLen := WrapI32(|argument|);
    if argumentLen != 0 then
      var allocation := g.allocate(mem, argumentLen);
      var allocateCall := AllocateCall(argumentLen, mem);
      match allocation.result
      case Err(t) => InvokeOutcome(Err(CallError(t)), allocation.memory, [allocateCall])
      case Ok(address) =>
        match WriteArgument(allocation.memory, ToUsize(address), argument)
        case Err(e) => InvokeOutcome(Err(e), allocation.memory, [allocateCall])
        case Ok(written) =>
          var rest := InvokeAndRead(g, written, address, argumentLen);
          rest.(calls := [allocateCall] + rest.calls)
    else
      InvokeAndRead(g, mem, 0, 0)
  }

  /** Steps 2 to 4 of `invoke`: call the guest, read its result, release it. */
  function InvokeAndRead(g: GuestExports, mem: Memory, argumentAddress: i32, argumentLen: i32): InvokeOutcome
  {
    var invocation := g.invoke(mem, argumentAddress, argumentLen);
    var invokeCall := InvokeCall(argumentAddress, argumentLen, mem);
    match invocation.result
    case Err(t) => InvokeOutcome(Err(CallError(t)), invocation.memory, [invokeCall])
    case Ok(resultAddress) =>
      match ReadResult(invocation.memory, ToUsize(resultAddress))
      case Err(e) => InvokeOutcome(Err(e), invocation.memory, [invokeCall])
      case Ok(result) =>
        var resultLen := WrapI32(|result|);
        var release := g.deallocate(invocation.memory, resultAddress, resultLen);
        var calls := [invokeCall, DeallocateCall(resultAddress, resultLen, invocation.memory)];
        match release.result
        case Err(t) => InvokeOutcome(Err(CallError(t)), release.memory, calls)
        case Ok(_) => InvokeOutcome(Ok(result), release.memory, calls)
  }

  // ---------------------------------------------------------------------------
  // Reading a length-prefixed result

  /** A result written as header-then-payload is read back as the payload. */
  lemma ReadLengthPrefixed(mem: Memory, address: nat, payload: seq<bv8>)
    requires address + RESULT_HEADER_SIZE + |payload| <= |mem|
    requires mem[address..address + RESULT_HEADER_SIZE] == LittleEndian.Encode32(|payload|)
    requires mem[address + RESULT_HEADER_SIZE..address + RESULT_HEADER_SIZE + |payload|] == payload
    ensures ReadResult(mem, address) == Ok(payload)
  {
    LittleEndian.DecodeEncode32(|payload|);
  }

  /** Writing a length-prefixed payload and then reading at the same address yields the payload. */
  lemma WriteThenRead(mem: Memory, address: nat, payload: seq<bv8>)
    requires address + RESULT_HEADER_SIZE + |payload| <= |mem|
    ensures |payload| < 0x1_0000_0000
    ensures ReadResult(Written(mem, address, LittleEndian.Encode32(|payload|) + payload), address) == Ok(payload)
  {
    var framed := LittleEndian.Encode32(|payload|) + payload;
    var m := Written(mem, address, framed);
    assert m[address..address + RESULT_HEADER_SIZE] == framed[..RESULT_HEADER_SIZE];
    assert m[address + RESULT_HEADER_SIZE..address + RESULT_HEADER_SIZE + |payload|] == framed[RESULT_HEADER_SIZE..];
    ReadLengthPrefixed(m, address, payload);
  }

  /** A successful read returns exactly as many bytes as the header announces. */
  lemma ReadResultLength(mem: Memory, address: nat)
    requires ReadResult(mem, address).Ok?
    ensures address + RESULT_HEADER_SIZE <= |mem|
    ensures |ReadResult(mem, address).value| == ResultSize(mem, address) < 0x1_0000_0000
  {
    LittleEndian.DecodeBound(mem[address..address + RESULT_HEADER_SIZE]);
    assert LittleEndian.Pow256(4) == 0x1_0000_0000 by {
      assert LittleEndian.Pow256(0) == 1;
    }
  }

  // ---------------------------------------------------------------------------
  // The invoke sequence

  /** An empty argument is not allocated: the guest's `invoke` is called first, with (0, 0), on the untouched memory. */
  lemma InvokeEmptyArgument(g: GuestExports, mem: Memory, argument: seq<bv8>)
    requires |argument| == 0
    ensures var o := Invoke(g, mem, argument);
      && 1 <= |o.calls| <= 2
      && o.calls[0] == InvokeCall(0, 0, mem)
      && (forall i :: 0 <= i < |o.calls| ==> !o.calls[i].AllocateCall?)
  {
  }

  /**
   * An argument whose length survives `len as i32` as a non-zero value is
   * allocated with that wrapped length and copied to the allocated address;
   * the guest's `invoke` then receives that address and the wrapped length
   * and sees the copy. Below 2^31 bytes the wrapped length is the length
   * itself; a length whose low 32 bits are 2^31 or more reaches `allocate`
   * as a negative size.
   */
  lemma InvokeWritesArgument(g: GuestExports, mem: Memory, argument: seq<bv8>)
    requires WrapI32(|argument|) != 0
    ensures var o := Invoke(g, mem, argument);
      var len := WrapI32(|argument|);
      var allocation := g.allocate(mem, len);
      && 0 < |argument|
      && (|argument| < 0x8000_0000 ==> len as int == |argument|)
      && (|argument| % 0x1_0000_0000 >= 0x8000_0000 ==> len < 0)
      && o.calls[0] == AllocateCall(len, mem)
      && (allocation.result.Ok? && ToUsize(allocation.result.value) + |argument| <= |allocation.memory| ==>
            var address := allocation.result.value;
            var seen := Written(allocation.memory, ToUsize(address), argument);
            && |o.calls| >= 2
            && o.calls[1] == InvokeCall(address, len, seen)
            && seen[ToUsize(address)..ToUsize(address) + |argument|] == argument)
  {
    var allocation := g.allocate(mem, WrapI32(|argument|));
    if allocation.result.Ok? && ToUsize(allocation.result.value) + |argument| <= |allocation.memory| {
      var a := ToUsize(allocation.result.value);
      var seen := Written(allocation.memory, a, argument);
      assert seen[a..a + |argument|] == argument;
    }
  }

  /**
   * A non-empty argument whose length is a multiple of 2^32 wraps to a zero
   * `len as i32`: it is treated as empty, so it is never allocated nor
   * written, and the guest's `invoke` receives (0, 0) on the untouched memory.
   */
  lemma InvokeDropsWrappedArgument(g: GuestExports, mem: Memory, argument: seq<bv8>)
    requires 0 < |argument| && |argument| % 0x1_0000_0000 == 0
    ensures var o := Invoke(g, mem, argument);
      && WrapI32(|argument|) == 0
      && o == InvokeAndRead(g, mem, 0, 0)
      && o.calls[0] == InvokeCall(0, 0, mem)
      && (forall i :: 0 <= i < |o.calls| ==> !o.calls[i].AllocateCall?)
  {
  }

  /**
   * A successful invoke returns the payload found at the address the guest's
   * `invoke` returned, and its last step releases that address with the
   * payload's length (the 4-byte header not included).
   */
  lemma InvokeReleasesResult(g: GuestExports, mem: Memory, argument: seq<bv8>)
    requires Invoke(g, mem, argument).result.Ok?
    ensures var o := Invoke(g, mem, argument);
      && |o.calls| >= 2
      && var invokeCall := o.calls[|o.calls| - 2];
      && invokeCall.InvokeCall?
      && var invocation := g.invoke(invokeCall.seen, invokeCall.ptr, invokeCall.len);
      && invocation.result.Ok?
      && ReadResult(invocation.memory, ToUsize(invocation.result.value)) == o.result
      && o.calls[|o.calls| - 1]
         == DeallocateCall(invocation.result.value, WrapI32(|o.result.value|), invocation.memory)
  {
  }

  /**
   * Errors propagate: every guest call before the last one succeeded; a
   * `CallError` is the last call's error, carrying the very trap the guest
   * answered; a panic happens after a last call that succeeded; a successful
   * invoke made only successful calls; and whatever the outcome, no step runs
   * after the last call, so the final memory is the one that call left.
   */
  lemma InvokeStopsAtFirstError(g: GuestExports, mem: Memory, argument: seq<bv8>)
    ensures var o := Invoke(g, mem, argument);
      && |o.calls| >= 1
      && (forall i :: 0 <= i < |o.calls| - 1 ==> !Trapped(g, o.calls[i]))
      && (o.result.Ok? ==> !Trapped(g, o.calls[|o.calls| - 1]))
      && (o.result.Err? && o.result.error.Panic? ==> !Trapped(g, o.calls[|o.calls| - 1]))
      && (o.result.Err? && o.result.error.CallError? <==> Trapped(g, o.calls[|o.calls| - 1]))
      && (o.result.Err? && o.result.error.CallError? ==>
            Answer(g, o.calls[|o.calls| - 1]).0 == Some(o.result.error.trap))
      && o.memory == Answer(g, o.calls[|o.calls| - 1]).1
  {
  }
}
