/**
 * `FCEModule`: one instantiated guest Wasm module of the multi-module engine,
 * with its linear memory and the guest exports behind `ModuleABI`.
 */
module FceModules {
  import opened Wrappers
  import opened MachineInts
  import opened GuestProtocol
  import LittleEndian

  class FceModule {
    /** The guest's exports (`ABI` in the source), fixed at instantiation. */
    const guest: GuestExports

    /** Memory 0 of the instance. */
    var mem: Memory

    /** Every call made into the guest's exports so far, oldest first. */
    ghost var calls: seq<GuestCall>

    /** An instance whose guest is `guest` and whose memory is `mem`; compiling and instantiating is not modelled. */
    constructor (guest: GuestExports, mem: Memory)
      ensures this.guest == guest && this.mem == mem && calls == []
    {
      this.guest := guest;
      this.mem := mem;
      calls := [];
    }

    /** `write_to_mem`: copies `value` into memory at `address`, byte by byte. */
    method WriteToMem(address: nat, value: seq<bv8>) returns (r: Result<(), ModuleError>)
      modifies this`mem
      ensures r.Ok? <==> address + |value| <= old(|mem|)
      ensures r.Err? ==> r.error == Panic(SliceOutOfRange) && mem == old(mem)
      ensures r.Ok? ==> |mem| == old(|mem|)
      ensures r.Ok? ==> forall i :: 0 <= i < |value| ==> mem[address + i] == value[i]
      ensures r.Ok? ==> forall j :: 0 <= j < |mem| && !(address <= j < address + |value|) ==> mem[j] == old(mem[j])
      ensures WriteArgument(old(mem), address, value) == if r.Ok? then Ok(mem) else Err(r.error)
    {
      if address + |value| > |mem| {
        return Err(Panic(SliceOutOfRange));
      }
      var byteId := 0;
      while byteId < |value|
        invariant 0 <= byteId <= |value|
        invariant |mem| == old(|mem|)
        invariant forall j :: 0 <= j < |mem| ==>
          mem[j] == if address <= j < address + byteId then value[j - address] else old(mem[j])
      {
        mem := mem[address + byteId := value[byteId]];
        byteId := byteId + 1;
      }
      assert mem == Written(old(mem), address, value);
      return Ok(());
    }

    /** The first loop of `read_result_from_mem`: `result_size |= (byte as usize) << (8 * byte_id)`. */
    method ReadResultSize(address: nat) returns (size: nat)
      requires address + RESULT_HEADER_SIZE <= |mem|
      ensures size == ResultSize(mem, address)
      ensures size == mem[address] as nat + 256 * mem[address + 1] as nat
                      + 65536 * mem[address + 2] as nat + 16777216 * mem[address + 3] as nat
    {
      ghost var header := mem[address..address + RESULT_HEADER_SIZE];
      var resultSize: bv64 := 0;
      var byteId: bv64 := 0;
      while byteId < 4
        invariant byteId <= 4
        invariant resultSize == LittleEndian.OrPrefix(header, byteId)
      {
        var cell := mem[address + byteId as int];
        assert cell == header[byteId as int];
        LittleEndian.OrPrefixStep(header, byteId);
        resultSize := resultSize | ((cell as bv64) << (8 * byteId));
        byteId := byteId + 1;
      }
      OrOfHeader(mem, address, resultSize);
      ResultSizeBytes(mem, address);
      size := resultSize as int;
    }

    /** `read_result_from_mem`: the 4-byte little-endian size at `address`, then that many bytes. */
    method ReadResultFromMem(address: nat) returns (r: Result<seq<bv8>, ModuleError>)
      ensures r.Ok? <==> address + RESULT_HEADER_SIZE <= |mem|
                         && address + RESULT_HEADER_SIZE + ResultSize(mem, address) <= |mem|
      ensures r.Err? ==> r.error == Panic(SliceOutOfRange)
      ensures r.Ok? ==> |r.value| == ResultSize(mem, address)
      ensures r.Ok? ==> forall i :: 0 <= i < |r.value| ==> r.value[i] == mem[address + RESULT_HEADER_SIZE + i]
      ensures r == ReadResult(mem, address)
    {
      if address + RESULT_HEADER_SIZE > |mem| {
        return Err(Panic(SliceOutOfRange));
      }
      var size := ReadResultSize(address);
      if address + size + RESULT_HEADER_SIZE > |mem| {
        return Err(Panic(SliceOutOfRange));
      }
      var result: seq<bv8> := [];
      var i := address + RESULT_HEADER_SIZE;
      while i < address + size + RESULT_HEADER_SIZE
        invariant address + RESULT_HEADER_SIZE <= i <= address + size + RESULT_HEADER_SIZE
        invariant result == mem[address + RESULT_HEADER_SIZE..i]
      {
        result := result + [mem[i]];
        i := i + 1;
      }
      return Ok(result);
    }

    // -------------------------------------------------------------------------
    // `ModuleABI`: each method forwards to the guest export of the same name;
    // an error from the runtime becomes a `CallError`.

    method Allocate(size: i32) returns (r: Result<i32, ModuleError>)
      modifies this`mem, this`calls
      ensures var c := guest.allocate(old(mem), size);
        && mem == c.memory
        && r == (if c.result.Ok? then Ok(c.result.value) else Err(CallError(c.result.error)))
      ensures calls == old(calls) + [AllocateCall(size, old(mem))]
    {
      var c := guest.allocate(mem, size);
      calls := calls + [AllocateCall(size, mem)];
      mem := c.memory;
      r := if c.result.Ok? then Ok(c.result.value) else Err(CallError(c.result.error));
    }

    method Deallocate(ptr: i32, size: i32) returns (r: Result<(), ModuleError>)
      modifies this`mem, this`calls
      ensures var c := guest.deallocate(old(mem), ptr, size);
        && mem == c.memory
        && r == (if c.result.Ok? then Ok(()) else Err(CallError(c.result.error)))
      ensures calls == old(calls) + [DeallocateCall(ptr, size, old(mem))]
    {
      var c := guest.deallocate(mem, ptr, size);
      calls := calls + [DeallocateCall(ptr, size, mem)];
      mem := c.memory;
      r := if c.result.Ok? then Ok(()) else Err(CallError(c.result.error));
    }

    /** `<Self as ModuleABI>::invoke`: the guest's own `invoke` export. */
    method AbiInvoke(argAddress: i32, argSize: i32) returns (r: Result<i32, ModuleError>)
      modifies this`mem, this`calls
      ensures var c := guest.invoke(old(mem), argAddress, argSize);
        && mem == c.memory
        && r == (if c.result.Ok? then Ok(c.result.value) else Err(CallError(c.result.error)))
      ensures calls == old(calls) + [InvokeCall(argAddress, argSize, old(mem))]
    {
      var c := guest.invoke(mem, argAddress, argSize);
      calls := calls + [InvokeCall(argAddress, argSize, mem)];
      mem := c.memory;
      r := if c.result.Ok? then Ok(c.result.value) else Err(CallError(c.result.error));
    }

    method Store(address: i32, value: i32) returns (r: Result<(), ModuleError>)
      modifies this`mem, this`calls
      ensures var c := guest.store(old(mem), address, value);
        && mem == c.memory
        && r == (if c.result.Ok? then Ok(()) else Err(CallError(c.result.error)))
      ensures calls == old(calls) + [StoreCall(address, value, old(mem))]
    {
      var c := guest.store(mem, address, value);
      calls := calls + [StoreCall(address, value, mem)];
      mem := c.memory;
      r := if c.result.Ok? then Ok(()) else Err(CallError(c.result.error));
    }

    method Load(address: i32) returns (r: Result<i32, ModuleError>)
      modifies this`mem, this`calls
      ensures var c := guest.load(old(mem), address);
        && mem == c.memory
        && r == (if c.result.Ok? then Ok(c.result.value) else Err(CallError(c.result.error)))
      ensures calls == old(calls) + [LoadCall(address, old(mem))]
    {
      var c := guest.load(mem, address);
      calls := calls + [LoadCall(address, mem)];
      mem := c.memory;
      r := if c.result.Ok? then Ok(c.result.value) else Err(CallError(c.result.error));
    }

    // -------------------------------------------------------------------------
    // `ModuleAPI`

    /**
     * `ModuleAPI::invoke`: allocate and write the argument (unless it is
     * empty), call the guest, read its result and release it. Its outcome,
     * final memory and guest calls are those of `GuestProtocol.Invoke`, whose
     * lemmas state the protocol's properties.
     */
    method Invoke(argument: seq<bv8>) returns (r: Result<seq<bv8>, ModuleError>)
      modifies this`mem, this`calls
      ensures var o := GuestProtocol.Invoke(guest, old(mem), argument);
        r == o.result && mem == o.memory && calls == old(calls) + o.calls
    {
      var argumentLen := WrapI32(|argument|);
      var argumentAddress: i32 := 0;
      if argumentLen != 0 {
        var allocation := Allocate(argumentLen);
        if allocation.Err? {
          return Err(allocation.error);
        }
        var address := allocation.value;
        var written := WriteToMem(ToUsize(address), argument);
        if written.Err? {
          return Err(written.error);
        }
        argumentAddress := address;
      }
      var invocation := AbiInvoke(argumentAddress, argumentLen);
      if invocation.Err? {
        return Err(invocation.error);
      }
      var resultAddress := invocation.value;
      var read := ReadResultFromMem(ToUsize(resultAddress));
      if read.Err? {
        return Err(read.error);
      }
      var result := read.value;
      var released := Deallocate(resultAddress, WrapI32(|result|));
      if released.Err? {
        return Err(released.error);
      }
      return Ok(result);
    }
  }
}
