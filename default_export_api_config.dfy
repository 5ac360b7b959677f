/**
 * The fixed table of helper functions every guest module exports for the
 * generated adapters: memory allocation and the result pointer and size
 * registers. An adapter refers to a helper by its `id` in `CallCore`.
 */
module DefaultExportApiConfig {
  import opened MachineInts
  import opened InterfaceTypes

  datatype ApiExportFuncDescriptor = ApiExportFuncDescriptor(
    name: string,
    id: u32,
    arguments: seq<IFunctionArg>,
    outputTypes: seq<IType>)

  const ALLOCATE_FUNC: ApiExportFuncDescriptor :=
    ApiExportFuncDescriptor("allocate", 0, [IFunctionArg("size", I32)], [I32])

  const DEALLOCATE_FUNC: ApiExportFuncDescriptor :=
    ApiExportFuncDescriptor("deallocate", 1, [IFunctionArg("pointer", I32), IFunctionArg("size", I32)], [])

  const GET_RESULT_SIZE_FUNC: ApiExportFuncDescriptor :=
    ApiExportFuncDescriptor("get_result_size", 2, [], [I32])

  const GET_RESULT_PTR_FUNC: ApiExportFuncDescriptor :=
    ApiExportFuncDescriptor("get_result_ptr", 3, [], [I32])

  const SET_RESULT_SIZE_FUNC: ApiExportFuncDescriptor :=
    ApiExportFuncDescriptor("set_result_size", 4, [IFunctionArg("result_size", I32)], [])

  const SET_RESULT_PTR_FUNC: ApiExportFuncDescriptor :=
    ApiExportFuncDescriptor("set_result_ptr", 5, [IFunctionArg("result_ptr", I32)], [])

  /** The six descriptors in declaration order. */
  const API_EXPORTS: seq<ApiExportFuncDescriptor> :=
    [ALLOCATE_FUNC, DEALLOCATE_FUNC, GET_RESULT_SIZE_FUNC, GET_RESULT_PTR_FUNC,
     SET_RESULT_SIZE_FUNC, SET_RESULT_PTR_FUNC]

  /** The ids are 0 to 5, each descriptor's id being its position in declaration order. */
  lemma IdsArePositions()
    ensures |API_EXPORTS| == 6
    ensures forall i :: 0 <= i < |API_EXPORTS| ==> API_EXPORTS[i].id as int == i
  {
  }

  /** No two descriptors share a name or an id. */
  lemma DescriptorsDistinct()
    ensures forall i, j :: 0 <= i < j < |API_EXPORTS| ==>
      API_EXPORTS[i].name != API_EXPORTS[j].name && API_EXPORTS[i].id != API_EXPORTS[j].id
  {
  }

  /** allocate(size: I32) -> I32; deallocate(pointer: I32, size: I32) -> (). */
  lemma AllocationSignatures()
    ensures ALLOCATE_FUNC.name == "allocate"
    ensures ALLOCATE_FUNC.arguments == [IFunctionArg("size", I32)] && ALLOCATE_FUNC.outputTypes == [I32]
    ensures DEALLOCATE_FUNC.name == "deallocate"
    ensures DEALLOCATE_FUNC.arguments == [IFunctionArg("pointer", I32), IFunctionArg("size", I32)]
    ensures DEALLOCATE_FUNC.outputTypes == []
  {
  }

  /** The result getters take nothing and return one I32; the setters take one I32 and return nothing. */
  lemma ResultRegisterSignatures()
    ensures forall d :: d in [GET_RESULT_SIZE_FUNC, GET_RESULT_PTR_FUNC] ==>
      d.arguments == [] && d.outputTypes == [I32]
    ensures forall d :: d in [SET_RESULT_SIZE_FUNC, SET_RESULT_PTR_FUNC] ==>
      |d.arguments| == 1 && d.arguments[0].ty == I32 && d.outputTypes == []
  {
  }
}
