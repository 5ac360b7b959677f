/**
 * The value and type vocabulary of Wasm Interface Types as the engine uses
 * it (`IType`, `IFunctionArg`, `IValue`, record types). Only the shape of
 * these types matters here; the variants listed are those the modelled code
 * builds or passes along.
 */
module InterfaceTypes {

  datatype IType =
    | S8 | S16 | S32 | S64
    | U8 | U16 | U32 | U64
    | F32 | F64
    | String | ByteArray
    | I32 | I64
    | Record(recordTypeId: nat)

  /** A named parameter of an interface function. */
  datatype IFunctionArg = IFunctionArg(name: string, ty: IType)

  datatype IRecordType = IRecordType(name: string, fields: seq<IFunctionArg>)

  /** Record types of a module, by id. */
  type RecordTypes = map<nat, IRecordType>

  /** A rich value passed to or returned from an interface function. */
  datatype IValue =
    | I32Value(i: int)
    | I64Value(i: int)
    | StringValue(s: string)
    | ByteArrayValue(bytes: seq<bv8>)
    | RecordValue(fields: seq<IValue>)
}
