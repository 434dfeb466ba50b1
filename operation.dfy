/** The operations a key can be asked about (src/keychain/key/operation.rs). */
module KeyOperations {
  import opened Wrappers

  /** `KeyOperation`. */
  datatype KeyOperation = Decrypt | Encrypt | KeyExchange | Sign | Verify

  /** `KeyOperation::to_CFIndex`: the framework's `SecKeyOperationType` index of each operation. */
  function ToCFIndex(op: KeyOperation): (i: int)
    ensures 0 <= i <= 4
    ensures OperationOfIndex(i) == Some(op)
  {
    match op
    case Decrypt => 3
    case Encrypt => 2
    case KeyExchange => 4
    case Sign => 0
    case Verify => 1
  }

  /** The operation with index `i`, if any. */
  function OperationOfIndex(i: int): Option<KeyOperation>
  {
    if i == 0 then Some(Sign)
    else if i == 1 then Some(Verify)
    else if i == 2 then Some(Encrypt)
    else if i == 3 then Some(Decrypt)
    else if i == 4 then Some(KeyExchange)
    else None
  }

  /** Every index from 0 to 4 is the index of exactly one operation, and no other index is. */
  lemma IndicesAreOntoRange(i: int)
    ensures OperationOfIndex(i).Some? <==> 0 <= i <= 4
    ensures OperationOfIndex(i).Some? ==> ToCFIndex(OperationOfIndex(i).value) == i
  {
  }
}
