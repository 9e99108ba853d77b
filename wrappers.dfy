/** Optional values, results and the error values the token engine returns. */
module Wrappers {

  datatype Option<T> = None | Some(value: T)

  /** The errors of the built-in functions, one constructor per error value. */
  datatype Error =
    | ErrNilVmInput
    | ErrNilValue
    | ErrBuiltInFunctionCalledWithValue
    | ErrInvalidArguments
    | ErrInvalidRcvAddr
    | ErrNotEnoughGas
    | ErrNilUserAccount
    | ErrNegativeValue
    | ErrInsufficientFunds
    | ErrOnlyFungibleTokensHaveBalanceTransfer
    | ErrMECTIsFrozenForAccount
    | ErrMECTTokenIsPaused
    | ErrActionNotAllowed
    | ErrAddressIsNotMECTSystemSC
    | ErrOnlySystemAccountAccepted
    | ErrCannotWipeAccountNotFrozen
    | ErrNewNFTDataOnSenderAddress
    | ErrNFTDoesNotHaveMetadata
    | ErrInvalidNFTQuantity
    | ErrNilMECTData
    | ErrInvalidLiquidityForMECT
    | ErrTooManyTransferAddresses
    | ErrInvalidMaxNumAddresses
    | ErrInvalidNumOfArgs
    | ErrInvalidTokenID
    | ErrInvalidNonce
    | ErrInvalidMetadata
    | ErrTokenHasValidMetadata
    | ErrAddressIsNotAllowed
    | ErrNotMECTTransferInput
    | ErrNotEnoughArguments
    | ErrSubtractionOverflow
    | ErrInvalidAddressLength
    /** The stored bytes do not decode as the record the reader expects. */
    | ErrUnmarshal
    /** An error reported by the payable checker, whose code is not part of this model. */
    | ErrAccountNotPayable
    /** `fmt.Errorf("%w for token: %s ...", ErrInsufficientQuantityMECT, ...)`: the message text. */
    | ErrInsufficientQuantity(message: seq<int>)
    /** The Go runtime would panic here (nil dereference, index out of range). */
    | ErrRuntimePanic

  datatype Result<T> = Ok(value: T) | Err(error: Error)
  {
    predicate IsFailure() { Err? }
    function PropagateFailure<U>(): Result<U>
      requires Err?
    {
      Err(error)
    }
    function Extract(): T
      requires Ok?
    {
      value
    }
  }

  /** The nil-or-error outcome of a Go function returning only `error`. */
  datatype Status = Success | Failure(error: Error)
}
