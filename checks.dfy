/** The argument checks shared by the token functions. */
module ArgChecks {

  import opened Encoding
  import opened Wrappers
  import opened Store
  import opened Vm

  /** The fewest arguments a token call takes: the token and an amount. */
  const MinLenArgumentsMECTTransfer: nat := 2

  /**
   * `checkBasicMECTArguments`: a present, zero call value and at least two
   * arguments; the first failing condition decides the error.
   */
  function CheckBasicMECTArguments(input: CallInput): (s: Status)
    ensures s == Success <==> input.callValue == Some(0) && |input.arguments| >= MinLenArgumentsMECTTransfer
    ensures input.callValue.None? ==> s == Failure(ErrNilValue)
    ensures input.callValue.Some? && input.callValue.value != 0 ==> s == Failure(ErrBuiltInFunctionCalledWithValue)
    ensures input.callValue == Some(0) && |input.arguments| < MinLenArgumentsMECTTransfer ==> s == Failure(ErrInvalidArguments)
  {
    if input.callValue.None? then Failure(ErrNilValue)
    else if input.callValue.value != 0 then Failure(ErrBuiltInFunctionCalledWithValue)
    else if |input.arguments| < MinLenArgumentsMECTTransfer then Failure(ErrInvalidArguments)
    else Success
  }

  /**
   * `checkInputArgumentsForLocalAction`: after the basic checks, the caller
   * acts on itself, its account is present, the amount is positive and the
   * gas covers the cost, checked in that order.
   */
  function CheckInputArgumentsForLocalAction(acnt: Option<AccountState>, input: CallInput, funcGasCost: nat): (s: Status)
    ensures s == Success <==>
      && CheckBasicMECTArguments(input) == Success
      && input.callerAddr == input.recipientAddr
      && acnt.Some?
      && FromBE(input.arguments[1]) > 0
      && input.gasProvided >= funcGasCost
    ensures CheckBasicMECTArguments(input) != Success ==> s == CheckBasicMECTArguments(input)
    ensures CheckBasicMECTArguments(input) == Success && input.callerAddr != input.recipientAddr ==> s == Failure(ErrInvalidRcvAddr)
    ensures CheckBasicMECTArguments(input) == Success && input.callerAddr == input.recipientAddr && acnt.None? ==> s == Failure(ErrNilUserAccount)
  {
    var basic := CheckBasicMECTArguments(input);
    if basic.Failure? then basic
    else if input.callerAddr != input.recipientAddr then Failure(ErrInvalidRcvAddr)
    else if acnt.None? then Failure(ErrNilUserAccount)
    else if FromBE(input.arguments[1]) <= 0 then Failure(ErrNegativeValue)
    else if input.gasProvided < funcGasCost then Failure(ErrNotEnoughGas)
    else Success
  }

  /**
   * `checkMECTNFTCreateBurnAddInput`: after the basic checks, the caller acts
   * on itself, its account is present unless the call executes on the
   * destination on the caller's behalf, and the gas covers the cost.
   */
  function CheckNFTCreateBurnAddInput(acnt: Option<AccountState>, input: CallInput, funcGasCost: nat): (s: Status)
    ensures s == Success <==>
      && CheckBasicMECTArguments(input) == Success
      && input.callerAddr == input.recipientAddr
      && (acnt.Some? || input.callType == ExecOnDestByCaller)
      && input.gasProvided >= funcGasCost
    ensures CheckBasicMECTArguments(input) != Success ==> s == CheckBasicMECTArguments(input)
    ensures CheckBasicMECTArguments(input) == Success && input.callerAddr != input.recipientAddr ==> s == Failure(ErrInvalidRcvAddr)
    ensures (CheckBasicMECTArguments(input) == Success && input.callerAddr == input.recipientAddr
             && acnt.None? && input.callType != ExecOnDestByCaller) ==> s == Failure(ErrNilUserAccount)
  {
    var basic := CheckBasicMECTArguments(input);
    if basic.Failure? then basic
    else if input.callerAddr != input.recipientAddr then Failure(ErrInvalidRcvAddr)
    else if acnt.None? && input.callType != ExecOnDestByCaller then Failure(ErrNilUserAccount)
    else if input.gasProvided < funcGasCost then Failure(ErrNotEnoughGas)
    else Success
  }

  // ---------------------------------------------------------------------
  // The argument count of the multi-token functions

  /**
   * Token, nonce and value: the arguments of one entry of a multi-token
   * transfer. Index arithmetic writes it as the literal 3, which keeps the
   * products linear.
   */
  const ArgumentsPerTransfer: nat := 3

  /** A value argument longer than this carries a marshalled record rather than a quantity. */
  const MaxLengthForValueToOptTransfer: nat := 32

  /**
   * The argument-count guard of the multi-token functions as written: the
   * count times three plus the start index is computed in uint64 and wraps.
   */
  predicate EnoughArgumentsAsWritten(count: uint64, start: nat, numArgs: nat)
  {
    numArgs >= Wrap64(3 * count + start)
  }

  /** The guard as intended: room for `count` entries of three arguments after `start`. */
  predicate EnoughArguments(count: nat, start: nat, numArgs: nat)
  {
    numArgs >= 3 * count + start
  }

  /** Under the intended guard the three arguments of every entry exist. */
  lemma EntryInRange(count: nat, start: nat, numArgs: nat, i: nat)
    requires EnoughArguments(count, start, numArgs) && i < count
    ensures start + 3 * i + 2 < numArgs
  {
    assert 3 * i + 3 <= 3 * count;
  }

  /** Below 2^64 / 3 the two guards agree: the wrap needs a huge count. */
  lemma GuardsAgreeForSmallCount(count: uint64, start: nat, numArgs: nat)
    requires 3 * count + start < TwoTo64
    ensures EnoughArgumentsAsWritten(count, start, numArgs) == EnoughArguments(count, start, numArgs)
  {
  }

  /** (2^65 + 4) / 3: three times it is 4 more than 2^65. */
  const WrappingCount: uint64 := 12297829382473034412

  /**
   * With that count, six arguments pass the sender-leg guard (start 2) and
   * five pass the destination-leg guard (start 1), though neither holds even
   * the second entry.
   */
  lemma CountGuardWraps()
    ensures EnoughArgumentsAsWritten(WrappingCount, 2, 6) && !EnoughArguments(WrappingCount, 2, 6)
    ensures EnoughArgumentsAsWritten(WrappingCount, 1, 5) && !EnoughArguments(WrappingCount, 1, 5)
  {
    assert 3 * WrappingCount + 2 == 2 * TwoTo64 + 6;
    assert 3 * WrappingCount + 1 == 2 * TwoTo64 + 5;
  }
}
