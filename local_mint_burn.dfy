/**
 * Minting and burning by the token's own holders: local mint and local burn
 * act on the caller's own balance and need a role (or, for burning, the
 * burn-for-all setting); the plain burn sends the tokens back to the system
 * smart contract.
 */
module LocalMintBurn {

  import opened Encoding
  import opened Wrappers
  import opened Store
  import opened Vm
  import opened Names
  import opened ArgChecks
  import opened LogsAndEvents
  import opened Roles
  import opened GlobalSettings
  import opened MectTransfer

  /** The longest amount, in bytes, a mint accepts. */
  const MaxLenForMECTIssueMint: nat := 100

  /** `ProcessBuiltinFunction` of local mint as a value: the caller's new data and the output, or the error. */
  function LocalMintSpec(funcGasCost: uint64, input: CallInput, env: Env, sys: Data, acnt: Option<AccountState>): (r: Result<(Data, Output)>)
    ensures CheckInputArgumentsForLocalAction(acnt, input, funcGasCost).Failure? ==>
      r == Err(CheckInputArgumentsForLocalAction(acnt, input, funcGasCost).error)
    ensures r.Ok? ==>
      && CheckInputArgumentsForLocalAction(acnt, input, funcGasCost) == Success
      && AllowedToExecute(acnt, input.arguments[0], Str(MECTRoleLocalMint)) == Success
      && |input.arguments[1]| <= MaxLenForMECTIssueMint
    ensures r.Ok? ==> var key := TokenKey(input.arguments[0]);
      && FromBE(input.arguments[1]) > 0
      && BalanceOf(r.value.0, key) == BalanceOf(acnt.value.data, key) + FromBE(input.arguments[1])
      && (forall k :: k != key ==> Retrieve(r.value.0, k) == Retrieve(acnt.value.data, k))
  {
    var check := CheckInputArgumentsForLocalAction(acnt, input, funcGasCost);
    if check.Failure? then Err(check.error)
    else
      var tokenID := input.arguments[0];
      var allowed := AllowedToExecute(acnt, tokenID, Str(MECTRoleLocalMint));
      if allowed.Failure? then Err(allowed.error)
      else if |input.arguments[1]| > MaxLenForMECTIssueMint then Err(ErrInvalidArguments)
      else
        var value := FromBE(input.arguments[1]);
        match AddToBalanceSpec(acnt.value, TokenKey(tokenID), value, sys, env, input.returnCallAfterError)
          case Err(e) => Err(e)
          case Ok(d) =>
            var entry := NewEntryForMECT(Str(BuiltInFunctionMECTLocalMint), tokenID, 0, value, [input.callerAddr]);
            Ok((d, Output(input.gasProvided - funcGasCost, [], [entry], map[])))
  }

  /** `ProcessBuiltinFunction` of local mint. */
  method ProcessLocalMint(funcGasCost: uint64, input: CallInput, env: Env, sys: Data, acntSnd: Account?) returns (r: Result<VMOutput>)
    modifies acntSnd
    ensures var spec := LocalMintSpec(funcGasCost, input, env, sys, old(StateOf(acntSnd)));
      && (spec.Err? ==> r == Err(spec.error) && (acntSnd != null ==> acntSnd.data == old(acntSnd.data)))
      && (spec.Ok? ==> r.Ok? && fresh(r.value) && r.value.Snapshot() == spec.value.1 && acntSnd.data == spec.value.0)
  {
    var check := CheckInputArgumentsForLocalAction(StateOf(acntSnd), input, funcGasCost);
    if check.Failure? {
      return Err(check.error);
    }
    var tokenID := input.arguments[0];
    var allowed := CheckAllowedToExecute(acntSnd, tokenID, Str(MECTRoleLocalMint));
    if allowed.Failure? {
      return Err(allowed.error);
    }
    if |input.arguments[1]| > MaxLenForMECTIssueMint {
      return Err(ErrInvalidArguments);
    }
    var value := FromBE(input.arguments[1]);
    var s := AddToMECTBalance(acntSnd, TokenKey(tokenID), value, sys, env, input.returnCallAfterError);
    if s.Failure? {
      return Err(s.error);
    }
    var out := NewOutputWithEntry(input.gasProvided - funcGasCost, Str(BuiltInFunctionMECTLocalMint), tokenID, 0, value, [input.callerAddr]);
    return Ok(out);
  }

  /** `isAllowedToBurn`: everyone may burn when the token allows burning for all; otherwise the role decides. */
  function IsAllowedToBurn(sys: Data, acnt: Option<AccountState>, tokenID: Bytes): (s: Status)
    ensures s == Success <==> IsBurnForAll(sys, TokenKey(tokenID)) || AllowedToExecute(acnt, tokenID, Str(MECTRoleLocalBurn)) == Success
  {
    if IsBurnForAll(sys, TokenKey(tokenID)) then Success
    else AllowedToExecute(acnt, tokenID, Str(MECTRoleLocalBurn))
  }

  /** `isAllowedToBurn` on the caller's account. */
  method CheckAllowedToBurn(sys: Data, acnt: Account?, tokenID: Bytes) returns (s: Status)
    ensures s == IsAllowedToBurn(sys, StateOf(acnt), tokenID)
  {
    if IsBurnForAll(sys, TokenKey(tokenID)) {
      return Success;
    }
    s := CheckAllowedToExecute(acnt, tokenID, Str(MECTRoleLocalBurn));
  }

  /** `ProcessBuiltinFunction` of local burn as a value. */
  function LocalBurnSpec(funcGasCost: uint64, input: CallInput, env: Env, sys: Data, acnt: Option<AccountState>): (r: Result<(Data, Output)>)
    ensures CheckInputArgumentsForLocalAction(acnt, input, funcGasCost).Failure? ==>
      r == Err(CheckInputArgumentsForLocalAction(acnt, input, funcGasCost).error)
    ensures r.Ok? ==>
      && CheckInputArgumentsForLocalAction(acnt, input, funcGasCost) == Success
      && IsAllowedToBurn(sys, acnt, input.arguments[0]) == Success
    ensures r.Ok? ==> var key := TokenKey(input.arguments[0]);
      && 0 < FromBE(input.arguments[1]) <= BalanceOf(acnt.value.data, key)
      && BalanceOf(r.value.0, key) == BalanceOf(acnt.value.data, key) - FromBE(input.arguments[1])
      && (forall k :: k != key ==> Retrieve(r.value.0, k) == Retrieve(acnt.value.data, k))
  {
    var check := CheckInputArgumentsForLocalAction(acnt, input, funcGasCost);
    if check.Failure? then Err(check.error)
    else
      var tokenID := input.arguments[0];
      var allowed := IsAllowedToBurn(sys, acnt, tokenID);
      if allowed.Failure? then Err(allowed.error)
      else
        var value := FromBE(input.arguments[1]);
        match AddToBalanceSpec(acnt.value, TokenKey(tokenID), -(value as int), sys, env, input.returnCallAfterError)
          case Err(e) => Err(e)
          case Ok(d) =>
            var entry := NewEntryForMECT(Str(BuiltInFunctionMECTLocalBurn), tokenID, 0, value, [input.callerAddr]);
            Ok((d, Output(input.gasProvided - funcGasCost, [], [entry], map[])))
  }

  /** `ProcessBuiltinFunction` of local burn. */
  method ProcessLocalBurn(funcGasCost: uint64, input: CallInput, env: Env, sys: Data, acntSnd: Account?) returns (r: Result<VMOutput>)
    modifies acntSnd
    ensures var spec := LocalBurnSpec(funcGasCost, input, env, sys, old(StateOf(acntSnd)));
      && (spec.Err? ==> r == Err(spec.error) && (acntSnd != null ==> acntSnd.data == old(acntSnd.data)))
      && (spec.Ok? ==> r.Ok? && fresh(r.value) && r.value.Snapshot() == spec.value.1 && acntSnd.data == spec.value.0)
  {
    var check := CheckInputArgumentsForLocalAction(StateOf(acntSnd), input, funcGasCost);
    if check.Failure? {
      return Err(check.error);
    }
    var tokenID := input.arguments[0];
    var allowed := CheckAllowedToBurn(sys, acntSnd, tokenID);
    if allowed.Failure? {
      return Err(allowed.error);
    }
    var value := FromBE(input.arguments[1]);
    var s := AddToMECTBalance(acntSnd, TokenKey(tokenID), -(value as int), sys, env, input.returnCallAfterError);
    if s.Failure? {
      return Err(s.error);
    }
    var out := NewOutputWithEntry(input.gasProvided - funcGasCost, Str(BuiltInFunctionMECTLocalBurn), tokenID, 0, value, [input.callerAddr]);
    return Ok(out);
  }

  /** Burning what was just minted, with the same arguments, restores the balance. */
  lemma MintThenBurnRestores(funcGasCost: uint64, input: CallInput, env: Env, sys: Data, acnt: AccountState)
    requires LocalMintSpec(funcGasCost, input, env, sys, Some(acnt)).Ok?
    requires LocalBurnSpec(funcGasCost, input, env, sys, Some(AccountState(acnt.address, LocalMintSpec(funcGasCost, input, env, sys, Some(acnt)).value.0))).Ok?
    ensures var minted := AccountState(acnt.address, LocalMintSpec(funcGasCost, input, env, sys, Some(acnt)).value.0);
      var key := TokenKey(input.arguments[0]);
      BalanceOf(LocalBurnSpec(funcGasCost, input, env, sys, Some(minted)).value.0, key) == BalanceOf(acnt.data, key)
  {
  }

  // ---------------------------------------------------------------------
  // Burn back to the system smart contract

  /** `ProcessBuiltinFunction` of the plain burn as a value. */
  function BurnSpec(funcGasCost: uint64, input: CallInput, env: Env, sys: Data, acnt: Option<AccountState>): (r: Result<(Data, Output)>)
    ensures CheckBasicMECTArguments(input).Failure? ==> r == Err(CheckBasicMECTArguments(input).error)
    ensures r.Ok? ==>
      && |input.arguments| == 2
      && FromBE(input.arguments[1]) > 0
      && input.recipientAddr == env.mectSCAddress
      && acnt.Some?
      && input.gasProvided >= funcGasCost
    ensures r.Ok? ==> var key := TokenKey(input.arguments[0]);
      && FromBE(input.arguments[1]) <= BalanceOf(acnt.value.data, key)
      && BalanceOf(r.value.0, key) == BalanceOf(acnt.value.data, key) - FromBE(input.arguments[1])
      && (forall k :: k != key ==> Retrieve(r.value.0, k) == Retrieve(acnt.value.data, k))
  {
    var basic := CheckBasicMECTArguments(input);
    if basic.Failure? then Err(basic.error)
    else if |input.arguments| != 2 then Err(ErrInvalidArguments)
    else
      var value := FromBE(input.arguments[1]);
      if value == 0 then Err(ErrNegativeValue)
      else if input.recipientAddr != env.mectSCAddress then Err(ErrAddressIsNotMECTSystemSC)
      else if acnt.None? then Err(ErrNilUserAccount)
      else if input.gasProvided < funcGasCost then Err(ErrNotEnoughGas)
      else match AddToBalanceSpec(acnt.value, TokenKey(input.arguments[0]), -(value as int), sys, env, input.returnCallAfterError)
        case Err(e) => Err(e)
        case Ok(d) =>
          var gasRemaining := env.computeGasRemaining(true, input.gasProvided, funcGasCost);
          var o := if env.isSmartContract(input.callerAddr)
            then WithOutputTransfer(Output(gasRemaining, [], [], map[]), input.callerAddr, Str(BuiltInFunctionMECTBurn),
                                    input.arguments, input.recipientAddr, input.gasLocked, input.callType)
            else Output(gasRemaining, [], [], map[]);
          var entry := NewEntryForMECT(Str(BuiltInFunctionMECTBurn), input.arguments[0], 0, value, [input.callerAddr]);
          Ok((d, o.(logs := [entry])))
  }

  /** `ProcessBuiltinFunction` of the plain burn. */
  method ProcessBurn(funcGasCost: uint64, input: CallInput, env: Env, sys: Data, acntSnd: Account?) returns (r: Result<VMOutput>)
    modifies acntSnd
    ensures var spec := BurnSpec(funcGasCost, input, env, sys, old(StateOf(acntSnd)));
      && (spec.Err? ==> r == Err(spec.error) && (acntSnd != null ==> acntSnd.data == old(acntSnd.data)))
      && (spec.Ok? ==> r.Ok? && fresh(r.value) && r.value.Snapshot() == spec.value.1 && acntSnd.data == spec.value.0)
  {
    var basic := CheckBasicMECTArguments(input);
    if basic.Failure? {
      return Err(basic.error);
    }
    if |input.arguments| != 2 {
      return Err(ErrInvalidArguments);
    }
    var value := FromBE(input.arguments[1]);
    if value <= 0 {
      return Err(ErrNegativeValue);
    }
    if input.recipientAddr != env.mectSCAddress {
      return Err(ErrAddressIsNotMECTSystemSC);
    }
    if acntSnd == null {
      return Err(ErrNilUserAccount);
    }
    if input.gasProvided < funcGasCost {
      return Err(ErrNotEnoughGas);
    }
    var s := AddToMECTBalance(acntSnd, TokenKey(input.arguments[0]), -(value as int), sys, env, input.returnCallAfterError);
    if s.Failure? {
      return Err(s.error);
    }
    var out := EmitBurn(funcGasCost, input, env, value);
    return Ok(out);
  }

  /** The output of a successful plain burn: the transfer back for a contract caller, then the log entry. */
  method EmitBurn(funcGasCost: uint64, input: CallInput, env: Env, value: nat) returns (out: VMOutput)
    requires |input.arguments| > 0
    ensures fresh(out)
    ensures var gasRemaining := env.computeGasRemaining(true, input.gasProvided, funcGasCost);
      var o := if env.isSmartContract(input.callerAddr)
        then WithOutputTransfer(Output(gasRemaining, [], [], map[]), input.callerAddr, Str(BuiltInFunctionMECTBurn),
                                input.arguments, input.recipientAddr, input.gasLocked, input.callType)
        else Output(gasRemaining, [], [], map[]);
      out.Snapshot() == o.(logs := [NewEntryForMECT(Str(BuiltInFunctionMECTBurn), input.arguments[0], 0, value, [input.callerAddr])])
  {
    var gasRemaining := env.computeGasRemaining(true, input.gasProvided, funcGasCost);
    out := new VMOutput(gasRemaining);
    if env.isSmartContract(input.callerAddr) {
      AddOutputTransferToVMOutput(input.callerAddr, Str(BuiltInFunctionMECTBurn), input.arguments,
                                  input.recipientAddr, input.gasLocked, input.callType, out);
    }
    AddMECTEntryInVMOutput(out, Str(BuiltInFunctionMECTBurn), input.arguments[0], 0, value, [input.callerAddr]);
  }
}
