/**
 * The fungible token transfer and the balance bookkeeping every fungible
 * function shares: reading a record, adding to its balance under the frozen
 * and paused rules, saving it (or deleting it when it is empty), the
 * limited-transfer rule, and the forwarded transfer to another shard.
 */
module MectTransfer {

  import opened Encoding
  import opened Wrappers
  import opened MectMetaData
  import opened Store
  import opened Vm
  import opened Names
  import opened ArgChecks
  import opened GasCost
  import opened LogsAndEvents
  import opened Roles
  import opened GlobalSettings

  // ---------------------------------------------------------------------
  // Token records

  /**
   * `getMECTDataFromKey`: an absent or empty value is a new fungible record
   * with zero balance; a stored record is returned; anything else does not decode.
   */
  function GetMECTData(d: Data, key: Bytes): (r: Result<MECToken>)
    ensures key !in d ==> r == Ok(EmptyFungible)
    ensures key in d && d[key].Token? ==> r == Ok(d[key].token)
    ensures r.Err? <==> key in d && !d[key].Token? && d[key] != Nil
    ensures r.Err? ==> r.error == ErrUnmarshal
  {
    match Retrieve(d, key)
      case Raw(b) => if b == [] then Ok(EmptyFungible) else Err(ErrUnmarshal)
      case Token(t) => Ok(t)
      case RoleList(_) => Err(ErrUnmarshal)
  }

  /** The balance held under a key: the record's value, zero when there is no readable record. */
  function BalanceOf(d: Data, key: Bytes): (v: int)
    ensures key !in d ==> v == 0
    ensures GetMECTData(d, key).Ok? ==> v == GetMECTData(d, key).value.value
  {
    match GetMECTData(d, key)
      case Ok(t) => t.value
      case Err(_) => 0
  }

  predicate PropertiesEmpty(properties: Bytes)
  {
    forall i :: 0 <= i < |properties| ==> properties[i] == 0
  }

  /** `arePropertiesEmpty`: every flag byte is zero. */
  method ArePropertiesEmpty(properties: Bytes) returns (b: bool)
    ensures b == PropertiesEmpty(properties)
  {
    for i := 0 to |properties|
      invariant forall j :: 0 <= j < i ==> properties[j] == 0
    {
      if properties[i] != 0 {
        return false;
      }
    }
    return true;
  }

  /**
   * `saveMECTData` as a value: a record with zero value and no flags is
   * deleted, any other is stored. Reading back gives the record, or the
   * fresh record when it was deleted; no other key changes.
   */
  function SavedMECTData(d: Data, key: Bytes, t: MECToken): (r: Data)
    ensures GetMECTData(r, key) == Ok(if t.value == 0 && PropertiesEmpty(t.properties) then EmptyFungible else t)
    ensures t.value == 0 && PropertiesEmpty(t.properties) <==> key !in r
    ensures forall k :: k != key ==> Retrieve(r, k) == Retrieve(d, k)
  {
    if t.value == 0 && PropertiesEmpty(t.properties) then Saved(d, key, Nil) else Saved(d, key, Token(t))
  }

  method SaveMECTData(acnt: Account, t: MECToken, key: Bytes)
    modifies acnt
    ensures acnt.data == SavedMECTData(old(acnt.data), key, t)
  {
    var empty := ArePropertiesEmpty(t.properties);
    if t.value == 0 && empty {
      acnt.SaveKeyValue(key, Nil);
    } else {
      acnt.SaveKeyValue(key, Token(t));
    }
  }

  /**
   * `checkFrozeAndPause`: skipped for a call returning with an error and for
   * the system smart contract; otherwise a frozen account, then a paused
   * token, is refused.
   */
  function CheckFrozeAndPause(addr: Bytes, key: Bytes, t: MECToken, sys: Data, env: Env, isReturnWithError: bool): (s: Status)
    ensures s == Success <==>
      isReturnWithError || addr == env.mectSCAddress || (!UserFromBytes(t.properties).frozen && !IsPaused(sys, key))
    ensures !isReturnWithError && addr != env.mectSCAddress && UserFromBytes(t.properties).frozen ==>
      s == Failure(ErrMECTIsFrozenForAccount)
    ensures s != Success && !UserFromBytes(t.properties).frozen ==> s == Failure(ErrMECTTokenIsPaused)
  {
    if isReturnWithError then Success
    else if addr == env.mectSCAddress then Success
    else if UserFromBytes(t.properties).frozen then Failure(ErrMECTIsFrozenForAccount)
    else if IsPaused(sys, key) then Failure(ErrMECTTokenIsPaused)
    else Success
  }

  /**
   * `addToMECTBalance` as a value: the account's new data, or the error.
   * A success moves the balance by exactly `delta`, never below zero, on a
   * fungible record that is neither frozen nor paused for this account, and
   * touches no other key.
   */
  function AddToBalanceSpec(acnt: AccountState, key: Bytes, delta: int, sys: Data, env: Env, isReturnWithError: bool): (r: Result<Data>)
    ensures r.Ok? ==>
      && GetMECTData(acnt.data, key).Ok?
      && GetMECTData(acnt.data, key).value.tokenType == Fungible
      && CheckFrozeAndPause(acnt.address, key, GetMECTData(acnt.data, key).value, sys, env, isReturnWithError) == Success
      && BalanceOf(r.value, key) == BalanceOf(acnt.data, key) + delta >= 0
      && (forall k :: k != key ==> Retrieve(r.value, k) == Retrieve(acnt.data, k))
    ensures GetMECTData(acnt.data, key).Ok? && BalanceOf(acnt.data, key) + delta < 0 ==> r.Err?
    ensures r.Ok? && BalanceOf(acnt.data, key) + delta == 0 && PropertiesEmpty(GetMECTData(acnt.data, key).value.properties) ==>
      key !in r.value
  {
    match GetMECTData(acnt.data, key)
      case Err(e) => Err(e)
      case Ok(t) =>
        if t.tokenType != Fungible then Err(ErrOnlyFungibleTokensHaveBalanceTransfer)
        else
          var frozePause := CheckFrozeAndPause(acnt.address, key, t, sys, env, isReturnWithError);
          if frozePause.Failure? then Err(frozePause.error)
          else if t.value + delta < 0 then Err(ErrInsufficientFunds)
          else Ok(SavedMECTData(acnt.data, key, t.(value := t.value + delta)))
  }

  method AddToMECTBalance(acnt: Account, key: Bytes, delta: int, sys: Data, env: Env, isReturnWithError: bool) returns (s: Status)
    modifies acnt
    ensures var spec := AddToBalanceSpec(old(acnt.State()), key, delta, sys, env, isReturnWithError);
      && (spec.Err? ==> s == Failure(spec.error) && acnt.data == old(acnt.data))
      && (spec.Ok? ==> s == Success && acnt.data == spec.value)
  {
    var got := GetMECTData(acnt.data, key);
    if got.Err? {
      return Failure(got.error);
    }
    var t := got.value;
    if t.tokenType != Fungible {
      return Failure(ErrOnlyFungibleTokensHaveBalanceTransfer);
    }
    var frozePause := CheckFrozeAndPause(acnt.address, key, t, sys, env, isReturnWithError);
    if frozePause.Failure? {
      return frozePause;
    }
    t := t.(value := t.value + delta);
    if t.value < 0 {
      return Failure(ErrInsufficientFunds);
    }
    SaveMECTData(acnt, t, key);
    return Success;
  }

  /** Adding then taking away the same amount leaves the balance where it was. */
  lemma AddThenSubtractRestores(acnt: AccountState, key: Bytes, delta: int, sys: Data, env: Env, rcae: bool)
    requires AddToBalanceSpec(acnt, key, delta, sys, env, rcae).Ok?
    requires AddToBalanceSpec(AccountState(acnt.address, AddToBalanceSpec(acnt, key, delta, sys, env, rcae).value), key, -delta, sys, env, rcae).Ok?
    ensures BalanceOf(AddToBalanceSpec(AccountState(acnt.address, AddToBalanceSpec(acnt, key, delta, sys, env, rcae).value), key, -delta, sys, env, rcae).value, key)
      == BalanceOf(acnt.data, key)
  {
  }

  // ---------------------------------------------------------------------
  // Limited transfer

  /**
   * `checkIfTransferCanHappenWithLimitedTransfer` as a value: nothing to
   * check for a call returning with an error, on the destination shard or for
   * a token without limited transfer; otherwise the allowlist, then the
   * sender's transfer role, then the destination's decides.
   */
  function LimitedTransferCheck(
    transferRoleActive: bool, tokenID: Bytes, tokenKey: Bytes, sender: Bytes, destination: Bytes,
    sys: Data, snd: Option<AccountState>, dst: Option<AccountState>, isReturnWithError: bool): (s: Status)
    ensures s == Success <==>
      || isReturnWithError
      || snd.None?
      || !IsLimitedTransfer(sys, tokenKey)
      || HasTransferRole(transferRoleActive, sys, sender, destination, tokenID)
      || AllowedToExecute(snd, tokenID, Str(MECTRoleTransfer)) == Success
      || AllowedToExecute(dst, tokenID, Str(MECTRoleTransfer)) == Success
    ensures s != Success ==> s == AllowedToExecute(dst, tokenID, Str(MECTRoleTransfer))
  {
    if isReturnWithError || snd.None? || !IsLimitedTransfer(sys, tokenKey) then Success
    else if HasTransferRole(transferRoleActive, sys, sender, destination, tokenID) then Success
    else if AllowedToExecute(snd, tokenID, Str(MECTRoleTransfer)) == Success then Success
    else AllowedToExecute(dst, tokenID, Str(MECTRoleTransfer))
  }

  method CheckIfTransferCanHappenWithLimitedTransfer(
    transferRoleActive: bool, tokenID: Bytes, tokenKey: Bytes, sender: Bytes, destination: Bytes,
    sys: Data, acntSnd: Account?, acntDst: Account?, isReturnWithError: bool) returns (s: Status)
    ensures s == LimitedTransferCheck(transferRoleActive, tokenID, tokenKey, sender, destination, sys, StateOf(acntSnd), StateOf(acntDst), isReturnWithError)
  {
    if isReturnWithError || acntSnd == null || !IsLimitedTransfer(sys, tokenKey) {
      return Success;
    }
    var listed := IsSenderOrDestinationWithTransferRole(transferRoleActive, sys, sender, destination, tokenID);
    if listed {
      return Success;
    }
    var errSender := CheckAllowedToExecute(acntSnd, tokenID, Str(MECTRoleTransfer));
    if errSender == Success {
      return Success;
    }
    s := CheckAllowedToExecute(acntDst, tokenID, Str(MECTRoleTransfer));
  }

  // ---------------------------------------------------------------------
  // The forwarded transfer

  /** '@', the separator of call data. */
  const At: byte := 64

  function HexAll(args: seq<Bytes>): (r: seq<Bytes>)
    ensures |r| == |args| && forall i :: 0 <= i < |args| ==> r[i] == Hex(args[i])
  {
    seq(|args|, i requires 0 <= i < |args| => Hex(args[i]))
  }

  /** The call data of a forwarded transfer: the function, then "@" and the hex of each argument. */
  function TransferTxData(funcName: Bytes, args: seq<Bytes>): Bytes
  {
    Join([funcName] + HexAll(args), At)
  }

  /** The call data splits back into the function and the arguments, whenever the function has no '@'. */
  lemma TransferTxDataRoundTrip(funcName: Bytes, args: seq<Bytes>)
    requires At !in funcName
    ensures var parts := Split(TransferTxData(funcName, args), At);
      && |parts| == |args| + 1
      && parts[0] == funcName
      && forall i :: 0 <= i < |args| ==> UnHex(parts[i + 1]) == Some(args[i])
  {
    var parts := [funcName] + HexAll(args);
    forall k | 0 <= k < |parts| ensures At !in parts[k] {
      if k > 0 {
        HexDigitsOnly(args[k - 1], At);
      }
    }
    SplitJoin(parts, At);
    forall i | 0 <= i < |args| ensures UnHex(parts[i + 1]) == Some(args[i]) {
      UnHexHex(args[i]);
    }
  }

  /**
   * What `addOutputTransferToVMOutput` leaves: the output accounts replaced
   * by the one recipient with one zero-value transfer carrying the call data
   * and all remaining gas; the remaining gas is then zero.
   */
  function WithOutputTransfer(o: Output, sender: Bytes, funcName: Bytes, args: seq<Bytes>, recipient: Bytes, gasLocked: uint64, callType: CallType): (r: Output)
    ensures r.gasRemaining == 0 && r.logs == o.logs && r.returnData == o.returnData
    ensures r.outputAccounts.Keys == {recipient}
    ensures r.outputAccounts[recipient].outputTransfers ==
      [OutputTransfer(0, o.gasRemaining, gasLocked, TransferTxData(funcName, args), callType, sender)]
  {
    var transfer := OutputTransfer(0, o.gasRemaining, gasLocked, TransferTxData(funcName, args), callType, sender);
    o.(outputAccounts := map[recipient := OutputAccount(recipient, [transfer])], gasRemaining := 0)
  }

  method AddOutputTransferToVMOutput(sender: Bytes, funcName: Bytes, args: seq<Bytes>, recipient: Bytes, gasLocked: uint64, callType: CallType, out: VMOutput)
    modifies out
    ensures out.Snapshot() == WithOutputTransfer(old(out.Snapshot()), sender, funcName, args, recipient, gasLocked, callType)
  {
    var data := funcName;
    for k := 0 to |args|
      invariant data == Join([funcName] + HexAll(args[..k]), At)
      invariant unchanged(out)
    {
      assert [funcName] + HexAll(args[..k + 1]) == ([funcName] + HexAll(args[..k])) + [Hex(args[k])];
      JoinSnoc([funcName] + HexAll(args[..k]), Hex(args[k]), At);
      data := data + [At] + Hex(args[k]);
    }
    assert args[..|args|] == args;
    assert data == TransferTxData(funcName, args);
    var transfer := OutputTransfer(0, out.gasRemaining, gasLocked, data, callType, sender);
    out.outputAccounts := map[recipient := OutputAccount(recipient, [transfer])];
    out.gasRemaining := 0;
  }

  // ---------------------------------------------------------------------
  // The transfer function

  /**
   * The account data after a transfer and its result. On an error the
   * accounts hold whatever was written before it: the sender may already be
   * debited when the destination refuses the amount.
   */
  datatype TransferOutcome = TransferOutcome(snd: Option<Data>, dst: Option<Data>, result: Result<Output>)

  function DataOf(a: Option<AccountState>): (r: Option<Data>)
    ensures r.Some? <==> a.Some?
    ensures a.Some? ==> r.value == a.value.data
  {
    if a.None? then None else Some(a.value.data)
  }

  /** The checks of the transfer up to the sender's debit, which all precede any write. */
  function TransferPreChecks(funcGasCost: uint64, cfg: Config, input: CallInput, env: Env, sys: Data, snd: Option<AccountState>, dst: Option<AccountState>): (s: Status)
    ensures s == Success ==> CheckBasicMECTArguments(input) == Success && FromBE(input.arguments[1]) > 0
    ensures CheckBasicMECTArguments(input) == Success && env.shardOf(input.recipientAddr) == MetachainShardId && !cfg.transferToMeta ==>
      s == Failure(ErrInvalidRcvAddr)
  {
    var basic := CheckBasicMECTArguments(input);
    if basic.Failure? then basic
    else if env.shardOf(input.recipientAddr) == MetachainShardId && !cfg.transferToMeta then Failure(ErrInvalidRcvAddr)
    else if FromBE(input.arguments[1]) == 0 then Failure(ErrNegativeValue)
    else
      var tokenID := input.arguments[0];
      var keyToCheck := if cfg.checkCorrectTokenID then tokenID else TokenKey(tokenID);
      var limited := LimitedTransferCheck(cfg.transferRoleActive, keyToCheck, TokenKey(tokenID), input.callerAddr, input.recipientAddr,
                                          sys, snd, dst, input.returnCallAfterError);
      if limited.Failure? then limited
      else if snd.Some? && input.gasProvided < funcGasCost then Failure(ErrNotEnoughGas)
      else Success
  }

  /** The log entry of a transfer: token, zero nonce, the amount, the caller and the receiver. */
  function TransferEntry(input: CallInput, value: nat, receiver: Bytes): LogEntry
    requires |input.arguments| >= 1
  {
    NewEntryForMECT(Str(BuiltInFunctionMECTTransfer), input.arguments[0], 0, value, [input.callerAddr, receiver])
  }

  /**
   * The output once the destination is credited: the call forwarded to a
   * contract (which needs a function name) with the gas left after this
   * function, or the whole gas back for a callback without a sender here.
   */
  function CreditedOutput(funcGasCost: uint64, input: CallInput, env: Env, sndPresent: bool, dstAddress: Bytes, gasRemaining: nat)
    : (r: Result<Output>)
    requires CheckBasicMECTArguments(input) == Success
    ensures r.Ok? ==> r.value.logs == [TransferEntry(input, FromBE(input.arguments[1]), dstAddress)]
    ensures r.Err? <==> env.isSCCallAfter(input, input.recipientAddr, MinLenArgumentsMECTTransfer) && |input.arguments| <= MinLenArgumentsMECTTransfer
  {
    var entry := TransferEntry(input, FromBE(input.arguments[1]), dstAddress);
    if env.isSCCallAfter(input, input.recipientAddr, MinLenArgumentsMECTTransfer) then
      if |input.arguments| <= MinLenArgumentsMECTTransfer then Err(ErrRuntimePanic)
      else
        var gas := SafeSubUint64(input.gasProvided, funcGasCost).0;
        var callArgs := if |input.arguments| > MinLenArgumentsMECTTransfer + 1 then input.arguments[MinLenArgumentsMECTTransfer + 1..] else [];
        var o := WithOutputTransfer(Output(gas, [], [], map[]), input.callerAddr, input.arguments[MinLenArgumentsMECTTransfer],
                                    callArgs, input.recipientAddr, input.gasLocked, input.callType);
        Ok(o.(logs := [entry]))
    else
      var gas := if input.callType == AsynchronousCallBack && !sndPresent then input.gasProvided else gasRemaining;
      Ok(Output(gas, [], [entry], map[]))
  }

  /** The part of the transfer from the credit of the destination on. */
  function ReceiveSpec(funcGasCost: uint64, input: CallInput, env: Env, sys: Data, sndAfter: Option<Data>, dst: Option<AccountState>, gasRemaining: nat): (o: TransferOutcome)
    requires CheckBasicMECTArguments(input) == Success
    ensures o.snd == sndAfter
    ensures dst.None? ==> o.dst.None? && o.result.Ok?
  {
    var value, tokenKey := FromBE(input.arguments[1]), TokenKey(input.arguments[0]);
    var isSCCallAfter := env.isSCCallAfter(input, input.recipientAddr, MinLenArgumentsMECTTransfer);
    if dst.Some? then
      if !env.checkPayable(input, input.recipientAddr, MinLenArgumentsMECTTransfer) then
        TransferOutcome(sndAfter, DataOf(dst), Err(ErrAccountNotPayable))
      else match AddToBalanceSpec(dst.value, tokenKey, value, sys, env, input.returnCallAfterError)
        case Err(e) => TransferOutcome(sndAfter, DataOf(dst), Err(e))
        case Ok(d) => TransferOutcome(sndAfter, Some(d), CreditedOutput(funcGasCost, input, env, sndAfter.Some?, dst.value.address, gasRemaining))
    else
      var entry := TransferEntry(input, value, input.recipientAddr);
      var o := if env.isSmartContract(input.callerAddr)
        then WithOutputTransfer(Output(gasRemaining, [], [], map[]), input.callerAddr, Str(BuiltInFunctionMECTTransfer),
                                input.arguments, input.recipientAddr, input.gasLocked, input.callType)
        else Output(gasRemaining, [], [], map[]);
      TransferOutcome(sndAfter, None, Ok(o.(logs := [entry])))
  }

  /**
   * `ProcessBuiltinFunction` of the fungible transfer as a value. `snd` and
   * `dst` are the accounts present in this shard; `sys` is the data of the
   * system account, where the token's settings and allowlist live.
   */
  function TransferSpec(funcGasCost: uint64, cfg: Config, input: CallInput, env: Env, sys: Data, snd: Option<AccountState>, dst: Option<AccountState>): (o: TransferOutcome)
    ensures o.snd.Some? <==> snd.Some?
    ensures o.dst.Some? <==> dst.Some?
    ensures TransferPreChecks(funcGasCost, cfg, input, env, sys, snd, dst).Failure? ==>
      o == TransferOutcome(DataOf(snd), DataOf(dst), Err(TransferPreChecks(funcGasCost, cfg, input, env, sys, snd, dst).error))
  {
    var pre := TransferPreChecks(funcGasCost, cfg, input, env, sys, snd, dst);
    if pre.Failure? then TransferOutcome(DataOf(snd), DataOf(dst), Err(pre.error))
    else
      var value, tokenKey := FromBE(input.arguments[1]), TokenKey(input.arguments[0]);
      var gasRemaining := env.computeGasRemaining(snd.Some?, input.gasProvided, funcGasCost);
      if snd.None? then ReceiveSpec(funcGasCost, input, env, sys, None, dst, gasRemaining)
      else match AddToBalanceSpec(snd.value, tokenKey, -(value as int), sys, env, input.returnCallAfterError)
        case Err(e) => TransferOutcome(DataOf(snd), DataOf(dst), Err(e))
        case Ok(d) => ReceiveSpec(funcGasCost, input, env, sys, Some(d), dst, gasRemaining)
  }

  /** `ProcessBuiltinFunction` of the fungible transfer. */
  method ProcessMECTTransfer(funcGasCost: uint64, cfg: Config, input: CallInput, env: Env, sys: Data, acntSnd: Account?, acntDst: Account?)
    returns (r: Result<VMOutput>)
    requires acntSnd == null || acntSnd != acntDst
    modifies acntSnd, acntDst
    ensures var o := TransferSpec(funcGasCost, cfg, input, env, sys, old(StateOf(acntSnd)), old(StateOf(acntDst)));
      && (acntSnd != null ==> acntSnd.data == o.snd.value)
      && (acntDst != null ==> acntDst.data == o.dst.value)
      && (o.result.Err? ==> r == Err(o.result.error))
      && (o.result.Ok? ==> r.Ok? && fresh(r.value) && r.value.Snapshot() == o.result.value)
  {
    var pre := CheckTransferPreconditions(funcGasCost, cfg, input, env, sys, acntSnd, acntDst);
    if pre.Failure? {
      return Err(pre.error);
    }
    var value := FromBE(input.arguments[1]);
    var gasRemaining := env.computeGasRemaining(acntSnd != null, input.gasProvided, funcGasCost);
    var tokenKey := TokenKey(input.arguments[0]);
    if acntSnd != null {
      var s := AddToMECTBalance(acntSnd, tokenKey, -(value as int), sys, env, input.returnCallAfterError);
      if s.Failure? {
        return Err(s.error);
      }
    }
    ghost var sndAfter := if acntSnd == null then None else Some(acntSnd.data);
    r := Receive(funcGasCost, input, env, sys, acntSnd != null, acntDst, gasRemaining, sndAfter);
  }

  /** The checks of `ProcessBuiltinFunction` made before any balance changes. */
  method CheckTransferPreconditions(funcGasCost: uint64, cfg: Config, input: CallInput, env: Env, sys: Data, acntSnd: Account?, acntDst: Account?)
    returns (s: Status)
    ensures s == TransferPreChecks(funcGasCost, cfg, input, env, sys, StateOf(acntSnd), StateOf(acntDst))
  {
    var basic := CheckBasicMECTArguments(input);
    if basic.Failure? {
      return basic;
    }
    if env.shardOf(input.recipientAddr) == MetachainShardId && !cfg.transferToMeta {
      return Failure(ErrInvalidRcvAddr);
    }
    var value := FromBE(input.arguments[1]);
    if value <= 0 {
      return Failure(ErrNegativeValue);
    }
    var tokenID := input.arguments[0];
    var tokenKey := TokenKey(tokenID);
    var keyToCheck := if cfg.checkCorrectTokenID then tokenID else tokenKey;
    s := CheckIfTransferCanHappenWithLimitedTransfer(cfg.transferRoleActive, keyToCheck, tokenKey, input.callerAddr, input.recipientAddr,
                                                     sys, acntSnd, acntDst, input.returnCallAfterError);
    if s.Success? && acntSnd != null && input.gasProvided < funcGasCost {
      s := Failure(ErrNotEnoughGas);
    }
  }

  /** The second half of `ProcessBuiltinFunction`: the credit, the forwarded call and the log. */
  method Receive(funcGasCost: uint64, input: CallInput, env: Env, sys: Data, sndPresent: bool, acntDst: Account?, gasRemaining: nat, ghost sndAfter: Option<Data>)
    returns (r: Result<VMOutput>)
    requires CheckBasicMECTArguments(input) == Success
    requires sndPresent == sndAfter.Some?
    modifies acntDst
    ensures var o := ReceiveSpec(funcGasCost, input, env, sys, sndAfter, old(StateOf(acntDst)), gasRemaining);
      && (acntDst != null ==> acntDst.data == o.dst.value)
      && (o.result.Err? ==> r == Err(o.result.error))
      && (o.result.Ok? ==> r.Ok? && fresh(r.value) && r.value.Snapshot() == o.result.value)
  {
    var value, tokenID := FromBE(input.arguments[1]), input.arguments[0];
    var tokenKey := TokenKey(tokenID);
    if acntDst != null {
      if !env.checkPayable(input, input.recipientAddr, MinLenArgumentsMECTTransfer) {
        return Err(ErrAccountNotPayable);
      }
      var s := AddToMECTBalance(acntDst, tokenKey, value, sys, env, input.returnCallAfterError);
      if s.Failure? {
        return Err(s.error);
      }
      r := EmitCredited(funcGasCost, input, env, sndPresent, acntDst.address, gasRemaining);
      return;
    }
    var out := new VMOutput(gasRemaining);
    if env.isSmartContract(input.callerAddr) {
      AddOutputTransferToVMOutput(input.callerAddr, Str(BuiltInFunctionMECTTransfer), input.arguments,
                                  input.recipientAddr, input.gasLocked, input.callType, out);
    }
    AddMECTEntryInVMOutput(out, Str(BuiltInFunctionMECTTransfer), tokenID, 0, value, [input.callerAddr, input.recipientAddr]);
    return Ok(out);
  }

  /** The output of `Receive` once the destination is credited. */
  method EmitCredited(funcGasCost: uint64, input: CallInput, env: Env, sndPresent: bool, dstAddress: Bytes, gasRemaining: nat)
    returns (r: Result<VMOutput>)
    requires CheckBasicMECTArguments(input) == Success
    ensures var c := CreditedOutput(funcGasCost, input, env, sndPresent, dstAddress, gasRemaining);
      && (c.Err? ==> r == Err(c.error))
      && (c.Ok? ==> r.Ok? && fresh(r.value) && r.value.Snapshot() == c.value)
  {
    var value, tokenID := FromBE(input.arguments[1]), input.arguments[0];
    var out := new VMOutput(gasRemaining);
    if env.isSCCallAfter(input, input.recipientAddr, MinLenArgumentsMECTTransfer) {
      if |input.arguments| <= MinLenArgumentsMECTTransfer {
        return Err(ErrRuntimePanic);
      }
      out.gasRemaining := SafeSubUint64(input.gasProvided, funcGasCost).0;
      var callArgs: seq<Bytes> := [];
      if |input.arguments| > MinLenArgumentsMECTTransfer + 1 {
        callArgs := input.arguments[MinLenArgumentsMECTTransfer + 1..];
      }
      AddOutputTransferToVMOutput(input.callerAddr, input.arguments[MinLenArgumentsMECTTransfer], callArgs,
                                  input.recipientAddr, input.gasLocked, input.callType, out);
      AddMECTEntryInVMOutput(out, Str(BuiltInFunctionMECTTransfer), tokenID, 0, value, [input.callerAddr, dstAddress]);
      return Ok(out);
    }
    if input.callType == AsynchronousCallBack && !sndPresent {
      out.gasRemaining := input.gasProvided;
    }
    AddMECTEntryInVMOutput(out, Str(BuiltInFunctionMECTTransfer), tokenID, 0, value, [input.callerAddr, dstAddress]);
    return Ok(out);
  }

  // ---------------------------------------------------------------------
  // Properties of the transfer

  /**
   * Within one shard a successful transfer takes exactly the amount from the
   * sender and gives it to the destination: the sum of the two balances is
   * kept and neither goes below zero.
   */
  lemma TransferMovesExactAmount(funcGasCost: uint64, cfg: Config, input: CallInput, env: Env, sys: Data, snd: AccountState, dst: AccountState)
    requires TransferSpec(funcGasCost, cfg, input, env, sys, Some(snd), Some(dst)).result.Ok?
    ensures var o := TransferSpec(funcGasCost, cfg, input, env, sys, Some(snd), Some(dst));
      var key, value := TokenKey(input.arguments[0]), FromBE(input.arguments[1]);
      && value > 0
      && BalanceOf(o.snd.value, key) == BalanceOf(snd.data, key) - value >= 0
      && BalanceOf(o.dst.value, key) == BalanceOf(dst.data, key) + value
      && BalanceOf(o.snd.value, key) + BalanceOf(o.dst.value, key) == BalanceOf(snd.data, key) + BalanceOf(dst.data, key)
  {
  }

  /**
   * An error before the sender's debit changes nothing; any other error leaves
   * the destination as it was, except the index panic after its credit, and
   * the sender is only left debited when a destination refused the amount.
   */
  lemma TransferErrorWrites(funcGasCost: uint64, cfg: Config, input: CallInput, env: Env, sys: Data, snd: Option<AccountState>, dst: Option<AccountState>)
    requires TransferSpec(funcGasCost, cfg, input, env, sys, snd, dst).result.Err?
    ensures var o := TransferSpec(funcGasCost, cfg, input, env, sys, snd, dst);
      && (TransferPreChecks(funcGasCost, cfg, input, env, sys, snd, dst).Failure? ==> o.snd == DataOf(snd) && o.dst == DataOf(dst))
      && (o.result.error != ErrRuntimePanic ==> o.dst == DataOf(dst))
      && (o.snd != DataOf(snd) ==> dst.Some?)
  {
  }

  /**
   * On the sender's shard a limited-transfer token only moves when the
   * allowlist or a transfer role of either party permits it.
   */
  lemma LimitedTransferEnforced(funcGasCost: uint64, cfg: Config, input: CallInput, env: Env, sys: Data, snd: AccountState, dst: Option<AccountState>)
    requires TransferSpec(funcGasCost, cfg, input, env, sys, Some(snd), dst).result.Ok?
    requires !input.returnCallAfterError && IsLimitedTransfer(sys, TokenKey(input.arguments[0]))
    ensures var keyToCheck := if cfg.checkCorrectTokenID then input.arguments[0] else TokenKey(input.arguments[0]);
      || HasTransferRole(cfg.transferRoleActive, sys, input.callerAddr, input.recipientAddr, keyToCheck)
      || AllowedToExecute(Some(snd), keyToCheck, Str(MECTRoleTransfer)) == Success
      || AllowedToExecute(dst, keyToCheck, Str(MECTRoleTransfer)) == Success
  {
  }

  /**
   * On the sender's shard, for a destination elsewhere, a smart-contract
   * caller forwards one transfer to the recipient whose call data names the
   * transfer function and carries every argument; the log names the recipient.
   */
  lemma CrossShardForwardsArguments(funcGasCost: uint64, cfg: Config, input: CallInput, env: Env, sys: Data, snd: Option<AccountState>)
    requires TransferSpec(funcGasCost, cfg, input, env, sys, snd, None).result.Ok?
    requires env.isSmartContract(input.callerAddr)
    ensures var out := TransferSpec(funcGasCost, cfg, input, env, sys, snd, None).result.value;
      var transfers := out.outputAccounts[input.recipientAddr].outputTransfers;
      var parts := Split(transfers[0].data, At);
      && out.outputAccounts.Keys == {input.recipientAddr}
      && |transfers| == 1 && transfers[0].value == 0 && transfers[0].senderAddress == input.callerAddr
      && parts[0] == Str(BuiltInFunctionMECTTransfer)
      && |parts| == |input.arguments| + 1
      && (forall i :: 0 <= i < |input.arguments| ==> UnHex(parts[i + 1]) == Some(input.arguments[i]))
      && out.gasRemaining == 0
      && out.logs == [TransferEntry(input, FromBE(input.arguments[1]), input.recipientAddr)]
  {
    assert At !in Str(BuiltInFunctionMECTTransfer);
    TransferTxDataRoundTrip(Str(BuiltInFunctionMECTTransfer), input.arguments);
  }
}
