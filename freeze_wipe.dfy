/**
 * Freezing, unfreezing and wiping a token record of one account, at the
 * request of the system smart contract.
 */
module FreezeWipe {

  import opened Encoding
  import opened Wrappers
  import opened MectMetaData
  import opened Store
  import opened Vm
  import opened LogsAndEvents
  import opened MectTransfer

  /** Which of the three functions: wipe, or freeze (`freeze` true) and unfreeze (`freeze` false). */
  datatype FreezeWipeFunc = FreezeWipeFunc(freeze: bool, wipe: bool)

  /** `wipeIfApplicable`: only a frozen record is removed; the wiped amount is its balance. */
  function WipeIfApplicable(d: Data, key: Bytes): (r: Result<(Data, int)>)
    ensures r.Ok? <==> GetMECTData(d, key).Ok? && UserFromBytes(GetMECTData(d, key).value.properties).frozen
    ensures r.Ok? ==> key !in r.value.0 && r.value.1 == BalanceOf(d, key)
    ensures r.Ok? ==> forall k :: k != key ==> Retrieve(r.value.0, k) == Retrieve(d, k)
    ensures GetMECTData(d, key).Ok? && r.Err? ==> r.error == ErrCannotWipeAccountNotFrozen
  {
    match GetMECTData(d, key)
      case Err(e) => Err(e)
      case Ok(t) =>
        if !UserFromBytes(t.properties).frozen then Err(ErrCannotWipeAccountNotFrozen)
        else Ok((Saved(d, key, Nil), t.value))
  }

  /**
   * `toggleFreeze`: the record's flags are rewritten as the frozen flag alone,
   * the balance is kept, and the amount reported is that balance.
   */
  function ToggleFreeze(d: Data, key: Bytes, freeze: bool): (r: Result<(Data, int)>)
    ensures r.Ok? <==> GetMECTData(d, key).Ok?
    ensures r.Ok? ==> GetMECTData(r.value.0, key).Ok?
    ensures r.Ok? ==> UserFromBytes(GetMECTData(r.value.0, key).value.properties).frozen == freeze
    ensures r.Ok? ==> BalanceOf(r.value.0, key) == BalanceOf(d, key) == r.value.1
    ensures r.Ok? ==> forall k :: k != key ==> Retrieve(r.value.0, k) == Retrieve(d, k)
  {
    match GetMECTData(d, key)
      case Err(e) => Err(e)
      case Ok(t) =>
        var updated := t.(properties := UserToBytes(UserMetadata(freeze)));
        Ok((SavedMECTData(d, key, updated), t.value))
  }

  /** `ProcessBuiltinFunction` of freeze, unfreeze and wipe as a value. */
  function FreezeWipeSpec(f: FreezeWipeFunc, input: CallInput, env: Env, dst: Option<AccountState>): (r: Result<(Data, Output)>)
    ensures input.callValue.None? ==> r == Err(ErrRuntimePanic)
    ensures r.Ok? ==>
      && input.callValue == Some(0)
      && |input.arguments| == 1
      && input.callerAddr == env.mectSCAddress
      && dst.Some?
    ensures r.Ok? && f.wipe ==> WipeIfApplicable(dst.value.data, TokenKey(input.arguments[0])).Ok?
  {
    if input.callValue.None? then Err(ErrRuntimePanic)
    else if input.callValue.value != 0 then Err(ErrBuiltInFunctionCalledWithValue)
    else if |input.arguments| != 1 then Err(ErrInvalidArguments)
    else if input.callerAddr != env.mectSCAddress then Err(ErrAddressIsNotMECTSystemSC)
    else if dst.None? then Err(ErrNilUserAccount)
    else
      var key := TokenKey(input.arguments[0]);
      var changed := if f.wipe then WipeIfApplicable(dst.value.data, key) else ToggleFreeze(dst.value.data, key, f.freeze);
      match changed
        case Err(e) => Err(e)
        case Ok((d, amount)) =>
          var (identifier, nonce) := ExtractTokenAndNonce(input.arguments[0]);
          var entry := NewEntryForMECT(Str(input.functionName), identifier, nonce, amount, [input.callerAddr, dst.value.address]);
          Ok((d, Output(0, [], [entry], map[])))
  }

  /** `ProcessBuiltinFunction` of freeze, unfreeze and wipe. */
  method ProcessFreezeWipe(f: FreezeWipeFunc, input: CallInput, env: Env, acntDst: Account?) returns (r: Result<VMOutput>)
    modifies acntDst
    ensures var spec := FreezeWipeSpec(f, input, env, old(StateOf(acntDst)));
      && (spec.Err? ==> r == Err(spec.error) && (acntDst != null ==> acntDst.data == old(acntDst.data)))
      && (spec.Ok? ==> r.Ok? && fresh(r.value) && r.value.Snapshot() == spec.value.1 && acntDst.data == spec.value.0)
  {
    if input.callValue.None? {
      return Err(ErrRuntimePanic);
    }
    if input.callValue.value != 0 {
      return Err(ErrBuiltInFunctionCalledWithValue);
    }
    if |input.arguments| != 1 {
      return Err(ErrInvalidArguments);
    }
    if input.callerAddr != env.mectSCAddress {
      return Err(ErrAddressIsNotMECTSystemSC);
    }
    if acntDst == null {
      return Err(ErrNilUserAccount);
    }
    var key := TokenKey(input.arguments[0]);
    var got := GetMECTData(acntDst.data, key);
    if got.Err? {
      return Err(got.error);
    }
    var t := got.value;
    if f.wipe {
      if !UserFromBytes(t.properties).frozen {
        return Err(ErrCannotWipeAccountNotFrozen);
      }
      acntDst.SaveKeyValue(key, Nil);
    } else {
      SaveMECTData(acntDst, t.(properties := UserToBytes(UserMetadata(f.freeze))), key);
    }
    var out := new VMOutput(0);
    var (identifier, nonce) := ExtractTokenAndNonce(input.arguments[0]);
    AddMECTEntryInVMOutput(out, Str(input.functionName), identifier, nonce, t.value, [input.callerAddr, acntDst.address]);
    return Ok(out);
  }

  /**
   * Once frozen, the account can neither send nor receive a fungible token,
   * except through the system smart contract or a call returning with an error.
   */
  lemma FrozenAccountCannotMove(input: CallInput, env: Env, dst: AccountState, key: Bytes, delta: int, sys: Data)
    requires FreezeWipeSpec(FreezeWipeFunc(true, false), input, env, Some(dst)).Ok?
    requires key == TokenKey(input.arguments[0]) && dst.address != env.mectSCAddress
    requires GetMECTData(dst.data, key).Ok? && GetMECTData(dst.data, key).value.tokenType == Fungible
    ensures var frozen := AccountState(dst.address, FreezeWipeSpec(FreezeWipeFunc(true, false), input, env, Some(dst)).value.0);
      AddToBalanceSpec(frozen, key, delta, sys, env, false) == Err(ErrMECTIsFrozenForAccount)
  {
    var frozen := AccountState(dst.address, FreezeWipeSpec(FreezeWipeFunc(true, false), input, env, Some(dst)).value.0);
    var t := GetMECTData(frozen.data, key).value;
    assert CheckFrozeAndPause(frozen.address, key, t, sys, env, false) == Failure(ErrMECTIsFrozenForAccount);
  }

  /** Freezing then unfreezing keeps the balance and leaves the record unfrozen. */
  lemma FreezeThenUnfreeze(input: CallInput, env: Env, dst: AccountState)
    requires FreezeWipeSpec(FreezeWipeFunc(true, false), input, env, Some(dst)).Ok?
    ensures var frozen := AccountState(dst.address, FreezeWipeSpec(FreezeWipeFunc(true, false), input, env, Some(dst)).value.0);
      var key := TokenKey(input.arguments[0]);
      && FreezeWipeSpec(FreezeWipeFunc(false, false), input, env, Some(frozen)).Ok?
      && var thawed := FreezeWipeSpec(FreezeWipeFunc(false, false), input, env, Some(frozen)).value.0;
      && !UserFromBytes(GetMECTData(thawed, key).value.properties).frozen
      && BalanceOf(thawed, key) == BalanceOf(dst.data, key)
  {
  }

  /** A wipe empties the balance and is refused for an account that is not frozen. */
  lemma WipeNeedsFrozen(input: CallInput, env: Env, dst: AccountState)
    requires input.callValue == Some(0) && |input.arguments| == 1 && input.callerAddr == env.mectSCAddress
    requires GetMECTData(dst.data, TokenKey(input.arguments[0])).Ok?
    ensures var r := FreezeWipeSpec(FreezeWipeFunc(false, true), input, env, Some(dst));
      var key := TokenKey(input.arguments[0]);
      && (r.Ok? <==> UserFromBytes(GetMECTData(dst.data, key).value.properties).frozen)
      && (r.Err? ==> r.error == ErrCannotWipeAccountNotFrozen)
      && (r.Ok? ==> BalanceOf(r.value.0, key) == 0)
  {
  }
}
