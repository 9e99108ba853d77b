/**
 * The token-wide settings kept on the system account (paused, limited
 * transfer, burn role for all), the six functions that toggle them, and the
 * reads the other functions make of them and of the transfer allowlist.
 */
module GlobalSettings {

  import opened Encoding
  import opened Wrappers
  import opened MectMetaData
  import opened Store
  import opened Vm
  import opened Names
  import opened Roles

  /**
   * `isCorrectFunction`: the pause, limited-transfer and burn-for-all
   * set/unset names, that is, exactly the names whose toggle sets a flag.
   */
  predicate IsCorrectFunction(funcName: string): (b: bool)
    ensures b <==> Toggled(NoGlobalFlags, funcName, true) != NoGlobalFlags
  {
    funcName in SettingsFunctions
  }

  const SettingsFunctions: set<string> :=
    {BuiltInFunctionMECTPause, BuiltInFunctionMECTUnPause,
     BuiltInFunctionMECTSetLimitedTransfer, BuiltInFunctionMECTUnSetLimitedTransfer,
     BuiltInFunctionMECTSetBurnRoleForAll, BuiltInFunctionMECTUnSetBurnRoleForAll}

  /** The configuration of one settings function: which name it serves and whether it sets or clears. */
  datatype GlobalSettingsFunc = GlobalSettingsFunc(funcName: string, isSet: bool)

  /** `NewMECTGlobalSettingsFunc`: any other function name is refused. */
  function NewMECTGlobalSettingsFunc(isSet: bool, funcName: string): (r: Result<GlobalSettingsFunc>)
    ensures r.Ok? <==> IsCorrectFunction(funcName)
    ensures r.Ok? ==> r.value.funcName == funcName && r.value.isSet == isSet
    ensures r.Err? ==> r.error == ErrInvalidArguments
  {
    if !IsCorrectFunction(funcName) then Err(ErrInvalidArguments)
    else Ok(GlobalSettingsFunc(funcName, isSet))
  }

  /** `getGlobalMetadata`: whatever is stored under the key, decoded; absent is all false. */
  function GlobalMetadataAt(sys: Data, key: Bytes): (m: GlobalMetadata)
    ensures key !in sys ==> m == NoGlobalFlags
  {
    GlobalFromBytes(AsBytes(Retrieve(sys, key)))
  }

  /** An absent record reads as not set. */
  function IsPaused(sys: Data, key: Bytes): (b: bool)
    ensures key !in sys ==> !b
    ensures b ==> key in sys && sys[key].Raw? && |sys[key].bytes| == LengthOfMECTMetadata
  {
    GlobalMetadataAt(sys, key).paused
  }

  /** An absent record reads as not set. */
  function IsLimitedTransfer(sys: Data, key: Bytes): (b: bool)
    ensures key !in sys ==> !b
    ensures b ==> key in sys && sys[key].Raw? && |sys[key].bytes| == LengthOfMECTMetadata
  {
    GlobalMetadataAt(sys, key).limitedTransfer
  }

  /** An absent record reads as not set. */
  function IsBurnForAll(sys: Data, key: Bytes): (b: bool)
    ensures key !in sys ==> !b
    ensures b ==> key in sys && sys[key].Raw? && |sys[key].bytes| == LengthOfMECTMetadata
  {
    GlobalMetadataAt(sys, key).burnRoleForAll
  }

  /** The switch of `toggleSetting`: only the field the function names changes. */
  function Toggled(m: GlobalMetadata, funcName: string, isSet: bool): (r: GlobalMetadata)
    ensures funcName in {BuiltInFunctionMECTPause, BuiltInFunctionMECTUnPause} ==> r == m.(paused := isSet)
    ensures funcName in {BuiltInFunctionMECTSetLimitedTransfer, BuiltInFunctionMECTUnSetLimitedTransfer} ==> r == m.(limitedTransfer := isSet)
    ensures funcName in {BuiltInFunctionMECTSetBurnRoleForAll, BuiltInFunctionMECTUnSetBurnRoleForAll} ==> r == m.(burnRoleForAll := isSet)
    ensures funcName !in SettingsFunctions ==> r == m
  {
    if funcName == BuiltInFunctionMECTSetLimitedTransfer || funcName == BuiltInFunctionMECTUnSetLimitedTransfer then m.(limitedTransfer := isSet)
    else if funcName == BuiltInFunctionMECTPause || funcName == BuiltInFunctionMECTUnPause then m.(paused := isSet)
    else if funcName == BuiltInFunctionMECTUnSetBurnRoleForAll || funcName == BuiltInFunctionMECTSetBurnRoleForAll then m.(burnRoleForAll := isSet)
    else m
  }

  /** What `toggleSetting` leaves on the system account. */
  function ToggledSetting(f: GlobalSettingsFunc, sys: Data, key: Bytes): Data
  {
    Saved(sys, key, Raw(GlobalToBytes(Toggled(GlobalMetadataAt(sys, key), f.funcName, f.isSet))))
  }

  /** `ProcessBuiltinFunction` as a value: the new system-account data, or the error. */
  function GlobalSettingsSpec(f: GlobalSettingsFunc, input: CallInput, env: Env, sys: Data): (r: Result<Data>)
    ensures r.Ok? <==>
      && input.callValue == Some(0)
      && |input.arguments| == 1
      && input.callerAddr == env.mectSCAddress
      && env.isSystemAccount(input.recipientAddr)
    ensures input.callValue.None? ==> r == Err(ErrRuntimePanic)
    ensures r.Ok? ==> r.value == ToggledSetting(f, sys, TokenKey(input.arguments[0]))
  {
    if input.callValue.None? then Err(ErrRuntimePanic)
    else if input.callValue.value != 0 then Err(ErrBuiltInFunctionCalledWithValue)
    else if |input.arguments| != 1 then Err(ErrInvalidArguments)
    else if input.callerAddr != env.mectSCAddress then Err(ErrAddressIsNotMECTSystemSC)
    else if !env.isSystemAccount(input.recipientAddr) then Err(ErrOnlySystemAccountAccepted)
    else Ok(ToggledSetting(f, sys, TokenKey(input.arguments[0])))
  }

  method ToggleSetting(f: GlobalSettingsFunc, sys: Account, key: Bytes)
    modifies sys
    ensures sys.data == ToggledSetting(f, old(sys.data), key)
  {
    var m := GlobalMetadataAt(sys.data, key);
    m := Toggled(m, f.funcName, f.isSet);
    sys.SaveKeyValue(key, Raw(GlobalToBytes(m)));
  }

  /** `ProcessBuiltinFunction`: the output is empty; only the system account changes. */
  method ProcessGlobalSettings(f: GlobalSettingsFunc, input: CallInput, env: Env, sys: Account) returns (r: Result<VMOutput>)
    modifies sys
    ensures var spec := GlobalSettingsSpec(f, input, env, old(sys.data));
      && (spec.Err? ==> r == Err(spec.error) && sys.data == old(sys.data))
      && (spec.Ok? ==> r.Ok? && fresh(r.value) && r.value.Snapshot() == Output(0, [], [], map[]) && sys.data == spec.value)
  {
    if input.callValue.None? {
      return Err(ErrRuntimePanic);
    }
    if input.callValue.value != 0 {
      return Err(ErrBuiltInFunctionCalledWithValue);
    }
    if |input.arguments| != 1 {
      return Err(ErrInvalidArguments);
    }
    if input.callerAddr != env.mectSCAddress {
      return Err(ErrAddressIsNotMECTSystemSC);
    }
    if !env.isSystemAccount(input.recipientAddr) {
      return Err(ErrOnlySystemAccountAccepted);
    }
    ToggleSetting(f, sys, TokenKey(input.arguments[0]));
    var out := new VMOutput(0);
    return Ok(out);
  }

  /**
   * A toggle sets its own flag to the function's value and leaves the two
   * other flags, and every other key, as they were.
   */
  lemma ToggleOnlyOwnFlag(f: GlobalSettingsFunc, sys: Data, key: Bytes)
    requires IsCorrectFunction(f.funcName)
    ensures var before, after := GlobalMetadataAt(sys, key), GlobalMetadataAt(ToggledSetting(f, sys, key), key);
      && (f.funcName in {BuiltInFunctionMECTPause, BuiltInFunctionMECTUnPause} ==>
            after == before.(paused := f.isSet))
      && (f.funcName in {BuiltInFunctionMECTSetLimitedTransfer, BuiltInFunctionMECTUnSetLimitedTransfer} ==>
            after == before.(limitedTransfer := f.isSet))
      && (f.funcName in {BuiltInFunctionMECTSetBurnRoleForAll, BuiltInFunctionMECTUnSetBurnRoleForAll} ==>
            after == before.(burnRoleForAll := f.isSet))
    ensures forall k :: k != key ==> Retrieve(ToggledSetting(f, sys, key), k) == Retrieve(sys, k)
  {
    var m := Toggled(GlobalMetadataAt(sys, key), f.funcName, f.isSet);
    assert GlobalToBytes(m) != [];
  }

  /** Running the same toggle twice leaves what running it once leaves. */
  lemma ToggleIdempotent(f: GlobalSettingsFunc, sys: Data, key: Bytes)
    ensures ToggledSetting(f, ToggledSetting(f, sys, key), key) == ToggledSetting(f, sys, key)
  {
    var m := Toggled(GlobalMetadataAt(sys, key), f.funcName, f.isSet);
    assert GlobalMetadataAt(ToggledSetting(f, sys, key), key) == m by {
      assert GlobalToBytes(m) != [];
    }
  }

  /** Pausing, then reading: the token is paused and its other flags are unchanged. */
  lemma PauseThenIsPaused(input: CallInput, env: Env, sys: Data)
    requires GlobalSettingsSpec(GlobalSettingsFunc(BuiltInFunctionMECTPause, true), input, env, sys).Ok?
    ensures var after := GlobalSettingsSpec(GlobalSettingsFunc(BuiltInFunctionMECTPause, true), input, env, sys).value;
      var key := TokenKey(input.arguments[0]);
      && IsPaused(after, key)
      && IsLimitedTransfer(after, key) == IsLimitedTransfer(sys, key)
      && IsBurnForAll(after, key) == IsBurnForAll(sys, key)
  {
    ToggleOnlyOwnFlag(GlobalSettingsFunc(BuiltInFunctionMECTPause, true), sys, TokenKey(input.arguments[0]));
  }

  // ---------------------------------------------------------------------
  // The transfer allowlist

  /**
   * `IsSenderOrDestinationWithTransferRole` as a value: the function is
   * active and the token's allowlist on the system account names the sender
   * or the destination.
   */
  function HasTransferRole(active: bool, sys: Data, sender: Bytes, destination: Bytes, tokenID: Bytes): (b: bool)
    ensures b <==>
      && active
      && GetRoles(sys, TransferAddressesKey(tokenID)).Ok?
      && (sender in GetRoles(sys, TransferAddressesKey(tokenID)).value.0
          || destination in GetRoles(sys, TransferAddressesKey(tokenID)).value.0)
  {
    if !active then false
    else match GetRoles(sys, TransferAddressesKey(tokenID))
      case Err(_) => false
      case Ok((addresses, _)) => sender in addresses || destination in addresses
  }

  /** `IsSenderOrDestinationWithTransferRole`: a scan of the allowlist. */
  method IsSenderOrDestinationWithTransferRole(active: bool, sys: Data, sender: Bytes, destination: Bytes, tokenID: Bytes)
    returns (b: bool)
    ensures b == HasTransferRole(active, sys, sender, destination, tokenID)
  {
    if !active {
      return false;
    }
    var got := GetRoles(sys, TransferAddressesKey(tokenID));
    if got.Err? {
      return false;
    }
    var addresses := got.value.0;
    for i := 0 to |addresses|
      invariant sender !in addresses[..i] && destination !in addresses[..i]
    {
      if addresses[i] == sender || addresses[i] == destination {
        return true;
      }
      assert addresses[..i + 1] == addresses[..i] + [addresses[i]];
    }
    assert addresses[..|addresses|] == addresses;
    return false;
  }
}
