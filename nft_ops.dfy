/**
 * What a holder with the right role does to one NFT nonce it holds: burn
 * some of its quantity, add quantity, add URIs to its metadata and replace
 * its attributes.
 */
module NftOps {

  import opened Encoding
  import opened Wrappers
  import opened Store
  import opened Vm
  import opened Names
  import opened ArgChecks
  import opened LogsAndEvents
  import opened Roles
  import opened GlobalSettings
  import opened MectTransfer
  import opened DataStorage
  import opened NftTransfer

  /** The longest quantity, in bytes, accepted once the value-length check is active. */
  const MaxLenForAddNFTQuantity: nat := 32

  /**
   * The holder's data and the system account's data after a call, and its
   * result. On an error the accounts hold whatever was written before it;
   * the holder's data is absent when the call came without an account.
   */
  datatype Change = Change(acnt: Option<Data>, sys: Data, result: Result<Output>)

  /** The storage key of one nonce of a token. */
  function NonceTokenKey(tokenID: Bytes, nonce: uint64): Bytes
  {
    NFTTokenKey(TokenKey(tokenID), nonce)
  }

  // ---------------------------------------------------------------------
  // Burn and add quantity

  /**
   * The common tail of burn and add quantity: the record read, with the
   * quantity taken away or added, is saved without forcing the mirror, the
   * liquidity moves by the same amount and one log entry is written.
   */
  function QuantityChangeSpec(funcGasCost: uint64, cfg: Config, env: Env, input: CallInput, acnt: AccountState, sys: Data,
                              tokenID: Bytes, nonce: uint64, t: MECToken, quantity: nat, add: bool, identifier: Bytes): (c: Change)
    requires input.gasProvided >= funcGasCost
    ensures c.acnt.Some?
    ensures c.result.Ok? ==> c.result.value == Output(input.gasProvided - funcGasCost, [], [NewEntryForMECT(identifier, tokenID, nonce, quantity, [input.callerAddr])], map[])
  {
    var delta := if add then quantity as int else -(quantity as int);
    var saved := SaveNFTSpec(cfg, env, acnt, sys, acnt.address, TokenKey(tokenID), nonce, t.(value := t.value + delta), false, input.returnCallAfterError);
    QuantityChangeAfterSave(funcGasCost, cfg, input, acnt.data, sys, saved, tokenID, nonce, delta, quantity, identifier)
  }

  /** The save's error, or what follows a successful save. */
  function QuantityChangeAfterSave(funcGasCost: uint64, cfg: Config, input: CallInput, d: Data, sys: Data, saved: Result<(Data, Data, Bytes)>,
                                   tokenID: Bytes, nonce: uint64, delta: int, quantity: nat, identifier: Bytes): (c: Change)
    requires input.gasProvided >= funcGasCost
    ensures c.acnt.Some?
    ensures c.result.Ok? ==> c.result.value == Output(input.gasProvided - funcGasCost, [], [NewEntryForMECT(identifier, tokenID, nonce, quantity, [input.callerAddr])], map[])
  {
    match saved
      case Err(e) => Change(Some(d), sys, Err(e))
      case Ok((d', sys', _)) => QuantityChangeTail(funcGasCost, cfg, input, d', sys', tokenID, nonce, delta, quantity, identifier)
  }

  /** After the save: the liquidity moves by `delta` and one log entry is written. */
  function QuantityChangeTail(funcGasCost: uint64, cfg: Config, input: CallInput, d: Data, sys: Data,
                              tokenID: Bytes, nonce: uint64, delta: int, quantity: nat, identifier: Bytes): (c: Change)
    requires input.gasProvided >= funcGasCost
    ensures c.acnt == Some(d)
    ensures c.result.Ok? ==> c.result.value == Output(input.gasProvided - funcGasCost, [], [NewEntryForMECT(identifier, tokenID, nonce, quantity, [input.callerAddr])], map[])
  {
    match LiquiditySpec(cfg, sys, TokenKey(tokenID), nonce, delta)
      case Err(e) => Change(Some(d), sys, Err(e))
      case Ok(sys') =>
        var entry := NewEntryForMECT(identifier, tokenID, nonce, quantity, [input.callerAddr]);
        Change(Some(d), sys', Ok(Output(input.gasProvided - funcGasCost, [], [entry], map[])))
  }

  /** The common tail of burn and add quantity. */
  method ChangeQuantity(funcGasCost: uint64, cfg: Config, env: Env, input: CallInput, acnt: Account, sys: Account,
                        tokenID: Bytes, nonce: uint64, t: MECToken, quantity: nat, add: bool, identifier: Bytes) returns (r: Result<VMOutput>)
    requires input.gasProvided >= funcGasCost
    requires acnt != sys
    modifies acnt, sys
    ensures var c := QuantityChangeSpec(funcGasCost, cfg, env, input, old(acnt.State()), old(sys.data), tokenID, nonce, t, quantity, add, identifier);
      && acnt.data == c.acnt.value && sys.data == c.sys
      && (c.result.Err? ==> r == Err(c.result.error))
      && (c.result.Ok? ==> r.Ok? && fresh(r.value) && r.value.Snapshot() == c.result.value)
  {
    var tokenKey := TokenKey(tokenID);
    var delta := if add then quantity as int else -(quantity as int);
    ghost var d0, sys0 := acnt.data, sys.data;
    ghost var spec := SaveNFTSpec(cfg, env, acnt.State(), sys.data, acnt.address, tokenKey, nonce, t.(value := t.value + delta), false, input.returnCallAfterError);
    assert QuantityChangeSpec(funcGasCost, cfg, env, input, acnt.State(), sys.data, tokenID, nonce, t, quantity, add, identifier)
      == QuantityChangeAfterSave(funcGasCost, cfg, input, d0, sys0, spec, tokenID, nonce, delta, quantity, identifier);
    var saved := SaveMECTNFTToken(cfg, env, acnt.address, acnt, sys, tokenKey, nonce, t.(value := t.value + delta), false, input.returnCallAfterError);
    if saved.Err? {
      return Err(saved.error);
    }
    r := FinishQuantityChange(funcGasCost, cfg, input, acnt.data, sys, tokenID, nonce, delta, quantity, identifier);
  }

  /** The liquidity and the log entry after the save of `ChangeQuantity`. */
  method FinishQuantityChange(funcGasCost: uint64, cfg: Config, input: CallInput, ghost d: Data, sys: Account,
                              tokenID: Bytes, nonce: uint64, delta: int, quantity: nat, identifier: Bytes) returns (r: Result<VMOutput>)
    requires input.gasProvided >= funcGasCost
    modifies sys
    ensures var c := QuantityChangeTail(funcGasCost, cfg, input, d, old(sys.data), tokenID, nonce, delta, quantity, identifier);
      && sys.data == c.sys
      && (c.result.Err? ==> r == Err(c.result.error))
      && (c.result.Ok? ==> r.Ok? && fresh(r.value) && r.value.Snapshot() == c.result.value)
  {
    var s := AddToLiquiditySystemAcc(cfg, sys, TokenKey(tokenID), nonce, delta);
    if s.Failure? {
      return Err(s.error);
    }
    var out := new VMOutput(input.gasProvided - funcGasCost);
    AddMECTEntryInVMOutput(out, identifier, tokenID, nonce, quantity, [input.callerAddr]);
    return Ok(out);
  }

  /** `isAllowedToBurn` of the NFT burn: everyone may burn when the token allows burning for all; otherwise the role decides. */
  function IsAllowedToBurnNFT(sys: Data, acnt: Option<AccountState>, tokenID: Bytes): (s: Status)
    ensures s == Success <==> IsBurnForAll(sys, TokenKey(tokenID)) || AllowedToExecute(acnt, tokenID, Str(MECTRoleNFTBurn)) == Success
    ensures s.Failure? ==> s == AllowedToExecute(acnt, tokenID, Str(MECTRoleNFTBurn))
  {
    if IsBurnForAll(sys, TokenKey(tokenID)) then Success
    else AllowedToExecute(acnt, tokenID, Str(MECTRoleNFTBurn))
  }

  /**
   * `ProcessBuiltinFunction` of the NFT burn as a value. A call without an
   * account that passes the burn-for-all setting reads the record of a nil
   * account, which is a runtime panic.
   */
  function NFTBurnSpec(funcGasCost: uint64, cfg: Config, env: Env, input: CallInput, acnt: Option<AccountState>, sys: Data): (c: Change)
    ensures c.acnt.Some? <==> acnt.Some?
    ensures CheckNFTCreateBurnAddInput(acnt, input, funcGasCost).Failure? ==>
      c == Change(DataOf(acnt), sys, Err(CheckNFTCreateBurnAddInput(acnt, input, funcGasCost).error))
    ensures c.result.Ok? ==>
      && CheckNFTCreateBurnAddInput(acnt, input, funcGasCost) == Success
      && |input.arguments| >= 3
      && IsAllowedToBurnNFT(sys, acnt, input.arguments[0]) == Success
      && acnt.Some?
      && Uint64Of(input.arguments[1]) > 0
      && FromBE(input.arguments[2]) <= Quantity(acnt.value.data, NonceTokenKey(input.arguments[0], Uint64Of(input.arguments[1])))
  {
    var check := CheckNFTCreateBurnAddInput(acnt, input, funcGasCost);
    if check.Failure? then Change(DataOf(acnt), sys, Err(check.error))
    else if |input.arguments| < 3 then Change(DataOf(acnt), sys, Err(ErrInvalidArguments))
    else
      var args := input.arguments;
      var allowed := IsAllowedToBurnNFT(sys, acnt, args[0]);
      if allowed.Failure? then Change(DataOf(acnt), sys, Err(allowed.error))
      else if acnt.None? then Change(None, sys, Err(ErrRuntimePanic))
      else
        var nonce, quantity := Uint64Of(args[1]), FromBE(args[2]);
        match GetNFTOnSender(cfg, acnt.value.data, sys, TokenKey(args[0]), nonce)
          case Err(e) => Change(DataOf(acnt), sys, Err(e))
          case Ok(t) =>
            SenderRecordQuantity(cfg, acnt.value.data, sys, TokenKey(args[0]), nonce);
            if nonce == 0 then Change(DataOf(acnt), sys, Err(ErrNFTDoesNotHaveMetadata))
            else if t.value < quantity then Change(DataOf(acnt), sys, Err(ErrInvalidNFTQuantity))
            else QuantityChangeSpec(funcGasCost, cfg, env, input, acnt.value, sys, args[0], nonce, t, quantity, false, Str(BuiltInFunctionMECTNFTBurn))
  }

  /** `ProcessBuiltinFunction` of the NFT burn. */
  method ProcessNFTBurn(funcGasCost: uint64, cfg: Config, env: Env, input: CallInput, sys: Account, acntSnd: Account?) returns (r: Result<VMOutput>)
    requires acntSnd != sys
    modifies acntSnd, sys
    ensures var c := NFTBurnSpec(funcGasCost, cfg, env, input, old(StateOf(acntSnd)), old(sys.data));
      && (acntSnd != null ==> acntSnd.data == c.acnt.value) && sys.data == c.sys
      && (c.result.Err? ==> r == Err(c.result.error))
      && (c.result.Ok? ==> r.Ok? && fresh(r.value) && r.value.Snapshot() == c.result.value)
  {
    var check := CheckNFTCreateBurnAddInput(StateOf(acntSnd), input, funcGasCost);
    if check.Failure? {
      return Err(check.error);
    }
    if |input.arguments| < 3 {
      return Err(ErrInvalidArguments);
    }
    var args := input.arguments;
    var allowed: Status;
    if IsBurnForAll(sys.data, TokenKey(args[0])) {
      allowed := Success;
    } else {
      allowed := CheckAllowedToExecute(acntSnd, args[0], Str(MECTRoleNFTBurn));
    }
    if allowed.Failure? {
      return Err(allowed.error);
    }
    if acntSnd == null {
      return Err(ErrRuntimePanic);
    }
    var nonce, quantity := Uint64Of(args[1]), FromBE(args[2]);
    var got := GetNFTOnSender(cfg, acntSnd.data, sys.data, TokenKey(args[0]), nonce);
    if got.Err? {
      return Err(got.error);
    }
    if nonce == 0 {
      return Err(ErrNFTDoesNotHaveMetadata);
    }
    if got.value.value < quantity {
      return Err(ErrInvalidNFTQuantity);
    }
    r := ChangeQuantity(funcGasCost, cfg, env, input, acntSnd, sys, args[0], nonce, got.value, quantity, false, Str(BuiltInFunctionMECTNFTBurn));
  }

  /** `ProcessBuiltinFunction` of the NFT add quantity as a value. */
  function NFTAddQuantitySpec(funcGasCost: uint64, cfg: Config, env: Env, input: CallInput, acnt: Option<AccountState>, sys: Data): (c: Change)
    ensures c.acnt.Some? <==> acnt.Some?
    ensures CheckNFTCreateBurnAddInput(acnt, input, funcGasCost).Failure? ==>
      c == Change(DataOf(acnt), sys, Err(CheckNFTCreateBurnAddInput(acnt, input, funcGasCost).error))
    ensures c.result.Ok? ==>
      && CheckNFTCreateBurnAddInput(acnt, input, funcGasCost) == Success
      && |input.arguments| >= 3
      && AllowedToExecute(acnt, input.arguments[0], Str(MECTRoleNFTAddQuantity)) == Success
      && Uint64Of(input.arguments[1]) > 0
      && (cfg.valueLengthCheck ==> |input.arguments[2]| <= MaxLenForAddNFTQuantity)
  {
    var check := CheckNFTCreateBurnAddInput(acnt, input, funcGasCost);
    if check.Failure? then Change(DataOf(acnt), sys, Err(check.error))
    else if |input.arguments| < 3 then Change(DataOf(acnt), sys, Err(ErrInvalidArguments))
    else
      var args := input.arguments;
      var allowed := AllowedToExecute(acnt, args[0], Str(MECTRoleNFTAddQuantity));
      if allowed.Failure? then Change(DataOf(acnt), sys, Err(allowed.error))
      else
        var nonce, quantity := Uint64Of(args[1]), FromBE(args[2]);
        match GetNFTOnSender(cfg, acnt.value.data, sys, TokenKey(args[0]), nonce)
          case Err(e) => Change(DataOf(acnt), sys, Err(e))
          case Ok(t) =>
            if nonce == 0 then Change(DataOf(acnt), sys, Err(ErrNFTDoesNotHaveMetadata))
            else if cfg.valueLengthCheck && |args[2]| > MaxLenForAddNFTQuantity then Change(DataOf(acnt), sys, Err(ErrInvalidArguments))
            else QuantityChangeSpec(funcGasCost, cfg, env, input, acnt.value, sys, args[0], nonce, t, quantity, true, Str(BuiltInFunctionMECTNFTAddQuantity))
  }

  /** `ProcessBuiltinFunction` of the NFT add quantity. */
  method ProcessNFTAddQuantity(funcGasCost: uint64, cfg: Config, env: Env, input: CallInput, sys: Account, acntSnd: Account?) returns (r: Result<VMOutput>)
    requires acntSnd != sys
    modifies acntSnd, sys
    ensures var c := NFTAddQuantitySpec(funcGasCost, cfg, env, input, old(StateOf(acntSnd)), old(sys.data));
      && (acntSnd != null ==> acntSnd.data == c.acnt.value) && sys.data == c.sys
      && (c.result.Err? ==> r == Err(c.result.error))
      && (c.result.Ok? ==> r.Ok? && fresh(r.value) && r.value.Snapshot() == c.result.value)
  {
    var check := CheckNFTCreateBurnAddInput(StateOf(acntSnd), input, funcGasCost);
    if check.Failure? {
      return Err(check.error);
    }
    if |input.arguments| < 3 {
      return Err(ErrInvalidArguments);
    }
    var args := input.arguments;
    var allowed := CheckAllowedToExecute(acntSnd, args[0], Str(MECTRoleNFTAddQuantity));
    if allowed.Failure? {
      return Err(allowed.error);
    }
    var nonce, quantity := Uint64Of(args[1]), FromBE(args[2]);
    var got := GetNFTOnSender(cfg, acntSnd.data, sys.data, TokenKey(args[0]), nonce);
    if got.Err? {
      return Err(got.error);
    }
    if nonce == 0 {
      return Err(ErrNFTDoesNotHaveMetadata);
    }
    if cfg.valueLengthCheck && |args[2]| > MaxLenForAddNFTQuantity {
      return Err(ErrInvalidArguments);
    }
    r := ChangeQuantity(funcGasCost, cfg, env, input, acntSnd, sys, args[0], nonce, got.value, quantity, true, Str(BuiltInFunctionMECTNFTAddQuantity));
  }

  /**
   * The quantity tail takes from or adds to the holder's stored quantity
   * exactly the amount given; no other key of the holder changes.
   */
  lemma QuantityChangeMoves(funcGasCost: uint64, cfg: Config, env: Env, input: CallInput, acnt: AccountState, sys: Data,
                            tokenID: Bytes, nonce: uint64, t: MECToken, quantity: nat, add: bool, identifier: Bytes)
    requires input.gasProvided >= funcGasCost
    requires t.value == Quantity(acnt.data, NonceTokenKey(tokenID, nonce)) >= 0
    requires add || quantity <= t.value
    requires QuantityChangeSpec(funcGasCost, cfg, env, input, acnt, sys, tokenID, nonce, t, quantity, add, identifier).result.Ok?
    ensures var c := QuantityChangeSpec(funcGasCost, cfg, env, input, acnt, sys, tokenID, nonce, t, quantity, add, identifier);
      var key := NonceTokenKey(tokenID, nonce);
      && Quantity(c.acnt.value, key) == t.value + (if add then quantity as int else -(quantity as int))
      && (forall k :: k != key ==> Retrieve(c.acnt.value, k) == Retrieve(acnt.data, k))
  {
    var tokenKey := TokenKey(tokenID);
    var delta := if add then quantity as int else -(quantity as int);
    var changed := t.(value := t.value + delta);
    SaveSetsQuantity(cfg, env, acnt, sys, acnt.address, tokenKey, nonce, changed, false, input.returnCallAfterError);
    SaveKeepsHolderRecordSmall(cfg, env, acnt, sys, acnt.address, tokenKey, nonce, changed, false, input.returnCallAfterError);
  }

  /** Once liquidity is tracked for the nonce, the quantity tail moves it by the amount given. */
  lemma QuantityChangeMovesLiquidity(funcGasCost: uint64, cfg: Config, env: Env, input: CallInput, acnt: AccountState, sys: Data,
                                     tokenID: Bytes, nonce: uint64, t: MECToken, quantity: nat, add: bool, identifier: Bytes)
    requires input.gasProvided >= funcGasCost && nonce > 0
    requires QuantityChangeSpec(funcGasCost, cfg, env, input, acnt, sys, tokenID, nonce, t, quantity, add, identifier).result.Ok?
    requires cfg.saveToSystemAccount && cfg.sendAlways && Tracked(sys, NonceTokenKey(tokenID, nonce))
    requires !(cfg.fixOldTokenLiquidity && Liquidity(sys, NonceTokenKey(tokenID, nonce)) == 0 && !add)
    ensures var c := QuantityChangeSpec(funcGasCost, cfg, env, input, acnt, sys, tokenID, nonce, t, quantity, add, identifier);
      var key := NonceTokenKey(tokenID, nonce);
      Liquidity(c.sys, key) == Liquidity(sys, key) + (if add then quantity as int else -(quantity as int))
  {
    var tokenKey := TokenKey(tokenID);
    var delta := if add then quantity as int else -(quantity as int);
    var changed := t.(value := t.value + delta);
    SaveKeepsLiquidity(cfg, env, acnt, sys, acnt.address, tokenKey, nonce, changed, input.returnCallAfterError);
    LiquidityMovesByDelta(cfg, sys, tokenKey, nonce, delta);
  }

  /**
   * A successful NFT burn leaves the holder with the quantity less the
   * amount burnt, and a tracked liquidity falls by the same amount.
   */
  lemma NFTBurnTakesQuantity(funcGasCost: uint64, cfg: Config, env: Env, input: CallInput, acnt: AccountState, sys: Data)
    requires NFTBurnSpec(funcGasCost, cfg, env, input, Some(acnt), sys).result.Ok?
    ensures var c := NFTBurnSpec(funcGasCost, cfg, env, input, Some(acnt), sys);
      var key, quantity := NonceTokenKey(input.arguments[0], Uint64Of(input.arguments[1])), FromBE(input.arguments[2]);
      && Quantity(c.acnt.value, key) == Quantity(acnt.data, key) - quantity
      && (forall k :: k != key ==> Retrieve(c.acnt.value, k) == Retrieve(acnt.data, k))
      && (cfg.saveToSystemAccount && cfg.sendAlways && Tracked(sys, key) && !(cfg.fixOldTokenLiquidity && Liquidity(sys, key) == 0) ==>
            Liquidity(c.sys, key) == Liquidity(sys, key) - quantity)
  {
    var args := input.arguments;
    var tokenKey, nonce, quantity := TokenKey(args[0]), Uint64Of(args[1]), FromBE(args[2]);
    var t := GetNFTOnSender(cfg, acnt.data, sys, tokenKey, nonce).value;
    SenderRecordQuantity(cfg, acnt.data, sys, tokenKey, nonce);
    QuantityChangeMoves(funcGasCost, cfg, env, input, acnt, sys, args[0], nonce, t, quantity, false, Str(BuiltInFunctionMECTNFTBurn));
    var key := NonceTokenKey(args[0], nonce);
    if cfg.saveToSystemAccount && cfg.sendAlways && Tracked(sys, key) && !(cfg.fixOldTokenLiquidity && Liquidity(sys, key) == 0) {
      QuantityChangeMovesLiquidity(funcGasCost, cfg, env, input, acnt, sys, args[0], nonce, t, quantity, false, Str(BuiltInFunctionMECTNFTBurn));
    }
  }

  /**
   * A successful NFT add quantity leaves the holder with the quantity plus
   * the amount added, and a tracked liquidity grows by the same amount.
   */
  lemma NFTAddQuantityAdds(funcGasCost: uint64, cfg: Config, env: Env, input: CallInput, acnt: AccountState, sys: Data)
    requires NFTAddQuantitySpec(funcGasCost, cfg, env, input, Some(acnt), sys).result.Ok?
    requires Quantity(acnt.data, NonceTokenKey(input.arguments[0], Uint64Of(input.arguments[1]))) >= 0
    ensures var c := NFTAddQuantitySpec(funcGasCost, cfg, env, input, Some(acnt), sys);
      var key, quantity := NonceTokenKey(input.arguments[0], Uint64Of(input.arguments[1])), FromBE(input.arguments[2]);
      && Quantity(c.acnt.value, key) == Quantity(acnt.data, key) + quantity
      && (forall k :: k != key ==> Retrieve(c.acnt.value, k) == Retrieve(acnt.data, k))
      && (cfg.saveToSystemAccount && cfg.sendAlways && Tracked(sys, key) ==> Liquidity(c.sys, key) == Liquidity(sys, key) + quantity)
  {
    var args := input.arguments;
    var tokenKey, nonce, quantity := TokenKey(args[0]), Uint64Of(args[1]), FromBE(args[2]);
    var t := GetNFTOnSender(cfg, acnt.data, sys, tokenKey, nonce).value;
    SenderRecordQuantity(cfg, acnt.data, sys, tokenKey, nonce);
    QuantityChangeMoves(funcGasCost, cfg, env, input, acnt, sys, args[0], nonce, t, quantity, true, Str(BuiltInFunctionMECTNFTAddQuantity));
    var key := NonceTokenKey(args[0], nonce);
    if cfg.saveToSystemAccount && cfg.sendAlways && Tracked(sys, key) {
      QuantityChangeMovesLiquidity(funcGasCost, cfg, env, input, acnt, sys, args[0], nonce, t, quantity, true, Str(BuiltInFunctionMECTNFTAddQuantity));
    }
  }

  /** The burn refuses to take more than the holder has, before writing anything. */
  lemma NFTBurnRefusesExcess(funcGasCost: uint64, cfg: Config, env: Env, input: CallInput, acnt: AccountState, sys: Data)
    requires CheckNFTCreateBurnAddInput(Some(acnt), input, funcGasCost) == Success && |input.arguments| >= 3
    requires IsAllowedToBurnNFT(sys, Some(acnt), input.arguments[0]) == Success
    requires Uint64Of(input.arguments[1]) > 0
    requires GetNFTOnSender(cfg, acnt.data, sys, TokenKey(input.arguments[0]), Uint64Of(input.arguments[1])).Ok?
    requires FromBE(input.arguments[2]) > Quantity(acnt.data, NonceTokenKey(input.arguments[0], Uint64Of(input.arguments[1])))
    ensures NFTBurnSpec(funcGasCost, cfg, env, input, Some(acnt), sys) == Change(Some(acnt.data), sys, Err(ErrInvalidNFTQuantity))
  {
    SenderRecordQuantity(cfg, acnt.data, sys, TokenKey(input.arguments[0]), Uint64Of(input.arguments[1]));
  }

  // ---------------------------------------------------------------------
  // Add URIs and update attributes

  /** The total length in bytes of a list of byte strings. */
  function TotalLength(s: seq<Bytes>): nat
  {
    if s == [] then 0 else TotalLength(s[..|s| - 1]) + |s[|s| - 1]|
  }

  /** The total length of a concatenation is the sum of the totals. */
  lemma {:induction false} TotalLengthConcat(a: seq<Bytes>, b: seq<Bytes>)
    ensures TotalLength(a + b) == TotalLength(a) + TotalLength(b)
    decreases |b|
  {
    if b != [] {
      var last := |b| - 1;
      assert (a + b)[..|a + b| - 1] == a + b[..last];
      TotalLengthConcat(a, b[..last]);
    } else {
      assert a + b == a;
    }
  }

  /** The summing loop shared by the URI store cost and the create cost. */
  method SumLengths(s: seq<Bytes>) returns (n: nat)
    ensures n == TotalLength(s)
  {
    n := 0;
    var i := 0;
    while i < |s|
      invariant 0 <= i <= |s|
      invariant n == TotalLength(s[..i])
    {
      assert s[..i + 1][..i] == s[..i];
      n := n + |s[i]|;
      i := i + 1;
    }
    assert s[..|s|] == s;
  }

  /** The metadata as edited: the URIs given appended, or the attributes replaced. */
  function Edited(m: MetaData, args: seq<Bytes>, addURIs: bool): MetaData
    requires |args| >= 3
  {
    if addURIs then m.(uris := m.uris + args[2..]) else m.(attributes := args[2])
  }

  /**
   * The checks of add URIs and update attributes, in order: the common
   * input checks, the argument count (at least three for add URIs, exactly
   * three for update attributes), the role, the gas for storing every
   * argument from the third on, and a nonzero nonce.
   */
  function MetaDataEditChecks(funcGasCost: uint64, env: Env, input: CallInput, acnt: Option<AccountState>, addURIs: bool): (s: Status)
    ensures CheckNFTCreateBurnAddInput(acnt, input, funcGasCost).Failure? ==> s == CheckNFTCreateBurnAddInput(acnt, input, funcGasCost)
    ensures s == Success <==>
      && CheckNFTCreateBurnAddInput(acnt, input, funcGasCost) == Success
      && (if addURIs then |input.arguments| >= 3 else |input.arguments| == 3)
      && AllowedToExecute(acnt, input.arguments[0], Str(if addURIs then MECTRoleNFTAddURI else MECTRoleNFTUpdateAttributes)) == Success
      && input.gasProvided >= funcGasCost + EditStoreCost(env, input)
      && Uint64Of(input.arguments[1]) > 0
    ensures s == Success ==> acnt.Some?
  {
    var check := CheckNFTCreateBurnAddInput(acnt, input, funcGasCost);
    if check.Failure? then check
    else if (addURIs && |input.arguments| < 3) || (!addURIs && |input.arguments| != 3) then Failure(ErrInvalidArguments)
    else
      var args := input.arguments;
      var allowed := AllowedToExecute(acnt, args[0], Str(if addURIs then MECTRoleNFTAddURI else MECTRoleNFTUpdateAttributes));
      if allowed.Failure? then allowed
      else if input.gasProvided < funcGasCost + EditStoreCost(env, input) then Failure(ErrNotEnoughGas)
      else if Uint64Of(args[1]) == 0 then Failure(ErrNFTDoesNotHaveMetadata)
      else Success
  }

  /**
   * The price of storing every argument from the third on: the URIs added,
   * or the one attributes argument of an update.
   */
  function EditStoreCost(env: Env, input: CallInput): (c: nat)
    ensures |input.arguments| <= 2 ==> c == 0
    ensures |input.arguments| == 3 ==> c == |input.arguments[2]| * env.storePerByte
  {
    if |input.arguments| < 2 then 0
    else
      var stored := input.arguments[2..];
      assert |stored| == 1 ==> stored[..0] == [] && TotalLength(stored) == |input.arguments[2]|;
      TotalLength(stored) * env.storePerByte
  }

  /**
   * Add URIs and update attributes as a value: the holder's data, the
   * system account's data and the output, or the error. Every error comes
   * before the only write, the save.
   */
  function MetaDataEditSpec(funcGasCost: uint64, cfg: Config, env: Env, input: CallInput, acnt: Option<AccountState>, sys: Data,
                            addURIs: bool): (r: Result<(Data, Data, Output)>)
    ensures MetaDataEditChecks(funcGasCost, env, input, acnt, addURIs).Failure? ==>
      r == Err(MetaDataEditChecks(funcGasCost, env, input, acnt, addURIs).error)
    ensures r.Ok? ==> r.value.2.gasRemaining == input.gasProvided - funcGasCost - EditStoreCost(env, input)
  {
    var check := MetaDataEditChecks(funcGasCost, env, input, acnt, addURIs);
    if check.Failure? then Err(check.error)
    else EditRecordSpec(cfg, env, input, acnt.value, sys, input.gasProvided - funcGasCost - EditStoreCost(env, input), addURIs)
  }

  /** The read, the edit and the save, once the checks passed; `gasRemaining` is what the output keeps. */
  function EditRecordSpec(cfg: Config, env: Env, input: CallInput, acnt: AccountState, sys: Data, gasRemaining: nat,
                          addURIs: bool): (r: Result<(Data, Data, Output)>)
    requires |input.arguments| >= 3
    ensures r.Ok? ==> r.value.2.gasRemaining == gasRemaining
  {
    var args := input.arguments;
    var nonce := Uint64Of(args[1]);
    match GetNFTOnSender(cfg, acnt.data, sys, TokenKey(args[0]), nonce)
      case Err(e) => Err(e)
      case Ok(t) =>
        if t.metaData.None? then Err(ErrRuntimePanic)
        else
          match SaveNFTSpec(cfg, env, acnt, sys, acnt.address, TokenKey(args[0]), nonce, t.(metaData := Some(Edited(t.metaData.value, args, addURIs))),
                            true, input.returnCallAfterError)
            case Err(e) => Err(e)
            case Ok((d, sys', _)) =>
              var identifier := Str(if addURIs then BuiltInFunctionMECTNFTAddURI else BuiltInFunctionMECTNFTUpdateAttributes);
              var entry := NewEntryForMECT(identifier, args[0], nonce, 0, [input.callerAddr] + args[2..]);
              Ok((d, sys', Output(gasRemaining, [], [entry], map[])))
  }

  /** `ProcessBuiltinFunction` of the NFT add URIs (`addURIs`) and of the NFT update attributes. */
  method ProcessMetaDataEdit(funcGasCost: uint64, cfg: Config, env: Env, input: CallInput, sys: Account, acntSnd: Account?,
                             addURIs: bool) returns (r: Result<VMOutput>)
    requires acntSnd != sys
    modifies acntSnd, sys
    ensures var spec := MetaDataEditSpec(funcGasCost, cfg, env, input, old(StateOf(acntSnd)), old(sys.data), addURIs);
      && (spec.Err? ==> r == Err(spec.error) && (acntSnd != null ==> acntSnd.data == old(acntSnd.data)) && sys.data == old(sys.data))
      && (spec.Ok? ==> r.Ok? && fresh(r.value) && r.value.Snapshot() == spec.value.2 && acntSnd.data == spec.value.0 && sys.data == spec.value.1)
  {
    var check := CheckMetaDataEdit(funcGasCost, env, input, acntSnd, addURIs);
    if check.Failure? {
      return Err(check.error);
    }
    r := EditRecord(cfg, env, input, acntSnd, sys, input.gasProvided - funcGasCost - EditStoreCost(env, input), addURIs);
  }

  /** The checks of `ProcessMetaDataEdit`, before any write. */
  method CheckMetaDataEdit(funcGasCost: uint64, env: Env, input: CallInput, acnt: Account?, addURIs: bool) returns (s: Status)
    ensures s == MetaDataEditChecks(funcGasCost, env, input, StateOf(acnt), addURIs)
  {
    s := CheckNFTCreateBurnAddInput(StateOf(acnt), input, funcGasCost);
    if s.Failure? {
      return;
    }
    var args := input.arguments;
    if (addURIs && |args| < 3) || (!addURIs && |args| != 3) {
      return Failure(ErrInvalidArguments);
    }
    s := CheckAllowedToExecute(acnt, args[0], Str(if addURIs then MECTRoleNFTAddURI else MECTRoleNFTUpdateAttributes));
    if s.Failure? {
      return;
    }
    var storeLength := SumLengths(args[2..]);
    if input.gasProvided < funcGasCost + storeLength * env.storePerByte {
      return Failure(ErrNotEnoughGas);
    }
    if Uint64Of(args[1]) == 0 {
      return Failure(ErrNFTDoesNotHaveMetadata);
    }
  }

  /** The read, the edit and the save of `ProcessMetaDataEdit`. */
  method EditRecord(cfg: Config, env: Env, input: CallInput, acnt: Account, sys: Account, gasRemaining: nat, addURIs: bool)
    returns (r: Result<VMOutput>)
    requires |input.arguments| >= 3
    requires acnt != sys
    modifies acnt, sys
    ensures var spec := EditRecordSpec(cfg, env, input, old(acnt.State()), old(sys.data), gasRemaining, addURIs);
      && (spec.Err? ==> r == Err(spec.error) && acnt.data == old(acnt.data) && sys.data == old(sys.data))
      && (spec.Ok? ==> r.Ok? && fresh(r.value) && r.value.Snapshot() == spec.value.2 && acnt.data == spec.value.0 && sys.data == spec.value.1)
  {
    var args := input.arguments;
    var nonce := Uint64Of(args[1]);
    var got := GetNFTOnSender(cfg, acnt.data, sys.data, TokenKey(args[0]), nonce);
    if got.Err? {
      return Err(got.error);
    }
    var t := got.value;
    if t.metaData.None? {
      return Err(ErrRuntimePanic);
    }
    var saved := SaveMECTNFTToken(cfg, env, acnt.address, acnt, sys, TokenKey(args[0]), nonce,
                                  t.(metaData := Some(Edited(t.metaData.value, args, addURIs))), true, input.returnCallAfterError);
    if saved.Err? {
      return Err(saved.error);
    }
    var out := new VMOutput(gasRemaining);
    var identifier := Str(if addURIs then BuiltInFunctionMECTNFTAddURI else BuiltInFunctionMECTNFTUpdateAttributes);
    AddMECTEntryInVMOutput(out, identifier, args[0], nonce, 0, [input.callerAddr] + args[2..]);
    return Ok(out);
  }

  /**
   * After a successful edit the record reads back with the metadata edited
   * and nothing else changed: the URIs given are appended, or the attributes
   * replaced, and the quantity, flags and other metadata fields are kept.
   */
  lemma MetaDataEditReadsBack(funcGasCost: uint64, cfg: Config, env: Env, input: CallInput, acnt: AccountState, sys: Data, addURIs: bool)
    requires MetaDataEditSpec(funcGasCost, cfg, env, input, Some(acnt), sys, addURIs).Ok?
    requires Quantity(acnt.data, NonceTokenKey(input.arguments[0], Uint64Of(input.arguments[1]))) > 0
    ensures var tokenKey, nonce := TokenKey(input.arguments[0]), Uint64Of(input.arguments[1]);
      var t := GetNFTOnSender(cfg, acnt.data, sys, tokenKey, nonce).value;
      var (d, sys', _) := MetaDataEditSpec(funcGasCost, cfg, env, input, Some(acnt), sys, addURIs).value;
      var m := t.metaData.value;
      && t.metaData.Some?
      && GetNFTOnSender(cfg, d, sys', tokenKey, nonce).Ok?
      && GetNFTOnSender(cfg, d, sys', tokenKey, nonce).value.value == t.value
      && GetNFTOnSender(cfg, d, sys', tokenKey, nonce).value.properties == t.properties
      && GetNFTOnSender(cfg, d, sys', tokenKey, nonce).value.metaData ==
           Some(if addURIs then m.(uris := m.uris + input.arguments[2..]) else m.(attributes := input.arguments[2]))
  {
    var args := input.arguments;
    var tokenKey, nonce := TokenKey(args[0]), Uint64Of(args[1]);
    var t := GetNFTOnSender(cfg, acnt.data, sys, tokenKey, nonce).value;
    SenderRecordQuantity(cfg, acnt.data, sys, tokenKey, nonce);
    SaveThenGet(cfg, env, acnt, sys, acnt.address, tokenKey, nonce, t.(metaData := Some(Edited(t.metaData.value, args, addURIs))), true,
                input.returnCallAfterError);
  }

  /** Adding URIs only ever appends: the URIs already there keep their places. */
  lemma AddURIsKeepsExisting(funcGasCost: uint64, cfg: Config, env: Env, input: CallInput, acnt: AccountState, sys: Data)
    requires MetaDataEditSpec(funcGasCost, cfg, env, input, Some(acnt), sys, true).Ok?
    requires Quantity(acnt.data, NonceTokenKey(input.arguments[0], Uint64Of(input.arguments[1]))) > 0
    ensures var tokenKey, nonce := TokenKey(input.arguments[0]), Uint64Of(input.arguments[1]);
      var before := GetNFTOnSender(cfg, acnt.data, sys, tokenKey, nonce).value.metaData.value.uris;
      var (d, sys', _) := MetaDataEditSpec(funcGasCost, cfg, env, input, Some(acnt), sys, true).value;
      var after := GetNFTOnSender(cfg, d, sys', tokenKey, nonce).value.metaData.value.uris;
      && |after| == |before| + |input.arguments| - 2
      && after[..|before|] == before
  {
    MetaDataEditReadsBack(funcGasCost, cfg, env, input, acnt, sys, true);
    var tokenKey, nonce := TokenKey(input.arguments[0]), Uint64Of(input.arguments[1]);
    var before := GetNFTOnSender(cfg, acnt.data, sys, tokenKey, nonce).value.metaData.value.uris;
    assert (before + input.arguments[2..])[..|before|] == before;
  }
}
