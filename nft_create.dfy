/**
 * The creation of a new NFT nonce by the holder of the create role: the
 * account's latest nonce is advanced by one and the new nonce is saved with
 * its metadata and initial quantity. A smart contract executing on the
 * caller's behalf creates on the account of the contract named as the last
 * argument.
 */
module NftCreate {

  import opened Encoding
  import opened Wrappers
  import opened Store
  import opened Vm
  import opened Names
  import opened ArgChecks
  import opened LogsAndEvents
  import opened Roles
  import opened MectTransfer
  import opened DataStorage
  import opened NftTransfer
  import opened NftOps

  /** The largest royalties a nonce may carry, in hundredths of a percent. */
  const MaxRoyalty: nat := 10000

  /** `uint32(big.NewInt(0).SetBytes(b).Uint64())`: the low 32 bits of the argument. */
  function Royalties(b: Bytes): (r: nat)
    ensures r < 0x1_0000_0000
    ensures FromBE(b) < 0x1_0000_0000 ==> r == FromBE(b)
  {
    Uint64Of(b) % 0x1_0000_0000
  }

  /** The record a create writes: name, royalties, hash and attributes from the arguments, the caller as creator. */
  function CreatedRecord(input: CallInput, quantity: nat, nextNonce: uint64, uris: seq<Bytes>): MECToken
    requires |input.arguments| >= 6
  {
    var args := input.arguments;
    MECToken(NonFungible, quantity, [],
             Some(MetaData(nextNonce, args[2], input.callerAddr, Royalties(args[3]), args[4], uris, args[5])), [])
  }

  /**
   * The holder's data, the data of the account loaded for a contract
   * executing on the caller's behalf, the system account's data and the
   * result of a create.
   */
  datatype Created = Created(holder: Option<Data>, loaded: Data, sys: Data, result: Result<Output>)

  /**
   * The gas a create costs: the function's own cost and the price of storing
   * every argument byte; nothing beyond the function's cost exactly when no
   * byte is stored or storage is free.
   */
  function CreateCost(funcGasCost: uint64, env: Env, input: CallInput): (c: nat)
    ensures c >= funcGasCost
    ensures c == funcGasCost <==> TotalLength(input.arguments) == 0 || env.storePerByte == 0
  {
    TotalLength(input.arguments) * env.storePerByte + funcGasCost
  }

  /**
   * The checks of a create on the account holding the roles, in order: the
   * create role, the gas for storing every argument, the royalties, a
   * positive quantity, the add-quantity role for more than one, and the
   * length of the quantity.
   */
  function CreateChecks(funcGasCost: uint64, cfg: Config, env: Env, input: CallInput, holder: AccountState): (s: Status)
    requires |input.arguments| >= 7
    ensures s == Success <==>
      && AllowedToExecute(Some(holder), input.arguments[0], Str(MECTRoleNFTCreate)) == Success
      && input.gasProvided >= CreateCost(funcGasCost, env, input)
      && Royalties(input.arguments[3]) <= MaxRoyalty
      && FromBE(input.arguments[1]) > 0
      && (FromBE(input.arguments[1]) > 1 ==> AllowedToExecute(Some(holder), input.arguments[0], Str(MECTRoleNFTAddQuantity)) == Success)
      && (cfg.valueLengthCheck ==> |input.arguments[1]| <= MaxLenForAddNFTQuantity)
  {
    var args := input.arguments;
    var allowed := AllowedToExecute(Some(holder), args[0], Str(MECTRoleNFTCreate));
    var quantity := FromBE(args[1]);
    if allowed.Failure? then allowed
    else if input.gasProvided < CreateCost(funcGasCost, env, input) then Failure(ErrNotEnoughGas)
    else if Royalties(args[3]) > MaxRoyalty then Failure(ErrInvalidArguments)
    else if quantity <= 0 then Failure(ErrInvalidArguments)
    else if quantity > 1 && AllowedToExecute(Some(holder), args[0], Str(MECTRoleNFTAddQuantity)).Failure? then
      AllowedToExecute(Some(holder), args[0], Str(MECTRoleNFTAddQuantity))
    else if cfg.valueLengthCheck && |args[1]| > MaxLenForAddNFTQuantity then Failure(ErrInvalidArguments)
    else Success
  }

  /** The nonce a create mints: the latest nonce plus one, in 64 bits. */
  function NextNonce(d: Data, tokenID: Bytes): (n: uint64)
    ensures LatestNonce(d, tokenID) < MaxUint64 ==> n == LatestNonce(d, tokenID) + 1
  {
    Wrap64(LatestNonce(d, tokenID) + 1)
  }

  /** The create on the account holding the roles: the checks, then the mint at the latest nonce plus one. */
  function CreateOnSpec(funcGasCost: uint64, cfg: Config, env: Env, input: CallInput, holder: AccountState, sys: Data, uris: seq<Bytes>)
    : (c: Change)
    requires |input.arguments| >= 7
    ensures c.acnt.Some?
    ensures CreateChecks(funcGasCost, cfg, env, input, holder) == Success ==>
      c == MintSpec(cfg, env, input, holder, sys, NextNonce(holder.data, input.arguments[0]),
               CreatedRecord(input, FromBE(input.arguments[1]), NextNonce(holder.data, input.arguments[0]), uris),
               input.gasProvided - CreateCost(funcGasCost, env, input))
  {
    var check := CreateChecks(funcGasCost, cfg, env, input, holder);
    if check.Failure? then Change(Some(holder.data), sys, Err(check.error))
    else
      MintSpec(cfg, env, input, holder, sys, NextNonce(holder.data, input.arguments[0]),
               CreatedRecord(input, FromBE(input.arguments[1]), NextNonce(holder.data, input.arguments[0]), uris),
               input.gasProvided - CreateCost(funcGasCost, env, input))
  }

  /**
   * The writes of a create: the record saved at the new nonce with the
   * mirror forced, the liquidity raised by the quantity, then the new
   * latest nonce; the output returns the nonce and logs the record.
   */
  function MintSpec(cfg: Config, env: Env, input: CallInput, holder: AccountState, sys: Data, nextNonce: uint64, t: MECToken,
                    gasRemaining: nat): (c: Change)
    requires |input.arguments| >= 1 && t.value >= 0
    ensures c.acnt.Some?
    ensures c.result.Ok? ==> c.result.value.gasRemaining == gasRemaining && c.result.value.returnData == [ToBE(nextNonce)]
  {
    var tokenID := input.arguments[0];
    match SaveNFTSpec(cfg, env, holder, sys, holder.address, TokenKey(tokenID), nextNonce, t, true, input.returnCallAfterError)
      case Err(e) => Change(Some(holder.data), sys, Err(e))
      case Ok((d, sys', _)) =>
        match LiquiditySpec(cfg, sys', TokenKey(tokenID), nextNonce, t.value)
          case Err(e) => Change(Some(d), sys', Err(e))
          case Ok(sys'') =>
            var entry := NewEntryForMECT(Str(BuiltInFunctionMECTNFTCreate), tokenID, nextNonce, t.value, [input.callerAddr, env.marshal(t)]);
            Change(Some(SavedLatestNonce(d, tokenID, nextNonce)), sys'', Ok(Output(gasRemaining, [ToBE(nextNonce)], [entry], map[])))
  }

  /** The URIs of a create: every argument from the seventh on, less the contract address of a call on the caller's behalf. */
  function CreateURIs(input: CallInput): seq<Bytes>
    requires |input.arguments| >= (if input.callType == ExecOnDestByCaller then 8 else 7)
  {
    var args := input.arguments;
    if input.callType == ExecOnDestByCaller then args[6..|args| - 1] else args[6..]
  }

  /** A create that succeeds has passed its checks. */
  lemma CreateOnPassedChecks(funcGasCost: uint64, cfg: Config, env: Env, input: CallInput, holder: AccountState, sys: Data, uris: seq<Bytes>)
    requires |input.arguments| >= 7
    requires CreateOnSpec(funcGasCost, cfg, env, input, holder, sys, uris).result.Ok?
    ensures CreateChecks(funcGasCost, cfg, env, input, holder) == Success
  {
  }

  /** A create whose checks fail changes nothing and returns the check's error. */
  lemma CreateOnRefused(funcGasCost: uint64, cfg: Config, env: Env, input: CallInput, holder: AccountState, sys: Data, uris: seq<Bytes>)
    requires |input.arguments| >= 7
    requires CreateChecks(funcGasCost, cfg, env, input, holder).Failure?
    ensures CreateOnSpec(funcGasCost, cfg, env, input, holder, sys, uris)
      == Change(Some(holder.data), sys, Err(CreateChecks(funcGasCost, cfg, env, input, holder).error))
  {
  }

  /**
   * `ProcessBuiltinFunction` of the NFT create as a value. `loaded` is the
   * account loaded for the contract named by a call on the caller's behalf.
   */
  function NFTCreateSpec(funcGasCost: uint64, cfg: Config, env: Env, input: CallInput, acnt: Option<AccountState>, loaded: AccountState,
                         sys: Data): (c: Created)
    ensures c.holder.Some? <==> acnt.Some?
    ensures CheckNFTCreateBurnAddInput(acnt, input, funcGasCost).Failure? ==>
      c == Created(DataOf(acnt), loaded.data, sys, Err(CheckNFTCreateBurnAddInput(acnt, input, funcGasCost).error))
    ensures c.result.Ok? ==>
      && CheckNFTCreateBurnAddInput(acnt, input, funcGasCost) == Success
      && |input.arguments| >= (if input.callType == ExecOnDestByCaller then 8 else 7)
    ensures c.result.Ok? && input.callType == ExecOnDestByCaller ==>
      var scAddress := input.arguments[|input.arguments| - 1];
      |scAddress| == |input.callerAddr| && scAddress != input.callerAddr && c.holder == DataOf(acnt)
    ensures input.callType != ExecOnDestByCaller ==> c.loaded == loaded.data
  {
    var check := CheckNFTCreateBurnAddInput(acnt, input, funcGasCost);
    var args := input.arguments;
    if check.Failure? then Created(DataOf(acnt), loaded.data, sys, Err(check.error))
    else if |args| < (if input.callType == ExecOnDestByCaller then 8 else 7) then Created(DataOf(acnt), loaded.data, sys, Err(ErrInvalidArguments))
    else if input.callType == ExecOnDestByCaller then
      var scAddress := args[|args| - 1];
      if |scAddress| != |input.callerAddr| then Created(DataOf(acnt), loaded.data, sys, Err(ErrInvalidAddressLength))
      else if scAddress == input.callerAddr then Created(DataOf(acnt), loaded.data, sys, Err(ErrInvalidRcvAddr))
      else CreatedBy(funcGasCost, cfg, env, input, acnt, loaded, sys)
    else CreatedBy(funcGasCost, cfg, env, input, acnt, loaded, sys)
  }

  /**
   * The create once the inputs are accepted: on the contract's account for a
   * call on the caller's behalf, otherwise on the sender's.
   */
  function CreatedBy(funcGasCost: uint64, cfg: Config, env: Env, input: CallInput, acnt: Option<AccountState>, loaded: AccountState,
                     sys: Data): (c: Created)
    requires |input.arguments| >= (if input.callType == ExecOnDestByCaller then 8 else 7)
    requires input.callType != ExecOnDestByCaller ==> acnt.Some?
    ensures c.holder.Some? <==> (if input.callType == ExecOnDestByCaller then acnt.Some? else true)
    ensures input.callType == ExecOnDestByCaller ==> c.holder == DataOf(acnt)
    ensures input.callType != ExecOnDestByCaller ==> c.loaded == loaded.data
  {
    var holder := if input.callType == ExecOnDestByCaller then loaded else acnt.value;
    var c := CreateOnSpec(funcGasCost, cfg, env, input, holder, sys, CreateURIs(input));
    if input.callType == ExecOnDestByCaller then Created(DataOf(acnt), c.acnt.value, c.sys, c.result)
    else Created(c.acnt, loaded.data, c.sys, c.result)
  }

  /** `ProcessBuiltinFunction` of the NFT create. */
  method ProcessNFTCreate(funcGasCost: uint64, cfg: Config, env: Env, input: CallInput, sys: Account, acntSnd: Account?, loaded: Account)
    returns (r: Result<VMOutput>)
    requires acntSnd != sys && acntSnd != loaded && loaded != sys
    modifies acntSnd, loaded, sys
    ensures var c := NFTCreateSpec(funcGasCost, cfg, env, input, old(StateOf(acntSnd)), old(loaded.State()), old(sys.data));
      && (acntSnd != null ==> acntSnd.data == c.holder.value) && loaded.data == c.loaded && sys.data == c.sys
      && (c.result.Err? ==> r == Err(c.result.error))
      && (c.result.Ok? ==> r.Ok? && fresh(r.value) && r.value.Snapshot() == c.result.value)
  {
    var check := CheckNFTCreateBurnAddInput(StateOf(acntSnd), input, funcGasCost);
    if check.Failure? {
      return Err(check.error);
    }
    var args := input.arguments;
    if |args| < (if input.callType == ExecOnDestByCaller then 8 else 7) {
      return Err(ErrInvalidArguments);
    }
    if input.callType == ExecOnDestByCaller {
      var scAddress := args[|args| - 1];
      if |scAddress| != |input.callerAddr| {
        return Err(ErrInvalidAddressLength);
      }
      if scAddress == input.callerAddr {
        return Err(ErrInvalidRcvAddr);
      }
      r := CreateOn(funcGasCost, cfg, env, input, loaded, sys, CreateURIs(input));
    } else {
      r := CreateOn(funcGasCost, cfg, env, input, acntSnd, sys, CreateURIs(input));
    }
  }

  /** The create on the account holding the roles. */
  method CreateOn(funcGasCost: uint64, cfg: Config, env: Env, input: CallInput, holder: Account, sys: Account, uris: seq<Bytes>)
    returns (r: Result<VMOutput>)
    requires |input.arguments| >= 7
    requires holder != sys
    modifies holder, sys
    ensures var c := CreateOnSpec(funcGasCost, cfg, env, input, old(holder.State()), old(sys.data), uris);
      && holder.data == c.acnt.value && sys.data == c.sys
      && (c.result.Err? ==> r == Err(c.result.error))
      && (c.result.Ok? ==> r.Ok? && fresh(r.value) && r.value.Snapshot() == c.result.value)
  {
    ghost var h0, s0 := holder.State(), sys.data;
    var check := CheckCreate(funcGasCost, cfg, env, input, holder);
    if check.Failure? {
      CreateOnRefused(funcGasCost, cfg, env, input, h0, s0, uris);
      return Err(check.error);
    }
    r := MintCreated(funcGasCost, cfg, env, input, holder, sys, uris);
  }

  /** The writes of a create whose checks passed: the mint at the latest nonce plus one. */
  method MintCreated(funcGasCost: uint64, cfg: Config, env: Env, input: CallInput, holder: Account, sys: Account, uris: seq<Bytes>)
    returns (r: Result<VMOutput>)
    requires |input.arguments| >= 7
    requires holder != sys
    requires CreateChecks(funcGasCost, cfg, env, input, holder.State()) == Success
    modifies holder, sys
    ensures var c := CreateOnSpec(funcGasCost, cfg, env, input, old(holder.State()), old(sys.data), uris);
      && holder.data == c.acnt.value && sys.data == c.sys
      && (c.result.Err? ==> r == Err(c.result.error))
      && (c.result.Ok? ==> r.Ok? && fresh(r.value) && r.value.Snapshot() == c.result.value)
  {
    var args := input.arguments;
    var nextNonce := NextNonce(holder.data, args[0]);
    r := Mint(cfg, env, input, holder, sys, nextNonce, CreatedRecord(input, FromBE(args[1]), nextNonce, uris),
              input.gasProvided - CreateCost(funcGasCost, env, input));
  }

  /** The checks of a create, in the order they are made. */
  method CheckCreate(funcGasCost: uint64, cfg: Config, env: Env, input: CallInput, holder: Account) returns (s: Status)
    requires |input.arguments| >= 7
    ensures s == CreateChecks(funcGasCost, cfg, env, input, holder.State())
  {
    var args := input.arguments;
    var tokenID := args[0];
    s := CheckAllowedToExecute(holder, tokenID, Str(MECTRoleNFTCreate));
    if s.Failure? {
      return;
    }
    var totalLength := SumLengths(args);
    if input.gasProvided < totalLength * env.storePerByte + funcGasCost {
      return Failure(ErrNotEnoughGas);
    }
    if Royalties(args[3]) > MaxRoyalty {
      return Failure(ErrInvalidArguments);
    }
    var quantity := FromBE(args[1]);
    if quantity <= 0 {
      return Failure(ErrInvalidArguments);
    }
    if quantity > 1 {
      s := CheckAllowedToExecute(holder, tokenID, Str(MECTRoleNFTAddQuantity));
      if s.Failure? {
        return;
      }
    }
    if cfg.valueLengthCheck && |args[1]| > MaxLenForAddNFTQuantity {
      return Failure(ErrInvalidArguments);
    }
    return Success;
  }

  /** The writes and the output of a create. */
  method Mint(cfg: Config, env: Env, input: CallInput, holder: Account, sys: Account, nextNonce: uint64, t: MECToken, gasRemaining: nat)
    returns (r: Result<VMOutput>)
    requires |input.arguments| >= 1 && t.value >= 0
    requires holder != sys
    modifies holder, sys
    ensures var c := MintSpec(cfg, env, input, old(holder.State()), old(sys.data), nextNonce, t, gasRemaining);
      && holder.data == c.acnt.value && sys.data == c.sys
      && (c.result.Err? ==> r == Err(c.result.error))
      && (c.result.Ok? ==> r.Ok? && fresh(r.value) && r.value.Snapshot() == c.result.value)
  {
    var tokenID := input.arguments[0];
    var saved := SaveMECTNFTToken(cfg, env, holder.address, holder, sys, TokenKey(tokenID), nextNonce, t, true, input.returnCallAfterError);
    if saved.Err? {
      return Err(saved.error);
    }
    var s := AddToLiquiditySystemAcc(cfg, sys, TokenKey(tokenID), nextNonce, t.value);
    if s.Failure? {
      return Err(s.error);
    }
    SaveLatestNonce(holder, tokenID, nextNonce);
    var out := new VMOutput(gasRemaining);
    out.returnData := [ToBE(nextNonce)];
    AddMECTEntryInVMOutput(out, Str(BuiltInFunctionMECTNFTCreate), tokenID, nextNonce, t.value, [input.callerAddr, env.marshal(t)]);
    return Ok(out);
  }

  /**
   * A successful mint sets the holder's latest nonce to the new nonce and
   * leaves the holder with the record's quantity there; no key other than
   * the nonce's and the latest nonce's changes.
   */
  lemma MintSetsNonce(cfg: Config, env: Env, input: CallInput, holder: AccountState, sys: Data, nextNonce: uint64, t: MECToken,
                      gasRemaining: nat)
    requires |input.arguments| >= 1 && t.value >= 0
    requires MintSpec(cfg, env, input, holder, sys, nextNonce, t, gasRemaining).result.Ok?
    ensures var d, tokenID := MintSpec(cfg, env, input, holder, sys, nextNonce, t, gasRemaining).acnt.value, input.arguments[0];
      && LatestNonce(d, tokenID) == nextNonce
      && Quantity(d, NonceTokenKey(tokenID, nextNonce)) == t.value
      && (forall k :: k != NonceTokenKey(tokenID, nextNonce) && k != NonceKey(tokenID) ==> Retrieve(d, k) == Retrieve(holder.data, k))
  {
    var tokenID := input.arguments[0];
    SaveSetsQuantity(cfg, env, holder, sys, holder.address, TokenKey(tokenID), nextNonce, t, true, input.returnCallAfterError);
    SaveKeepsHolderRecordSmall(cfg, env, holder, sys, holder.address, TokenKey(tokenID), nextNonce, t, true, input.returnCallAfterError);
    NFTKeyNotNonceKey(tokenID, nextNonce, tokenID);
  }

  /** The log of a successful mint carries the record as marshalled, which the serializer reads back. */
  lemma MintLogCarriesRecord(cfg: Config, env: Env, input: CallInput, holder: AccountState, sys: Data, nextNonce: uint64, t: MECToken,
                             gasRemaining: nat)
    requires env.Valid()
    requires |input.arguments| >= 1 && t.value >= 0
    requires MintSpec(cfg, env, input, holder, sys, nextNonce, t, gasRemaining).result.Ok?
    ensures var o := MintSpec(cfg, env, input, holder, sys, nextNonce, t, gasRemaining).result.value;
      && |o.logs| == 1 && |o.logs[0].topics| == 4 && o.logs[0].address == input.callerAddr
      && env.unmarshal(o.logs[0].topics[3]) == Some(t)
  {
    var tokenID := input.arguments[0];
    var entry := NewEntryForMECT(Str(BuiltInFunctionMECTNFTCreate), tokenID, nextNonce, t.value, [input.callerAddr, env.marshal(t)]);
    assert MintSpec(cfg, env, input, holder, sys, nextNonce, t, gasRemaining).result.value.logs == [entry];
    assert entry.topics[3] == env.marshal(t);
  }

  /**
   * Minting a first nonce once metadata is sent with every transfer starts
   * the nonce's liquidity at the record's quantity.
   */
  lemma MintStartsLiquidity(cfg: Config, env: Env, input: CallInput, holder: AccountState, sys: Data, nextNonce: uint64, t: MECToken,
                            gasRemaining: nat)
    requires |input.arguments| >= 1 && t.value >= 0 && t.metaData.Some? && nextNonce > 0
    requires cfg.saveToSystemAccount && cfg.sendAlways
    requires var key := NonceTokenKey(input.arguments[0], nextNonce);
      Retrieve(sys, key) == Nil && Retrieve(holder.data, key) == Nil
    requires MintSpec(cfg, env, input, holder, sys, nextNonce, t, gasRemaining).result.Ok?
    ensures var c, key := MintSpec(cfg, env, input, holder, sys, nextNonce, t, gasRemaining), NonceTokenKey(input.arguments[0], nextNonce);
      Liquidity(c.sys, key) == t.value && (t.value > 0 ==> Tracked(c.sys, key))
  {
    var tokenKey := TokenKey(input.arguments[0]);
    var key := NFTTokenKey(tokenKey, nextNonce);
    FirstMirrorTracksLiquidity(cfg, env, holder.data, sys, env.shardOf(holder.address), key, nextNonce, t, true);
    var sys1 := SaveNFTSpec(cfg, env, holder, sys, holder.address, tokenKey, nextNonce, t, true, input.returnCallAfterError).value.1;
    assert sys1 == MirrorSaveSpec(cfg, env, Some(holder.data), sys, env.shardOf(holder.address), key, nextNonce, t, true).value;
    LiquidityMovesByDelta(cfg, sys1, tokenKey, nextNonce, t.value);
  }

  /**
   * Creating a first nonce once metadata is sent with every transfer starts
   * the nonce's liquidity at the initial quantity.
   */
  lemma CreateStartsLiquidity(funcGasCost: uint64, cfg: Config, env: Env, input: CallInput, holder: AccountState, sys: Data, uris: seq<Bytes>)
    requires |input.arguments| >= 7
    requires cfg.saveToSystemAccount && cfg.sendAlways
    requires LatestNonce(holder.data, input.arguments[0]) < MaxUint64
    requires var key := NonceTokenKey(input.arguments[0], LatestNonce(holder.data, input.arguments[0]) + 1);
      Retrieve(sys, key) == Nil && Retrieve(holder.data, key) == Nil
    requires CreateOnSpec(funcGasCost, cfg, env, input, holder, sys, uris).result.Ok?
    ensures var c := CreateOnSpec(funcGasCost, cfg, env, input, holder, sys, uris);
      var key := NonceTokenKey(input.arguments[0], LatestNonce(holder.data, input.arguments[0]) + 1);
      Tracked(c.sys, key) && Liquidity(c.sys, key) == FromBE(input.arguments[1])
  {
    var args := input.arguments;
    var next := NextNonce(holder.data, args[0]);
    CreateOnPassedChecks(funcGasCost, cfg, env, input, holder, sys, uris);
    MintStartsLiquidity(cfg, env, input, holder, sys, next, CreatedRecord(input, FromBE(args[1]), next, uris),
                        input.gasProvided - CreateCost(funcGasCost, env, input));
  }

  /**
   * A successful create advances the holder's latest nonce by one (modulo
   * 2^64), returns the new nonce, and leaves the holder with the initial
   * quantity at that nonce; no key other than the nonce's and the latest
   * nonce's changes.
   */
  lemma CreateAdvancesNonce(funcGasCost: uint64, cfg: Config, env: Env, input: CallInput, holder: AccountState, sys: Data, uris: seq<Bytes>)
    requires |input.arguments| >= 7
    requires CreateOnSpec(funcGasCost, cfg, env, input, holder, sys, uris).result.Ok?
    ensures var c, tokenID := CreateOnSpec(funcGasCost, cfg, env, input, holder, sys, uris), input.arguments[0];
      && LatestNonce(c.acnt.value, tokenID) == NextNonce(holder.data, tokenID)
      && c.result.value.returnData == [ToBE(NextNonce(holder.data, tokenID))]
      && Quantity(c.acnt.value, NonceTokenKey(tokenID, NextNonce(holder.data, tokenID))) == FromBE(input.arguments[1])
      && (forall k :: k != NonceTokenKey(tokenID, NextNonce(holder.data, tokenID)) && k != NonceKey(tokenID) ==>
            Retrieve(c.acnt.value, k) == Retrieve(holder.data, k))
  {
    var args := input.arguments;
    var next := NextNonce(holder.data, args[0]);
    CreateOnPassedChecks(funcGasCost, cfg, env, input, holder, sys, uris);
    MintSetsNonce(cfg, env, input, holder, sys, next, CreatedRecord(input, FromBE(args[1]), next, uris),
                  input.gasProvided - CreateCost(funcGasCost, env, input));
  }

  /**
   * The log of a successful create carries the record as marshalled: a
   * non-fungible record with the initial quantity of at least one, the new
   * nonce, the caller as creator, royalties within the maximum and the URIs
   * given.
   */
  lemma CreateLogCarriesRecord(funcGasCost: uint64, cfg: Config, env: Env, input: CallInput, holder: AccountState, sys: Data, uris: seq<Bytes>)
    requires env.Valid()
    requires |input.arguments| >= 7
    requires CreateOnSpec(funcGasCost, cfg, env, input, holder, sys, uris).result.Ok?
    ensures var o := CreateOnSpec(funcGasCost, cfg, env, input, holder, sys, uris).result.value;
      && |o.logs| == 1 && |o.logs[0].topics| == 4 && o.logs[0].address == input.callerAddr
      && env.unmarshal(o.logs[0].topics[3]).Some?
      && var t := env.unmarshal(o.logs[0].topics[3]).value;
      && t.tokenType == NonFungible && t.value == FromBE(input.arguments[1]) >= 1
      && t.metaData.Some? && t.metaData.value.nonce == NextNonce(holder.data, input.arguments[0])
      && t.metaData.value.creator == input.callerAddr
      && t.metaData.value.royalties <= MaxRoyalty && t.metaData.value.uris == uris
  {
    var args := input.arguments;
    var next := NextNonce(holder.data, args[0]);
    CreateOnPassedChecks(funcGasCost, cfg, env, input, holder, sys, uris);
    MintLogCarriesRecord(cfg, env, input, holder, sys, next, CreatedRecord(input, FromBE(args[1]), next, uris),
                         input.gasProvided - CreateCost(funcGasCost, env, input));
  }

  /** Royalties are the argument's low 32 bits: 2^32 + 5 is accepted as royalties of 5. */
  lemma RoyaltiesTruncated()
    ensures Royalties(ToBE(0x1_0000_0005)) == 5
  {
    FromBEToBE(0x1_0000_0005);
  }
}
