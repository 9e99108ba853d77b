/**
 * The transfer of one nonce of a non-fungible or semi-fungible token. On the
 * sender's shard (the call addressed to the caller itself) the quantity is
 * taken from the sender and either given to a destination in the same shard
 * or forwarded, with the record serialized, to the destination's shard; on
 * the destination's shard the forwarded call credits the destination.
 */
module NftTransfer {

  import opened Encoding
  import opened Wrappers
  import opened Store
  import opened Vm
  import opened LogsAndEvents
  import opened ArgChecks
  import opened Names
  import opened MectMetaData
  import opened MectTransfer
  import opened DataStorage

  const MinLenArgumentsMECTNFTTransfer: nat := 4

  /** The payload forwarded instead of the record when the destination shard already has its metadata. */
  const ZeroByteArray: Bytes := [0]

  /** The quantity a holder's record at `key` stores; zero without a record. */
  function Quantity(d: Data, key: Bytes): int
  {
    if Retrieve(d, key).Token? then Retrieve(d, key).token.value else 0
  }

  /**
   * The account data after a transfer and its result. On an error the
   * accounts hold whatever was written before it. `loaded` is the account the
   * sender's shard loads for a destination in the same shard.
   */
  datatype NFTOutcome = NFTOutcome(snd: Option<Data>, dst: Option<Data>, loaded: Data, sys: Data, result: Result<Output>)

  // ---------------------------------------------------------------------
  // Crediting the destination

  /** The destination's data and the system account's data after a credit, and the record saved. */
  datatype Credit = Credit(dst: Data, sys: Data, result: Result<MECToken>)

  /**
   * `addNFTToDestination` as a value: the incoming record, with the quantity
   * the destination already holds added, is saved on the destination; the
   * liquidity grows by the incoming quantity when sender and destination
   * are in different shards.
   */
  function CreditSpec(cfg: Config, env: Env, sndAddress: Bytes, dstAddress: Bytes, acnt: AccountState, sys: Data,
                      t: MECToken, tokenKey: Bytes, nonce: uint64, isReturnWithError: bool): (c: Credit)
    ensures c.result.Ok? ==> c.result.value == t.(value := t.value + Quantity(acnt.data, NFTTokenKey(tokenKey, nonce)))
    ensures c.result.Err? && GetNFTOnDestination(cfg, acnt.data, sys, tokenKey, nonce).Err? ==> c.dst == acnt.data && c.sys == sys
  {
    match GetNFTOnDestination(cfg, acnt.data, sys, tokenKey, nonce)
      case Err(e) => Credit(acnt.data, sys, Err(e))
      case Ok((current, _)) =>
        var check := CheckFrozeAndPause(dstAddress, tokenKey, current, sys, env, isReturnWithError);
        if check.Failure? then Credit(acnt.data, sys, Err(check.error))
        else
          var added := t.(value := t.value + current.value);
          match SaveNFTSpec(cfg, env, acnt, sys, sndAddress, tokenKey, nonce, added, false, isReturnWithError)
            case Err(e) => Credit(acnt.data, sys, Err(e))
            case Ok((d, s, _)) =>
              if env.shardOf(sndAddress) == env.shardOf(dstAddress) then Credit(d, s, Ok(added))
              else match LiquiditySpec(cfg, s, tokenKey, nonce, t.value)
                case Err(e) => Credit(d, s, Err(e))
                case Ok(s') => Credit(d, s', Ok(added))
  }

  /** `addNFTToDestination`: returns the record saved on the destination. */
  method AddNFTToDestination(cfg: Config, env: Env, sndAddress: Bytes, dstAddress: Bytes, acnt: Account, sys: Account,
                             t: MECToken, tokenKey: Bytes, nonce: uint64, isReturnWithError: bool) returns (r: Result<MECToken>)
    requires acnt != sys
    modifies acnt, sys
    ensures var c := CreditSpec(cfg, env, sndAddress, dstAddress, old(acnt.State()), old(sys.data), t, tokenKey, nonce, isReturnWithError);
      acnt.data == c.dst && sys.data == c.sys && r == c.result
  {
    var got := GetNFTOnDestination(cfg, acnt.data, sys.data, tokenKey, nonce);
    if got.Err? {
      return Err(got.error);
    }
    var current := got.value.0;
    var check := CheckFrozeAndPause(dstAddress, tokenKey, current, sys.data, env, isReturnWithError);
    if check.Failure? {
      return Err(check.error);
    }
    var added := t.(value := t.value + current.value);
    var saved := SaveMECTNFTToken(cfg, env, sndAddress, acnt, sys, tokenKey, nonce, added, false, isReturnWithError);
    if saved.Err? {
      return Err(saved.error);
    }
    if env.shardOf(sndAddress) != env.shardOf(dstAddress) {
      var s := AddToLiquiditySystemAcc(cfg, sys, tokenKey, nonce, t.value);
      if s.Failure? {
        return Err(s.error);
      }
    }
    return Ok(added);
  }

  // ---------------------------------------------------------------------
  // The forwarded call

  /** The arguments of the forwarded call: token, nonce, quantity, the payload, then the rest of the call. */
  function NFTCallArgs(args: seq<Bytes>, payload: Bytes): (r: seq<Bytes>)
    requires |args| >= MinLenArgumentsMECTNFTTransfer
    ensures |r| == |args| && r[3] == payload
    ensures forall i :: 0 <= i < |args| && i != 3 ==> r[i] == args[i]
  {
    args[..3] + [payload] + args[4..]
  }

  /**
   * What `addNFTTransferToVMOutput` leaves: the output accounts replaced by
   * the recipient with one zero-value transfer calling `funcName`.
   */
  function WithNFTTransfer(o: Output, sender: Bytes, recipient: Bytes, funcName: Bytes, args: seq<Bytes>,
                           gasLocked: uint64, gasLimit: nat, callType: CallType): (r: Output)
    ensures r.gasRemaining == o.gasRemaining && r.logs == o.logs && r.returnData == o.returnData
    ensures r.outputAccounts.Keys == {recipient}
    ensures r.outputAccounts[recipient].outputTransfers ==
      [OutputTransfer(0, gasLimit, gasLocked, TransferTxData(funcName, args), callType, sender)]
  {
    var transfer := OutputTransfer(0, gasLimit, gasLocked, TransferTxData(funcName, args), callType, sender);
    o.(outputAccounts := map[recipient := OutputAccount(recipient, [transfer])])
  }

  method AddNFTTransferToVMOutput(sender: Bytes, recipient: Bytes, funcName: Bytes, args: seq<Bytes>,
                                  gasLocked: uint64, gasLimit: nat, callType: CallType, out: VMOutput)
    modifies out
    ensures out.Snapshot() == WithNFTTransfer(old(out.Snapshot()), sender, recipient, funcName, args, gasLocked, gasLimit, callType)
  {
    var data := funcName;
    for k := 0 to |args|
      invariant data == Join([funcName] + HexAll(args[..k]), At)
      invariant unchanged(out)
    {
      assert [funcName] + HexAll(args[..k + 1]) == ([funcName] + HexAll(args[..k])) + [Hex(args[k])];
      JoinSnoc([funcName] + HexAll(args[..k]), Hex(args[k]), At);
      data := data + [At] + Hex(args[k]);
    }
    assert args[..|args|] == args;
    var transfer := OutputTransfer(0, gasLimit, gasLocked, data, callType, sender);
    out.outputAccounts := map[recipient := OutputAccount(recipient, [transfer])];
  }

  /** The payload: the serialized record unless the shard has its metadata and the quantity is not one. */
  function Payload(env: Env, t: MECToken, wasAlreadySent: bool): (p: Bytes)
    ensures !wasAlreadySent || t.value == 1 ==> p == env.marshal(t)
    ensures wasAlreadySent && t.value != 1 ==> p == ZeroByteArray
  {
    if !wasAlreadySent || t.value == 1 then env.marshal(t) else ZeroByteArray
  }

  /** The gas for copying the payload: per byte of the serialized record, as a 64-bit product. */
  function PayloadGas(env: Env, t: MECToken, wasAlreadySent: bool): (g: nat)
    ensures wasAlreadySent && t.value != 1 ==> g == 0
  {
    if !wasAlreadySent || t.value == 1 then Wrap64(|env.marshal(t)| * env.dataCopyPerByte) else 0
  }

  /**
   * The calls `createNFTOutputTransfers` adds once the payload is paid for: a
   * destination in another shard gets the transfer call, with all remaining
   * gas when a contract call follows; a destination in this shard gets the
   * contract call, if one follows.
   */
  function RouteSpec(env: Env, input: CallInput, payload: Bytes, dstAddress: Bytes, o: Output): (r: Result<Output>)
    requires |input.arguments| >= MinLenArgumentsMECTNFTTransfer
    ensures r.Ok? ==> r.value.logs == o.logs && r.value.returnData == o.returnData
  {
    var callArgs := NFTCallArgs(input.arguments, payload);
    var isSCCallAfter := env.isSCCallAfter(input, dstAddress, MinLenArgumentsMECTNFTTransfer);
    if !env.SameShard(dstAddress) then
      var gasToTransfer := if isSCCallAfter then o.gasRemaining else 0;
      Ok(WithNFTTransfer(o.(gasRemaining := o.gasRemaining - gasToTransfer), input.callerAddr, dstAddress,
                         Str(BuiltInFunctionMECTNFTTransfer), callArgs, input.gasLocked, gasToTransfer, input.callType))
    else if !isSCCallAfter then Ok(o)
    else if |input.arguments| <= MinLenArgumentsMECTNFTTransfer then Err(ErrRuntimePanic)
    else Ok(WithOutputTransfer(o, input.callerAddr, input.arguments[MinLenArgumentsMECTNFTTransfer],
                               input.arguments[MinLenArgumentsMECTNFTTransfer + 1..], dstAddress, input.gasLocked, input.callType))
  }

  method AddTransferOutputs(env: Env, input: CallInput, payload: Bytes, dstAddress: Bytes, out: VMOutput) returns (s: Status)
    requires |input.arguments| >= MinLenArgumentsMECTNFTTransfer
    modifies out
    ensures var r := RouteSpec(env, input, payload, dstAddress, old(out.Snapshot()));
      && (r.Err? ==> s == Failure(r.error))
      && (r.Ok? ==> s == Success && out.Snapshot() == r.value)
  {
    var callArgs := input.arguments[..3] + [payload] + input.arguments[4..];
    var isSCCallAfter := env.isSCCallAfter(input, dstAddress, MinLenArgumentsMECTNFTTransfer);
    if !env.SameShard(dstAddress) {
      var gasToTransfer := 0;
      if isSCCallAfter {
        gasToTransfer := out.gasRemaining;
        out.gasRemaining := 0;
      }
      AddNFTTransferToVMOutput(input.callerAddr, dstAddress, Str(BuiltInFunctionMECTNFTTransfer), callArgs,
                               input.gasLocked, gasToTransfer, input.callType, out);
      return Success;
    }
    if isSCCallAfter {
      if |input.arguments| <= MinLenArgumentsMECTNFTTransfer {
        return Failure(ErrRuntimePanic);
      }
      AddOutputTransferToVMOutput(input.callerAddr, input.arguments[MinLenArgumentsMECTNFTTransfer],
                                  input.arguments[MinLenArgumentsMECTNFTTransfer + 1..], dstAddress,
                                  input.gasLocked, input.callType, out);
    }
    return Success;
  }

  /** The system account's data and the output after `createNFTOutputTransfers`. */
  datatype Forward = Forward(sys: Data, result: Result<Output>)

  /**
   * `createNFTOutputTransfers` as a value: the shard is marked as having the
   * metadata, the payload's gas is charged, then the calls are added.
   */
  function ForwardSpec(cfg: Config, env: Env, input: CallInput, sys: Data, t: MECToken, dstAddress: Bytes,
                       tickerID: Bytes, nonce: uint64, o: Output): (f: Forward)
    requires |input.arguments| >= MinLenArgumentsMECTNFTTransfer
    ensures f.result.Ok? ==> f.result.value.logs == o.logs
  {
    match WasAlreadySentSpec(cfg, env, sys, tickerID, nonce, dstAddress)
      case Err(e) => Forward(sys, Err(e))
      case Ok((sys', sent)) =>
        var gas := PayloadGas(env, t, sent);
        if gas > o.gasRemaining then Forward(sys', Err(ErrNotEnoughGas))
        else Forward(sys', RouteSpec(env, input, Payload(env, t, sent), dstAddress, o.(gasRemaining := o.gasRemaining - gas)))
  }

  /** `createNFTOutputTransfers`. */
  method CreateNFTOutputTransfers(cfg: Config, env: Env, input: CallInput, out: VMOutput, sys: Account, t: MECToken,
                                  dstAddress: Bytes, tickerID: Bytes, nonce: uint64) returns (s: Status)
    requires |input.arguments| >= MinLenArgumentsMECTNFTTransfer
    modifies out, sys
    ensures var f := ForwardSpec(cfg, env, input, old(sys.data), t, dstAddress, tickerID, nonce, old(out.Snapshot()));
      && sys.data == f.sys
      && (f.result.Err? ==> s == Failure(f.result.error))
      && (f.result.Ok? ==> s == Success && out.Snapshot() == f.result.value)
  {
    var sent := WasAlreadySentToDestinationShardAndUpdateState(cfg, env, sys, tickerID, nonce, dstAddress);
    if sent.Err? {
      return Failure(sent.error);
    }
    var payload := ZeroByteArray;
    if !sent.value || t.value == 1 {
      payload := env.marshal(t);
      var gasForTransfer := Wrap64(|payload| * env.dataCopyPerByte);
      if gasForTransfer > out.gasRemaining {
        return Failure(ErrNotEnoughGas);
      }
      out.gasRemaining := out.gasRemaining - gasForTransfer;
    }
    s := AddTransferOutputs(env, input, payload, dstAddress, out);
  }

  // ---------------------------------------------------------------------
  // The sender's shard

  /** The log entry of a transfer: the token, its nonce, the quantity, the caller and the destination. */
  function NFTTransferEntry(input: CallInput, nonce: uint64, quantity: nat, dstAddress: Bytes): LogEntry
    requires |input.arguments| >= 1
  {
    NewEntryForMECT(Str(BuiltInFunctionMECTNFTTransfer), input.arguments[0], nonce, quantity, [input.callerAddr, dstAddress])
  }

  /**
   * From the limited-transfer check on: `snd` is the sender after its debit,
   * `user` the destination when it is in this shard, `t` the record handed on.
   */
  function FinishSpec(funcGasCost: uint64, cfg: Config, env: Env, input: CallInput, snd: AccountState, user: Option<AccountState>,
                      loaded: Data, sys: Data, t: MECToken): (o: NFTOutcome)
    requires |input.arguments| >= MinLenArgumentsMECTNFTTransfer && input.gasProvided >= funcGasCost
    ensures o.snd == Some(snd.data) && o.dst.None? && o.loaded == loaded
  {
    var tickerID, dstAddress := input.arguments[0], input.arguments[3];
    var tokenKey, nonce := TokenKey(tickerID), Uint64Of(input.arguments[1]);
    var tokenID := if cfg.checkCorrectTokenID then tickerID else tokenKey;
    var limited := LimitedTransferCheck(cfg.transferRoleActive, tokenID, tokenKey, snd.address, dstAddress, sys, Some(snd), user,
                                        input.returnCallAfterError);
    if limited.Failure? then NFTOutcome(Some(snd.data), None, loaded, sys, Err(limited.error))
    else
      var e := EmitSpec(funcGasCost, cfg, env, input, sys, t);
      NFTOutcome(Some(snd.data), None, loaded, e.sys, e.result)
  }

  /** The output of the sender's shard: the calls of `createNFTOutputTransfers`, then the log entry. */
  function EmitSpec(funcGasCost: uint64, cfg: Config, env: Env, input: CallInput, sys: Data, t: MECToken): (e: Forward)
    requires |input.arguments| >= MinLenArgumentsMECTNFTTransfer && input.gasProvided >= funcGasCost
  {
    var nonce := Uint64Of(input.arguments[1]);
    var f := ForwardSpec(cfg, env, input, sys, t, input.arguments[3], input.arguments[0], nonce, Output(input.gasProvided - funcGasCost, [], [], map[]));
    match f.result
      case Err(_) => f
      case Ok(out) =>
        var entry := NFTTransferEntry(input, nonce, FromBE(input.arguments[2]), input.arguments[3]);
        Forward(f.sys, Ok(out.(logs := out.logs + [entry])))
  }

  /**
   * From the sender's debit on: a destination in this shard is credited the
   * record `t` (whose value is the quantity); otherwise the liquidity drops by it.
   */
  function DeliverSpec(funcGasCost: uint64, cfg: Config, env: Env, input: CallInput, snd: AccountState, loaded: AccountState,
                       sys: Data, t: MECToken): (o: NFTOutcome)
    requires |input.arguments| >= MinLenArgumentsMECTNFTTransfer && input.gasProvided >= funcGasCost
    ensures o.snd == Some(snd.data) && o.dst.None?
    ensures !env.SameShard(input.arguments[3]) ==> o.loaded == loaded.data
  {
    var dstAddress := input.arguments[3];
    var tokenKey, nonce := TokenKey(input.arguments[0]), Uint64Of(input.arguments[1]);
    if env.SameShard(dstAddress) then
      if !env.checkPayable(input, dstAddress, MinLenArgumentsMECTNFTTransfer) then
        NFTOutcome(Some(snd.data), None, loaded.data, sys, Err(ErrAccountNotPayable))
      else
        var c := CreditSpec(cfg, env, input.callerAddr, dstAddress, loaded, sys, t, tokenKey, nonce, input.returnCallAfterError);
        match c.result
          case Err(e) => NFTOutcome(Some(snd.data), None, c.dst, c.sys, Err(e))
          case Ok(added) =>
            FinishSpec(funcGasCost, cfg, env, input, snd, Some(AccountState(loaded.address, c.dst)), c.dst, c.sys, added)
    else match LiquiditySpec(cfg, sys, tokenKey, nonce, -t.value)
      case Err(e) => NFTOutcome(Some(snd.data), None, loaded.data, sys, Err(e))
      case Ok(sys') => FinishSpec(funcGasCost, cfg, env, input, snd, None, loaded.data, sys', t)
  }

  /**
   * The checks of `processNFTTransferOnSenderShard` and the sender's debit,
   * which come before any write: the sender's data and the system account's
   * data after the save, and the sender's record as read.
   */
  function DebitSpec(funcGasCost: uint64, cfg: Config, env: Env, input: CallInput, sys: Data, snd: Option<AccountState>)
    : (r: Result<(Data, Data, MECToken)>)
    requires |input.arguments| >= MinLenArgumentsMECTNFTTransfer
    ensures r.Ok? ==> snd.Some? && input.gasProvided >= funcGasCost && Uint64Of(input.arguments[1]) > 0
    ensures r.Ok? ==> r.value.2.value >= FromBE(input.arguments[2])
  {
    var args := input.arguments;
    var dstAddress := args[3];
    if |dstAddress| != |input.callerAddr| || dstAddress == input.callerAddr then Err(ErrInvalidArguments)
    else if env.shardOf(dstAddress) == MetachainShardId && !cfg.transferToMeta then Err(ErrInvalidRcvAddr)
    else if input.gasProvided < funcGasCost then Err(ErrNotEnoughGas)
    else if snd.None? then Err(ErrRuntimePanic)
    else
      var tokenKey, nonce := TokenKey(args[0]), Uint64Of(args[1]);
      match GetNFTOnSender(cfg, snd.value.data, sys, tokenKey, nonce)
        case Err(e) => Err(e)
        case Ok(t) =>
          var quantity := FromBE(args[2]);
          if nonce == 0 then Err(ErrNFTDoesNotHaveMetadata)
          else if t.value < quantity then Err(ErrInvalidNFTQuantity)
          else if cfg.check0Transfer && quantity <= 0 then Err(ErrInvalidNFTQuantity)
          else match SaveNFTSpec(cfg, env, snd.value, sys, snd.value.address, tokenKey, nonce, t.(value := t.value - quantity), false,
                                 input.returnCallAfterError)
            case Err(e) => Err(e)
            case Ok((d, sys', _)) => Ok((d, sys', t))
  }

  /** `processNFTTransferOnSenderShard` as a value; the recipient handle is not used and is left as `None`. */
  function SenderLegSpec(funcGasCost: uint64, cfg: Config, env: Env, input: CallInput, sys: Data, snd: Option<AccountState>,
                         loaded: AccountState): (o: NFTOutcome)
    requires |input.arguments| >= MinLenArgumentsMECTNFTTransfer
    ensures o.snd.Some? <==> snd.Some?
    ensures o.dst.None?
  {
    match DebitSpec(funcGasCost, cfg, env, input, sys, snd)
      case Err(e) => NFTOutcome(DataOf(snd), None, loaded.data, sys, Err(e))
      case Ok((d, sys', t)) =>
        DeliverSpec(funcGasCost, cfg, env, input, AccountState(snd.value.address, d), loaded, sys', t.(value := FromBE(input.arguments[2])))
  }

  /** `processNFTTransferOnSenderShard`. */
  method ProcessNFTTransferOnSenderShard(funcGasCost: uint64, cfg: Config, env: Env, input: CallInput, sys: Account,
                                         acntSnd: Account?, loaded: Account) returns (r: Result<VMOutput>)
    requires |input.arguments| >= MinLenArgumentsMECTNFTTransfer
    requires acntSnd != sys && acntSnd != loaded && loaded != sys
    modifies acntSnd, loaded, sys
    ensures var o := SenderLegSpec(funcGasCost, cfg, env, input, old(sys.data), old(StateOf(acntSnd)), old(loaded.State()));
      && (acntSnd != null ==> acntSnd.data == o.snd.value)
      && loaded.data == o.loaded && sys.data == o.sys
      && (o.result.Err? ==> r == Err(o.result.error))
      && (o.result.Ok? ==> r.Ok? && fresh(r.value) && r.value.Snapshot() == o.result.value)
  {
    var debited := Debit(funcGasCost, cfg, env, input, sys, acntSnd);
    if debited.Err? {
      return Err(debited.error);
    }
    r := Deliver(funcGasCost, cfg, env, input, sys, acntSnd, loaded, debited.value.(value := FromBE(input.arguments[2])));
  }

  /** The checks and the debit of `processNFTTransferOnSenderShard`: returns the sender's record as read. */
  method Debit(funcGasCost: uint64, cfg: Config, env: Env, input: CallInput, sys: Account, acntSnd: Account?) returns (r: Result<MECToken>)
    requires |input.arguments| >= MinLenArgumentsMECTNFTTransfer
    requires acntSnd != sys
    modifies acntSnd, sys
    ensures var spec := DebitSpec(funcGasCost, cfg, env, input, old(sys.data), old(StateOf(acntSnd)));
      && (spec.Err? ==> r == Err(spec.error) && sys.data == old(sys.data) && (acntSnd != null ==> acntSnd.data == old(acntSnd.data)))
      && (spec.Ok? ==> r == Ok(spec.value.2) && acntSnd != null && acntSnd.data == spec.value.0 && sys.data == spec.value.1)
  {
    var args := input.arguments;
    var dstAddress := args[3];
    if |dstAddress| != |input.callerAddr| || dstAddress == input.callerAddr {
      return Err(ErrInvalidArguments);
    }
    if env.shardOf(dstAddress) == MetachainShardId && !cfg.transferToMeta {
      return Err(ErrInvalidRcvAddr);
    }
    if input.gasProvided < funcGasCost {
      return Err(ErrNotEnoughGas);
    }
    if acntSnd == null {
      return Err(ErrRuntimePanic);
    }
    var tokenKey, nonce := TokenKey(args[0]), Uint64Of(args[1]);
    var got := GetNFTOnSender(cfg, acntSnd.data, sys.data, tokenKey, nonce);
    if got.Err? {
      return Err(got.error);
    }
    var t := got.value;
    var quantity := FromBE(args[2]);
    if nonce == 0 {
      return Err(ErrNFTDoesNotHaveMetadata);
    }
    if t.value < quantity {
      return Err(ErrInvalidNFTQuantity);
    }
    if cfg.check0Transfer && quantity <= 0 {
      return Err(ErrInvalidNFTQuantity);
    }
    var saved := SaveMECTNFTToken(cfg, env, acntSnd.address, acntSnd, sys, tokenKey, nonce, t.(value := t.value - quantity), false,
                                  input.returnCallAfterError);
    if saved.Err? {
      return Err(saved.error);
    }
    return Ok(t);
  }

  /** The second half of `processNFTTransferOnSenderShard`: the credit or the liquidity, the checks and the output. */
  method Deliver(funcGasCost: uint64, cfg: Config, env: Env, input: CallInput, sys: Account, acntSnd: Account, loaded: Account,
                 t: MECToken) returns (r: Result<VMOutput>)
    requires |input.arguments| >= MinLenArgumentsMECTNFTTransfer && input.gasProvided >= funcGasCost
    requires acntSnd != sys && acntSnd != loaded && loaded != sys
    modifies loaded, sys
    ensures var o := DeliverSpec(funcGasCost, cfg, env, input, acntSnd.State(), old(loaded.State()), old(sys.data), t);
      && loaded.data == o.loaded && sys.data == o.sys
      && (o.result.Err? ==> r == Err(o.result.error))
      && (o.result.Ok? ==> r.Ok? && fresh(r.value) && r.value.Snapshot() == o.result.value)
  {
    var dstAddress := input.arguments[3];
    var tickerID := input.arguments[0];
    var tokenKey, nonce := TokenKey(tickerID), Uint64Of(input.arguments[1]);
    var handed := t;
    var userAccount: Account? := null;
    if env.SameShard(dstAddress) {
      userAccount := loaded;
      if !env.checkPayable(input, dstAddress, MinLenArgumentsMECTNFTTransfer) {
        return Err(ErrAccountNotPayable);
      }
      var added := AddNFTToDestination(cfg, env, input.callerAddr, dstAddress, loaded, sys, t, tokenKey, nonce, input.returnCallAfterError);
      if added.Err? {
        return Err(added.error);
      }
      handed := added.value;
    } else {
      var s := AddToLiquiditySystemAcc(cfg, sys, tokenKey, nonce, -t.value);
      if s.Failure? {
        return Err(s.error);
      }
    }
    r := Finish(funcGasCost, cfg, env, input, sys, acntSnd, userAccount, handed, loaded.data);
  }

  /** The end of `processNFTTransferOnSenderShard`: the limited-transfer check, the output and the log. */
  method Finish(funcGasCost: uint64, cfg: Config, env: Env, input: CallInput, sys: Account, acntSnd: Account, userAccount: Account?,
                t: MECToken, ghost loaded: Data) returns (r: Result<VMOutput>)
    requires |input.arguments| >= MinLenArgumentsMECTNFTTransfer && input.gasProvided >= funcGasCost
    requires acntSnd != sys && userAccount != sys
    modifies sys
    ensures var o := FinishSpec(funcGasCost, cfg, env, input, acntSnd.State(), StateOf(userAccount), loaded, old(sys.data), t);
      && sys.data == o.sys
      && (o.result.Err? ==> r == Err(o.result.error))
      && (o.result.Ok? ==> r.Ok? && fresh(r.value) && r.value.Snapshot() == o.result.value)
  {
    var tickerID, dstAddress := input.arguments[0], input.arguments[3];
    var tokenKey, nonce := TokenKey(tickerID), Uint64Of(input.arguments[1]);
    var tokenID := if cfg.checkCorrectTokenID then tickerID else tokenKey;
    var limited := CheckIfTransferCanHappenWithLimitedTransfer(cfg.transferRoleActive, tokenID, tokenKey, acntSnd.address, dstAddress,
                                                               sys.data, acntSnd, userAccount, input.returnCallAfterError);
    if limited.Failure? {
      return Err(limited.error);
    }
    r := Emit(funcGasCost, cfg, env, input, sys, t);
  }

  method Emit(funcGasCost: uint64, cfg: Config, env: Env, input: CallInput, sys: Account, t: MECToken) returns (r: Result<VMOutput>)
    requires |input.arguments| >= MinLenArgumentsMECTNFTTransfer && input.gasProvided >= funcGasCost
    modifies sys
    ensures var e := EmitSpec(funcGasCost, cfg, env, input, old(sys.data), t);
      && sys.data == e.sys
      && (e.result.Err? ==> r == Err(e.result.error))
      && (e.result.Ok? ==> r.Ok? && fresh(r.value) && r.value.Snapshot() == e.result.value)
  {
    var tickerID, dstAddress := input.arguments[0], input.arguments[3];
    var nonce := Uint64Of(input.arguments[1]);
    var out := new VMOutput(input.gasProvided - funcGasCost);
    var s := CreateNFTOutputTransfers(cfg, env, input, out, sys, t, dstAddress, tickerID, nonce);
    if s.Failure? {
      return Err(s.error);
    }
    AddMECTEntryInVMOutput(out, Str(BuiltInFunctionMECTNFTTransfer), tickerID, nonce, FromBE(input.arguments[2]),
                           [input.callerAddr, dstAddress]);
    return Ok(out);
  }

  // ---------------------------------------------------------------------
  // The destination's shard

  /** The record a forwarded call carries: its payload, or a bare non-fungible record of the quantity when the payload is a zero byte. */
  function IncomingRecord(env: Env, args: seq<Bytes>): (r: Option<MECToken>)
    requires |args| >= MinLenArgumentsMECTNFTTransfer
    ensures args[3] == ZeroByteArray ==> r == Some(MECToken(NonFungible, FromBE(args[2]), [], None, []))
    ensures args[3] != ZeroByteArray ==> r == env.unmarshal(args[3])
  {
    if args[3] == ZeroByteArray then Some(MECToken(NonFungible, FromBE(args[2]), [], None, [])) else env.unmarshal(args[3])
  }

  /** The destination half of `ProcessBuiltinFunction` as a value; the sender handle must be nil here. */
  function ReceiveLegSpec(cfg: Config, env: Env, input: CallInput, sys: Data, snd: Option<AccountState>, dst: Option<AccountState>,
                          loaded: AccountState): (o: NFTOutcome)
    requires |input.arguments| >= MinLenArgumentsMECTNFTTransfer
    ensures o.snd == DataOf(snd) && o.loaded == loaded.data
    ensures o.dst.Some? <==> dst.Some?
    ensures snd.Some? || dst.None? ==> o.result == Err(ErrInvalidRcvAddr)
  {
    var args := input.arguments;
    var untouched := NFTOutcome(DataOf(snd), DataOf(dst), loaded.data, sys, Err(ErrInvalidRcvAddr));
    if snd.Some? || dst.None? then untouched
    else
      var tokenKey, nonce := TokenKey(args[0]), Uint64Of(args[1]);
      match IncomingRecord(env, args)
        case None => untouched.(result := Err(ErrUnmarshal))
        case Some(t) =>
          if !env.checkPayable(input, input.recipientAddr, MinLenArgumentsMECTNFTTransfer) then untouched.(result := Err(ErrAccountNotPayable))
          else
            var c := CreditSpec(cfg, env, input.callerAddr, input.recipientAddr, dst.value, sys, t, tokenKey, nonce, input.returnCallAfterError);
            if c.result.Err? then NFTOutcome(None, Some(c.dst), loaded.data, c.sys, Err(c.result.error))
            else
              var o := Output(input.gasProvided, [], [], map[]);
              var called := if |args| > MinLenArgumentsMECTNFTTransfer && env.isSmartContract(input.recipientAddr)
                then WithOutputTransfer(o, input.callerAddr, args[MinLenArgumentsMECTNFTTransfer], args[MinLenArgumentsMECTNFTTransfer + 1..],
                                        input.recipientAddr, input.gasLocked, input.callType)
                else o;
              var entry := NFTTransferEntry(input, nonce, FromBE(args[2]), dst.value.address);
              NFTOutcome(None, Some(c.dst), loaded.data, c.sys, Ok(called.(logs := [entry])))
  }

  /** `ProcessBuiltinFunction` of the NFT transfer as a value. */
  function NFTTransferSpec(funcGasCost: uint64, cfg: Config, env: Env, input: CallInput, sys: Data, snd: Option<AccountState>,
                           dst: Option<AccountState>, loaded: AccountState): (o: NFTOutcome)
    ensures o.snd.Some? <==> snd.Some?
    ensures o.dst.Some? <==> dst.Some?
    ensures CheckBasicMECTArguments(input).Failure? ==> o == NFTOutcome(DataOf(snd), DataOf(dst), loaded.data, sys, Err(CheckBasicMECTArguments(input).error))
    ensures CheckBasicMECTArguments(input) == Success && |input.arguments| < MinLenArgumentsMECTNFTTransfer ==>
      o == NFTOutcome(DataOf(snd), DataOf(dst), loaded.data, sys, Err(ErrInvalidArguments))
  {
    var basic := CheckBasicMECTArguments(input);
    if basic.Failure? then NFTOutcome(DataOf(snd), DataOf(dst), loaded.data, sys, Err(basic.error))
    else if |input.arguments| < MinLenArgumentsMECTNFTTransfer then NFTOutcome(DataOf(snd), DataOf(dst), loaded.data, sys, Err(ErrInvalidArguments))
    else if input.callerAddr == input.recipientAddr then SenderLegSpec(funcGasCost, cfg, env, input, sys, snd, loaded).(dst := DataOf(dst))
    else ReceiveLegSpec(cfg, env, input, sys, snd, dst, loaded)
  }

  /**
   * `ProcessBuiltinFunction` of the NFT transfer. `loaded` is the account the
   * sender's shard loads for a destination in the same shard. When the
   * same account is handed over as sender and destination, its new state is
   * the sender's.
   */
  method ProcessNFTTransfer(funcGasCost: uint64, cfg: Config, env: Env, input: CallInput, sys: Account,
                            acntSnd: Account?, acntDst: Account?, loaded: Account) returns (r: Result<VMOutput>)
    requires acntSnd != sys && acntDst != sys && loaded != sys
    requires acntSnd != loaded && acntDst != loaded
    modifies acntSnd, acntDst, loaded, sys
    ensures var o := NFTTransferSpec(funcGasCost, cfg, env, input, old(sys.data), old(StateOf(acntSnd)), old(StateOf(acntDst)), old(loaded.State()));
      && (acntSnd != null ==> acntSnd.data == o.snd.value)
      && (acntDst != null && acntDst != acntSnd ==> acntDst.data == o.dst.value)
      && loaded.data == o.loaded && sys.data == o.sys
      && (o.result.Err? ==> r == Err(o.result.error))
      && (o.result.Ok? ==> r.Ok? && fresh(r.value) && r.value.Snapshot() == o.result.value)
  {
    var basic := CheckBasicMECTArguments(input);
    if basic.Failure? {
      return Err(basic.error);
    }
    var args := input.arguments;
    if |args| < MinLenArgumentsMECTNFTTransfer {
      return Err(ErrInvalidArguments);
    }
    if input.callerAddr == input.recipientAddr {
      r := ProcessNFTTransferOnSenderShard(funcGasCost, cfg, env, input, sys, acntSnd, loaded);
      return;
    }
    if acntSnd != null || acntDst == null {
      return Err(ErrInvalidRcvAddr);
    }
    var tokenKey, nonce := TokenKey(args[0]), Uint64Of(args[1]);
    var incoming := IncomingRecord(env, args);
    if incoming.None? {
      return Err(ErrUnmarshal);
    }
    if !env.checkPayable(input, input.recipientAddr, MinLenArgumentsMECTNFTTransfer) {
      return Err(ErrAccountNotPayable);
    }
    var added := AddNFTToDestination(cfg, env, input.callerAddr, input.recipientAddr, acntDst, sys, incoming.value, tokenKey, nonce,
                                     input.returnCallAfterError);
    if added.Err? {
      return Err(added.error);
    }
    var out := new VMOutput(input.gasProvided);
    if |args| > MinLenArgumentsMECTNFTTransfer && env.isSmartContract(input.recipientAddr) {
      AddOutputTransferToVMOutput(input.callerAddr, args[MinLenArgumentsMECTNFTTransfer], args[MinLenArgumentsMECTNFTTransfer + 1..],
                                  input.recipientAddr, input.gasLocked, input.callType, out);
    }
    AddMECTEntryInVMOutput(out, Str(BuiltInFunctionMECTNFTTransfer), args[0], nonce, FromBE(args[2]), [input.callerAddr, acntDst.address]);
    return Ok(out);
  }

  // ---------------------------------------------------------------------
  // Properties of the transfer

  /** The gas a transfer hands to the call it adds for `to`; zero when it adds none. */
  function ForwardedGas(o: Output, to: Bytes): nat
  {
    if to in o.outputAccounts && |o.outputAccounts[to].outputTransfers| > 0 then o.outputAccounts[to].outputTransfers[0].gasLimit else 0
  }

  /** The sender's record, once read, holds exactly the stored quantity. */
  lemma SenderRecordQuantity(cfg: Config, u: Data, sys: Data, tokenKey: Bytes, nonce: uint64)
    requires GetNFTOnSender(cfg, u, sys, tokenKey, nonce).Ok?
    ensures GetNFTOnSender(cfg, u, sys, tokenKey, nonce).value.value == Quantity(u, NFTTokenKey(tokenKey, nonce))
  {
  }

  /** A save of a non-negative quantity leaves the holder with exactly that quantity. */
  lemma SaveSetsQuantity(cfg: Config, env: Env, acnt: AccountState, sys: Data, senderAddress: Bytes, tokenKey: Bytes, nonce: uint64,
                         t: MECToken, mustUpdate: bool, isReturnWithError: bool)
    requires SaveNFTSpec(cfg, env, acnt, sys, senderAddress, tokenKey, nonce, t, mustUpdate, isReturnWithError).Ok?
    requires t.value >= 0
    ensures Quantity(SaveNFTSpec(cfg, env, acnt, sys, senderAddress, tokenKey, nonce, t, mustUpdate, isReturnWithError).value.0,
                     NFTTokenKey(tokenKey, nonce)) == t.value
  {
    SaveKeepsHolderRecordSmall(cfg, env, acnt, sys, senderAddress, tokenKey, nonce, t, mustUpdate, isReturnWithError);
  }

  /**
   * A save that does not force the mirror keeps the liquidity: an existing
   * mirror is left alone and a new one starts at zero.
   */
  lemma SaveKeepsLiquidity(cfg: Config, env: Env, acnt: AccountState, sys: Data, senderAddress: Bytes, tokenKey: Bytes, nonce: uint64,
                           t: MECToken, isReturnWithError: bool)
    requires SaveNFTSpec(cfg, env, acnt, sys, senderAddress, tokenKey, nonce, t, false, isReturnWithError).Ok?
    ensures var key, after := NFTTokenKey(tokenKey, nonce), SaveNFTSpec(cfg, env, acnt, sys, senderAddress, tokenKey, nonce, t, false, isReturnWithError).value.1;
      && Liquidity(after, key) == Liquidity(sys, key)
      && (Retrieve(sys, key) != Nil ==> after == sys)
  {
    var key := NFTTokenKey(tokenKey, nonce);
    if cfg.saveToSystemAccount && Retrieve(sys, key) == Nil && nonce != 0 && t.metaData.Some? {
      var m := NewMirror(cfg, env, Some(acnt.data), sys, key, t).value;
      var props := MarkShards(cfg, env, m.properties, env.shardOf(senderAddress)).value;
      assert MirrorOf(SaveNFTSpec(cfg, env, acnt, sys, senderAddress, tokenKey, nonce, t, false, isReturnWithError).value.1, key)
        == Ok(Some(m.(properties := props)));
    }
  }

  /** A destination whose record is frozen is refused, and nothing is written. */
  lemma FrozenDestinationRefused(cfg: Config, env: Env, sndAddress: Bytes, dstAddress: Bytes, acnt: AccountState, sys: Data,
                                 t: MECToken, tokenKey: Bytes, nonce: uint64)
    requires dstAddress != env.mectSCAddress
    requires GetNFTOnDestination(cfg, acnt.data, sys, tokenKey, nonce).Ok?
    requires UserFromBytes(GetNFTOnDestination(cfg, acnt.data, sys, tokenKey, nonce).value.0.properties).frozen
    ensures CreditSpec(cfg, env, sndAddress, dstAddress, acnt, sys, t, tokenKey, nonce, false) == Credit(acnt.data, sys, Err(ErrMECTIsFrozenForAccount))
  {
  }

  /**
   * The sender's debit: the record read holds the stored quantity, the saved
   * record holds that quantity less the quantity sent, and the liquidity is
   * where it was.
   */
  lemma DebitTakesQuantity(funcGasCost: uint64, cfg: Config, env: Env, input: CallInput, sys: Data, snd: AccountState)
    requires |input.arguments| >= MinLenArgumentsMECTNFTTransfer
    requires DebitSpec(funcGasCost, cfg, env, input, sys, Some(snd)).Ok?
    ensures var (d, sys1, t) := DebitSpec(funcGasCost, cfg, env, input, sys, Some(snd)).value;
      var key := NFTTokenKey(TokenKey(input.arguments[0]), Uint64Of(input.arguments[1]));
      && t.value == Quantity(snd.data, key)
      && Quantity(d, key) == Quantity(snd.data, key) - FromBE(input.arguments[2])
      && Liquidity(sys1, key) == Liquidity(sys, key)
      && (Retrieve(sys, key) != Nil ==> sys1 == sys)
  {
    var args := input.arguments;
    var tokenKey, nonce, quantity := TokenKey(args[0]), Uint64Of(args[1]), FromBE(args[2]);
    var t := GetNFTOnSender(cfg, snd.data, sys, tokenKey, nonce).value;
    SenderRecordQuantity(cfg, snd.data, sys, tokenKey, nonce);
    var debited := t.(value := t.value - quantity);
    SaveSetsQuantity(cfg, env, snd, sys, snd.address, tokenKey, nonce, debited, false, input.returnCallAfterError);
    SaveKeepsLiquidity(cfg, env, snd, sys, snd.address, tokenKey, nonce, debited, input.returnCallAfterError);
  }

  /** A successful delivery in the same shard is the destination's credit followed by the output. */
  lemma DeliverSameShardUnfolds(funcGasCost: uint64, cfg: Config, env: Env, input: CallInput, snd: AccountState, loaded: AccountState,
                                sys: Data, t: MECToken)
    requires |input.arguments| >= MinLenArgumentsMECTNFTTransfer && input.gasProvided >= funcGasCost
    requires DeliverSpec(funcGasCost, cfg, env, input, snd, loaded, sys, t).result.Ok? && env.SameShard(input.arguments[3])
    ensures var c := CreditSpec(cfg, env, input.callerAddr, input.arguments[3], loaded, sys, t, TokenKey(input.arguments[0]),
                                Uint64Of(input.arguments[1]), input.returnCallAfterError);
      && c.result.Ok?
      && DeliverSpec(funcGasCost, cfg, env, input, snd, loaded, sys, t)
        == FinishSpec(funcGasCost, cfg, env, input, snd, Some(AccountState(loaded.address, c.dst)), c.dst, c.sys, c.result.value)
  {
  }

  /** A successful delivery towards another shard is the liquidity's drop followed by the output. */
  lemma DeliverCrossShardUnfolds(funcGasCost: uint64, cfg: Config, env: Env, input: CallInput, snd: AccountState, loaded: AccountState,
                                 sys: Data, t: MECToken)
    requires |input.arguments| >= MinLenArgumentsMECTNFTTransfer && input.gasProvided >= funcGasCost
    requires !env.SameShard(input.arguments[3])
    ensures var l := LiquiditySpec(cfg, sys, TokenKey(input.arguments[0]), Uint64Of(input.arguments[1]), -t.value);
      && (l.Err? ==> DeliverSpec(funcGasCost, cfg, env, input, snd, loaded, sys, t).result == Err(l.error))
      && (l.Ok? ==> DeliverSpec(funcGasCost, cfg, env, input, snd, loaded, sys, t)
                      == FinishSpec(funcGasCost, cfg, env, input, snd, None, loaded.data, l.value, t))
  {
  }

  /** After the debit, a successful delivery writes only the shard mark on the system account. */
  lemma FinishWritesShardMark(funcGasCost: uint64, cfg: Config, env: Env, input: CallInput, snd: AccountState, user: Option<AccountState>,
                              loaded: Data, sys: Data, t: MECToken)
    requires |input.arguments| >= MinLenArgumentsMECTNFTTransfer && input.gasProvided >= funcGasCost
    requires FinishSpec(funcGasCost, cfg, env, input, snd, user, loaded, sys, t).result.Ok?
    ensures var sent := WasAlreadySentSpec(cfg, env, sys, input.arguments[0], Uint64Of(input.arguments[1]), input.arguments[3]);
      && sent.Ok?
      && FinishSpec(funcGasCost, cfg, env, input, snd, user, loaded, sys, t).sys == sent.value.0
      && var start := Output(input.gasProvided - funcGasCost, [], [], map[]);
      && ForwardSpec(cfg, env, input, sys, t, input.arguments[3], input.arguments[0], Uint64Of(input.arguments[1]), start).result.Ok?
      && var out := ForwardSpec(cfg, env, input, sys, t, input.arguments[3], input.arguments[0], Uint64Of(input.arguments[1]), start).result.value;
      && FinishSpec(funcGasCost, cfg, env, input, snd, user, loaded, sys, t).result.value.gasRemaining == out.gasRemaining
      && FinishSpec(funcGasCost, cfg, env, input, snd, user, loaded, sys, t).result.value.outputAccounts == out.outputAccounts
  {
    var e := EmitSpec(funcGasCost, cfg, env, input, sys, t);
    assert FinishSpec(funcGasCost, cfg, env, input, snd, user, loaded, sys, t) == NFTOutcome(Some(snd.data), None, loaded, e.sys, e.result);
    EmitKeepsForward(funcGasCost, cfg, env, input, sys, t);
    var start := Output(input.gasProvided - funcGasCost, [], [], map[]);
    ForwardWritesMark(cfg, env, input, sys, t, input.arguments[3], input.arguments[0], Uint64Of(input.arguments[1]), start);
  }

  /** A successful emit is the forward with one more log entry: same system account, gas and output accounts. */
  lemma EmitKeepsForward(funcGasCost: uint64, cfg: Config, env: Env, input: CallInput, sys: Data, t: MECToken)
    requires |input.arguments| >= MinLenArgumentsMECTNFTTransfer && input.gasProvided >= funcGasCost
    requires EmitSpec(funcGasCost, cfg, env, input, sys, t).result.Ok?
    ensures var e := EmitSpec(funcGasCost, cfg, env, input, sys, t);
      && var f := ForwardSpec(cfg, env, input, sys, t, input.arguments[3], input.arguments[0], Uint64Of(input.arguments[1]),
                              Output(input.gasProvided - funcGasCost, [], [], map[]));
      && f.result.Ok? && e.sys == f.sys
      && e.result.value.gasRemaining == f.result.value.gasRemaining
      && e.result.value.outputAccounts == f.result.value.outputAccounts
  {
  }

  /** A successful forward leaves the system account as the shard-mark update left it. */
  lemma ForwardWritesMark(cfg: Config, env: Env, input: CallInput, sys: Data, t: MECToken, dstAddress: Bytes,
                          tickerID: Bytes, nonce: uint64, o: Output)
    requires |input.arguments| >= MinLenArgumentsMECTNFTTransfer
    requires ForwardSpec(cfg, env, input, sys, t, dstAddress, tickerID, nonce, o).result.Ok?
    ensures var sent := WasAlreadySentSpec(cfg, env, sys, tickerID, nonce, dstAddress);
      sent.Ok? && ForwardSpec(cfg, env, input, sys, t, dstAddress, tickerID, nonce, o).sys == sent.value.0
  {
  }

  /**
   * A delivery within one shard credits the destination exactly the
   * quantity handed on and leaves the liquidity where it was.
   */
  lemma SameShardDeliverCredits(funcGasCost: uint64, cfg: Config, env: Env, input: CallInput, snd: AccountState, loaded: AccountState,
                                sys: Data, t: MECToken)
    requires |input.arguments| >= MinLenArgumentsMECTNFTTransfer && input.gasProvided >= funcGasCost
    requires DeliverSpec(funcGasCost, cfg, env, input, snd, loaded, sys, t).result.Ok? && env.SameShard(input.arguments[3])
    requires env.shardOf(input.callerAddr) == env.selfId
    requires var key := NFTTokenKey(TokenKey(input.arguments[0]), Uint64Of(input.arguments[1]));
      Quantity(loaded.data, key) >= 0 && t.value >= 0
    ensures var o, key := DeliverSpec(funcGasCost, cfg, env, input, snd, loaded, sys, t),
                          NFTTokenKey(TokenKey(input.arguments[0]), Uint64Of(input.arguments[1]));
      && Quantity(o.loaded, key) == Quantity(loaded.data, key) + t.value
      && Liquidity(o.sys, key) == Liquidity(sys, key)
  {
    var args := input.arguments;
    var tokenKey, nonce := TokenKey(args[0]), Uint64Of(args[1]);
    DeliverSameShardUnfolds(funcGasCost, cfg, env, input, snd, loaded, sys, t);
    var c := CreditSpec(cfg, env, input.callerAddr, args[3], loaded, sys, t, tokenKey, nonce, input.returnCallAfterError);
    SameShardCreditMoves(cfg, env, input.callerAddr, args[3], loaded, sys, t, tokenKey, nonce, input.returnCallAfterError);
    FinishWritesShardMark(funcGasCost, cfg, env, input, snd, Some(AccountState(loaded.address, c.dst)), c.dst, c.sys, c.result.value);
  }

  /** A credit within one shard adds the quantity to the destination's record and leaves the liquidity alone. */
  lemma SameShardCreditMoves(cfg: Config, env: Env, sndAddress: Bytes, dstAddress: Bytes, acnt: AccountState, sys: Data,
                             t: MECToken, tokenKey: Bytes, nonce: uint64, isReturnWithError: bool)
    requires CreditSpec(cfg, env, sndAddress, dstAddress, acnt, sys, t, tokenKey, nonce, isReturnWithError).result.Ok?
    requires env.shardOf(sndAddress) == env.shardOf(dstAddress)
    requires var key := NFTTokenKey(tokenKey, nonce); Quantity(acnt.data, key) >= 0 && t.value >= 0
    ensures var c, key := CreditSpec(cfg, env, sndAddress, dstAddress, acnt, sys, t, tokenKey, nonce, isReturnWithError), NFTTokenKey(tokenKey, nonce);
      && Quantity(c.dst, key) == Quantity(acnt.data, key) + t.value
      && Liquidity(c.sys, key) == Liquidity(sys, key)
  {
    var added := CreditSpec(cfg, env, sndAddress, dstAddress, acnt, sys, t, tokenKey, nonce, isReturnWithError).result.value;
    SaveSetsQuantity(cfg, env, acnt, sys, sndAddress, tokenKey, nonce, added, false, isReturnWithError);
    SaveKeepsLiquidity(cfg, env, acnt, sys, sndAddress, tokenKey, nonce, added, isReturnWithError);
  }

  /** The destination's data after a successful credit is what the save of the credited record writes. */
  lemma CreditIsSave(cfg: Config, env: Env, sndAddress: Bytes, dstAddress: Bytes, acnt: AccountState, sys: Data,
                     t: MECToken, tokenKey: Bytes, nonce: uint64, isReturnWithError: bool)
    requires CreditSpec(cfg, env, sndAddress, dstAddress, acnt, sys, t, tokenKey, nonce, isReturnWithError).result.Ok?
    ensures var c := CreditSpec(cfg, env, sndAddress, dstAddress, acnt, sys, t, tokenKey, nonce, isReturnWithError);
      var saved := SaveNFTSpec(cfg, env, acnt, sys, sndAddress, tokenKey, nonce, c.result.value, false, isReturnWithError);
      saved.Ok? && c.dst == saved.value.0
  {
    var c := CreditSpec(cfg, env, sndAddress, dstAddress, acnt, sys, t, tokenKey, nonce, isReturnWithError);
    var current := GetNFTOnDestination(cfg, acnt.data, sys, tokenKey, nonce).value.0;
    var added := t.(value := t.value + current.value);
    var saved := SaveNFTSpec(cfg, env, acnt, sys, sndAddress, tokenKey, nonce, added, false, isReturnWithError);
    assert saved.Ok?;
    if env.shardOf(sndAddress) == env.shardOf(dstAddress) {
      assert c == Credit(saved.value.0, saved.value.1, Ok(added));
    } else {
      var l := LiquiditySpec(cfg, saved.value.1, tokenKey, nonce, t.value);
      assert l.Ok?;
      assert c == Credit(saved.value.0, l.value, Ok(added));
    }
  }

  /**
   * Whatever the shards, a successful credit adds the incoming quantity to
   * the destination's record of its key and leaves the record of any other
   * key alone.
   */
  lemma CreditMovesQuantity(cfg: Config, env: Env, sndAddress: Bytes, dstAddress: Bytes, acnt: AccountState, sys: Data,
                            t: MECToken, tokenKey: Bytes, nonce: uint64, isReturnWithError: bool, k: Bytes)
    requires CreditSpec(cfg, env, sndAddress, dstAddress, acnt, sys, t, tokenKey, nonce, isReturnWithError).result.Ok?
    ensures var c, key := CreditSpec(cfg, env, sndAddress, dstAddress, acnt, sys, t, tokenKey, nonce, isReturnWithError), NFTTokenKey(tokenKey, nonce);
      && (k != key ==> Quantity(c.dst, k) == Quantity(acnt.data, k))
      && (k == key && Quantity(acnt.data, key) >= 0 && t.value >= 0 ==> Quantity(c.dst, k) == Quantity(acnt.data, k) + t.value)
  {
    var added := CreditSpec(cfg, env, sndAddress, dstAddress, acnt, sys, t, tokenKey, nonce, isReturnWithError).result.value;
    CreditIsSave(cfg, env, sndAddress, dstAddress, acnt, sys, t, tokenKey, nonce, isReturnWithError);
    if k != NFTTokenKey(tokenKey, nonce) {
      SaveKeepsHolderRecordSmall(cfg, env, acnt, sys, sndAddress, tokenKey, nonce, added, false, isReturnWithError);
    } else if Quantity(acnt.data, k) >= 0 && t.value >= 0 {
      SaveSetsQuantity(cfg, env, acnt, sys, sndAddress, tokenKey, nonce, added, false, isReturnWithError);
    }
  }

  /**
   * Within one shard a successful transfer moves exactly the quantity from
   * the sender's record to the destination's: their sum is kept, and the
   * liquidity recorded on the system account does not move.
   */
  lemma SameShardTransferConserves(funcGasCost: uint64, cfg: Config, env: Env, input: CallInput, sys: Data, snd: AccountState,
                                   loaded: AccountState)
    requires |input.arguments| >= MinLenArgumentsMECTNFTTransfer
    requires SenderLegSpec(funcGasCost, cfg, env, input, sys, Some(snd), loaded).result.Ok?
    requires env.SameShard(input.arguments[3]) && env.shardOf(input.callerAddr) == env.selfId
    requires Quantity(loaded.data, NFTTokenKey(TokenKey(input.arguments[0]), Uint64Of(input.arguments[1]))) >= 0
    ensures var o, key := SenderLegSpec(funcGasCost, cfg, env, input, sys, Some(snd), loaded),
                          NFTTokenKey(TokenKey(input.arguments[0]), Uint64Of(input.arguments[1]));
      && Quantity(o.snd.value, key) == Quantity(snd.data, key) - FromBE(input.arguments[2])
      && Quantity(o.loaded, key) == Quantity(loaded.data, key) + FromBE(input.arguments[2])
      && Liquidity(o.sys, key) == Liquidity(sys, key)
  {
    DebitTakesQuantity(funcGasCost, cfg, env, input, sys, snd);
    var (d, sys1, t) := DebitSpec(funcGasCost, cfg, env, input, sys, Some(snd)).value;
    SameShardDeliverCredits(funcGasCost, cfg, env, input, AccountState(snd.address, d), loaded, sys1, t.(value := FromBE(input.arguments[2])));
  }

  /**
   * A delivery towards another shard credits nobody here and, once the mirror
   * tracks liquidity, lowers this shard's liquidity by the quantity handed on.
   */
  lemma CrossShardDeliverMovesLiquidity(funcGasCost: uint64, cfg: Config, env: Env, input: CallInput, snd: AccountState,
                                        loaded: AccountState, sys: Data, t: MECToken)
    requires |input.arguments| >= MinLenArgumentsMECTNFTTransfer && input.gasProvided >= funcGasCost
    requires DeliverSpec(funcGasCost, cfg, env, input, snd, loaded, sys, t).result.Ok? && !env.SameShard(input.arguments[3])
    requires cfg.saveToSystemAccount && cfg.sendAlways && Uint64Of(input.arguments[1]) > 0
    requires var key := NFTTokenKey(TokenKey(input.arguments[0]), Uint64Of(input.arguments[1]));
      Tracked(sys, key) && !(cfg.fixOldTokenLiquidity && Liquidity(sys, key) == 0 && t.value > 0)
    ensures var o, key := DeliverSpec(funcGasCost, cfg, env, input, snd, loaded, sys, t),
                          NFTTokenKey(TokenKey(input.arguments[0]), Uint64Of(input.arguments[1]));
      && Liquidity(o.sys, key) == Liquidity(sys, key) - t.value
      && o.loaded == loaded.data
  {
    var tokenKey, nonce := TokenKey(input.arguments[0]), Uint64Of(input.arguments[1]);
    LiquidityMovesByDelta(cfg, sys, tokenKey, nonce, -t.value);
    DeliverCrossShardUnfolds(funcGasCost, cfg, env, input, snd, loaded, sys, t);
    var sys2 := LiquiditySpec(cfg, sys, tokenKey, nonce, -t.value).value;
    assert WasAlreadySentSpec(cfg, env, sys2, input.arguments[0], nonce, input.arguments[3]) == Ok((sys2, false));
    FinishWritesShardMark(funcGasCost, cfg, env, input, snd, None, loaded.data, sys2, t);
  }

  /**
   * Towards another shard, a successful transfer takes the quantity from the
   * sender's record and, once the mirror tracks liquidity, from the
   * liquidity of this shard by the same amount.
   */
  lemma CrossShardSendMovesLiquidity(funcGasCost: uint64, cfg: Config, env: Env, input: CallInput, sys: Data, snd: AccountState,
                                     loaded: AccountState)
    requires |input.arguments| >= MinLenArgumentsMECTNFTTransfer
    requires SenderLegSpec(funcGasCost, cfg, env, input, sys, Some(snd), loaded).result.Ok?
    requires !env.SameShard(input.arguments[3])
    requires cfg.saveToSystemAccount && cfg.sendAlways
    requires var key := NFTTokenKey(TokenKey(input.arguments[0]), Uint64Of(input.arguments[1]));
      Tracked(sys, key) && !(cfg.fixOldTokenLiquidity && Liquidity(sys, key) == 0)
    ensures var o, key := SenderLegSpec(funcGasCost, cfg, env, input, sys, Some(snd), loaded),
                          NFTTokenKey(TokenKey(input.arguments[0]), Uint64Of(input.arguments[1]));
      && Quantity(o.snd.value, key) == Quantity(snd.data, key) - FromBE(input.arguments[2])
      && Liquidity(o.sys, key) == Liquidity(sys, key) - FromBE(input.arguments[2])
      && o.loaded == loaded.data
  {
    DebitTakesQuantity(funcGasCost, cfg, env, input, sys, snd);
    var (d, sys1, t) := DebitSpec(funcGasCost, cfg, env, input, sys, Some(snd)).value;
    CrossShardDeliverMovesLiquidity(funcGasCost, cfg, env, input, AccountState(snd.address, d), loaded, sys1,
                                    t.(value := FromBE(input.arguments[2])));
  }

  /**
   * On the destination's shard, a call from another shard credits the
   * destination exactly the quantity the incoming record carries and, once
   * the mirror tracks liquidity, raises this shard's liquidity by as much.
   */
  lemma ReceiveMovesLiquidity(cfg: Config, env: Env, input: CallInput, sys: Data, dst: AccountState, loaded: AccountState)
    requires |input.arguments| >= MinLenArgumentsMECTNFTTransfer
    requires ReceiveLegSpec(cfg, env, input, sys, None, Some(dst), loaded).result.Ok?
    requires env.shardOf(input.callerAddr) != env.shardOf(input.recipientAddr)
    requires cfg.saveToSystemAccount && cfg.sendAlways
    requires Uint64Of(input.arguments[1]) > 0
    requires var key := NFTTokenKey(TokenKey(input.arguments[0]), Uint64Of(input.arguments[1]));
      Tracked(sys, key) && Quantity(dst.data, key) >= 0
    requires IncomingRecord(env, input.arguments).Some? && IncomingRecord(env, input.arguments).value.value >= 0
    ensures var o, key, v := ReceiveLegSpec(cfg, env, input, sys, None, Some(dst), loaded),
                             NFTTokenKey(TokenKey(input.arguments[0]), Uint64Of(input.arguments[1])),
                             IncomingRecord(env, input.arguments).value.value;
      && Quantity(o.dst.value, key) == Quantity(dst.data, key) + v
      && Liquidity(o.sys, key) == Liquidity(sys, key) + v
  {
    var args := input.arguments;
    var tokenKey, nonce := TokenKey(args[0]), Uint64Of(args[1]);
    var t := IncomingRecord(env, args).value;
    ReceiveLegCredits(cfg, env, input, sys, dst, loaded);
    CrossShardCreditMoves(cfg, env, input.callerAddr, input.recipientAddr, dst, sys, t, tokenKey, nonce, input.returnCallAfterError);
  }

  /** A successful destination leg is the credit of the incoming record. */
  lemma ReceiveLegCredits(cfg: Config, env: Env, input: CallInput, sys: Data, dst: AccountState, loaded: AccountState)
    requires |input.arguments| >= MinLenArgumentsMECTNFTTransfer
    requires ReceiveLegSpec(cfg, env, input, sys, None, Some(dst), loaded).result.Ok?
    ensures IncomingRecord(env, input.arguments).Some?
    ensures var o, c := ReceiveLegSpec(cfg, env, input, sys, None, Some(dst), loaded),
                        CreditSpec(cfg, env, input.callerAddr, input.recipientAddr, dst, sys, IncomingRecord(env, input.arguments).value,
                                   TokenKey(input.arguments[0]), Uint64Of(input.arguments[1]), input.returnCallAfterError);
      c.result.Ok? && o.dst == Some(c.dst) && o.sys == c.sys
  {
  }

  /**
   * A credit from another shard, once the mirror tracks liquidity, adds the
   * incoming quantity both to the destination's record and to the liquidity.
   */
  lemma CrossShardCreditMoves(cfg: Config, env: Env, sndAddress: Bytes, dstAddress: Bytes, acnt: AccountState, sys: Data,
                              t: MECToken, tokenKey: Bytes, nonce: uint64, isReturnWithError: bool)
    requires CreditSpec(cfg, env, sndAddress, dstAddress, acnt, sys, t, tokenKey, nonce, isReturnWithError).result.Ok?
    requires env.shardOf(sndAddress) != env.shardOf(dstAddress)
    requires cfg.saveToSystemAccount && cfg.sendAlways && nonce > 0
    requires var key := NFTTokenKey(tokenKey, nonce); Tracked(sys, key) && Quantity(acnt.data, key) >= 0 && t.value >= 0
    ensures var c, key := CreditSpec(cfg, env, sndAddress, dstAddress, acnt, sys, t, tokenKey, nonce, isReturnWithError), NFTTokenKey(tokenKey, nonce);
      && Quantity(c.dst, key) == Quantity(acnt.data, key) + t.value
      && Liquidity(c.sys, key) == Liquidity(sys, key) + t.value
  {
    var current := GetNFTOnDestination(cfg, acnt.data, sys, tokenKey, nonce).value.0;
    var added := t.(value := t.value + current.value);
    SaveSetsQuantity(cfg, env, acnt, sys, sndAddress, tokenKey, nonce, added, false, isReturnWithError);
    SaveKeepsLiquidity(cfg, env, acnt, sys, sndAddress, tokenKey, nonce, added, isReturnWithError);
    var sys1 := SaveNFTSpec(cfg, env, acnt, sys, sndAddress, tokenKey, nonce, added, false, isReturnWithError).value.1;
    assert sys1 == sys;
    LiquidityMovesByDelta(cfg, sys, tokenKey, nonce, t.value);
  }

  /**
   * Towards another shard the transfer call's data splits back into the
   * function name and the arguments, and the record the destination reads
   * from it carries the quantity handed on: the serialized record itself, or
   * the zero byte that stands for it.
   */
  lemma ForwardedRecordCarriesQuantity(cfg: Config, env: Env, input: CallInput, sys: Data, t: MECToken, dstAddress: Bytes,
                                       tickerID: Bytes, nonce: uint64, o: Output)
    requires |input.arguments| >= MinLenArgumentsMECTNFTTransfer
    requires ForwardSpec(cfg, env, input, sys, t, dstAddress, tickerID, nonce, o).result.Ok?
    requires !env.SameShard(dstAddress) && env.Valid() && t.value == FromBE(input.arguments[2])
    ensures var out := ForwardSpec(cfg, env, input, sys, t, dstAddress, tickerID, nonce, o).result.value;
      && out.outputAccounts.Keys == {dstAddress}
      && |out.outputAccounts[dstAddress].outputTransfers| == 1
      && var parts := Split(out.outputAccounts[dstAddress].outputTransfers[0].data, At);
      && |parts| == |input.arguments| + 1
      && parts[0] == Str(BuiltInFunctionMECTNFTTransfer)
      && (forall i :: 0 <= i < |input.arguments| && i != 3 ==> UnHex(parts[i + 1]) == Some(input.arguments[i]))
      && UnHex(parts[4]).Some?
      && var received := input.arguments[3 := UnHex(parts[4]).value];
      && IncomingRecord(env, received).Some?
      && IncomingRecord(env, received).value.value == t.value
      && (IncomingRecord(env, received) == Some(t) || received[3] == ZeroByteArray)
  {
    var sent := WasAlreadySentSpec(cfg, env, sys, tickerID, nonce, dstAddress).value.1;
    var payload := Payload(env, t, sent);
    var callArgs := NFTCallArgs(input.arguments, payload);
    assert forall i :: 0 <= i < |BuiltInFunctionMECTNFTTransfer| ==> BuiltInFunctionMECTNFTTransfer[i] != '@';
    TransferTxDataRoundTrip(Str(BuiltInFunctionMECTNFTTransfer), callArgs);
    var received := input.arguments[3 := payload];
    assert received == callArgs;
  }

  /**
   * `createNFTOutputTransfers` consumes no gas beyond the payload's: what
   * remains, what the added call carries and the payload's gas add up to the
   * gas it started with.
   */
  lemma ForwardAccountsForGas(cfg: Config, env: Env, input: CallInput, sys: Data, t: MECToken, dstAddress: Bytes,
                              tickerID: Bytes, nonce: uint64, o: Output)
    requires |input.arguments| >= MinLenArgumentsMECTNFTTransfer && o.outputAccounts == map[]
    requires ForwardSpec(cfg, env, input, sys, t, dstAddress, tickerID, nonce, o).result.Ok?
    ensures var out, sent := ForwardSpec(cfg, env, input, sys, t, dstAddress, tickerID, nonce, o).result.value,
                             WasAlreadySentSpec(cfg, env, sys, tickerID, nonce, dstAddress).value.1;
      && out.outputAccounts.Keys <= {dstAddress}
      && out.gasRemaining + ForwardedGas(out, dstAddress) + PayloadGas(env, t, sent) == o.gasRemaining
  {
  }

  /**
   * Within one shard, once metadata lives on the system account, no payload
   * gas is charged unless the record handed on holds exactly one unit; that
   * record's quantity is the transferred quantity plus what the destination
   * already held.
   */
  lemma SameShardPayloadGas(funcGasCost: uint64, cfg: Config, env: Env, input: CallInput, sys: Data, snd: AccountState,
                            loaded: AccountState)
    requires |input.arguments| >= MinLenArgumentsMECTNFTTransfer
    requires SenderLegSpec(funcGasCost, cfg, env, input, sys, Some(snd), loaded).result.Ok?
    requires env.SameShard(input.arguments[3]) && cfg.saveToSystemAccount
    requires FromBE(input.arguments[2]) + Quantity(loaded.data, NFTTokenKey(TokenKey(input.arguments[0]), Uint64Of(input.arguments[1]))) != 1
    ensures var out := SenderLegSpec(funcGasCost, cfg, env, input, sys, Some(snd), loaded).result.value;
      out.gasRemaining + ForwardedGas(out, input.arguments[3]) == input.gasProvided - funcGasCost
  {
    var args := input.arguments;
    var tokenKey, nonce, quantity := TokenKey(args[0]), Uint64Of(args[1]), FromBE(args[2]);
    var (d, sys1, t) := DebitSpec(funcGasCost, cfg, env, input, sys, Some(snd)).value;
    var sndAfter, handed := AccountState(snd.address, d), t.(value := quantity);
    DeliverSameShardUnfolds(funcGasCost, cfg, env, input, sndAfter, loaded, sys1, handed);
    var c := CreditSpec(cfg, env, input.callerAddr, args[3], loaded, sys1, handed, tokenKey, nonce, input.returnCallAfterError);
    var added := c.result.value;
    FinishWritesShardMark(funcGasCost, cfg, env, input, sndAfter, Some(AccountState(loaded.address, c.dst)), c.dst, c.sys, added);
    var start := Output(input.gasProvided - funcGasCost, [], [], map[]);
    ForwardAccountsForGas(cfg, env, input, c.sys, added, args[3], args[0], nonce, start);
  }

  /** The destination's shard charges no gas: what remains and what the contract call carries make up the gas provided. */
  lemma ReceiveKeepsGas(cfg: Config, env: Env, input: CallInput, sys: Data, dst: AccountState, loaded: AccountState)
    requires |input.arguments| >= MinLenArgumentsMECTNFTTransfer
    requires ReceiveLegSpec(cfg, env, input, sys, None, Some(dst), loaded).result.Ok?
    ensures var out := ReceiveLegSpec(cfg, env, input, sys, None, Some(dst), loaded).result.value;
      && out.outputAccounts.Keys <= {input.recipientAddr}
      && out.gasRemaining + ForwardedGas(out, input.recipientAddr) == input.gasProvided
  {
  }
}
