/**
 * The call input and output of a built-in function, the collaborators the
 * token engine consults but whose code is not part of this model, and the
 * epoch-activated feature flags.
 */
module Vm {

  import opened Encoding
  import opened Wrappers
  import opened Store

  datatype CallType =
    | DirectCall
    | AsynchronousCall
    | AsynchronousCallBack
    | MECTTransferAndExecute
    | ExecOnDestByCaller

  /** `ContractCallInput`: a nil call value is `None`. */
  datatype CallInput = CallInput(
    functionName: string,
    callerAddr: Bytes,
    recipientAddr: Bytes,
    callValue: Option<int>,
    arguments: seq<Bytes>,
    gasProvided: uint64,
    gasLocked: uint64,
    callType: CallType,
    returnCallAfterError: bool)

  datatype LogEntry = LogEntry(identifier: Bytes, address: Bytes, topics: seq<Bytes>)

  datatype OutputTransfer = OutputTransfer(
    value: int,
    gasLimit: nat,
    gasLocked: nat,
    data: Bytes,
    callType: CallType,
    senderAddress: Bytes)

  datatype OutputAccount = OutputAccount(address: Bytes, outputTransfers: seq<OutputTransfer>)

  /** A snapshot of a `VMOutput`. */
  datatype Output = Output(
    gasRemaining: nat,
    returnData: seq<Bytes>,
    logs: seq<LogEntry>,
    outputAccounts: map<Bytes, OutputAccount>)

  /** `VMOutput`: built up in place by a built-in function and returned. */
  class VMOutput {
    var gasRemaining: nat
    var returnData: seq<Bytes>
    var logs: seq<LogEntry>
    var outputAccounts: map<Bytes, OutputAccount>

    constructor (gasRemaining: nat)
      ensures Snapshot() == Output(gasRemaining, [], [], map[])
    {
      this.gasRemaining := gasRemaining;
      returnData := [];
      logs := [];
      outputAccounts := map[];
    }

    function Snapshot(): Output
      reads this
    {
      Output(gasRemaining, returnData, logs, outputAccounts)
    }
  }

  const MetachainShardId: nat := 0xFFFF_FFFF

  /**
   * The collaborators: shard routing, address classification, the payable
   * checker, the gas helper shared by the fungible functions, the record
   * serializer and the per-byte gas prices.
   */
  datatype Env = Env(
    shardOf: Bytes -> nat,
    selfId: nat,
    numberOfShards: nat,
    isSmartContract: Bytes -> bool,
    isSystemAccount: Bytes -> bool,
    mectSCAddress: Bytes,
    checkPayable: (CallInput, Bytes, nat) -> bool,
    isSCCallAfter: (CallInput, Bytes, nat) -> bool,
    computeGasRemaining: (bool, nat, nat) -> nat,
    marshal: MECToken -> Bytes,
    unmarshal: Bytes -> Option<MECToken>,
    storePerByte: nat,
    dataCopyPerByte: nat)
  {
    /** Every shard id is a real shard or the metachain; the serializer round-trips. */
    ghost predicate Valid()
    {
      && (selfId < numberOfShards || selfId == MetachainShardId)
      && (forall a :: shardOf(a) < numberOfShards || shardOf(a) == MetachainShardId)
      && (forall t :: unmarshal(marshal(t)) == Some(t))
    }

    predicate SameShard(a: Bytes)
    {
      shardOf(a) == selfId
    }
  }

  /**
   * The epoch-activated flags, each as it stands for the current epoch. The
   * frozen-collection check of the NFT storage is activated with the same
   * epoch as `saveToSystemAccount` and has no flag of its own here.
   */
  datatype Config = Config(
    saveToSystemAccount: bool,
    sendAlways: bool,
    fixOldTokenLiquidity: bool,
    transferToMeta: bool,
    check0Transfer: bool,
    checkCorrectTokenID: bool,
    valueLengthCheck: bool,
    transferRoleActive: bool)
}
