/**
 * The data-field classifier: from a transaction's data field, its sender and
 * its receiver it reports the operation, the function called on a smart
 * contract, the tokens moved with their values, and the receivers of those
 * tokens with their shards. Relayed transactions are unwrapped one level.
 */
module DataField {

  import opened Encoding
  import opened Wrappers
  import opened Store
  import opened Names
  import opened Common
  import opened LogsAndEvents
  import opened TransferParser

  const MinArgumentsQuantityOperationMECT: nat := 2
  const MinArgumentsQuantityOperationNFT: nat := 3
  const NumArgsRelayedV2: nat := 4
  const ReceiverAddressIndexRelayedV2: nat := 0
  const DataFieldIndexRelayedV2: nat := 2

  /** `unicode.MaxASCII`. */
  const MaxASCII: byte := 127

  const OperationTransfer: Bytes := Str("transfer")
  const OperationDeploy: Bytes := Str("scDeploy")

  /** `ResponseParseData`; a nil slice is the empty sequence. */
  datatype ResponseParseData = ResponseParseData(
    operation: Bytes,
    calledFunction: Bytes,
    mectValues: seq<Bytes>,
    tokens: seq<Bytes>,
    receivers: seq<Bytes>,
    receiversShardID: seq<nat>,
    isRelayed: bool)

  /** A response naming only its operation. */
  function OperationOnly(operation: Bytes): ResponseParseData
  {
    ResponseParseData(operation, [], [], [], [], [], false)
  }

  /** `NewResponseParseDataAsRelayed`: only the relayed flag is set. */
  const AsRelayed: ResponseParseData := ResponseParseData([], [], [], [], [], [], true)

  /** The part of an inner transaction the classifier reads. */
  datatype InnerTx = InnerTx(sndAddr: Bytes, rcvAddr: Bytes, data: Bytes)

  /**
   * `operationDataFieldParser` and the collaborators it consults: the call
   * argument parser (`function@arg@arg...`), the JSON decoder of a relayed
   * inner transaction, the smart-contract address test, the shard
   * coordinator and the token unmarshaller of the transfer parser.
   */
  datatype Parser = Parser(
    addressLength: nat,
    parseData: Bytes -> Option<(Bytes, seq<Bytes>)>,
    decodeInnerTx: Bytes -> Option<InnerTx>,
    isSmartContract: Bytes -> bool,
    shardOf: Bytes -> nat,
    unmarshal: Bytes -> Option<MECToken>)

  /** `NewOperationDataFieldParser`: an address length of zero is refused. */
  function NewOperationDataFieldParser(config: Parser): (r: Result<Parser>)
    ensures r.Ok? <==> config.addressLength != 0
    ensures r.Ok? ==> r.value == config
    ensures r.Err? ==> r.error == ErrInvalidAddressLength
  {
    if config.addressLength == 0 then Err(ErrInvalidAddressLength) else Ok(config)
  }

  // ---------------------------------------------------------------------
  // Helpers

  /** `getAllBuiltInFunctions`: the built-in functions and the role names. */
  const BuiltInFunctionsList: seq<Bytes> := [
    Str(BuiltInFunctionClaimDeveloperRewards),
    Str(BuiltInFunctionChangeOwnerAddress),
    Str(BuiltInFunctionSetUserName),
    Str(BuiltInFunctionSaveKeyValue),
    Str(BuiltInFunctionMECTTransfer),
    Str(BuiltInFunctionMECTBurn),
    Str(BuiltInFunctionMECTFreeze),
    Str(BuiltInFunctionMECTUnFreeze),
    Str(BuiltInFunctionMECTWipe),
    Str(BuiltInFunctionMECTPause),
    Str(BuiltInFunctionMECTUnPause),
    Str(BuiltInFunctionSetMECTRole),
    Str(BuiltInFunctionUnSetMECTRole),
    Str(BuiltInFunctionMECTSetLimitedTransfer),
    Str(BuiltInFunctionMECTUnSetLimitedTransfer),
    Str(BuiltInFunctionMECTLocalMint),
    Str(BuiltInFunctionMECTLocalBurn),
    Str(BuiltInFunctionMECTNFTTransfer),
    Str(BuiltInFunctionMECTNFTCreate),
    Str(BuiltInFunctionMECTNFTAddQuantity),
    Str(BuiltInFunctionMECTNFTCreateRoleTransfer),
    Str(BuiltInFunctionMECTNFTBurn),
    Str(BuiltInFunctionMECTNFTAddURI),
    Str(BuiltInFunctionMECTNFTUpdateAttributes),
    Str(BuiltInFunctionMultiMECTNFTTransfer),
    Str(MECTRoleLocalMint),
    Str(MECTRoleLocalBurn),
    Str(MECTRoleNFTCreate),
    Str(MECTRoleNFTCreateMultiShard),
    Str(MECTRoleNFTAddQuantity),
    Str(MECTRoleNFTBurn),
    Str(MECTRoleNFTAddURI),
    Str(MECTRoleNFTUpdateAttributes),
    Str(MECTRoleTransfer)
  ]

  /** `isBuiltInFunction`: a scan of the list for the name. */
  method IsBuiltInFunction(builtInFunctionsList: seq<Bytes>, funcName: Bytes) returns (found: bool)
    ensures found <==> funcName in builtInFunctionsList
  {
    for i := 0 to |builtInFunctionsList|
      invariant funcName !in builtInFunctionsList[..i]
    {
      if builtInFunctionsList[i] == funcName {
        return true;
      }
    }
    assert builtInFunctionsList[..|builtInFunctionsList|] == builtInFunctionsList;
    return false;
  }

  /** Every byte is at most 127. */
  predicate IsASCII(s: Bytes)
  {
    forall i :: 0 <= i < |s| ==> s[i] <= MaxASCII
  }

  /** `isASCIIString`: the scan stops at the first byte above 127. */
  method IsASCIIString(input: Bytes) returns (ok: bool)
    ensures ok <==> IsASCII(input)
  {
    for i := 0 to |input|
      invariant forall j :: 0 <= j < i ==> input[j] <= MaxASCII
    {
      if input[i] > MaxASCII {
        return false;
      }
    }
    return true;
  }

  /** `isEmptyAddr`: equal to `addrLength` zero bytes. */
  predicate IsEmptyAddr(addrLength: nat, address: Bytes)
  {
    address == seq(addrLength, _ => 0)
  }

  lemma IsEmptyAddrMeans(addrLength: nat, address: Bytes)
    ensures IsEmptyAddr(addrLength, address) <==>
      |address| == addrLength && forall i :: 0 <= i < |address| ==> address[i] == 0
  {
  }

  /**
   * `EncodeBytesSlice`: no function gives no slice; otherwise each element
   * encoded, in order.
   */
  method EncodeBytesSlice(encodeFunc: Option<Bytes -> Bytes>, rcvs: seq<Bytes>) returns (r: Option<seq<Bytes>>)
    ensures r.None? <==> encodeFunc.None?
    ensures r.Some? ==> |r.value| == |rcvs| && forall i :: 0 <= i < |rcvs| ==> r.value[i] == encodeFunc.value(rcvs[i])
  {
    if encodeFunc.None? {
      return None;
    }
    var encodedSlice := [];
    for i := 0 to |rcvs|
      invariant |encodedSlice| == i
      invariant forall j :: 0 <= j < i ==> encodedSlice[j] == encodeFunc.value(rcvs[j])
    {
      encodedSlice := encodedSlice + [encodeFunc.value(rcvs[i])];
    }
    return Some(encodedSlice);
  }

  lemma {:induction false} HexIsASCII(s: Bytes)
    ensures IsASCII(Hex(s))
    decreases |s|
  {
    if s != [] {
      HexIsASCII(s[1..]);
      assert Hex(s) == [HexDigit(s[0] / 16), HexDigit(s[0] % 16)] + Hex(s[1..]);
    }
  }

  /**
   * `computeTokenIdentifier`: "" for an empty token or nonce 0, otherwise the
   * token, '-', and the lower-case hex of the nonce's minimal big-endian bytes.
   */
  function ComputeTokenIdentifier(token: Bytes, nonce: uint64): (r: Bytes)
    ensures r == [] <==> token == [] || nonce == 0
    ensures r != [] ==> |r| > |token| && r[..|token|] == token && r[|token|] == Dash
    ensures IsASCII(token) ==> IsASCII(r)
  {
    if token == [] || nonce == 0 then []
    else
      HexIsASCII(ToBE(nonce));
      token + [Dash] + Hex(ToBE(nonce))
  }

  /** A token identifier splits back into the token and the nonce. */
  lemma TokenIdentifierRoundTrip(token: Bytes, nonce: uint64)
    requires token != [] && nonce != 0
    ensures var r := ComputeTokenIdentifier(token, nonce);
      && |r| > |token|
      && r[..|token|] == token
      && r[|token|] == Dash
      && UnHex(r[|token| + 1..]) == Some(ToBE(nonce))
      && Uint64Of(ToBE(nonce)) == nonce
  {
    var r := ComputeTokenIdentifier(token, nonce);
    assert r[|token| + 1..] == Hex(ToBE(nonce));
    UnHexHex(ToBE(nonce));
    FromBEToBE(nonce);
  }

  /** Two nonces of one token have the same identifier only if they are equal. */
  lemma TokenIdentifierInjective(token: Bytes, n1: uint64, n2: uint64)
    requires token != [] && n1 != 0 && n2 != 0
    requires ComputeTokenIdentifier(token, n1) == ComputeTokenIdentifier(token, n2)
    ensures n1 == n2
  {
    TokenIdentifierRoundTrip(token, n1);
    TokenIdentifierRoundTrip(token, n2);
  }

  /** A valid identifier is plain ASCII. */
  lemma ValidTokenIsASCII(tokenID: Bytes)
    requires ValidateToken(tokenID)
    ensures IsASCII(tokenID)
  {
    var n := |tokenID|;
    ValidTokenParts(tokenID);
    forall i | 0 <= i < n
      ensures tokenID[i] <= MaxASCII
    {
      if i < n - 7 {
        assert tokenID[..n - 7][i] == tokenID[i];
      } else if i > n - 7 {
        assert tokenID[n - 6..][i - (n - 6)] == tokenID[i];
      }
    }
  }

  // ---------------------------------------------------------------------
  // Token operations that are not transfers

  /** The fields a non-transfer operation leaves empty are empty. */
  predicate NoCallNoReceivers(r: ResponseParseData, operation: Bytes)
  {
    r.operation == operation && r.calledFunction == [] && r.receivers == [] && r.receiversShardID == [] && !r.isRelayed
  }

  /**
   * `parseBlockingOperationMECT` (freeze, unfreeze, wipe): the first argument
   * split into identifier and nonce; reported as the identifier, or as
   * identifier-hexnonce when the nonce is not 0.
   */
  function ParseBlockingOperationMECT(args: seq<Bytes>, funcName: Bytes): (r: ResponseParseData)
    ensures NoCallNoReceivers(r, funcName) && r.mectValues == []
    ensures |r.tokens| <= 1
    ensures |r.tokens| == 1 <==> |args| > 0 && IsASCII(ExtractTokenAndNonce(args[0]).0)
    ensures forall i :: 0 <= i < |r.tokens| ==> IsASCII(r.tokens[i])
  {
    if |args| == 0 then OperationOnly(funcName)
    else
      var (token, nonce) := ExtractTokenAndNonce(args[0]);
      if !IsASCII(token) then OperationOnly(funcName)
      else OperationOnly(funcName).(tokens := [if nonce != 0 then ComputeTokenIdentifier(token, nonce) else token])
  }

  /** Freezing a valid identifier followed by a nonce reports that token and nonce. */
  lemma BlockingReportsIdentifier(tokenID: Bytes, nonce: uint64, rest: seq<Bytes>, funcName: Bytes)
    requires ValidateToken(tokenID)
    ensures ParseBlockingOperationMECT([tokenID + ToBE(nonce)] + rest, funcName).tokens
      == [if nonce == 0 then tokenID else ComputeTokenIdentifier(tokenID, nonce)]
  {
    ExtractTokenAndNonceRoundTrip(tokenID, nonce);
    ValidTokenIsASCII(tokenID);
  }

  /**
   * `parseQuantityOperationMECT` (local mint and burn): at least two
   * arguments and an ASCII token give the token and the decimal quantity.
   */
  function ParseQuantityOperationMECT(args: seq<Bytes>, funcName: Bytes): (r: ResponseParseData)
    ensures NoCallNoReceivers(r, funcName)
    ensures |args| < MinArgumentsQuantityOperationMECT || !IsASCII(args[0]) ==> r == OperationOnly(funcName)
    ensures |args| >= MinArgumentsQuantityOperationMECT && IsASCII(args[0]) ==>
      r.tokens == [args[0]] && |r.mectValues| == 1 && ParseDecimal(r.mectValues[0]) == FromBE(args[1])
  {
    if |args| < MinArgumentsQuantityOperationMECT then OperationOnly(funcName)
    else if !IsASCII(args[0]) then OperationOnly(funcName)
    else
      DecimalRoundTrip(FromBE(args[1]));
      OperationOnly(funcName).(tokens := [args[0]], mectValues := [Decimal(FromBE(args[1]))])
  }

  /**
   * `parseQuantityOperationNFT` (create, burn, add quantity): at least three
   * arguments and an ASCII token; the token is reported as token-hexnonce
   * with the quantity `args[2]`, except for a create, which reports the plain
   * token with the quantity `args[1]`.
   */
  function ParseQuantityOperationNFT(args: seq<Bytes>, funcName: Bytes): (r: ResponseParseData)
    ensures NoCallNoReceivers(r, funcName)
    ensures |args| < MinArgumentsQuantityOperationNFT || !IsASCII(args[0]) ==> r == OperationOnly(funcName)
    ensures |args| >= MinArgumentsQuantityOperationNFT && IsASCII(args[0]) ==>
      && |r.tokens| == 1 && |r.mectValues| == 1
      && (funcName == Str(BuiltInFunctionMECTNFTCreate) ==>
            r.tokens[0] == args[0] && ParseDecimal(r.mectValues[0]) == FromBE(args[1]))
      && (funcName != Str(BuiltInFunctionMECTNFTCreate) ==>
            r.tokens[0] == ComputeTokenIdentifier(args[0], Uint64Of(args[1])) && ParseDecimal(r.mectValues[0]) == FromBE(args[2]))
  {
    if |args| < MinArgumentsQuantityOperationNFT then OperationOnly(funcName)
    else if !IsASCII(args[0]) then OperationOnly(funcName)
    else
      var tokenIdentifier := ComputeTokenIdentifier(args[0], Uint64Of(args[1]));
      DecimalRoundTrip(FromBE(args[1]));
      DecimalRoundTrip(FromBE(args[2]));
      if funcName == Str(BuiltInFunctionMECTNFTCreate) then
        OperationOnly(funcName).(tokens := [args[0]], mectValues := [Decimal(FromBE(args[1]))])
      else
        OperationOnly(funcName).(tokens := [tokenIdentifier], mectValues := [Decimal(FromBE(args[2]))])
  }

  /** Burning a quantity of an NFT reports the token, its nonce and the quantity it was given. */
  lemma NFTQuantityRoundTrip(token: Bytes, nonce: uint64, quantity: nat, rest: seq<Bytes>, funcName: Bytes)
    requires token != [] && nonce != 0 && IsASCII(token)
    requires funcName != Str(BuiltInFunctionMECTNFTCreate)
    ensures var r := ParseQuantityOperationNFT([token, ToBE(nonce), ToBE(quantity)] + rest, funcName);
      && r.tokens == [ComputeTokenIdentifier(token, nonce)]
      && |r.mectValues| == 1 && ParseDecimal(r.mectValues[0]) == quantity
  {
    FromBEToBE(nonce);
    FromBEToBE(quantity);
  }

  // ---------------------------------------------------------------------
  // Transfers

  /**
   * `extractMECTData`: the response naming the operation, and the transfers
   * the transfer parser reads for the function `funcName`, if it can.
   */
  function ExtractMECTData(p: Parser, args: seq<Bytes>, funcName: string, sender: Bytes, receiver: Bytes)
    : (r: (ResponseParseData, Option<ParsedMECTTransfers>))
    ensures r.0 == OperationOnly(Str(funcName))
    ensures r.1.Some? <==> ParseMECTTransfers(p.unmarshal, sender, receiver, funcName, args).Ok?
    ensures r.1.Some? ==> r.1.value == ParseMECTTransfers(p.unmarshal, sender, receiver, funcName, args).value
  {
    match ParseMECTTransfers(p.unmarshal, sender, receiver, funcName, args)
      case Err(_) => (OperationOnly(Str(funcName)), None)
      case Ok(parsed) => (OperationOnly(Str(funcName)), Some(parsed))
  }

  /** The called function, kept when `callee` is a smart contract and its name is ASCII. */
  function WithFunction(r: ResponseParseData, p: Parser, callee: Bytes, callFunction: Bytes): ResponseParseData
  {
    r.(calledFunction := if p.isSmartContract(callee) && IsASCII(callFunction) then callFunction else [])
  }

  /**
   * `parseSingleMECTTransfer`: the call is kept for a smart-contract
   * receiver; the one transfer is reported as its token and decimal value
   * when the token name is ASCII.
   */
  function ParseSingleMECTTransfer(p: Parser, args: seq<Bytes>, sender: Bytes, receiver: Bytes): (r: ResponseParseData)
    ensures r.operation == Str(BuiltInFunctionMECTTransfer) && !r.isRelayed
    ensures r.receivers == [] && r.receiversShardID == []
    ensures |r.tokens| == |r.mectValues| <= 1
    ensures r.calledFunction != [] ==> p.isSmartContract(receiver) && IsASCII(r.calledFunction)
    ensures forall i :: 0 <= i < |r.tokens| ==> IsASCII(r.tokens[i])
  {
    var (response, parsed) := ExtractMECTData(p, args, BuiltInFunctionMECTTransfer, sender, receiver);
    if parsed.None? then response
    else
      var response := WithFunction(response, p, receiver, parsed.value.callFunction);
      var transfers := parsed.value.transfers;
      if |transfers| == 0 || !IsASCII(transfers[0].tokenName) then response
      else response.(tokens := [transfers[0].tokenName], mectValues := [Decimal(transfers[0].value)])
  }

  /** Too few arguments for a transfer leave only the operation. */
  lemma SingleTransferTooShort(p: Parser, args: seq<Bytes>, sender: Bytes, receiver: Bytes)
    requires |args| < MinArgsForMECTTransfer
    ensures ParseSingleMECTTransfer(p, args, sender, receiver) == OperationOnly(Str(BuiltInFunctionMECTTransfer))
  {
  }

  /**
   * A transfer written as (token, value, call) with an ASCII token is reported
   * as that token and value; the call is reported for a smart contract.
   */
  lemma SingleTransferReported(p: Parser, tokenName: Bytes, value: nat, callFunction: Bytes, callArgs: seq<Bytes>,
                               sender: Bytes, receiver: Bytes)
    requires IsASCII(tokenName)
    ensures var r := ParseSingleMECTTransfer(p, [tokenName, ToBE(value)] + CallTail(callFunction, callArgs), sender, receiver);
      && r.tokens == [tokenName]
      && |r.mectValues| == 1 && ParseDecimal(r.mectValues[0]) == value
      && r.calledFunction == (if p.isSmartContract(receiver) && IsASCII(callFunction) then callFunction else [])
  {
    SingleTransferRoundTrip(receiver, tokenName, value, callFunction, callArgs);
    DecimalRoundTrip(value);
  }

  /** An empty value argument is reported as "0". */
  lemma EmptyValueIsZero(p: Parser, tokenName: Bytes, rest: seq<Bytes>, sender: Bytes, receiver: Bytes)
    requires IsASCII(tokenName)
    ensures ParseSingleMECTTransfer(p, [tokenName, []] + rest, sender, receiver).mectValues == [Str("0")]
  {
    assert FromBE([]) == 0;
    assert Decimal(0) == [48] == Str("0");
  }

  /** A non-ASCII token name reports no token and no value. */
  lemma NonASCIITokenNotReported(p: Parser, args: seq<Bytes>, sender: Bytes, receiver: Bytes)
    requires |args| >= MinArgsForMECTTransfer && !IsASCII(args[0])
    ensures ParseSingleMECTTransfer(p, args, sender, receiver).tokens == []
    ensures ParseSingleMECTTransfer(p, args, sender, receiver).mectValues == []
  {
  }

  /**
   * `parseSingleMECTNFTTransfer`: the call is kept when the parsed receiver
   * is a smart contract; an ASCII token is reported as token-hexnonce with
   * its value, its receiver (the parsed one when the sender sends to itself)
   * and that receiver's shard.
   */
  function ParseSingleMECTNFTTransfer(p: Parser, args: seq<Bytes>, sender: Bytes, receiver: Bytes): (r: ResponseParseData)
    ensures r.operation == Str(BuiltInFunctionMECTNFTTransfer) && !r.isRelayed
    ensures |r.tokens| == |r.mectValues| == |r.receivers| == |r.receiversShardID| <= 1
    ensures |r.receivers| == 1 ==> r.receiversShardID[0] == p.shardOf(r.receivers[0])
    ensures forall i :: 0 <= i < |r.tokens| ==> IsASCII(r.tokens[i])
    ensures IsASCII(r.calledFunction)
    ensures var parsed := ParseMECTTransfers(p.unmarshal, sender, receiver, BuiltInFunctionMECTNFTTransfer, args);
      && (parsed.Err? ==> r == OperationOnly(Str(BuiltInFunctionMECTNFTTransfer)))
      && (r.calledFunction != [] ==> parsed.Ok? && p.isSmartContract(parsed.value.rcvAddr))
      && (parsed.Ok? && (|parsed.value.transfers| == 0 || !IsASCII(parsed.value.transfers[0].tokenName)) ==>
            r.tokens == [] && r.mectValues == [] && r.receivers == [])
      && (parsed.Ok? && |parsed.value.transfers| > 0 && IsASCII(parsed.value.transfers[0].tokenName) ==>
            var t := parsed.value.transfers[0];
            r.tokens == [ComputeTokenIdentifier(t.tokenName, t.nonce)]
            && r.receivers == [if sender == receiver then parsed.value.rcvAddr else receiver])
  {
    var (response, parsed) := ExtractMECTData(p, args, BuiltInFunctionMECTNFTTransfer, sender, receiver);
    if parsed.None? then response
    else
      var response := WithFunction(response, p, parsed.value.rcvAddr, parsed.value.callFunction);
      var transfers := parsed.value.transfers;
      if |transfers| == 0 || !IsASCII(transfers[0].tokenName) then response
      else
        var rcvAddr := if sender == receiver then parsed.value.rcvAddr else receiver;
        var t := transfers[0];
        response.(tokens := [ComputeTokenIdentifier(t.tokenName, t.nonce)], mectValues := [Decimal(t.value)],
                  receivers := [rcvAddr], receiversShardID := [p.shardOf(rcvAddr)])
  }

  /**
   * An NFT transfer written as (token, nonce, value, receiver, call) with an
   * ASCII token reports token-hexnonce, the value and the receiver: the
   * receiver argument when an account sends to itself, else the receiver.
   */
  lemma NFTTransferReported(p: Parser, tokenName: Bytes, nonce: uint64, value: nat, to: Bytes,
                            callFunction: Bytes, callArgs: seq<Bytes>, sender: Bytes, receiver: Bytes)
    requires IsASCII(tokenName)
    ensures var r := ParseSingleMECTNFTTransfer(p, [tokenName, ToBE(nonce), ToBE(value), to] + CallTail(callFunction, callArgs),
                                              sender, receiver);
      var rcvAddr := if sender == receiver then to else receiver;
      && r.tokens == [ComputeTokenIdentifier(tokenName, nonce)]
      && |r.mectValues| == 1 && ParseDecimal(r.mectValues[0]) == value
      && r.receivers == [rcvAddr] && r.receiversShardID == [p.shardOf(rcvAddr)]
      && r.calledFunction == (if p.isSmartContract(rcvAddr) && IsASCII(callFunction) then callFunction else [])
  {
    NFTTransferRoundTrip(sender, receiver, tokenName, nonce, value, to, callFunction, callArgs);
    DecimalRoundTrip(value);
  }

  /** How a multi-transfer entry names its token: plain for nonce 0, else token-hexnonce. */
  function ReportedToken(t: MECTTransfer): (r: Bytes)
    ensures t.nonce == 0 ==> r == t.tokenName
    ensures IsASCII(t.tokenName) ==> IsASCII(r)
  {
    if t.nonce != 0 then ComputeTokenIdentifier(t.tokenName, t.nonce) else t.tokenName
  }

  predicate AllNamesASCII(ts: seq<MECTTransfer>)
  {
    forall i :: 0 <= i < |ts| ==> IsASCII(ts[i].tokenName)
  }

  /** Entry `t` appended to the four parallel lists. */
  function AppendEntry(r: ResponseParseData, t: MECTTransfer, rcvAddr: Bytes, shardID: nat): ResponseParseData
  {
    r.(tokens := r.tokens + [ReportedToken(t)], mectValues := r.mectValues + [Decimal(t.value)],
       receivers := r.receivers + [rcvAddr], receiversShardID := r.receiversShardID + [shardID])
  }

  /**
   * What the loop of `parseMultiMECTNFTTransfer` makes of `response`: every
   * entry appended, or the operation alone once a token name is not ASCII.
   */
  function ReportedEntries(ts: seq<MECTTransfer>, rcvAddr: Bytes, shardID: nat, response: ResponseParseData): ResponseParseData
  {
    if !AllNamesASCII(ts) then OperationOnly(response.operation)
    else response.(
      tokens := response.tokens + seq(|ts|, i requires 0 <= i < |ts| => ReportedToken(ts[i])),
      mectValues := response.mectValues + seq(|ts|, i requires 0 <= i < |ts| => Decimal(ts[i].value)),
      receivers := response.receivers + seq(|ts|, _ => rcvAddr),
      receiversShardID := response.receiversShardID + seq(|ts|, _ => shardID))
  }

  /** The loop of `parseMultiMECTNFTTransfer`, entry by entry. */
  method ReportEntries(ts: seq<MECTTransfer>, rcvAddr: Bytes, shardID: nat, response: ResponseParseData)
    returns (r: ResponseParseData)
    ensures r == ReportedEntries(ts, rcvAddr, shardID, response)
  {
    r := response;
    var i := 0;
    while i < |ts|
      invariant i <= |ts|
      invariant AllNamesASCII(ts[..i])
      invariant r == ReportedEntries(ts[..i], rcvAddr, shardID, response)
    {
      var ascii := IsASCIIString(ts[i].tokenName);
      if !ascii {
        return OperationOnly(response.operation);
      }
      assert ts[..i + 1] == ts[..i] + [ts[i]];
      r := AppendEntry(r, ts[i], rcvAddr, shardID);
      i := i + 1;
    }
    assert ts[..i] == ts;
  }

  /**
   * `parseMultiMECTNFTTransfer`: the call is kept when the parsed receiver is
   * a smart contract; every entry is reported with the parsed receiver and
   * its shard.
   */
  function ParseMultiMECTNFTTransfer(p: Parser, args: seq<Bytes>, sender: Bytes, receiver: Bytes): (r: ResponseParseData)
    ensures r.operation == Str(BuiltInFunctionMultiMECTNFTTransfer) && !r.isRelayed
  {
    var (response, parsed) := ExtractMECTData(p, args, BuiltInFunctionMultiMECTNFTTransfer, sender, receiver);
    if parsed.None? then response
    else
      var response := WithFunction(response, p, parsed.value.rcvAddr, parsed.value.callFunction);
      ReportedEntries(parsed.value.transfers, parsed.value.rcvAddr, p.shardOf(parsed.value.rcvAddr), response)
  }

  /**
   * The reported entries follow the transfers one for one, each at the
   * given receiver and shard, unless one name is not ASCII.
   */
  lemma ReportedEntriesShape(ts: seq<MECTTransfer>, rcvAddr: Bytes, shardID: nat, response: ResponseParseData)
    requires response.tokens == response.mectValues == response.receivers == [] && response.receiversShardID == []
    ensures var r := ReportedEntries(ts, rcvAddr, shardID, response);
      && (!AllNamesASCII(ts) ==> r == OperationOnly(response.operation))
      && (AllNamesASCII(ts) ==>
            && r.operation == response.operation && r.calledFunction == response.calledFunction
            && |r.tokens| == |r.mectValues| == |r.receivers| == |r.receiversShardID| == |ts|
            && (forall i :: 0 <= i < |ts| ==> r.tokens[i] == ReportedToken(ts[i]) && r.mectValues[i] == Decimal(ts[i].value))
            && (forall i :: 0 <= i < |ts| ==> r.receivers[i] == rcvAddr && r.receiversShardID[i] == shardID))
  {
    if AllNamesASCII(ts) {
      var r := ReportedEntries(ts, rcvAddr, shardID, response);
      assert r.tokens == seq(|ts|, i requires 0 <= i < |ts| => ReportedToken(ts[i]));
      assert r.mectValues == seq(|ts|, i requires 0 <= i < |ts| => Decimal(ts[i].value));
      assert r.receivers == seq(|ts|, _ => rcvAddr);
      assert r.receiversShardID == seq(|ts|, _ => shardID);
    }
  }

  /**
   * A multi-transfer the transfer parser refuses, or with one non-ASCII
   * token name, reports only its operation; otherwise every transfer is
   * reported, each at the parsed receiver and its shard.
   */
  lemma MultiTransferShape(p: Parser, args: seq<Bytes>, sender: Bytes, receiver: Bytes)
    ensures var r := ParseMultiMECTNFTTransfer(p, args, sender, receiver);
      var parsed := ParseMECTTransfers(p.unmarshal, sender, receiver, BuiltInFunctionMultiMECTNFTTransfer, args);
      && r.operation == Str(BuiltInFunctionMultiMECTNFTTransfer) && !r.isRelayed
      && IsASCII(r.calledFunction)
      && (parsed.Err? || !AllNamesASCII(parsed.value.transfers) ==> r == OperationOnly(Str(BuiltInFunctionMultiMECTNFTTransfer)))
      && (parsed.Ok? && AllNamesASCII(parsed.value.transfers) ==>
            var ts := parsed.value.transfers;
            && |r.tokens| == |r.mectValues| == |r.receivers| == |r.receiversShardID| == |ts|
            && (forall i :: 0 <= i < |ts| ==> r.tokens[i] == ReportedToken(ts[i]) && r.mectValues[i] == Decimal(ts[i].value))
            && (forall i :: 0 <= i < |ts| ==> r.receivers[i] == parsed.value.rcvAddr)
            && r.calledFunction == (if p.isSmartContract(parsed.value.rcvAddr) && IsASCII(parsed.value.callFunction)
                                    then parsed.value.callFunction else [])
            && (forall i :: 0 <= i < |ts| ==> r.receiversShardID[i] == p.shardOf(parsed.value.rcvAddr)))
  {
    var parsed := ParseMECTTransfers(p.unmarshal, sender, receiver, BuiltInFunctionMultiMECTNFTTransfer, args);
    if parsed.Ok? {
      var rcvAddr := parsed.value.rcvAddr;
      var response := WithFunction(OperationOnly(Str(BuiltInFunctionMultiMECTNFTTransfer)), p, rcvAddr, parsed.value.callFunction);
      ReportedEntriesShape(parsed.value.transfers, rcvAddr, p.shardOf(rcvAddr), response);
    }
  }

  /**
   * A multi-transfer written with entries whose names are ASCII reports
   * each entry's token, with its nonce when it has one, and its value.
   */
  lemma MultiTransferReported(p: Parser, to: Option<Bytes>, ts: seq<MECTTransfer>, callFunction: Bytes, callArgs: seq<Bytes>,
                              sender: Bytes, receiver: Bytes)
    requires AllEncodable(ts) && AllNamesASCII(ts)
    requires 0 < |ts| < TwoTo64
    requires to.Some? ==> |to.value| == |receiver| && !IsUint64(FromBE(to.value))
    ensures var r := ParseMultiMECTNFTTransfer(p, MultiTransferArgs(to, ts, callFunction, callArgs), sender, receiver);
      var rcvAddr := if to.Some? then to.value else receiver;
      && |r.tokens| == |ts|
      && (forall i :: 0 <= i < |ts| ==> r.tokens[i] == ReportedToken(ts[i]) && ParseDecimal(r.mectValues[i]) == ts[i].value)
      && r.receivers == seq(|ts|, _ => rcvAddr)
      && r.calledFunction == (if p.isSmartContract(rcvAddr) && IsASCII(callFunction) then callFunction else [])
  {
    var args := MultiTransferArgs(to, ts, callFunction, callArgs);
    var rcvAddr := if to.Some? then to.value else receiver;
    MultiTransferRoundTrip(p.unmarshal, receiver, to, ts, callFunction, callArgs);
    assert ParseMECTTransfers(p.unmarshal, sender, receiver, BuiltInFunctionMultiMECTNFTTransfer, args)
      == Ok(ParsedMECTTransfers(ts, rcvAddr, callFunction, callArgs));
    MultiTransferShape(p, args, sender, receiver);
    forall i | 0 <= i < |ts|
      ensures ParseDecimal(Decimal(ts[i].value)) == ts[i].value
    {
      DecimalRoundTrip(ts[i].value);
    }
  }

  // ---------------------------------------------------------------------
  // Dispatch

  /** The calls that are neither transfers, token operations nor relayed: the name is the operation when it is a built-in. */
  function OtherCall(p: Parser, funcName: Bytes, receiver: Bytes): (r: ResponseParseData)
    ensures r.operation == (if funcName in BuiltInFunctionsList then funcName else OperationTransfer)
    ensures r.calledFunction != [] <==> funcName != [] && p.isSmartContract(receiver) && IsASCII(funcName)
    ensures r.calledFunction != [] ==> r.calledFunction == funcName
    ensures r.tokens == r.mectValues == r.receivers == [] && r.receiversShardID == [] && !r.isRelayed
  {
    var response := OperationOnly(if funcName in BuiltInFunctionsList then funcName else OperationTransfer);
    if funcName != [] && p.isSmartContract(receiver) && IsASCII(funcName) then response.(calledFunction := funcName) else response
  }

  predicate IsRelayedFunction(funcName: Bytes)
  {
    funcName == Str(RelayedTransaction) || funcName == Str(RelayedTransactionV2)
  }

  /**
   * `extractInnerTx`: a relayed transaction decodes its first argument; a
   * relayed-v2 needs exactly four arguments and sends the data `args[2]` to
   * `args[0]` from the relayed transaction's receiver.
   */
  function ExtractInnerTx(p: Parser, funcName: Bytes, args: seq<Bytes>, receiver: Bytes): (r: Option<InnerTx>)
    requires funcName == Str(RelayedTransaction) ==> |args| > 0
    ensures funcName == Str(RelayedTransaction) ==> r == p.decodeInnerTx(args[0])
    ensures funcName != Str(RelayedTransaction) ==> (r.Some? <==> |args| == NumArgsRelayedV2)
    ensures funcName != Str(RelayedTransaction) && r.Some? ==>
      r.value.sndAddr == receiver && r.value.rcvAddr == args[0] && r.value.data == args[2]
  {
    if funcName == Str(RelayedTransaction) then p.decodeInnerTx(args[0])
    else if |args| != NumArgsRelayedV2 then None
    else Some(InnerTx(receiver, args[ReceiverAddressIndexRelayedV2], args[DataFieldIndexRelayedV2]))
  }

  /**
   * `parse`: a data field sent to the all-zero address deploys a contract;
   * one the argument parser refuses is a plain transfer; otherwise the
   * function name picks the parser. A relayed transaction inside a relayed
   * one is not unwrapped (`ignoreRelayed`).
   */
  function Parse(p: Parser, dataField: Bytes, sender: Bytes, receiver: Bytes, ignoreRelayed: bool): (r: ResponseParseData)
    ensures r.isRelayed ==> p.parseData(dataField).Some? && IsRelayedFunction(p.parseData(dataField).value.0)
    ensures r.isRelayed && ignoreRelayed ==> r == AsRelayed
    decreases if ignoreRelayed then 0 else 1, 1
  {
    if |dataField| > 0 && IsEmptyAddr(p.addressLength, receiver) then OperationOnly(OperationDeploy)
    else match p.parseData(dataField)
      case None => OperationOnly(OperationTransfer)
      case Some(call) =>
        var (funcName, args) := call;
        if IsRelayedFunction(funcName) then
          if ignoreRelayed then AsRelayed else ParseRelayed(p, funcName, args, receiver)
        else ParseCall(p, funcName, args, sender, receiver)
  }

  /**
   * The switch of `parse` on the other names: each transfer and token
   * operation has its parser; any other call is reported by `OtherCall`.
   * The response lists each receiver with its shard and names only ASCII
   * tokens and functions.
   */
  function ParseCall(p: Parser, funcName: Bytes, args: seq<Bytes>, sender: Bytes, receiver: Bytes): (r: ResponseParseData)
    ensures ShardsMatch(p, r) && PrintableNames(r) && !r.isRelayed
  {
    if funcName == Str(BuiltInFunctionMECTTransfer) then ParseSingleMECTTransfer(p, args, sender, receiver)
    else if funcName == Str(BuiltInFunctionMECTNFTTransfer) then ParseSingleMECTNFTTransfer(p, args, sender, receiver)
    else if funcName == Str(BuiltInFunctionMultiMECTNFTTransfer) then
      MultiTransferShape(p, args, sender, receiver);
      ParseMultiMECTNFTTransfer(p, args, sender, receiver)
    else if funcName == Str(BuiltInFunctionMECTLocalBurn) || funcName == Str(BuiltInFunctionMECTLocalMint) then
      ParseQuantityOperationMECT(args, funcName)
    else if funcName == Str(BuiltInFunctionMECTWipe) || funcName == Str(BuiltInFunctionMECTFreeze)
            || funcName == Str(BuiltInFunctionMECTUnFreeze) then
      ParseBlockingOperationMECT(args, funcName)
    else if funcName == Str(BuiltInFunctionMECTNFTCreate) || funcName == Str(BuiltInFunctionMECTNFTBurn)
            || funcName == Str(BuiltInFunctionMECTNFTAddQuantity) then
      ParseQuantityOperationNFT(args, funcName)
    else OtherCall(p, funcName, receiver)
  }

  /**
   * `parseRelayed`: the inner transaction parsed with relaying ignored and
   * marked relayed; its receiver and shard are reported unless the inner
   * call is itself an NFT or multi transfer, which reports its own.
   */
  function ParseRelayed(p: Parser, funcName: Bytes, args: seq<Bytes>, receiver: Bytes): (r: ResponseParseData)
    requires IsRelayedFunction(funcName)
    ensures r.isRelayed
    decreases 1, 0
  {
    if |args| == 0 then AsRelayed
    else match ExtractInnerTx(p, funcName, args, receiver)
      case None => AsRelayed
      case Some(tx) =>
        var res := Parse(p, tx.data, tx.sndAddr, tx.rcvAddr, true);
        if res.isRelayed then AsRelayed
        else
          var ownReceivers := res.operation == Str(BuiltInFunctionMultiMECTNFTTransfer)
                              || res.operation == Str(BuiltInFunctionMECTNFTTransfer);
          ResponseParseData(res.operation, res.calledFunction, res.mectValues, res.tokens,
                            if ownReceivers then res.receivers else [tx.rcvAddr],
                            if ownReceivers then res.receiversShardID else [p.shardOf(tx.rcvAddr)],
                            true)
  }

  /**
   * `Parse`: the entry point, with relayed transactions unwrapped. Only a
   * relayed call is reported relayed, and the response is well formed.
   */
  function ParseDataField(p: Parser, dataField: Bytes, sender: Bytes, receiver: Bytes): (r: ResponseParseData)
    ensures r.isRelayed ==> p.parseData(dataField).Some? && IsRelayedFunction(p.parseData(dataField).value.0)
    ensures ShardsMatch(p, r) && PrintableNames(r)
  {
    ParseWellFormed(p, dataField, sender, receiver, false);
    Parse(p, dataField, sender, receiver, false)
  }

  // ---------------------------------------------------------------------
  // Properties of the dispatch

  /** Non-empty data sent to the all-zero address is a deployment. */
  lemma DeployClassified(p: Parser, dataField: Bytes, sender: Bytes, receiver: Bytes, ignoreRelayed: bool)
    requires |dataField| > 0 && receiver == seq(p.addressLength, _ => 0)
    ensures Parse(p, dataField, sender, receiver, ignoreRelayed) == OperationOnly(Str("scDeploy"))
  {
  }

  /** Data the argument parser refuses is a plain transfer. */
  lemma UnparsableIsTransfer(p: Parser, dataField: Bytes, sender: Bytes, receiver: Bytes, ignoreRelayed: bool)
    requires p.parseData(dataField).None?
    requires dataField == [] || !IsEmptyAddr(p.addressLength, receiver)
    ensures Parse(p, dataField, sender, receiver, ignoreRelayed) == OperationOnly(Str("transfer"))
  {
  }

  /** The function names `parse` hands to a parser of their own. */
  predicate HasOwnParser(funcName: Bytes)
  {
    || funcName == Str(BuiltInFunctionMECTTransfer) || funcName == Str(BuiltInFunctionMECTNFTTransfer)
    || funcName == Str(BuiltInFunctionMultiMECTNFTTransfer)
    || funcName == Str(BuiltInFunctionMECTLocalBurn) || funcName == Str(BuiltInFunctionMECTLocalMint)
    || funcName == Str(BuiltInFunctionMECTWipe) || funcName == Str(BuiltInFunctionMECTFreeze)
    || funcName == Str(BuiltInFunctionMECTUnFreeze)
    || funcName == Str(BuiltInFunctionMECTNFTCreate) || funcName == Str(BuiltInFunctionMECTNFTBurn)
    || funcName == Str(BuiltInFunctionMECTNFTAddQuantity)
    || IsRelayedFunction(funcName)
  }

  /**
   * Any other call is reported under its own name only when it is a
   * built-in, and as the called function only when the receiver is a smart
   * contract and the name is non-empty ASCII.
   */
  lemma OtherCallClassified(p: Parser, dataField: Bytes, sender: Bytes, receiver: Bytes, ignoreRelayed: bool,
                            funcName: Bytes, args: seq<Bytes>)
    requires dataField == [] || !IsEmptyAddr(p.addressLength, receiver)
    requires p.parseData(dataField) == Some((funcName, args)) && !HasOwnParser(funcName)
    ensures var r := Parse(p, dataField, sender, receiver, ignoreRelayed);
      && r.operation == (if funcName in BuiltInFunctionsList then funcName else Str("transfer"))
      && r.calledFunction == (if funcName != [] && p.isSmartContract(receiver) && IsASCII(funcName) then funcName else [])
      && r.tokens == [] && !r.isRelayed
  {
  }

  /** A relayed call read with relaying ignored reports only that it is relayed. */
  lemma RelayedIgnoredInside(p: Parser, dataField: Bytes, sender: Bytes, receiver: Bytes, funcName: Bytes, args: seq<Bytes>)
    requires dataField == [] || !IsEmptyAddr(p.addressLength, receiver)
    requires p.parseData(dataField) == Some((funcName, args)) && IsRelayedFunction(funcName)
    ensures Parse(p, dataField, sender, receiver, true) == AsRelayed
  {
  }

  /**
   * A relayed transaction with no arguments, with an inner transaction that
   * cannot be read (a relayed-v2 without exactly four arguments), or whose
   * inner transaction is itself relayed, reports only that it is relayed.
   */
  lemma RelayedOnlyFlag(p: Parser, dataField: Bytes, sender: Bytes, receiver: Bytes, funcName: Bytes, args: seq<Bytes>)
    requires dataField == [] || !IsEmptyAddr(p.addressLength, receiver)
    requires p.parseData(dataField) == Some((funcName, args)) && IsRelayedFunction(funcName)
    requires || |args| == 0
             || (funcName == Str(RelayedTransactionV2) && |args| != NumArgsRelayedV2)
             || ExtractInnerTx(p, funcName, args, receiver).None?
             || Parse(p, ExtractInnerTx(p, funcName, args, receiver).value.data, ExtractInnerTx(p, funcName, args, receiver).value.sndAddr,
                      ExtractInnerTx(p, funcName, args, receiver).value.rcvAddr, true).isRelayed
    ensures Parse(p, dataField, sender, receiver, false) == AsRelayed
  {
    assert Str(RelayedTransactionV2) != Str(RelayedTransaction);
  }

  /**
   * A relayed-v2 with four arguments reports the call it carries, as sent by
   * the relayed transaction's receiver to `args[0]`, marked relayed; the
   * receiver is `args[0]` unless the call is an NFT or multi transfer.
   */
  lemma RelayedV2Unwrapped(p: Parser, dataField: Bytes, sender: Bytes, receiver: Bytes, args: seq<Bytes>)
    requires dataField == [] || !IsEmptyAddr(p.addressLength, receiver)
    requires p.parseData(dataField) == Some((Str(RelayedTransactionV2), args)) && |args| == NumArgsRelayedV2
    requires !Parse(p, args[2], receiver, args[0], true).isRelayed
    ensures var r := Parse(p, dataField, sender, receiver, false);
      var inner := Parse(p, args[2], receiver, args[0], true);
      && r.isRelayed
      && r.operation == inner.operation && r.calledFunction == inner.calledFunction
      && r.tokens == inner.tokens && r.mectValues == inner.mectValues
      && (inner.operation != Str(BuiltInFunctionMultiMECTNFTTransfer) && inner.operation != Str(BuiltInFunctionMECTNFTTransfer) ==>
            r.receivers == [args[0]] && r.receiversShardID == [p.shardOf(args[0])])
  {
    assert Str(RelayedTransactionV2) != Str(RelayedTransaction);
  }

  /** Every reported receiver comes with its own shard. */
  predicate ShardsMatch(p: Parser, r: ResponseParseData)
  {
    && |r.receivers| == |r.receiversShardID|
    && forall i :: 0 <= i < |r.receivers| ==> r.receiversShardID[i] == p.shardOf(r.receivers[i])
  }

  /** Every reported token and the reported function are plain ASCII. */
  predicate PrintableNames(r: ResponseParseData)
  {
    IsASCII(r.calledFunction) && forall i :: 0 <= i < |r.tokens| ==> IsASCII(r.tokens[i])
  }

  /**
   * Whatever the data field, the response lists receivers and shards in
   * step, each shard the receiver's own, and names only ASCII tokens and
   * functions.
   */
  lemma {:induction false} ParseWellFormed(p: Parser, dataField: Bytes, sender: Bytes, receiver: Bytes, ignoreRelayed: bool)
    ensures ShardsMatch(p, Parse(p, dataField, sender, receiver, ignoreRelayed))
    ensures PrintableNames(Parse(p, dataField, sender, receiver, ignoreRelayed))
    decreases if ignoreRelayed then 0 else 1
  {
    if |dataField| > 0 && IsEmptyAddr(p.addressLength, receiver) {
    } else if p.parseData(dataField).Some? {
      var (funcName, args) := p.parseData(dataField).value;
      if IsRelayedFunction(funcName) && !ignoreRelayed && |args| > 0 && ExtractInnerTx(p, funcName, args, receiver).Some? {
        var tx := ExtractInnerTx(p, funcName, args, receiver).value;
        ParseWellFormed(p, tx.data, tx.sndAddr, tx.rcvAddr, true);
      }
    }
  }

}
