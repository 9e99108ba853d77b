/**
 * The parser of the three token-transfer argument layouts: a fungible
 * transfer (token, value), an NFT transfer (token, nonce, value, receiver)
 * and a multi-transfer (optional receiver, count, then a (token, nonce,
 * value) triple per entry). Whatever follows the transfers is the function
 * to call on the receiver and its arguments.
 */
module TransferParser {

  import opened Encoding
  import opened Wrappers
  import opened Store
  import opened Names
  import opened ArgChecks

  const MinArgsForMECTTransfer: nat := 2
  const MinArgsForMECTNFTTransfer: nat := 4
  const MinArgsForMultiMECTNFTTransfer: nat := 4

  /** `MECTTransfer`: one token moved by a call. */
  datatype MECTTransfer = MECTTransfer(value: int, tokenName: Bytes, tokenType: TokenType, nonce: uint64)

  /** `ParsedMECTTransfers`. */
  datatype ParsedMECTTransfers = ParsedMECTTransfers(
    transfers: seq<MECTTransfer>,
    rcvAddr: Bytes,
    callFunction: Bytes,
    callArgs: seq<Bytes>)

  // ---------------------------------------------------------------------
  // The call after the transfers

  /**
   * The function and arguments after the first `k` arguments: the function
   * is the argument at `k` when there is one, the call arguments the rest.
   */
  function CallAfter(args: seq<Bytes>, k: nat): (Bytes, seq<Bytes>)
  {
    (if |args| > k then args[k] else [], if |args| > k + 1 then args[k + 1..] else [])
  }

  /** The arguments a call adds after the transfers: none when there is neither a function nor an argument. */
  function CallTail(callFunction: Bytes, callArgs: seq<Bytes>): seq<Bytes>
  {
    if callFunction == [] && callArgs == [] then [] else [callFunction] + callArgs
  }

  /**
   * The call read after `k` arguments is everything after them, and a call
   * written after `k` arguments reads back as itself.
   */
  lemma CallAfterTail(args: seq<Bytes>, k: nat, callFunction: Bytes, callArgs: seq<Bytes>)
    requires |args| >= k
    ensures var (f, a) := CallAfter(args, k);
      |args| > k ==> args == args[..k] + [f] + a
    ensures CallAfter(args[..k] + CallTail(callFunction, callArgs), k) == (callFunction, callArgs)
  {
    var (f, a) := CallAfter(args, k);
    if |args| > k {
      assert args == args[..k] + [args[k]] + args[k + 1..];
    }
    var s := args[..k] + CallTail(callFunction, callArgs);
    if callFunction != [] || callArgs != [] {
      assert s[k + 1..] == callArgs;
    }
  }

  // ---------------------------------------------------------------------
  // The three layouts

  /** `parseSingleMECTTransfer`: one fungible transfer of the token `args[0]` with the value `args[1]`. */
  function ParseSingleMECTTransfer(rcvAddr: Bytes, args: seq<Bytes>): (r: Result<ParsedMECTTransfers>)
    ensures r.Err? <==> |args| < MinArgsForMECTTransfer
    ensures r.Err? ==> r.error == ErrNotEnoughArguments
    ensures r.Ok? ==> r.value.transfers == [MECTTransfer(FromBE(args[1]), args[0], Fungible, 0)] && r.value.rcvAddr == rcvAddr
  {
    if |args| < MinArgsForMECTTransfer then Err(ErrNotEnoughArguments)
    else
      var (f, a) := CallAfter(args, MinArgsForMECTTransfer);
      Ok(ParsedMECTTransfers([MECTTransfer(FromBE(args[1]), args[0], Fungible, 0)], rcvAddr, f, a))
  }

  /**
   * `parseSingleMECTNFTTransfer`: one non-fungible transfer of (token, nonce,
   * value); called by an account on itself, the receiver is `args[3]`.
   */
  function ParseSingleNFTTransfer(sndAddr: Bytes, rcvAddr: Bytes, args: seq<Bytes>): (r: Result<ParsedMECTTransfers>)
    ensures r.Err? <==> |args| < MinArgsForMECTNFTTransfer
    ensures r.Err? ==> r.error == ErrNotEnoughArguments
    ensures r.Ok? ==> r.value.transfers == [MECTTransfer(FromBE(args[2]), args[0], NonFungible, Uint64Of(args[1]))]
    ensures r.Ok? ==> r.value.rcvAddr == if sndAddr == rcvAddr then args[3] else rcvAddr
  {
    if |args| < MinArgsForMECTNFTTransfer then Err(ErrNotEnoughArguments)
    else
      var (f, a) := CallAfter(args, MinArgsForMECTNFTTransfer);
      var receiver := if sndAddr == rcvAddr then args[3] else rcvAddr;
      Ok(ParsedMECTTransfers([MECTTransfer(FromBE(args[2]), args[0], NonFungible, Uint64Of(args[1]))], receiver, f, a))
  }

  /**
   * `createNewMECTTransfer`: the triple at `k`. Nonce 0 is fungible, any
   * other nonce non-fungible; off the sender leg a value argument longer than
   * a quantity is a marshalled record whose value is taken.
   */
  function NewTransfer(unmarshal: Bytes -> Option<MECToken>, args: seq<Bytes>, k: nat, atSender: bool): (r: Result<MECTTransfer>)
    requires k + 2 < |args|
    ensures r.Ok? ==> r.value.tokenName == args[k] && r.value.nonce == Uint64Of(args[k + 1])
    ensures r.Ok? ==> (r.value.tokenType == Fungible <==> Uint64Of(args[k + 1]) == 0)
    ensures (atSender || Uint64Of(args[k + 1]) == 0 || |args[k + 2]| <= MaxLengthForValueToOptTransfer) ==>
      r.Ok? && r.value.value == FromBE(args[k + 2])
  {
    var nonce := Uint64Of(args[k + 1]);
    if nonce == 0 then Ok(MECTTransfer(FromBE(args[k + 2]), args[k], Fungible, 0))
    else if !atSender && |args[k + 2]| > MaxLengthForValueToOptTransfer then
      match unmarshal(args[k + 2])
        case None => Err(ErrUnmarshal)
        case Some(t) => Ok(MECTTransfer(t.value, args[k], NonFungible, nonce))
    else Ok(MECTTransfer(FromBE(args[k + 2]), args[k], NonFungible, nonce))
  }

  /** The loop of `parseMultiMECTNFTTransfer` from entry `i` on, after the entries in `acc`. */
  function EntriesFrom(unmarshal: Bytes -> Option<MECToken>, args: seq<Bytes>, start: nat, count: nat, atSender: bool,
                       i: nat, acc: seq<MECTTransfer>): Result<seq<MECTTransfer>>
    requires EnoughArguments(count, start, |args|)
    decreases count - i
  {
    if i >= count then Ok(acc)
    else
      EntryInRange(count, start, |args|, i);
      match NewTransfer(unmarshal, args, start + 3 * i, atSender)
        case Err(e) => Err(e)
        case Ok(t) => EntriesFrom(unmarshal, args, start, count, atSender, i + 1, acc + [t])
  }

  /** The loop of `parseMultiMECTNFTTransfer`, filling the list of transfers entry by entry. */
  method ParseEntries(unmarshal: Bytes -> Option<MECToken>, args: seq<Bytes>, start: nat, count: nat, atSender: bool)
    returns (r: Result<seq<MECTTransfer>>)
    requires EnoughArguments(count, start, |args|)
    ensures r == EntriesFrom(unmarshal, args, start, count, atSender, 0, [])
  {
    var transfers := [];
    var i := 0;
    while i < count
      invariant i <= count
      invariant EntriesFrom(unmarshal, args, start, count, atSender, i, transfers) == EntriesFrom(unmarshal, args, start, count, atSender, 0, [])
    {
      EntryInRange(count, start, |args|, i);
      var t := NewTransfer(unmarshal, args, start + 3 * i, atSender);
      if t.Err? {
        return Err(t.error);
      }
      transfers := transfers + [t.value];
      i := i + 1;
    }
    return Ok(transfers);
  }

  /** The first multi-transfer argument is a receiver when it is as long as one and too large for a count. */
  predicate FirstArgIsAddress(rcvAddr: Bytes, args: seq<Bytes>)
    requires |args| > 0
  {
    |args[0]| == |rcvAddr| && !IsUint64(FromBE(args[0]))
  }

  /**
   * `parseMultiMECTNFTTransfer`: at least four arguments; an optional
   * receiver, the count, and room for that many triples; the call follows
   * the triples. The room is checked without the uint64 wrap of the count.
   */
  function ParseMultiNFTTransfer(unmarshal: Bytes -> Option<MECToken>, rcvAddr: Bytes, args: seq<Bytes>)
    : (r: Result<ParsedMECTTransfers>)
    ensures |args| < MinArgsForMultiMECTNFTTransfer ==> r == Err(ErrNotEnoughArguments)
    ensures |args| >= MinArgsForMultiMECTNFTTransfer ==>
      var atSender := FirstArgIsAddress(rcvAddr, args);
      var start := if atSender then 2 else 1;
      var count := Uint64Of(args[start - 1]);
      && (!EnoughArguments(count, start, |args|) ==> r == Err(ErrNotEnoughArguments))
      && (r.Ok? ==> r.value.rcvAddr == (if atSender then args[0] else rcvAddr)
                    && (r.value.callFunction, r.value.callArgs) == CallAfter(args, 3 * count + start))
  {
    if |args| < MinArgsForMultiMECTNFTTransfer then Err(ErrNotEnoughArguments)
    else
      var atSender := FirstArgIsAddress(rcvAddr, args);
      var receiver := if atSender then args[0] else rcvAddr;
      var start := if atSender then 2 else 1;
      var count := Uint64Of(args[start - 1]);
      if !EnoughArguments(count, start, |args|) then Err(ErrNotEnoughArguments)
      else
        var (f, a) := CallAfter(args, 3 * count + start);
        match EntriesFrom(unmarshal, args, start, count, atSender, 0, [])
          case Err(e) => Err(e)
          case Ok(transfers) => Ok(ParsedMECTTransfers(transfers, receiver, f, a))
  }

  /** `ParseMECTTransfers`: the layout is chosen by the function name. */
  function ParseMECTTransfers(unmarshal: Bytes -> Option<MECToken>, sndAddr: Bytes, rcvAddr: Bytes, funcName: string, args: seq<Bytes>)
    : (r: Result<ParsedMECTTransfers>)
    ensures (funcName != BuiltInFunctionMECTTransfer && funcName != BuiltInFunctionMECTNFTTransfer
             && funcName != BuiltInFunctionMultiMECTNFTTransfer) ==> r == Err(ErrNotMECTTransferInput)
    ensures funcName == BuiltInFunctionMECTTransfer ==> r == ParseSingleMECTTransfer(rcvAddr, args)
    ensures funcName == BuiltInFunctionMECTNFTTransfer ==> r == ParseSingleNFTTransfer(sndAddr, rcvAddr, args)
    ensures funcName == BuiltInFunctionMultiMECTNFTTransfer ==> r == ParseMultiNFTTransfer(unmarshal, rcvAddr, args)
  {
    if funcName == BuiltInFunctionMECTTransfer then ParseSingleMECTTransfer(rcvAddr, args)
    else if funcName == BuiltInFunctionMECTNFTTransfer then ParseSingleNFTTransfer(sndAddr, rcvAddr, args)
    else if funcName == BuiltInFunctionMultiMECTNFTTransfer then ParseMultiNFTTransfer(unmarshal, rcvAddr, args)
    else Err(ErrNotMECTTransferInput)
  }

  // ---------------------------------------------------------------------
  // Writing the layouts, and reading them back

  /** A transfer the layouts can carry: a non-negative value short enough to be read as a quantity, and the type its nonce gives. */
  predicate Encodable(t: MECTTransfer)
  {
    && t.value >= 0
    && |ToBE(t.value)| <= MaxLengthForValueToOptTransfer
    && (t.tokenType == Fungible <==> t.nonce == 0)
    && (t.tokenType == Fungible || t.tokenType == NonFungible)
  }

  predicate AllEncodable(ts: seq<MECTTransfer>)
  {
    forall i :: 0 <= i < |ts| ==> Encodable(ts[i])
  }

  /** The triple of one entry. */
  function EntryArgs(t: MECTTransfer): seq<Bytes>
    requires Encodable(t)
  {
    [t.tokenName, ToBE(t.nonce), ToBE(t.value)]
  }

  function EntriesArgs(ts: seq<MECTTransfer>): (r: seq<Bytes>)
    requires AllEncodable(ts)
    ensures |r| == 3 * |ts|
  {
    if ts == [] then [] else EntryArgs(ts[0]) + EntriesArgs(ts[1..])
  }

  /** The arguments of a multi-transfer: the receiver on the sender leg, the count, the triples, the call. */
  function MultiTransferArgs(receiver: Option<Bytes>, ts: seq<MECTTransfer>, callFunction: Bytes, callArgs: seq<Bytes>): seq<Bytes>
    requires AllEncodable(ts)
  {
    (if receiver.Some? then [receiver.value] else []) + [ToBE(|ts|)] + EntriesArgs(ts) + CallTail(callFunction, callArgs)
  }

  /** Entry `j` of the written triples sits at `3 * j`. */
  lemma {:induction false} EntriesArgsAt(ts: seq<MECTTransfer>, j: nat)
    requires AllEncodable(ts)
    requires j < |ts|
    ensures 3 * j + 2 < |EntriesArgs(ts)|
    ensures EntriesArgs(ts)[3 * j] == ts[j].tokenName
    ensures EntriesArgs(ts)[3 * j + 1] == ToBE(ts[j].nonce)
    ensures EntriesArgs(ts)[3 * j + 2] == ToBE(ts[j].value)
  {
    if j > 0 {
      assert ts[1..][j - 1] == ts[j];
      EntriesArgsAt(ts[1..], j - 1);
    }
  }

  /** Three consecutive elements of a slice are the elements of the whole at the shifted positions. */
  lemma TripleInSlice(args: seq<Bytes>, start: nat, e: seq<Bytes>, j: nat)
    requires start + |e| <= |args| && args[start..start + |e|] == e && j + 2 < |e|
    ensures start + j + 2 < |args|
    ensures args[start + j] == e[j] && args[start + j + 1] == e[j + 1] && args[start + j + 2] == e[j + 2]
  {
    assert args[start..start + |e|][j] == args[start + j];
    assert args[start..start + |e|][j + 1] == args[start + j + 1];
    assert args[start..start + |e|][j + 2] == args[start + j + 2];
  }

  /** Entry `i` of triples written from `start` on. */
  lemma EntryAt(args: seq<Bytes>, start: nat, ts: seq<MECTTransfer>, i: nat)
    requires AllEncodable(ts)
    requires start + 3 * |ts| <= |args|
    requires args[start..start + 3 * |ts|] == EntriesArgs(ts)
    requires i < |ts|
    ensures var k := start + 3 * i;
      && k + 2 < |args|
      && args[k] == ts[i].tokenName && args[k + 1] == ToBE(ts[i].nonce) && args[k + 2] == ToBE(ts[i].value)
  {
    EntriesArgsAt(ts, i);
    TripleInSlice(args, start, EntriesArgs(ts), 3 * i);
  }

  /** Reading back the written triples from entry `i` on yields the remaining transfers. */
  lemma {:induction false} EntriesRoundTrip(unmarshal: Bytes -> Option<MECToken>, args: seq<Bytes>, start: nat,
                                            ts: seq<MECTTransfer>, atSender: bool, i: nat)
    requires AllEncodable(ts)
    requires EnoughArguments(|ts|, start, |args|)
    requires args[start..start + 3 * |ts|] == EntriesArgs(ts)
    requires i <= |ts|
    ensures EntriesFrom(unmarshal, args, start, |ts|, atSender, i, ts[..i]) == Ok(ts)
    decreases |ts| - i
  {
    if i < |ts| {
      EntryAt(args, start, ts, i);
      var k := start + 3 * i;
      FromBEToBE(ts[i].nonce);
      FromBEToBE(ts[i].value);
      assert NewTransfer(unmarshal, args, k, atSender) == Ok(ts[i]);
      assert ts[..i] + [ts[i]] == ts[..i + 1];
      EntriesRoundTrip(unmarshal, args, start, ts, atSender, i + 1);
    } else {
      assert ts[..i] == ts;
    }
  }

  /**
   * A multi-transfer written with at least one encodable entry reads back
   * as those entries, the receiver it names (the given one at the
   * destination), and the call.
   */
  lemma MultiTransferRoundTrip(unmarshal: Bytes -> Option<MECToken>, rcvAddr: Bytes, receiver: Option<Bytes>,
                               ts: seq<MECTTransfer>, callFunction: Bytes, callArgs: seq<Bytes>)
    requires AllEncodable(ts)
    requires 0 < |ts| < TwoTo64
    requires receiver.Some? ==> |receiver.value| == |rcvAddr| && !IsUint64(FromBE(receiver.value))
    ensures ParseMultiNFTTransfer(unmarshal, rcvAddr, MultiTransferArgs(receiver, ts, callFunction, callArgs))
      == Ok(ParsedMECTTransfers(ts, if receiver.Some? then receiver.value else rcvAddr, callFunction, callArgs))
  {
    var args := MultiTransferArgs(receiver, ts, callFunction, callArgs);
    var start := if receiver.Some? then 2 else 1;
    var k := 3 * |ts| + start;
    MultiTransferLayout(rcvAddr, receiver, ts, callFunction, callArgs);
    assert ts[..0] == [];
    EntriesRoundTrip(unmarshal, args, start, ts, receiver.Some?, 0);
    CallAfterTail(args, k, callFunction, callArgs);
  }

  /** Where the parser finds the parts of a written multi-transfer. */
  lemma MultiTransferLayout(rcvAddr: Bytes, receiver: Option<Bytes>, ts: seq<MECTTransfer>, callFunction: Bytes, callArgs: seq<Bytes>)
    requires AllEncodable(ts)
    requires 0 < |ts| < TwoTo64
    requires receiver.Some? ==> |receiver.value| == |rcvAddr| && !IsUint64(FromBE(receiver.value))
    ensures var args, start := MultiTransferArgs(receiver, ts, callFunction, callArgs), if receiver.Some? then 2 else 1;
      && |args| >= MinArgsForMultiMECTNFTTransfer
      && FirstArgIsAddress(rcvAddr, args) == receiver.Some?
      && (receiver.Some? ==> args[0] == receiver.value)
      && Uint64Of(args[start - 1]) == |ts|
      && EnoughArguments(|ts|, start, |args|)
      && args[start..start + 3 * |ts|] == EntriesArgs(ts)
      && args[..start + 3 * |ts|] + CallTail(callFunction, callArgs) == args
  {
    var args := MultiTransferArgs(receiver, ts, callFunction, callArgs);
    var head := (if receiver.Some? then [receiver.value] else []) + [ToBE(|ts|)];
    ThreeParts(head, EntriesArgs(ts), CallTail(callFunction, callArgs));
    assert args == head + EntriesArgs(ts) + CallTail(callFunction, callArgs);
    FromBEToBE(|ts|);
  }

  /** Where the three parts of a concatenation sit in it. */
  lemma ThreeParts(head: seq<Bytes>, mid: seq<Bytes>, tail: seq<Bytes>)
    ensures var s := head + mid + tail;
      && s[|head|..|head| + |mid|] == mid
      && s[..|head| + |mid|] == head + mid
      && (forall i :: 0 <= i < |head| ==> s[i] == head[i])
  {
  }

  /** A fungible transfer written as (token, value, call) reads back as itself. */
  lemma SingleTransferRoundTrip(rcvAddr: Bytes, tokenName: Bytes, value: nat, callFunction: Bytes, callArgs: seq<Bytes>)
    ensures ParseSingleMECTTransfer(rcvAddr, [tokenName, ToBE(value)] + CallTail(callFunction, callArgs))
      == Ok(ParsedMECTTransfers([MECTTransfer(value, tokenName, Fungible, 0)], rcvAddr, callFunction, callArgs))
  {
    var args := [tokenName, ToBE(value)] + CallTail(callFunction, callArgs);
    FromBEToBE(value);
    assert args[..2] == [tokenName, ToBE(value)];
    CallAfterTail(args, 2, callFunction, callArgs);
  }

  /**
   * An NFT transfer written as (token, nonce, value, receiver, call) reads
   * back as itself; the receiver argument is the receiver only when an
   * account sends to itself.
   */
  lemma NFTTransferRoundTrip(sndAddr: Bytes, rcvAddr: Bytes, tokenName: Bytes, nonce: uint64, value: nat, receiver: Bytes,
                             callFunction: Bytes, callArgs: seq<Bytes>)
    ensures ParseSingleNFTTransfer(sndAddr, rcvAddr, [tokenName, ToBE(nonce), ToBE(value), receiver] + CallTail(callFunction, callArgs))
      == Ok(ParsedMECTTransfers([MECTTransfer(value, tokenName, NonFungible, nonce)],
                                if sndAddr == rcvAddr then receiver else rcvAddr, callFunction, callArgs))
  {
    var args := [tokenName, ToBE(nonce), ToBE(value), receiver] + CallTail(callFunction, callArgs);
    FromBEToBE(nonce);
    FromBEToBE(value);
    assert args[..4] == [tokenName, ToBE(nonce), ToBE(value), receiver];
    CallAfterTail(args, 4, callFunction, callArgs);
  }

  /**
   * A parsed multi-transfer has as many entries as its count says, each
   * named by its triple, fungible exactly when its nonce is 0.
   */
  lemma {:induction false} EntriesShape(unmarshal: Bytes -> Option<MECToken>, args: seq<Bytes>, start: nat, count: nat, atSender: bool,
                                        i: nat, acc: seq<MECTTransfer>)
    requires EnoughArguments(count, start, |args|)
    requires i <= count && |acc| == i
    requires forall j :: 0 <= j < i ==> acc[j].tokenName == args[start + 3 * j]
    requires forall j :: 0 <= j < i ==> (acc[j].tokenType == Fungible <==> acc[j].nonce == 0)
    requires EntriesFrom(unmarshal, args, start, count, atSender, i, acc).Ok?
    ensures var ts := EntriesFrom(unmarshal, args, start, count, atSender, i, acc).value;
      && |ts| == count
      && (forall j :: 0 <= j < count ==> ts[j].tokenName == args[start + 3 * j])
      && (forall j :: 0 <= j < count ==> (ts[j].tokenType == Fungible <==> ts[j].nonce == 0))
    decreases count - i
  {
    if i < count {
      EntryInRange(count, start, |args|, i);
      var t := NewTransfer(unmarshal, args, start + 3 * i, atSender).value;
      EntriesShape(unmarshal, args, start, count, atSender, i + 1, acc + [t]);
    }
  }
}
