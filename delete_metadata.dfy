/**
 * The maintenance function of the system account's NFT metadata, created
 * either to delete or to add: called by one allowed address on itself, it
 * removes the mirrors of whole nonce intervals of tokens, or installs
 * metadata on nonces that have none. The system account is loaded, changed,
 * and saved only when every entry succeeded.
 */
module DeleteMetadata {

  import opened Encoding
  import opened Wrappers
  import opened Common
  import opened Store
  import opened Vm
  import opened DataStorage

  /** Token, nonce and marshalled metadata: the arguments of one addition. */
  const ArgsPerAdd: nat := 3

  // ---------------------------------------------------------------------
  // Deleting one interval of nonces

  /**
   * The system-account data after the keys of nonces `nonce` to `end` of a
   * token have been set to nil, one after the other.
   */
  function ClearedInterval(d: Data, tokenKey: Bytes, nonce: nat, end: nat): Data
    decreases end + 1 - nonce
  {
    if nonce > end then d
    else ClearedInterval(Saved(d, NFTTokenKey(tokenKey, nonce), Nil), tokenKey, nonce + 1, end)
  }

  /**
   * `deleteMetadataForInterval` as a value: an interval ending before it
   * starts, or starting at nonce 0, is refused; otherwise every nonce from
   * start to end inclusive is cleared.
   */
  function IntervalSpec(d: Data, tokenID: Bytes, start: uint64, end: uint64): (r: Result<Data>)
    ensures r.Err? <==> end < start || start == 0
    ensures end < start ==> r == Err(ErrInvalidArguments)
    ensures start <= end && start == 0 ==> r == Err(ErrInvalidNonce)
  {
    if end < start then Err(ErrInvalidArguments)
    else if start == 0 then Err(ErrInvalidNonce)
    else Ok(ClearedInterval(d, TokenKey(tokenID), start, end))
  }

  /**
   * `deleteMetadataForInterval`, with the nonce counted without bound so that
   * an interval ending at the largest uint64 ends too.
   */
  method DeleteMetadataForInterval(work: Account, tokenID: Bytes, start: uint64, end: uint64) returns (s: Status)
    modifies work
    ensures var spec := IntervalSpec(old(work.data), tokenID, start, end);
      && (spec.Err? ==> s == Failure(spec.error) && work.data == old(work.data))
      && (spec.Ok? ==> s == Success && work.data == spec.value)
  {
    if end < start {
      return Failure(ErrInvalidArguments);
    }
    if start == 0 {
      return Failure(ErrInvalidNonce);
    }
    var tokenKey := TokenKey(tokenID);
    var nonce: nat := start;
    while nonce <= end
      invariant start <= nonce <= end + 1
      invariant ClearedInterval(work.data, tokenKey, nonce, end) == ClearedInterval(old(work.data), tokenKey, start, end)
      decreases end + 1 - nonce
    {
      work.SaveKeyValue(NFTTokenKey(tokenKey, nonce), Nil);
      nonce := nonce + 1;
    }
    return Success;
  }

  // ---------------------------------------------------------------------
  // Deleting the intervals of one token

  /**
   * The loop of `deleteMetadataForListIntervals` from argument `j` on: the
   * arguments from `j` up to `stop` are (start, end) pairs; a pair that would
   * run past the arguments, or an interval that is refused, stops the loop
   * and keeps the intervals already cleared.
   */
  function IntervalsFrom(d: Data, tokenID: Bytes, args: seq<Bytes>, j: nat, stop: nat): (r: (Data, Status))
    requires |args| >= 4
    ensures r.1.Failure? ==> r.1.error in {ErrInvalidNumOfArgs, ErrInvalidArguments, ErrInvalidNonce}
    decreases stop - j
  {
    if j >= stop then (d, Success)
    else if j > |args| - 2 then (d, Failure(ErrInvalidNumOfArgs))
    else match IntervalSpec(d, tokenID, Uint64Of(args[j]), Uint64Of(args[j + 1]))
      case Err(e) => (d, Failure(e))
      case Ok(d') => IntervalsFrom(d', tokenID, args, j + 2, stop)
  }

  /** `deleteMetadataForListIntervals`: the pairs from `index` to `stop`. */
  method DeleteMetadataForListIntervals(work: Account, tokenID: Bytes, args: seq<Bytes>, index: nat, stop: nat)
    returns (s: Status)
    requires |args| >= 4
    modifies work
    ensures (work.data, s) == IntervalsFrom(old(work.data), tokenID, args, index, stop)
  {
    var j := index;
    while j < stop
      invariant IntervalsFrom(work.data, tokenID, args, j, stop) == IntervalsFrom(old(work.data), tokenID, args, index, stop)
      decreases stop - j
    {
      if j > |args| - 2 {
        return Failure(ErrInvalidNumOfArgs);
      }
      s := DeleteMetadataForInterval(work, tokenID, Uint64Of(args[j]), Uint64Of(args[j + 1]));
      if s.Failure? {
        return;
      }
      j := j + 2;
    }
    return Success;
  }

  // ---------------------------------------------------------------------
  // Deleting: the whole argument list

  /** One round of the outer loop: go on at an index, or stop with an outcome. */
  datatype Round = Next(d: Data, i: nat) | Stop(d: Data, status: Status)

  /**
   * One round of the outer loop of `deleteMetadata` at index `i`: the token
   * must be valid and followed by at least one argument; its pairs run from
   * `i + 2` to `next`, where the next round starts.
   */
  function StepTo(d: Data, args: seq<Bytes>, i: nat, next: nat): Round
    requires |args| >= 4 && i + 1 < |args|
  {
    var tokenID := args[i];
    if !ValidateToken(tokenID) then Stop(d, Failure(ErrInvalidTokenID))
    else if i + 2 >= |args| then Stop(d, Failure(ErrInvalidNumOfArgs))
    else
      var (d', st) := IntervalsFrom(d, tokenID, args, i + 2, next);
      if st.Failure? then Stop(d', st) else Next(d', next)
  }

  /** The number of intervals announced after the token at index `i`. */
  function NumIntervals(args: seq<Bytes>, i: nat): uint64
    requires i + 1 < |args|
  {
    Uint64Of(args[i + 1])
  }

  /**
   * The round as written: the end of the pairs, `i + 2 + 2 * numIntervals`,
   * is computed in uint64 and wraps.
   */
  function StepAsWritten(d: Data, args: seq<Bytes>, i: uint64): Round
    requires |args| >= 4 && i + 1 < |args|
  {
    StepTo(d, args, i, Wrap64(i + 2 + Wrap64(NumIntervals(args, i) * 2)))
  }

  /** The round as intended: the pairs end `2 * numIntervals` arguments after the token's count. */
  function IntendedStep(d: Data, args: seq<Bytes>, i: nat): (r: Round)
    requires |args| >= 4 && i + 1 < |args|
    ensures r.Next? ==> r.i > i
  {
    StepTo(d, args, i, i + 2 + NumIntervals(args, i) * 2)
  }

  /**
   * The outer loop of `deleteMetadata` from index `i` on. It fails only with
   * an invalid token, a miscounted argument list or a refused interval.
   */
  function DeleteFrom(d: Data, args: seq<Bytes>, i: nat): (r: (Data, Status))
    requires |args| >= 4
    ensures r.1.Failure? ==> r.1.error in {ErrInvalidTokenID, ErrInvalidNumOfArgs, ErrInvalidArguments, ErrInvalidNonce}
    decreases |args| - i
  {
    if i + 1 >= |args| then (d, Success)
    else match IntendedStep(d, args, i)
      case Stop(d', st) => (d', st)
      case Next(d', i') => DeleteFrom(d', args, i')
  }

  /** The outer loop of `deleteMetadata`, on the loaded system account. */
  method DeleteMetadataList(work: Account, args: seq<Bytes>) returns (s: Status)
    requires |args| >= 4
    modifies work
    ensures (work.data, s) == DeleteFrom(old(work.data), args, 0)
  {
    var i: nat := 0;
    while i + 1 < |args|
      invariant DeleteFrom(work.data, args, i) == DeleteFrom(old(work.data), args, 0)
      decreases |args| - i
    {
      var tokenID := args[i];
      var numIntervals := Uint64Of(args[i + 1]);
      if !ValidateToken(tokenID) {
        return Failure(ErrInvalidTokenID);
      }
      if i + 2 >= |args| {
        return Failure(ErrInvalidNumOfArgs);
      }
      s := DeleteMetadataForListIntervals(work, tokenID, args, i + 2, i + 2 + numIntervals * 2);
      if s.Failure? {
        return;
      }
      i := i + 2 + numIntervals * 2;
    }
    return Success;
  }

  // ---------------------------------------------------------------------
  // Adding metadata

  /** The record a nonce without a mirror starts from: a non-fungible of value 0. */
  const NewNonFungible := MECToken(NonFungible, 0, [], None, [])

  /**
   * One addition as a value: a non-zero nonce of a valid token, metadata that
   * decodes and names that nonce, and a mirror that has no metadata yet (or
   * none at all); the mirror, kept or newly made, then carries the metadata.
   */
  function AddEntry(d: Data, decode: Bytes -> Option<MetaData>, tokenID: Bytes, nonceArg: Bytes, metaArg: Bytes)
    : (r: Result<Data>)
    ensures var nonce, key, m := Uint64Of(nonceArg), NFTTokenKey(TokenKey(tokenID), Uint64Of(nonceArg)), decode(metaArg);
      var accepted := nonce != 0 && ValidateToken(tokenID) && m.Some? && m.value.nonce == nonce;
      && (nonce == 0 ==> r == Err(ErrInvalidNonce))
      && (nonce != 0 && !ValidateToken(tokenID) ==> r == Err(ErrInvalidTokenID))
      && (nonce != 0 && ValidateToken(tokenID) && m.None? ==> r == Err(ErrUnmarshal))
      && (nonce != 0 && ValidateToken(tokenID) && m.Some? && m.value.nonce != nonce ==> r == Err(ErrInvalidMetadata))
      && (accepted && MirrorOf(d, key).Err? ==> r == Err(MirrorOf(d, key).error))
      && (accepted && MirrorOf(d, key).Ok? && MirrorOf(d, key).value.Some? && MirrorOf(d, key).value.value.metaData.Some?
          ==> r == Err(ErrTokenHasValidMetadata))
      && (r.Ok? <==> accepted && MirrorOf(d, key).Ok? && (MirrorOf(d, key).value.None? || MirrorOf(d, key).value.value.metaData.None?))
      && (r.Ok? ==> key in r.value && r.value[key].Token? && r.value[key].token.metaData == m && r.value == Saved(d, key, r.value[key]))
      && (r.Ok? && MirrorOf(d, key) == Ok(None) ==> r.value[key].token == NewNonFungible.(metaData := m))
      && (r.Ok? && MirrorOf(d, key).Ok? && MirrorOf(d, key).value.Some? ==> r.value[key].token == MirrorOf(d, key).value.value.(metaData := m))
  {
    var nonce := Uint64Of(nonceArg);
    if nonce == 0 then Err(ErrInvalidNonce)
    else if !ValidateToken(tokenID) then Err(ErrInvalidTokenID)
    else
      var key := NFTTokenKey(TokenKey(tokenID), nonce);
      match decode(metaArg)
        case None => Err(ErrUnmarshal)
        case Some(m) =>
          if m.nonce != nonce then Err(ErrInvalidMetadata)
          else match MirrorOf(d, key)
            case Err(e) => Err(e)
            case Ok(mirror) =>
              if mirror.Some? && mirror.value.metaData.Some? then Err(ErrTokenHasValidMetadata)
              else
                var base := if mirror.None? then NewNonFungible else mirror.value;
                Ok(Saved(d, key, Token(base.(metaData := Some(m)))))
  }

  /** The loop of `addMetadata`: the triples in order, stopping at the first failure. */
  function AddEach(d: Data, decode: Bytes -> Option<MetaData>, args: seq<Bytes>): (r: (Data, Status))
    requires |args| % ArgsPerAdd == 0
    decreases |args|
  {
    if |args| == 0 then (d, Success)
    else match AddEntry(d, decode, args[0], args[1], args[2])
      case Err(e) => (d, Failure(e))
      case Ok(d') => AddEach(d', decode, args[ArgsPerAdd..])
  }

  /** The loop of `addMetadata`, on the loaded system account. */
  method AddMetadataList(work: Account, decode: Bytes -> Option<MetaData>, args: seq<Bytes>) returns (s: Status)
    requires |args| % ArgsPerAdd == 0
    modifies work
    ensures (work.data, s) == AddEach(old(work.data), decode, args)
  {
    var rest := args;
    while |rest| > 0
      invariant |rest| % ArgsPerAdd == 0
      invariant AddEach(work.data, decode, rest) == AddEach(old(work.data), decode, args)
      decreases |rest|
    {
      s := AddOne(work, decode, rest[0], rest[1], rest[2]);
      if s.Failure? {
        return;
      }
      rest := rest[ArgsPerAdd..];
    }
    return Success;
  }

  /** One round of the loop of `addMetadata`. */
  method AddOne(work: Account, decode: Bytes -> Option<MetaData>, tokenID: Bytes, nonceArg: Bytes, metaArg: Bytes)
    returns (s: Status)
    modifies work
    ensures var spec := AddEntry(old(work.data), decode, tokenID, nonceArg, metaArg);
      && (spec.Err? ==> s == Failure(spec.error) && work.data == old(work.data))
      && (spec.Ok? ==> s == Success && work.data == spec.value)
  {
    var nonce := Uint64Of(nonceArg);
    if nonce == 0 {
      return Failure(ErrInvalidNonce);
    }
    if !ValidateToken(tokenID) {
      return Failure(ErrInvalidTokenID);
    }
    var key := NFTTokenKey(TokenKey(tokenID), nonce);
    var decoded := decode(metaArg);
    if decoded.None? {
      return Failure(ErrUnmarshal);
    }
    var metaData := decoded.value;
    if metaData.nonce != nonce {
      return Failure(ErrInvalidMetadata);
    }
    var mirror := MirrorOf(work.data, key);
    if mirror.Err? {
      return Failure(mirror.error);
    }
    if mirror.value.Some? && mirror.value.value.metaData.Some? {
      return Failure(ErrTokenHasValidMetadata);
    }
    var base := if mirror.value.None? then NewNonFungible else mirror.value.value;
    work.SaveKeyValue(key, Token(base.(metaData := Some(metaData))));
    return Success;
  }

  // ---------------------------------------------------------------------
  // The built-in function

  /**
   * `ProcessBuiltinFunction` as a value: the new system-account data, or the
   * error. The call carries no value (a nil value makes the comparison
   * panic), comes from the allowed address and is addressed to itself.
   * Deleting takes at least four arguments, adding a positive multiple of
   * three.
   */
  function DeleteMetadataSpec(allowedAddress: Bytes, delete: bool, decode: Bytes -> Option<MetaData>, input: CallInput, sys: Data)
    : (r: Result<Data>)
    ensures input.callValue.None? ==> r == Err(ErrRuntimePanic)
    ensures input.callValue.Some? && input.callValue.value != 0 ==> r == Err(ErrBuiltInFunctionCalledWithValue)
    ensures input.callValue == Some(0) && input.callerAddr != allowedAddress ==> r == Err(ErrAddressIsNotAllowed)
    ensures input.callValue == Some(0) && input.callerAddr == allowedAddress && input.recipientAddr != allowedAddress ==>
      r == Err(ErrInvalidRcvAddr)
    ensures r.Ok? ==> input.callValue == Some(0) && input.callerAddr == allowedAddress && input.recipientAddr == allowedAddress
    ensures var passed := input.callValue == Some(0) && input.callerAddr == allowedAddress && input.recipientAddr == allowedAddress;
      && (passed && delete && |input.arguments| < 4 ==> r == Err(ErrInvalidNumOfArgs))
      && (passed && !delete && (|input.arguments| % ArgsPerAdd != 0 || |input.arguments| < ArgsPerAdd) ==> r == Err(ErrInvalidNumOfArgs))
  {
    var args := input.arguments;
    if input.callValue.None? then Err(ErrRuntimePanic)
    else if input.callValue.value != 0 then Err(ErrBuiltInFunctionCalledWithValue)
    else if input.callerAddr != allowedAddress then Err(ErrAddressIsNotAllowed)
    else if input.callerAddr != input.recipientAddr then Err(ErrInvalidRcvAddr)
    else if delete then
      if |args| < 4 then Err(ErrInvalidNumOfArgs)
      else
        var (d, st) := DeleteFrom(sys, args, 0);
        if st.Failure? then Err(st.error) else Ok(d)
    else
      if |args| % ArgsPerAdd != 0 || |args| < ArgsPerAdd then Err(ErrInvalidNumOfArgs)
      else
        var (d, st) := AddEach(sys, decode, args);
        if st.Failure? then Err(st.error) else Ok(d)
  }

  /**
   * `ProcessBuiltinFunction` of the delete/add metadata function. The work
   * is done on a loaded copy of the system account, which is saved back only
   * when every entry succeeded.
   */
  method ProcessDeleteMetadata(allowedAddress: Bytes, delete: bool, decode: Bytes -> Option<MetaData>, input: CallInput, sys: Account)
    returns (r: Result<VMOutput>)
    modifies sys
    ensures var spec := DeleteMetadataSpec(allowedAddress, delete, decode, input, old(sys.data));
      && (spec.Err? ==> r == Err(spec.error) && sys.data == old(sys.data))
      && (spec.Ok? ==> r.Ok? && fresh(r.value) && r.value.Snapshot() == Output(0, [], [], map[]) && sys.data == spec.value)
  {
    if input.callValue.None? {
      return Err(ErrRuntimePanic);
    }
    if input.callValue.value != 0 {
      return Err(ErrBuiltInFunctionCalledWithValue);
    }
    if input.callerAddr != allowedAddress {
      return Err(ErrAddressIsNotAllowed);
    }
    if input.callerAddr != input.recipientAddr {
      return Err(ErrInvalidRcvAddr);
    }
    var args := input.arguments;
    var work := new Account(sys.address, sys.data);
    var s: Status;
    if delete {
      if |args| < 4 {
        return Err(ErrInvalidNumOfArgs);
      }
      s := DeleteMetadataList(work, args);
    } else {
      if |args| % ArgsPerAdd != 0 || |args| < ArgsPerAdd {
        return Err(ErrInvalidNumOfArgs);
      }
      s := AddMetadataList(work, decode, args);
    }
    if s.Failure? {
      return Err(s.error);
    }
    sys.data := work.data;
    var out := new VMOutput(0);
    return Ok(out);
  }

  // ---------------------------------------------------------------------
  // Properties of deleting

  /**
   * Clearing an interval removes exactly the keys of the nonces in it: no
   * key is added or changed, every nonce of the interval is gone, and every
   * key that went was one of them.
   */
  lemma {:induction false} ClearedIntervalExactly(d: Data, tokenKey: Bytes, start: nat, end: nat)
    ensures var r := ClearedInterval(d, tokenKey, start, end);
      && r.Keys <= d.Keys
      && (forall k :: k in r ==> r[k] == d[k])
      && (forall n :: start <= n <= end ==> NFTTokenKey(tokenKey, n) !in r)
      && (forall k :: k in d && k !in r ==> exists n :: start <= n <= end && k == NFTTokenKey(tokenKey, n))
    decreases end + 1 - start
  {
    if start <= end {
      var d1 := Saved(d, NFTTokenKey(tokenKey, start), Nil);
      ClearedIntervalExactly(d1, tokenKey, start + 1, end);
      var r := ClearedInterval(d, tokenKey, start, end);
      forall k | k in d && k !in r
        ensures exists n :: start <= n <= end && k == NFTTokenKey(tokenKey, n)
      {
        if k == NFTTokenKey(tokenKey, start) {
        } else {
          assert k in d1;
        }
      }
    }
  }

  /** A delete pass over intervals only removes keys: what stays is unchanged. */
  lemma {:induction false} IntervalsFromOnlyRemove(d: Data, tokenID: Bytes, args: seq<Bytes>, j: nat, stop: nat)
    requires |args| >= 4
    ensures var r := IntervalsFrom(d, tokenID, args, j, stop).0;
      r.Keys <= d.Keys && forall k :: k in r ==> r[k] == d[k]
    decreases stop - j
  {
    if j < stop && j <= |args| - 2 {
      var start, end := Uint64Of(args[j]), Uint64Of(args[j + 1]);
      if IntervalSpec(d, tokenID, start, end).Ok? {
        ClearedIntervalExactly(d, TokenKey(tokenID), start, end);
        IntervalsFromOnlyRemove(ClearedInterval(d, TokenKey(tokenID), start, end), tokenID, args, j + 2, stop);
      }
    }
  }

  /** Deleting, even when it fails part way, never adds or changes a key of the system account. */
  lemma {:induction false} DeleteOnlyRemoves(d: Data, args: seq<Bytes>, i: nat)
    requires |args| >= 4
    ensures var r := DeleteFrom(d, args, i).0;
      r.Keys <= d.Keys && forall k :: k in r ==> r[k] == d[k]
    decreases |args| - i
  {
    if i + 1 < |args| && ValidateToken(args[i]) && i + 2 < |args| {
      var next := i + 2 + NumIntervals(args, i) * 2;
      IntervalsFromOnlyRemove(d, args[i], args, i + 2, next);
      var (d', st) := IntervalsFrom(d, args[i], args, i + 2, next);
      if st.Success? {
        DeleteOnlyRemoves(d', args, next);
      }
    }
  }

  /**
   * One token with one interval: the call succeeds exactly when the token is
   * valid and the interval is well formed, and then clears exactly that
   * interval.
   */
  lemma OneIntervalDeleted(d: Data, tokenID: Bytes, start: uint64, end: uint64)
    ensures var r := DeleteFrom(d, [tokenID, ToBE(1), ToBE(start), ToBE(end)], 0);
      && (r.1 == Success <==> ValidateToken(tokenID) && 0 < start <= end)
      && (r.1 == Success ==> r.0 == ClearedInterval(d, TokenKey(tokenID), start, end))
  {
    FromBEToBE(1);
    FromBEToBE(start);
    FromBEToBE(end);
    OneIntervalArgs(d, [tokenID, ToBE(1), ToBE(start), ToBE(end)]);
  }

  /** `OneIntervalDeleted` over any four arguments announcing one interval. */
  lemma OneIntervalArgs(d: Data, args: seq<Bytes>)
    requires |args| == 4 && NumIntervals(args, 0) == 1
    ensures var r := DeleteFrom(d, args, 0);
      var start, end := Uint64Of(args[2]), Uint64Of(args[3]);
      && (r.1 == Success <==> ValidateToken(args[0]) && 0 < start <= end)
      && (r.1 == Success ==> r.0 == ClearedInterval(d, TokenKey(args[0]), start, end))
  {
    var start, end := Uint64Of(args[2]), Uint64Of(args[3]);
    if ValidateToken(args[0]) {
      var d' := ClearedInterval(d, TokenKey(args[0]), start, end);
      match IntervalSpec(d, args[0], start, end)
      case Ok(_) =>
        assert IntervalsFrom(d, args[0], args, 2, 4) == IntervalsFrom(d', args[0], args, 4, 4);
        StepSucceeds(d, args, 0, 4);
      case Err(e) =>
        StepFails(d, args, 0, 4);
    }
  }

  // ---------------------------------------------------------------------
  // Finding: the index step wraps

  /** 2^63 - 1: twice it is 2^64 - 2, which takes the index back by 2. */
  const WrappingIntervals: uint64 := 0x7FFF_FFFF_FFFF_FFFF

  /**
   * As written, a token announcing 2^63 - 1 intervals makes the pair loop
   * end before it starts (its bound wraps below the index) and moves the
   * outer index back to the token: the round leaves the data as it was and
   * starts again where it began, so the loop never ends.
   */
  lemma IndexStepWrapsAsWritten(d: Data, tokenID: Bytes, count: uint64, x: Bytes, y: Bytes)
    requires ValidateToken(tokenID)
    requires count == WrappingIntervals
    ensures StepAsWritten(d, [tokenID, ToBE(count), x, y], 0) == Next(d, 0)
  {
    FromBEToBE(count);
    RoundWrapsAsWritten(d, [tokenID, ToBE(count), x, y]);
  }

  lemma RoundWrapsAsWritten(d: Data, args: seq<Bytes>)
    requires |args| == 4 && ValidateToken(args[0])
    requires Uint64Of(args[1]) == WrappingIntervals
    ensures StepAsWritten(d, args, 0) == Next(d, 0)
  {
    assert Wrap64(NumIntervals(args, 0) * 2) == TwoTo64 - 2;
    WrapsToZero();
    assert IntervalsFrom(d, args[0], args, 2, 0) == (d, Success);
    StepSucceeds(d, args, 0, 0);
  }

  lemma WrapsToZero()
    ensures Wrap64(2 + (TwoTo64 - 2)) == 0
  {
    assert 2 + (TwoTo64 - 2) == TwoTo64;
  }

  /** A round whose pairs are all cleared goes on at `next`. */
  lemma StepSucceeds(d: Data, args: seq<Bytes>, i: nat, next: nat)
    requires |args| >= 4 && i + 2 < |args|
    requires ValidateToken(args[i])
    requires IntervalsFrom(d, args[i], args, i + 2, next).1 == Success
    ensures StepTo(d, args, i, next) == Next(IntervalsFrom(d, args[i], args, i + 2, next).0, next)
  {
  }

  /** A round in which a pair is refused stops with that pair's outcome. */
  lemma StepFails(d: Data, args: seq<Bytes>, i: nat, next: nat)
    requires |args| >= 4 && i + 2 < |args|
    requires ValidateToken(args[i])
    requires IntervalsFrom(d, args[i], args, i + 2, next).1.Failure?
    ensures StepTo(d, args, i, next) == Stop(IntervalsFrom(d, args[i], args, i + 2, next).0, IntervalsFrom(d, args[i], args, i + 2, next).1)
  {
  }

  /**
   * With the intended arithmetic a token announcing more pairs than follow
   * it (two or more, here one) stops the list with the error, whatever the
   * count, 2^63 - 1 included.
   */
  lemma IndexStepCorrected(d: Data, tokenID: Bytes, count: uint64)
    requires ValidateToken(tokenID)
    requires count >= 2
    ensures DeleteFrom(d, [tokenID, ToBE(count), ToBE(1), ToBE(1)], 0).1 == Failure(ErrInvalidNumOfArgs)
  {
    OverlongListArgs(tokenID, count);
    FirstRoundStopsList(d, [tokenID, ToBE(count), ToBE(1), ToBE(1)]);
  }

  /** The list of the example reads back as the token, the count and the pair (1, 1). */
  lemma OverlongListArgs(tokenID: Bytes, count: uint64)
    ensures var args := [tokenID, ToBE(count), ToBE(1), ToBE(1)];
      args[0] == tokenID && Uint64Of(args[1]) == count && Uint64Of(args[2]) == 1 && Uint64Of(args[3]) == 1
  {
    FromBEToBE(count);
    FromBEToBE(1);
  }

  /** A list whose first round stops ends there, with that round's outcome. */
  lemma FirstRoundStopsList(d: Data, args: seq<Bytes>)
    requires |args| == 4 && ValidateToken(args[0])
    requires Uint64Of(args[1]) >= 2 && Uint64Of(args[2]) == 1 && Uint64Of(args[3]) == 1
    ensures DeleteFrom(d, args, 0).1 == Failure(ErrInvalidNumOfArgs)
  {
    FirstRoundStops(d, args);
  }

  lemma FirstRoundStops(d: Data, args: seq<Bytes>)
    requires |args| == 4 && ValidateToken(args[0])
    requires Uint64Of(args[1]) >= 2 && Uint64Of(args[2]) == 1 && Uint64Of(args[3]) == 1
    ensures var r := IntendedStep(d, args, 0);
      r.Stop? && r.status == Failure(ErrInvalidNumOfArgs)
  {
    var stop := 2 + NumIntervals(args, 0) * 2;
    PairsRunOut(d, args[0], args, stop);
    StepFails(d, args, 0, stop);
  }

  /** One pair (1, 1) and no more: a list that announces more pairs stops with the error. */
  lemma PairsRunOut(d: Data, tokenID: Bytes, args: seq<Bytes>, stop: nat)
    requires |args| == 4 && stop > 4
    requires Uint64Of(args[2]) == 1 && Uint64Of(args[3]) == 1
    ensures IntervalsFrom(d, tokenID, args, 2, stop).1 == Failure(ErrInvalidNumOfArgs)
  {
    var d' := ClearedInterval(d, TokenKey(tokenID), 1, 1);
    assert IntervalSpec(d, tokenID, 1, 1) == Ok(d');
    assert IntervalsFrom(d', tokenID, args, 4, stop) == (d', Failure(ErrInvalidNumOfArgs));
  }

  /** Wherever the uint64 sum does not wrap, the round as written is the intended one. */
  lemma StepAgreesWithoutWrap(d: Data, args: seq<Bytes>, i: uint64)
    requires |args| >= 4 && i + 1 < |args|
    requires i + 2 + NumIntervals(args, i) * 2 < TwoTo64
    ensures StepAsWritten(d, args, i) == IntendedStep(d, args, i)
  {
  }

  // ---------------------------------------------------------------------
  // Finding: the nonce loop of an interval ending at the largest uint64

  /**
   * The nonces the interval loop visits in its first `fuel` rounds as
   * written: it runs while `nonce <= end` and increments a uint64, which
   * wraps to 0 after the largest value.
   */
  function NoncesVisitedAsWritten(nonce: uint64, end: uint64, fuel: nat): seq<uint64>
    decreases fuel
  {
    if fuel == 0 || nonce > end then []
    else [nonce] + NoncesVisitedAsWritten(Wrap64(nonce + 1) as uint64, end, fuel - 1)
  }

  /**
   * As written, an interval ending at 2^64 - 1 never stops: every bound on the
   * rounds is reached, and after the last nonce the loop goes on at nonce 0,
   * whose key is the token key itself.
   */
  lemma {:induction false} NonceLoopNeverEndsAsWritten(nonce: uint64, fuel: nat)
    ensures |NoncesVisitedAsWritten(nonce, MaxUint64, fuel)| == fuel
    decreases fuel
  {
    if fuel > 0 {
      NonceLoopNeverEndsAsWritten(Wrap64(nonce + 1) as uint64, fuel - 1);
    }
  }

  /** After the largest nonce the loop as written goes on at nonce 0, whose key is the token key itself. */
  lemma NonceLoopWrapsToTokenKey(tokenID: Bytes)
    ensures NoncesVisitedAsWritten(MaxUint64, MaxUint64, 2) == [MaxUint64, 0]
    ensures NFTTokenKey(TokenKey(tokenID), 0) == TokenKey(tokenID)
  {
    assert NoncesVisitedAsWritten(0, MaxUint64, 0) == [];
  }

  /** The corrected loop clears an interval ending at the largest uint64 and stops. */
  lemma LastIntervalCorrected(d: Data, tokenID: Bytes, start: uint64)
    requires 0 < start
    ensures IntervalSpec(d, tokenID, start, MaxUint64).Ok?
    ensures var r := IntervalSpec(d, tokenID, start, MaxUint64).value;
      && NFTTokenKey(TokenKey(tokenID), MaxUint64) !in r
      && (TokenKey(tokenID) in d ==> TokenKey(tokenID) in r)
  {
    ClearedIntervalExactly(d, TokenKey(tokenID), start, MaxUint64);
    assert forall n: nat :: start <= n ==> NFTTokenKey(TokenKey(tokenID), n) != TokenKey(tokenID);
  }

  // ---------------------------------------------------------------------
  // Properties of adding

  /** The mirror of an addition's nonce carries the metadata of the addition. */
  predicate Installed(d: Data, decode: Bytes -> Option<MetaData>, tokenID: Bytes, nonceArg: Bytes, metaArg: Bytes)
  {
    var key := NFTTokenKey(TokenKey(tokenID), Uint64Of(nonceArg));
    && decode(metaArg).Some?
    && key in d && d[key].Token? && d[key].token.metaData == decode(metaArg)
  }

  /** Metadata once installed stays: a later addition to the same nonce is refused, not applied. */
  lemma {:induction false} AddEachKeepsInstalled(d: Data, decode: Bytes -> Option<MetaData>, args: seq<Bytes>, t: Bytes, n: Bytes, m: Bytes)
    requires |args| % ArgsPerAdd == 0
    requires Installed(d, decode, t, n, m)
    ensures Installed(AddEach(d, decode, args).0, decode, t, n, m)
    decreases |args|
  {
    if |args| > 0 {
      var e := AddEntry(d, decode, args[0], args[1], args[2]);
      if e.Ok? {
        AddEachKeepsInstalled(e.value, decode, args[ArgsPerAdd..], t, n, m);
      }
    }
  }

  /**
   * A successful addition installs the metadata of every triple on its
   * nonce's mirror.
   */
  lemma {:induction false} AddEachInstallsAll(d: Data, decode: Bytes -> Option<MetaData>, args: seq<Bytes>)
    requires |args| % ArgsPerAdd == 0
    requires AddEach(d, decode, args).1 == Success
    ensures forall j :: 0 <= j && j + 2 < |args| && j % ArgsPerAdd == 0 ==>
      Installed(AddEach(d, decode, args).0, decode, args[j], args[j + 1], args[j + 2])
    decreases |args|
  {
    if |args| > 0 {
      var d' := AddEntry(d, decode, args[0], args[1], args[2]).value;
      var rest := args[ArgsPerAdd..];
      AddEachInstallsAll(d', decode, rest);
      AddEachKeepsInstalled(d', decode, rest, args[0], args[1], args[2]);
      forall j | 0 <= j && j + 2 < |args| && j % ArgsPerAdd == 0
        ensures Installed(AddEach(d, decode, args).0, decode, args[j], args[j + 1], args[j + 2])
      {
        if j > 0 {
          assert args[j] == rest[j - 3] && args[j + 1] == rest[j - 2] && args[j + 2] == rest[j - 1];
        }
      }
    }
  }

  /** Adding is not repeatable: once the additions succeeded, the same call is refused. */
  lemma AddNotRepeatable(d: Data, decode: Bytes -> Option<MetaData>, args: seq<Bytes>)
    requires |args| % ArgsPerAdd == 0 && |args| > 0
    requires AddEach(d, decode, args).1 == Success
    ensures AddEach(AddEach(d, decode, args).0, decode, args) == (AddEach(d, decode, args).0, Failure(ErrTokenHasValidMetadata))
  {
    AddEachInstallsAll(d, decode, args);
    assert Installed(AddEach(d, decode, args).0, decode, args[0], args[1], args[2]);
  }
}
