/**
 * The transfer of several tokens, fungible or not, in one call. The call
 * names a count and then, per token, its name, its nonce and its value. On the
 * sender's shard each entry is taken from the sender and either given to a
 * destination in the same shard or dropped from the liquidity, then one call
 * carrying every entry is forwarded; on the destination's shard that call
 * credits every entry to the destination.
 */
module MultiTransfer {

  import opened Encoding
  import opened Wrappers
  import opened Store
  import opened Vm
  import opened LogsAndEvents
  import opened ArgChecks
  import opened Names
  import opened MectMetaData
  import opened MectTransfer
  import opened DataStorage
  import opened NftTransfer

  /** Fewer arguments than this are refused on both shards. */
  const MinLenArgumentsMultiTransfer: nat := 4

  /** One entry of the call: the token name, its nonce and its value argument. */
  datatype Triple = Triple(tokenName: Bytes, nonce: uint64, valueArg: Bytes)
  {
    /** The quantity the value argument stands for. */
    function Value(): nat
    {
      FromBE(valueArg)
    }

    /** Where the holder keeps this entry's record. */
    function Key(): Bytes
    {
      NFTTokenKey(TokenKey(tokenName), nonce)
    }
  }

  function TripleAt(args: seq<Bytes>, start: nat, count: nat, i: nat): Triple
    requires EnoughArguments(count, start, |args|) && i < count
  {
    EntryInRange(count, start, |args|, i);
    var at := start + 3 * i;
    Triple(args[at], Uint64Of(args[at + 1]), args[at + 2])
  }

  /** The `count` entries that follow `start`, three arguments each. */
  function Triples(args: seq<Bytes>, start: nat, count: nat): seq<Triple>
    requires EnoughArguments(count, start, |args|)
  {
    seq(count, i requires 0 <= i < count => TripleAt(args, start, count, i))
  }

  const ForToken: Bytes := Str(" for token: ")
  const NonceWord: Bytes := Str(" nonce ")

  /**
   * `computeInsufficientQuantityMECTError`: the token's name, followed by
   * the nonce in decimal only when it is not zero.
   */
  function InsufficientQuantityError(tokenID: Bytes, nonce: uint64): (e: Error)
    ensures e.ErrInsufficientQuantity?
    ensures |e.message| >= |ForToken + tokenID| && e.message[..|ForToken + tokenID|] == ForToken + tokenID
    ensures (nonce == 0) == (e.message == ForToken + tokenID)
  {
    var suffix := if nonce > 0 then NonceWord + DecimalNat(nonce) else [];
    assert (ForToken + tokenID + suffix)[..|ForToken + tokenID|] == ForToken + tokenID;
    ErrInsufficientQuantity(ForToken + tokenID + suffix)
  }

  /** The message tells the nonce apart: two nonces of one token never give the same error. */
  lemma InsufficientQuantityNamesNonce(tokenID: Bytes, n1: uint64, n2: uint64)
    requires InsufficientQuantityError(tokenID, n1) == InsufficientQuantityError(tokenID, n2)
    ensures n1 == n2
  {
    if n1 > 0 && n2 > 0 {
      var head := |ForToken + tokenID + NonceWord|;
      var m1: Bytes := ForToken + tokenID + NonceWord + DecimalNat(n1);
      var m2: Bytes := ForToken + tokenID + NonceWord + DecimalNat(n2);
      assert InsufficientQuantityError(tokenID, n1).message == m1;
      assert InsufficientQuantityError(tokenID, n2).message == m2;
      assert m1[head..] == DecimalNat(n1);
      assert m2[head..] == DecimalNat(n2);
      DigitsValueDecimalNat(n1);
      DigitsValueDecimalNat(n2);
    }
  }

  // ---------------------------------------------------------------------
  // The sender's shard: one entry

  /** The sender, the destination when it is in this shard, and the system account's data. */
  datatype Books = Books(snd: AccountState, dst: Option<AccountState>, sys: Data)

  /** The books after one entry and the record handed on. */
  datatype Step = Step(books: Books, result: Result<MECToken>)

  /**
   * The sender's half of `transferOneTokenOnSenderShard`: a zero quantity
   * is refused, the sender's record must hold at least the quantity, and it
   * is saved with the quantity taken off. The result is the sender's data,
   * the system account's data and the record as read.
   */
  function TakeSpec(cfg: Config, env: Env, snd: AccountState, sys: Data, tp: Triple, isReturnWithError: bool)
    : (r: Result<(Data, Data, MECToken)>)
    ensures tp.Value() == 0 ==> r == Err(ErrInvalidNFTQuantity)
    ensures tp.Value() > 0 && GetNFTOnSender(cfg, snd.data, sys, TokenKey(tp.tokenName), tp.nonce).Err? ==>
      r == Err(GetNFTOnSender(cfg, snd.data, sys, TokenKey(tp.tokenName), tp.nonce).error)
    ensures var got := GetNFTOnSender(cfg, snd.data, sys, TokenKey(tp.tokenName), tp.nonce);
      tp.Value() > 0 && got.Ok? && got.value.value < tp.Value() ==> r == Err(InsufficientQuantityError(tp.tokenName, tp.nonce))
    ensures r.Ok? ==> 0 < tp.Value() <= r.value.2.value == Quantity(snd.data, tp.Key())
    ensures r.Ok? ==> Quantity(r.value.0, tp.Key()) == Quantity(snd.data, tp.Key()) - tp.Value()
  {
    var tokenKey := TokenKey(tp.tokenName);
    if tp.Value() == 0 then Err(ErrInvalidNFTQuantity)
    else match GetNFTOnSender(cfg, snd.data, sys, tokenKey, tp.nonce)
      case Err(e) => Err(e)
      case Ok(t) =>
        if t.value < tp.Value() then Err(InsufficientQuantityError(tp.tokenName, tp.nonce))
        else match SaveNFTSpec(cfg, env, snd, sys, snd.address, tokenKey, tp.nonce, t.(value := t.value - tp.Value()), false, isReturnWithError)
          case Err(e) => Err(e)
          case Ok((d, sys', _)) =>
            SenderRecordQuantity(cfg, snd.data, sys, tokenKey, tp.nonce);
            SaveSetsQuantity(cfg, env, snd, sys, snd.address, tokenKey, tp.nonce, t.(value := t.value - tp.Value()), false, isReturnWithError);
            Ok((d, sys', t))
  }

  /** A successful debit leaves the sender's record of any other key alone. */
  lemma TakeKeepsOtherKey(cfg: Config, env: Env, snd: AccountState, sys: Data, tp: Triple, isReturnWithError: bool, k: Bytes)
    requires TakeSpec(cfg, env, snd, sys, tp, isReturnWithError).Ok?
    requires k != tp.Key()
    ensures Quantity(TakeSpec(cfg, env, snd, sys, tp, isReturnWithError).value.0, k) == Quantity(snd.data, k)
  {
    var t := GetNFTOnSender(cfg, snd.data, sys, TokenKey(tp.tokenName), tp.nonce).value;
    SaveKeepsHolderRecordSmall(cfg, env, snd, sys, snd.address, TokenKey(tp.tokenName), tp.nonce, t.(value := t.value - tp.Value()), false,
                               isReturnWithError);
  }

  /**
   * The rest of `transferOneTokenOnSenderShard`, once the sender is debited:
   * the limited-transfer check, then the credit of a destination in this
   * shard or the liquidity's drop. `t` is the record handed on.
   */
  function GiveSpec(cfg: Config, env: Env, dstAddress: Bytes, books: Books, tp: Triple, t: MECToken, isReturnWithError: bool): (s: Step)
    ensures s.books.snd == books.snd
    ensures s.books.dst.Some? <==> books.dst.Some?
    ensures books.dst.Some? ==> s.books.dst.value.address == books.dst.value.address
    ensures books.dst.None? ==> s.books.dst == books.dst && (s.result.Ok? ==> s.result.value == t)
    ensures books.dst.Some? && s.result.Ok? ==> s.result.value == t.(value := t.value + Quantity(books.dst.value.data, tp.Key()))
    ensures books.dst.Some? && s.result.Ok? && Quantity(books.dst.value.data, tp.Key()) >= 0 && t.value >= 0 ==>
      Quantity(s.books.dst.value.data, tp.Key()) == Quantity(books.dst.value.data, tp.Key()) + t.value
  {
    var tokenKey := TokenKey(tp.tokenName);
    var tokenID := if cfg.checkCorrectTokenID then tp.tokenName else tokenKey;
    var limited := LimitedTransferCheck(cfg.transferRoleActive, tokenID, tokenKey, books.snd.address, dstAddress, books.sys,
                                        Some(books.snd), books.dst, isReturnWithError);
    if limited.Failure? then Step(books, Err(limited.error))
    else if books.dst.Some? then
      var c := CreditSpec(cfg, env, books.snd.address, dstAddress, books.dst.value, books.sys, t, tokenKey, tp.nonce, isReturnWithError);
      if c.result.Ok? && Quantity(books.dst.value.data, tp.Key()) >= 0 && t.value >= 0 then
        CreditMovesQuantity(cfg, env, books.snd.address, dstAddress, books.dst.value, books.sys, t, tokenKey, tp.nonce, isReturnWithError, tp.Key());
        Step(Books(books.snd, Some(AccountState(books.dst.value.address, c.dst)), c.sys), c.result)
      else Step(Books(books.snd, Some(AccountState(books.dst.value.address, c.dst)), c.sys), c.result)
    else match LiquiditySpec(cfg, books.sys, tokenKey, tp.nonce, -(tp.Value() as int))
      case Err(e) => Step(books, Err(e))
      case Ok(sys') => Step(books.(sys := sys'), Ok(t))
  }

  /** `transferOneTokenOnSenderShard` as a value: the record handed on carries the quantity sent. */
  function OneSpec(cfg: Config, env: Env, dstAddress: Bytes, books: Books, tp: Triple, isReturnWithError: bool): (s: Step)
    ensures s.books.snd.address == books.snd.address
    ensures s.books.dst.Some? <==> books.dst.Some?
    ensures books.dst.Some? ==> s.books.dst.value.address == books.dst.value.address
    ensures books.dst.None? && s.result.Ok? ==> s.result.value.value == tp.Value()
    ensures s.result.Ok? ==> Quantity(s.books.snd.data, tp.Key()) == Quantity(books.snd.data, tp.Key()) - tp.Value()
    ensures books.dst.Some? && s.result.Ok? && Quantity(books.dst.value.data, tp.Key()) >= 0 ==>
      Quantity(s.books.dst.value.data, tp.Key()) == Quantity(books.dst.value.data, tp.Key()) + tp.Value()
  {
    match TakeSpec(cfg, env, books.snd, books.sys, tp, isReturnWithError)
      case Err(e) => Step(books, Err(e))
      case Ok((d, sys', t)) =>
        GiveSpec(cfg, env, dstAddress, Books(AccountState(books.snd.address, d), books.dst, sys'), tp, t.(value := tp.Value()), isReturnWithError)
  }

  /**
   * One entry, key by key: the sender's record of the entry's key drops by
   * the entry's value, a destination in this shard gains exactly that value,
   * and every other key keeps its quantity on both accounts.
   */
  lemma OneSpecMoves(cfg: Config, env: Env, dstAddress: Bytes, books: Books, tp: Triple, isReturnWithError: bool, k: Bytes)
    requires OneSpec(cfg, env, dstAddress, books, tp, isReturnWithError).result.Ok?
    ensures var s, moved := OneSpec(cfg, env, dstAddress, books, tp, isReturnWithError), if k == tp.Key() then tp.Value() else 0;
      && Quantity(s.books.snd.data, k) == Quantity(books.snd.data, k) - moved
      && (books.dst.Some? && Quantity(books.dst.value.data, k) >= 0 ==>
            Quantity(s.books.dst.value.data, k) == Quantity(books.dst.value.data, k) + moved)
  {
    if k != tp.Key() {
      TakeKeepsOtherKey(cfg, env, books.snd, books.sys, tp, isReturnWithError, k);
      if books.dst.Some? {
        var (d, sys', t) := TakeSpec(cfg, env, books.snd, books.sys, tp, isReturnWithError).value;
        CreditMovesQuantity(cfg, env, books.snd.address, dstAddress, books.dst.value, sys', t.(value := tp.Value()), TokenKey(tp.tokenName),
                            tp.nonce, isReturnWithError, k);
      }
    }
  }

  method TakeFromSender(cfg: Config, env: Env, acntSnd: Account, sys: Account, tp: Triple, isReturnWithError: bool)
    returns (r: Result<MECToken>)
    requires acntSnd != sys
    modifies acntSnd, sys
    ensures var spec := TakeSpec(cfg, env, old(acntSnd.State()), old(sys.data), tp, isReturnWithError);
      && (spec.Err? ==> r == Err(spec.error) && acntSnd.data == old(acntSnd.data) && sys.data == old(sys.data))
      && (spec.Ok? ==> r == Ok(spec.value.2) && acntSnd.data == spec.value.0 && sys.data == spec.value.1)
  {
    var value := tp.Value();
    if value == 0 {
      return Err(ErrInvalidNFTQuantity);
    }
    var tokenKey := TokenKey(tp.tokenName);
    var got := GetNFTOnSender(cfg, acntSnd.data, sys.data, tokenKey, tp.nonce);
    if got.Err? {
      return Err(got.error);
    }
    var t := got.value;
    if t.value < value {
      return Err(InsufficientQuantityError(tp.tokenName, tp.nonce));
    }
    var saved := SaveMECTNFTToken(cfg, env, acntSnd.address, acntSnd, sys, tokenKey, tp.nonce, t.(value := t.value - value), false, isReturnWithError);
    if saved.Err? {
      return Err(saved.error);
    }
    return Ok(t);
  }

  method GiveToDestination(cfg: Config, env: Env, dstAddress: Bytes, acntSnd: Account, acntDst: Account?, sys: Account, tp: Triple,
                           t: MECToken, isReturnWithError: bool) returns (r: Result<MECToken>)
    requires acntSnd != sys && acntDst != sys && acntSnd != acntDst
    modifies acntDst, sys
    ensures var s := GiveSpec(cfg, env, dstAddress, old(Books(acntSnd.State(), StateOf(acntDst), sys.data)), tp, t, isReturnWithError);
      && StateOf(acntDst) == s.books.dst && sys.data == s.books.sys && r == s.result
  {
    var tokenKey := TokenKey(tp.tokenName);
    var tokenID := if cfg.checkCorrectTokenID then tp.tokenName else tokenKey;
    var limited := CheckIfTransferCanHappenWithLimitedTransfer(cfg.transferRoleActive, tokenID, tokenKey, acntSnd.address, dstAddress,
                                                               sys.data, acntSnd, acntDst, isReturnWithError);
    if limited.Failure? {
      return Err(limited.error);
    }
    if acntDst != null {
      r := AddNFTToDestination(cfg, env, acntSnd.address, dstAddress, acntDst, sys, t, tokenKey, tp.nonce, isReturnWithError);
      return;
    }
    var s := AddToLiquiditySystemAcc(cfg, sys, tokenKey, tp.nonce, -(tp.Value() as int));
    if s.Failure? {
      return Err(s.error);
    }
    return Ok(t);
  }

  /** `transferOneTokenOnSenderShard`: returns the record handed on. */
  method TransferOneTokenOnSenderShard(cfg: Config, env: Env, dstAddress: Bytes, acntSnd: Account, acntDst: Account?, sys: Account,
                                       tp: Triple, isReturnWithError: bool) returns (r: Result<MECToken>)
    requires acntSnd != sys && acntDst != sys && acntSnd != acntDst
    modifies acntSnd, acntDst, sys
    ensures var s := OneSpec(cfg, env, dstAddress, old(Books(acntSnd.State(), StateOf(acntDst), sys.data)), tp, isReturnWithError);
      && acntSnd.data == s.books.snd.data && StateOf(acntDst) == s.books.dst && sys.data == s.books.sys && r == s.result
  {
    var taken := TakeFromSender(cfg, env, acntSnd, sys, tp, isReturnWithError);
    if taken.Err? {
      return Err(taken.error);
    }
    r := GiveToDestination(cfg, env, dstAddress, acntSnd, acntDst, sys, tp, taken.value.(value := tp.Value()), isReturnWithError);
  }

  // ---------------------------------------------------------------------
  // The sender's shard: every entry

  /** The books after the entries from `i` on and the records handed on; the first error stops, keeping what was written. */
  datatype Sent = Sent(books: Books, records: seq<MECToken>, result: Status)

  function SendFrom(cfg: Config, env: Env, dstAddress: Bytes, tps: seq<Triple>, i: nat, books: Books, isReturnWithError: bool): (s: Sent)
    requires i <= |tps|
    ensures s.books.snd.address == books.snd.address
    ensures s.books.dst.Some? <==> books.dst.Some?
    ensures books.dst.Some? ==> s.books.dst.value.address == books.dst.value.address
    ensures s.result.Success? ==> |s.records| == |tps| - i
    decreases |tps| - i, 1
  {
    if i == |tps| then Sent(books, [], Success)
    else SendAt(cfg, env, dstAddress, tps, i, books, isReturnWithError)
  }

  /** Entry `i` and those after it, for `i` in range: a separate function so that one unfolding of `SendFrom` stops here. */
  function SendAt(cfg: Config, env: Env, dstAddress: Bytes, tps: seq<Triple>, i: nat, books: Books, isReturnWithError: bool): (s: Sent)
    requires i < |tps|
    ensures s.books.snd.address == books.snd.address
    ensures s.books.dst.Some? <==> books.dst.Some?
    ensures books.dst.Some? ==> s.books.dst.value.address == books.dst.value.address
    ensures s.result.Success? ==> |s.records| == |tps| - i
    decreases |tps| - i, 0
  {
    var step := OneSpec(cfg, env, dstAddress, books, tps[i], isReturnWithError);
    if step.result.Err? then Sent(step.books, [], Failure(step.result.error))
    else
      var rest := SendFrom(cfg, env, dstAddress, tps, i + 1, step.books, isReturnWithError);
      rest.(records := [step.result.value] + rest.records)
  }

  /**
   * With the destination in another shard, the record handed on for each
   * entry carries exactly the quantity the entry moves.
   */
  lemma {:induction false} CrossShardRecordsCarryQuantities(cfg: Config, env: Env, dstAddress: Bytes, tps: seq<Triple>, i: nat, books: Books,
                                                            isReturnWithError: bool)
    requires i <= |tps| && books.dst.None?
    requires SendFrom(cfg, env, dstAddress, tps, i, books, isReturnWithError).result.Success?
    ensures var s := SendFrom(cfg, env, dstAddress, tps, i, books, isReturnWithError);
      forall j :: i <= j < |tps| ==> s.records[j - i].value == tps[j].Value()
    decreases |tps| - i
  {
    if i < |tps| {
      var s := SendFrom(cfg, env, dstAddress, tps, i, books, isReturnWithError);
      assert s == SendAt(cfg, env, dstAddress, tps, i, books, isReturnWithError);
      var step := OneSpec(cfg, env, dstAddress, books, tps[i], isReturnWithError);
      var rest := SendFrom(cfg, env, dstAddress, tps, i + 1, step.books, isReturnWithError);
      assert step.result.Ok? && s.records == [step.result.value] + rest.records;
      CrossShardRecordsCarryQuantities(cfg, env, dstAddress, tps, i + 1, step.books, isReturnWithError);
      forall j | i < j < |tps|
        ensures s.records[j - i].value == tps[j].Value()
      {
        assert s.records[j - i] == rest.records[j - (i + 1)];
      }
    }
  }

  /** The total value the entries from `i` on move under the key `k`. */
  function Moved(tps: seq<Triple>, i: nat, k: Bytes): nat
    requires i <= |tps|
    decreases |tps| - i
  {
    if i == |tps| then 0 else (if tps[i].Key() == k then tps[i].Value() else 0) + Moved(tps, i + 1, k)
  }

  /**
   * The loop of the sender's shard, key by key: when every entry has gone
   * through, the sender's record of each key has dropped by the values the
   * entries move under it, and a destination in this shard has gained
   * exactly as much.
   */
  lemma {:induction false} SendFromMoves(cfg: Config, env: Env, dstAddress: Bytes, tps: seq<Triple>, i: nat, books: Books,
                                         isReturnWithError: bool, k: Bytes)
    requires i <= |tps|
    requires SendFrom(cfg, env, dstAddress, tps, i, books, isReturnWithError).result.Success?
    ensures var s := SendFrom(cfg, env, dstAddress, tps, i, books, isReturnWithError);
      && Quantity(s.books.snd.data, k) == Quantity(books.snd.data, k) - Moved(tps, i, k)
      && (books.dst.Some? && Quantity(books.dst.value.data, k) >= 0 ==>
            Quantity(s.books.dst.value.data, k) == Quantity(books.dst.value.data, k) + Moved(tps, i, k))
    decreases |tps| - i
  {
    if i < |tps| {
      assert SendFrom(cfg, env, dstAddress, tps, i, books, isReturnWithError) == SendAt(cfg, env, dstAddress, tps, i, books, isReturnWithError);
      var step := OneSpec(cfg, env, dstAddress, books, tps[i], isReturnWithError);
      OneSpecMoves(cfg, env, dstAddress, books, tps[i], isReturnWithError, k);
      SendFromMoves(cfg, env, dstAddress, tps, i + 1, step.books, isReturnWithError, k);
    }
  }

  /** When the entries' keys are pairwise distinct, each key moves by exactly its own entry's value. */
  lemma {:induction false} MovedDistinct(tps: seq<Triple>, i: nat, j: nat)
    requires i <= j < |tps|
    requires forall a, b :: i <= a < b < |tps| ==> tps[a].Key() != tps[b].Key()
    ensures Moved(tps, i, tps[j].Key()) == tps[j].Value()
    decreases |tps| - i
  {
    if i < j {
      MovedDistinct(tps, i + 1, j);
    } else {
      MovedAbsent(tps, i + 1, tps[j].Key());
    }
  }

  /** A key no entry from `i` on names does not move. */
  lemma {:induction false} MovedAbsent(tps: seq<Triple>, i: nat, k: Bytes)
    requires i <= |tps|
    requires forall a :: i <= a < |tps| ==> tps[a].Key() != k
    ensures Moved(tps, i, k) == 0
    decreases |tps| - i
  {
    if i < |tps| {
      MovedAbsent(tps, i + 1, k);
    }
  }

  /** Proof helper, not part of the model: concatenation regroups. */
  lemma AppendAssoc<T>(a: seq<T>, b: seq<T>, c: seq<T>)
    ensures (a + b) + c == a + (b + c)
  {
  }

  /** The log entry of one entry on the sender's shard. */
  function SentEntry(caller: Bytes, dstAddress: Bytes, tp: Triple): LogEntry
  {
    NewEntryForMECT(Str(BuiltInFunctionMultiMECTNFTTransfer), tp.tokenName, tp.nonce, tp.Value(), [caller, dstAddress])
  }

  function SentEntries(caller: Bytes, dstAddress: Bytes, tps: seq<Triple>): seq<LogEntry>
  {
    seq(|tps|, j requires 0 <= j < |tps| => SentEntry(caller, dstAddress, tps[j]))
  }

  lemma SentEntriesSnoc(caller: Bytes, dstAddress: Bytes, tps: seq<Triple>, i: nat)
    requires i < |tps|
    ensures SentEntries(caller, dstAddress, tps[..i + 1]) == SentEntries(caller, dstAddress, tps[..i]) + [SentEntry(caller, dstAddress, tps[i])]
  {
  }

  /** One pass of the loop of the sender's shard: the transfer of entry `i`, then its log entry. */
  method SendEntry(cfg: Config, env: Env, caller: Bytes, dstAddress: Bytes, tps: seq<Triple>, i: nat, acntSnd: Account, acntDst: Account?,
                   sys: Account, out: VMOutput, isReturnWithError: bool) returns (r: Result<MECToken>)
    requires i < |tps|
    requires acntSnd != sys && acntDst != sys && acntSnd != acntDst
    modifies acntSnd, acntDst, sys, out
    ensures var before := SendFrom(cfg, env, dstAddress, tps, i, old(Books(acntSnd.State(), StateOf(acntDst), sys.data)), isReturnWithError);
      var now := Books(acntSnd.State(), StateOf(acntDst), sys.data);
      && (r.Err? ==> before.result == Failure(r.error) && before.books == now)
      && (r.Ok? ==> before == SendFrom(cfg, env, dstAddress, tps, i + 1, now, isReturnWithError).(
                              records := [r.value] + SendFrom(cfg, env, dstAddress, tps, i + 1, now, isReturnWithError).records))
      && out.Snapshot() == old(out.Snapshot()).(logs := old(out.logs) + (if r.Ok? then [SentEntry(caller, dstAddress, tps[i])] else []))
  {
    r := TransferOneTokenOnSenderShard(cfg, env, dstAddress, acntSnd, acntDst, sys, tps[i], isReturnWithError);
    if r.Ok? {
      AddMECTEntryInVMOutput(out, Str(BuiltInFunctionMultiMECTNFTTransfer), tps[i].tokenName, tps[i].nonce, tps[i].Value(), [caller, dstAddress]);
    }
  }

  /** After `i` entries: what is left to do leads to `total`, and `records` are the records handed on so far. */
  ghost predicate SentSoFar(cfg: Config, env: Env, dstAddress: Bytes, tps: seq<Triple>, i: nat, books: Books, isReturnWithError: bool,
                            records: seq<MECToken>, total: Sent)
    requires i <= |tps|
  {
    var cur := SendFrom(cfg, env, dstAddress, tps, i, books, isReturnWithError);
    && cur.books == total.books && cur.result == total.result
    && (total.result.Success? ==> records + cur.records == total.records)
  }

  lemma SentStep(cfg: Config, env: Env, dstAddress: Bytes, tps: seq<Triple>, i: nat, books: Books, isReturnWithError: bool,
                 records: seq<MECToken>, total: Sent, books': Books, rec: MECToken)
    requires i < |tps|
    requires SentSoFar(cfg, env, dstAddress, tps, i, books, isReturnWithError, records, total)
    requires var next := SendFrom(cfg, env, dstAddress, tps, i + 1, books', isReturnWithError);
      SendFrom(cfg, env, dstAddress, tps, i, books, isReturnWithError) == next.(records := [rec] + next.records)
    ensures SentSoFar(cfg, env, dstAddress, tps, i + 1, books', isReturnWithError, records + [rec], total)
  {
    var next := SendFrom(cfg, env, dstAddress, tps, i + 1, books', isReturnWithError);
    AppendAssoc(records, [rec], next.records);
  }

  /**
   * The loop of `processMECTNFTMultiTransferOnSenderShard`: one transfer and
   * one log entry per entry, in the order of the arguments; an error returns
   * at once, and what earlier entries wrote stays.
   */
  method SendAll(cfg: Config, env: Env, caller: Bytes, dstAddress: Bytes, tps: seq<Triple>, acntSnd: Account, acntDst: Account?,
                 sys: Account, out: VMOutput, isReturnWithError: bool) returns (r: Result<seq<MECToken>>)
    requires acntSnd != sys && acntDst != sys && acntSnd != acntDst
    modifies acntSnd, acntDst, sys, out
    ensures var s := SendFrom(cfg, env, dstAddress, tps, 0, old(Books(acntSnd.State(), StateOf(acntDst), sys.data)), isReturnWithError);
      && acntSnd.data == s.books.snd.data && StateOf(acntDst) == s.books.dst && sys.data == s.books.sys
      && (s.result.Failure? ==> r == Err(s.result.error))
      && (s.result.Success? ==> r == Ok(s.records) && out.logs == old(out.logs) + SentEntries(caller, dstAddress, tps))
    ensures out.gasRemaining == old(out.gasRemaining) && out.returnData == old(out.returnData) && out.outputAccounts == old(out.outputAccounts)
    ensures r.Ok? ==> forall k ::
      && Quantity(acntSnd.data, k) == Quantity(old(acntSnd.data), k) - Moved(tps, 0, k)
      && (acntDst != null && Quantity(old(acntDst.data), k) >= 0 ==> Quantity(acntDst.data, k) == Quantity(old(acntDst.data), k) + Moved(tps, 0, k))
  {
    ghost var books := Books(acntSnd.State(), StateOf(acntDst), sys.data);
    ghost var total := SendFrom(cfg, env, dstAddress, tps, 0, books, isReturnWithError);
    assert [] + total.records == total.records;
    r := SendLoop(cfg, env, caller, dstAddress, tps, acntSnd, acntDst, sys, out, isReturnWithError, total);
    if r.Ok? {
      assert r.value + [] == r.value;
      forall k
        ensures Quantity(total.books.snd.data, k) == Quantity(books.snd.data, k) - Moved(tps, 0, k)
        ensures books.dst.Some? && Quantity(books.dst.value.data, k) >= 0 ==>
          Quantity(total.books.dst.value.data, k) == Quantity(books.dst.value.data, k) + Moved(tps, 0, k)
      {
        SendFromMoves(cfg, env, dstAddress, tps, 0, books, isReturnWithError, k);
      }
    }
  }

  /** The loop of `SendAll`, from the state `SentSoFar` describes at its start. */
  method SendLoop(cfg: Config, env: Env, caller: Bytes, dstAddress: Bytes, tps: seq<Triple>, acntSnd: Account, acntDst: Account?,
                  sys: Account, out: VMOutput, isReturnWithError: bool, ghost total: Sent) returns (r: Result<seq<MECToken>>)
    requires acntSnd != sys && acntDst != sys && acntSnd != acntDst
    requires SentSoFar(cfg, env, dstAddress, tps, 0, Books(acntSnd.State(), StateOf(acntDst), sys.data), isReturnWithError, [], total)
    modifies acntSnd, acntDst, sys, out
    ensures r.Err? ==> total.result == Failure(r.error) && total.books == Books(acntSnd.State(), StateOf(acntDst), sys.data)
    ensures r.Ok? ==>
      SentSoFar(cfg, env, dstAddress, tps, |tps|, Books(acntSnd.State(), StateOf(acntDst), sys.data), isReturnWithError, r.value, total)
    ensures out.gasRemaining == old(out.gasRemaining) && out.returnData == old(out.returnData) && out.outputAccounts == old(out.outputAccounts)
    ensures r.Ok? ==> out.logs == old(out.logs) + SentEntries(caller, dstAddress, tps)
  {
    var records: seq<MECToken> := [];
    var i := 0;
    while i < |tps|
      invariant 0 <= i <= |tps|
      invariant SentSoFar(cfg, env, dstAddress, tps, i, Books(acntSnd.State(), StateOf(acntDst), sys.data), isReturnWithError, records, total)
      invariant out.gasRemaining == old(out.gasRemaining) && out.returnData == old(out.returnData)
      invariant out.outputAccounts == old(out.outputAccounts)
      invariant out.logs == old(out.logs) + SentEntries(caller, dstAddress, tps[..i])
    {
      var rec := SendNext(cfg, env, caller, dstAddress, tps, i, acntSnd, acntDst, sys, out, isReturnWithError, records, total);
      if rec.Err? {
        return Err(rec.error);
      }
      SentLogsStep(old(out.logs), caller, dstAddress, tps, i);
      records := records + [rec.value];
      i := i + 1;
    }
    assert tps[..i] == tps;
    return Ok(records);
  }

  lemma SentLogsStep(logs: seq<LogEntry>, caller: Bytes, dstAddress: Bytes, tps: seq<Triple>, i: nat)
    requires i < |tps|
    ensures logs + SentEntries(caller, dstAddress, tps[..i]) + [SentEntry(caller, dstAddress, tps[i])]
            == logs + SentEntries(caller, dstAddress, tps[..i + 1])
  {
    SentEntriesSnoc(caller, dstAddress, tps, i);
    AppendAssoc(logs, SentEntries(caller, dstAddress, tps[..i]), [SentEntry(caller, dstAddress, tps[i])]);
  }

  /** One pass of the loop with its bookkeeping: entry `i` moves the loop on to `i + 1`, or stops it where the specification does. */
  method SendNext(cfg: Config, env: Env, caller: Bytes, dstAddress: Bytes, tps: seq<Triple>, i: nat, acntSnd: Account, acntDst: Account?,
                  sys: Account, out: VMOutput, isReturnWithError: bool, ghost records: seq<MECToken>, ghost total: Sent)
    returns (r: Result<MECToken>)
    requires i < |tps|
    requires acntSnd != sys && acntDst != sys && acntSnd != acntDst
    requires SentSoFar(cfg, env, dstAddress, tps, i, Books(acntSnd.State(), StateOf(acntDst), sys.data), isReturnWithError, records, total)
    modifies acntSnd, acntDst, sys, out
    ensures r.Err? ==> total.result == Failure(r.error) && total.books == Books(acntSnd.State(), StateOf(acntDst), sys.data)
    ensures r.Ok? ==>
      SentSoFar(cfg, env, dstAddress, tps, i + 1, Books(acntSnd.State(), StateOf(acntDst), sys.data), isReturnWithError, records + [r.value], total)
    ensures out.gasRemaining == old(out.gasRemaining) && out.returnData == old(out.returnData) && out.outputAccounts == old(out.outputAccounts)
    ensures out.logs == old(out.logs) + (if r.Ok? then [SentEntry(caller, dstAddress, tps[i])] else [])
  {
    ghost var books := Books(acntSnd.State(), StateOf(acntDst), sys.data);
    r := SendEntry(cfg, env, caller, dstAddress, tps, i, acntSnd, acntDst, sys, out, isReturnWithError);
    if r.Ok? {
      SentStep(cfg, env, dstAddress, tps, i, books, isReturnWithError, records, total, Books(acntSnd.State(), StateOf(acntDst), sys.data), r.value);
    }
  }

  // ---------------------------------------------------------------------
  // The forwarded call

  /** The nonce argument of the forwarded call: the minimal bytes, a single zero byte for nonce zero. It reads back as the nonce. */
  function NonceArg(nonce: uint64): (b: Bytes)
    ensures |b| > 0 && Uint64Of(b) == nonce
  {
    FromBEToBE(nonce);
    if nonce > 0 then ToBE(nonce) else [0]
  }

  /**
   * What the forwarded value argument of one entry may be: the marshalled
   * record of a non-fungible entry, or the quantity itself when it is
   * fungible or is neither one nor too long for the short form.
   */
  predicate Carries(env: Env, tp: Triple, rec: MECToken, arg: Bytes)
  {
    || (tp.nonce > 0 && arg == env.marshal(rec))
    || (arg == ToBE(tp.Value()) && (tp.nonce == 0 || (tp.Value() != 1 && |ToBE(tp.Value())| <= MaxLengthForValueToOptTransfer)))
  }

  /** The arguments one or more entries add to the forwarded call, the system data and the gas left. */
  datatype Packed = Packed(sys: Data, gasRemaining: nat, args: seq<Bytes>, result: Status)

  /**
   * One entry of `createMECTNFTOutputTransfers`: a non-fungible entry marks
   * the destination's shard; the record is forwarded, and its bytes paid
   * for, unless that shard already had the metadata and the quantity is
   * neither one nor long.
   */
  function PackOne(cfg: Config, env: Env, dstAddress: Bytes, sys: Data, gas: nat, tp: Triple, rec: MECToken): (p: Packed)
    ensures p.gasRemaining <= gas
    ensures p.result.Success? ==> |p.args| == ArgumentsPerTransfer && p.args[0] == tp.tokenName && p.args[1] == NonceArg(tp.nonce)
    ensures p.result.Success? ==> Carries(env, tp, rec, p.args[2])
    ensures p.result.Success? && p.args[2] != env.marshal(rec) ==> p.gasRemaining == gas
    ensures var w := WasAlreadySentSpec(cfg, env, sys, tp.tokenName, tp.nonce, dstAddress);
      p.result.Success? && tp.nonce > 0 && w.Ok? && !w.value.1 ==>
      p.args[2] == env.marshal(rec)
  {
    var head := [tp.tokenName, NonceArg(tp.nonce)];
    if tp.nonce == 0 then Packed(sys, gas, head + [ToBE(tp.Value())], Success)
    else match WasAlreadySentSpec(cfg, env, sys, tp.tokenName, tp.nonce, dstAddress)
      case Err(e) => Packed(sys, gas, [], Failure(e))
      case Ok((sys', sent)) =>
        if !sent || tp.Value() == 1 || |ToBE(tp.Value())| > MaxLengthForValueToOptTransfer then
          var payload := env.marshal(rec);
          var cost := Wrap64(|payload| * env.dataCopyPerByte);
          if cost > gas then Packed(sys', gas, [], Failure(ErrNotEnoughGas))
          else Packed(sys', gas - cost, head + [payload], Success)
        else Packed(sys', gas, head + [ToBE(tp.Value())], Success)
  }

  /** `args` lays out the entries from `i` on, in order, three arguments each. */
  predicate LaidOut(env: Env, tps: seq<Triple>, records: seq<MECToken>, i: nat, args: seq<Bytes>)
    requires |records| == |tps| && i <= |tps|
    decreases |tps| - i
  {
    if i == |tps| then args == []
    else
      && |args| >= 3
      && args[0] == tps[i].tokenName && args[1] == NonceArg(tps[i].nonce) && Carries(env, tps[i], records[i], args[2])
      && LaidOut(env, tps, records, i + 1, args[3..])
  }

  /** The entries from `i` on: each entry's arguments, in order, and the gas left. */
  function PackFrom(cfg: Config, env: Env, dstAddress: Bytes, tps: seq<Triple>, records: seq<MECToken>, i: nat, sys: Data, gas: nat): (p: Packed)
    requires |records| == |tps| && i <= |tps|
    ensures p.gasRemaining <= gas
    ensures p.result.Success? ==> LaidOut(env, tps, records, i, p.args)
    decreases |tps| - i
  {
    if i == |tps| then Packed(sys, gas, [], Success)
    else
      var one := PackOne(cfg, env, dstAddress, sys, gas, tps[i], records[i]);
      if one.result.Failure? then one
      else
        var rest := PackFrom(cfg, env, dstAddress, tps, records, i + 1, one.sys, one.gasRemaining);
        assert (one.args + rest.args)[3..] == rest.args;
        rest.(args := one.args + rest.args)
  }

  /** The three arguments of entry `tp` with record `rec` start at `at`. */
  predicate EntryAt(env: Env, tp: Triple, rec: MECToken, args: seq<Bytes>, at: nat)
  {
    at + 2 < |args| && args[at] == tp.tokenName && args[at + 1] == NonceArg(tp.nonce) && Carries(env, tp, rec, args[at + 2])
  }

  /** Entry `j` sits at three times its place among the laid-out entries. */
  lemma {:induction false} LaidOutAt(env: Env, tps: seq<Triple>, records: seq<MECToken>, i: nat, args: seq<Bytes>, j: nat)
    requires |records| == |tps| && i <= j < |tps|
    requires LaidOut(env, tps, records, i, args)
    ensures |args| == 3 * (|tps| - i)
    ensures EntryAt(env, tps[j], records[j], args, 3 * (j - i))
    decreases j - i
  {
    LaidOutLength(env, tps, records, i, args);
    LaidOutHead(env, tps, records, i, args);
    if j > i {
      LaidOutAt(env, tps, records, i + 1, args[3..], j);
      EntryShift(env, tps[j], records[j], args, 3 * (j - (i + 1)));
    }
  }

  /** An entry found after the first three arguments is found three places later in the whole list. */
  lemma EntryShift(env: Env, tp: Triple, rec: MECToken, args: seq<Bytes>, at: nat)
    requires 3 <= |args| && EntryAt(env, tp, rec, args[3..], at)
    ensures EntryAt(env, tp, rec, args, at + 3)
  {
    assert args[3..][at + 2] == args[at + 5];
  }

  /** The first entry laid out, and the rest after its three arguments. */
  lemma LaidOutHead(env: Env, tps: seq<Triple>, records: seq<MECToken>, i: nat, args: seq<Bytes>)
    requires |records| == |tps| && i < |tps|
    requires LaidOut(env, tps, records, i, args)
    ensures |args| >= 3
    ensures EntryAt(env, tps[i], records[i], args, 0)
    ensures LaidOut(env, tps, records, i + 1, args[3..])
  {
  }

  lemma {:induction false} LaidOutLength(env: Env, tps: seq<Triple>, records: seq<MECToken>, i: nat, args: seq<Bytes>)
    requires |records| == |tps| && i <= |tps|
    requires LaidOut(env, tps, records, i, args)
    ensures |args| == 3 * (|tps| - i)
    decreases |tps| - i
  {
    if i < |tps| {
      LaidOutLength(env, tps, records, i + 1, args[3..]);
    }
  }

  /** The arguments of the forwarded call: the count, the packed entries, then what follows the entries in the call. */
  function MultiCallArgs(input: CallInput, count: nat, packed: seq<Bytes>): seq<Bytes>
  {
    var minNum := 3 * count + 2;
    [ToBE(count)] + packed + (if |input.arguments| > minNum then input.arguments[minNum..] else [])
  }

  /**
   * The calls `createMECTNFTOutputTransfers` adds once the entries are
   * packed: a destination in another shard gets the multi-transfer call,
   * with all remaining gas when a contract call follows; a destination in
   * this shard gets the contract call, if one follows.
   */
  function MultiRouteSpec(env: Env, input: CallInput, dstAddress: Bytes, count: nat, callArgs: seq<Bytes>, o: Output): (r: Result<Output>)
    ensures r.Ok? ==> r.value.logs == o.logs && r.value.returnData == o.returnData
    ensures o.outputAccounts == map[] && r.Ok? ==>
      && r.value.outputAccounts.Keys <= {dstAddress}
      && r.value.gasRemaining + ForwardedGas(r.value, dstAddress) == o.gasRemaining
    ensures !env.SameShard(dstAddress) ==>
      && r.Ok? && r.value.outputAccounts.Keys == {dstAddress}
      && |r.value.outputAccounts[dstAddress].outputTransfers| == 1
      && r.value.outputAccounts[dstAddress].outputTransfers[0].data == TransferTxData(Str(BuiltInFunctionMultiMECTNFTTransfer), callArgs)
  {
    var args := input.arguments;
    var minNum := 3 * count + 2;
    var isSCCallAfter := env.isSCCallAfter(input, dstAddress, minNum);
    if !env.SameShard(dstAddress) then
      var gasToTransfer := if isSCCallAfter then o.gasRemaining else 0;
      Ok(WithNFTTransfer(o.(gasRemaining := o.gasRemaining - gasToTransfer), input.callerAddr, dstAddress,
                         Str(BuiltInFunctionMultiMECTNFTTransfer), callArgs, input.gasLocked, gasToTransfer, input.callType))
    else if !isSCCallAfter then Ok(o)
    else if |args| <= minNum then Err(ErrRuntimePanic)
    else Ok(WithOutputTransfer(o, input.callerAddr, args[minNum], args[minNum + 1..], dstAddress, input.gasLocked, input.callType))
  }

  method AddMultiTransferOutputs(env: Env, input: CallInput, dstAddress: Bytes, count: nat, callArgs: seq<Bytes>, out: VMOutput)
    returns (s: Status)
    modifies out
    ensures var r := MultiRouteSpec(env, input, dstAddress, count, callArgs, old(out.Snapshot()));
      && (r.Err? ==> s == Failure(r.error))
      && (r.Ok? ==> s == Success && out.Snapshot() == r.value)
  {
    var args := input.arguments;
    var minNum := 3 * count + 2;
    var isSCCallAfter := env.isSCCallAfter(input, dstAddress, minNum);
    if !env.SameShard(dstAddress) {
      var gasToTransfer := 0;
      if isSCCallAfter {
        gasToTransfer := out.gasRemaining;
        out.gasRemaining := 0;
      }
      AddNFTTransferToVMOutput(input.callerAddr, dstAddress, Str(BuiltInFunctionMultiMECTNFTTransfer), callArgs,
                               input.gasLocked, gasToTransfer, input.callType, out);
      return Success;
    }
    if isSCCallAfter {
      if |args| <= minNum {
        return Failure(ErrRuntimePanic);
      }
      AddOutputTransferToVMOutput(input.callerAddr, args[minNum], args[minNum + 1..], dstAddress, input.gasLocked, input.callType, out);
    }
    return Success;
  }

  /** `createMECTNFTOutputTransfers` as a value. */
  function MultiOutputsSpec(cfg: Config, env: Env, input: CallInput, dstAddress: Bytes, tps: seq<Triple>, records: seq<MECToken>,
                            sys: Data, o: Output): (f: Forward)
    requires |records| == |tps|
    ensures f.result.Ok? ==> f.result.value.logs == o.logs
    ensures o.outputAccounts == map[] && f.result.Ok? ==>
      f.result.value.gasRemaining + ForwardedGas(f.result.value, dstAddress) <= o.gasRemaining
  {
    var p := PackFrom(cfg, env, dstAddress, tps, records, 0, sys, o.gasRemaining);
    if p.result.Failure? then Forward(p.sys, Err(p.result.error))
    else Forward(p.sys, MultiRouteSpec(env, input, dstAddress, |tps|, MultiCallArgs(input, |tps|, p.args), o.(gasRemaining := p.gasRemaining)))
  }

  /** One pass of the loop of `createMECTNFTOutputTransfers`: the three arguments of one entry. */
  method PackEntry(cfg: Config, env: Env, dstAddress: Bytes, sys: Account, out: VMOutput, tp: Triple, rec: MECToken)
    returns (s: Status, args: seq<Bytes>)
    modifies sys, out
    ensures var p := PackOne(cfg, env, dstAddress, old(sys.data), old(out.gasRemaining), tp, rec);
      && sys.data == p.sys && s == p.result
      && out.Snapshot() == old(out.Snapshot()).(gasRemaining := out.gasRemaining)
      && (p.result.Success? ==> out.gasRemaining == p.gasRemaining && args == p.args)
  {
    args := [tp.tokenName, NonceArg(tp.nonce)];
    if tp.nonce == 0 {
      return Success, args + [ToBE(tp.Value())];
    }
    var sent := WasAlreadySentToDestinationShardAndUpdateState(cfg, env, sys, tp.tokenName, tp.nonce, dstAddress);
    if sent.Err? {
      return Failure(sent.error), [];
    }
    if !sent.value || tp.Value() == 1 || |ToBE(tp.Value())| > MaxLengthForValueToOptTransfer {
      var payload := env.marshal(rec);
      var gasForTransfer := Wrap64(|payload| * env.dataCopyPerByte);
      if gasForTransfer > out.gasRemaining {
        return Failure(ErrNotEnoughGas), [];
      }
      out.gasRemaining := out.gasRemaining - gasForTransfer;
      return Success, args + [payload];
    }
    return Success, args + [ToBE(tp.Value())];
  }

  /** `createMECTNFTOutputTransfers`. */
  method CreateMultiOutputTransfers(cfg: Config, env: Env, input: CallInput, dstAddress: Bytes, tps: seq<Triple>, records: seq<MECToken>,
                                    sys: Account, out: VMOutput) returns (s: Status)
    requires |records| == |tps|
    modifies sys, out
    ensures var f := MultiOutputsSpec(cfg, env, input, dstAddress, tps, records, old(sys.data), old(out.Snapshot()));
      && sys.data == f.sys
      && (f.result.Err? ==> s == Failure(f.result.error))
      && (f.result.Ok? ==> s == Success && out.Snapshot() == f.result.value)
  {
    ghost var total := PackFrom(cfg, env, dstAddress, tps, records, 0, sys.data, out.gasRemaining);
    var callArgs := [ToBE(|tps|)];
    var i := 0;
    while i < |tps|
      invariant 0 <= i <= |tps|
      invariant var rest := PackFrom(cfg, env, dstAddress, tps, records, i, sys.data, out.gasRemaining);
        && rest.sys == total.sys && rest.result == total.result
        && (rest.result.Success? ==> rest.gasRemaining == total.gasRemaining && callArgs + rest.args == [ToBE(|tps|)] + total.args)
      invariant out.Snapshot() == old(out.Snapshot()).(gasRemaining := out.gasRemaining)
    {
      var st, entry := PackEntry(cfg, env, dstAddress, sys, out, tps[i], records[i]);
      if st.Failure? {
        return st;
      }
      callArgs := callArgs + entry;
      i := i + 1;
    }
    assert total.result.Success? && callArgs == [ToBE(|tps|)] + total.args;
    assert out.Snapshot() == old(out.Snapshot()).(gasRemaining := total.gasRemaining);
    var minNum := 3 * |tps| + 2;
    if |input.arguments| > minNum {
      callArgs := callArgs + input.arguments[minNum..];
    }
    assert callArgs == MultiCallArgs(input, |tps|, total.args);
    s := AddMultiTransferOutputs(env, input, dstAddress, |tps|, callArgs, out);
  }

  // ---------------------------------------------------------------------
  // The sender's shard: the whole function

  /**
   * The checks of `processMECTNFTMultiTransferOnSenderShard` before any
   * write: the destination is another address of the right length, not the
   * metachain unless that is active, the count is positive with room for all
   * its entries, and the gas covers the per-entry cost (a 64-bit product).
   */
  function SendChecks(funcGasCost: uint64, cfg: Config, env: Env, input: CallInput): (s: Status)
    requires |input.arguments| >= MinLenArgumentsMultiTransfer
    ensures s == Success ==>
      && var count := Uint64Of(input.arguments[1]);
      && |input.arguments[0]| == |input.callerAddr| && input.arguments[0] != input.callerAddr
      && count > 0 && EnoughArguments(count, 2, |input.arguments|)
      && input.gasProvided >= Wrap64(count * funcGasCost)
    ensures var count := Uint64Of(input.arguments[1]);
      (count == 0 || !EnoughArguments(count, 2, |input.arguments|)) ==> s.Failure? && s.error in {ErrInvalidArguments, ErrInvalidRcvAddr}
  {
    var args := input.arguments;
    var dstAddress := args[0];
    if |dstAddress| != |input.callerAddr| || dstAddress == input.callerAddr then Failure(ErrInvalidArguments)
    else if env.shardOf(dstAddress) == MetachainShardId && !cfg.transferToMeta then Failure(ErrInvalidRcvAddr)
    else
      var count := Uint64Of(args[1]);
      if count == 0 || !EnoughArguments(count, 2, |args|) then Failure(ErrInvalidArguments)
      else if input.gasProvided < Wrap64(count * funcGasCost) then Failure(ErrNotEnoughGas)
      else Success
  }

  /** The destination as the sender's shard sees it: loaded when it is in this shard, nil otherwise. */
  function UserAccount(env: Env, dstAddress: Bytes, loaded: AccountState): (u: Option<AccountState>)
    ensures u.Some? <==> env.SameShard(dstAddress)
    ensures u.Some? ==> u.value == loaded
  {
    if env.SameShard(dstAddress) then Some(loaded) else None
  }

  /** The accounts after the entries have left the sender, and the output built. */
  datatype Shipped = Shipped(books: Books, result: Result<Output>)

  /**
   * Once the checks have passed: every entry leaves the sender, then the
   * forwarded call is built on the gas left after the per-entry charge.
   */
  function ShipSpec(cfg: Config, env: Env, input: CallInput, dstAddress: Bytes, tps: seq<Triple>, books: Books, gas: nat): (s: Shipped)
    ensures s.books.snd.address == books.snd.address
    ensures s.books.dst.Some? <==> books.dst.Some?
    ensures books.dst.Some? ==> s.books.dst.value.address == books.dst.value.address
    ensures s.result.Ok? ==> s.result.value.logs == SentEntries(input.callerAddr, dstAddress, tps)
    ensures s.result.Ok? ==> s.result.value.gasRemaining + ForwardedGas(s.result.value, dstAddress) <= gas
  {
    var sent := SendFrom(cfg, env, dstAddress, tps, 0, books, input.returnCallAfterError);
    if sent.result.Failure? then Shipped(sent.books, Err(sent.result.error))
    else
      var o := Output(gas, [], SentEntries(input.callerAddr, dstAddress, tps), map[]);
      var f := MultiOutputsSpec(cfg, env, input, dstAddress, tps, sent.records, sent.books.sys, o);
      Shipped(sent.books.(sys := f.sys), f.result)
  }

  method Ship(cfg: Config, env: Env, input: CallInput, dstAddress: Bytes, tps: seq<Triple>, acntSnd: Account, acntDst: Account?,
              sys: Account, gas: nat) returns (r: Result<VMOutput>)
    requires acntSnd != sys && acntDst != sys && acntSnd != acntDst
    modifies acntSnd, acntDst, sys
    ensures var s := ShipSpec(cfg, env, input, dstAddress, tps, old(Books(acntSnd.State(), StateOf(acntDst), sys.data)), gas);
      && acntSnd.data == s.books.snd.data && StateOf(acntDst) == s.books.dst && sys.data == s.books.sys
      && (s.result.Err? ==> r == Err(s.result.error))
      && (s.result.Ok? ==> r.Ok? && fresh(r.value) && r.value.Snapshot() == s.result.value)
  {
    ghost var sent := SendFrom(cfg, env, dstAddress, tps, 0, Books(acntSnd.State(), StateOf(acntDst), sys.data), input.returnCallAfterError);
    var out := new VMOutput(gas);
    var records := SendAll(cfg, env, input.callerAddr, dstAddress, tps, acntSnd, acntDst, sys, out, input.returnCallAfterError);
    if records.Err? {
      return Err(records.error);
    }
    assert sent.result.Success? && records.value == sent.records;
    assert out.Snapshot() == Output(gas, [], SentEntries(input.callerAddr, dstAddress, tps), map[]);
    var s := CreateMultiOutputTransfers(cfg, env, input, dstAddress, tps, records.value, sys, out);
    if s.Failure? {
      return Err(s.error);
    }
    return Ok(out);
  }

  /**
   * `processMECTNFTMultiTransferOnSenderShard` once its checks have passed. A
   * nil sender fails on the first entry: with a zero quantity on the quantity
   * check, otherwise on the read of its record.
   */
  function SendAcceptedSpec(funcGasCost: uint64, cfg: Config, env: Env, input: CallInput, sys: Data, snd: Option<AccountState>,
                            loaded: AccountState): (o: NFTOutcome)
    requires |input.arguments| >= MinLenArgumentsMultiTransfer
    requires SendChecks(funcGasCost, cfg, env, input) == Success
    ensures o.snd.Some? <==> snd.Some?
    ensures o.dst.None?
    ensures !env.SameShard(input.arguments[0]) ==> o.loaded == loaded.data
    ensures o.result.Ok? ==> snd.Some?
  {
    var args := input.arguments;
    var dstAddress, count := args[0], Uint64Of(args[1]);
    var refusal := SendRefusal(funcGasCost, cfg, env, input, snd.Some?);
    if refusal.Some? then NFTOutcome(DataOf(snd), None, loaded.data, sys, Err(refusal.value))
    else
      ShippedOutcome(cfg, env, input, dstAddress, Triples(args, 2, count), Books(snd.value, UserAccount(env, dstAddress, loaded), sys),
                     input.gasProvided - Wrap64(count * funcGasCost), loaded)
  }

  /** The shipment as the sender's shard reports it: the loaded destination changes only when it is the one credited. */
  function ShippedOutcome(cfg: Config, env: Env, input: CallInput, dstAddress: Bytes, tps: seq<Triple>, books: Books, gas: nat,
                          loaded: AccountState): (o: NFTOutcome)
    ensures o.snd == Some(ShipSpec(cfg, env, input, dstAddress, tps, books, gas).books.snd.data) && o.dst.None?
    ensures books.dst.None? ==> o.loaded == loaded.data
  {
    var s := ShipSpec(cfg, env, input, dstAddress, tps, books, gas);
    var loadedAfter := if s.books.dst.Some? then s.books.dst.value.data else loaded.data;
    NFTOutcome(Some(s.books.snd.data), None, loadedAfter, s.books.sys, s.result)
  }

  method SendAccepted(funcGasCost: uint64, cfg: Config, env: Env, input: CallInput, sys: Account, acntSnd: Account?, loaded: Account)
    returns (r: Result<VMOutput>)
    requires |input.arguments| >= MinLenArgumentsMultiTransfer
    requires SendChecks(funcGasCost, cfg, env, input) == Success
    requires acntSnd != sys && acntSnd != loaded && loaded != sys
    modifies acntSnd, loaded, sys
    ensures var o := SendAcceptedSpec(funcGasCost, cfg, env, input, old(sys.data), old(StateOf(acntSnd)), old(loaded.State()));
      && (acntSnd != null ==> acntSnd.data == o.snd.value)
      && loaded.data == o.loaded && sys.data == o.sys
      && (o.result.Err? ==> r == Err(o.result.error))
      && (o.result.Ok? ==> r.Ok? && fresh(r.value) && r.value.Snapshot() == o.result.value)
  {
    var args := input.arguments;
    var dstAddress, count := args[0], Uint64Of(args[1]);
    var refusal := SendRefusal(funcGasCost, cfg, env, input, acntSnd != null);
    if refusal.Some? {
      SendAcceptedRefused(funcGasCost, cfg, env, input, sys.data, StateOf(acntSnd), loaded.State());
      return Err(refusal.value);
    }
    var tps := Triples(args, 2, count);
    var gas := input.gasProvided - Wrap64(count * funcGasCost);
    ghost var books := Books(acntSnd.State(), UserAccount(env, dstAddress, loaded.State()), sys.data);
    assert SendAcceptedSpec(funcGasCost, cfg, env, input, sys.data, StateOf(acntSnd), loaded.State())
      == ShippedOutcome(cfg, env, input, dstAddress, tps, books, gas, loaded.State());
    r := ShipAccepted(cfg, env, input, dstAddress, tps, acntSnd, loaded, sys, gas);
  }

  /** The sender-shard transfer once every check has passed: the destination is written only on the same shard. */
  method ShipAccepted(cfg: Config, env: Env, input: CallInput, dstAddress: Bytes, tps: seq<Triple>, acntSnd: Account, loaded: Account,
                      sys: Account, gas: nat)
    returns (r: Result<VMOutput>)
    requires acntSnd != sys && acntSnd != loaded && loaded != sys
    modifies acntSnd, loaded, sys
    ensures var o := ShippedOutcome(cfg, env, input, dstAddress, tps,
                                    Books(old(acntSnd.State()), UserAccount(env, dstAddress, old(loaded.State())), old(sys.data)),
                                    gas, old(loaded.State()));
      && acntSnd.data == o.snd.value
      && loaded.data == o.loaded && sys.data == o.sys
      && (o.result.Err? ==> r == Err(o.result.error))
      && (o.result.Ok? ==> r.Ok? && fresh(r.value) && r.value.Snapshot() == o.result.value)
  {
    ghost var user := UserAccount(env, dstAddress, loaded.State());
    ghost var loaded0 := loaded.data;
    ghost var shipped := ShipSpec(cfg, env, input, dstAddress, tps, Books(acntSnd.State(), user, sys.data), gas);
    if env.SameShard(dstAddress) {
      assert StateOf(loaded) == user;
      r := Ship(cfg, env, input, dstAddress, tps, acntSnd, loaded, sys, gas);
      assert StateOf(loaded) == shipped.books.dst;
    } else {
      r := Ship(cfg, env, input, dstAddress, tps, acntSnd, null, sys, gas);
    }
  }

  /** The error the sender's shard stops at once the argument checks have passed, if any. */
  function SendRefusal(funcGasCost: uint64, cfg: Config, env: Env, input: CallInput, hasSender: bool): (e: Option<Error>)
    requires |input.arguments| >= MinLenArgumentsMultiTransfer
    requires SendChecks(funcGasCost, cfg, env, input) == Success
    ensures e.None? <==> hasSender && (!env.SameShard(input.arguments[0]) ||
                          env.checkPayable(input, input.arguments[0], 3 * Uint64Of(input.arguments[1]) + 2))
  {
    var args := input.arguments;
    var count := Uint64Of(args[1]);
    if env.SameShard(args[0]) && !env.checkPayable(input, args[0], 3 * count + 2) then Some(ErrAccountNotPayable)
    else if !hasSender then Some(if Triples(args, 2, count)[0].Value() == 0 then ErrInvalidNFTQuantity else ErrRuntimePanic)
    else None
  }

  /** A refusal changes no account. */
  lemma SendAcceptedRefused(funcGasCost: uint64, cfg: Config, env: Env, input: CallInput, sys: Data, snd: Option<AccountState>,
                            loaded: AccountState)
    requires |input.arguments| >= MinLenArgumentsMultiTransfer
    requires SendChecks(funcGasCost, cfg, env, input) == Success
    requires SendRefusal(funcGasCost, cfg, env, input, snd.Some?).Some?
    ensures SendAcceptedSpec(funcGasCost, cfg, env, input, sys, snd, loaded) ==
      NFTOutcome(DataOf(snd), None, loaded.data, sys, Err(SendRefusal(funcGasCost, cfg, env, input, snd.Some?).value))
  {
  }

  /** `processMECTNFTMultiTransferOnSenderShard` as a value. */
  function MultiSendSpec(funcGasCost: uint64, cfg: Config, env: Env, input: CallInput, sys: Data, snd: Option<AccountState>,
                         loaded: AccountState): (o: NFTOutcome)
    requires |input.arguments| >= MinLenArgumentsMultiTransfer
    ensures o.snd.Some? <==> snd.Some?
    ensures o.dst.None?
    ensures SendChecks(funcGasCost, cfg, env, input).Failure? ==>
      o == NFTOutcome(DataOf(snd), None, loaded.data, sys, Err(SendChecks(funcGasCost, cfg, env, input).error))
    ensures o.result.Ok? ==> snd.Some? && SendChecks(funcGasCost, cfg, env, input) == Success
  {
    var checks := SendChecks(funcGasCost, cfg, env, input);
    if checks.Failure? then NFTOutcome(DataOf(snd), None, loaded.data, sys, Err(checks.error))
    else SendAcceptedSpec(funcGasCost, cfg, env, input, sys, snd, loaded)
  }

  /** Once the checks and the refusals have passed, the sender's shard ships every entry. */
  lemma SendAcceptedShips(funcGasCost: uint64, cfg: Config, env: Env, input: CallInput, sys: Data, snd: AccountState, loaded: AccountState,
                          tps: seq<Triple>, gas: nat)
    requires |input.arguments| >= MinLenArgumentsMultiTransfer
    requires SendChecks(funcGasCost, cfg, env, input) == Success
    requires SendRefusal(funcGasCost, cfg, env, input, true).None?
    requires tps == Triples(input.arguments, 2, Uint64Of(input.arguments[1]))
    requires gas == input.gasProvided - Wrap64(Uint64Of(input.arguments[1]) * funcGasCost)
    ensures SendAcceptedSpec(funcGasCost, cfg, env, input, sys, Some(snd), loaded)
              == ShippedOutcome(cfg, env, input, input.arguments[0], tps, Books(snd, UserAccount(env, input.arguments[0], loaded), sys), gas, loaded)
  {
  }

  /**
   * A successful transfer on the sender's shard, key by key: the sender's
   * record of each key drops by the values the entries move under it, and a
   * destination in this shard gains exactly as much.
   */
  lemma MultiSendMoves(funcGasCost: uint64, cfg: Config, env: Env, input: CallInput, sys: Data, snd: Option<AccountState>,
                       loaded: AccountState, k: Bytes)
    requires |input.arguments| >= MinLenArgumentsMultiTransfer
    requires MultiSendSpec(funcGasCost, cfg, env, input, sys, snd, loaded).result.Ok?
    ensures EnoughArguments(Uint64Of(input.arguments[1]), 2, |input.arguments|) && snd.Some?
    ensures var o, tps := MultiSendSpec(funcGasCost, cfg, env, input, sys, snd, loaded),
                          Triples(input.arguments, 2, Uint64Of(input.arguments[1]));
      && Quantity(o.snd.value, k) == Quantity(snd.value.data, k) - Moved(tps, 0, k)
      && (env.SameShard(input.arguments[0]) && Quantity(loaded.data, k) >= 0 ==>
            Quantity(o.loaded, k) == Quantity(loaded.data, k) + Moved(tps, 0, k))
  {
    var args := input.arguments;
    var dstAddress, count := args[0], Uint64Of(args[1]);
    var tps := Triples(args, 2, count);
    var books := Books(snd.value, UserAccount(env, dstAddress, loaded), sys);
    var gas := input.gasProvided - Wrap64(count * funcGasCost);
    assert SendChecks(funcGasCost, cfg, env, input) == Success;
    assert MultiSendSpec(funcGasCost, cfg, env, input, sys, snd, loaded) == SendAcceptedSpec(funcGasCost, cfg, env, input, sys, snd, loaded);
    SendAcceptedShips(funcGasCost, cfg, env, input, sys, snd.value, loaded, tps, gas);
    var sent := SendFrom(cfg, env, dstAddress, tps, 0, books, input.returnCallAfterError);
    assert sent.result.Success?;
    SendFromMoves(cfg, env, dstAddress, tps, 0, books, input.returnCallAfterError, k);
  }

  /**
   * `processMECTNFTMultiTransferOnSenderShard`. `loaded` is the account the
   * shard loads for a destination in this shard.
   */
  method ProcessMultiTransferOnSenderShard(funcGasCost: uint64, cfg: Config, env: Env, input: CallInput, sys: Account,
                                           acntSnd: Account?, loaded: Account) returns (r: Result<VMOutput>)
    requires |input.arguments| >= MinLenArgumentsMultiTransfer
    requires acntSnd != sys && acntSnd != loaded && loaded != sys
    modifies acntSnd, loaded, sys
    ensures var o := MultiSendSpec(funcGasCost, cfg, env, input, old(sys.data), old(StateOf(acntSnd)), old(loaded.State()));
      && (acntSnd != null ==> acntSnd.data == o.snd.value)
      && loaded.data == o.loaded && sys.data == o.sys
      && (o.result.Err? ==> r == Err(o.result.error))
      && (o.result.Ok? ==> r.Ok? && fresh(r.value) && r.value.Snapshot() == o.result.value)
  {
    var checks := SendChecks(funcGasCost, cfg, env, input);
    if checks.Failure? {
      return Err(checks.error);
    }
    r := SendAccepted(funcGasCost, cfg, env, input, sys, acntSnd, loaded);
  }

  // ---------------------------------------------------------------------
  // The destination's shard

  /**
   * The record the destination reads for a non-fungible entry: a long value
   * argument is a marshalled record, a short one a bare non-fungible quantity.
   */
  function IncomingEntryRecord(env: Env, valueArg: Bytes): Option<MECToken>
  {
    if |valueArg| > MaxLengthForValueToOptTransfer then env.unmarshal(valueArg)
    else Some(MECToken(NonFungible, FromBE(valueArg), [], None, []))
  }

  /** The destination's data and the system account's data after one entry, and the quantity logged. */
  datatype Credited = Credited(dst: Data, sys: Data, result: Result<int>)

  /**
   * One pass of the loop of the destination's shard: a non-fungible entry is
   * credited as by the single transfer, a fungible one is added to the balance.
   */
  function ReceiveOneSpec(cfg: Config, env: Env, input: CallInput, dst: AccountState, sys: Data, tp: Triple): (c: Credited)
    ensures tp.nonce == 0 ==> c.sys == sys
    ensures tp.nonce == 0 && c.result.Ok? ==> c.result.value == tp.Value() && BalanceOf(c.dst, tp.Key()) == BalanceOf(dst.data, tp.Key()) + tp.Value()
    ensures tp.nonce > 0 && c.result.Ok? ==>
      IncomingEntryRecord(env, tp.valueArg).Some? && c.result.value == IncomingEntryRecord(env, tp.valueArg).value.value
  {
    var tokenKey := TokenKey(tp.tokenName);
    if tp.nonce > 0 then
      match IncomingEntryRecord(env, tp.valueArg)
        case None => Credited(dst.data, sys, Err(ErrUnmarshal))
        case Some(t) =>
          var c := CreditSpec(cfg, env, input.callerAddr, input.recipientAddr, dst, sys, t, tokenKey, tp.nonce, input.returnCallAfterError);
          Credited(c.dst, c.sys, if c.result.Ok? then Ok(t.value) else Err(c.result.error))
    else match AddToBalanceSpec(dst, tokenKey, tp.Value(), sys, env, input.returnCallAfterError)
      case Err(e) => Credited(dst.data, sys, Err(e))
      case Ok(d) => Credited(d, sys, Ok(tp.Value()))
  }

  method ReceiveOne(cfg: Config, env: Env, input: CallInput, acntDst: Account, sys: Account, tp: Triple) returns (r: Result<int>)
    requires acntDst != sys
    modifies acntDst, sys
    ensures var c := ReceiveOneSpec(cfg, env, input, old(acntDst.State()), old(sys.data), tp);
      acntDst.data == c.dst && sys.data == c.sys && r == c.result
  {
    var tokenKey := TokenKey(tp.tokenName);
    if tp.nonce > 0 {
      var incoming := IncomingEntryRecord(env, tp.valueArg);
      if incoming.None? {
        return Err(ErrUnmarshal);
      }
      var added := AddNFTToDestination(cfg, env, input.callerAddr, input.recipientAddr, acntDst, sys, incoming.value, tokenKey, tp.nonce,
                                       input.returnCallAfterError);
      if added.Err? {
        return Err(added.error);
      }
      return Ok(incoming.value.value);
    }
    var s := AddToMECTBalance(acntDst, tokenKey, tp.Value(), sys.data, env, input.returnCallAfterError);
    if s.Failure? {
      return Err(s.error);
    }
    return Ok(tp.Value());
  }

  /** The destination's and the system account's data after the entries from `i` on, and one log entry per entry. */
  datatype Received = Received(dst: Data, sys: Data, entries: seq<LogEntry>, result: Status)

  /** The loop of the destination's shard from entry `i` on: the first error stops it, keeping the writes made before. */
  function ReceiveFrom(cfg: Config, env: Env, input: CallInput, tps: seq<Triple>, i: nat, dst: AccountState, sys: Data): (r: Received)
    requires i <= |tps|
    ensures r.result.Success? ==> |r.entries| == |tps| - i
    decreases |tps| - i, 1
  {
    if i == |tps| then Received(dst.data, sys, [], Success)
    else ReceiveAt(cfg, env, input, tps, i, dst, sys)
  }

  /** Entry `i` and those after it, for `i` in range: a separate function so that one unfolding of `ReceiveFrom` stops here. */
  function ReceiveAt(cfg: Config, env: Env, input: CallInput, tps: seq<Triple>, i: nat, dst: AccountState, sys: Data): (r: Received)
    requires i < |tps|
    ensures r.result.Success? ==> |r.entries| == |tps| - i
    decreases |tps| - i, 0
  {
    var c := ReceiveOneSpec(cfg, env, input, dst, sys, tps[i]);
    if c.result.Err? then Received(c.dst, c.sys, [], Failure(c.result.error))
    else
      var rest := ReceiveFrom(cfg, env, input, tps, i + 1, AccountState(dst.address, c.dst), c.sys);
      rest.(entries := [ReceivedEntry(input, dst.address, tps[i], c.result.value)] + rest.entries)
  }

  /** The log entry of one entry on the destination's shard, with the quantity credited. */
  function ReceivedEntry(input: CallInput, dstAddress: Bytes, tp: Triple, value: int): LogEntry
  {
    NewEntryForMECT(Str(BuiltInFunctionMultiMECTNFTTransfer), tp.tokenName, tp.nonce, value, [input.callerAddr, dstAddress])
  }

  /** One pass of the loop of the destination's shard: the credit of entry `i`, then its log entry. */
  method ReceiveEntry(cfg: Config, env: Env, input: CallInput, tps: seq<Triple>, i: nat, acntDst: Account, sys: Account, out: VMOutput)
    returns (r: Result<int>)
    requires i < |tps| && acntDst != sys
    modifies acntDst, sys, out
    ensures var before := ReceiveFrom(cfg, env, input, tps, i, old(acntDst.State()), old(sys.data));
      && (r.Err? ==> before.result == Failure(r.error) && before.dst == acntDst.data && before.sys == sys.data)
      && (r.Ok? ==> before == ReceiveFrom(cfg, env, input, tps, i + 1, acntDst.State(), sys.data).(
                              entries := [ReceivedEntry(input, acntDst.address, tps[i], r.value)]
                                         + ReceiveFrom(cfg, env, input, tps, i + 1, acntDst.State(), sys.data).entries))
    ensures out.gasRemaining == old(out.gasRemaining) && out.returnData == old(out.returnData) && out.outputAccounts == old(out.outputAccounts)
    ensures out.logs == old(out.logs) + (if r.Ok? then [ReceivedEntry(input, acntDst.address, tps[i], r.value)] else [])
  {
    r := ReceiveOne(cfg, env, input, acntDst, sys, tps[i]);
    if r.Ok? {
      AddMECTEntryInVMOutput(out, Str(BuiltInFunctionMultiMECTNFTTransfer), tps[i].tokenName, tps[i].nonce, r.value,
                             [input.callerAddr, acntDst.address]);
    }
  }

  /** After `i` entries: what is left to do leads to `total`, and `logged` are the entries logged so far. */
  ghost predicate ReceivedSoFar(cfg: Config, env: Env, input: CallInput, tps: seq<Triple>, i: nat, dst: AccountState, sys: Data,
                                logged: seq<LogEntry>, total: Received)
    requires i <= |tps|
  {
    var cur := ReceiveFrom(cfg, env, input, tps, i, dst, sys);
    && cur.dst == total.dst && cur.sys == total.sys && cur.result == total.result
    && (total.result.Success? ==> logged + cur.entries == total.entries)
  }

  lemma ReceivedStep(cfg: Config, env: Env, input: CallInput, tps: seq<Triple>, i: nat, dst: AccountState, sys: Data,
                     logged: seq<LogEntry>, total: Received, dst': AccountState, sys': Data, v: int)
    requires i < |tps|
    requires ReceivedSoFar(cfg, env, input, tps, i, dst, sys, logged, total)
    requires var next := ReceiveFrom(cfg, env, input, tps, i + 1, dst', sys');
      ReceiveFrom(cfg, env, input, tps, i, dst, sys) == next.(entries := [ReceivedEntry(input, dst'.address, tps[i], v)] + next.entries)
    ensures ReceivedSoFar(cfg, env, input, tps, i + 1, dst', sys', logged + [ReceivedEntry(input, dst'.address, tps[i], v)], total)
  {
    var next := ReceiveFrom(cfg, env, input, tps, i + 1, dst', sys');
    AppendAssoc(logged, [ReceivedEntry(input, dst'.address, tps[i], v)], next.entries);
  }

  /** The loop of the destination's shard: one credit and one log entry per entry; an error returns at once. */
  method ReceiveAll(cfg: Config, env: Env, input: CallInput, tps: seq<Triple>, acntDst: Account, sys: Account, out: VMOutput)
    returns (s: Status)
    requires acntDst != sys
    modifies acntDst, sys, out
    ensures var rcv := ReceiveFrom(cfg, env, input, tps, 0, old(acntDst.State()), old(sys.data));
      && acntDst.data == rcv.dst && sys.data == rcv.sys && s == rcv.result
      && (rcv.result.Success? ==> out.logs == old(out.logs) + rcv.entries)
    ensures out.gasRemaining == old(out.gasRemaining) && out.returnData == old(out.returnData) && out.outputAccounts == old(out.outputAccounts)
  {
    ghost var total := ReceiveFrom(cfg, env, input, tps, 0, acntDst.State(), sys.data);
    assert [] + total.entries == total.entries;
    ghost var logged;
    s, logged := ReceiveLoop(cfg, env, input, tps, acntDst, sys, out, total);
    if s.Success? {
      assert logged + [] == logged;
    }
  }

  method ReceiveLoop(cfg: Config, env: Env, input: CallInput, tps: seq<Triple>, acntDst: Account, sys: Account, out: VMOutput,
                     ghost total: Received)
    returns (s: Status, ghost logged: seq<LogEntry>)
    requires acntDst != sys
    requires ReceivedSoFar(cfg, env, input, tps, 0, acntDst.State(), sys.data, [], total)
    modifies acntDst, sys, out
    ensures s.Failure? ==> s == total.result && acntDst.data == total.dst && sys.data == total.sys
    ensures s.Success? ==> ReceivedSoFar(cfg, env, input, tps, |tps|, acntDst.State(), sys.data, logged, total)
    ensures out.gasRemaining == old(out.gasRemaining) && out.returnData == old(out.returnData) && out.outputAccounts == old(out.outputAccounts)
    ensures out.logs == old(out.logs) + logged
  {
    logged := [];
    var i := 0;
    while i < |tps|
      invariant 0 <= i <= |tps|
      invariant ReceivedSoFar(cfg, env, input, tps, i, acntDst.State(), sys.data, logged, total)
      invariant out.gasRemaining == old(out.gasRemaining) && out.returnData == old(out.returnData)
      invariant out.outputAccounts == old(out.outputAccounts)
      invariant out.logs == old(out.logs) + logged
    {
      var v := ReceiveNext(cfg, env, input, tps, i, acntDst, sys, out, logged, total);
      if v.Err? {
        return Failure(v.error), logged;
      }
      AppendAssoc(old(out.logs), logged, [ReceivedEntry(input, acntDst.address, tps[i], v.value)]);
      logged := logged + [ReceivedEntry(input, acntDst.address, tps[i], v.value)];
      i := i + 1;
    }
    return Success, logged;
  }

  /** One pass of the loop with its bookkeeping: entry `i` moves the loop on to `i + 1`, or stops it where the specification does. */
  method ReceiveNext(cfg: Config, env: Env, input: CallInput, tps: seq<Triple>, i: nat, acntDst: Account, sys: Account, out: VMOutput,
                     ghost logged: seq<LogEntry>, ghost total: Received)
    returns (r: Result<int>)
    requires i < |tps| && acntDst != sys
    requires ReceivedSoFar(cfg, env, input, tps, i, acntDst.State(), sys.data, logged, total)
    modifies acntDst, sys, out
    ensures r.Err? ==> total.result == Failure(r.error) && acntDst.data == total.dst && sys.data == total.sys
    ensures r.Ok? ==> ReceivedSoFar(cfg, env, input, tps, i + 1, acntDst.State(), sys.data,
                                    logged + [ReceivedEntry(input, acntDst.address, tps[i], r.value)], total)
    ensures out.gasRemaining == old(out.gasRemaining) && out.returnData == old(out.returnData) && out.outputAccounts == old(out.outputAccounts)
    ensures out.logs == old(out.logs) + (if r.Ok? then [ReceivedEntry(input, acntDst.address, tps[i], r.value)] else [])
  {
    ghost var dst0, sys0 := acntDst.State(), sys.data;
    r := ReceiveEntry(cfg, env, input, tps, i, acntDst, sys, out);
    if r.Ok? {
      ReceivedStep(cfg, env, input, tps, i, dst0, sys0, logged, total, acntDst.State(), sys.data, r.value);
    }
  }

  /** The destination's and the system account's data after the entries, and the output built. */
  datatype Landed = Landed(dst: Data, sys: Data, result: Result<Output>)

  /**
   * Once the checks have passed: every entry is credited and logged, then a
   * smart contract destination is called with what follows the entries and
   * all the gas provided.
   */
  function LandSpec(cfg: Config, env: Env, input: CallInput, tps: seq<Triple>, minNum: nat, dst: AccountState, sys: Data): (l: Landed)
    ensures var rcv := ReceiveFrom(cfg, env, input, tps, 0, dst, sys);
      l.dst == rcv.dst && l.sys == rcv.sys && (l.result.Ok? <==> rcv.result.Success?)
      && (l.result.Ok? ==> l.result.value.logs == rcv.entries && l.result.value.returnData == [])
    ensures var called := |input.arguments| > minNum && env.isSmartContract(input.recipientAddr);
      && (l.result.Ok? && !called ==> l.result.value.gasRemaining == input.gasProvided && l.result.value.outputAccounts == map[])
      && (l.result.Ok? && called ==>
            && l.result.value.gasRemaining == 0 && l.result.value.outputAccounts.Keys == {input.recipientAddr}
            && l.result.value.outputAccounts[input.recipientAddr].outputTransfers ==
                 [OutputTransfer(0, input.gasProvided, input.gasLocked,
                                 TransferTxData(input.arguments[minNum], input.arguments[minNum + 1..]), input.callType, input.callerAddr)])
  {
    var args := input.arguments;
    var rcv := ReceiveFrom(cfg, env, input, tps, 0, dst, sys);
    if rcv.result.Failure? then Landed(rcv.dst, rcv.sys, Err(rcv.result.error))
    else
      var o := Output(input.gasProvided, [], rcv.entries, map[]);
      var called := if |args| > minNum && env.isSmartContract(input.recipientAddr)
        then WithOutputTransfer(o, input.callerAddr, args[minNum], args[minNum + 1..], input.recipientAddr, input.gasLocked, input.callType)
        else o;
      Landed(rcv.dst, rcv.sys, Ok(called))
  }

  method Land(cfg: Config, env: Env, input: CallInput, tps: seq<Triple>, minNum: nat, acntDst: Account, sys: Account)
    returns (r: Result<VMOutput>)
    requires acntDst != sys
    modifies acntDst, sys
    ensures var l := LandSpec(cfg, env, input, tps, minNum, old(acntDst.State()), old(sys.data));
      && acntDst.data == l.dst && sys.data == l.sys
      && (l.result.Err? ==> r == Err(l.result.error))
      && (l.result.Ok? ==> r.Ok? && fresh(r.value) && r.value.Snapshot() == l.result.value)
  {
    var args := input.arguments;
    var out := new VMOutput(input.gasProvided);
    var s := ReceiveAll(cfg, env, input, tps, acntDst, sys, out);
    if s.Failure? {
      return Err(s.error);
    }
    if |args| > minNum && env.isSmartContract(input.recipientAddr) {
      AddOutputTransferToVMOutput(input.callerAddr, args[minNum], args[minNum + 1..], input.recipientAddr, input.gasLocked, input.callType, out);
    }
    return Ok(out);
  }

  /** The destination half of `ProcessBuiltinFunction` as a value; the sender handle must be nil here. */
  function MultiReceiveSpec(cfg: Config, env: Env, input: CallInput, sys: Data, snd: Option<AccountState>, dst: Option<AccountState>): (o: Landed)
    requires |input.arguments| >= MinLenArgumentsMultiTransfer
    ensures dst.None? ==> o.dst == map[]
    ensures snd.Some? || dst.None? ==> o.result == Err(ErrInvalidRcvAddr)
    ensures var count := Uint64Of(input.arguments[0]);
      snd.None? && dst.Some? && (count == 0 || !EnoughArguments(count, 1, |input.arguments|)) ==>
        o == Landed(dst.value.data, sys, Err(ErrInvalidArguments))
  {
    var args := input.arguments;
    var dstData := if dst.Some? then dst.value.data else map[];
    if snd.Some? || dst.None? then Landed(dstData, sys, Err(ErrInvalidRcvAddr))
    else
      var count := Uint64Of(args[0]);
      if count == 0 || !EnoughArguments(count, 1, |args|) then Landed(dstData, sys, Err(ErrInvalidArguments))
      else
        var minNum := 3 * count + 1;
        if !env.checkPayable(input, input.recipientAddr, minNum) then Landed(dstData, sys, Err(ErrAccountNotPayable))
        else LandSpec(cfg, env, input, Triples(args, 1, count), minNum, dst.value, sys)
  }

  /** The destination half of `ProcessBuiltinFunction`. */
  method ProcessMultiTransferOnDestShard(cfg: Config, env: Env, input: CallInput, sys: Account, acntSnd: Account?, acntDst: Account?)
    returns (r: Result<VMOutput>)
    requires |input.arguments| >= MinLenArgumentsMultiTransfer
    requires acntDst != sys
    modifies acntDst, sys
    ensures var o := MultiReceiveSpec(cfg, env, input, old(sys.data), old(StateOf(acntSnd)), old(StateOf(acntDst)));
      && (acntDst != null ==> acntDst.data == o.dst) && sys.data == o.sys
      && (o.result.Err? ==> r == Err(o.result.error))
      && (o.result.Ok? ==> r.Ok? && fresh(r.value) && r.value.Snapshot() == o.result.value)
  {
    var args := input.arguments;
    var refusal := ReceiveRefusal(env, input, acntSnd != null, acntDst != null);
    if refusal.Some? {
      ReceiveRefused(cfg, env, input, sys.data, StateOf(acntSnd), StateOf(acntDst));
      return Err(refusal.value);
    }
    var count := Uint64Of(args[0]);
    ReceiveAccepted(cfg, env, input, sys.data, acntDst.State());
    r := Land(cfg, env, input, Triples(args, 1, count), 3 * count + 1, acntDst, sys);
  }

  /** The error the destination's shard stops at before crediting anything, if any. */
  function ReceiveRefusal(env: Env, input: CallInput, hasSender: bool, hasDst: bool): (e: Option<Error>)
    requires |input.arguments| >= MinLenArgumentsMultiTransfer
    ensures e.None? <==>
      var count := Uint64Of(input.arguments[0]);
      && !hasSender && hasDst && count > 0 && EnoughArguments(count, 1, |input.arguments|)
      && env.checkPayable(input, input.recipientAddr, 3 * count + 1)
  {
    var args := input.arguments;
    var count := Uint64Of(args[0]);
    if hasSender || !hasDst then Some(ErrInvalidRcvAddr)
    else if count == 0 || !EnoughArguments(count, 1, |args|) then Some(ErrInvalidArguments)
    else if !env.checkPayable(input, input.recipientAddr, 3 * count + 1) then Some(ErrAccountNotPayable)
    else None
  }

  /** A refusal on the destination's shard changes nothing. */
  lemma ReceiveRefused(cfg: Config, env: Env, input: CallInput, sys: Data, snd: Option<AccountState>, dst: Option<AccountState>)
    requires |input.arguments| >= MinLenArgumentsMultiTransfer
    requires ReceiveRefusal(env, input, snd.Some?, dst.Some?).Some?
    ensures MultiReceiveSpec(cfg, env, input, sys, snd, dst) ==
      Landed(if dst.Some? then dst.value.data else map[], sys, Err(ReceiveRefusal(env, input, snd.Some?, dst.Some?).value))
  {
  }

  lemma ReceiveAccepted(cfg: Config, env: Env, input: CallInput, sys: Data, dst: AccountState)
    requires |input.arguments| >= MinLenArgumentsMultiTransfer
    requires var args := input.arguments;
      var count := Uint64Of(args[0]);
      count > 0 && EnoughArguments(count, 1, |args|) && env.checkPayable(input, input.recipientAddr, 3 * count + 1)
    ensures var args := input.arguments;
      var count := Uint64Of(args[0]);
      MultiReceiveSpec(cfg, env, input, sys, None, Some(dst)) ==
        LandSpec(cfg, env, input, Triples(args, 1, count), 3 * count + 1, dst, sys)
  {
  }

  /** `ProcessBuiltinFunction` of the multi-token transfer as a value. */
  function MultiTransferSpec(funcGasCost: uint64, cfg: Config, env: Env, input: CallInput, sys: Data, snd: Option<AccountState>,
                             dst: Option<AccountState>, loaded: AccountState): (o: NFTOutcome)
    ensures o.snd.Some? <==> snd.Some?
    ensures o.dst.Some? <==> dst.Some?
    ensures CheckBasicMECTArguments(input).Failure? ==>
      o == NFTOutcome(DataOf(snd), DataOf(dst), loaded.data, sys, Err(CheckBasicMECTArguments(input).error))
    ensures CheckBasicMECTArguments(input) == Success && |input.arguments| < MinLenArgumentsMultiTransfer ==>
      o == NFTOutcome(DataOf(snd), DataOf(dst), loaded.data, sys, Err(ErrInvalidArguments))
  {
    var basic := CheckBasicMECTArguments(input);
    if basic.Failure? then NFTOutcome(DataOf(snd), DataOf(dst), loaded.data, sys, Err(basic.error))
    else if |input.arguments| < MinLenArgumentsMultiTransfer then NFTOutcome(DataOf(snd), DataOf(dst), loaded.data, sys, Err(ErrInvalidArguments))
    else if input.callerAddr == input.recipientAddr then MultiSendSpec(funcGasCost, cfg, env, input, sys, snd, loaded).(dst := DataOf(dst))
    else
      var l := MultiReceiveSpec(cfg, env, input, sys, snd, dst);
      NFTOutcome(DataOf(snd), if dst.Some? then Some(l.dst) else None, loaded.data, l.sys, l.result)
  }

  /**
   * A successful call on the sender's shard (the caller is the recipient),
   * key by key: the sender loses and a destination in this shard gains
   * exactly the values the entries move under each key.
   */
  lemma MultiTransferMoves(funcGasCost: uint64, cfg: Config, env: Env, input: CallInput, sys: Data, snd: Option<AccountState>,
                           dst: Option<AccountState>, loaded: AccountState, k: Bytes)
    requires MultiTransferSpec(funcGasCost, cfg, env, input, sys, snd, dst, loaded).result.Ok?
    requires input.callerAddr == input.recipientAddr
    ensures |input.arguments| >= MinLenArgumentsMultiTransfer && EnoughArguments(Uint64Of(input.arguments[1]), 2, |input.arguments|)
    ensures snd.Some?
    ensures var o, tps := MultiTransferSpec(funcGasCost, cfg, env, input, sys, snd, dst, loaded),
                          Triples(input.arguments, 2, Uint64Of(input.arguments[1]));
      && Quantity(o.snd.value, k) == Quantity(snd.value.data, k) - Moved(tps, 0, k)
      && (env.SameShard(input.arguments[0]) && Quantity(loaded.data, k) >= 0 ==>
            Quantity(o.loaded, k) == Quantity(loaded.data, k) + Moved(tps, 0, k))
  {
    MultiSendMoves(funcGasCost, cfg, env, input, sys, snd, loaded, k);
  }

  /**
   * `ProcessBuiltinFunction` of the multi-token transfer. `loaded` is the
   * account the sender's shard loads for a destination in the same shard. When the
   * same account is handed over as sender and destination, its new state is
   * the sender's.
   */
  method ProcessMultiTransfer(funcGasCost: uint64, cfg: Config, env: Env, input: CallInput, sys: Account,
                              acntSnd: Account?, acntDst: Account?, loaded: Account) returns (r: Result<VMOutput>)
    requires acntSnd != sys && acntDst != sys && loaded != sys
    requires acntSnd != loaded && acntDst != loaded
    modifies acntSnd, acntDst, loaded, sys
    ensures var o := MultiTransferSpec(funcGasCost, cfg, env, input, old(sys.data), old(StateOf(acntSnd)), old(StateOf(acntDst)), old(loaded.State()));
      && (acntSnd != null ==> acntSnd.data == o.snd.value)
      && (acntDst != null && acntDst != acntSnd ==> acntDst.data == o.dst.value)
      && loaded.data == o.loaded && sys.data == o.sys
      && (o.result.Err? ==> r == Err(o.result.error))
      && (o.result.Ok? ==> r.Ok? && fresh(r.value) && r.value.Snapshot() == o.result.value)
  {
    var basic := CheckBasicMECTArguments(input);
    if basic.Failure? {
      return Err(basic.error);
    }
    if |input.arguments| < MinLenArgumentsMultiTransfer {
      return Err(ErrInvalidArguments);
    }
    if input.callerAddr == input.recipientAddr {
      r := ProcessMultiTransferOnSenderShard(funcGasCost, cfg, env, input, sys, acntSnd, loaded);
    } else {
      r := ProcessMultiTransferOnDestShard(cfg, env, input, sys, acntSnd, acntDst);
    }
  }
}
