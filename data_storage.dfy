/**
 * The split storage of NFTs: the quantity of each (token, nonce) lives on the
 * holder's account, while the metadata is kept once per shard on the system
 * account. That shared record, the mirror, also carries the liquidity of the
 * nonce (how much of it exists in this shard) in its value, a marker in its
 * reserved bytes saying whether that liquidity is tracked, and, before
 * metadata was sent with every transfer, a byte per shard saying whether the
 * metadata was already sent there.
 */
module DataStorage {

  import opened Encoding
  import opened Wrappers
  import opened MectMetaData
  import opened Store
  import opened Vm
  import opened ArgChecks
  import opened Names
  import opened MectTransfer
  import opened GlobalSettings

  /** The byte marking a shard the metadata was sent to. */
  const ExistsOnShard: byte := 1

  // ---------------------------------------------------------------------
  // Reading

  /**
   * `getMECTDigitalTokenDataFromSystemAccount`: the mirror under a key, none
   * when nothing is stored, an error when the stored value is not a record.
   */
  function MirrorOf(sys: Data, key: Bytes): (r: Result<Option<MECToken>>)
    ensures Retrieve(sys, key) == Nil ==> r == Ok(None)
    ensures r == Ok(None) ==> Retrieve(sys, key) == Nil
    ensures key in sys && sys[key].Token? ==> r == Ok(Some(sys[key].token))
    ensures r.Err? <==> Retrieve(sys, key) != Nil && !Retrieve(sys, key).Token?
    ensures r.Err? ==> r.error == ErrUnmarshal
  {
    match Retrieve(sys, key)
      case Raw(b) => if b == [] then Ok(None) else Err(ErrUnmarshal)
      case Token(t) => Ok(Some(t))
      case RoleList(_) => Err(ErrUnmarshal)
  }

  /**
   * `GetMECTNFTTokenOnDestination`: the holder's record and whether it is new.
   * Nothing stored gives the empty fungible record marked new. Once the
   * metadata lives on the system account, the mirror's metadata, when it has
   * some, replaces whatever the holder's record carries.
   */
  function GetNFTOnDestination(cfg: Config, u: Data, sys: Data, tokenKey: Bytes, nonce: uint64): (r: Result<(MECToken, bool)>)
    ensures var key := NFTTokenKey(tokenKey, nonce);
      && (r.Ok? && r.value.1 <==> Retrieve(u, key) == Nil)
      && (r.Ok? && r.value.1 ==> r.value.0 == EmptyFungible)
      && (r.Ok? && !r.value.1 ==> Retrieve(u, key).Token? && r.value.0 == Retrieve(u, key).token.(metaData := r.value.0.metaData))
      && (Retrieve(u, key).Token? && (!cfg.saveToSystemAccount || nonce == 0) ==> r == Ok((Retrieve(u, key).token, false)))
      && (Retrieve(u, key) != Nil && !Retrieve(u, key).Token? ==> r == Err(ErrUnmarshal))
  {
    var key := NFTTokenKey(tokenKey, nonce);
    match Retrieve(u, key)
      case Raw(b) => if b == [] then Ok((EmptyFungible, true)) else Err(ErrUnmarshal)
      case RoleList(_) => Err(ErrUnmarshal)
      case Token(t) =>
        if !cfg.saveToSystemAccount || nonce == 0 then Ok((t, false))
        else match MirrorOf(sys, key)
          case Err(e) => Err(e)
          case Ok(None) => Ok((t, false))
          case Ok(Some(m)) => Ok((if m.metaData.Some? then t.(metaData := m.metaData) else t, false))
  }

  /** `GetMECTNFTTokenOnSender`: as on the destination, but a new record is an error. */
  function GetNFTOnSender(cfg: Config, u: Data, sys: Data, tokenKey: Bytes, nonce: uint64): (r: Result<MECToken>)
    ensures Retrieve(u, NFTTokenKey(tokenKey, nonce)) == Nil ==> r == Err(ErrNewNFTDataOnSenderAddress)
    ensures r.Ok? <==> GetNFTOnDestination(cfg, u, sys, tokenKey, nonce).Ok? && !GetNFTOnDestination(cfg, u, sys, tokenKey, nonce).value.1
    ensures r.Ok? ==> r.value == GetNFTOnDestination(cfg, u, sys, tokenKey, nonce).value.0
  {
    match GetNFTOnDestination(cfg, u, sys, tokenKey, nonce)
      case Err(e) => Err(e)
      case Ok((t, isNew)) => if isNew then Err(ErrNewNFTDataOnSenderAddress) else Ok(t)
  }

  // ---------------------------------------------------------------------
  // Frozen and paused checks before a save

  /**
   * `checkCollectionIsFrozenForAccount`: once active (with the save to the
   * system account), a nonce of a collection whose token record on the
   * account is frozen cannot be saved, except by a call returning with an error.
   */
  function CollectionFrozenCheck(cfg: Config, u: Data, tokenKey: Bytes, nonce: uint64, isReturnWithError: bool): (s: Status)
    ensures s == Success <==>
      || !cfg.saveToSystemAccount || nonce == 0 || isReturnWithError
      || (GetMECTData(u, tokenKey).Ok? && !UserFromBytes(GetMECTData(u, tokenKey).value.properties).frozen)
    ensures s.Failure? && GetMECTData(u, tokenKey).Ok? ==> s.error == ErrMECTIsFrozenForAccount
  {
    if !cfg.saveToSystemAccount then Success
    else if nonce == 0 || isReturnWithError then Success
    else match GetMECTData(u, tokenKey)
      case Err(e) => Failure(e)
      case Ok(t) => if UserFromBytes(t.properties).frozen then Failure(ErrMECTIsFrozenForAccount) else Success
  }

  /** `checkFrozenPauseProperties`: the token key, then the nonce key, then the collection. */
  function FrozenPauseCheck(cfg: Config, env: Env, acnt: AccountState, sys: Data, tokenKey: Bytes, nonce: uint64, t: MECToken, isReturnWithError: bool): (s: Status)
    ensures s == Success <==>
      && CheckFrozeAndPause(acnt.address, tokenKey, t, sys, env, isReturnWithError) == Success
      && CheckFrozeAndPause(acnt.address, NFTTokenKey(tokenKey, nonce), t, sys, env, isReturnWithError) == Success
      && CollectionFrozenCheck(cfg, acnt.data, tokenKey, nonce, isReturnWithError) == Success
  {
    var onToken := CheckFrozeAndPause(acnt.address, tokenKey, t, sys, env, isReturnWithError);
    if onToken.Failure? then onToken
    else
      var onNonce := CheckFrozeAndPause(acnt.address, NFTTokenKey(tokenKey, nonce), t, sys, env, isReturnWithError);
      if onNonce.Failure? then onNonce
      else CollectionFrozenCheck(cfg, acnt.data, tokenKey, nonce, isReturnWithError)
  }

  // ---------------------------------------------------------------------
  // The mirror on the system account

  /** `make([]byte, n)`. */
  function Zeros(n: nat): (r: Bytes)
    ensures |r| == n && forall i :: 0 <= i < n ==> r[i] == 0
  {
    seq(n, i => 0)
  }

  /** The shard byte set, unless the shard is the metachain; an index past the bitmap panics. */
  function MarkShard(props: Bytes, shard: nat): (r: Result<Bytes>)
    ensures shard == MetachainShardId ==> r == Ok(props)
    ensures shard != MetachainShardId ==> (r.Ok? <==> shard < |props|)
    ensures r.Ok? ==> |r.value| == |props| && forall i :: 0 <= i < |props| && i != shard ==> r.value[i] == props[i]
    ensures r.Ok? && shard != MetachainShardId ==> r.value[shard] == ExistsOnShard
  {
    if shard == MetachainShardId then Ok(props)
    else if shard >= |props| then Err(ErrRuntimePanic)
    else Ok(props[shard := ExistsOnShard])
  }

  /**
   * `setReservedToNilForOldToken`: with the liquidity fix active, a nonce whose
   * holder still keeps the metadata on its own record is not tracked.
   */
  function ReservedForOldToken(cfg: Config, u: Option<Data>, key: Bytes, m: MECToken): (r: Result<MECToken>)
    ensures r.Ok? ==> r.value == m || r.value == m.(reserved := [])
    ensures !cfg.fixOldTokenLiquidity ==> r == Ok(m)
    ensures cfg.fixOldTokenLiquidity && u.None? ==> r == Err(ErrNilUserAccount)
    ensures cfg.fixOldTokenLiquidity && u.Some? && Retrieve(u.value, key).Token? ==>
      r == Ok(if Retrieve(u.value, key).token.metaData.Some? then m.(reserved := []) else m)
  {
    if !cfg.fixOldTokenLiquidity then Ok(m)
    else if u.None? then Err(ErrNilUserAccount)
    else match Retrieve(u.value, key)
      case Raw(b) => if b == [] then Ok(m) else Err(ErrUnmarshal)
      case RoleList(_) => Err(ErrUnmarshal)
      case Token(held) => Ok(if held.metaData.Some? then m.(reserved := []) else m)
  }

  /**
   * The mirror `saveMECTMetaDataToSystemAccount` writes for a record with
   * metadata, before the shard bytes: zero liquidity and one zero byte per
   * shard; a first mirror written once metadata is sent always has no shard
   * bytes and carries the tracking marker, unless the nonce is an old one.
   */
  function NewMirror(cfg: Config, env: Env, u: Option<Data>, sys: Data, key: Bytes, t: MECToken): (r: Result<MECToken>)
    ensures r.Ok? ==> r.value.tokenType == t.tokenType && r.value.value == 0 && r.value.metaData == t.metaData
    ensures r.Ok? && !cfg.sendAlways ==> r.value.properties == Zeros(env.numberOfShards) && r.value.reserved == []
    ensures r.Ok? && cfg.sendAlways && Retrieve(sys, key) == Nil ==> r.value.properties == [] && (r.value.reserved == [1] || r.value.reserved == [])
    ensures Retrieve(sys, key) != Nil ==> r.Ok? && r.value.reserved == []
  {
    var m := MECToken(t.tokenType, 0, Zeros(env.numberOfShards), t.metaData, []);
    if Retrieve(sys, key) == Nil && cfg.sendAlways then ReservedForOldToken(cfg, u, key, m.(properties := [], reserved := [1]))
    else Ok(m)
  }

  /** The shard bytes set before metadata was sent with every transfer: this shard's and the sender's. */
  function MarkShards(cfg: Config, env: Env, props: Bytes, senderShard: nat): (r: Result<Bytes>)
    ensures cfg.sendAlways ==> r == Ok(props)
    ensures r.Ok? ==> |r.value| == |props|
  {
    if cfg.sendAlways then Ok(props)
    else match MarkShard(props, env.selfId)
      case Err(e) => Err(e)
      case Ok(p) => MarkShard(p, senderShard)
  }

  /** `saveMECTMetaDataToSystemAccount` as a value: the new system-account data. */
  function MirrorSaveSpec(cfg: Config, env: Env, u: Option<Data>, sys: Data, senderShard: nat, key: Bytes, nonce: uint64, t: MECToken, mustUpdate: bool): (r: Result<Data>)
    ensures nonce == 0 || t.metaData.None? ==> r == Ok(sys)
    ensures !mustUpdate && Retrieve(sys, key) != Nil ==> r == Ok(sys)
    ensures r.Ok? ==> forall k :: k != key ==> Retrieve(r.value, k) == Retrieve(sys, k)
  {
    if nonce == 0 || t.metaData.None? then Ok(sys)
    else if !mustUpdate && Retrieve(sys, key) != Nil then Ok(sys)
    else match NewMirror(cfg, env, u, sys, key, t)
      case Err(e) => Err(e)
      case Ok(m) =>
        match MarkShards(cfg, env, m.properties, senderShard)
          case Err(e) => Err(e)
          case Ok(props) => Ok(Saved(sys, key, Token(m.(properties := props))))
  }

  /** `saveMECTMetaDataToSystemAccount`; `userAcc` is nil when called from a cross-shard metadata save. */
  method SaveMECTMetaDataToSystemAccount(cfg: Config, env: Env, userAcc: Account?, sys: Account, senderShard: nat, key: Bytes, nonce: uint64, t: MECToken, mustUpdate: bool)
    returns (s: Status)
    requires userAcc != sys
    modifies sys
    ensures var spec := MirrorSaveSpec(cfg, env, DataOf(StateOf(userAcc)), old(sys.data), senderShard, key, nonce, t, mustUpdate);
      && (spec.Err? ==> s == Failure(spec.error) && sys.data == old(sys.data))
      && (spec.Ok? ==> s == Success && sys.data == spec.value)
  {
    if nonce == 0 || t.metaData.None? {
      return Success;
    }
    var isNew := Retrieve(sys.data, key) == Nil;
    if !mustUpdate && !isNew {
      return Success;
    }
    var onSys := MECToken(t.tokenType, 0, Zeros(env.numberOfShards), t.metaData, []);
    if isNew && cfg.sendAlways {
      onSys := onSys.(properties := [], reserved := [1]);
      var reserved := SetReservedToNilForOldToken(cfg, onSys, userAcc, key);
      if reserved.Err? {
        return Failure(reserved.error);
      }
      onSys := reserved.value;
    }
    if !cfg.sendAlways {
      if env.selfId != MetachainShardId {
        if env.selfId >= |onSys.properties| {
          return Failure(ErrRuntimePanic);
        }
        onSys := onSys.(properties := onSys.properties[env.selfId := ExistsOnShard]);
      }
      if senderShard != MetachainShardId {
        if senderShard >= |onSys.properties| {
          return Failure(ErrRuntimePanic);
        }
        onSys := onSys.(properties := onSys.properties[senderShard := ExistsOnShard]);
      }
    }
    sys.SaveKeyValue(key, Token(onSys));
    return Success;
  }

  /** `setReservedToNilForOldToken`. */
  method SetReservedToNilForOldToken(cfg: Config, m: MECToken, userAcc: Account?, key: Bytes) returns (r: Result<MECToken>)
    ensures r == ReservedForOldToken(cfg, DataOf(StateOf(userAcc)), key, m)
  {
    if !cfg.fixOldTokenLiquidity {
      return Ok(m);
    }
    if userAcc == null {
      return Err(ErrNilUserAccount);
    }
    var onUser := Retrieve(userAcc.data, key);
    if onUser == Nil {
      return Ok(m);
    }
    if !onUser.Token? {
      return Err(ErrUnmarshal);
    }
    if onUser.token.metaData.Some? {
      return Ok(m.(reserved := []));
    }
    return Ok(m);
  }

  // ---------------------------------------------------------------------
  // Saving a holder's record

  /**
   * `SaveMECTNFTToken` as a value: the holder's new data, the system
   * account's new data and the marshalled record written (empty when the key
   * was deleted). With the save to the system account active, the holder's
   * record keeps only the type, the quantity and the flags.
   */
  function SaveNFTSpec(cfg: Config, env: Env, acnt: AccountState, sys: Data, senderAddress: Bytes, tokenKey: Bytes, nonce: uint64,
                       t: MECToken, mustUpdate: bool, isReturnWithError: bool): (r: Result<(Data, Data, Bytes)>)
    ensures r.Ok? ==> FrozenPauseCheck(cfg, env, acnt, sys, tokenKey, nonce, t, isReturnWithError) == Success
  {
    var check := FrozenPauseCheck(cfg, env, acnt, sys, tokenKey, nonce, t, isReturnWithError);
    if check.Failure? then Err(check.error)
    else
      var key := NFTTokenKey(tokenKey, nonce);
      var mirrored := if cfg.saveToSystemAccount
        then MirrorSaveSpec(cfg, env, Some(acnt.data), sys, env.shardOf(senderAddress), key, nonce, t, mustUpdate)
        else Ok(sys);
      match mirrored
        case Err(e) => Err(e)
        case Ok(sys') =>
          if t.value <= 0 then Ok((Saved(acnt.data, key, Nil), sys', []))
          else if !cfg.saveToSystemAccount then Ok((Saved(acnt.data, key, Token(t)), sys', env.marshal(t)))
          else
            var onAccount := MECToken(t.tokenType, t.value, t.properties, None, []);
            Ok((Saved(acnt.data, key, Token(onAccount)), sys', env.marshal(onAccount)))
  }

  /** `SaveMECTNFTToken`: returns the marshalled record it wrote. */
  method SaveMECTNFTToken(cfg: Config, env: Env, senderAddress: Bytes, acnt: Account, sys: Account, tokenKey: Bytes, nonce: uint64,
                          t: MECToken, mustUpdate: bool, isReturnWithError: bool) returns (r: Result<Bytes>)
    requires acnt != sys
    modifies acnt, sys
    ensures var spec := SaveNFTSpec(cfg, env, old(acnt.State()), old(sys.data), senderAddress, tokenKey, nonce, t, mustUpdate, isReturnWithError);
      && (spec.Err? ==> r == Err(spec.error) && acnt.data == old(acnt.data) && sys.data == old(sys.data))
      && (spec.Ok? ==> r == Ok(spec.value.2) && acnt.data == spec.value.0 && sys.data == spec.value.1)
  {
    var check := FrozenPauseCheck(cfg, env, acnt.State(), sys.data, tokenKey, nonce, t, isReturnWithError);
    if check.Failure? {
      return Err(check.error);
    }
    var key := NFTTokenKey(tokenKey, nonce);
    if cfg.saveToSystemAccount {
      var s := SaveMECTMetaDataToSystemAccount(cfg, env, acnt, sys, env.shardOf(senderAddress), key, nonce, t, mustUpdate);
      if s.Failure? {
        return Err(s.error);
      }
    }
    if t.value <= 0 {
      acnt.SaveKeyValue(key, Nil);
      return Ok([]);
    }
    if !cfg.saveToSystemAccount {
      acnt.SaveKeyValue(key, Token(t));
      return Ok(env.marshal(t));
    }
    var onAccount := MECToken(t.tokenType, t.value, t.properties, None, []);
    acnt.SaveKeyValue(key, Token(onAccount));
    return Ok(env.marshal(onAccount));
  }

  // ---------------------------------------------------------------------
  // Liquidity

  /** The liquidity the mirror records: its value, zero without a mirror. */
  function Liquidity(sys: Data, key: Bytes): int
  {
    match MirrorOf(sys, key)
      case Ok(Some(m)) => m.value
      case _ => 0
  }

  /** The mirror tracks liquidity: it exists and its reserved marker is not empty. */
  predicate Tracked(sys: Data, key: Bytes)
  {
    MirrorOf(sys, key).Ok? && MirrorOf(sys, key).value.Some? && |MirrorOf(sys, key).value.value.reserved| > 0
  }

  /** `AddToLiquiditySystemAcc` as a value: the new system-account data. */
  function LiquiditySpec(cfg: Config, sys: Data, tokenKey: Bytes, nonce: uint64, delta: int): (r: Result<Data>)
    ensures !cfg.saveToSystemAccount || !cfg.sendAlways || nonce == 0 ==> r == Ok(sys)
    ensures r.Ok? ==> forall k :: k != NFTTokenKey(tokenKey, nonce) ==> Retrieve(r.value, k) == Retrieve(sys, k)
  {
    if !cfg.saveToSystemAccount || !cfg.sendAlways || nonce == 0 then Ok(sys)
    else
      var key := NFTTokenKey(tokenKey, nonce);
      match MirrorOf(sys, key)
        case Err(e) => Err(e)
        case Ok(None) => Err(ErrNilMECTData)
        case Ok(Some(m)) =>
          if |m.reserved| == 0 then Ok(sys)
          else if cfg.fixOldTokenLiquidity && m.value == 0 && delta < 0 then Ok(Saved(sys, key, Token(m.(reserved := []))))
          else if m.value + delta < 0 then Err(ErrInvalidLiquidityForMECT)
          else if m.value + delta == 0 then Ok(Saved(sys, key, Nil))
          else Ok(Saved(sys, key, Token(m.(value := m.value + delta))))
  }

  /** `AddToLiquiditySystemAcc`. */
  method AddToLiquiditySystemAcc(cfg: Config, sys: Account, tokenKey: Bytes, nonce: uint64, delta: int) returns (s: Status)
    modifies sys
    ensures var spec := LiquiditySpec(cfg, old(sys.data), tokenKey, nonce, delta);
      && (spec.Err? ==> s == Failure(spec.error) && sys.data == old(sys.data))
      && (spec.Ok? ==> s == Success && sys.data == spec.value)
  {
    if !cfg.saveToSystemAccount || !cfg.sendAlways || nonce == 0 {
      return Success;
    }
    var key := NFTTokenKey(tokenKey, nonce);
    var got := MirrorOf(sys.data, key);
    if got.Err? {
      return Failure(got.error);
    }
    if got.value.None? {
      return Failure(ErrNilMECTData);
    }
    var m := got.value.value;
    if |m.reserved| == 0 {
      return Success;
    }
    if cfg.fixOldTokenLiquidity && m.value == 0 && delta < 0 {
      m := m.(reserved := []);
      sys.SaveKeyValue(key, Token(m));
      return Success;
    }
    m := m.(value := m.value + delta);
    if m.value < 0 {
      return Failure(ErrInvalidLiquidityForMECT);
    }
    if m.value == 0 {
      sys.SaveKeyValue(key, Nil);
      return Success;
    }
    sys.SaveKeyValue(key, Token(m));
    return Success;
  }

  // ---------------------------------------------------------------------
  // The sent-to-shard bitmap

  /** The bitmap grown with zero bytes to `n` entries; a longer one is kept. */
  function Grown(props: Bytes, n: nat): (r: Bytes)
    ensures |r| == (if |props| < n then n else |props|)
    ensures forall i :: 0 <= i < |props| ==> r[i] == props[i]
    ensures forall i :: |props| <= i < |r| ==> r[i] == 0
  {
    if |props| < n then props + Zeros(n - |props|) else props
  }

  /** The copy loop of `WasAlreadySentToDestinationShardAndUpdateState`. */
  method GrowBitmap(props: Bytes, n: nat) returns (r: Bytes)
    ensures r == Grown(props, n)
  {
    if |props| >= n {
      return props;
    }
    r := Zeros(n);
    for i := 0 to |props|
      invariant |r| == n
      invariant forall j :: 0 <= j < i ==> r[j] == props[j]
      invariant forall j :: i <= j < n ==> r[j] == 0
    {
      r := r[i := props[i]];
    }
  }

  /**
   * `WasAlreadySentToDestinationShardAndUpdateState` as a value: whether the
   * metadata was already sent to the destination's shard, and the system
   * account data with that shard marked.
   */
  function WasAlreadySentSpec(cfg: Config, env: Env, sys: Data, tickerID: Bytes, nonce: uint64, dstAddress: Bytes): (r: Result<(Data, bool)>)
    ensures !cfg.saveToSystemAccount ==> r == Ok((sys, false))
    ensures cfg.saveToSystemAccount && (nonce == 0 || env.SameShard(dstAddress)) ==> r == Ok((sys, true))
    ensures r.Ok? ==> forall k :: k != NFTTokenKey(TokenKey(tickerID), nonce) ==> Retrieve(r.value.0, k) == Retrieve(sys, k)
  {
    if !cfg.saveToSystemAccount then Ok((sys, false))
    else if nonce == 0 then Ok((sys, true))
    else
      var dstShard := env.shardOf(dstAddress);
      if dstShard == env.selfId then Ok((sys, true))
      else if cfg.sendAlways then Ok((sys, false))
      else if dstShard == MetachainShardId then Ok((sys, true))
      else
        var key := NFTTokenKey(TokenKey(tickerID), nonce);
        match MirrorOf(sys, key)
          case Err(e) => Err(e)
          case Ok(None) => Ok((sys, false))
          case Ok(Some(m)) =>
            var props := Grown(m.properties, env.numberOfShards);
            if dstShard >= |props| then Err(ErrRuntimePanic)
            else if props[dstShard] > 0 then Ok((sys, true))
            else Ok((Saved(sys, key, Token(m.(properties := props[dstShard := ExistsOnShard]))), false))
  }

  /** `WasAlreadySentToDestinationShardAndUpdateState`. */
  method WasAlreadySentToDestinationShardAndUpdateState(cfg: Config, env: Env, sys: Account, tickerID: Bytes, nonce: uint64, dstAddress: Bytes)
    returns (r: Result<bool>)
    modifies sys
    ensures var spec := WasAlreadySentSpec(cfg, env, old(sys.data), tickerID, nonce, dstAddress);
      && (spec.Err? ==> r == Err(spec.error) && sys.data == old(sys.data))
      && (spec.Ok? ==> r == Ok(spec.value.1) && sys.data == spec.value.0)
  {
    if !cfg.saveToSystemAccount {
      return Ok(false);
    }
    if nonce == 0 {
      return Ok(true);
    }
    var dstShard := env.shardOf(dstAddress);
    if dstShard == env.selfId {
      return Ok(true);
    }
    if cfg.sendAlways {
      return Ok(false);
    }
    if dstShard == MetachainShardId {
      return Ok(true);
    }
    var key := NFTTokenKey(TokenKey(tickerID), nonce);
    var got := MirrorOf(sys.data, key);
    if got.Err? {
      return Err(got.error);
    }
    if got.value.None? {
      return Ok(false);
    }
    var m := got.value.value;
    var props := GrowBitmap(m.properties, env.numberOfShards);
    if dstShard >= |props| {
      return Err(ErrRuntimePanic);
    }
    if props[dstShard] > 0 {
      return Ok(true);
    }
    m := m.(properties := props[dstShard := ExistsOnShard]);
    sys.SaveKeyValue(key, Token(m));
    return Ok(false);
  }

  // ---------------------------------------------------------------------
  // Metadata arriving with a cross-shard transfer

  /**
   * The loop of `addMetaDataToSystemAccountFromMultiTransfer` from entry `i`
   * on: each entry with a nonce and a long value argument carries a
   * marshalled record whose metadata is written to the mirror. A failure
   * stops the loop and keeps the mirrors already written.
   */
  function MultiMetaFrom(cfg: Config, env: Env, sys: Data, senderShard: nat, args: seq<Bytes>, count: nat, i: nat): (r: (Data, Status))
    requires EnoughArguments(count, 1, |args|)
    decreases count - i
  {
    if i >= count then (sys, Success)
    else
      EntryInRange(count, 1, |args|, i);
      var start := 1 + 3 * i;
      var nonce := Uint64Of(args[start + 1]);
      if nonce > 0 && |args[start + 2]| > MaxLengthForValueToOptTransfer then
        match env.unmarshal(args[start + 2])
          case None => (sys, Failure(ErrUnmarshal))
          case Some(t) =>
            match MirrorSaveSpec(cfg, env, None, sys, senderShard, NFTTokenKey(TokenKey(args[start]), nonce), nonce, t, true)
              case Err(e) => (sys, Failure(e))
              case Ok(sys') => MultiMetaFrom(cfg, env, sys', senderShard, args, count, i + 1)
      else MultiMetaFrom(cfg, env, sys, senderShard, args, count, i + 1)
  }

  /** `addMetaDataToSystemAccountFromMultiTransfer` as a value: the system-account data and the outcome. */
  function MultiMetaSpec(cfg: Config, env: Env, sys: Data, senderShard: nat, args: seq<Bytes>): (r: (Data, Status))
    requires |args| >= 1
    ensures Uint64Of(args[0]) == 0 || !EnoughArguments(Uint64Of(args[0]), 1, |args|) ==> r == (sys, Failure(ErrInvalidArguments))
  {
    var count := Uint64Of(args[0]);
    if count == 0 then (sys, Failure(ErrInvalidArguments))
    else if !EnoughArguments(count, 1, |args|) then (sys, Failure(ErrInvalidArguments))
    else MultiMetaFrom(cfg, env, sys, senderShard, args, count, 0)
  }

  /** `addMetaDataToSystemAccountFromMultiTransfer`. */
  method AddMetaDataToSystemAccountFromMultiTransfer(cfg: Config, env: Env, sys: Account, senderShard: nat, args: seq<Bytes>) returns (s: Status)
    requires |args| >= 1
    modifies sys
    ensures (sys.data, s) == MultiMetaSpec(cfg, env, old(sys.data), senderShard, args)
  {
    var count := Uint64Of(args[0]);
    if count == 0 {
      return Failure(ErrInvalidArguments);
    }
    if |args| < 3 * count + 1 {
      return Failure(ErrInvalidArguments);
    }
    var i := 0;
    while i < count
      invariant 0 <= i <= count
      invariant MultiMetaFrom(cfg, env, sys.data, senderShard, args, count, i) == MultiMetaSpec(cfg, env, old(sys.data), senderShard, args)
    {
      s := AddMetaFromEntry(cfg, env, sys, senderShard, args, count, i);
      if s.Failure? {
        return;
      }
      i := i + 1;
    }
    return Success;
  }

  /** One pass of the loop of `addMetaDataToSystemAccountFromMultiTransfer`, on entry `i`. */
  method AddMetaFromEntry(cfg: Config, env: Env, sys: Account, senderShard: nat, args: seq<Bytes>, count: nat, i: nat) returns (s: Status)
    requires EnoughArguments(count, 1, |args|) && i < count
    modifies sys
    ensures s.Failure? ==> (sys.data, s) == MultiMetaFrom(cfg, env, old(sys.data), senderShard, args, count, i)
    ensures s.Success? ==> MultiMetaFrom(cfg, env, sys.data, senderShard, args, count, i + 1) == MultiMetaFrom(cfg, env, old(sys.data), senderShard, args, count, i)
  {
    EntryInRange(count, 1, |args|, i);
    var start := 1 + 3 * i;
    var nonce := Uint64Of(args[start + 1]);
    if nonce > 0 && |args[start + 2]| > MaxLengthForValueToOptTransfer {
      var decoded := env.unmarshal(args[start + 2]);
      if decoded.None? {
        return Failure(ErrUnmarshal);
      }
      s := SaveMECTMetaDataToSystemAccount(cfg, env, null, sys, senderShard, NFTTokenKey(TokenKey(args[start]), nonce), nonce, decoded.value, true);
    } else {
      s := Success;
    }
  }

  // ---------------------------------------------------------------------
  // Properties of the split storage

  /**
   * While the mirror tracks liquidity, a change either fails with the
   * invalid-liquidity error, exactly when the result would be negative, or
   * moves the liquidity by the delta, deleting the mirror when it reaches 0.
   * The one exception is the repair of an old nonce, handled separately.
   */
  lemma LiquidityMovesByDelta(cfg: Config, sys: Data, tokenKey: Bytes, nonce: uint64, delta: int)
    requires cfg.saveToSystemAccount && cfg.sendAlways && nonce > 0
    requires Tracked(sys, NFTTokenKey(tokenKey, nonce))
    requires !(cfg.fixOldTokenLiquidity && Liquidity(sys, NFTTokenKey(tokenKey, nonce)) == 0 && delta < 0)
    ensures var key, r := NFTTokenKey(tokenKey, nonce), LiquiditySpec(cfg, sys, tokenKey, nonce, delta);
      && (r.Ok? <==> Liquidity(sys, key) + delta >= 0)
      && (r.Err? ==> r.error == ErrInvalidLiquidityForMECT)
      && (r.Ok? ==> Liquidity(r.value, key) == Liquidity(sys, key) + delta)
      && (r.Ok? ==> (key !in r.value <==> Liquidity(sys, key) + delta == 0))
      && (r.Ok? && Liquidity(sys, key) + delta > 0 ==> Tracked(r.value, key))
  {
  }

  /** Liquidity is never negative: no change can take a non-negative liquidity below zero. */
  lemma LiquidityStaysNonNegative(cfg: Config, sys: Data, tokenKey: Bytes, nonce: uint64, delta: int)
    requires Liquidity(sys, NFTTokenKey(tokenKey, nonce)) >= 0
    requires LiquiditySpec(cfg, sys, tokenKey, nonce, delta).Ok?
    ensures Liquidity(LiquiditySpec(cfg, sys, tokenKey, nonce, delta).value, NFTTokenKey(tokenKey, nonce)) >= 0
  {
  }

  /**
   * The repair of an old nonce: with the fix active, taking from a tracked
   * mirror at zero liquidity stops the tracking and keeps the value.
   */
  lemma OldTokenLiquidityRepair(cfg: Config, sys: Data, tokenKey: Bytes, nonce: uint64, delta: int)
    requires cfg.saveToSystemAccount && cfg.sendAlways && cfg.fixOldTokenLiquidity && nonce > 0 && delta < 0
    requires Tracked(sys, NFTTokenKey(tokenKey, nonce)) && Liquidity(sys, NFTTokenKey(tokenKey, nonce)) == 0
    ensures var key, r := NFTTokenKey(tokenKey, nonce), LiquiditySpec(cfg, sys, tokenKey, nonce, delta);
      && r.Ok? && !Tracked(r.value, key) && Liquidity(r.value, key) == 0
      && MirrorOf(r.value, key).value.value.metaData == MirrorOf(sys, key).value.value.metaData
  {
  }

  /** Untracked mirrors are left alone: a change of liquidity is then a no-op. */
  lemma UntrackedLiquidityUnchanged(cfg: Config, sys: Data, tokenKey: Bytes, nonce: uint64, delta: int)
    requires MirrorOf(sys, NFTTokenKey(tokenKey, nonce)).Ok? && MirrorOf(sys, NFTTokenKey(tokenKey, nonce)).value.Some?
    requires !Tracked(sys, NFTTokenKey(tokenKey, nonce))
    ensures LiquiditySpec(cfg, sys, tokenKey, nonce, delta) == Ok(sys)
  {
  }

  /**
   * The first save of a nonce once metadata is sent with every transfer
   * writes a mirror that tracks liquidity from zero and carries the record's
   * metadata.
   */
  lemma FirstMirrorTracksLiquidity(cfg: Config, env: Env, u: Data, sys: Data, senderShard: nat, key: Bytes, nonce: uint64, t: MECToken, mustUpdate: bool)
    requires cfg.sendAlways && nonce > 0 && t.metaData.Some? && Retrieve(sys, key) == Nil
    requires !cfg.fixOldTokenLiquidity || !Retrieve(u, key).Token? || Retrieve(u, key).token.metaData.None?
    requires Retrieve(u, key) == Nil || Retrieve(u, key).Token?
    ensures var r := MirrorSaveSpec(cfg, env, Some(u), sys, senderShard, key, nonce, t, mustUpdate);
      && r.Ok? && Tracked(r.value, key) && Liquidity(r.value, key) == 0
      && MirrorOf(r.value, key).value.value.metaData == t.metaData
      && MirrorOf(r.value, key).value.value.tokenType == t.tokenType
  {
  }

  /**
   * Before metadata was sent with every transfer, a mirror written with a
   * valid shard layout has one byte per shard, with this shard's byte and
   * the sender's shard byte set.
   */
  lemma MirrorMarksShards(cfg: Config, env: Env, u: Option<Data>, sys: Data, senderShard: nat, key: Bytes, nonce: uint64, t: MECToken, mustUpdate: bool)
    requires env.Valid() && !cfg.sendAlways
    requires senderShard < env.numberOfShards || senderShard == MetachainShardId
    requires nonce > 0 && t.metaData.Some? && (mustUpdate || Retrieve(sys, key) == Nil)
    ensures var r := MirrorSaveSpec(cfg, env, u, sys, senderShard, key, nonce, t, mustUpdate);
      && r.Ok? && key in r.value && r.value[key].Token?
      && var m := r.value[key].token;
      && m.metaData == t.metaData && m.value == 0 && m.reserved == []
      && |m.properties| == env.numberOfShards
      && (env.selfId != MetachainShardId ==> m.properties[env.selfId] == ExistsOnShard)
      && (senderShard != MetachainShardId ==> m.properties[senderShard] == ExistsOnShard)
      && (forall i :: 0 <= i < |m.properties| && i != env.selfId && i != senderShard ==> m.properties[i] == 0)
  {
    var m := NewMirror(cfg, env, u, sys, key, t).value;
    var p1 := MarkShard(m.properties, env.selfId).value;
    var p2 := MarkShard(p1, senderShard).value;
    assert MarkShards(cfg, env, m.properties, senderShard) == Ok(p2);
  }

  /**
   * A positive record saved and read back on the same account gives the
   * record again: whole without the save to the system account; otherwise
   * with the metadata coming back from the mirror and the reserved bytes dropped.
   */
  lemma SaveThenGet(cfg: Config, env: Env, acnt: AccountState, sys: Data, senderAddress: Bytes, tokenKey: Bytes, nonce: uint64,
                    t: MECToken, mustUpdate: bool, isReturnWithError: bool)
    requires SaveNFTSpec(cfg, env, acnt, sys, senderAddress, tokenKey, nonce, t, mustUpdate, isReturnWithError).Ok?
    requires t.value > 0
    requires cfg.saveToSystemAccount ==> nonce > 0 && t.metaData.Some? && (mustUpdate || Retrieve(sys, NFTTokenKey(tokenKey, nonce)) == Nil)
    ensures var saved := SaveNFTSpec(cfg, env, acnt, sys, senderAddress, tokenKey, nonce, t, mustUpdate, isReturnWithError).value;
      GetNFTOnDestination(cfg, saved.0, saved.1, tokenKey, nonce) == Ok((if cfg.saveToSystemAccount then t.(reserved := []) else t, false))
  {
    var key := NFTTokenKey(tokenKey, nonce);
    var saved := SaveNFTSpec(cfg, env, acnt, sys, senderAddress, tokenKey, nonce, t, mustUpdate, isReturnWithError).value;
    if cfg.saveToSystemAccount {
      var mirrored := MirrorSaveSpec(cfg, env, Some(acnt.data), sys, env.shardOf(senderAddress), key, nonce, t, mustUpdate);
      assert mirrored == Ok(saved.1);
      var m := NewMirror(cfg, env, Some(acnt.data), sys, key, t).value;
      assert MirrorOf(saved.1, key) == Ok(Some(m.(properties := MarkShards(cfg, env, m.properties, env.shardOf(senderAddress)).value)));
    }
  }

  /**
   * Saving a quantity of zero or less deletes the holder's key; the mirror
   * on the system account stays. A positive quantity, once metadata lives on
   * the system account, leaves the holder with only the type, the quantity
   * and the flags.
   */
  lemma SaveKeepsHolderRecordSmall(cfg: Config, env: Env, acnt: AccountState, sys: Data, senderAddress: Bytes, tokenKey: Bytes, nonce: uint64,
                                   t: MECToken, mustUpdate: bool, isReturnWithError: bool)
    requires SaveNFTSpec(cfg, env, acnt, sys, senderAddress, tokenKey, nonce, t, mustUpdate, isReturnWithError).Ok?
    ensures var key, saved := NFTTokenKey(tokenKey, nonce), SaveNFTSpec(cfg, env, acnt, sys, senderAddress, tokenKey, nonce, t, mustUpdate, isReturnWithError).value;
      && (t.value <= 0 ==> key !in saved.0 && saved.2 == [])
      && (t.value <= 0 && MirrorOf(sys, key).Ok? && MirrorOf(sys, key).value.Some? && !mustUpdate ==> MirrorOf(saved.1, key) == MirrorOf(sys, key))
      && (t.value > 0 && cfg.saveToSystemAccount ==>
            saved.0[key] == Token(MECToken(t.tokenType, t.value, t.properties, None, []))
            && saved.2 == env.marshal(MECToken(t.tokenType, t.value, t.properties, None, [])))
      && (t.value > 0 && !cfg.saveToSystemAccount ==> saved.0[key] == Token(t) && saved.1 == sys && saved.2 == env.marshal(t))
      && (forall k :: k != key ==> Retrieve(saved.0, k) == Retrieve(acnt.data, k) && Retrieve(saved.1, k) == Retrieve(sys, k))
  {
  }

  /**
   * A frozen collection blocks the save of any of its nonces on that account,
   * even when the nonce's own record is neither frozen nor paused.
   */
  lemma FrozenCollectionBlocksSave(cfg: Config, env: Env, acnt: AccountState, sys: Data, senderAddress: Bytes, tokenKey: Bytes, nonce: uint64,
                                   t: MECToken, mustUpdate: bool)
    requires cfg.saveToSystemAccount && nonce > 0 && acnt.address != env.mectSCAddress
    requires !UserFromBytes(t.properties).frozen && !IsPaused(sys, tokenKey) && !IsPaused(sys, NFTTokenKey(tokenKey, nonce))
    requires GetMECTData(acnt.data, tokenKey).Ok? && UserFromBytes(GetMECTData(acnt.data, tokenKey).value.properties).frozen
    ensures SaveNFTSpec(cfg, env, acnt, sys, senderAddress, tokenKey, nonce, t, mustUpdate, false) == Err(ErrMECTIsFrozenForAccount)
  {
  }

  /**
   * On the legacy path, once the metadata was reported as not yet sent to a
   * shard, the mirror's bitmap covers every shard and marks that one, and
   * asking again reports it as sent and changes nothing.
   */
  lemma WasAlreadySentMarksOnce(cfg: Config, env: Env, sys: Data, tickerID: Bytes, nonce: uint64, dstAddress: Bytes)
    requires cfg.saveToSystemAccount && !cfg.sendAlways && nonce > 0 && !env.SameShard(dstAddress)
    requires MirrorOf(sys, NFTTokenKey(TokenKey(tickerID), nonce)).Ok? && MirrorOf(sys, NFTTokenKey(TokenKey(tickerID), nonce)).value.Some?
    requires WasAlreadySentSpec(cfg, env, sys, tickerID, nonce, dstAddress).Ok? && !WasAlreadySentSpec(cfg, env, sys, tickerID, nonce, dstAddress).value.1
    ensures var key, after := NFTTokenKey(TokenKey(tickerID), nonce), WasAlreadySentSpec(cfg, env, sys, tickerID, nonce, dstAddress).value.0;
      && MirrorOf(after, key).Ok? && MirrorOf(after, key).value.Some?
      && var props := MirrorOf(after, key).value.value.properties;
      && |props| >= env.numberOfShards
      && props[env.shardOf(dstAddress)] == ExistsOnShard
      && WasAlreadySentSpec(cfg, env, after, tickerID, nonce, dstAddress) == Ok((after, true))
  {
    var key := NFTTokenKey(TokenKey(tickerID), nonce);
    var m := MirrorOf(sys, key).value.value;
    var props := Grown(m.properties, env.numberOfShards);
    var after := Saved(sys, key, Token(m.(properties := props[env.shardOf(dstAddress) := ExistsOnShard])));
    assert WasAlreadySentSpec(cfg, env, sys, tickerID, nonce, dstAddress).value.0 == after;
    var props' := props[env.shardOf(dstAddress) := ExistsOnShard];
    assert Grown(props', env.numberOfShards) == props';
  }

  /** Entries without a nonce or with a short value argument write no mirror. */
  lemma {:induction false} MultiMetaSkipsPlainEntries(cfg: Config, env: Env, sys: Data, senderShard: nat, args: seq<Bytes>, count: nat, i: nat)
    requires EnoughArguments(count, 1, |args|)
    requires forall j :: i <= j < count ==>
      Uint64Of(args[1 + 3 * j + 1]) == 0 || |args[1 + 3 * j + 2]| <= MaxLengthForValueToOptTransfer
    ensures MultiMetaFrom(cfg, env, sys, senderShard, args, count, i) == (sys, Success)
    decreases count - i
  {
    if i < count {
      EntryInRange(count, 1, |args|, i);
      MultiMetaSkipsPlainEntries(cfg, env, sys, senderShard, args, count, i + 1);
    }
  }
}
