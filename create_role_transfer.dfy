/**
 * The hand-over of the NFT create role from one account to another. Called
 * by the system smart contract on the current owner, it takes the role and
 * the latest nonce away and sends them on, either directly to an account of
 * the same shard or as a cross-shard call; called on the next owner with the
 * nonce, it installs both.
 */
module CreateRoleTransfer {

  import opened Encoding
  import opened Wrappers
  import opened Store
  import opened Vm
  import opened Names
  import opened ArgChecks
  import opened LogsAndEvents
  import opened Roles
  import opened MectTransfer

  /** The role handed over. */
  const CreateRole: Bytes := Str(MECTRoleNFTCreate)

  /**
   * The data of the account called on, the data of the account loaded for a
   * same-shard destination, and the result. On an error the accounts hold
   * whatever was written before it; the first is absent when the call came
   * without an account.
   */
  datatype Handover = Handover(dst: Option<Data>, dest: Data, result: Result<Output>)

  // ---------------------------------------------------------------------
  // The role list of one token

  /** `addCreateRoleToAccount` as a value: the role is appended unless it is already held. */
  function AddCreateRoleSpec(d: Data, key: Bytes): Result<Data>
  {
    match GetRoles(d, key)
      case Err(e) => Err(e)
      case Ok((roles, _)) => if CreateRole in roles then Ok(d) else Ok(Saved(d, key, RoleList(roles + [CreateRole])))
  }

  /** `deleteCreateRoleFromAccount` as a value: the first occurrence of the role is removed. */
  function DeleteCreateRoleSpec(d: Data, key: Bytes): Result<Data>
  {
    match GetRoles(d, key)
      case Err(e) => Err(e)
      case Ok((roles, _)) => Ok(Saved(d, key, RoleList(DeleteRolesSpec(roles, [CreateRole]))))
  }

  /** `addCreateRoleToAccount`: a scan of the held roles, then the append. */
  method AddCreateRoleToAccount(acnt: Account, key: Bytes) returns (s: Status)
    modifies acnt
    ensures var spec := AddCreateRoleSpec(old(acnt.data), key);
      && (spec.Err? ==> s == Failure(spec.error) && acnt.data == old(acnt.data))
      && (spec.Ok? ==> s == Success && acnt.data == spec.value)
  {
    var got := GetRoles(acnt.data, key);
    if got.Err? {
      return Failure(got.error);
    }
    var roles := got.value.0;
    var held := ContainsRole(roles, CreateRole);
    if held {
      return Success;
    }
    acnt.SaveKeyValue(key, RoleList(roles + [CreateRole]));
    return Success;
  }

  /** `deleteCreateRoleFromAccount`. */
  method DeleteCreateRoleFromAccount(acnt: Account, key: Bytes) returns (s: Status)
    modifies acnt
    ensures var spec := DeleteCreateRoleSpec(old(acnt.data), key);
      && (spec.Err? ==> s == Failure(spec.error) && acnt.data == old(acnt.data))
      && (spec.Ok? ==> s == Success && acnt.data == spec.value)
  {
    var got := GetRoles(acnt.data, key);
    if got.Err? {
      return Failure(got.error);
    }
    var roles := DeleteRoles(got.value.0, [CreateRole]);
    acnt.SaveKeyValue(key, RoleList(roles));
    return Success;
  }

  /**
   * What an account receiving the role goes through, in both legs: the
   * latest nonce is saved, then the role is added. The data afterwards (the
   * nonce alone if reading the roles failed) and the status.
   */
  function Received(d: Data, tokenID: Bytes, nonce: uint64): (Data, Status)
  {
    var d1 := SavedLatestNonce(d, tokenID, nonce);
    match AddCreateRoleSpec(d1, RoleKey(tokenID))
      case Err(e) => (d1, Failure(e))
      case Ok(d2) => (d2, Success)
  }

  method Receive(acnt: Account, tokenID: Bytes, nonce: uint64) returns (s: Status)
    modifies acnt
    ensures (acnt.data, s) == Received(old(acnt.data), tokenID, nonce)
  {
    SaveLatestNonce(acnt, tokenID, nonce);
    s := AddCreateRoleToAccount(acnt, RoleKey(tokenID));
  }

  // ---------------------------------------------------------------------
  // The two legs

  /** The call data that carries the role and the nonce to the next owner in another shard. */
  function HandoverData(tokenID: Bytes, nonce: uint64): Bytes
  {
    TransferTxData(Str(BuiltInFunctionMECTNFTCreateRoleTransfer), [tokenID, ToBE(nonce)])
  }

  /** The one zero-value call sent to the destination, naming the caller as sender. */
  function HandoverCall(input: CallInput, tokenID: Bytes, nonce: uint64, destAddress: Bytes): map<Bytes, OutputAccount>
  {
    var transfer := OutputTransfer(0, 0, 0, HandoverData(tokenID, nonce), DirectCall, input.callerAddr);
    map[destAddress := OutputAccount(destAddress, [transfer])]
  }

  /**
   * The leg at the current owner: two arguments, the second an address; the
   * latest nonce is read and cleared, the role is removed, and the role and
   * nonce are installed on a same-shard destination account (`dest`, loaded
   * for that address) and always sent on as a call to the destination.
   */
  function CurrentOwnerSpec(env: Env, input: CallInput, dst: AccountState, dest: AccountState): (h: Handover)
    ensures h.dst.Some?
    ensures |input.arguments| != 2 ==> h == Handover(Some(dst.data), dest.data, Err(ErrInvalidArguments))
    ensures |input.arguments| == 2 && |input.arguments[1]| != |input.callerAddr| ==>
      h == Handover(Some(dst.data), dest.data, Err(ErrInvalidArguments))
    ensures !env.SameShard(if |input.arguments| == 2 then input.arguments[1] else []) ==> h.dest == dest.data
  {
    var args := input.arguments;
    if |args| != 2 || |args[1]| != |input.callerAddr| then Handover(Some(dst.data), dest.data, Err(ErrInvalidArguments))
    else
      var tokenID, destAddress := args[0], args[1];
      var nonce := LatestNonce(dst.data, tokenID);
      var d1 := SavedLatestNonce(dst.data, tokenID, 0);
      match DeleteCreateRoleSpec(d1, RoleKey(tokenID))
        case Err(e) => Handover(Some(d1), dest.data, Err(e))
        case Ok(d2) => HandedOver(env, input, dst.address, tokenID, nonce, destAddress, d2, dest)
  }

  /**
   * The current owner's leg once its role is gone (`d2` is its data then):
   * the role and nonce installed on a same-shard destination, and the call
   * to the destination.
   */
  function HandedOver(env: Env, input: CallInput, owner: Bytes, tokenID: Bytes, nonce: uint64, destAddress: Bytes, d2: Data,
                      dest: AccountState): (h: Handover)
    ensures h.dst == Some(d2)
    ensures !env.SameShard(destAddress) ==> h.dest == dest.data
  {
    var gave := NewEntryForMECT(Str(input.functionName), tokenID, 0, 0, [owner, BoolToSlice(false)]);
    if !env.SameShard(destAddress) then
      Handover(Some(d2), dest.data, Ok(Output(0, [], [gave], HandoverCall(input, tokenID, nonce, destAddress))))
    else
      var (e2, st) := Received(dest.data, tokenID, nonce);
      if st.Failure? then Handover(Some(d2), e2, Err(st.error))
      else
        var got := NewEntryForMECT(Str(input.functionName), tokenID, 0, 0, [destAddress, BoolToSlice(true)]);
        Handover(Some(d2), e2, Ok(Output(0, [], [gave, got], HandoverCall(input, tokenID, nonce, destAddress))))
  }

  /**
   * The leg at the next owner: two arguments, the second the nonce; the
   * latest nonce is set to its low 64 bits and the role is added. The data
   * afterwards and the result.
   */
  function NextOwnerSpec(input: CallInput, dst: AccountState): (r: (Data, Result<Output>))
    ensures |input.arguments| != 2 ==> r == (dst.data, Err(ErrInvalidArguments))
  {
    var args := input.arguments;
    if |args| != 2 then (dst.data, Err(ErrInvalidArguments))
    else
      var tokenID := args[0];
      var (d, st) := Received(dst.data, tokenID, Uint64Of(args[1]));
      if st.Failure? then (d, Err(st.error))
      else (d, Ok(Output(0, [], [NewEntryForMECT(Str(input.functionName), tokenID, 0, 0, [dst.address, BoolToSlice(true)])], map[])))
  }

  /**
   * `ProcessBuiltinFunction` of the create role transfer as a value. The
   * call comes without a sender account and with the account called on; the
   * system smart contract as caller selects the current-owner leg.
   */
  function CreateRoleTransferSpec(env: Env, input: CallInput, sndPresent: bool, dst: Option<AccountState>, dest: AccountState)
    : (h: Handover)
    ensures CheckBasicMECTArguments(input).Failure? ==> h == Handover(DataOf(dst), dest.data, Err(CheckBasicMECTArguments(input).error))
    ensures CheckBasicMECTArguments(input) == Success && sndPresent ==> h == Handover(DataOf(dst), dest.data, Err(ErrInvalidArguments))
    ensures h.result.Ok? ==> CheckBasicMECTArguments(input) == Success && !sndPresent && dst.Some? && h.dst.Some?
    ensures input.callerAddr != env.mectSCAddress ==> h.dest == dest.data
  {
    var basic := CheckBasicMECTArguments(input);
    if basic.Failure? then Handover(DataOf(dst), dest.data, Err(basic.error))
    else if sndPresent then Handover(DataOf(dst), dest.data, Err(ErrInvalidArguments))
    else if dst.None? then Handover(None, dest.data, Err(ErrNilUserAccount))
    else if input.callerAddr == env.mectSCAddress then CurrentOwnerSpec(env, input, dst.value, dest)
    else
      var (d, r) := NextOwnerSpec(input, dst.value);
      Handover(Some(d), dest.data, r)
  }

  /**
   * `ProcessBuiltinFunction` of the create role transfer. `dest` is the
   * account loaded for the destination address when it is in this shard.
   */
  method ProcessNFTCreateRoleTransfer(env: Env, input: CallInput, acntSnd: Account?, acntDst: Account?, dest: Account)
    returns (r: Result<VMOutput>)
    requires acntDst != dest
    modifies acntDst, dest
    ensures var h := CreateRoleTransferSpec(env, input, acntSnd != null, old(StateOf(acntDst)), old(dest.State()));
      && (acntDst != null ==> acntDst.data == h.dst.value) && dest.data == h.dest
      && (h.result.Err? ==> r == Err(h.result.error))
      && (h.result.Ok? ==> r.Ok? && fresh(r.value) && r.value.Snapshot() == h.result.value)
  {
    var basic := CheckBasicMECTArguments(input);
    if basic.Failure? {
      return Err(basic.error);
    }
    if acntSnd != null {
      return Err(ErrInvalidArguments);
    }
    if acntDst == null {
      return Err(ErrNilUserAccount);
    }
    var out := new VMOutput(0);
    if input.callerAddr == env.mectSCAddress {
      var s := AtCurrentOwner(env, input, acntDst, dest, out);
      if s.Failure? {
        return Err(s.error);
      }
    } else {
      var s := AtNextOwner(input, acntDst, out);
      if s.Failure? {
        return Err(s.error);
      }
    }
    return Ok(out);
  }

  /** `executeTransferNFTCreateChangeAtCurrentOwner`, writing into the output. */
  method AtCurrentOwner(env: Env, input: CallInput, acntDst: Account, dest: Account, out: VMOutput) returns (s: Status)
    requires acntDst != dest
    requires out.Snapshot() == Output(0, [], [], map[])
    modifies acntDst, dest, out
    ensures var h := CurrentOwnerSpec(env, input, old(acntDst.State()), old(dest.State()));
      && acntDst.data == h.dst.value && dest.data == h.dest
      && (h.result.Err? ==> s == Failure(h.result.error))
      && (h.result.Ok? ==> s == Success && out.Snapshot() == h.result.value)
  {
    var args := input.arguments;
    if |args| != 2 || |args[1]| != |input.callerAddr| {
      return Failure(ErrInvalidArguments);
    }
    var tokenID, destAddress := args[0], args[1];
    var nonce := LatestNonce(acntDst.data, tokenID);
    SaveLatestNonce(acntDst, tokenID, 0);
    s := DeleteCreateRoleFromAccount(acntDst, RoleKey(tokenID));
    if s.Failure? {
      return;
    }
    s := HandOver(env, input, acntDst.address, tokenID, nonce, destAddress, acntDst.data, dest, out);
  }

  /** The rest of `executeTransferNFTCreateChangeAtCurrentOwner`, once the role is removed. */
  method HandOver(env: Env, input: CallInput, owner: Bytes, tokenID: Bytes, nonce: uint64, destAddress: Bytes, d2: Data,
                  dest: Account, out: VMOutput) returns (s: Status)
    requires out.Snapshot() == Output(0, [], [], map[])
    modifies dest, out
    ensures var h := HandedOver(env, input, owner, tokenID, nonce, destAddress, d2, old(dest.State()));
      && dest.data == h.dest
      && (h.result.Err? ==> s == Failure(h.result.error))
      && (h.result.Ok? ==> s == Success && out.Snapshot() == h.result.value)
  {
    var gave := NewEntryForMECT(Str(input.functionName), tokenID, 0, 0, [owner, BoolToSlice(false)]);
    AddMECTEntryInVMOutput(out, Str(input.functionName), tokenID, 0, 0, [owner, BoolToSlice(false)]);
    if env.SameShard(destAddress) {
      s := Receive(dest, tokenID, nonce);
      if s.Failure? {
        return;
      }
      var got := NewEntryForMECT(Str(input.functionName), tokenID, 0, 0, [destAddress, BoolToSlice(true)]);
      AddMECTEntryInVMOutput(out, Str(input.functionName), tokenID, 0, 0, [destAddress, BoolToSlice(true)]);
      assert out.logs == [gave, got];
    } else {
      assert out.logs == [gave];
    }
    out.outputAccounts := HandoverCall(input, tokenID, nonce, destAddress);
    return Success;
  }

  /** `executeTransferNFTCreateChangeAtNextOwner`, writing into the output. */
  method AtNextOwner(input: CallInput, acntDst: Account, out: VMOutput) returns (s: Status)
    requires out.Snapshot() == Output(0, [], [], map[])
    modifies acntDst, out
    ensures var r := NextOwnerSpec(input, old(acntDst.State()));
      && acntDst.data == r.0
      && (r.1.Err? ==> s == Failure(r.1.error))
      && (r.1.Ok? ==> s == Success && out.Snapshot() == r.1.value)
  {
    var args := input.arguments;
    if |args| != 2 {
      return Failure(ErrInvalidArguments);
    }
    var tokenID := args[0];
    s := Receive(acntDst, tokenID, Uint64Of(args[1]));
    if s.Failure? {
      return;
    }
    AddMECTEntryInVMOutput(out, Str(input.functionName), tokenID, 0, 0, [acntDst.address, BoolToSlice(true)]);
    return Success;
  }

  // ---------------------------------------------------------------------
  // Properties

  /** After adding, the role list reads back and holds the create role; the account may create. */
  lemma AddCreateRoleGrants(d: Data, tokenID: Bytes, address: Bytes)
    requires AddCreateRoleSpec(d, RoleKey(tokenID)).Ok?
    ensures var d' := AddCreateRoleSpec(d, RoleKey(tokenID)).value;
      AllowedToExecute(Some(AccountState(address, d')), tokenID, CreateRole) == Success
  {
    var key := RoleKey(tokenID);
    var roles := GetRoles(d, key).value.0;
    if CreateRole in roles {
      assert GetRoles(d, key).value.1 ==> roles == [];
    } else {
      assert CreateRole == (roles + [CreateRole])[|roles|];
    }
  }

  /** Adding the create role twice is adding it once. */
  lemma AddCreateRoleIdempotent(d: Data, key: Bytes)
    requires AddCreateRoleSpec(d, key).Ok?
    ensures AddCreateRoleSpec(AddCreateRoleSpec(d, key).value, key) == AddCreateRoleSpec(d, key)
  {
    var roles := GetRoles(d, key).value.0;
    if CreateRole !in roles {
      assert CreateRole == (roles + [CreateRole])[|roles|];
    }
  }

  /** Adding the create role keeps every role held, in order, with the create role at most appended. */
  lemma AddCreateRoleKeepsRoles(d: Data, key: Bytes)
    requires AddCreateRoleSpec(d, key).Ok?
    ensures var before, after := GetRoles(d, key).value.0, GetRoles(AddCreateRoleSpec(d, key).value, key).value.0;
      after == before || (CreateRole !in before && after == before + [CreateRole])
  {
  }

  /**
   * After the current-owner leg the owner's latest nonce is cleared and it
   * holds one create role fewer (none left if it held it once); no key
   * other than the latest nonce and the role list changes.
   */
  lemma CurrentOwnerGivesUp(env: Env, input: CallInput, dst: AccountState, dest: AccountState)
    requires CurrentOwnerSpec(env, input, dst, dest).result.Ok?
    ensures var d', tokenID := CurrentOwnerSpec(env, input, dst, dest).dst.value, input.arguments[0];
      var key := RoleKey(tokenID);
      && LatestNonce(d', tokenID) == 0
      && GetRoles(d', key).Ok?
      && multiset(GetRoles(d', key).value.0)[CreateRole] == Max0(multiset(GetRoles(dst.data, key).value.0)[CreateRole] as int - 1)
      && (forall k :: k != key && k != NonceKey(tokenID) ==> Retrieve(d', k) == Retrieve(dst.data, k))
  {
    var tokenID := input.arguments[0];
    var d1 := SavedLatestNonce(dst.data, tokenID, 0);
    assert CurrentOwnerSpec(env, input, dst, dest).dst == Some(DeleteCreateRoleSpec(d1, RoleKey(tokenID)).value);
    GivesUpCreateRole(dst.data, tokenID);
  }

  /** Clearing the latest nonce, then deleting the create role once, on the data of the current owner. */
  lemma GivesUpCreateRole(d: Data, tokenID: Bytes)
    requires DeleteCreateRoleSpec(SavedLatestNonce(d, tokenID, 0), RoleKey(tokenID)).Ok?
    ensures var d', key := DeleteCreateRoleSpec(SavedLatestNonce(d, tokenID, 0), RoleKey(tokenID)).value, RoleKey(tokenID);
      && LatestNonce(d', tokenID) == 0
      && GetRoles(d', key).Ok?
      && multiset(GetRoles(d', key).value.0)[CreateRole] == Max0(multiset(GetRoles(d, key).value.0)[CreateRole] as int - 1)
      && (forall k :: k != key && k != NonceKey(tokenID) ==> Retrieve(d', k) == Retrieve(d, k))
  {
    var key := RoleKey(tokenID);
    KeyFamiliesDistinct(tokenID, tokenID);
    var d1 := SavedLatestNonce(d, tokenID, 0);
    assert Retrieve(d1, key) == Retrieve(d, key);
    DeleteRolesCount(GetRoles(d1, key).value.0, [CreateRole], CreateRole);
  }

  /** Receiving the role with a nonce sets the latest nonce to it and lets the account create. */
  lemma ReceivedGrants(d: Data, tokenID: Bytes, nonce: uint64, address: Bytes)
    requires Received(d, tokenID, nonce).1 == Success
    ensures var d' := Received(d, tokenID, nonce).0;
      && LatestNonce(d', tokenID) == nonce
      && AllowedToExecute(Some(AccountState(address, d')), tokenID, CreateRole) == Success
  {
    var d1 := SavedLatestNonce(d, tokenID, nonce);
    AddCreateRoleGrants(d1, tokenID, address);
    KeyFamiliesDistinct(tokenID, tokenID);
    assert Retrieve(AddCreateRoleSpec(d1, RoleKey(tokenID)).value, NonceKey(tokenID)) == Retrieve(d1, NonceKey(tokenID));
  }

  /**
   * In the same shard the destination takes over the owner's latest nonce
   * and may create; the two log entries name the old owner ("false") and the
   * new one ("true").
   */
  lemma SameShardTakesOver(env: Env, input: CallInput, dst: AccountState, dest: AccountState)
    requires CurrentOwnerSpec(env, input, dst, dest).result.Ok?
    requires env.SameShard(input.arguments[1])
    ensures var h, tokenID := CurrentOwnerSpec(env, input, dst, dest), input.arguments[0];
      && LatestNonce(h.dest, tokenID) == LatestNonce(dst.data, tokenID)
      && AllowedToExecute(Some(AccountState(dest.address, h.dest)), tokenID, CreateRole) == Success
      && |h.result.value.logs| == 2
      && h.result.value.logs[0].address == dst.address && h.result.value.logs[0].topics[3] == BoolToSlice(false)
      && h.result.value.logs[1].address == input.arguments[1] && h.result.value.logs[1].topics[3] == BoolToSlice(true)
  {
    var tokenID := input.arguments[0];
    ReceivedGrants(dest.data, tokenID, LatestNonce(dst.data, tokenID), dest.address);
  }

  /**
   * The current-owner leg always sends exactly one zero-value call to the
   * destination, carrying the token and the owner's latest nonce.
   */
  lemma CurrentOwnerSends(env: Env, input: CallInput, dst: AccountState, dest: AccountState)
    requires CurrentOwnerSpec(env, input, dst, dest).result.Ok?
    ensures var o, destAddress := CurrentOwnerSpec(env, input, dst, dest).result.value, input.arguments[1];
      && o.outputAccounts.Keys == {destAddress}
      && o.outputAccounts[destAddress].outputTransfers
         == [OutputTransfer(0, 0, 0, HandoverData(input.arguments[0], LatestNonce(dst.data, input.arguments[0])), DirectCall, input.callerAddr)]
      && o.gasRemaining == 0
  {
  }

  /** The call data splits back into this function's name, the token and the nonce. */
  lemma HandoverDataRoundTrip(tokenID: Bytes, nonce: uint64)
    ensures var parts := Split(HandoverData(tokenID, nonce), At);
      && |parts| == 3 && parts[0] == Str(BuiltInFunctionMECTNFTCreateRoleTransfer)
      && UnHex(parts[1]) == Some(tokenID) && UnHex(parts[2]) == Some(ToBE(nonce))
      && Uint64Of(ToBE(nonce)) == nonce
  {
    assert At !in Str(BuiltInFunctionMECTNFTCreateRoleTransfer);
    var args := [tokenID, ToBE(nonce)];
    TransferTxDataRoundTrip(Str(BuiltInFunctionMECTNFTCreateRoleTransfer), args);
    var parts := Split(HandoverData(tokenID, nonce), At);
    assert UnHex(parts[0 + 1]) == Some(args[0]);
    assert UnHex(parts[1 + 1]) == Some(args[1]);
    FromBEToBE(nonce);
  }

  /**
   * The next-owner leg run on the arguments the call carries restores the
   * old owner's latest nonce on the receiving account and lets it create.
   */
  lemma NextOwnerRestoresNonce(next: CallInput, receiver: AccountState, tokenID: Bytes, nonce: uint64)
    requires next.arguments == [tokenID, ToBE(nonce)]
    requires NextOwnerSpec(next, receiver).1.Ok?
    ensures var d' := NextOwnerSpec(next, receiver).0;
      && LatestNonce(d', tokenID) == nonce
      && AllowedToExecute(Some(AccountState(receiver.address, d')), tokenID, CreateRole) == Success
  {
    FromBEToBE(nonce);
    ReceivedGrants(receiver.data, tokenID, nonce, receiver.address);
  }
}
