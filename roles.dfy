/**
 * Role lists per (token, account): reading them, the first-occurrence search,
 * the in-place delete, the permission check the other functions rely on, and
 * the set/unset role built-in function with its multi-shard nonce seeding.
 */
module Roles {

  import opened Encoding
  import opened Wrappers
  import opened Store
  import opened Vm
  import opened Names
  import opened ArgChecks
  import opened LogsAndEvents

  /**
   * `getMECTRolesForAcnt`: an absent or empty value is a new, empty list;
   * a stored list is returned as is; anything else does not decode.
   */
  function GetRoles(d: Data, key: Bytes): (r: Result<(seq<Bytes>, bool)>)
    ensures key !in d ==> r == Ok(([], true))
    ensures r.Ok? && r.value.1 ==> r.value.0 == []
    ensures key in d && d[key].RoleList? ==> r == Ok((d[key].roles, false))
    ensures key in d && (d[key].Token? || (d[key].Raw? && d[key].bytes != [])) ==> r == Err(ErrUnmarshal)
  {
    if key !in d then Ok(([], true))
    else match d[key]
      case RoleList(roles) => Ok((roles, false))
      case Raw(b) => if b == [] then Ok(([], true)) else Err(ErrUnmarshal)
      case Token(_) => Err(ErrUnmarshal)
  }

  /** The position of the first occurrence of `role`. */
  function IndexOf(roles: seq<Bytes>, role: Bytes): (r: Option<nat>)
    ensures r.None? <==> role !in roles
    ensures r.Some? ==> r.value < |roles| && roles[r.value] == role && role !in roles[..r.value]
  {
    if roles == [] then None
    else if roles[0] == role then Some(0)
    else match IndexOf(roles[1..], role)
      case None => None
      case Some(i) =>
        assert roles[..i + 1] == [roles[0]] + roles[1..][..i];
        Some(i + 1)
  }

  lemma IndexOfUnique(roles: seq<Bytes>, role: Bytes, i: nat)
    requires i < |roles| && roles[i] == role && role !in roles[..i]
    ensures IndexOf(roles, role) == Some(i)
  {
  }

  /** `doesRoleExist`: the index of the first occurrence, or -1. */
  method DoesRoleExist(roles: seq<Bytes>, role: Bytes) returns (index: int, exist: bool)
    ensures exist <==> role in roles
    ensures exist ==> IndexOf(roles, role) == Some(index)
    ensures !exist ==> index == -1
  {
    for i := 0 to |roles|
      invariant role !in roles[..i]
    {
      if roles[i] == role {
        IndexOfUnique(roles, role, i);
        return i, true;
      }
      assert roles[..i + 1] == roles[..i] + [roles[i]];
    }
    assert roles[..|roles|] == roles;
    return -1, false;
  }

  /** Removing the first occurrence of a role, keeping the order of the rest. */
  function RemoveFirst(roles: seq<Bytes>, role: Bytes): (r: seq<Bytes>)
    ensures role !in roles ==> r == roles
    ensures role in roles ==> |r| == |roles| - 1 && multiset(r) == multiset(roles) - multiset{role}
  {
    match IndexOf(roles, role)
      case None => roles
      case Some(i) =>
        assert roles == roles[..i] + [roles[i]] + roles[i + 1..];
        roles[..i] + roles[i + 1..]
  }

  /** `deleteRoles` as a value: each listed role in turn loses its first occurrence. */
  function DeleteRolesSpec(roles: seq<Bytes>, dels: seq<Bytes>): seq<Bytes>
    decreases |dels|
  {
    if dels == [] then roles
    else DeleteRolesSpec(RemoveFirst(roles, dels[0]), dels[1..])
  }

  /** `deleteRoles`: shifts the list left over each removed role. */
  method DeleteRoles(roles: seq<Bytes>, dels: seq<Bytes>) returns (res: seq<Bytes>)
    ensures res == DeleteRolesSpec(roles, dels)
  {
    res := roles;
    for k := 0 to |dels|
      invariant DeleteRolesSpec(res, dels[k..]) == DeleteRolesSpec(roles, dels)
    {
      ghost var before := res;
      var index, exist := DoesRoleExist(res, dels[k]);
      if exist {
        res := res[..index] + res[index + 1..];
      }
      assert res == RemoveFirst(before, dels[k]);
      assert dels[k..][1..] == dels[k + 1..];
      assert DeleteRolesSpec(before, dels[k..]) == DeleteRolesSpec(res, dels[k + 1..]);
    }
  }

  function Max0(n: int): nat {
    if n < 0 then 0 else n
  }

  /**
   * After deleting, each role occurs as often as before less the number of
   * times it was listed, and never below zero: roles not listed keep their
   * count, a role listed once loses exactly one occurrence if it had any.
   */
  lemma {:induction false} DeleteRolesCount(roles: seq<Bytes>, dels: seq<Bytes>, x: Bytes)
    ensures multiset(DeleteRolesSpec(roles, dels))[x] == Max0(multiset(roles)[x] as int - multiset(dels)[x] as int)
    decreases |dels|
  {
    if dels != [] {
      var first, rest := dels[0], dels[1..];
      assert dels == [first] + rest;
      assert multiset(dels)[x] == multiset(rest)[x] + (if first == x then 1 else 0);
      DeleteRolesCount(RemoveFirst(roles, first), rest, x);
      RemoveFirstCount(roles, first, x);
    }
  }

  lemma RemoveFirstCount(roles: seq<Bytes>, role: Bytes, x: Bytes)
    ensures multiset(RemoveFirst(roles, role))[x] == Max0(multiset(roles)[x] as int - (if role == x then 1 else 0))
  {
    if role in roles {
      assert multiset(RemoveFirst(roles, role)) == multiset(roles) - multiset{role};
    }
  }

  /**
   * The permission check as a value: allowed exactly when the account is
   * present and its role list for the token holds the action.
   */
  function AllowedToExecute(acnt: Option<AccountState>, tokenID: Bytes, action: Bytes): (s: Status)
    ensures acnt.None? ==> s == Failure(ErrNilUserAccount)
    ensures s == Success <==>
      && acnt.Some?
      && RoleKey(tokenID) in acnt.value.data
      && acnt.value.data[RoleKey(tokenID)].RoleList?
      && action in acnt.value.data[RoleKey(tokenID)].roles
    ensures acnt.Some? && RoleKey(tokenID) !in acnt.value.data ==> s == Failure(ErrActionNotAllowed)
  {
    if acnt.None? then Failure(ErrNilUserAccount)
    else match GetRoles(acnt.value.data, RoleKey(tokenID))
      case Err(e) => Failure(e)
      case Ok((roles, isNew)) =>
        if isNew || action !in roles then Failure(ErrActionNotAllowed) else Success
  }

  /** `CheckAllowedToExecute`. */
  method CheckAllowedToExecute(acnt: Account?, tokenID: Bytes, action: Bytes) returns (s: Status)
    ensures s == AllowedToExecute(StateOf(acnt), tokenID, action)
  {
    if acnt == null {
      return Failure(ErrNilUserAccount);
    }
    var got := GetRoles(acnt.data, RoleKey(tokenID));
    if got.Err? {
      return Failure(got.error);
    }
    var (roles, isNew) := got.value;
    if isNew {
      return Failure(ErrActionNotAllowed);
    }
    var _, exist := DoesRoleExist(roles, action);
    if !exist {
      return Failure(ErrActionNotAllowed);
    }
    return Success;
  }

  // ---------------------------------------------------------------------
  // Set and unset roles

  /** The span of nonces reserved for each value of an address's last byte: MaxUint64 / 256, written out. */
  const StartNonceStep: nat := 0xFF_FFFF_FFFF_FFFF

  lemma StartNonceStepValue()
    ensures StartNonceStep == MaxUint64 / 256
  {
  }

  /**
   * `computeStartNonce`: (MaxUint64 / 256) times the last byte of the
   * address; an empty address would index out of range.
   */
  function ComputeStartNonce(dest: Bytes): (r: Result<uint64>)
    ensures dest == [] ==> r == Err(ErrRuntimePanic)
    ensures dest != [] ==> r.Ok? && r.value % StartNonceStep == 0 && r.value / StartNonceStep == dest[|dest| - 1]
  {
    if dest == [] then Err(ErrRuntimePanic)
    else Ok(StartNonceStep * dest[|dest| - 1])
  }

  /**
   * Addresses with different last bytes start at least a full span of
   * nonces apart, in the order of their last bytes; last byte 0 starts at 0.
   */
  lemma StartNoncesSpaced(a: Bytes, b: Bytes)
    requires a != [] && b != [] && a[|a| - 1] < b[|b| - 1]
    ensures ComputeStartNonce(a).value + StartNonceStep <= ComputeStartNonce(b).value
    ensures a[|a| - 1] == 0 ==> ComputeStartNonce(a).value == 0
  {
    var x, y := a[|a| - 1], b[|b| - 1];
    assert StartNonceStep * y - StartNonceStep * x == StartNonceStep * (y - x);
  }

  /**
   * Set or unset roles as a value: the new data of the destination account
   * and the output, or the error. Every error is found before any write.
   */
  function SetRolesSpec(isSet: bool, input: CallInput, env: Env, dst: Option<AccountState>): (r: Result<(Data, Output)>)
    ensures CheckBasicMECTArguments(input).Failure? ==> r == Err(CheckBasicMECTArguments(input).error)
    ensures CheckBasicMECTArguments(input) == Success && input.callerAddr != env.mectSCAddress ==> r == Err(ErrAddressIsNotMECTSystemSC)
    ensures r.Ok? ==> input.callerAddr == env.mectSCAddress && dst.Some?
  {
    var basic := CheckBasicMECTArguments(input);
    if basic.Failure? then Err(basic.error)
    else if input.callerAddr != env.mectSCAddress then Err(ErrAddressIsNotMECTSystemSC)
    else if dst.None? then Err(ErrNilUserAccount)
    else SetRolesOn(isSet, input, dst.value)
  }

  /** The role update once the caller and the account are known. */
  function SetRolesOn(isSet: bool, input: CallInput, dst: AccountState): (r: Result<(Data, Output)>)
    requires CheckBasicMECTArguments(input) == Success
  {
    var d, tokenID, listed := dst.data, input.arguments[0], input.arguments[1..];
    var key := RoleKey(tokenID);
    match GetRoles(d, key)
      case Err(e) => Err(e)
      case Ok((roles, _)) =>
        var newRoles := if isSet then roles + listed else DeleteRolesSpec(roles, listed);
        var seeded: Result<Data> :=
          if Str(MECTRoleNFTCreateMultiShard) !in listed then Ok(d)
          else match ComputeStartNonce(input.recipientAddr)
            case Err(e) => Err(e)
            case Ok(start) => Ok(SavedLatestNonce(d, tokenID, start));
        match seeded
          case Err(e) => Err(e)
          case Ok(d1) =>
            var entry := NewEntryForMECT(Str(input.functionName), tokenID, 0, 0, [dst.address] + listed);
            Ok((Saved(d1, key, RoleList(newRoles)), Output(0, [], [entry], map[])))
  }

  /** The scan of the listed roles for one role name. */
  method ContainsRole(listed: seq<Bytes>, role: Bytes) returns (found: bool)
    ensures found <==> role in listed
  {
    found := false;
    var i := 0;
    while i < |listed| && !found
      invariant 0 <= i <= |listed|
      invariant found ==> role in listed
      invariant !found ==> role !in listed[..i]
      decreases |listed| - i, !found
    {
      if listed[i] == role {
        found := true;
      } else {
        assert listed[..i + 1] == listed[..i] + [listed[i]];
        i := i + 1;
      }
    }
    if !found {
      assert listed[..i] == listed;
    }
  }

  /** `ProcessBuiltinFunction` of the set/unset role function. */
  method ProcessSetRoles(isSet: bool, input: CallInput, env: Env, dst: Account?) returns (r: Result<VMOutput>)
    modifies dst
    ensures var spec := SetRolesSpec(isSet, input, env, old(StateOf(dst)));
      && (spec.Err? ==> r == Err(spec.error) && (dst != null ==> dst.data == old(dst.data)))
      && (spec.Ok? ==> r.Ok? && fresh(r.value) && r.value.Snapshot() == spec.value.1 && dst.data == spec.value.0)
  {
    var basic := CheckBasicMECTArguments(input);
    if basic.Failure? {
      return Err(basic.error);
    }
    if input.callerAddr != env.mectSCAddress {
      return Err(ErrAddressIsNotMECTSystemSC);
    }
    if dst == null {
      return Err(ErrNilUserAccount);
    }
    r := SetRolesOnAccount(isSet, input, dst);
  }

  method SetRolesOnAccount(isSet: bool, input: CallInput, dst: Account) returns (r: Result<VMOutput>)
    requires CheckBasicMECTArguments(input) == Success
    modifies dst
    ensures var spec := SetRolesOn(isSet, input, old(dst.State()));
      && (spec.Err? ==> r == Err(spec.error) && dst.data == old(dst.data))
      && (spec.Ok? ==> r.Ok? && fresh(r.value) && r.value.Snapshot() == spec.value.1 && dst.data == spec.value.0)
  {
    var tokenID, listed := input.arguments[0], input.arguments[1..];
    var key := RoleKey(tokenID);
    var got := GetRoles(dst.data, key);
    if got.Err? {
      return Err(got.error);
    }
    var roles := got.value.0;
    if isSet {
      roles := roles + listed;
    } else {
      roles := DeleteRoles(roles, listed);
    }
    var found := ContainsRole(listed, Str(MECTRoleNFTCreateMultiShard));
    if found {
      var start := ComputeStartNonce(input.recipientAddr);
      if start.Err? {
        return Err(start.error);
      }
      SaveLatestNonce(dst, tokenID, start.value);
    }

    dst.SaveKeyValue(key, RoleList(roles));
    var out := new VMOutput(0);
    AddMECTEntryInVMOutput(out, Str(input.functionName), tokenID, 0, 0, [dst.address] + listed);
    return Ok(out);
  }

  /** Setting roles appends the listed roles, in argument order, after the held ones. */
  lemma SetRolesAppends(input: CallInput, env: Env, dst: AccountState)
    requires SetRolesSpec(true, input, env, Some(dst)).Ok?
    ensures var key := RoleKey(input.arguments[0]);
      GetRoles(SetRolesSpec(true, input, env, Some(dst)).value.0, key)
        == Ok((GetRoles(dst.data, key).value.0 + input.arguments[1..], false))
  {
  }

  /**
   * Unsetting roles: each role's count drops by the number of times it is
   * listed, never below zero; roles not listed are kept.
   */
  lemma UnsetRolesRemoves(input: CallInput, env: Env, dst: AccountState, x: Bytes)
    requires SetRolesSpec(false, input, env, Some(dst)).Ok?
    ensures var key := RoleKey(input.arguments[0]);
      var after := GetRoles(SetRolesSpec(false, input, env, Some(dst)).value.0, key).value.0;
      multiset(after)[x] == Max0(multiset(GetRoles(dst.data, key).value.0)[x] as int - multiset(input.arguments[1..])[x] as int)
  {
    var key := RoleKey(input.arguments[0]);
    DeleteRolesCount(GetRoles(dst.data, key).value.0, input.arguments[1..], x);
  }

  /**
   * Listing the multi-shard create role, whether setting or unsetting, sets
   * the latest nonce to the start nonce of the recipient; otherwise the
   * latest nonce is untouched.
   */
  lemma SetRolesSeedsNonce(isSet: bool, input: CallInput, env: Env, dst: AccountState)
    requires SetRolesSpec(isSet, input, env, Some(dst)).Ok?
    ensures var tokenID := input.arguments[0];
      var after := SetRolesSpec(isSet, input, env, Some(dst)).value.0;
      LatestNonce(after, tokenID) ==
        if Str(MECTRoleNFTCreateMultiShard) in input.arguments[1..]
        then ComputeStartNonce(input.recipientAddr).value
        else LatestNonce(dst.data, tokenID)
  {
    var tokenID := input.arguments[0];
    KeyFamiliesDistinct(tokenID, tokenID);
  }

  /** The single log entry names the destination account and lists the roles after the token. */
  lemma SetRolesLog(isSet: bool, input: CallInput, env: Env, dst: AccountState)
    requires SetRolesSpec(isSet, input, env, Some(dst)).Ok?
    ensures var out := SetRolesSpec(isSet, input, env, Some(dst)).value.1;
      && |out.logs| == 1
      && out.logs[0].address == dst.address
      && out.logs[0].topics == [input.arguments[0], [], []] + input.arguments[1..]
  {
    var listed := input.arguments[1..];
    var e := SetRolesSpec(isSet, input, env, Some(dst)).value.1.logs[0];
    assert |e.topics| == 3 + |listed|;
    assert e.topics == [input.arguments[0], [], []] + listed by {
      forall i | 0 <= i < |listed| ensures e.topics[3 + i] == listed[i] {
        assert ([dst.address] + listed)[i + 1] == listed[i];
      }
    }
  }
}
