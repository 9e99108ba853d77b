/**
 * The transfer allowlist of a token, kept on the system account: the add and
 * delete address functions, with the deduplicating append and the cap on the
 * number of addresses.
 */
module TransferRole {

  import opened Encoding
  import opened Wrappers
  import opened Store
  import opened Vm
  import opened ArgChecks
  import opened LogsAndEvents
  import opened Roles
  import opened GlobalSettings

  const TwoTo32: nat := 0x1_0000_0000

  type uint32 = n: int | 0 <= n < 0x1_0000_0000

  /** The configuration of one allowlist function: add or delete, and the cap. */
  datatype TransferAddressFunc = TransferAddressFunc(isSet: bool, maxNumAddresses: uint32)

  /** `NewMECTTransferRoleAddressFunc`: a cap below one is refused. */
  function NewMECTTransferRoleAddressFunc(maxNumAddresses: uint32, isSet: bool): (r: Result<TransferAddressFunc>)
    ensures r.Ok? <==> maxNumAddresses >= 1
    ensures r.Err? ==> r.error == ErrInvalidMaxNumAddresses
    ensures r.Ok? ==> r.value.isSet == isSet && r.value.maxNumAddresses == maxNumAddresses
  {
    if maxNumAddresses < 1 then Err(ErrInvalidMaxNumAddresses)
    else Ok(TransferAddressFunc(isSet, maxNumAddresses))
  }

  predicate NoDuplicates(s: seq<Bytes>)
  {
    forall i, j :: 0 <= i < j < |s| ==> s[i] != s[j]
  }

  /**
   * The append of `addNewAddresses` as a value: each new address in turn is
   * appended unless the list, including what this call appended, already has it.
   */
  function AddNewSpec(list: seq<Bytes>, news: seq<Bytes>): seq<Bytes>
    decreases |news|
  {
    if news == [] then list
    else AddNewSpec(if news[0] in list then list else list + [news[0]], news[1..])
  }

  /**
   * The held addresses keep their places at the front, the result holds
   * exactly the held and the new addresses, and no address is added twice.
   */
  lemma {:induction false} AddNewSpecProperties(list: seq<Bytes>, news: seq<Bytes>)
    ensures var r := AddNewSpec(list, news);
      && |list| <= |r| <= |list| + |news|
      && r[..|list|] == list
      && (forall x :: x in r <==> x in list || x in news)
      && (NoDuplicates(list) ==> NoDuplicates(r))
    decreases |news|
  {
    if news != [] {
      var next := if news[0] in list then list else list + [news[0]];
      AddNewSpecProperties(next, news[1..]);
      var r := AddNewSpec(list, news);
      assert r[..|list|] == next[..|next|][..|list|];
      assert news == [news[0]] + news[1..];
      forall x ensures x in r <==> x in list || x in news {
        assert x in next <==> x in list || x == news[0];
      }
    }
  }

  /** `uint32(len(list)) > maxNumAddresses`: the length is truncated to 32 bits. */
  predicate TooManyAddresses(list: seq<Bytes>, maxNumAddresses: uint32)
  {
    |list| % TwoTo32 > maxNumAddresses
  }

  /** `addNewAddresses`: a nested scan per new address, then the cap check. */
  method AddNewAddresses(list: seq<Bytes>, news: seq<Bytes>, maxNumAddresses: uint32) returns (res: seq<Bytes>, s: Status)
    ensures res == AddNewSpec(list, news)
    ensures s == (if TooManyAddresses(res, maxNumAddresses) then Failure(ErrTooManyTransferAddresses) else Success)
  {
    res := list;
    for k := 0 to |news|
      invariant AddNewSpec(res, news[k..]) == AddNewSpec(list, news)
    {
      var newAddress := news[k];
      var isNew := true;
      var i := 0;
      while i < |res| && isNew
        invariant 0 <= i <= |res|
        invariant isNew ==> newAddress !in res[..i]
        invariant !isNew ==> newAddress in res
        decreases |res| - i, isNew
      {
        if res[i] == newAddress {
          isNew := false;
        } else {
          assert res[..i + 1] == res[..i] + [res[i]];
          i := i + 1;
        }
      }
      if isNew {
        assert res[..i] == res;
        res := res + [newAddress];
      }
      assert news[k..][1..] == news[k + 1..];
    }
    s := if |res| % TwoTo32 > maxNumAddresses then Failure(ErrTooManyTransferAddresses) else Success;
  }

  /** The allowlist after the add or delete, before saving, or the cap error. */
  function UpdatedAddresses(f: TransferAddressFunc, addresses: seq<Bytes>, listed: seq<Bytes>): (r: Result<seq<Bytes>>)
    ensures f.isSet ==> (r.Ok? <==> !TooManyAddresses(AddNewSpec(addresses, listed), f.maxNumAddresses))
    ensures !f.isSet ==> r == Ok(DeleteRolesSpec(addresses, listed))
  {
    if f.isSet then
      var added := AddNewSpec(addresses, listed);
      if TooManyAddresses(added, f.maxNumAddresses) then Err(ErrTooManyTransferAddresses) else Ok(added)
    else Ok(DeleteRolesSpec(addresses, listed))
  }

  /**
   * `ProcessBuiltinFunction` as a value: the new data of the system account
   * and the output, or the error. Every error is found before any write.
   */
  function TransferAddressSpec(f: TransferAddressFunc, input: CallInput, env: Env, sys: AccountState): (r: Result<(Data, Output)>)
    ensures CheckBasicMECTArguments(input).Failure? ==> r == Err(CheckBasicMECTArguments(input).error)
    ensures r.Ok? ==>
      && input.callerAddr == env.mectSCAddress
      && env.isSystemAccount(input.recipientAddr)
      && GetRoles(sys.data, TransferAddressesKey(input.arguments[0])).Ok?
  {
    var basic := CheckBasicMECTArguments(input);
    if basic.Failure? then Err(basic.error)
    else if input.callerAddr != env.mectSCAddress then Err(ErrAddressIsNotMECTSystemSC)
    else if !env.isSystemAccount(input.recipientAddr) then Err(ErrOnlySystemAccountAccepted)
    else
      var tokenID, listed := input.arguments[0], input.arguments[1..];
      var key := TransferAddressesKey(tokenID);
      match GetRoles(sys.data, key)
        case Err(e) => Err(e)
        case Ok((addresses, _)) =>
          match UpdatedAddresses(f, addresses, listed)
            case Err(e) => Err(e)
            case Ok(updated) =>
              var entry := NewEntryForMECT(Str(input.functionName), tokenID, 0, 0, [sys.address] + listed);
              Ok((Saved(sys.data, key, RoleList(updated)), Output(0, [], [entry], map[])))
  }

  /** `ProcessBuiltinFunction` of the add and delete address functions. */
  method ProcessTransferAddress(f: TransferAddressFunc, input: CallInput, env: Env, sys: Account) returns (r: Result<VMOutput>)
    modifies sys
    ensures var spec := TransferAddressSpec(f, input, env, old(sys.State()));
      && (spec.Err? ==> r == Err(spec.error) && sys.data == old(sys.data))
      && (spec.Ok? ==> r.Ok? && fresh(r.value) && r.value.Snapshot() == spec.value.1 && sys.data == spec.value.0)
  {
    var basic := CheckBasicMECTArguments(input);
    if basic.Failure? {
      return Err(basic.error);
    }
    if input.callerAddr != env.mectSCAddress {
      return Err(ErrAddressIsNotMECTSystemSC);
    }
    if !env.isSystemAccount(input.recipientAddr) {
      return Err(ErrOnlySystemAccountAccepted);
    }
    var tokenID, listed := input.arguments[0], input.arguments[1..];
    var key := TransferAddressesKey(tokenID);
    var got := GetRoles(sys.data, key);
    if got.Err? {
      return Err(got.error);
    }
    var addresses := got.value.0;
    if f.isSet {
      var s;
      addresses, s := AddNewAddresses(addresses, listed, f.maxNumAddresses);
      if s.Failure? {
        return Err(s.error);
      }
    } else {
      addresses := DeleteRoles(addresses, listed);
    }
    sys.SaveKeyValue(key, RoleList(addresses));
    var out := new VMOutput(0);
    AddMECTEntryInVMOutput(out, Str(input.functionName), tokenID, 0, 0, [sys.address] + listed);
    return Ok(out);
  }

  /**
   * After adding, every listed address passes the allowlist check as sender
   * or as destination, the held addresses keep their order at the front, the
   * list stays within the cap, and a list without duplicates gets none.
   */
  lemma AddAddressesAllowlists(f: TransferAddressFunc, input: CallInput, env: Env, sys: AccountState)
    requires f.isSet
    requires TransferAddressSpec(f, input, env, sys).Ok?
    ensures var tokenID := input.arguments[0];
      var before := GetRoles(sys.data, TransferAddressesKey(tokenID)).value.0;
      var after := TransferAddressSpec(f, input, env, sys).value.0;
      var list := GetRoles(after, TransferAddressesKey(tokenID)).value.0;
      && (forall a, other :: a in input.arguments[1..] ==> HasTransferRole(true, after, a, other, tokenID))
      && (forall a :: a in list <==> a in before || a in input.arguments[1..])
      && |before| <= |list| && list[..|before|] == before
      && |list| % TwoTo32 <= f.maxNumAddresses
      && (NoDuplicates(before) ==> NoDuplicates(list))
  {
    var tokenID := input.arguments[0];
    var before := GetRoles(sys.data, TransferAddressesKey(tokenID)).value.0;
    AddNewSpecProperties(before, input.arguments[1..]);
  }

  /**
   * Adding fails with the cap error exactly when the deduplicated list would
   * pass the cap; the system account is then left as it was.
   */
  lemma AddAddressesCap(f: TransferAddressFunc, input: CallInput, env: Env, sys: AccountState)
    requires f.isSet
    requires CheckBasicMECTArguments(input) == Success
    requires input.callerAddr == env.mectSCAddress && env.isSystemAccount(input.recipientAddr)
    requires GetRoles(sys.data, TransferAddressesKey(input.arguments[0])).Ok?
    ensures var before := GetRoles(sys.data, TransferAddressesKey(input.arguments[0])).value.0;
      (TransferAddressSpec(f, input, env, sys) == Err(ErrTooManyTransferAddresses)) ==
        TooManyAddresses(AddNewSpec(before, input.arguments[1..]), f.maxNumAddresses)
  {
  }

  /**
   * After deleting, each address occurs as often as before less the times it
   * is listed; so in a list without duplicates a listed address is gone and
   * fails the allowlist check unless it is the other party.
   */
  lemma DeleteAddressesRemoves(f: TransferAddressFunc, input: CallInput, env: Env, sys: AccountState, a: Bytes)
    requires !f.isSet
    requires TransferAddressSpec(f, input, env, sys).Ok?
    ensures var tokenID := input.arguments[0];
      var before := GetRoles(sys.data, TransferAddressesKey(tokenID)).value.0;
      var after := TransferAddressSpec(f, input, env, sys).value.0;
      var list := GetRoles(after, TransferAddressesKey(tokenID)).value.0;
      && multiset(list)[a] == Max0(multiset(before)[a] as int - multiset(input.arguments[1..])[a] as int)
      && (multiset(before)[a] <= 1 && a in input.arguments[1..] ==> a !in list)
  {
    var tokenID := input.arguments[0];
    var before := GetRoles(sys.data, TransferAddressesKey(tokenID)).value.0;
    DeleteRolesCount(before, input.arguments[1..], a);
  }

  /** The log names the system account and lists the addresses after the token. */
  lemma TransferAddressLog(f: TransferAddressFunc, input: CallInput, env: Env, sys: AccountState)
    requires TransferAddressSpec(f, input, env, sys).Ok?
    ensures var out := TransferAddressSpec(f, input, env, sys).value.1;
      && |out.logs| == 1
      && out.logs[0].address == sys.address
      && out.logs[0].topics == [input.arguments[0], [], []] + input.arguments[1..]
  {
    var listed := input.arguments[1..];
    var e := TransferAddressSpec(f, input, env, sys).value.1.logs[0];
    assert e.topics == [input.arguments[0], [], []] + listed by {
      forall i | 0 <= i < |listed| ensures e.topics[3 + i] == listed[i] {
        assert ([sys.address] + listed)[i + 1] == listed[i];
      }
    }
  }
}
