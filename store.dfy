/**
 * Token records and the per-account key/value store they live in, with the
 * storage keys the built-in functions derive from a token identifier.
 *
 * A stored value is kept as the record it decodes to rather than as
 * marshalled bytes: `Raw` for plain byte values (global flags, latest
 * nonces), `Token` for a marshalled token record and `RoleList` for a
 * marshalled role or address list. Writing the empty byte string deletes
 * the key, as saving a nil value does in the account data trie.
 */
module Store {

  import opened Encoding
  import opened Wrappers
  import opened Common

  datatype TokenType = Fungible | NonFungible | SemiFungible

  /** The metadata of one NFT nonce. */
  datatype MetaData = MetaData(
    nonce: nat,
    name: Bytes,
    creator: Bytes,
    royalties: nat,
    hash: Bytes,
    uris: seq<Bytes>,
    attributes: Bytes)

  /** A token record: a balance or quantity, its flags, and (for NFTs) metadata. */
  datatype MECToken = MECToken(
    tokenType: TokenType,
    value: int,
    properties: Bytes,
    metaData: Option<MetaData>,
    reserved: Bytes)

  datatype Stored = Raw(bytes: Bytes) | Token(token: MECToken) | RoleList(roles: seq<Bytes>)

  type Data = map<Bytes, Stored>

  /** The nil value: saving it removes the key. */
  const Nil: Stored := Raw([])

  /** The record read for a key that holds nothing. */
  const EmptyFungible := MECToken(Fungible, 0, [], None, [])

  /** `SaveKeyValue`: a nil value deletes the key, anything else overwrites it. */
  function Saved(d: Data, key: Bytes, v: Stored): (r: Data)
    ensures v == Nil ==> key !in r
    ensures v != Nil ==> key in r && r[key] == v
    ensures forall k :: k != key ==> (k in r <==> k in d) && (k in r ==> r[k] == d[k])
  {
    if v == Nil then d - {key} else d[key := v]
  }

  /** `RetrieveValue`: an absent key reads as the empty value. */
  function Retrieve(d: Data, key: Bytes): Stored
  {
    if key in d then d[key] else Nil
  }

  /** The bytes of a plain value; a record read as plain bytes is treated as unreadable here. */
  function AsBytes(v: Stored): Bytes
  {
    if v.Raw? then v.bytes else []
  }

  /** The value of an account at one moment. */
  datatype AccountState = AccountState(address: Bytes, data: Data)

  /** An account: its address and its key/value data. */
  class Account {
    const address: Bytes
    var data: Data

    function State(): AccountState
      reads this
    {
      AccountState(address, data)
    }

    constructor (address: Bytes, data: Data)
      ensures this.address == address && this.data == data
    {
      this.address := address;
      this.data := data;
    }

    method SaveKeyValue(key: Bytes, v: Stored)
      modifies this
      ensures data == Saved(old(data), key, v)
    {
      if v == Nil {
        data := data - {key};
      } else {
        data := data[key := v];
      }
    }
  }

  /** A possibly nil account handle, as a value. */
  function StateOf(a: Account?): (r: Option<AccountState>)
    reads a
    ensures r.Some? <==> a != null
  {
    if a == null then None else Some(a.State())
  }

  // ---------------------------------------------------------------------
  // Storage keys. The literal prefixes are defined in the core library;
  // the values below stand in for them.

  const ProtectedKeyPrefix: Bytes := Str("MOTHEREARTH")
  const MECTKeyIdentifier: Bytes := Str("mect")
  const MECTRoleIdentifier: Bytes := Str("role")
  const MECTNFTLatestNonceIdentifier: Bytes := Str("nonce")

  const BaseMECTKeyPrefix: Bytes := ProtectedKeyPrefix + MECTKeyIdentifier
  const NoncePrefix: Bytes := ProtectedKeyPrefix + MECTNFTLatestNonceIdentifier
  const RoleKeyPrefix: Bytes := ProtectedKeyPrefix + MECTRoleIdentifier + MECTKeyIdentifier
  const TransferAddressesKeyPrefix: Bytes := ProtectedKeyPrefix + Str("transfer") + MECTKeyIdentifier

  function TokenKey(tokenID: Bytes): Bytes
  {
    BaseMECTKeyPrefix + tokenID
  }

  /** `computeMECTNFTTokenKey`: the token key followed by the minimal big-endian nonce. */
  function NFTTokenKey(tokenKey: Bytes, nonce: nat): (k: Bytes)
    ensures nonce == 0 ==> k == tokenKey
    ensures |k| > |tokenKey| <==> nonce > 0
    ensures k[..|tokenKey|] == tokenKey
  {
    tokenKey + ToBE(nonce)
  }

  /**
   * `getNonceKey`: where an account keeps the latest created nonce of a
   * token. The key is protected, and its fixed length prefix followed by
   * the token tells the tokens apart.
   */
  function NonceKey(tokenID: Bytes): (k: Bytes)
    ensures |k| == |NoncePrefix| + |tokenID| && k[|NoncePrefix|..] == tokenID
    ensures k[..|ProtectedKeyPrefix|] == ProtectedKeyPrefix
  {
    NoncePrefix + tokenID
  }

  function RoleKey(tokenID: Bytes): Bytes
  {
    RoleKeyPrefix + tokenID
  }

  function TransferAddressesKey(tokenID: Bytes): Bytes
  {
    TransferAddressesKeyPrefix + tokenID
  }

  /**
   * The four key families never meet: right after the protected prefix their
   * first bytes are 'm', 'n', 'r' and 't'.
   */
  lemma KeyFamiliesDistinct(t: Bytes, u: Bytes)
    ensures TokenKey(t) != NonceKey(u) && TokenKey(t) != RoleKey(u) && TokenKey(t) != TransferAddressesKey(u)
    ensures NonceKey(t) != RoleKey(u) && NonceKey(t) != TransferAddressesKey(u)
    ensures RoleKey(t) != TransferAddressesKey(u)
  {
    var p := |ProtectedKeyPrefix|;
    assert TokenKey(t)[p] == 109;
    assert NonceKey(t)[p] == 110 && NonceKey(u)[p] == 110;
    assert RoleKey(t)[p] == 114 && RoleKey(u)[p] == 114;
    assert TransferAddressesKey(u)[p] == 116;
  }

  /** The key of a token's nonce stays in the token family: it is never a latest-nonce key. */
  lemma NFTKeyNotNonceKey(t: Bytes, n: nat, u: Bytes)
    ensures NFTTokenKey(TokenKey(t), n) != NonceKey(u)
  {
    var p := |ProtectedKeyPrefix|;
    assert NFTTokenKey(TokenKey(t), n)[p] == TokenKey(t)[p] == 109;
    assert NonceKey(u)[p] == 110;
  }

  /**
   * Distinct (valid token, nonce) pairs never share a storage key: the dash
   * of a shorter valid identifier would have to fall inside the ticker of a
   * longer one, and the nonce encoding is injective.
   */
  lemma NFTKeyInjective(t1: Bytes, n1: nat, t2: Bytes, n2: nat)
    requires ValidateToken(t1) && ValidateToken(t2)
    ensures NFTTokenKey(TokenKey(t1), n1) == NFTTokenKey(TokenKey(t2), n2) <==> t1 == t2 && n1 == n2
  {
    var s1, s2 := NFTTokenKey(TokenKey(t1), n1), NFTTokenKey(TokenKey(t2), n2);
    if s1 == s2 {
      SameKeySameToken(t1, n1, t2, n2);
      SameKeySameToken(t2, n2, t1, n1);
      assert |t1| == |t2|;
      var p := |BaseMECTKeyPrefix|;
      assert t1 == s1[p..p + |t1|];
      assert t2 == s2[p..p + |t2|];
      assert ToBE(n1) == s1[p + |t1|..];
      assert ToBE(n2) == s2[p + |t2|..];
      ToBEInjective(n1, n2);
    }
  }

  lemma SameKeySameToken(t1: Bytes, n1: nat, t2: Bytes, n2: nat)
    requires ValidateToken(t1) && ValidateToken(t2)
    requires NFTTokenKey(TokenKey(t1), n1) == NFTTokenKey(TokenKey(t2), n2)
    ensures |t1| >= |t2|
  {
    if |t1| < |t2| {
      var s := NFTTokenKey(TokenKey(t1), n1);
      var p := |BaseMECTKeyPrefix|;
      var i := |t1| - 7;
      assert s[p + i] == t1[i];
      assert s[p + i] == t2[i];
      ValidTokenDash(t1);
      ValidTokenDash(t2);
      assert false;
    }
  }

  // ---------------------------------------------------------------------
  // The latest created nonce of a token, kept on the creator's account

  /** `getLatestNonce`: an absent key is 0; otherwise the low 64 bits of the stored big-endian value. */
  function LatestNonce(d: Data, tokenID: Bytes): (n: uint64)
    ensures NonceKey(tokenID) !in d ==> n == 0
  {
    var bytes := AsBytes(Retrieve(d, NonceKey(tokenID)));
    if |bytes| == 0 then 0 else Uint64Of(bytes)
  }

  /** What `saveLatestNonce` leaves: the minimal big-endian nonce, so that nonce 0 removes the key. */
  function SavedLatestNonce(d: Data, tokenID: Bytes, nonce: uint64): (r: Data)
    ensures LatestNonce(r, tokenID) == nonce
    ensures (NonceKey(tokenID) in r) <==> nonce > 0
    ensures forall k :: k != NonceKey(tokenID) ==> (k in r <==> k in d) && (k in r ==> r[k] == d[k])
  {
    FromBEToBE(nonce);
    Saved(d, NonceKey(tokenID), Raw(ToBE(nonce)))
  }

  method SaveLatestNonce(acnt: Account, tokenID: Bytes, nonce: uint64)
    modifies acnt
    ensures acnt.data == SavedLatestNonce(old(acnt.data), tokenID, nonce)
  {
    acnt.SaveKeyValue(NonceKey(tokenID), Raw(ToBE(nonce)));
  }
}
