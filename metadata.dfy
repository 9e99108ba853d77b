/**
 * The two-byte flag records of a token: the global settings kept on the
 * system account (paused, limited transfer, burn role for all) and the
 * per-account user flags (frozen). Only the first byte carries flags.
 */
module MectMetaData {

  import opened Encoding

  const LengthOfMECTMetadata: nat := 2

  /** Bit masks in the first byte of the global record. */
  const MetadataPaused: nat := 1
  const MetadataLimitedTransfer: nat := 2
  const BurnRoleForAll: nat := 4

  /** Bit mask in the first byte of the user record. */
  const MetadataFrozen: nat := 1

  datatype GlobalMetadata = GlobalMetadata(paused: bool, limitedTransfer: bool, burnRoleForAll: bool)

  datatype UserMetadata = UserMetadata(frozen: bool)

  const NoGlobalFlags := GlobalMetadata(false, false, false)

  /** `b & mask != 0` for a single-bit mask. */
  predicate HasBit(b: byte, mask: nat)
    requires mask == 1 || mask == 2 || mask == 4
  {
    (b / mask) % 2 == 1
  }

  function GlobalFromBytes(bytes: Bytes): (m: GlobalMetadata)
    ensures |bytes| != LengthOfMECTMetadata ==> m == NoGlobalFlags
  {
    if |bytes| != LengthOfMECTMetadata then NoGlobalFlags
    else GlobalMetadata(
      HasBit(bytes[0], MetadataPaused),
      HasBit(bytes[0], MetadataLimitedTransfer),
      HasBit(bytes[0], BurnRoleForAll))
  }

  /** The encoding is two bytes, the second always zero, and decodes back to `m`. */
  function GlobalToBytes(m: GlobalMetadata): (bytes: Bytes)
    ensures |bytes| == LengthOfMECTMetadata && bytes[1] == 0
    ensures bytes[0] < 8
    ensures HasBit(bytes[0], MetadataPaused) == m.paused
    ensures HasBit(bytes[0], MetadataLimitedTransfer) == m.limitedTransfer
    ensures HasBit(bytes[0], BurnRoleForAll) == m.burnRoleForAll
    ensures GlobalFromBytes(bytes) == m
  {
    [(if m.paused then MetadataPaused else 0)
      + (if m.limitedTransfer then MetadataLimitedTransfer else 0)
      + (if m.burnRoleForAll then BurnRoleForAll else 0), 0]
  }

  function UserFromBytes(bytes: Bytes): (m: UserMetadata)
    ensures |bytes| != LengthOfMECTMetadata ==> !m.frozen
  {
    if |bytes| != LengthOfMECTMetadata then UserMetadata(false)
    else UserMetadata(HasBit(bytes[0], MetadataFrozen))
  }

  /** Frozen encodes as [1, 0], not frozen as [0, 0]; decoding gives `m` back. */
  function UserToBytes(m: UserMetadata): (bytes: Bytes)
    ensures bytes == (if m.frozen then [1, 0] else [0, 0])
    ensures UserFromBytes(bytes) == m
  {
    [if m.frozen then MetadataFrozen else 0, 0]
  }

  /** Decoding ignores the second byte and the bits above the three flags. */
  lemma GlobalFromBytesFirstByteOnly(a: Bytes, b: Bytes)
    requires |a| == LengthOfMECTMetadata && |b| == LengthOfMECTMetadata
    requires a[0] % 8 == b[0] % 8
    ensures GlobalFromBytes(a) == GlobalFromBytes(b)
  {
    FlagBitsOfLowBits(a[0]);
    FlagBitsOfLowBits(b[0]);
  }

  lemma FlagBitsOfLowBits(x: byte)
    ensures HasBit(x, 1) == HasBit(x % 8, 1)
    ensures HasBit(x, 2) == HasBit(x % 8, 2)
    ensures HasBit(x, 4) == HasBit(x % 8, 4)
  {
    var q := x / 8;
    assert x == 8 * q + x % 8;
    assert x / 2 == 4 * q + (x % 8) / 2;
    assert x / 4 == 2 * q + (x % 8) / 4;
  }

  /** Re-encoding a decoded record keeps exactly the three flag bits of the first byte. */
  lemma GlobalReencode(bytes: Bytes)
    requires |bytes| == LengthOfMECTMetadata
    ensures GlobalToBytes(GlobalFromBytes(bytes)) == [bytes[0] % 8, 0]
  {
    FlagBitsOfLowBits(bytes[0]);
    var low := bytes[0] % 8;
    assert low == 0 || low == 1 || low == 2 || low == 3 || low == 4 || low == 5 || low == 6 || low == 7;
  }

  /** Re-encoding a decoded user record keeps exactly the frozen bit. */
  lemma UserReencode(bytes: Bytes)
    requires |bytes| == LengthOfMECTMetadata
    ensures UserToBytes(UserFromBytes(bytes)) == [bytes[0] % 2, 0]
  {
  }

  /** Paused together with limited transfer is the byte 3. */
  lemma PausedAndLimitedIsThree()
    ensures GlobalToBytes(GlobalMetadata(true, true, false)) == [3, 0]
  {
  }
}
