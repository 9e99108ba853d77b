/**
 * Byte strings and the standard-library encodings the token engine relies on:
 * the minimal big-endian form of math/big (`Int.Bytes`, `Int.SetBytes`,
 * `Int.Uint64`), lower-case hex (`hex.EncodeToString`), decimal text
 * (`Int.String`) and `bytes.Split`.
 */
module Encoding {

  import opened Wrappers

  /** One octet. */
  type byte = b: int | 0 <= b < 256

  type Bytes = seq<byte>

  const TwoTo64: nat := 0x1_0000_0000_0000_0000
  const MaxUint64: nat := TwoTo64 - 1

  predicate IsUint64(n: int) {
    0 <= n < TwoTo64
  }

  /** A Go `uint64`. */
  type uint64 = n: int | 0 <= n < 0x1_0000_0000_0000_0000

  /** Reduction modulo 2^64: what a Go `uint64` keeps of an unbounded result. */
  function Wrap64(n: int): (r: nat)
    ensures IsUint64(r)
    ensures IsUint64(n) ==> r == n
  {
    n % TwoTo64
  }

  /** A Go string literal as bytes (every character used here is ASCII). */
  function Str(s: string): (r: Bytes)
    ensures |r| == |s|
    ensures forall i :: 0 <= i < |s| ==> r[i] == (if s[i] as int < 256 then s[i] as int else 0)
  {
    seq(|s|, i requires 0 <= i < |s| => if s[i] as int < 256 then s[i] as int else 0)
  }

  // ---------------------------------------------------------------------
  // Minimal big-endian integers

  /** No leading zero byte: the shape `Int.Bytes` produces. */
  predicate Minimal(s: Bytes) {
    s == [] || s[0] != 0
  }

  /** `big.NewInt(0).SetUint64(n).Bytes()`: zero is the empty string. */
  function ToBE(n: nat): (r: Bytes)
    ensures (|r| == 0) == (n == 0)
    ensures Minimal(r)
    decreases n
  {
    if n == 0 then [] else ToBE(n / 256) + [n % 256]
  }

  /** `big.NewInt(0).SetBytes(s)`: the unsigned big-endian value of `s`. */
  function FromBE(s: Bytes): nat
  {
    if s == [] then 0 else FromBE(s[..|s| - 1]) * 256 + s[|s| - 1]
  }

  /** `big.NewInt(0).SetBytes(s).Uint64()`: the low 64 bits of the value. */
  function Uint64Of(s: Bytes): (r: nat)
    ensures IsUint64(r)
    ensures IsUint64(FromBE(s)) ==> r == FromBE(s)
  {
    Wrap64(FromBE(s))
  }

  /** `v.Bytes()` of a signed big integer: the magnitude, sign dropped. */
  function BigBytes(v: int): (r: Bytes)
    ensures FromBE(r) == (if v < 0 then -v else v)
    ensures Minimal(r) && (r == [] <==> v == 0)
  {
    FromBEToBE(if v < 0 then -v else v);
    ToBE(if v < 0 then -v else v)
  }

  lemma {:induction false} FromBEToBE(n: nat)
    ensures FromBE(ToBE(n)) == n
    decreases n
  {
    if n > 0 {
      var s := ToBE(n);
      assert s == ToBE(n / 256) + [n % 256];
      assert s[..|s| - 1] == ToBE(n / 256);
      FromBEToBE(n / 256);
    }
  }

  lemma {:induction false} FromBEPositive(s: Bytes)
    requires s != [] && s[0] != 0
    ensures FromBE(s) > 0
    decreases |s|
  {
    if |s| > 1 {
      FromBEPositive(s[..|s| - 1]);
    }
  }

  lemma {:induction false} ToBEFromBE(s: Bytes)
    requires Minimal(s)
    ensures ToBE(FromBE(s)) == s
    decreases |s|
  {
    if s != [] {
      var p := s[..|s| - 1];
      FromBEPositive(s);
      assert Minimal(p);
      ToBEFromBE(p);
      assert FromBE(s) / 256 == FromBE(p);
      assert FromBE(s) % 256 == s[|s| - 1];
      assert s == p + [s[|s| - 1]];
    }
  }

  /** Equal values have equal minimal encodings, and conversely. */
  lemma ToBEInjective(m: nat, n: nat)
    ensures ToBE(m) == ToBE(n) <==> m == n
  {
    FromBEToBE(m);
    FromBEToBE(n);
  }

  // ---------------------------------------------------------------------
  // Lower-case hexadecimal

  function HexDigit(d: nat): (c: byte)
    requires d < 16
    ensures (48 <= c <= 57) || (97 <= c <= 102)
  {
    if d < 10 then 48 + d else 87 + d
  }

  function HexValue(c: byte): Option<nat>
  {
    if 48 <= c <= 57 then Some(c - 48)
    else if 97 <= c <= 102 then Some(c - 87)
    else None
  }

  /** `hex.EncodeToString`: two lower-case digits per byte, high nibble first. */
  function Hex(s: Bytes): (r: Bytes)
    ensures |r| == 2 * |s|
  {
    if s == [] then [] else [HexDigit(s[0] / 16), HexDigit(s[0] % 16)] + Hex(s[1..])
  }

  /** `hex.DecodeString` restricted to lower-case digits. */
  function UnHex(h: Bytes): Option<Bytes>
    decreases |h|
  {
    if h == [] then Some([])
    else if |h| == 1 then None
    else match (HexValue(h[0]), HexValue(h[1]), UnHex(h[2..]))
      case (Some(hi), Some(lo), Some(rest)) => Some([hi * 16 + lo] + rest)
      case _ => None
  }

  lemma {:induction false} UnHexHex(s: Bytes)
    ensures UnHex(Hex(s)) == Some(s)
    decreases |s|
  {
    if s != [] {
      var h := Hex(s);
      assert h[2..] == Hex(s[1..]);
      UnHexHex(s[1..]);
      assert [s[0] / 16 * 16 + s[0] % 16] + s[1..] == s;
    }
  }

  // ---------------------------------------------------------------------
  // Decimal text of a big integer

  function DecimalNat(n: nat): (r: Bytes)
    ensures |r| >= 1
    ensures forall i :: 0 <= i < |r| ==> 48 <= r[i] <= 57
    decreases n
  {
    if n < 10 then [48 + n] else DecimalNat(n / 10) + [48 + n % 10]
  }

  /** `v.String()`: optional '-' then the decimal digits, so zero is "0". */
  function Decimal(v: int): (r: Bytes)
    ensures |r| >= 1
  {
    if v < 0 then [45] + DecimalNat(-v) else DecimalNat(v)
  }

  function DigitsValue(s: Bytes): nat
  {
    if s == [] then 0
    else DigitsValue(s[..|s| - 1]) * 10 + (if 48 <= s[|s| - 1] <= 57 then s[|s| - 1] - 48 else 0)
  }

  /** The inverse of `Decimal` on its image. */
  function ParseDecimal(s: Bytes): int
  {
    if s != [] && s[0] == 45 then -(DigitsValue(s[1..]) as int) else DigitsValue(s)
  }

  lemma {:induction false} DigitsValueDecimalNat(n: nat)
    ensures DigitsValue(DecimalNat(n)) == n
    decreases n
  {
    if n >= 10 {
      var r := DecimalNat(n);
      assert r[..|r| - 1] == DecimalNat(n / 10);
      DigitsValueDecimalNat(n / 10);
    }
  }

  lemma DecimalRoundTrip(v: int)
    ensures ParseDecimal(Decimal(v)) == v
  {
    if v < 0 {
      DigitsValueDecimalNat(-v);
      assert Decimal(v)[1..] == DecimalNat(-v);
    } else {
      DigitsValueDecimalNat(v);
    }
  }

  // ---------------------------------------------------------------------
  // bytes.Split on a one-byte separator

  /** `bytes.Split(s, [sep])`: the maximal separator-free pieces, at least one. */
  function Split(s: Bytes, sep: byte): (parts: seq<Bytes>)
    ensures |parts| >= 1
    decreases |s|
  {
    if s == [] then [[]]
    else
      var rest := Split(s[1..], sep);
      if s[0] == sep then [[]] + rest else [[s[0]] + rest[0]] + rest[1..]
  }

  function Join(parts: seq<Bytes>, sep: byte): Bytes
    requires |parts| >= 1
  {
    if |parts| == 1 then parts[0] else parts[0] + [sep] + Join(parts[1..], sep)
  }

  /** Splitting loses nothing: joining the pieces back gives the input. */
  lemma {:induction false} JoinSplit(s: Bytes, sep: byte)
    ensures Join(Split(s, sep), sep) == s
    decreases |s|
  {
    if s != [] {
      var rest := Split(s[1..], sep);
      JoinSplit(s[1..], sep);
      if s[0] != sep {
        var parts := Split(s, sep);
        if |rest| == 1 {
          assert parts == [[s[0]] + rest[0]];
        } else {
          assert parts[1..] == rest[1..];
        }
      }
    }
  }

  /** No piece contains the separator. */
  lemma {:induction false} SplitPiecesFree(s: Bytes, sep: byte)
    ensures forall k :: 0 <= k < |Split(s, sep)| ==> sep !in Split(s, sep)[k]
    decreases |s|
  {
    if s != [] {
      SplitPiecesFree(s[1..], sep);
    }
  }

  /** Without a separator the input is a single piece. */
  lemma {:induction false} SplitNoSep(s: Bytes, sep: byte)
    requires sep !in s
    ensures Split(s, sep) == [s]
    decreases |s|
  {
    if s != [] {
      SplitNoSep(s[1..], sep);
      assert [s[0]] + s[1..] == s;
    }
  }

  /** Splitting after a separator-free prefix: the prefix is the first piece, the rest split as before. */
  lemma {:induction false} SplitPrefixFree(a: Bytes, b: Bytes, sep: byte)
    requires sep !in a
    ensures Split(a + [sep] + b, sep) == [a] + Split(b, sep)
    decreases |a|
  {
    if a == [] {
      assert a + [sep] + b == [sep] + b;
      assert ([sep] + b)[1..] == b;
    } else {
      assert (a + [sep] + b)[1..] == a[1..] + [sep] + b;
      SplitPrefixFree(a[1..], b, sep);
      assert [a[0]] + a[1..] == a;
    }
  }

  /** Joining separator-free pieces and splitting again gives the pieces back. */
  lemma {:induction false} SplitJoin(parts: seq<Bytes>, sep: byte)
    requires |parts| >= 1
    requires forall k :: 0 <= k < |parts| ==> sep !in parts[k]
    ensures Split(Join(parts, sep), sep) == parts
    decreases |parts|
  {
    if |parts| == 1 {
      SplitNoSep(parts[0], sep);
    } else {
      SplitJoin(parts[1..], sep);
      SplitPrefixFree(parts[0], Join(parts[1..], sep), sep);
      assert [parts[0]] + parts[1..] == parts;
    }
  }

  /** Hex text never holds a byte outside the lower-case digits. */
  lemma {:induction false} HexDigitsOnly(s: Bytes, c: byte)
    requires !((48 <= c <= 57) || (97 <= c <= 102))
    ensures c !in Hex(s)
    decreases |s|
  {
    if s != [] {
      HexDigitsOnly(s[1..], c);
    }
  }

  /** Joining one more piece puts a separator and the piece after the joined text. */
  lemma {:induction false} JoinSnoc(parts: seq<Bytes>, x: Bytes, sep: byte)
    requires |parts| >= 1
    ensures Join(parts + [x], sep) == Join(parts, sep) + [sep] + x
    decreases |parts|
  {
    if |parts| == 1 {
      assert parts + [x] == [parts[0], x];
      assert (parts + [x])[1..] == [x];
    } else {
      assert (parts + [x])[1..] == parts[1..] + [x];
      JoinSnoc(parts[1..], x, sep);
    }
  }
}
