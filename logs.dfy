/**
 * Log entries emitted by the token functions, and the split of a
 * "TICKER-xxxxxx" identifier followed by nonce bytes back into its parts.
 */
module LogsAndEvents {

  import opened Encoding
  import opened Wrappers
  import opened Common
  import opened Vm

  const MECTRandomSequenceLength: nat := 6

  /**
   * `newEntryForMECT`: topics [token, nonce, value] in minimal big-endian form
   * (zero as the empty string), the first extra argument as the address and
   * the others appended to the topics in order.
   */
  function NewEntryForMECT(identifier: Bytes, tokenID: Bytes, nonce: uint64, value: int, args: seq<Bytes>): (e: LogEntry)
    ensures e.identifier == identifier
    ensures |e.topics| == 3 + (if |args| > 1 then |args| - 1 else 0)
    ensures e.topics[0] == tokenID
    ensures Minimal(e.topics[1]) && FromBE(e.topics[1]) == nonce
    ensures Minimal(e.topics[2]) && FromBE(e.topics[2]) == (if value < 0 then -value else value)
    ensures (nonce == 0) == (e.topics[1] == []) && (value == 0) == (e.topics[2] == [])
    ensures e.address == (if |args| > 0 then args[0] else [])
    ensures forall i :: 1 <= i < |args| ==> e.topics[2 + i] == args[i]
  {
    FromBEToBE(nonce);
    var topics := [tokenID, ToBE(nonce), BigBytes(value)];
    var extra := if |args| > 1 then args[1..] else [];
    assert forall i :: 1 <= i < |args| ==> (topics + extra)[2 + i] == args[i];
    LogEntry(identifier, if |args| > 0 then args[0] else [], topics + extra)
  }

  /** A fresh output holding `gasRemaining` and the one MECT entry. */
  method NewOutputWithEntry(gasRemaining: nat, identifier: Bytes, tokenID: Bytes, nonce: uint64, value: int, args: seq<Bytes>) returns (out: VMOutput)
    ensures fresh(out)
    ensures out.Snapshot() == Output(gasRemaining, [], [NewEntryForMECT(identifier, tokenID, nonce, value, args)], map[])
  {
    out := new VMOutput(gasRemaining);
    AddMECTEntryInVMOutput(out, identifier, tokenID, nonce, value, args);
  }

  /** `addMECTEntryInVMOutput`: exactly one entry is appended; nothing else changes. */
  method AddMECTEntryInVMOutput(out: VMOutput, identifier: Bytes, tokenID: Bytes, nonce: uint64, value: int, args: seq<Bytes>)
    modifies out
    ensures out.logs == old(out.logs) + [NewEntryForMECT(identifier, tokenID, nonce, value, args)]
    ensures out.gasRemaining == old(out.gasRemaining) && out.returnData == old(out.returnData)
    ensures out.outputAccounts == old(out.outputAccounts)
  {
    var entry := NewEntryForMECT(identifier, tokenID, nonce, value, args);
    out.logs := out.logs + [entry];
  }

  /** `boolToSlice`: `strconv.FormatBool` as bytes, which `strconv.ParseBool` reads back. */
  function BoolToSlice(b: bool): (r: Bytes)
    ensures |r| == (if b then 4 else 5)
    ensures ParseBool(r) == Some(b)
  {
    if b then Str("true")
    else
      assert Str("false")[0] != Str("true")[0];
      Str("false")
  }

  /** The reading of `strconv.ParseBool` for the two spellings `FormatBool` produces. */
  function ParseBool(s: Bytes): Option<bool>
  {
    if s == Str("true") then Some(true) else if s == Str("false") then Some(false) else None
  }

  // ---------------------------------------------------------------------
  // Splitting an identifier followed by nonce bytes

  /**
   * `extractTokenIdentifierAndNonceMECTWipe` (and `extractTokenAndNonce` of
   * the data-field parser), as written: split on every '-', then take the
   * first six bytes of the second piece as the random suffix and the rest of
   * that piece as the nonce. Bytes after a second '-' are dropped.
   */
  function ExtractTokenAndNonceAsWritten(arg: Bytes): (r: (Bytes, uint64))
    ensures Dash !in arg ==> r == (arg, 0)
  {
    var parts := Split(arg, Dash);
    if Dash !in arg then
      SplitNoSep(arg, Dash);
      (arg, 0)
    else if |parts| < 2 then (arg, 0)
    else if |parts[1]| <= MECTRandomSequenceLength then (arg, 0)
    else (parts[0] + [Dash] + parts[1][..MECTRandomSequenceLength], Uint64Of(parts[1][MECTRandomSequenceLength..]))
  }

  /** The position of the first '-', if any. */
  function DashIndex(s: Bytes): (r: Option<nat>)
    ensures r.None? <==> Dash !in s
    ensures r.Some? ==> r.value < |s| && s[r.value] == Dash && Dash !in s[..r.value]
  {
    if s == [] then None
    else if s[0] == Dash then Some(0)
    else match DashIndex(s[1..])
      case None => None
      case Some(i) =>
        assert s[..i + 1] == [s[0]] + s[1..][..i];
        Some(i + 1)
  }

  /**
   * The split as intended: the identifier is everything up to the first '-'
   * and the six bytes after it, and every byte after those is the nonce.
   * Used in place of the as-written split throughout the model.
   */
  function ExtractTokenAndNonce(arg: Bytes): (r: (Bytes, uint64))
    ensures Dash !in arg ==> r == (arg, 0)
  {
    match DashIndex(arg)
      case None => (arg, 0)
      case Some(i) =>
        if |arg| - (i + 1) <= MECTRandomSequenceLength then (arg, 0)
        else (arg[..i + 1 + MECTRandomSequenceLength], Uint64Of(arg[i + 1 + MECTRandomSequenceLength..]))
  }

  /** The first '-' after a dash-free prefix is the one right after it. */
  lemma {:induction false} DashIndexAfterFreePrefix(a: Bytes, b: Bytes)
    requires Dash !in a
    ensures DashIndex(a + [Dash] + b) == Some(|a|)
    decreases |a|
  {
    if a != [] {
      assert (a + [Dash] + b)[1..] == a[1..] + [Dash] + b;
      DashIndexAfterFreePrefix(a[1..], b);
    }
  }

  /** A valid identifier followed by the minimal big-endian bytes of any nonce splits back into both. */
  lemma ExtractTokenAndNonceRoundTrip(tokenID: Bytes, nonce: uint64)
    requires ValidateToken(tokenID)
    ensures ExtractTokenAndNonce(tokenID + ToBE(nonce)) == (tokenID, nonce)
  {
    var n := |tokenID|;
    ValidTokenParts(tokenID);
    var ticker, suffix, rest := tokenID[..n - 7], tokenID[n - 6..], ToBE(nonce);
    assert tokenID + rest == ticker + [Dash] + suffix + rest;
    ExtractAfterTicker(ticker, suffix, rest);
    if rest != [] {
      FromBEToBE(nonce);
      assert Uint64Of(rest) == nonce;
    }
  }

  /** After a dash-free ticker, a '-' and six bytes, the rest of the argument is the nonce. */
  lemma ExtractAfterTicker(ticker: Bytes, suffix: Bytes, rest: Bytes)
    requires Dash !in ticker && |suffix| == MECTRandomSequenceLength
    ensures ExtractTokenAndNonce(ticker + [Dash] + suffix + rest)
      == (ticker + [Dash] + suffix, if rest == [] then 0 else Uint64Of(rest))
  {
    var arg := ticker + [Dash] + suffix + rest;
    assert arg == ticker + [Dash] + (suffix + rest);
    DashIndexAfterFreePrefix(ticker, suffix + rest);
    assert DashIndex(arg) == Some(|ticker|);
    var k := |ticker| + 1 + MECTRandomSequenceLength;
    if rest == [] {
      assert arg == ticker + [Dash] + suffix;
    } else {
      assert arg[..k] == ticker + [Dash] + suffix;
      assert arg[k..] == rest;
    }
  }

  /** When nothing after the first '-' is another '-', the two splits agree. */
  lemma ExtractAgreesWithoutSecondDash(arg: Bytes)
    requires DashIndex(arg).Some?
    requires Dash !in arg[DashIndex(arg).value + 1..]
    ensures ExtractTokenAndNonceAsWritten(arg) == ExtractTokenAndNonce(arg)
  {
    var i := DashIndex(arg).value;
    var a, b := arg[..i], arg[i + 1..];
    assert arg == a + [Dash] + b;
    SplitAfterFreePrefix(a, b);
    if |b| > MECTRandomSequenceLength {
      assert arg[..i + 1 + MECTRandomSequenceLength] == a + [Dash] + b[..MECTRandomSequenceLength];
      assert arg[i + 1 + MECTRandomSequenceLength..] == b[MECTRandomSequenceLength..];
    }
  }

  /** "ABC-123456". */
  const SampleToken: Bytes := [65, 66, 67, 45, 49, 50, 51, 52, 53, 54]

  /**
   * The as-written split loses a nonce whose big-endian bytes contain 0x2D:
   * for nonce 45 (the single byte '-') it reports the whole argument and nonce 0.
   */
  lemma ExtractAsWrittenLosesDashNonce()
    ensures ExtractTokenAndNonceAsWritten(SampleToken + ToBE(45)) == (SampleToken + ToBE(45), 0)
    ensures ExtractTokenAndNonce(SampleToken + ToBE(45)) == (SampleToken, 45)
  {
    SampleTokenValid();
    ExtractTokenAndNonceRoundTrip(SampleToken, 45);
    DashNonceSplit();
  }

  lemma SampleTokenValid()
    ensures ValidateToken(SampleToken)
  {
    var t := SampleToken;
    assert t[..3] == [65, 66, 67];
    assert t[4..] == [49, 50, 51, 52, 53, 54];
  }

  /** The pieces of "ABC-123456-": the last piece is empty, so the suffix is only six bytes. */
  lemma DashNonceSplit()
    ensures ToBE(45) == [Dash]
    ensures Split(SampleToken + ToBE(45), Dash) == [[65, 66, 67], [49, 50, 51, 52, 53, 54], []]
  {
    assert ToBE(0) == [];
    var a: Bytes, b: Bytes := [65, 66, 67], [49, 50, 51, 52, 53, 54];
    assert SampleToken + [Dash] == a + [Dash] + (b + [Dash]);
    SplitAfterFreePrefix(b, []);
    assert b + [Dash] + [] == b + [Dash];
    SplitPrefixFree(a, b + [Dash], Dash);
  }
}
