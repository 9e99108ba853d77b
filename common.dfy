/** The token identifier grammar and the nil-to-zero helper shared by the built-in functions. */
module Common {

  import opened Encoding
  import opened Wrappers

  const TickerMinLength: nat := 3
  const TickerMaxLength: nat := 10
  const AdditionalRandomCharsLength: nat := 6
  const IdentifierMinLength: nat := TickerMinLength + AdditionalRandomCharsLength + 1
  const IdentifierMaxLength: nat := TickerMaxLength + AdditionalRandomCharsLength + 1

  /** The byte '-'. */
  const Dash: byte := 45

  /** 'A'..'Z' or '0'..'9'. */
  predicate IsTickerChar(c: byte) {
    (65 <= c <= 90) || (48 <= c <= 57)
  }

  /** 'a'..'f' or '0'..'9'. */
  predicate IsRandomChar(c: byte) {
    (97 <= c <= 102) || (48 <= c <= 57)
  }

  /** The character scan of `isTickerValid`, stopping at the first unreadable byte. */
  function AllTickerChars(t: Bytes): (ok: bool)
    ensures ok <==> forall i :: 0 <= i < |t| ==> IsTickerChar(t[i])
  {
    t == [] || (IsTickerChar(t[0]) && AllTickerChars(t[1..]))
  }

  /** The character scan of `randomCharsAreValid`. */
  function AllRandomChars(t: Bytes): (ok: bool)
    ensures ok <==> forall i :: 0 <= i < |t| ==> IsRandomChar(t[i])
  {
    t == [] || (IsRandomChar(t[0]) && AllRandomChars(t[1..]))
  }

  /** A ticker is 3 to 10 upper-case letters or digits. */
  function IsTickerValid(ticker: Bytes): (ok: bool)
    ensures ok <==> TickerMinLength <= |ticker| <= TickerMaxLength
                    && forall i :: 0 <= i < |ticker| ==> IsTickerChar(ticker[i])
  {
    if |ticker| < TickerMinLength || |ticker| > TickerMaxLength then false
    else AllTickerChars(ticker)
  }

  /** The random suffix is exactly 6 lower-case hex digits. */
  function RandomCharsAreValid(chars: Bytes): (ok: bool)
    ensures ok <==> |chars| == AdditionalRandomCharsLength
                    && forall i :: 0 <= i < |chars| ==> IsRandomChar(chars[i])
  {
    if |chars| != AdditionalRandomCharsLength then false
    else AllRandomChars(chars)
  }

  /** `ValidateToken`: TICKER-xxxxxx, checked as the source does, in order. */
  function ValidateToken(tokenID: Bytes): (ok: bool)
    ensures ok <==>
      && IdentifierMinLength <= |tokenID| <= IdentifierMaxLength
      && IsTickerValid(tokenID[..|tokenID| - AdditionalRandomCharsLength - 1])
      && tokenID[|tokenID| - AdditionalRandomCharsLength - 1] == Dash
      && RandomCharsAreValid(tokenID[|tokenID| - AdditionalRandomCharsLength..])
  {
    var n := |tokenID|;
    if n < IdentifierMinLength || n > IdentifierMaxLength then false
    else
      var tickerLen := n - AdditionalRandomCharsLength;
      if !IsTickerValid(tokenID[0..tickerLen - 1]) then false
      else if tokenID[tickerLen - 1] != Dash then false
      else RandomCharsAreValid(tokenID[tickerLen..n])
  }

  /** A valid identifier has exactly one dash, seven bytes from the end. */
  lemma ValidTokenDash(tokenID: Bytes)
    requires ValidateToken(tokenID)
    ensures forall i :: 0 <= i < |tokenID| ==> (tokenID[i] == Dash <==> i == |tokenID| - 7)
  {
    var n := |tokenID|;
    forall i | 0 <= i < n
      ensures tokenID[i] == Dash <==> i == n - 7
    {
      if i < n - 7 {
        assert tokenID[..n - 7][i] == tokenID[i];
      } else if i > n - 7 {
        assert tokenID[n - 6..][i - (n - 6)] == tokenID[i];
      }
    }
  }

  /** A valid identifier splits on '-' into the ticker and the random suffix. */
  lemma ValidTokenSplit(tokenID: Bytes)
    requires ValidateToken(tokenID)
    ensures Split(tokenID, Dash) == [tokenID[..|tokenID| - 7], tokenID[|tokenID| - 6..]]
  {
    ValidTokenParts(tokenID);
    SplitAtDash(tokenID, tokenID[..|tokenID| - 7], tokenID[|tokenID| - 6..]);
  }

  lemma SplitAtDash(t: Bytes, ticker: Bytes, suffix: Bytes)
    requires t == ticker + [Dash] + suffix && Dash !in ticker && Dash !in suffix
    ensures Split(t, Dash) == [ticker, suffix]
  {
    SplitAfterFreePrefix(ticker, suffix);
  }

  /** A valid identifier is its ticker, the dash and its suffix, with no other dash. */
  lemma ValidTokenParts(tokenID: Bytes)
    requires ValidateToken(tokenID)
    ensures var n := |tokenID|;
      && tokenID == tokenID[..n - 7] + [Dash] + tokenID[n - 6..]
      && Dash !in tokenID[..n - 7] && Dash !in tokenID[n - 6..]
  {
    var n := |tokenID|;
    ValidTokenDash(tokenID);
    var ticker, suffix := tokenID[..n - 7], tokenID[n - 6..];
    assert tokenID == ticker + [Dash] + suffix;
    assert Dash !in suffix by {
      forall j | 0 <= j < |suffix| ensures suffix[j] != Dash {
        assert suffix[j] == tokenID[n - 6 + j];
      }
    }
    assert Dash !in ticker by {
      forall j | 0 <= j < |ticker| ensures ticker[j] != Dash {
        assert ticker[j] == tokenID[j];
      }
    }
  }

  lemma {:induction false} SplitAfterFreePrefix(a: Bytes, b: Bytes)
    requires Dash !in a && Dash !in b
    ensures Split(a + [Dash] + b, Dash) == [a, b]
    decreases |a|
  {
    if a == [] {
      assert a + [Dash] + b == [Dash] + b;
      assert ([Dash] + b)[1..] == b;
      SplitNoSep(b, Dash);
    } else {
      assert (a + [Dash] + b)[1..] == a[1..] + [Dash] + b;
      SplitAfterFreePrefix(a[1..], b);
      assert [a[0]] + a[1..] == a;
    }
  }

  /** An upper-case suffix is not a valid identifier. */
  lemma UpperCaseSuffixRejected()
    ensures !ValidateToken(Str("TOKEN-ABABAB"))
  {
    var t := Str("TOKEN-ABABAB");
    assert t[6] == 65;
    assert !IsRandomChar(t[|t| - 6..][0]);
  }

  /** `ZeroValueIfNil`: a missing big integer reads as zero. */
  function ZeroValueIfNil(value: Option<int>): (r: int)
    ensures value.None? ==> r == 0
    ensures value.Some? ==> r == value.value
  {
    if value.None? then 0 else value.value
  }
}
