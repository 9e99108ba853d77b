/** Checked subtraction of gas amounts. */
module GasCost {

  import opened Encoding
  import opened Wrappers

  /**
   * `SafeSubUint64`: (a - b, nil) when b <= a, otherwise (0, ErrSubtractionOverflow).
   * A success never wraps around: the result added back to b gives a.
   */
  function SafeSubUint64(a: nat, b: nat): (r: (nat, Option<Error>))
    requires IsUint64(a) && IsUint64(b)
    ensures a < b ==> r == (0, Some(ErrSubtractionOverflow))
    ensures a >= b ==> r.1 == None && r.0 + b == a
    ensures IsUint64(r.0) && r.0 <= a
    ensures r.1 == None ==> (r.0 == 0 <==> a == b)
  {
    if a < b then (0, Some(ErrSubtractionOverflow)) else (a - b, None)
  }
}
