/**
 * The two random generators of the server. `Math.random()` is an input here:
 * a draw `r` with 0 <= r < 1, taken as an exact real.
 */
module Generators {
  import opened Decimal

  const AccountNumberLow: nat := 1000000000
  const AccountNumberHigh: nat := 9999999999
  const OtpLow: nat := 100000
  const OtpHigh: nat := 999999

  /** `generateAccountNumber`: floor(1000000000 + r * 9000000000). */
  function GenerateAccountNumber(r: real): (n: nat)
    requires 0.0 <= r < 1.0
    ensures AccountNumberLow <= n <= AccountNumberHigh
  {
    (1000000000.0 + r * 9000000000.0).Floor
  }

  /** The number `generateOtp` draws: floor(100000 + r * 900000). */
  function OtpValue(r: real): (n: nat)
    requires 0.0 <= r < 1.0
    ensures OtpLow <= n <= OtpHigh
  {
    (100000.0 + r * 900000.0).Floor
  }

  /** A code `generateOtp` can produce: six digits, no leading zero. */
  predicate IsOtpCode(code: string) {
    |code| == 6 && AllDigits(code) && OtpLow <= ParseDecimal(code) <= OtpHigh
    && NatToDecimal(ParseDecimal(code)) == code
  }

  /** `generateOtp`: the drawn number rendered with `String`. */
  function GenerateOtp(r: real): (code: string)
    requires 0.0 <= r < 1.0
    ensures IsOtpCode(code)
    ensures code == NatToDecimal(OtpValue(r))
  {
    var n := OtpValue(r);
    Pow10Table();
    RenderedLength(n, 6);
    ParseRendered(n);
    NatToDecimal(n)
  }

  /** An account number as the registration stores it: ten digits, no leading zero. */
  predicate IsAccountNumber(s: string) {
    |s| == 10 && AllDigits(s) && s[0] != '0'
  }

  lemma RenderedAccountNumber(r: real)
    requires 0.0 <= r < 1.0
    ensures IsAccountNumber(NatToDecimal(GenerateAccountNumber(r)))
    ensures ParseDecimal(NatToDecimal(GenerateAccountNumber(r))) == GenerateAccountNumber(r)
  {
    Pow10Table();
    RenderedLength(GenerateAccountNumber(r), 10);
    ParseRendered(GenerateAccountNumber(r));
  }
}
