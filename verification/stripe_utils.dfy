/** `formatAmountForStripe` of lib/stripe-utils.ts: the amount in the
    currency's smallest unit. Currencies without a minor unit are passed
    through; every other amount is scaled by 100 and rounded. Amounts are
    exact reals. */
module StripeUtils {

  /** The currencies with no minor unit, upper-case. */
  const ZeroDecimalCurrencies: set<string> :=
    {"MGA", "BIF", "CLP", "PYG", "DJF", "RWF", "GNF", "UGX",
     "JPY", "VND", "VUV", "XAF", "KMF", "XOF", "KRW", "XPF"}

  /** `toUpperCase` on ASCII letters; other characters are kept. */
  function UpperChar(c: char): (u: char)
    ensures 'a' <= c <= 'z' ==> u as int == c as int - 32
    ensures !('a' <= c <= 'z') ==> u == c
    ensures !('a' <= u <= 'z')
  {
    if 'a' <= c <= 'z' then (c as int - 32) as char else c
  }

  function ToUpper(s: string): (u: string)
    ensures |u| == |s|
    ensures forall i :: 0 <= i < |s| ==> u[i] == UpperChar(s[i])
  {
    seq(|s|, i requires 0 <= i < |s| => UpperChar(s[i]))
  }

  /** Upper-casing twice is upper-casing once. */
  lemma ToUpperIdempotent(s: string)
    ensures ToUpper(ToUpper(s)) == ToUpper(s)
  {
    assert forall i :: 0 <= i < |s| ==> UpperChar(UpperChar(s[i])) == UpperChar(s[i]);
  }

  predicate IsZeroDecimal(currency: string) {
    ToUpper(currency) in ZeroDecimalCurrencies
  }

  /** `Math.round`: the nearest integer, halves rounded up. */
  function Round(x: real): (n: int)
    ensures x - 1.0 / 2.0 < n as real <= x + 1.0 / 2.0
  {
    (x + 1.0 / 2.0).Floor
  }

  /** `formatAmountForStripe`. */
  function FormatAmountForStripe(amount: real, currency: string): (r: real)
    ensures IsZeroDecimal(currency) ==> r == amount
    ensures !IsZeroDecimal(currency) ==> r == r.Floor as real && amount * 100.0 - 1.0 / 2.0 < r <= amount * 100.0 + 1.0 / 2.0
  {
    if IsZeroDecimal(currency) then amount else Round(amount * 100.0) as real
  }

  /** The currency code's case does not matter. */
  lemma CaseInsensitive(amount: real, currency: string)
    ensures FormatAmountForStripe(amount, currency) == FormatAmountForStripe(amount, ToUpper(currency))
  {
    ToUpperIdempotent(currency);
  }

  /** A whole amount in a currency with cents becomes exactly that many
      hundreds of the minor unit. */
  lemma WholeAmountScales(n: int, currency: string)
    requires !IsZeroDecimal(currency)
    ensures FormatAmountForStripe(n as real, currency) == (n * 100) as real
  {
    var m := n * 100;
    assert n as real * 100.0 == m as real;
    var k := Round(m as real);
    assert (k - m) as real < 1.0 && (m - k) as real < 1.0;
    assert k == m;
  }

  /** Yen are passed through: `JPY`, `jpy` and `Jpy` behave the same. */
  lemma YenIsZeroDecimal(amount: real)
    ensures FormatAmountForStripe(amount, "jpy") == amount
    ensures FormatAmountForStripe(amount, "Jpy") == amount
  {
    assert ToUpper("jpy") == "JPY";
    assert ToUpper("Jpy") == "JPY";
  }
}
