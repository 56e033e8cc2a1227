/**
 * Fresh identifiers. The source draws random 128-bit hex strings; the model
 * numbers them from a counter and writes the number in decimal, which keeps
 * every id distinct from every other.
 */
module Ids {

  function DigitChar(d: nat): char
    requires d < 10
  {
    "0123456789"[d]
  }

  /** The decimal digits of `n`. */
  function Decimal(n: nat): (s: string)
    ensures |s| >= 1
    ensures n >= 10 ==> |s| >= 2
  {
    if n < 10 then [DigitChar(n)] else Decimal(n / 10) + [DigitChar(n % 10)]
  }

  /** The id handed out for counter value `n`. */
  function Uuid(n: nat): (id: string)
    ensures id != ""
  {
    Decimal(n)
  }

  lemma DigitCharInjective(a: nat, b: nat)
    requires a < 10 && b < 10
    ensures DigitChar(a) == DigitChar(b) ==> a == b
  {
  }

  /** Distinct counter values give distinct ids. */
  lemma {:induction false} UuidInjective(a: nat, b: nat)
    ensures Uuid(a) == Uuid(b) ==> a == b
    decreases a
  {
    if Uuid(a) == Uuid(b) {
      if a < 10 && b < 10 {
        DigitCharInjective(a, b);
      } else if a >= 10 && b >= 10 {
        var sa, sb := Decimal(a), Decimal(b);
        assert sa[|sa| - 1] == DigitChar(a % 10) && sb[|sb| - 1] == DigitChar(b % 10);
        DigitCharInjective(a % 10, b % 10);
        assert sa[..|sa| - 1] == Decimal(a / 10) && sb[..|sb| - 1] == Decimal(b / 10);
        UuidInjective(a / 10, b / 10);
      }
    }
  }
}
