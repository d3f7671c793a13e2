/** Quotients and remainders by numbers that are not literals. */
module Arithmetic {

  lemma DivisionIsUnique(x: nat, d: nat, q: nat, r: nat)
    requires d > 0 && x == q * d + r && r < d
    ensures x % d == r && x / d == q
  {
    Quotient(x, d);
    assert (x / d - q) * d == r - x % d;
    Multiple(x / d - q, d);
  }

  lemma Quotient(x: nat, d: nat)
    requires d > 0
    ensures x == x / d * d + x % d
  {
  }

  lemma Multiple(e: int, d: nat)
    ensures e > 0 ==> e * d >= d
    ensures e < 0 ==> e * d + d <= 0
  {
    if e > 0 {
      MultipleOfNat(e - 1, d);
    } else if e < 0 {
      MultipleOfNat(-e - 1, d);
    }
  }

  lemma MultipleOfNat(k: nat, d: nat)
    ensures (k + 1) * d >= d && -(k + 1) * d == -((k + 1) * d)
  {
    assert k * d >= 0;
  }
}
