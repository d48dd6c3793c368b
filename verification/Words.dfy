/**
 Fixed-width unsigned arithmetic and the decimal notation of an unsigned number.
 Machine words are natural numbers here; a width matters only where it is written out.
 */
module Words {
  const TWO_TO_THE_64: nat := 0x1_0000_0000_0000_0000
  const MAX_UINT64: nat := TWO_TO_THE_64 - 1

  /** Unsigned 64-bit subtraction, which wraps around. */
  function SubU64(a: nat, b: nat): (d: nat)
    ensures d < TWO_TO_THE_64
    ensures b <= a < TWO_TO_THE_64 ==> d == a - b
  {
    (a - b) % TWO_TO_THE_64
  }

  function Digit(d: nat): (c: char)
    requires d < 10
    ensures c as int == 48 + d
  {
    (48 + d) as char
  }

  /** The shortest decimal notation of `n`, as `std::to_string` writes it. */
  function Decimal(n: nat): (s: string)
    ensures s != []
  {
    if n < 10 then [Digit(n)] else Decimal(n / 10) + [Digit(n % 10)]
  }

  function DecimalValue(s: string): int
  {
    if s == [] then 0 else DecimalValue(s[..|s| - 1]) * 10 + (s[|s| - 1] as int - 48)
  }

  lemma {:induction false} DecimalRoundTrip(n: nat)
    ensures DecimalValue(Decimal(n)) == n
  {
    if n < 10 {
      assert Decimal(n)[..0] == [];
    } else {
      DecimalRoundTrip(n / 10);
      var s := Decimal(n);
      assert s[..|s| - 1] == Decimal(n / 10);
    }
  }

  lemma DecimalInjective(m: nat, n: nat)
    requires Decimal(m) == Decimal(n)
    ensures m == n
  {
    DecimalRoundTrip(m);
    DecimalRoundTrip(n);
  }
}
