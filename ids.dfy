/** Row identifiers. The hosted backend generates UUIDs; the model issues them
    from a counter, written as a prefix followed by the counter in decimal, so
    that two different counters never give the same id. */
module RowIds {

  function DigitChar(d: nat): char
    requires d < 10
  {
    ('0' as int + d) as char
  }

  function DigitValue(c: char): nat
  {
    if '0' <= c <= '9' then c as int - '0' as int else 0
  }

  /** `n` in decimal, most significant digit first. */
  function Decimal(n: nat): (s: string)
    ensures |s| >= 1
    decreases n
  {
    if n < 10 then [DigitChar(n)] else Decimal(n / 10) + [DigitChar(n % 10)]
  }

  function ParseDecimal(s: string): nat
    decreases |s|
  {
    if s == [] then 0 else ParseDecimal(s[..|s| - 1]) * 10 + DigitValue(s[|s| - 1])
  }

  /** Reading the digits back gives the number: decimal rendering is injective. */
  lemma {:induction false} ParseDecimalRoundTrip(n: nat)
    ensures ParseDecimal(Decimal(n)) == n
    decreases n
  {
    var s := Decimal(n);
    if n >= 10 {
      ParseDecimalRoundTrip(n / 10);
      assert s[..|s| - 1] == Decimal(n / 10);
    }
  }

  function MakeId(prefix: string, n: nat): string
  {
    prefix + Decimal(n)
  }

  /** The counter an id of the given prefix was issued from. */
  function IdNumber(prefix: string, id: string): nat
  {
    if |prefix| <= |id| then ParseDecimal(id[|prefix|..]) else 0
  }

  lemma IdNumberOfMakeId(prefix: string, n: nat)
    ensures IdNumber(prefix, MakeId(prefix, n)) == n
  {
    assert MakeId(prefix, n)[|prefix|..] == Decimal(n);
    ParseDecimalRoundTrip(n);
  }

  /** Ids issued from different counters differ. */
  lemma MakeIdInjective(prefix: string, a: nat, b: nat)
    requires MakeId(prefix, a) == MakeId(prefix, b)
    ensures a == b
  {
    IdNumberOfMakeId(prefix, a);
    IdNumberOfMakeId(prefix, b);
  }
}
