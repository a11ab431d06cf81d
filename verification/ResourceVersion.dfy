/** Resource versions: opaque strings that are decimal integers in practice. */
module ResourceVersion {
  import opened Prelude

  const MIN_INT64 := -0x8000_0000_0000_0000
  const MAX_INT64 := 0x7fff_ffff_ffff_ffff

  /** The value of a non-empty run of decimal digits. */
  function Digits(s: string): Option<nat> {
    if s == "" then None
    else
      var last := s[|s| - 1];
      if !('0' <= last <= '9') then None
      else if |s| == 1 then Some((last - '0') as nat)
      else
        var front := Digits(s[..|s| - 1]);
        if front.None? then None else Some(10 * front.value + (last - '0') as nat)
  }

  /** Base-10 parsing into 64 bits: an optional sign, at least one digit, no overflow. */
  function ParseInt(s: string): Option<int> {
    var signed := s != "" && (s[0] == '-' || s[0] == '+');
    var digits := Digits(if signed then s[1..] else s);
    if digits.None? then None
    else
      var n := if s[0] == '-' then 0 - digits.value else digits.value;
      if MIN_INT64 <= n <= MAX_INT64 then Some(n) else None
  }

  predicate Numeric(rv: string) { ParseInt(rv).Some? }

  function Number(rv: string): int
    requires Numeric(rv)
  {
    ParseInt(rv).value
  }

  /** Is version `a` newer than or equal to `b`? Unparsable versions are only compared for equality. */
  predicate RvAtLeast(a: string, b: string) {
    if Numeric(a) && Numeric(b) then Number(a) >= Number(b) else a == b
  }

  /** The decimal spelling of a number. */
  function Decimal(n: nat): string {
    if n < 10 then [n as char + '0'] else Decimal(n / 10) + [(n % 10) as char + '0']
  }

  lemma {:induction false} DecimalValue(n: nat)
    ensures Digits(Decimal(n)) == Some(n) && '0' <= Decimal(n)[0] <= '9'
  {
    if n >= 10 {
      DecimalValue(n / 10);
      assert Decimal(n)[..|Decimal(n)| - 1] == Decimal(n / 10);
    }
  }

  /** No decimal spelling: empty, or with a character that is neither a digit nor a leading sign. */
  predicate Opaque(s: string) {
    s == "" || exists i :: 0 <= i < |s| && !('0' <= s[i] <= '9') && !(i == 0 && (s[i] == '-' || s[i] == '+'))
  }

  lemma {:induction false} NoDigits(s: string, i: nat)
    requires i < |s| && !('0' <= s[i] <= '9')
    ensures Digits(s).None?
  {
    if i < |s| - 1 {
      assert s[..|s| - 1][i] == s[i];
      NoDigits(s[..|s| - 1], i);
    }
  }

  lemma OpaqueIsNoNumber(s: string)
    requires Opaque(s)
    ensures !Numeric(s)
  {
    if s != "" {
      var i :| 0 <= i < |s| && !('0' <= s[i] <= '9') && !(i == 0 && (s[i] == '-' || s[i] == '+'));
      if s[0] == '-' || s[0] == '+' { NoDigits(s[1..], i - 1); } else { NoDigits(s, i); }
    }
  }

  /** A version that is no decimal spelling, or too large for 64 bits, is only at least as new as itself. */
  lemma OpaqueOrder(a: string, b: string)
    requires Opaque(a) || Opaque(b)
    ensures RvAtLeast(a, b) <==> a == b
  {
    if Opaque(a) { OpaqueIsNoNumber(a); }
    if Opaque(b) { OpaqueIsNoNumber(b); }
  }

  lemma LargeOrder(n: nat, b: string)
    requires n > 9_223_372_036_854_775_807
    ensures RvAtLeast(Decimal(n), b) <==> Decimal(n) == b
    ensures RvAtLeast(b, Decimal(n)) <==> Decimal(n) == b
  {
    DecimalValue(n);
  }

  /** On the decimal spellings a cluster hands out, the comparison is the numeric order. */
  lemma RvOrderIsNumeric(a: nat, b: nat)
    requires a <= 9_223_372_036_854_775_807 && b <= 9_223_372_036_854_775_807
    ensures Numeric(Decimal(a)) && Number(Decimal(a)) == a
    ensures RvAtLeast(Decimal(a), Decimal(b)) <==> a >= b
  {
    DecimalValue(a);
    DecimalValue(b);
  }
}
