/**
 Decimal text of integers: the base-10, 64-bit case of Go's `strconv.ParseUint`,
 which reads the block-scan window, and `big.Int.String`, which renders the tiers.
 */
module Decimal {
  import opened Results

  /** Largest value of a Go `uint64`. */
  const MaxUint64: nat := 0xFFFF_FFFF_FFFF_FFFF

  /** 2^64: a `uint64` result is taken modulo this. */
  const Modulus64: nat := 0x1_0000_0000_0000_0000

  /** Smallest `n` with `n * 10 > MaxUint64`: from here on one more digit overflows. */
  const Cutoff: nat := MaxUint64 / 10 + 1

  /** Why ParseUint rejected its input: a character that is not a digit, or a value past 64 bits. */
  datatype NumError = Syntax | Range

  predicate IsDigit(c: char) {
    '0' <= c <= '9'
  }

  predicate AllDigits(s: string) {
    forall i :: 0 <= i < |s| ==> IsDigit(s[i])
  }

  function DigitValue(c: char): (d: nat)
    requires IsDigit(c)
    ensures d < 10
  {
    c as int - '0' as int
  }

  function DigitChar(d: nat): (c: char)
    requires d < 10
    ensures IsDigit(c) && DigitValue(c) == d
  {
    ('0' as int + d) as char
  }

  /** The number a string of decimal digits denotes, most significant digit first. */
  function Value(s: string): nat
    requires AllDigits(s)
  {
    if s == [] then 0 else Value(s[..|s| - 1]) * 10 + DigitValue(s[|s| - 1])
  }

  /** Appending one digit multiplies the value by ten and adds the digit. */
  lemma ValueStep(s: string, i: nat)
    requires i < |s| && AllDigits(s[..i + 1])
    ensures AllDigits(s[..i])
    ensures Value(s[..i + 1]) == Value(s[..i]) * 10 + DigitValue(s[i])
  {
    assert s[..i + 1][..i] == s[..i];
  }

  /** A prefix of a digit string never denotes more than the whole string. */
  lemma {:induction false} ValuePrefixBound(s: string, i: nat)
    requires AllDigits(s) && i <= |s|
    ensures AllDigits(s[..i]) && Value(s[..i]) <= Value(s)
    decreases |s| - i
  {
    if i == |s| {
      assert s[..i] == s;
    } else {
      ValuePrefixBound(s, i + 1);
      ValueStep(s, i);
    }
  }

  /**
   The digit loop of `ParseUint` in base 10 from position `i` on, where `n` is
   the value of the digits already read. Go stops at the first bad character or
   at the first overflow, whichever comes first; `n * 10` cannot wrap below the
   cutoff, but adding the digit can, and Go detects that as `n1 < n`.
   */
  function Scan(s: string, i: nat, n: nat): (r: Result<nat, NumError>)
    requires i <= |s| && AllDigits(s[..i]) && n == Value(s[..i]) && n <= MaxUint64
    ensures r.Ok? <==> AllDigits(s) && Value(s) <= MaxUint64
    ensures r.Ok? ==> r.value == Value(s)
    ensures AllDigits(s) && Value(s) > MaxUint64 ==> r == Err(Range)
    ensures forall p :: i <= p < |s| && !IsDigit(s[p]) && AllDigits(s[..p]) && Value(s[..p]) <= MaxUint64 ==>
      r == Err(Syntax)
    ensures forall p :: i <= p < |s| && !IsDigit(s[p]) && AllDigits(s[..p]) && Value(s[..p]) > MaxUint64 ==>
      r == Err(Range)
    decreases |s| - i
  {
    if i == |s| then
      assert s[..i] == s;
      Ok(n)
    else if !IsDigit(s[i]) then
      Err(Syntax)
    else
      ValueStep(s, i);
      var m := n * 10;
      if n >= Cutoff then
        assert AllDigits(s) ==> Value(s) > MaxUint64 by {
          if AllDigits(s) { ValuePrefixBound(s, i + 1); }
        }
        NoSyntaxAfterOverflow(s, i);
        Err(Range)
      else
        var n1 := (m + DigitValue(s[i])) % Modulus64;
        if n1 < m || n1 > MaxUint64 then
          assert AllDigits(s) ==> Value(s) > MaxUint64 by {
            if AllDigits(s) { ValuePrefixBound(s, i + 1); }
          }
          NoSyntaxAfterOverflow(s, i);
          Err(Range)
        else
          Scan(s, i + 1, n1)
  }

  /** Once the digits up to position `i` overflow, every longer run of digits overflows too, so no later bad character is reached. */
  lemma NoSyntaxAfterOverflow(s: string, i: nat)
    requires i < |s| && AllDigits(s[..i + 1]) && Value(s[..i + 1]) > MaxUint64
    ensures forall p :: i < p <= |s| && AllDigits(s[..p]) ==> Value(s[..p]) > MaxUint64
  {
    forall p | i < p <= |s| && AllDigits(s[..p])
      ensures Value(s[..p]) > MaxUint64
    {
      ValuePrefixBound(s[..p], i + 1);
      assert s[..p][..i + 1] == s[..i + 1];
    }
  }

  /**
   `strconv.ParseUint(s, 10, 64)`: succeeds exactly on a non-empty string of
   decimal digits (leading zeros allowed, no sign, no underscores) whose value
   fits in 64 bits. A bad character is a syntax error unless the digits before
   it already overflowed, which is a range error.
   */
  function ParseUint(s: string): (r: Result<nat, NumError>)
    ensures r.Ok? <==> s != [] && AllDigits(s) && Value(s) <= MaxUint64
    ensures r.Ok? ==> r.value == Value(s)
    ensures s == [] ==> r == Err(Syntax)
    ensures s != [] && AllDigits(s) && Value(s) > MaxUint64 ==> r == Err(Range)
    ensures forall p :: 0 <= p < |s| && !IsDigit(s[p]) && AllDigits(s[..p]) && Value(s[..p]) <= MaxUint64 ==>
      r == Err(Syntax)
    ensures forall p :: 0 <= p < |s| && !IsDigit(s[p]) && AllDigits(s[..p]) && Value(s[..p]) > MaxUint64 ==>
      r == Err(Range)
  {
    if s == [] then Err(Syntax) else Scan(s, 0, 0)
  }

  /** The shortest decimal digits of `n`: "0" for zero, otherwise no leading zero. */
  function FormatNat(n: nat): (s: string)
    ensures s != [] && AllDigits(s) && Value(s) == n
    ensures |s| > 1 || n > 0 ==> s[0] != '0'
  {
    if n < 10 then
      [DigitChar(n)]
    else
      var prefix := FormatNat(n / 10);
      var s := prefix + [DigitChar(n % 10)];
      assert s[..|s| - 1] == prefix;
      s
  }

  /** `big.Int.String`: a minus sign before the digits of a negative value. */
  function FormatInt(x: int): (s: string)
    ensures s != []
    ensures s[0] == '-' <==> x < 0
    ensures x >= 0 ==> AllDigits(s) && Value(s) == x
    ensures x < 0 ==> AllDigits(s[1..]) && Value(s[1..]) == -x
    ensures x >= 0 && |s| > 1 ==> s[0] != '0'
    ensures x < 0 ==> |s| > 1 && s[1] != '0'
  {
    if x < 0 then
      var digits := FormatNat(-x);
      assert ("-" + digits)[1..] == digits;
      "-" + digits
    else
      FormatNat(x)
  }

  /** Rendering a non-negative value and parsing it back gives the value when it fits in 64 bits, and a range error otherwise. */
  lemma FormatParseRoundTrip(n: nat)
    ensures ParseUint(FormatInt(n)) == if n <= MaxUint64 then Ok(n) else Err(Range)
  {
  }

  /** An accepted string without a leading zero is exactly what FormatInt writes for the value it denotes. */
  lemma ParseFormatRoundTrip(s: string)
    requires ParseUint(s).Ok? && (|s| > 1 ==> s[0] != '0')
    ensures FormatInt(ParseUint(s).value) == s
  {
    CanonicalDigitsUnique(s, FormatNat(Value(s)));
  }

  /** Two digit strings without leading zeros that denote the same value are equal. */
  lemma {:induction false} CanonicalDigitsUnique(s: string, t: string)
    requires s != [] && t != [] && AllDigits(s) && AllDigits(t)
    requires (|s| > 1 ==> s[0] != '0') && (|t| > 1 ==> t[0] != '0')
    requires Value(s) == Value(t)
    ensures s == t
    decreases |s|
  {
    if |s| == 1 && |t| == 1 {
    } else if |s| == 1 {
      CanonicalTooSmall(s, t);
    } else if |t| == 1 {
      CanonicalTooSmall(t, s);
    } else {
      var s', t' := s[..|s| - 1], t[..|t| - 1];
      assert Value(s) == Value(s') * 10 + DigitValue(s[|s| - 1]);
      assert Value(t) == Value(t') * 10 + DigitValue(t[|t| - 1]);
      assert Value(s') == Value(t') && s[|s| - 1] == t[|t| - 1] by {
        DigitsOfEqualSums(Value(s'), DigitValue(s[|s| - 1]), Value(t'), DigitValue(t[|t| - 1]));
      }
      CanonicalDigitsUnique(s', t');
      assert s == s' + [s[|s| - 1]];
      assert t == t' + [t[|t| - 1]];
    }
  }

  /** A one-digit string denotes less than any longer string without a leading zero. */
  lemma CanonicalTooSmall(s: string, t: string)
    requires |s| == 1 && |t| > 1 && AllDigits(s) && AllDigits(t) && t[0] != '0'
    ensures Value(s) < Value(t)
  {
  }

  lemma DigitsOfEqualSums(a: nat, d: nat, b: nat, e: nat)
    requires d < 10 && e < 10 && a * 10 + d == b * 10 + e
    ensures a == b && d == e
  {
  }
}
