/** generateReferenceId from api/src/helpers/string.helper.ts, with the random integer as input. */
module StringHelper {
  import opened Results

  /** The value of `Math.floor(Math.random() * 100000)`: an integer in [0, 100000). */
  type Draw = n: nat | n < 100000

  predicate IsDigit(c: char) { '0' <= c <= '9' }

  predicate AllDigits(s: string) { forall i :: 0 <= i < |s| ==> IsDigit(s[i]) }

  function DigitChar(d: nat): (c: char)
    requires d < 10
    ensures IsDigit(c) && c as int - '0' as int == d
  {
    ('0' as int + d) as char
  }

  /** `n.toString()` for a non-negative integer: its decimal form, without leading zeros. */
  function NatToString(n: nat): (s: string)
    ensures 1 <= |s| && AllDigits(s)
    ensures s[0] == '0' ==> n == 0 && s == "0"
    decreases n
  {
    if n < 10 then [DigitChar(n)] else NatToString(n / 10) + [DigitChar(n % 10)]
  }

  /** The number a string of decimal digits denotes (leading zeros allowed). */
  function DecimalValue(s: string): nat
    requires AllDigits(s)
  {
    if s == [] then 0
    else DecimalValue(s[..|s| - 1]) * 10 + (s[|s| - 1] as int - '0' as int)
  }

  /** `c`, `k` times over. */
  function Repeat(c: char, k: nat): (r: string)
    ensures |r| == k && forall i :: 0 <= i < k ==> r[i] == c
  {
    if k == 0 then [] else [c] + Repeat(c, k - 1)
  }

  function Max(a: int, b: int): int { if a < b then b else a }

  /** `s.padStart(length, c)` with a one-character pad. */
  function PadStart(s: string, length: int, c: char): (r: string)
    ensures |r| == Max(length, |s|)
  {
    if |s| >= length then s else Repeat(c, length - |s|) + s
  }

  /** padStart never truncates: it only puts copies of `c` in front of `s`, up to `length`. */
  lemma PadStartShape(s: string, length: int, c: char)
    ensures var r := PadStart(s, length, c);
      && |r| == Max(length, |s|)
      && r[|r| - |s|..] == s
      && forall i :: 0 <= i < |r| - |s| ==> r[i] == c
  {
  }

  /** The digit part of a reference id. */
  function Digits(n: Draw, length: int): string
  {
    PadStart(NatToString(n), length, '0')
  }

  /** generateReferenceId(length = 5, prefix = 'REF'), the draw made an argument. */
  function GenerateReferenceId(n: Draw, length: int := 5, prefix: string := "REF"): (r: string)
    ensures |r| == |prefix| + 1 + Max(length, |NatToString(n)|)
    ensures r[..|prefix|] == prefix && r[|prefix|] == '-'
    ensures AllDigits(r[|prefix| + 1..])
  {
    var d := Digits(n, length);
    DigitsValue(n, length);
    PadStartShape(NatToString(n), length, '0');
    var r := prefix + "-" + d;
    assert r[..|prefix|] == prefix && r[|prefix| + 1..] == d;
    r
  }

  /** Reads a reference id back: the prefix, a dash, then at least one decimal digit. */
  function ParseReferenceId(s: string, prefix: string): (r: Option<nat>)
  {
    if |s| > |prefix| + 1 && s[..|prefix|] == prefix && s[|prefix|] == '-'
       && AllDigits(s[|prefix| + 1..])
    then Some(DecimalValue(s[|prefix| + 1..]))
    else None
  }

  lemma {:induction false} DecimalValueOfNatToString(n: nat)
    ensures DecimalValue(NatToString(n)) == n
    decreases n
  {
    var s := NatToString(n);
    if n >= 10 {
      DecimalValueOfNatToString(n / 10);
      assert s[..|s| - 1] == NatToString(n / 10);
    }
  }

  /** A leading zero does not change the value of a digit string. */
  lemma {:induction false} DecimalValueLeadingZero(s: string)
    requires AllDigits(s)
    ensures AllDigits(['0'] + s) && DecimalValue(['0'] + s) == DecimalValue(s)
    decreases |s|
  {
    var z := ['0'] + s;
    if s != [] {
      assert z[..|z| - 1] == ['0'] + s[..|s| - 1];
      DecimalValueLeadingZero(s[..|s| - 1]);
    }
  }

  lemma {:induction false} DecimalValueLeadingZeros(k: nat, s: string)
    requires AllDigits(s)
    ensures AllDigits(Repeat('0', k) + s) && DecimalValue(Repeat('0', k) + s) == DecimalValue(s)
    decreases k
  {
    if k == 0 {
      assert Repeat('0', k) + s == s;
    } else {
      DecimalValueLeadingZeros(k - 1, s);
      assert Repeat('0', k) + s == ['0'] + (Repeat('0', k - 1) + s);
      DecimalValueLeadingZero(Repeat('0', k - 1) + s);
    }
  }

  /** Stripping the zero padding recovers the drawn number. */
  lemma DigitsValue(n: Draw, length: int)
    ensures 1 <= |Digits(n, length)| && AllDigits(Digits(n, length))
    ensures DecimalValue(Digits(n, length)) == n
  {
    var s := NatToString(n);
    DecimalValueOfNatToString(n);
    if |s| < length {
      DecimalValueLeadingZeros(length - |s|, s);
    }
  }

  /** Reading back a generated reference id gives the draw: the prefix, the dash and the leading
      zeros carry no information. */
  lemma ParseGenerated(n: Draw, length: int, prefix: string)
    ensures ParseReferenceId(GenerateReferenceId(n, length, prefix), prefix) == Some(n)
  {
    var r := GenerateReferenceId(n, length, prefix);
    DigitsValue(n, length);
    assert r[|prefix| + 1..] == Digits(n, length);
  }

  /** For a fixed prefix and length, distinct draws give distinct reference ids. */
  lemma GenerateInjective(n: Draw, m: Draw, length: int, prefix: string)
    requires GenerateReferenceId(n, length, prefix) == GenerateReferenceId(m, length, prefix)
    ensures n == m
  {
    ParseGenerated(n, length, prefix);
    ParseGenerated(m, length, prefix);
  }

  lemma {:induction false} NatToStringLength(n: nat, k: nat)
    requires n < Pow10(k)
    ensures |NatToString(n)| <= Max(k, 1)
    decreases n
  {
    if n >= 10 {
      assert k >= 2;
      NatToStringLength(n / 10, k - 1);
    }
  }

  function Pow10(k: nat): nat
  {
    if k == 0 then 1 else 10 * Pow10(k - 1)
  }

  /** With the default length 5, the digit part of every draw is exactly five decimal digits. */
  lemma FiveDigits(n: Draw, prefix: string)
    ensures var r := GenerateReferenceId(n, 5, prefix);
      |r| == |prefix| + 6 && AllDigits(r[|prefix| + 1..])
  {
    assert Pow10(5) == 100000;
    NatToStringLength(n, 5);
  }

  /** padStart never truncates: when the draw has at least `length` digits, the digit part is its
      plain decimal form. */
  lemma NoTruncation(n: Draw, length: int)
    requires |NatToString(n)| >= length
    ensures Digits(n, length) == NatToString(n)
  {
  }

  /** The defaults of the source: length 5, prefix "REF". */
  lemma DefaultArguments(n: Draw)
    ensures GenerateReferenceId(n) == GenerateReferenceId(n, 5, "REF")
    ensures GenerateReferenceId(n)[..4] == "REF-"
  {
  }
}
