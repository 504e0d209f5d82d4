/**
 * Character-level helpers: ASCII case folding, substring search, and the
 * positional digit strings used to print integers and object identifiers.
 */
module Text {

  /** ASCII lower-casing of one character; every other character is kept. */
  function LowerChar(c: char): char {
    if 'A' <= c <= 'Z' then (c as int + 32) as char else c
  }

  /** ASCII lower-casing of a string, character by character. */
  function Lower(s: string): (r: string)
    ensures |r| == |s|
    ensures forall i :: 0 <= i < |s| ==> r[i] == LowerChar(s[i])
  {
    seq(|s|, i requires 0 <= i < |s| => LowerChar(s[i]))
  }

  /** `needle` occurs in `hay` starting at position `i`. */
  predicate OccursAt(needle: string, hay: string, i: int) {
    0 <= i && i + |needle| <= |hay| && hay[i..i + |needle|] == needle
  }

  /** `needle` is a (literal) substring of `hay`. */
  predicate Contains(hay: string, needle: string) {
    exists i | 0 <= i <= |hay| - |needle| :: OccursAt(needle, hay, i)
  }

  /** Case-insensitive (ASCII) substring test. */
  predicate ContainsIgnoringCase(hay: string, needle: string) {
    Contains(Lower(hay), Lower(needle))
  }

  /** The digit character for `d` in bases up to sixteen, lower-case letters above nine. */
  function DigitChar(d: nat): char
    requires d < 16
  {
    "0123456789abcdef"[d]
  }

  /** The value of a digit character; characters that are not digits read as zero. */
  function DigitValue(c: char): nat {
    if '0' <= c <= '9' then (c as int - '0' as int)
    else if 'a' <= c <= 'f' then (c as int - 'a' as int) + 10
    else 0
  }

  lemma DigitValueOfDigitChar(d: nat)
    requires d < 16
    ensures DigitValue(DigitChar(d)) == d
  {
    var digits := "0123456789abcdef";
    assert digits[d] == DigitChar(d);
    if d < 10 {
      assert digits[d] as int == '0' as int + d by {
        assert digits[..10] == "0123456789";
      }
    } else {
      assert digits[d] as int == 'a' as int + (d - 10) by {
        assert digits[10..] == "abcdef";
        assert digits[d] == digits[10..][d - 10];
      }
    }
  }

  /** The shortest digit string of `n` in the given base (`0` is written "0"). */
  function Digits(n: nat, base: nat): (r: string)
    requires 2 <= base <= 16
    ensures |r| >= 1
    decreases n
  {
    if n < base then [DigitChar(n)]
    else Digits(n / base, base) + [DigitChar(n % base)]
  }

  /** Reads a digit string most significant digit first. */
  function ParseDigits(s: string, base: nat): nat
    decreases |s|
  {
    if s == [] then 0
    else ParseDigits(s[..|s| - 1], base) * base + DigitValue(s[|s| - 1])
  }

  /** Printing a number and reading it back gives the number. */
  lemma {:induction false} ParseDigitsOfDigits(n: nat, base: nat)
    requires 2 <= base <= 16
    ensures ParseDigits(Digits(n, base), base) == n
    decreases n
  {
    if n < base {
      ParseSingleDigit(n, base);
    } else {
      ParseDigitsOfDigits(n / base, base);
      ParseLastDigit(n, base);
    }
  }

  lemma ParseSingleDigit(n: nat, base: nat)
    requires 2 <= base <= 16 && n < base
    ensures ParseDigits([DigitChar(n)], base) == n
  {
    DigitValueOfDigitChar(n);
    assert [DigitChar(n)][..0] == [];
  }

  /** One step of the round trip: the last digit printed is the remainder. */
  lemma ParseLastDigit(n: nat, base: nat)
    requires 2 <= base <= 16 && n >= base
    requires ParseDigits(Digits(n / base, base), base) == n / base
    ensures ParseDigits(Digits(n, base), base) == n
  {
    var q, d := n / base, n % base;
    var s := Digits(n, base);
    assert s[..|s| - 1] == Digits(q, base) && s[|s| - 1] == DigitChar(d);
    DigitValueOfDigitChar(d);
    assert ParseDigits(s, base) == q * base + d;
    DivMod(n, base);
  }

  /** Euclidean division, kept apart so that the digit proofs do not carry nonlinear arithmetic. */
  lemma DivMod(n: nat, base: nat)
    requires base > 0
    ensures (n / base) * base + n % base == n
  {
  }

  /** `k` zero characters. */
  function Zeros(k: nat): (r: string)
    ensures |r| == k
    ensures forall i :: 0 <= i < k ==> r[i] == '0'
  {
    seq(k, i => '0')
  }

  lemma {:induction false} ParseDigitsOfZeros(k: nat, base: nat)
    ensures ParseDigits(Zeros(k), base) == 0
  {
    if k > 0 {
      assert Zeros(k)[..k - 1] == Zeros(k - 1);
      ParseDigitsOfZeros(k - 1, base);
    }
  }

  /** Leading zeros do not change the value of a digit string. */
  lemma {:induction false} ParseDigitsIgnoresLeadingZeros(k: nat, s: string, base: nat)
    ensures ParseDigits(Zeros(k) + s, base) == ParseDigits(s, base)
    decreases |s|
  {
    if s == [] {
      assert Zeros(k) + s == Zeros(k);
      ParseDigitsOfZeros(k, base);
    } else {
      var t := Zeros(k) + s;
      assert t[..|t| - 1] == Zeros(k) + s[..|s| - 1];
      assert t[|t| - 1] == s[|s| - 1];
      ParseDigitsIgnoresLeadingZeros(k, s[..|s| - 1], base);
    }
  }

  /** `s` left-padded with zeros to at least `width` characters. */
  function PadZeros(s: string, width: nat): (r: string)
    ensures |r| >= width && |r| >= |s|
  {
    if |s| < width then Zeros(width - |s|) + s else s
  }

  /** Zero-padding keeps the value of a digit string. */
  lemma ParseDigitsOfPadZeros(s: string, width: nat, base: nat)
    ensures ParseDigits(PadZeros(s, width), base) == ParseDigits(s, base)
  {
    if |s| < width {
      ParseDigitsIgnoresLeadingZeros(width - |s|, s, base);
    }
  }

  /** Python's `str` of an integer: decimal, with a leading minus sign when negative. */
  function IntText(i: int): (r: string)
    ensures |r| >= 1
  {
    if i < 0 then "-" + Digits(-i, 10) else Digits(i, 10)
  }
}
