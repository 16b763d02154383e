/** The numbers of the toyos formatter, toyos/Library/libc/vsprintf.cpp:22-163: what number and
    skip_atoi produce, independent of how the code walks its buffers. */
module Numbers {
  import opened Options
  import opened Words

  const INT_MAX: int := 0x7fff_ffff
  const INT_MIN: int := -0x8000_0000

  // ZEROPAD, SIGN, PLUS, SPACE, LEFT, SPECIAL, SMALL
  datatype Flags = Flags(
    zeropad: bool, sign: bool, plus: bool, space: bool, left: bool, special: bool, small: bool)

  const NO_FLAGS := Flags(false, false, false, false, false, false, false)

  const UPPER_DIGITS: string := "0123456789ABCDEFGHIJKLMNOPQRSTUVWXYZ"
  const LOWER_DIGITS: string := "0123456789abcdefghijklmnopqrstuvwxyz"

  // ----- Digits -----

  function DigitChar(d: nat, small: bool): char
    requires d < 36
  {
    if d < 10 then '0' + d as char else if small then 'a' + (d - 10) as char else 'A' + (d - 10) as char
  }

  /** The two strings of the source hold these characters. */
  lemma DigitStrings(d: nat)
    requires d < 36
    ensures UPPER_DIGITS[d] == DigitChar(d, false) && LOWER_DIGITS[d] == DigitChar(d, true)
  {
  }

  function CharValue(c: char): int {
    if '0' <= c <= '9' then c as int - '0' as int
    else if 'A' <= c <= 'Z' then c as int - 'A' as int + 10
    else if 'a' <= c <= 'z' then c as int - 'a' as int + 10
    else -1
  }

  /** The digits of a positive number, none of zero. */
  function Significant(n: nat, base: nat, small: bool): string
    requires 2 <= base <= 36
  {
    if n == 0 then "" else Significant(n / base, base, small) + [DigitChar(n % base, small)]
  }

  function Digits(n: nat, base: nat, small: bool): string
    requires 2 <= base <= 36
  {
    if n == 0 then "0" else Significant(n, base, small)
  }

  /** What a string of digits stands for. */
  function Value(s: string, base: nat): int {
    if s == "" then 0 else Value(s[..|s| - 1], base) * base + CharValue(s[|s| - 1])
  }

  lemma TwiceAtMost(q: nat, base: nat)
    requires base >= 2
    ensures 2 * q <= q * base
  {
    assert q * base == 2 * q + q * (base - 2);
  }

  /** Division with remainder, for the arithmetic of digits. */
  lemma DivFacts(n: nat, base: nat)
    requires base >= 2
    ensures n / base * base + n % base == n && 0 <= n % base < base && 0 <= n / base
    ensures 2 * (n / base) <= n
    ensures n > 0 ==> n / base < n
  {
    TwiceAtMost(n / base, base);
  }

  lemma DigitBack(d: nat, small: bool)
    requires d < 36
    ensures CharValue(DigitChar(d, small)) == d
  {
  }

  lemma {:induction false} SignificantValue(n: nat, base: nat, small: bool)
    requires 2 <= base <= 36
    ensures Value(Significant(n, base, small), base) == n
  {
    if n > 0 {
      DivFacts(n, base);
      var q, d := n / base, n % base;
      SignificantValue(q, base, small);
      DigitBack(d, small);
      var s := Significant(n, base, small);
      assert s[..|s| - 1] == Significant(q, base, small) && s[|s| - 1] == DigitChar(d, small);
    }
  }

  /** The digits of a number evaluate back to it. */
  lemma DigitsValue(n: nat, base: nat, small: bool)
    requires 2 <= base <= 36
    ensures Value(Digits(n, base, small), base) == n
  {
    SignificantValue(n, base, small);
    assert Value("0"[..0], base) == 0;
  }

  lemma {:induction false} SignificantLength(n: nat, base: nat, small: bool, k: nat)
    requires 2 <= base <= 36 && n < Pow2(k)
    ensures |Significant(n, base, small)| <= k
  {
    if n > 0 {
      DivFacts(n, base);
      assert k > 0 && n < 2 * Pow2(k - 1);
      SignificantLength(n / base, base, small, k - 1);
    }
  }

  /** No int has more than 31 digits in any base, so tmp[36] is large enough. */
  lemma DigitsFit(n: nat, base: nat, small: bool)
    requires 2 <= base <= 36 && n <= INT_MAX
    ensures 1 <= |Digits(n, base, small)| <= 31
    ensures |Significant(n, base, small)| <= 31
  {
    assert Pow2(31) == INT_MAX + 1 by {
      assert Pow2(8) == 256 && Pow2(16) == 256 * Pow2(8) && Pow2(24) == 256 * Pow2(16) && Pow2(31) == 128 * Pow2(24);
    }
    SignificantLength(n, base, small, 31);
  }

  // ----- skip_atoi -----

  predicate IsDigit(c: char) {
    '0' <= c <= '9'
  }

  /** The number at the head of `s`, added to `acc`, and what follows it; None when the sum of
      skip_atoi overflows before the '0' is taken off. */
  function Atoi(s: string, acc: int): Option<(int, string)> {
    if s == "" || !IsDigit(s[0]) then Some((acc, s))
    else if acc * 10 + s[0] as int > INT_MAX then None
    else Atoi(s[1..], acc * 10 + s[0] as int - '0' as int)
  }

  predicate NoDigitAhead(s: string) {
    s == "" || !IsDigit(s[0])
  }

  /** Reading on behind a prefix that was read. */
  lemma {:induction false} AtoiDigits(n: nat, rest: string)
    requires n > 0
    ensures n <= INT_MAX - 48 ==> Atoi(Significant(n, 10, false) + rest, 0) == Atoi(rest, n)
    ensures n > INT_MAX - 48 ==> Atoi(Significant(n, 10, false) + rest, 0) == None
  {
    var d := DigitChar(n % 10, false);
    var tail := [d] + rest;
    assert Significant(n, 10, false) + rest == Significant(n / 10, 10, false) + tail;
    assert tail[1..] == rest && d as int == n % 10 + 48 && IsDigit(d);
    if n / 10 > 0 {
      AtoiDigits(n / 10, tail);
    } else {
      assert Significant(0, 10, false) + tail == tail;
    }
  }

  /** skip_atoi inverts decimal output exactly up to INT_MAX - 48. */
  lemma AtoiInverts(n: nat, rest: string)
    requires NoDigitAhead(rest)
    ensures n <= INT_MAX - 48 ==> Atoi(Digits(n, 10, false) + rest, 0) == Some((n, rest))
    ensures n > INT_MAX - 48 ==> Atoi(Digits(n, 10, false) + rest, 0) == None
  {
    if n > 0 {
      AtoiDigits(n, rest);
    } else {
      assert ("0" + rest)[1..] == rest;
    }
  }

  // ----- number -----

  function Rep(c: char, n: int): (s: string)
    ensures |s| == if n > 0 then n else 0
  {
    if n <= 0 then "" else Rep(c, n - 1) + [c]
  }

  function Max(a: int, b: int): int {
    if a > b then a else b
  }

  /** A negative number is marked but printed as zero. */
  predicate Negative(num: int, f: Flags) {
    f.sign && num < 0
  }

  function SignPart(num: int, f: Flags): string {
    if Negative(num, f) then "-" else if f.plus then "+" else if f.space then " " else ""
  }

  function PrefixPart(base: nat, f: Flags): string {
    if !f.special then ""
    else if base == 8 then "0"
    else if base == 16 then (if f.small then "0x" else "0X")
    else ""
  }

  function DigitPart(num: int, base: nat, f: Flags): string
    requires 2 <= base <= 36 && (num >= 0 || f.sign)
  {
    Digits(if num < 0 then 0 else num, base, f.small)
  }

  /** The padding that is left when sign, prefix and at least `precision` digits are placed. */
  function Padding(num: int, base: nat, size: int, precision: int, f: Flags): int
    requires 2 <= base <= 36 && (num >= 0 || f.sign)
  {
    size - |SignPart(num, f)| - |PrefixPart(base, f)| - Max(precision, |DigitPart(num, base, f)|)
  }

  /** What number writes. */
  function Number(num: int, base: nat, size: int, precision: int, f: Flags): string
    requires 2 <= base <= 36 && (num >= 0 || f.sign)
  {
    var pad := Padding(num, base, size, precision, f);
    var zeros := f.zeropad && !f.left;
    Rep(' ', if zeros || f.left then 0 else pad) + SignPart(num, f) + PrefixPart(base, f) +
    Rep('0', if zeros then pad else 0) + Rep('0', precision - |DigitPart(num, base, f)|) +
    DigitPart(num, base, f) + Rep(' ', if f.left then pad else 0)
  }

  /** The exact length. */
  lemma NumberLength(num: int, base: nat, size: int, precision: int, f: Flags)
    requires 2 <= base <= 36 && (num >= 0 || f.sign)
    ensures |Number(num, base, size, precision, f)| ==
            Max(size, |SignPart(num, f)| + |PrefixPart(base, f)| + Max(precision, |DigitPart(num, base, f)|))
  {
  }

  /** The pieces number writes, one behind the other. */
  function Laid(blanks: int, head: string, zeros: int, tail: string): string {
    Rep(' ', blanks) + head + Rep('0', zeros) + tail
  }

  lemma NumberLaid(num: int, base: nat, size: int, precision: int, f: Flags, pad: int, head: string, tail: string)
    requires 2 <= base <= 36 && (num >= 0 || f.sign) && !f.left
    requires pad == Padding(num, base, size, precision, f) && head == SignPart(num, f) + PrefixPart(base, f)
    requires tail == Rep('0', precision - |DigitPart(num, base, f)|) + DigitPart(num, base, f)
    ensures Number(num, base, size, precision, f) ==
            Laid(if f.zeropad then 0 else pad, head, if f.zeropad then pad else 0, tail)
  {
    var digits := DigitPart(num, base, f);
    Regroup(Rep(' ', if f.zeropad then 0 else pad), SignPart(num, f), PrefixPart(base, f),
            Rep('0', if f.zeropad then pad else 0), Rep('0', precision - |digits|), digits, "");
    Regrouped(Rep(' ', if f.zeropad then 0 else pad), head, Rep('0', if f.zeropad then pad else 0), tail);
  }

  lemma Regrouped(a: string, b: string, c: string, d: string)
    ensures a + b + (c + d) + "" == a + b + c + d
  {
  }

  /** The code keeps a `0` flag when a precision is given, where the C standard ignores it. That shows
      if and only if there is room left for padding. */
  lemma ZeroFlagShows(num: int, base: nat, size: int, precision: int, f: Flags)
    requires 2 <= base <= 36 && (num >= 0 || f.sign) && f.zeropad && !f.left
    ensures Number(num, base, size, precision, f) != Number(num, base, size, precision, f.(zeropad := false)) <==>
            Padding(num, base, size, precision, f) > 0
  {
    var pad, head := Padding(num, base, size, precision, f), SignPart(num, f) + PrefixPart(base, f);
    var tail := Rep('0', precision - |DigitPart(num, base, f)|) + DigitPart(num, base, f);
    NumberLaid(num, base, size, precision, f, pad, head, tail);
    NumberLaid(num, base, size, precision, f.(zeropad := false), pad, head, tail);
    LaidDiffers(head, tail, pad);
  }

  lemma LaidDiffers(head: string, tail: string, pad: int)
    requires forall i :: 1 <= i < |head| ==> head[i] != ' '
    ensures Laid(0, head, pad, tail) != Laid(pad, head, 0, tail) <==> pad > 0
  {
    if pad > 0 {
      ZerosNotBlanks(head, tail, pad);
      assert Laid(0, head, pad, tail) == head + (Rep('0', pad) + tail);
      assert Laid(pad, head, 0, tail) == Rep(' ', pad) + (head + tail);
    }
  }

  /** Padding in front of the sign or behind it. */
  lemma ZerosNotBlanks(head: string, tail: string, pad: nat)
    requires pad > 0 && forall i :: 1 <= i < |head| ==> head[i] != ' '
    ensures head + (Rep('0', pad) + tail) != Rep(' ', pad) + (head + tail)
  {
    RepAt('0', pad, 0);
    RepAt(' ', pad, 0);
    var a, b := head + (Rep('0', pad) + tail), Rep(' ', pad) + (head + tail);
    if head == "" || head[0] != ' ' {
      assert a[0] == (if head == "" then '0' else head[0]) && b[0] == ' ';
    } else {
      assert a[|head|] == '0';
      BlankAhead(head, tail, pad);
    }
  }

  lemma {:induction false} RepAt(c: char, n: nat, i: nat)
    requires i < n
    ensures Rep(c, n)[i] == c
  {
    if i < n - 1 { RepAt(c, n - 1, i); }
  }

  /** Behind a blank as the sign. */
  lemma BlankAhead(head: string, tail: string, pad: nat)
    requires pad > 0 && head != "" && head[0] == ' ' && forall i :: 1 <= i < |head| ==> head[i] != ' '
    ensures head + (Rep('0', pad) + tail) != Rep(' ', pad) + (head + tail)
  {
    var a, b := head + (Rep('0', pad) + tail), Rep(' ', pad) + (head + tail);
    RepAt('0', pad, 0);
    if pad > 1 { RepAt(' ', pad, 1); }
    assert a[1] == if |head| > 1 then head[1] else '0';
    assert b[1] == if pad > 1 then ' ' else head[0];
  }

  /** Zeros in front do not change what digits stand for. */
  lemma {:induction false} LeadingZeros(k: int, s: string, base: nat)
    ensures Value(Rep('0', k) + s, base) == Value(s, base)
  {
    if s == "" {
      assert Rep('0', k) + s == Rep('0', k);
      ZerosValue(k, base);
    } else {
      var n := |s| - 1;
      assert (Rep('0', k) + s)[..|Rep('0', k) + s| - 1] == Rep('0', k) + s[..n];
      LeadingZeros(k, s[..n], base);
    }
  }

  lemma {:induction false} ZerosValue(k: int, base: nat)
    ensures Value(Rep('0', k), base) == 0
  {
    if k > 0 {
      assert Rep('0', k)[..|Rep('0', k)| - 1] == Rep('0', k - 1);
      ZerosValue(k - 1, base);
    }
  }

  /** The digits number writes, with the zeros in front of them. */
  function NumberBody(num: int, base: nat, size: int, precision: int, f: Flags): string
    requires 2 <= base <= 36 && (num >= 0 || f.sign)
  {
    Rep('0', if f.zeropad && !f.left then Padding(num, base, size, precision, f) else 0) +
    (Rep('0', precision - |DigitPart(num, base, f)|) + DigitPart(num, base, f))
  }

  lemma Regroup(a: string, b: string, c: string, d: string, e: string, g: string, h: string)
    ensures a + b + c + d + e + g + h == a + (b + c) + (d + (e + g)) + h
  {
  }

  /** The output consists of blanks, sign and prefix, a string of digits, and blanks. */
  lemma NumberShape(num: int, base: nat, size: int, precision: int, f: Flags)
    requires 2 <= base <= 36 && (num >= 0 || f.sign)
    ensures var pad := Padding(num, base, size, precision, f);
            Number(num, base, size, precision, f) ==
            Rep(' ', if f.zeropad || f.left then 0 else pad) + (SignPart(num, f) + PrefixPart(base, f)) +
            NumberBody(num, base, size, precision, f) + Rep(' ', if f.left then pad else 0)
  {
    var pad, digits := Padding(num, base, size, precision, f), DigitPart(num, base, f);
    Regroup(Rep(' ', if f.zeropad || f.left then 0 else pad), SignPart(num, f), PrefixPart(base, f),
            Rep('0', if f.zeropad && !f.left then pad else 0), Rep('0', precision - |digits|), digits,
            Rep(' ', if f.left then pad else 0));
  }

  /** The digits evaluate back to the number, or to zero for a negative one. */
  lemma NumberBodyValue(num: int, base: nat, size: int, precision: int, f: Flags)
    requires 2 <= base <= 36 && (num >= 0 || f.sign)
    ensures Value(NumberBody(num, base, size, precision, f), base) == if num < 0 then 0 else num
  {
    var pad, digits := Padding(num, base, size, precision, f), DigitPart(num, base, f);
    LeadingZeros(if f.zeropad && !f.left then pad else 0, Rep('0', precision - |digits|) + digits, base);
    LeadingZeros(precision - |digits|, digits, base);
    DigitsValue(if num < 0 then 0 else num, base, f.small);
  }
}
