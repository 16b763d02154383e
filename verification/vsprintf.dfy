/** The toyos formatter, toyos/Library/libc/vsprintf.cpp:22-396: a specification that reads a
    format one directive at a time, and the cursor-moving code that meets it. */
module Formatter {
  import opened Options
  import opened Numbers

  /** A variable argument: an int or unsigned, a pointer, a string, or the place of an int. */
  datatype Arg = IntArg(v: int) | PtrArg(p: nat) | StrArg(s: string) | CellArg(cell: nat)

  /** What was written, and what was stored through arguments. */
  datatype Output = Output(out: string, stores: seq<(nat, int)>)

  // ----- The specification -----

  predicate IsFlag(c: char) {
    c == '-' || c == '+' || c == ' ' || c == '#' || c == '0'
  }

  function WithFlag(f: Flags, c: char): Flags {
    if c == '-' then f.(left := true)
    else if c == '+' then f.(plus := true)
    else if c == ' ' then f.(space := true)
    else if c == '#' then f.(special := true)
    else f.(zeropad := true)
  }

  function ReadFlags(s: string, f: Flags): (r: (Flags, string))
    ensures |r.1| <= |s|
  {
    if s != "" && IsFlag(s[0]) then ReadFlags(s[1..], WithFlag(f, s[0])) else (f, s)
  }

  lemma {:induction false} AtoiShrinks(s: string, acc: int)
    ensures Atoi(s, acc).Some? ==> |Atoi(s, acc).value.1| <= |s|
    ensures Atoi(s, acc).Some? && acc >= 0 ==> Atoi(s, acc).value.0 >= 0
  {
    if s != "" && IsDigit(s[0]) { AtoiShrinks(s[1..], acc * 10 + s[0] as int - '0' as int); }
  }

  /** A numeric field: digits, or a star, which takes the next argument and is not stepped past;
      `none` when neither is there. */
  function ReadNumber(s: string, args: seq<Arg>, none: int): (r: Option<(int, string, seq<Arg>)>)
    ensures r.Some? ==> |r.value.1| <= |s|
  {
    AtoiShrinks(s, 0);
    if s != "" && IsDigit(s[0]) then
      (match Atoi(s, 0)
       case None => None
       case Some((n, rest)) => Some((n, rest, args)))
    else if s != "" && s[0] == '*' then
      if args != [] && args[0].IntArg? && INT_MIN <= args[0].v <= INT_MAX then Some((args[0].v, s, args[1..])) else None
    else Some((none, s, args))
  }

  /** The width, and whether it came negative and so means left adjustment. */
  function ReadWidth(s: string, args: seq<Arg>, f: Flags): (r: Option<(int, Flags, string, seq<Arg>)>)
    ensures r.Some? ==> |r.value.2| <= |s|
  {
    match ReadNumber(s, args, -1)
    case None => None
    case Some((n, rest, args')) =>
      if s == "" || s[0] != '*' || n >= 0 then Some((n, f, rest, args'))
      else if n == INT_MIN then None
      else Some((-n, f.(left := true), rest, args'))
  }

  function ReadPrecision(s: string, args: seq<Arg>): (r: Option<(int, string, seq<Arg>)>)
    ensures r.Some? ==> |r.value.1| <= |s|
  {
    if s == "" || s[0] != '.' then Some((-1, s, args))
    else
      match ReadNumber(s[1..], args, -1)
      case None => None
      case Some((n, rest, args')) => Some((if n < 0 then 0 else n, rest, args'))
  }

  function SkipQualifier(s: string): string {
    if s != "" && (s[0] == 'h' || s[0] == 'l' || s[0] == 'L') then s[1..] else s
  }

  function CharField(v: int, width: int, left: bool): string {
    var c := [(v % 256) as char];
    if left then c + Rep(' ', width - 1) else Rep(' ', width - 1) + c
  }

  function StringField(s: string, width: int, precision: int, left: bool): string {
    var t := if 0 <= precision < |s| then s[..precision] else s;
    if left then t + Rep(' ', width - |t|) else Rep(' ', width - |t|) + t
  }

  /** The base of an integer conversion, 0 for other characters. */
  function BaseOf(c: char): nat {
    if c == 'o' then 8 else if c == 'x' || c == 'X' || c == 'p' then 16
    else if c == 'd' || c == 'i' || c == 'u' then 10 else 0
  }

  function NumberFlags(c: char, width: int, f: Flags): Flags {
    if c == 'x' then f.(small := true)
    else if c == 'd' || c == 'i' then f.(sign := true)
    else if c == 'p' && width == -1 then f.(zeropad := true)
    else f
  }

  /** The int that reaches number; None for an argument of another kind or out of its range. */
  function NumberArg(c: char, args: seq<Arg>): (r: Option<int>)
    ensures r.Some? ==> args != [] && r.value <= INT_MAX && (r.value >= 0 || c == 'd' || c == 'i')
  {
    if args == [] then None
    else if c == 'p' then (if args[0].PtrArg? && args[0].p <= INT_MAX then Some(args[0].p) else None)
    else if !args[0].IntArg? then None
    else if c == 'd' || c == 'i' then (if INT_MIN <= args[0].v <= INT_MAX then Some(args[0].v) else None)
    else if 0 <= args[0].v <= INT_MAX then Some(args[0].v)
    else None
  }

  function ConvertedNumber(c: char, num: int, f: Flags, width: int, precision: int): string
    requires BaseOf(c) > 0 && (num >= 0 || c == 'd' || c == 'i')
  {
    Number(num, BaseOf(c), if c == 'p' && width == -1 then 8 else width, precision, NumberFlags(c, width, f))
  }

  /** The conversion whose character is the first of `s`. */
  function Convert(f: Flags, width: int, precision: int, s: string, args: seq<Arg>, pos: nat)
    : Option<(Output, seq<Arg>)>
  {
    var c := if s == "" then '\0' else s[0];
    if c == 'c' then
      if args == [] || !args[0].IntArg? then None
      else Some((Output(CharField(args[0].v, width, f.left), []), args[1..]))
    else if c == 's' then
      if args == [] || !args[0].StrArg? || '\0' in args[0].s then None
      else Some((Output(StringField(args[0].s, width, precision, f.left), []), args[1..]))
    else if BaseOf(c) > 0 then
      match NumberArg(c, args)
      case None => None
      case Some(num) =>
        Some((Output(ConvertedNumber(c, num, f, width, precision), []), args[1..]))
    else if c == 'n' then
      if args == [] || !args[0].CellArg? then None
      else Some((Output("", [(args[0].cell, pos)]), args[1..]))
    else
      Some((Output((if c != '%' then "%" else "") + (if c != '\0' then [c] else ""), []), args))
  }

  /** One directive, from behind its percent sign: its output, what follows it, and the
      arguments left. */
  function Directive(s: string, args: seq<Arg>, pos: nat): (r: Option<(Output, string, seq<Arg>)>)
    ensures r.Some? ==> |r.value.1| <= |s|
  {
    var (f, s1) := ReadFlags(s, NO_FLAGS);
    match ReadWidth(s1, args, f)
    case None => None
    case Some((width, f', s2, args2)) =>
      match ReadPrecision(s2, args2)
      case None => None
      case Some((precision, s3, args3)) =>
        var s4 := SkipQualifier(s3);
        match Convert(f', width, precision, s4, args3, pos)
        case None => None
        case Some((o, args4)) => Some((o, if s4 == "" then "" else s4[1..], args4))
  }

  /** The whole format; `pos` characters were written before. */
  function Render(s: string, args: seq<Arg>, pos: nat): Option<Output>
    decreases |s|
  {
    if s == "" then Some(Output("", []))
    else if s[0] != '%' then
      match Render(s[1..], args, pos + 1)
      case None => None
      case Some(o) => Some(Output([s[0]] + o.out, o.stores))
    else
      match Directive(s[1..], args, pos)
      case None => None
      case Some((o, rest, args')) =>
        match Render(rest, args', pos + |o.out|)
        case None => None
        case Some(o') => Some(Output(o.out + o'.out, o.stores + o'.stores))
  }

  // ----- Writing -----

  /** The buffer `b` after `out` was written at `str`. */
  function Splice(b: string, str: nat, out: string): (b': string)
    requires str + |out| <= |b|
    ensures |b'| == |b|
    decreases |out|
  {
    if out == "" then b else Splice(b[str := out[0]], str + 1, out[1..])
  }

  lemma {:induction false} SpliceTwice(b: string, str: nat, x: string, y: string)
    requires str + |x| + |y| <= |b|
    ensures Splice(Splice(b, str, x), str + |x|, y) == Splice(b, str, x + y)
    decreases |x|
  {
    if x == "" {
      assert x + y == y;
    } else {
      assert (x + y)[1..] == x[1..] + y;
      SpliceTwice(b[str := x[0]], str + 1, x[1..], y);
    }
  }

  /** What was written is read back, and the rest of the buffer is as it was. */
  lemma {:induction false} SpliceRead(b: string, str: nat, out: string)
    requires str + |out| <= |b|
    ensures var b' := Splice(b, str, out);
            b'[..str] == b[..str] && b'[str..str + |out|] == out && b'[str + |out|..] == b[str + |out|..]
    decreases |out|
  {
    if out != "" {
      var b1 := b[str := out[0]];
      SpliceRead(b1, str + 1, out[1..]);
      var b' := Splice(b, str, out);
      assert b'[..str + 1] == b1[..str + 1];
      assert b'[str] == b'[..str + 1][str] == out[0];
      assert b'[..str] == b'[..str + 1][..str] == b1[..str + 1][..str];
      assert b'[str..str + |out|] == [b'[str]] + b'[str + 1..str + 1 + |out[1..]|];
      assert out == [out[0]] + out[1..];
    }
  }

  /** *str++ = c */
  method PutChar(buf: array<char>, str: nat, c: char) returns (r: nat)
    requires str < buf.Length
    modifies buf
    ensures r == str + 1 && buf[..] == Splice(old(buf[..]), str, [c])
  {
    buf[str] := c;
    r := str + 1;
    assert [c][1..] == "";
  }

  /** while (n-- > 0) *str++ = c; */
  method Fill(buf: array<char>, str: nat, n: int, c: char) returns (r: nat)
    requires str + |Rep(c, n)| <= buf.Length
    modifies buf
    ensures r == str + |Rep(c, n)| && buf[..] == Splice(old(buf[..]), str, Rep(c, n))
  {
    ghost var b := buf[..];
    r := str;
    var left := n;
    while left > 0
      invariant (n <= 0 ==> left == n) && (n > 0 ==> 0 <= left <= n)
      invariant r == str + |Rep(c, n - left)| && buf[..] == Splice(b, str, Rep(c, n - left))
      invariant |Rep(c, n - left)| == (if n > 0 then n - left else 0)
    {
      SpliceTwice(b, str, Rep(c, n - left), [c]);
      r := PutChar(buf, r, c);
      left := left - 1;
    }
  }

  /** Copies a string that is not terminated here. */
  method Copy(buf: array<char>, str: nat, s: string) returns (r: nat)
    requires str + |s| <= buf.Length
    modifies buf
    ensures r == str + |s| && buf[..] == Splice(old(buf[..]), str, s)
  {
    ghost var b := buf[..];
    r := str;
    var i := 0;
    while i < |s|
      invariant i <= |s| && r == str + i && buf[..] == Splice(b, str, s[..i])
    {
      SpliceTwice(b, str, s[..i], [s[i]]);
      assert s[..i + 1] == s[..i] + [s[i]];
      r := PutChar(buf, r, s[i]);
      i := i + 1;
    }
    assert s[..i] == s;
  }

  // ----- number -----

  /** do_div, for the non-negative numbers it is given: the quotient and the remainder. */
  method DoDiv(n: nat, base: nat) returns (q: nat, res: nat)
    requires 2 <= base <= 36
    ensures q == n / base && res == n % base
  {
    res := n % base;
    q := n / base;
  }

  function Reversed(s: string): string {
    if s == "" then "" else Reversed(s[1..]) + [s[0]]
  }

  lemma {:induction false} ReversedAppend(s: string, c: char)
    ensures Reversed(s + [c]) == [c] + Reversed(s)
  {
    if s != "" {
      assert (s + [c])[1..] == s[1..] + [c];
      ReversedAppend(s[1..], c);
    }
  }

  /** digits[d], from the string the type selects. */
  method DigitAt(d: nat, small: bool) returns (c: char)
    requires d < 36
    ensures c == DigitChar(d, small)
  {
    DigitStrings(d);
    var digits := UPPER_DIGITS;
    if small { digits := LOWER_DIGITS; }
    c := digits[d];
  }

  /** The lowest digit moves from the end of the number to the end of tmp. */
  lemma DigitTurn(total: string, high: string, c: char, was: string)
    requires total == (high + [c]) + Reversed(was)
    ensures total == high + Reversed(was + [c])
  {
    ReversedAppend(was, c);
    assert (high + [c]) + Reversed(was) == high + ([c] + Reversed(was));
  }

  /** The digits `all` are those of `n` followed by those in tmp. */
  ghost predicate Splits(all: string, n: nat, base: nat, small: bool, was: string)
    requires 2 <= base <= 36
  {
    all == Significant(n, base, small) + Reversed(was) && |all| == |Significant(n, base, small)| + |was|
  }

  lemma TakeDigit(all: string, n: nat, base: nat, small: bool, was: string)
    requires 2 <= base <= 36 && n > 0 && Splits(all, n, base, small, was)
    ensures 0 <= n / base < n && 0 <= n % base < 36 && |was| < |all|
    ensures Splits(all, n / base, base, small, was + [DigitChar(n % base, small)])
  {
    DivFacts(n, base);
    DigitTurn(all, Significant(n / base, base, small), DigitChar(n % base, small), was);
  }

  lemma ZeroDigits(s: string, base: nat, small: bool)
    requires 2 <= base <= 36 && s == "0"
    ensures Reversed(s) == Digits(0, base, small) && |Digits(0, base, small)| == 1
  {
    assert s == "" + ['0'];
    ReversedAppend("", '0');
  }

  lemma SplitStart(all: string, num: nat, base: nat, small: bool)
    requires 2 <= base <= 36 && 0 < num <= INT_MAX && all == Digits(num, base, small)
    ensures |all| <= 31 && Splits(all, num, base, small, [])
  {
    DigitsFit(num, base, small);
  }

  lemma SplitEnd(all: string, base: nat, small: bool, was: string)
    requires 2 <= base <= 36 && Splits(all, 0, base, small, was)
    ensures Reversed(was) == all && |was| == |all|
  {
  }

  /** The digits of `num`, the lowest first, in tmp[36]. */
  method MakeDigits(num: nat, base: nat, small: bool) returns (tmp: array<char>, i: nat)
    requires 2 <= base <= 36 && num <= INT_MAX
    ensures fresh(tmp) && tmp.Length == 36 && i <= 31 && Reversed(tmp[..i]) == Digits(num, base, small)
    ensures i == |Digits(num, base, small)|
  {
    tmp := new char[36](_ => ' ');
    i := 0;
    if num == 0 {
      tmp[0] := '0';
      i := 1;
      ZeroDigits(tmp[..1], base, small);
      return;
    }
    var n: nat := num;
    ghost var all := Digits(num, base, small);
    SplitStart(all, num, base, small);
    while n != 0
      invariant i <= |all| <= 31 && Splits(all, n, base, small, tmp[..i])
    {
      ghost var was := tmp[..i];
      TakeDigit(all, n, base, small, was);
      var d: nat;
      n, d := DoDiv(n, base);
      var c := DigitAt(d, small);
      tmp[i] := c;
      assert tmp[..i + 1] == was + [c];
      i := i + 1;
    }
    SplitEnd(all, base, small, tmp[..i]);
  }

  lemma {:induction false} ReversedLength(s: string)
    ensures |Reversed(s)| == |s|
  {
    if s != "" { ReversedLength(s[1..]); }
  }

  /** while (i-- > 0) *str++ = tmp[i]; */
  method PutDigits(buf: array<char>, str: nat, tmp: array<char>, n: nat) returns (r: nat)
    requires buf != tmp && n <= tmp.Length && str + n <= buf.Length
    modifies buf
    ensures r == str + n && |Reversed(tmp[..n])| == n && buf[..] == Splice(old(buf[..]), str, Reversed(tmp[..n]))
  {
    ghost var b, t := buf[..], tmp[..n];
    ReversedLength(t);
    r := str;
    var i := n;
    while i > 0
      invariant 0 <= i <= n && r == str + (n - i) && tmp[..n] == t
      invariant |Reversed(t[i..])| == n - i && buf[..] == Splice(b, str, Reversed(t[i..]))
    {
      i := i - 1;
      assert t[i..][1..] == t[i + 1..];
      SpliceTwice(b, str, Reversed(t[i + 1..]), [t[i]]);
      ReversedLength(t[i..]);
      r := PutChar(buf, r, tmp[i]);
    }
    assert t[i..] == t;
  }

  /** Blanks, sign and prefix. */
  function HeadText(pad: int, sign: string, prefix: string): string {
    Rep(' ', pad) + sign + prefix
  }

  /** Padding, zeros up to the precision, digits, and blanks behind them. */
  function TailText(c: char, front: int, zeros: int, digits: string, behind: int): string {
    Rep(c, front) + Rep('0', zeros) + digits + Rep(' ', behind)
  }

  /** The first writes of number; `left` is what remains of the width. */
  method PutHead(buf: array<char>, str: nat, pad: int, blanks: bool, sign: string, prefix: string)
    returns (r: nat, left: int)
    requires str + |HeadText(if blanks then pad else 0, sign, prefix)| <= buf.Length
    modifies buf
    ensures left == if !blanks then pad else if pad >= 0 then -1 else pad - 1
    ensures r == str + |HeadText(if blanks then pad else 0, sign, prefix)|
    ensures buf[..] == Splice(old(buf[..]), str, HeadText(if blanks then pad else 0, sign, prefix))
  {
    ghost var b := buf[..];
    ghost var out := Rep(' ', if blanks then pad else 0);
    r, left := str, pad;
    if blanks {
      r := Fill(buf, r, left, ' ');
      left := if left >= 0 then -1 else left - 1;
    }
    SpliceTwice(b, str, out, sign);
    r := Copy(buf, r, sign);
    SpliceTwice(b, str, out + sign, prefix);
    r := Copy(buf, r, prefix);
  }

  /** The last writes of number. */
  method PutTail(
    buf: array<char>, str: nat, pad: int, c: char, leftFlag: bool, zeros: int, tmp: array<char>, i: nat,
    ghost d: string)
    returns (r: nat)
    requires buf != tmp && i <= tmp.Length && Reversed(tmp[..i]) == d && |d| == i
    requires str + |TailText(c, if leftFlag then 0 else pad, zeros, d, if leftFlag then pad else 0)| <= buf.Length
    modifies buf
    ensures var out := TailText(c, if leftFlag then 0 else pad, zeros, d, if leftFlag then pad else 0);
            r == str + |out| && buf[..] == Splice(old(buf[..]), str, out)
  {
    ghost var b := buf[..];
    ghost var front := Rep(c, if leftFlag then 0 else pad);
    var left := pad;
    r := str;
    if !leftFlag {
      r := Fill(buf, r, left, c);
      left := if left >= 0 then -1 else left - 1;
    }
    SpliceTwice(b, str, front, Rep('0', zeros));
    r := Fill(buf, r, zeros, '0');
    SpliceTwice(b, str, front + Rep('0', zeros), d);
    r := PutDigits(buf, r, tmp, i);
    SpliceTwice(b, str, front + Rep('0', zeros) + d, Rep(' ', left));
    r := Fill(buf, r, left, ' ');
  }

  lemma SplitAfterThree(a: string, b: string, c: string, d: string, e: string, g: string, h: string)
    ensures a + b + c + d + e + g + h == (a + b + c) + (d + e + g + h)
  {
  }

  /** What remains of the width behind the head. */
  function AfterHead(pad: int, f: Flags): int {
    if f.zeropad || f.left then pad else if pad >= 0 then -1 else pad - 1
  }

  function HeadOf(pad: int, f: Flags, sign: string, prefix: string): string {
    HeadText(if f.zeropad || f.left then 0 else pad, sign, prefix)
  }

  function TailOf(pad: int, f: Flags, zeros: int, d: string): string {
    TailText(if f.zeropad && !f.left then '0' else ' ', if f.left then 0 else AfterHead(pad, f), zeros, d,
             if f.left then AfterHead(pad, f) else 0)
  }

  lemma TailPieces(digits: string, pad: int, precision: int, f: Flags)
    ensures TailOf(pad, f, Max(precision, |digits|) - |digits|, digits) ==
            Rep('0', if f.zeropad && !f.left then pad else 0) + Rep('0', precision - |digits|) + digits +
            Rep(' ', if f.left then pad else 0)
  {
  }

  /** Head and tail make up the number: once the blanks are in front, nothing is left of the width
      for the second loop. */
  lemma NumberPieces(num: int, base: nat, size: int, precision: int, f: Flags)
    requires 2 <= base <= 36 && (num >= 0 || f.sign)
    ensures var pad, d := Padding(num, base, size, precision, f), DigitPart(num, base, f);
            Number(num, base, size, precision, f) ==
            HeadOf(pad, f, SignPart(num, f), PrefixPart(base, f)) + TailOf(pad, f, Max(precision, |d|) - |d|, d)
  {
    var pad, d := Padding(num, base, size, precision, f), DigitPart(num, base, f);
    TailPieces(d, pad, precision, f);
    SplitAfterThree(Rep(' ', if f.zeropad || f.left then 0 else pad), SignPart(num, f), PrefixPart(base, f),
                    Rep('0', if f.zeropad && !f.left then pad else 0), Rep('0', precision - |d|), d,
                    Rep(' ', if f.left then pad else 0));
  }

  /** number; None stands for the null pointer. */
  method WriteNumber(buf: array<char>, str: nat, num: int, base: nat, size: int, precision: int, f: Flags)
    returns (r: Option<nat>)
    requires (num >= 0 || f.sign) && num <= INT_MAX
    requires 2 <= base <= 36 ==> str + |Number(num, base, size, precision, f)| <= buf.Length
    modifies buf
    ensures !(2 <= base <= 36) ==> r == None && buf[..] == old(buf[..])
    ensures 2 <= base <= 36 ==>
              r == Some(str + |Number(num, base, size, precision, f)|) &&
              buf[..] == Splice(old(buf[..]), str, Number(num, base, size, precision, f))
  {
    var zeropad := f.zeropad && !f.left;
    if base < 2 || base > 36 { return None; }
    var c := if zeropad then '0' else ' ';
    var n, sign, prefix, size' := SignAndPrefix(num, base, size, f);
    var tmp, i := MakeDigits(n, base, f.small);
    var prec := precision;
    if i > prec { prec := i; }
    size' := size' - prec;
    var p := PutPieces(buf, str, num, base, size, precision, f, size', c, sign, prefix, tmp, i, prec);
    r := Some(p);
  }

  /** The writing half of number, */
  method PutPieces(
    buf: array<char>, str: nat, ghost num: int, ghost base: nat, ghost size: int, ghost precision: int, f: Flags,
    pad: int, c: char, sign: string, prefix: string, tmp: array<char>, i: nat, prec: int)
    returns (p: nat)
    requires 2 <= base <= 36 && (num >= 0 || f.sign) && str + |Number(num, base, size, precision, f)| <= buf.Length
    requires pad == Padding(num, base, size, precision, f) && sign == SignPart(num, f) && prefix == PrefixPart(base, f)
    requires c == (if f.zeropad && !f.left then '0' else ' ')
    requires buf != tmp && i <= tmp.Length && i == |DigitPart(num, base, f)|
    requires Reversed(tmp[..i]) == DigitPart(num, base, f) && prec == Max(precision, i)
    modifies buf
    ensures p == str + |Number(num, base, size, precision, f)|
    ensures buf[..] == Splice(old(buf[..]), str, Number(num, base, size, precision, f))
  {
    NumberPieces(num, base, size, precision, f);
    p := PutNumber(buf, str, f, pad, c, sign, prefix, tmp, i, prec, DigitPart(num, base, f));
  }

  /** whatever the pieces stand for. */
  method PutNumber(
    buf: array<char>, str: nat, f: Flags, pad: int, c: char, sign: string, prefix: string, tmp: array<char>, i: nat,
    prec: int, ghost d: string)
    returns (p: nat)
    requires buf != tmp && i <= tmp.Length && Reversed(tmp[..i]) == d && |d| == i
    requires c == (if f.zeropad && !f.left then '0' else ' ')
    requires str + |HeadOf(pad, f, sign, prefix) + TailOf(pad, f, prec - i, d)| <= buf.Length
    modifies buf
    ensures var out := HeadOf(pad, f, sign, prefix) + TailOf(pad, f, prec - i, d);
            p == str + |out| && buf[..] == Splice(old(buf[..]), str, out)
  {
    ghost var b := buf[..];
    SpliceTwice(b, str, HeadOf(pad, f, sign, prefix), TailOf(pad, f, prec - i, d));
    var left: int;
    p, left := PutHead(buf, str, pad, !(f.zeropad || f.left), sign, prefix);
    p := PutTail(buf, p, left, c, f.left, prec - i, tmp, i, d);
  }

  /** The sign and the prefix, and the width without them. */
  method SignAndPrefix(num: int, base: nat, size: int, f: Flags)
    returns (n: int, sign: string, prefix: string, size': int)
    ensures n == (if Negative(num, f) then 0 else num) && sign == SignPart(num, f) && prefix == PrefixPart(base, f)
    ensures size' == size - |sign| - |prefix|
  {
    n, sign, prefix, size' := num, "", "", size;
    if f.sign && num < 0 {
      sign := "-";
      n := n - n;
    } else {
      sign := if f.plus then "+" else if f.space then " " else "";
    }
    if sign != "" { size' := size' - 1; }
    if f.special {
      if base == 16 {
        size' := size' - 2;
        prefix := if f.small then "0x" else "0X";
      } else if base == 8 {
        size' := size' - 1;
        prefix := "0";
      }
    }
  }

  // ----- Reading the format -----

  /** A NUL-terminated format with nothing behind it: no access beyond the NUL is legal. */
  ghost predicate Terminated(fmt: array<char>)
    reads fmt
  {
    fmt.Length > 0 && fmt[fmt.Length - 1] == '\0' && forall k :: 0 <= k < fmt.Length - 1 ==> fmt[k] != '\0'
  }

  /** The format from the cursor on, without the NUL. */
  function Rest(fmt: array<char>, i: nat): string
    requires i < fmt.Length
    reads fmt
  {
    fmt[i..fmt.Length - 1]
  }

  lemma AtCursor(fmt: array<char>, i: nat)
    requires Terminated(fmt) && i < fmt.Length
    ensures Rest(fmt, i) == "" <==> fmt[i] == '\0'
    ensures Rest(fmt, i) == "" <==> i == fmt.Length - 1
    ensures i < fmt.Length - 1 ==> Rest(fmt, i)[0] == fmt[i] && Rest(fmt, i)[1..] == Rest(fmt, i + 1)
  {
  }

  /** skip_atoi. */
  method SkipAtoi(fmt: array<char>, i: nat) returns (v: int, j: nat)
    requires Terminated(fmt) && i < fmt.Length && Atoi(Rest(fmt, i), 0).Some?
    ensures i <= j < fmt.Length && Atoi(Rest(fmt, i), 0) == Some((v, Rest(fmt, j)))
  {
    v, j := 0, i;
    AtCursor(fmt, j);
    while IsDigit(fmt[j])
      invariant i <= j < fmt.Length && Atoi(Rest(fmt, i), 0) == Atoi(Rest(fmt, j), v)
      invariant fmt[j] != '\0' ==> j < fmt.Length - 1
      invariant fmt[j] != '\0' ==> Rest(fmt, j)[0] == fmt[j] && Rest(fmt, j)[1..] == Rest(fmt, j + 1)
      invariant Rest(fmt, j) == "" <==> fmt[j] == '\0'
      decreases fmt.Length - j
    {
      v := v * 10 + fmt[j] as int - '0' as int;
      j := j + 1;
      AtCursor(fmt, j);
    }
  }

  /** The labelled part of the loop: steps past the percent sign and the flags. */
  method SkipFlags(fmt: array<char>, i: nat) returns (f: Flags, j: nat)
    requires Terminated(fmt) && i < fmt.Length - 1
    ensures i < j < fmt.Length && ReadFlags(Rest(fmt, i + 1), NO_FLAGS) == (f, Rest(fmt, j))
  {
    f, j := NO_FLAGS, i + 1;
    AtCursor(fmt, j);
    while IsFlag(fmt[j])
      invariant i < j < fmt.Length && ReadFlags(Rest(fmt, i + 1), NO_FLAGS) == ReadFlags(Rest(fmt, j), f)
      invariant fmt[j] != '\0' ==> j < fmt.Length - 1
      invariant fmt[j] != '\0' ==> Rest(fmt, j)[0] == fmt[j] && Rest(fmt, j)[1..] == Rest(fmt, j + 1)
      invariant Rest(fmt, j) == "" <==> fmt[j] == '\0'
      decreases fmt.Length - j
    {
      f := WithFlag(f, fmt[j]);
      j := j + 1;
      AtCursor(fmt, j);
    }
  }

  /** A width or precision: digits or a star, which is not stepped past. */
  method TakeNumber(fmt: array<char>, i: nat, args: seq<Arg>, none: int) returns (n: int, j: nat, args': seq<Arg>)
    requires Terminated(fmt) && i < fmt.Length && ReadNumber(Rest(fmt, i), args, none).Some?
    ensures i <= j < fmt.Length && ReadNumber(Rest(fmt, i), args, none) == Some((n, Rest(fmt, j), args'))
  {
    AtCursor(fmt, i);
    n, j, args' := none, i, args;
    if IsDigit(fmt[i]) {
      n, j := SkipAtoi(fmt, i);
    } else if fmt[i] == '*' {
      n, args' := args[0].v, args[1..];
    }
  }

  method TakeWidth(fmt: array<char>, i: nat, args: seq<Arg>, f: Flags)
    returns (n: int, f': Flags, j: nat, args': seq<Arg>)
    requires Terminated(fmt) && i < fmt.Length && ReadWidth(Rest(fmt, i), args, f).Some?
    ensures i <= j < fmt.Length && ReadWidth(Rest(fmt, i), args, f) == Some((n, f', Rest(fmt, j), args'))
  {
    AtCursor(fmt, i);
    f' := f;
    n, j, args' := TakeNumber(fmt, i, args, -1);
    if fmt[i] == '*' && n < 0 {
      n := -n;
      f' := f.(left := true);
    }
  }

  method TakePrecision(fmt: array<char>, i: nat, args: seq<Arg>) returns (n: int, j: nat, args': seq<Arg>)
    requires Terminated(fmt) && i < fmt.Length && ReadPrecision(Rest(fmt, i), args).Some?
    ensures i <= j < fmt.Length && ReadPrecision(Rest(fmt, i), args) == Some((n, Rest(fmt, j), args'))
  {
    AtCursor(fmt, i);
    n, j, args' := -1, i, args;
    if fmt[i] == '.' {
      n, j, args' := TakeNumber(fmt, i + 1, args, -1);
      if n < 0 { n := 0; }
    }
  }

  method PassQualifier(fmt: array<char>, i: nat) returns (j: nat)
    requires Terminated(fmt) && i < fmt.Length
    ensures i <= j < fmt.Length && Rest(fmt, j) == SkipQualifier(Rest(fmt, i))
  {
    AtCursor(fmt, i);
    j := if fmt[i] == 'h' || fmt[i] == 'l' || fmt[i] == 'L' then i + 1 else i;
  }

  // ----- The conversions -----

  method PutCharField(buf: array<char>, str: nat, v: int, width: int, left: bool) returns (r: nat)
    requires str + |CharField(v, width, left)| <= buf.Length
    modifies buf
    ensures r == str + |CharField(v, width, left)| && buf[..] == Splice(old(buf[..]), str, CharField(v, width, left))
  {
    ghost var b, c := buf[..], [(v % 256) as char];
    r := str;
    if !left {
      SpliceTwice(b, str, Rep(' ', width - 1), c);
      r := Fill(buf, r, width - 1, ' ');
    } else {
      SpliceTwice(b, str, c, Rep(' ', width - 1));
    }
    r := PutChar(buf, r, (v % 256) as char);
    if left { r := Fill(buf, r, width - 1, ' '); }
  }

  lemma StringParts(s: string, width: int, precision: int, left: bool, t: string)
    requires t == s[..if 0 <= precision < |s| then precision else |s|]
    ensures StringField(s, width, precision, left) ==
            if left then t + Rep(' ', width - |t|) else Rep(' ', width - |t|) + t
  {
  }

  method PutStringField(buf: array<char>, str: nat, s: string, width: int, precision: int, left: bool) returns (r: nat)
    requires str + |StringField(s, width, precision, left)| <= buf.Length
    modifies buf
    ensures r == str + |StringField(s, width, precision, left)|
    ensures buf[..] == Splice(old(buf[..]), str, StringField(s, width, precision, left))
  {
    ghost var b := buf[..];
    var len := |s|;
    if precision >= 0 && len > precision { len := precision; }
    var t := s[..len];
    StringParts(s, width, precision, left, t);
    r := str;
    if !left {
      SpliceTwice(b, str, Rep(' ', width - len), t);
      r := Fill(buf, r, width - len, ' ');
    } else {
      SpliceTwice(b, str, t, Rep(' ', width - len));
    }
    r := Copy(buf, r, t);
    if left { r := Fill(buf, r, width - len, ' '); }
  }

  /** The branch for a character that is no conversion. At the NUL the cursor steps back, so that
      the loop finds it again. */
  method PutOther(buf: array<char>, str: nat, c: char) returns (r: nat, back: bool)
    requires str + |(if c != '%' then "%" else "") + (if c != '\0' then [c] else "")| <= buf.Length
    modifies buf
    ensures back == (c == '\0')
    ensures var out := (if c != '%' then "%" else "") + (if c != '\0' then [c] else "");
            r == str + |out| && buf[..] == Splice(old(buf[..]), str, out)
  {
    ghost var b := buf[..];
    SpliceTwice(b, str, if c != '%' then "%" else "", if c != '\0' then [c] else "");
    r, back := str, false;
    if c != '%' { r := PutChar(buf, r, '%'); }
    if c != '\0' { r := PutChar(buf, r, c); } else { back := true; }
  }

  /** The integer conversions. */
  method PutConverted(buf: array<char>, str: nat, c: char, args: seq<Arg>, f: Flags, width: int, precision: int)
    returns (r: nat)
    requires BaseOf(c) > 0 && NumberArg(c, args).Some?
    requires str + |ConvertedNumber(c, NumberArg(c, args).value, f, width, precision)| <= buf.Length
    modifies buf
    ensures r == str + |ConvertedNumber(c, NumberArg(c, args).value, f, width, precision)|
    ensures buf[..] == Splice(old(buf[..]), str, ConvertedNumber(c, NumberArg(c, args).value, f, width, precision))
  {
    var w, f' := width, f;
    if c == 'p' {
      if w == -1 { w, f' := 8, f.(zeropad := true); }
    } else if c == 'x' {
      f' := f.(small := true);
    } else if c == 'd' || c == 'i' {
      f' := f.(sign := true);
    }
    var num := if c == 'p' then args[0].p else args[0].v;
    var q := WriteNumber(buf, str, num, BaseOf(c), w, precision, f');
    r := q.value;
  }

  /** The switch on the conversion character; `stores` is what went through an int pointer. */
  method DoConvert(
    buf: array<char>, str: nat, c: char, args: seq<Arg>, f: Flags, width: int, precision: int, ghost s: string)
    returns (r: nat, args': seq<Arg>, stores: seq<(nat, int)>, back: bool, ghost out: string)
    requires c == (if s == "" then '\0' else s[0]) && (s != "" ==> s[0] != '\0')
    requires Convert(f, width, precision, s, args, str).Some?
    requires str + |Convert(f, width, precision, s, args, str).value.0.out| <= buf.Length
    modifies buf
    ensures Convert(f, width, precision, s, args, str) == Some((Output(out, stores), args'))
    ensures r == str + |out| && buf[..] == Splice(old(buf[..]), str, out) && back == (s == "")
  {
    out := Convert(f, width, precision, s, args, str).value.0.out;
    r, args', stores, back := str, args, [], false;
    if c == 'c' {
      r := PutCharField(buf, str, args[0].v, width, f.left);
      args' := args[1..];
    } else if c == 's' {
      r := PutStringField(buf, str, args[0].s, width, precision, f.left);
      args' := args[1..];
    } else if BaseOf(c) > 0 {
      r := PutConverted(buf, str, c, args, f, width, precision);
      args' := args[1..];
    } else if c == 'n' {
      stores := [(args[0].cell, str)];
      args' := args[1..];
    } else {
      r, back := PutOther(buf, str, c);
    }
  }

  // ----- vsprintf -----

  /** The body of the loop for a directive at `i`; `j` is the cursor the loop goes on with, after
      its ++fmt, which makes up for the step back at the NUL. */
  method DoDirective(buf: array<char>, str: nat, fmt: array<char>, i: nat, args: seq<Arg>)
    returns (r: nat, j: nat, args': seq<Arg>, stores: seq<(nat, int)>, ghost out: string)
    requires buf != fmt && Terminated(fmt) && i < fmt.Length - 1
    requires Directive(Rest(fmt, i + 1), args, str).Some?
    requires str + |Directive(Rest(fmt, i + 1), args, str).value.0.out| <= buf.Length
    modifies buf
    ensures i < j < fmt.Length
    ensures Directive(Rest(fmt, i + 1), args, str) == Some((Output(out, stores), Rest(fmt, j), args'))
    ensures r == str + |out| && buf[..] == Splice(old(buf[..]), str, out)
  {
    var f, i1 := SkipFlags(fmt, i);
    var width, f', i2, args2 := TakeWidth(fmt, i1, args, f);
    var precision, i3, args3 := TakePrecision(fmt, i2, args2);
    var i4 := PassQualifier(fmt, i3);
    AtCursor(fmt, i4);
    var back: bool;
    r, args', stores, back, out := DoConvert(buf, str, fmt[i4], args3, f', width, precision, Rest(fmt, i4));
    j := if back then i4 - 1 else i4;
    j := j + 1;
  }

  /** So far `done` was written and `stores` stored; what remains completes `all`. */
  ghost predicate Remains(all: Output, done: string, stores: seq<(nat, int)>, s: string, args: seq<Arg>)
  {
    && Render(s, args, |done|).Some?
    && all.out == done + Render(s, args, |done|).value.out
    && all.stores == stores + Render(s, args, |done|).value.stores
  }

  lemma RemainsChar(all: Output, done: string, stores: seq<(nat, int)>, s: string, args: seq<Arg>)
    requires Remains(all, done, stores, s, args) && s != "" && s[0] != '%'
    ensures Remains(all, done + [s[0]], stores, s[1..], args) && |done| < |all.out|
  {
    var o := Render(s[1..], args, |done| + 1).value;
    assert done + ([s[0]] + o.out) == (done + [s[0]]) + o.out;
  }

  lemma RemainsBehind(
    all: Output, done: string, stores: seq<(nat, int)>, o: Output, o': Output, rest: string, args: seq<Arg>)
    requires Render(rest, args, |done| + |o.out|) == Some(o')
    requires all.out == done + (o.out + o'.out) && all.stores == stores + (o.stores + o'.stores)
    ensures |done| + |o.out| <= |all.out| && Remains(all, done + o.out, stores + o.stores, rest, args)
  {
    Reassociated(done, o.out, o'.out);
    Reassociated(stores, o.stores, o'.stores);
    RemainsThat(all, done + o.out, stores + o.stores, rest, args, o');
  }

  lemma Reassociated<T>(a: seq<T>, b: seq<T>, c: seq<T>)
    ensures a + (b + c) == (a + b) + c
  {
  }

  lemma RemainsThat(all: Output, done: string, stores: seq<(nat, int)>, s: string, args: seq<Arg>, o: Output)
    requires Render(s, args, |done|) == Some(o) && all.out == done + o.out && all.stores == stores + o.stores
    ensures Remains(all, done, stores, s, args)
  {
  }

  lemma RenderDirective(s: string, args: seq<Arg>, pos: nat)
    returns (o: Output, rest: string, args': seq<Arg>, o': Output)
    requires s != "" && s[0] == '%' && Render(s, args, pos).Some?
    ensures Directive(s[1..], args, pos) == Some((o, rest, args')) && Render(rest, args', pos + |o.out|) == Some(o')
    ensures Render(s, args, pos) == Some(Output(o.out + o'.out, o.stores + o'.stores))
  {
    var d := Directive(s[1..], args, pos).value;
    o, rest, args' := d.0, d.1, d.2;
    o' := Render(rest, args', pos + |o.out|).value;
  }

  /** The state of the loop before position `i` of the format: `done` was written over `b`. */
  ghost predicate Loop(
    b: string, buf: string, str: nat, s: string, args: seq<Arg>, all: Output, done: string, stores: seq<(nat, int)>)
  {
    && Remains(all, done, stores, s, args) && str == |done| <= |all.out| < |b|
    && buf == Splice(b, 0, done)
  }

  /** The body of the loop for an ordinary character. */
  method TakeChar(
    buf: array<char>, str: nat, c: char, ghost b: string, ghost s: string, ghost args: seq<Arg>, ghost all: Output,
    ghost done: string, ghost stores: seq<(nat, int)>)
    returns (r: nat)
    requires s != "" && s[0] == c != '%' && Loop(b, buf[..], str, s, args, all, done, stores)
    modifies buf
    ensures Loop(b, buf[..], r, s[1..], args, all, done + [c], stores)
  {
    RemainsChar(all, done, stores, s, args);
    SpliceTwice(b, 0, done, [c]);
    r := PutChar(buf, str, c);
  }

  /** A directive ahead of the loop fits in, and what remains behind it completes `all`. */
  lemma DirectiveAhead(all: Output, done: string, stores: seq<(nat, int)>, s: string, args: seq<Arg>)
    returns (o: Output, rest: string, va: seq<Arg>)
    requires Remains(all, done, stores, s, args) && s != "" && s[0] == '%'
    ensures Directive(s[1..], args, |done|) == Some((o, rest, va)) && |done| + |o.out| <= |all.out|
    ensures Remains(all, done + o.out, stores + o.stores, rest, va)
  {
    var o';
    o, rest, va, o' := RenderDirective(s, args, |done|);
    RemainsBehind(all, done, stores, o, o', rest, va);
  }

  /** The body of the loop for a directive. */
  method TakeDirective(
    buf: array<char>, str: nat, fmt: array<char>, i: nat, args: seq<Arg>, ghost b: string, ghost all: Output,
    ghost done: string, stores: seq<(nat, int)>)
    returns (r: nat, j: nat, args': seq<Arg>, stores': seq<(nat, int)>, ghost done': string)
    requires buf != fmt && Terminated(fmt) && i < fmt.Length - 1 && fmt[i] == '%'
    requires Loop(b, buf[..], str, Rest(fmt, i), args, all, done, stores)
    modifies buf
    ensures i < j < fmt.Length && Loop(b, buf[..], r, Rest(fmt, j), args', all, done', stores')
  {
    AtCursor(fmt, i);
    ghost var o, rest, va := DirectiveAhead(all, done, stores, Rest(fmt, i), args);
    var st;
    ghost var out;
    r, j, args', st, out := DoDirective(buf, str, fmt, i, args);
    SpliceTwice(b, 0, done, out);
    done', stores' := done + out, stores + st;
  }

  /** At the NUL everything was written. */
  lemma LoopEnd(b: string, buf: string, str: nat, args: seq<Arg>, all: Output, done: string, stores: seq<(nat, int)>)
    requires Loop(b, buf, str, "", args, all, done, stores)
    ensures |buf| == |b| && str == |all.out| && all == Output(buf[..str], stores) && buf[str..] == b[str..]
  {
    SpliceRead(b, 0, done);
    assert done + "" == done && stores + [] == stores;
  }

  lemma LoopStart(b: string, s: string, args: seq<Arg>)
    requires Render(s, args, 0).Some? && |Render(s, args, 0).value.out| < |b|
    ensures Loop(b, b, 0, s, args, Render(s, args, 0).value, "", [])
  {
    var o := Render(s, args, 0).value;
    assert "" + o.out == o.out && [] + o.stores == o.stores;
  }

  /** vsprintf: for every NUL-terminated format with matching arguments it writes what Render
      says, a NUL behind it, stores what Render says, and returns the length. */
  method Vsprintf(buf: array<char>, fmt: array<char>, args: seq<Arg>) returns (len: nat, stores: seq<(nat, int)>)
    requires buf != fmt && Terminated(fmt) && Render(Rest(fmt, 0), args, 0).Some?
    requires |Render(Rest(fmt, 0), args, 0).value.out| < buf.Length
    modifies buf
    ensures len < buf.Length && Render(Rest(fmt, 0), args, 0) == Some(Output(buf[..len], stores))
    ensures buf[len] == '\0' && buf[len + 1..] == old(buf[len + 1..])
  {
    ghost var b, all := buf[..], Render(Rest(fmt, 0), args, 0).value;
    ghost var done := "";
    var i: nat, str: nat, va := 0, 0, args;
    stores := [];
    LoopStart(b, Rest(fmt, 0), args);
    AtCursor(fmt, 0);
    while fmt[i] != '\0'
      invariant i < fmt.Length && Loop(b, buf[..], str, Rest(fmt, i), va, all, done, stores)
      decreases fmt.Length - i
    {
      AtCursor(fmt, i);
      if fmt[i] != '%' {
        str := TakeChar(buf, str, fmt[i], b, Rest(fmt, i), va, all, done, stores);
        done := done + [fmt[i]];
        i := i + 1;
      } else {
        str, i, va, stores, done := TakeDirective(buf, str, fmt, i, va, b, all, done, stores);
      }
    }
    AtCursor(fmt, i);
    LoopEnd(b, buf[..], str, va, all, done, stores);
    ghost var written := buf[..];
    buf[str] := '\0';
    len := str;
    assert buf[..len] == written[..len];
    assert buf[len + 1..] == written[len..][1..] == b[len..][1..];
  }

  // ----- What the specification means -----

  /** A format without percent signs is copied. */
  lemma {:induction false} PlainText(s: string, args: seq<Arg>, pos: nat)
    requires '%' !in s
    ensures Render(s, args, pos) == Some(Output(s, []))
  {
    if s != "" {
      PlainText(s[1..], args, pos + 1);
      assert [s[0]] + s[1..] == s;
    }
  }

  lemma CharThen(s: string, args: seq<Arg>, pos: nat, o: Output)
    requires s != "" && s[0] != '%' && Render(s[1..], args, pos + 1) == Some(o)
    ensures Render(s, args, pos) == Some(Output([s[0]] + o.out, o.stores))
  {
  }

  lemma Prepend(c: char, s: string, t: string, out: string)
    ensures [c] + (s + out) == ([c] + s) + out && ([c] + s) + t == [c] + (s + t) && ([c] + (s + t))[1..] == s + t
  {
  }

  /** Formats are rendered piece by piece, as long as a piece is plain text. */
  lemma {:induction false} TextThen(s: string, t: string, args: seq<Arg>, pos: nat, o: Output)
    requires '%' !in s && Render(t, args, pos + |s|) == Some(o)
    ensures Render(s + t, args, pos) == Some(Output(s + o.out, o.stores))
  {
    if s == "" {
      assert s + t == t && s + o.out == o.out;
    } else {
      var c, s' := s[0], s[1..];
      assert s == [c] + s';
      TextThen(s', t, args, pos + 1, o);
      Prepend(c, s', t, o.out);
      CharThen([c] + (s' + t), args, pos, Output(s' + o.out, o.stores));
    }
  }

  /** A directive and what follows it. */
  lemma DirectiveFirst(s: string, args: seq<Arg>, pos: nat, o: Output, rest: string, args': seq<Arg>, o': Output)
    requires s != "" && s[0] == '%' && Directive(s[1..], args, pos) == Some((o, rest, args'))
    requires Render(rest, args', pos + |o.out|) == Some(o')
    ensures Render(s, args, pos) == Some(Output(o.out + o'.out, o.stores + o'.stores))
  {
  }

  /** A directive that stores nothing, and what follows it. */
  lemma DirectiveThen(
    s: string, args: seq<Arg>, pos: nat, out: string, rest: string, args': seq<Arg>, o: Output)
    requires s != "" && s[0] == '%' && Directive(s[1..], args, pos) == Some((Output(out, []), rest, args'))
    requires Render(rest, args', pos + |out|) == Some(o)
    ensures Render(s, args, pos) == Some(Output(out + o.out, o.stores))
  {
    DirectiveFirst(s, args, pos, Output(out, []), rest, args', o);
    EmptyAround(o.stores);
  }

  lemma EmptyAround<T>(s: seq<T>)
    ensures [] + s == s && s + [] == s
  {
  }

  lemma DecimalDirective(n: int)
    requires INT_MIN <= n <= INT_MAX
    ensures Directive("d", [IntArg(n)], 0) == Some((Output(if n < 0 then "-0" else Digits(n, 10, false), []), "", []))
  {
    var out := if n < 0 then "-0" else Digits(n, 10, false);
    assert Number(n, 10, -1, -1, NO_FLAGS.(sign := true)) == out;
    assert "d"[1..] == "" && [IntArg(n)][1..] == [];
    assert ReadFlags("d", NO_FLAGS) == (NO_FLAGS, "d");
    assert ReadWidth("d", [IntArg(n)], NO_FLAGS) == Some((-1, NO_FLAGS, "d", [IntArg(n)]));
    assert Convert(NO_FLAGS, -1, -1, "d", [IntArg(n)], 0) == Some((Output(out, []), []));
  }

  /** "%d": decimal digits that read back as the number. */
  lemma PlainDecimal(n: nat)
    requires n <= INT_MAX
    ensures Render("%d", [IntArg(n)], 0) == Some(Output(Digits(n, 10, false), []))
    ensures n <= INT_MAX - 48 ==> Atoi(Digits(n, 10, false), 0) == Some((n, ""))
  {
    assert "%d"[1..] == "d";
    DecimalDirective(n);
    DirectiveThen("%d", [IntArg(n)], 0, Digits(n, 10, false), "", [], Output("", []));
    AtoiInverts(n, "");
    EmptyAround(Digits(n, 10, false));
  }

  predicate AllFlags(fs: string) {
    forall i :: 0 <= i < |fs| ==> IsFlag(fs[i])
  }

  function FlagsOf(fs: string, f: Flags): Flags {
    if fs == "" then f else FlagsOf(fs[1..], WithFlag(f, fs[0]))
  }

  lemma {:induction false} FlagsRead(fs: string, rest: string, f: Flags)
    requires AllFlags(fs) && (rest == "" || !IsFlag(rest[0]))
    ensures ReadFlags(fs + rest, f) == (FlagsOf(fs, f), rest)
  {
    if fs == "" {
      assert fs + rest == rest;
    } else {
      assert (fs + rest)[0] == fs[0] && (fs + rest)[1..] == fs[1..] + rest;
      FlagsRead(fs[1..], rest, WithFlag(f, fs[0]));
    }
  }

  /** A width never begins with a zero, which would be a flag. */
  lemma {:induction false} FirstDigit(n: nat)
    requires n > 0
    ensures |Significant(n, 10, false)| > 0 && '1' <= Significant(n, 10, false)[0] <= '9'
  {
    if n >= 10 {
      FirstDigit(n / 10);
      assert Significant(n, 10, false)[0] == Significant(n / 10, 10, false)[0];
    } else {
      assert Significant(n / 10, 10, false) == "";
    }
  }

  // ----- Directives spelled out -----

  predicate IsQualifier(c: char) {
    c == 'h' || c == 'l' || c == 'L'
  }

  /** What may stand behind a width, a precision or a qualifier: no flag, digit, point or star. */
  predicate Plain(s: string) {
    s != "" && !IsFlag(s[0]) && !IsDigit(s[0]) && s[0] != '.' && s[0] != '*'
  }

  /** A width, a precision and a qualifier as they are written, when there is one. */
  function WidthText(w: Option<nat>): string {
    if w.Some? then Digits(w.value, 10, false) else ""
  }

  function PrecisionText(p: Option<nat>): string {
    if p.Some? then ['.'] + Digits(p.value, 10, false) else ""
  }

  function QualifierText(q: Option<char>): string {
    if q.Some? then [q.value] else ""
  }

  /** The value the code has for a number that may be missing. */
  function Field(n: Option<nat>): int {
    if n.Some? then n.value else -1
  }

  predicate FieldsOk(w: Option<nat>, p: Option<nat>, q: Option<char>) {
    && (w.Some? ==> 0 < w.value <= INT_MAX - 48) && (p.Some? ==> p.value <= INT_MAX - 48)
    && (q.Some? ==> IsQualifier(q.value))
  }

  lemma WidthRead(w: Option<nat>, rest: string, args: seq<Arg>, f: Flags)
    requires w.Some? ==> 0 < w.value <= INT_MAX - 48
    requires rest != "" && !IsFlag(rest[0]) && !IsDigit(rest[0]) && rest[0] != '*'
    ensures var s := WidthText(w) + rest;
            ReadWidth(s, args, f) == Some((Field(w), f, rest, args)) && s != "" && !IsFlag(s[0])
  {
    if w.Some? {
      FirstDigit(w.value);
      AtoiInverts(w.value, rest);
      assert (Digits(w.value, 10, false) + rest)[0] == Digits(w.value, 10, false)[0];
    } else {
      assert "" + rest == rest;
    }
  }

  lemma PrecisionRead(p: Option<nat>, rest: string, args: seq<Arg>)
    requires (p.Some? ==> p.value <= INT_MAX - 48) && Plain(rest)
    ensures var s := PrecisionText(p) + rest;
            ReadPrecision(s, args) == Some((Field(p), rest, args)) &&
            s != "" && !IsFlag(s[0]) && !IsDigit(s[0]) && s[0] != '*'
  {
    if p.Some? {
      AtoiInverts(p.value, rest);
      var s := Digits(p.value, 10, false) + rest;
      assert (['.'] + Digits(p.value, 10, false)) + rest == ['.'] + s && (['.'] + s)[1..] == s;
      if p.value > 0 { FirstDigit(p.value); }
      assert s[0] == Digits(p.value, 10, false)[0] && IsDigit(s[0]);
    } else {
      assert "" + rest == rest;
    }
  }

  lemma QualifierRead(q: Option<char>, c: char, t: string)
    requires (q.Some? ==> IsQualifier(q.value)) && !IsQualifier(c) && Plain([c])
    ensures Plain(QualifierText(q) + ([c] + t)) && SkipQualifier(QualifierText(q) + ([c] + t)) == [c] + t
  {
    if q.Some? { assert ([q.value] + ([c] + t))[1..] == [c] + t; } else { assert "" + ([c] + t) == [c] + t; }
  }

  /** How Directive composes what its parts read. */
  lemma DirectiveParts(
    s: string, f: Flags, s1: string, w: int, s2: string, p: int, s3: string, c: char, t: string, args: seq<Arg>,
    args2: seq<Arg>, args3: seq<Arg>, pos: nat, o: Output, args4: seq<Arg>)
    requires ReadFlags(s, NO_FLAGS) == (f, s1)
    requires ReadWidth(s1, args, f) == Some((w, f, s2, args2)) && ReadPrecision(s2, args2) == Some((p, s3, args3))
    requires SkipQualifier(s3) == [c] + t && Convert(f, w, p, [c] + t, args3, pos) == Some((o, args4))
    ensures Directive(s, args, pos) == Some((o, t, args4))
  {
    assert ([c] + t)[1..] == t;
  }

  /** A directive spelled out as flags, width, precision, qualifier and a conversion means just that,
      whatever stands behind it: the digits that were written are read back. */
  lemma SpelledDirective(
    s: string, fs: string, w: Option<nat>, p: Option<nat>, q: Option<char>, c: char, t: string, args: seq<Arg>,
    pos: nat, o: Output, args': seq<Arg>)
    requires s == fs + (WidthText(w) + (PrecisionText(p) + (QualifierText(q) + ([c] + t))))
    requires AllFlags(fs) && FieldsOk(w, p, q) && Plain([c]) && !IsQualifier(c)
    requires Convert(FlagsOf(fs, NO_FLAGS), Field(w), Field(p), [c] + t, args, pos) == Some((o, args'))
    ensures Directive(s, args, pos) == Some((o, t, args'))
  {
    var f, s3 := FlagsOf(fs, NO_FLAGS), QualifierText(q) + ([c] + t);
    var s2 := PrecisionText(p) + s3;
    var s1 := WidthText(w) + s2;
    QualifierRead(q, c, t);
    PrecisionRead(p, s3, args);
    WidthRead(w, s2, args, f);
    FlagsRead(fs, s1, NO_FLAGS);
    DirectiveParts(fs + s1, f, s1, Field(w), s2, Field(p), s3, c, t, args, args, args, pos, o, args');
  }

  /** Every negative number comes out as "-0": the code subtracts it from itself instead of
      negating it. */
  lemma NegativeIsZero(n: int)
    requires INT_MIN <= n < 0
    ensures Render("%d", [IntArg(n)], 0) == Some(Output("-0", []))
  {
    assert "%d"[1..] == "d";
    DecimalDirective(n);
    DirectiveThen("%d", [IntArg(n)], 0, "-0", "", [], Output("", []));
    EmptyAround("-0");
  }

  lemma StarConverted(f: Flags, w: int, p: int, t: string, args: seq<Arg>, pos: nat)
    ensures Convert(f, w, p, ['*'] + t, args, pos) == Some((Output(['%', '*'], []), args))
    ensures SkipQualifier(['*'] + t) == ['*'] + t
  {
    assert "%" + ['*'] == ['%', '*'];
  }

  /** Behind flags a star takes its argument for the width, negative for left adjustment. */
  lemma StarWidth(f: Flags, t: string, args: seq<Arg>)
    requires args != [] && args[0].IntArg? && INT_MIN < args[0].v <= INT_MAX
    ensures var n := args[0].v;
            ReadWidth(['*'] + t, args, f) ==
            Some((if n < 0 then -n else n, if n < 0 then f.(left := true) else f, ['*'] + t, args[1..]))
  {
  }

  lemma StarDirective(fs: string, t: string, args: seq<Arg>, pos: nat)
    requires AllFlags(fs) && args != [] && args[0].IntArg? && INT_MIN < args[0].v <= INT_MAX
    ensures Directive(fs + (['*'] + t), args, pos) == Some((Output(['%', '*'], []), t, args[1..]))
  {
    var s, n, f := ['*'] + t, args[0].v, FlagsOf(fs, NO_FLAGS);
    FlagsRead(fs, s, NO_FLAGS);
    StarWidth(f, t, args);
    assert ReadPrecision(s, args[1..]) == Some((-1, s, args[1..]));
    StarConverted(if n < 0 then f.(left := true) else f, if n < 0 then -n else n, -1, t, args[1..], pos);
    assert s[1..] == t;
  }

  /** A star for the width takes its argument but is not stepped past, and so is printed behind the
      percent sign and ends the directive, in which flags are lost; the format goes on behind it. */
  lemma StarIsPrinted(fs: string, t: string, args: seq<Arg>, pos: nat, o: Output)
    requires AllFlags(fs) && args != [] && args[0].IntArg? && INT_MIN < args[0].v <= INT_MAX
    requires Render(t, args[1..], pos + 2) == Some(o)
    ensures Render(['%'] + (fs + (['*'] + t)), args, pos) == Some(Output(['%', '*'] + o.out, o.stores))
  {
    var s := fs + (['*'] + t);
    assert (['%'] + s)[1..] == s;
    StarDirective(fs, t, args, pos);
    DirectiveThen(['%'] + s, args, pos, ['%', '*'], t, args[1..], o);
  }

  lemma PrecisionStarRead(t: string, args: seq<Arg>)
    requires args != [] && args[0].IntArg? && INT_MIN <= args[0].v <= INT_MAX
    ensures ReadPrecision(['.'] + (['*'] + t), args) ==
            Some((if args[0].v < 0 then 0 else args[0].v, ['*'] + t, args[1..]))
  {
    assert (['.'] + (['*'] + t))[1..] == ['*'] + t;
  }

  lemma PrecisionStarDirective(fs: string, w: Option<nat>, t: string, args: seq<Arg>, pos: nat)
    requires AllFlags(fs) && FieldsOk(w, None, None)
    requires args != [] && args[0].IntArg? && INT_MIN <= args[0].v <= INT_MAX
    ensures Directive(fs + (WidthText(w) + (['.'] + (['*'] + t))), args, pos) ==
            Some((Output(['%', '*'], []), t, args[1..]))
  {
    var f, p, s2 := FlagsOf(fs, NO_FLAGS), if args[0].v < 0 then 0 else args[0].v, ['.'] + (['*'] + t);
    var s1 := WidthText(w) + s2;
    WidthRead(w, s2, args, f);
    FlagsRead(fs, s1, NO_FLAGS);
    PrecisionStarRead(t, args);
    StarConverted(f, Field(w), p, t, args[1..], pos);
    DirectiveParts(fs + s1, f, s1, Field(w), s2, p, ['*'] + t, '*', t, args, args, args[1..], pos,
                   Output(['%', '*'], []), args[1..]);
  }

  /** The same for a star as the precision: flags, width and point are lost. */
  lemma PrecisionStarIsPrinted(fs: string, w: Option<nat>, t: string, args: seq<Arg>, pos: nat, o: Output)
    requires AllFlags(fs) && FieldsOk(w, None, None)
    requires args != [] && args[0].IntArg? && INT_MIN <= args[0].v <= INT_MAX
    requires Render(t, args[1..], pos + 2) == Some(o)
    ensures Render(['%'] + (fs + (WidthText(w) + (['.'] + (['*'] + t)))), args, pos) ==
            Some(Output(['%', '*'] + o.out, o.stores))
  {
    var s := fs + (WidthText(w) + (['.'] + (['*'] + t)));
    assert (['%'] + s)[1..] == s;
    PrecisionStarDirective(fs, w, t, args, pos);
    DirectiveThen(['%'] + s, args, pos, ['%', '*'], t, args[1..], o);
  }

  /** A lone percent sign at the end is printed, and nothing behind the NUL is read. */
  lemma PercentAtEnd(args: seq<Arg>, pos: nat)
    ensures Render("%", args, pos) == Some(Output("%", []))
  {
    assert "%"[1..] == "";
    assert "%" + "" == "%";
    assert Directive("", args, pos) == Some((Output("%", []), "", args));
    DirectiveThen("%", args, pos, "%", "", args, Output("", []));
  }
}
