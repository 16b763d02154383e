/** What a format means to whoever writes it: text and conversions spelled out, each with its flags,
    width, precision and qualifier. toyos/Library/libc/vsprintf.cpp:59-396 understands every such
    format. */
module Meaning {
  import opened Options
  import opened Numbers
  import opened Formatter

  /** Text without a percent sign, or a conversion. */
  datatype Piece = Text(s: string) | Conv(fs: string, w: Option<nat>, p: Option<nat>, q: Option<char>, c: char)

  predicate PieceOk(x: Piece) {
    match x
    case Text(s) => '%' !in s
    case Conv(fs, w, p, q, c) => AllFlags(fs) && FieldsOk(w, p, q) && Plain([c]) && !IsQualifier(c) && c != '\0'
  }

  /** A conversion behind its percent sign. */
  function Spelled(x: Piece, t: string): string
    requires x.Conv?
  {
    x.fs + (WidthText(x.w) + (PrecisionText(x.p) + (QualifierText(x.q) + ([x.c] + t))))
  }

  /** The pieces written one behind the other. */
  function Spell(xs: seq<Piece>): string {
    if xs == [] then ""
    else
      match xs[0]
      case Text(s) => s + Spell(xs[1..])
      case Conv(_, _, _, _, _) => ['%'] + Spelled(xs[0], Spell(xs[1..]))
  }

  // ----- What a conversion writes -----

  function Radix(c: char): (r: nat)
    ensures r == 8 || r == 10 || r == 16
  {
    match c
    case 'o' => 8
    case 'x' => 16
    case 'X' => 16
    case 'p' => 16
    case _ => 10
  }

  predicate IsNumber(c: char) {
    c == 'd' || c == 'i' || c == 'u' || c == 'o' || c == 'x' || c == 'X' || c == 'p'
  }

  /** The number an argument stands for; None where the source is undefined. */
  function NumberOf(c: char, x: Arg): Option<int> {
    match x
    case PtrArg(n) => if c == 'p' && n <= INT_MAX then Some(n) else None
    case IntArg(v) =>
      if c != 'p' && v <= INT_MAX && (if c == 'd' || c == 'i' then INT_MIN <= v else 0 <= v) then Some(v) else None
    case _ => None
  }

  /** A negative number has its sign, any other the one `+` or a blank asks for, signed or not. */
  function Sign(fs: string, c: char, v: int): string {
    if (c == 'd' || c == 'i') && v < 0 then "-" else if '+' in fs then "+" else if ' ' in fs then " " else ""
  }

  function Prefix(fs: string, c: char): string {
    if '#' !in fs then "" else if c == 'o' then "0" else if c == 'x' then "0x"
    else if c == 'X' || c == 'p' then "0X" else ""
  }

  /** The digits of the number; those of zero for a negative one. */
  function Figures(c: char, v: int): string {
    Digits(if v < 0 then 0 else v, Radix(c), c == 'x')
  }

  /** Whether zeros fill the field: never with `-`, always for a pointer without a width. */
  predicate ZeroFilled(fs: string, w: Option<nat>, c: char) {
    '-' !in fs && ('0' in fs || (c == 'p' && w.None?))
  }

  /** A pointer without a width is eight wide. */
  function WidthOf(w: Option<nat>, c: char): int {
    if c == 'p' && w.None? then 8 else Field(w)
  }

  /** What is left of the field. */
  function Room(fs: string, w: Option<nat>, p: Option<nat>, c: char, v: int): int {
    WidthOf(w, c) - |Sign(fs, c, v)| - |Prefix(fs, c)| - Max(Field(p), |Figures(c, v)|)
  }

  function NumberText(fs: string, w: Option<nat>, p: Option<nat>, c: char, v: int): string {
    var room, zeros := Room(fs, w, p, c, v), ZeroFilled(fs, w, c);
    Rep(' ', if zeros || '-' in fs then 0 else room) + Sign(fs, c, v) + Prefix(fs, c) +
    Rep('0', if zeros then room else 0) + Rep('0', Field(p) - |Figures(c, v)|) + Figures(c, v) +
    Rep(' ', if '-' in fs then room else 0)
  }

  /** Text in its field, at the left with `-` and at the right without. */
  function InField(fs: string, w: Option<nat>, text: string): string {
    if '-' in fs then text + Rep(' ', Field(w) - |text|) else Rep(' ', Field(w) - |text|) + text
  }

  /** What a piece writes and stores behind `pos` characters, and the arguments left; None where the
      source is undefined. */
  function Says(x: Piece, args: seq<Arg>, pos: nat): Option<(Output, seq<Arg>)> {
    if x.Text? then Some((Output(x.s, []), args))
    else if x.c == '%' then Some((Output("%", []), args))
    else if !IsNumber(x.c) && x.c != 'c' && x.c != 's' && x.c != 'n' then Some((Output(['%', x.c], []), args))
    else if args == [] then None
    else if IsNumber(x.c) then
      match NumberOf(x.c, args[0])
      case None => None
      case Some(v) => Some((Output(NumberText(x.fs, x.w, x.p, x.c, v), []), args[1..]))
    else
      match args[0]
      case IntArg(v) =>
        if x.c == 'c' then Some((Output(InField(x.fs, x.w, [(v % 256) as char]), []), args[1..])) else None
      case StrArg(s) =>
        if x.c == 's' && '\0' !in s then
          Some((Output(InField(x.fs, x.w, if x.p.Some? && x.p.value < |s| then s[..x.p.value] else s), []), args[1..]))
        else None
      case CellArg(cell) => if x.c == 'n' then Some((Output("", [(cell, pos)]), args[1..])) else None
      case PtrArg(_) => None
  }

  /** The same for a whole format. */
  function SaysAll(xs: seq<Piece>, args: seq<Arg>, pos: nat): Option<(Output, seq<Arg>)> {
    if xs == [] then Some((Output("", []), args))
    else
      match Says(xs[0], args, pos)
      case None => None
      case Some((o, args')) =>
        match SaysAll(xs[1..], args', pos + |o.out|)
        case None => None
        case Some((o', left)) => Some((Output(o.out + o'.out, o.stores + o'.stores), left))
  }

  // ----- The code understands it -----

  /** The marks of `f` and those the flags `fs` ask for. */
  function Marked(fs: string, f: Flags): Flags {
    Flags(f.zeropad || '0' in fs, f.sign, f.plus || '+' in fs, f.space || ' ' in fs, f.left || '-' in fs,
          f.special || '#' in fs, f.small)
  }

  /** Each flag sets its own mark and no other, in whatever order they come. */
  lemma {:induction false} FlagsMean(fs: string, f: Flags)
    requires AllFlags(fs)
    ensures FlagsOf(fs, f) == Marked(fs, f)
  {
    if fs != "" {
      FlagsMean(fs[1..], WithFlag(f, fs[0]));
      FlagFirst(fs, f);
    }
  }

  lemma FlagFirst(fs: string, f: Flags)
    requires fs != "" && IsFlag(fs[0])
    ensures Marked(fs[1..], WithFlag(f, fs[0])) == Marked(fs, f)
  {
    HeadOrTail(fs, '0');
    HeadOrTail(fs, '+');
    HeadOrTail(fs, ' ');
    HeadOrTail(fs, '-');
    HeadOrTail(fs, '#');
  }

  lemma HeadOrTail(s: string, c: char)
    requires s != ""
    ensures c in s <==> s[0] == c || c in s[1..]
  {
  }

  /** The flags as number gets them. */
  function Marks(fs: string, w: Option<nat>, c: char): Flags {
    Flags('0' in fs || (c == 'p' && w.None?), c == 'd' || c == 'i', '+' in fs, ' ' in fs, '-' in fs, '#' in fs,
          c == 'x')
  }

  lemma MarksMeant(fs: string, w: Option<nat>, c: char)
    requires AllFlags(fs) && IsNumber(c) && (w.Some? ==> w.value > 0)
    ensures NumberFlags(c, Field(w), FlagsOf(fs, NO_FLAGS)) == Marks(fs, w, c) && BaseOf(c) == Radix(c)
  {
    FlagsMean(fs, NO_FLAGS);
  }

  lemma PartsMeant(fs: string, w: Option<nat>, c: char, v: int, g: Flags)
    requires IsNumber(c) && (v >= 0 || c == 'd' || c == 'i') && g == Marks(fs, w, c)
    ensures SignPart(v, g) == Sign(fs, c, v) && PrefixPart(Radix(c), g) == Prefix(fs, c)
    ensures DigitPart(v, Radix(c), g) == Figures(c, v)
  {
  }

  lemma NumberMeant(fs: string, w: Option<nat>, p: Option<nat>, c: char, v: int)
    requires AllFlags(fs) && IsNumber(c) && (v >= 0 || c == 'd' || c == 'i') && (w.Some? ==> w.value > 0)
    ensures BaseOf(c) == Radix(c)
    ensures ConvertedNumber(c, v, FlagsOf(fs, NO_FLAGS), Field(w), Field(p)) == NumberText(fs, w, p, c, v)
  {
    MarksMeant(fs, w, c);
    NumberWritten(fs, w, p, c, v, Marks(fs, w, c));
  }

  lemma NumberWritten(fs: string, w: Option<nat>, p: Option<nat>, c: char, v: int, g: Flags)
    requires IsNumber(c) && (v >= 0 || c == 'd' || c == 'i') && g == Marks(fs, w, c)
    ensures Number(v, Radix(c), WidthOf(w, c), Field(p), g) == NumberText(fs, w, p, c, v)
  {
    PartsMeant(fs, w, c, v, g);
  }

  lemma NumberArgMeant(c: char, args: seq<Arg>)
    requires IsNumber(c) && args != []
    ensures NumberArg(c, args) == NumberOf(c, args[0])
  {
  }

  lemma FieldMeant(fs: string, w: Option<nat>, p: Option<nat>, v: int, s: string)
    requires AllFlags(fs)
    ensures CharField(v, Field(w), FlagsOf(fs, NO_FLAGS).left) == InField(fs, w, [(v % 256) as char])
    ensures StringField(s, Field(w), Field(p), FlagsOf(fs, NO_FLAGS).left) ==
            InField(fs, w, if p.Some? && p.value < |s| then s[..p.value] else s)
  {
    FlagsMean(fs, NO_FLAGS);
  }

  /** Every conversion comes to what it says. */
  lemma ConvMeant(x: Piece, t: string, args: seq<Arg>, pos: nat)
    requires x.Conv? && PieceOk(x) && Says(x, args, pos).Some?
    ensures Convert(FlagsOf(x.fs, NO_FLAGS), Field(x.w), Field(x.p), [x.c] + t, args, pos) == Says(x, args, pos)
  {
    if IsNumber(x.c) {
      NumberArgMeant(x.c, args);
      NumberMeant(x.fs, x.w, x.p, x.c, NumberOf(x.c, args[0]).value);
    } else if x.c == 'c' || x.c == 's' {
      FieldMeant(x.fs, x.w, x.p, if args[0].IntArg? then args[0].v else 0, if args[0].StrArg? then args[0].s else "");
    } else {
      assert "%" + "" == "%" && "" + ['%'] == "%" && "%" + [x.c] == ['%', x.c];
    }
  }

  lemma ConvRead(x: Piece, t: string, args: seq<Arg>, pos: nat)
    requires x.Conv? && PieceOk(x) && Says(x, args, pos).Some?
    ensures var (o, args') := Says(x, args, pos).value; Directive(Spelled(x, t), args, pos) == Some((o, t, args'))
  {
    ConvMeant(x, t, args, pos);
    var (o, args') := Says(x, args, pos).value;
    SpelledDirective(Spelled(x, t), x.fs, x.w, x.p, x.q, x.c, t, args, pos, o, args');
  }

  lemma ConvRendered(x: Piece, t: string, args: seq<Arg>, pos: nat, o: Output, args': seq<Arg>, o': Output)
    requires x.Conv? && PieceOk(x) && Says(x, args, pos) == Some((o, args'))
    requires Render(t, args', pos + |o.out|) == Some(o')
    ensures Render(['%'] + Spelled(x, t), args, pos) == Some(Output(o.out + o'.out, o.stores + o'.stores))
  {
    ConvRead(x, t, args, pos);
    assert (['%'] + Spelled(x, t))[1..] == Spelled(x, t);
    DirectiveFirst(['%'] + Spelled(x, t), args, pos, o, t, args', o');
  }

  /** Every format that is spelled out piece by piece is rendered as what it says. */
  lemma {:induction false} Understood(xs: seq<Piece>, args: seq<Arg>, pos: nat, o: Output, left: seq<Arg>)
    requires (forall i :: 0 <= i < |xs| ==> PieceOk(xs[i])) && SaysAll(xs, args, pos) == Some((o, left))
    ensures Render(Spell(xs), args, pos) == Some(o)
    decreases |xs|
  {
    if xs != [] {
      var t := Spell(xs[1..]);
      var (first, args') := Says(xs[0], args, pos).value;
      var o' := SaysAll(xs[1..], args', pos + |first.out|).value.0;
      Understood(xs[1..], args', pos + |first.out|, o', left);
      if xs[0].Text? {
        TextThen(xs[0].s, t, args, pos, o');
        EmptyAround(o'.stores);
      } else {
        ConvRendered(xs[0], t, args, pos, first, args', o');
      }
    }
  }

  // ----- Formats that say something else -----

  /** A point without digits behind it is a precision of zero. */
  lemma BarePoint(x: Piece, t: string, args: seq<Arg>, pos: nat)
    requires x.Conv? && PieceOk(x) && x.p == Some(0) && Says(x, args, pos).Some?
    ensures var (o, args') := Says(x, args, pos).value;
            Directive(x.fs + (WidthText(x.w) + (['.'] + (QualifierText(x.q) + ([x.c] + t)))), args, pos) ==
            Some((o, t, args'))
  {
    var (o, args') := Says(x, args, pos).value;
    var f, s3 := FlagsOf(x.fs, NO_FLAGS), QualifierText(x.q) + ([x.c] + t);
    var s2 := ['.'] + s3;
    var s1 := WidthText(x.w) + s2;
    QualifierRead(x.q, x.c, t);
    PointRead(s3, args);
    WidthRead(x.w, s2, args, f);
    FlagsRead(x.fs, s1, NO_FLAGS);
    ConvMeant(x, t, args, pos);
    DirectiveParts(x.fs + s1, f, s1, Field(x.w), s2, 0, s3, x.c, t, args, args, args, pos, o, args');
  }

  lemma PointRead(rest: string, args: seq<Arg>)
    requires Plain(rest)
    ensures ReadPrecision(['.'] + rest, args) == Some((0, rest, args))
  {
    assert (['.'] + rest)[1..] == rest;
  }

  /** Only one qualifier is skipped: a second one ends the directive and is printed behind a percent
      sign, and flags, width and precision are lost. */
  lemma SecondQualifier(
    fs: string, w: Option<nat>, p: Option<nat>, q: char, q': char, t: string, args: seq<Arg>, pos: nat)
    requires AllFlags(fs) && FieldsOk(w, p, Some(q)) && IsQualifier(q')
    ensures Directive(fs + (WidthText(w) + (PrecisionText(p) + ([q] + ([q'] + t)))), args, pos) ==
            Some((Output(['%', q'], []), t, args))
  {
    var f, s3 := FlagsOf(fs, NO_FLAGS), [q] + ([q'] + t);
    var s2 := PrecisionText(p) + s3;
    var s1 := WidthText(w) + s2;
    assert s3[1..] == [q'] + t;
    PrecisionRead(p, s3, args);
    WidthRead(w, s2, args, f);
    FlagsRead(fs, s1, NO_FLAGS);
    QualifierPrinted(f, Field(w), Field(p), q', t, args, pos);
    DirectiveParts(fs + s1, f, s1, Field(w), s2, Field(p), s3, q', t, args, args, args, pos, Output(['%', q'], []),
                   args);
  }

  lemma QualifierPrinted(f: Flags, w: int, p: int, q: char, t: string, args: seq<Arg>, pos: nat)
    requires IsQualifier(q)
    ensures Convert(f, w, p, [q] + t, args, pos) == Some((Output(['%', q], []), args))
  {
    assert "%" + [q] == ['%', q];
  }

  // ----- What it says -----

  /** A digit of base `base`, in lower or upper case above nine. */
  predicate Numeral(ch: char, base: nat, small: bool) {
    || ('0' <= ch <= '9' && ch as int - '0' as int < base)
    || (base == 16 && if small then 'a' <= ch <= 'f' else 'A' <= ch <= 'F')
  }

  lemma {:induction false} SignificantNumerals(n: nat, base: nat, small: bool)
    requires base == 8 || base == 10 || base == 16
    ensures forall i :: 0 <= i < |Significant(n, base, small)| ==> Numeral(Significant(n, base, small)[i], base, small)
  {
    if n > 0 {
      DivFacts(n, base);
      SignificantNumerals(n / base, base, small);
    }
  }

  lemma {:induction false} ZerosAre(n: int, i: nat)
    requires i < |Rep('0', n)|
    ensures Rep('0', n)[i] == '0'
  {
    if i < |Rep('0', n)| - 1 { ZerosAre(n - 1, i); }
  }

  /** The digits of a number with the zeros in front of them. */
  function Body(fs: string, w: Option<nat>, p: Option<nat>, c: char, v: int): string {
    Rep('0', if ZeroFilled(fs, w, c) then Room(fs, w, p, c, v) else 0) +
    (Rep('0', Field(p) - |Figures(c, v)|) + Figures(c, v))
  }

  lemma BodyNumerals(fs: string, w: Option<nat>, p: Option<nat>, c: char, v: int, i: nat)
    requires i < |Body(fs, w, p, c, v)|
    ensures Numeral(Body(fs, w, p, c, v)[i], Radix(c), c == 'x')
  {
    var a := Rep('0', if ZeroFilled(fs, w, c) then Room(fs, w, p, c, v) else 0);
    var b := Rep('0', Field(p) - |Figures(c, v)|);
    SignificantNumerals(if v < 0 then 0 else v, Radix(c), c == 'x');
    if i < |a| {
      ZerosAre(if ZeroFilled(fs, w, c) then Room(fs, w, p, c, v) else 0, i);
    } else if i < |a| + |b| {
      ZerosAre(Field(p) - |Figures(c, v)|, i - |a|);
    }
  }

  lemma BodyValue(fs: string, w: Option<nat>, p: Option<nat>, c: char, v: int)
    ensures Value(Body(fs, w, p, c, v), Radix(c)) == if v < 0 then 0 else v
  {
    LeadingZeros(if ZeroFilled(fs, w, c) then Room(fs, w, p, c, v) else 0,
                 Rep('0', Field(p) - |Figures(c, v)|) + Figures(c, v), Radix(c));
    LeadingZeros(Field(p) - |Figures(c, v)|, Figures(c, v), Radix(c));
    DigitsValue(if v < 0 then 0 else v, Radix(c), c == 'x');
  }

  lemma NumberLaidOut(fs: string, w: Option<nat>, p: Option<nat>, c: char, v: int, blanks: string)
    requires blanks == Rep(' ', if ZeroFilled(fs, w, c) then 0 else Room(fs, w, p, c, v))
    ensures NumberText(fs, w, p, c, v) ==
            if '-' in fs then Sign(fs, c, v) + Prefix(fs, c) + Body(fs, w, p, c, v) + blanks
            else blanks + Sign(fs, c, v) + Prefix(fs, c) + Body(fs, w, p, c, v)
  {
    var zeros, more := Rep('0', if ZeroFilled(fs, w, c) then Room(fs, w, p, c, v) else 0),
                       Rep('0', Field(p) - |Figures(c, v)|);
    if '-' in fs {
      Ungrouped("", Sign(fs, c, v), Prefix(fs, c), zeros, more, Figures(c, v), blanks);
    } else {
      Ungrouped(blanks, Sign(fs, c, v), Prefix(fs, c), zeros, more, Figures(c, v), "");
    }
  }

  lemma Ungrouped(a: string, b: string, c: string, d: string, e: string, f: string, g: string)
    ensures a + b + c + d + e + f + g == a + b + c + (d + (e + f)) + g
    ensures "" + b + c + (d + (e + f)) + g == b + c + (d + (e + f)) + g
    ensures a + b + c + (d + (e + f)) + "" == a + b + c + (d + (e + f))
  {
  }

  predicate AllBlank(s: string) {
    forall i :: 0 <= i < |s| ==> s[i] == ' '
  }

  lemma RepBlank(n: int)
    ensures AllBlank(Rep(' ', n))
  {
    forall i | 0 <= i < |Rep(' ', n)|
      ensures Rep(' ', n)[i] == ' '
    {
      RepAt(' ', n, i);
    }
  }

  /** The text of a number is a sign, a prefix and a body of digits that evaluate back to the number in
      the base of the conversion, in a field that is as wide as asked, with blanks on the side `-`
      selects or zeros in front of the digits. */
  lemma NumberTextReads(fs: string, w: Option<nat>, p: Option<nat>, c: char, v: int)
    returns (blanks: string, body: string)
    ensures var head := Sign(fs, c, v) + Prefix(fs, c);
            NumberText(fs, w, p, c, v) == if '-' in fs then head + body + blanks else blanks + (head + body)
    ensures |blanks| + |Sign(fs, c, v)| + |Prefix(fs, c)| + |body| ==
            Max(WidthOf(w, c), |Sign(fs, c, v)| + |Prefix(fs, c)| + Max(Field(p), |Figures(c, v)|))
    ensures Value(body, Radix(c)) == if v < 0 then 0 else v
    ensures forall i :: 0 <= i < |body| ==> Numeral(body[i], Radix(c), c == 'x')
    ensures AllBlank(blanks)
    ensures if ZeroFilled(fs, w, c) then blanks == "" else |body| == Max(Field(p), |Figures(c, v)|)
  {
    var n := if ZeroFilled(fs, w, c) then 0 else Room(fs, w, p, c, v);
    blanks, body := Rep(' ', n), Body(fs, w, p, c, v);
    NumberLaidOut(fs, w, p, c, v, blanks);
    Gathered(blanks, Sign(fs, c, v), Prefix(fs, c), body);
    BodyValue(fs, w, p, c, v);
    RepBlank(n);
    forall i | 0 <= i < |body|
      ensures Numeral(body[i], Radix(c), c == 'x')
    {
      BodyNumerals(fs, w, p, c, v, i);
    }
  }

  lemma Gathered(a: string, b: string, c: string, d: string)
    ensures a + b + c + d == a + ((b + c) + d)
  {
  }

  /** So it is for the directive of every number conversion that is spelled out. */
  lemma NumberReadsBack(x: Piece, t: string, args: seq<Arg>, pos: nat, v: int)
    returns (out: string, blanks: string, body: string)
    requires x.Conv? && PieceOk(x) && IsNumber(x.c) && args != [] && NumberOf(x.c, args[0]) == Some(v)
    ensures Directive(Spelled(x, t), args, pos) == Some((Output(out, []), t, args[1..]))
    ensures var head := Sign(x.fs, x.c, v) + Prefix(x.fs, x.c);
            && out == (if '-' in x.fs then head + body + blanks else blanks + (head + body))
            && |out| == Max(WidthOf(x.w, x.c), |head| + Max(Field(x.p), |Figures(x.c, v)|))
    ensures Value(body, Radix(x.c)) == if v < 0 then 0 else v
    ensures forall i :: 0 <= i < |body| ==> Numeral(body[i], Radix(x.c), x.c == 'x')
    ensures AllBlank(blanks)
    ensures if ZeroFilled(x.fs, x.w, x.c) then blanks == "" else |body| == Max(Field(x.p), |Figures(x.c, v)|)
  {
    ConvRead(x, t, args, pos);
    out := NumberText(x.fs, x.w, x.p, x.c, v);
    blanks, body := NumberTextReads(x.fs, x.w, x.p, x.c, v);
  }

  /** The text of a character or string conversion; a precision cuts a string. */
  function TextOf(x: Piece, a: Arg): Option<string>
    requires x.Conv?
  {
    match a
    case IntArg(v) => if x.c == 'c' then Some([(v % 256) as char]) else None
    case StrArg(s) =>
      if x.c == 's' && '\0' !in s then Some(if x.p.Some? && x.p.value < |s| then s[..x.p.value] else s) else None
    case _ => None
  }

  /** A character or a string stands in a field as wide as asked, at the left with `-` and at the right
      without. */
  lemma TextReadsBack(x: Piece, t: string, args: seq<Arg>, pos: nat, text: string)
    returns (out: string, blanks: string)
    requires x.Conv? && PieceOk(x) && args != [] && TextOf(x, args[0]) == Some(text)
    ensures Directive(Spelled(x, t), args, pos) == Some((Output(out, []), t, args[1..]))
    ensures out == (if '-' in x.fs then text + blanks else blanks + text) && |out| == Max(Field(x.w), |text|)
    ensures AllBlank(blanks)
  {
    ConvRead(x, t, args, pos);
    out, blanks := InField(x.fs, x.w, text), Rep(' ', Field(x.w) - |text|);
    RepBlank(Field(x.w) - |text|);
  }

  /** Formats are understood piece by piece, */
  lemma {:induction false} SaysTwice(
    xs: seq<Piece>, ys: seq<Piece>, args: seq<Arg>, pos: nat, o: Output, left: seq<Arg>, o': Output, left': seq<Arg>)
    requires SaysAll(xs, args, pos) == Some((o, left)) && SaysAll(ys, left, pos + |o.out|) == Some((o', left'))
    ensures SaysAll(xs + ys, args, pos) == Some((Output(o.out + o'.out, o.stores + o'.stores), left'))
    decreases |xs|
  {
    if xs == [] {
      assert xs + ys == ys;
      EmptyAround(o'.out);
      EmptyAround(o'.stores);
    } else {
      var first, args', o1 := SaysHead(xs, args, pos, o, left);
      SaysTwice(xs[1..], ys, args', pos + |first.out|, o1, left, o', left');
      SaysMore(xs, ys, args, pos, first, args', o1, o', left');
    }
  }

  /** What the first piece says, and the others. */
  lemma SaysHead(xs: seq<Piece>, args: seq<Arg>, pos: nat, o: Output, left: seq<Arg>)
    returns (first: Output, args': seq<Arg>, o1: Output)
    requires xs != [] && SaysAll(xs, args, pos) == Some((o, left))
    ensures Says(xs[0], args, pos) == Some((first, args'))
    ensures SaysAll(xs[1..], args', pos + |first.out|) == Some((o1, left))
    ensures o == Output(first.out + o1.out, first.stores + o1.stores)
  {
    first, args' := Says(xs[0], args, pos).value.0, Says(xs[0], args, pos).value.1;
    o1 := SaysAll(xs[1..], args', pos + |first.out|).value.0;
  }

  lemma SaysMore(
    xs: seq<Piece>, ys: seq<Piece>, args: seq<Arg>, pos: nat, first: Output, args': seq<Arg>, o1: Output, o': Output,
    left': seq<Arg>)
    requires xs != [] && Says(xs[0], args, pos) == Some((first, args'))
    requires SaysAll(xs[1..] + ys, args', pos + |first.out|) ==
             Some((Output(o1.out + o'.out, o1.stores + o'.stores), left'))
    ensures SaysAll(xs + ys, args, pos) ==
            Some((Output((first.out + o1.out) + o'.out, (first.stores + o1.stores) + o'.stores), left'))
  {
    assert (xs + ys)[1..] == xs[1..] + ys && (xs + ys)[0] == xs[0];
    Reassociated(first.out, o1.out, o'.out);
    Reassociated(first.stores, o1.stores, o'.stores);
  }

  lemma CountFirst(
    n: Piece, ys: seq<Piece>, args: seq<Arg>, cell: nat, pos: nat, o: Output, args': seq<Arg>, left: seq<Arg>)
    requires n.Conv? && n.c == 'n' && args == [CellArg(cell)] + args' && SaysAll(ys, args', pos) == Some((o, left))
    ensures SaysAll([n] + ys, args, pos) == Some((Output(o.out, [(cell, pos)] + o.stores), left))
  {
    assert args[1..] == args' && ([n] + ys)[1..] == ys && "" + o.out == o.out;
  }

  /** and %n stores the number of characters that were written before it, by whatever pieces. */
  lemma CountStored(xs: seq<Piece>, n: Piece, ys: seq<Piece>, args: seq<Arg>, cell: nat, o: Output, left: seq<Arg>)
    requires (forall i :: 0 <= i < |xs| ==> PieceOk(xs[i])) && (forall i :: 0 <= i < |ys| ==> PieceOk(ys[i]))
    requires n.Conv? && PieceOk(n) && n.c == 'n'
    requires SaysAll(xs, args, 0) == Some((o, [CellArg(cell)] + left)) && SaysAll(ys, left, |o.out|).Some?
    ensures var o' := SaysAll(ys, left, |o.out|).value.0;
            Render(Spell(xs + ([n] + ys)), args, 0) ==
            Some(Output(o.out + o'.out, o.stores + ([(cell, |o.out|)] + o'.stores)))
  {
    var args', zs := [CellArg(cell)] + left, [n] + ys;
    var (o', left') := SaysAll(ys, left, |o.out|).value;
    CountFirst(n, ys, args', cell, |o.out|, o', left, left');
    SaysTwice(xs, zs, args, 0, o, args', Output(o'.out, [(cell, |o.out|)] + o'.stores), left');
    Understood(xs + zs, args, 0, Output(o.out + o'.out, o.stores + ([(cell, |o.out|)] + o'.stores)), left');
  }
}
