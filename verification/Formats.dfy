/**
 What the formats of acl_vsprintf.c mean. A directive is written down from its parts,
 a format from directives and texts; the formatter reads all of them back.
 */
module Formats {

  import opened Collections
  import opened Printf

  // A width or a precision as it is written.
  datatype Field = Absent | Given(n: nat) | Star

  // The precision follows a period, which may also stand alone.
  datatype Directive = Directive(
    marks: string, width: Field, precision: Option<Field>, qualifier: char, conversion: char)

  predicate IsMark(c: char) { FlagOf(c, NO_FLAGS).Some? }

  predicate IsQualifier(c: char) { c == 'h' || c == 'l' || c == 'L' || c == 'Z' }

  // A width of 0 would be read as a flag, and the conversion is none of the
  // characters that may stand before it.
  predicate WellFormed(d: Directive) {
    && (forall k :: 0 <= k < |d.marks| ==> IsMark(d.marks[k]))
    && d.width != Given(0)
    && (d.qualifier == '\0' || IsQualifier(d.qualifier))
    && !IsMark(d.conversion) && !IsDigit(d.conversion) && !IsQualifier(d.conversion)
    && d.conversion != '*' && d.conversion != '.'
  }

  function FieldText(f: Field): string {
    match f
    case Absent => ""
    case Given(n) => Numeral(n, 10, false)
    case Star => "*"
  }

  function PrecisionText(f: Option<Field>): string { if f.None? then "" else "." + FieldText(f.value) }

  function QualifierText(c: char): string { if c == '\0' then "" else [c] }

  function Text(d: Directive): string {
    "%" + d.marks + FieldText(d.width) + PrecisionText(d.precision) + QualifierText(d.qualifier) + [d.conversion]
  }

  function FlagsOf(marks: string, flags: Flags): Flags {
    if marks == "" then flags
    else FlagsOf(marks[1..], if IsMark(marks[0]) then FlagOf(marks[0], flags).value else flags)
  }

  function IntArg(args: seq<Arg>): int { Signed(Next(args).bits, 0x1_0000_0000) }

  function ArgsAfter(f: Field, args: seq<Arg>): seq<Arg> { if f.Star? then Rest(args) else args }

  // A negative width argument stands for its absolute value and the flag '-'.
  function WidthOf(f: Field, args: seq<Arg>): int {
    match f
    case Absent => -1
    case Given(n) => n
    case Star => if IntArg(args) < 0 then -IntArg(args) else IntArg(args)
  }

  function PrecisionOf(f: Option<Field>, args: seq<Arg>): int {
    match f
    case None => -1
    case Some(Absent) => 0
    case Some(Given(n)) => n
    case Some(Star) => Max(IntArg(args), 0)
  }

  function PrecisionArgs(f: Option<Field>, args: seq<Arg>): seq<Arg> {
    if f.None? then args else ArgsAfter(f.value, args)
  }

  function Meaning(d: Directive, i: nat, args: seq<Arg>): Scan {
    var flags := FlagsOf(d.marks, NO_FLAGS);
    var left := flags.left || (d.width.Star? && IntArg(args) < 0);
    var rest := ArgsAfter(d.width, args);
    Scan(i, flags.(left := left), WidthOf(d.width, args), PrecisionOf(d.precision, rest), d.qualifier,
         PrecisionArgs(d.precision, rest))
  }

  lemma {:induction false} MarksScanned(fmt: string, i: nat, marks: string, flags: Flags)
    requires i + |marks| <= |fmt| && fmt[i..i + |marks|] == marks
    requires forall k :: 0 <= k < |marks| ==> IsMark(marks[k])
    requires !IsMark(CharAt(fmt, i + |marks|))
    ensures ScanFlags(fmt, i, flags) == (FlagsOf(marks, flags), i + |marks|)
    decreases |marks|
  {
    if marks != "" {
      assert fmt[i] == fmt[i..i + |marks|][0];
      assert fmt[i + 1..i + |marks|] == marks[1..];
      MarksScanned(fmt, i + 1, marks[1..], FlagOf(marks[0], flags).value);
    }
  }

  lemma NumeralStarts(n: nat)
    ensures var d := Numeral(n, 10, false); |d| > 0 && IsDigit(d[0]) && (n > 0 ==> !IsMark(d[0]))
  {
    if n > 0 {
      DigitsLaws(n, 10, false);
      DigitsDecimal(n);
    }
  }

  lemma {:induction false} DigitsDecimal(n: nat)
    ensures forall k :: 0 <= k < |Digits(n, 10, false)| ==> IsDigit(Digits(n, 10, false)[k])
    decreases n
  {
    if n > 0 {
      DigitsDecimal(n / 10);
    }
  }

  lemma SliceStarts(fmt: string, i: nat, j: nat, s: string)
    requires i <= j <= |fmt| && fmt[i..j] == s && s != ""
    ensures fmt[i] == s[0]
  {
  }

  // `after` is the character behind the field.
  lemma WidthScanned(fmt: string, sc: Scan, f: Field)
    requires var s := FieldText(f); sc.i + |s| <= |fmt| && fmt[sc.i..sc.i + |s|] == s
    requires var after := CharAt(fmt, sc.i + |FieldText(f)|); !IsDigit(after) && after != '*'
    ensures ScanWidth(fmt, sc) ==
            sc.(i := sc.i + |FieldText(f)|, width := WidthOf(f, sc.args), args := ArgsAfter(f, sc.args),
                flags := if f.Star? && IntArg(sc.args) < 0 then sc.flags.(left := true) else sc.flags)
  {
    if f.Given? {
      NumeralStarts(f.n);
      NumeralAt(f.n, fmt, sc.i);
    }
    if f != Absent {
      SliceStarts(fmt, sc.i, sc.i + |FieldText(f)|, FieldText(f));
    }
  }

  lemma PrecisionScanned(fmt: string, sc: Scan, f: Option<Field>)
    requires var s := PrecisionText(f); sc.i + |s| <= |fmt| && fmt[sc.i..sc.i + |s|] == s
    requires var after := CharAt(fmt, sc.i + |PrecisionText(f)|); !IsDigit(after) && after != '*' && after != '.'
    ensures ScanPrecision(fmt, sc) ==
            sc.(i := sc.i + |PrecisionText(f)|, precision := PrecisionOf(f, sc.args), args := PrecisionArgs(f, sc.args))
  {
    if f.Some? {
      var i, j := sc.i + 1, sc.i + |PrecisionText(f)|;
      SliceStarts(fmt, sc.i, j, PrecisionText(f));
      assert fmt[i..j] == fmt[sc.i..j][1..];
      PeriodScanned(fmt, sc, f.value);
    }
  }

  lemma PeriodScanned(fmt: string, sc: Scan, f: Field)
    requires var i, j := sc.i + 1, sc.i + 1 + |FieldText(f)|;
             && j <= |fmt| && fmt[sc.i] == '.' && fmt[i..j] == FieldText(f)
             && !IsDigit(CharAt(fmt, j)) && CharAt(fmt, j) != '*'
    ensures ScanPrecision(fmt, sc) ==
            sc.(i := sc.i + 1 + |FieldText(f)|, precision := PrecisionOf(Some(f), sc.args),
                args := ArgsAfter(f, sc.args))
  {
    if f.Given? {
      NumeralStarts(f.n);
      NumeralAt(f.n, fmt, sc.i + 1);
    }
    if f != Absent {
      SliceStarts(fmt, sc.i + 1, sc.i + 1 + |FieldText(f)|, FieldText(f));
    }
  }

  // Where the parts of a directive begin.
  function WidthAt(d: Directive): nat { 1 + |d.marks| }

  function PrecisionAt(d: Directive): nat { WidthAt(d) + |FieldText(d.width)| }

  function QualifierAt(d: Directive): nat { PrecisionAt(d) + |PrecisionText(d.precision)| }

  function ConversionAt(d: Directive): nat { QualifierAt(d) + |QualifierText(d.qualifier)| }

  lemma PartsOfText(d: Directive)
    ensures |Text(d)| == ConversionAt(d) + 1 && Text(d)[0] == '%' && Text(d)[ConversionAt(d)] == d.conversion
    ensures Text(d)[1..WidthAt(d)] == d.marks
    ensures Text(d)[WidthAt(d)..PrecisionAt(d)] == FieldText(d.width)
    ensures Text(d)[PrecisionAt(d)..QualifierAt(d)] == PrecisionText(d.precision)
    ensures Text(d)[QualifierAt(d)..ConversionAt(d)] == QualifierText(d.qualifier)
  {
    Slices(d.marks, FieldText(d.width), PrecisionText(d.precision), QualifierText(d.qualifier), [d.conversion]);
  }

  lemma Slices(m: string, w: string, p: string, q: string, c: string)
    ensures var s, i := "%" + m + w + p + q + c, 1 + |m|;
            var j := i + |w|;
            var k := j + |p|;
            var l := k + |q|;
            && |s| == l + |c| && s[0] == '%' && s[1..i] == m && s[i..j] == w && s[j..k] == p && s[k..l] == q
            && s[l..] == c
  {
  }

  lemma PartsOf(d: Directive, fmt: string)
    requires Text(d) <= fmt
    ensures |Text(d)| == ConversionAt(d) + 1 <= |fmt| && fmt[0] == '%' && fmt[ConversionAt(d)] == d.conversion
    ensures fmt[1..WidthAt(d)] == d.marks
    ensures fmt[WidthAt(d)..PrecisionAt(d)] == FieldText(d.width)
    ensures fmt[PrecisionAt(d)..QualifierAt(d)] == PrecisionText(d.precision)
    ensures fmt[QualifierAt(d)..ConversionAt(d)] == QualifierText(d.qualifier)
  {
    PartsOfText(d);
    PrefixSlice(Text(d), fmt, 1, WidthAt(d));
    PrefixSlice(Text(d), fmt, WidthAt(d), PrecisionAt(d));
    PrefixSlice(Text(d), fmt, PrecisionAt(d), QualifierAt(d));
    PrefixSlice(Text(d), fmt, QualifierAt(d), ConversionAt(d));
  }

  lemma PrefixSlice(s: string, fmt: string, i: nat, j: nat)
    requires s <= fmt && i <= j <= |s|
    ensures fmt[i..j] == s[i..j]
  {
  }

  // The first character of each part, or of the next one if it is empty.
  lemma PartsStart(d: Directive, fmt: string)
    requires WellFormed(d) && Text(d) <= fmt
    ensures ConversionAt(d) < |fmt|
    ensures fmt[QualifierAt(d)] == if d.qualifier == '\0' then d.conversion else d.qualifier
    ensures fmt[PrecisionAt(d)] == if d.precision.None? then fmt[QualifierAt(d)] else '.'
    ensures fmt[WidthAt(d)] == match d.width
                               case Absent => fmt[PrecisionAt(d)]
                               case Given(n) => Numeral(n, 10, false)[0]
                               case Star => '*'
  {
    PartsOf(d, fmt);
    if d.qualifier != '\0' {
      SliceStarts(fmt, QualifierAt(d), ConversionAt(d), QualifierText(d.qualifier));
    }
    if d.precision.Some? {
      SliceStarts(fmt, PrecisionAt(d), QualifierAt(d), PrecisionText(d.precision));
    }
    if d.width != Absent {
      if d.width.Given? {
        NumeralStarts(d.width.n);
      }
      SliceStarts(fmt, WidthAt(d), PrecisionAt(d), FieldText(d.width));
    }
  }

  lemma QualifierScanned(d: Directive, fmt: string, sc: Scan)
    requires WellFormed(d) && sc.i == QualifierAt(d) < |fmt|
    requires fmt[sc.i] == if d.qualifier == '\0' then d.conversion else d.qualifier
    ensures ScanQualifier(fmt, sc) == sc.(i := ConversionAt(d), qualifier := d.qualifier)
  {
  }

  // What has been read once the width is, and once the precision is.
  function WithWidth(d: Directive, args: seq<Arg>): Scan {
    var flags := FlagsOf(d.marks, NO_FLAGS);
    Scan(PrecisionAt(d), flags.(left := flags.left || (d.width.Star? && IntArg(args) < 0)), WidthOf(d.width, args), -1,
         '\0', ArgsAfter(d.width, args))
  }

  function WithPrecision(d: Directive, args: seq<Arg>): Scan {
    var sc := WithWidth(d, args);
    sc.(i := QualifierAt(d), precision := PrecisionOf(d.precision, sc.args),
        args := PrecisionArgs(d.precision, sc.args))
  }

  lemma FlagsScanned(d: Directive, fmt: string)
    requires WellFormed(d) && Text(d) <= fmt
    ensures ScanFlags(fmt, 1, NO_FLAGS) == (FlagsOf(d.marks, NO_FLAGS), WidthAt(d))
  {
    PartsOf(d, fmt);
    PartsStart(d, fmt);
    if d.width.Given? {
      NumeralStarts(d.width.n);
    }
    MarksScanned(fmt, 1, d.marks, NO_FLAGS);
  }

  lemma HeadScanned(d: Directive, fmt: string, args: seq<Arg>)
    requires WellFormed(d) && Text(d) <= fmt
    ensures ScanWidth(fmt, Scan(WidthAt(d), FlagsOf(d.marks, NO_FLAGS), -1, -1, '\0', args)) == WithWidth(d, args)
  {
    PartsOf(d, fmt);
    PartsStart(d, fmt);
    WidthScanned(fmt, Scan(WidthAt(d), FlagsOf(d.marks, NO_FLAGS), -1, -1, '\0', args), d.width);
  }

  lemma TailScanned(d: Directive, fmt: string, args: seq<Arg>)
    requires WellFormed(d) && Text(d) <= fmt
    ensures ScanPrecision(fmt, WithWidth(d, args)) == WithPrecision(d, args)
    ensures ScanQualifier(fmt, WithPrecision(d, args)) == Meaning(d, ConversionAt(d), args)
  {
    PartsOf(d, fmt);
    PartsStart(d, fmt);
    PrecisionScanned(fmt, WithWidth(d, args), d.precision);
    QualifierScanned(d, fmt, WithPrecision(d, args));
  }

  // Whatever directive a format begins with, and whatever follows it: the formatter
  // reads back its flags, width, precision, qualifier and conversion.
  lemma DirectiveScanned(d: Directive, fmt: string, args: seq<Arg>)
    requires WellFormed(d) && Text(d) <= fmt
    ensures fmt[0] == '%' && ConversionAt(d) < |fmt| && fmt[ConversionAt(d)] == d.conversion
    ensures ScanAll(fmt, 0, args) == Meaning(d, ConversionAt(d), args)
  {
    PartsOf(d, fmt);
    FlagsScanned(d, fmt);
    HeadScanned(d, fmt, args);
    TailScanned(d, fmt, args);
  }

  // ------------------------------------------------------------- formats from parts

  // A format is read the same wherever it stands in a longer one. `Ahead` moves what
  // has been read i characters on.
  function Ahead(sc: Scan, i: nat): Scan { sc.(i := i + sc.i) }

  lemma CharShift(s: string, i: nat, k: nat)
    requires i <= |s|
    ensures CharAt(s[i..], k) == CharAt(s, i + k)
  {
  }

  lemma {:induction false} AtoiShift(s: string, i: nat, k: nat, value: int)
    requires i <= |s|
    ensures var r := SkipAtoi(s[i..], k, value); SkipAtoi(s, i + k, value) == (r.0, i + r.1)
    decreases |s| - i - k
  {
    CharShift(s, i, k);
    if IsDigit(CharAt(s, i + k)) {
      AtoiShift(s, i, k + 1, value * 10 + (s[i + k] as int - '0' as int));
    }
  }

  lemma {:induction false} FlagsShift(s: string, i: nat, k: nat, flags: Flags)
    requires i <= |s|
    ensures var r := ScanFlags(s[i..], k, flags); ScanFlags(s, i + k, flags) == (r.0, i + r.1)
    decreases |s| - i - k
  {
    CharShift(s, i, k);
    if FlagOf(CharAt(s, i + k), flags).Some? {
      FlagsShift(s, i, k + 1, FlagOf(CharAt(s, i + k), flags).value);
    }
  }

  lemma WidthShift(s: string, i: nat, sc: Scan)
    requires i <= |s|
    ensures ScanWidth(s, Ahead(sc, i)) == Ahead(ScanWidth(s[i..], sc), i)
  {
    CharShift(s, i, sc.i);
    AtoiShift(s, i, sc.i, 0);
  }

  lemma PrecisionShift(s: string, i: nat, sc: Scan)
    requires i <= |s|
    ensures ScanPrecision(s, Ahead(sc, i)) == Ahead(ScanPrecision(s[i..], sc), i)
  {
    CharShift(s, i, sc.i);
    CharShift(s, i, sc.i + 1);
    AtoiShift(s, i, sc.i + 1, 0);
  }

  lemma QualifierShift(s: string, i: nat, sc: Scan)
    requires i <= |s|
    ensures ScanQualifier(s, Ahead(sc, i)) == Ahead(ScanQualifier(s[i..], sc), i)
  {
    CharShift(s, i, sc.i);
  }

  lemma ScanShift(s: string, i: nat, k: nat, args: seq<Arg>)
    requires i + k < |s|
    ensures ScanAll(s, i + k, args) == Ahead(ScanAll(s[i..], k, args), i)
  {
    var (flags, j) := ScanFlags(s[i..], k + 1, NO_FLAGS);
    var sc := Scan(j, flags, -1, -1, '\0', args);
    FlagsShift(s, i, k + 1, NO_FLAGS);
    WidthShift(s, i, sc);
    PrecisionShift(s, i, ScanWidth(s[i..], sc));
    QualifierShift(s, i, ScanPrecision(s[i..], ScanWidth(s[i..], sc)));
  }

  // Moving on changes nothing but the position.
  lemma AheadSame(c: char, sc: Scan, i: nat)
    ensures ItemOf(c, Ahead(sc, i)) == ItemOf(c, sc) && Left(c, Ahead(sc, i)) == Left(c, sc)
  {
  }

  lemma OnwardShift(s: string, i: nat, k: nat)
    requires i <= |s|
    ensures CharAt(s, i + k) == CharAt(s[i..], k) && Onward(s, i + k) == i + Onward(s[i..], k)
  {
  }

  // What is read first at k there is read first at i + k here.
  lemma DirectiveItemsShift(s: string, i: nat, k: nat, args: seq<Arg>, sc: Scan, c: char)
    requires i + k < |s| && s[i + k] == '%' && sc == ScanAll(s[i..], k, args) && c == CharAt(s[i..], sc.i)
    ensures k < Onward(s[i..], sc.i) <= |s[i..]|
    ensures Items(s[i..], k, args) == Cons(ItemOf(c, sc), Items(s[i..], Onward(s[i..], sc.i), Left(c, sc)))
    ensures Items(s, i + k, args) == Cons(ItemOf(c, sc), Items(s, i + Onward(s[i..], sc.i), Left(c, sc)))
  {
    ScanShift(s, i, k, args);
    OnwardShift(s, i, sc.i);
    AheadSame(c, sc, i);
    DirectiveItems(s, i + k, args, Ahead(sc, i), c);
    DirectiveItems(s[i..], k, args, sc, c);
  }

  lemma TextShift(s: string, i: nat, k: nat, args: seq<Arg>)
    requires i + k < |s| && s[i + k] != '%' && s[i + k] != '\0'
    ensures Items(s[i..], k, args) == Cons(Item([s[i + k]], None), Items(s[i..], k + 1, args))
    ensures Items(s, i + k, args) == Cons(Item([s[i + k]], None), Items(s, i + k + 1, args))
  {
    TextStep(s, i + k, args);
    TextStep(s[i..], k, args);
  }

  lemma EndShift(s: string, i: nat, k: nat, args: seq<Arg>)
    requires i + k <= |s| && CharAt(s, i + k) == '\0'
    ensures Items(s, i + k, args) == Items(s[i..], k, args)
  {
    CharShift(s, i, k);
  }

  // Where the reading at k goes on, and with which arguments.
  function Resume(s: string, k: nat, args: seq<Arg>): (nat, seq<Arg>)
    requires k < |s|
  {
    if s[k] == '%' then
      var sc := ScanAll(s, k, args);
      (Onward(s, sc.i), Left(CharAt(s, sc.i), sc))
    else (k + 1, args)
  }

  lemma FirstShift(s: string, i: nat, k: nat, args: seq<Arg>, k': nat, left: seq<Arg>)
    requires i + k < |s| && s[i + k] != '\0' && (k', left) == Resume(s[i..], k, args)
    ensures k < k' <= |s[i..]|
    ensures Items(s, i + k', left) == Items(s[i..], k', left) ==> Items(s, i + k, args) == Items(s[i..], k, args)
  {
    if s[i + k] == '%' {
      var sc := ScanAll(s[i..], k, args);
      DirectiveItemsShift(s, i, k, args, sc, CharAt(s[i..], sc.i));
    } else {
      TextShift(s, i, k, args);
    }
  }

  lemma {:induction false} ItemsShift(s: string, i: nat, k: nat, args: seq<Arg>)
    requires i + k <= |s|
    ensures Items(s, i + k, args) == Items(s[i..], k, args)
    decreases |s| - i - k
  {
    if CharAt(s, i + k) == '\0' {
      EndShift(s, i, k, args);
    } else {
      var (k', left) := Resume(s[i..], k, args);
      FirstShift(s, i, k, args, k', left);
      ItemsShift(s, i, k', left);
    }
  }

  lemma FormatShift(s: string, i: nat, args: seq<Arg>)
    requires i <= |s|
    ensures Format(s, i, args) == Format(s[i..], 0, args)
  {
    ItemsShift(s, i, 0, args);
  }

  // A format in parts: plain text and directives.
  datatype Part = Plain(text: string) | Placed(d: Directive)

  predicate Proper(p: Part) {
    match p
    case Plain(text) => forall k :: 0 <= k < |text| ==> text[k] != '%' && text[k] != '\0'
    case Placed(d) => WellFormed(d) && d.conversion != '\0'
  }

  function Spelled(p: Part): string {
    match p
    case Plain(text) => text
    case Placed(d) => Text(d)
  }

  function Written(parts: seq<Part>): string {
    if parts == [] then "" else Spelled(parts[0]) + Written(parts[1..])
  }

  // The characters of a text in front of other items.
  function Letters(text: string, rest: List): List {
    if text == "" then rest else Cons(Item([text[0]], None), Letters(text[1..], rest))
  }

  // What the parts give, one after the other: each directive takes its arguments
  // from what those before it have left.
  function Results(parts: seq<Part>, args: seq<Arg>): List
    decreases |parts|
  {
    if parts == [] then Nil
    else match parts[0]
      case Plain(text) => Letters(text, Results(parts[1..], args))
      case Placed(d) =>
        var sc := Meaning(d, ConversionAt(d), args);
        Cons(ItemOf(d.conversion, sc), Results(parts[1..], Left(d.conversion, sc)))
  }

  lemma {:induction false} LettersPrinted(text: string, fmt: string, args: seq<Arg>)
    requires text <= fmt && Proper(Plain(text))
    ensures Items(fmt, 0, args) == Letters(text, Items(fmt[|text|..], 0, args))
    decreases |text|
  {
    if text == "" {
      assert fmt[0..] == fmt;
    } else {
      TextStep(fmt, 0, args);
      ItemsShift(fmt, 1, 0, args);
      LettersPrinted(text[1..], fmt[1..], args);
      assert fmt[1..][|text| - 1..] == fmt[|text|..];
    }
  }

  lemma DirectiveFirst(fmt: string, n: nat, args: seq<Arg>, sc: Scan)
    requires n < |fmt| && fmt[0] == '%' && fmt[n] != '\0' && sc == ScanAll(fmt, 0, args) && sc.i == n
    ensures Items(fmt, 0, args) == Cons(ItemOf(fmt[n], sc), Items(fmt[n + 1..], 0, Left(fmt[n], sc)))
  {
    DirectiveItems(fmt, 0, args, sc, fmt[n]);
    ItemsShift(fmt, n + 1, 0, Left(fmt[n], sc));
  }

  lemma DirectivePrinted(d: Directive, fmt: string, args: seq<Arg>, sc: Scan)
    requires WellFormed(d) && Text(d) <= fmt && d.conversion != '\0' && sc == Meaning(d, ConversionAt(d), args)
    ensures Items(fmt, 0, args) ==
            Cons(ItemOf(d.conversion, sc), Items(fmt[|Text(d)|..], 0, Left(d.conversion, sc)))
  {
    DirectiveScanned(d, fmt, args);
    DirectiveFirst(fmt, ConversionAt(d), args, sc);
    assert ConversionAt(d) + 1 == |Text(d)|;
  }

  lemma WrittenFirst(parts: seq<Part>)
    requires parts != []
    ensures Spelled(parts[0]) <= Written(parts) && Written(parts)[|Spelled(parts[0])|..] == Written(parts[1..])
  {
  }

  // Whatever texts and directives a format is put together from: the formatter gives
  // what they mean, in order, and so prints and stores just that.
  lemma {:induction false} PartsPrinted(parts: seq<Part>, args: seq<Arg>)
    requires forall k :: 0 <= k < |parts| ==> Proper(parts[k])
    ensures Items(Written(parts), 0, args) == Results(parts, args)
    decreases |parts|
  {
    if parts != [] {
      WrittenFirst(parts);
      assert Proper(parts[0]);
      match parts[0] {
        case Plain(text) =>
          LettersPrinted(text, Written(parts), args);
          PartsPrinted(parts[1..], args);
        case Placed(d) =>
          var sc := Meaning(d, ConversionAt(d), args);
          DirectivePrinted(d, Written(parts), args, sc);
          PartsPrinted(parts[1..], Left(d.conversion, sc));
      }
    }
  }

  lemma IntegerItem(c: char, sc: Scan)
    requires Integer(c, NO_FLAGS).Some?
    ensures ItemOf(c, sc) == Item(IntegerText(c, sc), None) && Left(c, sc) == Rest(sc.args) && c != '\0'
  {
  }

  // So an integer directive prints its argument as its parts say.
  lemma IntegerDirective(d: Directive, fmt: string, args: seq<Arg>, sc: Scan)
    requires WellFormed(d) && Text(d) <= fmt && Integer(d.conversion, NO_FLAGS).Some?
    requires sc == Meaning(d, ConversionAt(d), args)
    ensures Format(fmt, 0, args) ==
            IntegerText(d.conversion, sc) + Format(fmt[|Text(d)|..], 0, Rest(sc.args))
  {
    IntegerItem(d.conversion, sc);
    DirectivePrinted(d, fmt, args, sc);
  }

  const PLAIN_DECIMAL := Directive("", Absent, None, '\0', 'd')

  lemma PlainDecimal(args: seq<Arg>)
    ensures Text(PLAIN_DECIMAL) == "%d" && WellFormed(PLAIN_DECIMAL)
    ensures Meaning(PLAIN_DECIMAL, ConversionAt(PLAIN_DECIMAL), args) == Scan(1, NO_FLAGS, -1, -1, '\0', args)
  {
  }

  lemma DecimalPrints(bits: int)
    ensures Format("%d", 0, [Arg(bits, None)]) ==
            NumberText(NumberArg(bits, '\0', true), 10, -1, -1, NO_FLAGS.(sign := true))
  {
    var sc := Scan(1, NO_FLAGS, -1, -1, '\0', [Arg(bits, None)]);
    PlainDecimal(sc.args);
    IntegerDirective(PLAIN_DECIMAL, "%d", sc.args, sc);
    assert "%d"[2..] == "" && Format("", 0, []) == "";
    assert IntegerText('d', sc) + "" == IntegerText('d', sc);
  }

  function Decimal(v: int): string { if v < 0 then "-" + Numeral(-v, 10, false) else Numeral(v, 10, false) }

  lemma DecimalText(v: int)
    requires -0x8000_0000 <= v < 0x8000_0000
    ensures NumberText(NumberArg(v, '\0', true), 10, -1, -1, NO_FLAGS.(sign := true)) == Decimal(v)
  {
    var flags := NO_FLAGS.(sign := true);
    assert NumberArg(v, '\0', true) == v;
    assert Magnitude(v, flags) == if v < 0 then -v else v;
  }

  // %d prints an int in decimal, and skip_atoi reads it back if it is not negative.
  lemma DecimalRoundTrip(v: int)
    requires -0x8000_0000 <= v < 0x8000_0000
    ensures Format("%d", 0, [Arg(v, None)]) == Decimal(v)
    ensures v >= 0 ==> SkipAtoi(Decimal(v), 0, 0) == (v, |Decimal(v)|)
  {
    DecimalPrints(v);
    DecimalText(v);
    if v >= 0 {
      assert Numeral(v, 10, false) + "" == Numeral(v, 10, false);
      AtoiReadsBack(v, "");
    }
  }
}
