/**
 The bounded formatter of acl_vsprintf.c. The specification gives the whole output
 of a format as text; the formatter writes through a moving position that may run
 past the end of its buffer.
 */
module Printf {

  import opened Collections

  datatype Flags = Flags(zeroPad: bool, sign: bool, plus: bool, space: bool, left: bool, special: bool, large: bool)

  const NO_FLAGS := Flags(false, false, false, false, false, false, false)

  // One variable argument: the 64 bits that va_arg reads, and the string there if
  // they are taken as a pointer to characters (None if they are null).
  datatype Arg = Arg(bits: int, text: Option<string>)

  const TWO_64 := 0x1_0000_0000_0000_0000

  // --------------------------------------------------------------------- numbers

  const SMALL_DIGITS := "0123456789abcdefghijklmnopqrstuvwxyz"
  const LARGE_DIGITS := "0123456789ABCDEFGHIJKLMNOPQRSTUVWXYZ"

  function Max(a: int, b: int): int { if a < b then b else a }

  function Repeat(c: char, n: int): (s: string)
    ensures |s| == Max(0, n)
  {
    if n <= 0 then "" else seq(n, _ => c)
  }

  type Base = b: int | b == 8 || b == 10 || b == 16 witness 10

  function DigitValue(c: char): int {
    if '0' <= c <= '9' then c as int - '0' as int
    else if 'a' <= c <= 'z' then c as int - 'a' as int + 10
    else if 'A' <= c <= 'Z' then c as int - 'A' as int + 10
    else 0
  }

  function DigitChar(d: nat, large: bool): (c: char)
    requires d < 16
    ensures DigitValue(c) == d && (c == '0' <==> d == 0) && (d < 10 <==> '0' <= c <= '9')
  {
    if d < 10 then ('0' as int + d) as char
    else if large then ('A' as int + d - 10) as char
    else ('a' as int + d - 10) as char
  }

  // The two tables of `number` give the same characters.
  lemma DigitTables(d: nat, large: bool)
    requires d < 16
    ensures (if large then LARGE_DIGITS else SMALL_DIGITS)[d] == DigitChar(d, large)
    ensures SMALL_DIGITS[33] == 'x' && LARGE_DIGITS[33] == 'X'
  {
  }

  function Quotient(n: nat, base: Base): nat { if base == 8 then n / 8 else if base == 10 then n / 10 else n / 16 }

  function Remainder(n: nat, base: Base): nat { if base == 8 then n % 8 else if base == 10 then n % 10 else n % 16 }

  function Times(n: int, base: Base): int { if base == 8 then n * 8 else if base == 10 then n * 10 else n * 16 }

  // The digits of n > 0, most significant first; none for zero.
  function Digits(n: nat, base: Base, large: bool): string
    decreases n
  {
    if n == 0 then "" else Digits(Quotient(n, base), base, large) + [DigitChar(Remainder(n, base), large)]
  }

  function Numeral(n: nat, base: Base, large: bool): string {
    if n == 0 then "0" else Digits(n, base, large)
  }

  function ValueOf(s: string, base: Base): int {
    if s == "" then 0 else Times(ValueOf(s[..|s| - 1], base), base) + DigitValue(s[|s| - 1])
  }

  // What the digits stand for: the absolute value, or the number as 64 bits.
  function Magnitude(num: int, flags: Flags): nat {
    if flags.sign && num < 0 then -num else num % TWO_64
  }

  function Sign(num: int, flags: Flags): string {
    if !flags.sign then "" else if num < 0 then "-" else if flags.plus then "+" else if flags.space then " " else ""
  }

  function Prefix(base: Base, flags: Flags): string {
    if !flags.special || base == 10 then ""
    else if base == 8 then "0"
    else if flags.large then "0X" else "0x"
  }

  // The room that sign, prefix and digits, filled up to the precision, leave in the
  // field.
  function Slack(num: int, base: Base, width: int, precision: int, flags: Flags): int {
    var digits := Numeral(Magnitude(num, flags), base, flags.large);
    width - |Sign(num, flags)| - |Prefix(base, flags)| - Max(precision, |digits|)
  }

  // The field up to the digits: spaces on the left, or zeros after the prefix.
  function FieldHead(num: int, base: Base, slack: int, flags: Flags): string {
    Repeat(' ', if flags.left || flags.zeroPad then 0 else slack) + Sign(num, flags) + Prefix(base, flags)
    + Repeat('0', if flags.zeroPad && !flags.left then slack else 0)
  }

  function FieldBody(num: int, base: Base, precision: int, flags: Flags): string {
    var digits := Numeral(Magnitude(num, flags), base, flags.large);
    Repeat('0', precision - |digits|) + digits
  }

  function FieldTail(slack: int, flags: Flags): string { Repeat(' ', if flags.left then slack else 0) }

  function NumberText(num: int, base: Base, width: int, precision: int, flags: Flags): string {
    var slack := Slack(num, base, width, precision, flags);
    FieldHead(num, base, slack, flags) + FieldBody(num, base, precision, flags) + FieldTail(slack, flags)
  }

  // The digits read back as the number, without a leading zero.
  lemma {:induction false} DigitsLaws(n: nat, base: Base, large: bool)
    ensures ValueOf(Digits(n, base, large), base) == n
    ensures n > 0 ==> |Digits(n, base, large)| > 0 && Digits(n, base, large)[0] != '0'
    decreases n
  {
    if n > 0 {
      var s, q := Digits(n, base, large), Quotient(n, base);
      DigitsLaws(q, base, large);
      assert s[..|s| - 1] == Digits(q, base, large);
      assert Times(q, base) + Remainder(n, base) == n;
    }
  }

  // 64 bits have at most 64 digits: the scratch array of `number` is long enough.
  lemma {:induction false} DigitsFit(n: nat, base: Base, large: bool, k: nat)
    requires n < Power2(k)
    ensures |Digits(n, base, large)| <= k
    decreases k
  {
    if n > 0 {
      assert Quotient(n, base) < Power2(k - 1);
      DigitsFit(Quotient(n, base), base, large, k - 1);
    }
  }

  function Power2(k: nat): nat { if k == 0 then 1 else 2 * Power2(k - 1) }

  lemma Power64()
    ensures Power2(64) == TWO_64
  {
    assert Power2(4) == 16;
    PowerSum(4, 4);
    PowerSum(8, 8);
    PowerSum(16, 16);
    PowerSum(32, 32);
  }

  lemma NumeralFits(n: nat, base: Base, large: bool)
    requires n < TWO_64
    ensures 0 < |Numeral(n, base, large)| <= 64
  {
    Power64();
    DigitsFit(n, base, large, 64);
    DigitsLaws(n, base, large);
  }

  lemma {:induction false} PowerSum(a: nat, b: nat)
    ensures Power2(a + b) == Power2(a) * Power2(b)
    decreases b
  {
    if b > 0 {
      PowerSum(a, b - 1);
      assert Power2(a + b) == 2 * Power2(a + (b - 1));
    }
  }

  // A number fills its field exactly.
  lemma NumberWidth(num: int, base: Base, width: int, precision: int, flags: Flags)
    ensures |NumberText(num, base, width, precision, flags)| ==
            Max(width, |Sign(num, flags)| + |Prefix(base, flags)|
                       + Max(precision, |Numeral(Magnitude(num, flags), base, flags.large)|))
  {
  }

  // The fill of a field goes behind the rest of it, between prefix and digits, or in
  // front of all.
  lemma NumberLayout(num: int, base: Base, width: int, precision: int, flags: Flags)
    ensures var lead := Sign(num, flags) + Prefix(base, flags);
            var body := FieldBody(num, base, precision, flags);
            var fill := width - |lead + body|;
            NumberText(num, base, width, precision, flags) ==
            if flags.left then (lead + body) + Repeat(' ', fill)
            else if flags.zeroPad then (lead + Repeat('0', fill)) + body
            else Repeat(' ', fill) + (lead + body)
  {
    var slack := Slack(num, base, width, precision, flags);
    var lead, body := Sign(num, flags) + Prefix(base, flags), FieldBody(num, base, precision, flags);
    HeadIs(num, base, slack, flags);
    assert slack == width - |lead + body|;
    Assoc(Repeat(' ', slack), lead, body);
    assert FieldTail(slack, flags) == if flags.left then Repeat(' ', slack) else "";
  }

  lemma HeadIs(num: int, base: Base, slack: int, flags: Flags)
    ensures var lead := Sign(num, flags) + Prefix(base, flags);
            FieldHead(num, base, slack, flags) ==
            if flags.left then lead else if flags.zeroPad then lead + Repeat('0', slack) else Repeat(' ', slack) + lead
  {
    Assoc(Repeat(' ', if flags.left || flags.zeroPad then 0 else slack), Sign(num, flags), Prefix(base, flags));
  }

  // ---------------------------------------------------------------------- formats

  // skip_atoi: the value of the digits at i, after `value`, and where they end.
  function SkipAtoi(s: string, i: nat, value: int): (r: (int, nat))
    ensures i <= r.1 && (i <= |s| ==> r.1 <= |s|) && (IsDigit(CharAt(s, i)) ==> i < r.1)
    decreases |s| - i
  {
    if !IsDigit(CharAt(s, i)) then (value, i) else SkipAtoi(s, i + 1, value * 10 + (s[i] as int - '0' as int))
  }

  // The state of the formatter inside one directive.
  datatype Scan = Scan(i: nat, flags: Flags, width: int, precision: int, qualifier: char, args: seq<Arg>)

  function Next(args: seq<Arg>): Arg { if args == [] then Arg(0, None) else args[0] }

  function Rest(args: seq<Arg>): seq<Arg> { if args == [] then [] else args[1..] }

  // The low `bits` bits as an unsigned and as a signed number.
  function Low(n: int, modulus: int): nat
    requires modulus > 0
  {
    n % modulus
  }

  function Signed(n: int, modulus: int): int
    requires modulus > 0
  {
    var u := n % modulus;
    if 2 * u < modulus then u else u - modulus
  }

  function FlagOf(c: char, flags: Flags): Option<Flags> {
    match c
    case '-' => Some(flags.(left := true))
    case '+' => Some(flags.(plus := true))
    case ' ' => Some(flags.(space := true))
    case '#' => Some(flags.(special := true))
    case '0' => Some(flags.(zeroPad := true))
    case _ => None
  }

  // `i` is the position after the percent sign or the last flag.
  function ScanFlags(fmt: string, i: nat, flags: Flags): (r: (Flags, nat))
    ensures i <= r.1 && (i <= |fmt| ==> r.1 <= |fmt|)
    decreases |fmt| - i
  {
    match FlagOf(CharAt(fmt, i), flags)
    case Some(more) => ScanFlags(fmt, i + 1, more)
    case None => (flags, i)
  }

  function ScanWidth(fmt: string, sc: Scan): (r: Scan)
    ensures sc.i <= r.i && (sc.i <= |fmt| ==> r.i <= |fmt|)
  {
    if IsDigit(CharAt(fmt, sc.i)) then
      var (n, i) := SkipAtoi(fmt, sc.i, 0);
      sc.(width := n, i := i)
    else if CharAt(fmt, sc.i) == '*' then
      var n := Signed(Next(sc.args).bits, 0x1_0000_0000);
      sc.(i := sc.i + 1, args := Rest(sc.args), width := if n < 0 then -n else n,
          flags := if n < 0 then sc.flags.(left := true) else sc.flags)
    else sc.(width := -1)
  }

  function ScanPrecision(fmt: string, sc: Scan): (r: Scan)
    ensures sc.i <= r.i && (sc.i <= |fmt| ==> r.i <= |fmt|)
  {
    if CharAt(fmt, sc.i) != '.' then sc.(precision := -1)
    else if IsDigit(CharAt(fmt, sc.i + 1)) then
      var (n, i) := SkipAtoi(fmt, sc.i + 1, 0);
      sc.(precision := Max(n, 0), i := i)
    else if CharAt(fmt, sc.i + 1) == '*' then
      sc.(i := sc.i + 2, args := Rest(sc.args), precision := Max(Signed(Next(sc.args).bits, 0x1_0000_0000), 0))
    else sc.(i := sc.i + 1, precision := 0)
  }

  function ScanQualifier(fmt: string, sc: Scan): (r: Scan)
    ensures sc.i <= r.i && (sc.i <= |fmt| ==> r.i <= |fmt|)
  {
    var c := CharAt(fmt, sc.i);
    if c == 'h' || c == 'l' || c == 'L' || c == 'Z' then sc.(qualifier := c, i := sc.i + 1) else sc.(qualifier := '\0')
  }

  // Everything between the percent sign at i and the conversion character.
  function ScanAll(fmt: string, i: nat, args: seq<Arg>): (r: Scan)
    requires i < |fmt|
    ensures i < r.i <= |fmt|
  {
    var (flags, k) := ScanFlags(fmt, i + 1, NO_FLAGS);
    ScanQualifier(fmt, ScanPrecision(fmt, ScanWidth(fmt, Scan(k, flags, -1, -1, '\0', args))))
  }

  // The number that an integer conversion takes from its argument.
  function NumberArg(bits: int, qualifier: char, sign: bool): int {
    if qualifier == 'L' || qualifier == 'l' || qualifier == 'Z' then Signed(bits, TWO_64)
    else if qualifier == 'h' then if sign then Signed(bits, 0x1_0000) else Low(bits, 0x1_0000)
    else if sign then Signed(bits, 0x1_0000_0000) else Low(bits, 0x1_0000_0000)
  }

  // acl_strnlen, with no limit if `precision` is negative.
  function StringLength(s: string, precision: int): (n: nat)
    ensures n <= |s|
    decreases |s|
  {
    if s == "" || s[0] == '\0' || precision == 0 then 0 else 1 + StringLength(s[1..], precision - 1)
  }

  function Padded(s: string, width: int, left: bool): string {
    if left then s + Repeat(' ', width - |s|) else Repeat(' ', width - |s|) + s
  }

  function Printed(text: Option<string>, precision: int): string {
    var s := if text.Some? then text.value else "<NULL>";
    s[..StringLength(s, precision)]
  }

  function Byte(bits: int): char { Low(bits, 0x100) as char }

  // Integer conversions: the base, and the flags that the character adds.
  function Integer(c: char, flags: Flags): Option<(Base, Flags)> {
    match c
    case 'o' => Some((8, flags))
    case 'X' => Some((16, flags.(large := true)))
    case 'x' => Some((16, flags))
    case 'd' => Some((10, flags.(sign := true)))
    case 'i' => Some((10, flags.(sign := true)))
    case 'u' => Some((10, flags))
    case _ => None
  }

  function IntegerText(c: char, sc: Scan): string
    requires Integer(c, sc.flags).Some?
  {
    var (base, flags) := Integer(c, sc.flags).value;
    NumberText(NumberArg(Next(sc.args).bits, sc.qualifier, flags.sign), base, sc.width, sc.precision, flags)
  }

  // What a directive with conversion c prints; an unknown one prints itself.
  function Converted(c: char, sc: Scan): string {
    var bits := Next(sc.args).bits;
    if Integer(c, sc.flags).Some? then IntegerText(c, sc)
    else
      match c
      case 'c' => Padded([Byte(bits)], sc.width, sc.flags.left)
      case 's' => Padded(Printed(Next(sc.args).text, sc.precision), sc.width, sc.flags.left)
      case 'p' =>
        if sc.width == -1 then NumberText(Signed(bits, TWO_64), 16, 16, sc.precision, sc.flags.(zeroPad := true))
        else NumberText(Signed(bits, TWO_64), 16, sc.width, sc.precision, sc.flags)
      case 'n' => ""
      case '%' => "%"
      case '\0' => "%"
      case _ => ['%', c]
  }

  // The conversions that take an argument.
  predicate Takes(c: char) { Integer(c, NO_FLAGS).Some? || c == 'c' || c == 's' || c == 'p' || c == 'n' }

  // Where the format goes on after a conversion, and with which arguments.
  function Onward(fmt: string, i: nat): nat { if CharAt(fmt, i) == '\0' then i else i + 1 }

  function Left(c: char, sc: Scan): seq<Arg> { if Takes(c) then Rest(sc.args) else sc.args }

  // What one character or directive of a format gives: text, and for the conversion
  // n the pointer through which it stores the position, as 64 bits or as 32.
  datatype Item = Item(text: string, target: Option<Target>)

  datatype Target = Target(address: int, wide: bool)

  function TargetOf(c: char, sc: Scan): Option<Target> {
    if c != 'n' then None else Some(Target(Next(sc.args).bits, sc.qualifier == 'l' || sc.qualifier == 'Z'))
  }

  function ItemOf(c: char, sc: Scan): Item { Item(Converted(c, sc), TargetOf(c, sc)) }

  datatype List = Nil | Cons(head: Item, tail: List)

  function Items(fmt: string, i: nat, args: seq<Arg>): List
    requires i <= |fmt|
    decreases |fmt| - i
  {
    if CharAt(fmt, i) == '\0' then Nil
    else if fmt[i] != '%' then Cons(Item([fmt[i]], None), Items(fmt, i + 1, args))
    else
      var sc := ScanAll(fmt, i, args);
      var c := CharAt(fmt, sc.i);
      Cons(ItemOf(c, sc), Items(fmt, Onward(fmt, sc.i), Left(c, sc)))
  }

  function TextOf(items: List): string {
    match items
    case Nil => ""
    case Cons(item, rest) => item.text + TextOf(rest)
  }

  // A position stored; an int takes its low 32 bits.
  datatype Store = Store(target: Target, at: nat) {
    function Value(): int { if target.wide then at else Signed(at, 0x1_0000_0000) }
  }

  function Stored(item: Item, at: nat): seq<Store> {
    if item.target.Some? then [Store(item.target.value, at)] else []
  }

  // What is stored when `at` characters have been printed before.
  function StoresOf(items: List, at: nat): seq<Store> {
    match items
    case Nil => []
    case Cons(item, rest) => Stored(item, at) + StoresOf(rest, at + |item.text|)
  }

  // The whole output from position i of the format on.
  function Format(fmt: string, i: nat, args: seq<Arg>): string
    requires i <= |fmt|
  {
    TextOf(Items(fmt, i, args))
  }

  // ---------------------------------------------------------- laws of the formats

  lemma DirectiveItems(fmt: string, i: nat, args: seq<Arg>, sc: Scan, c: char)
    requires i < |fmt| && fmt[i] == '%' && sc == ScanAll(fmt, i, args) && c == CharAt(fmt, sc.i)
    ensures i < Onward(fmt, sc.i) <= |fmt|
    ensures Items(fmt, i, args) == Cons(ItemOf(c, sc), Items(fmt, Onward(fmt, sc.i), Left(c, sc)))
  {
  }

  lemma TextStep(fmt: string, i: nat, args: seq<Arg>)
    requires i < |fmt| && fmt[i] != '%' && fmt[i] != '\0'
    ensures Items(fmt, i, args) == Cons(Item([fmt[i]], None), Items(fmt, i + 1, args))
  {
  }

  // A list in two: what comes before an item, the item, and what comes behind it.
  datatype Split = Split(before: List, item: Item, behind: List)

  function Joined(before: List, rest: List): List {
    match before
    case Nil => rest
    case Cons(item, more) => Cons(item, Joined(more, rest))
  }

  // The k-th position stored is the length of the output of the items before the k-th
  // conversion n, and that is how the whole output begins.
  lemma {:induction false} StoreAt(items: List, at: nat, k: nat) returns (s: Split)
    requires k < |StoresOf(items, at)|
    ensures items == Joined(s.before, Cons(s.item, s.behind)) && s.item.target.Some?
    ensures |StoresOf(s.before, at)| == k && TextOf(s.before) <= TextOf(items)
    ensures StoresOf(items, at)[k] == Store(s.item.target.value, at + |TextOf(s.before)|)
    decreases items
  {
    match items {
      case Cons(item, rest) =>
        var here := |Stored(item, at)|;
        if k < here {
          s := Split(Nil, item, rest);
        } else {
          var later := StoreAt(rest, at + |item.text|, k - here);
          s := later.(before := Cons(item, later.before));
          assert StoresOf(items, at)[k] == StoresOf(rest, at + |item.text|)[k - here];
        }
    }
  }

  // The digits of a field, zeros of the precision included, stand for the number.
  lemma BodyValue(num: int, base: Base, precision: int, flags: Flags)
    ensures ValueOf(FieldBody(num, base, precision, flags), base) == Magnitude(num, flags)
  {
    var n := Magnitude(num, flags);
    var digits := Numeral(n, base, flags.large);
    DigitsLaws(n, base, flags.large);
    ZerosValue(Repeat('0', precision - |digits|), digits, base);
  }

  lemma {:induction false} ZerosValue(zeros: string, s: string, base: Base)
    requires forall i :: 0 <= i < |zeros| ==> zeros[i] == '0'
    ensures ValueOf(zeros + s, base) == ValueOf(s, base)
    decreases |zeros| + |s|
  {
    if s != "" {
      assert (zeros + s)[..|zeros + s| - 1] == zeros + s[..|s| - 1];
      ZerosValue(zeros, s[..|s| - 1], base);
    } else if zeros != "" {
      assert zeros + s == zeros;
      ZerosValue(zeros[..|zeros| - 1], "", base);
      assert zeros[..|zeros| - 1] + "" == zeros[..|zeros| - 1];
    }
  }

  // skip_atoi reads decimal digits back to the number that printed them.
  lemma {:induction false} AtoiDigits(n: nat, s: string, from: nat)
    requires from + |Digits(n, 10, false)| <= |s|
    requires forall k :: 0 <= k < |Digits(n, 10, false)| ==> s[from + k] == Digits(n, 10, false)[k]
    ensures SkipAtoi(s, from, 0) == SkipAtoi(s, from + |Digits(n, 10, false)|, n)
    decreases n
  {
    if n > 0 {
      var d, q := Digits(n, 10, false), Quotient(n, 10);
      assert d == Digits(q, 10, false) + [DigitChar(Remainder(n, 10), false)];
      forall k | 0 <= k < |d| - 1 ensures s[from + k] == Digits(q, 10, false)[k] {
        assert s[from + k] == d[k];
      }
      AtoiDigits(q, s, from);
      assert s[from + |d| - 1] == d[|d| - 1];
      assert q * 10 + Remainder(n, 10) == n;
    }
  }

  lemma NumeralAt(n: nat, s: string, from: nat)
    requires var d := Numeral(n, 10, false); from + |d| <= |s| && s[from..from + |d|] == d
    requires !IsDigit(CharAt(s, from + |Numeral(n, 10, false)|))
    ensures SkipAtoi(s, from, 0) == (n, from + |Numeral(n, 10, false)|)
  {
    var d := Numeral(n, 10, false);
    forall k | 0 <= k < |d| ensures s[from + k] == d[k] {
      assert s[from + k] == s[from..from + |d|][k];
    }
    if n > 0 {
      AtoiDigits(n, s, from);
    } else {
      assert s[from] == '0';
      assert SkipAtoi(s, from, 0) == SkipAtoi(s, from + 1, 0);
    }
  }

  lemma AtoiReadsBack(n: nat, rest: string)
    requires rest == "" || !IsDigit(rest[0])
    ensures SkipAtoi(Numeral(n, 10, false) + rest, 0, 0) == (n, |Numeral(n, 10, false)|)
  {
    var s, d := Numeral(n, 10, false) + rest, Numeral(n, 10, false);
    assert s[..|d|] == d;
    NumeralAt(n, s, 0);
  }

  // An argument of the width that its qualifier names is read as what it was.
  lemma ArgumentRead(v: int, qualifier: char, sign: bool)
    requires var m := if qualifier == 'h' then 0x1_0000
                      else if qualifier == 'l' || qualifier == 'L' || qualifier == 'Z' then TWO_64
                      else 0x1_0000_0000;
             if sign || m == TWO_64 then -m <= 2 * v < m else 0 <= v < m
    ensures NumberArg(v % TWO_64, qualifier, sign) == v
  {
    var m := if qualifier == 'h' then 0x1_0000 else 0x1_0000_0000;
    assert v % TWO_64 % m == v % m;
    assert v % TWO_64 % TWO_64 == v % TWO_64;
  }

  // Text without directives is copied, whatever follows.
  lemma {:induction false} PlainText(fmt: string, i: nat, end: nat, args: seq<Arg>)
    requires i <= end <= |fmt| && forall k :: i <= k < end ==> fmt[k] != '%' && fmt[k] != '\0'
    ensures Format(fmt, i, args) == fmt[i..end] + Format(fmt, end, args)
    decreases end - i
  {
    if i < end {
      PlainText(fmt, i + 1, end, args);
      TextStep(fmt, i, args);
      assert Format(fmt, i, args) == [fmt[i]] + Format(fmt, i + 1, args);
      Assoc([fmt[i]], fmt[i + 1..end], Format(fmt, end, args));
      assert fmt[i..end] == [fmt[i]] + fmt[i + 1..end];
    }
  }

  // ------------------------------------------------------------------- the buffer

  // What a buffer holds after `text` was written into its first `size` bytes.
  function Shown(text: string, was: string, size: nat): string
    requires size <= |was|
  {
    if |text| <= size then text + was[|text|..] else text[..size] + was[size..]
  }

  // The same after the final NUL, which always finds room unless the size is 0.
  function Finished(text: string, was: string, size: nat): string
    requires size <= |was|
  {
    if size == 0 then was
    else if |text| < size then text + "\0" + was[|text| + 1..]
    else text[..size - 1] + "\0" + was[size..]
  }

  // A buffer of at least one byte holds as much of the text as leaves room for a
  // NUL, then the NUL; nothing else of it changes.
  lemma FinishedIs(text: string, was: string, size: nat, k: nat)
    requires 0 < size <= |was| && k < |was|
    ensures |Finished(text, was, size)| == |was|
    ensures var end := if |text| < size then |text| else size - 1;
            Finished(text, was, size)[k] == if k < end then text[k] else if k == end then '\0' else was[k]
  {
  }

  // The buffer, the position `str` that may pass the end, and what has been sent.
  class Output {
    const buf: array<char>
    const size: nat
    var str: nat
    ghost const was: string
    ghost var text: string

    ghost predicate Valid()
      reads this, buf
    {
      size <= buf.Length == |was| && str == |text| && buf[..] == Shown(text, was, size)
    }

    constructor (buf: array<char>, size: nat)
      requires size <= buf.Length
      ensures Valid() && this.buf == buf && this.size == size && was == buf[..] && text == ""
    {
      this.buf, this.size, str, was, text := buf, size, 0, buf[..], "";
    }

    method Put(c: char)
      requires Valid()
      modifies this`str, this`text, buf
      ensures Valid() && text == old(text) + [c]
    {
      if str < size {
        buf[str] := c;
      }
      str := str + 1;
      text := text + [c];
    }

    // while (n-- > 0) put c
    method Fill(c: char, n: int) returns (left: int)
      requires Valid()
      modifies this`str, this`text, buf
      ensures Valid() && text == old(text) + Repeat(c, n) && left == if n > 0 then -1 else n - 1
    {
      left := n;
      ghost var before := text;
      while left > 0
        invariant Valid() && left <= n && (n > 0 ==> left >= 0) && (n <= 0 ==> left == n)
        invariant text == before + Repeat(c, n - Max(left, 0))
      {
        Put(c);
        left := left - 1;
      }
      left := left - 1;
    }

    method PutAll(s: string)
      requires Valid()
      modifies this`str, this`text, buf
      ensures Valid() && text == old(text) + s
    {
      var i := 0;
      while i < |s|
        invariant 0 <= i <= |s| && Valid() && text == old(text) + s[..i]
      {
        Put(s[i]);
        i := i + 1;
      }
      assert s[..i] == s;
    }

    method Finish()
      requires Valid()
      modifies buf
      ensures buf[..] == Finished(text, was, size)
    {
      if str < size {
        buf[str] := '\0';
      } else if size > 0 {
        buf[size - 1] := '\0';
      }
    }
  }

  // -------------------------------------------------------------------- formatter

  // The digits of n, the last one first, in the scratch array of `number`.
  method PutDigits(n: nat, base: Base, large: bool, tmp: array<char>) returns (i: nat)
    requires n < TWO_64 && tmp.Length == 66
    modifies tmp
    ensures i <= 66 && i == |Numeral(n, base, large)|
    ensures forall k :: 0 <= k < i ==> tmp[i - 1 - k] == Numeral(n, base, large)[k]
  {
    i := 0;
    ghost var all := Numeral(n, base, large);
    NumeralFits(n, base, large);
    if n == 0 {
      tmp[i] := '0';
      i := i + 1;
    } else {
      var num: nat := n;
      while num != 0
        invariant i <= |all| && Digits(num, base, large) == all[..|all| - i]
        invariant forall j :: 0 <= j < i ==> tmp[j] == all[|all| - 1 - j]
        decreases num
      {
        DigitsStep(num, base, large, all, i);
        tmp[i] := DigitChar(Remainder(num, base), large);
        num := Quotient(num, base);
        i := i + 1;
      }
    }
  }

  lemma DigitsStep(n: nat, base: Base, large: bool, all: string, i: nat)
    requires n > 0 && i <= |all| && Digits(n, base, large) == all[..|all| - i]
    ensures Quotient(n, base) < n && i < |all|
    ensures all[|all| - 1 - i] == DigitChar(Remainder(n, base), large)
    ensures Digits(Quotient(n, base), base, large) == all[..|all| - (i + 1)]
  {
    var s := Digits(n, base, large);
    assert s == Digits(Quotient(n, base), base, large) + [DigitChar(Remainder(n, base), large)];
    assert all[..|all| - (i + 1)] == s[..|s| - 1];
  }

  method Lead(num: int, base: Base, width: int, flags: Flags) returns (sign: string, rest: nat, size: int)
    requires -TWO_64 <= 2 * num
    ensures sign == Sign(num, flags) && rest == Magnitude(num, flags) && rest < TWO_64
    ensures size == width - |sign| - |Prefix(base, flags)|
  {
    sign, rest, size := "", num % TWO_64, width;
    if flags.sign {
      if num < 0 {
        sign := "-";
        rest := -num;
        size := size - 1;
      } else if flags.plus {
        sign := "+";
        size := size - 1;
      } else if flags.space {
        sign := " ";
        size := size - 1;
      }
    }
    if flags.special {
      if base == 16 {
        size := size - 2;
      } else if base == 8 {
        size := size - 1;
      }
    }
  }

  method PutPrefix(out: Output, base: Base, flags: Flags)
    requires out.Valid()
    modifies out`str, out`text, out.buf
    ensures out.Valid() && out.text == old(out.text) + Prefix(base, flags)
  {
    if flags.special {
      if base == 8 {
        out.Put('0');
      } else if base == 16 {
        out.Put('0');
        out.Put(if flags.large then 'X' else 'x');
      }
    }
  }

  method PutBackwards(out: Output, tmp: array<char>, all: nat, ghost digits: string)
    requires out.Valid() && all == |digits| <= tmp.Length && tmp != out.buf
    requires forall k :: 0 <= k < all ==> tmp[all - 1 - k] == digits[k]
    modifies out`str, out`text, out.buf
    ensures out.Valid() && out.text == old(out.text) + digits
  {
    var i := all;
    while i > 0
      invariant 0 <= i <= all && out.Valid() && out.text == old(out.text) + digits[..all - i]
    {
      i := i - 1;
      out.Put(tmp[i]);
    }
    assert digits[..all] == digits;
  }

  method PutHead(out: Output, num: int, base: Base, slack: int, sign: string, flags: Flags) returns (left: int)
    requires out.Valid() && sign == Sign(num, flags)
    modifies out`str, out`text, out.buf
    ensures out.Valid() && out.text == old(out.text) + FieldHead(num, base, slack, flags)
    ensures if flags.left then left == slack else left < 0
  {
    ghost var before := out.text;
    var zeroPad := flags.zeroPad && !flags.left;
    left := slack;
    if !zeroPad && !flags.left {
      left := out.Fill(' ', left);
    }
    ghost var pad := Repeat(' ', if flags.left || flags.zeroPad then 0 else slack);
    assert out.text == before + pad;
    out.PutAll(sign);
    PutPrefix(out, base, flags);
    Assoc(before, pad, sign);
    Assoc(before, pad + sign, Prefix(base, flags));
    ghost var lead := pad + sign + Prefix(base, flags);
    assert out.text == before + lead;
    Assoc(before, lead, Repeat('0', if flags.zeroPad && !flags.left then slack else 0));
    if !flags.left {
      left := out.Fill(if zeroPad then '0' else ' ', left);
    }
  }

  method PutBody(out: Output, tmp: array<char>, i: nat, precision: int, ghost digits: string)
    requires out.Valid() && i == |digits| <= tmp.Length && tmp != out.buf
    requires forall k :: 0 <= k < i ==> tmp[i - 1 - k] == digits[k]
    modifies out`str, out`text, out.buf
    ensures out.Valid() && out.text == old(out.text) + (Repeat('0', precision - i) + digits)
  {
    Assoc(out.text, Repeat('0', precision - i), digits);
    var _ := out.Fill('0', Max(precision, i) - i);
    PutBackwards(out, tmp, i, digits);
  }

  // number
  method Number(out: Output, num: int, base: Base, width: int, precision: int, flags: Flags)
    requires out.Valid() && -TWO_64 <= 2 * num
    modifies out`str, out`text, out.buf
    ensures out.Valid()
    ensures out.text == old(out.text) + NumberText(num, base, width, precision, flags)
  {
    var sign, rest, size := Lead(num, base, width, flags);
    var tmp := new char[66];
    var i := PutDigits(rest, base, flags.large, tmp);
    size := size - Max(precision, i);
    assert size == Slack(num, base, width, precision, flags);
    PutField(out, num, base, size, precision, flags, sign, tmp, i, Numeral(rest, base, flags.large));
  }

  method PutField(out: Output, num: int, base: Base, slack: int, precision: int, flags: Flags,
                  sign: string, tmp: array<char>, i: nat, ghost digits: string)
    requires out.Valid() && sign == Sign(num, flags) && tmp != out.buf
    requires i == |digits| <= tmp.Length && forall k :: 0 <= k < i ==> tmp[i - 1 - k] == digits[k]
    requires FieldBody(num, base, precision, flags) == Repeat('0', precision - i) + digits
    modifies out`str, out`text, out.buf
    ensures out.Valid()
    ensures out.text == old(out.text) +
            (FieldHead(num, base, slack, flags) + FieldBody(num, base, precision, flags) + FieldTail(slack, flags))
  {
    ghost var before, head := out.text, FieldHead(num, base, slack, flags);
    ghost var body := FieldBody(num, base, precision, flags);
    var size := PutHead(out, num, base, slack, sign, flags);
    PutBody(out, tmp, i, precision, digits);
    var _ := out.Fill(' ', size);
    Assoc(before, head, body);
    Assoc(before, head + body, FieldTail(slack, flags));
  }

  // skip_atoi
  method ReadNumber(fmt: string, start: nat) returns (n: int, i: nat)
    ensures (n, i) == SkipAtoi(fmt, start, 0)
  {
    n, i := 0, start;
    while IsDigit(CharAt(fmt, i))
      invariant i >= start && SkipAtoi(fmt, i, n) == SkipAtoi(fmt, start, 0)
      decreases |fmt| - i
    {
      n := n * 10 + (fmt[i] as int - '0' as int);
      i := i + 1;
    }
  }

  method ReadFlags(fmt: string, start: nat) returns (flags: Flags, i: nat)
    ensures (flags, i) == ScanFlags(fmt, start, NO_FLAGS)
  {
    flags, i := NO_FLAGS, start;
    while FlagOf(CharAt(fmt, i), flags).Some?
      invariant i >= start && ScanFlags(fmt, i, flags) == ScanFlags(fmt, start, NO_FLAGS)
      decreases |fmt| - i
    {
      flags := FlagOf(CharAt(fmt, i), flags).value;
      i := i + 1;
    }
  }

  method ReadWidth(fmt: string, given: Scan) returns (sc: Scan)
    ensures sc == ScanWidth(fmt, given)
  {
    sc := given.(width := -1);
    if IsDigit(CharAt(fmt, sc.i)) {
      var n, i := ReadNumber(fmt, sc.i);
      sc := sc.(width := n, i := i);
    } else if CharAt(fmt, sc.i) == '*' {
      sc := sc.(i := sc.i + 1, width := Signed(Next(sc.args).bits, 0x1_0000_0000), args := Rest(sc.args));
      if sc.width < 0 {
        sc := sc.(width := -sc.width, flags := sc.flags.(left := true));
      }
    }
  }

  method ReadPrecision(fmt: string, given: Scan) returns (sc: Scan)
    ensures sc == ScanPrecision(fmt, given)
  {
    sc := given.(precision := -1);
    if CharAt(fmt, sc.i) == '.' {
      sc := sc.(i := sc.i + 1);
      if IsDigit(CharAt(fmt, sc.i)) {
        var n, i := ReadNumber(fmt, sc.i);
        sc := sc.(precision := n, i := i);
      } else if CharAt(fmt, sc.i) == '*' {
        sc := sc.(i := sc.i + 1, precision := Signed(Next(sc.args).bits, 0x1_0000_0000), args := Rest(sc.args));
      }
      if sc.precision < 0 {
        sc := sc.(precision := 0);
      }
    }
  }

  method ReadQualifier(fmt: string, given: Scan) returns (sc: Scan)
    ensures sc == ScanQualifier(fmt, given)
  {
    sc := given.(qualifier := '\0');
    var c := CharAt(fmt, sc.i);
    if c == 'h' || c == 'l' || c == 'L' || c == 'Z' {
      sc := sc.(qualifier := c, i := sc.i + 1);
    }
  }

  // The part of acl_vsnprintf between a percent sign and the conversion character.
  method ReadDirective(fmt: string, start: nat, given: seq<Arg>) returns (sc: Scan)
    requires start < |fmt|
    ensures sc == ScanAll(fmt, start, given)
  {
    var flags, i := ReadFlags(fmt, start + 1);
    sc := ReadWidth(fmt, Scan(i, flags, -1, -1, '\0', given));
    sc := ReadPrecision(fmt, sc);
    sc := ReadQualifier(fmt, sc);
  }

  // The conversions c and s: a text in its field.
  method PutText(out: Output, s: string, width: int, left: bool)
    requires out.Valid()
    modifies out`str, out`text, out.buf
    ensures out.Valid() && out.text == old(out.text) + Padded(s, width, left)
  {
    var size := width - |s|;
    ghost var before, pad := out.text, Repeat(' ', size);
    if !left {
      size := out.Fill(' ', size);
      Assoc(before, pad, s);
    }
    out.PutAll(s);
    if left {
      Assoc(before, s, pad);
    }
    var _ := out.Fill(' ', size);
  }

  method Convert(out: Output, fmt: string, sc: Scan) returns (target: Option<Target>)
    requires out.Valid()
    modifies out`str, out`text, out.buf
    ensures out.Valid() && out.text == old(out.text) + Converted(CharAt(fmt, sc.i), sc)
    ensures target == TargetOf(CharAt(fmt, sc.i), sc)
  {
    target := None;
    var c, arg := CharAt(fmt, sc.i), Next(sc.args);
    match Integer(c, sc.flags) {
      case Some((base, flags)) =>
        Number(out, NumberArg(arg.bits, sc.qualifier, flags.sign), base, sc.width, sc.precision, flags);
      case None =>
        match c {
          case 'c' => PutText(out, [Byte(arg.bits)], sc.width, sc.flags.left);
          case 's' => PutText(out, Printed(arg.text, sc.precision), sc.width, sc.flags.left);
          case 'p' =>
            if sc.width == -1 {
              Number(out, Signed(arg.bits, TWO_64), 16, 16, sc.precision, sc.flags.(zeroPad := true));
            } else {
              Number(out, Signed(arg.bits, TWO_64), 16, sc.width, sc.precision, sc.flags);
            }
          case 'n' =>
            if sc.qualifier == 'l' {
              target := Some(Target(arg.bits, true));
            } else if sc.qualifier == 'Z' {
              target := Some(Target(arg.bits, true));
            } else {
              target := Some(Target(arg.bits, false));
            }
          case '%' => out.Put('%');
          case '\0' => out.Put('%');
          case _ =>
            out.Put('%');
            out.Put(c);
        }
    }
  }

  // One directive, from its percent sign at `start` on.
  method PutDirective(out: Output, fmt: string, start: nat, given: seq<Arg>)
    returns (i: nat, args: seq<Arg>, stored: seq<Store>, ghost item: Item)
    requires out.Valid() && start < |fmt| && fmt[start] == '%'
    modifies out`str, out`text, out.buf
    ensures out.Valid() && out.text == old(out.text) + item.text
    ensures start < i <= |fmt| && Items(fmt, start, given) == Cons(item, Items(fmt, i, args))
    ensures stored == Stored(item, |old(out.text)|)
  {
    var sc := ReadDirective(fmt, start, given);
    i, args := Onward(fmt, sc.i), Left(CharAt(fmt, sc.i), sc);
    DirectiveItems(fmt, start, given, sc, CharAt(fmt, sc.i));
    item := ItemOf(CharAt(fmt, sc.i), sc);
    var at := out.str;
    var target := Convert(out, fmt, sc);
    stored := if target.Some? then [Store(target.value, at)] else [];
  }

  // In the middle of a format: what is printed and stored, and what it leads to.
  ghost predicate Printing(text: string, stores: seq<Store>, left: List, all: List) {
    text + TextOf(left) == TextOf(all) && stores + StoresOf(left, |text|) == StoresOf(all, 0)
  }

  lemma PrintingStep(text: string, stores: seq<Store>, item: Item, left: List, all: List)
    requires Printing(text, stores, Cons(item, left), all)
    ensures Printing(text + item.text, stores + Stored(item, |text|), left, all)
  {
    Assoc(text, item.text, TextOf(left));
    Assoc(stores, Stored(item, |text|), StoresOf(left, |text + item.text|));
  }

  // acl_vsnprintf. The result is the length of the whole output, whatever the size;
  // the buffer holds as much of it as fits before a final NUL, and no byte beyond
  // `size` is written. `stores` are the positions written through pointers.
  method Vsnprintf(buf: array<char>, size: nat, fmt: string, given: seq<Arg>) returns (n: nat, stores: seq<Store>)
    requires size <= buf.Length
    modifies buf
    ensures n == |Format(fmt, 0, given)| && stores == StoresOf(Items(fmt, 0, given), 0)
    ensures buf[..] == Finished(Format(fmt, 0, given), old(buf[..]), size)
  {
    var out := new Output(buf, size);
    ghost var all := Items(fmt, 0, given);
    var i, args := 0, given;
    stores := [];
    while CharAt(fmt, i) != '\0'
      invariant i <= |fmt| && out.Valid() && out.was == old(buf[..]) && out.buf == buf && out.size == size && fresh(out)
      invariant Printing(out.text, stores, Items(fmt, i, args), all)
      decreases |fmt| - i
    {
      ghost var before, item := out.text, Item([fmt[i]], None);
      var stored := [];
      if fmt[i] != '%' {
        TextStep(fmt, i, args);
        out.Put(fmt[i]);
        i := i + 1;
      } else {
        i, args, stored, item := PutDirective(out, fmt, i, args);
      }
      PrintingStep(before, stores, item, Items(fmt, i, args), all);
      stores := stores + stored;
    }
    out.Finish();
    assert out.text == TextOf(all);
    n := out.str;
  }
}
