/**
 Percent-encoding of byte strings (acl_urlcode.c), section 2.1 of RFC 3986. The
 strings are C strings: their bytes are not zero.
 */
module UrlCode {

  import opened Collections

  type byte = b: int | 0 <= b < 256

  const PERCENT: byte := 37

  predicate IsDigit(c: byte) { 48 <= c <= 57 }

  predicate IsAlnum(c: byte) { IsDigit(c) || 65 <= c <= 90 || 97 <= c <= 122 }

  // The bytes that stand for themselves: letters, digits, and _ - .
  predicate Plain(c: byte) { IsAlnum(c) || c == 95 || c == 45 || c == 46 }

  // enc_tab and dec_tab.
  function HexDigit(d: int): byte
    requires 0 <= d < 16
  {
    if d < 10 then 48 + d else 55 + d
  }

  function HexValue(c: byte): int {
    if IsDigit(c) then c - 48
    else if 65 <= c <= 70 then c - 55
    else if 97 <= c <= 102 then c - 87
    else 0
  }

  lemma HexInverse(d: int)
    requires 0 <= d < 16
    ensures HexValue(HexDigit(d)) == d && IsAlnum(HexDigit(d)) && HexDigit(d) != PERCENT
  {
  }

  // ---------------------------------------------------------------- specification

  function Escaped(c: byte): seq<byte> {
    if Plain(c) then [c] else [PERCENT, HexDigit(c / 16), HexDigit(c % 16)]
  }

  function Encode(s: seq<byte>): seq<byte> {
    if s == [] then [] else Encode(s[..|s| - 1]) + Escaped(s[|s| - 1])
  }

  function Unescaped(x: byte, y: byte): byte { (HexValue(x) * 16 + HexValue(y)) % 256 }

  // A percent sign with less than two characters behind it ends the scan: it is kept,
  // and a character after it is lost.
  function Decode(s: seq<byte>): seq<byte> {
    if s == [] then []
    else if s[0] != PERCENT then [s[0]] + Decode(s[1..])
    else if |s| <= 2 then [PERCENT]
    else if IsAlnum(s[1]) && IsAlnum(s[2]) then [Unescaped(s[1], s[2])] + Decode(s[3..])
    else [PERCENT] + Decode(s[1..])
  }

  // ------------------------------------------------------------------ the main laws

  lemma {:induction false} EncodeFront(s: seq<byte>)
    requires s != []
    ensures Encode(s) == Escaped(s[0]) + Encode(s[1..])
  {
    var t := s[..|s| - 1];
    if |s| > 1 {
      EncodeFront(t);
      assert s[1..][..|s| - 2] == t[1..] && t[0] == s[0];
      Assoc(Escaped(s[0]), Encode(t[1..]), Escaped(s[|s| - 1]));
    } else {
      assert t == [] && s[1..] == [];
      assert [] + Escaped(s[0]) == Escaped(s[0]) + [];
    }
  }

  lemma EscapeDecodes(c: byte, rest: seq<byte>)
    ensures Decode(Escaped(c) + rest) == [c] + Decode(rest)
  {
    var s := Escaped(c) + rest;
    if Plain(c) {
      assert s[1..] == rest;
    } else {
      HexInverse(c / 16);
      HexInverse(c % 16);
      assert s[3..] == rest;
    }
  }

  // Decoding gives back what was encoded, for every byte string.
  lemma {:induction false} RoundTrip(s: seq<byte>)
    ensures Decode(Encode(s)) == s
  {
    if s != [] {
      EncodeFront(s);
      EscapeDecodes(s[0], Encode(s[1..]));
      RoundTrip(s[1..]);
      assert s == [s[0]] + s[1..];
    }
  }

  // An encoded string has no bytes but plain ones and percent signs.
  lemma {:induction false} EncodedBytes(s: seq<byte>, i: nat)
    requires i < |Encode(s)|
    ensures Plain(Encode(s)[i]) || Encode(s)[i] == PERCENT
  {
    var t := s[..|s| - 1];
    if i < |Encode(t)| {
      EncodedBytes(t, i);
    } else {
      var c := s[|s| - 1];
      HexInverse(c / 16);
      HexInverse(c % 16);
      assert Encode(s)[i] == Escaped(c)[i - |Encode(t)|];
    }
  }

  // The same decoder without the loss.
  function Keep(s: seq<byte>): seq<byte> {
    if s == [] then []
    else if s[0] != PERCENT then [s[0]] + Keep(s[1..])
    else if |s| <= 2 then s
    else if IsAlnum(s[1]) && IsAlnum(s[2]) then [Unescaped(s[1], s[2])] + Keep(s[3..])
    else [PERCENT] + Keep(s[1..])
  }

  // The last character, if the one before it is a percent sign.
  function Lost(s: seq<byte>): seq<byte> {
    if |s| >= 2 && s[|s| - 2] == PERCENT then [s[|s| - 1]] else []
  }

  // Exactly that character is lost.
  lemma {:induction false} LostExactly(s: seq<byte>)
    ensures Keep(s) == Decode(s) + Lost(s)
  {
    if |s| <= 2 && s != [] {
      LostEarly(s);
    } else if |s| > 2 {
      var n := if s[0] == PERCENT && IsAlnum(s[1]) && IsAlnum(s[2]) then 3 else 1;
      LostExactly(s[n..]);
      assert Lost(s) == Lost(s[n..]);
      Assoc([], [if n == 3 then Unescaped(s[1], s[2]) else s[0]], Decode(s[n..]) + Lost(s[n..]));
    }
  }

  lemma LostEarly(s: seq<byte>)
    requires 0 < |s| <= 2
    ensures Keep(s) == Decode(s) + Lost(s)
  {
    Single(s[|s| - 1]);
    if |s| == 1 {
      assert s == [s[0]];
    } else {
      assert s == [s[0]] + [s[1]] && s[1..] == [s[1]];
    }
  }

  lemma Single(c: byte)
    ensures Keep([c]) == [c] && Decode([c]) == [c] && Lost([c]) == []
  {
    assert [c][1..] == [];
  }

  // "%4" loses its 4.
  lemma EscapeCutShort()
    ensures Decode([PERCENT, 52]) == [PERCENT]
  {
  }

  // -------------------------------------------------------------------- the buffer

  // How many bytes of s need an escape.
  function Escapes(s: seq<byte>): nat {
    if s == [] then 0 else Escapes(s[..|s| - 1]) + if Plain(s[|s| - 1]) then 0 else 1
  }

  lemma {:induction false} EncodedLength(s: seq<byte>)
    ensures |Encode(s)| == |s| + 2 * Escapes(s)
  {
    if s != [] {
      EncodedLength(s[..|s| - 1]);
    }
  }

  // A larger buffer with the first j bytes of the old one: from the pool, or by
  // acl_myrealloc, which keeps all of them.
  method Grow(tmp: array<byte>, j: nat, size: nat, pool: bool) returns (t: array<byte>)
    requires j <= tmp.Length <= size
    ensures fresh(t) && t.Length == size && t[..j] == tmp[..j]
  {
    t := new byte[size];
    var n, i := if pool then j else tmp.Length, 0;
    while i < n
      invariant 0 <= i <= n && t[..i] == tmp[..i]
    {
      t[i] := tmp[i];
      i := i + 1;
    }
    assert t[..n][..j] == t[..j] && tmp[..n][..j] == tmp[..j];
  }

  lemma EncodeNext(s: seq<byte>, i: nat)
    requires i < |s|
    ensures Encode(s[..i + 1]) == Encode(s[..i]) + Escaped(s[i])
    ensures Escapes(s[..i + 1]) == Escapes(s[..i]) + if Plain(s[i]) then 0 else 1
  {
    assert s[..i + 1][..i] == s[..i];
  }

  // One turn of the loop of acl_url_encode: the buffer, which may have grown, the
  // position in it, and its nominal length.
  method PutByte(given: array<byte>, start: nat, tmpLen: nat, c: byte, pool: bool)
    returns (tmp: array<byte>, j: nat, newLen: nat)
    requires start < given.Length <= tmpLen + 3 && start <= tmpLen
    modifies given
    ensures tmp == given || fresh(tmp)
    ensures j == start + |Escaped(c)| && newLen == if Plain(c) then tmpLen else tmpLen + 3
    ensures tmp.Length == if Plain(c) then given.Length else newLen
    ensures j <= tmp.Length && tmp[..j] == old(given[..start]) + Escaped(c)
  {
    tmp, j, newLen := given, start, tmpLen;
    tmp[j] := c;
    if !IsAlnum(tmp[j]) && tmp[j] != 95 && tmp[j] != 45 && tmp[j] != 46 {
      newLen := newLen + 3;
      tmp := Grow(tmp, j, newLen, pool);
      tmp[j] := PERCENT;
      j := j + 1;
      tmp[j] := HexDigit(c / 16);
      j := j + 1;
      tmp[j] := HexDigit(c % 16);
    }
    j := j + 1;
  }

  // acl_url_encode on both allocation paths: every write, the final NUL included, is
  // inside the buffer of its moment, which ends three bytes longer for each escape.
  method UrlEncode(str: seq<byte>, pool: bool) returns (tmp: array<byte>)
    requires 0 !in str
    ensures |Encode(str)| < tmp.Length && tmp[..|Encode(str)|] == Encode(str) && tmp[|Encode(str)|] == 0
    ensures tmp.Length == |str| + if Escapes(str) == 0 then 1 else 3 * Escapes(str)
  {
    var len, tmpLen := |str|, |str|;
    tmp := new byte[len + 1];
    var i, j := 0, 0;
    while i < len
      invariant 0 <= i <= len && j == i + 2 * Escapes(str[..i]) && tmpLen == len + 3 * Escapes(str[..i])
      invariant fresh(tmp) && tmp.Length == if tmpLen == len then len + 1 else tmpLen
      invariant j <= tmp.Length && tmp[..j] == Encode(str[..i])
    {
      EncodeNext(str, i);
      tmp, j, tmpLen := PutByte(tmp, j, tmpLen, str[i], pool);
      i := i + 1;
    }
    assert str[..i] == str;
    EncodedLength(str);
    tmp[j] := 0;
  }

  // One turn of the loop of acl_url_decode at position i; it may end the scan.
  method TakeByte(str: seq<byte>, start: nat, tmp: array<byte>, at: nat) returns (i: nat, pos: nat)
    requires at <= start < |str| < tmp.Length
    modifies tmp
    ensures pos <= i && start < i <= |str|
    ensures tmp[..pos] + Decode(str[i..]) == old(tmp[..at]) + Decode(str[start..])
  {
    i, pos := start, at;
    ghost var rest := str[start..];
    if str[i] != PERCENT {
      assert rest[1..] == str[i + 1..];
      tmp[pos] := str[i];
    } else if i + 2 >= |str| {
      tmp[pos] := PERCENT;
      pos := pos + 1;
      i := i + 1;
      if i < |str| {
        tmp[pos] := str[i];
      }
      i := |str|;
      return;
    } else if IsAlnum(str[i + 1]) && IsAlnum(str[i + 2]) {
      assert rest[3..] == str[i + 3..];
      tmp[pos] := (HexValue(str[i + 1]) * 16 + HexValue(str[i + 2])) % 256;
      i := i + 2;
    } else {
      assert rest[1..] == str[i + 1..];
      tmp[pos] := str[i];
    }
    Assoc(tmp[..pos], [tmp[pos]], Decode(str[i + 1..]));
    pos := pos + 1;
    i := i + 1;
    assert tmp[..pos] == tmp[..pos - 1] + [tmp[pos - 1]];
  }

  // acl_url_decode: the buffer is one byte longer than the string.
  method UrlDecode(str: seq<byte>) returns (tmp: array<byte>)
    requires 0 !in str
    ensures tmp.Length == |str| + 1 && |Decode(str)| < tmp.Length
    ensures tmp[..|Decode(str)|] == Decode(str) && tmp[|Decode(str)|] == 0
  {
    var len, pos, i := |str|, 0, 0;
    tmp := new byte[len + 1];
    while i < len
      invariant 0 <= pos <= i <= len && tmp[..pos] + Decode(str[i..]) == Decode(str)
    {
      i, pos := TakeByte(str, i, tmp, pos);
    }
    tmp[pos] := 0;
  }
}
