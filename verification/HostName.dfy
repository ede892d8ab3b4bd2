/**
 The scanners of acl_valid_hostname.c beside the grammars that they decide, and
 acl_inet_ntop4 of acl_sane_inet.c. Names are C strings: their characters are not NUL.
 */
module HostName {

  import opened Collections

  // ------------------------------------------------------------------- characters

  predicate IsAlpha(c: char) { 'a' <= c <= 'z' || 'A' <= c <= 'Z' }

  predicate IsAlnum(c: char) { IsDigit(c) || IsAlpha(c) }

  // --------------------------------------------------------------------- grammars

  function FirstDot(s: string, i: nat): (j: nat)
    requires i <= |s|
    ensures i <= j <= |s| && (j < |s| ==> s[j] == '.')
    ensures forall k :: i <= k < j ==> s[k] != '.'
    decreases |s| - i
  {
    if i == |s| || s[i] == '.' then i else FirstDot(s, i + 1)
  }

  // The parts between the dots of s from position i on.
  function Parts(s: string, i: nat): seq<string>
    requires i <= |s|
    decreases |s| - i
  {
    var j := FirstDot(s, i);
    [s[i..j]] + if j < |s| then Parts(s, j + 1) else []
  }

  const LABEL_LEN := 63
  const HOSTNAME_LEN := 255

  predicate LabelChar(c: char) { IsAlnum(c) || c == '_' || c == '-' }

  // Section 2.3.4 of RFC 1035 for the length.
  ghost predicate Label(l: string) {
    && 0 < |l| <= LABEL_LEN
    && (forall i :: 0 <= i < |l| ==> LabelChar(l[i]))
    && l[0] != '-' && l[|l| - 1] != '-'
  }

  predicate NonNumeric(c: char) { IsAlpha(c) || c == '_' }

  ghost predicate Lettered(s: string, n: nat)
    requires n <= |s|
  {
    exists i :: 0 <= i < n && NonNumeric(s[i])
  }

  // A host name: labels between dots, with a letter or underscore somewhere.
  ghost predicate IsHostName(s: string) {
    |s| <= HOSTNAME_LEN && Labels(s, 0) && Lettered(s, |s|)
  }

  ghost predicate Labels(s: string, i: nat)
    requires i <= |s|
  {
    forall l :: l in Parts(s, i) ==> Label(l)
  }

  lemma HeadAndLabels(part: string, rest: seq<string>)
    ensures (forall l :: l in [part] + rest ==> Label(l)) <==> Label(part) && forall l :: l in rest ==> Label(l)
  {
  }

  lemma LabelsSplit(s: string, i: nat, j: nat)
    requires i <= |s| && j == FirstDot(s, i)
    ensures Labels(s, i) <==> Label(s[i..j]) && (j < |s| ==> Labels(s, j + 1))
  {
    PartsStep(s, i, j);
    HeadAndLabels(s[i..j], if j < |s| then Parts(s, j + 1) else []);
  }

  // The scanner at position `cp`, n characters into a label: what came before is a
  // list of labels, and what there is of this one may become a label.
  ghost predicate Scanned(s: string, cp: nat, n: nat) {
    && n <= cp <= |s| && (n == 0 ==> cp < |s|)
    && (Labels(s, 0) <==> Labels(s, cp - n))
    && (forall k :: cp - n <= k < cp ==> LabelChar(s[k]))
    && (n > 0 ==> s[cp - n] != '-')
    && (n > 0 && s[cp - 1] == '-' ==> cp < |s| && s[cp] != '.')
    && (n > 0 && s[cp - 1] != '-' ==> n <= LABEL_LEN)
  }

  // The label that the scanner is in reaches at least up to position cp.
  lemma Reaches(s: string, cp: nat, n: nat)
    requires Scanned(s, cp, n)
    ensures var j := FirstDot(s, cp - n); j >= cp && (cp < |s| && s[cp] != '.' ==> j > cp)
  {
    assert forall k :: cp - n <= k < cp ==> s[k] != '.';
  }

  ghost predicate SliceOf(s: string, i: nat, j: nat)
    requires i <= j <= |s|
  {
    forall k :: i <= k < j ==> s[k] == s[i..j][k - i]
  }

  lemma SliceIs(s: string, i: nat, j: nat)
    requires i <= j <= |s|
    ensures SliceOf(s, i, j)
  {
  }

  lemma LabelsFrom(s: string, i: nat, j: nat)
    requires i <= |s| && j == FirstDot(s, i) && (Labels(s, 0) <==> Labels(s, i))
    ensures Labels(s, 0) <==> Label(s[i..j]) && (j < |s| ==> Labels(s, j + 1))
  {
    LabelsSplit(s, i, j);
  }

  lemma Inside(s: string, cp: nat, n: nat)
    requires Scanned(s, cp, n)
    ensures var j := FirstDot(s, cp - n);
            && j >= cp && (cp < |s| && s[cp] != '.' ==> j > cp)
            && (Labels(s, 0) <==> Label(s[cp - n..j]) && (j < |s| ==> Labels(s, j + 1)))
            && SliceOf(s, cp - n, j)
  {
    Reaches(s, cp, n);
    LabelsFrom(s, cp - n, FirstDot(s, cp - n));
    SliceIs(s, cp - n, FirstDot(s, cp - n));
  }

  lemma Letter(s: string, cp: nat, n: nat)
    requires Scanned(s, cp, n) && cp < |s| && (IsAlnum(s[cp]) || s[cp] == '_')
    ensures if n + 1 <= LABEL_LEN then Scanned(s, cp + 1, n + 1) else !Labels(s, 0)
  {
    Inside(s, cp, n);
  }

  lemma Dot(s: string, cp: nat, n: nat)
    requires Scanned(s, cp, n) && cp < |s| && s[cp] == '.'
    ensures if n > 0 && cp + 1 < |s| then Scanned(s, cp + 1, 0) else !Labels(s, 0)
  {
    Inside(s, cp, n);
    assert FirstDot(s, cp - n) == cp;
    if cp + 1 == |s| {
      LabelsSplit(s, cp + 1, cp + 1);
    }
  }

  // The length of a label is not checked at a hyphen: the last character of a label
  // is none.
  lemma Hyphen(s: string, cp: nat, n: nat)
    requires Scanned(s, cp, n) && cp < |s| && s[cp] == '-'
    ensures if n > 0 && cp + 1 < |s| && s[cp + 1] != '.' then Scanned(s, cp + 1, n + 1) else !Labels(s, 0)
  {
    Inside(s, cp, n);
    var j := FirstDot(s, cp - n);
    if n > 0 && (cp + 1 == |s| || s[cp + 1] == '.') {
      assert j == cp + 1;
    }
  }

  lemma Stranger(s: string, cp: nat, n: nat)
    requires Scanned(s, cp, n) && cp < |s| && s[cp] != '.' && !LabelChar(s[cp])
    ensures !Labels(s, 0)
  {
    Inside(s, cp, n);
  }

  lemma Ended(s: string, n: nat)
    requires Scanned(s, |s|, n)
    ensures Labels(s, 0)
  {
    Inside(s, |s|, n);
  }

  lemma LetteredGrows(s: string, n: nat)
    requires n < |s|
    ensures Lettered(s, n + 1) <==> Lettered(s, n) || NonNumeric(s[n])
  {
  }

  // One turn of the loop of acl_valid_hostname.
  method TakeNameChar(name: string, cp: nat, labelLength: nat) returns (fits: bool, length: nat, lettered: bool)
    requires Scanned(name, cp, labelLength) && cp < |name| && '\0' !in name
    ensures if fits then Scanned(name, cp + 1, length) else !Labels(name, 0)
    ensures fits ==> (lettered <==> NonNumeric(name[cp]))
  {
    var ch := name[cp];
    fits, length, lettered := false, labelLength + 1, false;
    if IsAlnum(ch) || ch == '_' {
      Letter(name, cp, labelLength);
      fits, lettered := length <= LABEL_LEN, !IsDigit(ch);
    } else if ch == '.' {
      Dot(name, cp, labelLength);
      fits, length := !(labelLength == 0 || CharAt(name, cp + 1) == '\0'), 0;
    } else if ch == '-' {
      Hyphen(name, cp, labelLength);
      fits := !(length == 1 || CharAt(name, cp + 1) == '\0' || CharAt(name, cp + 1) == '.');
    } else {
      Stranger(name, cp, labelLength);
    }
  }

  // acl_valid_hostname
  method ValidHostName(name: string) returns (valid: bool)
    requires '\0' !in name
    ensures valid <==> IsHostName(name)
  {
    if |name| == 0 {
      LabelsSplit(name, 0, 0);
      return false;
    }
    var labelLength, nonNumeric, cp := 0, false, 0;
    while cp < |name|
      invariant 0 <= labelLength && Scanned(name, cp, labelLength)
      invariant nonNumeric <==> Lettered(name, cp)
    {
      var fits, lettered;
      fits, labelLength, lettered := TakeNameChar(name, cp, labelLength);
      if !fits {
        return false;
      }
      LetteredGrows(name, cp);
      nonNumeric := nonNumeric || lettered;
      cp := cp + 1;
    }
    if !nonNumeric {
      return false;
    }
    Ended(name, labelLength);
    return cp <= HOSTNAME_LEN;
  }

  // ------------------------------------------------------------------ dotted quads

  // The value of a decimal numeral.
  function Value(s: string): int {
    if s == "" then 0 else Value(s[..|s| - 1]) * 10 + (s[|s| - 1] as int - '0' as int)
  }

  predicate Digits(s: string) { forall i :: 0 <= i < |s| ==> IsDigit(s[i]) }

  ghost predicate Octet(p: string) { p != "" && Digits(p) && Value(p) <= 255 }

  // Four octets of which the first is zero only if all are.
  ghost predicate QuadParts(parts: seq<string>) {
    && |parts| == 4 && (forall i :: 0 <= i < 4 ==> Octet(parts[i]))
    && (Value(parts[0]) != 0 || forall i :: 0 <= i < 4 ==> Value(parts[i]) == 0)
  }

  // A dotted quad, or just "0".
  ghost predicate IsQuad(s: string) { s == "0" || QuadParts(Parts(s, 0)) }

  // The same by recursion: how many parts there are from position i on, and whether
  // they are octets.
  function Count(s: string, i: nat): nat
    requires i <= |s|
    decreases |s| - i
  {
    var j := FirstDot(s, i);
    1 + if j < |s| then Count(s, j + 1) else 0
  }

  ghost predicate Octets(s: string, i: nat)
    requires i <= |s|
    decreases |s| - i
  {
    var j := FirstDot(s, i);
    Octet(s[i..j]) && (j < |s| ==> Octets(s, j + 1))
  }

  lemma PartsStep(s: string, i: nat, j: nat)
    requires i <= |s| && j == FirstDot(s, i)
    ensures Parts(s, i) == [s[i..j]] + if j < |s| then Parts(s, j + 1) else []
  {
  }

  lemma HeadAndOctets(part: string, rest: seq<string>)
    ensures (forall p :: p in [part] + rest ==> Octet(p)) <==> Octet(part) && forall p :: p in rest ==> Octet(p)
  {
  }

  lemma {:induction false} PartsAre(s: string, i: nat)
    requires i <= |s|
    ensures |Parts(s, i)| == Count(s, i) && Parts(s, i)[0] == s[i..FirstDot(s, i)]
    ensures Octets(s, i) <==> forall p :: p in Parts(s, i) ==> Octet(p)
    decreases |s| - i
  {
    var j := FirstDot(s, i);
    PartsStep(s, i, j);
    if j < |s| {
      PartsAre(s, j + 1);
      HeadAndOctets(s[i..j], Parts(s, j + 1));
    } else {
      HeadAndOctets(s[i..j], []);
    }
  }

  lemma {:induction false} ValueZero(s: string)
    requires Digits(s)
    ensures Value(s) >= 0 && (Value(s) == 0 <==> forall i :: 0 <= i < |s| ==> s[i] == '0')
  {
    if s != "" {
      var t := s[..|s| - 1];
      ValueZero(t);
      assert s == t + [s[|s| - 1]];
    }
  }

  lemma {:induction false} ValuePrefix(s: string, k: nat)
    requires Digits(s) && k <= |s|
    ensures Value(s[..k]) <= Value(s)
    decreases |s|
  {
    if k < |s| {
      ValuePrefix(s[..|s| - 1], k);
      ValueZero(s[..|s| - 1]);
      assert s[..|s| - 1][..k] == s[..k];
    } else {
      assert s[..k] == s;
    }
  }

  predicate Zeros(s: string, i: nat) { forall k :: i <= k < |s| ==> s[k] == '0' || s[k] == '.' }

  lemma ZeroPart(s: string, i: nat, j: nat)
    requires i <= j <= |s| && Digits(s[i..j])
    ensures Value(s[i..j]) == 0 <==> forall k :: i <= k < j ==> s[k] == '0' || s[k] == '.'
  {
    var part := s[i..j];
    ValueZero(part);
    assert forall k :: 0 <= k < |part| ==> part[k] == s[i + k] && IsDigit(part[k]);
    assert forall k :: i <= k < j ==> s[k] == part[k - i];
  }

  lemma ZerosStep(s: string, i: nat, j: nat)
    requires i <= |s| && j == FirstDot(s, i) && Digits(s[i..j])
    ensures Zeros(s, i) <==> Value(s[i..j]) == 0 && (j < |s| ==> Zeros(s, j + 1))
  {
    ZeroPart(s, i, j);
  }

  ghost predicate AllZero(parts: seq<string>) { parts == [] || (Value(parts[0]) == 0 && AllZero(parts[1..])) }

  lemma HeadAndRest(part: string, rest: seq<string>)
    ensures AllZero([part] + rest) <==> Value(part) == 0 && AllZero(rest)
  {
    assert ([part] + rest)[1..] == rest;
  }

  lemma {:induction false} AllZeroIs(parts: seq<string>)
    ensures AllZero(parts) <==> forall i :: 0 <= i < |parts| ==> Value(parts[i]) == 0
  {
    if parts != [] {
      AllZeroIs(parts[1..]);
      assert forall i :: 0 < i < |parts| ==> parts[i] == parts[1..][i - 1];
    }
  }

  lemma ZerosFront(s: string, i: nat, j: nat, more: seq<string>)
    requires i <= |s| && j == FirstDot(s, i) && Digits(s[i..j])
    requires if j < |s| then Zeros(s, j + 1) <==> AllZero(more) else more == []
    ensures Zeros(s, i) <==> AllZero([s[i..j]] + more)
  {
    ZerosStep(s, i, j);
    HeadAndRest(s[i..j], more);
  }

  lemma {:induction false} ZerosAre(s: string, i: nat)
    requires i <= |s| && Octets(s, i)
    ensures Zeros(s, i) <==> AllZero(Parts(s, i))
    decreases |s| - i
  {
    var j := FirstDot(s, i);
    PartsStep(s, i, j);
    if j < |s| {
      ZerosAre(s, j + 1);
    }
    ZerosFront(s, i, j, if j < |s| then Parts(s, j + 1) else []);
  }

  // The first octet is not zero, or nothing but zeros and dots follows.
  predicate FirstOk(s: string) { Value(s[..FirstDot(s, 0)]) != 0 || Zeros(s, 0) }

  lemma QuadIs(s: string)
    ensures IsQuad(s) <==> s == "0" || (Count(s, 0) == 4 && Octets(s, 0) && FirstOk(s))
  {
    PartsAre(s, 0);
    var parts := Parts(s, 0);
    assert (forall p :: p in parts ==> Octet(p)) <==> forall i :: 0 <= i < |parts| ==> Octet(parts[i]);
    AllZeroIs(parts);
    if Octets(s, 0) {
      ZerosAre(s, 0);
    }
    assert s[0..FirstDot(s, 0)] == s[..FirstDot(s, 0)];
  }

  // The scanner at position `cp`, in the part that begins at `start`; `count` octets
  // have begun.
  ghost predicate Quads(s: string, start: nat, cp: nat, count: nat, value: int) {
    && start <= cp <= |s| && (start < cp ==> count > 0 && value == Value(s[start..cp]) && value <= 255)
    && (start == cp ==> cp < |s| || s == "")
    && (Octets(s, 0) <==> Octets(s, start))
    && Count(s, 0) + (if start < cp then 1 else 0) == count + Count(s, start)
    && Digits(s[start..cp])
    && (if count == 0 || (count == 1 && start < cp) then start == 0 else FirstOk(s))
  }

  lemma InOctet(s: string, start: nat, cp: nat, count: nat, value: int)
    requires Quads(s, start, cp, count, value)
    ensures var j := FirstDot(s, start);
            && j >= cp && (cp < |s| && s[cp] != '.' ==> j > cp)
            && (Octets(s, 0) <==> Octet(s[start..j]) && (j < |s| ==> Octets(s, j + 1)))
            && Count(s, start) == 1 + (if j < |s| then Count(s, j + 1) else 0)
  {
  }

  lemma ValueGrows(s: string, i: nat, cp: nat)
    requires i <= cp < |s| && Digits(s[i..cp]) && IsDigit(s[cp])
    ensures Digits(s[i..cp + 1])
    ensures Value(s[i..cp + 1]) == Value(s[i..cp]) * 10 + (s[cp] as int - '0' as int)
  {
    assert s[i..cp + 1][..cp - i] == s[i..cp];
    assert s[i..cp + 1] == s[i..cp] + [s[cp]];
  }

  lemma OctetPrefix(s: string, i: nat, cp: nat, j: nat)
    requires i <= cp <= j <= |s| && Octet(s[i..j])
    ensures Value(s[i..cp]) <= 255
  {
    ValuePrefix(s[i..j], cp - i);
    assert s[i..j][..cp - i] == s[i..cp];
  }

  function WithDigit(value: int, c: char, first: bool): int {
    (if first then 0 else value * 10) + (c as int - '0' as int)
  }

  lemma DigitValue(s: string, start: nat, cp: nat, count: nat, value: int)
    requires Quads(s, start, cp, count, value) && cp < |s| && IsDigit(s[cp])
    ensures Digits(s[start..cp + 1]) && Value(s[start..cp + 1]) == WithDigit(value, s[cp], start == cp)
  {
    ValueGrows(s, start, cp);
    assert start == cp ==> s[start..cp] == "";
  }

  // A digit goes on with an octet, or begins one, unless its value is too large.
  lemma Digit(s: string, start: nat, cp: nat, count: nat, value: int)
    requires Quads(s, start, cp, count, value) && cp < |s| && IsDigit(s[cp])
    requires WithDigit(value, s[cp], start == cp) <= 255
    ensures Quads(s, start, cp + 1, if start < cp then count else count + 1, WithDigit(value, s[cp], start == cp))
  {
    DigitValue(s, start, cp, count, value);
  }

  lemma DigitFits(s: string, start: nat, cp: nat, count: nat, value: int)
    requires Quads(s, start, cp, count, value) && cp < |s| && IsDigit(s[cp]) && Octets(s, 0)
    ensures WithDigit(value, s[cp], start == cp) <= 255
  {
    DigitValue(s, start, cp, count, value);
    OctetHere(s, start, cp, count, value);
    OctetPrefix(s, start, cp + 1, FirstDot(s, start));
  }

  lemma OctetHere(s: string, start: nat, cp: nat, count: nat, value: int)
    requires Quads(s, start, cp, count, value) && cp < |s| && s[cp] != '.' && Octets(s, 0)
    ensures cp < FirstDot(s, start) && Octet(s[start..FirstDot(s, start)])
  {
  }

  // A dot ends an octet, and is not the last character.
  lemma QuadDot(s: string, start: nat, cp: nat, count: nat, value: int)
    requires Quads(s, start, cp, count, value) && start < cp < |s| - 1 && s[cp] == '.'
    requires count > 1 || FirstOk(s)
    ensures Quads(s, cp + 1, cp + 1, count, value)
  {
  }

  lemma DotMisplaced(s: string, start: nat, cp: nat, count: nat, value: int)
    requires Quads(s, start, cp, count, value) && cp < |s| && s[cp] == '.' && (start == cp || cp == |s| - 1)
    ensures !Octets(s, 0)
  {
    InOctet(s, start, cp, count, value);
    assert FirstDot(s, start) == cp;
    if start == cp {
      assert s[start..cp] == "";
    } else {
      assert s[cp + 1..FirstDot(s, cp + 1)] == "";
    }
  }

  // After the first octet the scanner looks whether its value was zero.
  lemma FirstDotSeen(s: string, cp: nat, value: int)
    requires Quads(s, 0, cp, 1, value) && 0 < cp < |s| && s[cp] == '.'
    ensures FirstOk(s) <==> value != 0 || Zeros(s, 0)
  {
  }

  lemma NoQuad(s: string, start: nat, cp: nat, count: nat, value: int)
    requires Quads(s, start, cp, count, value) && cp < |s| && s[cp] != '.' && !IsDigit(s[cp])
    ensures !Octets(s, 0)
  {
    InOctet(s, start, cp, count, value);
    var part := s[start..FirstDot(s, start)];
    assert part[cp - start] == s[cp];
  }

  lemma QuadEnds(s: string, start: nat, count: nat, value: int)
    requires Quads(s, start, |s|, count, value)
    ensures IsQuad(s) <==> count == 4 || s == "0"
  {
    InOctet(s, start, |s|, count, value);
    QuadIs(s);
    assert FirstDot(s, start) == |s|;
  }

  // ------------------------------------------------------------------- the address

  function LastIndex(s: string, c: char): (i: int)
    ensures -1 <= i < |s| && (i >= 0 ==> s[i] == c)
  {
    if s == "" then -1 else if s[|s| - 1] == c then |s| - 1 else LastIndex(s[..|s| - 1], c)
  }

  // The part of the argument that is looked at: up to 127 characters, cut off at the
  // last bar, or else at the last colon.
  function Address(s: string): string {
    var addr := if |s| > 127 then s[..127] else s;
    if LastIndex(addr, '|') >= 0 then addr[..LastIndex(addr, '|')]
    else if LastIndex(addr, ':') >= 0 then addr[..LastIndex(addr, ':')]
    else addr
  }

  // strspn(s, "0.")
  method Span(s: string) returns (i: nat)
    ensures i <= |s| && (i == |s| <==> Zeros(s, 0))
  {
    i := 0;
    while i < |s| && (s[i] == '0' || s[i] == '.')
      invariant i <= |s| && forall k :: 0 <= k < i ==> s[k] == '0' || s[k] == '.'
    {
      i := i + 1;
    }
  }

  // Lines 249-263: whether a dot may stand at position cp.
  method DotFits(addr: string, ghost start: nat, cp: nat, inByte: bool, byteCount: nat, byteVal: int)
    returns (fits: bool)
    requires Quads(addr, start, cp, byteCount, byteVal) && (inByte <==> start < cp)
    requires cp < |addr| && addr[cp] == '.'
    ensures if fits then Quads(addr, cp + 1, cp + 1, byteCount, byteVal) else !IsQuad(addr)
  {
    QuadIs(addr);
    if !inByte || cp + 1 == |addr| {
      DotMisplaced(addr, start, cp, byteCount, byteVal);
      return false;
    }
    if byteCount == 1 {
      FirstDotSeen(addr, cp, byteVal);
      if byteVal == 0 {
        var i := Span(addr);
        if i < |addr| {
          return false;
        }
      }
    }
    QuadDot(addr, start, cp, byteCount, byteVal);
    return true;
  }

  // Lines 235-248: a digit at position cp.
  method TakeDigit(addr: string, ghost start: nat, cp: nat, inByte: bool, byteCount: nat, byteVal: int)
    returns (fits: bool, count: nat, value: int)
    requires Quads(addr, start, cp, byteCount, byteVal) && (inByte <==> start < cp)
    requires cp < |addr| && IsDigit(addr[cp])
    ensures if fits then Quads(addr, start, cp + 1, count, value) else !IsQuad(addr)
  {
    QuadIs(addr);
    count := byteCount;
    if !inByte {
      count := count + 1;
    }
    value := WithDigit(byteVal, addr[cp], !inByte);
    fits := value <= 255;
    if fits {
      Digit(addr, start, cp, byteCount, byteVal);
    } else if Octets(addr, 0) {
      DigitFits(addr, start, cp, byteCount, byteVal);
    }
  }

  // One turn of the loop of acl_valid_ipv4_hostaddr.
  method TakeChar(addr: string, ghost start: nat, cp: nat, inByte: bool, byteCount: nat, byteVal: int)
    returns (fits: bool, within: bool, count: nat, value: int, ghost begin: nat)
    requires Quads(addr, start, cp, byteCount, byteVal) && (inByte <==> start < cp) && cp < |addr|
    ensures if fits then Quads(addr, begin, cp + 1, count, value) && (within <==> begin < cp + 1) else !IsQuad(addr)
  {
    within, count, value, begin := false, byteCount, byteVal, start;
    if IsDigit(addr[cp]) {
      fits, count, value := TakeDigit(addr, start, cp, inByte, byteCount, byteVal);
      within := true;
    } else if addr[cp] == '.' {
      fits := DotFits(addr, start, cp, inByte, byteCount, byteVal);
      begin := cp + 1;
    } else {
      QuadIs(addr);
      NoQuad(addr, start, cp, byteCount, byteVal);
      fits := false;
    }
  }

  // The loop of acl_valid_ipv4_hostaddr, and its last test.
  method ScanQuad(addr: string) returns (valid: bool)
    ensures valid <==> IsQuad(addr)
  {
    QuadIs(addr);
    var byteCount: nat := 0;
    var inByte, byteVal, cp := false, 0, 0;
    ghost var start: nat := 0;
    while cp < |addr|
      invariant cp <= |addr| && (inByte <==> start < cp)
      invariant Quads(addr, start, cp, byteCount, byteVal)
    {
      var fits;
      fits, inByte, byteCount, byteVal, start := TakeChar(addr, start, cp, inByte, byteCount, byteVal);
      if !fits {
        return false;
      }
      cp := cp + 1;
    }
    QuadEnds(addr, start, byteCount, byteVal);
    return byteCount == 4 || addr == "0";
  }

  // acl_valid_ipv4_hostaddr
  method ValidIpv4(given: string) returns (valid: bool)
    requires '\0' !in given
    ensures valid <==> IsQuad(Address(given))
  {
    valid := ScanQuad(Address(given));
  }

  // --------------------------------------------------------------------- printing

  // An octet in decimal without leading zeros, and four of them between dots.
  function OctetText(u: int): string
    requires 0 <= u < 256
  {
    if u > 99 then [DigitChar(u / 100), DigitChar(u % 100 / 10), DigitChar(u % 10)]
    else if u > 9 then [DigitChar(u / 10), DigitChar(u % 10)]
    else [DigitChar(u)]
  }

  function DigitChar(d: int): (c: char)
    requires 0 <= d < 10
    ensures IsDigit(c) && c as int - '0' as int == d
  {
    ('0' as int + d) as char
  }

  predicate Address4(o: seq<int>) { |o| == 4 && forall i :: 0 <= i < 4 ==> 0 <= o[i] < 256 }

  // The first n octets, each followed by a dot.
  function Printed(o: seq<int>, n: nat): string
    requires Address4(o) && n <= 4
  {
    if n == 0 then "" else Printed(o, n - 1) + (OctetText(o[n - 1]) + ".")
  }

  // The text of an address: four octets between dots.
  function AddressText(o: seq<int>): (s: string)
    requires Address4(o)
  {
    Joined(OctetText(o[0]), OctetText(o[1]), OctetText(o[2]), OctetText(o[3]))
  }

  function Joined(a: string, b: string, c: string, d: string): string { a + "." + (b + "." + (c + "." + d)) }

  ghost predicate NoDot(s: string) { forall k :: 0 <= k < |s| ==> s[k] != '.' }

  lemma OctetLaws(u: int)
    requires 0 <= u < 256
    ensures 1 <= |OctetText(u)| <= 3 && Octet(OctetText(u)) && Value(OctetText(u)) == u
    ensures NoDot(OctetText(u))
  {
    if u > 99 {
      ValueTwo(DigitChar(u / 100), DigitChar(u % 100 / 10));
      assert OctetText(u)[..2] == [DigitChar(u / 100), DigitChar(u % 100 / 10)];
      assert u / 100 * 100 + u % 100 / 10 * 10 + u % 10 == u;
    } else if u > 9 {
      ValueTwo(DigitChar(u / 10), DigitChar(u % 10));
    }
  }

  lemma ValueTwo(a: char, b: char)
    ensures Value([a]) == a as int - '0' as int
    ensures Value([a, b]) == (a as int - '0' as int) * 10 + (b as int - '0' as int)
  {
  }

  lemma DotAfter(s: string, i: nat, j: nat)
    requires i <= j < |s| && s[j] == '.' && NoDot(s[i..j])
    ensures FirstDot(s, i) == j
  {
  }

  lemma LastPart(head: string, s: string, i: nat)
    requires i <= |s| && s[i..] == head
    requires NoDot(head)
    ensures Parts(s, i) == [head]
  {
    forall k | i <= k < |s| ensures s[k] != '.' {
      assert s[k] == head[k - i];
    }
    FirstDotIs(s, i, |s|);
    PartsStep(s, i, |s|);
    assert s[i..|s|] == s[i..];
  }

  lemma FirstDotIs(s: string, i: nat, j: nat)
    requires i <= j <= |s| && (j < |s| ==> s[j] == '.')
    requires forall k :: i <= k < j ==> s[k] != '.'
    ensures FirstDot(s, i) == j
  {
  }

  // Splitting at the first dot, if the parts after it are known.
  lemma PartsOf(head: string, s: string, i: nat, j: nat, rest: seq<string>)
    requires i <= j < |s| && FirstDot(s, i) == j && s[i..j] == head && Parts(s, j + 1) == rest
    ensures Parts(s, i) == [head] + rest
  {
  }

  // Where the parts of an address are.
  lemma Slices(a: string, b: string, c: string, d: string, s: string, i: nat, j: nat, k: nat)
    requires s == Joined(a, b, c, d) && i == |a| && j == i + 1 + |b| && k == j + 1 + |c|
    ensures i < j < k < |s| && s[i] == '.' && s[j] == '.' && s[k] == '.'
    ensures s[0..i] == a && s[i + 1..j] == b && s[j + 1..k] == c && s[k + 1..] == d
  {
  }

  lemma FourParts(a: string, b: string, c: string, d: string, s: string, i: nat, j: nat, k: nat)
    requires i < j < k < |s| && FirstDot(s, 0) == i && FirstDot(s, i + 1) == j && FirstDot(s, j + 1) == k
    requires s[0..i] == a && s[i + 1..j] == b && s[j + 1..k] == c && s[k + 1..] == d && NoDot(d)
    ensures Parts(s, 0) == [a] + ([b] + ([c] + [d]))
  {
    LastPart(d, s, k + 1);
    PartsOf(c, s, j + 1, k, [d]);
    PartsOf(b, s, i + 1, j, [c] + [d]);
    PartsOf(a, s, 0, i, [b] + ([c] + [d]));
  }

  lemma JoinedParts(a: string, b: string, c: string, d: string)
    requires NoDot(a) && NoDot(b) && NoDot(c) && NoDot(d)
    ensures Parts(Joined(a, b, c, d), 0) == [a] + ([b] + ([c] + [d]))
  {
    var s, i := Joined(a, b, c, d), |a|;
    var j := i + 1 + |b|;
    var k := j + 1 + |c|;
    Slices(a, b, c, d, s, i, j, k);
    DotAfter(s, 0, i);
    DotAfter(s, i + 1, j);
    DotAfter(s, j + 1, k);
    FourParts(a, b, c, d, s, i, j, k);
  }

  // The parts of the text of an address.
  lemma TextParts(o: seq<int>)
    requires Address4(o)
    ensures var a, b, c, d := OctetText(o[0]), OctetText(o[1]), OctetText(o[2]), OctetText(o[3]);
            Parts(AddressText(o), 0) == [a] + ([b] + ([c] + [d]))
  {
    OctetLaws(o[0]);
    OctetLaws(o[1]);
    OctetLaws(o[2]);
    OctetLaws(o[3]);
    JoinedParts(OctetText(o[0]), OctetText(o[1]), OctetText(o[2]), OctetText(o[3]));
  }

  lemma FourOctets(o: seq<int>, parts: seq<string>)
    requires Address4(o) && |parts| == 4
    requires forall i :: 0 <= i < 4 ==> parts[i] == OctetText(o[i])
    ensures forall i :: 0 <= i < 4 ==> Octet(parts[i]) && Value(parts[i]) == o[i]
  {
    forall i | 0 <= i < 4
      ensures Octet(parts[i]) && Value(parts[i]) == o[i]
    {
      OctetLaws(o[i]);
    }
  }

  // The text of an address reads back as its four octets.
  lemma AddressParts(o: seq<int>)
    requires Address4(o)
    ensures |Parts(AddressText(o), 0)| == 4
    ensures forall i :: 0 <= i < 4 ==> Octet(Parts(AddressText(o), 0)[i]) && Value(Parts(AddressText(o), 0)[i]) == o[i]
  {
    var a, b, c, d := OctetText(o[0]), OctetText(o[1]), OctetText(o[2]), OctetText(o[3]);
    TextParts(o);
    assert [a] + ([b] + ([c] + [d])) == [a, b, c, d];
    FourOctets(o, Parts(AddressText(o), 0));
  }

  lemma NoIndex(s: string, c: char)
    requires c !in s
    ensures LastIndex(s, c) == -1
  {
  }

  lemma AddressChars(o: seq<int>)
    requires Address4(o)
    ensures 7 <= |AddressText(o)| <= 15 && '|' !in AddressText(o) && ':' !in AddressText(o)
  {
    OctetLaws(o[0]);
    OctetLaws(o[1]);
    OctetLaws(o[2]);
    OctetLaws(o[3]);
  }

  // acl_valid_ipv4_hostaddr accepts the text of an address exactly if its first octet
  // is not zero or all are.
  lemma AddressAccepted(o: seq<int>)
    requires Address4(o)
    ensures Address(AddressText(o)) == AddressText(o)
    ensures IsQuad(AddressText(o)) <==> o[0] != 0 || o == [0, 0, 0, 0]
  {
    AddressParts(o);
    AddressChars(o);
    NoIndex(AddressText(o), '|');
    NoIndex(AddressText(o), ':');
  }

  lemma {:induction false} PrintedLength(o: seq<int>, n: nat)
    requires Address4(o) && n <= 4
    ensures 2 * n <= |Printed(o, n)| <= 4 * n
  {
    if n > 0 {
      PrintedLength(o, n - 1);
      OctetLaws(o[n - 1]);
    }
  }

  lemma Dotted(a: string, b: string, c: string, d: string)
    ensures a + "." + (b + ".") + (c + ".") + (d + ".") == Joined(a, b, c, d) + "."
  {
  }

  lemma PrintedAll(o: seq<int>)
    requires Address4(o)
    ensures Printed(o, 4) == AddressText(o) + "."
  {
    var a, b, c, d := OctetText(o[0]), OctetText(o[1]), OctetText(o[2]), OctetText(o[3]);
    assert Printed(o, 1) == a + ".";
    assert Printed(o, 2) == a + "." + (b + ".");
    assert Printed(o, 3) == a + "." + (b + ".") + (c + ".");
    Dotted(a, b, c, d);
  }

  // A text over a part of another one.
  function Overwritten(was: string, at: nat, text: string): string
    requires at + |text| <= |was|
  {
    was[..at] + text + was[at + |text|..]
  }

  lemma OverwriteNext(was: string, at: nat, text: string, c: char)
    requires at + |text| < |was|
    ensures Overwritten(was, at, text)[at + |text| := c] == Overwritten(was, at, text + [c])
  {
  }

  lemma OverwrittenParts(was: string, at: nat, text: string, now: string)
    requires at + |text| <= |was| && now == Overwritten(was, at, text)
    ensures now[..at + |text|] == was[..at] + text && now[at + |text|..] == was[at + |text|..]
  {
  }

  // *dst++ = c, behind the text written since.
  method PutChar(dst: array<char>, given: nat, c: char, ghost was: string, ghost at: nat, ghost text: string)
    returns (next: nat)
    requires at + |text| == given < dst.Length == |was| && dst[..] == Overwritten(was, at, text)
    modifies dst
    ensures next == given + 1 && dst[..] == Overwritten(was, at, text + [c])
  {
    OverwriteNext(was, at, text, c);
    dst[given] := c;
    next := given + 1;
  }

  lemma OctetSpelled(u: int)
    requires 0 <= u < 256
    ensures u > 99 ==>
              OctetText(u) == "" + [DigitChar(u / 100)] + [DigitChar(u % 100 / 10)] + [DigitChar(u % 100 % 10)]
    ensures 9 < u <= 99 ==> OctetText(u) == "" + [DigitChar(u / 10)] + [DigitChar(u % 10)]
    ensures u <= 9 ==> OctetText(u) == "" + [DigitChar(u)]
  {
    assert u % 100 % 10 == u % 10;
  }

  // The digits of an octet.
  method PutNumber(octet: int, dst: array<char>, given: nat) returns (next: nat)
    requires 0 <= octet < 256 && given + 4 <= dst.Length
    modifies dst
    ensures next == given + |OctetText(octet)| < dst.Length
    ensures dst[..] == Overwritten(old(dst[..]), given, OctetText(octet))
  {
    ghost var was := dst[..];
    ghost var text := "";
    assert was == Overwritten(was, given, "");
    var u := octet;
    next := given;
    if u > 99 {
      next := PutChar(dst, next, DigitChar(u / 100), was, given, text);
      text := text + [DigitChar(u / 100)];
      u := u % 100;
      next := PutChar(dst, next, DigitChar(u / 10), was, given, text);
      text := text + [DigitChar(u / 10)];
      u := u % 10;
    } else if u > 9 {
      next := PutChar(dst, next, DigitChar(u / 10), was, given, text);
      text := text + [DigitChar(u / 10)];
      u := u % 10;
    }
    next := PutChar(dst, next, DigitChar(u), was, given, text);
    text := text + [DigitChar(u)];
    OctetSpelled(octet);
  }

  // One turn of the loop of acl_inet_ntop4: an octet and a dot.
  method PutOctet(octet: int, dst: array<char>, given: nat) returns (next: nat)
    requires 0 <= octet < 256 && given + 4 <= dst.Length
    modifies dst
    ensures next == given + |OctetText(octet)| + 1 <= dst.Length
    ensures dst[..next] == old(dst[..given]) + (OctetText(octet) + ".")
    ensures dst[next..] == old(dst[next..])
  {
    ghost var was := dst[..];
    next := PutNumber(octet, dst, given);
    next := PutChar(dst, next, '.', was, given, OctetText(octet));
    OverwrittenParts(was, given, OctetText(octet) + ".", dst[..]);
  }

  // acl_inet_ntop4: with room for 16 characters it writes the text of the address
  // and a NUL, at most 16 characters, and nothing else; with less it writes nothing.
  method InetNtop4(src: seq<int>, dst: array<char>, size: nat) returns (ok: bool)
    requires Address4(src) && size <= dst.Length
    modifies dst
    ensures ok <==> size >= 16
    ensures ok ==> var text := AddressText(src) + "\0";
                   |text| <= 16 && dst[..|text|] == text && dst[|text|..] == old(dst[|text|..])
    ensures !ok ==> dst[..] == old(dst[..])
  {
    if size < 16 {
      return false;
    }
    var next := PutOctets(src, dst);
    PrintedAll(src);
    AddressChars(src);
    next := next - 1;
    dst[next] := '\0';
    ok := true;
  }

  method PutOctets(src: seq<int>, dst: array<char>) returns (next: nat)
    requires Address4(src) && dst.Length >= 16
    modifies dst
    ensures next == |Printed(src, 4)| <= 16 && dst[..next] == Printed(src, 4) && dst[next..] == old(dst[next..])
  {
    var n := 0;
    next := 0;
    while n < 4
      invariant 0 <= n <= 4 && next <= 4 * n && next == |Printed(src, n)|
      invariant dst[..next] == Printed(src, n) && dst[next..] == old(dst[next..])
    {
      PrintedLength(src, n + 1);
      next := PutOctet(src[n], dst, next);
      n := n + 1;
    }
  }
}
