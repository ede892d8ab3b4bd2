/**
 The two Base64 codecs (acl_base64.c, acl_vstring_base64.c) of section 4 of RFC
 4648. Bytes and characters are bit vectors of width 8. Between the two stand
 symbols: the values that the letters of the alphabet stand for, and the padding.
 */
module Base64 {

  import opened Collections

  const PAD: bv8 := 61
  const INVALID: bv8 := 255

  // ------------------------------------------------------------------ characters

  // The table to_b64_tab.
  function ToB64(v: bv8): bv8 {
    if v < 26 then 65 + v
    else if v < 52 then 71 + v
    else if v < 62 then v - 4
    else if v == 62 then 43 else 47
  }

  // The table un_b64_tab.
  function UnB64(c: bv8): bv8 {
    if 65 <= c <= 90 then c - 65
    else if 97 <= c <= 122 then c - 71
    else if 48 <= c <= 57 then c + 4
    else if c == 43 then 62
    else if c == 47 then 63
    else INVALID
  }

  datatype Symbol = Value(v: bv8) | Pad | Other

  function SymbolOf(c: bv8): Symbol { if c == PAD then Pad else if UnB64(c) == INVALID then Other else Value(UnB64(c)) }

  function CharOf(y: Symbol): bv8 {
    match y
    case Value(v) => ToB64(v)
    case Pad => PAD
    case Other => 0
  }

  // The letters are those of the alphabet, each for one value below 64; none of them
  // is the padding or a NUL.
  lemma TablesInverse(v: bv8, c: bv8)
    ensures v < 64 ==> SymbolOf(ToB64(v)) == Value(v)
    ensures SymbolOf(c).Value? ==> SymbolOf(c).v < 64 && ToB64(SymbolOf(c).v) == c && c != 0 && c < 128
    ensures UnB64(PAD) == INVALID && SymbolOf(0) == Other
  {
  }

  function Symbols(s: seq<bv8>): seq<Symbol> { seq(|s|, i requires 0 <= i < |s| => SymbolOf(s[i])) }

  function Text(q: seq<Symbol>): seq<bv8> { seq(|q|, i requires 0 <= i < |q| => CharOf(q[i])) }

  // -------------------------------------------------------------------- encoding

  // The four groups of six bits in three bytes.
  function Six0(a: bv8): bv8 { a >> 2 }

  function Six1(a: bv8, b: bv8): bv8 { ((a & 3) << 4) | (b >> 4) }

  function Six2(b: bv8, c: bv8): bv8 { ((b & 15) << 2) | (c >> 6) }

  function Six3(c: bv8): bv8 { c & 63 }

  function Quad(b: seq<bv8>): (q: seq<Symbol>)
    requires b != []
    ensures |q| == 4
  {
    if |b| == 1 then [Value(Six0(b[0])), Value(Six1(b[0], 0)), Pad, Pad]
    else if |b| == 2 then [Value(Six0(b[0])), Value(Six1(b[0], b[1])), Value(Six2(b[1], 0)), Pad]
    else [Value(Six0(b[0])), Value(Six1(b[0], b[1])), Value(Six2(b[1], b[2])), Value(Six3(b[2]))]
  }

  function Tail(b: seq<bv8>): seq<bv8> { if |b| > 3 then b[3..] else [] }

  function Encode(b: seq<bv8>): seq<Symbol>
    decreases |b|
  {
    if b == [] then [] else Quad(b) + Encode(Tail(b))
  }

  // -------------------------------------------------------------------- decoding

  function First(x: bv8, y: bv8): bv8 { (x << 2) | (y >> 4) }

  function Second(y: bv8, z: bv8): bv8 { (y << 4) | (z >> 2) }

  function Third(z: bv8, w: bv8): bv8 { (z << 6) | w }

  // What one group of four symbols decodes to, and how the decoder goes on.
  datatype Status = More | Done | Bad

  datatype Turn = Turn(status: Status, written: seq<bv8>)

  function At(q: seq<Symbol>, i: nat): Symbol { if i < |q| then q[i] else Other }

  // acl_base64_decode: padding must be at the end of the string.
  function AclTurn(q: seq<Symbol>): Turn {
    match (At(q, 0), At(q, 1), At(q, 2), At(q, 3))
    case (Value(x), Value(y), Pad, p) => Turn(if p.Pad? && |q| == 4 then Done else Bad, [First(x, y)])
    case (Value(x), Value(y), Value(z), Pad) => Turn(if |q| == 4 then Done else Bad, [First(x, y), Second(y, z)])
    case (Value(x), Value(y), Value(z), Value(w)) => Turn(More, [First(x, y), Second(y, z), Third(z, w)])
    case (Value(x), Value(y), Value(z), _) => Turn(Bad, [First(x, y), Second(y, z)])
    case (Value(x), Value(y), _, _) => Turn(Bad, [First(x, y)])
    case _ => Turn(Bad, [])
  }

  // What a decoder did: the bytes that it wrote, before it rejected if it did.
  datatype Outcome = Outcome(ok: bool, written: seq<bv8>)

  function Decode(q: seq<Symbol>): Outcome {
    if q == [] then Outcome(true, [])
    else
      var t := AclTurn(q);
      if t.status.More? && |q| >= 4 then var rest := Decode(q[4..]); Outcome(rest.ok, t.written + rest.written)
      else Outcome(t.status.Done?, t.written)
  }

  // acl_vstring_base64_decode: it stops at the first padding.
  function VstringTurn(q: seq<Symbol>): Turn
    requires |q| >= 4
  {
    match (q[0], q[1], q[2], q[3])
    case (Value(x), Value(y), Pad, _) => Turn(Done, [First(x, y)])
    case (Value(x), Value(y), Value(z), Pad) => Turn(Done, [First(x, y), Second(y, z)])
    case (Value(x), Value(y), Value(z), Value(w)) => Turn(More, [First(x, y), Second(y, z), Third(z, w)])
    case (Value(x), Value(y), Value(z), Other) => Turn(Bad, [First(x, y), Second(y, z)])
    case (Value(x), Value(y), Other, _) => Turn(Bad, [First(x, y)])
    case _ => Turn(Bad, [])
  }

  // It is null (not ok) for a length that is not a multiple of four.
  function VstringDecode(q: seq<Symbol>): Outcome {
    if |q| % 4 != 0 then Outcome(false, [])
    else if q == [] then Outcome(true, [])
    else
      var t := VstringTurn(q);
      if t.status.More? then var rest := VstringDecode(q[4..]); Outcome(rest.ok, t.written + rest.written)
      else Outcome(t.status.Done?, t.written)
  }

  // ------------------------------------------------------------------ the main laws

  lemma BitsForward(x: bv8, y: bv8, z: bv8, w: bv8)
    requires x < 64 && y < 64 && z < 64 && w < 64
    ensures Six0(First(x, y)) == x && Six1(First(x, y), Second(y, z)) == y
    ensures Six2(Second(y, z), Third(z, w)) == z && Six3(Third(z, w)) == w
    ensures Six1(First(x, y), 0) == y <==> y & 15 == 0
    ensures Six2(Second(y, z), 0) == z <==> z & 3 == 0
  {
  }

  function Padding(n: nat): nat { if n % 3 == 1 then 2 else if n % 3 == 2 then 1 else 0 }

  // Values below 64, and `pads` padding symbols at the end.
  ghost predicate Shaped(q: seq<Symbol>, pads: nat) {
    && pads <= |q|
    && (forall i :: 0 <= i < |q| - pads ==> q[i].Value? && q[i].v < 64)
    && (forall i :: |q| - pads <= i < |q| ==> q[i] == Pad)
  }

  lemma QuadShape(b: seq<bv8>)
    requires b != []
    ensures Shaped(Quad(b), if |b| < 3 then Padding(|b|) else 0)
  {
  }

  lemma JoinShape(q: seq<Symbol>, rest: seq<Symbol>, pads: nat)
    requires Shaped(q, 0) && Shaped(rest, pads)
    ensures Shaped(q + rest, pads)
  {
  }

  lemma LastThird(n: nat)
    ensures n > 3 ==> Padding(n) == Padding(n - 3) && (n + 2) / 3 == 1 + (n - 3 + 2) / 3
    ensures 0 < n <= 3 ==> (n + 2) / 3 == 1
  {
  }

  // Section 4: four symbols for every three bytes or part of them, all of them values
  // but for the padding at the end.
  lemma {:induction false} EncodedShape(b: seq<bv8>)
    ensures |Encode(b)| == 4 * ((|b| + 2) / 3) && Shaped(Encode(b), Padding(|b|))
    decreases |b|
  {
    if b != [] {
      var q, rest := Quad(b), Encode(Tail(b));
      QuadShape(b);
      EncodedShape(Tail(b));
      LastThird(|b|);
      if |b| > 3 {
        JoinShape(q, rest, Padding(|b|));
      } else {
        assert q + rest == q;
      }
    }
  }

  lemma QuadDecodes(b: seq<bv8>, rest: seq<Symbol>)
    requires b != []
    ensures |b| < 3 ==> AclTurn(Quad(b)) == Turn(Done, b)
    ensures |b| >= 3 ==> AclTurn(Quad(b) + rest) == Turn(More, b[..3])
  {
  }

  // Decoding gives back what was encoded, for every byte string.
  lemma {:induction false} RoundTrip(b: seq<bv8>)
    ensures Decode(Encode(b)) == Outcome(true, b)
    decreases |b|
  {
    if b != [] {
      var rest := Encode(Tail(b));
      RoundTrip(Tail(b));
      QuadDecodes(b, rest);
      if |b| < 3 {
        assert Encode(b) == Quad(b);
      } else {
        assert (Quad(b) + rest)[4..] == rest;
        assert b == b[..3] + Tail(b);
      }
    }
  }

  // The same through the text: both encoders produce it, and both decoders take it.
  lemma TextRoundTrip(b: seq<bv8>)
    ensures Symbols(Text(Encode(b))) == Encode(b)
    ensures Decode(Symbols(Text(Encode(b)))) == Outcome(true, b)
    ensures VstringDecode(Symbols(Text(Encode(b)))) == Outcome(true, b)
  {
    var q := Encode(b);
    EncodedShape(b);
    forall i | 0 <= i < |q| ensures SymbolOf(CharOf(q[i])) == q[i] {
      TablesInverse(if q[i].Value? then q[i].v else 0, 0);
    }
    assert Symbols(Text(q)) == q;
    RoundTrip(b);
    DecodersAgree(q);
  }

  // ----------------------------------------------------------- what is accepted

  function Pads(q: seq<Symbol>): nat {
    if |q| < 4 || q[|q| - 1] != Pad then 0 else if q[|q| - 2] != Pad then 1 else 2
  }

  ghost predicate Values(q: seq<Symbol>, n: nat)
    requires n <= |q|
  {
    forall i :: 0 <= i < n ==> q[i].Value?
  }

  // Groups of four values, except for one or two padding symbols at the end.
  ghost predicate WellFormed(q: seq<Symbol>) { |q| % 4 == 0 && Values(q, |q| - Pads(q)) }

  lemma ValuesTail(q: seq<Symbol>, n: nat)
    requires 4 <= n <= |q|
    ensures Values(q, n) <==> Values(q, 4) && Values(q[4..], n - 4)
  {
  }

  lemma WellFormedTail(q: seq<Symbol>)
    requires |q| > 4
    ensures WellFormed(q) <==> Values(q, 4) && WellFormed(q[4..])
    ensures |q| >= 8 ==> Pads(q) == Pads(q[4..])
  {
    if |q| >= 8 {
      ValuesTail(q, |q| - Pads(q));
    }
  }

  // acl_base64_decode accepts exactly the well-formed strings, and then writes
  // three bytes for each four characters, less one for each padding.
  lemma {:induction false} AcceptsExactly(q: seq<Symbol>)
    ensures Decode(q).ok <==> WellFormed(q)
    ensures Decode(q).ok ==> |Decode(q).written| == 3 * (|q| / 4) - Pads(q)
  {
    if |q| > 4 {
      AcceptsExactly(q[4..]);
      WellFormedTail(q);
    }
  }

  // ------------------------------------------------------------- the output buffer

  // The buffer of acl_base64_decode has room for this many bytes, final NUL included.
  function Room(q: seq<Symbol>): nat { 3 * (|q| / 4) + 1 }

  lemma AcceptedFits(q: seq<Symbol>)
    requires Decode(q).ok
    ensures |Decode(q).written| + 1 <= Room(q)
  {
  }

  // The bytes written before a string is rejected fit too, except exactly if three
  // letters are left over at the end of a string of letters: then one byte more is
  // written than there is room for.
  lemma {:induction false} WritesFit(q: seq<Symbol>)
    ensures |Decode(q).written| <= Room(q) <==> !(|q| % 4 == 3 && Values(q, |q|))
    ensures |Decode(q).written| <= Room(q) + 1
  {
    if |q| > 4 {
      WritesFit(q[4..]);
      ValuesTail(q, |q|);
    }
  }

  // "AAA" makes the decoder write 2 bytes where there is room for 1.
  lemma ThreeLetters()
    ensures var q := Symbols([65, 65, 65]);
            |Decode(q).written| == 2 && Room(q) == 1
  {
  }

  // ------------------------------------------------------------ the two decoders

  ghost predicate PadsLast(q: seq<Symbol>) { forall i :: 0 <= i < |q| && q[i] == Pad ==> i >= |q| - Pads(q) }

  lemma PadsLastTail(q: seq<Symbol>)
    requires |q| >= 8 && |q| % 4 == 0 && Values(q, 4)
    ensures PadsLast(q) <==> PadsLast(q[4..])
  {
  }

  // What acl_base64_decode accepts the other decoder decodes to the same bytes. The
  // other accepts more: exactly the strings whose padding is not at the end.
  lemma {:induction false} DecodersAgree(q: seq<Symbol>)
    ensures Decode(q).ok ==> VstringDecode(q) == Decode(q)
    ensures Decode(q).ok <==> VstringDecode(q).ok && PadsLast(q)
  {
    if |q| > 4 && |q| % 4 == 0 {
      DecodersAgree(q[4..]);
      if Values(q, 4) {
        PadsLastTail(q);
      } else {
        assert VstringDecode(q).ok ==> q[2] == Pad || q[3] == Pad;
      }
    } else {
      AcceptsExactly(q);
    }
  }

  // "QQ==QQ==" has text after its padding: only the other decoder takes it.
  lemma TextAfterPadding()
    ensures var q := Symbols([81, 81, PAD, PAD, 81, 81, PAD, PAD]);
            VstringDecode(q) == Outcome(true, [65]) && !Decode(q).ok
  {
  }

  // ----------------------------------------------------------------- canonical text

  // Every string of characters is proper.
  ghost predicate Proper(q: seq<Symbol>) { forall i :: 0 <= i < |q| && q[i].Value? ==> q[i].v < 64 }

  // The bits that the padding leaves over are zero.
  predicate Tight(q: seq<Symbol>) {
    match Pads(q)
    case 1 => q[|q| - 2].Value? && q[|q| - 2].v & 3 == 0
    case 2 => q[|q| - 3].Value? && q[|q| - 3].v & 15 == 0
    case _ => true
  }

  // Encoding what the first four symbols decode to.
  lemma QuadBack(q: seq<Symbol>, rest: seq<bv8>)
    requires |q| == 4 && WellFormed(q) && Proper(q) && (Pads(q) > 0 ==> rest == [])
    ensures var b := AclTurn(q).written + rest;
            b != [] && (Quad(b) == q <==> Tight(q))
  {
    if Pads(q) == 0 {
      BitsForward(q[0].v, q[1].v, q[2].v, q[3].v);
    } else if Pads(q) == 1 {
      BitsForward(q[0].v, q[1].v, q[2].v, 0);
    } else {
      BitsForward(q[0].v, q[1].v, 0, 0);
    }
  }

  lemma JoinEqual(a: seq<Symbol>, b: seq<Symbol>, q: seq<Symbol>)
    requires |a| == 4 <= |q|
    ensures a + b == q <==> a == q[..4] && b == q[4..]
  {
  }

  lemma FirstQuadShape(q: seq<Symbol>)
    requires WellFormed(q) && |q| > 4
    ensures WellFormed(q[..4]) && Pads(q[..4]) == 0 && Tight(q[..4])
    ensures WellFormed(q[4..]) && (Tight(q) <==> Tight(q[4..]))
  {
    WellFormedTail(q);
    assert forall i :: 0 <= i < 4 ==> q[..4][i] == q[i] && q[i].Value?;
  }

  lemma FirstQuad(q: seq<Symbol>, rest: seq<bv8>)
    requires WellFormed(q) && |q| > 4 && rest == Decode(q[4..]).written
    ensures WellFormed(q[..4]) && Pads(q[..4]) == 0 && Tight(q[..4])
    ensures WellFormed(q[4..]) && (Tight(q) <==> Tight(q[4..]))
    ensures var w := AclTurn(q[..4]).written;
            |w| == 3 && Decode(q).written == w + rest && rest != []
  {
    FirstQuadShape(q);
    AcceptsExactly(q[4..]);
    WellFormedTail(q);
    assert AclTurn(q) == AclTurn(q[..4]);
  }

  // An accepted string is what encoding its bytes gives exactly if it is tight.
  lemma {:induction false} Canonical(q: seq<Symbol>, b: seq<bv8>)
    requires WellFormed(q) && Proper(q) && b == Decode(q).written
    ensures Encode(b) == q <==> Tight(q)
    decreases |q|
  {
    if |q| > 4 {
      var rest := Decode(q[4..]).written;
      FirstQuad(q, rest);
      Canonical(q[4..], rest);
      QuadBack(q[..4], rest);
      assert Tail(b) == rest;
      JoinEqual(Quad(b), Encode(rest), q);
    } else if |q| == 4 {
      LastQuad(q, b);
    }
  }

  lemma LastQuad(q: seq<Symbol>, b: seq<bv8>)
    requires WellFormed(q) && Proper(q) && |q| == 4 && b == Decode(q).written
    ensures Encode(b) == q <==> Tight(q)
  {
    var t := AclTurn(q);
    QuadBack(q, []);
    assert b == t.written + [] by {
      assert Decode(q[4..]) == Outcome(true, []);
    }
    assert Encode(b) == Quad(b) + [];
    assert Quad(b) + [] == Quad(b);
  }

  // The same for the text: decoding and encoding an accepted text gives it back
  // exactly if it is tight.
  lemma CanonicalText(s: seq<bv8>)
    requires WellFormed(Symbols(s))
    ensures Text(Encode(Decode(Symbols(s)).written)) == s <==> Tight(Symbols(s))
  {
    var q := Symbols(s);
    var b := Decode(q).written;
    forall i | 0 <= i < |s| ensures CharOf(q[i]) == s[i] && (q[i].Value? ==> q[i].v < 64) {
      TablesInverse(0, s[i]);
      assert i >= |q| - Pads(q) ==> q[i] == Pad;
    }
    Canonical(q, b);
    assert Text(q) == s;
    TextRoundTrip(b);
  }

  // ---------------------------------------------------- what the tables do not hold

  // The reverse tables have 255 entries. acl_base64_decode guards all but the second
  // character of a group against the byte 255.
  predicate AclReadsBeyond(s: seq<bv8>)
    decreases |s|
  {
    |s| >= 2 && SymbolOf(s[0]).Value? &&
    (s[1] == INVALID || (|s| >= 4 && AclTurn(Symbols(s)).status.More? && AclReadsBeyond(s[4..])))
  }

  // The other decoder guards none, but stops at the first bad one.
  predicate GroupReadsBeyond(s: seq<bv8>)
    requires |s| >= 4
  {
    s[0] == INVALID || (SymbolOf(s[0]).Value? &&
    (s[1] == INVALID || (SymbolOf(s[1]).Value? &&
    (s[2] == INVALID || (SymbolOf(s[2]).Value? && s[3] == INVALID)))))
  }

  predicate VstringReadsBeyond(s: seq<bv8>)
    decreases |s|
  {
    |s| >= 4 && |s| % 4 == 0 &&
    (GroupReadsBeyond(s) || (VstringTurn(Symbols(s)).status.More? && VstringReadsBeyond(s[4..])))
  }

  lemma SymbolsDrop(s: seq<bv8>)
    requires |s| >= 4
    ensures Symbols(s)[4..] == Symbols(s[4..])
  {
  }

  // A string on which they read beyond their table is one they ought to reject.
  lemma {:induction false} BeyondIsBad(s: seq<bv8>)
    ensures AclReadsBeyond(s) ==> !Decode(Symbols(s)).ok
    ensures VstringReadsBeyond(s) ==> !VstringDecode(Symbols(s)).ok
    decreases |s|
  {
    assert SymbolOf(INVALID) == Other;
    if |s| >= 4 {
      SymbolsDrop(s);
      BeyondIsBad(s[4..]);
    }
  }

  // ------------------------------------------------------------------ the encoders

  lemma AclBits(x: bv8, y: bv8, z: bv8)
    ensures (x >> 2) & 63 == Six0(x) && (x << 4) & 63 == Six1(x, 0)
    ensures ((x << 4) | ((y >> 4) & 15)) & 63 == Six1(x, y) && (y << 2) & 63 == Six2(y, 0)
    ensures ((y << 2) | ((z >> 6) & 3)) & 63 == Six2(y, z)
  {
  }

  // One turn of the loop of acl_base64_encode, on the 1, 2 or 3 bytes left from
  // position `clear` on.
  method AclQuantum(b: seq<bv8>, clear: nat, code: array<bv8>, p: nat) returns (next: nat)
    requires clear < |b| && p + 4 <= code.Length
    modifies code
    ensures next == if |b| - clear < 3 then |b| else clear + 3
    ensures code[..p + 4] == old(code[..p]) + Text(Quad(b[clear..]))
  {
    var x, y := b[clear], 0;
    AclBits(x, if clear + 1 < |b| then b[clear + 1] else 0, if clear + 2 < |b| then b[clear + 2] else 0);
    next := clear + 1;
    var c0, c1, c2, c3 := ToB64((x >> 2) & 63), ToB64((x << 4) & 63), PAD, PAD;
    if next < |b| {
      y := b[next];
      next := next + 1;
      c1, c2 := ToB64(((x << 4) | ((y >> 4) & 15)) & 63), ToB64((y << 2) & 63);
      if next < |b| {
        x := b[next];
        next := next + 1;
        c2, c3 := ToB64(((y << 2) | ((x >> 6) & 3)) & 63), ToB64(x & 63);
      }
    }
    assert Text(Quad(b[clear..])) == [c0, c1, c2, c3];
    Put4(code, p, c0, c1, c2, c3);
  }

  method Put4(code: array<bv8>, p: nat, c0: bv8, c1: bv8, c2: bv8, c3: bv8)
    requires p + 4 <= code.Length
    modifies code
    ensures code[..p + 4] == old(code[..p]) + [c0, c1, c2, c3]
  {
    code[p] := c0;
    code[p + 1] := c1;
    code[p + 2] := c2;
    code[p + 3] := c3;
  }

  lemma TextJoins(a: seq<Symbol>, b: seq<Symbol>, before: seq<bv8>)
    ensures before + Text(a + b) == (before + Text(a)) + Text(b)
  {
  }

  // acl_base64_encode: all of its output, final NUL included, fits its buffer.
  method AclEncode(b: seq<bv8>) returns (code: array<bv8>)
    ensures code[..] == Text(Encode(b)) + [0]
    ensures code.Length == 4 * ((|b| + 2) / 3) + 1
  {
    EncodedShape(b);
    code := new bv8[4 * ((|b| + 2) / 3) + 1];
    var clear, p := 0, 0;
    while clear < |b|
      invariant clear <= |b| && p + |Encode(b[clear..])| == |Encode(b)|
      invariant code[..p] + Text(Encode(b[clear..])) == Text(Encode(b))
      decreases |b| - clear
    {
      ghost var rest, done := b[clear..], code[..p];
      TextJoins(Quad(rest), Encode(Tail(rest)), done);
      clear := AclQuantum(b, clear, code, p);
      assert Tail(rest) == b[clear..];
      p := p + 4;
      assert code[..p] == done + Text(Quad(rest));
    }
    assert code[..p] + [] == code[..p];
    code[p] := 0;
    assert code[..] == code[..p] + [0];
  }

  lemma VstringBits(x: bv8, y: bv8, z: bv8)
    ensures x >> 2 == Six0(x) && (x & 3) << 4 == Six1(x, 0) && ((x & 3) << 4) | (y >> 4) == Six1(x, y)
    ensures (y & 15) << 2 == Six2(y, 0) && ((y & 15) << 2) | (z >> 6) == Six2(y, z) && z & 63 == Six3(z)
  {
  }

  // One turn of the loop of acl_vstring_base64_encode.
  method VstringQuantum(cp: seq<bv8>) returns (q: seq<bv8>)
    requires cp != []
    ensures q == Text(Quad(cp))
  {
    var count := |cp|;
    VstringBits(cp[0], if count > 1 then cp[1] else 0, if count > 2 then cp[2] else 0);
    var c0 := ToB64(cp[0] >> 2);
    if count > 1 {
      var c1 := ToB64(((cp[0] & 3) << 4) | (cp[1] >> 4));
      if count > 2 {
        q := [c0, c1, ToB64(((cp[1] & 15) << 2) | (cp[2] >> 6)), ToB64(cp[2] & 63)];
      } else {
        q := [c0, c1, ToB64((cp[1] & 15) << 2), PAD];
      }
    } else {
      q := [c0, ToB64((cp[0] & 3) << 4), PAD, PAD];
    }
  }

  // acl_vstring_base64_encode: the same text.
  method VstringEncode(b: seq<bv8>) returns (result: seq<bv8>)
    ensures result == Text(Encode(b))
  {
    result := [];
    var cp, count := b, |b|;
    while count > 0
      invariant if count > 0 then count == |cp| else cp == []
      invariant result + Text(Encode(cp)) == Text(Encode(b))
      decreases count
    {
      TextJoins(Quad(cp), Encode(Tail(cp)), result);
      var q := VstringQuantum(cp);
      result := result + q;
      cp, count := Tail(cp), count - 3;
    }
  }

  // ------------------------------------------------------------------ the decoders

  // One turn of the loop of acl_base64_decode, on what its table and its tests for
  // the padding say of the characters; the string ends in a NUL.
  method AclGroup(q: seq<Symbol>) returns (st: Status, w: seq<bv8>)
    requires q != []
    ensures Turn(st, w) == AclTurn(q)
  {
    if !q[0].Value? || !At(q, 1).Value? {
      return Bad, [];
    }
    var x, y := q[0].v, q[1].v;
    var b0 := First(x, y);
    w := [b0];
    if At(q, 2).Pad? {
      return if !At(q, 3).Pad? || |q| != 4 then Bad else Done, w;
    }
    if !At(q, 2).Value? {
      return Bad, w;
    }
    x := q[2].v;
    var b1 := Second(y, x);
    w := [b0, b1];
    if At(q, 3).Pad? {
      return if |q| != 4 then Bad else Done, w;
    }
    if !At(q, 3).Value? {
      return Bad, w;
    }
    y := q[3].v;
    return More, [b0, b1, Third(x, y)];
  }

  // acl_base64_decode on a C string: the number returned, and the bytes written. Once
  // it has read beyond its table, C defines nothing.
  method AclDecode(s: seq<bv8>) returns (n: int, result: seq<bv8>, beyond: bool)
    requires 0 !in s
    ensures beyond == AclReadsBeyond(s)
    ensures !beyond ==> result == Decode(Symbols(s)).written
    ensures !beyond ==> n == if WellFormed(Symbols(s)) then |result| else -1
  {
    AcceptsExactly(Symbols(s));
    ghost var all := Decode(Symbols(s));
    result := [];
    var code := s;
    while code != []
      invariant all == Outcome(Decode(Symbols(code)).ok, result + Decode(Symbols(code)).written)
      invariant AclReadsBeyond(code) == AclReadsBeyond(s)
      decreases |code|
    {
      if |code| >= 2 && SymbolOf(code[0]).Value? && code[1] == INVALID {
        return -1, result, true;
      }
      var st, w := AclGroup(Symbols(code));
      if st.More? && |code| >= 4 {
        SymbolsDrop(code);
        Assoc(result, w, Decode(Symbols(code[4..])).written);
        result, code := result + w, code[4..];
      } else {
        assert Decode(Symbols(code)) == Outcome(st.Done?, w);
        result := result + w;
        return if st.Done? then |result| else -1, result, false;
      }
    }
    n, beyond := |result|, false;
  }

  // One turn of the loop of acl_vstring_base64_decode.
  method VstringGroup(q: seq<Symbol>) returns (st: Status, w: seq<bv8>)
    requires |q| >= 4
    ensures Turn(st, w) == VstringTurn(q)
  {
    if !q[0].Value? || !q[1].Value? {
      return Bad, [];
    }
    var ch0, ch1 := q[0].v, q[1].v;
    var b0 := First(ch0, ch1);
    w := [b0];
    if q[2].Pad? {
      return Done, w;
    }
    if !q[2].Value? {
      return Bad, w;
    }
    var ch2 := q[2].v;
    var b1 := Second(ch1, ch2);
    w := [b0, b1];
    if q[3].Pad? {
      return Done, w;
    }
    if !q[3].Value? {
      return Bad, w;
    }
    var ch3 := q[3].v;
    return More, [b0, b1, Third(ch2, ch3)];
  }

  // acl_vstring_base64_decode: `ok` is false where it returns null.
  method VstringDecoding(s: seq<bv8>) returns (ok: bool, result: seq<bv8>, beyond: bool)
    ensures beyond == VstringReadsBeyond(s)
    ensures !beyond ==> Outcome(ok, result) == VstringDecode(Symbols(s))
  {
    ok, result, beyond := false, [], false;
    if |s| % 4 != 0 {
      return;
    }
    ghost var all := VstringDecode(Symbols(s));
    var cp := s;
    while cp != []
      invariant |cp| % 4 == 0 && VstringReadsBeyond(cp) == VstringReadsBeyond(s)
      invariant all == Outcome(VstringDecode(Symbols(cp)).ok, result + VstringDecode(Symbols(cp)).written)
      decreases |cp|
    {
      if GroupReadsBeyond(cp) {
        return false, result, true;
      }
      var st, w := VstringGroup(Symbols(cp));
      if st.More? {
        SymbolsDrop(cp);
        Assoc(result, w, VstringDecode(Symbols(cp[4..])).written);
        result, cp := result + w, cp[4..];
      } else {
        assert VstringDecode(Symbols(cp)) == Outcome(st.Done?, w);
        return st.Done?, result + w, false;
      }
    }
    ok := true;
  }
}
