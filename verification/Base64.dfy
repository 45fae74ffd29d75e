/** The base64 codec and section 4 of RFC 4648: decoding undoes encoding, and
    encoding undoes decoding exactly for canonical strings; bit by bit, what
    either of them computes, and that the loops of the code compute it. */
module Base64 {

  import opened Bytes

  function Base64Chars(): string {
    "ABCDEFGHIJKLMNOPQRSTUVWXYZ" + "abcdefghijklmnopqrstuvwxyz" + "0123456789+/"
  }

  /** The value of a failed std::string::find on a 64-bit platform. */
  const NPOS := 0xFFFF_FFFF_FFFF_FFFF

  predicate IsBase64(c: char) {
    var n := c as int;
    n == 43 || 47 <= n <= 57 || 65 <= n <= 90 || 97 <= n <= 122
  }

  // ---------------------------------------------------------------- the alphabet

  function LetterCode(i: int): int {
    if i < 26 then i + 65 else if i < 52 then i + 71 else if i < 62 then i - 4 else if i == 62 then 43 else 47
  }

  lemma Upper(i: int)
    requires 0 <= i < 26
    ensures "ABCDEFGHIJKLMNOPQRSTUVWXYZ"[i] as int == i + 65
  {
  }

  lemma Lower(i: int)
    requires 0 <= i < 26
    ensures "abcdefghijklmnopqrstuvwxyz"[i] as int == i + 97
  {
  }

  lemma DigitsAndSigns(i: int)
    requires 0 <= i < 12
    ensures "0123456789+/"[i] as int == if i < 10 then i + 48 else if i == 10 then 43 else 47
  {
  }

  lemma TableLength()
    ensures |Base64Chars()| == 64
  {
  }

  lemma Table(i: int)
    requires 0 <= i < 64
    ensures |Base64Chars()| == 64 && Base64Chars()[i] as int == LetterCode(i)
  {
    if i < 26 {
      Upper(i);
    } else if i < 52 {
      Lower(i - 26);
    } else {
      DigitsAndSigns(i - 52);
    }
  }

  function Letter(v: Byte): char
    requires v < 64
  {
    BytesBelow(v, 64);
    Table(v as int);
    Base64Chars()[v as int]
  }

  function SextetCode(n: int): int {
    if n == 43 then 62 else if n == 47 then 63 else if n < 65 then n + 4 else if n < 97 then n - 65 else n - 71
  }

  /** The six bits that a letter stands for. */
  function Sextet(c: char): (v: Byte)
    requires IsBase64(c)
    ensures v < 64
  {
    BytesBelow(ToByte(SextetCode(c as int)), 64);
    ToByte(SextetCode(c as int))
  }

  /** Letters and six-bit values correspond one to one, and is_base64 accepts exactly the letters. */
  lemma LettersAreSextets(v: Byte)
    requires v < 64
    ensures IsBase64(Letter(v)) && Letter(v) != '=' && Sextet(Letter(v)) == v
  {
    BytesBelow(v, 64);
    Table(v as int);
    hide Base64Chars;
    SameByte(ToByte(v as int), v);
  }

  lemma SextetsAreLetters(c: char)
    requires IsBase64(c)
    ensures Letter(Sextet(c)) == c
  {
    Table(SextetCode(c as int));
    hide Base64Chars;
  }

  // ---------------------------------------------------------------- encoding and decoding

  function Encode(x: seq<Byte>): string {
    if |x| == 0 then ""
    else if |x| == 1 then [Letter(First(x[0])), Letter(Second(x[0], 0)), '=', '=']
    else if |x| == 2 then [Letter(First(x[0])), Letter(Second(x[0], x[1])), Letter(Third(x[1], 0)), '=']
    else Quad(x[0], x[1], x[2]) + Encode(x[3..])
  }

  function Quad(a: Byte, b: Byte, c: Byte): (s: string)
    ensures |s| == 4
  {
    [Letter(First(a)), Letter(Second(a, b)), Letter(Third(b, c)), Letter(Fourth(c))]
  }

  predicate Letters(s: string) {
    forall i :: 0 <= i < |s| ==> IsBase64(s[i])
  }

  /** The length of the longest prefix of letters. */
  function Prefix(s: string): (k: nat)
    ensures k <= |s| && Letters(s[..k]) && (k < |s| ==> !IsBase64(s[k]))
  {
    if s == "" || !IsBase64(s[0]) then 0
    else
      assert forall i :: 0 < i < |s| ==> s[i] == s[1..][i - 1];
      1 + Prefix(s[1..])
  }

  function Unpack(s: string): (x: seq<Byte>)
    requires Letters(s)
    ensures |x| == 3 * |s| / 4
  {
    if |s| < 2 then []
    else if |s| == 2 then [Byte0(Sextet(s[0]), Sextet(s[1]))]
    else if |s| == 3 then [Byte0(Sextet(s[0]), Sextet(s[1])), Byte1(Sextet(s[1]), Sextet(s[2]))]
    else Triple(Sextet(s[0]), Sextet(s[1]), Sextet(s[2]), Sextet(s[3])) + Unpack(s[4..])
  }

  function Triple(p: Byte, q: Byte, r: Byte, t: Byte): seq<Byte> {
    [Byte0(p, q), Byte1(q, r), Byte2(r, t)]
  }

  function Decode(s: string): seq<Byte> {
    Unpack(s[..Prefix(s)])
  }

  /** Four letters per three bytes, rounded up. */
  lemma {:induction false} EncodedLength(x: seq<Byte>)
    ensures |Encode(x)| == 4 * ((|x| + 2) / 3)
  {
    if |x| >= 3 {
      EncodedLength(x[3..]);
    }
  }

  function Pads(n: nat): nat {
    (3 - n % 3) % 3
  }

  predicate Padded(s: string, k: nat) {
    forall i :: k <= i < |s| ==> s[i] == '='
  }

  /** The letters are followed by as many '=' as there are bytes missing in the last group of three. */
  lemma {:induction false} EncodedPadding(x: seq<Byte>)
    ensures var e := Encode(x);
      |e| == Prefix(e) + Pads(|x|) && Padded(e, Prefix(e))
  {
    if |x| < 3 {
      ShortPadding(x);
    } else {
      EncodedPadding(x[3..]);
      LongPadding(x);
    }
  }

  lemma ShortPadding(x: seq<Byte>)
    requires |x| < 3
    ensures var e := Encode(x);
      |e| == Prefix(e) + Pads(|x|) && Padded(e, Prefix(e))
  {
    hide Prefix, Letter, First, Second, Third;
    if |x| > 0 {
      ShortPrefix(x);
    }
  }

  lemma PadsRepeat(n: nat)
    requires n >= 3
    ensures Pads(n) == Pads(n - 3)
  {
  }

  lemma LongPadding(x: seq<Byte>)
    requires |x| >= 3
    requires var e := Encode(x[3..]);
      |e| == Prefix(e) + Pads(|x| - 3) && Padded(e, Prefix(e))
    ensures var e := Encode(x);
      |e| == Prefix(e) + Pads(|x|) && Padded(e, Prefix(e))
  {
    hide Encode, Pads, Padded, Quad, Prefix, Letter;
    LongPrefix(x);
    PadsRepeat(|x|);
    PaddedAfter(Quad(x[0], x[1], x[2]), Encode(x[3..]), Prefix(Encode(x[3..])));
  }

  lemma PaddedAfter(q: string, s: string, k: nat)
    requires |q| == 4
    ensures Padded(q + s, 4 + k) <==> Padded(s, k)
  {
    assert forall i :: 0 <= i < |s| ==> s[i] == (q + s)[4 + i];
    assert forall i :: 4 <= i < |q + s| ==> (q + s)[i] == s[i - 4];
  }

  lemma LongPrefix(x: seq<Byte>)
    requires |x| >= 3
    ensures Encode(x) == Quad(x[0], x[1], x[2]) + Encode(x[3..])
    ensures |Encode(x)| == 4 + |Encode(x[3..])| && Prefix(Encode(x)) == 4 + Prefix(Encode(x[3..]))
  {
    QuadLetters(x[0], x[1], x[2]);
    hide Letter, Sextet, First, Second, Third, Fourth;
    PrefixAfter(Quad(x[0], x[1], x[2]), Encode(x[3..]));
  }

  lemma ShortPrefix(x: seq<Byte>)
    requires 1 <= |x| <= 2
    ensures Prefix(Encode(x)) == |x| + 1
  {
    hide Prefix, Letter, Sextet, First, Second, Third, Fourth;
    LettersAreSextets(First(x[0]));
    if |x| == 1 {
      LettersAreSextets(Second(x[0], 0));
    } else {
      LettersAreSextets(Second(x[0], x[1]));
      LettersAreSextets(Third(x[1], 0));
    }
    PrefixIs(Encode(x), |x| + 1);
  }

  lemma QuadLetters(a: Byte, b: Byte, c: Byte)
    ensures Letters(Quad(a, b, c))
    ensures Sextet(Quad(a, b, c)[0]) == First(a) && Sextet(Quad(a, b, c)[1]) == Second(a, b)
    ensures Sextet(Quad(a, b, c)[2]) == Third(b, c) && Sextet(Quad(a, b, c)[3]) == Fourth(c)
  {
    hide Letter, Sextet, First, Second, Third, Fourth;
    LettersAreSextets(First(a));
    LettersAreSextets(Second(a, b));
    LettersAreSextets(Third(b, c));
    LettersAreSextets(Fourth(c));
  }

  /** The longest prefix is the only one that is followed by no letter. */
  lemma {:induction false} PrefixIs(s: string, k: nat)
    requires k <= |s| && Letters(s[..k]) && (k < |s| ==> !IsBase64(s[k]))
    ensures Prefix(s) == k
  {
    assert forall i :: 0 <= i < k ==> s[..k][i] == s[i];
    assert forall i :: 0 <= i < Prefix(s) ==> s[..Prefix(s)][i] == s[i];
  }

  lemma PrefixAfter(q: string, s: string)
    requires Letters(q)
    ensures Prefix(q + s) == |q| + Prefix(s)
  {
    var k := Prefix(s);
    assert (q + s)[..|q| + k] == q + s[..k];
    PrefixIs(q + s, |q| + k);
  }

  /** Decoding an encoding returns the bytes. */
  lemma {:induction false} DecodeOfEncode(x: seq<Byte>)
    ensures Decode(Encode(x)) == x
  {
    hide Letter, Sextet, First, Second, Third, Fourth, Byte0, Byte1, Byte2;
    if 1 <= |x| <= 2 {
      ShortPrefix(x);
    }
    if |x| == 1 {
      LettersAreSextets(First(x[0]));
      LettersAreSextets(Second(x[0], 0));
      BytesReturn(x[0], 0, 0);
    } else if |x| == 2 {
      LettersAreSextets(First(x[0]));
      LettersAreSextets(Second(x[0], x[1]));
      LettersAreSextets(Third(x[1], 0));
      BytesReturn(x[0], x[1], 0);
    } else if |x| >= 3 {
      DecodeOfEncode(x[3..]);
      QuadLetters(x[0], x[1], x[2]);
      BytesReturn(x[0], x[1], x[2]);
      DecodeAfter(Quad(x[0], x[1], x[2]), Encode(x[3..]));
    }
  }

  lemma DecodeAfter(q: string, s: string)
    requires |q| == 4 && Letters(q)
    ensures Decode(q + s) == Triple(Sextet(q[0]), Sextet(q[1]), Sextet(q[2]), Sextet(q[3])) + Decode(s)
  {
    hide Sextet, Triple;
    PrefixAfter(q, s);
    var k := Prefix(s);
    assert (q + s)[..4 + k] == q + s[..k];
    assert (q + s[..k])[4..] == s[..k];
  }

  /**
   * Decoding depends on the longest prefix of letters alone, and yields 3k/4 bytes for k letters, rounded down:
   * what a failed find leaves in the unused slots is never output.
   */
  lemma DecodedPrefix(s: string, t: string)
    requires t == "" || !IsBase64(t[0])
    ensures |Decode(s)| == 3 * Prefix(s) / 4
    ensures Decode(s[..Prefix(s)] + t) == Decode(s)
  {
    var k := Prefix(s);
    assert (s[..k] + t)[..k] == s[..k];
    PrefixIs(s[..k] + t, k);
  }

  /** Whole groups of four, at most two paddings, and no bits set after the last byte. */
  predicate Canonical(s: string) {
    var k := Prefix(s);
    && |s| % 4 == 0 && |s| - k <= 2 && Padded(s, k)
    && (|s| - k == 2 ==> Sextet(s[..k][k - 1]) & 0x0f == 0)
    && (|s| - k == 1 ==> Sextet(s[..k][k - 1]) & 0x03 == 0)
  }

  /** Exactly the canonical strings are returned by encoding what they decode to. */
  lemma EncodeOfDecode(s: string)
    ensures Encode(Decode(s)) == s <==> Canonical(s)
  {
    if Canonical(s) {
      CanonicalReturns(s);
    }
    EncodedIsCanonical(Decode(s));
  }

  lemma {:induction false} EncodedIsCanonical(x: seq<Byte>)
    ensures Canonical(Encode(x))
  {
    hide Letter, Sextet, First;
    EncodedPadding(x);
    EncodedLength(x);
    if |x| == 1 {
      LettersAreSextets(Second(x[0], 0));
    } else if |x| == 2 {
      LettersAreSextets(Third(x[1], 0));
    } else if |x| >= 3 {
      EncodedIsCanonical(x[3..]);
      QuadLetters(x[0], x[1], x[2]);
      PrefixAfter(Quad(x[0], x[1], x[2]), Encode(x[3..]));
      CanonicalAfter(Quad(x[0], x[1], x[2]), Encode(x[3..]));
    }
  }

  lemma CanonicalAfter(q: string, s: string)
    requires |q| == 4 && Prefix(q + s) == 4 + Prefix(s)
    ensures Canonical(q + s) <==> Canonical(s)
  {
    var k := Prefix(s);
    PaddedAfter(q, s, k);
    hide Sextet, Padded;
    if k > 0 {
      assert (q + s)[..4 + k][4 + k - 1] == s[..k][k - 1];
    }
  }

  lemma {:induction false} CanonicalReturns(s: string)
    requires Canonical(s)
    ensures Encode(Decode(s)) == s
    decreases |s|
  {
    hide Letter, Sextet, First, Second, Third, Fourth, Byte0, Byte1, Byte2;
    var k := Prefix(s);
    var p := s[..k];
    if s == "" {
    } else if k >= 4 {
      assert s == s[..4] + s[4..];
      assert Letters(s[..4]) by {
        assert forall i :: 0 <= i < 4 ==> s[..4][i] == p[i];
      }
      PrefixAfter(s[..4], s[4..]);
      CanonicalAfter(s[..4], s[4..]);
      CanonicalReturns(s[4..]);
      DecodeAfter(s[..4], s[4..]);
      QuadReturns(s[..4]);
      assert Decode(s)[3..] == Decode(s[4..]);
    } else {
      assert |s| == 4;
      SextetsAreLetters(p[0]);
      SextetsAreLetters(p[1]);
      SextetsReturn(Sextet(p[0]), Sextet(p[1]), 0, 0);
      if k == 2 {
        LastSextet(Sextet(p[0]), Sextet(p[1]), 0);
      } else {
        SextetsAreLetters(p[2]);
        SextetsReturn(Sextet(p[0]), Sextet(p[1]), Sextet(p[2]), 0);
        LastSextet(Sextet(p[0]), Sextet(p[1]), Sextet(p[2]));
      }
    }
  }

  lemma QuadReturns(q: string)
    requires |q| == 4 && Letters(q)
    ensures var x := Triple(Sextet(q[0]), Sextet(q[1]), Sextet(q[2]), Sextet(q[3]));
      Quad(x[0], x[1], x[2]) == q
  {
    hide Letter, Sextet, First, Second, Third, Fourth, Byte0, Byte1, Byte2;
    SextetsReturn(Sextet(q[0]), Sextet(q[1]), Sextet(q[2]), Sextet(q[3]));
    SextetsAreLetters(q[0]);
    SextetsAreLetters(q[1]);
    SextetsAreLetters(q[2]);
    SextetsAreLetters(q[3]);
  }

  // ---------------------------------------------------------------- the bits of both forms

  /** Byte r of group g is joined from two neighbouring letters of that group. */
  lemma {:induction false} UnpackedByte(p: string, g: nat, r: nat)
    requires Letters(p) && r < 3 && 3 * g + r < |Unpack(p)|
    ensures 4 * g + r + 1 < |p| && Unpack(p)[3 * g + r] == Joined(p, 4 * g, r)
  {
    hide Joined, Unpack;
    if g == 0 {
      FirstBytes(p, r);
    } else {
      LaterByte(p, 3 * g + r);
      UnpackedByte(p[4..], g - 1, r);
      JoinedLater(p, 4 * g, r);
    }
  }

  lemma FirstBytes(p: string, m: nat)
    requires Letters(p) && m < |Unpack(p)| && m < 3
    ensures m + 1 < |p| && Unpack(p)[m] == Joined(p, 0, m)
  {
    hide Sextet, Byte0, Byte1, Byte2;
  }

  lemma LaterByte(p: string, m: nat)
    requires Letters(p) && 3 <= m < |Unpack(p)|
    ensures |p| > 4 && m - 3 < |Unpack(p[4..])| && Unpack(p)[m] == Unpack(p[4..])[m - 3]
  {
    hide Sextet, Triple;
    assert |p| >= 4;
    assert Unpack(p) == Triple(Sextet(p[0]), Sextet(p[1]), Sextet(p[2]), Sextet(p[3])) + Unpack(p[4..]);
    hide Unpack;
    ThreeBytes(Sextet(p[0]), Sextet(p[1]), Sextet(p[2]), Sextet(p[3]));
  }

  lemma ThreeBytes(p: Byte, q: Byte, r: Byte, t: Byte)
    ensures |Triple(p, q, r, t)| == 3
  {
  }

  lemma JoinedLater(p: string, g: nat, r: nat)
    requires Letters(p) && r < 3 && 4 <= g && g + r + 1 < |p|
    ensures Joined(p[4..], g - 4, r) == Joined(p, g, r)
  {
  }

  function Joined(p: string, g: nat, r: nat): Byte
    requires Letters(p) && r < 3 && g + r + 1 < |p|
  {
    var v, w := Sextet(p[g + r]), Sextet(p[g + r + 1]);
    if r == 0 then Byte0(v, w) else if r == 1 then Byte1(v, w) else Byte2(v, w)
  }

  /** Bit n of the decoded bytes is bit n of the six-bit groups of the letters. */
  lemma DecodedBit(s: string, m: nat, i: nat)
    requires m < |Decode(s)| && i < 8
    ensures var n := 8 * m + i;
      n / 6 < Prefix(s) && Bit(Decode(s)[m], i) == Bit(Sextet(s[..Prefix(s)][n / 6]), n % 6 + 2)
  {
    hide Sextet, Joined, Bit, Unpack;
    UnpackedByte(s[..Prefix(s)], m / 3, m % 3);
    assert 3 * (m / 3) + m % 3 == m;
    SameBit(m, i);
    JoinedBit(s[..Prefix(s)], m / 3 * 4, m % 3, i);
  }

  lemma JoinedBit(p: string, g: nat, r: nat, i: nat)
    requires Letters(p) && r < 3 && g + r + 1 < |p| && i < 8
    ensures var own := 6 - 2 * r;
      Bit(Joined(p, g, r), i) ==
      if i < own then Bit(Sextet(p[g + r]), i + 2 * r + 2) else Bit(Sextet(p[g + r + 1]), i - own + 2)
  {
    hide Sextet, Byte0, Byte1, Byte2, Bit;
    var v, w := Sextet(p[g + r]), Sextet(p[g + r + 1]);
    if r == 0 {
      EachBitOfByte0(v, w, i);
    } else if r == 1 {
      EachBitOfByte1(v, w, i);
    } else {
      EachBitOfByte2(v, w, i);
    }
  }

  lemma SameBit(m: nat, i: nat)
    requires i < 8
    ensures var n, g, r, own := 8 * m + i, m / 3 * 4, m % 3, 6 - 2 * (m % 3);
      if i < own then n / 6 == g + r && n % 6 == i + 2 * r else n / 6 == g + r + 1 && n % 6 == i - own
  {
    assert 8 * m + i == 6 * (m / 3 * 4) + 8 * (m % 3) + i;
  }

  lemma DecodedBitAt(s: string, n: nat)
    requires n < 8 * |Decode(s)|
    ensures n / 6 < Prefix(s) && Bit(Decode(s)[n / 8], n % 8) == Bit(Sextet(s[..Prefix(s)][n / 6]), n % 6 + 2)
  {
    hide Sextet, Decode, Bit, Prefix;
    DecodedBit(s, n / 8, n % 8);
    assert 8 * (n / 8) + n % 8 == n;
  }

  /** Section 4 of RFC 4648: the letters spell the bits of the bytes, followed by zeros up to a whole letter. */
  lemma EncodedBit(x: seq<Byte>, n: nat)
    requires n < 6 * Prefix(Encode(x))
    ensures var p := Encode(x)[..Prefix(Encode(x))];
      Bit(Sextet(p[n / 6]), n % 6 + 2) == (n < 8 * |x| && Bit(x[n / 8], n % 8))
  {
    hide Sextet, Encode, Decode, Bit, Canonical, Prefix;
    DecodeOfEncode(x);
    if n < 8 * |x| {
      DecodedBitAt(Encode(x), n);
    } else {
      EncodedIsCanonical(x);
      CanonicalBit(x, n);
    }
  }

  lemma CanonicalBit(x: seq<Byte>, n: nat)
    requires 8 * |x| <= n < 6 * Prefix(Encode(x)) && Canonical(Encode(x))
    ensures !Bit(Sextet(Encode(x)[..Prefix(Encode(x))][n / 6]), n % 6 + 2)
  {
    hide Sextet, Encode, Bit, Padded, Pads, Prefix;
    var e, d := Encode(x), Pads(|x|);
    EncodedPadding(x);
    EncodedLength(x);
    PaddingBits(|x|, Prefix(e), n);
    ZeroBit(Sextet(e[..Prefix(e)][Prefix(e) - 1]), d, n % 6);
  }

  lemma PaddingBits(size: nat, k: nat, n: nat)
    requires 4 * ((size + 2) / 3) == k + Pads(size) && 8 * size <= n < 6 * k
    ensures 8 * size == 6 * k - 2 * Pads(size) && 1 <= Pads(size) <= 2
    ensures n / 6 == k - 1 && n % 6 >= 6 - 2 * Pads(size)
  {
    assert 8 * size == 6 * k - 2 * Pads(size);
    hide Pads;
    assert 6 * (k - 1) <= n < 6 * k;
  }

  lemma ZeroBit(v: Byte, d: nat, i: nat)
    requires d == 1 || d == 2
    requires if d == 2 then v & 0x0f == 0 else v & 0x03 == 0
    requires 6 - 2 * d <= i < 6
    ensures !Bit(v, i + 2)
  {
  }

  // ---------------------------------------------------------------- the loops of the source

  /** std::string::find in the alphabet. */
  method Find(n: int) returns (r: nat)
    ensures |Base64Chars()| == 64 && (r < 64 || r == NPOS)
    ensures r < 64 ==> Base64Chars()[r] as int == n
    ensures r == NPOS ==> forall k :: 0 <= k < 64 ==> Base64Chars()[k] as int != n
  {
    hide Base64Chars;
    TableLength();
    r := 0;
    while r < 64
      invariant r <= 64 && forall k :: 0 <= k < r ==> Base64Chars()[k] as int != n
    {
      if Base64Chars()[r] as int == n {
        return;
      }
      r := r + 1;
    }
    r := NPOS;
  }

  /** What the slot of a letter becomes; for a letter, a find does not fail. */
  method FindSextet(b: Byte) returns (v: Byte)
    ensures forall c: char :: IsBase64(c) && c as int == b as int ==> v == Sextet(c)
  {
    hide Base64Chars, Sextet, IsBase64, Truncated;
    var r := Find(b as int);
    v := Truncated(r);
    forall c: char | IsBase64(c) && c as int == b as int ensures v == Sextet(c) {
      Found(c, r);
    }
  }

  lemma Found(c: char, r: nat)
    requires IsBase64(c) && |Base64Chars()| == 64 && (r < 64 || r == NPOS)
    requires r < 64 ==> Base64Chars()[r] as int == c as int
    requires r == NPOS ==> forall k :: 0 <= k < 64 ==> Base64Chars()[k] as int != c as int
    ensures Truncated(r) == Sextet(c)
  {
    hide Base64Chars, Truncated, LetterCode, Sextet, SextetCode, IsBase64;
    Codes(c, if r < 64 then r else 0);
    assert r < 64 by {
      Table(SextetCode(c as int));
    }
    Table(r);
    SextetOf(c, r);
  }

  /** The cast of a position, or of a failed find, to `unsigned char`. */
  function Truncated(r: nat): Byte {
    ToByte(r % 256)
  }

  lemma NotTruncated(r: nat)
    requires r < 256
    ensures Truncated(r) == ToByte(r)
  {
    hide ToByte;
    assert r % 256 == r;
  }

  lemma SextetOf(c: char, r: nat)
    requires IsBase64(c) && r < 64 && SextetCode(c as int) == r
    ensures Truncated(r) == Sextet(c)
  {
    hide ToByte, SextetCode, IsBase64, Truncated;
    NotTruncated(r);
  }

  lemma Codes(c: char, r: nat)
    requires IsBase64(c) && r < 64
    ensures 0 <= SextetCode(c as int) < 64 && LetterCode(SextetCode(c as int)) == c as int && SextetCode(LetterCode(r)) == r
  {
  }

  method FillSextets(charArray3: array<Byte>, charArray4: array<Byte>)
    requires charArray3.Length == 3 && charArray4.Length == 4 && charArray3 != charArray4
    modifies charArray4
    ensures Spells(charArray4[..], Quad(charArray3[0], charArray3[1], charArray3[2]), 4)
  {
    hide First, Second, Third, Fourth, Letter;
    charArray4[0] := First(charArray3[0]);
    charArray4[1] := Second(charArray3[0], charArray3[1]);
    charArray4[2] := Third(charArray3[1], charArray3[2]);
    charArray4[3] := Fourth(charArray3[2]);
  }

  /** The first `count` slots hold the values that the text spells. */
  predicate Spells(v: seq<Byte>, text: string, count: nat)
    requires |v| == 4 && |text| == 4 && count <= 4
  {
    forall k :: 0 <= k < count ==> v[k] < 64 && Letter(v[k]) == text[k]
  }

  method AppendLetters(ret: string, charArray4: array<Byte>, ghost text: string, count: nat) returns (ret': string)
    requires charArray4.Length == 4 && |text| == 4 && count <= 4 && Spells(charArray4[..], text, count)
    ensures ret' == ret + text[..count]
  {
    hide Letter;
    ret' := ret;
    var j := 0;
    while j < count
      invariant j <= count && ret' == ret + text[..j]
    {
      assert charArray4[..][j] == charArray4[j];
      ret' := ret' + [Letter(charArray4[j])];
      j := j + 1;
    }
  }

  function Equals(n: nat): string {
    if n == 0 then "" else Equals(n - 1) + "="
  }

  method Base64Encode(input: seq<Byte>) returns (ret: string)
    ensures ret == Encode(input)
  {
    hide Encode, Quad, Spells;
    var charArray3, charArray4 := new Byte[3], new Byte[4];
    ret := "";
    var i, pos, len := 0, 0, |input|;
    assert charArray3[..0] + input[0..] == input;
    while len != 0
      invariant 0 <= i < 3 && 0 <= pos && 0 <= len && pos + len == |input|
      invariant ret + Encode(charArray3[..i] + input[pos..]) == Encode(input)
    {
      len := len - 1;
      ghost var before := charArray3[..i] + input[pos..];
      charArray3[i] := input[pos];
      pos, i := pos + 1, i + 1;
      assert charArray3[..i] + input[pos..] == before;
      if i == 3 {
        ret := EncodeGroup(ret, charArray3, charArray4, input[pos..]);
        i := 0;
        assert charArray3[..0] + input[pos..] == input[pos..];
      }
    }
    assert charArray3[..i] + input[pos..] == charArray3[..i];
    ret := EncodeRest(ret, charArray3, charArray4, i);
  }

  method EncodeGroup(ret: string, charArray3: array<Byte>, charArray4: array<Byte>, ghost rest: seq<Byte>) returns (ret': string)
    requires charArray3.Length == 3 && charArray4.Length == 4 && charArray3 != charArray4
    modifies charArray4
    ensures ret' + Encode(rest) == ret + Encode(charArray3[..3] + rest)
  {
    hide Quad, Spells;
    FillSextets(charArray3, charArray4);
    ghost var text := Quad(charArray3[0], charArray3[1], charArray3[2]);
    assert (charArray3[..3] + rest)[3..] == rest;
    hide Encode;
    ret' := AppendLetters(ret, charArray4, text, 4);
    assert text[..4] == text;
  }

  method EncodeRest(ret: string, charArray3: array<Byte>, charArray4: array<Byte>, i: nat) returns (ret': string)
    requires charArray3.Length == 3 && charArray4.Length == 4 && charArray3 != charArray4 && i < 3
    modifies charArray3, charArray4
    ensures ret' == ret + Encode(old(charArray3[..i]))
  {
    ghost var x := charArray3[..i];
    ret' := ret;
    if i != 0 {
      var j := i;
      while j < 3
        invariant i <= j <= 3 && charArray3[..i] == x && forall k :: i <= k < j ==> charArray3[k] == 0
      {
        charArray3[j] := 0;
        j := j + 1;
      }
      hide Spells, Quad, Encode;
      FillSextets(charArray3, charArray4);
      ghost var text := Quad(charArray3[0], charArray3[1], charArray3[2]);
      assert x == charArray3[..i];
      EncodedRest(x, charArray3[0], charArray3[1]);
      assert forall k :: 0 <= k < i + 1 ==> charArray4[..][k] == charArray4[k];
      ret' := AppendLetters(ret', charArray4, text, i + 1);
      var k := i;
      while k < 3
        invariant i <= k <= 3 && ret' == ret + text[..i + 1] + Equals(k - i)
      {
        ret' := ret' + "=";
        k := k + 1;
      }
    }
  }

  lemma FewEquals()
    ensures Equals(1) == ['='] && Equals(2) == ['=', '=']
  {
  }

  lemma EncodedRest(x: seq<Byte>, a: Byte, b: Byte)
    requires (x == [a] && b == 0) || x == [a, b]
    ensures Encode(x) == Quad(a, b, 0)[..|x| + 1] + Equals(3 - |x|)
  {
    hide Encode, Quad, Equals;
    if |x| == 1 {
      EncodedOne(a);
    } else {
      EncodedTwo(a, b);
    }
  }

  lemma EncodedOne(a: Byte)
    ensures Encode([a]) == Quad(a, 0, 0)[..2] + Equals(2)
  {
    hide Letter, First, Second, Third, Fourth, Equals;
    FewEquals();
  }

  lemma EncodedTwo(a: Byte, b: Byte)
    ensures Encode([a, b]) == Quad(a, b, 0)[..3] + Equals(1)
  {
    hide Letter, First, Second, Third, Fourth, Equals;
    FewEquals();
  }

  /** The slots hold the codes of the letters read so far. */
  predicate Holds(slots: seq<Byte>, letters: string)
    requires |slots| == 4
  {
    |letters| <= 4 && Letters(letters) && forall k :: 0 <= k < |letters| ==> slots[k] as int == letters[k] as int
  }

  predicate HoldsSextets(slots: seq<Byte>, letters: string)
    requires |slots| == 4
  {
    |letters| <= 4 && Letters(letters) && forall k :: 0 <= k < |letters| ==> slots[k] == Sextet(letters[k])
  }

  method ReadLetter(charArray4: array<Byte>, i: nat, c: char, ghost letters: string)
    requires charArray4.Length == 4 && i == |letters| < 4 && IsBase64(c) && Holds(charArray4[..], letters)
    modifies charArray4
    ensures Holds(charArray4[..], letters + [c])
  {
    ghost var before := charArray4[..];
    charArray4[i] := ToByte(c as int);
    assert charArray4[..] == before[i := ToByte(c as int)];
  }

  method ClearSlot(charArray4: array<Byte>, j: nat, ghost letters: string)
    requires charArray4.Length == 4 && |letters| <= j < 4 && Holds(charArray4[..], letters)
    modifies charArray4
    ensures Holds(charArray4[..], letters)
  {
    ghost var before := charArray4[..];
    charArray4[j] := 0;
    assert charArray4[..] == before[j := 0];
  }

  lemma HoldsNothing(slots: seq<Byte>)
    requires |slots| == 4
    ensures Holds(slots, "")
  {
  }

  /** A letter becomes its six bits; an unused slot becomes whatever the failed find leaves in it. */
  method FindAll(charArray4: array<Byte>, ghost letters: string)
    requires charArray4.Length == 4 && Holds(charArray4[..], letters)
    modifies charArray4
    ensures HoldsSextets(charArray4[..], letters)
  {
    hide Sextet;
    ghost var before := charArray4[..];
    var j := 0;
    while j < 4
      invariant j <= 4 && forall k :: j <= k < 4 ==> charArray4[k] == before[k]
      invariant forall k :: 0 <= k < j && k < |letters| ==> charArray4[k] == Sextet(letters[k])
    {
      charArray4[j] := FindSextet(charArray4[j]);
      j := j + 1;
    }
  }

  method JoinBytes(charArray4: array<Byte>, charArray3: array<Byte>)
    requires charArray3.Length == 3 && charArray4.Length == 4 && charArray3 != charArray4
    modifies charArray3
    ensures charArray3[0] == Byte0(charArray4[0], charArray4[1]) && charArray3[1] == Byte1(charArray4[1], charArray4[2])
    ensures charArray3[2] == Byte2(charArray4[2], charArray4[3])
  {
    charArray3[0] := Byte0(charArray4[0], charArray4[1]);
    charArray3[1] := Byte1(charArray4[1], charArray4[2]);
    charArray3[2] := Byte2(charArray4[2], charArray4[3]);
  }

  lemma Three(a: array<Byte>, x: Byte, y: Byte, z: Byte)
    requires a.Length == 3 && a[0] == x && a[1] == y && a[2] == z
    ensures a[..] == [x, y, z]
  {
  }

  method AppendBytes(ret: seq<Byte>, charArray3: array<Byte>, count: int) returns (ret': seq<Byte>)
    requires charArray3.Length == 3 && 0 <= count <= 3
    ensures ret' == ret + charArray3[..][..count]
  {
    ret' := ret;
    var j := 0;
    while j < count
      invariant 0 <= j <= count && ret' == ret + charArray3[..][..j]
    {
      ret' := ret' + [charArray3[j]];
      j := j + 1;
    }
  }

  /** A group is complete only with four letters; a shorter one yields a byte for each letter but the first. */
  lemma UnpackGroup(letters: string, rest: string, slots: seq<Byte>)
    requires |slots| == 4 && HoldsSextets(slots, letters) && letters != "" && Letters(rest) && (|letters| == 4 || rest == "")
    ensures Letters(letters + rest)
    ensures Unpack(letters + rest) == Triple(slots[0], slots[1], slots[2], slots[3])[..|letters| - 1] + Unpack(rest)
  {
    hide Sextet, Byte0, Byte1, Byte2;
    if |letters| == 4 {
      assert (letters + rest)[4..] == rest;
    } else {
      assert letters + rest == letters;
    }
  }

  method FlushGroup(ret: seq<Byte>, charArray4: array<Byte>, charArray3: array<Byte>, count: int,
                    ghost letters: string, ghost rest: string) returns (ret': seq<Byte>)
    requires charArray3.Length == 3 && charArray4.Length == 4 && charArray3 != charArray4
    requires Holds(charArray4[..], letters) && letters != "" && Letters(rest) && (|letters| == 4 || rest == "")
    requires 1 <= |letters| <= 4 && count == |letters| - 1
    modifies charArray3, charArray4
    ensures Letters(letters + rest) && ret' + Unpack(rest) == ret + Unpack(letters + rest)
  {
    hide Unpack, HoldsSextets, Holds, Byte0, Byte1, Byte2;
    FindAll(charArray4, letters);
    JoinBytes(charArray4, charArray3);
    Three(charArray3, charArray3[0], charArray3[1], charArray3[2]);
    ret' := AppendBytes(ret, charArray3, count);
    UnpackGroup(letters, rest, charArray4[..]);
  }

  method Base64Decode(input: string) returns (ret: seq<Byte>)
    ensures ret == Decode(input)
  {
    hide Unpack, Holds, IsBase64, Prefix, Letters;
    var charArray4, charArray3 := new Byte[4], new Byte[3];
    ret := [];
    var i, pos, inLen := 0, 0, |input|;
    ghost var p := input[..Prefix(input)];
    ghost var letters := "";
    HoldsNothing(charArray4[..]);
    while inLen != 0 && input[pos] != '=' && IsBase64(input[pos])
      invariant 0 <= i < 4 && 0 <= inLen && i <= pos <= |p| && pos + inLen == |input|
      invariant letters == p[pos - i..pos] && Holds(charArray4[..], letters)
      invariant Letters(p[pos - i..]) && ret + Unpack(p[pos - i..]) == Decode(input)
    {
      inLen := inLen - 1;
      Inside(input, pos);
      ReadLetter(charArray4, i, input[pos], letters);
      letters := letters + [input[pos]];
      i, pos := i + 1, pos + 1;
      Extended(p, pos - i, pos);
      if i == 4 {
        ret := FlushGroup(ret, charArray4, charArray3, 3, letters, p[pos..]);
        i := 0;
        letters := "";
        HoldsNothing(charArray4[..]);
      }
    }
    AtEnd(input, pos);
    Whole(p, pos - i);
    if i != 0 {
      var j := i;
      while j < 4
        invariant i <= j <= 4 && Holds(charArray4[..], letters)
      {
        ClearSlot(charArray4, j, letters);
        j := j + 1;
      }
      ret := FlushGroup(ret, charArray4, charArray3, i - 1, letters, "");
    }
  }

  lemma Extended(p: string, from: nat, to: nat)
    requires from < to <= |p|
    ensures p[from..to] == p[from..to - 1] + [p[to - 1]] && p[from..] == p[from..to] + p[to..]
    ensures Letters(p[from..]) ==> Letters(p[to..])
  {
    if Letters(p[from..]) {
      assert forall k :: 0 <= k < |p[to..]| ==> p[to..][k] == p[from..][to - from + k];
    }
  }

  lemma Whole(p: string, from: nat)
    requires from <= |p|
    ensures p[from..] == p[from..|p|] + "" && Letters("")
  {
  }

  lemma Inside(s: string, pos: nat)
    requires pos <= Prefix(s) && pos < |s| && IsBase64(s[pos])
    ensures pos < Prefix(s) && s[..Prefix(s)][pos] == s[pos]
  {
  }

  lemma AtEnd(s: string, pos: nat)
    requires pos <= Prefix(s) && (pos < |s| ==> s[pos] == '=' || !IsBase64(s[pos]))
    ensures pos == Prefix(s)
  {
    assert pos < Prefix(s) ==> IsBase64(s[..Prefix(s)][pos]);
  }
}
