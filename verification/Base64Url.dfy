/** Unpadded base64url (section 5 of RFC 4648) with the canonical check of its section 3.5. */
module Base64Url {
  import opened Text

  type Byte = b: int | 0 <= b < 256
  type Sextet = n: int | 0 <= n < 64

  function CharOf(n: Sextet): (c: char) {
    if n < 26 then ('A' as int + n) as char
    else if n < 52 then ('a' as int + n - 26) as char
    else if n < 62 then ('0' as int + n - 52) as char
    else if n == 62 then '-'
    else '_'
  }

  function SextetOf(c: char): Option<Sextet> {
    if 'A' <= c <= 'Z' then Some(c as int - 'A' as int)
    else if 'a' <= c <= 'z' then Some(c as int - 'a' as int + 26)
    else if '0' <= c <= '9' then Some(c as int - '0' as int + 52)
    else if c == '-' then Some(62)
    else if c == '_' then Some(63)
    else None
  }

  lemma CharSextetBijection(n: Sextet, c: char)
    ensures SextetOf(CharOf(n)) == Some(n)
    ensures SextetOf(c).Some? ==> CharOf(SextetOf(c).value) == c
  {
  }

  predicate InAlphabet(s: string) {
    forall i :: 0 <= i < |s| ==> SextetOf(s[i]).Some?
  }

  /** What the daemon's tokens look like: at least 32 characters of the alphabet. */
  predicate IsToken(s: string) {
    |s| >= 32 && InAlphabet(s)
  }

  predicate TokenChar(c: char) {
    'A' <= c <= 'Z' || 'a' <= c <= 'z' || '0' <= c <= '9' || c == '-' || c == '_'
  }

  predicate TokenChars(s: string) {
    forall i :: 0 <= i < |s| ==> TokenChar(s[i])
  }

  /** At least 32 letters, digits, hyphens and underscores. */
  predicate WellFormed(token: string) {
    |token| >= 32 && TokenChars(token)
  }

  lemma TokensAreWellFormed(s: string)
    ensures IsToken(s) <==> WellFormed(s)
    ensures InAlphabet(s) <==> TokenChars(s)
  {
  }

  function Sextets(s: string): (r: seq<Sextet>)
    requires InAlphabet(s)
    ensures |r| == |s|
  {
    seq(|s|, i requires 0 <= i < |s| => SextetOf(s[i]).value)
  }

  function Chars(s: seq<Sextet>): (r: string)
    ensures |r| == |s|
  {
    seq(|s|, i requires 0 <= i < |s| => CharOf(s[i]))
  }

  // The four sextets of three bytes x, y, z, and back.

  function First(x: int): Sextet
    requires 0 <= x < 256
  {
    x / 4
  }

  function Second(x: int, y: int): Sextet
    requires 0 <= x < 256 && 0 <= y < 256
  {
    x % 4 * 16 + y / 16
  }

  function Third(y: int, z: int): Sextet
    requires 0 <= y < 256 && 0 <= z < 256
  {
    y % 16 * 4 + z / 64
  }

  function Fourth(z: int): Sextet
    requires 0 <= z < 256
  {
    z % 64
  }

  function ByteX(p: int, q: int): Byte
    requires 0 <= p < 64 && 0 <= q < 64
  {
    p * 4 + q / 16
  }

  function ByteY(q: int, r: int): Byte
    requires 0 <= q < 64 && 0 <= r < 64
  {
    q % 16 * 16 + r / 4
  }

  function ByteZ(r: int, t: int): Byte
    requires 0 <= r < 64 && 0 <= t < 64
  {
    r % 4 * 64 + t
  }

  lemma BytesBack(x: Byte, y: Byte, z: Byte)
    ensures ByteX(First(x), Second(x, y)) == x
    ensures ByteY(Second(x, y), Third(y, z)) == y
    ensures ByteZ(Third(y, z), Fourth(z)) == z
    ensures Second(x, 0) % 16 == 0 && Third(y, 0) % 4 == 0
  {
  }

  lemma SextetsBack(p: Sextet, q: Sextet, r: Sextet, t: Sextet)
    ensures First(ByteX(p, q)) == p
    ensures Second(ByteX(p, q), ByteY(q, r)) == q
    ensures Third(ByteY(q, r), ByteZ(r, t)) == r
    ensures Fourth(ByteZ(r, t)) == t
    ensures Second(ByteX(p, q), 0) == q <==> q % 16 == 0
    ensures Third(ByteY(q, r), 0) == r <==> r % 4 == 0
  {
  }

  /** Three bytes become four sextets; one or two left-over bytes become two or three. */
  function Pack(b: seq<Byte>): seq<Sextet> {
    if b == [] then []
    else if |b| == 1 then [First(b[0]), Second(b[0], 0)]
    else if |b| == 2 then [First(b[0]), Second(b[0], b[1]), Third(b[1], 0)]
    else [First(b[0]), Second(b[0], b[1]), Third(b[1], b[2]), Fourth(b[2])] + Pack(b[3..])
  }

  /** The platform's decoder: it drops a single left-over character and ignores left-over bits. */
  function Unpack(s: seq<Sextet>): seq<Byte> {
    if |s| < 2 then []
    else if |s| == 2 then [ByteX(s[0], s[1])]
    else if |s| == 3 then [ByteX(s[0], s[1]), ByteY(s[1], s[2])]
    else [ByteX(s[0], s[1]), ByteY(s[1], s[2]), ByteZ(s[2], s[3])] + Unpack(s[4..])
  }

  function Encode(b: seq<Byte>): string {
    Chars(Pack(b))
  }

  /** Decodes leniently, then rejects what does not encode back to the same text. */
  function DecodeBase64Url(value: string): Result<seq<Byte>, ()>
    requires InAlphabet(value)
  {
    var decoded := Unpack(Sextets(value));
    if Encode(decoded) != value then Err(()) else Ok(decoded)
  }

  /** No stray character at the end, and the bits that encode nothing are zero. */
  predicate Canonical(s: seq<Sextet>) {
    match |s| % 4
    case 0 => true
    case 1 => false
    case 2 => s[|s| - 1] % 16 == 0
    case _ => s[|s| - 1] % 4 == 0
  }

  lemma CanonicalTail(s: seq<Sextet>)
    requires |s| >= 4
    ensures Canonical(s) <==> Canonical(s[4..])
  {
    if |s| > 4 {
      assert s[4..][|s| - 5] == s[|s| - 1];
    }
  }

  lemma PackStep(x: Byte, y: Byte, z: Byte, rest: seq<Byte>)
    ensures Pack([x, y, z] + rest) == [First(x), Second(x, y), Third(y, z), Fourth(z)] + Pack(rest)
  {
    assert ([x, y, z] + rest)[3..] == rest;
  }

  lemma UnpackStep(p: Sextet, q: Sextet, r: Sextet, t: Sextet, rest: seq<Sextet>)
    ensures Unpack([p, q, r, t] + rest) == [ByteX(p, q), ByteY(q, r), ByteZ(r, t)] + Unpack(rest)
  {
    assert ([p, q, r, t] + rest)[4..] == rest;
  }

  lemma UnpackShort(p: Sextet, q: Sextet, r: Sextet)
    ensures Unpack([p, q]) == [ByteX(p, q)]
    ensures Unpack([p, q, r]) == [ByteX(p, q), ByteY(q, r)]
  {
  }

  lemma OneByte(x: Byte)
    ensures Unpack(Pack([x])) == [x]
  {
    var p, q := First(x), Second(x, 0);
    assert Pack([x]) == [p, q];
    UnpackShort(p, q, 0);
    BytesBack(x, 0, 0);
  }

  lemma {:induction false} TwoBytes(x: Byte, y: Byte)
    ensures Unpack(Pack([x, y])) == [x, y]
  {
    var p, q, r := First(x), Second(x, y), Third(y, 0);
    assert Pack([x, y]) == [p, q, r];
    UnpackShort(p, q, r);
    BytesBack(x, y, 0);
  }

  lemma ShortSeq<T>(s: seq<T>)
    ensures |s| == 1 ==> s == [s[0]]
    ensures |s| == 2 ==> s == [s[0], s[1]]
    ensures |s| == 3 ==> s == [s[0], s[1], s[2]]
  {
  }

  lemma {:induction false} UnpackOfPack(b: seq<Byte>)
    ensures Unpack(Pack(b)) == b
    decreases |b|
  {
    if b == [] {
    } else if |b| == 1 {
      ShortSeq(b);
      OneByte(b[0]);
    } else if |b| == 2 {
      ShortSeq(b);
      TwoBytes(b[0], b[1]);
    } else {
      var x, y, z, rest := b[0], b[1], b[2], b[3..];
      assert b == [x, y, z] + rest;
      UnpackOfPack(rest);
      BytesBack(x, y, z);
      PackStep(x, y, z, rest);
      UnpackStep(First(x), Second(x, y), Third(y, z), Fourth(z), Pack(rest));
    }
  }

  lemma ShortSextets(p: Sextet, q: Sextet, r: Sextet)
    ensures Pack(Unpack([p, q])) == [p, q] <==> Canonical([p, q])
    ensures Pack(Unpack([p, q, r])) == [p, q, r] <==> Canonical([p, q, r])
  {
    var x, y := ByteX(p, q), ByteY(q, r);
    UnpackShort(p, q, r);
    assert Pack([x]) == [First(x), Second(x, 0)];
    assert Pack([x, y]) == [First(x), Second(x, y), Third(y, 0)];
    SextetsBack(p, q, r, 0);
    assert [p, q][1] == q && [p, q, r][2] == r;
  }

  lemma {:induction false} PackOfUnpack(s: seq<Sextet>)
    ensures Pack(Unpack(s)) == s <==> Canonical(s)
    decreases |s|
  {
    if |s| < 2 {
    } else if |s| < 4 {
      ShortSeq(s);
      ShortSextets(s[0], s[1], if |s| == 3 then s[2] else 0);
    } else {
      var p, q, r, t, rest := s[0], s[1], s[2], s[3], s[4..];
      assert s == [p, q, r, t] + rest;
      PackOfUnpack(rest);
      SextetsBack(p, q, r, t);
      UnpackStep(p, q, r, t, rest);
      PackStep(ByteX(p, q), ByteY(q, r), ByteZ(r, t), Unpack(rest));
      SameHead([p, q, r, t], Pack(Unpack(rest)), rest);
      CanonicalTail(s);
    }
  }

  lemma SameHead(head: seq<Sextet>, x: seq<Sextet>, y: seq<Sextet>)
    ensures head + x == head + y <==> x == y
  {
    assert (head + x)[|head|..] == x && (head + y)[|head|..] == y;
  }

  lemma EncodedText(b: seq<Byte>)
    ensures InAlphabet(Encode(b))
    ensures Sextets(Encode(b)) == Pack(b)
    ensures Encode(b) == "" <==> b == []
  {
    var p := Pack(b);
    forall i | 0 <= i < |p|
      ensures SextetOf(Encode(b)[i]) == Some(p[i])
    {
      CharSextetBijection(p[i], 'A');
    }
  }

  lemma CharsOfSextets(s: string)
    requires InAlphabet(s)
    ensures Chars(Sextets(s)) == s
  {
    forall i | 0 <= i < |s|
      ensures CharOf(SextetOf(s[i]).value) == s[i]
    {
      CharSextetBijection(0, s[i]);
    }
  }

  /** What was encoded is decoded, whatever the bytes. */
  lemma {:induction false} DecodeOfEncode(b: seq<Byte>)
    ensures InAlphabet(Encode(b)) && DecodeBase64Url(Encode(b)) == Ok(b)
  {
    EncodedText(b);
    UnpackOfPack(b);
  }

  /** What the decoder returns encodes back to the text, and is not empty unless the text is. */
  lemma {:induction false} EncodeOfDecode(value: string)
    requires InAlphabet(value) && DecodeBase64Url(value).Ok?
    ensures Encode(DecodeBase64Url(value).value) == value
    ensures value != "" ==> DecodeBase64Url(value).value != []
  {
    CharsOfSextets(value);
    PackOfUnpack(Sextets(value));
    EncodedText(Unpack(Sextets(value)));
  }

  /** The strict decoder accepts exactly the canonical texts, which are exactly the encodings of byte strings. */
  lemma {:induction false} AcceptsExactlyEncodings(value: string)
    requires InAlphabet(value)
    ensures DecodeBase64Url(value).Ok? <==> Canonical(Sextets(value))
    ensures DecodeBase64Url(value).Ok? <==> exists b :: Encode(b) == value
  {
    CharsOfSextets(value);
    PackOfUnpack(Sextets(value));
    EncodedText(Unpack(Sextets(value)));
    forall b | Encode(b) == value
      ensures DecodeBase64Url(value).Ok?
    {
      DecodeOfEncode(b);
    }
  }

  /** So two accepted texts are equal exactly when their bytes are. */
  lemma {:induction false} SameTextSameBytes(x: string, y: string)
    requires InAlphabet(x) && InAlphabet(y) && DecodeBase64Url(x).Ok? && DecodeBase64Url(y).Ok?
    ensures x == y <==> DecodeBase64Url(x).value == DecodeBase64Url(y).value
  {
    EncodeOfDecode(x);
    EncodeOfDecode(y);
  }

  // ---------- the encoding as a number ----------

  const CAPITALS := "ABCDEFGHIJKLMNOPQRSTUVWXYZ"
  const SMALLS := "abcdefghijklmnopqrstuvwxyz"

  /** The alphabet in its order: capitals, small letters, digits, hyphen, underscore. */
  lemma {:induction false} AlphabetIsInOrder(n: Sextet)
    ensures CharOf(n) ==
      if n < 26 then CAPITALS[n] else if n < 52 then SMALLS[n - 26] else if n < 62 then "0123456789"[n - 52]
      else if n == 62 then '-' else '_'
  {
    assert forall i :: 0 <= i < 26 ==> CAPITALS[i] == ('A' as int + i) as char;
    assert forall i :: 0 <= i < 26 ==> SMALLS[i] == ('a' as int + i) as char;
    assert forall i :: 0 <= i < 10 ==> "0123456789"[i] == ('0' as int + i) as char;
  }

  /** Digits to a base, the first one first, as one number. */
  function Numeral(digits: seq<int>, base: int): int {
    if digits == [] then 0 else Numeral(digits[..|digits| - 1], base) * base + digits[|digits| - 1]
  }

  lemma NumeralOf(s: seq<int>, base: int)
    ensures |s| == 1 ==> Numeral(s, base) == s[0]
    ensures |s| == 2 ==> Numeral(s, base) == s[0] * base + s[1]
    ensures |s| == 3 ==> Numeral(s, base) == (s[0] * base + s[1]) * base + s[2]
    ensures |s| == 4 ==> Numeral(s, base) == ((s[0] * base + s[1]) * base + s[2]) * base + s[3]
  {
  }

  /**
   * Three bytes are the four characters of the same 24-bit number; two or one at the end are three or two
   * characters, with zero bits behind; and longer byte strings are encoded three bytes at a time.
   */
  lemma {:induction false} GroupsAreEncoded(b: seq<Byte>)
    ensures var s := Pack(b);
      && (|b| == 3 ==> |s| == 4 && Numeral(s, 64) == Numeral(b, 256))
      && (|b| == 2 ==> |s| == 3 && Numeral(s, 64) == Numeral(b, 256) * 4)
      && (|b| == 1 ==> |s| == 2 && Numeral(s, 64) == Numeral(b, 256) * 16)
      && (|b| == 0 ==> s == [])
      && (|b| > 3 ==> s == Pack(b[..3]) + Pack(b[3..]))
      && |Encode(b)| == |s| && forall i :: 0 <= i < |s| ==> Encode(b)[i] == CharOf(s[i])
  {
    if |b| <= 3 {
      NumeralOf(Pack(b), 64);
      NumeralOf(b, 256);
    } else {
      assert b[..3][3..] == [];
      assert Pack(b[..3]) == [First(b[0]), Second(b[0], b[1]), Third(b[1], b[2]), Fourth(b[2])];
    }
  }
}
