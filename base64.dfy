/**
 * The standard base64 encoding of section 4 of RFC 4648 (alphabet
 * `A-Z a-z 0-9 + /`, padded with `=`), as Go's `base64.StdEncoding`
 * produces it.  The decoder is the partner that the round-trip property
 * is stated against; it is strict: it rejects characters outside the
 * alphabet, misplaced padding and non-zero pad bits.
 */
module Base64 {
  import opened Wrappers

  type Byte = b: int | 0 <= b < 256
  type Sextet = i: int | 0 <= i < 64

  /** The padding character `=`. */
  const Pad: Byte := 61

  /** Table 1 of RFC 4648: the character that encodes a 6-bit group. */
  function CharOf(i: Sextet): (c: Byte)
    ensures c != Pad
    ensures SextetOf(c) == Some(i)
  {
    if i < 26 then 65 + i        // 'A'..'Z'
    else if i < 52 then 71 + i   // 'a'..'z'
    else if i < 62 then i - 4    // '0'..'9'
    else if i == 62 then 43      // '+'
    else 47                      // '/'
  }

  /** The 6-bit group a character stands for, if it is in the alphabet. */
  function SextetOf(c: Byte): (r: Option<Sextet>)
    ensures r.Some? ==> c != Pad
  {
    if 65 <= c <= 90 then Some(c - 65)
    else if 97 <= c <= 122 then Some(c - 71)
    else if 48 <= c <= 57 then Some(c + 4)
    else if c == 43 then Some(62)
    else if c == 47 then Some(63)
    else None
  }

  /** True when `c` is a character of the alphabet (not padding). */
  predicate InAlphabet(c: Byte)
  {
    SextetOf(c).Some?
  }

  /** Three bytes make four characters. */
  function EncodeTriple(a: Byte, b: Byte, c: Byte): seq<Byte>
  {
    [CharOf(a / 4), CharOf(a % 4 * 16 + b / 16), CharOf(b % 16 * 4 + c / 64), CharOf(c % 64)]
  }

  /** `base64.StdEncoding.EncodeToString`: every full group of three
      bytes becomes four characters; a final one or two bytes become
      four characters ending in two or one `=`. */
  function Encode(s: seq<Byte>): (r: seq<Byte>)
    ensures |r| == (|s| + 2) / 3 * 4
    ensures forall i :: 0 <= i < |r| && i < |s| / 3 * 4 ==> InAlphabet(r[i])
    decreases |s|
  {
    if |s| == 0 then []
    else if |s| == 1 then [CharOf(s[0] / 4), CharOf(s[0] % 4 * 16), Pad, Pad]
    else if |s| == 2 then [CharOf(s[0] / 4), CharOf(s[0] % 4 * 16 + s[1] / 16), CharOf(s[1] % 16 * 4), Pad]
    else EncodeTriple(s[0], s[1], s[2]) + Encode(s[3..])
  }

  /** Decodes one group of four characters that is not the last one:
      no padding is allowed in it. */
  function DecodeFull(q: seq<Byte>): (r: Option<seq<Byte>>)
    requires |q| == 4
    ensures r.Some? ==> |r.value| == 3
  {
    match (SextetOf(q[0]), SextetOf(q[1]), SextetOf(q[2]), SextetOf(q[3]))
    case (Some(i0), Some(i1), Some(i2), Some(i3)) =>
      Some([i0 as int * 4 + i1 / 16, (i1 as int) % 16 * 16 + i2 / 4, (i2 as int) % 4 * 64 + i3])
    case _ => None
  }

  /** Decodes the last group of four characters, which may end in one or
      two `=`; the bits the padding leaves over must be zero. */
  function DecodeFinal(q: seq<Byte>): (r: Option<seq<Byte>>)
    requires |q| == 4
    ensures r.Some? ==> 1 <= |r.value| <= 3
  {
    if q[2] == Pad && q[3] == Pad then
      match (SextetOf(q[0]), SextetOf(q[1]))
      case (Some(i0), Some(i1)) =>
        if i1 % 16 == 0 then Some([i0 as int * 4 + i1 / 16]) else None
      case _ => None
    else if q[3] == Pad then
      match (SextetOf(q[0]), SextetOf(q[1]), SextetOf(q[2]))
      case (Some(i0), Some(i1), Some(i2)) =>
        if i2 % 4 == 0 then Some([i0 as int * 4 + i1 / 16, (i1 as int) % 16 * 16 + i2 / 4]) else None
      case _ => None
    else DecodeFull(q)
  }

  /** Standard base64 decoding; `None` for any text that is not a
      well-formed encoding. */
  function Decode(s: seq<Byte>): (r: Option<seq<Byte>>)
    decreases |s|
  {
    if |s| == 0 then Some([])
    else if |s| < 4 then None
    else if |s| == 4 then DecodeFinal(s)
    else
      match DecodeFull(s[..4])
      case None => None
      case Some(head) =>
        match Decode(s[4..])
        case None => None
        case Some(tail) => Some(head + tail)
  }

  lemma TripleRoundTrip(a: Byte, b: Byte, c: Byte)
    ensures DecodeFull(EncodeTriple(a, b, c)) == Some([a, b, c])
    ensures DecodeFinal(EncodeTriple(a, b, c)) == Some([a, b, c])
  {
    var i0, i1, i2, i3 := a / 4, a % 4 * 16 + b / 16, b % 16 * 4 + c / 64, c % 64;
    assert i1 / 16 == a % 4 && i1 % 16 == b / 16;
    assert i2 / 4 == b % 16 && i2 % 4 == c / 64;
  }

  lemma SingleRoundTrip(a: Byte)
    ensures Decode(Encode([a])) == Some([a])
  {
    var i1 := a % 4 * 16;
    assert i1 / 16 == a % 4 && i1 % 16 == 0;
  }

  lemma PairRoundTrip(a: Byte, b: Byte)
    ensures Decode(Encode([a, b])) == Some([a, b])
  {
    var i1, i2 := a % 4 * 16 + b / 16, b % 16 * 4;
    assert i1 / 16 == a % 4 && i1 % 16 == b / 16;
    assert i2 / 4 == b % 16 && i2 % 4 == 0;
  }

  /** Round trip: decoding the encoding gives back the original bytes. */
  lemma {:induction false} DecodeEncode(s: seq<Byte>)
    ensures Decode(Encode(s)) == Some(s)
    decreases |s|
  {
    if |s| == 0 {
    } else if |s| == 1 {
      SingleRoundTrip(s[0]);
      assert [s[0]] == s;
    } else if |s| == 2 {
      PairRoundTrip(s[0], s[1]);
      assert [s[0], s[1]] == s;
    } else {
      var head, rest := EncodeTriple(s[0], s[1], s[2]), Encode(s[3..]);
      TripleRoundTrip(s[0], s[1], s[2]);
      var e := head + rest;
      assert e[..4] == head && e[4..] == rest;
      if |s| == 3 {
        assert rest == [] && e == head;
        assert [s[0], s[1], s[2]] == s;
      } else {
        DecodeEncode(s[3..]);
        assert [s[0], s[1], s[2]] + s[3..] == s;
      }
    }
  }

  // The test vectors of section 10 of RFC 4648.

  /** "f" is "Zg==". */
  lemma VectorF()
    ensures Encode([102]) == [90, 103, 61, 61]
  {
  }

  /** "fo" is "Zm8=". */
  lemma VectorFo()
    ensures Encode([102, 111]) == [90, 109, 56, 61]
  {
  }

  /** "foo" is "Zm9v". */
  lemma VectorFoo()
    ensures Encode([102, 111, 111]) == [90, 109, 57, 118]
  {
    EncodeGroup(102, 111, 111, []);
    assert [102, 111, 111] + [] == [102, 111, 111];
  }

  /** A leading group of three bytes is encoded on its own. */
  lemma EncodeGroup(a: Byte, b: Byte, c: Byte, t: seq<Byte>)
    ensures Encode([a, b, c] + t) == EncodeTriple(a, b, c) + Encode(t)
  {
    assert ([a, b, c] + t)[3..] == t;
  }

  /** "foob" is "Zm9vYg==". */
  lemma VectorFoob()
    ensures Encode([102, 111, 111, 98]) == [90, 109, 57, 118, 89, 103, 61, 61]
  {
    VectorFoo();
    EncodeGroup(102, 111, 111, [98]);
    assert [102, 111, 111] + [98] == [102, 111, 111, 98];
  }

  /** "fooba" is "Zm9vYmE=". */
  lemma VectorFooba()
    ensures Encode([102, 111, 111, 98, 97]) == [90, 109, 57, 118, 89, 109, 69, 61]
  {
    VectorFoo();
    assert Encode([98, 97]) == [89, 109, 69, 61];
    EncodeGroup(102, 111, 111, [98, 97]);
    assert [102, 111, 111] + [98, 97] == [102, 111, 111, 98, 97];
  }

  /** "foobar" is "Zm9vYmFy". */
  lemma VectorFoobar()
    ensures Encode([102, 111, 111, 98, 97, 114]) == [90, 109, 57, 118, 89, 109, 70, 121]
  {
    VectorFoo();
    EncodeGroup(102, 111, 111, [98, 97, 114]);
    assert [102, 111, 111] + [98, 97, 114] == [102, 111, 111, 98, 97, 114];
    EncodeGroup(98, 97, 114, []);
    assert [98, 97, 114] + [] == [98, 97, 114];
  }
}
