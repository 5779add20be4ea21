/** The two length-prefixed wire shapes of the combiner: the two-half envelope
    `[tag][u32-LE a-len][a][u32-LE b-len][b]` and the ratchet ciphertext
    `[u32-LE enc-len][enc][sealed]`. */
module Framing {
  import opened Prelude

  const APQ_TAG: Byte := 0x01

  const APQ_PRIVATE_MESSAGE_TAG: Byte := 0x05

  const U32_LIMIT := 0x1_0000_0000

  /** `len as u32` followed by `to_le_bytes`: the cast drops the high bits. */
  function LengthPrefix(n: nat): (r: Bytes)
    ensures |r| == 4
  {
    LittleEndian(n % U32_LIMIT, 4)
  }

  function PrefixedLength(b: Bytes): (n: nat)
    requires |b| == 4
    ensures n < U32_LIMIT
  {
    Pow256Values();
    FromLittleEndian(b)
  }

  lemma PrefixReadsBack(n: nat)
    ensures PrefixedLength(LengthPrefix(n)) == n % U32_LIMIT
  {
    Pow256Values();
    LittleEndianReadsBack(n % U32_LIMIT, 4);
  }

  lemma PrefixIsCanonical(b: Bytes)
    requires |b| == 4
    ensures LengthPrefix(PrefixedLength(b)) == b
  {
    LittleEndianIsOnto(b);
  }

  function EncodePair(tag: Byte, a: Bytes, b: Bytes): Bytes {
    [tag] + LengthPrefix(|a|) + a + LengthPrefix(|b|) + b
  }

  function DecodePair(bytes: Bytes, tag: Byte): Option<(Bytes, Bytes)> {
    if |bytes| < 5 || bytes[0] != tag then None
    else
      var aLen := PrefixedLength(bytes[1..5]);
      var rest := bytes[5..];
      if |rest| < aLen + 4 then None
      else
        var bLen := PrefixedLength(rest[aLen..aLen + 4]);
        if |rest| != aLen + 4 + bLen then None
        else Some((rest[..aLen], rest[aLen + 4..]))
  }

  lemma PairSlices(tag: Byte, a: Bytes, b: Bytes)
    ensures var bytes := EncodePair(tag, a, b);
            && |bytes| == 9 + |a| + |b|
            && bytes[0] == tag && bytes[1..5] == LengthPrefix(|a|) && bytes[5..][..|a|] == a
            && bytes[5..][|a|..|a| + 4] == LengthPrefix(|b|) && bytes[5..][|a| + 4..] == b
  {
    var bytes := EncodePair(tag, a, b);
    assert bytes[5..] == a + LengthPrefix(|b|) + b;
  }

  lemma Cut(s: Bytes, i: nat, j: nat)
    requires i <= j <= |s|
    ensures s == s[..i] + s[i..j] + s[j..]
  {
  }

  lemma Envelope(bytes: Bytes, rest: Bytes, a: Bytes, b: Bytes)
    requires |bytes| >= 5 && rest == bytes[5..]
    requires bytes[1..5] == LengthPrefix(|a|) && rest == a + LengthPrefix(|b|) + b
    ensures bytes == EncodePair(bytes[0], a, b)
  {
    Cut(bytes, 1, 5);
    assert bytes[..1] == [bytes[0]];
  }

  lemma DecodedIsEncoded(bytes: Bytes, tag: Byte)
    requires DecodePair(bytes, tag).Some?
    ensures var (a, b) := DecodePair(bytes, tag).value;
            bytes == EncodePair(tag, a, b) && |a| < U32_LIMIT && |b| < U32_LIMIT
  {
    var (a, b) := DecodePair(bytes, tag).value;
    var rest := bytes[5..];
    PrefixIsCanonical(bytes[1..5]);
    PrefixIsCanonical(rest[|a|..|a| + 4]);
    Cut(rest, |a|, |a| + 4);
    Envelope(bytes, rest, a, b);
  }

  lemma EncodedDecodes(tag: Byte, a: Bytes, b: Bytes)
    requires |a| < U32_LIMIT && |b| < U32_LIMIT
    ensures DecodePair(EncodePair(tag, a, b), tag) == Some((a, b))
  {
    var bytes := EncodePair(tag, a, b);
    PairSlices(tag, a, b);
    PrefixReadsBack(|a|);
    PrefixReadsBack(|b|);
    assert PrefixedLength(bytes[1..5]) == |a|;
    assert PrefixedLength(bytes[5..][|a|..|a| + 4]) == |b|;
  }

  /** Decoding accepts exactly the encodings of payloads that fit their length prefixes, and
      returns the payloads: nothing longer, shorter, suffixed or under another tag. */
  lemma PairDecodesIff(bytes: Bytes, tag: Byte, a: Bytes, b: Bytes)
    ensures DecodePair(bytes, tag) == Some((a, b)) <==>
            bytes == EncodePair(tag, a, b) && |a| < U32_LIMIT && |b| < U32_LIMIT
  {
    if DecodePair(bytes, tag) == Some((a, b)) {
      DecodedIsEncoded(bytes, tag);
    }
    if bytes == EncodePair(tag, a, b) && |a| < U32_LIMIT && |b| < U32_LIMIT {
      EncodedDecodes(tag, a, b);
    }
  }

  lemma TagsNeverCrossDecode(bytes: Bytes, tag: Byte, other: Byte)
    requires tag != other && DecodePair(bytes, tag).Some?
    ensures DecodePair(bytes, other).None?
  {
    DecodedIsEncoded(bytes, tag);
    var (a, b) := DecodePair(bytes, tag).value;
    PairSlices(tag, a, b);
  }

  /** A 32-bit `usize`: every operation on it below is checked not to leave its range. */
  newtype Usize32 = x: int | 0 <= x < 0x1_0000_0000

  /** `isize::MAX` on a 32-bit target, the longest slice Rust can hold there. */
  const MAX_SLICE := 0x7FFF_FFFF

  /** The decoder with the source's own comparisons, in 32-bit arithmetic: on every input it
      agrees with `DecodePair`, no sum or difference wraps and no index is out of bounds. */
  method DecodeApqPair(bytes: Bytes, expectTag: Byte) returns (r: Option<(Bytes, Bytes)>)
    requires |bytes| <= MAX_SLICE
    ensures r == DecodePair(bytes, expectTag)
  {
    if bytes == [] {
      return None;
    }
    var rest := bytes[1..];
    if bytes[0] != expectTag {
      return None;
    }
    if |rest| < 4 {
      return None;
    }
    assert rest[..4] == bytes[1..5];
    var aLen: Usize32 := PrefixedLength(rest[..4]) as Usize32;
    rest := rest[4..];
    assert rest == bytes[5..];
    var remaining: Usize32 := |rest| as Usize32;
    if remaining < 4 || remaining - 4 < aLen {
      return None;
    }
    var a := rest[..aLen];
    rest := rest[aLen..];
    assert rest[..4] == bytes[5..][aLen as int..aLen as int + 4];
    var bLen: Usize32 := PrefixedLength(rest[..4]) as Usize32;
    rest := rest[4..];
    assert rest == bytes[5..][aLen as int + 4..];
    if |rest| as Usize32 != bLen {
      return None;
    }
    return Some((a, rest));
  }

  /** The encoder, appending to one growing buffer. */
  method EncodeApqPair(tag: Byte, a: Bytes, b: Bytes) returns (out: Bytes)
    ensures out == EncodePair(tag, a, b)
    ensures |a| < U32_LIMIT && |b| < U32_LIMIT ==> DecodePair(out, tag) == Some((a, b))
  {
    out := [tag];
    out := out + LengthPrefix(|a|);
    out := out + a;
    out := out + LengthPrefix(|b|);
    out := out + b;
    PairDecodesIff(out, tag, a, b);
  }

  function EncodeCt(enc: Bytes, sealed: Bytes): Bytes {
    LengthPrefix(|enc|) + enc + sealed
  }

  function DecodeCt(wire: Bytes): Option<(Bytes, Bytes)> {
    if |wire| < 4 then None
    else
      var encLen := PrefixedLength(wire[..4]);
      var rest := wire[4..];
      if |rest| < encLen then None else Some((rest[..encLen], rest[encLen..]))
  }

  lemma CtDecodesIff(wire: Bytes, enc: Bytes, sealed: Bytes)
    ensures DecodeCt(wire) == Some((enc, sealed)) <==> wire == EncodeCt(enc, sealed) && |enc| < U32_LIMIT
  {
    if DecodeCt(wire) == Some((enc, sealed)) {
      PrefixIsCanonical(wire[..4]);
      assert wire == wire[..4] + wire[4..];
      assert wire[4..] == enc + sealed;
    }
    if wire == EncodeCt(enc, sealed) && |enc| < U32_LIMIT {
      assert wire[..4] == LengthPrefix(|enc|);
      assert wire[4..] == enc + sealed;
      PrefixReadsBack(|enc|);
    }
  }

  /** Both envelopes and the ciphertext, byte for byte. */
  lemma Layouts(tag: Byte, a: Bytes, b: Bytes)
    requires |a| < 256 && |b| < 256
    ensures EncodePair(tag, a, b) == [tag, |a|, 0, 0, 0] + a + [|b|, 0, 0, 0] + b
    ensures EncodeCt(a, b) == [|a|, 0, 0, 0] + a + b
    ensures APQ_TAG == 1 && APQ_PRIVATE_MESSAGE_TAG == 5
  {
    ShortPrefix(|a|);
    ShortPrefix(|b|);
    assert [tag] + [|a|, 0, 0, 0] + a + [|b|, 0, 0, 0] + b == [tag, |a|, 0, 0, 0] + a + [|b|, 0, 0, 0] + b;
  }

  lemma ShortPrefix(n: Byte)
    ensures LengthPrefix(n) == [n, 0, 0, 0]
  {
    assert LittleEndian(0, 3) == [0] + LittleEndian(0, 2) && LittleEndian(0, 2) == [0] + LittleEndian(0, 1);
    assert LittleEndian(0, 1) == [0];
  }
}
