/** The slice of the MLS wire codec the repository's records use: fixed-width integers and
    variable-length vectors with the minimal-length headers of section 2.1.2 of RFC 9420.
    Encoders answer `None` where the codec reports an error (a length of 2^30 or more);
    decoders answer the value together with the unread rest of the input. */
module Codec {
  import opened Prelude

  type Parsed<T> = Option<(T, Bytes)>

  const LENGTH_LIMIT := 0x4000_0000

  function EncodeLength(n: nat): (r: Option<Bytes>)
    ensures r.Some? <==> n < LENGTH_LIMIT
  {
    if n < 0x40 then Some([n])
    else if n < 0x4000 then Some([0x40 + n / 0x100, n % 0x100])
    else if n < LENGTH_LIMIT then
      Some([0x80 + n / 0x100_0000, n / 0x1_0000 % 0x100, n / 0x100 % 0x100, n % 0x100])
    else None
  }

  function DecodeLength(b: Bytes): (r: Parsed<nat>)
    ensures r.Some? ==> |r.value.1| < |b| && r.value.0 < LENGTH_LIMIT
  {
    if b == [] then None
    else if b[0] < 0x40 then Some((b[0], b[1..]))
    else if b[0] < 0x80 then
      if |b| < 2 then None
      else
        var n := (b[0] as int - 0x40) * 0x100 + b[1] as int;
        if n < 0x40 then None else Some((n, b[2..]))
    else if b[0] < 0xC0 then
      if |b| < 4 then None
      else
        var n := (b[0] as int - 0x80) * 0x100_0000 + b[1] as int * 0x1_0000 + b[2] as int * 0x100 + b[3] as int;
        if n < 0x4000 then None else Some((n, b[4..]))
    else None
  }

  lemma LengthReadsBack(n: nat, rest: Bytes)
    requires n < LENGTH_LIMIT
    ensures DecodeLength(EncodeLength(n).value + rest) == Some((n, rest))
  {
    var e := EncodeLength(n).value;
    assert (e + rest)[|e|..] == rest;
    assert forall i | 0 <= i < |e| :: (e + rest)[i] == e[i];
  }

  lemma LengthIsCanonical(b: Bytes)
    requires DecodeLength(b).Some?
    ensures b == EncodeLength(DecodeLength(b).value.0).value + DecodeLength(b).value.1
  {
    var (n, rest) := DecodeLength(b).value;
    if b[0] < 0x40 {
      assert b == [b[0]] + b[1..];
    } else if b[0] < 0x80 {
      assert n / 0x100 == b[0] - 0x40;
      assert b == [b[0], b[1]] + b[2..];
    } else {
      assert n / 0x100_0000 == b[0] - 0x80;
      assert n / 0x1_0000 == (b[0] as int - 0x80) * 0x100 + b[1] as int;
      assert n / 0x100 == (b[0] as int - 0x80) * 0x1_0000 + b[1] as int * 0x100 + b[2] as int;
      assert b == [b[0], b[1], b[2], b[3]] + b[4..];
    }
  }

  /** A length-prefixed byte string (`mls_rs_codec::byte_vec`). */
  function EncodeVec(v: Bytes): (r: Option<Bytes>)
    ensures r.Some? <==> |v| < LENGTH_LIMIT
  {
    match EncodeLength(|v|)
    case Some(header) => Some(header + v)
    case None => None
  }

  function DecodeVec(b: Bytes): (r: Parsed<Bytes>)
    ensures r.Some? ==> |r.value.1| < |b|
  {
    match DecodeLength(b)
    case Some((n, rest)) => if |rest| < n then None else Some((rest[..n], rest[n..]))
    case None => None
  }

  lemma VecReadsBack(v: Bytes, rest: Bytes)
    requires |v| < LENGTH_LIMIT
    ensures DecodeVec(EncodeVec(v).value + rest) == Some((v, rest))
  {
    var header := EncodeLength(|v|).value;
    LengthReadsBack(|v|, v + rest);
    assert header + v + rest == header + (v + rest);
    assert (v + rest)[..|v|] == v && (v + rest)[|v|..] == rest;
  }

  lemma VecIsCanonical(b: Bytes)
    requires DecodeVec(b).Some?
    ensures |DecodeVec(b).value.0| < LENGTH_LIMIT
    ensures b == EncodeVec(DecodeVec(b).value.0).value + DecodeVec(b).value.1
  {
    LengthIsCanonical(b);
    var (n, rest) := DecodeLength(b).value;
    assert rest == rest[..n] + rest[n..];
    assert EncodeLength(n).value + (rest[..n] + rest[n..]) == EncodeLength(n).value + rest[..n] + rest[n..];
  }

  /** A fixed-width big-endian integer. */
  function DecodeUint(b: Bytes, width: nat): (r: Parsed<nat>)
    ensures r.Some? ==> |r.value.1| + width == |b| && r.value.0 < Pow256(width)
  {
    if |b| < width then None else Some((FromBigEndian(b[..width]), b[width..]))
  }

  lemma UintReadsBack(n: nat, width: nat, rest: Bytes)
    requires n < Pow256(width)
    ensures DecodeUint(BigEndian(n, width) + rest, width) == Some((n, rest))
  {
    var e := BigEndian(n, width);
    BigEndianReadsBack(n, width);
    assert (e + rest)[..width] == e && (e + rest)[width..] == rest;
  }

  lemma UintIsCanonical(b: Bytes, width: nat)
    requires DecodeUint(b, width).Some?
    ensures b == BigEndian(DecodeUint(b, width).value.0, width) + DecodeUint(b, width).value.1
  {
    BigEndianIsOnto(b[..width]);
    assert b == b[..width] + b[width..];
  }

  /** The header's leading two bits give its length, one, two or four bytes, as short as the value
      allows; the remaining bits are the value, big-endian. */
  lemma HeaderLayout(n: nat)
    requires n < LENGTH_LIMIT
    ensures var h := EncodeLength(n).value;
            && |h| == (if n < 64 then 1 else if n < 16384 then 2 else 4)
            && h[0] as int / 64 == (if |h| == 1 then 0 else if |h| == 2 then 1 else 2)
            && FromBigEndian([h[0] as int % 64] + h[1..]) == n
  {
    var h := EncodeLength(n).value;
    var digits: Bytes := [h[0] as int % 64] + h[1..];
    if |h| == 1 {
      assert digits == BigEndian(n, 1);
      Pow256Values();
      BigEndianReadsBack(n, 1);
    } else if |h| == 2 {
      assert digits[0] == n / 0x100 && digits[1] == n % 0x100;
      assert digits == [n / 0x100, n % 0x100];
      assert digits[..1] == [n / 0x100] && digits[..1][..0] == [];
      assert FromBigEndian([n / 0x100]) == n / 0x100;
    } else {
      FourDigits(digits, n);
    }
  }

  lemma FourDigits(b: Bytes, n: nat)
    requires n < LENGTH_LIMIT
    requires b == [n / 0x100_0000, n / 0x1_0000 % 0x100, n / 0x100 % 0x100, n % 0x100]
    ensures FromBigEndian(b) == n
  {
    assert b[..3] == [b[0], b[1], b[2]] && b[..3][..2] == [b[0], b[1]] && b[..3][..2][..1] == [b[0]];
    assert b[..3][..2][..1][..0] == [];
    assert FromBigEndian(b[..3][..2][..1]) == n / 0x100_0000;
    assert n / 0x100_0000 * 0x100 + n / 0x1_0000 % 0x100 == n / 0x1_0000;
    assert FromBigEndian(b[..3][..2]) == n / 0x1_0000;
    assert n / 0x1_0000 * 0x100 + n / 0x100 % 0x100 == n / 0x100;
    assert FromBigEndian(b[..3]) == n / 0x100;
  }
}
