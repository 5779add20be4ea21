/** The combiner's component: the `AppDataUpdate` epoch attestation and its strict codec. */
module Component {
  import opened Prelude
  import opened Codec
  import opened Proposals

  const APQ_COMPONENT_ID: nat := 0xFF01

  const TWOMLS_COMPONENT_ID: nat := 0xFF02

  const APP_DATA_UPDATE: nat := 0x0008

  const APP_DATA_OP_UPDATE: Byte := 1

  const EPOCH_UNBOUND: U64 := 0xFFFF_FFFF_FFFF_FFFF

  datatype CombinerError = Mls | ApqInfoMismatch | CipherSuiteMismatch | AppBindingMismatch | EpochDesync

  /** The absolute epochs of both halves after a FULL commit. */
  datatype ApqInfoUpdate = ApqInfoUpdate(tEpoch: U64, pqEpoch: U64)

  function EncodeUpdate(u: ApqInfoUpdate): (r: Bytes)
    ensures |r| == 16
  {
    BigEndian(u.tEpoch, 8) + BigEndian(u.pqEpoch, 8)
  }

  function DecodeUpdate(b: Bytes): Option<ApqInfoUpdate> {
    Pow256Values();
    match DecodeUint(b, 8)
    case None => None
    case Some((t, rest)) =>
      match DecodeUint(rest, 8)
      case None => None
      case Some((pq, tail)) => if tail == [] then Some(ApqInfoUpdate(t, pq)) else None
  }

  /** `AppDataUpdate(op = update)` for the combiner component. */
  function ToCustomProposal(u: ApqInfoUpdate): CustomProposal {
    CustomProposal(APP_DATA_UPDATE,
                   BigEndian(APQ_COMPONENT_ID, 4) + [APP_DATA_OP_UPDATE] + EncodeVec(EncodeUpdate(u)).value)
  }

  function FromCustomProposal(p: CustomProposal): Result<ApqInfoUpdate, CombinerError> {
    if p.kind != APP_DATA_UPDATE then Err(Mls)
    else
      match DecodeUint(p.data, 4)
      case None => Err(Mls)
      case Some((component, rest)) =>
        if rest == [] then Err(Mls)
        else
          match DecodeVec(rest[1..])
          case None => Err(Mls)
          case Some((update, tail)) =>
            if tail != [] || component != APQ_COMPONENT_ID || rest[0] != APP_DATA_OP_UPDATE then Err(Mls)
            else
              match DecodeUpdate(update)
              case None => Err(Mls)
              case Some(u) => Ok(u)
  }

  lemma UpdateDecodesIff(b: Bytes, u: ApqInfoUpdate)
    ensures DecodeUpdate(b) == Some(u) <==> b == EncodeUpdate(u)
  {
    Pow256Values();
    if DecodeUpdate(b) == Some(u) {
      UintIsCanonical(b, 8);
      UintIsCanonical(b[8..], 8);
    }
    if b == EncodeUpdate(u) {
      UintReadsBack(u.tEpoch, 8, BigEndian(u.pqEpoch, 8));
      UintReadsBack(u.pqEpoch, 8, []);
      assert BigEndian(u.pqEpoch, 8) + [] == BigEndian(u.pqEpoch, 8);
    }
  }

  lemma WireSlices(u: ApqInfoUpdate)
    ensures var data := ToCustomProposal(u).data; var vec := EncodeVec(EncodeUpdate(u)).value;
            data == BigEndian(APQ_COMPONENT_ID, 4) + ([APP_DATA_OP_UPDATE] + vec)
            && DecodeVec(vec) == Some((EncodeUpdate(u), []))
  {
    var vec := EncodeVec(EncodeUpdate(u)).value;
    VecReadsBack(EncodeUpdate(u), []);
    assert vec + [] == vec;
  }

  lemma StrictlyDecoded(p: CustomProposal, rest: Bytes)
    requires DecodeUint(p.data, 4) == Some((APQ_COMPONENT_ID, rest))
    requires rest != [] && rest[0] == APP_DATA_OP_UPDATE
    requires DecodeVec(rest[1..]).Some? && DecodeVec(rest[1..]).value.1 == []
    ensures p.data == BigEndian(APQ_COMPONENT_ID, 4) + [APP_DATA_OP_UPDATE]
              + EncodeVec(DecodeVec(rest[1..]).value.0).value
  {
    UintIsCanonical(p.data, 4);
    VecIsCanonical(rest[1..]);
    assert rest == [rest[0]] + rest[1..];
    assert EncodeVec(DecodeVec(rest[1..]).value.0).value + [] == EncodeVec(DecodeVec(rest[1..]).value.0).value;
  }

  /** A custom proposal reads as an attestation iff it is the one encoding of that attestation. */
  lemma AttestationDecodesIff(p: CustomProposal, u: ApqInfoUpdate)
    ensures FromCustomProposal(p) == Ok(u) <==> p == ToCustomProposal(u)
  {
    Pow256Values();
    if FromCustomProposal(p) == Ok(u) {
      var rest := DecodeUint(p.data, 4).value.1;
      StrictlyDecoded(p, rest);
      UpdateDecodesIff(DecodeVec(rest[1..]).value.0, u);
    }
    if p == ToCustomProposal(u) {
      WireSlices(u);
      var vec := EncodeVec(EncodeUpdate(u)).value;
      UintReadsBack(APQ_COMPONENT_ID, 4, [APP_DATA_OP_UPDATE] + vec);
      assert ([APP_DATA_OP_UPDATE] + vec)[1..] == vec;
      UpdateDecodesIff(EncodeUpdate(u), u);
    }
  }

  /** The attestation among a commit's applied proposals: refuse two custom proposals or a
      malformed one, `None` when there is none. */
  function Attestation(applied: Bundle): Result<Option<ApqInfoUpdate>, CombinerError> {
    if applied == [] then Ok(None)
    else
      var earlier := Attestation(applied[..|applied| - 1]);
      var p := applied[|applied| - 1].proposal;
      if earlier.Err? || !p.Custom? then earlier
      else if earlier.value.Some? then Err(ApqInfoMismatch)
      else
        match FromCustomProposal(p.custom)
        case Err(e) => Err(e)
        case Ok(u) => Ok(Some(u))
  }

  method FindApqInfoUpdate(applied: Bundle) returns (r: Result<Option<ApqInfoUpdate>, CombinerError>)
    ensures r == Attestation(applied)
  {
    var found: Option<ApqInfoUpdate> := None;
    for i := 0 to |applied|
      invariant Attestation(applied[..i]) == Ok(found)
    {
      assert applied[..i + 1][..i] == applied[..i];
      var p := applied[i].proposal;
      if p.Custom? {
        if found.Some? {
          FailureLasts(applied, i + 1);
          return Err(ApqInfoMismatch);
        }
        var u := FromCustomProposal(p.custom);
        if u.Err? {
          FailureLasts(applied, i + 1);
          return Err(u.error);
        }
        found := Some(u.value);
      }
    }
    assert applied[..|applied|] == applied;
    return Ok(found);
  }

  lemma {:induction false} FailureLasts(applied: Bundle, i: nat)
    requires i <= |applied| && Attestation(applied[..i]).Err?
    ensures Attestation(applied) == Attestation(applied[..i])
    decreases |applied| - i
  {
    if i < |applied| {
      assert applied[..i + 1][..i] == applied[..i];
      FailureLasts(applied, i + 1);
    } else {
      assert applied[..i] == applied;
    }
  }

  /** No attestation is reported iff no custom proposal was applied; one is reported iff exactly
      one custom proposal was applied and it is that attestation's encoding. */
  lemma {:induction false} AttestationIff(applied: Bundle)
    ensures Attestation(applied) == Ok(None) <==> Customs(applied) == []
    ensures forall u :: Attestation(applied) == Ok(Some(u)) <==>
              |Customs(applied)| == 1 && Customs(applied)[0].proposal.custom == ToCustomProposal(u)
  {
    if applied != [] {
      AttestationIff(applied[..|applied| - 1]);
      var p := applied[|applied| - 1].proposal;
      if p.Custom? {
        forall u ensures FromCustomProposal(p.custom) == Ok(u) <==> p.custom == ToCustomProposal(u) {
          AttestationDecodesIff(p.custom, u);
        }
      }
    }
  }

  /** The attestation on the wire, byte for byte: the proposal type, the component, the operation, the
      length of two epochs, then the classical epoch and the PQ one. */
  lemma AttestationLayout(u: ApqInfoUpdate)
    ensures ToCustomProposal(u) ==
            CustomProposal(0x0008, [0, 0, 0xFF, 0x01, 1, 16] + BigEndian(u.tEpoch, 8) + BigEndian(u.pqEpoch, 8))
    ensures TWOMLS_COMPONENT_ID == 0xFF02 && EPOCH_UNBOUND == 0xFFFF_FFFF_FFFF_FFFF
  {
    assert BigEndian(0xFF01, 4) == [0, 0, 0xFF, 0x01] by {
      assert BigEndian(0xFF, 3) == [0, 0, 0xFF] by {
        assert BigEndian(0, 2) == [0, 0] by {
          assert BigEndian(0, 1) == [0];
        }
      }
    }
    assert EncodeLength(16) == Some([16]);
    assert [0, 0, 0xFF, 0x01] + [1] + ([16] + EncodeUpdate(u))
        == [0, 0, 0xFF, 0x01, 1, 16] + BigEndian(u.tEpoch, 8) + BigEndian(u.pqEpoch, 8);
  }
}
