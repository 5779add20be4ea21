/** Identifiers of stored PSKs, byte for byte. */
module PskIds {
  import opened Prelude
  import opened Codec

  const PSK_DOMAIN_INJECTED: Byte := 0x52

  /** LE epoch, group id, domain byte: the external id of a secret injected at that epoch. */
  function InjectedSecretPskId(epoch: U64, groupId: Bytes): Bytes {
    LittleEndian(epoch, 8) + groupId + [PSK_DOMAIN_INJECTED]
  }

  /** `0x03`, component id, length header, psk id: the key an exported PSK is stored under. */
  function ApplicationStorageId(component: U32, pskId: Bytes): Option<Bytes> {
    match EncodeVec(pskId)
    case None => None
    case Some(v) => Some([0x03] + BigEndian(component, 4) + v)
  }

  /** An injected id names one epoch of one group. */
  lemma InjectedIdsAreInjective(e: U64, g: Bytes, f: U64, h: Bytes)
    ensures InjectedSecretPskId(e, g) == InjectedSecretPskId(f, h) <==> e == f && g == h
  {
    var a, b := InjectedSecretPskId(e, g), InjectedSecretPskId(f, h);
    Pow256Values();
    LittleEndianReadsBack(e, 8);
    LittleEndianReadsBack(f, 8);
    assert a[..8] == LittleEndian(e, 8) && a[8..|a| - 1] == g;
    assert b[..8] == LittleEndian(f, 8) && b[8..|b| - 1] == h;
  }

  ghost predicate Collides(epoch: U64, groupId: Bytes, component: U32, pskId: Bytes) {
    |pskId| == 32 && ApplicationStorageId(component, pskId) == Some(InjectedSecretPskId(epoch, groupId))
  }

  lemma StorageIdShape(component: U32, pskId: Bytes)
    requires |pskId| == 32
    ensures ApplicationStorageId(component, pskId) == Some([0x03] + BigEndian(component, 4) + [32] + pskId)
  {
    assert EncodeLength(32) == Some([32]);
    assert [0x03] + BigEndian(component, 4) + ([32] + pskId) == [0x03] + BigEndian(component, 4) + [32] + pskId;
  }

  /** Eight bytes that read as an epoch, an application discriminant and a component alike. */
  lemma LeadingBytes() returns (epoch: U64, component: U32)
    ensures LittleEndian(epoch, 8) == [0x03, 0, 0, 0xFF, 0x01, 32, 0, 0]
    ensures BigEndian(component, 4) == [0, 0, 0xFF, 0x01]
  {
    Pow256Values();
    var lead: Bytes := [0x03, 0, 0, 0xFF, 0x01, 32, 0, 0];
    var id: Bytes := [0, 0, 0xFF, 0x01];
    LittleEndianIsOnto(lead);
    BigEndianIsOnto(id);
    epoch, component := FromLittleEndian(lead), FromBigEndian(id);
  }

  lemma LeadingBytesCollide(epoch: U64, component: U32, groupId: Bytes)
    requires LittleEndian(epoch, 8) == [0x03, 0, 0, 0xFF, 0x01, 32, 0, 0]
    requires BigEndian(component, 4) == [0, 0, 0xFF, 0x01] && |groupId| == 29
    ensures Collides(epoch, groupId, component, [0, 0] + groupId + [PSK_DOMAIN_INJECTED])
  {
    var pskId := [0, 0] + groupId + [PSK_DOMAIN_INJECTED];
    StorageIdShape(component, pskId);
    assert [0x03] + [0, 0, 0xFF, 0x01] + [32] + pskId
        == [0x03, 0, 0, 0xFF, 0x01, 32, 0, 0] + groupId + [PSK_DOMAIN_INJECTED];
  }

  lemma TwentyNineByteGroupsCollide(groupId: Bytes)
    requires |groupId| == 29
    ensures exists epoch: U64, component: U32, pskId: Bytes :: Collides(epoch, groupId, component, pskId)
  {
    var epoch, component := LeadingBytes();
    LeadingBytesCollide(epoch, component, groupId);
  }

  /** An injected id can equal the storage id of some exported PSK (whose ids are 32 bytes) iff the
      group id is 29 bytes long: length alone keeps the two families apart. */
  lemma FamiliesCollideIff(groupId: Bytes)
    ensures (exists epoch: U64, component: U32, pskId: Bytes :: Collides(epoch, groupId, component, pskId)) <==>
              |groupId| == 29
  {
    forall epoch: U64, component: U32, pskId: Bytes | Collides(epoch, groupId, component, pskId)
      ensures |groupId| == 29
    {
      StorageIdShape(component, pskId);
      assert |InjectedSecretPskId(epoch, groupId)| == 9 + |groupId|;
    }
    if |groupId| == 29 {
      TwentyNineByteGroupsCollide(groupId);
    }
  }

  /** With the crate's 32-byte group ids the families are disjoint: 41 bytes against 38. */
  lemma FamiliesAreDisjoint(epoch: U64, groupId: Bytes, component: U32, pskId: Bytes)
    requires |groupId| == 32 && |pskId| == 32
    ensures |InjectedSecretPskId(epoch, groupId)| == 41
    ensures ApplicationStorageId(component, pskId).Some? && |ApplicationStorageId(component, pskId).value| == 38
    ensures ApplicationStorageId(component, pskId) != Some(InjectedSecretPskId(epoch, groupId))
  {
    StorageIdShape(component, pskId);
  }

  /** The leading byte tells the families apart except at every 256th epoch: an injected id starts with
      the application discriminant iff its epoch's low byte is 3. */
  lemma LeadingBytesMeetIff(epoch: U64, groupId: Bytes, component: U32, pskId: Bytes)
    requires |pskId| == 32
    ensures InjectedSecretPskId(epoch, groupId)[0] == ApplicationStorageId(component, pskId).value[0] <==>
              epoch % 256 == 3
  {
    StorageIdShape(component, pskId);
    assert LittleEndian(epoch, 8)[0] as int == epoch % 256;
  }

  /** An injected id, byte for byte: the epoch little-endian, the group id, the domain byte. */
  lemma InjectedIdLayout(epoch: U64, groupId: Bytes)
    ensures var id := InjectedSecretPskId(epoch, groupId);
            && |id| == 9 + |groupId|
            && FromLittleEndian(id[..8]) == epoch && id[8..8 + |groupId|] == groupId && id[8 + |groupId|] == 0x52
  {
    Pow256Values();
    LittleEndianReadsBack(epoch, 8);
    assert InjectedSecretPskId(epoch, groupId)[..8] == LittleEndian(epoch, 8);
  }
}
