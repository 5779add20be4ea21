/** Group-state storage: a three-epoch retention window per group, proved against the unbounded
    record of every write, and the versioned blob one group's record travels in. */
module Storage {
  import opened Prelude
  import opened Codec

  const EPOCH_RETENTION: nat := 3

  const STORAGE_FORMAT_VERSION: Byte := 1

  datatype Epoch = Epoch(id: U64, data: Bytes)

  datatype Record = Record(state: Bytes, epochs: seq<Epoch>)

  datatype Write = Write(group: Bytes, state: Bytes, inserts: seq<Epoch>, updates: seq<Epoch>)

  datatype Error = ArchiveInvalid

  type Groups = map<Bytes, Record>

  /** The index of the first entry for `id`. */
  function Find(epochs: seq<Epoch>, id: U64): (r: Option<nat>)
    ensures r.None? <==> forall k :: 0 <= k < |epochs| ==> epochs[k].id != id
    ensures r.Some? ==> r.value < |epochs| && epochs[r.value].id == id && forall k :: 0 <= k < r.value ==>
              epochs[k].id != id
  {
    if epochs == [] then None
    else if epochs[0].id == id then Some(0)
    else
      match Find(epochs[1..], id)
      case None => None
      case Some(k) => Some(k + 1)
  }

  function Update(epochs: seq<Epoch>, e: Epoch): (r: seq<Epoch>)
    ensures |r| == |epochs|
  {
    match Find(epochs, e.id)
    case None => epochs
    case Some(k) => epochs[k := e]
  }

  function UpdateAll(epochs: seq<Epoch>, updates: seq<Epoch>): (r: seq<Epoch>)
    ensures |r| == |epochs|
  {
    if updates == [] then epochs
    else Update(UpdateAll(epochs, updates[..|updates| - 1]), updates[|updates| - 1])
  }

  function Retained<T>(s: seq<T>): seq<T> {
    if |s| <= EPOCH_RETENTION then s else s[|s| - EPOCH_RETENTION..]
  }

  function EpochsOf(groups: Groups, group: Bytes): seq<Epoch> {
    if group in groups then groups[group].epochs else []
  }

  function Apply(groups: Groups, w: Write): Groups {
    groups[w.group := Record(w.state, Retained(UpdateAll(EpochsOf(groups, w.group) + w.inserts, w.updates)))]
  }

  function Run(writes: seq<Write>): Groups {
    if writes == [] then map[]
    else Apply(Run(writes[..|writes| - 1]), writes[|writes| - 1])
  }

  function Lookup(groups: Groups, group: Bytes, id: U64): Option<Bytes> {
    var epochs := EpochsOf(groups, group);
    match Find(epochs, id)
    case None => None
    case Some(k) => Some(epochs[k].data)
  }

  function MaxEpochId(groups: Groups, group: Bytes): Option<U64> {
    var epochs := EpochsOf(groups, group);
    if epochs == [] then None else Some(epochs[|epochs| - 1].id)
  }

  // ---- the unbounded record ----

  function Ids(epochs: seq<Epoch>): (r: seq<U64>)
    ensures |r| == |epochs|
    ensures forall k :: 0 <= k < |r| ==> r[k] == epochs[k].id
  {
    seq(|epochs|, k requires 0 <= k < |epochs| => epochs[k].id)
  }

  /** Every epoch id ever inserted for a group, in insertion order. */
  ghost function Inserted(writes: seq<Write>, group: Bytes): seq<U64> {
    if writes == [] then []
    else
      var w := writes[|writes| - 1];
      Inserted(writes[..|writes| - 1], group) + if w.group == group then Ids(w.inserts) else []
  }

  ghost function InsertData(m: map<U64, Bytes>, inserts: seq<Epoch>): (r: map<U64, Bytes>)
    ensures forall id :: id in r <==> id in m || id in Ids(inserts)
  {
    if inserts == [] then m
    else
      var e := inserts[|inserts| - 1];
      assert Ids(inserts) == Ids(inserts[..|inserts| - 1]) + [e.id];
      InsertData(m, inserts[..|inserts| - 1])[e.id := e.data]
  }

  /** An update rewrites an epoch that was inserted before it; it never adds one. */
  ghost function UpdateData(m: map<U64, Bytes>, updates: seq<Epoch>): (r: map<U64, Bytes>)
    ensures r.Keys == m.Keys
  {
    if updates == [] then m
    else
      var e := updates[|updates| - 1];
      var before := UpdateData(m, updates[..|updates| - 1]);
      if e.id in before then before[e.id := e.data] else before
  }

  /** The latest data written for each epoch of a group, none ever dropped. */
  ghost function Latest(writes: seq<Write>, group: Bytes): (r: map<U64, Bytes>)
    ensures forall id :: id in r <==> id in Inserted(writes, group)
  {
    if writes == [] then map[]
    else
      var w := writes[|writes| - 1];
      var before := Latest(writes[..|writes| - 1], group);
      if w.group == group then UpdateData(InsertData(before, w.inserts), w.updates) else before
  }

  ghost predicate Ascending(ids: seq<U64>) {
    forall i, j :: 0 <= i < j < |ids| ==> ids[i] < ids[j]
  }

  ghost function Entries(ids: seq<U64>, data: map<U64, Bytes>): (r: seq<Epoch>)
    requires forall id :: id in ids ==> id in data
    ensures |r| == |ids|
    ensures forall k :: 0 <= k < |ids| ==> ids[k] in data && r[k] == Epoch(ids[k], data[ids[k]])
  {
    seq(|ids|, k requires 0 <= k < |ids| && ids[k] in data => Epoch(ids[k], data[ids[k]]))
  }

  lemma {:induction false} InsertKeepsOlder(m: map<U64, Bytes>, inserts: seq<Epoch>, id: U64)
    requires id in m && id !in Ids(inserts)
    ensures InsertData(m, inserts)[id] == m[id]
  {
    if inserts != [] {
      assert Ids(inserts) == Ids(inserts[..|inserts| - 1]) + [inserts[|inserts| - 1].id];
      InsertKeepsOlder(m, inserts[..|inserts| - 1], id);
    }
  }

  lemma {:induction false} InsertIsLatest(m: map<U64, Bytes>, inserts: seq<Epoch>, k: nat)
    requires Ascending(Ids(inserts)) && k < |inserts|
    ensures InsertData(m, inserts)[inserts[k].id] == inserts[k].data
  {
    var e := inserts[|inserts| - 1];
    var shorter := inserts[..|inserts| - 1];
    assert Ids(inserts) == Ids(shorter) + [e.id];
    if k < |inserts| - 1 {
      assert Ids(inserts)[k] < Ids(inserts)[|inserts| - 1];
      InsertIsLatest(m, shorter, k);
    }
  }

  lemma {:induction false} UpdatesKeepEntries(ids: seq<U64>, data: map<U64, Bytes>, updates: seq<Epoch>)
    requires Ascending(ids) && forall id :: id in ids ==> id in data
    ensures UpdateAll(Entries(ids, data), updates) == Entries(ids, UpdateData(data, updates))
  {
    if updates != [] {
      var e := updates[|updates| - 1];
      var before := UpdateData(data, updates[..|updates| - 1]);
      UpdatesKeepEntries(ids, data, updates[..|updates| - 1]);
      var found := Find(Entries(ids, before), e.id);
      if found.None? {
        assert forall k :: 0 <= k < |ids| ==> Entries(ids, before)[k].id != e.id;
      }
      assert Update(Entries(ids, before), e) == Entries(ids, UpdateData(data, updates));
    }
  }

  lemma AppendIsEntries(ids: seq<U64>, data: map<U64, Bytes>, inserts: seq<Epoch>)
    requires Ascending(ids + Ids(inserts)) && forall id :: id in ids ==> id in data
    ensures Entries(ids, data) + inserts == Entries(ids + Ids(inserts), InsertData(data, inserts))
  {
    var all := ids + Ids(inserts);
    forall i, j | 0 <= i < j < |inserts| ensures Ids(inserts)[i] < Ids(inserts)[j] {
      assert all[|ids| + i] < all[|ids| + j];
    }
    forall k | 0 <= k < |all|
      ensures (Entries(ids, data) + inserts)[k] == Epoch(all[k], InsertData(data, inserts)[all[k]])
    {
      if k < |ids| {
        forall j | 0 <= j < |inserts| ensures Ids(inserts)[j] != all[k] {
          assert all[k] < all[|ids| + j];
        }
        InsertKeepsOlder(data, inserts, all[k]);
      } else {
        InsertIsLatest(data, inserts, k - |ids|);
      }
    }
  }

  /** One write on a window agrees with the same write on the unbounded record. */
  lemma WriteKeepsEntries(ids: seq<U64>, data: map<U64, Bytes>, w: Write)
    requires Ascending(ids + Ids(w.inserts)) && forall id :: id in ids ==> id in data
    ensures
      var all := ids + Ids(w.inserts);
      var latest := UpdateData(InsertData(data, w.inserts), w.updates);
      && (forall id :: id in all ==> id in latest)
      && Retained(UpdateAll(Entries(ids, data) + w.inserts, w.updates)) == Entries(Retained(all), latest)
  {
    AppendIsEntries(ids, data, w.inserts);
    UpdatesKeepEntries(ids + Ids(w.inserts), InsertData(data, w.inserts), w.updates);
  }

  lemma RetainedOfRetained(ids: seq<U64>, more: seq<U64>)
    requires Ascending(ids + more)
    ensures Ascending(Retained(ids) + more)
    ensures Retained(Retained(ids) + more) == Retained(ids + more)
  {
    var kept := Retained(ids);
    assert (ids + more)[|ids| - |kept|..] == kept + more;
  }

  lemma AscendingPrefix(ids: seq<U64>, more: seq<U64>)
    requires Ascending(ids + more)
    ensures Ascending(ids)
  {
    assert forall k :: 0 <= k < |ids| ==> (ids + more)[k] == ids[k];
  }

  /** After any run of writes to any number of groups, a group whose inserted ids ascend keeps
      exactly its three highest, each with the latest data written for it. */
  lemma {:induction false} StorageRefinesRecord(writes: seq<Write>, group: Bytes)
    requires Ascending(Inserted(writes, group))
    ensures EpochsOf(Run(writes), group) == Entries(Retained(Inserted(writes, group)), Latest(writes, group))
  {
    if writes != [] {
      var w := writes[|writes| - 1];
      var earlier := writes[..|writes| - 1];
      var ids := Inserted(earlier, group);
      AscendingPrefix(ids, if w.group == group then Ids(w.inserts) else []);
      StorageRefinesRecord(earlier, group);
      if w.group == group {
        RetainedOfRetained(ids, Ids(w.inserts));
        WriteKeepsEntries(Retained(ids), Latest(earlier, group), w);
      } else {
        assert Inserted(writes, group) == ids;
      }
    }
  }

  lemma FindInEntries(ids: seq<U64>, data: map<U64, Bytes>, id: U64)
    requires forall x :: x in ids ==> x in data
    ensures id in ids <==> Find(Entries(ids, data), id).Some?
    ensures id in ids ==> Entries(ids, data)[Find(Entries(ids, data), id).value].data == data[id]
  {
    if id in ids {
      var k :| 0 <= k < |ids| && ids[k] == id;
      assert Entries(ids, data)[k].id == id;
    }
  }

  /** What a caller reads: an epoch is found iff it is among the three highest inserted, and then
      with its latest data; the maximum is the highest inserted id. */
  lemma ReadsLatestOfThree(writes: seq<Write>, group: Bytes, id: U64)
    requires Ascending(Inserted(writes, group))
    ensures Lookup(Run(writes), group, id) ==
            if id in Retained(Inserted(writes, group)) then Some(Latest(writes, group)[id]) else None
    ensures |Retained(Inserted(writes, group))| == if |Inserted(writes, group)| < 3 then |Inserted(writes, group)|
              else 3
    ensures MaxEpochId(Run(writes), group) ==
            if Inserted(writes, group) == [] then None
            else Some(Inserted(writes, group)[|Inserted(writes, group)| - 1])
  {
    StorageRefinesRecord(writes, group);
    FindInEntries(Retained(Inserted(writes, group)), Latest(writes, group), id);
  }

  /** The last state snapshot written for a group. */
  ghost function LastState(writes: seq<Write>, group: Bytes): Option<Bytes> {
    if writes == [] then None
    else if writes[|writes| - 1].group == group then Some(writes[|writes| - 1].state)
    else LastState(writes[..|writes| - 1], group)
  }

  /** After any writes at all, a group is stored iff it was written, under the state of its last write. */
  lemma {:induction false} StateIsLast(writes: seq<Write>, group: Bytes)
    ensures if group in Run(writes) then LastState(writes, group) == Some(Run(writes)[group].state)
            else LastState(writes, group) == None
  {
    if writes != [] {
      StateIsLast(writes[..|writes| - 1], group);
    }
  }

  /** Writes to other groups leave a group's record as it was. */
  lemma OtherGroupsUntouched(writes: seq<Write>, w: Write, group: Bytes)
    requires w.group != group
    ensures group in Run(writes + [w]) <==> group in Run(writes)
    ensures group in Run(writes) ==> Run(writes + [w])[group] == Run(writes)[group]
  {
    assert (writes + [w])[..|writes|] == writes;
  }

  // ---- the archive blob ----

  function EncodeEpoch(e: Epoch): Option<Bytes> {
    match EncodeVec(e.data)
    case None => None
    case Some(data) => Some(BigEndian(e.id, 8) + data)
  }

  function EncodeEpochs(epochs: seq<Epoch>): Option<Bytes> {
    if epochs == [] then Some([])
    else
      match (EncodeEpoch(epochs[0]), EncodeEpochs(epochs[1..]))
      case (Some(first), Some(rest)) => Some(first + rest)
      case _ => None
  }

  function EncodeFrame(group: Bytes, state: Bytes, entries: Bytes): Option<Bytes> {
    match (EncodeVec(group), EncodeVec(state), EncodeVec(entries))
    case (Some(id), Some(st), Some(ep)) => Some([STORAGE_FORMAT_VERSION] + id + st + ep)
    case _ => None
  }

  /** The blob of one group's record, `None` where some vector is too long for the codec. */
  function Export(group: Bytes, record: Record): Option<Bytes> {
    match EncodeEpochs(record.epochs)
    case Some(entries) => EncodeFrame(group, record.state, entries)
    case None => None
  }

  function DecodeEpoch(b: Bytes): (r: Parsed<Epoch>)
    ensures r.Some? ==> |r.value.1| < |b|
  {
    match DecodeUint(b, 8)
    case None => None
    case Some((id, rest)) =>
      Pow256Values();
      match DecodeVec(rest)
      case None => None
      case Some((data, tail)) => Some((Epoch(id, data), tail))
  }

  function DecodeEpochs(b: Bytes): Option<seq<Epoch>> {
    if b == [] then Some([])
    else
      match DecodeEpoch(b)
      case None => None
      case Some((e, rest)) =>
        match DecodeEpochs(rest)
        case None => None
        case Some(es) => Some([e] + es)
  }

  predicate Importable(epochs: seq<Epoch>) {
    && |epochs| <= EPOCH_RETENTION
    && forall k :: 1 <= k < |epochs| ==> epochs[k - 1].id < epochs[k].id
  }

  function DecodeFrame(blob: Bytes): Option<(Bytes, Bytes, Bytes)> {
    if blob == [] || blob[0] != STORAGE_FORMAT_VERSION then None
    else
      match DecodeVec(blob[1..])
      case None => None
      case Some((group, afterId)) =>
        match DecodeVec(afterId)
        case None => None
        case Some((state, afterState)) =>
          match DecodeVec(afterState)
          case None => None
          case Some((entries, rest)) => if rest == [] then Some((group, state, entries)) else None
  }

  function Import(blob: Bytes): Result<(Bytes, Record), Error> {
    match DecodeFrame(blob)
    case None => Err(ArchiveInvalid)
    case Some((group, state, entries)) =>
      match DecodeEpochs(entries)
      case None => Err(ArchiveInvalid)
      case Some(epochs) =>
        if Importable(epochs) then Ok((group, Record(state, epochs))) else Err(ArchiveInvalid)
  }

  lemma EpochReadsBack(e: Epoch, rest: Bytes)
    requires EncodeEpoch(e).Some?
    ensures DecodeEpoch(EncodeEpoch(e).value + rest) == Some((e, rest))
  {
    Pow256Values();
    var data := EncodeVec(e.data).value;
    assert EncodeEpoch(e).value + rest == BigEndian(e.id, 8) + (data + rest);
    UintReadsBack(e.id, 8, data + rest);
    VecReadsBack(e.data, rest);
  }

  lemma EpochIsCanonical(b: Bytes)
    requires DecodeEpoch(b).Some?
    ensures EncodeEpoch(DecodeEpoch(b).value.0).Some?
    ensures b == EncodeEpoch(DecodeEpoch(b).value.0).value + DecodeEpoch(b).value.1
  {
    UintIsCanonical(b, 8);
    var (id, rest) := DecodeUint(b, 8).value;
    VecIsCanonical(rest);
    var (e, tail) := DecodeEpoch(b).value;
    assert BigEndian(id, 8) + (EncodeVec(e.data).value + tail) == BigEndian(id, 8) + EncodeVec(e.data).value + tail;
  }

  lemma {:induction false} EpochsReadBack(epochs: seq<Epoch>)
    requires EncodeEpochs(epochs).Some?
    ensures DecodeEpochs(EncodeEpochs(epochs).value) == Some(epochs)
  {
    if epochs != [] {
      EpochReadsBack(epochs[0], EncodeEpochs(epochs[1..]).value);
      EpochsReadBack(epochs[1..]);
      assert epochs == [epochs[0]] + epochs[1..];
    }
  }

  lemma {:induction false} EpochsAreCanonical(b: Bytes)
    requires DecodeEpochs(b).Some?
    ensures EncodeEpochs(DecodeEpochs(b).value) == Some(b)
    decreases |b|
  {
    if b != [] {
      EpochIsCanonical(b);
      EpochsAreCanonical(DecodeEpoch(b).value.1);
      assert DecodeEpochs(b).value[1..] == DecodeEpochs(DecodeEpoch(b).value.1).value;
    }
  }

  lemma FrameReadsBack(group: Bytes, state: Bytes, entries: Bytes)
    requires EncodeFrame(group, state, entries).Some?
    ensures DecodeFrame(EncodeFrame(group, state, entries).value) == Some((group, state, entries))
  {
    var blob := EncodeFrame(group, state, entries).value;
    var st, ep := EncodeVec(state).value, EncodeVec(entries).value;
    assert blob[1..] == EncodeVec(group).value + (st + ep);
    VecReadsBack(group, st + ep);
    VecReadsBack(state, ep);
    VecReadsBack(entries, []);
    assert ep + [] == ep;
  }

  lemma VecsAreCanonical(body: Bytes, group: Bytes, state: Bytes, entries: Bytes, afterId: Bytes, afterState: Bytes)
    requires DecodeVec(body) == Some((group, afterId))
    requires DecodeVec(afterId) == Some((state, afterState))
    requires DecodeVec(afterState) == Some((entries, []))
    ensures EncodeVec(group).Some? && EncodeVec(state).Some? && EncodeVec(entries).Some?
    ensures body == EncodeVec(group).value + EncodeVec(state).value + EncodeVec(entries).value
  {
    VecIsCanonical(body);
    VecIsCanonical(afterId);
    VecIsCanonical(afterState);
  }

  lemma Prefixed(blob: Bytes, id: Bytes, st: Bytes, ep: Bytes)
    requires blob != [] && blob[1..] == id + st + ep
    ensures blob == [blob[0]] + id + st + ep
  {
    assert blob == [blob[0]] + blob[1..];
  }

  lemma FrameIsCanonical(blob: Bytes, group: Bytes, state: Bytes, entries: Bytes)
    requires DecodeFrame(blob) == Some((group, state, entries))
    ensures EncodeFrame(group, state, entries) == Some(blob)
  {
    var afterId := DecodeVec(blob[1..]).value.1;
    var afterState := DecodeVec(afterId).value.1;
    VecsAreCanonical(blob[1..], group, state, entries, afterId, afterState);
    Prefixed(blob, EncodeVec(group).value, EncodeVec(state).value, EncodeVec(entries).value);
  }

  /** What the neighbour-by-neighbour check accepts: at most three epochs, strictly ascending. */
  lemma ImportableIff(epochs: seq<Epoch>)
    ensures Importable(epochs) <==> |epochs| <= 3 && Ascending(Ids(epochs))
  {
    var ids := Ids(epochs);
    if Importable(epochs) && |epochs| == 3 {
      assert epochs[0].id < epochs[1].id < epochs[2].id;
    }
    if Ascending(ids) {
      assert forall k :: 1 <= k < |epochs| ==> ids[k - 1] < ids[k];
    }
  }

  /** A blob is accepted iff it is the export of a record of at most three ascending epochs, and then
      exactly that record comes back: no second blob decodes to it. */
  lemma ImportIffExport(blob: Bytes, group: Bytes, record: Record)
    ensures Import(blob) == Ok((group, record)) <==>
            Export(group, record) == Some(blob) && |record.epochs| <= 3 && Ascending(Ids(record.epochs))
  {
    ImportableIff(record.epochs);
    if Import(blob) == Ok((group, record)) {
      var (g, state, entries) := DecodeFrame(blob).value;
      FrameIsCanonical(blob, g, state, entries);
      EpochsAreCanonical(entries);
    }
    if Export(group, record) == Some(blob) && Importable(record.epochs) {
      FrameReadsBack(group, record.state, EncodeEpochs(record.epochs).value);
      EpochsReadBack(record.epochs);
    }
  }

  /** A record on the wire: the format version, then three vectors, the last of them each epoch's id,
      big-endian, and its data vector, in order. */
  lemma ExportLayout(group: Bytes, state: Bytes, a: Epoch, b: Epoch)
    requires |group| < 64 && |state| < 64 && |a.data| < 16 && |b.data| < 16
    ensures Export(group, Record(state, [a, b])) ==
            Some([1] + [|group|] + group + [|state|] + state + [18 + |a.data| + |b.data|]
                 + (BigEndian(a.id, 8) + [|a.data|] + a.data + (BigEndian(b.id, 8) + [|b.data|] + b.data)))
  {
    var epochs := [a, b];
    assert epochs[1..] == [b] && [b][1..] == [];
    assert EncodeEpochs([]) == Some([]);
    var first := BigEndian(a.id, 8) + ([|a.data|] + a.data);
    var second := BigEndian(b.id, 8) + ([|b.data|] + b.data);
    assert EncodeEpochs([b]) == Some(second + []);
    assert second + [] == second;
    assert EncodeEpochs(epochs) == Some(first + second);
    assert first == BigEndian(a.id, 8) + [|a.data|] + a.data;
    assert second == BigEndian(b.id, 8) + [|b.data|] + b.data;
    assert [STORAGE_FORMAT_VERSION] + ([|group|] + group) + ([|state|] + state)
        + ([|first + second|] + (first + second))
        == [1] + [|group|] + group + [|state|] + state + [|first + second|] + (first + second);
  }

  /** The length of a vector with its header. */
  function VecSize(n: nat): nat {
    n + if n < 0x40 then 1 else if n < 0x4000 then 2 else 4
  }

  function EpochsSize(epochs: seq<Epoch>): nat {
    if epochs == [] then 0 else 8 + VecSize(|epochs[0].data|) + EpochsSize(epochs[1..])
  }

  /** Every vector of the blob fits its header. */
  predicate Exportable(group: Bytes, record: Record) {
    && |group| < LENGTH_LIMIT && |record.state| < LENGTH_LIMIT
    && (forall e | e in record.epochs :: |e.data| < LENGTH_LIMIT)
    && EpochsSize(record.epochs) < LENGTH_LIMIT
  }

  lemma {:induction false} EpochsEncodeIff(epochs: seq<Epoch>)
    ensures EncodeEpochs(epochs).Some? <==> forall e :: e in epochs ==> |e.data| < LENGTH_LIMIT
    ensures EncodeEpochs(epochs).Some? ==> |EncodeEpochs(epochs).value| == EpochsSize(epochs)
  {
    if epochs != [] {
      EpochsEncodeIff(epochs[1..]);
      assert epochs == [epochs[0]] + epochs[1..];
    }
  }

  lemma ExportableIff(group: Bytes, record: Record)
    ensures Export(group, record).Some? <==> Exportable(group, record)
  {
    EpochsEncodeIff(record.epochs);
  }

  /** What a blob imports as is decided by the epoch invariants of the record it was made of. */
  lemma ExportReadsBack(group: Bytes, record: Record)
    ensures Export(group, record).Some? ==>
              Import(Export(group, record).value) ==
              if Importable(record.epochs) then Ok((group, record)) else Err(ArchiveInvalid)
  {
    if Export(group, record).Some? {
      FrameReadsBack(group, record.state, EncodeEpochs(record.epochs).value);
      EpochsReadBack(record.epochs);
    }
  }

  lemma WindowIsImportable(ids: seq<U64>, data: map<U64, Bytes>)
    requires Ascending(ids) && forall id :: id in ids ==> id in data
    ensures Importable(Entries(Retained(ids), data))
  {
    var kept := Retained(ids);
    forall k | 1 <= k < |kept| ensures kept[k - 1] < kept[k] {
      var cut := |ids| - |kept|;
      assert kept[k - 1] == ids[cut + k - 1] && kept[k] == ids[cut + k];
    }
  }

  /** Every record a run of ascending writes can reach exports to a blob that imports back. */
  lemma ReachableRecordsImport(writes: seq<Write>, group: Bytes)
    requires Ascending(Inserted(writes, group)) && group in Run(writes)
    requires Export(group, Run(writes)[group]).Some?
    ensures Import(Export(group, Run(writes)[group]).value) == Ok((group, Run(writes)[group]))
  {
    StorageRefinesRecord(writes, group);
    WindowIsImportable(Inserted(writes, group), Latest(writes, group));
    ImportableIff(Run(writes)[group].epochs);
    ImportIffExport(Export(group, Run(writes)[group]).value, group, Run(writes)[group]);
  }

  /** The shared map behind every clone of a storage handle. */
  class PersistableGroupStorage {
    var groups: Groups

    constructor ()
      ensures groups == map[]
    {
      groups := map[];
    }

    method WriteGroup(w: Write)
      modifies this
      ensures groups == Apply(old(groups), w)
    {
      var epochs := EpochsOf(groups, w.group);
      for i := 0 to |w.inserts|
        invariant epochs == EpochsOf(groups, w.group) + w.inserts[..i]
      {
        epochs := epochs + [w.inserts[i]];
      }
      assert w.inserts[..|w.inserts|] == w.inserts;
      ghost var appended := epochs;
      for i := 0 to |w.updates|
        invariant epochs == UpdateAll(appended, w.updates[..i])
      {
        var slot := Find(epochs, w.updates[i].id);
        assert w.updates[..i + 1][..i] == w.updates[..i];
        if slot.Some? {
          epochs := epochs[slot.value := w.updates[i]];
        }
      }
      assert w.updates[..|w.updates|] == w.updates;
      ghost var full := epochs;
      while |epochs| > EPOCH_RETENTION
        invariant |epochs| <= |full| && epochs == full[|full| - |epochs|..]
        invariant |epochs| < |full| ==> |epochs| >= EPOCH_RETENTION
      {
        epochs := epochs[1..];
      }
      assert epochs == Retained(full);
      groups := groups[w.group := Record(w.state, epochs)];
    }

    /** Exporting fails exactly for an unknown group and for parts too long for their headers; the blob
        imports back as this very group and record, or, if the record breaks the epoch invariants, as
        nothing at all. */
    method ExportGroup(group: Bytes) returns (r: Result<Bytes, Error>)
      ensures r.Ok? <==> group in groups && Exportable(group, groups[group])
      ensures r.Ok? ==>
                Import(r.value) ==
                if Importable(groups[group].epochs) then Ok((group, groups[group])) else Err(ArchiveInvalid)
    {
      if group !in groups {
        return Err(ArchiveInvalid);
      }
      ExportableIff(group, groups[group]);
      ExportReadsBack(group, groups[group]);
      var blob := Export(group, groups[group]);
      r := if blob.Some? then Ok(blob.value) else Err(ArchiveInvalid);
    }

    method ImportGroup(blob: Bytes) returns (r: Result<Bytes, Error>)
      modifies this
      ensures r.Ok? <==> exists group, record :: Export(group, record) == Some(blob) && Importable(record.epochs)
      ensures r.Ok? ==>
                exists record :: Export(r.value, record) == Some(blob) && groups == old(groups)[r.value := record]
      ensures r.Err? ==> groups == old(groups)
    {
      var decoded := Import(blob);
      if decoded.Err? {
        forall group, record | Export(group, record) == Some(blob) ensures !Importable(record.epochs) {
          ImportableIff(record.epochs);
          ImportIffExport(blob, group, record);
        }
        return Err(ArchiveInvalid);
      }
      ImportIffExport(blob, decoded.value.0, decoded.value.1);
      ImportableIff(decoded.value.1.epochs);
      var (group, record) := decoded.value;
      groups := groups[group := record];
      return Ok(group);
    }
  }
}
