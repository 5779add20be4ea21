/** The synthetic key-package store: one shared map behind every clone, a capture mode that
    records what a generate call inserts, and a listing in a deterministic order. */
module KeyPackageStore {
  import opened Prelude
  import opened ByteOrder

  datatype KeyPackageData = KeyPackageData(keyPackage: Bytes, initKey: Bytes, leafKey: Bytes, expiration: U64)

  type Secret = (Bytes, KeyPackageData)

  type Entries = map<Bytes, KeyPackageData>

  /** Strictly ascending ids, each below everything after it. */
  ghost predicate Sorted(r: seq<Secret>) {
    forall i, j :: 0 <= i < j < |r| ==> Less(r[i].0, r[j].0)
  }

  /** `r` is the listing of `m`: its pairs, strictly ordered by id. */
  ghost predicate Lists(r: seq<Secret>, m: Entries) {
    && Sorted(r)
    && (forall p :: p in r <==> p.0 in m && m[p.0] == p.1)
  }

  function FromList(r: seq<Secret>): Entries {
    if r == [] then map[] else FromList(r[..|r| - 1])[r[|r| - 1].0 := r[|r| - 1].1]
  }

  function InsertSorted(p: Secret, r: seq<Secret>): seq<Secret> {
    if r == [] || Less(p.0, r[0].0) then [p] + r else [r[0]] + InsertSorted(p, r[1..])
  }

  function SortById(s: seq<Secret>): seq<Secret> {
    if s == [] then [] else InsertSorted(s[|s| - 1], SortById(s[..|s| - 1]))
  }

  lemma {:induction false} InsertSortedMembers(p: Secret, r: seq<Secret>, x: Secret)
    ensures x in InsertSorted(p, r) <==> x == p || x in r
  {
    if r != [] && !Less(p.0, r[0].0) {
      InsertSortedMembers(p, r[1..], x);
    }
  }

  lemma {:induction false} InsertSortedOrders(p: Secret, r: seq<Secret>)
    requires Sorted(r) && forall q :: q in r ==> q.0 != p.0
    ensures Sorted(InsertSorted(p, r))
  {
    var out := InsertSorted(p, r);
    if r == [] {
    } else if Less(p.0, r[0].0) {
      forall j | 0 <= j < |r| ensures Less(p.0, r[j].0) {
        if j > 0 {
          LessIsTransitive(p.0, r[0].0, r[j].0);
        }
      }
    } else {
      LessIsTotal(p.0, r[0].0);
      assert r[0] in r;
      InsertSortedOrders(p, r[1..]);
      forall j | 1 <= j < |out| ensures Less(r[0].0, out[j].0) {
        InsertSortedMembers(p, r[1..], out[j]);
        assert out[j] in InsertSorted(p, r[1..]);
      }
    }
  }

  lemma {:induction false} SortByIdSorts(s: seq<Secret>)
    requires forall i, j :: 0 <= i < j < |s| ==> s[i].0 != s[j].0
    ensures Sorted(SortById(s))
    ensures forall x :: x in SortById(s) <==> x in s
  {
    if s != [] {
      var front := s[..|s| - 1];
      SortByIdSorts(front);
      InsertSortedOrders(s[|s| - 1], SortById(front));
      forall x ensures x in SortById(s) <==> x in s {
        InsertSortedMembers(s[|s| - 1], SortById(front), x);
      }
    }
  }

  lemma ListsTail(r: seq<Secret>, m: Entries)
    requires Lists(r, m) && r != []
    ensures r[0].0 in m && Lists(r[1..], m - {r[0].0})
  {
    assert r[0] in r;
    forall p ensures p in r[1..] <==> p.0 in m - {r[0].0} && m[p.0] == p.1 {
      if p in r[1..] {
        var j :| 1 <= j < |r| && r[j] == p;
        LessIsTotal(r[0].0, r[j].0);
        assert p in r;
      }
      if p.0 in m - {r[0].0} && m[p.0] == p.1 {
        var j :| 0 <= j < |r| && r[j] == p;
        assert r[1..][j - 1] == p;
      }
    }
  }

  lemma FirstIsUnique(r: seq<Secret>, s: seq<Secret>, m: Entries)
    requires Lists(r, m) && Lists(s, m) && r != []
    ensures s != [] && r[0] == s[0]
  {
    assert r[0] in r;
    assert r[0] in s;
    assert s[0] in s;
    assert s[0] in r;
    var i :| 0 <= i < |r| && r[i] == s[0];
    var j :| 0 <= j < |s| && s[j] == r[0];
    LessIsTotal(r[0].0, s[0].0);
  }

  /** The listing depends only on the map, not on the order its entries were inserted or read. */
  lemma {:induction false} ListingIsUnique(r: seq<Secret>, s: seq<Secret>, m: Entries)
    requires Lists(r, m) && Lists(s, m)
    ensures r == s
    decreases |r|
  {
    if r != [] {
      FirstIsUnique(r, s, m);
      ListsTail(r, m);
      ListsTail(s, m);
      ListingIsUnique(r[1..], s[1..], m - {r[0].0});
      assert r == [r[0]] + r[1..] && s == [s[0]] + s[1..];
    } else if s != [] {
      FirstIsUnique(s, r, m);
    }
  }

  lemma {:induction false} FromListHolds(r: seq<Secret>, id: Bytes)
    requires forall i, j :: 0 <= i < j < |r| ==> r[i].0 != r[j].0
    ensures id in FromList(r) ==> (id, FromList(r)[id]) in r
    ensures forall p :: p in r && p.0 == id ==> id in FromList(r) && FromList(r)[id] == p.1
  {
    if r != [] {
      FromListHolds(r[..|r| - 1], id);
      forall p | p in r && p.0 == id ensures id in FromList(r) && FromList(r)[id] == p.1 {
        if p != r[|r| - 1] {
          assert p in r[..|r| - 1];
          var i :| 0 <= i < |r| - 1 && r[i] == p;
        }
      }
    }
  }

  /** Preloading a store with a listing restores the map it lists. */
  lemma PreloadRestores(r: seq<Secret>, m: Entries)
    requires Lists(r, m)
    ensures FromList(r) == m
  {
    forall i, j | 0 <= i < j < |r| ensures r[i].0 != r[j].0 {
      LessIsTotal(r[i].0, r[j].0);
    }
    forall id ensures id in FromList(r) <==> id in m
              ensures id in m ==> FromList(r)[id] == m[id] {
      FromListHolds(r, id);
      if id in m {
        assert (id, m[id]) in r;
      }
    }
  }

  // ---- runs of calls through any clone ----

  datatype Call = Insert(id: Bytes, pkg: KeyPackageData) | Delete(id: Bytes) | Get(id: Bytes) | Purge

  datatype State = State(entries: Entries, recording: Option<seq<Secret>>)

  function Apply(s: State, c: Call): State {
    match c
    case Insert(id, pkg) =>
      State(s.entries[id := pkg],
            if s.recording.Some? then Some(s.recording.value + [(id, pkg)]) else None)
    case Delete(id) => s.(entries := s.entries - {id})
    case Get(id) => s
    case Purge => s.(entries := map[])
  }

  function Run(s: State, calls: seq<Call>): State {
    if calls == [] then s else Apply(Run(s, calls[..|calls| - 1]), calls[|calls| - 1])
  }

  /** What the calls insert, in call order. */
  ghost function Inserted(calls: seq<Call>): seq<Secret> {
    if calls == [] then []
    else
      var c := calls[|calls| - 1];
      Inserted(calls[..|calls| - 1]) + if c.Insert? then [(c.id, c.pkg)] else []
  }

  /** What the last call touching `id` left under it. */
  ghost function Outcome(before: Entries, calls: seq<Call>, id: Bytes): Option<KeyPackageData> {
    if calls == [] then (if id in before then Some(before[id]) else None)
    else
      match calls[|calls| - 1]
      case Insert(i, pkg) => if i == id then Some(pkg) else Outcome(before, calls[..|calls| - 1], id)
      case Delete(i) => if i == id then None else Outcome(before, calls[..|calls| - 1], id)
      case Get(_) => Outcome(before, calls[..|calls| - 1], id)
      case Purge => None
  }

  /** Over any calls, capturing or not: the map holds their net effect, and a capture in progress gains
      exactly the inserted pairs in order; without one nothing is recorded. */
  lemma {:induction false} RunIsFaithful(s: State, calls: seq<Call>, id: Bytes)
    ensures Run(s, calls).recording ==
            if s.recording.Some? then Some(s.recording.value + Inserted(calls)) else None
    ensures Outcome(s.entries, calls, id) ==
            if id in Run(s, calls).entries then Some(Run(s, calls).entries[id]) else None
  {
    if calls != [] {
      RunIsFaithful(s, calls[..|calls| - 1], id);
      var c := calls[|calls| - 1];
      var earlier := Inserted(calls[..|calls| - 1]);
      assert earlier + [] == earlier;
      if s.recording.Some? && c.Insert? {
        assert s.recording.value + earlier + [(c.id, c.pkg)] == s.recording.value + Inserted(calls);
      }
    } else if s.recording.Some? {
      assert s.recording.value + [] == s.recording.value;
    }
  }

  /** A capture records exactly the inserted pairs in order, whatever is deleted or purged
      meanwhile, and the map holds the net effect of the calls. */
  lemma CaptureIsFaithful(before: Entries, calls: seq<Call>, id: Bytes)
    ensures Run(State(before, Some([])), calls).recording == Some(Inserted(calls))
    ensures var after := Run(State(before, Some([])), calls).entries;
            Outcome(before, calls, id) == if id in after then Some(after[id]) else None
  {
    RunIsFaithful(State(before, Some([])), calls, id);
    assert [] + Inserted(calls) == Inserted(calls);
  }

  class SyntheticKeyPackageStore {
    var entries: Entries
    var recording: Option<seq<Secret>>

    function Value(): State
      reads this
    {
      State(entries, recording)
    }

    constructor Preloaded(pairs: seq<Secret>)
      ensures Value() == State(FromList(pairs), None)
    {
      entries, recording := map[], None;
      new;
      for i := 0 to |pairs|
        invariant Value() == State(FromList(pairs[..i]), None)
      {
        entries := entries[pairs[i].0 := pairs[i].1];
        assert pairs[..i + 1][..i] == pairs[..i];
      }
      assert pairs[..|pairs|] == pairs;
    }

    method StartCapture()
      modifies this
      ensures Value() == old(Value()).(recording := Some([]))
    {
      recording := Some([]);
    }

    method StopCapture() returns (captured: seq<Secret>)
      modifies this
      ensures Value() == old(Value()).(recording := None)
      ensures captured == if old(recording).Some? then old(recording).value else []
    {
      captured := if recording.Some? then recording.value else [];
      recording := None;
    }

    method InsertEntry(id: Bytes, pkg: KeyPackageData)
      modifies this
      ensures Value() == Apply(old(Value()), Insert(id, pkg))
    {
      if recording.Some? {
        recording := Some(recording.value + [(id, pkg)]);
      }
      entries := entries[id := pkg];
    }

    method RemoveEntry(id: Bytes)
      modifies this
      ensures Value() == Apply(old(Value()), Delete(id))
    {
      entries := entries - {id};
    }

    method PurgeAll()
      modifies this
      ensures Value() == Apply(old(Value()), Purge)
    {
      entries := map[];
    }

    /** Run a key-package generation, given by the calls it makes through any clone of this store,
        while capturing. */
    method Capture(calls: seq<Call>) returns (captured: seq<Secret>)
      modifies this
      ensures captured == Inserted(calls)
      ensures recording == None
      ensures entries == Run(State(old(entries), Some([])), calls).entries
    {
      StartCapture();
      for i := 0 to |calls|
        invariant Value() == Run(State(old(entries), Some([])), calls[..i])
      {
        assert calls[..i + 1][..i] == calls[..i];
        match calls[i] {
          case Insert(id, pkg) => InsertEntry(id, pkg);
          case Delete(id) => RemoveEntry(id);
          case Get(_) =>
          case Purge => PurgeAll();
        }
      }
      assert calls[..|calls|] == calls;
      CaptureIsFaithful(old(entries), calls, []);
      captured := StopCapture();
    }

    /** Every stored pair, sorted by id; the map is read in an arbitrary order. */
    method AllEntries() returns (listing: seq<Secret>)
      ensures Lists(listing, entries)
    {
      var unread := entries.Keys;
      var pairs: seq<Secret> := [];
      while unread != {}
        invariant unread <= entries.Keys
        invariant forall i, j :: 0 <= i < j < |pairs| ==> pairs[i].0 != pairs[j].0
        invariant forall p :: p in pairs <==> p.0 in entries.Keys - unread && entries[p.0] == p.1
        decreases |unread|
      {
        var id :| id in unread;
        ghost var before := pairs;
        pairs := pairs + [(id, entries[id])];
        unread := unread - {id};
        forall i | 0 <= i < |before| ensures pairs[i].0 != id {
          assert before[i] in before;
        }
        forall p ensures p in pairs <==> p in before || p == (id, entries[id]) {
        }
      }
      SortByIdSorts(pairs);
      listing := SortById(pairs);
    }
  }
}
