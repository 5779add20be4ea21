/** The lexicographic order of byte strings (Rust's ordering of `Vec<u8>`), and sorting by it. */
module ByteOrder {
  import opened Prelude

  predicate Less(a: Bytes, b: Bytes) {
    if b == [] then false
    else if a == [] then true
    else a[0] < b[0] || (a[0] == b[0] && Less(a[1..], b[1..]))
  }

  lemma {:induction false} LessIsTotal(a: Bytes, b: Bytes)
    ensures Less(a, b) || a == b || Less(b, a)
    ensures !(Less(a, b) && Less(b, a))
    ensures Less(a, b) ==> a != b
  {
    if a != [] && b != [] {
      LessIsTotal(a[1..], b[1..]);
      assert a == [a[0]] + a[1..] && b == [b[0]] + b[1..];
    }
  }

  lemma {:induction false} LessIsTransitive(a: Bytes, b: Bytes, c: Bytes)
    requires Less(a, b) && Less(b, c)
    ensures Less(a, c)
  {
    if a != [] && a[0] == b[0] && b[0] == c[0] {
      LessIsTransitive(a[1..], b[1..], c[1..]);
    }
  }

  predicate AtMost(a: Bytes, b: Bytes) {
    a == b || Less(a, b)
  }

  ghost predicate Ordered(s: seq<Bytes>) {
    forall i, j :: 0 <= i < j < |s| ==> AtMost(s[i], s[j])
  }

  function Insert(x: Bytes, s: seq<Bytes>): (r: seq<Bytes>)
    ensures multiset(r) == multiset(s) + multiset{x} && |r| == |s| + 1
  {
    if s == [] || AtMost(x, s[0]) then [x] + s
    else
      assert s == [s[0]] + s[1..];
      [s[0]] + Insert(x, s[1..])
  }

  function Sort(s: seq<Bytes>): (r: seq<Bytes>)
    ensures multiset(r) == multiset(s) && |r| == |s|
  {
    if s == [] then []
    else
      assert s == [s[0]] + s[1..];
      Insert(s[0], Sort(s[1..]))
  }

  lemma {:induction false} InsertOrders(x: Bytes, s: seq<Bytes>)
    requires Ordered(s)
    ensures Ordered(Insert(x, s))
  {
    var r := Insert(x, s);
    if s == [] {
    } else if AtMost(x, s[0]) {
      forall j | 1 <= j < |s| ensures AtMost(x, s[j]) {
        if x != s[0] && s[0] != s[j] {
          LessIsTransitive(x, s[0], s[j]);
        }
      }
    } else {
      LessIsTotal(x, s[0]);
      InsertOrders(x, s[1..]);
      forall j | 1 <= j < |r| ensures AtMost(s[0], r[j]) {
        assert r[j] in multiset(Insert(x, s[1..]));
        assert r[j] == x || r[j] in multiset(s[1..]);
      }
    }
  }

  lemma {:induction false} SortOrders(s: seq<Bytes>)
    ensures Ordered(Sort(s))
  {
    if s != [] {
      SortOrders(s[1..]);
      InsertOrders(s[0], Sort(s[1..]));
    }
  }

  lemma FirstIsLeast(s: seq<Bytes>, x: Bytes)
    requires Ordered(s) && x in multiset(s)
    ensures AtMost(s[0], x)
  {
    assert x in s;
  }

  lemma TailBag(s: seq<Bytes>)
    requires s != []
    ensures multiset(s[1..]) == multiset(s) - multiset{s[0]}
  {
    assert s == [s[0]] + s[1..];
  }

  lemma FirstsAgree(s: seq<Bytes>, t: seq<Bytes>)
    requires Ordered(s) && Ordered(t) && multiset(s) == multiset(t) && s != [] && t != []
    ensures s[0] == t[0] && multiset(s[1..]) == multiset(t[1..])
  {
    FirstIsLeast(s, t[0]);
    FirstIsLeast(t, s[0]);
    LessIsTotal(s[0], t[0]);
    TailBag(s);
    TailBag(t);
  }

  /** There is one ordered arrangement of a bag of byte strings. */
  lemma {:induction false} OrderedIsUnique(s: seq<Bytes>, t: seq<Bytes>)
    requires Ordered(s) && Ordered(t) && multiset(s) == multiset(t)
    ensures s == t
  {
    if s == [] || t == [] {
      assert |s| == |multiset(s)| && |t| == |multiset(t)|;
    } else {
      FirstsAgree(s, t);
      OrderedIsUnique(s[1..], t[1..]);
      assert s == [s[0]] + s[1..] && t == [t[0]] + t[1..];
    }
  }

  /** Sorting compares bags: two lists sort alike iff they hold the same strings equally often. */
  lemma SortsAlikeIff(s: seq<Bytes>, t: seq<Bytes>)
    ensures Sort(s) == Sort(t) <==> multiset(s) == multiset(t)
  {
    SortOrders(s);
    SortOrders(t);
    if multiset(s) == multiset(t) {
      OrderedIsUnique(Sort(s), Sort(t));
    }
  }

  /** The order is lexicographic: at the first difference the smaller byte comes first, and a proper
      prefix comes before what it is a prefix of. */
  lemma {:induction false} LessIff(a: Bytes, b: Bytes)
    ensures Less(a, b) <==>
            exists k :: 0 <= k <= |a| && k <= |b| && a[..k] == b[..k] && k < |b| && (k == |a| || a[k] < b[k])
  {
    if a != [] && b != [] {
      LessIff(a[1..], b[1..]);
      if Less(a, b) && a[0] == b[0] {
        var k :| 0 <= k <= |a[1..]| && k <= |b[1..]| && a[1..][..k] == b[1..][..k] && k < |b[1..]|
                 && (k == |a[1..]| || a[1..][k] < b[1..][k]);
        assert a[..k + 1] == [a[0]] + a[1..][..k] && b[..k + 1] == [b[0]] + b[1..][..k];
      }
      if Less(a, b) && a[0] < b[0] {
        assert a[..0] == b[..0];
      }
      if k :| 0 <= k <= |a| && k <= |b| && a[..k] == b[..k] && k < |b| && (k == |a| || a[k] < b[k]) {
        if k > 0 {
          assert a[0] == a[..k][0] && b[0] == b[..k][0];
          assert a[1..][..k - 1] == a[..k][1..] && b[1..][..k - 1] == b[..k][1..];
        }
      }
    } else if a == [] && b != [] {
      assert a[..0] == b[..0];
    }
  }
}
