/** The unbounded record a credential window is measured against: every canonical commit a
    party ever made, in order. Nothing in the program stores this log; it is the reference the
    bounded window is proved to agree with. */
module CommitLog {
  import opened Prelude

  type Id = Bytes

  function Last(s: seq<Id>): Id
    requires s != []
  {
    s[|s| - 1]
  }

  function ButLast(s: seq<Id>): (r: seq<Id>)
    requires s != []
    ensures s == r + [Last(s)]
    ensures |r| == |s| - 1
  {
    s[..|s| - 1]
  }

  /** The sequence without any occurrence of `id` (Rust's `retain`). */
  function Without(s: seq<Id>, id: Id): seq<Id> {
    if s == [] then []
    else if Last(s) == id then Without(ButLast(s), id)
    else Without(ButLast(s), id) + [Last(s)]
  }

  /** The last `n` elements, or all of them when there are fewer. */
  function LastN(s: seq<Id>, n: nat): seq<Id> {
    if |s| <= n then s else s[|s| - n..]
  }

  ghost predicate Distinct(s: seq<Id>) {
    s == [] || (Last(s) !in ButLast(s) && Distinct(ButLast(s)))
  }

  /** Each id of the log once, ordered by its last occurrence. */
  ghost function ByLastCommit(log: seq<Id>): seq<Id> {
    if log == [] then [] else Without(ByLastCommit(ButLast(log)), Last(log)) + [Last(log)]
  }

  /** The ids that occur after the last occurrence of `id`. */
  ghost function Since(s: seq<Id>, id: Id): set<Id> {
    if s == [] || Last(s) == id then {} else Since(ButLast(s), id) + {Last(s)}
  }

  /** The position of the last commit of `id` in the log. */
  ghost function LastCommit(log: seq<Id>, id: Id): (k: nat)
    requires id in log
    ensures k < |log| && log[k] == id
    ensures forall j :: k < j < |log| ==> log[j] != id
  {
    if Last(log) == id then |log| - 1 else LastCommit(ButLast(log), id)
  }

  lemma {:induction false} WithoutMembers(s: seq<Id>, gone: Id, x: Id)
    ensures x in Without(s, gone) <==> x in s && x != gone
  {
    if s != [] {
      WithoutMembers(ButLast(s), gone, x);
    }
  }

  lemma {:induction false} WithoutDistinct(s: seq<Id>, gone: Id)
    requires Distinct(s)
    ensures Distinct(Without(s, gone))
    ensures |Without(s, gone)| == if gone in s then |s| - 1 else |s|
  {
    if s != [] {
      WithoutDistinct(ButLast(s), gone);
      WithoutMembers(ButLast(s), gone, Last(s));
      assert Last(s) != gone ==> ButLast(Without(s, gone)) == Without(ButLast(s), gone);
    }
  }

  lemma {:induction false} WithoutConcat(a: seq<Id>, b: seq<Id>, gone: Id)
    ensures Without(a + b, gone) == Without(a, gone) + Without(b, gone)
  {
    if b == [] {
      assert a + b == a;
    } else {
      WithoutConcat(a, ButLast(b), gone);
      assert ButLast(a + b) == a + ButLast(b);
    }
  }

  lemma {:induction false} DistinctSuffix(a: seq<Id>, b: seq<Id>)
    requires Distinct(a + b)
    ensures Distinct(b)
  {
    if b != [] {
      assert ButLast(a + b) == a + ButLast(b);
      DistinctSuffix(a, ButLast(b));
    }
  }

  lemma {:induction false} ByLastCommitMembers(log: seq<Id>, x: Id)
    ensures x in ByLastCommit(log) <==> x in log
  {
    if log != [] {
      ByLastCommitMembers(ButLast(log), x);
      WithoutMembers(ByLastCommit(ButLast(log)), Last(log), x);
    }
  }

  lemma {:induction false} ByLastCommitDistinct(log: seq<Id>)
    ensures Distinct(ByLastCommit(log))
  {
    if log != [] {
      var before := ByLastCommit(ButLast(log));
      ByLastCommitDistinct(ButLast(log));
      WithoutDistinct(before, Last(log));
      WithoutMembers(before, Last(log), Last(log));
      assert ButLast(ByLastCommit(log)) == Without(before, Last(log));
    }
  }

  lemma {:induction false} SinceWithout(s: seq<Id>, gone: Id, id: Id)
    requires id != gone
    ensures Since(Without(s, gone), id) == Since(s, id) - {gone}
  {
    if s != [] {
      SinceWithout(ButLast(s), gone, id);
      assert Last(s) != gone ==> ButLast(Without(s, gone)) == Without(ButLast(s), gone);
    }
  }

  /** Deduplication forgets nothing about what was committed after what. */
  lemma {:induction false} SinceByLastCommit(log: seq<Id>, id: Id)
    ensures Since(ByLastCommit(log), id) == Since(log, id)
  {
    if log != [] {
      var before := ByLastCommit(ButLast(log));
      SinceByLastCommit(ButLast(log), id);
      assert ButLast(ByLastCommit(log)) == Without(before, Last(log));
      if Last(log) != id {
        SinceWithout(before, Last(log), id);
      }
    }
  }

  lemma {:induction false} SinceSuffix(a: seq<Id>, b: seq<Id>, id: Id)
    requires id in b
    ensures Since(a + b, id) == Since(b, id)
  {
    assert ButLast(a + b) == a + ButLast(b);
    if Last(b) != id {
      SinceSuffix(a, ButLast(b), id);
    }
  }

  lemma {:induction false} SinceMembers(s: seq<Id>, id: Id, x: Id)
    requires x in Since(s, id)
    ensures x in s && x != id
  {
    if Last(s) != x {
      SinceMembers(ButLast(s), id, x);
    }
  }

  /** In a duplicate-free sequence, what follows an element tells its place. */
  lemma {:induction false} SinceTellsPlace(s: seq<Id>, k: nat)
    requires Distinct(s) && k < |s|
    ensures |Since(s, s[k])| == |s| - 1 - k
  {
    if k < |s| - 1 {
      assert ButLast(s)[k] == s[k];
      SinceTellsPlace(ButLast(s), k);
      if Last(s) in Since(ButLast(s), s[k]) {
        SinceMembers(ButLast(s), s[k], Last(s));
      }
    }
  }

  lemma {:induction false} SinceTellsOrder(s: seq<Id>, i: nat, j: nat)
    requires Distinct(s) && i < |s| && j < |s|
    ensures s[j] in Since(s, s[i]) <==> i < j
  {
    if i < |s| - 1 {
      assert ButLast(s)[i] == s[i];
      if j < |s| - 1 {
        assert ButLast(s)[j] == s[j];
        SinceTellsOrder(ButLast(s), i, j);
      }
    }
  }

  lemma {:induction false} SinceTellsLastCommit(log: seq<Id>, a: Id, b: Id)
    requires a in log && b in log && a != b
    ensures b in Since(log, a) <==> LastCommit(log, a) < LastCommit(log, b)
  {
    if Last(log) == a {
    } else if Last(log) != b {
      SinceTellsLastCommit(ButLast(log), a, b);
    }
  }

  lemma {:induction false} DistinctByIndex(s: seq<Id>, i: nat, j: nat)
    requires Distinct(s) && i < |s| && j < |s|
    ensures s[i] == s[j] ==> i == j
  {
    if i < |s| - 1 {
      assert ButLast(s)[i] == s[i];
    }
    if j < |s| - 1 {
      assert ButLast(s)[j] == s[j];
    }
    if i < |s| - 1 && j < |s| - 1 {
      DistinctByIndex(ButLast(s), i, j);
    }
  }

  /** An element is among the last `n` iff fewer than `n` others follow it. */
  lemma AmongLastN(s: seq<Id>, n: nat, id: Id)
    requires Distinct(s)
    ensures id in LastN(s, n) <==> id in s && |Since(s, id)| < n
  {
    if id in s {
      var k :| 0 <= k < |s| && s[k] == id;
      SinceTellsPlace(s, k);
      if |s| > n {
        if k >= |s| - n {
          assert LastN(s, n)[k - (|s| - n)] == id;
        } else if id in LastN(s, n) {
          var j :| 0 <= j < n && LastN(s, n)[j] == id;
          DistinctByIndex(s, k, |s| - n + j);
        }
      }
    }
  }

  lemma LastNOfConcat(a: seq<Id>, b: seq<Id>, n: nat)
    requires |b| >= n
    ensures LastN(a + b, n) == LastN(b, n)
  {
    if |b| == n && a == [] {
      assert a + b == b;
    } else {
      assert (a + b)[|a + b| - n..] == b[|b| - n..];
    }
  }

  /** Trimming before or after an append-and-deduplicate step keeps the same last ids. */
  lemma LastNOfAppend(s: seq<Id>, n: nat, id: Id)
    requires Distinct(s) && n > 0
    ensures LastN(Without(s, id) + [id], n) == LastN(Without(LastN(s, n), id) + [id], n)
  {
    if |s| > n {
      var head, tail := s[..|s| - n], s[|s| - n..];
      assert s == head + tail;
      WithoutConcat(head, tail, id);
      DistinctSuffix(head, tail);
      WithoutDistinct(tail, id);
      var kept := Without(tail, id) + [id];
      LastNOfConcat(Without(head, id), kept, n);
      assert Without(s, id) + [id] == Without(head, id) + kept;
    }
  }
}
