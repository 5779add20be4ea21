/** What a joiner verifies of the halves it joined: the creation-time `APQInfo` of each, the
    application binding, and that both rosters hold the same identities. */
module ApqInfoChecks {
  import opened Prelude
  import opened KeySchedule
  import opened Component
  import opened Rules
  import opened Mls
  import opened ByteOrder

  datatype ApqCipherSuite = ApqCipherSuite(classical: nat, pq: nat) {

    predicate Valid() {
      SuiteIsPq(classical) == Some(false) && SuiteIsPq(pq) == Some(true)
    }

    /** 1 iff the PQ half signs post-quantum. */
    function Mode(): nat {
      match Class(pq)
      case Some(c) => if c.sigPq then 1 else 0
      case None => 0
    }
  }

  function NewInfo(suite: ApqCipherSuite, tGroupId: Bytes, pqGroupId: Bytes, tEpoch: U64, pqEpoch: U64): ApqInfo {
    ApqInfo(tGroupId, pqGroupId, suite.Mode(), suite.classical, suite.pq, tEpoch, pqEpoch)
  }

  predicate SameIdentity(a: ApqInfo, b: ApqInfo) {
    a.tGroupId == b.tGroupId && a.pqGroupId == b.pqGroupId && a.mode == b.mode && a.tSuite == b.tSuite
        && a.pqSuite == b.pqSuite
  }

  function CheckSuites(info: ApqInfo, expected: ApqCipherSuite): Option<CombinerError> {
    var recorded := ApqCipherSuite(info.tSuite, info.pqSuite);
    if info.tSuite != expected.classical || info.pqSuite != expected.pq then Some(CipherSuiteMismatch)
    else if !recorded.Valid() then Some(CipherSuiteMismatch)
    else if info.mode != recorded.Mode() then Some(ApqInfoMismatch)
    else None
  }

  function ReadInfo(g: Shared): Result<ApqInfo, CombinerError> {
    match g.extensions.apqInfo
    case Some(info) => Ok(info)
    case None => Err(ApqInfoMismatch)
  }

  function VerifyClassicalHalf(cl: Shared, expected: ApqCipherSuite): Result<ApqInfo, CombinerError> {
    match ReadInfo(cl)
    case Err(e) => Err(e)
    case Ok(info) =>
      var suites := CheckSuites(info, expected);
      if suites.Some? then Err(suites.value)
      else if info.tGroupId != cl.groupId then Err(ApqInfoMismatch)
      else if info.tEpoch == EPOCH_UNBOUND || info.tEpoch != cl.epoch then Err(ApqInfoMismatch)
      else Ok(info)
  }

  function VerifyPair(cl: Shared, pq: Shared, expected: ApqCipherSuite): Result<ApqInfo, CombinerError> {
    match VerifyClassicalHalf(cl, expected)
    case Err(e) => Err(e)
    case Ok(info) =>
      match ReadInfo(pq)
      case Err(e) => Err(e)
      case Ok(pqInfo) =>
        if !SameIdentity(info, pqInfo) then Err(ApqInfoMismatch)
        else if info.pqGroupId != pq.groupId then Err(ApqInfoMismatch)
        else if pqInfo.pqEpoch == EPOCH_UNBOUND || pqInfo.pqEpoch != pq.epoch || info.pqEpoch != pq.epoch then
            Err(ApqInfoMismatch)
        else Ok(info)
  }

  function VerifyDeferred(cl: Shared, expected: ApqCipherSuite): Result<ApqInfo, CombinerError> {
    match VerifyClassicalHalf(cl, expected)
    case Err(e) => Err(e)
    case Ok(info) => if info.pqEpoch != EPOCH_UNBOUND || info.pqGroupId == [] then Err(ApqInfoMismatch) else Ok(info)
  }

  function VerifyDeferredPq(pq: Shared, classicalInfo: ApqInfo, expected: ApqCipherSuite): Option<CombinerError> {
    match ReadInfo(pq)
    case Err(e) => Some(e)
    case Ok(pqInfo) =>
      var suites := CheckSuites(pqInfo, expected);
      if suites.Some? then suites
      else if !SameIdentity(pqInfo, classicalInfo) then Some(ApqInfoMismatch)
      else if pqInfo.pqGroupId != pq.groupId then Some(ApqInfoMismatch)
      else if pqInfo.tEpoch != EPOCH_UNBOUND then Some(ApqInfoMismatch)
      else if pqInfo.pqEpoch == EPOCH_UNBOUND || pqInfo.pqEpoch != pq.epoch then Some(ApqInfoMismatch)
      else None
  }

  function VerifyAppBinding(g: Shared, expected: Option<Bytes>): Option<CombinerError> {
    if g.extensions.appBinding == expected then None else Some(AppBindingMismatch)
  }

  function VerifyPqHalfUnbound(pq: Shared): Option<CombinerError> {
    VerifyAppBinding(pq, None)
  }

  // ---- what passing pins down ----

  /** A classical half is either live or deferred, never both: a deferred welcome cannot pass for a
      full pair, nor the other way round, whatever PQ half comes with it. */
  lemma LiveOrDeferred(cl: Shared, pq: Shared, expected: ApqCipherSuite)
    requires VerifyPair(cl, pq, expected).Ok?
    ensures VerifyDeferred(cl, expected).Err?
    ensures VerifyDeferredPq(pq, VerifyPair(cl, pq, expected).value, expected).None? <==>
              pq.extensions.apqInfo.value.tEpoch == EPOCH_UNBOUND
  {
  }

  /** A verified classical half has one possible sibling group at one epoch. */
  lemma OneSibling(cl: Shared, pq: Shared, pq2: Shared, expected: ApqCipherSuite)
    requires VerifyPair(cl, pq, expected).Ok?
    ensures VerifyPair(cl, pq2, expected).Ok? <==>
            && pq2.groupId == pq.groupId && pq2.epoch == pq.epoch
            && pq2.extensions.apqInfo.Some?
            && pq2.extensions.apqInfo.value.(tEpoch := 0) == pq.extensions.apqInfo.value.(tEpoch := 0)
  {
  }

  /** A verified PQ half pins the classical group but not its epoch: another classical state verifies
      against it iff it is of the same group and carries the same record, stamped with its own epoch. */
  lemma ClassicalSiblingIff(cl: Shared, cl2: Shared, pq: Shared, expected: ApqCipherSuite)
    requires VerifyPair(cl, pq, expected).Ok?
    ensures VerifyPair(cl2, pq, expected).Ok? <==>
            && cl2.groupId == cl.groupId && cl2.epoch != EPOCH_UNBOUND
            && cl2.extensions.apqInfo == Some(cl.extensions.apqInfo.value.(tEpoch := cl2.epoch))
  {
  }

  /** So a classical half re-stamped at another epoch verifies against the very same PQ half. */
  lemma RestampedVerifies(cl: Shared, pq: Shared, expected: ApqCipherSuite, epoch: U64)
    requires VerifyPair(cl, pq, expected).Ok? && epoch != EPOCH_UNBOUND && epoch != cl.epoch
    ensures var record := cl.extensions.apqInfo.value.(tEpoch := epoch);
            var other := cl.(epoch := epoch, extensions := cl.extensions.(apqInfo := Some(record)));
            other != cl && VerifyPair(other, pq, expected) == Ok(record)
  {
    ClassicalSiblingIff(cl, cl.(epoch := epoch, extensions := cl.extensions.(apqInfo :=
                                Some(cl.extensions.apqInfo.value.(tEpoch := epoch)))), pq, expected);
  }

  /** The suites checked are the recorded ones: the suites the two groups really run play no part. */
  lemma OwnSuitesAreNotRead(cl: Shared, pq: Shared, expected: ApqCipherSuite, tSuite: nat, pqSuite: nat)
    ensures VerifyPair(cl.(suite := tSuite), pq.(suite := pqSuite), expected) == VerifyPair(cl, pq, expected)
  {
  }

  // ---- membership ----

  lemma {:induction false} LeastOf(s: set<nat>) returns (least: nat)
    requires s != {}
    ensures least in s && forall y :: y in s ==> least <= y
  {
    var some :| some in s;
    var rest := s - {some};
    least := some;
    if rest != {} {
      var other := LeastOf(rest);
      least := if other < some then other else some;
    }
    forall y | y in s ensures least <= y {
      assert y == some || y in rest;
    }
  }

  function Least(s: set<nat>): (x: nat)
    requires s != {}
    ensures x in s && forall y :: y in s ==> x <= y
  {
    assert exists x :: x in s && forall y :: y in s ==> x <= y by {
      var least := LeastOf(s);
    }
    var x :| x in s && forall y :: y in s ==> x <= y;
    x
  }

  /** The members' ids, by leaf index. */
  function MemberIds(roster: Roster): (r: seq<Bytes>)
    ensures |r| == |roster|
    decreases |roster|
  {
    if roster == map[] then []
    else
      var i := Least(roster.Keys);
      assert |roster.Keys| == |roster|;
      assert (roster - {i}).Keys == roster.Keys - {i};
      assert |(roster - {i}).Keys| == |roster - {i}|;
      [roster[i].id] + MemberIds(roster - {i})
  }

  function EnsureMembershipConsistent(cl: Shared, pq: Shared): Option<CombinerError> {
    var clIds, pqIds := Sort(MemberIds(cl.roster)), Sort(MemberIds(pq.roster));
    if |clIds| != 2 || clIds != pqIds then Some(ApqInfoMismatch) else None
  }

  lemma TwoMembers(roster: Roster)
    requires roster.Keys == {0, 1}
    ensures MemberIds(roster) == [roster[0].id, roster[1].id]
  {
    assert Least(roster.Keys) == 0;
    var rest := roster - {0};
    assert rest.Keys == {1};
    assert Least(rest.Keys) == 1;
    assert rest - {1} == map[];
    assert MemberIds(rest) == [roster[1].id];
  }

  /** Two-party halves are consistent iff the same two ids sit at their leaves, in either order; a
      half of any other size is never consistent with anything. */
  lemma MembershipConsistentIff(cl: Shared, pq: Shared)
    ensures EnsureMembershipConsistent(cl, pq).None? ==> |cl.roster| == 2 && |pq.roster| == 2
    ensures cl.roster.Keys == {0, 1} && pq.roster.Keys == {0, 1} ==>
              (EnsureMembershipConsistent(cl, pq).None? <==>
                multiset{cl.roster[0].id, cl.roster[1].id} == multiset{pq.roster[0].id, pq.roster[1].id})
  {
    SortsAlikeIff(MemberIds(cl.roster), MemberIds(pq.roster));
    if cl.roster.Keys == {0, 1} && pq.roster.Keys == {0, 1} {
      TwoMembers(cl.roster);
      TwoMembers(pq.roster);
    }
  }

  // ---- exactly what passes ----

  /** The record names a classical suite, then ML-KEM-768, both the pinned ones, and confidentiality only:
      no other mode exists for a suite the combiner knows. */
  ghost predicate PinnedSuites(a: ApqInfo, expected: ApqCipherSuite) {
    a.tSuite == expected.classical && expected.classical in {1, 2, 3, 4, 5, 6, 7}
    && a.pqSuite == expected.pq && expected.pq == 0xFDEA && a.mode == 0
  }

  /** A half of the pinned suites, recorded under its own id and its own, real, epoch. */
  ghost predicate StandsFor(a: ApqInfo, cl: Shared, expected: ApqCipherSuite) {
    PinnedSuites(a, expected) && a.tGroupId == cl.groupId && a.tEpoch == cl.epoch && cl.epoch != 0xFFFF_FFFF_FFFF_FFFF
  }

  lemma SuitesPassIff(a: ApqInfo, expected: ApqCipherSuite)
    ensures CheckSuites(a, expected).None? <==> PinnedSuites(a, expected)
    ensures (a.tSuite, a.pqSuite) != (expected.classical, expected.pq) || !expected.Valid() ==>
              CheckSuites(a, expected) == Some(CipherSuiteMismatch)
  {
    SuiteTable(expected.classical);
    SuiteTable(expected.pq);
  }

  /** A live pair passes iff both halves carry records of the pinned suites that agree but for the
      classical epoch, and they name these two groups at these two real epochs. */
  lemma PairVerifiesIff(cl: Shared, pq: Shared, expected: ApqCipherSuite)
    ensures VerifyPair(cl, pq, expected).Ok? <==>
            && cl.extensions.apqInfo.Some? && pq.extensions.apqInfo.Some?
            && var a, b := cl.extensions.apqInfo.value, pq.extensions.apqInfo.value;
               && StandsFor(a, cl, expected)
               && a.pqGroupId == pq.groupId && a.pqEpoch == pq.epoch && pq.epoch != 0xFFFF_FFFF_FFFF_FFFF
               && b == a.(tEpoch := b.tEpoch)
    ensures VerifyPair(cl, pq, expected).Ok? ==> Some(VerifyPair(cl, pq, expected).value) == cl.extensions.apqInfo
  {
    if cl.extensions.apqInfo.Some? {
      SuitesPassIff(cl.extensions.apqInfo.value, expected);
    }
  }

  /** A pair recorded under other suites is refused as such, before anything else is looked at. */
  lemma DowngradeRefused(cl: Shared, pq: Shared, expected: ApqCipherSuite)
    requires cl.extensions.apqInfo.Some?
    requires var a := cl.extensions.apqInfo.value; (a.tSuite, a.pqSuite) != (expected.classical, expected.pq)
    ensures VerifyPair(cl, pq, expected) == Err(CipherSuiteMismatch)
    ensures VerifyDeferred(cl, expected) == Err(CipherSuiteMismatch)
  {
    SuitesPassIff(cl.extensions.apqInfo.value, expected);
  }

  lemma DeferredPassesIff(cl: Shared, expected: ApqCipherSuite)
    ensures VerifyDeferred(cl, expected).Ok? <==>
            && cl.extensions.apqInfo.Some? && StandsFor(cl.extensions.apqInfo.value, cl, expected)
            && cl.extensions.apqInfo.value.pqEpoch == 0xFFFF_FFFF_FFFF_FFFF
                && cl.extensions.apqInfo.value.pqGroupId != []
    ensures VerifyDeferred(cl, expected).Ok? ==> Some(VerifyDeferred(cl, expected).value) == cl.extensions.apqInfo
  {
    if cl.extensions.apqInfo.Some? {
      SuitesPassIff(cl.extensions.apqInfo.value, expected);
    }
  }

  lemma BootstrapPassesIff(pq: Shared, classicalInfo: ApqInfo, expected: ApqCipherSuite)
    ensures VerifyDeferredPq(pq, classicalInfo, expected).None? <==>
            && pq.extensions.apqInfo.Some?
            && var b := pq.extensions.apqInfo.value;
               && PinnedSuites(b, expected)
               && b == ApqInfo(classicalInfo.tGroupId, classicalInfo.pqGroupId, classicalInfo.mode,
                               classicalInfo.tSuite,
                               classicalInfo.pqSuite, 0xFFFF_FFFF_FFFF_FFFF, pq.epoch)
               && b.pqGroupId == pq.groupId && pq.epoch != 0xFFFF_FFFF_FFFF_FFFF
  {
    if pq.extensions.apqInfo.Some? {
      SuitesPassIff(pq.extensions.apqInfo.value, expected);
    }
  }

  /** The binding check is exact both ways; a PQ half must carry none. */
  lemma BindingPassesIff(g: Shared, expected: Option<Bytes>)
    ensures VerifyAppBinding(g, expected) == if g.extensions.appBinding == expected then None
              else Some(AppBindingMismatch)
    ensures VerifyPqHalfUnbound(g) == if g.extensions.appBinding.Some? then Some(AppBindingMismatch) else None
  {
  }
}
