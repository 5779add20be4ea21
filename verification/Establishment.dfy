/** Standing up one direction: the creator builds both halves around the peer's key packages, the
    joiner follows from the two Welcomes. What the two sides then hold is the start of every run. */
module Establishment {
  import opened Prelude
  import opened KeySchedule
  import opened Proposals
  import opened Component
  import opened Rules
  import opened Mls
  import opened ApqInfoChecks
  import Authentication
  import Ownership

  // ---- one group ----

  datatype Creation = Creation(groupId: Bytes, extensions: Extensions, attestation: Option<ApqInfoUpdate>)

  /** The joiner secret is what a Welcome reveals of the key schedule; every PSK must be the
      joiner's own. */
  datatype Welcome = Welcome(groupId: Bytes, suite: nat, epoch: U64, roster: Roster, extensions: Extensions,
                             init: Secret, commit: Secret, psks: seq<PskRef>, confirmation: Tag)

  function PskProposals(psks: seq<ExportedPsk>): Bundle {
    if psks == [] then []
    else PskProposals(psks[..|psks| - 1]) + [ProposalInfo(Psk(StorageId(psks[|psks| - 1])), Member(0))]
  }

  function CreationBundle(theirs: Leaf, psks: seq<ExportedPsk>, attestation: Option<ApqInfoUpdate>): Bundle {
    [ProposalInfo(Add(theirs), Member(0))] + PskProposals(psks)
    + if attestation.Some? then [ProposalInfo(Custom(ToCustomProposal(attestation.value)), Member(0))] else []
  }

  function Lone(c: Creation, suite: nat, own: Leaf, seed: Secret): Shared {
    Shared(c.groupId, suite, 0, map[0 := own], c.extensions, seed)
  }

  function Refs(b: Bundle): seq<PskRef> {
    if b == [] then []
    else Refs(b[..|b| - 1]) + if b[|b| - 1].proposal.Psk? then [b[|b| - 1].proposal.ref] else []
  }

  function WelcomeFor(lone: Shared, c: Commit, next: Shared): Welcome {
    Welcome(next.groupId, next.suite, next.epoch, next.roster, next.extensions,
            lone.secret, if c.path.Some? then c.path.value.secret else Zero, Refs(c.proposals), c.confirmation)
  }

  /** Create a group and commit one key package in. */
  function Created(c: Creation, suite: nat, own: Leaf, seed: Secret, theirs: Leaf, core: Core, store: PskMap,
                   psks: seq<ExportedPsk>, path: Path): Result<(Replica, Welcome), CombinerError> {
    var lone := Lone(c, suite, own, seed);
    match Build(lone, core, store, 0, CreationBundle(theirs, psks, c.attestation), path)
    case Err(_) => Err(CombinerError.Mls)
    case Ok((commit, next)) => Ok((Replica(next, 0, {}), WelcomeFor(lone, commit, next)))
  }

  function Lookup(refs: seq<PskRef>, store: PskMap): Option<seq<Secret>> {
    if refs == [] then Some([])
    else
      match Lookup(refs[..|refs| - 1], store)
      case None => None
      case Some(values) => if refs[|refs| - 1] in store then Some(values + [store[refs[|refs| - 1]]]) else None
  }

  function JoinedSecret(w: Welcome, values: seq<Secret>): Secret {
    EpochSecret(w.init, w.commit, values, Context(w.groupId, w.epoch, w.roster, w.extensions))
  }

  /** Join from a Welcome: every leaf must validate, every named PSK must be held, the confirmation
      must match, the key package's own leaf must be there, and the tree must be two-party. */
  function Joined(w: Welcome, core: Core, store: PskMap, own: Leaf): Result<Replica, CombinerError> {
    var mine := set i | i in w.roster && w.roster[i] == own;
    if exists i | i in w.roster :: !core.ValidateMember(w.roster[i].id) then Err(CombinerError.Mls)
    else
      match Lookup(w.psks, store)
      case None => Err(CombinerError.Mls)
      case Some(values) =>
        if w.confirmation != Tag(JoinedSecret(w, values)) || mine == {} || |w.roster| != 2 then Err(CombinerError.Mls)
        else Ok(Replica(Shared(w.groupId, w.suite, w.epoch, w.roster, w.extensions, JoinedSecret(w, values)),
                        Least(mine), {}))
  }

  // ---- a pair ----

  datatype KeyPackages = KeyPackages(classical: Leaf, pq: Leaf)

  /** One party's client: its pinned suites, its leaves, its Authentication Service and its stores. */
  datatype Party = Party(suite: ApqCipherSuite, own: KeyPackages, core: Core, classicalStore: PskMap, pqStore: PskMap)

  function Registered(p: Party, psk: ExportedPsk): Party {
    p.(classicalStore := p.classicalStore[StorageId(psk) := psk.psk], pqStore := p.pqStore[StorageId(psk) := psk.psk])
  }

  function Canonical(p: Party, id: Bytes): Party {
    p.(core := p.core.(theirs := Authentication.Apply(p.core.theirs, Authentication.Event.Commit(id))))
  }

  /** What creation draws at random: both group ids, both initial secrets, both committer paths. */
  datatype Draw = Draw(tGroupId: Bytes, pqGroupId: Bytes, tSeed: Secret, pqSeed: Secret, tPath: Path, pqPath: Path)

  datatype SendPair = SendPair(cl: Replica, pq: Replica, apq: ExportedPsk, clWelcome: Welcome, pqWelcome: Welcome)

  const AT_ONE := ApqInfoUpdate(1, 1)

  function PqCreation(suite: ApqCipherSuite, d: Draw): Creation {
    Creation(d.pqGroupId, Extensions(Some(NewInfo(suite, d.tGroupId, d.pqGroupId, 1, 1)), None), Some(AT_ONE))
  }

  function ClassicalCreation(suite: ApqCipherSuite, d: Draw, binding: Option<Bytes>): Creation {
    Creation(d.tGroupId, Extensions(Some(NewInfo(suite, d.tGroupId, d.pqGroupId, 1, 1)), binding), Some(AT_ONE))
  }

  /** The peer's admitted identity: the PQ key package's for an initiator, the classical one's for
      an acceptor binding its group to the one it received. */
  function AdmittedId(theirs: KeyPackages, cross: Option<ExportedPsk>): Bytes {
    if cross.Some? then theirs.classical.id else theirs.pq.id
  }

  function Crossing(cross: Option<ExportedPsk>): seq<ExportedPsk> {
    if cross.Some? then [cross.value] else []
  }

  /** The creator's client once it has admitted the peer and registered the cross-party PSK. */
  function Ready(me: Party, theirs: KeyPackages, cross: Option<ExportedPsk>): Party {
    var admitted := Canonical(me, AdmittedId(theirs, cross));
    if cross.Some? then Registered(admitted, cross.value) else admitted
  }

  function CreatedPq(p: Party, theirs: KeyPackages, d: Draw): Result<(Replica, Welcome), CombinerError> {
    Created(PqCreation(p.suite, d), p.suite.pq, p.own.pq, d.pqSeed, theirs.pq, p.core, p.pqStore, [], d.pqPath)
  }

  function CreatedClassical(p: Party, theirs: KeyPackages, cross: Option<ExportedPsk>, apq: ExportedPsk,
                            binding: Option<Bytes>, d: Draw): Result<(Replica, Welcome), CombinerError> {
    Created(ClassicalCreation(p.suite, d, binding), p.suite.classical, p.own.classical, d.tSeed, theirs.classical,
            p.core, p.classicalStore, Crossing(cross) + [apq], d.tPath)
  }

  /** The classical half, built once the PQ half's export is registered. */
  function CreateBound(q: Party, theirs: KeyPackages, cross: Option<ExportedPsk>, apq: ExportedPsk,
                       binding: Option<Bytes>, d: Draw): Result<(Replica, Welcome), CombinerError> {
    if binding == Some([]) then Err(AppBindingMismatch) else CreatedClassical(q, theirs, cross, apq, binding, d)
  }

  /** Both halves, by a client that has admitted the peer and registered the cross-party PSK: PQ first,
      unbound; its `apq_psk` into the classical half, beside the cross-party PSK when there is one. */
  function CreateHalves(p: Party, theirs: KeyPackages, cross: Option<ExportedPsk>, binding: Option<Bytes>,
                        d: Draw): (Result<SendPair, CombinerError>, Party) {
    match CreatedPq(p, theirs, d)
    case Err(e) => (Err(e), p)
    case Ok((pq, pqWelcome)) =>
      var apq := ExportedFrom(pq.shared, APQ_COMPONENT_ID);
      var q := Registered(p, apq);
      match CreateBound(q, theirs, cross, apq, binding, d)
      case Err(e) => (Err(e), q)
      case Ok((cl, clWelcome)) => (Ok(SendPair(cl, pq.(spent := {APQ_COMPONENT_ID}), apq, clWelcome, pqWelcome)), q)
  }

  /** Create a full send pair: the outcome, and the creator's client afterwards. */
  function CreateSend(me: Party, theirs: KeyPackages, cross: Option<ExportedPsk>, binding: Option<Bytes>,
                      d: Draw): (Result<SendPair, CombinerError>, Party) {
    CreateHalves(Ready(me, theirs, cross), theirs, cross, binding, d)
  }

  /** Create a send pair bound to a received group: its cross-party PSK is exported first, which spends
      that leaf whatever happens next. */
  function CreateBoundSend(me: Party, theirs: KeyPackages, recv: Replica, binding: Option<Bytes>,
                           d: Draw): (Result<SendPair, CombinerError>, Party, Replica) {
    match ExportPsk(recv, TWOMLS_COMPONENT_ID)
    case Err(e) => (Err(e), Canonical(me, theirs.classical.id), recv)
    case Ok((cross, after)) =>
      var (sent, p) := CreateSend(me, theirs, Some(cross), binding, d);
      (sent, p, after)
  }

  datatype RecvPair = RecvPair(cl: Replica, pq: Replica, apq: ExportedPsk)

  /** Joining both halves with the adoption window open: the pair, and the client's stores. */
  function JoinHalves(me: Party, clWelcome: Welcome, pqWelcome: Welcome): (Result<RecvPair, CombinerError>, Party) {
    match Joined(pqWelcome, me.core, me.pqStore, me.own.pq)
    case Err(e) => (Err(e), me)
    case Ok(pq) =>
      var apq := ExportedFrom(pq.shared, APQ_COMPONENT_ID);
      var q := Registered(me, apq);
      match Joined(clWelcome, q.core, q.classicalStore, q.own.classical)
      case Err(e) => (Err(e), q)
      case Ok(cl) => (Ok(RecvPair(cl, pq.(spent := {APQ_COMPONENT_ID}), apq)), q)
  }

  /** The adoption window is open around the joins, and shut whatever they return. */
  function JoinOpened(me: Party, clWelcome: Welcome, pqWelcome: Welcome): (Result<RecvPair, CombinerError>, Party) {
    var (joined, after) := JoinHalves(me.(core := me.core.(adopting := true)), clWelcome, pqWelcome);
    (joined, after.(core := after.core.(adopting := false)))
  }

  /** The joiner's checks, and whom they name as the creator. */
  function JoinVerified(cl: Replica, pq: Replica, suite: ApqCipherSuite): Result<Bytes, CombinerError> {
    match VerifyPair(cl.shared, pq.shared, suite)
    case Err(e) => Err(e)
    case Ok(_) =>
      var members := EnsureMembershipConsistent(cl.shared, pq.shared);
      var creator := if cl.own == 0 then 1 else 0;
      if members.Some? then Err(members.value)
      else if creator !in cl.shared.roster then Err(CombinerError.Mls)
      else Ok(cl.shared.roster[creator].id)
  }

  function JoinRecv(me: Party, clWelcome: Welcome, pqWelcome: Welcome): (Result<RecvPair, CombinerError>, Party) {
    var (joined, p) := JoinOpened(me, clWelcome, pqWelcome);
    match joined
    case Err(e) => (Err(e), p)
    case Ok(pair) =>
      match JoinVerified(pair.cl, pair.pq, p.suite)
      case Err(e) => (Err(e), p)
      case Ok(creator) => (Ok(pair), Canonical(p, creator))
  }

  // ---- a Welcome carries its creator's state ----

  lemma {:induction false} LookupIsResolve(b: Bundle, store: PskMap)
    ensures Lookup(Refs(b), store) == Resolve(b, store)
  {
    if b != [] {
      LookupIsResolve(b[..|b| - 1], store);
      if b[|b| - 1].proposal.Psk? {
        assert Refs(b)[..|Refs(b)| - 1] == Refs(b[..|b| - 1]);
      } else {
        assert Refs(b) == Refs(b[..|b| - 1]);
      }
    }
  }

  lemma BuiltCreation(lone: Shared, core: Core, store: PskMap, b: Bundle, path: Path)
    requires Build(lone, core, store, 0, b, path).Ok?
    ensures var (commit, next) := Build(lone, core, store, 0, b, path).value;
            && Check(lone, core, commit).None? && commit.proposals == b && commit.source == ExistingMember(0)
            && (commit.path == None || commit.path == Some(path))
            && next.roster == NextRoster(lone, commit) && next.extensions == ReplaceExtensions(lone.extensions, b)
  {
  }

  /** An accepted creation commit makes a lone creator's group two-party, the added leaf second. */
  lemma CreationRoster(lone: Shared, core: Core, commit: Commit, theirs: Leaf, psks: seq<ExportedPsk>,
                       attestation: Option<ApqInfoUpdate>, path: Path)
    requires Ownership.Alone(lone.roster) && Check(lone, core, commit).None?
    requires commit.proposals == CreationBundle(theirs, psks, attestation)
    requires commit.path == None || commit.path == Some(path)
    ensures var roster := NextRoster(lone, commit);
            && Ownership.TwoParty(roster) && roster[1] == theirs
                && (roster[0] == lone.roster[0] || roster[0] == path.leaf)
    ensures ReplaceExtensions(lone.extensions, commit.proposals) == lone.extensions
  {
    var b := commit.proposals;
    var roster := NextRoster(lone, commit);
    Ownership.CreationCommit(lone, core, commit);
    OneAddOnly(theirs, psks, attestation);
    var p :| p in b && p.proposal == Add(roster[1]);
    assert p == b[0];
  }

  /** What the creation commit makes of a lone creator's group, and what its Welcome says. */
  lemma CreatedShape(c: Creation, suite: nat, own: Leaf, seed: Secret, theirs: Leaf, core: Core, store: PskMap,
                     psks: seq<ExportedPsk>, path: Path)
    requires Created(c, suite, own, seed, theirs, core, store, psks, path).Ok?
    ensures var (r, w) := Created(c, suite, own, seed, theirs, core, store, psks, path).value;
            && r.own == 0 && r.spent == {}
            && Ownership.TwoParty(r.shared.roster) && r.shared.roster[1] == theirs
            && (r.shared.roster[0] == own || r.shared.roster[0] == path.leaf)
            && r.shared.groupId == c.groupId && r.shared.epoch == 1 && r.shared.suite == suite
            && r.shared.extensions == c.extensions
            && w.psks == Refs(CreationBundle(theirs, psks, c.attestation))
            && Resolve(CreationBundle(theirs, psks, c.attestation), store).Some?
            && r.shared.secret == JoinedSecret(w, Resolve(CreationBundle(theirs, psks, c.attestation), store).value)
            && w.confirmation == Tag(r.shared.secret)
            && (w.groupId, w.suite, w.epoch, w.roster, w.extensions) ==
                (r.shared.groupId, suite, r.shared.epoch, r.shared.roster, r.shared.extensions)
  {
    var lone, b := Lone(c, suite, own, seed), CreationBundle(theirs, psks, c.attestation);
    BuiltCreation(lone, core, store, b, path);
    CreationRoster(lone, core, Build(lone, core, store, 0, b, path).value.0, theirs, psks, c.attestation, path);
  }

  lemma {:induction false} PskProposalsArePsks(psks: seq<ExportedPsk>)
    ensures forall p :: p in PskProposals(psks) ==> p.proposal.Psk?
  {
    if psks != [] {
      PskProposalsArePsks(psks[..|psks| - 1]);
    }
  }

  lemma OneAddOnly(theirs: Leaf, psks: seq<ExportedPsk>, attestation: Option<ApqInfoUpdate>)
    ensures forall p :: p in CreationBundle(theirs, psks, attestation) ==> !p.proposal.Update?
    ensures forall p :: p in CreationBundle(theirs, psks, attestation) && p.proposal.Add? ==>
              p == CreationBundle(theirs, psks, attestation)[0] && p.proposal.leaf == theirs
  {
    PskProposalsArePsks(psks);
  }

  /** A Welcome to `r`, whose secret absorbed `values`, joins for exactly those who hold them. */
  lemma WelcomeJoins(w: Welcome, r: Shared, values: seq<Secret>, joiner: Core, held: PskMap, theirs: Leaf)
    requires Ownership.TwoParty(r.roster) && r.roster[1] == theirs && r.roster[0] != theirs
    requires w.confirmation == Tag(r.secret) && r.secret == JoinedSecret(w, values)
    requires w.groupId == r.groupId && w.suite == r.suite && w.epoch == r.epoch
    requires w.roster == r.roster && w.extensions == r.extensions
    ensures Joined(w, joiner, held, theirs).Ok? <==>
            && joiner.ValidateMember(r.roster[0].id) && joiner.ValidateMember(theirs.id)
            && Lookup(w.psks, held) == Some(values)
    ensures Joined(w, joiner, held, theirs).Ok? ==> Joined(w, joiner, held, theirs).value == Replica(r, 1, {})
  {
    Ownership.RosterSizes(w.roster);
    assert (set i | i in w.roster && w.roster[i] == theirs) == {1};
  }

  /** A joiner joins a created group iff its Authentication Service admits both members (its adoption
      window does) and it holds every bound PSK at the creator's value: with the window open the
      Welcome authenticates its creator by those PSKs alone. It then holds the creator's very state,
      as leaf 1. */
  lemma JoinFollowsCreation(c: Creation, suite: nat, own: Leaf, seed: Secret, theirs: Leaf, core: Core, store: PskMap,
                            psks: seq<ExportedPsk>, path: Path, joiner: Core, held: PskMap)
    requires Created(c, suite, own, seed, theirs, core, store, psks, path).Ok?
    requires theirs != own && theirs != path.leaf
    ensures var (r, w) := Created(c, suite, own, seed, theirs, core, store, psks, path).value;
            var b := CreationBundle(theirs, psks, c.attestation);
            && Ownership.TwoParty(r.shared.roster)
            && (Joined(w, joiner, held, theirs).Ok? <==>
                  && joiner.ValidateMember(r.shared.roster[0].id) && joiner.ValidateMember(theirs.id)
                  && Resolve(b, held) == Resolve(b, store))
            && (Joined(w, joiner, held, theirs).Ok? ==>
                Joined(w, joiner, held, theirs).value == Replica(r.shared, 1, {}))
  {
    CreatedShape(c, suite, own, seed, theirs, core, store, psks, path);
    var (r, w) := Created(c, suite, own, seed, theirs, core, store, psks, path).value;
    var b := CreationBundle(theirs, psks, c.attestation);
    LookupIsResolve(b, held);
    WelcomeJoins(w, r.shared, Resolve(b, store).value, joiner, held, theirs);
  }

  // ---- the pair ----

  lemma {:induction false} RefsAppend(a: Bundle, b: Bundle)
    ensures Refs(a + b) == Refs(a) + Refs(b)
  {
    if b == [] {
      assert a + b == a;
    } else {
      assert (a + b)[..|a + b| - 1] == a + b[..|b| - 1];
      RefsAppend(a, b[..|b| - 1]);
    }
  }

  function StorageIds(psks: seq<ExportedPsk>): seq<PskRef> {
    if psks == [] then [] else StorageIds(psks[..|psks| - 1]) + [StorageId(psks[|psks| - 1])]
  }

  lemma {:induction false} RefsOfPsks(psks: seq<ExportedPsk>)
    ensures Refs(PskProposals(psks)) == StorageIds(psks)
  {
    if psks != [] {
      RefsOfPsks(psks[..|psks| - 1]);
    }
  }

  lemma RefsOfOther(p: ProposalInfo)
    requires !p.proposal.Psk?
    ensures Refs([p]) == []
  {
    assert [p][..0] == [];
    assert Refs([]) == [];
  }

  lemma RefsOfCreation(theirs: Leaf, psks: seq<ExportedPsk>, attestation: Option<ApqInfoUpdate>)
    ensures Refs(CreationBundle(theirs, psks, attestation)) == StorageIds(psks)
  {
    var add := ProposalInfo(Add(theirs), Member(0));
    RefsOfPsks(psks);
    RefsOfOther(add);
    RefsAppend([add], PskProposals(psks));
    if attestation.Some? {
      var custom := ProposalInfo(Custom(ToCustomProposal(attestation.value)), Member(0));
      RefsOfOther(custom);
      RefsAppend([add] + PskProposals(psks), [custom]);
    } else {
      assert CreationBundle(theirs, psks, attestation) == [add] + PskProposals(psks);
    }
  }

  lemma LookupAppend(refs: seq<PskRef>, last: PskRef, store: PskMap)
    ensures Lookup(refs + [last], store) ==
            if Lookup(refs, store).None? || last !in store then None
                else Some(Lookup(refs, store).value + [store[last]])
  {
    assert (refs + [last])[..|refs|] == refs;
  }

  lemma StorageIdsOfCrossing(cross: Option<ExportedPsk>, apq: ExportedPsk)
    ensures StorageIds(Crossing(cross) + [apq]) ==
            (if cross.Some? then [StorageId(cross.value)] else []) + [StorageId(apq)]
  {
    var psks := Crossing(cross) + [apq];
    assert psks[..|psks| - 1] == Crossing(cross);
    if cross.Some? {
      assert Crossing(cross)[..0] == [];
      assert StorageIds(Crossing(cross)) == StorageIds([]) + [StorageId(cross.value)];
    }
  }

  lemma LookupOne(ref: PskRef, store: PskMap)
    requires ref in store
    ensures Lookup([ref], store) == Some([store[ref]])
  {
    assert [] + [ref] == [ref] && [] + [store[ref]] == [store[ref]];
    LookupAppend([], ref, store);
  }

  /** What a combiner classical half resolves: the cross-party PSK, if bound, then the `apq_psk`. */
  lemma CrossingResolves(theirs: Leaf, cross: Option<ExportedPsk>, apq: ExportedPsk,
                         attestation: Option<ApqInfoUpdate>, store: PskMap)
    ensures Resolve(CreationBundle(theirs, Crossing(cross) + [apq], attestation), store) ==
            if StorageId(apq) !in store || (cross.Some? && StorageId(cross.value) !in store) then None
            else Some((if cross.Some? then [store[StorageId(cross.value)]] else []) + [store[StorageId(apq)]])
  {
    var psks := Crossing(cross) + [apq];
    RefsOfCreation(theirs, psks, attestation);
    LookupIsResolve(CreationBundle(theirs, psks, attestation), store);
    StorageIdsOfCrossing(cross, apq);
    if cross.None? {
      LookupAppend([], StorageId(apq), store);
    } else {
      LookupAppend([StorageId(cross.value)], StorageId(apq), store);
      if StorageId(cross.value) in store {
        LookupOne(StorageId(cross.value), store);
      } else {
        LookupAppend([], StorageId(cross.value), store);
        assert [] + [StorageId(cross.value)] == [StorageId(cross.value)];
      }
    }
  }

  lemma UnboundResolves(theirs: Leaf, attestation: Option<ApqInfoUpdate>, store: PskMap)
    ensures Resolve(CreationBundle(theirs, [], attestation), store) == Some([])
  {
    RefsOfCreation(theirs, [], attestation);
    LookupIsResolve(CreationBundle(theirs, [], attestation), store);
  }

  /** What a created send pair is. */
  ghost predicate SendShape(sent: SendPair, me: Party, theirs: KeyPackages, binding: Option<Bytes>, d: Draw) {
    && sent.cl.own == 0 && sent.pq.own == 0 && sent.cl.spent == {} && sent.pq.spent == {APQ_COMPONENT_ID}
    && sent.apq == ExportedFrom(sent.pq.shared, APQ_COMPONENT_ID)
    && Ownership.TwoParty(sent.cl.shared.roster) && Ownership.TwoParty(sent.pq.shared.roster)
    && sent.cl.shared.roster[1] == theirs.classical && sent.pq.shared.roster[1] == theirs.pq
    && sent.cl.shared.epoch == 1 && sent.pq.shared.epoch == 1
    && sent.cl.shared.groupId == d.tGroupId && sent.pq.shared.groupId == d.pqGroupId
    && sent.cl.shared.suite == me.suite.classical && sent.pq.shared.suite == me.suite.pq
    && sent.cl.shared.extensions == Extensions(Some(NewInfo(me.suite, d.tGroupId, d.pqGroupId, 1, 1)), binding)
    && sent.pq.shared.extensions == Extensions(Some(NewInfo(me.suite, d.tGroupId, d.pqGroupId, 1, 1)), None)
    && Contains(sent.cl.shared.secret, sent.apq.psk)
  }

  lemma CreatedHalves(me: Party, theirs: KeyPackages, cross: Option<ExportedPsk>, binding: Option<Bytes>, d: Draw)
    requires CreateSend(me, theirs, cross, binding, d).0.Ok?
    ensures var sent := CreateSend(me, theirs, cross, binding, d).0.value;
            && CreatedPq(Ready(me, theirs, cross), theirs, d) == Ok((sent.pq.(spent := {}), sent.pqWelcome))
            && CreatedClassical(Registered(Ready(me, theirs, cross), sent.apq), theirs, cross, sent.apq, binding, d) ==
                Ok((sent.cl, sent.clWelcome))
            && sent.apq == ExportedFrom(sent.pq.shared, APQ_COMPONENT_ID)
  {
    var p := Ready(me, theirs, cross);
    CreatedShape(PqCreation(p.suite, d), p.suite.pq, p.own.pq, d.pqSeed, theirs.pq, p.core, p.pqStore, [], d.pqPath);
  }

  lemma ClassicalAbsorbs(me: Party, theirs: KeyPackages, cross: Option<ExportedPsk>, binding: Option<Bytes>, d: Draw,
                         apq: ExportedPsk)
    requires CreatedClassical(Registered(Ready(me, theirs, cross), apq), theirs, cross, apq, binding, d).Ok?
    ensures var (cl, w) := CreatedClassical(Registered(Ready(me, theirs, cross), apq), theirs, cross, apq, binding,
                                            d).value;
            && cl.own == 0 && cl.spent == {} && Ownership.TwoParty(cl.shared.roster)
                && cl.shared.roster[1] == theirs.classical
            && cl.shared.epoch == 1 && cl.shared.groupId == d.tGroupId && cl.shared.suite == me.suite.classical
            && cl.shared.extensions == Extensions(Some(NewInfo(me.suite, d.tGroupId, d.pqGroupId, 1, 1)), binding)
            && Contains(cl.shared.secret, apq.psk)
  {
    var q := Registered(Ready(me, theirs, cross), apq);
    CreatedShape(ClassicalCreation(q.suite, d, binding), q.suite.classical, q.own.classical, d.tSeed, theirs.classical,
                 q.core, q.classicalStore, Crossing(cross) + [apq], d.tPath);
    CrossingResolves(theirs.classical, cross, apq, Some(AT_ONE), q.classicalStore);
    var values := Resolve(CreationBundle(theirs.classical, Crossing(cross) + [apq], Some(AT_ONE)),
                          q.classicalStore).value;
    assert values[|values| - 1] == apq.psk;
    assert apq.psk in values;
  }

  lemma PqHalfShape(p: Party, theirs: KeyPackages, d: Draw)
    requires CreatedPq(p, theirs, d).Ok?
    ensures var (pq, w) := CreatedPq(p, theirs, d).value;
            && pq.own == 0 && pq.spent == {} && Ownership.TwoParty(pq.shared.roster) && pq.shared.roster[1] == theirs.pq
            && pq.shared.epoch == 1 && pq.shared.groupId == d.pqGroupId && pq.shared.suite == p.suite.pq
            && pq.shared.extensions == Extensions(Some(NewInfo(p.suite, d.tGroupId, d.pqGroupId, 1, 1)), None)
  {
    CreatedShape(PqCreation(p.suite, d), p.suite.pq, p.own.pq, d.pqSeed, theirs.pq, p.core, p.pqStore, [], d.pqPath);
  }

  /** Every created pair is two-party at epoch 1, under the drawn ids and pinned suites, each half
      naming the other, and the message group's secret already contains the PQ half's export. */
  lemma CreatedSendShape(me: Party, theirs: KeyPackages, cross: Option<ExportedPsk>, binding: Option<Bytes>, d: Draw)
    requires CreateSend(me, theirs, cross, binding, d).0.Ok?
    ensures SendShape(CreateSend(me, theirs, cross, binding, d).0.value, me, theirs, binding, d)
  {
    CreatedHalves(me, theirs, cross, binding, d);
    PqHalfShape(Ready(me, theirs, cross), theirs, d);
    ClassicalAbsorbs(me, theirs, cross, binding, d, CreateSend(me, theirs, cross, binding, d).0.value.apq);
  }

  /** The joiner was asked to hold the bound cross-party PSK, and does. */
  predicate HoldsCross(joiner: Party, cross: Option<ExportedPsk>) {
    cross.Some? ==>
      && StorageId(cross.value) in joiner.classicalStore
      && joiner.classicalStore[StorageId(cross.value)] == cross.value.psk
  }

  lemma JoinsPq(me: Party, theirs: KeyPackages, cross: Option<ExportedPsk>, binding: Option<Bytes>, d: Draw,
                joiner: Party)
    requires CreateSend(me, theirs, cross, binding, d).0.Ok?
    requires joiner.own == theirs && joiner.core.adopting
    requires theirs.pq != me.own.pq && theirs.pq != d.pqPath.leaf
    ensures var sent := CreateSend(me, theirs, cross, binding, d).0.value;
            Joined(sent.pqWelcome, joiner.core, joiner.pqStore, theirs.pq) == Ok(Replica(sent.pq.shared, 1, {}))
  {
    var p := Ready(me, theirs, cross);
    CreatedHalves(me, theirs, cross, binding, d);
    UnboundResolves(theirs.pq, Some(AT_ONE), p.pqStore);
    UnboundResolves(theirs.pq, Some(AT_ONE), joiner.pqStore);
    JoinFollowsCreation(PqCreation(p.suite, d), p.suite.pq, p.own.pq, d.pqSeed, theirs.pq, p.core, p.pqStore, [],
                        d.pqPath, joiner.core, joiner.pqStore);
  }

  /** The joiner's registered stores resolve the creation's PSKs alike iff it holds the cross PSK. */
  lemma ResolvesAlikeIff(me: Party, theirs: KeyPackages, cross: Option<ExportedPsk>, apq: ExportedPsk, joiner: Party)
    requires cross.Some? ==> cross.value.component != apq.component
    ensures var b := CreationBundle(theirs.classical, Crossing(cross) + [apq], Some(AT_ONE));
            Resolve(b, Registered(joiner, apq).classicalStore) ==
            Resolve(b, Registered(Ready(me, theirs, cross), apq).classicalStore)
            <==> HoldsCross(joiner, cross)
  {
    CrossingResolves(theirs.classical, cross, apq, Some(AT_ONE),
                     Registered(Ready(me, theirs, cross), apq).classicalStore);
    CrossingResolves(theirs.classical, cross, apq, Some(AT_ONE), Registered(joiner, apq).classicalStore);
    if cross.Some? && StorageId(cross.value) in joiner.classicalStore {
      var held := joiner.classicalStore[StorageId(cross.value)];
      assert ([held] + [apq.psk])[0] == held && ([cross.value.psk] + [apq.psk])[0] == cross.value.psk;
    }
  }

  lemma JoinsClassicalIff(me: Party, theirs: KeyPackages, cross: Option<ExportedPsk>, binding: Option<Bytes>, d: Draw,
                          joiner: Party)
    requires CreateSend(me, theirs, cross, binding, d).0.Ok?
    requires joiner.own == theirs && joiner.core.adopting
    requires theirs.classical != me.own.classical && theirs.classical != d.tPath.leaf
    requires cross.Some? ==> cross.value.component == TWOMLS_COMPONENT_ID
    ensures var sent := CreateSend(me, theirs, cross, binding, d).0.value;
            var q := Registered(joiner, sent.apq);
            && (Joined(sent.clWelcome, q.core, q.classicalStore, theirs.classical).Ok? <==> HoldsCross(joiner, cross))
            && (HoldsCross(joiner, cross) ==>
                  Joined(sent.clWelcome, q.core, q.classicalStore, theirs.classical) ==
                      Ok(Replica(sent.cl.shared, 1, {})))
  {
    var sent := CreateSend(me, theirs, cross, binding, d).0.value;
    var q := Registered(Ready(me, theirs, cross), sent.apq);
    var j := Registered(joiner, sent.apq);
    CreatedHalves(me, theirs, cross, binding, d);
    ResolvesAlikeIff(me, theirs, cross, sent.apq, joiner);
    JoinFollowsCreation(ClassicalCreation(q.suite, d, binding), q.suite.classical, q.own.classical, d.tSeed,
                        theirs.classical, q.core, q.classicalStore, Crossing(cross) + [sent.apq], d.tPath,
                        j.core, j.classicalStore);
  }

  /** Both halves' leaves name the same two identities. */
  ghost predicate SameMembers(sent: SendPair, theirs: KeyPackages)
    requires 0 in sent.cl.shared.roster && 0 in sent.pq.shared.roster
  {
    multiset{sent.cl.shared.roster[0].id, theirs.classical.id} == multiset{sent.pq.shared.roster[0].id, theirs.pq.id}
  }

  /** A created pair passes the joiner's `APQInfo` check, and its membership check iff both halves
      name the same members. */
  lemma SendVerifies(sent: SendPair, me: Party, theirs: KeyPackages, binding: Option<Bytes>, d: Draw)
    requires me.suite.Valid() && SendShape(sent, me, theirs, binding, d)
    ensures VerifyPair(sent.cl.shared, sent.pq.shared, me.suite).Ok?
    ensures EnsureMembershipConsistent(sent.cl.shared, sent.pq.shared).None? <==> SameMembers(sent, theirs)
  {
    MembershipConsistentIff(sent.cl.shared, sent.pq.shared);
  }

  lemma JoinHalvesIff(me: Party, theirs: KeyPackages, cross: Option<ExportedPsk>, binding: Option<Bytes>, d: Draw,
                      joiner: Party)
    requires CreateSend(me, theirs, cross, binding, d).0.Ok?
    requires joiner.own == theirs && joiner.core.adopting
    requires theirs.pq != me.own.pq && theirs.pq != d.pqPath.leaf
    requires theirs.classical != me.own.classical && theirs.classical != d.tPath.leaf
    requires cross.Some? ==> cross.value.component == TWOMLS_COMPONENT_ID
    ensures var sent := CreateSend(me, theirs, cross, binding, d).0.value;
            var (joined, after) := JoinHalves(joiner, sent.clWelcome, sent.pqWelcome);
            && (joined.Ok? <==> HoldsCross(joiner, cross))
            && (joined.Ok? ==>
                  joined.value ==
                  RecvPair(Replica(sent.cl.shared, 1, {}), Replica(sent.pq.shared, 1, {APQ_COMPONENT_ID}), sent.apq))
            && after.suite == joiner.suite
  {
    JoinsPq(me, theirs, cross, binding, d, joiner);
    JoinsClassicalIff(me, theirs, cross, binding, d, joiner);
    CreatedHalves(me, theirs, cross, binding, d);
  }

  /** The checks a joiner runs on the halves it joined decide the rest. */
  lemma JoinDecides(joiner: Party, clWelcome: Welcome, pqWelcome: Welcome)
    ensures var (halves, mid) := JoinHalves(joiner.(core := joiner.core.(adopting := true)), clWelcome, pqWelcome);
            var (joined, after) := JoinRecv(joiner, clWelcome, pqWelcome);
            && !after.core.adopting
            && (joined.Ok? ==> halves == joined)
            && (halves.Ok? && VerifyPair(halves.value.cl.shared, halves.value.pq.shared, mid.suite).Ok?
                && Ownership.TwoParty(halves.value.cl.shared.roster) && halves.value.cl.own == 1 ==>
                  (joined.Ok? <==> EnsureMembershipConsistent(halves.value.cl.shared, halves.value.pq.shared).None?))
  {
  }

  /** Joining a created pair, with every check: it succeeds iff the joiner holds the bound
      cross-party PSK and both halves name the same two identities, whatever else its stores and
      Authentication Service hold. It then has the creator's two shared states, its own copy of the
      same `apq_psk`, and exactly that exporter leaf spent; and on every exit the adoption window is
      shut. */
  lemma JoinFollowsCreate(me: Party, theirs: KeyPackages, cross: Option<ExportedPsk>, binding: Option<Bytes>, d: Draw,
                          joiner: Party)
    requires CreateSend(me, theirs, cross, binding, d).0.Ok?
    requires me.suite.Valid() && joiner.suite == me.suite && joiner.own == theirs
    requires theirs.pq != me.own.pq && theirs.pq != d.pqPath.leaf
    requires theirs.classical != me.own.classical && theirs.classical != d.tPath.leaf
    requires cross.Some? ==> cross.value.component == TWOMLS_COMPONENT_ID
    ensures var sent := CreateSend(me, theirs, cross, binding, d).0.value;
            var (joined, after) := JoinRecv(joiner, sent.clWelcome, sent.pqWelcome);
            && SendShape(sent, me, theirs, binding, d)
            && (joined.Ok? <==> HoldsCross(joiner, cross) && SameMembers(sent, theirs))
            && (joined.Ok? ==>
                  joined.value ==
                  RecvPair(Replica(sent.cl.shared, 1, {}), Replica(sent.pq.shared, 1, {APQ_COMPONENT_ID}), sent.apq))
            && !after.core.adopting
  {
    CreatedSendShape(me, theirs, cross, binding, d);
    var sent := CreateSend(me, theirs, cross, binding, d).0.value;
    JoinHalvesIff(me, theirs, cross, binding, d, joiner.(core := joiner.core.(adopting := true)));
    SendVerifies(sent, me, theirs, binding, d);
    JoinDecides(joiner, sent.clWelcome, sent.pqWelcome);
  }

  /** The joiner's app-binding check passes iff it expects exactly the creator's binding, and the PQ
      half never carries one. */
  lemma BindingVerifiesIff(me: Party, theirs: KeyPackages, cross: Option<ExportedPsk>, binding: Option<Bytes>, d: Draw,
                           expected: Option<Bytes>)
    requires CreateSend(me, theirs, cross, binding, d).0.Ok?
    ensures var sent := CreateSend(me, theirs, cross, binding, d).0.value;
            && (VerifyAppBinding(sent.cl.shared, expected).None? <==> expected == binding)
            && VerifyPqHalfUnbound(sent.pq.shared).None?
            && binding != Some([])
  {
    CreatedSendShape(me, theirs, cross, binding, d);
  }

  // ---- the deferred pair ----

  /** The classical-only creation: the PQ half's id is allocated now, its epoch is pending. */
  function DeferredCreation(suite: ApqCipherSuite, tGroupId: Bytes, pqGroupId: Bytes,
                            binding: Option<Bytes>): Creation {
    Creation(tGroupId, Extensions(Some(NewInfo(suite, tGroupId, pqGroupId, 1, EPOCH_UNBOUND)), binding), None)
  }

  /** The bootstrap's PQ creation, under some id; honestly the one the classical half recorded. */
  function BootstrapCreation(suite: ApqCipherSuite, classical: ApqInfo, used: Bytes): Creation {
    Creation(used, Extensions(Some(NewInfo(suite, classical.tGroupId, used, EPOCH_UNBOUND, 1)), None), None)
  }

  /** Creating the deferred PQ half of a classical half already standing, and joining it. */
  function Bootstrapped(suite: ApqCipherSuite, info: ApqInfo, used: Bytes, own: Leaf, seed: Secret, theirs: Leaf,
                        core: Core, store: PskMap, path: Path): Result<(Replica, Welcome), CombinerError> {
    Created(BootstrapCreation(suite, info, used), suite.pq, own, seed, theirs, core, store, [], path)
  }

  /** A deferred classical half verifies as deferred and only so. */
  lemma DeferredVerifies(suite: ApqCipherSuite, tGroupId: Bytes, pqGroupId: Bytes, binding: Option<Bytes>, own: Leaf,
                         seed: Secret, theirs: Leaf, core: Core, store: PskMap, cross: ExportedPsk, path: Path)
    requires suite.Valid() && pqGroupId != []
    requires Created(DeferredCreation(suite, tGroupId, pqGroupId, binding), suite.classical, own, seed, theirs, core,
                     store, [cross], path).Ok?
    ensures var cl := Created(DeferredCreation(suite, tGroupId, pqGroupId, binding), suite.classical, own, seed,
                              theirs, core, store, [cross], path).value.0.shared;
            && VerifyDeferred(cl, suite) == Ok(NewInfo(suite, tGroupId, pqGroupId, 1, EPOCH_UNBOUND))
            && forall pq :: VerifyPair(cl, pq, suite).Err?
  {
    CreatedShape(DeferredCreation(suite, tGroupId, pqGroupId, binding), suite.classical, own, seed, theirs, core,
                 store, [cross], path);
    var cl := Created(DeferredCreation(suite, tGroupId, pqGroupId, binding), suite.classical, own, seed, theirs, core,
                      store, [cross], path).value.0.shared;
    forall pq ensures VerifyPair(cl, pq, suite).Err? {
      if VerifyPair(cl, pq, suite).Ok? {
        LiveOrDeferred(cl, pq, suite);
      }
    }
  }

  /** The bootstrap, whatever the classical half has done meanwhile: the joiner joins the PQ half iff
      its Authentication Service admits both members, and then has the creator's very state. That
      verifies against the classical half's record iff it was created under the recorded id, and
      carries no binding. */
  lemma BootstrapJoins(suite: ApqCipherSuite, info: ApqInfo, used: Bytes, own: Leaf, seed: Secret, theirs: Leaf,
                       core: Core, store: PskMap, path: Path, joiner: Core, held: PskMap)
    requires suite.Valid() && info == NewInfo(suite, info.tGroupId, info.pqGroupId, info.tEpoch, info.pqEpoch)
    requires Bootstrapped(suite, info, used, own, seed, theirs, core, store, path).Ok?
    requires theirs != own && theirs != path.leaf
    ensures var (r, w) := Bootstrapped(suite, info, used, own, seed, theirs, core, store, path).value;
            && Ownership.TwoParty(r.shared.roster) && r.shared.suite == suite.pq
            && (Joined(w, joiner, held, theirs).Ok? <==>
                  joiner.ValidateMember(r.shared.roster[0].id) && joiner.ValidateMember(theirs.id))
            && (Joined(w, joiner, held, theirs).Ok? ==>
                Joined(w, joiner, held, theirs).value == Replica(r.shared, 1, {}))
            && (VerifyDeferredPq(r.shared, info, suite).None? <==> used == info.pqGroupId)
            && VerifyPqHalfUnbound(r.shared).None?
  {
    var c := BootstrapCreation(suite, info, used);
    CreatedShape(c, suite.pq, own, seed, theirs, core, store, [], path);
    JoinFollowsCreation(c, suite.pq, own, seed, theirs, core, store, [], path, joiner, held);
    UnboundResolves(theirs, None, store);
    UnboundResolves(theirs, None, held);
  }

  // ---- when creation succeeds ----

  lemma {:induction false} PskProposalsShape(psks: seq<ExportedPsk>)
    ensures forall k :: 0 <= k < |PskProposals(psks)| ==>
              PskProposals(psks)[k].proposal.Psk? && PskProposals(psks)[k].proposal.ref.Application?
  {
    if psks != [] {
      PskProposalsShape(psks[..|psks| - 1]);
    }
  }

  /** What stands where in a creation bundle. */
  ghost predicate CreationAt(b: Bundle, k: nat, attestation: Option<ApqInfoUpdate>)
    requires k < |b|
  {
    || (k == 0 && b[k].proposal.Add?)
    || (k > 0 && b[k].proposal.Psk? && b[k].proposal.ref.Application?)
    || (k > 0 && k == |b| - 1 && attestation.Some?
        && b[k] == ProposalInfo(Custom(ToCustomProposal(attestation.value)), Member(0)))
  }

  ghost predicate WellPlaced(b: Bundle, attestation: Option<ApqInfoUpdate>) {
    b != [] && forall k {:trigger b[k]} :: 0 <= k < |b| ==> CreationAt(b, k, attestation)
  }

  lemma CreationPositions(theirs: Leaf, psks: seq<ExportedPsk>, attestation: Option<ApqInfoUpdate>)
    ensures WellPlaced(CreationBundle(theirs, psks, attestation), attestation)
  {
    var b := CreationBundle(theirs, psks, attestation);
    PskProposalsShape(psks);
    forall k | 0 <= k < |b| ensures CreationAt(b, k, attestation) {
      if 1 <= k <= |PskProposals(psks)| {
        assert b[k] == PskProposals(psks)[k - 1];
      }
    }
  }

  lemma PositionsAreWhitelisted(suite: nat, b: Bundle, attestation: Option<ApqInfoUpdate>)
    requires SuiteIsPq(suite).Some? && (attestation.Some? ==> attestation.value == AT_ONE)
    requires WellPlaced(b, attestation)
    ensures Whitelisted(ExistingMember(0), 1, suite, 0, b)
  {
    assert b[0].proposal.Add?;
    assert ToCustomProposal(AT_ONE) == ToCustomProposal(AT_ONE);
    assert TruthfulAttestation(0, suite, 0, b);
    assert CreationShape(b);
  }

  /** The whitelist accepts every creation commit, attesting the first epoch or attesting nothing. */
  lemma CreationIsAccepted(suite: nat, theirs: Leaf, psks: seq<ExportedPsk>, attestation: Option<ApqInfoUpdate>)
    requires SuiteIsPq(suite).Some? && (attestation.Some? ==> attestation.value == AT_ONE)
    ensures FilterProposals(ExistingMember(0), 1, suite, 0, CreationBundle(theirs, psks, attestation)).Ok?
  {
    var b := CreationBundle(theirs, psks, attestation);
    CreationPositions(theirs, psks, attestation);
    PositionsAreWhitelisted(suite, b, attestation);
    FilterIff(ExistingMember(0), 1, suite, 0, b);
  }

  lemma CreationCredentials(lone: Shared, core: Core, c: Commit, theirs: Leaf, psks: seq<ExportedPsk>,
                            attestation: Option<ApqInfoUpdate>)
    requires c.proposals == CreationBundle(theirs, psks, attestation) && c.source == ExistingMember(0)
    ensures CredentialsAllowed(lone, core, c) <==>
            && core.ValidateMember(theirs.id)
            && (c.path.Some? ==> LeafMoveAllowed(lone.roster, core, 0, c.path.value.leaf))
  {
    OneAddOnly(theirs, psks, attestation);
    assert c.proposals[0] in c.proposals && c.proposals[0].proposal == Add(theirs);
  }

  /** The first commit of a lone creator: what is left to check once the whitelist accepts it. */
  lemma LoneBuildsIff(lone: Shared, core: Core, store: PskMap, b: Bundle, path: Path)
    requires Ownership.Alone(lone.roster) && lone.epoch == 0
    requires FilterProposals(ExistingMember(0), 1, lone.suite, 0, b).Ok? && Resolve(b, store).Some?
    ensures var withPath := PathRequired(b) || PathPinned(lone.suite, b);
            var committed := if withPath then Some(path) else None;
            var draft := Commit(lone.groupId, 0, ExistingMember(0), b, committed, Tag(Zero));
            Build(lone, core, store, 0, b, path).Ok? <==> CredentialsAllowed(lone, core, draft)
  {
    Ownership.RosterSizes(lone.roster);
  }

  /** A creation whose PSKs are held succeeds iff the Authentication Service admits the peer and, on
      a classical half that attests, lets the creator move its own leaf to the path's. */
  lemma CreatedIff(c: Creation, suite: nat, own: Leaf, seed: Secret, theirs: Leaf, core: Core, store: PskMap,
                   psks: seq<ExportedPsk>, path: Path)
    requires SuiteIsPq(suite).Some? && (c.attestation.Some? ==> c.attestation.value == AT_ONE)
    requires Resolve(CreationBundle(theirs, psks, c.attestation), store).Some?
    ensures Created(c, suite, own, seed, theirs, core, store, psks, path).Ok? <==>
            && core.ValidateMember(theirs.id)
            && (c.attestation.Some? && SuiteIsPq(suite) == Some(false) ==>
                  core.ValidateMember(path.leaf.id) && core.ValidSuccessor(own.id, path.leaf.id))
  {
    var lone := Lone(c, suite, own, seed);
    var b := CreationBundle(theirs, psks, c.attestation);
    var withPath := PathRequired(b) || PathPinned(suite, b);
    CreationIsAccepted(suite, theirs, psks, c.attestation);
    LoneBuildsIff(lone, core, store, b, path);
    CreationPath(suite, theirs, psks, c.attestation);
    var draft := Commit(lone.groupId, 0, ExistingMember(0), b, if withPath then Some(path) else None, Tag(Zero));
    CreationCredentials(lone, core, draft, theirs, psks, c.attestation);
  }

  lemma CreationPath(suite: nat, theirs: Leaf, psks: seq<ExportedPsk>, attestation: Option<ApqInfoUpdate>)
    requires SuiteIsPq(suite).Some?
    ensures var b := CreationBundle(theirs, psks, attestation);
            PathRequired(b) || PathPinned(suite, b) <==> attestation.Some? && SuiteIsPq(suite) == Some(false)
  {
    var b := CreationBundle(theirs, psks, attestation);
    PskProposalsArePsks(psks);
    if attestation.Some? {
      var custom := ProposalInfo(Custom(ToCustomProposal(attestation.value)), Member(0));
      assert custom in b;
      assert custom in Customs(b);
    } else {
      assert forall p :: p in b ==> !p.proposal.Custom?;
    }
  }

  /** Creating a pair succeeds iff the binding is not empty, the Authentication Service admits both
      key packages' identities (the admitted one it has just recorded), and lets the creator move
      its classical leaf to the path's. */
  lemma CreateSucceedsIff(me: Party, theirs: KeyPackages, cross: Option<ExportedPsk>, binding: Option<Bytes>, d: Draw)
    requires me.suite.Valid()
    ensures var core := Ready(me, theirs, cross).core;
            CreateSend(me, theirs, cross, binding, d).0.Ok? <==>
            && binding != Some([])
            && core.ValidateMember(theirs.classical.id) && core.ValidateMember(theirs.pq.id)
            && core.ValidateMember(d.tPath.leaf.id) && core.ValidSuccessor(me.own.classical.id, d.tPath.leaf.id)
  {
    var p := Ready(me, theirs, cross);
    UnboundResolves(theirs.pq, Some(AT_ONE), p.pqStore);
    CreatedIff(PqCreation(p.suite, d), p.suite.pq, p.own.pq, d.pqSeed, theirs.pq, p.core, p.pqStore, [], d.pqPath);
    if CreatedPq(p, theirs, d).Ok? {
      ClassicalSucceedsIff(me, theirs, cross, ExportedFrom(CreatedPq(p, theirs, d).value.0.shared, APQ_COMPONENT_ID),
                           binding, d);
    }
  }

  lemma ClassicalSucceedsIff(me: Party, theirs: KeyPackages, cross: Option<ExportedPsk>, apq: ExportedPsk,
                             binding: Option<Bytes>, d: Draw)
    requires me.suite.Valid()
    ensures var core := Ready(me, theirs, cross).core;
            CreatedClassical(Registered(Ready(me, theirs, cross), apq), theirs, cross, apq, binding, d).Ok? <==>
            && core.ValidateMember(theirs.classical.id)
            && core.ValidateMember(d.tPath.leaf.id) && core.ValidSuccessor(me.own.classical.id, d.tPath.leaf.id)
  {
    var q := Registered(Ready(me, theirs, cross), apq);
    CrossingResolves(theirs.classical, cross, apq, Some(AT_ONE), q.classicalStore);
    CreatedIff(ClassicalCreation(q.suite, d, binding), q.suite.classical, q.own.classical, d.tSeed, theirs.classical,
               q.core, q.classicalStore, Crossing(cross) + [apq], d.tPath);
  }

  /** Two honest parties always establish: one identity each, the creator's path under its own
      identity, no empty binding, and the joiner holding what the creator bound. */
  lemma HonestPartiesEstablish(me: Party, theirs: KeyPackages, cross: Option<ExportedPsk>, binding: Option<Bytes>,
                               d: Draw, joiner: Party, id: Bytes)
    requires me.suite.Valid() && joiner.suite == me.suite && joiner.own == theirs && binding != Some([])
    requires id in me.core.mine.history
    requires me.own.classical.id == id && me.own.pq.id == id && d.tPath.leaf.id == id && d.pqPath.leaf.id == id
    requires theirs.classical.id == theirs.pq.id
    requires theirs.pq != me.own.pq && theirs.pq != d.pqPath.leaf
    requires theirs.classical != me.own.classical && theirs.classical != d.tPath.leaf
    requires cross.Some? ==> cross.value.component == TWOMLS_COMPONENT_ID
    requires HoldsCross(joiner, cross)
    ensures CreateSend(me, theirs, cross, binding, d).0.Ok?
    ensures var sent := CreateSend(me, theirs, cross, binding, d).0.value;
            JoinRecv(joiner, sent.clWelcome, sent.pqWelcome).0.Ok?
  {
    CommittedIsAdmitted(me.core.theirs, theirs.pq.id);
    CreateSucceedsIff(me, theirs, cross, binding, d);
    CreatedLeafIds(me, theirs, cross, binding, d);
    JoinFollowsCreate(me, theirs, cross, binding, d, joiner);
  }

  lemma CommittedIsAdmitted(s: Authentication.Sequence, id: Bytes)
    ensures Authentication.Apply(s, Authentication.Event.Commit(id)).Admits(id)
    ensures Authentication.Apply(s, Authentication.Event.Commit(id)).Current() == Some(id)
  {
    var after := Authentication.Apply(s, Authentication.Event.Commit(id));
    assert after.Current() == Some(id);
  }

  /** The creator's leaves carry its own or its paths' identities. */
  lemma CreatedLeafIds(me: Party, theirs: KeyPackages, cross: Option<ExportedPsk>, binding: Option<Bytes>, d: Draw)
    requires CreateSend(me, theirs, cross, binding, d).0.Ok?
    ensures var sent := CreateSend(me, theirs, cross, binding, d).0.value;
            && 0 in sent.cl.shared.roster && sent.cl.shared.roster[0] in {me.own.classical, d.tPath.leaf}
            && 0 in sent.pq.shared.roster && sent.pq.shared.roster[0] in {me.own.pq, d.pqPath.leaf}
  {
    var p := Ready(me, theirs, cross);
    CreatedHalves(me, theirs, cross, binding, d);
    var q := Registered(p, CreateSend(me, theirs, cross, binding, d).0.value.apq);
    CreatedShape(PqCreation(p.suite, d), p.suite.pq, p.own.pq, d.pqSeed, theirs.pq, p.core, p.pqStore, [], d.pqPath);
    CreatedShape(ClassicalCreation(q.suite, d, binding), q.suite.classical, q.own.classical, d.tSeed, theirs.classical,
                 q.core, q.classicalStore, Crossing(cross) + [CreateSend(me, theirs, cross, binding, d).0.value.apq],
                 d.tPath);
  }

  // ---- who joins what ----

  /** A Welcome is accepted iff every leaf in it is admitted, every PSK it names is held, the confirmation
      is the one those values give, the joiner's own leaf is in the tree, and the tree has two leaves. The
      joiner then has what the Welcome says, at its leftmost such leaf. */
  lemma JoinedIff(w: Welcome, core: Core, store: PskMap, own: Leaf)
    ensures Joined(w, core, store, own).Ok? <==>
            && (forall i :: i in w.roster ==> core.ValidateMember(w.roster[i].id))
            && (forall ref :: ref in w.psks ==> ref in store)
            && (Lookup(w.psks, store).Some? ==>
                  w.confirmation ==
                  Tag(EpochSecret(w.init, w.commit, Lookup(w.psks, store).value,
                                  Context(w.groupId, w.epoch, w.roster, w.extensions))))
            && (exists i :: i in w.roster && w.roster[i] == own) && |w.roster| == 2
    ensures Joined(w, core, store, own).Ok? ==>
              var r := Joined(w, core, store, own).value;
              && r.shared.groupId == w.groupId && r.shared.suite == w.suite && r.shared.epoch == w.epoch
              && r.shared.roster == w.roster && r.shared.extensions == w.extensions
              && w.confirmation == Tag(r.shared.secret) && r.spent == {}
              && r.own in w.roster && w.roster[r.own] == own
              && forall i :: i in w.roster && w.roster[i] == own ==> r.own <= i
  {
    LookupIff(w.psks, store);
    var mine := set i | i in w.roster && w.roster[i] == own;
    if i :| i in w.roster && w.roster[i] == own {
      assert i in mine;
    }
    if Joined(w, core, store, own).Ok? {
      assert Joined(w, core, store, own).value.own == Least(mine);
      assert Least(mine) in mine;
      forall i | i in w.roster && w.roster[i] == own ensures Least(mine) <= i {
        assert i in mine;
      }
    }
  }

  lemma {:induction false} LookupIff(refs: seq<PskRef>, store: PskMap)
    ensures Lookup(refs, store).Some? <==> forall ref :: ref in refs ==> ref in store
    ensures Lookup(refs, store).Some? ==> |Lookup(refs, store).value| == |refs|
  {
    if refs != [] {
      var front, last := refs[..|refs| - 1], refs[|refs| - 1];
      LookupIff(front, store);
      assert last in refs;
      forall ref | ref in refs ensures ref in front || ref == last {
      }
      forall ref | ref in front ensures ref in refs {
      }
    }
  }

  /** The values looked up are those of the names, in order. */
  lemma {:induction false} LookupAt(refs: seq<PskRef>, store: PskMap, k: nat)
    requires Lookup(refs, store).Some? && k < |refs|
    ensures |Lookup(refs, store).value| == |refs| && refs[k] in store && Lookup(refs, store).value[k] == store[refs[k]]
  {
    LookupIff(refs, store);
    if k < |refs| - 1 {
      LookupAt(refs[..|refs| - 1], store, k);
    } else {
      LookupIff(refs[..|refs| - 1], store);
    }
  }

  /** The leaf beside one's own. */
  function Other(own: nat): nat {
    if own == 0 then 1 else 0
  }

  function Opened(p: Party): Party {
    p.(core := p.core.(adopting := true))
  }

  /** Verification names the leaf beside the joiner's own as the creator, and nobody without both checks. */
  lemma VerifiedNamesCreator(cl: Replica, pq: Replica, suite: ApqCipherSuite)
    ensures JoinVerified(cl, pq, suite).Ok? <==>
            && VerifyPair(cl.shared, pq.shared, suite).Ok?
            && EnsureMembershipConsistent(cl.shared, pq.shared).None? && Other(cl.own) in cl.shared.roster
    ensures JoinVerified(cl, pq, suite).Ok? ==> JoinVerified(cl, pq, suite).value == cl.shared.roster[Other(cl.own)].id
  {
  }

  /** A join succeeds iff both Welcomes are accepted in the adoption window, the classical one with the PQ
      half's export at hand, the pair verifies for the pinned suites, and both rosters hold the same
      members. */
  lemma JoinRecvIff(joiner: Party, clWelcome: Welcome, pqWelcome: Welcome)
    ensures JoinRecv(joiner, clWelcome, pqWelcome).0.Ok? <==>
            && var open := Opened(joiner);
               var pq := Joined(pqWelcome, open.core, joiner.pqStore, joiner.own.pq);
               && pq.Ok?
               && var q := Registered(open, ExportedFrom(pq.value.shared, 0xFF01));
                  var cl := Joined(clWelcome, q.core, q.classicalStore, joiner.own.classical);
                  && cl.Ok? && VerifyPair(cl.value.shared, pq.value.shared, joiner.suite).Ok?
                  && EnsureMembershipConsistent(cl.value.shared, pq.value.shared).None?
                  && Other(cl.value.own) in cl.value.shared.roster
  {
    var (halves, after) := JoinOpened(joiner, clWelcome, pqWelcome);
    if halves.Ok? {
      VerifiedNamesCreator(halves.value.cl, halves.value.pq, after.suite);
    }
  }

  /** The joins themselves touch the stores alone, and leave the window shut. */
  lemma OpenedLeaves(me: Party, clWelcome: Welcome, pqWelcome: Welcome)
    ensures var after := JoinOpened(me, clWelcome, pqWelcome).1;
            && after.core == me.core.(adopting := false) && after.suite == me.suite && after.own == me.own
            && match Joined(pqWelcome, Opened(me).core, me.pqStore, me.own.pq)
               case Err(_) => after.classicalStore == me.classicalStore && after.pqStore == me.pqStore
               case Ok(pq) =>
                 var e := ExportedFrom(pq.shared, 0xFF01);
                 && after.classicalStore == me.classicalStore[StorageId(e) := e.psk]
                 && after.pqStore == me.pqStore[StorageId(e) := e.psk]
  {
  }

  /** What a join does to the joiner's client, success or not: the window is shut and its own sequence
      untouched; the creator becomes the peer's canonical identity exactly on success; and the stores gain
      the PQ half's export exactly when that half was joined. */
  lemma JoinLeavesClient(joiner: Party, clWelcome: Welcome, pqWelcome: Welcome)
    ensures var (joined, after) := JoinRecv(joiner, clWelcome, pqWelcome);
            && !after.core.adopting && after.core.mine == joiner.core.mine
            && after.suite == joiner.suite && after.own == joiner.own
            && (joined.Err? ==> after.core.theirs == joiner.core.theirs)
            && (joined.Ok? ==>
                  var pair := joined.value;
                  && Other(pair.cl.own) in pair.cl.shared.roster
                  && var creator := pair.cl.shared.roster[Other(pair.cl.own)].id;
                     && after.core.theirs.Current() == Some(creator)
                     && after.core.theirs == Authentication.Apply(joiner.core.theirs,
                                                                  Authentication.Event.Commit(creator)))
    ensures var after := JoinRecv(joiner, clWelcome, pqWelcome).1;
            match Joined(pqWelcome, Opened(joiner).core, joiner.pqStore, joiner.own.pq)
            case Err(_) => after.classicalStore == joiner.classicalStore && after.pqStore == joiner.pqStore
            case Ok(pq) =>
              var e := ExportedFrom(pq.shared, 0xFF01);
              && after.classicalStore == joiner.classicalStore[StorageId(e) := e.psk]
              && after.pqStore == joiner.pqStore[StorageId(e) := e.psk]
  {
    var (joined, after) := JoinRecv(joiner, clWelcome, pqWelcome);
    OpenedLeaves(joiner, clWelcome, pqWelcome);
    if joined.Ok? {
      VerifiedNamesCreator(joined.value.cl, joined.value.pq, joiner.suite);
      CommittedIsAdmitted(joiner.core.theirs, joined.value.cl.shared.roster[Other(joined.value.cl.own)].id);
    }
  }

  /** So the joiner of a created pair records its creator, leaf 0 of the message group, and holds the very
      `apq_psk` the creator exported. */
  lemma JoinRecordsCreator(me: Party, theirs: KeyPackages, cross: Option<ExportedPsk>, binding: Option<Bytes>, d: Draw,
                           joiner: Party)
    requires CreateSend(me, theirs, cross, binding, d).0.Ok?
    requires me.suite.Valid() && joiner.suite == me.suite && joiner.own == theirs
    requires theirs.pq != me.own.pq && theirs.pq != d.pqPath.leaf
    requires theirs.classical != me.own.classical && theirs.classical != d.tPath.leaf
    requires cross.Some? ==> cross.value.component == TWOMLS_COMPONENT_ID
    ensures var sent := CreateSend(me, theirs, cross, binding, d).0.value;
            var (joined, after) := JoinRecv(joiner, sent.clWelcome, sent.pqWelcome);
            && 0 in sent.cl.shared.roster
            && (joined.Ok? ==> after.core.theirs.Current() == Some(sent.cl.shared.roster[0].id))
            && after.classicalStore == joiner.classicalStore[StorageId(sent.apq) := sent.apq.psk]
            && after.pqStore == joiner.pqStore[StorageId(sent.apq) := sent.apq.psk]
  {
    var sent := CreateSend(me, theirs, cross, binding, d).0.value;
    JoinFollowsCreate(me, theirs, cross, binding, d, joiner);
    JoinLeavesClient(joiner, sent.clWelcome, sent.pqWelcome);
    JoinsPq(me, theirs, cross, binding, d, Opened(joiner));
  }

  // ---- what creation leaves behind ----

  /** A client that is ready gains the PQ half's export exactly when that half is made. */
  lemma HalvesLeaveClient(p: Party, theirs: KeyPackages, cross: Option<ExportedPsk>, binding: Option<Bytes>, d: Draw)
    ensures CreateHalves(p, theirs, cross, binding, d).1 ==
            match CreatedPq(p, theirs, d)
            case Err(_) => p
            case Ok((half, _)) => Registered(p, ExportedFrom(half.shared, 0xFF01))
  {
  }

  /** What creating does to the creator's client, success or not: the peer's named identity is canonical,
      the rest of the Authentication Service untouched, and the stores gain the cross-party PSK and, when
      the PQ half was made, its export. */
  lemma CreateLeavesClient(me: Party, theirs: KeyPackages, cross: Option<ExportedPsk>, binding: Option<Bytes>, d: Draw)
    ensures var after := CreateSend(me, theirs, cross, binding, d).1;
            && after.core.theirs.Current() == Some(if cross.Some? then theirs.classical.id else theirs.pq.id)
            && after.core.mine == me.core.mine && after.core.adopting == me.core.adopting
            && after.suite == me.suite && after.own == me.own
    ensures var after := CreateSend(me, theirs, cross, binding, d).1;
            var classical := if cross.Some? then me.classicalStore[StorageId(cross.value) := cross.value.psk]
                else me.classicalStore;
            var pq := if cross.Some? then me.pqStore[StorageId(cross.value) := cross.value.psk] else me.pqStore;
            match CreatedPq(Ready(me, theirs, cross), theirs, d)
            case Err(_) => after.classicalStore == classical && after.pqStore == pq
            case Ok((half, _)) =>
              var e := ExportedFrom(half.shared, 0xFF01);
              && after.classicalStore == classical[StorageId(e) := e.psk] && after.pqStore == pq[StorageId(e) := e.psk]
  {
    CommittedIsAdmitted(me.core.theirs, AdmittedId(theirs, cross));
    HalvesLeaveClient(Ready(me, theirs, cross), theirs, cross, binding, d);
  }

  /** The records a created pair carries, field by field. */
  lemma CreatedRecords(me: Party, theirs: KeyPackages, cross: Option<ExportedPsk>, binding: Option<Bytes>, d: Draw)
    requires me.suite.Valid() && CreateSend(me, theirs, cross, binding, d).0.Ok?
    ensures var sent := CreateSend(me, theirs, cross, binding, d).0.value;
            var record := ApqInfo(d.tGroupId, d.pqGroupId, 0, me.suite.classical, me.suite.pq, 1, 1);
            && sent.cl.shared.extensions == Extensions(Some(record), binding)
            && sent.pq.shared.extensions == Extensions(Some(record), None)
  {
    CreatedSendShape(me, theirs, cross, binding, d);
    SuiteTable(me.suite.pq);
  }

  /** The deferred classical half's record leaves the PQ epoch pending, the bootstrapped half's the
      classical one. */
  lemma DeferredRecords(suite: ApqCipherSuite, tGroupId: Bytes, pqGroupId: Bytes, binding: Option<Bytes>,
                        classical: ApqInfo)
    requires suite.Valid()
    ensures DeferredCreation(suite, tGroupId, pqGroupId, binding) ==
            Creation(tGroupId,
                     Extensions(Some(ApqInfo(tGroupId, pqGroupId, 0, suite.classical, suite.pq, 1,
                                             0xFFFF_FFFF_FFFF_FFFF)), binding),
                     None)
    ensures BootstrapCreation(suite, classical, pqGroupId) ==
            Creation(pqGroupId,
                     Extensions(Some(ApqInfo(classical.tGroupId, pqGroupId, 0, suite.classical, suite.pq,
                                             0xFFFF_FFFF_FFFF_FFFF, 1)), None),
                     None)
  {
    SuiteTable(suite.pq);
  }

  lemma CreatedLands(c: Creation, suite: nat, own: Leaf, seed: Secret, theirs: Leaf, core: Core, store: PskMap,
                     psks: seq<ExportedPsk>, path: Path)
    requires SuiteIsPq(suite).Some? && Created(c, suite, own, seed, theirs, core, store, psks, path).Ok?
    ensures var r := Created(c, suite, own, seed, theirs, core, store, psks, path).value.0;
            var withPath := c.attestation.Some? && SuiteIsPq(suite) == Some(false);
            && Ownership.TwoParty(r.shared.roster)
            && r.shared.roster[0] == (if withPath then path.leaf else own)
            && Contains(r.shared.secret, seed) && (withPath ==> Contains(r.shared.secret, path.secret))
            && forall p :: p in psks ==> StorageId(p) in store && Contains(r.shared.secret, store[StorageId(p)])
  {
    var lone, b := Lone(c, suite, own, seed), CreationBundle(theirs, psks, c.attestation);
    var (commit, next) := Build(lone, core, store, 0, b, path).value;
    BuiltCreation(lone, core, store, b, path);
    CreationPath(suite, theirs, psks, c.attestation);
    Ownership.CreationCommitLands(lone, core, commit);
    var values := Resolve(b, store).value;
    EpochAbsorbs(lone, commit, values);
    RefsOfCreation(theirs, psks, c.attestation);
    LookupIsResolve(b, store);
    forall p | p in psks ensures StorageId(p) in store && Contains(next.secret, store[StorageId(p)]) {
      var k :| 0 <= k < |psks| && psks[k] == p;
      StorageIdAt(psks, k);
      LookupAt(StorageIds(psks), store, k);
      assert values[k] in values;
    }
  }

  lemma {:induction false} StorageIdAt(psks: seq<ExportedPsk>, k: nat)
    requires k < |psks|
    ensures |StorageIds(psks)| == |psks| && StorageIds(psks)[k] == StorageId(psks[k])
  {
    if |psks| > 1 {
      StorageIdAt(psks[..|psks| - 1], if k < |psks| - 1 then k else 0);
    }
  }

  /** What a created pair is made of: the classical half's creator leaf is the committed path's and its
      secret has that path, its seed, the cross-party PSK and the `apq_psk` in it; the PQ half's leaf is the
      creator's own, and its secret has its seed. */
  lemma CreatedSendAbsorbs(me: Party, theirs: KeyPackages, cross: Option<ExportedPsk>, binding: Option<Bytes>, d: Draw)
    requires me.suite.Valid() && CreateSend(me, theirs, cross, binding, d).0.Ok?
    requires cross.Some? ==> cross.value.component == TWOMLS_COMPONENT_ID
    ensures var sent := CreateSend(me, theirs, cross, binding, d).0.value;
            && Ownership.TwoParty(sent.cl.shared.roster) && Ownership.TwoParty(sent.pq.shared.roster)
            && sent.cl.shared.roster[0] == d.tPath.leaf && sent.pq.shared.roster[0] == me.own.pq
            && Contains(sent.cl.shared.secret, d.tSeed) && Contains(sent.cl.shared.secret, d.tPath.secret)
            && Contains(sent.cl.shared.secret, sent.apq.psk) && Contains(sent.pq.shared.secret, d.pqSeed)
            && (cross.Some? ==> Contains(sent.cl.shared.secret, cross.value.psk))
  {
    var sent := CreateSend(me, theirs, cross, binding, d).0.value;
    var p := Ready(me, theirs, cross);
    var q := Registered(p, sent.apq);
    CreatedHalves(me, theirs, cross, binding, d);
    CreatedLands(PqCreation(p.suite, d), p.suite.pq, p.own.pq, d.pqSeed, theirs.pq, p.core, p.pqStore, [], d.pqPath);
    CreatedLands(ClassicalCreation(q.suite, d, binding), q.suite.classical, q.own.classical, d.tSeed, theirs.classical,
                 q.core, q.classicalStore, Crossing(cross) + [sent.apq], d.tPath);
    if cross.Some? {
      assert cross.value in Crossing(cross) + [sent.apq];
    }
    assert sent.apq in Crossing(cross) + [sent.apq];
  }

  /** Binding to a received group spends exactly that group's cross-party leaf, once: a group whose leaf is
      spent already refuses, with nothing made; otherwise a pair that is made has that export in it. */
  lemma BoundSendSpends(me: Party, theirs: KeyPackages, recv: Replica, binding: Option<Bytes>, d: Draw)
    requires me.suite.Valid()
    ensures var (sent, p, after) := CreateBoundSend(me, theirs, recv, binding, d);
            && p.core.theirs.Current() == Some(theirs.classical.id)
            && after.shared == recv.shared && after.own == recv.own
            && (0xFF02 in recv.spent ==>
                  && sent == Err(CombinerError.Mls) && after == recv
                  && p.classicalStore == me.classicalStore && p.pqStore == me.pqStore)
            && (0xFF02 !in recv.spent ==> after.spent == recv.spent + {0xFF02})
            && (sent.Ok? ==> Contains(sent.value.cl.shared.secret,
                                      Derived(ExporterLeaf(recv.shared.secret, 0xFF02), PskLabel)))
  {
    CommittedIsAdmitted(me.core.theirs, theirs.classical.id);
    var cross := ExportedFrom(recv.shared, TWOMLS_COMPONENT_ID);
    CreateLeavesClient(me, theirs, Some(cross), binding, d);
    if 0xFF02 !in recv.spent && CreateSend(me, theirs, Some(cross), binding, d).0.Ok? {
      CreatedSendAbsorbs(me, theirs, Some(cross), binding, d);
    }
  }
}
