/** When the owner's commits go through: each of the four kinds succeeds exactly when its epochs have
    room and the Authentication Service allows the credentials it moves. */
module Progress {
  import opened Prelude
  import opened KeySchedule
  import opened Proposals
  import opened Component
  import opened Rules
  import opened Mls
  import opened Ratchet
  import opened History
  import opened Replicas
  import opened Invariant
  import opened OwnerSteps
  import Ownership

  /** A two-party bundle of at most one peer Update, PSKs that are not resumptions, and at most one
      attestation of this half's next epoch, which never shares a PQ commit with an Update. */
  ghost predicate Admissible(suite: nat, epoch: U64, b: Bundle) {
    && (forall k :: 0 <= k < |b| ==>
          || (b[k].proposal.Update? && b[k].sender == Member(MIRROR))
          || (b[k].proposal.Psk? && b[k].proposal.ref != PskRef.Resumption)
          || (b[k].proposal.Custom? && b[k].sender == Member(OWNER)))
    && AtMostOne(b, (p: Proposal) => p.Update?)
    && TruthfulAttestation(OWNER, suite, epoch, b)
  }

  lemma AdmissibleIsAccepted(suite: nat, epoch: U64, b: Bundle)
    requires Admissible(suite, epoch, b)
    ensures FilterProposals(ExistingMember(OWNER), 2, suite, epoch, b).Ok?
  {
    assert SteadyShape(OWNER, b);
    FilterIff(ExistingMember(OWNER), 2, suite, epoch, b);
  }

  /** The credentials a commit of the owner would move. */
  predicate MovesAllowed(g: Shared, core: Core, b: Bundle, path: Path) {
    && (forall p | p in b ::
          p.proposal.Update? && p.sender.Member? ==> LeafMoveAllowed(g.roster, core, p.sender.index, p.proposal.leaf))
    && (PathRequired(b) || PathPinned(g.suite, b) ==> LeafMoveAllowed(g.roster, core, OWNER, path.leaf))
  }

  /** An admissible commit of a two-party group builds iff the epoch has room, its PSKs are held and
      its credentials may move. */
  lemma BuildsIff(g: Shared, core: Core, store: PskMap, b: Bundle, path: Path)
    requires Ownership.TwoParty(g.roster) && Admissible(g.suite, g.epoch, b)
    ensures Build(g, core, store, OWNER, b, path).Ok? <==>
            g.epoch < EPOCH_UNBOUND - 1 && MovesAllowed(g, core, b, path) && Named(b, store)
  {
    Ownership.RosterSizes(g.roster);
    AdmissibleIsAccepted(g.suite, g.epoch, b);
    ResolvesIffNamed(b, store);
    forall p | p in b ensures !p.proposal.Add? {
      var k :| 0 <= k < |b| && b[k] == p;
    }
  }

  // ---- the trigger ----

  lemma BindIsAdmissible(g: Shared, attestation: ApqInfoUpdate)
    requires SuiteIsPq(g.suite) == Some(true) && attestation.pqEpoch == g.epoch + 1
    ensures Admissible(g.suite, g.epoch, BindBundle(g, OWNER, attestation))
  {
    assert ToCustomProposal(attestation) == ToCustomProposal(attestation);
  }

  lemma InjectionSucceedsIff(r: Replica, core: Core, store: PskMap, attestation: ApqInfoUpdate, path: Path)
    requires r.own == OWNER && Ownership.TwoParty(r.shared.roster) && SuiteIsPq(r.shared.suite) == Some(true)
    requires attestation.pqEpoch == r.shared.epoch + 1
    requires InjectedRef(r.shared) in store
    ensures Injected(r, core, store, attestation, path, NoFault).0.Ok? <==> r.shared.epoch < EPOCH_UNBOUND - 1
  {
    var b := BindBundle(r.shared, OWNER, attestation);
    BindIsAdmissible(r.shared, attestation);
    BuildsIff(r.shared, core, store, b, path);
    if Build(r.shared, core, store, OWNER, b, path).Ok? {
      var (c, post) := Build(r.shared, core, store, OWNER, b, path).value;
      SoundEntryStep(Entry(r.shared, core, store, b, path, c, post));
      Ownership.RosterSizes(post.roster);
    }
  }

  /** The trigger commits whenever a secret is opened, nothing is owed and both epochs have room; no
      Authentication Service and no PSK can stop it. */
  lemma TriggerCommitsIff(w: World, core: Core, path: Path)
    requires Inv(w)
    ensures |TakeTrigger(w, core, path).a.pq.log| > |w.a.pq.log| <==>
            CanTrigger(w.a) && w.a.pq.Head().epoch < EPOCH_UNBOUND - 1
  {
    PositionsAreEpochs(w.a.pq, |w.a.pq.log|);
    if CanTrigger(w.a) {
      InjectionSucceedsIff(w.a.PqReplica(), core, WithOffer(w.a), Reservation(w.a), path);
    }
  }

  // ---- PARTIAL commits and re-keys ----

  lemma PartialIsAdmissible(suite: nat, epoch: U64, fold: Option<Leaf>, cross: Option<Shared>)
    ensures Admissible(suite, epoch, PartialBundle(fold, cross))
  {
  }

  /** Without an attestation a path rides unless the commit carries a PSK and nothing else. */
  lemma PartialMoves(g: Shared, core: Core, fold: Option<Leaf>, cross: Option<Shared>, path: Path)
    ensures MovesAllowed(g, core, PartialBundle(fold, cross), path) <==>
            && (fold.Some? ==> LeafMoveAllowed(g.roster, core, MIRROR, fold.value))
            && (fold.Some? || cross.None? ==> LeafMoveAllowed(g.roster, core, OWNER, path.leaf))
  {
    var b := PartialBundle(fold, cross);
    NoneSelected(b, (p: Proposal) => p.Custom?);
    if fold.Some? {
      assert b[0] == ProposalInfo(Update(fold.value), Member(MIRROR));
      assert b[0] in b;
    } else if cross.Some? {
      assert b[0].proposal.Psk?;
    }
  }

  lemma PartialBuildsIff(g: Shared, core: Core, store: PskMap, fold: Option<Leaf>, cross: Option<Shared>, path: Path)
    requires Ownership.TwoParty(g.roster)
    requires cross.Some? ==> StorageId(CrossOf(cross.value)) in store
    ensures Build(g, core, store, OWNER, PartialBundle(fold, cross), path).Ok? <==>
            && g.epoch < EPOCH_UNBOUND - 1
            && (fold.Some? ==> LeafMoveAllowed(g.roster, core, MIRROR, fold.value))
            && (fold.Some? || cross.None? ==> LeafMoveAllowed(g.roster, core, OWNER, path.leaf))
  {
    PartialIsAdmissible(g.suite, g.epoch, fold, cross);
    BuildsIff(g, core, store, PartialBundle(fold, cross), path);
    PartialMoves(g, core, fold, cross, path);
  }

  lemma PartialCommitsIff(w: World, fold: Option<Leaf>, cross: Option<nat>, core: Core, path: Path)
    requires Inv(w) && w.a.owed.None? && CrossReady(w, cross)
    ensures var g := w.a.cl.Head();
            |TakePartial(w, fold, cross, core, path).a.cl.log| > |w.a.cl.log| <==>
            && g.epoch < EPOCH_UNBOUND - 1
            && (fold.Some? ==> LeafMoveAllowed(g.roster, core, MIRROR, fold.value))
            && (fold.Some? || cross.None? ==> LeafMoveAllowed(g.roster, core, OWNER, path.leaf))
  {
    PositionsAreEpochs(w.a.cl, |w.a.cl.log|);
    PartialBuildsIff(w.a.cl.Head(), core, w.a.store, fold, StateAt(w.b.sends, cross), path);
  }

  /** An A.5 re-key commits iff nothing is owed, the epoch has room and both leaves may move: the
      folded Update forces a path, so it always moves both. */
  lemma RekeyCommitsIff(w: World, leaf: Leaf, cross: Option<Shared>, core: Core, path: Path)
    requires Inv(w)
    ensures var g := w.a.pq.Head();
            |TakeRekey(w, leaf, cross, core, path).a.pq.log| > |w.a.pq.log| <==>
            && !w.a.broken && w.a.owed.None? && g.epoch < EPOCH_UNBOUND - 1
            && LeafMoveAllowed(g.roster, core, MIRROR, leaf) && LeafMoveAllowed(g.roster, core, OWNER, path.leaf)
  {
    PositionsAreEpochs(w.a.pq, |w.a.pq.log|);
    PartialBuildsIff(w.a.pq.Head(), core, w.a.store + CrossPsk(cross), Some(leaf), cross, path);
  }

  // ---- the discharge ----

  lemma FullIsAdmissible(g: Shared, fold: Option<Leaf>, cross: Option<Shared>, attestation: ApqInfoUpdate,
                         apq: ExportedPsk)
    requires SuiteIsPq(g.suite) == Some(false) && attestation.tEpoch == g.epoch + 1
    ensures Admissible(g.suite, g.epoch, FullBundle(fold, cross, attestation, apq))
  {
    var front, b := PartialBundle(fold, cross), FullBundle(fold, cross, attestation, apq);
    PartialIsAdmissible(g.suite, g.epoch, fold, cross);
    assert b == front + [b[|front|], b[|front| + 1]];
    assert b[|front|] == ProposalInfo(Custom(ToCustomProposal(attestation)), Member(OWNER))
        && b[|front| + 1].proposal.Psk?;
    assert ToCustomProposal(attestation) == ToCustomProposal(attestation);
  }

  lemma FullMoves(g: Shared, core: Core, fold: Option<Leaf>, cross: Option<Shared>, attestation: ApqInfoUpdate,
                  apq: ExportedPsk, path: Path)
    requires SuiteIsPq(g.suite) == Some(false)
    ensures MovesAllowed(g, core, FullBundle(fold, cross, attestation, apq), path) <==>
            && (fold.Some? ==> LeafMoveAllowed(g.roster, core, MIRROR, fold.value))
            && LeafMoveAllowed(g.roster, core, OWNER, path.leaf)
  {
    var b := FullBundle(fold, cross, attestation, apq);
    var custom := ProposalInfo(Custom(ToCustomProposal(attestation)), Member(OWNER));
    assert b[|PartialBundle(fold, cross)|] == custom;
    assert custom in Customs(b);
    if fold.Some? {
      assert b[0] == ProposalInfo(Update(fold.value), Member(MIRROR));
      assert b[0] in b;
    }
  }

  lemma FullBuildsIff(g: Shared, core: Core, store: PskMap, fold: Option<Leaf>, cross: Option<Shared>,
                      attestation: ApqInfoUpdate, apq: ExportedPsk, path: Path)
    requires Ownership.TwoParty(g.roster) && SuiteIsPq(g.suite) == Some(false)
    requires attestation.tEpoch == g.epoch + 1
    requires cross.Some? ==> StorageId(CrossOf(cross.value)) in store
    ensures Build(g, core, store[StorageId(apq) := apq.psk], OWNER, FullBundle(fold, cross, attestation, apq),
                  path).Ok? <==>
            && g.epoch < EPOCH_UNBOUND - 1
            && (fold.Some? ==> LeafMoveAllowed(g.roster, core, MIRROR, fold.value))
            && LeafMoveAllowed(g.roster, core, OWNER, path.leaf)
  {
    FullIsAdmissible(g, fold, cross, attestation, apq);
    BuildsIff(g, core, store[StorageId(apq) := apq.psk], FullBundle(fold, cross, attestation, apq), path);
    FullMoves(g, core, fold, cross, attestation, apq, path);
  }

  /** The discharge commits iff the epoch has room, the fold's credential may move and so may the
      owner's own: a FULL always moves the owner's leaf. */
  lemma DischargeCommitsIff(w: World, fold: Option<Leaf>, cross: Option<nat>, core: Core, path: Path)
    requires Inv(w) && !w.a.broken && w.a.owed.Some? && CrossReady(w, cross)
    ensures var g := w.a.cl.Head();
            |TakeFull(w, w.a.owed.value, fold, cross, core, path).a.cl.log| > |w.a.cl.log| <==>
            && g.epoch < EPOCH_UNBOUND - 1
            && (fold.Some? ==> LeafMoveAllowed(g.roster, core, MIRROR, fold.value))
            && LeafMoveAllowed(g.roster, core, OWNER, path.leaf)
  {
    DischargeReaches(w);
    PositionsAreEpochs(w.a.cl, |w.a.cl.log|);
    FullBuildsIff(w.a.cl.Head(), core, w.a.store, fold, StateAt(w.b.sends, cross), w.a.owed.value.attestation,
                  OwedPsk(w.a), path);
  }

  // ---- rounds ----

  /** The owner opens the mirror's answer iff it is to the round in flight and, when sealed, was sealed
      at the PQ state the owner is still in. */
  lemma OpensIffSameState(w: World, k: nat, g: Shared, round: nat, answer: Answer)
    requires Inv(w) && !w.a.broken && k < |w.replies| && w.replies[k] == AnswerWith(round, answer, g)
    requires w.a.round.Some?
    ensures TakeOpen(w, k).a.offer.Some? <==>
            w.a.round == Some(round) && (answer.Sealing? ==> g.secret == w.a.pq.Head().secret)
    ensures TakeOpen(w, k).a.offer.Some? ==> TakeOpen(w, k).a.offer == Some(AnswerSecret(answer))
  {
  }
}
