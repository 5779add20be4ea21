/** The owner's steps, the rounds' and the mirror's own send group's keep the invariant. */
module OwnerSteps {
  import opened Prelude
  import opened KeySchedule
  import opened Proposals
  import opened Component
  import opened Rules
  import opened Mls
  import opened Ratchet
  import opened History
  import opened Replicas
  import opened Invariant

  // ---- bundles and stores ----

  lemma CrossGenuine(g: Option<Shared>)
    ensures AllGenuine(CrossPsk(g))
  {
    if g.Some? {
      ExportsAreGenuine(g.value, TWOMLS_COMPONENT_ID);
    }
  }

  lemma StoreGenuine(store: PskMap, g: Option<Shared>)
    requires AllGenuine(store)
    ensures AllGenuine(store + CrossPsk(g)) && AllGenuine(Forget(store, g))
  {
    CrossGenuine(g);
  }

  lemma PartialAttestsNothing(fold: Option<Leaf>, cross: Option<Shared>)
    ensures Attestation(PartialBundle(fold, cross)) == Ok(None)
    ensures Named(PartialBundle(fold, cross), CrossPsk(cross))
  {
    NoneSelected(PartialBundle(fold, cross), (p: Proposal) => p.Custom?);
    AttestationIff(PartialBundle(fold, cross));
  }

  lemma AttestationOfAppend(b: Bundle, p: ProposalInfo, u: ApqInfoUpdate)
    ensures !p.proposal.Custom? ==> Attestation(b + [p]) == Attestation(b)
    ensures p.proposal == Custom(ToCustomProposal(u)) && Attestation(b) == Ok(None) ==>
              Attestation(b + [p]) == Ok(Some(u))
  {
    assert (b + [p])[..|b|] == b;
    AttestationDecodesIff(ToCustomProposal(u), u);
  }

  lemma FullAttests(fold: Option<Leaf>, cross: Option<Shared>, attestation: ApqInfoUpdate, apq: ExportedPsk)
    ensures var b := FullBundle(fold, cross, attestation, apq);
            && Attestation(b) == Ok(Some(attestation))
            && Named(b, CrossPsk(cross)[StorageId(apq) := apq.psk])
            && ProposalInfo(Psk(StorageId(apq)), Member(OWNER)) in b
  {
    var front := PartialBundle(fold, cross);
    var custom := ProposalInfo(Custom(ToCustomProposal(attestation)), Member(OWNER));
    var psk := ProposalInfo(Psk(StorageId(apq)), Member(OWNER));
    PartialAttestsNothing(fold, cross);
    AttestationOfAppend(front, custom, attestation);
    AttestationOfAppend(front + [custom], psk, attestation);
    assert FullBundle(fold, cross, attestation, apq)[|front| + 1] == psk;
  }

  // ---- observing and committing the mirror's own group ----

  lemma ObserveKeeps(w: World)
    requires Inv(w)
    ensures Inv(TakeObserve(w))
  {
    var v := TakeObserve(w);
    QuietKeeps(w, v);
    ExportsUnmoved(w, v);
    RoundsUnmoved(w, v);
    ObserveEvidence(w);
  }

  lemma ObserveEvidence(w: World)
    requires EvidenceOk(w)
    ensures EvidenceOk(TakeObserve(w))
  {
    var v := TakeObserve(w);
    assert forall i: nat, k: nat :: BindsCross(v.a, i, k) <==> BindsCross(w.a, i, k);
    assert forall i: nat :: Outstanding(v, i) <==> Outstanding(w, i);
    forall k | 0 <= k < |v.wire| ensures OfferFollows(v.a, v.wire[k]) {
      assert OfferFollows(w.a, w.wire[k]);
    }
  }

  lemma DistinctAppend(w: World, v: World, x: Export)
    requires ExportsOk(w) && v.exports == w.exports + [x] && x !in w.exports
    ensures forall i, j :: 0 <= i < j < |v.exports| ==> v.exports[i] != v.exports[j]
  {
    forall i, j | 0 <= i < j < |v.exports| ensures v.exports[i] != v.exports[j] {
      if j == |w.exports| {
        assert v.exports[i] in w.exports;
      }
    }
  }

  /** A leaf nobody has spent is spent. */
  lemma ExportsGrow(w: World, v: World, x: Export)
    requires ExportsOk(w) && v.exports == w.exports + [x] && !Spent(w, x) && Spent(v, x)
    requires forall y :: y in w.exports && Spent(w, y) ==> Spent(v, y)
    ensures ExportsOk(v)
  {
    DistinctAppend(w, v, x);
  }

  lemma MirrorCommitKeeps(w: World, next: Shared)
    requires Inv(w)
    ensures Inv(TakeMirrorCommit(w, next))
  {
    var v := TakeMirrorCommit(w, next);
    if v != w {
      QuietKeeps(w, v);
      RoundsUnmoved(w, v);
      MirrorCommitEvidence(w, v, next);
      SendsGrow(w.b.sends, next);
      ExportsGrow(w, v, Export(MIRROR, TWOMLS_COMPONENT_ID, next.epoch));
    }
  }

  lemma SendsGrow(sends: seq<Shared>, next: Shared)
    requires SendsOk(sends) && sends != [] && next.epoch == sends[|sends| - 1].epoch + 1
    ensures SendsOk(sends + [next])
  {
  }

  lemma MirrorCommitEvidence(w: World, v: World, next: Shared)
    requires EvidenceOk(w) && v == TakeMirrorCommit(w, next) && v != w
    ensures EvidenceOk(v)
  {
    assert forall i: nat :: Outstanding(v, i) <==> Outstanding(w, i);
  }

  // ---- rounds ----

  /** Only the rounds moved. */
  ghost predicate RoundStep(w: World, v: World) {
    && v.wire == w.wire && v.exports == w.exports && v.completed == w.completed
    && v.a == w.a.(round := v.a.round, rounds := v.a.rounds, offer := v.a.offer)
    && v.b == w.b.(held := v.b.held, answered := v.b.answered)
  }

  lemma RoundStepKeeps(w: World, v: World)
    requires Inv(w) && RoundStep(w, v) && RoundsOk(v)
    ensures Inv(v)
  {
    QuietKeeps(w, v);
    ExportsUnmoved(w, v);
    EvidenceUnmoved(w, v);
  }

  lemma BeginRounds(w: World)
    requires RoundsOk(w)
    ensures RoundsOk(TakeBegin(w))
  {
    var v := TakeBegin(w);
    assert forall j: nat :: Unapplied(v, j) <==> Unapplied(w, j);
  }

  lemma BeginKeeps(w: World)
    requires Inv(w)
    ensures Inv(TakeBegin(w))
  {
    BeginRounds(w);
    RoundStepKeeps(w, TakeBegin(w));
  }

  lemma RespondRounds(w: World, round: nat, answer: Answer)
    requires RoundsOk(w)
    ensures RoundsOk(TakeRespond(w, round, answer))
  {
    var v := TakeRespond(w, round, answer);
    assert forall j: nat :: Unapplied(v, j) <==> Unapplied(w, j);
  }

  lemma RespondKeeps(w: World, round: nat, answer: Answer)
    requires Inv(w)
    ensures Inv(TakeRespond(w, round, answer))
  {
    RespondRounds(w, round, answer);
    RoundStepKeeps(w, TakeRespond(w, round, answer));
  }

  /** Whatever the network handed over, a reply that opens carries the secret the mirror holds. */
  lemma OpenRounds(w: World, k: nat)
    requires RoundsOk(w)
    ensures RoundsOk(TakeOpen(w, k))
  {
    var v := TakeOpen(w, k);
    if v != w {
      assert w.replies[k].round in w.b.answered;
    }
    assert forall j: nat :: Unapplied(v, j) <==> Unapplied(w, j);
  }

  lemma OpenKeeps(w: World, k: nat)
    requires Inv(w)
    ensures Inv(TakeOpen(w, k))
  {
    OpenRounds(w, k);
    RoundStepKeeps(w, TakeOpen(w, k));
  }

  // ---- the PQ half's commits ----

  /** The PQ log grew by one commit, and with it the unspent leaves. */
  lemma PqGrowthKeeps(w: World, v: World, e: Entry)
    requires Inv(w) && Grown(w.a.pq, e)
    requires v.a.pq == Append(w.a.pq, e) && v.a.spent == {} && v.b == w.b
    requires v.a.cl == w.a.cl && v.a.crosses == w.a.crosses && v.a.bound == w.a.bound && v.a.seen == w.a.seen
    requires v.exports == w.exports && v.completed == w.completed
    ensures GroupsOk(v) && ExportsOk(v) && CompletedOk(v) && Extends(w.a, w.b.sends, v.a, v.b.sends)
  {
    CompletedExtends(w, v);
  }

  /** Appending a PQ commit that injects nothing changes no outstanding secret. */
  lemma AppendUnbinding(w: World, v: World, e: Entry)
    requires RoundsOk(w) && v.a.pq == Append(w.a.pq, e) && AllGenuine(e.store)
    requires v.a.offer == w.a.offer && v.a.round == w.a.round && v.a.rounds == w.a.rounds
    requires w.a.owed.None? && v.a.owed.None? && v.b == w.b && v.replies == w.replies
    ensures RoundsOk(v)
  {
    assert !Binds(e);
    forall j: nat ensures Unapplied(v, j) <==> Unapplied(w, j) {
      if j < |w.a.pq.log| {
        assert v.a.pq.log[j] == w.a.pq.log[j];
      }
    }
    assert forall j :: 0 <= j < |w.a.pq.log| ==> v.a.pq.log[j] == w.a.pq.log[j];
  }

  /** A re-key that commits appends one sound commit that injects and attests nothing. */
  lemma RekeyAppends(w: World, leaf: Leaf, cross: Option<Shared>, core: Core, path: Path) returns (e: Entry)
    requires Inv(w) && |TakeRekey(w, leaf, cross, core, path).a.pq.log| > |w.a.pq.log|
    ensures var v := TakeRekey(w, leaf, cross, core, path);
            && Grown(w.a.pq, e) && w.a.owed.None?
            && e.bundle == PartialBundle(Some(leaf), cross) && e.store == w.a.store + CrossPsk(cross)
            && v == w.(a := w.a.(pq := Append(w.a.pq, e), spent := {}, store := Forget(w.a.store, cross)),
                       wire := w.wire + [RekeyFrame(|w.a.pq.log|)])
  {
    e := TakeRekey(w, leaf, cross, core, path).a.pq.log[|w.a.pq.log|];
    AppendGrows(w.a.pq, e);
  }

  lemma RekeyFails(w: World, leaf: Leaf, cross: Option<Shared>, core: Core, path: Path)
    requires |TakeRekey(w, leaf, cross, core, path).a.pq.log| <= |w.a.pq.log|
    ensures var v := TakeRekey(w, leaf, cross, core, path);
            v == w || v == w.(a := w.a.(store := w.a.store + CrossPsk(cross)))
  {
  }

  lemma RekeyAppendKeeps(w: World, v: World, leaf: Leaf, cross: Option<Shared>, e: Entry)
    requires Inv(w) && w.a.owed.None? && Grown(w.a.pq, e)
    requires e.bundle == PartialBundle(Some(leaf), cross) && e.store == w.a.store + CrossPsk(cross)
    requires v == w.(a := w.a.(pq := Append(w.a.pq, e), spent := {}, store := Forget(w.a.store, cross)),
                     wire := w.wire + [RekeyFrame(|w.a.pq.log|)])
    ensures Inv(v)
  {
    StoreGenuine(w.a.store, cross);
    PartialAttestsNothing(Some(leaf), cross);
    PqGrowthKeeps(w, v, e);
    CarriedExtends(w.a, w.b.sends, v.a, v.b.sends, w.a.staple);
    WireGrows(w, v, RekeyFrame(|w.a.pq.log|));
    AppendUnbinding(w, v, e);
    RekeyEvidence(w, v);
  }

  lemma RekeyEvidence(w: World, v: World)
    requires EvidenceOk(w) && v.b == w.b && v.a.crosses == w.a.crosses && v.a.cl == w.a.cl
    requires v.a.seen == w.a.seen && v.a.bound == w.a.bound
    requires exists j :: v.wire == w.wire + [RekeyFrame(j)]
    ensures EvidenceOk(v)
  {
    assert forall i: nat, k: nat :: BindsCross(v.a, i, k) <==> BindsCross(w.a, i, k);
    assert forall i: nat :: Outstanding(v, i) <==> Outstanding(w, i);
    forall k | 0 <= k < |v.wire| ensures OfferFollows(v.a, v.wire[k]) {
      if k < |w.wire| {
        assert OfferFollows(w.a, w.wire[k]);
      }
    }
  }

  /** Only the owner's store moved, to one as genuine. */
  lemma StoreKeeps(w: World, v: World)
    requires Inv(w) && v == w.(a := w.a.(store := v.a.store)) && AllGenuine(v.a.store)
    ensures Inv(v)
  {
    QuietKeeps(w, v);
    ExportsUnmoved(w, v);
    RoundsUnmoved(w, v);
    EvidenceUnmoved(w, v);
  }

  lemma RekeyKeeps(w: World, leaf: Leaf, cross: Option<Shared>, core: Core, path: Path)
    requires Inv(w)
    ensures Inv(TakeRekey(w, leaf, cross, core, path))
  {
    var v := TakeRekey(w, leaf, cross, core, path);
    if |v.a.pq.log| > |w.a.pq.log| {
      var e := RekeyAppends(w, leaf, cross, core, path);
      RekeyAppendKeeps(w, v, leaf, cross, e);
    } else {
      RekeyFails(w, leaf, cross, core, path);
      StoreGenuine(w.a.store, cross);
      StoreKeeps(w, v);
    }
  }

  /** A trigger that commits appends one sound bind of the opened secret, and owes its classical
      half at both next epochs. */
  lemma TriggerAppends(w: World, core: Core, path: Path) returns (e: Entry)
    requires Inv(w) && |TakeTrigger(w, core, path).a.pq.log| > |w.a.pq.log|
    ensures var v := TakeTrigger(w, core, path);
            && w.a.offer.Some?
            && Grown(w.a.pq, e)
            && v.a.owed.Some? && v.a.owed.value.pq == |w.a.pq.log|
            && IsBindOf(e, v.a.owed.value.attestation) && e.store[InjectedRef(e.pre)] == w.a.offer.value
            && v.a.owed.value.attestation.tEpoch == w.a.cl.Head().epoch + 1
            && v == w.(a := w.a.(pq := Append(w.a.pq, e), spent := {}, store := w.a.store - {InjectedRef(e.pre)},
                                 offer := None, owed := v.a.owed))
  {
    e := TakeTrigger(w, core, path).a.pq.log[|w.a.pq.log|];
    AppendGrows(w.a.pq, e);
  }

  lemma TriggerDropsOffer(w: World, core: Core, path: Path)
    requires |TakeTrigger(w, core, path).a.pq.log| <= |w.a.pq.log|
    ensures var v := TakeTrigger(w, core, path);
            v == w || v == w.(a := w.a.(store := w.a.store - {InjectedRef(w.a.pq.Head())}, offer := None))
  {
  }

  lemma AppendBinding(w: World, v: World, e: Entry)
    requires RoundsOk(w) && v.a.pq == Append(w.a.pq, e) && v.b == w.b && v.replies == w.replies
    requires w.a.offer.Some? && v.a.offer.None? && v.a.round == w.a.round && v.a.rounds == w.a.rounds
    requires InjectedRef(e.pre) in e.store && e.store[InjectedRef(e.pre)] == w.a.offer.value
    ensures RoundsOk(v)
  {
    var n := |w.a.pq.log|;
    assert v.a.pq.log[n] == e;
    forall j: nat | Unapplied(v, j) && !w.b.wedged ensures j == n {
      if j < n {
        assert v.a.pq.log[j] == w.a.pq.log[j];
        assert Unapplied(w, j);
      }
    }
  }

  lemma TriggerAppendKeeps(w: World, v: World, e: Entry)
    requires Inv(w) && w.a.offer.Some? && Grown(w.a.pq, e)
    requires v.a.owed.Some? && v.a.owed.value.pq == |w.a.pq.log|
    requires IsBindOf(e, v.a.owed.value.attestation) && e.store[InjectedRef(e.pre)] == w.a.offer.value
    requires v.a.owed.value.attestation.tEpoch == w.a.cl.Head().epoch + 1
    requires v == w.(a := w.a.(pq := Append(w.a.pq, e), spent := {}, store := w.a.store - {InjectedRef(e.pre)},
                               offer := None, owed := v.a.owed))
    ensures Inv(v)
  {
    PqGrowthKeeps(w, v, e);
    WireExtends(w, v);
    AppendBinding(w, v, e);
    EvidenceUnmoved(w, v);
  }

  lemma DropKeeps(w: World, v: World)
    requires Inv(w)
    requires v == w || v == w.(a := w.a.(store := w.a.store - {InjectedRef(w.a.pq.Head())}, offer := None))
    ensures Inv(v)
  {
    QuietKeeps(w, v);
    ExportsUnmoved(w, v);
    EvidenceUnmoved(w, v);
    assert forall j: nat :: Unapplied(v, j) <==> Unapplied(w, j);
  }

  lemma TriggerKeeps(w: World, core: Core, path: Path)
    requires Inv(w)
    ensures Inv(TakeTrigger(w, core, path))
  {
    var v := TakeTrigger(w, core, path);
    if |v.a.pq.log| > |w.a.pq.log| {
      var e := TriggerAppends(w, core, path);
      TriggerAppendKeeps(w, v, e);
    } else {
      TriggerDropsOffer(w, core, path);
      DropKeeps(w, v);
    }
  }

  // ---- the classical half's commits ----

  /** The PSK the commit will bind, if any, is registered and is of the state last applied. */
  ghost predicate CrossReady(w: World, cross: Option<nat>) {
    cross.Some? ==>
      && cross.value == w.a.seen && cross.value < |w.b.sends|
      && StorageId(CrossOf(w.b.sends[cross.value])) in w.a.store
  }

  /** The watermark says which leaf of the mirror's send group the owner spent last: the next one is
      a first. */
  lemma CrossExported(w: World, v: World, g: Shared)
    requires ExportsOk(w) && SendsOk(w.b.sends) && EvidenceOk(w) && NextCross(w) == Some(w.a.seen)
    requires g == w.b.sends[w.a.seen]
    requires v.a.pq == w.a.pq && v.a.spent == w.a.spent && v.b == w.b && v.a.bound == Some(w.a.seen)
    requires v.exports == w.exports + [Export(OWNER, TWOMLS_COMPONENT_ID, g.epoch)]
    ensures ExportsOk(v)
  {
    assert g.epoch == w.b.sends[0].epoch + w.a.seen;
    ExportsGrow(w, v, Export(OWNER, TWOMLS_COMPONENT_ID, g.epoch));
  }

  lemma BoundKeeps(w: World, v: World, g: Shared)
    requires Inv(w) && NextCross(w) == Some(w.a.seen) && g == w.b.sends[w.a.seen]
    requires v == w.(a := w.a.(store := w.a.store + CrossPsk(Some(g)), bound := Some(w.a.seen)),
                     exports := w.exports + [Export(OWNER, TWOMLS_COMPONENT_ID, g.epoch)])
    ensures Inv(v)
  {
    StoreGenuine(w.a.store, Some(g));
    QuietKeeps(w, v);
    RoundsUnmoved(w, v);
    BindCrossEvidence(w, v);
    CrossExported(w, v, g);
  }

  /** Binding the next cross-party PSK readies the store for the commit. */
  lemma BindCrossKeeps(w: World)
    requires Inv(w)
    ensures var v := BindCross(w);
            && Inv(v) && CrossReady(v, NextCross(w))
            && v == w.(a := w.a.(store := v.a.store, bound := v.a.bound), exports := v.exports)
  {
    if NextCross(w).Some? {
      BoundKeeps(w, BindCross(w), w.b.sends[w.a.seen]);
    }
  }

  lemma BindCrossEvidence(w: World, v: World)
    requires EvidenceOk(w) && v.b == w.b && v.wire == w.wire
    requires v.a.crosses == w.a.crosses && v.a.cl == w.a.cl && v.a.seen == w.a.seen && v.a.bound == Some(w.a.seen)
    ensures EvidenceOk(v)
  {
    assert forall i: nat, k: nat :: BindsCross(v.a, i, k) <==> BindsCross(w.a, i, k);
    assert forall i: nat :: Outstanding(v, i) <==> Outstanding(w, i);
    forall k | 0 <= k < |v.wire| ensures OfferFollows(v.a, v.wire[k]) {
      assert OfferFollows(w.a, w.wire[k]);
    }
  }

  /** The classical log grew by one commit, sent with it. */
  ghost predicate ClassicalStep(w: World, v: World, e: Entry, cross: Option<nat>, staple: Carried) {
    && v.a.cl == Append(w.a.cl, e) && v.a.crosses == w.a.crosses + [cross]
    && v.a.pq == w.a.pq && v.b == w.b && v.replies == w.replies && v.completed == w.completed
    && v.a.seen == w.a.seen && v.a.bound == w.a.bound
    && v.a.round == w.a.round && v.a.rounds == w.a.rounds && v.a.offer == w.a.offer
    && v.a.owed.None?
    && v.a.staple == staple && v.wire == w.wire + [Frame(staple, w.a.seen)]
    && Index(staple) == |w.a.cl.log|
  }

  lemma ClassicalEvidence(w: World, v: World, e: Entry, cross: Option<nat>, staple: Carried)
    requires EvidenceOk(w) && CrossReady(w, cross) && ClassicalStep(w, v, e, cross, staple)
    ensures EvidenceOk(v)
  {
    var n := |w.a.cl.log|;
    forall i: nat, k: nat | BindsCross(v.a, i, k) && i < n ensures BindsCross(w.a, i, k) {
    }
    forall m | 0 <= m < |v.wire| ensures OfferFollows(v.a, v.wire[m]) {
      if m < |w.wire| {
        assert OfferFollows(w.a, w.wire[m]);
      }
    }
    forall i: nat | i < n && Outstanding(v, i) ensures Outstanding(w, i) {
    }
  }

  lemma ClassicalExtends(w: World, v: World, e: Entry, cross: Option<nat>, staple: Carried)
    requires EvidenceOk(w) && ClassicalStep(w, v, e, cross, staple)
    ensures Extends(w.a, w.b.sends, v.a, v.b.sends)
  {
  }

  lemma ClassicalGrowthKeeps(w: World, v: World, e: Entry, cross: Option<nat>, staple: Carried)
    requires Inv(w) && Grown(w.a.cl, e) && CrossReady(w, cross) && ClassicalStep(w, v, e, cross, staple)
    requires SentCarried(v.a, v.b.sends, staple)
    ensures GroupsOk(v) && WireOk(v) && OwedOk(v.a) && RoundsOk(v) && EvidenceOk(v) && CompletedOk(v)
  {
    ClassicalExtends(w, v, e, cross, staple);
    ClassicalEvidence(w, v, e, cross, staple);
    CompletedExtends(w, v);
    RoundsUnmoved(w, v);
    WireGrows(w, v, Frame(staple, w.a.seen));
  }

  lemma PartialAppends(w: World, fold: Option<Leaf>, cross: Option<nat>, core: Core, path: Path) returns (e: Entry)
    requires Inv(w) && w.a.owed.None? && TakePartial(w, fold, cross, core, path) != w
    ensures var v := TakePartial(w, fold, cross, core, path);
            var state := StateAt(w.b.sends, cross);
            && Grown(w.a.cl, e)
            && e.bundle == PartialBundle(fold, state) && e.store == w.a.store
            && ClassicalStep(w, v, e, cross, Partial(|w.a.cl.log|))
            && v.a.store == Forget(w.a.store, state) && v.a.spent == w.a.spent && v.exports == w.exports
            && v.a.broken == w.a.broken
  {
    e := TakePartial(w, fold, cross, core, path).a.cl.log[|w.a.cl.log|];
    AppendGrows(w.a.cl, e);
  }

  lemma PartialIsSent(w: World, v: World, fold: Option<Leaf>, cross: Option<nat>, e: Entry)
    requires AllGenuine(w.a.store) && |w.a.crosses| == |w.a.cl.log|
    requires e.bundle == PartialBundle(fold, StateAt(w.b.sends, cross)) && e.store == w.a.store
    requires ClassicalStep(w, v, e, cross, Partial(|w.a.cl.log|))
    ensures SentPartial(v.a, v.b.sends, |w.a.cl.log|)
  {
    PartialAttestsNothing(fold, StateAt(w.b.sends, cross));
    assert v.a.cl.log[|w.a.cl.log|] == e;
  }

  lemma PartialAppendKeeps(w: World, v: World, fold: Option<Leaf>, cross: Option<nat>, e: Entry)
    requires Inv(w) && Grown(w.a.cl, e) && CrossReady(w, cross)
    requires e.bundle == PartialBundle(fold, StateAt(w.b.sends, cross)) && e.store == w.a.store
    requires ClassicalStep(w, v, e, cross, Partial(|w.a.cl.log|))
    requires v.a.store == Forget(w.a.store, StateAt(w.b.sends, cross)) && v.a.spent == w.a.spent
              && v.exports == w.exports
    ensures Inv(v)
  {
    StoreGenuine(w.a.store, StateAt(w.b.sends, cross));
    PartialIsSent(w, v, fold, cross, e);
    ClassicalGrowthKeeps(w, v, e, cross, Partial(|w.a.cl.log|));
    ExportsUnmoved(w, v);
  }

  lemma PartialKeeps(w: World, fold: Option<Leaf>, cross: Option<nat>, core: Core, path: Path)
    requires Inv(w) && w.a.owed.None? && CrossReady(w, cross)
    ensures Inv(TakePartial(w, fold, cross, core, path))
  {
    if TakePartial(w, fold, cross, core, path) != w {
      var e := PartialAppends(w, fold, cross, core, path);
      PartialAppendKeeps(w, TakePartial(w, fold, cross, core, path), fold, cross, e);
    }
  }

  /** While a bind is owed, its reservations hold and its leaf is unspent: the discharge always gets
      as far as building, from the bind's own export. */
  lemma DischargeReaches(w: World)
    requires Inv(w) && !w.a.broken && w.a.owed.Some?
    ensures var owed := w.a.owed.value;
            && w.a.cl.Head().epoch + 1 == owed.attestation.tEpoch
            && w.a.pq.Head().epoch == owed.attestation.pqEpoch
            && ExportPsk(w.a.PqReplica(), APQ_COMPONENT_ID).Ok?
            && w.a.pq.Head() == w.a.pq.log[owed.pq].post
            && !Spent(w, Export(OWNER, APQ_COMPONENT_ID, w.a.pq.Head().epoch))
  {
  }

  function OwedPsk(a: Owner): ExportedPsk {
    ExportedFrom(a.pq.Head(), APQ_COMPONENT_ID)
  }

  /** A discharge that commits appends one sound classical commit carrying exactly the owed bind. */
  lemma FullAppends(w: World, fold: Option<Leaf>, cross: Option<nat>, core: Core, path: Path) returns (e: Entry)
    requires Inv(w) && !w.a.broken && w.a.owed.Some?
    requires |TakeFull(w, w.a.owed.value, fold, cross, core, path).a.cl.log| > |w.a.cl.log|
    ensures var owed := w.a.owed.value;
            var v := TakeFull(w, owed, fold, cross, core, path);
            var state := StateAt(w.b.sends, cross);
            var apq := OwedPsk(w.a);
            && Grown(w.a.cl, e)
            && e.bundle == FullBundle(fold, state, owed.attestation, apq)
            && e.store == w.a.store[StorageId(apq) := apq.psk]
            && ClassicalStep(w, v, e, cross, Full(|w.a.cl.log|, owed.pq))
            && v.a.store == Forget(w.a.store, state) - {StorageId(apq)}
            && v.a.spent == w.a.spent + {APQ_COMPONENT_ID} && v.a.broken == w.a.broken
            && v.exports == w.exports + [Export(OWNER, APQ_COMPONENT_ID, w.a.pq.Head().epoch)]
  {
    DischargeReaches(w);
    e := TakeFull(w, w.a.owed.value, fold, cross, core, path).a.cl.log[|w.a.cl.log|];
    AppendGrows(w.a.cl, e);
  }

  lemma FullFails(w: World, fold: Option<Leaf>, cross: Option<nat>, core: Core, path: Path)
    requires Inv(w) && !w.a.broken && w.a.owed.Some?
    requires |TakeFull(w, w.a.owed.value, fold, cross, core, path).a.cl.log| <= |w.a.cl.log|
    ensures TakeFull(w, w.a.owed.value, fold, cross, core, path) ==
            w.(a := w.a.(spent := w.a.spent + {APQ_COMPONENT_ID}, broken := true,
                         store := w.a.store[StorageId(OwedPsk(w.a)) := OwedPsk(w.a).psk]),
               exports := w.exports + [Export(OWNER, APQ_COMPONENT_ID, w.a.pq.Head().epoch)])
  {
    DischargeReaches(w);
  }

  /** The owed bind is the PQ half's last commit, and attests the epoch the next classical commit
      starts. */
  lemma OwedIsLast(w: World, e: Entry)
    requires OwedOk(w.a) && w.a.owed.Some? && e.pre == w.a.cl.Head() && e.Step()
    ensures w.a.owed.value.pq < |w.a.pq.log|
    ensures w.a.pq.log[w.a.owed.value.pq].post == w.a.pq.Head()
    ensures w.a.owed.value.attestation == ApqInfoUpdate(e.post.epoch, w.a.pq.Head().epoch)
    ensures IsBindOf(w.a.pq.log[w.a.owed.value.pq], w.a.owed.value.attestation)
  {
  }

  lemma FullIsBindPair(store: PskMap, fold: Option<Leaf>, cross: Option<Shared>, e: Entry, p: Entry)
    requires AllGenuine(store)
    requires IsBindOf(p, ApqInfoUpdate(e.post.epoch, p.post.epoch))
    requires var apq := ExportedFrom(p.post, APQ_COMPONENT_ID);
             && e.bundle == FullBundle(fold, cross, ApqInfoUpdate(e.post.epoch, p.post.epoch), apq)
             && e.store == store[StorageId(apq) := apq.psk]
    ensures BindPair(e, p, cross)
  {
    ExportsAreGenuine(p.post, APQ_COMPONENT_ID);
    FullAttests(fold, cross, ApqInfoUpdate(e.post.epoch, p.post.epoch), ExportedFrom(p.post, APQ_COMPONENT_ID));
  }

  lemma FullIsSent(w: World, v: World, fold: Option<Leaf>, cross: Option<nat>, e: Entry)
    requires AllGenuine(w.a.store) && OwedOk(w.a) && w.a.owed.Some? && e.pre == w.a.cl.Head() && e.Step()
    requires |w.a.crosses| == |w.a.cl.log|
    requires e.bundle == FullBundle(fold, StateAt(w.b.sends, cross), w.a.owed.value.attestation, OwedPsk(w.a))
    requires e.store == w.a.store[StorageId(OwedPsk(w.a)) := OwedPsk(w.a).psk]
    requires ClassicalStep(w, v, e, cross, Full(|w.a.cl.log|, w.a.owed.value.pq))
    ensures SentFull(v.a, v.b.sends, |w.a.cl.log|, w.a.owed.value.pq)
  {
    OwedIsLast(w, e);
    FullIsBindPair(w.a.store, fold, StateAt(w.b.sends, cross), e, w.a.pq.log[w.a.owed.value.pq]);
    assert v.a.cl.log[|w.a.cl.log|] == e;
  }

  /** The owner spends its leaf of the current PQ epoch, for the first time. */
  lemma OwnerExports(w: World, v: World)
    requires Inv(w) && !w.a.broken && w.a.owed.Some?
    requires v.a.pq == w.a.pq && v.b == w.b && v.a.bound == w.a.bound && v.a.spent == w.a.spent + {APQ_COMPONENT_ID}
    requires v.exports == w.exports + [Export(OWNER, APQ_COMPONENT_ID, w.a.pq.Head().epoch)]
    ensures ExportsOk(v)
  {
    DischargeReaches(w);
    ExportsGrow(w, v, Export(OWNER, APQ_COMPONENT_ID, w.a.pq.Head().epoch));
  }

  lemma FullAppendKeeps(w: World, v: World, fold: Option<Leaf>, cross: Option<nat>, e: Entry)
    requires Inv(w) && !w.a.broken && w.a.owed.Some? && CrossReady(w, cross) && Grown(w.a.cl, e)
    requires e.bundle == FullBundle(fold, StateAt(w.b.sends, cross), w.a.owed.value.attestation, OwedPsk(w.a))
    requires e.store == w.a.store[StorageId(OwedPsk(w.a)) := OwedPsk(w.a).psk]
    requires ClassicalStep(w, v, e, cross, Full(|w.a.cl.log|, w.a.owed.value.pq))
    requires v.a.store == Forget(w.a.store, StateAt(w.b.sends, cross)) - {StorageId(OwedPsk(w.a))}
    requires v.a.spent == w.a.spent + {APQ_COMPONENT_ID}
    requires v.exports == w.exports + [Export(OWNER, APQ_COMPONENT_ID, w.a.pq.Head().epoch)]
    ensures Inv(v)
  {
    StoreGenuine(w.a.store, StateAt(w.b.sends, cross));
    FullIsSent(w, v, fold, cross, e);
    ClassicalGrowthKeeps(w, v, e, cross, Full(|w.a.cl.log|, w.a.owed.value.pq));
    OwnerExports(w, v);
  }

  lemma FullFailKeeps(w: World, v: World)
    requires Inv(w) && !w.a.broken && w.a.owed.Some?
    requires v == w.(a := w.a.(spent := w.a.spent + {APQ_COMPONENT_ID}, broken := true,
                               store := w.a.store[StorageId(OwedPsk(w.a)) := OwedPsk(w.a).psk]),
                     exports := w.exports + [Export(OWNER, APQ_COMPONENT_ID, w.a.pq.Head().epoch)])
    ensures Inv(v)
  {
    DischargeReaches(w);
    ExportsAreGenuine(w.a.pq.Head(), APQ_COMPONENT_ID);
    QuietKeeps(w, v);
    RoundsUnmoved(w, v);
    EvidenceUnmoved(w, v);
    OwnerExports(w, v);
  }

  lemma FullKeeps(w: World, fold: Option<Leaf>, cross: Option<nat>, core: Core, path: Path)
    requires Inv(w) && !w.a.broken && w.a.owed.Some? && CrossReady(w, cross)
    ensures Inv(TakeFull(w, w.a.owed.value, fold, cross, core, path))
  {
    if |TakeFull(w, w.a.owed.value, fold, cross, core, path).a.cl.log| > |w.a.cl.log| {
      var e := FullAppends(w, fold, cross, core, path);
      FullAppendKeeps(w, TakeFull(w, w.a.owed.value, fold, cross, core, path), fold, cross, e);
    } else {
      FullFails(w, fold, cross, core, path);
      FullFailKeeps(w, TakeFull(w, w.a.owed.value, fold, cross, core, path));
    }
  }

  lemma CommitKeeps(w: World, fold: Option<Leaf>, core: Core, path: Path)
    requires Inv(w)
    ensures Inv(TakeCommit(w, fold, core, path))
  {
    if !w.a.broken {
      BindCrossKeeps(w);
      if w.a.owed.Some? {
        FullKeeps(BindCross(w), fold, NextCross(w), core, path);
      } else {
        PartialKeeps(BindCross(w), fold, NextCross(w), core, path);
      }
    }
  }

  lemma ResendKeeps(w: World)
    requires Inv(w)
    ensures Inv(TakeResend(w))
  {
    var v := TakeResend(w);
    Unextended(w);
    WireGrows(w, v, Frame(w.a.staple, w.a.seen));
    CompletedExtends(w, v);
    RoundsUnmoved(w, v);
    ResendEvidence(w, v);
  }

  lemma ResendEvidence(w: World, v: World)
    requires EvidenceOk(w) && Index(w.a.staple) == |w.a.cl.log| - 1 && v == TakeResend(w)
    ensures EvidenceOk(v)
  {
    assert forall i: nat, k: nat :: BindsCross(v.a, i, k) <==> BindsCross(w.a, i, k);
    assert forall i: nat :: Outstanding(v, i) <==> Outstanding(w, i);
    forall m | 0 <= m < |v.wire| ensures OfferFollows(v.a, v.wire[m]) {
      if m < |w.wire| {
        assert OfferFollows(w.a, w.wire[m]);
      }
    }
  }
}
