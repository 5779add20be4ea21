/** What every step of a direction keeps, and why the owner's and the rounds' steps keep it. */
module Invariant {
  import opened Prelude
  import opened KeySchedule
  import opened Proposals
  import opened Component
  import opened Rules
  import opened Mls
  import opened Ratchet
  import opened History
  import opened Replicas

  // ---- what was sent ----

  ghost predicate HalfOk(h: History, pq: bool) {
    h.Linked() && h.AllSound() && SuiteIsPq(h.base.suite) == Some(pq)
  }

  /** This PQ commit injects a secret. */
  predicate Binds(e: Entry) {
    InjectedRef(e.pre) in e.store
  }

  /** The secret a PQ commit injected. */
  function InjectedInto(p: Entry): Secret
    requires Binds(p)
  {
    p.store[InjectedRef(p.pre)]
  }

  ghost predicate IsBindOf(e: Entry, attestation: ApqInfoUpdate) {
    && Binds(e)
    && e.bundle == BindBundle(e.pre, OWNER, attestation)
    && attestation.pqEpoch == e.post.epoch
  }

  /** A plain classical commit, binding at most the given cross-party PSK. */
  ghost predicate PlainCommit(e: Entry, cross: Option<Shared>) {
    AllGenuine(e.store) && Named(e.bundle, CrossPsk(cross)) && Attestation(e.bundle) == Ok(None)
  }

  /** The two commits of one bind: `p` injects and attests, `e` carries the same attestation, the
      export of `p`'s epoch and at most the given cross-party PSK. */
  ghost predicate BindPair(e: Entry, p: Entry, cross: Option<Shared>) {
    var attestation := ApqInfoUpdate(e.post.epoch, p.post.epoch);
    var apq := ExportedFrom(p.post, APQ_COMPONENT_ID);
    && IsBindOf(p, attestation)
    && AllGenuine(e.store) && Named(e.bundle, CrossPsk(cross)[StorageId(apq) := apq.psk])
    && Attestation(e.bundle) == Ok(Some(attestation))
    && ProposalInfo(Psk(StorageId(apq)), Member(OWNER)) in e.bundle
  }

  ghost predicate SentPartial(a: Owner, sends: seq<Shared>, i: nat) {
    && i < |a.cl.log| && i < |a.crosses|
    && PlainCommit(a.cl.log[i], StateAt(sends, a.crosses[i]))
  }

  ghost predicate SentFull(a: Owner, sends: seq<Shared>, i: nat, j: nat) {
    && i < |a.cl.log| && j < |a.pq.log| && i < |a.crosses|
    && BindPair(a.cl.log[i], a.pq.log[j], StateAt(sends, a.crosses[i]))
  }

  ghost predicate SentCarried(a: Owner, sends: seq<Shared>, c: Carried) {
    match c
    case Birth => true
    case Partial(i) => SentPartial(a, sends, i)
    case Full(i, j) => SentFull(a, sends, i, j)
  }

  ghost predicate SentRekey(a: Owner, j: nat) {
    j < |a.pq.log| && AllGenuine(a.pq.log[j].store) && Attestation(a.pq.log[j].bundle) == Ok(None)
  }

  ghost predicate Sent(a: Owner, sends: seq<Shared>, m: Message) {
    match m
    case Frame(c, _) => SentCarried(a, sends, c)
    case RekeyFrame(j) => SentRekey(a, j)
  }

  function Index(c: Carried): int {
    if c.Birth? then -1 else c.cl
  }

  /** Every message is one of the logged commits; the staple is the newest. */
  ghost predicate WireOk(w: World) {
    && (forall k {:trigger w.wire[k]} :: 0 <= k < |w.wire| ==> Sent(w.a, w.b.sends, w.wire[k]))
    && SentCarried(w.a, w.b.sends, w.a.staple)
    && Index(w.a.staple) == |w.a.cl.log| - 1
  }

  // ---- the invariant ----

  /** Between steps no store holds an injected secret, and every exported value is genuine. */
  ghost predicate StoresOk(w: World) {
    AllGenuine(w.a.store) && AllGenuine(w.b.store)
  }

  ghost predicate MirrorOk(w: World) {
    && w.a.cl.Passed(w.b.cl.shared) && w.a.pq.Passed(w.b.pq.shared)
    && w.b.cl.own == MIRROR && w.b.pq.own == MIRROR
  }

  ghost predicate OwedOk(a: Owner) {
    a.owed.Some? ==>
      && |a.pq.log| > 0 && a.owed.value.pq == |a.pq.log| - 1
      && IsBindOf(a.pq.log[|a.pq.log| - 1], a.owed.value.attestation)
      && a.owed.value.attestation.tEpoch == a.cl.Head().epoch + 1
      && (!a.broken ==> APQ_COMPONENT_ID !in a.spent)
  }

  /** PQ commit `j` injects a secret and the mirror has not reached it. */
  predicate Unapplied(w: World, j: nat) {
    j < |w.a.pq.log| && Binds(w.a.pq.log[j]) && w.a.pq.log[j].pre.epoch >= w.b.pq.shared.epoch
  }

  /** At most one injected secret is outstanding, the mirror holds it, and a secret the owner has
      opened but not yet injected is the one the mirror holds. */
  ghost predicate SecretOk(w: World) {
    !w.b.wedged ==>
      && (forall j: nat {:trigger Unapplied(w, j)} :: Unapplied(w, j) ==>
            w.a.offer.None? && w.b.held == Some(InjectedInto(w.a.pq.log[j])))
      && (forall i: nat, j: nat {:trigger Unapplied(w, i), Unapplied(w, j)} ::
            Unapplied(w, i) && Unapplied(w, j) ==> i == j)
      && (w.a.offer.Some? ==> w.b.held == w.a.offer)
  }

  /** The round in flight is the newest, and every older one was answered. */
  ghost predicate RoundsNumbered(w: World) {
    && (forall r :: r in w.b.answered ==> r < w.a.rounds)
    && (forall r: nat :: r < w.a.rounds ==> r in w.b.answered || w.a.round == Some(r))
    && (w.a.round.Some? ==> w.a.round.value < w.a.rounds && w.a.offer.None? && w.a.owed.None?)
    && (forall k {:trigger w.replies[k]} :: 0 <= k < |w.replies| ==>
          w.replies[k].round in w.b.answered && w.b.answered[w.replies[k].round] == ReplySecret(w.replies[k]))
  }

  /** Once the round in flight is answered the mirror holds its secret, and nothing is outstanding. */
  ghost predicate RoundHeld(w: World) {
    !w.b.wedged && w.a.round.Some? && w.a.round.value in w.b.answered ==>
      && w.b.held == Some(w.b.answered[w.a.round.value])
      && forall j: nat :: !Unapplied(w, j)
  }

  predicate BindsCross(a: Owner, i: nat, k: nat) {
    i < |a.crosses| && a.crosses[i] == Some(k)
  }

  /** Classical commit `i` has not reached the mirror. */
  predicate Outstanding(w: World, i: nat) {
    i < |w.a.cl.log| && w.a.cl.log[i].pre.epoch >= w.b.cl.shared.epoch
  }

  /** A frame offering a later state than a commit binds left after that commit, so carries it or a
      later one. */
  ghost predicate OfferFollows(a: Owner, m: Message) {
    m.Frame? ==>
      && m.offer <= a.seen
      && forall i: nat, k: nat {:trigger BindsCross(a, i, k)} :: BindsCross(a, i, k) && m.offer > k ==>
          i <= Index(m.staple)
  }

  /** The mirror's send group is never more than one state past what the owner has proved to have
      applied, and that is never past a state an outstanding commit binds. */
  ghost predicate EvidenceOk(w: World) {
    && |w.a.crosses| == |w.a.cl.log|
    && w.a.seen < |w.b.sends|
    && (forall i: nat, k: nat {:trigger BindsCross(w.a, i, k)} :: BindsCross(w.a, i, k) ==> k <= w.a.seen)
    && (w.a.bound.Some? ==> w.a.bound.value <= w.a.seen)
    && (w.b.applied.Some? ==> w.b.applied.value <= w.a.seen)
    && |w.b.sends| <= (if w.b.applied.Some? then w.b.applied.value + 2 else 1)
    && (forall k {:trigger w.wire[k]} :: 0 <= k < |w.wire| ==> OfferFollows(w.a, w.wire[k]))
    && (forall i: nat, k: nat {:trigger BindsCross(w.a, i, k)} ::
          BindsCross(w.a, i, k) && Outstanding(w, i) && w.b.applied.Some? ==> w.b.applied.value <= k)
  }

  ghost predicate SendsOk(sends: seq<Shared>) {
    forall k {:trigger sends[k]} :: 0 <= k < |sends| ==> sends[k].epoch == sends[0].epoch + k
  }

  ghost predicate Spent(w: World, x: Export) {
    if x.component == APQ_COMPONENT_ID then
      || (x.party == OWNER
          && (x.epoch < w.a.pq.Head().epoch || (x.epoch == w.a.pq.Head().epoch && APQ_COMPONENT_ID in w.a.spent)))
      || (x.party == MIRROR
          && (x.epoch < w.b.pq.shared.epoch
              || (x.epoch == w.b.pq.shared.epoch && APQ_COMPONENT_ID in w.b.pq.spent)))
    else
      && x.component == TWOMLS_COMPONENT_ID && w.b.sends != []
      && (|| (x.party == OWNER && w.a.bound.Some? && x.epoch <= w.b.sends[0].epoch + w.a.bound.value)
          || (x.party == MIRROR && x.epoch < w.b.sends[0].epoch + |w.b.sends|))
  }

  /** No leaf is spent twice, and each was spent where its party's state says so. */
  ghost predicate ExportsOk(w: World) {
    && (forall i, j :: 0 <= i < j < |w.exports| ==> w.exports[i] != w.exports[j])
    && (forall x :: x in w.exports ==> Spent(w, x))
  }

  ghost predicate CompletedHolds(w: World, x: Completed) {
    && SentFull(w.a, w.b.sends, x.cl, x.pq)
    && x.exported == ExportedFrom(w.a.pq.log[x.pq].post, APQ_COMPONENT_ID)
    && w.a.cl.log[x.cl].post.epoch <= w.b.cl.shared.epoch
  }

  /** Every bind the mirror completed is one the owner sent, with the owner's own export. */
  ghost predicate CompletedOk(w: World) {
    forall x :: x in w.completed ==> CompletedHolds(w, x)
  }

  ghost predicate GroupsOk(w: World) {
    HalfOk(w.a.cl, false) && HalfOk(w.a.pq, true) && MirrorOk(w)
  }

  ghost predicate RoundsOk(w: World) {
    SecretOk(w) && RoundsNumbered(w) && RoundHeld(w)
  }

  ghost predicate Inv(w: World) {
    && GroupsOk(w) && WireOk(w) && StoresOk(w) && OwedOk(w.a) && RoundsOk(w)
    && EvidenceOk(w) && SendsOk(w.b.sends) && ExportsOk(w) && CompletedOk(w)
  }

  // ---- what a step may extend ----

  ghost predicate Extends(a: Owner, sends: seq<Shared>, after: Owner, more: seq<Shared>) {
    && a.cl.base == after.cl.base && a.pq.base == after.pq.base
    && a.cl.log <= after.cl.log && a.pq.log <= after.pq.log
    && a.crosses <= after.crosses && sends <= more
    && forall i: nat, k: nat {:trigger BindsCross(a, i, k)} :: BindsCross(a, i, k) ==> k < |sends|
  }

  lemma SameState(a: Owner, sends: seq<Shared>, after: Owner, more: seq<Shared>, i: nat)
    requires Extends(a, sends, after, more) && i < |a.crosses|
    ensures StateAt(more, after.crosses[i]) == StateAt(sends, a.crosses[i])
  {
    if a.crosses[i].Some? {
      assert BindsCross(a, i, a.crosses[i].value);
    }
  }

  lemma CarriedExtends(a: Owner, sends: seq<Shared>, after: Owner, more: seq<Shared>, c: Carried)
    requires SentCarried(a, sends, c) && Extends(a, sends, after, more)
    ensures SentCarried(after, more, c)
  {
    match c
    case Birth =>
    case Partial(i) => SameState(a, sends, after, more, i);
    case Full(i, j) => SameState(a, sends, after, more, i);
  }

  /** The step sent nothing new. */
  lemma WireExtends(w: World, v: World)
    requires WireOk(w) && Extends(w.a, w.b.sends, v.a, v.b.sends)
    requires v.wire == w.wire && v.a.staple == w.a.staple && |v.a.cl.log| == |w.a.cl.log|
    ensures WireOk(v)
  {
    CarriedExtends(w.a, w.b.sends, v.a, v.b.sends, w.a.staple);
    forall k | 0 <= k < |v.wire| ensures Sent(v.a, v.b.sends, v.wire[k]) {
      if w.wire[k].Frame? {
        CarriedExtends(w.a, w.b.sends, v.a, v.b.sends, w.wire[k].staple);
      }
    }
  }

  /** The step sent one message. */
  lemma WireGrows(w: World, v: World, m: Message)
    requires WireOk(w) && Extends(w.a, w.b.sends, v.a, v.b.sends)
    requires v.wire == w.wire + [m] && Sent(v.a, v.b.sends, m)
    requires SentCarried(v.a, v.b.sends, v.a.staple) && Index(v.a.staple) == |v.a.cl.log| - 1
    ensures WireOk(v)
  {
    forall k | 0 <= k < |v.wire| ensures Sent(v.a, v.b.sends, v.wire[k]) {
      if k < |w.wire| && w.wire[k].Frame? {
        CarriedExtends(w.a, w.b.sends, v.a, v.b.sends, w.wire[k].staple);
      }
    }
  }

  lemma CompletedExtends(w: World, v: World)
    requires CompletedOk(w) && v.completed == w.completed && Extends(w.a, w.b.sends, v.a, v.b.sends)
    requires w.b.cl.shared.epoch <= v.b.cl.shared.epoch
    ensures CompletedOk(v)
  {
    forall x | x in v.completed ensures CompletedHolds(v, x) {
      assert CompletedHolds(w, x);
      CarriedExtends(w.a, w.b.sends, v.a, v.b.sends, Full(x.cl, x.pq));
    }
  }

  /** What is outstanding, and the rounds, depend on the PQ log, the rounds and the mirror alone. */
  lemma RoundsUnmoved(w: World, v: World)
    requires RoundsOk(w)
    requires v.a.pq == w.a.pq && v.a.offer == w.a.offer && v.a.round == w.a.round && v.a.rounds == w.a.rounds
    requires w.a.owed.None? ==> v.a.owed.None?
    requires v.b.pq.shared == w.b.pq.shared && v.b.held == w.b.held && v.b.wedged == w.b.wedged
    requires v.b.answered == w.b.answered && v.replies == w.replies
    ensures RoundsOk(v)
  {
    assert forall j: nat :: Unapplied(v, j) <==> Unapplied(w, j);
  }

  /** Nothing about offers and send states moved. */
  lemma EvidenceUnmoved(w: World, v: World)
    requires EvidenceOk(w) && v.wire == w.wire && v.a.crosses == w.a.crosses && v.a.cl == w.a.cl
    requires v.a.seen == w.a.seen && v.a.bound == w.a.bound
    requires v.b.sends == w.b.sends && v.b.applied == w.b.applied && w.b.cl.shared.epoch <= v.b.cl.shared.epoch
    ensures EvidenceOk(v)
  {
    assert forall i: nat, k: nat :: BindsCross(v.a, i, k) <==> BindsCross(w.a, i, k);
    assert forall i: nat :: Outstanding(v, i) ==> Outstanding(w, i);
  }

  /** The step left both logs, the wire and the mirror's groups alone. */
  ghost predicate Quiet(w: World, v: World) {
    && v.a.cl == w.a.cl && v.a.pq == w.a.pq && v.a.crosses == w.a.crosses && v.a.staple == w.a.staple
    && v.wire == w.wire && v.completed == w.completed
    && w.b.sends <= v.b.sends && v.b.cl == w.b.cl && v.b.pq == w.b.pq
  }

  lemma QuietKeeps(w: World, v: World)
    requires GroupsOk(w) && WireOk(w) && CompletedOk(w) && EvidenceOk(w) && Quiet(w, v)
    ensures GroupsOk(v) && WireOk(v) && CompletedOk(v)
  {
    WireExtends(w, v);
    CompletedExtends(w, v);
  }

  /** Nothing was exported, and no party went back on what it had spent. */
  lemma ExportsUnmoved(w: World, v: World)
    requires ExportsOk(w) && v.exports == w.exports && w.b.sends <= v.b.sends
    requires v.a.pq == w.a.pq && v.a.spent == w.a.spent && v.a.bound == w.a.bound && v.b.pq == w.b.pq
    ensures ExportsOk(v)
  {
    forall x | x in v.exports ensures Spent(v, x) {
      assert Spent(w, x);
    }
  }

  lemma Unextended(w: World)
    requires EvidenceOk(w)
    ensures Extends(w.a, w.b.sends, w.a, w.b.sends)
  {
  }
}
