/** What each delivery does, outcome by outcome, and why it keeps the invariant. */
module Deliveries {
  import opened Prelude
  import opened Component
  import opened Rules
  import opened Mls
  import opened Ratchet
  import opened History
  import opened Replicas
  import opened Invariant
  import opened OwnerSteps
  import Ownership

  // ---- the ledger covers what is outstanding ----

  /** A ledger resolves the PSKs of exactly its own states. */
  lemma {:induction false} LedgerHoldsIff(states: seq<Shared>, g: Shared)
    ensures StorageId(CrossOf(g)) in LedgerOf(states) <==> exists k :: 0 <= k < |states| && states[k].secret == g.secret
  {
    if states != [] {
      var front, last := states[..|states| - 1], states[|states| - 1];
      LedgerHoldsIff(front, g);
      ExportsNeverCollide(last, g, TWOMLS_COMPONENT_ID, TWOMLS_COMPONENT_ID);
      if StorageId(CrossOf(g)) in LedgerOf(front) {
        var k :| 0 <= k < |front| && front[k].secret == g.secret;
        assert states[k].secret == g.secret;
      }
    }
  }

  lemma {:induction false} LedgerGenuine(states: seq<Shared>)
    ensures AllGenuine(LedgerOf(states))
  {
    if states != [] {
      LedgerGenuine(states[..|states| - 1]);
      CrossGenuine(Some(states[|states| - 1]));
    }
  }

  /** The ledger resolves the PSKs of exactly the eight newest states. */
  lemma WindowHoldsIff(sends: seq<Shared>, g: Shared)
    ensures StorageId(CrossOf(g)) in Window(sends) <==>
            exists k :: 0 <= k < |sends| && |sends| <= k + 8 && sends[k].secret == g.secret
  {
    var cut := if |sends| > SEND_PSK_WINDOW then |sends| - SEND_PSK_WINDOW else 0;
    assert sends[0..] == sends;
    LedgerHoldsIff(sends[cut..], g);
    if StorageId(CrossOf(g)) in Window(sends) {
      var k :| 0 <= k < |sends[cut..]| && sends[cut..][k].secret == g.secret;
      assert sends[cut + k].secret == g.secret;
    }
    if k :| 0 <= k < |sends| && |sends| <= k + 8 && sends[k].secret == g.secret {
      assert sends[cut..][k - cut].secret == g.secret;
    }
  }

  lemma WindowHolds(sends: seq<Shared>, k: nat)
    requires k < |sends| && |sends| <= k + SEND_PSK_WINDOW
    ensures StorageId(CrossOf(sends[k])) in Window(sends)
  {
    WindowHoldsIff(sends, sends[k]);
  }

  /** A commit that has not reached the mirror binds one of the two newest states of the mirror's
      send group, if any: evidence of a later one comes only in frames that carry the commit. */
  lemma EvidenceBoundsLag(w: World, i: nat)
    requires EvidenceOk(w) && Outstanding(w, i) && w.a.crosses[i].Some?
    ensures var k := w.a.crosses[i].value; k < |w.b.sends| <= k + 2
  {
    assert BindsCross(w.a, i, w.a.crosses[i].value);
  }

  lemma LedgerCovers(w: World, i: nat)
    requires EvidenceOk(w) && Outstanding(w, i)
    ensures var cross := StateAt(w.b.sends, w.a.crosses[i]);
            cross.Some? ==> StorageId(CrossOf(cross.value)) in Window(w.b.sends)
  {
    if w.a.crosses[i].Some? {
      EvidenceBoundsLag(w, i);
      WindowHolds(w.b.sends, w.a.crosses[i].value);
    }
  }

  // ---- plain commits ----

  lemma WindowGenuine(sends: seq<Shared>)
    ensures AllGenuine(Window(sends))
  {
    LedgerGenuine(if |sends| > SEND_PSK_WINDOW then sends[|sends| - SEND_PSK_WINDOW..] else sends);
  }

  lemma PlainStoreServes(w: World, e: Entry, cross: Option<Shared>)
    requires AllGenuine(w.b.store) && PlainCommit(e, cross)
    requires cross.Some? ==> StorageId(CrossOf(cross.value)) in Window(w.b.sends)
    ensures var store := w.b.store + Window(w.b.sends);
            forall p :: p in e.bundle && p.proposal.Psk? && p.proposal.ref in e.store ==>
              p.proposal.ref in store && store[p.proposal.ref] == e.store[p.proposal.ref]
  {
    var store := w.b.store + Window(w.b.sends);
    WindowGenuine(w.b.sends);
    assert Named(e.bundle, store);
    GenuineAgree(e.bundle, e.store, store);
  }

  /** A plain commit at the mirror's epoch is refused by the Authentication Service or by nothing:
      whatever it binds is still ledgered. */
  lemma PartialReceived(w: World, i: nat, core: Core)
    requires Inv(w) && SentPartial(w.a, w.b.sends, i)
    requires w.a.cl.log[i].message.epoch == w.b.cl.shared.epoch
    ensures var e := w.a.cl.log[i];
            Receive(w.b.cl, core, w.b.store + Window(w.b.sends), e.message) ==
            if CredentialsAllowed(e.pre, core, e.message) then Ok(e.post) else Err(Credential)
    ensures w.a.cl.log[i].message.proposals == w.a.cl.log[i].bundle && |w.a.cl.log[i].post.roster| == 2
  {
    var e := w.a.cl.log[i];
    assert e.Sound();
    BuiltCommitIsChecked(e);
    AtEntry(w.a.cl, w.b.cl.shared, i);
    Ownership.RosterSizes(e.post.roster);
    LedgerCovers(w, i);
    PlainStoreServes(w, e, StateAt(w.b.sends, w.a.crosses[i]));
    MirrorFollows(e, w.b.cl, core, w.b.store + Window(w.b.sends));
  }

  /** The mirror's classical half at the next state. */
  function ClassicalMoved(w: World, i: nat): World
    requires i < |w.a.cl.log|
  {
    w.(b := w.b.(cl := Moved(w.b.cl, w.a.cl.log[i].post)))
  }

  /** A delivered plain staple is skipped, ahead, applied to the owner's own next state, or refused
      by the Authentication Service; only what was skipped or applied counts as evidence. */
  lemma PartialDelivers(w: World, i: nat, offer: nat, core: Core)
    requires Inv(w) && SentPartial(w.a, w.b.sends, i)
    ensures var e := w.a.cl.log[i];
            ApplyPartial(w, i, offer, core) ==
            if e.pre.epoch < w.b.cl.shared.epoch then Noted(w, offer)
            else if e.pre.epoch == w.b.cl.shared.epoch && CredentialsAllowed(e.pre, core, e.message) then
              Noted(ClassicalMoved(w, i), offer)
            else w
  {
    var e := w.a.cl.log[i];
    assert e.Sound();
    BuiltCommitIsChecked(e);
    if e.pre.epoch == w.b.cl.shared.epoch {
      PartialReceived(w, i, core);
    }
  }

  // ---- binds ----

  /** What the mirror makes of the PQ half of bind `j`. */
  function BindOutcome(w: World, j: nat, core: Core): (Result<(ExportedPsk, ApqInfoUpdate), CombinerError>, Replica)
    requires j < |w.a.pq.log| && w.b.held.Some?
  {
    Applied(w.b.pq, core, (w.b.store + Window(w.b.sends))[InjectedRef(w.b.pq.shared) := w.b.held.value],
            CommitMessage(w.a.pq.log[j].message), NoFault)
  }

  /** At the bind's own epoch the held secret is the injected one. */
  lemma HeldIsInjected(w: World, j: nat)
    requires Inv(w) && !w.b.wedged && j < |w.a.pq.log| && Binds(w.a.pq.log[j]) && w.b.pq.shared == w.a.pq.log[j].pre
    ensures w.b.held == Some(InjectedInto(w.a.pq.log[j]))
    ensures w.a.pq.log[j].Sound() && SuiteIsPq(w.a.pq.log[j].pre.suite) == Some(true)
  {
    assert w.a.pq.log[j].Sound() && Unapplied(w, j);
    PositionsAreEpochs(w.a.pq, j);
    assert w.a.pq.LinkedAt(j);
  }

  /** So the PQ commit applies, under any Authentication Service. */
  lemma BindIsReceived(w: World, j: nat, core: Core, attestation: ApqInfoUpdate)
    requires Inv(w) && !w.b.wedged && w.b.held.Some? && j < |w.a.pq.log|
    requires IsBindOf(w.a.pq.log[j], attestation) && w.b.pq.shared == w.a.pq.log[j].pre
    ensures var store := (w.b.store + Window(w.b.sends))[InjectedRef(w.b.pq.shared) := w.b.held.value];
            Receive(w.b.pq, core, store, w.a.pq.log[j].message) == Ok(w.a.pq.log[j].post)
    ensures w.a.pq.log[j].message.proposals == w.a.pq.log[j].bundle
    ensures Attestation(w.a.pq.log[j].bundle) == Ok(Some(attestation))
  {
    var p := w.a.pq.log[j];
    var store := (w.b.store + Window(w.b.sends))[InjectedRef(w.b.pq.shared) := w.b.held.value];
    HeldIsInjected(w, j);
    BuiltCommitIsChecked(p);
    BindIsPathless(p, attestation);
    assert forall q :: q in p.bundle && q.proposal.Psk? ==> q.proposal.ref == InjectedRef(p.pre);
    MirrorFollows(p, w.b.pq, core, store);
  }

  lemma BindTakes(w: World, j: nat, core: Core, attestation: ApqInfoUpdate)
    requires Inv(w) && !w.b.wedged && w.b.held.Some? && j < |w.a.pq.log|
    requires IsBindOf(w.a.pq.log[j], attestation) && w.b.pq.shared == w.a.pq.log[j].pre
    ensures var p := w.a.pq.log[j];
            BindOutcome(w, j, core) ==
            (Ok((ExportedFrom(p.post, APQ_COMPONENT_ID), attestation)), Replica(p.post, MIRROR, {APQ_COMPONENT_ID}))
  {
    BindIsReceived(w, j, core, attestation);
    AtEntry(w.a.pq, w.b.pq.shared, j);
    Ownership.RosterSizes(w.a.pq.log[j].post.roster);
  }

  lemma BindMisses(w: World, j: nat, core: Core)
    requires Inv(w) && w.b.held.Some? && j < |w.a.pq.log| && w.b.pq.shared.epoch != w.a.pq.log[j].pre.epoch
    ensures BindOutcome(w, j, core) == (Err(CombinerError.Mls), w.b.pq)
  {
    assert w.a.pq.log[j].Sound();
    OtherEpochRefused(w.a.pq.log[j], w.b.pq, core,
                      (w.b.store + Window(w.b.sends))[InjectedRef(w.b.pq.shared) := w.b.held.value]);
  }

  /** At the bind's epoch the PQ half applies and the mirror exports what the owner exports. At any
      other epoch the PQ half stays where it was. */
  lemma BindApplies(w: World, i: nat, j: nat, core: Core)
    requires Inv(w) && !w.b.wedged && w.b.held.Some? && SentFull(w.a, w.b.sends, i, j)
    ensures var p := w.a.pq.log[j];
            var attestation := ApqInfoUpdate(w.a.cl.log[i].post.epoch, p.post.epoch);
            if w.b.pq.shared.epoch == p.pre.epoch then
              BindOutcome(w, j, core) ==
              (Ok((ExportedFrom(p.post, APQ_COMPONENT_ID), attestation)), Replica(p.post, MIRROR, {APQ_COMPONENT_ID}))
            else BindOutcome(w, j, core) == (Err(CombinerError.Mls), w.b.pq)
  {
    AtEntry(w.a.pq, w.b.pq.shared, j);
    if w.b.pq.shared.epoch == w.a.pq.log[j].pre.epoch {
      BindTakes(w, j, core, ApqInfoUpdate(w.a.cl.log[i].post.epoch, w.a.pq.log[j].post.epoch));
    } else {
      BindMisses(w, j, core);
    }
  }

  /** The store the classical half resolves from once the PQ half has applied. */
  function BindStore(w: World, p: Entry): PskMap {
    var apq := ExportedFrom(p.post, APQ_COMPONENT_ID);
    (w.b.store + Window(w.b.sends) - {InjectedRef(w.b.pq.shared)})[StorageId(apq) := apq.psk]
  }

  /** What the mirror keeps registered from then on, beside its ledger. */
  function BindKept(w: World, p: Entry): PskMap {
    var apq := ExportedFrom(p.post, APQ_COMPONENT_ID);
    (w.b.store - {InjectedRef(w.b.pq.shared)})[StorageId(apq) := apq.psk]
  }

  lemma BindStoreServes(w: World, e: Entry, p: Entry, cross: Option<Shared>)
    requires AllGenuine(w.b.store) && AllGenuine(e.store)
    requires var apq := ExportedFrom(p.post, APQ_COMPONENT_ID);
             Named(e.bundle, CrossPsk(cross)[StorageId(apq) := apq.psk])
    requires cross.Some? ==> StorageId(CrossOf(cross.value)) in Window(w.b.sends)
    ensures AllGenuine(BindStore(w, p)) && AllGenuine(BindKept(w, p))
    ensures forall q :: q in e.bundle && q.proposal.Psk? && q.proposal.ref in e.store ==>
              q.proposal.ref in BindStore(w, p) && BindStore(w, p)[q.proposal.ref] == e.store[q.proposal.ref]
  {
    WindowGenuine(w.b.sends);
    ExportsAreGenuine(p.post, APQ_COMPONENT_ID);
    assert Named(e.bundle, BindStore(w, p));
    GenuineAgree(e.bundle, e.store, BindStore(w, p));
  }

  /** The mirror after a bind whose two halves both applied. */
  function Finished(w: World, i: nat, j: nat): World
    requires i < |w.a.cl.log| && j < |w.a.pq.log|
  {
    var e, p := w.a.cl.log[i], w.a.pq.log[j];
    var apq := ExportedFrom(p.post, APQ_COMPONENT_ID);
    w.(b := w.b.(cl := Moved(w.b.cl, e.post), pq := Replica(p.post, MIRROR, {APQ_COMPONENT_ID}),
                 store := BindKept(w, p) - {StorageId(apq)}, held := None),
       exports := w.exports + [Export(MIRROR, APQ_COMPONENT_ID, p.post.epoch)],
       completed := w.completed + [Completed(i, j, apq)])
  }

  /** The mirror after a bind whose classical half its Authentication Service refused. */
  function HalfDone(w: World, j: nat): World
    requires j < |w.a.pq.log|
  {
    var p := w.a.pq.log[j];
    w.(b := w.b.(pq := Replica(p.post, MIRROR, {APQ_COMPONENT_ID}), store := BindKept(w, p), held := None,
                 wedged := true),
       exports := w.exports + [Export(MIRROR, APQ_COMPONENT_ID, p.post.epoch)])
  }

  /** The mirror after a bind staple its PQ half was not at the epoch of. */
  function Missed(w: World): World {
    w.(b := w.b.(store := w.b.store - {InjectedRef(w.b.pq.shared)}, held := None, wedged := true))
  }

  /** A bind's classical half, once its PQ half has applied. */
  lemma FullReceived(w: World, i: nat, j: nat, core: Core)
    requires Inv(w) && SentFull(w.a, w.b.sends, i, j)
    requires w.a.cl.log[i].message.epoch == w.b.cl.shared.epoch
    ensures var e, p := w.a.cl.log[i], w.a.pq.log[j];
            Receive(w.b.cl, core, BindStore(w, p), e.message) ==
            if CredentialsAllowed(e.pre, core, e.message) then Ok(e.post) else Err(Credential)
    ensures w.a.cl.log[i].message.proposals == w.a.cl.log[i].bundle && |w.a.cl.log[i].post.roster| == 2
  {
    var e, p := w.a.cl.log[i], w.a.pq.log[j];
    assert e.Sound();
    BuiltCommitIsChecked(e);
    AtEntry(w.a.cl, w.b.cl.shared, i);
    Ownership.RosterSizes(e.post.roster);
    LedgerCovers(w, i);
    BindStoreServes(w, e, p, StateAt(w.b.sends, w.a.crosses[i]));
    MirrorFollows(e, w.b.cl, core, BindStore(w, p));
  }

  lemma ClassicalHalfDelivers(w: World, i: nat, j: nat, offer: nat, core: Core)
    requires Inv(w) && SentFull(w.a, w.b.sends, i, j) && w.a.cl.log[i].message.epoch == w.b.cl.shared.epoch
    ensures var e, p := w.a.cl.log[i], w.a.pq.log[j];
            ApplyClassicalHalf(w, i, j, offer, core, Replica(p.post, MIRROR, {APQ_COMPONENT_ID}),
                               ExportedFrom(p.post, APQ_COMPONENT_ID), ApqInfoUpdate(e.post.epoch, p.post.epoch)) ==
            if CredentialsAllowed(e.pre, core, e.message) then Noted(Finished(w, i, j), offer) else HalfDone(w, j)
  {
    FullReceived(w, i, j, core);
  }

  lemma FullRuns(w: World, i: nat, j: nat, offer: nat, core: Core)
    requires Inv(w) && !w.b.wedged && SentFull(w.a, w.b.sends, i, j)
    requires w.a.cl.log[i].message.epoch == w.b.cl.shared.epoch && w.b.held.Some?
    ensures var e, p := w.a.cl.log[i], w.a.pq.log[j];
            ApplyFull(w, i, j, offer, core) ==
            if w.b.pq.shared.epoch != p.pre.epoch then Missed(w)
            else if CredentialsAllowed(e.pre, core, e.message) then Noted(Finished(w, i, j), offer)
            else HalfDone(w, j)
  {
    BindApplies(w, i, j, core);
    ClassicalHalfDelivers(w, i, j, offer, core);
  }

  /** A delivered bind does one of five things and nothing else: it is skipped; it changes nothing,
      being ahead or no secret being held; both halves apply, to the owner's own two next states
      and with the attestation verified; the PQ half alone applies, when the Authentication Service
      refuses a classical credential; neither does, when the PQ half is of another epoch. */
  lemma FullDelivers(w: World, i: nat, j: nat, offer: nat, core: Core)
    requires Inv(w) && !w.b.wedged && SentFull(w.a, w.b.sends, i, j)
    ensures var e, p := w.a.cl.log[i], w.a.pq.log[j];
            ApplyFull(w, i, j, offer, core) ==
            if e.pre.epoch < w.b.cl.shared.epoch then Noted(w, offer)
            else if e.pre.epoch > w.b.cl.shared.epoch || w.b.held.None? then w
            else if w.b.pq.shared.epoch != p.pre.epoch then Missed(w)
            else if CredentialsAllowed(e.pre, core, e.message) then Noted(Finished(w, i, j), offer)
            else HalfDone(w, j)
  {
    EpochOfCommit(w.a.cl, i, 0);
    if w.a.cl.log[i].pre.epoch == w.b.cl.shared.epoch && w.b.held.Some? {
      FullRuns(w, i, j, offer, core);
    }
  }

  // ---- re-keys ----

  predicate RekeyApplies(w: World, j: nat, core: Core, own: Option<Shared>)
    requires j < |w.a.pq.log|
  {
    var e := w.a.pq.log[j];
    w.b.pq.shared == e.pre && CredentialsAllowed(e.pre, core, e.message)
        && Resolve(e.bundle, w.b.store + CrossPsk(own)).Some?
  }

  /** A re-key applies iff the PQ half is at its epoch, the Authentication Service allows its
      credentials and the mirror registered the PSK it names; otherwise no group moves. */
  lemma RekeyDelivers(w: World, j: nat, core: Core, own: Option<Shared>)
    requires Inv(w) && SentRekey(w.a, j)
    ensures ApplyRekey(w, j, core, own) ==
            if RekeyApplies(w, j, core, own) then
              w.(b := w.b.(pq := Moved(w.b.pq, w.a.pq.log[j].post), store := Forget(w.b.store, own)))
            else w.(b := w.b.(store := w.b.store + CrossPsk(own)))
  {
    var e := w.a.pq.log[j];
    var store := w.b.store + CrossPsk(own);
    assert e.Sound();
    BuiltCommitIsChecked(e);
    AtEntry(w.a.pq, w.b.pq.shared, j);
    StoreGenuine(w.b.store, own);
    ResolvesIffNamed(e.bundle, store);
    if w.b.pq.shared != e.pre {
      OtherEpochRefused(e, w.b.pq, core, store);
    } else if !Named(e.bundle, store) {
      UnnamedRefused(e, w.b.pq, core, store);
    } else {
      GenuineAgree(e.bundle, e.store, store);
      MirrorFollows(e, w.b.pq, core, store);
      Ownership.RosterSizes(e.post.roster);
    }
  }

  // ---- every delivery at once ----

  /** What delivering a message comes to, told from the logs instead of from the messages. */
  function Outcome(w: World, m: Message, core: Core, own: Option<Shared>): World {
    match m
    case Frame(Birth, offer) => Noted(w, offer)
    case Frame(Partial(i), offer) =>
      if i >= |w.a.cl.log| then w
      else
        var e := w.a.cl.log[i];
        if e.pre.epoch < w.b.cl.shared.epoch then Noted(w, offer)
        else if e.pre.epoch == w.b.cl.shared.epoch && CredentialsAllowed(e.pre, core, e.message) then
          Noted(ClassicalMoved(w, i), offer)
        else w
    case Frame(Full(i, j), offer) =>
      if i >= |w.a.cl.log| || j >= |w.a.pq.log| then w
      else
        var e, p := w.a.cl.log[i], w.a.pq.log[j];
        if e.pre.epoch < w.b.cl.shared.epoch then Noted(w, offer)
        else if e.pre.epoch > w.b.cl.shared.epoch || w.b.held.None? then w
        else if w.b.pq.shared.epoch != p.pre.epoch then Missed(w)
        else if CredentialsAllowed(e.pre, core, e.message) then Noted(Finished(w, i, j), offer)
        else HalfDone(w, j)
    case RekeyFrame(j) =>
      if j >= |w.a.pq.log| then w
      else if RekeyApplies(w, j, core, own) then
        w.(b := w.b.(pq := Moved(w.b.pq, w.a.pq.log[j].post), store := Forget(w.b.store, own)))
      else w.(b := w.b.(store := w.b.store + CrossPsk(own)))
  }

  lemma FullHasOutcome(w: World, k: nat, core: Core, own: Option<Shared>)
    requires Inv(w) && !w.b.wedged && k < |w.wire| && w.wire[k].Frame? && w.wire[k].staple.Full?
    requires SentFull(w.a, w.b.sends, w.wire[k].staple.cl, w.wire[k].staple.pq)
    ensures TakeDeliver(w, k, core, own) == Outcome(w, w.wire[k], core, own)
  {
    FullDelivers(w, w.wire[k].staple.cl, w.wire[k].staple.pq, w.wire[k].offer, core);
  }

  lemma DeliverHasOutcome(w: World, k: nat, core: Core, own: Option<Shared>)
    requires Inv(w) && !w.b.wedged && k < |w.wire|
    ensures TakeDeliver(w, k, core, own) == Outcome(w, w.wire[k], core, own)
  {
    assert Sent(w.a, w.b.sends, w.wire[k]);
    match w.wire[k]
    case Frame(Birth, _) =>
    case Frame(Partial(i), offer) => PartialDelivers(w, i, offer, core);
    case Frame(Full(_, _), _) => FullHasOutcome(w, k, core, own);
    case RekeyFrame(j) => RekeyDelivers(w, j, core, own);
  }

  // ---- deliveries keep the invariant ----

  /** The mirror is past everything the frame carries. */
  ghost predicate Past(w: World, m: Message) {
    m.Frame? && m in w.wire && forall i: nat :: Outstanding(w, i) ==> i > Index(m.staple)
  }

  /** A frame the mirror is past proves only states no outstanding commit is older than. */
  lemma NotedEvidence(w: World, m: Message)
    requires EvidenceOk(w) && Past(w, m)
    ensures EvidenceOk(Noted(w, m.offer))
  {
    var v := Noted(w, m.offer);
    var k :| 0 <= k < |w.wire| && w.wire[k] == m;
    assert OfferFollows(w.a, w.wire[k]);
    assert forall i: nat :: Outstanding(v, i) <==> Outstanding(w, i);
  }

  lemma NotedKeeps(w: World, m: Message)
    requires Inv(w) && Past(w, m)
    ensures Inv(Noted(w, m.offer))
  {
    var v := Noted(w, m.offer);
    QuietKeeps(w, v);
    RoundsUnmoved(w, v);
    NotedEvidence(w, m);
  }

  lemma SkippedIsPast(w: World, m: Message)
    requires GroupsOk(w) && m.Frame? && m in w.wire
    requires m.staple.Birth? || (m.staple.cl < |w.a.cl.log| && w.a.cl.log[m.staple.cl].pre.epoch < w.b.cl.shared.epoch)
    ensures Past(w, m)
  {
    forall i: nat | Outstanding(w, i) ensures i > Index(m.staple) {
      if !m.staple.Birth? {
        EpochOfCommit(w.a.cl, i, 0);
        EpochOfCommit(w.a.cl, m.staple.cl, 0);
      }
    }
  }

  lemma MovedExtends(w: World, i: nat)
    requires Inv(w) && i < |w.a.cl.log| && w.a.cl.log[i].pre.epoch == w.b.cl.shared.epoch
    ensures w.a.cl.Passed(w.a.cl.log[i].post)
    ensures w.a.cl.log[i].post.epoch == w.b.cl.shared.epoch + 1
    ensures w.a.cl.log[i].message.epoch == w.a.cl.log[i].pre.epoch
  {
    AtEntry(w.a.cl, w.b.cl.shared, i);
    EpochOfCommit(w.a.cl, i, 0);
  }

  lemma ClassicalMovedKeeps(w: World, i: nat)
    requires Inv(w) && i < |w.a.cl.log| && w.a.cl.log[i].pre.epoch == w.b.cl.shared.epoch
    ensures Inv(ClassicalMoved(w, i))
  {
    var v := ClassicalMoved(w, i);
    MovedExtends(w, i);
    Unextended(w);
    WireExtends(w, v);
    CompletedExtends(w, v);
    RoundsUnmoved(w, v);
    EvidenceUnmoved(w, v);
  }

  lemma PartialDeliveryKeeps(w: World, m: Message, core: Core)
    requires Inv(w) && m.Frame? && m.staple.Partial? && m in w.wire && SentPartial(w.a, w.b.sends, m.staple.cl)
    ensures Inv(ApplyPartial(w, m.staple.cl, m.offer, core))
  {
    var i := m.staple.cl;
    var e := w.a.cl.log[i];
    PartialDelivers(w, i, m.offer, core);
    if e.pre.epoch < w.b.cl.shared.epoch {
      SkippedIsPast(w, m);
      NotedKeeps(w, m);
    } else if e.pre.epoch == w.b.cl.shared.epoch && CredentialsAllowed(e.pre, core, e.message) {
      ClassicalMovedKeeps(w, i);
      MovedExtends(w, i);
      SkippedIsPast(ClassicalMoved(w, i), m);
      NotedKeeps(ClassicalMoved(w, i), m);
    }
  }

  /** The mirror's export in an epoch it has just entered is its first there. */
  lemma FreshExport(w: World, v: World, epoch: U64)
    requires ExportsOk(w) && w.b.pq.shared.epoch < epoch
    requires v.a == w.a && v.b.sends == w.b.sends && v.exports == w.exports + [Export(MIRROR, APQ_COMPONENT_ID, epoch)]
    requires v.b.pq.shared.epoch == epoch && v.b.pq.spent == {APQ_COMPONENT_ID}
    ensures ExportsOk(v)
  {
    ExportsGrow(w, v, Export(MIRROR, APQ_COMPONENT_ID, epoch));
  }

  /** A wedged mirror holds nothing and owes nothing. */
  lemma WedgedRounds(w: World, v: World)
    requires RoundsOk(w) && v.a == w.a && v.b.wedged && v.b.answered == w.b.answered && v.replies == w.replies
    ensures RoundsOk(v)
  {
  }

  lemma MissedKeeps(w: World)
    requires Inv(w)
    ensures Inv(Missed(w))
  {
    QuietKeeps(w, Missed(w));
    WedgedRounds(w, Missed(w));
    EvidenceUnmoved(w, Missed(w));
  }

  lemma BindMoves(w: World, i: nat, j: nat)
    requires Inv(w) && SentFull(w.a, w.b.sends, i, j)
    ensures w.a.pq.Passed(w.a.pq.log[j].post) && w.a.pq.log[j].post.epoch == w.a.pq.log[j].pre.epoch + 1
    ensures Outstanding(w, i) ==> AllGenuine(BindStore(w, w.a.pq.log[j])) && AllGenuine(BindKept(w, w.a.pq.log[j]))
  {
    AtEntry(w.a.pq, w.b.pq.shared, j);
    if Outstanding(w, i) {
      LedgerCovers(w, i);
      BindStoreServes(w, w.a.cl.log[i], w.a.pq.log[j], StateAt(w.b.sends, w.a.crosses[i]));
    }
  }

  lemma HalfDoneKeeps(w: World, i: nat, j: nat)
    requires Inv(w) && SentFull(w.a, w.b.sends, i, j) && Outstanding(w, i)
    requires w.b.pq.shared.epoch == w.a.pq.log[j].pre.epoch
    ensures Inv(HalfDone(w, j))
  {
    var v := HalfDone(w, j);
    BindMoves(w, i, j);
    Unextended(w);
    WireExtends(w, v);
    CompletedExtends(w, v);
    WedgedRounds(w, v);
    EvidenceUnmoved(w, v);
    FreshExport(w, v, w.a.pq.log[j].post.epoch);
  }

  /** Applying the outstanding bind leaves nothing outstanding, and no round was answered meanwhile. */
  lemma FinishedRounds(w: World, v: World, j: nat)
    requires RoundsOk(w) && !w.b.wedged && Unapplied(w, j)
    requires v.a == w.a && v.b.answered == w.b.answered && v.replies == w.replies && v.b.held.None?
    requires v.b.pq.shared.epoch == w.a.pq.log[j].pre.epoch + 1 && w.b.pq.shared.epoch == w.a.pq.log[j].pre.epoch
    ensures RoundsOk(v)
  {
    forall k: nat ensures !Unapplied(v, k) {
      if Unapplied(v, k) {
        assert Unapplied(w, k);
        assert false;
      }
    }
  }

  lemma FinishedCompleted(w: World, i: nat, j: nat)
    requires Inv(w) && SentFull(w.a, w.b.sends, i, j) && w.a.cl.log[i].pre.epoch == w.b.cl.shared.epoch
    ensures CompletedOk(Finished(w, i, j))
  {
    var v := Finished(w, i, j);
    MovedExtends(w, i);
    forall x | x in v.completed ensures CompletedHolds(v, x) {
      if x in w.completed {
        assert CompletedHolds(w, x);
      }
    }
  }

  lemma FinishedKeeps(w: World, i: nat, j: nat)
    requires Inv(w) && !w.b.wedged && SentFull(w.a, w.b.sends, i, j)
    requires w.b.cl.shared.epoch == w.a.cl.log[i].pre.epoch && w.b.pq.shared.epoch == w.a.pq.log[j].pre.epoch
    ensures Inv(Finished(w, i, j))
  {
    var v := Finished(w, i, j);
    MovedExtends(w, i);
    BindMoves(w, i, j);
    Unextended(w);
    WireExtends(w, v);
    FinishedCompleted(w, i, j);
    FinishedRounds(w, v, j);
    EvidenceUnmoved(w, v);
    FreshExport(w, v, w.a.pq.log[j].post.epoch);
  }

  lemma FullDeliveryKeeps(w: World, m: Message, core: Core)
    requires Inv(w) && !w.b.wedged && m.Frame? && m.staple.Full? && m in w.wire
    requires SentFull(w.a, w.b.sends, m.staple.cl, m.staple.pq)
    ensures Inv(ApplyFull(w, m.staple.cl, m.staple.pq, m.offer, core))
  {
    var i, j := m.staple.cl, m.staple.pq;
    var e, p := w.a.cl.log[i], w.a.pq.log[j];
    FullDelivers(w, i, j, m.offer, core);
    if e.pre.epoch < w.b.cl.shared.epoch {
      SkippedIsPast(w, m);
      NotedKeeps(w, m);
    } else if e.pre.epoch == w.b.cl.shared.epoch && w.b.held.Some? {
      if w.b.pq.shared.epoch != p.pre.epoch {
        MissedKeeps(w);
      } else if CredentialsAllowed(e.pre, core, e.message) {
        FinishedKeeps(w, i, j);
        MovedExtends(w, i);
        SkippedIsPast(Finished(w, i, j), m);
        NotedKeeps(Finished(w, i, j), m);
      } else {
        HalfDoneKeeps(w, i, j);
      }
    }
  }

  /** Passing a PQ commit that injects nothing leaves the outstanding secret outstanding. */
  lemma RekeyRounds(w: World, v: World)
    requires RoundsOk(w) && v.a == w.a && v.replies == w.replies && w.b.pq.shared.epoch <= v.b.pq.shared.epoch
    requires v.b == w.b.(pq := v.b.pq, store := v.b.store)
    ensures RoundsOk(v)
  {
    forall k: nat ensures Unapplied(v, k) ==> Unapplied(w, k) {
    }
  }

  lemma RekeyMovedKeeps(w: World, v: World, j: nat)
    requires Inv(w) && SentRekey(w.a, j) && w.b.pq.shared == w.a.pq.log[j].pre
    requires v == w.(b := w.b.(pq := Moved(w.b.pq, w.a.pq.log[j].post), store := v.b.store)) && AllGenuine(v.b.store)
    ensures Inv(v)
  {
    AtEntry(w.a.pq, w.b.pq.shared, j);
    Unextended(w);
    WireExtends(w, v);
    CompletedExtends(w, v);
    RekeyRounds(w, v);
    EvidenceUnmoved(w, v);
  }

  lemma MirrorStoreKeeps(w: World, v: World)
    requires Inv(w) && v == w.(b := w.b.(store := v.b.store)) && AllGenuine(v.b.store)
    ensures Inv(v)
  {
    QuietKeeps(w, v);
    RoundsUnmoved(w, v);
    EvidenceUnmoved(w, v);
  }

  lemma RekeyDeliveryKeeps(w: World, j: nat, core: Core, own: Option<Shared>)
    requires Inv(w) && SentRekey(w.a, j)
    ensures Inv(ApplyRekey(w, j, core, own))
  {
    RekeyDelivers(w, j, core, own);
    StoreGenuine(w.b.store, own);
    if RekeyApplies(w, j, core, own) {
      RekeyMovedKeeps(w, ApplyRekey(w, j, core, own), j);
    } else {
      MirrorStoreKeeps(w, ApplyRekey(w, j, core, own));
    }
  }

  lemma FrameKeeps(w: World, m: Message, core: Core)
    requires Inv(w) && !w.b.wedged && m.Frame? && m in w.wire && SentCarried(w.a, w.b.sends, m.staple)
    ensures Inv(match m.staple
                case Birth => Noted(w, m.offer)
                case Partial(i) => ApplyPartial(w, i, m.offer, core)
                case Full(i, j) => ApplyFull(w, i, j, m.offer, core))
  {
    match m.staple
    case Birth =>
      SkippedIsPast(w, m);
      NotedKeeps(w, m);
    case Partial(_) => PartialDeliveryKeeps(w, m, core);
    case Full(_, _) => FullDeliveryKeeps(w, m, core);
  }

  lemma DeliverKeeps(w: World, k: nat, core: Core, own: Option<Shared>)
    requires Inv(w)
    ensures Inv(TakeDeliver(w, k, core, own))
  {
    if !w.b.wedged && k < |w.wire| {
      var m := w.wire[k];
      assert Sent(w.a, w.b.sends, w.wire[k]);
      if m.Frame? {
        FrameKeeps(w, m, core);
      } else {
        RekeyDeliveryKeeps(w, m.pq, core, own);
      }
    }
  }

  // ---- all steps ----

  lemma StepKeeps(w: World, step: Step)
    requires Inv(w)
    ensures Inv(Take(w, step))
  {
    match step
    case Observe => ObserveKeeps(w);
    case MirrorCommit(next) => MirrorCommitKeeps(w, next);
    case Begin => BeginKeeps(w);
    case Respond(round, answer) => RespondKeeps(w, round, answer);
    case Open(k) => OpenKeeps(w, k);
    case Trigger(core, path) => TriggerKeeps(w, core, path);
    case CommitClassical(fold, core, path) => CommitKeeps(w, fold, core, path);
    case Resend => ResendKeeps(w);
    case Rekey(leaf, cross, core, path) => RekeyKeeps(w, leaf, cross, core, path);
    case Deliver(k, core, own) => DeliverKeeps(w, k, core, own);
  }

  lemma {:induction false} RunKeeps(w: World, steps: seq<Step>)
    requires Inv(w)
    ensures Inv(Run(w, steps))
  {
    if steps != [] {
      RunKeeps(w, steps[..|steps| - 1]);
      StepKeeps(Run(w, steps[..|steps| - 1]), steps[|steps| - 1]);
    }
  }
}
