/** What a mirror is owed against any sender at all: the logs may hold commits nobody honest built. Nothing
    here assumes the direction's invariant. */
module AnySender {
  import opened Prelude
  import opened KeySchedule
  import opened Proposals
  import opened Component
  import opened Mls
  import opened Ratchet
  import opened History
  import opened Replicas
  import Ownership

  predicate Attests(c: Commit, cl: nat, pq: nat) {
    match Attestation(c.proposals)
    case Ok(Some(u)) => u.tEpoch == cl && u.pqEpoch == pq
    case _ => false
  }

  predicate InTwo(r: Replica) {
    r.own in {0, 1} && Ownership.TwoParty(r.shared.roster)
  }

  /** A copy of the same two-party group, no further back. */
  predicate Later(r: Replica, next: Replica) {
    InTwo(next) && r.shared.epoch <= next.shared.epoch
  }

  /** The commit moves the replica one epoch, is the other member's, and leaves the same two. */
  predicate MovedBy(r: Replica, c: Commit, next: Replica) {
    && c.epoch == r.shared.epoch && next.shared.epoch == r.shared.epoch + 1
    && next.shared.secret.EpochSecret? && next.shared.secret.context.epoch == next.shared.epoch
    && c.source.ExistingMember? && c.source.index + r.own == 1 && InTwo(next) && next.own == r.own
  }

  lemma AcceptedIsPeers(r: Replica, core: Core, store: PskMap, c: Commit)
    requires InTwo(r) && Receive(r, core, store, c).Ok?
    ensures MovedBy(r, c, Moved(r, Receive(r, core, store, c).value))
    ensures |Receive(r, core, store, c).value.roster| == 2
  {
    Ownership.AcceptedIsWhitelisted(r.shared, core, c);
    Ownership.SteadyCommit(r.shared, core, c, 0);
    Ownership.RosterSizes(NextRoster(r.shared, c));
  }

  // ---- binds ----

  /** The store a bind's PQ commit is resolved from, and then its classical commit. */
  function WithHeld(b: Mirror): PskMap
    requires b.held.Some?
  {
    (b.store + Window(b.sends))[InjectedRef(b.pq.shared) := b.held.value]
  }

  function WithExport(b: Mirror, apq: ExportedPsk): PskMap {
    (b.store + Window(b.sends) - {InjectedRef(b.pq.shared)})[StorageId(apq) := apq.psk]
  }

  lemma BindReads(r: Replica, core: Core, store: PskMap, c: Commit)
    requires InTwo(r)
    ensures var (v, after) := Applied(r, core, store, CommitMessage(c), NoFault);
            var received := Receive(r, core, store, c);
            && (v.Ok? <==> received.Ok? && Attestation(c.proposals).Ok? && Attestation(c.proposals).value.Some?)
            && (v.Ok? ==> v.value == (ExportedFrom(received.value, APQ_COMPONENT_ID),
                                      Attestation(c.proposals).value.value)
                          && after == Replica(received.value, r.own, {APQ_COMPONENT_ID}))
            && Later(r, after)
  {
    if Receive(r, core, store, c).Ok? {
      AcceptedIsPeers(r, core, store, c);
    }
  }

  /** How a bind ends at the mirror. Whatever it held, the secret is spent and its id gone; it completes or
      wedges the mirror, and completing leaves no exported PSK behind. */
  ghost predicate Settled(w: World, v: World, i: nat, j: nat, apq: Option<ExportedPsk>) {
    && v.b.held.None? && InjectedRef(w.b.pq.shared) !in v.b.store
    && (v.b.wedged ==> v.completed == w.completed && v.b.applied == w.b.applied)
    && (!v.b.wedged ==>
          apq.Some? && v.completed == w.completed + [Completed(i, j, apq.value)] && StorageId(apq.value) !in v.b.store)
  }

  lemma AttestsIs(c: Commit, cl: U64, pq: U64)
    ensures Attests(c, cl, pq) <==> Attestation(c.proposals) == Ok(Some(ApqInfoUpdate(cl, pq)))
  {
  }

  lemma HalfIsSettled(w: World, i: nat, j: nat, offer: nat, core: Core, after: Replica, apq: ExportedPsk,
                      u: ApqInfoUpdate)
    requires i < |w.a.cl.log| && j < |w.a.pq.log| && !w.b.wedged
    ensures var v := ApplyClassicalHalf(w, i, j, offer, core, after, apq, u);
            && Settled(w, v, i, j, Some(apq)) && v.b.pq == after
            && v.exports == w.exports + [Export(MIRROR, APQ_COMPONENT_ID, after.shared.epoch)]
  {
  }

  lemma HalfVerdict(w: World, i: nat, j: nat, offer: nat, core: Core, after: Replica, apq: ExportedPsk,
                    u: ApqInfoUpdate)
    requires i < |w.a.cl.log| && j < |w.a.pq.log| && !w.b.wedged
    ensures var v := ApplyClassicalHalf(w, i, j, offer, core, after, apq, u);
            var c := w.a.cl.log[i].message;
            var received := Receive(w.b.cl, core, WithExport(w.b, apq), c);
            && v.b.cl == (if received.Ok? then Moved(w.b.cl, received.value) else w.b.cl)
            && (!v.b.wedged <==> received.Ok? && |received.value.roster| == 2 && Attestation(c.proposals) == Ok(Some(u))
                                 && u == ApqInfoUpdate(received.value.epoch, after.shared.epoch))
  {
  }

  lemma HalfSettles(w: World, i: nat, j: nat, offer: nat, core: Core, after: Replica, apq: ExportedPsk,
                    u: ApqInfoUpdate)
    requires i < |w.a.cl.log| && j < |w.a.pq.log| && !w.b.wedged && InTwo(w.b.cl)
    ensures var v := ApplyClassicalHalf(w, i, j, offer, core, after, apq, u);
            var c := w.a.cl.log[i].message;
            var received := Receive(w.b.cl, core, WithExport(w.b, apq), c);
            && Settled(w, v, i, j, Some(apq))
            && v.exports == w.exports + [Export(MIRROR, APQ_COMPONENT_ID, after.shared.epoch)] && v.b.pq == after
            && v.b.cl == (if received.Ok? then Moved(w.b.cl, received.value) else w.b.cl)
            && (!v.b.wedged <==> received.Ok? && Attests(c, received.value.epoch, after.shared.epoch)
                                 && u == ApqInfoUpdate(received.value.epoch, after.shared.epoch))
  {
    var c := w.a.cl.log[i].message;
    var received := Receive(w.b.cl, core, WithExport(w.b, apq), c);
    HalfIsSettled(w, i, j, offer, core, after, apq, u);
    HalfVerdict(w, i, j, offer, core, after, apq, u);
    if received.Ok? {
      AcceptedIsPeers(w.b.cl, core, WithExport(w.b, apq), c);
      AttestsIs(c, received.value.epoch, after.shared.epoch);
    }
  }

  lemma FullDispatch(w: World, i: nat, j: nat, offer: nat, core: Core)
    requires i < |w.a.cl.log| && j < |w.a.pq.log| && w.b.held.Some?
    requires w.a.cl.log[i].message.epoch == w.b.cl.shared.epoch
    ensures var (v, after) := Applied(w.b.pq, core, WithHeld(w.b), CommitMessage(w.a.pq.log[j].message), NoFault);
            var store := w.b.store - {InjectedRef(w.b.pq.shared)};
            ApplyFull(w, i, j, offer, core) ==
            match v
            case Err(_) => w.(b := w.b.(pq := after, store := store, held := None, wedged := true))
            case Ok((apq, u)) => ApplyClassicalHalf(w, i, j, offer, core, after, apq, u)
  {
  }

  /** The classical half of a bind that leads the PQ half to `p`. */
  predicate ClassicalTakes(w: World, i: nat, core: Core, p: Shared)
    requires i < |w.a.cl.log|
  {
    var c := w.a.cl.log[i].message;
    var received := Receive(w.b.cl, core, WithExport(w.b, ExportedFrom(p, APQ_COMPONENT_ID)), c);
    received.Ok? && Attests(c, received.value.epoch, p.epoch)
  }

  lemma AcceptedSettles(w: World, i: nat, j: nat, offer: nat, core: Core, p: Shared, u: ApqInfoUpdate)
    requires i < |w.a.cl.log| && j < |w.a.pq.log| && !w.b.wedged && InTwo(w.b.cl)
    ensures var after := Replica(p, w.b.pq.own, {APQ_COMPONENT_ID});
            var apq := ExportedFrom(p, APQ_COMPONENT_ID);
            var v := ApplyClassicalHalf(w, i, j, offer, core, after, apq, u);
            && Settled(w, v, i, j, Some(apq))
            && (!v.b.wedged <==> ClassicalTakes(w, i, core, p) && u == ApqInfoUpdate(w.b.cl.shared.epoch + 1, p.epoch))
            && v.b.pq == after && Later(w.b.cl, v.b.cl)
            && (!v.b.wedged ==>
                  && MovedBy(w.b.cl, w.a.cl.log[i].message, v.b.cl)
                  && Attests(w.a.cl.log[i].message, w.b.cl.shared.epoch + 1, p.epoch)
                  && v.exports == w.exports + [Export(MIRROR, APQ_COMPONENT_ID, p.epoch)])
  {
    var apq := ExportedFrom(p, APQ_COMPONENT_ID);
    HalfSettles(w, i, j, offer, core, Replica(p, w.b.pq.own, {APQ_COMPONENT_ID}), apq, u);
    if Receive(w.b.cl, core, WithExport(w.b, apq), w.a.cl.log[i].message).Ok? {
      AcceptedIsPeers(w.b.cl, core, WithExport(w.b, apq), w.a.cl.log[i].message);
    }
  }

  /** How a due bind ends when its PQ commit leads to `p` and its classical half would then be taken or not: it
      completes iff both are and both attest exactly the two epochs they start. */
  ghost predicate DueOutcome(w: World, v: World, i: nat, j: nat, p: Result<Shared, MlsError>, takes: bool)
    requires i < |w.a.cl.log| && j < |w.a.pq.log| && w.b.held.Some?
  {
    var cl, pq := w.a.cl.log[i].message, w.a.pq.log[j].message;
    && Settled(w, v, i, j, if p.Ok? then Some(ExportedFrom(p.value, APQ_COMPONENT_ID)) else None)
    && Later(w.b.cl, v.b.cl) && Later(w.b.pq, v.b.pq)
    && (!v.b.wedged <==> p.Ok? && takes && Attests(pq, w.b.cl.shared.epoch + 1, p.value.epoch))
    && (!v.b.wedged ==>
          && MovedBy(w.b.cl, cl, v.b.cl) && MovedBy(w.b.pq, pq, v.b.pq)
          && Attests(cl, v.b.cl.shared.epoch, v.b.pq.shared.epoch)
          && v.b.pq == Replica(p.value, w.b.pq.own, {APQ_COMPONENT_ID})
          && v.exports == w.exports + [Export(MIRROR, APQ_COMPONENT_ID, p.value.epoch)])
  }

  lemma RefusedOutcome(w: World, v: World, i: nat, j: nat, p: Result<Shared, MlsError>, takes: bool)
    requires i < |w.a.cl.log| && j < |w.a.pq.log| && w.b.held.Some?
    requires InTwo(w.b.cl) && Later(w.b.pq, v.b.pq)
    requires p.Ok? ==> forall cl, pq :: !Attests(w.a.pq.log[j].message, cl, pq)
    requires v == w.(b := w.b.(pq := v.b.pq, store := w.b.store - {InjectedRef(w.b.pq.shared)}, held := None,
                               wedged := true))
    ensures DueOutcome(w, v, i, j, p, takes)
  {
  }

  /** A bind due at the mirror is settled at once, completely or by wedging it: the PQ commit is processed with the
      held secret under its id, the classical one with the PSK that the new PQ epoch exports. */
  lemma DueBindSettles(w: World, i: nat, j: nat, offer: nat, core: Core)
    requires i < |w.a.cl.log| && j < |w.a.pq.log| && !w.b.wedged && w.b.held.Some? && InTwo(w.b.cl) && InTwo(w.b.pq)
    requires w.a.cl.log[i].message.epoch == w.b.cl.shared.epoch
    ensures var p := Receive(w.b.pq, core, WithHeld(w.b), w.a.pq.log[j].message);
            DueOutcome(w, ApplyFull(w, i, j, offer, core), i, j, p, p.Ok? && ClassicalTakes(w, i, core, p.value))
  {
    var pq := w.a.pq.log[j].message;
    FullDispatch(w, i, j, offer, core);
    BindReads(w.b.pq, core, WithHeld(w.b), pq);
    var (r, after) := Applied(w.b.pq, core, WithHeld(w.b), CommitMessage(pq), NoFault);
    var p := Receive(w.b.pq, core, WithHeld(w.b), pq);
    if r.Ok? {
      AcceptedIsPeers(w.b.pq, core, WithHeld(w.b), pq);
      AcceptedSettles(w, i, j, offer, core, p.value, r.value.1);
    } else {
      RefusedOutcome(w, ApplyFull(w, i, j, offer, core), i, j, p, p.Ok? && ClassicalTakes(w, i, core, p.value));
    }
  }

  /** A delivered bind that is not due yet, or with no secret held, is left for later; an old one is not
      opened again. */
  lemma UndueBindWaits(w: World, i: nat, j: nat, offer: nat, core: Core)
    requires i < |w.a.cl.log| && j < |w.a.pq.log|
    requires w.a.cl.log[i].message.epoch != w.b.cl.shared.epoch || w.b.held.None?
    ensures ApplyFull(w, i, j, offer, core) ==
            if w.a.cl.log[i].message.epoch < w.b.cl.shared.epoch then Noted(w, offer) else w
  {
  }

  // ---- plain commits, re-keys and the discharge ----

  /** A plain commit proves its offer iff it is behind, or it applies and attests nothing or the epochs both
      halves are then at. One that does not apply moves nothing. */
  lemma PlainCounts(w: World, i: nat, offer: nat, core: Core)
    requires i < |w.a.cl.log| && InTwo(w.b.cl)
    ensures var v := ApplyPartial(w, i, offer, core);
            var c := w.a.cl.log[i].message;
            var received := Receive(w.b.cl, core, w.b.store + Window(w.b.sends), c);
            var now := if received.Ok? then Moved(w.b.cl, received.value) else w.b.cl;
            v == if c.epoch < w.b.cl.shared.epoch
                    || (received.Ok? && (Attestation(c.proposals) == Ok(None)
                                         || Attests(c, now.shared.epoch, w.b.pq.shared.epoch)))
                 then Noted(w.(b := w.b.(cl := now)), offer)
                 else w.(b := w.b.(cl := now))
  {
    var c := w.a.cl.log[i].message;
    if Receive(w.b.cl, core, w.b.store + Window(w.b.sends), c).Ok? {
      AcceptedIsPeers(w.b.cl, core, w.b.store + Window(w.b.sends), c);
    }
  }

  /** A re-key wedges the mirror iff it applies and carries an attestation, which only binds may. */
  lemma RekeyWedgesIff(w: World, j: nat, core: Core, own: Option<Shared>)
    requires j < |w.a.pq.log| && !w.b.wedged && InTwo(w.b.pq)
    ensures var v := ApplyRekey(w, j, core, own);
            var c := w.a.pq.log[j].message;
            var received := Receive(w.b.pq, core, w.b.store + CrossPsk(own), c);
            && (v.b.wedged <==> received.Ok? && Attestation(c.proposals) != Ok(None))
            && v.b.pq == (if received.Ok? then Moved(w.b.pq, received.value) else w.b.pq)
            && (received.Ok? ==> v.b.store.Keys == w.b.store.Keys - CrossPsk(own).Keys)
  {
    var c := w.a.pq.log[j].message;
    if Receive(w.b.pq, core, w.b.store + CrossPsk(own), c).Ok? {
      AcceptedIsPeers(w.b.pq, core, w.b.store + CrossPsk(own), c);
    }
  }

  /** No discharge under a stale reservation: if either half is off its reserved epoch, nothing is exported
      or committed and the half breaks. */
  lemma StaleReservationBreaks(w: World, owed: Owed, fold: Option<Leaf>, cross: Option<nat>, core: Core, path: Path)
    requires w.a.cl.Head().epoch + 1 != owed.attestation.tEpoch || w.a.pq.Head().epoch != owed.attestation.pqEpoch
    ensures TakeFull(w, owed, fold, cross, core, path) == w.(a := w.a.(broken := true))
  {
  }

  // ---- whole runs ----

  ghost predicate BothInTwo(w: World) {
    InTwo(w.b.cl) && InTwo(w.b.pq)
  }

  ghost predicate HalvesLater(w: World, v: World) {
    Later(w.b.cl, v.b.cl) && Later(w.b.pq, v.b.pq)
  }

  /** One bind, completed in one step: both commits are the other member's, attest alike, name the epochs the two
      halves are then at, and the PSK is that PQ epoch's own. */
  ghost predicate Completes(w: World, v: World, i: nat, j: nat) {
    && i < |w.a.cl.log| && j < |w.a.pq.log| && w.b.held.Some? && v.b.held.None? && !v.b.wedged
    && v.completed == w.completed + [Completed(i, j, ExportedFrom(v.b.pq.shared, APQ_COMPONENT_ID))]
    && v.b.pq.spent == {APQ_COMPONENT_ID}
    && var cl, pq := w.a.cl.log[i].message, w.a.pq.log[j].message;
       && MovedBy(w.b.cl, cl, v.b.cl) && Attests(cl, v.b.cl.shared.epoch, v.b.pq.shared.epoch)
       && MovedBy(w.b.pq, pq, v.b.pq) && Attests(pq, v.b.cl.shared.epoch, v.b.pq.shared.epoch)
  }

  lemma FullStep(w: World, i: nat, j: nat, offer: nat, core: Core)
    requires i < |w.a.cl.log| && j < |w.a.pq.log| && !w.b.wedged && BothInTwo(w)
    ensures var v := ApplyFull(w, i, j, offer, core);
            HalvesLater(w, v) && (v.completed == w.completed || Completes(w, v, i, j))
  {
    if w.a.cl.log[i].message.epoch == w.b.cl.shared.epoch && w.b.held.Some? {
      DueBindSettles(w, i, j, offer, core);
    } else {
      UndueBindWaits(w, i, j, offer, core);
    }
  }

  lemma PlainStep(w: World, i: nat, offer: nat, core: Core)
    requires i < |w.a.cl.log| && BothInTwo(w)
    ensures HalvesLater(w, ApplyPartial(w, i, offer, core)) && ApplyPartial(w, i, offer, core).completed == w.completed
  {
    var store := w.b.store + Window(w.b.sends);
    PlainCounts(w, i, offer, core);
    if Receive(w.b.cl, core, store, w.a.cl.log[i].message).Ok? {
      AcceptedIsPeers(w.b.cl, core, store, w.a.cl.log[i].message);
    }
  }

  lemma RekeyStep(w: World, j: nat, core: Core, own: Option<Shared>)
    requires j < |w.a.pq.log| && !w.b.wedged && BothInTwo(w)
    ensures HalvesLater(w, ApplyRekey(w, j, core, own)) && ApplyRekey(w, j, core, own).completed == w.completed
  {
    var store := w.b.store + CrossPsk(own);
    RekeyWedgesIff(w, j, core, own);
    if Receive(w.b.pq, core, store, w.a.pq.log[j].message).Ok? {
      AcceptedIsPeers(w.b.pq, core, store, w.a.pq.log[j].message);
    }
  }

  /** Every step, against any logs: the mirror's two halves stay two-party, and a bind completes only well. */
  lemma StepCompletesWell(w: World, step: Step)
    requires BothInTwo(w)
    ensures var v := Take(w, step);
            && HalvesLater(w, v)
            && (v.completed != w.completed ==>
                  && step.Deliver? && step.k < |w.wire| && w.wire[step.k].Frame? && w.wire[step.k].staple.Full?
                  && Completes(w, v, w.wire[step.k].staple.cl, w.wire[step.k].staple.pq))
  {
    if step.Deliver? {
      DeliveryCompletesWell(w, step.k, step.core, step.own);
    } else {
      OthersLeaveHalves(w, step);
    }
  }

  lemma OthersLeaveHalves(w: World, step: Step)
    requires !step.Deliver?
    ensures var v := Take(w, step);
            v.b.cl == w.b.cl && v.b.pq == w.b.pq && v.completed == w.completed
  {
  }

  lemma DeliveryCompletesWell(w: World, k: nat, core: Core, own: Option<Shared>)
    requires BothInTwo(w)
    ensures var v := TakeDeliver(w, k, core, own);
            && HalvesLater(w, v)
            && (v.completed != w.completed ==>
                  && k < |w.wire| && w.wire[k].Frame? && w.wire[k].staple.Full?
                  && Completes(w, v, w.wire[k].staple.cl, w.wire[k].staple.pq))
  {
    if !w.b.wedged && k < |w.wire| {
      match w.wire[k]
      case Frame(Birth, offer) =>
      case Frame(Partial(i), offer) => if i < |w.a.cl.log| { PlainStep(w, i, offer, core); }
      case Frame(Full(i, j), offer) => if i < |w.a.cl.log| && j < |w.a.pq.log| { FullStep(w, i, j, offer, core); }
      case RekeyFrame(j) => if j < |w.a.pq.log| { RekeyStep(w, j, core, own); }
    }
  }

  // ---- every run ----

  function BindEpoch(w: World, done: Completed): nat
    requires done.pq < |w.a.pq.log|
  {
    w.a.pq.log[done.pq].message.epoch
  }

  /** A completed bind, told from the logs: both commits attest the epochs they start, and its PSK is the one
      exported in the PQ epoch they name. */
  ghost predicate DoneWell(w: World, done: Completed) {
    && done.cl < |w.a.cl.log| && done.pq < |w.a.pq.log|
    && var cl, pq := w.a.cl.log[done.cl].message, w.a.pq.log[done.pq].message;
       && Attests(cl, cl.epoch + 1, pq.epoch + 1) && Attests(pq, cl.epoch + 1, pq.epoch + 1)
       && cl.epoch < w.b.cl.shared.epoch && pq.epoch < w.b.pq.shared.epoch
       && ExportedAt(done.exported, pq.epoch + 1)
  }

  /** The PSK is exported from a group at that epoch. */
  ghost predicate ExportedAt(e: ExportedPsk, epoch: nat) {
    exists g: Shared ::
      && g.epoch == epoch && g.secret.EpochSecret? && g.secret.context.epoch == epoch
      && e == ExportedFrom(g, APQ_COMPONENT_ID)
  }

  /** From the `n`-th on, every bind was completed well, each at a later PQ epoch than the ones before. */
  ghost predicate AllDoneWell(w: World, n: nat) {
    && (forall k :: n <= k < |w.completed| ==> DoneWell(w, w.completed[k]))
    && Rising(w, n)
  }

  ghost predicate Rising(w: World, n: nat) {
    && (forall k :: n <= k < |w.completed| ==> w.completed[k].pq < |w.a.pq.log|)
    && (forall j, k :: n <= j < k < |w.completed| ==>
          BindEpoch(w, w.completed[j]) < BindEpoch(w, w.completed[k]))
  }

  ghost predicate LogsGrow(w: World, v: World) {
    w.a.cl.log <= v.a.cl.log && w.a.pq.log <= v.a.pq.log
  }

  lemma CommitLogsGrow(w: World, fold: Option<Leaf>, core: Core, path: Path)
    ensures LogsGrow(w, TakeCommit(w, fold, core, path))
  {
    if !w.a.broken && w.a.owed.Some? {
      FullLogsGrow(BindCross(w), w.a.owed.value, fold, NextCross(w), core, path);
    }
  }

  lemma FullLogsGrow(w: World, owed: Owed, fold: Option<Leaf>, cross: Option<nat>, core: Core, path: Path)
    ensures LogsGrow(w, TakeFull(w, owed, fold, cross, core, path))
  {
  }

  lemma TriggerLogsGrow(w: World, core: Core, path: Path)
    ensures LogsGrow(w, TakeTrigger(w, core, path))
  {
  }

  lemma RekeyLogsGrow(w: World, leaf: Leaf, cross: Option<Shared>, core: Core, path: Path)
    ensures LogsGrow(w, TakeRekey(w, leaf, cross, core, path))
  {
  }

  lemma StepLogsGrow(w: World, step: Step)
    ensures LogsGrow(w, Take(w, step))
  {
    match step
    case Trigger(core, path) => TriggerLogsGrow(w, core, path);
    case Rekey(leaf, cross, core, path) => RekeyLogsGrow(w, leaf, cross, core, path);
    case CommitClassical(fold, core, path) => CommitLogsGrow(w, fold, core, path);
    case Deliver(k, core, own) => assert TakeDeliver(w, k, core, own).a == w.a;
    case _ =>
  }

  lemma DoneStays(w: World, v: World, done: Completed)
    requires DoneWell(w, done) && LogsGrow(w, v) && HalvesLater(w, v)
    ensures DoneWell(v, done) && BindEpoch(v, done) == BindEpoch(w, done)
  {
    assert v.a.cl.log[done.cl] == w.a.cl.log[done.cl] && v.a.pq.log[done.pq] == w.a.pq.log[done.pq];
  }

  lemma DoneNext(w: World, v: World, i: nat, j: nat)
    requires Completes(w, v, i, j) && LogsGrow(w, v)
    ensures var done := v.completed[|w.completed|];
            DoneWell(v, done) && BindEpoch(v, done) == w.b.pq.shared.epoch
  {
    assert v.a.cl.log[i] == w.a.cl.log[i] && v.a.pq.log[j] == w.a.pq.log[j];
    assert ExportedAt(v.completed[|w.completed|].exported, v.b.pq.shared.epoch);
  }

  /** Over every run from a two-party mirror, whatever the logs held at its start: every bind it completes was
      completed well, and no commit completes a bind twice. */
  lemma {:induction false} RunCompletesWell(w: World, steps: seq<Step>)
    requires BothInTwo(w)
    ensures BothInTwo(Run(w, steps)) && |w.completed| <= |Run(w, steps).completed|
    ensures AllDoneWell(Run(w, steps), |w.completed|)
  {
    if steps != [] {
      var before, last := Run(w, steps[..|steps| - 1]), steps[|steps| - 1];
      RunCompletesWell(w, steps[..|steps| - 1]);
      AllDoneStep(before, last, |w.completed|);
    }
  }

  /** What a step leaves of the completed binds: those there were, and perhaps one at the PQ epoch it left. */
  ghost predicate DoneGrows(w: World, v: World) {
    && w.completed <= v.completed && |v.completed| <= |w.completed| + 1
    && (|v.completed| > |w.completed| ==>
          && DoneWell(v, v.completed[|w.completed|])
          && BindEpoch(v, v.completed[|w.completed|]) == w.b.pq.shared.epoch)
  }

  lemma AllStay(w: World, v: World, n: nat, k: nat)
    requires AllDoneWell(w, n) && LogsGrow(w, v) && HalvesLater(w, v) && DoneGrows(w, v)
    requires n <= k < |v.completed|
    ensures DoneWell(v, v.completed[k])
  {
    if k < |w.completed| {
      DoneStays(w, v, w.completed[k]);
    }
  }

  lemma BindEpochStays(w: World, v: World, done: Completed)
    requires done.pq < |w.a.pq.log| && w.a.pq.log <= v.a.pq.log
    ensures done.pq < |v.a.pq.log| && BindEpoch(v, done) == BindEpoch(w, done)
  {
    assert v.a.pq.log[done.pq] == w.a.pq.log[done.pq];
  }

  lemma EarlierEpoch(w: World, done: Completed)
    requires DoneWell(w, done)
    ensures BindEpoch(w, done) < w.b.pq.shared.epoch
  {
  }

  lemma RisingStays(w: World, v: World, n: nat, j: nat, k: nat)
    requires Rising(w, n) && w.a.pq.log <= v.a.pq.log && w.completed <= v.completed && n <= j < k < |v.completed|
    requires |v.completed| <= |w.completed| + 1 && BindEpoch(w, w.completed[j]) < w.b.pq.shared.epoch
    requires k == |w.completed| ==>
               v.completed[k].pq < |v.a.pq.log| && BindEpoch(v, v.completed[k]) == w.b.pq.shared.epoch
    ensures v.completed[j].pq < |v.a.pq.log| && v.completed[k].pq < |v.a.pq.log|
    ensures BindEpoch(v, v.completed[j]) < BindEpoch(v, v.completed[k])
  {
    BindEpochStays(w, v, w.completed[j]);
    if k < |w.completed| {
      BindEpochStays(w, v, w.completed[k]);
    }
  }

  lemma AllDoneStays(w: World, v: World, n: nat)
    requires AllDoneWell(w, n) && LogsGrow(w, v) && HalvesLater(w, v) && DoneGrows(w, v)
    ensures AllDoneWell(v, n)
  {
    forall k | n <= k < |v.completed| ensures DoneWell(v, v.completed[k]) && v.completed[k].pq < |v.a.pq.log| {
      AllStay(w, v, n, k);
    }
    forall j, k | n <= j < k < |v.completed|
      ensures BindEpoch(v, v.completed[j]) < BindEpoch(v, v.completed[k])
    {
      EarlierEpoch(w, w.completed[j]);
      RisingStays(w, v, n, j, k);
    }
  }

  lemma AllDoneStep(w: World, step: Step, n: nat)
    requires BothInTwo(w) && AllDoneWell(w, n) && n <= |w.completed|
    ensures var v := Take(w, step);
            BothInTwo(v) && AllDoneWell(v, n) && |w.completed| <= |v.completed|
  {
    var v := Take(w, step);
    StepCompletesWell(w, step);
    StepLogsGrow(w, step);
    if v.completed != w.completed {
      DoneNext(w, v, w.wire[step.k].staple.cl, w.wire[step.k].staple.pq);
    }
    AllDoneStays(w, v, n);
  }
}
