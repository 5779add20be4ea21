/** What each step of a direction comes to, told over `Take` itself: when it goes through, and what it then
    leaves. */
module Steps {
  import opened Prelude
  import opened KeySchedule
  import opened Proposals
  import opened Component
  import opened Mls
  import opened Ratchet
  import opened History
  import opened Replicas
  import opened Invariant
  import opened OwnerSteps
  import opened Deliveries
  import opened Progress

  // ---- the owner's classical commits ----

  /** A leaf may move, or there is none to move. */
  predicate FoldAllowed(g: Shared, core: Core, fold: Option<Leaf>) {
    fold.Some? ==> LeafMoveAllowed(g.roster, core, MIRROR, fold.value)
  }

  /** What a classical commit leaves besides its log entry: its frame on the wire under its staple, the
      state it bound recorded, and the watermark on it. */
  ghost predicate CommittedAs(w: World, v: World, staple: Carried) {
    && |v.a.cl.log| == |w.a.cl.log| + 1 && w.a.cl.log <= v.a.cl.log
    && v.a.pq == w.a.pq && v.b == w.b && v.replies == w.replies && v.completed == w.completed
    && v.a.owed.None? && !v.a.broken && v.a.offer == w.a.offer && v.a.round == w.a.round && v.a.rounds == w.a.rounds
    && v.a.seen == w.a.seen && v.a.bound == Some(w.a.seen)
    && v.a.crosses == w.a.crosses + [if w.a.bound == Some(w.a.seen) then None else Some(w.a.seen)]
    && v.a.staple == staple && v.wire == w.wire + [Frame(staple, w.a.seen)]
  }

  /** A discharge: through iff the epoch has room and both leaves may move; then it carries exactly the owed
      bind, owes nothing more and has spent the leaf; failing, it breaks the half for good. */
  ghost predicate Discharged(w: World, v: World, fold: Option<Leaf>, core: Core, path: Path)
    requires w.a.owed.Some?
  {
    var g := w.a.cl.Head();
    && (|v.a.cl.log| > |w.a.cl.log| <==>
          && g.epoch < EPOCH_UNBOUND - 1 && FoldAllowed(g, core, fold)
          && LeafMoveAllowed(g.roster, core, OWNER, path.leaf))
    && (|v.a.cl.log| > |w.a.cl.log| ==>
          && CommittedAs(w, v, Full(|w.a.cl.log|, w.a.owed.value.pq))
          && v.a.cl.log[|w.a.cl.log|].path == path
          && v.a.cl.log[|w.a.cl.log|].bundle ==
             FullBundle(fold, StateAt(w.b.sends, NextCross(w)), w.a.owed.value.attestation, OwedPsk(w.a))
          && v.a.spent == w.a.spent + {APQ_COMPONENT_ID})
    && (|v.a.cl.log| <= |w.a.cl.log| ==> v.a.broken && v.a.cl == w.a.cl && v.wire == w.wire)
  }

  lemma FullLeaves(w: World, bound: World, fold: Option<Leaf>, core: Core, path: Path)
    requires Inv(bound) && !bound.a.broken && bound.a.owed.Some? && bound.a.bound == Some(bound.a.seen)
    requires bound == w.(a := w.a.(store := bound.a.store, bound := bound.a.bound), exports := bound.exports)
    requires NextCross(w) == if w.a.bound == Some(w.a.seen) then None else Some(w.a.seen)
    ensures var v := TakeFull(bound, w.a.owed.value, fold, NextCross(w), core, path);
            && (|v.a.cl.log| > |w.a.cl.log| ==>
                  && CommittedAs(w, v, Full(|w.a.cl.log|, w.a.owed.value.pq))
                  && v.a.cl.log[|w.a.cl.log|].path == path
                  && v.a.cl.log[|w.a.cl.log|].bundle ==
                     FullBundle(fold, StateAt(w.b.sends, NextCross(w)), w.a.owed.value.attestation, OwedPsk(w.a))
                  && v.a.spent == w.a.spent + {APQ_COMPONENT_ID})
            && (|v.a.cl.log| <= |w.a.cl.log| ==> v.a.broken && v.a.cl == w.a.cl && v.wire == w.wire)
  {
    DischargeReaches(bound);
  }

  lemma BindCrossMarks(w: World)
    requires EvidenceOk(w)
    ensures BindCross(w).a.bound == Some(w.a.seen)
    ensures NextCross(w) == if w.a.bound == Some(w.a.seen) then None else Some(w.a.seen)
  {
  }

  lemma BoundDischarges(w: World, fold: Option<Leaf>, core: Core, path: Path)
    requires Inv(w) && !w.a.broken && w.a.owed.Some?
    ensures Discharged(w, TakeFull(BindCross(w), w.a.owed.value, fold, NextCross(w), core, path), fold, core, path)
  {
    BindCrossKeeps(w);
    BindCrossMarks(w);
    DischargeCommitsIff(BindCross(w), fold, NextCross(w), core, path);
    FullLeaves(w, BindCross(w), fold, core, path);
  }

  lemma CommitDispatch(w: World, fold: Option<Leaf>, core: Core, path: Path)
    requires !w.a.broken
    ensures Take(w, CommitClassical(fold, core, path)) ==
            if w.a.owed.Some? then TakeFull(BindCross(w), w.a.owed.value, fold, NextCross(w), core, path)
            else TakePartial(BindCross(w), fold, NextCross(w), core, path)
  {
  }

  /** While a bind is owed, a classical commit is its discharge. */
  lemma CommitDischarges(w: World, fold: Option<Leaf>, core: Core, path: Path)
    requires Inv(w) && !w.a.broken && w.a.owed.Some?
    ensures Discharged(w, Take(w, CommitClassical(fold, core, path)), fold, core, path)
  {
    CommitDispatch(w, fold, core, path);
    BoundDischarges(w, fold, core, path);
  }

  /** A PARTIAL: through iff the epoch has room, the folded leaf may move and, unless it carries a PSK alone,
      so may the owner's; it folds and binds exactly those. */
  ghost predicate CommittedPlain(w: World, v: World, fold: Option<Leaf>, core: Core, path: Path) {
    var g := w.a.cl.Head();
    && (|v.a.cl.log| > |w.a.cl.log| <==>
          && g.epoch < EPOCH_UNBOUND - 1 && FoldAllowed(g, core, fold)
          && (fold.Some? || NextCross(w).None? ==> LeafMoveAllowed(g.roster, core, OWNER, path.leaf)))
    && (|v.a.cl.log| > |w.a.cl.log| ==>
          && CommittedAs(w, v, Partial(|w.a.cl.log|))
          && v.a.cl.log[|w.a.cl.log|].bundle == PartialBundle(fold, StateAt(w.b.sends, NextCross(w)))
          && v.a.spent == w.a.spent)
    && (|v.a.cl.log| <= |w.a.cl.log| ==> v.a.cl == w.a.cl && v.wire == w.wire && !v.a.broken)
  }

  lemma PartialLeaves(w: World, bound: World, fold: Option<Leaf>, core: Core, path: Path)
    requires !w.a.broken && w.a.owed.None? && bound.a.bound == Some(bound.a.seen)
    requires bound == w.(a := w.a.(store := bound.a.store, bound := bound.a.bound), exports := bound.exports)
    requires NextCross(w) == if w.a.bound == Some(w.a.seen) then None else Some(w.a.seen)
    ensures var v := TakePartial(bound, fold, NextCross(w), core, path);
            && (|v.a.cl.log| > |w.a.cl.log| ==>
                  && CommittedAs(w, v, Partial(|w.a.cl.log|))
                  && v.a.cl.log[|w.a.cl.log|].bundle == PartialBundle(fold, StateAt(w.b.sends, NextCross(w)))
                  && v.a.spent == w.a.spent)
            && (|v.a.cl.log| <= |w.a.cl.log| ==> v.a.cl == w.a.cl && v.wire == w.wire && !v.a.broken)
  {
  }

  lemma BoundCommitsPlain(w: World, fold: Option<Leaf>, core: Core, path: Path)
    requires Inv(w) && !w.a.broken && w.a.owed.None?
    ensures CommittedPlain(w, TakePartial(BindCross(w), fold, NextCross(w), core, path), fold, core, path)
  {
    BindCrossKeeps(w);
    BindCrossMarks(w);
    PartialCommitsIff(BindCross(w), fold, NextCross(w), core, path);
    PartialLeaves(w, BindCross(w), fold, core, path);
  }

  /** With nothing owed, a classical commit is a PARTIAL. */
  lemma CommitIsPartial(w: World, fold: Option<Leaf>, core: Core, path: Path)
    requires Inv(w) && !w.a.broken && w.a.owed.None?
    ensures CommittedPlain(w, Take(w, CommitClassical(fold, core, path)), fold, core, path)
  {
    CommitDispatch(w, fold, core, path);
    BoundCommitsPlain(w, fold, core, path);
  }

  lemma BrokenCommitsNothing(w: World, step: Step)
    requires w.a.broken && (step.CommitClassical? || step.Trigger? || step.Rekey? || step.Begin? || step.Open?)
    ensures Take(w, step) == w
  {
  }

  // ---- the owner's PQ commits ----

  /** The trigger goes through iff a secret is opened, nothing is owed and both epochs have room; it then
      injects exactly that secret, owes its classical half at both next epochs and starts with every
      exporter leaf fresh. When the epoch has no room it drops the secret. */
  ghost predicate Triggered(w: World, v: World) {
    && (|v.a.pq.log| > |w.a.pq.log| <==> CanTrigger(w.a) && w.a.pq.Head().epoch < EPOCH_UNBOUND - 1)
    && (|v.a.pq.log| > |w.a.pq.log| ==>
          && |v.a.pq.log| == |w.a.pq.log| + 1 && w.a.pq.log <= v.a.pq.log
          && Binds(v.a.pq.log[|w.a.pq.log|]) && Some(InjectedInto(v.a.pq.log[|w.a.pq.log|])) == w.a.offer
          && v.a.owed == Some(Owed(|w.a.pq.log|, ApqInfoUpdate(w.a.cl.Head().epoch + 1, w.a.pq.Head().epoch + 1)))
          && v == w.(a := w.a.(pq := v.a.pq, spent := {}, store := v.a.store, offer := None, owed := v.a.owed)))
    && (|v.a.pq.log| <= |w.a.pq.log| && CanTrigger(w.a) ==> v.a.offer.None? && v.a.pq == w.a.pq && v.a.owed.None?)
    && (!CanTrigger(w.a) ==> v == w)
  }

  lemma TriggerGoes(w: World, v: World, e: Entry)
    requires w.a.offer.Some? && Grown(w.a.pq, e) && CanTrigger(w.a) && w.a.pq.Head().epoch < EPOCH_UNBOUND - 1
    requires v.a.owed.Some? && v.a.owed.value.pq == |w.a.pq.log|
    requires IsBindOf(e, v.a.owed.value.attestation) && e.store[InjectedRef(e.pre)] == w.a.offer.value
    requires v.a.owed.value.attestation.tEpoch == w.a.cl.Head().epoch + 1
    requires v == w.(a := w.a.(pq := Append(w.a.pq, e), spent := {}, store := w.a.store - {InjectedRef(e.pre)},
                               offer := None, owed := v.a.owed))
    ensures Triggered(w, v)
  {
    assert v.a.pq.log[|w.a.pq.log|] == e;
    assert e.post.epoch == w.a.pq.Head().epoch + 1;
  }

  lemma TriggerInjects(w: World, core: Core, path: Path)
    requires Inv(w)
    ensures Triggered(w, Take(w, Trigger(core, path)))
  {
    TriggerCommitsIff(w, core, path);
    if |TakeTrigger(w, core, path).a.pq.log| > |w.a.pq.log| {
      var e := TriggerAppends(w, core, path);
      TriggerGoes(w, TakeTrigger(w, core, path), e);
    } else {
      TriggerStalls(w, core, path);
    }
  }

  lemma TriggerStalls(w: World, core: Core, path: Path)
    requires |TakeTrigger(w, core, path).a.pq.log| <= |w.a.pq.log|
    ensures var v := TakeTrigger(w, core, path);
            && (CanTrigger(w.a) ==> v.a.offer.None? && v.a.pq == w.a.pq && v.a.owed.None?)
            && (!CanTrigger(w.a) ==> v == w)
  {
  }

  /** A re-key goes through iff nothing is owed, the epoch has room and both leaves may move; it then folds
      exactly the mirror's leaf, binds exactly the given state's PSK and is sent. */
  lemma RekeyCommits(w: World, leaf: Leaf, cross: Option<Shared>, core: Core, path: Path)
    requires Inv(w)
    ensures var v := Take(w, Rekey(leaf, cross, core, path));
            var g := w.a.pq.Head();
            && (|v.a.pq.log| > |w.a.pq.log| <==>
                  && !w.a.broken && w.a.owed.None? && g.epoch < EPOCH_UNBOUND - 1
                  && LeafMoveAllowed(g.roster, core, MIRROR, leaf) && LeafMoveAllowed(g.roster, core, OWNER, path.leaf))
            && (|v.a.pq.log| > |w.a.pq.log| ==>
                  && |v.a.pq.log| == |w.a.pq.log| + 1
                  && v.a.pq.log[|w.a.pq.log|].bundle == PartialBundle(Some(leaf), cross)
                  && v == w.(a := w.a.(pq := v.a.pq, spent := {}, store := v.a.store),
                             wire := w.wire + [RekeyFrame(|w.a.pq.log|)]))
  {
    RekeyCommitsIff(w, leaf, cross, core, path);
    if |TakeRekey(w, leaf, cross, core, path).a.pq.log| > |w.a.pq.log| {
      var e := RekeyAppends(w, leaf, cross, core, path);
      assert TakeRekey(w, leaf, cross, core, path).a.pq.log[|w.a.pq.log|] == e;
    }
  }

  // ---- rounds and the mirror's own group ----

  /** A round opens iff none is in flight, opened or owed, under a number never used. */
  lemma BeginOpensRound(w: World)
    ensures var v := Take(w, Begin);
            if !w.a.broken && w.a.round.None? && w.a.offer.None? && w.a.owed.None? then
              v == w.(a := w.a.(round := Some(w.a.rounds), rounds := w.a.rounds + 1))
            else v == w
    ensures Inv(w) ==> w.a.rounds !in w.b.answered
  {
  }

  /** A round is answered iff it was opened, has no answer and the mirror holds none; the mirror then holds
      the answer, and a sealed reply is locked to the PQ half it has. */
  lemma RespondAnswers(w: World, round: nat, answer: Answer)
    ensures var v := Take(w, Respond(round, answer));
            if !w.b.wedged && round < w.a.rounds && round !in w.b.answered && w.b.held.None? then
              && v.b.held == Some(AnswerSecret(answer)) && v.b.answered == w.b.answered[round := AnswerSecret(answer)]
              && |v.replies| == |w.replies| + 1 && w.replies <= v.replies
              && v.replies[|w.replies|] ==
                 (match answer
                  case Sealing(s) => Sealed(round, Derived(w.b.pq.shared.secret, SealLabel), s)
                  case Committing(g) => Committed(round, g))
              && v == w.(b := w.b.(held := v.b.held, answered := v.b.answered), replies := v.replies)
            else v == w
    ensures answer.Committing? ==>
              AnswerSecret(answer) == Derived(ExporterLeaf(answer.group.secret, 0xFF02), PskLabel)
  {
  }

  /** A reply is opened iff it answers the round in flight and, when sealed, is locked to the PQ half as the
      owner has it. */
  lemma OpenTakesReply(w: World, k: nat)
    ensures var v := Take(w, Open(k));
            if && !w.a.broken && w.a.owed.None? && k < |w.replies| && w.a.round == Some(w.replies[k].round)
               && (w.replies[k].Sealed? ==> w.replies[k].lock == Derived(w.a.pq.Head().secret, SealLabel)) then
              && v.a.offer.Some? && v.a.offer.value == ReplySecret(w.replies[k])
              && v == w.(a := w.a.(round := None, offer := v.a.offer))
            else v == w
  {
  }

  /** The mirror's own group moves iff the owner has proved to be at its newest state and the new one is
      next; its PSK's leaf is spent with it. */
  lemma MirrorCommitMoves(w: World, next: Shared)
    requires w.b.sends != []
    ensures var v := Take(w, MirrorCommit(next));
            var newest := |w.b.sends| - 1;
            if w.b.applied == Some(newest) && next.epoch == w.b.sends[newest].epoch + 1 then
              v == w.(b := w.b.(sends := w.b.sends + [next]),
                      exports := w.exports + [Export(MIRROR, 0xFF02, next.epoch)])
            else v == w
  {
  }

  /** The owner applies the mirror's states one by one, in order, and never past the newest. */
  lemma ObserveAdvances(w: World)
    ensures var v := Take(w, Observe);
            && v == w.(a := w.a.(seen := v.a.seen))
            && v.a.seen == if w.a.seen + 1 < |w.b.sends| then w.a.seen + 1 else w.a.seen
  {
  }

  lemma ResendRepeats(w: World)
    ensures Take(w, Resend) == w.(wire := w.wire + [Frame(w.a.staple, w.a.seen)])
  {
  }

  // ---- deliveries ----

  /** A delivery comes to its outcome; a wedged mirror and an unsent message come to nothing. */
  lemma DeliverIsOutcome(w: World, k: nat, core: Core, own: Option<Shared>)
    requires Inv(w)
    ensures Take(w, Deliver(k, core, own)) ==
            if w.b.wedged || k >= |w.wire| then w else Outcome(w, w.wire[k], core, own)
  {
    if !w.b.wedged && k < |w.wire| {
      DeliverHasOutcome(w, k, core, own);
    }
  }

  /** A processed frame proves the newest state applied iff that is what it offers. */
  lemma FrameProves(w: World, offer: nat)
    ensures Noted(w, offer).b.applied == if offer + 1 == |w.b.sends| then Some(offer) else w.b.applied
  {
  }
}
