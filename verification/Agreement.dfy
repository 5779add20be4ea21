/** What every run of one direction guarantees: the mirror never leaves the owner's path, every
    completed bind exports the same PSK on both sides, injected secrets are the rounds' answers,
    reach the message group and stay there, the mirror's ledger is never outrun, and no exporter
    leaf is spent twice. */
module Agreement {
  import opened Prelude
  import opened KeySchedule
  import opened Proposals
  import opened Component
  import opened Mls
  import opened Ratchet
  import opened History
  import opened Replicas
  import opened Invariant
  import opened OwnerSteps
  import opened Deliveries

  // ---- agreement ----

  /** Each of the mirror's halves is at a state the owner's half was in, and whenever epochs are equal
      everything shared is: roster, extensions and epoch secret. */
  ghost predicate HalvesAgree(v: World) {
    && v.a.cl.Passed(v.b.cl.shared) && v.a.pq.Passed(v.b.pq.shared)
    && v.b.cl.shared.epoch <= v.a.cl.Head().epoch && v.b.pq.shared.epoch <= v.a.pq.Head().epoch
    && (v.b.cl.shared.epoch == v.a.cl.Head().epoch ==> v.b.cl.shared == v.a.cl.Head())
    && (v.b.pq.shared.epoch == v.a.pq.Head().epoch ==> v.b.pq.shared == v.a.pq.Head())
  }

  lemma NeverAhead(h: History, g: Shared)
    requires h.Linked() && h.Passed(g)
    ensures g.epoch <= h.Head().epoch && (g.epoch == h.Head().epoch ==> g == h.Head())
  {
    var i :| 0 <= i <= |h.log| && g == h.At(i);
    PositionsAreEpochs(h, i);
    PositionsAreEpochs(h, |h.log|);
  }

  lemma GroupsAgree(v: World)
    requires GroupsOk(v)
    ensures HalvesAgree(v)
  {
    NeverAhead(v.a.cl, v.b.cl.shared);
    NeverAhead(v.a.pq, v.b.pq.shared);
  }

  lemma ReplicasAgree(w: World, steps: seq<Step>)
    requires Inv(w)
    ensures HalvesAgree(Run(w, steps))
  {
    RunKeeps(w, steps);
    GroupsAgree(Run(w, steps));
  }

  /** A completed round: the mirror exported the owner's very PSK, the owner's commit names it, and
      both commits attest exactly the two epochs they opened. */
  ghost predicate RoundMatches(v: World, x: Completed) {
    && x.cl < |v.a.cl.log| && x.pq < |v.a.pq.log|
    && var e, p := v.a.cl.log[x.cl], v.a.pq.log[x.pq];
       && x.exported == ExportedFrom(p.post, APQ_COMPONENT_ID)
       && ProposalInfo(Psk(StorageId(x.exported)), Member(OWNER)) in e.bundle
       && Attestation(e.bundle) == Ok(Some(ApqInfoUpdate(e.post.epoch, p.post.epoch)))
       && Attestation(p.bundle) == Attestation(e.bundle)
  }

  lemma CompletedMatches(v: World, x: Completed)
    requires CompletedHolds(v, x)
    ensures RoundMatches(v, x)
  {
    var e, p := v.a.cl.log[x.cl], v.a.pq.log[x.pq];
    BindAttestation(p.pre, ApqInfoUpdate(e.post.epoch, p.post.epoch));
  }

  lemma SameExportEveryRound(w: World, steps: seq<Step>)
    requires Inv(w)
    ensures forall x :: x in Run(w, steps).completed ==> RoundMatches(Run(w, steps), x)
  {
    RunKeeps(w, steps);
    forall x | x in Run(w, steps).completed ensures RoundMatches(Run(w, steps), x) {
      CompletedMatches(Run(w, steps), x);
    }
  }

  // ---- entropy ----

  lemma BindReaches(e: Entry, p: Entry)
    requires e.Sound() && p.Sound()
    requires Binds(p) && ProposalInfo(Psk(InjectedRef(p.pre)), Member(OWNER)) in p.bundle
    requires AllGenuine(e.store)
    requires ProposalInfo(Psk(StorageId(ExportedFrom(p.post, APQ_COMPONENT_ID))), Member(OWNER)) in e.bundle
    ensures Contains(e.post.secret, InjectedInto(p))
  {
    var apq := ExportedFrom(p.post, APQ_COMPONENT_ID);
    var leaf := ExporterLeaf(p.post.secret, APQ_COMPONENT_ID);
    CommitAbsorbs(p, ProposalInfo(Psk(InjectedRef(p.pre)), Member(OWNER)));
    CommitAbsorbs(e, ProposalInfo(Psk(StorageId(apq)), Member(OWNER)));
    assert Genuine(StorageId(apq), e.store[StorageId(apq)]);
    assert Contains(leaf, InjectedInto(p));
    assert Contains(apq.psk, leaf);
    ContainsIsTransitive(apq.psk, leaf, InjectedInto(p));
    ContainsIsTransitive(e.post.secret, apq.psk, InjectedInto(p));
  }

  /** What a commit's epoch absorbed is in the writer's head and in every later state it passed. */
  lemma AbsorbedForGood(h: History, i: nat, x: Secret, g: Shared)
    requires h.Linked() && i < |h.log| && Contains(h.log[i].post.secret, x) && h.Passed(g)
    ensures Contains(h.Head().secret, x)
    ensures g.epoch > h.log[i].pre.epoch ==> Contains(g.secret, x)
  {
    assert h.LinkedAt(i) && h.At(i + 1) == h.log[i].post;
    EntropyIsKept(h, i + 1, |h.log|, x);
    var m :| 0 <= m <= |h.log| && g == h.At(m);
    PositionsAreEpochs(h, m);
    PositionsAreEpochs(h, i);
    if m > i {
      EntropyIsKept(h, i + 1, m, x);
    }
  }

  lemma SentBindReaches(w: World, i: nat, j: nat)
    requires Inv(w) && SentFull(w.a, w.b.sends, i, j)
    ensures Contains(w.a.cl.log[i].post.secret, InjectedInto(w.a.pq.log[j]))
  {
    var e, p := w.a.cl.log[i], w.a.pq.log[j];
    assert e.Sound() && p.Sound();
    assert p.bundle[0] == ProposalInfo(Psk(InjectedRef(p.pre)), Member(OWNER));
    BindReaches(e, p);
  }

  /** The secret of the bind in a frame is in the owner's message group from that commit on, and in the
      mirror's as soon as the mirror is past it. Nothing that comes later removes it. */
  ghost predicate BindReached(v: World, m: Message) {
    m.Frame? && m.staple.Full? ==>
      && m.staple.cl < |v.a.cl.log| && m.staple.pq < |v.a.pq.log| && Binds(v.a.pq.log[m.staple.pq])
      && Contains(v.a.cl.Head().secret, InjectedInto(v.a.pq.log[m.staple.pq]))
      && (v.b.cl.shared.epoch > v.a.cl.log[m.staple.cl].pre.epoch ==>
            Contains(v.b.cl.shared.secret, InjectedInto(v.a.pq.log[m.staple.pq])))
  }

  lemma SentMessageReaches(v: World, k: nat)
    requires Inv(v) && k < |v.wire|
    ensures BindReached(v, v.wire[k])
  {
    var m := v.wire[k];
    assert Sent(v.a, v.b.sends, v.wire[k]);
    if m.Frame? && m.staple.Full? {
      SentBindReaches(v, m.staple.cl, m.staple.pq);
      AbsorbedForGood(v.a.cl, m.staple.cl, InjectedInto(v.a.pq.log[m.staple.pq]), v.b.cl.shared);
    }
  }

  lemma EntropyReachesMessages(w: World, steps: seq<Step>)
    requires Inv(w)
    ensures forall m :: m in Run(w, steps).wire ==> BindReached(Run(w, steps), m)
  {
    RunKeeps(w, steps);
    var v := Run(w, steps);
    forall m | m in v.wire ensures BindReached(v, m) {
      var k :| 0 <= k < |v.wire| && v.wire[k] == m;
      SentMessageReaches(v, k);
    }
  }

  /** What was in the message group at the start, the establishment `apq_psk` among it, is in both
      copies for good. */
  lemma BaseEntropyStays(w: World, steps: seq<Step>, x: Secret)
    requires Inv(w) && Contains(w.a.cl.base.secret, x)
    ensures Contains(Run(w, steps).a.cl.Head().secret, x) && Contains(Run(w, steps).b.cl.shared.secret, x)
  {
    RunKeeps(w, steps);
    BaseKept(Run(w, steps), x);
  }

  lemma BaseKept(v: World, x: Secret)
    requires GroupsOk(v) && Contains(v.a.cl.base.secret, x)
    ensures Contains(v.a.cl.Head().secret, x) && Contains(v.b.cl.shared.secret, x)
  {
    EntropyIsKept(v.a.cl, 0, |v.a.cl.log|, x);
    var m :| 0 <= m <= |v.a.cl.log| && v.b.cl.shared == v.a.cl.At(m);
    EntropyIsKept(v.a.cl, 0, m, x);
  }

  // ---- leaves, stores and the ledger ----

  /** No exporter leaf is spent twice, the PQ half's by either party or the cross-party ones of the
      mirror's send group, and no store holds any injected secret. */
  ghost predicate SpentOnceAndWiped(v: World) {
    && (forall i, j :: 0 <= i < j < |v.exports| ==> v.exports[i] != v.exports[j])
    && (forall g: Shared :: InjectedRef(g) !in v.a.store && InjectedRef(g) !in v.b.store)
  }

  lemma LeavesSpentOnceSecretsWiped(w: World, steps: seq<Step>)
    requires Inv(w)
    ensures SpentOnceAndWiped(Run(w, steps))
  {
    RunKeeps(w, steps);
    SpentOnce(Run(w, steps));
  }

  lemma SpentOnce(v: World)
    requires ExportsOk(v) && StoresOk(v)
    ensures SpentOnceAndWiped(v)
  {
  }

  /** Every commit that has not reached the mirror binds one of the two newest states of the mirror's
      send group, so its PSK is still in the ledger of eight. */
  ghost predicate LedgerSuffices(v: World) {
    forall i: nat :: Outstanding(v, i) && i < |v.a.crosses| && v.a.crosses[i].Some? ==>
      var k := v.a.crosses[i].value;
      k < |v.b.sends| <= k + 2 && StorageId(CrossOf(v.b.sends[k])) in Window(v.b.sends)
  }

  lemma LedgerNeverOutrun(w: World, steps: seq<Step>)
    requires Inv(w)
    ensures LedgerSuffices(Run(w, steps))
  {
    RunKeeps(w, steps);
    EvidenceSuffices(Run(w, steps));
  }

  lemma EvidenceSuffices(v: World)
    requires EvidenceOk(v)
    ensures LedgerSuffices(v)
  {
    forall i: nat | Outstanding(v, i) && i < |v.a.crosses| && v.a.crosses[i].Some?
      ensures var k := v.a.crosses[i].value;
              k < |v.b.sends| <= k + 2 && StorageId(CrossOf(v.b.sends[k])) in Window(v.b.sends)
    {
      EvidenceBoundsLag(v, i);
      WindowHolds(v.b.sends, v.a.crosses[i].value);
    }
  }

  // ---- both parties agree on every injected secret ----

  /** The owner's opened secret is the one the mirror holds, however replies were lost or replayed. */
  lemma OpenedIsHeld(w: World, steps: seq<Step>)
    requires Inv(w)
    ensures var v := Run(w, steps); !v.b.wedged && v.a.offer.Some? ==> v.b.held == v.a.offer
  {
    RunKeeps(w, steps);
    SecretsAgree(Run(w, steps));
  }

  lemma SecretsAgree(v: World)
    requires SecretOk(v)
    ensures !v.b.wedged && v.a.offer.Some? ==> v.b.held == v.a.offer
  {
  }

  /** `s` is what some step of the run answered round `r` with. */
  ghost predicate Answered(steps: seq<Step>, r: nat, s: Secret) {
    exists answer :: Respond(r, answer) in steps && s == AnswerSecret(answer)
  }

  ghost predicate InjectsAnswer(w: World, s: Secret) {
    exists r :: r in w.b.answered && w.b.answered[r] == s
  }

  ghost predicate SecretsFromAnswers(w: World) {
    && (w.a.offer.Some? ==> InjectsAnswer(w, w.a.offer.value))
    && (forall j :: 0 <= j < |w.a.pq.log| && Binds(w.a.pq.log[j]) ==> InjectsAnswer(w, InjectedInto(w.a.pq.log[j])))
  }

  ghost predicate AnswersFrom(w: World, steps: seq<Step>) {
    forall r :: r in w.b.answered ==> Answered(steps, r, w.b.answered[r])
  }

  /** How a step may change the owner's PQ log, the offer and the answers. */
  ghost predicate InjectsOffer(w: World, v: World) {
    && w.a.pq.log <= v.a.pq.log
    && (v.a.offer.Some? ==> v.a.offer == w.a.offer || InjectsAnswer(w, v.a.offer.value))
    && (forall j :: |w.a.pq.log| <= j < |v.a.pq.log| && Binds(v.a.pq.log[j]) ==>
          w.a.offer == Some(InjectedInto(v.a.pq.log[j])))
    && (forall r :: r in w.b.answered ==> r in v.b.answered && v.b.answered[r] == w.b.answered[r])
  }

  lemma TriggerInjectsOffer(w: World, core: Core, path: Path)
    requires Inv(w)
    ensures InjectsOffer(w, TakeTrigger(w, core, path))
  {
    if |TakeTrigger(w, core, path).a.pq.log| > |w.a.pq.log| {
      var e := TriggerAppends(w, core, path);
    } else {
      TriggerDropsOffer(w, core, path);
    }
  }

  lemma RekeyInjectsNothing(w: World, leaf: Leaf, cross: Option<Shared>, core: Core, path: Path)
    requires Inv(w)
    ensures InjectsOffer(w, TakeRekey(w, leaf, cross, core, path))
  {
    if |TakeRekey(w, leaf, cross, core, path).a.pq.log| > |w.a.pq.log| {
      var e := RekeyAppends(w, leaf, cross, core, path);
      StoreGenuine(w.a.store, cross);
    } else {
      RekeyFails(w, leaf, cross, core, path);
    }
  }

  lemma OpenOffersAnswer(w: World, k: nat)
    requires RoundsOk(w)
    ensures InjectsOffer(w, TakeOpen(w, k))
  {
    if TakeOpen(w, k) != w {
      assert w.replies[k].round in w.b.answered;
    }
  }

  lemma DeliveryInjectsNothing(w: World, k: nat, core: Core, own: Option<Shared>)
    ensures InjectsOffer(w, TakeDeliver(w, k, core, own))
  {
  }

  lemma CommitInjectsNothing(w: World, fold: Option<Leaf>, core: Core, path: Path)
    ensures InjectsOffer(w, TakeCommit(w, fold, core, path))
  {
  }

  lemma StepInjectsOffer(w: World, step: Step)
    requires Inv(w)
    ensures InjectsOffer(w, Take(w, step))
  {
    match step
    case Trigger(core, path) => TriggerInjectsOffer(w, core, path);
    case Rekey(leaf, cross, core, path) => RekeyInjectsNothing(w, leaf, cross, core, path);
    case Open(k) => OpenOffersAnswer(w, k);
    case Deliver(k, core, own) => DeliveryInjectsNothing(w, k, core, own);
    case CommitClassical(fold, core, path) => CommitInjectsNothing(w, fold, core, path);
    case _ => OthersInjectNothing(w, step);
  }

  lemma OthersInjectNothing(w: World, step: Step)
    requires step.Observe? || step.MirrorCommit? || step.Begin? || step.Respond? || step.Resend?
    ensures InjectsOffer(w, Take(w, step))
  {
  }

  lemma StepKeepsSources(w: World, v: World)
    requires SecretsFromAnswers(w) && InjectsOffer(w, v)
    ensures SecretsFromAnswers(v)
  {
    forall s | InjectsAnswer(w, s) ensures InjectsAnswer(v, s) {
      var r :| r in w.b.answered && w.b.answered[r] == s;
    }
    forall j | 0 <= j < |v.a.pq.log| && Binds(v.a.pq.log[j]) ensures InjectsAnswer(v, InjectedInto(v.a.pq.log[j])) {
      if j < |w.a.pq.log| {
        assert Binds(w.a.pq.log[j]) && w.a.pq.log[j] == v.a.pq.log[j];
      }
    }
  }

  /** Only answering a round adds an answer. */
  lemma OnlyRespondAnswers(w: World, step: Step, r: nat)
    requires r in Take(w, step).b.answered
    requires r !in w.b.answered || Take(w, step).b.answered[r] != w.b.answered[r]
    ensures step.Respond? && step.round == r && Take(w, step).b.answered[r] == AnswerSecret(step.answer)
  {
  }

  /** `w` is where all steps but the last led. */
  lemma StepAnswers(w: World, steps: seq<Step>)
    requires steps != [] && AnswersFrom(w, steps[..|steps| - 1])
    ensures AnswersFrom(Take(w, steps[|steps| - 1]), steps)
  {
    var front, step := steps[..|steps| - 1], steps[|steps| - 1];
    var v := Take(w, step);
    forall r | r in v.b.answered ensures Answered(steps, r, v.b.answered[r]) {
      if r in w.b.answered && v.b.answered[r] == w.b.answered[r] {
        var answer :| Respond(r, answer) in front && w.b.answered[r] == AnswerSecret(answer);
        assert Respond(r, answer) in steps;
      } else {
        OnlyRespondAnswers(w, step, r);
        assert steps[|steps| - 1] == Respond(r, step.answer);
      }
    }
  }

  /** Offered and injected secrets are answers, and answers are the run's. */
  ghost predicate Sourced(w: World, steps: seq<Step>) {
    SecretsFromAnswers(w) && AnswersFrom(w, steps)
  }

  lemma StepSources(w: World, steps: seq<Step>)
    requires steps != [] && Inv(w) && Sourced(w, steps[..|steps| - 1])
    ensures Sourced(Take(w, steps[|steps| - 1]), steps)
  {
    StepInjectsOffer(w, steps[|steps| - 1]);
    StepKeepsSources(w, Take(w, steps[|steps| - 1]));
    StepAnswers(w, steps);
  }

  /** Over every run from a start with no bind, every injected secret is one the mirror answered a
      round with: nothing else ever enters the PQ half. */
  lemma {:induction false} InjectedSecretsWereAnswers(w: World, steps: seq<Step>)
    requires Inv(w) && Sourced(w, [])
    ensures Sourced(Run(w, steps), steps)
  {
    if steps != [] {
      InjectedSecretsWereAnswers(w, steps[..|steps| - 1]);
      RunKeeps(w, steps[..|steps| - 1]);
      StepSources(Run(w, steps[..|steps| - 1]), steps);
    }
  }
}
