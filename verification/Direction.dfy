/** One direction of a session from creation on: what `create`, `join` and any run after them
    guarantee together. */
module Direction {
  import opened Prelude
  import opened KeySchedule
  import opened Component
  import opened ApqInfoChecks
  import opened Mls
  import opened History
  import opened Replicas
  import opened Invariant
  import opened Agreement
  import opened Establishment
  import Ownership
  import InOrder
  import ExportLog
  import Rounds

  // ---- starts ----

  /** Both parties at the same two states, with the PQ exporter leaves spent so far this epoch, and the
      mirror's own send group at `peer`, whose PSK the owner may have bound already. */
  function Start(cl: Shared, pq: Shared, spent: set<nat>, peer: Shared, bound: bool, storeA: PskMap,
                 storeB: PskMap): World {
    World(
      Owner(History(cl, []), History(pq, []), spent, storeA, Birth, [], 0, if bound then Some(0) else None,
            None, 0, None, None, false),
      Mirror(Replica(cl, MIRROR, {}), Replica(pq, MIRROR, spent), storeB, [peer], None, map[], None, false),
      [], [],
      StartExports(pq, spent, peer, bound),
      [])
  }

  function StartExports(pq: Shared, spent: set<nat>, peer: Shared, bound: bool): seq<Export> {
    (if APQ_COMPONENT_ID in spent then
       [Export(OWNER, APQ_COMPONENT_ID, pq.epoch), Export(MIRROR, APQ_COMPONENT_ID, pq.epoch)]
     else [])
    + [Export(MIRROR, TWOMLS_COMPONENT_ID, peer.epoch)]
    + (if bound then [Export(OWNER, TWOMLS_COMPONENT_ID, peer.epoch)] else [])
  }

  /** Everything the run theorems ask of a start. */
  ghost predicate IsStart(w: World) {
    Inv(w) && InOrder.Tracks(w, 0) && Sourced(w, []) && ExportLog.Recorded(w)
  }

  lemma StartRounds(cl: Shared, pq: Shared, spent: set<nat>, peer: Shared, bound: bool, storeA: PskMap, storeB: PskMap)
    ensures var w := Start(cl, pq, spent, peer, bound, storeA, storeB);
            RoundsOk(w) && EvidenceOk(w) && ExportsOk(w) && Sourced(w, [])
  {
    var w := Start(cl, pq, spent, peer, bound, storeA, storeB);
    assert forall j: nat :: !Unapplied(w, j);
    assert forall x :: x in w.exports ==> Spent(w, x);
  }

  lemma StartIsStart(cl: Shared, pq: Shared, spent: set<nat>, peer: Shared, bound: bool, storeA: PskMap, storeB: PskMap)
    requires Ownership.TwoParty(cl.roster) && Ownership.TwoParty(pq.roster)
    requires ApqCipherSuite(cl.suite, pq.suite).Valid()
    requires AllGenuine(storeA) && AllGenuine(storeB)
    ensures IsStart(Start(cl, pq, spent, peer, bound, storeA, storeB))
  {
    var w := Start(cl, pq, spent, peer, bound, storeA, storeB);
    StartRounds(cl, pq, spent, peer, bound, storeA, storeB);
    assert w.a.cl.At(0) == w.b.cl.shared && w.a.pq.At(0) == w.b.pq.shared;
    StartRecords(pq, spent, peer, bound);
  }

  lemma StartRecords(pq: Shared, spent: set<nat>, peer: Shared, bound: bool)
    ensures var exports := StartExports(pq, spent, peer, bound);
            && (APQ_COMPONENT_ID in spent ==>
                  && Export(OWNER, APQ_COMPONENT_ID, pq.epoch) in exports
                  && Export(MIRROR, APQ_COMPONENT_ID, pq.epoch) in exports)
            && Export(MIRROR, TWOMLS_COMPONENT_ID, peer.epoch) in exports
            && (bound ==> Export(OWNER, TWOMLS_COMPONENT_ID, peer.epoch) in exports)
  {
    var exports := StartExports(pq, spent, peer, bound);
    if APQ_COMPONENT_ID in spent {
      assert exports[0] == Export(OWNER, APQ_COMPONENT_ID, pq.epoch);
      assert exports[1] == Export(MIRROR, APQ_COMPONENT_ID, pq.epoch);
      assert exports[2] == Export(MIRROR, TWOMLS_COMPONENT_ID, peer.epoch);
    } else {
      assert exports[0] == Export(MIRROR, TWOMLS_COMPONENT_ID, peer.epoch);
    }
    if bound {
      assert exports[|exports| - 1] == Export(OWNER, TWOMLS_COMPONENT_ID, peer.epoch);
    }
  }

  /** The two parties right after creation and join, with what their stores hold at that point. */
  function Established(sent: SendPair, recv: RecvPair, peer: Shared, bound: bool, storeA: PskMap,
                       storeB: PskMap): World {
    var w := Start(sent.cl.shared, sent.pq.shared, sent.pq.spent, peer, bound, storeA, storeB);
    w.(b := w.b.(cl := recv.cl, pq := recv.pq))
  }

  // ---- runs ----

  /** What holds after any run from a start whose message group had absorbed `apq`. */
  ghost predicate Guaranteed(v: World, steps: seq<Step>, apq: Secret) {
    && HalvesAgree(v)
    && (forall x :: x in v.completed ==> RoundMatches(v, x))
    && (forall m :: m in v.wire ==> BindReached(v, m))
    && Contains(v.a.cl.Head().secret, apq) && Contains(v.b.cl.shared.secret, apq)
    && SpentOnceAndWiped(v) && ExportLog.Recorded(v) && LedgerSuffices(v) && Sourced(v, steps)
  }

  lemma RunsFromAStart(w: World, steps: seq<Step>, apq: Secret)
    requires IsStart(w) && Contains(w.a.cl.base.secret, apq)
    ensures Guaranteed(Run(w, steps), steps, apq)
  {
    ReplicasAgree(w, steps);
    SameExportEveryRound(w, steps);
    EntropyReachesMessages(w, steps);
    BaseEntropyStays(w, steps, apq);
    LeavesSpentOnceSecretsWiped(w, steps);
    LedgerNeverOutrun(w, steps);
    ExportLog.RunRecords(w, steps);
    InjectedSecretsWereAnswers(w, steps);
  }

  /** Two clients of one session: the same valid suites, and key packages that are the joiner's and
      not the creator's own leaves. A cross-party PSK bound at creation is that of the joiner's own
      send group. */
  ghost predicate Counterparts(me: Party, theirs: KeyPackages, cross: Option<ExportedPsk>, d: Draw, joiner: Party,
                               peer: Shared) {
    && me.suite.Valid() && joiner.suite == me.suite && joiner.own == theirs
    && theirs.pq != me.own.pq && theirs.pq != d.pqPath.leaf
    && theirs.classical != me.own.classical && theirs.classical != d.tPath.leaf
    && (cross.Some? ==> cross.value == CrossOf(peer))
  }

  /** A created and joined pair is a start. */
  lemma EstablishedIsStart(me: Party, theirs: KeyPackages, cross: Option<ExportedPsk>, binding: Option<Bytes>, d: Draw,
                           joiner: Party, sent: SendPair, recv: RecvPair, peer: Shared, storeA: PskMap, storeB: PskMap)
    requires CreateSend(me, theirs, cross, binding, d).0 == Ok(sent)
    requires JoinRecv(joiner, sent.clWelcome, sent.pqWelcome).0 == Ok(recv)
    requires Counterparts(me, theirs, cross, d, joiner, peer) && AllGenuine(storeA) && AllGenuine(storeB)
    ensures var w := Established(sent, recv, peer, cross.Some?, storeA, storeB);
            && IsStart(w) && recv.apq == sent.apq && Contains(w.a.cl.base.secret, sent.apq.psk)
  {
    JoinFollowsCreate(me, theirs, cross, binding, d, joiner);
    StartIsStart(sent.cl.shared, sent.pq.shared, {APQ_COMPONENT_ID}, peer, cross.Some?, storeA, storeB);
    assert Established(sent, recv, peer, cross.Some?, storeA, storeB)
        == Start(sent.cl.shared, sent.pq.shared, {APQ_COMPONENT_ID}, peer, cross.Some?, storeA, storeB);
  }

  /** Create, join, run: for every pair of clients whose creation and join succeed and every run of
      commits, re-keys, rounds, binds and lost, repeated or reordered deliveries, everything in
      `Guaranteed` holds: the mirror is always at a state the owner was in, equal epochs mean equal
      secrets in both halves, every completed round exported one PSK on both sides, both message
      groups keep the establishment `apq_psk`, the owner's has every sent bind's secret and the
      mirror's has it once past that commit, each of them an answer the mirror gave in that run, no
      exporter leaf is spent twice, no injected secret stays in a store, and the ledger is never
      outrun. If deliveries come in order and are allowed, the mirror also never wedges, and with
      everything delivered and nothing owed it is at the owner's own two states. */
  lemma EveryRunAgrees(me: Party, theirs: KeyPackages, cross: Option<ExportedPsk>, binding: Option<Bytes>, d: Draw,
                       joiner: Party, sent: SendPair, recv: RecvPair, peer: Shared, storeA: PskMap, storeB: PskMap,
                       steps: seq<Step>)
    requires CreateSend(me, theirs, cross, binding, d).0 == Ok(sent)
    requires JoinRecv(joiner, sent.clWelcome, sent.pqWelcome).0 == Ok(recv)
    requires Counterparts(me, theirs, cross, d, joiner, peer) && AllGenuine(storeA) && AllGenuine(storeB)
    ensures var w := Established(sent, recv, peer, cross.Some?, storeA, storeB);
            && recv.apq == sent.apq
            && Guaranteed(Run(w, steps), steps, sent.apq.psk)
            && (InOrder.AllAdmissible(w, steps) ==> InOrder.CaughtUp(Run(w, steps), InOrder.Delivered(steps)))
  {
    EstablishedIsStart(me, theirs, cross, binding, d, joiner, sent, recv, peer, storeA, storeB);
    EstablishedRuns(Established(sent, recv, peer, cross.Some?, storeA, storeB), steps, sent.apq.psk);
  }

  lemma EstablishedRuns(w: World, steps: seq<Step>, apq: Secret)
    requires IsStart(w) && Contains(w.a.cl.base.secret, apq)
    ensures Guaranteed(Run(w, steps), steps, apq)
    ensures InOrder.AllAdmissible(w, steps) ==> InOrder.CaughtUp(Run(w, steps), InOrder.Delivered(steps))
  {
    RunsFromAStart(w, steps, apq);
    if InOrder.AllAdmissible(w, steps) {
      InOrder.MirrorCatchesUp(w, steps);
    }
  }

  // ---- rounds ----

  lemma StartIsIdle(cl: Shared, pq: Shared, spent: set<nat>, peer: Shared, bound: bool, storeA: PskMap, storeB: PskMap)
    requires IsStart(Start(cl, pq, spent, peer, bound, storeA, storeB))
    ensures Rounds.Idle(Start(cl, pq, spent, peer, bound, storeA, storeB))
  {
  }

  lemma EstablishedIsIdle(me: Party, theirs: KeyPackages, cross: Option<ExportedPsk>, binding: Option<Bytes>, d: Draw,
                          joiner: Party, sent: SendPair, recv: RecvPair, peer: Shared, storeA: PskMap, storeB: PskMap)
    requires CreateSend(me, theirs, cross, binding, d).0 == Ok(sent)
    requires JoinRecv(joiner, sent.clWelcome, sent.pqWelcome).0 == Ok(recv)
    requires Counterparts(me, theirs, cross, d, joiner, peer) && AllGenuine(storeA) && AllGenuine(storeB)
    ensures var w := Established(sent, recv, peer, cross.Some?, storeA, storeB);
            && Rounds.Idle(w) && Contains(w.a.cl.Head().secret, sent.apq.psk)
            && w.a.cl.Head().epoch == 1 && w.a.pq.Head().epoch == 1
            && w.b.sends == [peer] && w.completed == []
  {
    EstablishedIsStart(me, theirs, cross, binding, d, joiner, sent, recv, peer, storeA, storeB);
    JoinFollowsCreate(me, theirs, cross, binding, d, joiner);
    assert Established(sent, recv, peer, cross.Some?, storeA, storeB)
        == Start(sent.cl.shared, sent.pq.shared, {APQ_COMPONENT_ID}, peer, cross.Some?, storeA, storeB);
    StartIsIdle(sent.cl.shared, sent.pq.shared, {APQ_COMPONENT_ID}, peer, cross.Some?, storeA, storeB);
  }

  /** Create, join, and let any number of rounds run without obstacle: every one completes, and both message
      groups, which are then the same, contain the establishment `apq_psk` and every round's secret. */
  lemma SessionsCompleteRounds(me: Party, theirs: KeyPackages, cross: Option<ExportedPsk>, binding: Option<Bytes>,
                               d: Draw, joiner: Party, sent: SendPair, recv: RecvPair, peer: Shared, storeA: PskMap,
                               storeB: PskMap, secrets: seq<Secret>, core: Core)
    requires CreateSend(me, theirs, cross, binding, d).0 == Ok(sent)
    requires JoinRecv(joiner, sent.clWelcome, sent.pqWelcome).0 == Ok(recv)
    requires Counterparts(me, theirs, cross, d, joiner, peer) && AllGenuine(storeA) && AllGenuine(storeB)
    requires core.adopting && |secrets| < EPOCH_UNBOUND - 1 && peer.epoch + |secrets| < EPOCH_UNBOUND
    ensures AllRoundsComplete(Established(sent, recv, peer, cross.Some?, storeA, storeB), secrets, core, sent.apq.psk)
  {
    EstablishedIsIdle(me, theirs, cross, binding, d, joiner, sent, recv, peer, storeA, storeB);
    IdleCompletes(Established(sent, recv, peer, cross.Some?, storeA, storeB), secrets, core, sent.apq.psk);
  }

  ghost predicate AllRoundsComplete(w: World, secrets: seq<Secret>, core: Core, x: Secret) {
    && Rounds.Idle(w) && Rounds.Room(w, |secrets|) && core.adopting
    && var v := Rounds.Rounds(w, secrets, core);
       && Rounds.RoundsDone(w, secrets, v)
       && v.b.cl.shared == v.a.cl.Head() && v.b.pq.shared == v.a.pq.Head() && Contains(v.a.cl.Head().secret, x)
  }

  lemma IdleCompletes(w: World, secrets: seq<Secret>, core: Core, x: Secret)
    requires Rounds.Idle(w) && Rounds.Room(w, |secrets|) && core.adopting && Contains(w.a.cl.Head().secret, x)
    ensures AllRoundsComplete(w, secrets, core, x)
  {
    Rounds.RoundsComplete(w, secrets, core);
    Rounds.RoundsKeep(w, secrets, core, x);
  }

  // ---- the deferred pair ----

  /** Bootstrapping the PQ half of a classical half both parties share, at whatever state it has
      reached: a join that succeeds has the creator's very state, its checks pass, and the pair is a
      start like any other. */
  lemma BootstrappedPairIsStart(suite: ApqCipherSuite, cl: Shared, own: Leaf, seed: Secret, theirs: Leaf, core: Core,
                                store: PskMap, path: Path, joiner: Core, held: PskMap, peer: Shared, bound: bool,
                                storeA: PskMap, storeB: PskMap)
    requires suite.Valid() && cl.suite == suite.classical && Ownership.TwoParty(cl.roster)
    requires cl.extensions.apqInfo.Some?
    requires var info := cl.extensions.apqInfo.value;
             && info == NewInfo(suite, info.tGroupId, info.pqGroupId, info.tEpoch, info.pqEpoch)
             && Bootstrapped(suite, info, info.pqGroupId, own, seed, theirs, core, store, path).Ok?
    requires theirs != own && theirs != path.leaf
    requires var info := cl.extensions.apqInfo.value;
             Joined(Bootstrapped(suite, info, info.pqGroupId, own, seed, theirs, core, store, path).value.1, joiner,
                    held, theirs).Ok?
    requires AllGenuine(storeA) && AllGenuine(storeB)
    ensures var info := cl.extensions.apqInfo.value;
            var (r, w) := Bootstrapped(suite, info, info.pqGroupId, own, seed, theirs, core, store, path).value;
            && Joined(w, joiner, held, theirs) == Ok(Replica(r.shared, 1, {}))
            && VerifyDeferredPq(r.shared, info, suite).None? && VerifyPqHalfUnbound(r.shared).None?
            && IsStart(Start(cl, r.shared, {}, peer, bound, storeA, storeB))
  {
    var info := cl.extensions.apqInfo.value;
    BootstrapJoins(suite, info, info.pqGroupId, own, seed, theirs, core, store, path, joiner, held);
    StartIsStart(cl, Bootstrapped(suite, info, info.pqGroupId, own, seed, theirs, core, store, path).value.0.shared,
                 {}, peer, bound,
                 storeA, storeB);
  }
}
