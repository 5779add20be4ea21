/** Rounds that meet no obstacle complete, one after another: after any number of them both message groups
    contain every secret, every round exported one PSK on both sides, and each bound the mirror's newest
    state. */
module Rounds {
  import opened Prelude
  import opened KeySchedule
  import opened Proposals
  import opened Component
  import opened Mls
  import opened History
  import opened Replicas
  import opened Invariant
  import opened OwnerSteps
  import opened Deliveries
  import opened Agreement
  import opened Progress
  import opened Steps
  import opened InOrder

  /** Between rounds: everything sent is delivered, nothing is in flight on either side, and the owner has
      applied the mirror's newest state. */
  ghost predicate Idle(w: World) {
    && Inv(w) && Tracks(w, |w.wire|)
    && !w.a.broken && w.a.round.None? && w.a.offer.None? && w.a.owed.None? && w.b.held.None?
    && w.a.seen + 1 == |w.b.sends|
  }

  /** Every epoch involved has room for `n` more. */
  predicate Room(w: World, n: nat) {
    && w.a.cl.Head().epoch + n < EPOCH_UNBOUND && w.a.pq.Head().epoch + n < EPOCH_UNBOUND
    && w.b.sends != [] && w.b.sends[|w.b.sends| - 1].epoch + n < EPOCH_UNBOUND
  }

  /** A committer that keeps its identity, before Authentication Services in their adoption window. */
  function OwnPath(g: Shared): Path {
    Path(if OWNER in g.roster then g.roster[OWNER] else Leaf([], 0), Zero)
  }

  /** What the mirror commits its own group to: any next state will do. */
  function NextSend(g: Shared): Shared
    requires g.epoch < EPOCH_UNBOUND
  {
    g.(epoch := g.epoch + 1)
  }

  // ---- one round, leg by leg ----

  /** The round opened, answered with `s`, and opened again by the owner. */
  function Agreed(w: World, s: Secret): World {
    var w1 := Take(w, Begin);
    var w2 := Take(w1, Respond(w.a.rounds, Sealing(s)));
    Take(w2, Open(|w.replies|))
  }

  function Bound(w: World, s: Secret, core: Core): World {
    Take(Agreed(w, s), Trigger(core, OwnPath(w.a.pq.Head())))
  }

  function Sent(w: World, s: Secret, core: Core): World {
    Take(Bound(w, s, core), CommitClassical(None, core, OwnPath(w.a.cl.Head())))
  }

  function Landed(w: World, s: Secret, core: Core): World {
    Take(Sent(w, s, core), Deliver(|w.wire|, core, None))
  }

  /** The whole round, after which the mirror commits its own group and the owner applies that. */
  function Round(w: World, s: Secret, core: Core): World
    requires Room(w, 1)
  {
    var landed := Landed(w, s, core);
    Take(Take(landed, MirrorCommit(NextSend(w.b.sends[|w.b.sends| - 1]))), Observe)
  }

  /** What the owner knows once it has opened the reply. */
  lemma AgreedOn(w: World, s: Secret)
    requires Idle(w)
    ensures var v := Agreed(w, s);
            && v.a == w.a.(rounds := w.a.rounds + 1, offer := Some(s))
            && v.b == w.b.(held := Some(s), answered := w.b.answered[w.a.rounds := s])
            && v.wire == w.wire && v.exports == w.exports && v.completed == w.completed
  {
    var w1 := Take(w, Begin);
    var w2 := Take(w1, Respond(w.a.rounds, Sealing(s)));
    BeginOpensRound(w);
    RespondAnswers(w1, w.a.rounds, Sealing(s));
    InStepCatchesUp(w, |w.wire|);
    OpenTakesReply(w2, |w.replies|);
  }

  lemma AgreedInv(w: World, s: Secret)
    requires Idle(w)
    ensures Inv(Agreed(w, s)) && Tracks(Agreed(w, s), |w.wire|)
  {
    var w1 := Take(w, Begin);
    var w2 := Take(w1, Respond(w.a.rounds, Sealing(s)));
    Quietly(w, |w.wire|, Begin);
    Quietly(w1, |w.wire|, Respond(w.a.rounds, Sealing(s)));
    Quietly(w2, |w.wire|, Open(|w.replies|));
  }

  /** A step that delivers nothing keeps the invariant and the order. */
  lemma Quietly(w: World, n: nat, step: Step)
    requires Inv(w) && Tracks(w, n) && !step.Deliver?
    ensures Inv(Take(w, step)) && Tracks(Take(w, step), n)
  {
    StepKeeps(w, step);
    StepStaysInStep(w, n, step);
  }

  /** What the owner's half of a bind changes, and what it leaves alone. */
  ghost predicate HalfFields(w: World, s: Secret, v: World) {
    && v.wire == w.wire && v.completed == w.completed
    && v.a.cl == w.a.cl && v.a.seen == w.a.seen && v.a.bound == w.a.bound && v.a.crosses == w.a.crosses
    && !v.a.broken && v.a.round.None? && v.a.offer.None?
    && |v.a.pq.log| == |w.a.pq.log| + 1
    && v.a.owed.Some? && v.a.owed.value.pq == |w.a.pq.log|
    && Binds(v.a.pq.log[|w.a.pq.log|]) && InjectedInto(v.a.pq.log[|w.a.pq.log|]) == s
    && v.b.sends == w.b.sends && v.b.held == Some(s)
  }

  /** The world between the bind's two halves. */
  ghost predicate HalfBound(w: World, s: Secret, v: World) {
    && Inv(v) && Tracks(v, |w.wire|) && HalfFields(w, s, v)
    && v.a.pq.Head().epoch == w.a.pq.Head().epoch + 1
  }

  lemma TriggeredIsHalf(w: World, s: Secret, agreed: World, v: World)
    requires !w.a.broken && w.a.round.None? && w.a.owed.None? && Room(w, 1)
    requires agreed.a == w.a.(rounds := w.a.rounds + 1, offer := Some(s))
    requires agreed.b.sends == w.b.sends && agreed.b.held == Some(s)
    requires agreed.wire == w.wire && agreed.completed == w.completed
    requires Triggered(agreed, v)
    ensures HalfFields(w, s, v)
  {
    assert CanTrigger(agreed.a);
  }

  lemma BoundHalf(w: World, s: Secret, core: Core)
    requires Idle(w) && Room(w, 1)
    ensures HalfBound(w, s, Bound(w, s, core))
  {
    var w3 := Agreed(w, s);
    var v := Bound(w, s, core);
    AgreedOn(w, s);
    AgreedInv(w, s);
    TriggerInjects(w3, core, OwnPath(w.a.pq.Head()));
    Quietly(w3, |w.wire|, Trigger(core, OwnPath(w.a.pq.Head())));
    TriggeredIsHalf(w, s, w3, v);
    assert SameBases(w3, v);
    PqEpochs(v, w);
  }

  lemma PqEpochs(v: World, w: World)
    requires GroupsOk(v) && GroupsOk(w) && v.a.pq.base == w.a.pq.base && |v.a.pq.log| == |w.a.pq.log| + 1
    ensures v.a.pq.Head().epoch == w.a.pq.Head().epoch + 1
  {
    PositionsAreEpochs(v.a.pq, |v.a.pq.log|);
    PositionsAreEpochs(w.a.pq, |w.a.pq.log|);
  }

  lemma ClEpochs(v: World, w: World)
    requires GroupsOk(v) && GroupsOk(w) && v.a.cl.base == w.a.cl.base && |v.a.cl.log| == |w.a.cl.log| + 1
    ensures v.a.cl.Head().epoch == w.a.cl.Head().epoch + 1
  {
    PositionsAreEpochs(v.a.cl, |v.a.cl.log|);
    PositionsAreEpochs(w.a.cl, |w.a.cl.log|);
  }

  lemma OwnMoveAllowed(w: World, core: Core)
    requires GroupsOk(w) && core.adopting
    ensures LeafMoveAllowed(w.a.cl.Head().roster, core, OWNER, OwnPath(w.a.cl.Head()).leaf)
  {
    PositionsAreEpochs(w.a.cl, |w.a.cl.log|);
  }

  /** The world with the bind on the wire. */
  ghost predicate BothSent(w: World, s: Secret, v: World) {
    && Inv(v) && Tracks(v, |w.wire|)
    && v.completed == w.completed
    && !v.a.broken && v.a.round.None? && v.a.offer.None? && v.a.owed.None?
    && v.a.seen == w.a.seen && v.a.bound == Some(w.a.seen)
    && v.a.crosses == w.a.crosses + [if w.a.bound == Some(w.a.seen) then None else Some(w.a.seen)]
    && |v.a.cl.log| == |w.a.cl.log| + 1 && |v.a.pq.log| == |w.a.pq.log| + 1
    && w.a.cl.log <= v.a.cl.log && v.a.cl.base == w.a.cl.base
    && v.wire == w.wire + [Frame(Full(|w.a.cl.log|, |w.a.pq.log|), w.a.seen)]
    && Binds(v.a.pq.log[|w.a.pq.log|]) && InjectedInto(v.a.pq.log[|w.a.pq.log|]) == s
    && v.a.cl.Head().epoch == w.a.cl.Head().epoch + 1 && v.a.pq.Head().epoch == w.a.pq.Head().epoch + 1
    && v.b.sends == w.b.sends && v.b.held == Some(s)
  }

  lemma BothHalvesSent(w: World, s: Secret, core: Core)
    requires Idle(w) && Room(w, 1) && core.adopting
    ensures BothSent(w, s, Sent(w, s, core))
    ensures var v := Sent(w, s, core);
            v.a.cl.log[|w.a.cl.log|].path == OwnPath(w.a.cl.Head())
            && exists state, u, apq :: v.a.cl.log[|w.a.cl.log|].bundle == FullBundle(None, state, u, apq)
  {
    var w4 := Bound(w, s, core);
    BoundHalf(w, s, core);
    OwnMoveAllowed(w, core);
    CommitDischarges(w4, None, core, OwnPath(w.a.cl.Head()));
    Quietly(w4, |w.wire|, CommitClassical(None, core, OwnPath(w.a.cl.Head())));
    ClEpochs(Sent(w, s, core), w);
    DischargedIsSent(w, s, w4, Sent(w, s, core));
  }

  lemma DischargedIsSent(w: World, s: Secret, half: World, v: World)
    requires HalfBound(w, s, half) && Inv(v) && Tracks(v, |w.wire|) && v.a.cl.Head().epoch == w.a.cl.Head().epoch + 1
    requires CommittedAs(half, v, Full(|half.a.cl.log|, half.a.owed.value.pq)) && v.a.cl.base == w.a.cl.base
    ensures BothSent(w, s, v)
  {
  }

  lemma UnmovedCredentials(g: Shared, core: Core, c: Commit, state: Option<Shared>, u: ApqInfoUpdate, apq: ExportedPsk)
    requires core.adopting && OWNER in g.roster && c.source == ExistingMember(OWNER)
    requires c.proposals == FullBundle(None, state, u, apq) && (c.path == None || c.path == Some(OwnPath(g)))
    ensures CredentialsAllowed(g, core, c)
  {
    forall p | p in c.proposals ensures !p.proposal.Update? && !p.proposal.Add? {
    }
  }

  /** A bind of an owner that moves no identity is allowed by any Authentication Service in its window. */
  lemma UnmovedAllowed(e: Entry, core: Core)
    requires e.Sound() && e.Step() && core.adopting && e.path == OwnPath(e.pre)
    requires exists state, u, apq :: e.bundle == FullBundle(None, state, u, apq)
    ensures CredentialsAllowed(e.pre, core, e.message)
  {
    BuiltCommitIsChecked(e);
    BuiltPath(e);
    var state, u, apq :| e.bundle == FullBundle(None, state, u, apq);
    UnmovedCredentials(e.pre, core, e.message, state, u, apq);
  }

  /** The world after both halves landed. */
  ghost predicate RoundLanded(w: World, s: Secret, v: World) {
    && Inv(v) && Tracks(v, |v.wire|)
    && !v.a.broken && v.a.round.None? && v.a.offer.None? && v.a.owed.None? && v.b.held.None?
    && v.a.seen == w.a.seen && v.a.bound == Some(w.a.seen)
    && v.a.crosses == w.a.crosses + [if w.a.bound == Some(w.a.seen) then None else Some(w.a.seen)]
    && |v.completed| == |w.completed| + 1
    && w.a.cl.log <= v.a.cl.log && v.a.cl.base == w.a.cl.base
    && v.b.sends == w.b.sends && v.b.applied == Some(w.a.seen)
    && v.a.cl.Head().epoch == w.a.cl.Head().epoch + 1 && v.a.pq.Head().epoch == w.a.pq.Head().epoch + 1
    && Contains(v.a.cl.Head().secret, s) && Contains(v.b.cl.shared.secret, s)
  }

  lemma NextIsPermitted(w: World, s: Secret, v: World, core: Core)
    requires BothSent(w, s, v) && core.adopting
    requires v.a.cl.log[|w.a.cl.log|].path == OwnPath(w.a.cl.Head())
    requires exists state, u, apq :: v.a.cl.log[|w.a.cl.log|].bundle == FullBundle(None, state, u, apq)
    ensures Permits(v, |w.wire|, core, None)
  {
    EpochOfCommit(v.a.cl, |w.a.cl.log|, |w.a.cl.log|);
    assert v.a.cl.LinkedAt(|w.a.cl.log|);
    UnmovedAllowed(v.a.cl.log[|w.a.cl.log|], core);
  }

  lemma FinishesWhen(v: World, i: nat, j: nat, offer: nat, core: Core)
    requires i < |v.a.cl.log| && j < |v.a.pq.log| && v.b.held.Some?
    requires v.a.cl.log[i].pre.epoch == v.b.cl.shared.epoch && v.a.pq.log[j].pre.epoch == v.b.pq.shared.epoch
    requires CredentialsAllowed(v.a.cl.log[i].pre, core, v.a.cl.log[i].message)
    ensures Outcome(v, Frame(Full(i, j), offer), core, None) == Noted(Finished(v, i, j), offer)
  {
  }

  lemma OutcomeFinishes(w: World, s: Secret, v: World, core: Core)
    requires Idle(w) && BothSent(w, s, v) && Permits(v, |w.wire|, core, None)
    ensures var i, j := |w.a.cl.log|, |w.a.pq.log|;
            Outcome(v, Frame(Full(i, j), w.a.seen), core, None) == Noted(Finished(v, i, j), w.a.seen)
  {
    var i, j := |w.a.cl.log|, |w.a.pq.log|;
    AllCounted(w, v);
    EpochOfCommit(v.a.cl, i, i);
    EpochOfCommit(v.a.pq, j, j);
    FinishesWhen(v, i, j, w.a.seen, core);
  }

  lemma SentOutcome(w: World, s: Secret, v: World, core: Core)
    requires Idle(w) && BothSent(w, s, v) && Permits(v, |w.wire|, core, None)
    ensures var i, j := |w.a.cl.log|, |w.a.pq.log|;
            Take(v, Deliver(|w.wire|, core, None)) == Noted(Finished(v, i, j), w.a.seen)
  {
    DeliverIsOutcome(v, |w.wire|, core, None);
    OutcomeFinishes(w, s, v, core);
    assert v.wire[|w.wire|] == Frame(Full(|w.a.cl.log|, |w.a.pq.log|), w.a.seen);
  }

  /** The first messages carried all commits but the new ones. */
  lemma AllCounted(w: World, v: World)
    requires Ordered(w) && w.a.owed.None? && w.wire <= v.wire
    ensures Classical(v.wire, |w.wire|) == |w.a.cl.log| && Pq(v.wire, |w.wire|) == |w.a.pq.log|
  {
    CountsExtend(w.wire, v.wire, |w.wire|);
  }

  lemma DeliveredLands(w: World, s: Secret, v: World, core: Core)
    requires Idle(w) && BothSent(w, s, v) && Permits(v, |w.wire|, core, None)
    ensures RoundLanded(w, s, Take(v, Deliver(|w.wire|, core, None)))
  {
    var n := |w.wire|;
    SentOutcome(w, s, v, core);
    StepKeeps(v, Deliver(n, core, None));
    StepStaysInStep(v, n, Deliver(n, core, None));
    LandedReaches(w, s, v, Take(v, Deliver(n, core, None)));
  }

  lemma RoundLands(w: World, s: Secret, core: Core)
    requires Idle(w) && Room(w, 1) && core.adopting
    ensures RoundLanded(w, s, Landed(w, s, core))
  {
    BothHalvesSent(w, s, core);
    NextIsPermitted(w, s, Sent(w, s, core), core);
    DeliveredLands(w, s, Sent(w, s, core), core);
  }

  lemma LandedReaches(w: World, s: Secret, sent: World, v: World)
    requires Idle(w) && BothSent(w, s, sent) && Inv(v) && Tracks(v, |w.wire| + 1)
    requires v == Noted(Finished(sent, |w.a.cl.log|, |w.a.pq.log|), w.a.seen)
    ensures RoundLanded(w, s, v)
  {
    InStepCatchesUp(v, |v.wire|);
    SentMessageReaches(v, |w.wire|);
    EpochOfCommit(v.a.cl, |w.a.cl.log|, |v.a.cl.log|);
  }

  // ---- the round ----

  /** What a completed round did: one more bind, with `s` in both message groups, the state the owner was at
      bound unless it was already, and the mirror one state on. */
  ghost predicate RoundDone(w: World, s: Secret, v: World) {
    && Idle(v) && |v.completed| == |w.completed| + 1
    && Contains(v.a.cl.Head().secret, s) && Contains(v.b.cl.shared.secret, s)
    && v.a.crosses == w.a.crosses + [if w.a.bound == Some(w.a.seen) then None else Some(w.a.seen)]
    && v.a.bound == Some(w.a.seen) && v.a.seen == w.a.seen + 1
    && w.a.cl.log <= v.a.cl.log && v.a.cl.base == w.a.cl.base
    && w.b.sends != [] && v.b.sends[|v.b.sends| - 1].epoch == w.b.sends[|w.b.sends| - 1].epoch + 1
    && v.a.cl.Head().epoch == w.a.cl.Head().epoch + 1 && v.a.pq.Head().epoch == w.a.pq.Head().epoch + 1
  }

  /** The mirror, shown to be up to date, commits its own group, and the owner applies that. */
  lemma MovesOn(w: World, s: Secret, v: World)
    requires Idle(w) && Room(w, 1) && RoundLanded(w, s, v)
    ensures var next := NextSend(w.b.sends[|w.b.sends| - 1]);
            RoundDone(w, s, Take(Take(v, MirrorCommit(next)), Observe))
  {
    var next := NextSend(w.b.sends[|w.b.sends| - 1]);
    var moved := Take(v, MirrorCommit(next));
    MirrorCommitMoves(v, next);
    ObserveAdvances(moved);
    Quietly(v, |v.wire|, MirrorCommit(next));
    Quietly(moved, |v.wire|, Observe);
    MovedIsDone(w, s, v, Take(moved, Observe), next);
  }

  lemma MovedIsDone(w: World, s: Secret, landed: World, v: World, next: Shared)
    requires Idle(w) && RoundLanded(w, s, landed) && Inv(v) && Tracks(v, |v.wire|)
    requires next.epoch == w.b.sends[|w.b.sends| - 1].epoch + 1
    requires v == landed.(a := landed.a.(seen := w.a.seen + 1), b := landed.b.(sends := landed.b.sends + [next]),
                          exports := v.exports)
    ensures RoundDone(w, s, v)
  {
  }

  lemma RoundCompletes(w: World, s: Secret, core: Core)
    requires Idle(w) && Room(w, 1) && core.adopting
    ensures RoundDone(w, s, Round(w, s, core))
  {
    RoundLands(w, s, core);
    MovesOn(w, s, Landed(w, s, core));
  }

  // ---- any number of rounds ----

  lemma RoomShrinks(w: World, s: Secret, v: World, n: nat)
    requires Room(w, n + 1) && RoundDone(w, s, v)
    ensures Room(v, n)
  {
  }

  function Rounds(w: World, secrets: seq<Secret>, core: Core): World
    requires Idle(w) && Room(w, |secrets|) && core.adopting
    decreases |secrets|
  {
    if secrets == [] then w
    else
      RoundCompletes(w, secrets[0], core);
      RoomShrinks(w, secrets[0], Round(w, secrets[0], core), |secrets| - 1);
      Rounds(Round(w, secrets[0], core), secrets[1..], core)
  }

  /** What both message groups contain after a round, they contain after any number of further ones. */
  lemma {:induction false} RoundsKeep(w: World, secrets: seq<Secret>, core: Core, x: Secret)
    requires Idle(w) && Room(w, |secrets|) && core.adopting
    requires Contains(w.a.cl.Head().secret, x)
    ensures Contains(Rounds(w, secrets, core).a.cl.Head().secret, x)
    decreases |secrets|
  {
    if secrets != [] {
      var v := Round(w, secrets[0], core);
      RoundCompletes(w, secrets[0], core);
      RoomShrinks(w, secrets[0], v, |secrets| - 1);
      RoundKeeps(w, secrets[0], v, x);
      RoundsKeep(v, secrets[1..], core, x);
    }
  }

  lemma RoundKeeps(w: World, s: Secret, v: World, x: Secret)
    requires Idle(w) && RoundDone(w, s, v) && Contains(w.a.cl.Head().secret, x)
    ensures Contains(v.a.cl.Head().secret, x)
  {
    assert v.a.cl.At(|w.a.cl.log|) == w.a.cl.Head();
    EntropyIsKept(v.a.cl, |w.a.cl.log|, |v.a.cl.log|, x);
  }

  /** What `secrets` rounds did to a world. */
  ghost predicate RoundsDone(w: World, secrets: seq<Secret>, v: World) {
    && Idle(v) && |v.completed| == |w.completed| + |secrets|
    && (forall s :: s in secrets ==> Contains(v.a.cl.Head().secret, s))
    && v.a.seen == w.a.seen + |secrets|
    && (if secrets == [] then v == w else v.a.bound == Some(v.a.seen - 1))
  }

  lemma OneMoreDone(w: World, secrets: seq<Secret>, mid: World, v: World)
    requires secrets != [] && RoundDone(w, secrets[0], mid) && RoundsDone(mid, secrets[1..], v)
    requires Contains(v.a.cl.Head().secret, secrets[0])
    ensures RoundsDone(w, secrets, v)
  {
    forall s | s in secrets ensures Contains(v.a.cl.Head().secret, s) {
      assert s == secrets[0] || s in secrets[1..];
    }
  }

  lemma {:induction false} RoundsFollow(w: World, secrets: seq<Secret>, core: Core)
    requires Idle(w) && Room(w, |secrets|) && core.adopting
    ensures RoundsDone(w, secrets, Rounds(w, secrets, core))
    decreases |secrets|
  {
    if secrets != [] {
      var v := Round(w, secrets[0], core);
      RoundCompletes(w, secrets[0], core);
      RoomShrinks(w, secrets[0], v, |secrets| - 1);
      RoundsFollow(v, secrets[1..], core);
      RoundsKeep(v, secrets[1..], core, secrets[0]);
      OneMoreDone(w, secrets, v, Rounds(v, secrets[1..], core));
    }
  }

  /** After n rounds: n binds completed, every one of the n secrets in both message groups, both halves of the
      mirror at the owner's states, and n new states of the mirror's own group applied, the last but one bound. */
  lemma RoundsComplete(w: World, secrets: seq<Secret>, core: Core)
    requires Idle(w) && Room(w, |secrets|) && core.adopting
    ensures var v := Rounds(w, secrets, core);
            && RoundsDone(w, secrets, v)
            && v.b.cl.shared == v.a.cl.Head() && v.b.pq.shared == v.a.pq.Head()
  {
    RoundsFollow(w, secrets, core);
    InStepCatchesUp(Rounds(w, secrets, core), |Rounds(w, secrets, core).wire|);
  }
}
