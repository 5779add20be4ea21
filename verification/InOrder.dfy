/** Delivery in order: whatever either party does meanwhile, and however often old messages are
    replayed, a mirror that gets every message in turn never wedges, completes every bind, and once
    it has them all is at the owner's own state in both halves. */
module InOrder {
  import opened Prelude
  import opened KeySchedule
  import opened Mls
  import opened History
  import opened Replicas
  import opened Invariant
  import opened Deliveries

  // ---- what the messages carry, in order ----

  /** The message carries a classical commit the first `count` do not include. */
  predicate CarriesNew(m: Message, count: nat) {
    m.Frame? && !m.staple.Birth? && m.staple.cl == count
  }

  /** How many classical commits the first `n` messages carry. */
  function Classical(wire: seq<Message>, n: nat): nat
    requires n <= |wire|
  {
    if n == 0 then 0
    else
      var before := Classical(wire, n - 1);
      if CarriesNew(wire[n - 1], before) then before + 1 else before
  }

  predicate IsNew(wire: seq<Message>, k: nat)
    requires k < |wire|
  {
    CarriesNew(wire[k], Classical(wire, k))
  }

  /** How many PQ commits the first `n` messages carry. */
  function Pq(wire: seq<Message>, n: nat): nat
    requires n <= |wire|
  {
    if n == 0 then 0
    else
      var carries := wire[n - 1].RekeyFrame? || (IsNew(wire, n - 1) && wire[n - 1].staple.Full?);
      Pq(wire, n - 1) + (if carries then 1 else 0)
  }

  /** How many binds the first `n` messages carry. */
  function Rounds(wire: seq<Message>, n: nat): nat
    requires n <= |wire|
  {
    if n == 0 then 0
    else Rounds(wire, n - 1) + (if IsNew(wire, n - 1) && wire[n - 1].staple.Full? then 1 else 0)
  }

  lemma {:induction false} CountsGrow(wire: seq<Message>, m: nat, n: nat)
    requires m <= n <= |wire|
    ensures Classical(wire, m) <= Classical(wire, n) && Pq(wire, m) <= Pq(wire, n)
  {
    if m < n {
      CountsGrow(wire, m, n - 1);
    }
  }

  lemma {:induction false} CountsExtend(wire: seq<Message>, longer: seq<Message>, n: nat)
    requires n <= |wire| && wire <= longer
    ensures Classical(longer, n) == Classical(wire, n) && Pq(longer, n) == Pq(wire, n)
              && Rounds(longer, n) == Rounds(wire, n)
  {
    if n > 0 {
      CountsExtend(wire, longer, n - 1);
    }
  }

  /** A message carries the commits that come next after those of earlier messages, or again one of
      those. */
  predicate Numbered(wire: seq<Message>, k: nat)
    requires k < |wire|
  {
    match wire[k]
    case RekeyFrame(j) => j == Pq(wire, k)
    case Frame(Birth, _) => true
    case Frame(Partial(i), _) => i <= Classical(wire, k)
    case Frame(Full(i, j), _) => i <= Classical(wire, k) && (i == Classical(wire, k) ==> j == Pq(wire, k))
  }

  /** The wire lists both logs in order; only an owed bind's PQ commit is not on it yet. */
  ghost predicate Ordered(w: World) {
    && (forall k {:trigger Numbered(w.wire, k)} :: 0 <= k < |w.wire| ==> Numbered(w.wire, k))
    && |w.a.cl.log| == Classical(w.wire, |w.wire|)
    && |w.a.pq.log| == Pq(w.wire, |w.wire|) + (if w.a.owed.Some? then 1 else 0)
    && (w.a.owed.Some? ==> w.a.owed.value.pq == Pq(w.wire, |w.wire|))
  }

  /** The mirror has applied exactly what the first `n` messages carry. */
  ghost predicate InStep(w: World, n: nat) {
    && n <= |w.wire| && !w.b.wedged
    && Classical(w.wire, n) <= |w.a.cl.log| && Pq(w.wire, n) <= |w.a.pq.log|
    && w.b.cl.shared == w.a.cl.At(Classical(w.wire, n))
    && w.b.pq.shared == w.a.pq.At(Pq(w.wire, n))
    && |w.completed| == Rounds(w.wire, n)
  }

  /** The mirror's Authentication Service allows the credentials of message `k`, and a re-key's PSK is
      registered. */
  ghost predicate Permits(w: World, k: nat, core: Core, own: Option<Shared>)
    requires k < |w.wire|
  {
    match w.wire[k]
    case Frame(c, _) =>
      IsNew(w.wire, k) ==>
        c.cl < |w.a.cl.log| && CredentialsAllowed(w.a.cl.log[c.cl].pre, core, w.a.cl.log[c.cl].message)
    case RekeyFrame(j) =>
      && j < |w.a.pq.log| && CredentialsAllowed(w.a.pq.log[j].pre, core, w.a.pq.log[j].message)
      && Named(w.a.pq.log[j].bundle, w.b.store + CrossPsk(own))
  }

  /** A delivery is the next message, permitted, or a replay of an earlier one. Every other step is
      free. */
  ghost predicate Admissible(w: World, n: nat, step: Step) {
    step.Deliver? ==> step.k < n || (step.k == n && n < |w.wire| && Permits(w, n, step.core, step.own))
  }

  ghost predicate AllAdmissible(w: World, steps: seq<Step>) {
    steps == [] ||
    (AllAdmissible(w, steps[..|steps| - 1])
     && Admissible(Run(w, steps[..|steps| - 1]), Delivered(steps[..|steps| - 1]), steps[|steps| - 1]))
  }

  function NextIndex(n: nat, step: Step): nat {
    if step.Deliver? && step.k == n then n + 1 else n
  }

  /** How many messages a run has delivered in order. */
  function Delivered(steps: seq<Step>): nat {
    if steps == [] then 0 else NextIndex(Delivered(steps[..|steps| - 1]), steps[|steps| - 1])
  }

  /** The mirror is in step with an owner whose wire is in order. */
  ghost predicate Tracks(w: World, n: nat) {
    Ordered(w) && InStep(w, n)
  }

  // ---- every other step keeps the wire in order ----

  /** What any step other than a delivery leaves of the order and of the mirror. */
  ghost predicate Continues(w: World, v: World) {
    && Ordered(v)
    && w.wire <= v.wire && w.a.cl.base == v.a.cl.base && w.a.pq.base == v.a.pq.base
    && w.a.cl.log <= v.a.cl.log && w.a.pq.log <= v.a.pq.log
    && v.b.cl == w.b.cl && v.b.pq == w.b.pq && v.b.wedged == w.b.wedged && v.completed == w.completed
  }

  lemma SentNext(w: World, v: World, m: Message)
    requires Ordered(w) && v.wire == w.wire + [m] && Numbered(v.wire, |w.wire|)
    requires |v.a.cl.log| == |w.a.cl.log| + (if CarriesNew(m, |w.a.cl.log|) then 1 else 0)
    requires v.a.owed == if m.RekeyFrame? || CarriesNew(m, |w.a.cl.log|) then None else w.a.owed
    requires |v.a.pq.log| == |w.a.pq.log| + (if m.RekeyFrame? then 1 else 0)
    requires m.RekeyFrame? ==> w.a.owed.None?
    requires CarriesNew(m, |w.a.cl.log|) ==> (m.staple.Full? <==> w.a.owed.Some?)
    ensures Ordered(v)
  {
    var n := |w.wire|;
    CountsExtend(w.wire, v.wire, n);
    forall k | 0 <= k < |v.wire| ensures Numbered(v.wire, k) {
      if k < n {
        assert Numbered(w.wire, k);
        CountsExtend(w.wire, v.wire, k);
      }
    }
  }

  lemma TriggerContinues(w: World, core: Core, path: Path)
    requires Ordered(w) && OwedOk(w.a)
    ensures Continues(w, TakeTrigger(w, core, path))
  {
  }

  lemma PartialContinues(w: World, fold: Option<Leaf>, cross: Option<nat>, core: Core, path: Path)
    requires Ordered(w) && w.a.owed.None?
    ensures Continues(w, TakePartial(w, fold, cross, core, path))
  {
    var v := TakePartial(w, fold, cross, core, path);
    if v.wire != w.wire {
      CountsExtend(w.wire, v.wire, |w.wire|);
      SentNext(w, v, v.wire[|w.wire|]);
    }
  }

  lemma FullContinues(w: World, fold: Option<Leaf>, cross: Option<nat>, core: Core, path: Path)
    requires Ordered(w) && w.a.owed.Some?
    ensures Continues(w, TakeFull(w, w.a.owed.value, fold, cross, core, path))
  {
    var v := TakeFull(w, w.a.owed.value, fold, cross, core, path);
    if v.wire != w.wire {
      CountsExtend(w.wire, v.wire, |w.wire|);
      SentNext(w, v, v.wire[|w.wire|]);
    }
  }

  lemma CommitContinues(w: World, fold: Option<Leaf>, core: Core, path: Path)
    requires Ordered(w)
    ensures Continues(w, TakeCommit(w, fold, core, path))
  {
    assert Ordered(BindCross(w)) && BindCross(w).a.owed == w.a.owed;
    if !w.a.broken {
      if w.a.owed.Some? {
        FullContinues(BindCross(w), fold, NextCross(w), core, path);
      } else {
        PartialContinues(BindCross(w), fold, NextCross(w), core, path);
      }
    }
  }

  lemma RekeyContinues(w: World, leaf: Leaf, cross: Option<Shared>, core: Core, path: Path)
    requires Ordered(w)
    ensures Continues(w, TakeRekey(w, leaf, cross, core, path))
  {
    var v := TakeRekey(w, leaf, cross, core, path);
    if v.wire != w.wire {
      CountsExtend(w.wire, v.wire, |w.wire|);
      SentNext(w, v, v.wire[|w.wire|]);
    }
  }

  lemma ResendContinues(w: World)
    requires Ordered(w) && Index(w.a.staple) == |w.a.cl.log| - 1
    ensures Continues(w, TakeResend(w))
  {
    var v := TakeResend(w);
    CountsExtend(w.wire, v.wire, |w.wire|);
    SentNext(w, v, Frame(w.a.staple, w.a.seen));
  }

  lemma QuietContinues(w: World, step: Step)
    requires Ordered(w)
    requires step.Observe? || step.MirrorCommit? || step.Begin? || step.Respond? || step.Open?
    ensures Continues(w, Take(w, step))
  {
  }

  lemma OthersContinue(w: World, step: Step)
    requires Ordered(w) && OwedOk(w.a) && Index(w.a.staple) == |w.a.cl.log| - 1 && !step.Deliver?
    ensures Continues(w, Take(w, step))
  {
    match step
    case Trigger(core, path) => TriggerContinues(w, core, path);
    case Rekey(leaf, cross, core, path) => RekeyContinues(w, leaf, cross, core, path);
    case CommitClassical(fold, core, path) => CommitContinues(w, fold, core, path);
    case Resend => ResendContinues(w);
    case _ => QuietContinues(w, step);
  }

  lemma MirrorStaysInStep(w: World, v: World, n: nat)
    requires InStep(w, n) && Continues(w, v)
    ensures InStep(v, n)
  {
    CountsExtend(w.wire, v.wire, n);
  }

  // ---- deliveries ----

  /** Only bookkeeping may differ: registered PSKs and evidence. */
  ghost predicate OnlyNotes(w: World, v: World) {
    v == w.(b := w.b.(store := v.b.store, applied := v.b.applied))
  }

  /** A frame whose commit the mirror is past changes neither of its groups. */
  lemma RepeatIsHarmless(w: World, n: nat, k: nat, core: Core, own: Option<Shared>)
    requires GroupsOk(w) && WireOk(w) && InStep(w, n) && k < |w.wire| && w.wire[k].Frame?
    requires w.wire[k].staple.Birth? || w.wire[k].staple.cl < Classical(w.wire, n)
    ensures OnlyNotes(w, Outcome(w, w.wire[k], core, own))
  {
    assert Sent(w.a, w.b.sends, w.wire[k]);
    if !w.wire[k].staple.Birth? {
      EpochOfCommit(w.a.cl, w.wire[k].staple.cl, Classical(w.wire, n));
    }
  }

  lemma OtherRekeyIdles(w: World, j: nat, at: nat, core: Core, own: Option<Shared>)
    requires HalfOk(w.a.pq, true) && j < |w.a.pq.log| && at <= |w.a.pq.log| && at != j
    requires w.b.pq.shared == w.a.pq.At(at)
    ensures !RekeyApplies(w, j, core, own)
  {
    EpochOfCommit(w.a.pq, j, at);
  }

  lemma ReplayedRekey(w: World, n: nat, k: nat, core: Core, own: Option<Shared>)
    requires GroupsOk(w) && WireOk(w) && Ordered(w) && InStep(w, n) && k < n && w.wire[k].RekeyFrame?
    ensures OnlyNotes(w, Outcome(w, w.wire[k], core, own))
  {
    assert Sent(w.a, w.b.sends, w.wire[k]) && Numbered(w.wire, k);
    CountsGrow(w.wire, k + 1, n);
    OtherRekeyIdles(w, w.wire[k].pq, Pq(w.wire, n), core, own);
  }

  /** A message the mirror is past changes neither group, spends nothing and never wedges. */
  lemma ReplayIsHarmless(w: World, n: nat, k: nat, core: Core, own: Option<Shared>)
    requires Inv(w) && Ordered(w) && InStep(w, n) && k < n
    ensures OnlyNotes(w, TakeDeliver(w, k, core, own))
  {
    DeliverHasOutcome(w, k, core, own);
    if w.wire[k].RekeyFrame? {
      ReplayedRekey(w, n, k, core, own);
    } else {
      assert Numbered(w.wire, k);
      CountsGrow(w.wire, k + 1, n);
      RepeatIsHarmless(w, n, k, core, own);
    }
  }

  /** The one outstanding secret is held, so the next bind finds it. */
  lemma SecretIsHeld(w: World, n: nat)
    requires GroupsOk(w) && WireOk(w) && RoundsOk(w) && Ordered(w)
    requires InStep(w, n) && n < |w.wire| && IsNew(w.wire, n) && w.wire[n].staple.Full?
    ensures w.b.held.Some? && w.wire[n].staple.pq < |w.a.pq.log|
    ensures w.b.pq.shared.epoch == w.a.pq.log[w.wire[n].staple.pq].pre.epoch
  {
    assert Sent(w.a, w.b.sends, w.wire[n]) && Numbered(w.wire, n);
    EpochOfCommit(w.a.pq, w.wire[n].staple.pq, w.wire[n].staple.pq);
    assert Unapplied(w, w.wire[n].staple.pq);
  }

  /** The mirror after the next message in order. */
  ghost predicate Advanced(w: World, n: nat, v: World)
    requires n < |w.wire|
  {
    && v.a == w.a && v.wire == w.wire && v.b.wedged == w.b.wedged
    && if !IsNew(w.wire, n) && w.wire[n].Frame? then OnlyNotes(w, v)
       else
         match w.wire[n]
         case Frame(Birth, _) => true
         case Frame(Partial(i), _) =>
           && i < |w.a.cl.log| && v.b.cl.shared == w.a.cl.log[i].post && v.b.pq == w.b.pq
           && |v.completed| == |w.completed|
         case Frame(Full(i, j), _) =>
           && i < |w.a.cl.log| && v.b.cl.shared == w.a.cl.log[i].post
           && j < |w.a.pq.log| && v.b.pq.shared == w.a.pq.log[j].post && |v.completed| == |w.completed| + 1
         case RekeyFrame(j) =>
           && j < |w.a.pq.log| && v.b.pq.shared == w.a.pq.log[j].post && v.b.cl == w.b.cl
           && |v.completed| == |w.completed|
  }

  lemma NextPartial(w: World, n: nat, core: Core, own: Option<Shared>)
    requires GroupsOk(w) && WireOk(w) && InStep(w, n) && n < |w.wire| && Permits(w, n, core, own)
    requires IsNew(w.wire, n) && w.wire[n].staple.Partial?
    ensures Advanced(w, n, Outcome(w, w.wire[n], core, own))
  {
    assert Sent(w.a, w.b.sends, w.wire[n]);
    EpochOfCommit(w.a.cl, w.wire[n].staple.cl, w.wire[n].staple.cl);
  }

  lemma NextFull(w: World, n: nat, core: Core, own: Option<Shared>)
    requires GroupsOk(w) && WireOk(w) && RoundsOk(w) && Ordered(w)
    requires InStep(w, n) && n < |w.wire| && Permits(w, n, core, own)
    requires IsNew(w.wire, n) && w.wire[n].staple.Full?
    ensures Advanced(w, n, Outcome(w, w.wire[n], core, own))
  {
    assert Sent(w.a, w.b.sends, w.wire[n]);
    EpochOfCommit(w.a.cl, w.wire[n].staple.cl, w.wire[n].staple.cl);
    SecretIsHeld(w, n);
  }

  lemma NextRekey(w: World, n: nat, core: Core, own: Option<Shared>)
    requires GroupsOk(w) && WireOk(w) && Ordered(w) && InStep(w, n) && n < |w.wire| && Permits(w, n, core, own)
    requires w.wire[n].RekeyFrame?
    ensures Advanced(w, n, Outcome(w, w.wire[n], core, own))
  {
    assert Sent(w.a, w.b.sends, w.wire[n]) && Numbered(w.wire, n);
    EpochOfCommit(w.a.pq, w.wire[n].pq, w.wire[n].pq);
    ResolvesIffNamed(w.a.pq.log[w.wire[n].pq].bundle, w.b.store + CrossPsk(own));
  }

  /** The next message in order applies in full. */
  lemma NextApplies(w: World, n: nat, core: Core, own: Option<Shared>)
    requires Inv(w) && Ordered(w) && InStep(w, n) && n < |w.wire| && Permits(w, n, core, own)
    ensures Advanced(w, n, TakeDeliver(w, n, core, own))
  {
    DeliverHasOutcome(w, n, core, own);
    assert Numbered(w.wire, n);
    if w.wire[n].RekeyFrame? {
      NextRekey(w, n, core, own);
    } else if !IsNew(w.wire, n) {
      RepeatIsHarmless(w, n, n, core, own);
    } else if w.wire[n].staple.Partial? {
      NextPartial(w, n, core, own);
    } else {
      NextFull(w, n, core, own);
    }
  }

  lemma AdvancedInStep(w: World, n: nat, v: World)
    requires Ordered(w) && InStep(w, n) && n < |w.wire| && Advanced(w, n, v)
    ensures InStep(v, n + 1)
  {
    assert Numbered(w.wire, n);
    CountsGrow(w.wire, n + 1, |w.wire|);
  }

  lemma DeliveryKeepsOrder(w: World, step: Step)
    requires Ordered(w) && step.Deliver?
    ensures Ordered(Take(w, step))
  {
  }

  lemma StepStaysInStep(w: World, n: nat, step: Step)
    requires Inv(w) && Tracks(w, n) && Admissible(w, n, step)
    ensures Tracks(Take(w, step), NextIndex(n, step))
  {
    if !step.Deliver? {
      OthersContinue(w, step);
      MirrorStaysInStep(w, Take(w, step), n);
    } else {
      DeliveryKeepsOrder(w, step);
      if step.k == n {
        NextApplies(w, n, step.core, step.own);
        AdvancedInStep(w, n, Take(w, step));
      } else {
        ReplayIsHarmless(w, n, step.k, step.core, step.own);
      }
    }
  }

  lemma {:induction false} RunTracks(w: World, steps: seq<Step>)
    requires Inv(w) && Tracks(w, 0) && AllAdmissible(w, steps)
    ensures Tracks(Run(w, steps), Delivered(steps))
  {
    if steps != [] {
      RunTracks(w, steps[..|steps| - 1]);
      RunKeeps(w, steps[..|steps| - 1]);
      StepStaysInStep(Run(w, steps[..|steps| - 1]), Delivered(steps[..|steps| - 1]), steps[|steps| - 1]);
    }
  }

  /** Nothing is undone and everything delivered is done. */
  ghost predicate CaughtUp(v: World, n: nat) {
    && n <= |v.wire| && !v.b.wedged && |v.completed| == Rounds(v.wire, n)
    && (n == |v.wire| ==>
          && v.b.cl.shared == v.a.cl.Head()
          && (v.a.owed.None? ==> v.b.pq.shared == v.a.pq.Head()))
  }

  /** Over every run that delivers in order, replays and all: the mirror never wedges and completes
      one round for every bind delivered; once everything sent is delivered its classical half is
      the owner's, and, unless a bind is owed, so is its PQ half. */
  lemma MirrorCatchesUp(w: World, steps: seq<Step>)
    requires Inv(w) && Tracks(w, 0) && AllAdmissible(w, steps)
    ensures CaughtUp(Run(w, steps), Delivered(steps))
  {
    RunTracks(w, steps);
    InStepCatchesUp(Run(w, steps), Delivered(steps));
  }

  lemma InStepCatchesUp(v: World, n: nat)
    requires Ordered(v) && InStep(v, n)
    ensures CaughtUp(v, n)
  {
  }
}
