/** The record of spent exporter leaves is complete: whatever a party's state says it spent is in it. With
    no entry twice, that is the whole of what was exported. */
module ExportLog {
  import opened Prelude
  import opened KeySchedule
  import opened Component
  import opened Mls
  import opened History
  import opened Replicas
  import opened Invariant
  import opened OwnerSteps
  import opened Deliveries
  import opened Steps

  ghost predicate OwnerRecorded(w: World) {
    && (APQ_COMPONENT_ID in w.a.spent ==> Export(OWNER, APQ_COMPONENT_ID, w.a.pq.Head().epoch) in w.exports)
    && (w.a.bound.Some? && w.a.bound.value < |w.b.sends| ==>
          Export(OWNER, TWOMLS_COMPONENT_ID, w.b.sends[w.a.bound.value].epoch) in w.exports)
  }

  ghost predicate MirrorRecorded(w: World) {
    && (APQ_COMPONENT_ID in w.b.pq.spent ==> Export(MIRROR, APQ_COMPONENT_ID, w.b.pq.shared.epoch) in w.exports)
    && (forall k {:trigger w.b.sends[k]} :: 0 <= k < |w.b.sends| ==>
          Export(MIRROR, TWOMLS_COMPONENT_ID, w.b.sends[k].epoch) in w.exports)
  }

  ghost predicate Recorded(w: World) {
    OwnerRecorded(w) && MirrorRecorded(w)
  }

  /** The record only grows, and nothing was spent that it does not show. */
  ghost predicate Keeps(w: World, v: World) {
    && w.exports <= v.exports
    && v.a.pq.Head() == w.a.pq.Head() && v.a.spent == w.a.spent && v.a.bound == w.a.bound
    && v.b.pq == w.b.pq && v.b.sends == w.b.sends
  }

  lemma KeepsRecorded(w: World, v: World)
    requires Recorded(w) && Keeps(w, v)
    ensures Recorded(v)
  {
    forall x | x in w.exports ensures x in v.exports {
    }
  }

  lemma BindCrossRecords(w: World)
    requires Recorded(w) && EvidenceOk(w)
    ensures Recorded(BindCross(w))
  {
    forall x | x in w.exports ensures x in BindCross(w).exports {
    }
  }

  lemma PartialRecords(w: World, fold: Option<Leaf>, cross: Option<nat>, core: Core, path: Path)
    requires Recorded(w)
    ensures Recorded(TakePartial(w, fold, cross, core, path))
  {
    assert Keeps(w, TakePartial(w, fold, cross, core, path));
  }

  lemma FullRecords(w: World, fold: Option<Leaf>, cross: Option<nat>, core: Core, path: Path)
    requires Inv(w) && Recorded(w) && !w.a.broken && w.a.owed.Some?
    ensures Recorded(TakeFull(w, w.a.owed.value, fold, cross, core, path))
  {
    var v := TakeFull(w, w.a.owed.value, fold, cross, core, path);
    DischargeReaches(w);
    assert v.exports == w.exports + [Export(OWNER, APQ_COMPONENT_ID, w.a.pq.Head().epoch)];
    forall x | x in w.exports ensures x in v.exports {
    }
  }

  lemma CommitRecords(w: World, fold: Option<Leaf>, core: Core, path: Path)
    requires Inv(w) && Recorded(w)
    ensures Recorded(TakeCommit(w, fold, core, path))
  {
    if !w.a.broken {
      BindCrossKeeps(w);
      BindCrossRecords(w);
      if w.a.owed.Some? {
        FullRecords(BindCross(w), fold, NextCross(w), core, path);
      } else {
        PartialRecords(BindCross(w), fold, NextCross(w), core, path);
      }
    }
  }

  lemma TriggerRecords(w: World, core: Core, path: Path)
    requires Inv(w) && Recorded(w)
    ensures Recorded(TakeTrigger(w, core, path))
  {
    TriggerInjects(w, core, path);
    var v := TakeTrigger(w, core, path);
    if |v.a.pq.log| <= |w.a.pq.log| {
      TriggerDropsOffer(w, core, path);
      KeepsRecorded(w, v);
    }
  }

  lemma RekeyRecords(w: World, leaf: Leaf, cross: Option<Shared>, core: Core, path: Path)
    requires Inv(w) && Recorded(w)
    ensures Recorded(TakeRekey(w, leaf, cross, core, path))
  {
    RekeyCommits(w, leaf, cross, core, path);
    var v := TakeRekey(w, leaf, cross, core, path);
    if |v.a.pq.log| <= |w.a.pq.log| {
      RekeyFails(w, leaf, cross, core, path);
      KeepsRecorded(w, v);
    }
  }

  lemma MirrorCommitRecords(w: World, next: Shared)
    requires Recorded(w) && EvidenceOk(w)
    ensures Recorded(TakeMirrorCommit(w, next))
  {
    var v := TakeMirrorCommit(w, next);
    forall x | x in w.exports ensures x in v.exports {
    }
    forall k | 0 <= k < |v.b.sends| ensures Export(MIRROR, TWOMLS_COMPONENT_ID, v.b.sends[k].epoch) in v.exports {
      if k < |w.b.sends| {
        assert v.b.sends[k] == w.b.sends[k];
      }
    }
  }

  /** The mirror's PQ half moved, spending nothing yet in its new epoch. */
  lemma MovedRecords(w: World, v: World)
    requires Recorded(w) && v.a == w.a && v.exports == w.exports && v.b.sends == w.b.sends && v.b.pq.spent == {}
    ensures Recorded(v)
  {
  }

  /** The mirror's PQ half moved and exported there. */
  lemma ExportRecorded(w: World, v: World)
    requires Recorded(w) && v.a == w.a && v.b.sends == w.b.sends
    requires v.exports == w.exports + [Export(MIRROR, APQ_COMPONENT_ID, v.b.pq.shared.epoch)]
    ensures Recorded(v)
  {
    forall x | x in w.exports ensures x in v.exports {
    }
  }

  lemma FullOutcomeRecords(w: World, i: nat, j: nat, offer: nat, core: Core, own: Option<Shared>)
    requires Recorded(w) && i < |w.a.cl.log| && j < |w.a.pq.log|
    ensures Recorded(Outcome(w, Frame(Full(i, j), offer), core, own))
  {
    KeepsRecorded(w, Noted(w, offer));
    KeepsRecorded(w, Missed(w));
    ExportRecorded(w, HalfDone(w, j));
    ExportRecorded(w, Noted(Finished(w, i, j), offer));
  }

  lemma OutcomeRecords(w: World, m: Message, core: Core, own: Option<Shared>)
    requires Recorded(w)
    ensures Recorded(Outcome(w, m, core, own))
  {
    var v := Outcome(w, m, core, own);
    match m
    case Frame(Birth, _) => KeepsRecorded(w, v);
    case Frame(Partial(_), _) => KeepsRecorded(w, v);
    case Frame(Full(i, j), offer) =>
      if i < |w.a.cl.log| && j < |w.a.pq.log| {
        FullOutcomeRecords(w, i, j, offer, core, own);
      }
    case RekeyFrame(j) =>
      if j < |w.a.pq.log| && RekeyApplies(w, j, core, own) {
        MovedRecords(w, v);
      } else {
        KeepsRecorded(w, v);
      }
  }

  lemma SameRecords(v: World, u: World)
    requires Recorded(v) && u == v
    ensures Recorded(u)
  {
  }

  lemma DeliverRecords(w: World, k: nat, core: Core, own: Option<Shared>)
    requires Inv(w) && Recorded(w)
    ensures Recorded(TakeDeliver(w, k, core, own))
  {
    if w.b.wedged || k >= |w.wire| {
      SameRecords(w, TakeDeliver(w, k, core, own));
    } else {
      DeliverHasOutcome(w, k, core, own);
      OutcomeRecords(w, w.wire[k], core, own);
      SameRecords(Outcome(w, w.wire[k], core, own), TakeDeliver(w, k, core, own));
    }
  }

  lemma QuietRecords(w: World, step: Step)
    requires Recorded(w) && (step.Observe? || step.Begin? || step.Respond? || step.Open? || step.Resend?)
    ensures Recorded(Take(w, step))
  {
    assert Keeps(w, Take(w, step));
  }

  lemma StepRecords(w: World, step: Step)
    requires Inv(w) && Recorded(w)
    ensures Recorded(Take(w, step))
  {
    match step
    case Trigger(core, path) => TriggerRecords(w, core, path);
    case CommitClassical(fold, core, path) => CommitRecords(w, fold, core, path);
    case Rekey(leaf, cross, core, path) => RekeyRecords(w, leaf, cross, core, path);
    case Deliver(k, core, own) => DeliverRecords(w, k, core, own);
    case MirrorCommit(next) => MirrorCommitRecords(w, next);
    case _ => QuietRecords(w, step);
  }

  lemma {:induction false} RunRecords(w: World, steps: seq<Step>)
    requires Inv(w) && Recorded(w)
    ensures Recorded(Run(w, steps))
  {
    if steps != [] {
      RunRecords(w, steps[..|steps| - 1]);
      RunKeeps(w, steps[..|steps| - 1]);
      StepRecords(Run(w, steps[..|steps| - 1]), steps[|steps| - 1]);
    }
  }
}
