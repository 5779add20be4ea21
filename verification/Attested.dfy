/** What an accepted epoch attestation is worth, over runs mixing PARTIAL commits, A.5 re-keys and
    FULL binds from anyone. */
module Attested {
  import opened Prelude
  import opened Proposals
  import opened Component
  import opened Rules
  import opened Mls
  import opened Ratchet
  import Ownership

  predicate Carries(c: Commit, u: ApqInfoUpdate) {
    exists p :: p in c.proposals && p.proposal == Custom(ToCustomProposal(u))
  }

  function OwnEpoch(suite: nat, u: ApqInfoUpdate): U64 {
    if SuiteIsPq(suite) == Some(true) then u.pqEpoch else u.tEpoch
  }

  lemma OnlyOneCarried(c: Commit, q: ProposalInfo, v: ApqInfoUpdate, u: ApqInfoUpdate)
    requires Customs(c.proposals) == [q] && q.proposal.custom == ToCustomProposal(v)
    ensures Carries(c, u) <==> u == v
  {
    assert q in Customs(c.proposals);
    AttestationDecodesIff(ToCustomProposal(v), v);
    AttestationDecodesIff(ToCustomProposal(v), u);
    if Carries(c, u) {
      var p :| p in c.proposals && p.proposal == Custom(ToCustomProposal(u));
      assert p in Customs(c.proposals);
    }
  }

  /** In an accepted commit the attestation is always read without error: `None` iff it carries no
      custom proposal, and otherwise the one it carries, which names the epoch the commit starts. */
  lemma AcceptedAttestationIsTrue(g: Shared, core: Core, c: Commit)
    requires Check(g, core, c).None?
    ensures Attestation(c.proposals).Ok?
    ensures Attestation(c.proposals) == Ok(None) <==> forall p :: p in c.proposals ==> !p.proposal.Custom?
    ensures forall u :: Attestation(c.proposals) == Ok(Some(u)) <==> Carries(c, u)
    ensures forall u :: Carries(c, u) ==> OwnEpoch(g.suite, u) == g.epoch + 1
  {
    var b := c.proposals;
    var custom := (p: Proposal) => p.Custom?;
    Ownership.AcceptedIsWhitelisted(g, core, c);
    AttestationIff(b);
    SelectedOnce(b, custom);
    NoneSelected(b, custom);
    if Customs(b) != [] {
      var q := Customs(b)[0];
      assert q in b;
      var k :| 0 <= k < |b| && b[k] == q;
      var v :| q.proposal.custom == ToCustomProposal(v) && g.epoch + 1 == OwnEpoch(g.suite, v);
      assert Customs(b) == [q];
      forall u ensures Attestation(b) == Ok(Some(u)) <==> Carries(c, u)
               ensures Carries(c, u) ==> u == v
      {
        OnlyOneCarried(c, q, v, u);
        AttestationDecodesIff(ToCustomProposal(v), v);
        AttestationDecodesIff(ToCustomProposal(v), u);
      }
    } else {
      forall u ensures !Carries(c, u) {
      }
    }
  }

  // ---- both halves ----

  datatype Pair = Pair(cl: Shared, pq: Shared)

  datatype Event = Event(pq: bool, core: Core, store: PskMap, commit: Commit)

  /** Either half processes some commit; a refused one leaves it as it was. */
  function Take(s: Pair, e: Event): Pair {
    match Process(if e.pq then s.pq else s.cl, e.core, e.store, e.commit)
    case Err(_) => s
    case Ok(next) => if e.pq then s.(pq := next) else s.(cl := next)
  }

  function Run(s: Pair, events: seq<Event>): Pair {
    if events == [] then s else Take(Run(s, events[..|events| - 1]), events[|events| - 1])
  }

  /** How many of a run's PQ commits were accepted. */
  function PqAccepted(s: Pair, events: seq<Event>): nat {
    if events == [] then 0
    else
      var front := events[..|events| - 1];
      var e := events[|events| - 1];
      PqAccepted(s, front) + (if e.pq && Process(Run(s, front).pq, e.core, e.store, e.commit).Ok? then 1 else 0)
  }

  lemma {:induction false} RunMoves(s: Pair, events: seq<Event>)
    ensures var end := Run(s, events);
            end.pq.epoch == s.pq.epoch + PqAccepted(s, events) && end.pq.suite == s.pq.suite
                && end.cl.suite == s.cl.suite
  {
    if events != [] {
      RunMoves(s, events[..|events| - 1]);
    }
  }

  /** One FULL over any run: its PQ half is accepted, anything at all happens, its classical half is
      accepted with the same attestation. Both halves read that attestation back; its classical
      epoch is the one just entered, and its PQ epoch is still the current one iff no other PQ
      commit was accepted in between. */
  lemma FullAttestsBothEpochs(s: Pair, bind: Event, between: seq<Event>, last: Event, u: ApqInfoUpdate)
    requires SuiteIsPq(s.pq.suite) == Some(true) && SuiteIsPq(s.cl.suite) == Some(false)
    requires bind.pq && Carries(bind.commit, u) && Process(s.pq, bind.core, bind.store, bind.commit).Ok?
    requires !last.pq && Carries(last.commit, u)
    requires Process(Run(Take(s, bind), between).cl, last.core, last.store, last.commit).Ok?
    ensures Attestation(bind.commit.proposals) == Ok(Some(u)) && Attestation(last.commit.proposals) == Ok(Some(u))
    ensures var end := Take(Run(Take(s, bind), between), last);
            && end.cl.epoch == u.tEpoch
            && end.pq.epoch == u.pqEpoch + PqAccepted(Take(s, bind), between)
            && (end.pq.epoch == u.pqEpoch <==> PqAccepted(Take(s, bind), between) == 0)
  {
    var middle := Run(Take(s, bind), between);
    AcceptedAttestationIsTrue(s.pq, bind.core, bind.commit);
    RunMoves(Take(s, bind), between);
    AcceptedAttestationIsTrue(middle.cl, last.core, last.commit);
  }

  // ---- a bind that applies and still fails ----

  /** Applying a bind fails with the group already moved iff the commit is accepted and attests nothing:
      a commit that attests moves and succeeds, a refused one does neither. */
  lemma ApplyFailsMovedIff(r: Replica, core: Core, store: PskMap, c: Commit)
    requires Ownership.TwoParty(r.shared.roster)
    ensures var (v, after) := Applied(r, core, store, CommitMessage(c), NoFault);
            v.Err? && after.shared != r.shared <==>
            Receive(r, core, store, c).Ok? && forall p :: p in c.proposals ==> !p.proposal.Custom?
    ensures var (v, after) := Applied(r, core, store, CommitMessage(c), NoFault);
            v.Err? && after.shared != r.shared ==> v == Err(ApqInfoMismatch)
  {
    if Receive(r, core, store, c).Ok? {
      AcceptedAttestationIsTrue(r.shared, core, c);
      Ownership.SteadyCommit(r.shared, core, c, 0);
      Ownership.RosterSizes(Receive(r, core, store, c).value.roster);
    }
  }

  /** When the export itself fails, every accepted commit moves the group and fails. */
  lemma ExportFailsMovedIff(r: Replica, core: Core, store: PskMap, c: Commit)
    ensures var (v, after) := Applied(r, core, store, CommitMessage(c), OnExport);
            v.Err? && (after.shared != r.shared <==> Receive(r, core, store, c).Ok?)
  {
  }

  /** Such a commit exists for every two-party ML-KEM group with room: the peer's empty commit, which
      only refreshes its own leaf. */
  lemma EmptyCommitMovesAndFails(r: Replica, core: Core, store: PskMap, path: Path)
    requires Ownership.TwoParty(r.shared.roster) && r.own == 0
    requires r.shared.suite == ML_KEM_768 && r.shared.epoch < EPOCH_UNBOUND - 1
    requires path.leaf.id == r.shared.roster[1].id && core.ValidateMember(path.leaf.id)
    ensures var built := Build(r.shared, core, store, 1, [], path);
            && built.Ok? && built.value.1.epoch == r.shared.epoch + 1
            && Applied(r, core, store, CommitMessage(built.value.0), NoFault) ==
                (Err(ApqInfoMismatch), Moved(r, built.value.1))
  {
    Ownership.RosterSizes(r.shared.roster);
    FilterIff(ExistingMember(1), 2, r.shared.suite, r.shared.epoch, []);
    ReceiverFollowsBuilder(r.shared, core, store, 1, [], path, core, store);
  }
}
