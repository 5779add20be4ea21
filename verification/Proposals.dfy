/** The MLS proposals a commit can carry, whitelisted or not. */
module Proposals {
  import opened Prelude
  import opened KeySchedule

  /** How a commit names a PSK, and the key its value is stored under. */
  datatype PskRef =
    | External(id: Bytes)
    | Application(component: nat, pskId: Secret)
    | Resumption

  datatype CustomProposal = CustomProposal(kind: nat, data: Bytes)

  datatype Proposal =
    | Add(leaf: Leaf)
    | Update(leaf: Leaf)
    | Remove(index: nat)
    | Psk(ref: PskRef)
    | ReInit
    | ExternalInit
    | GroupContextExtensions(extensions: Extensions)
    | Custom(custom: CustomProposal)

  datatype Sender = Member(index: nat) | NonMember

  datatype ProposalInfo = ProposalInfo(proposal: Proposal, sender: Sender)

  datatype CommitSource = ExistingMember(index: nat) | NewMember

  type Bundle = seq<ProposalInfo>

  /** The proposals of one kind, in order (mls-rs's per-kind accessors of a bundle). */
  function Select(b: Bundle, kind: Proposal -> bool): (r: Bundle)
    ensures forall p :: p in r <==> p in b && kind(p.proposal)
    ensures |r| <= |b|
  {
    if b == [] then []
    else
      var rest := Select(b[..|b| - 1], kind);
      assert b == b[..|b| - 1] + [b[|b| - 1]];
      if kind(b[|b| - 1].proposal) then rest + [b[|b| - 1]] else rest
  }

  function Adds(b: Bundle): Bundle { Select(b, (p: Proposal) => p.Add?) }

  function Updates(b: Bundle): Bundle { Select(b, (p: Proposal) => p.Update?) }

  function Customs(b: Bundle): Bundle { Select(b, (p: Proposal) => p.Custom?) }

  function Psks(b: Bundle): Bundle { Select(b, (p: Proposal) => p.Psk?) }

  /** Neither the whitelist's rejected kinds nor anything else that could change who is in the
      group or what its context says. */
  predicate NeverLegitimate(p: Proposal) {
    p.Remove? || p.ReInit? || p.ExternalInit? || p.GroupContextExtensions?
  }

  /** How many proposals of a kind a bundle holds, counted by position. */
  lemma {:induction false} SelectedOnce(b: Bundle, kind: Proposal -> bool)
    ensures |Select(b, kind)| <= 1 <==>
            forall i, j :: 0 <= i < j < |b| ==> !(kind(b[i].proposal) && kind(b[j].proposal))
  {
    if b != [] {
      var front := b[..|b| - 1];
      SelectedOnce(front, kind);
      if kind(b[|b| - 1].proposal) && Select(front, kind) != [] {
        var p := Select(front, kind)[0];
        assert p in front;
        var i :| 0 <= i < |front| && front[i] == p;
        assert kind(b[i].proposal) && kind(b[|b| - 1].proposal);
      }
      if kind(b[|b| - 1].proposal) && Select(front, kind) == [] {
        forall i | 0 <= i < |front| ensures !kind(b[i].proposal) {
          assert front[i] in front;
        }
      }
    }
  }
}
