/** Leaf ownership over whole runs: the operation whitelist and the Authentication Service
    together keep a group two-party, each leaf under its owner's authorship and credentials, and
    the GroupContext extensions as they were created. */
module Ownership {
  import opened Prelude
  import opened KeySchedule
  import opened Proposals
  import opened Rules
  import opened Mls
  import Authentication
  import CommitLog

  // ---- what a whitelisted bundle can do to a roster ----

  lemma {:induction false} NoRemoves(roster: Roster, b: Bundle)
    requires forall k :: 0 <= k < |b| ==> !NeverLegitimate(b[k].proposal)
    ensures RemoveLeaves(roster, b) == roster
  {
    if b != [] {
      NoRemoves(roster, b[..|b| - 1]);
    }
  }

  lemma {:induction false} NoContextChange(extensions: Extensions, b: Bundle)
    requires forall k :: 0 <= k < |b| ==> !NeverLegitimate(b[k].proposal)
    ensures ReplaceExtensions(extensions, b) == extensions
  {
    if b != [] {
      NoContextChange(extensions, b[..|b| - 1]);
    }
  }

  lemma {:induction false} NoAdds(roster: Roster, b: Bundle)
    requires forall k :: 0 <= k < |b| ==> !b[k].proposal.Add?
    ensures AddLeaves(roster, b) == roster
  {
    if b != [] {
      NoAdds(roster, b[..|b| - 1]);
    }
  }

  lemma {:induction false} NoUpdates(roster: Roster, b: Bundle)
    requires forall k :: 0 <= k < |b| ==> !b[k].proposal.Update?
    ensures UpdateLeaves(roster, b) == roster
  {
    if b != [] {
      NoUpdates(roster, b[..|b| - 1]);
    }
  }

  lemma {:induction false} OneAdd(roster: Roster, b: Bundle, at: nat)
    requires at < |b| && b[at].proposal.Add?
    requires forall k :: 0 <= k < |b| && k != at ==> !b[k].proposal.Add?
    ensures AddLeaves(roster, b) == roster[FreeIndex(roster, 0) := b[at].proposal.leaf]
  {
    if at < |b| - 1 {
      OneAdd(roster, b[..|b| - 1], at);
    } else {
      NoAdds(roster, b[..|b| - 1]);
    }
  }

  /** An Update proposal in the bundle, sent by `index`, that puts `leaf` there. */
  ghost predicate Proposed(b: Bundle, index: nat, leaf: Leaf) {
    exists k :: 0 <= k < |b| && b[k] == ProposalInfo(Update(leaf), Member(index))
  }

  /** Updates change no membership, and a leaf only to something its own member proposed. */
  lemma {:induction false} UpdatesAreAuthored(roster: Roster, b: Bundle, index: nat)
    requires index in roster
    ensures UpdateLeaves(roster, b).Keys == roster.Keys
    ensures UpdateLeaves(roster, b)[index] == roster[index] || Proposed(b, index, UpdateLeaves(roster, b)[index])
  {
    if b != [] {
      UpdatesAreAuthored(roster, b[..|b| - 1], index);
      var p := b[|b| - 1];
      var before := UpdateLeaves(roster, b[..|b| - 1]);
      if Proposed(b[..|b| - 1], index, before[index]) {
        var k :| 0 <= k < |b| - 1 && b[k] == ProposalInfo(Update(before[index]), Member(index));
        assert Proposed(b, index, before[index]);
      }
      if p.proposal.Update? && p.sender == Member(index) {
        assert b[|b| - 1] == ProposalInfo(Update(p.proposal.leaf), Member(index));
      }
    }
  }

  /** The content that put `leaf` at `index` was authored by that leaf's own member: its Update,
      or its own commit's path. */
  ghost predicate AuthoredByOwner(c: Commit, index: nat, leaf: Leaf) {
    || Proposed(c.proposals, index, leaf)
    || (c.source == ExistingMember(index) && c.path.Some? && c.path.value.leaf == leaf)
  }

  predicate TwoParty(roster: Roster) {
    roster.Keys == {0, 1}
  }

  predicate Alone(roster: Roster) {
    roster.Keys == {0}
  }

  lemma RosterSizes(roster: Roster)
    ensures Alone(roster) ==> |roster| == 1
    ensures TwoParty(roster) ==> |roster| == 2
  {
  }

  lemma AcceptedIsWhitelisted(g: Shared, core: Core, c: Commit)
    requires Check(g, core, c).None?
    ensures Whitelisted(c.source, |g.roster|, g.suite, g.epoch, c.proposals)
  {
    FilterIff(c.source, |g.roster|, g.suite, g.epoch, c.proposals);
  }

  /** Any accepted commit of a two-party group: the same two leaves, each either untouched or moved
      by its own member within the Authentication Service, and the same extensions. */
  lemma SteadyCommit(g: Shared, core: Core, c: Commit, index: nat)
    requires Check(g, core, c).None? && TwoParty(g.roster) && index in {0, 1}
    ensures TwoParty(NextRoster(g, c))
    ensures ReplaceExtensions(g.extensions, c.proposals) == g.extensions
    ensures var leaf := NextRoster(g, c)[index];
            leaf == g.roster[index] ||
            (AuthoredByOwner(c, index, leaf) && LeafMoveAllowed(g.roster, core, index, leaf))
  {
    var b := c.proposals;
    RosterSizes(g.roster);
    AcceptedIsWhitelisted(g, core, c);
    NoContextChange(g.extensions, b);
    UpdatesAreAuthored(g.roster, b, index);
    NoRemoves(UpdateLeaves(g.roster, b), b);
    NoAdds(UpdateLeaves(g.roster, b), b);
    var leaf := UpdateLeaves(g.roster, b)[index];
    if leaf != g.roster[index] {
      var k :| 0 <= k < |b| && b[k] == ProposalInfo(Update(leaf), Member(index));
      assert b[k] in b;
    }
  }

  /** The accepted creation commit: the lone creator adds exactly one leaf, under index 1. */
  lemma CreationCommit(g: Shared, core: Core, c: Commit)
    requires Check(g, core, c).None? && Alone(g.roster)
    ensures TwoParty(NextRoster(g, c))
    ensures ReplaceExtensions(g.extensions, c.proposals) == g.extensions
    ensures exists p :: p in c.proposals && p.proposal == Add(NextRoster(g, c)[1])
    ensures var leaf := NextRoster(g, c)[0];
            leaf == g.roster[0] ||
            (AuthoredByOwner(c, 0, leaf) && LeafMoveAllowed(g.roster, core, 0, leaf))
  {
    var b := c.proposals;
    RosterSizes(g.roster);
    AcceptedIsWhitelisted(g, core, c);
    NoContextChange(g.extensions, b);
    NoUpdates(g.roster, b);
    NoRemoves(g.roster, b);
    var at :| 0 <= at < |b| && b[at].proposal.Add?;
    OneAdd(g.roster, b, at);
    assert FreeIndex(g.roster, 0) == 1;
    assert b[at] in b;
  }

  // ---- whole runs ----

  /** One replica's shared state beside the Authentication Service it consults. */
  datatype State = State(g: Shared, core: Core)

  datatype Step =
    | Deliver(commit: Commit, store: PskMap)
    | Record(mine: bool, event: Authentication.Event)
    | Adopt(open: bool)

  function Take(s: State, step: Step): State {
    match step
    case Deliver(c, store) =>
      (match Process(s.g, s.core, store, c)
       case Ok(next) => s.(g := next)
       case Err(_) => s)
    case Record(mine, e) =>
      if mine then s.(core := s.core.(mine := Authentication.Apply(s.core.mine, e)))
      else s.(core := s.core.(theirs := Authentication.Apply(s.core.theirs, e)))
    case Adopt(window) => s.(core := s.core.(adopting := window))
  }

  function Run(s: State, steps: seq<Step>): State {
    if steps == [] then s else Take(Run(s, steps[..|steps| - 1]), steps[|steps| - 1])
  }

  ghost predicate IdsIn(s: Authentication.Sequence, ids: iset<Bytes>) {
    forall id :: s.Admits(id) ==> id in ids
  }

  /** Which ids belong to which leaf's owner, and whether this replica's own sequence is leaf 0's. */
  datatype Owners = Owners(first: iset<Bytes>, second: iset<Bytes>, mineIsFirst: bool) {

    ghost predicate Disjoint() {
      first !! second
    }

    ghost function Of(index: nat): iset<Bytes> {
      if index == 0 then first else second
    }

    ghost function Mine(): iset<Bytes> {
      if mineIsFirst then first else second
    }

    ghost function Theirs(): iset<Bytes> {
      if mineIsFirst then second else first
    }
  }

  /** What a run's caller decides: each party's sequence is fed that party's ids, and the key
      package the creator adds is the peer's. Commits themselves are arbitrary. */
  ghost predicate Fed(o: Owners, step: Step) {
    match step
    case Deliver(c, _) => forall p :: p in c.proposals && p.proposal.Add? ==> p.proposal.leaf.id in o.second
    case Record(mine, e) => e.id in if mine then o.Mine() else o.Theirs()
    case Adopt(_) => true
  }

  ghost predicate Owned(o: Owners, s: State) {
    && (Alone(s.g.roster) || TwoParty(s.g.roster))
    && (forall index :: index in s.g.roster ==> s.g.roster[index].id in o.Of(index))
    && IdsIn(s.core.mine, o.Mine()) && IdsIn(s.core.theirs, o.Theirs())
  }

  lemma {:induction false} AppliedIdsStay(s: Authentication.Sequence, e: Authentication.Event, ids: iset<Bytes>)
    requires IdsIn(s, ids) && e.id in ids
    ensures IdsIn(Authentication.Apply(s, e), ids)
  {
    forall id | Authentication.Apply(s, e).Admits(id) ensures id in ids {
      AdmittedComesFrom(s, e, id);
    }
  }

  lemma AdmittedComesFrom(s: Authentication.Sequence, e: Authentication.Event, id: Bytes)
    requires Authentication.Apply(s, e).Admits(id)
    ensures s.Admits(id) || id == e.id
  {
    CommitLog.WithoutMembers(s.history, e.id, id);
    CommitLog.WithoutMembers(s.pinned, e.id, id);
  }

  /** A permitted move stays within the owner's sequence. */
  lemma MoveStaysOwned(o: Owners, s: State, index: nat, leaf: Leaf)
    requires o.Disjoint() && Owned(o, s) && index in s.g.roster
    requires LeafMoveAllowed(s.g.roster, s.core, index, leaf)
    ensures leaf.id in o.Of(index)
  {
    var pred := s.g.roster[index].id;
    if pred != leaf.id {
      assert s.core.mine.ValidSuccessor(pred, leaf.id) ==> s.core.mine.Admits(pred) && s.core.mine.Admits(leaf.id);
      assert s.core.theirs.ValidSuccessor(pred, leaf.id) ==>
          s.core.theirs.Admits(pred) && s.core.theirs.Admits(leaf.id);
    }
  }

  lemma StepStaysOwned(o: Owners, s: State, step: Step)
    requires o.Disjoint() && Owned(o, s) && Fed(o, step)
    ensures Owned(o, Take(s, step))
    ensures TwoParty(s.g.roster) ==> TwoParty(Take(s, step).g.roster)
    ensures Take(s, step).g != s.g ==> TwoParty(Take(s, step).g.roster)
    ensures Take(s, step).g.extensions == s.g.extensions
  {
    match step
    case Deliver(c, store) =>
      if Process(s.g, s.core, store, c).Ok? {
        var after := NextRoster(s.g, c);
        if Alone(s.g.roster) {
          CreationCommit(s.g, s.core, c);
          var p :| p in c.proposals && p.proposal == Add(after[1]);
          if after[0] != s.g.roster[0] {
            MoveStaysOwned(o, s, 0, after[0]);
          }
        } else {
          forall index | index in {0, 1}
            ensures TwoParty(after) && after[index].id in o.Of(index)
            ensures ReplaceExtensions(s.g.extensions, c.proposals) == s.g.extensions
          {
            SteadyCommit(s.g, s.core, c, index);
            if after[index] != s.g.roster[index] {
              MoveStaysOwned(o, s, index, after[index]);
            }
          }
          assert 0 in {0, 1};
        }
      }
    case Record(mine, e) =>
      if mine {
        AppliedIdsStay(s.core.mine, e, o.Mine());
      } else {
        AppliedIdsStay(s.core.theirs, e, o.Theirs());
      }
    case Adopt(_) =>
  }

  /** Over every run of arbitrary commits, credential events and adoption windows, from a lone creator
      or a joiner's two-party group: the roster is one leaf and then, from the first accepted commit
      on, always the same two; each leaf's credential stays among its owner's ids; the extensions
      never change. */
  lemma {:induction false} RunsStayOwned(o: Owners, s: State, steps: seq<Step>)
    requires o.Disjoint() && Owned(o, s)
    requires forall step :: step in steps ==> Fed(o, step)
    ensures var end := Run(s, steps);
            && Owned(o, end)
            && end.g.extensions == s.g.extensions
            && (end.g == s.g || TwoParty(end.g.roster))
            && (TwoParty(s.g.roster) ==> TwoParty(end.g.roster))
  {
    if steps != [] {
      RunsStayOwned(o, s, steps[..|steps| - 1]);
      assert steps[|steps| - 1] in steps;
      StepStaysOwned(o, Run(s, steps[..|steps| - 1]), steps[|steps| - 1]);
    }
  }

  /** In any state such a run reaches, a leaf that a step changes was moved by an accepted commit
      carrying its own member's content, within the Authentication Service. */
  lemma LeafChangesAreAuthored(s: State, step: Step, index: nat)
    requires Alone(s.g.roster) || TwoParty(s.g.roster)
    requires index in s.g.roster
    ensures index in Take(s, step).g.roster
    ensures Take(s, step).g.roster[index] != s.g.roster[index] ==>
              && step.Deliver?
              && AuthoredByOwner(step.commit, index, Take(s, step).g.roster[index])
              && LeafMoveAllowed(s.g.roster, s.core, index, Take(s, step).g.roster[index])
  {
    if step.Deliver? && Process(s.g, s.core, step.store, step.commit).Ok? {
      if Alone(s.g.roster) {
        CreationCommit(s.g, s.core, step.commit);
      } else {
        SteadyCommit(s.g, s.core, step.commit, index);
      }
    }
  }

  // ---- what was authored lands ----

  /** The one Update of a bundle puts its leaf at its sender's place. */
  lemma {:induction false} UpdateLands(roster: Roster, b: Bundle, at: nat, index: nat, leaf: Leaf)
    requires at < |b| && b[at] == ProposalInfo(Update(leaf), Member(index)) && index in roster
    requires forall k :: 0 <= k < |b| && k != at ==> !b[k].proposal.Update?
    ensures UpdateLeaves(roster, b) == roster[index := leaf]
  {
    if at < |b| - 1 {
      UpdateLands(roster, b[..|b| - 1], at, index, leaf);
    } else {
      NoUpdates(roster, b[..|b| - 1]);
    }
  }

  predicate CommitsPath(c: Commit, index: nat) {
    c.source == ExistingMember(index) && c.path.Some?
  }

  /** In an accepted two-party commit nothing is dropped: the committer's leaf becomes its path's, the
      other leaf becomes the one its member's Update carries, and a leaf with neither stays. */
  lemma SteadyCommitLands(g: Shared, core: Core, c: Commit, index: nat)
    requires Check(g, core, c).None? && TwoParty(g.roster) && index in {0, 1}
    ensures TwoParty(NextRoster(g, c))
    ensures CommitsPath(c, index) ==> NextRoster(g, c)[index] == c.path.value.leaf
    ensures forall leaf :: Proposed(c.proposals, index, leaf) ==> NextRoster(g, c)[index] == leaf
    ensures !CommitsPath(c, index) && (forall leaf :: !Proposed(c.proposals, index, leaf)) ==>
              NextRoster(g, c)[index] == g.roster[index]
  {
    var b := c.proposals;
    RosterSizes(g.roster);
    AcceptedIsWhitelisted(g, core, c);
    SteadyCommit(g, core, c, index);
    NoRemoves(UpdateLeaves(g.roster, b), b);
    NoAdds(UpdateLeaves(g.roster, b), b);
    if at :| 0 <= at < |b| && b[at].proposal.Update? {
      assert b[at].sender.Member? && b[at].sender.index != c.source.index;
      assert b[at] in b;
      assert LeafMoveAllowed(g.roster, core, b[at].sender.index, b[at].proposal.leaf);
      UpdateLands(g.roster, b, at, b[at].sender.index, b[at].proposal.leaf);
      forall leaf | Proposed(b, index, leaf) ensures leaf == b[at].proposal.leaf && index == b[at].sender.index {
        var k :| 0 <= k < |b| && b[k] == ProposalInfo(Update(leaf), Member(index));
        assert k == at;
      }
      assert Proposed(b, b[at].sender.index, b[at].proposal.leaf);
    } else {
      NoUpdates(g.roster, b);
    }
  }

  /** The accepted creation commit leaves the creator at its path's leaf, or where it was without one. */
  lemma CreationCommitLands(g: Shared, core: Core, c: Commit)
    requires Check(g, core, c).None? && Alone(g.roster)
    ensures TwoParty(NextRoster(g, c))
    ensures NextRoster(g, c)[0] == if CommitsPath(c, 0) then c.path.value.leaf else g.roster[0]
  {
    var b := c.proposals;
    RosterSizes(g.roster);
    AcceptedIsWhitelisted(g, core, c);
    NoUpdates(g.roster, b);
    NoRemoves(g.roster, b);
    var at :| 0 <= at < |b| && b[at].proposal.Add?;
    OneAdd(g.roster, b, at);
  }
}
