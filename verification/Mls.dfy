/** An MLS group as the combiner sees it: the state all members share, how a commit moves it
    (sections 8 and 12.4 of RFC 9420), and what one member keeps privately. Signatures, trees and
    message encryption are abstracted; processing that fails leaves the group as it was. */
module Mls {
  import opened Prelude
  import opened KeySchedule
  import opened Proposals
  import opened Component
  import opened Rules
  import Authentication

  type Core = Authentication.Core

  type PskMap = map<PskRef, Secret>

  datatype Shared = Shared(groupId: Bytes, suite: nat, epoch: U64, roster: Roster, extensions: Extensions,
                           secret: Secret)

  /** A fresh leaf and path secret the committer contributes. */
  datatype Path = Path(leaf: Leaf, secret: Secret)

  datatype Tag = Tag(of: Secret)

  datatype Commit = Commit(groupId: Bytes, epoch: U64, source: CommitSource, proposals: Bundle, path: Option<Path>,
                           confirmation: Tag)

  datatype MlsError =
    | WrongGroup
    | WrongEpoch
    | Refused(rule: RuleError)
    | UnknownSender
    | Credential
    | MissingPath
    | MissingPsk
    | BadConfirmation
    | EpochLimit

  // ---- applying a commit ----

  function UpdateLeaves(roster: Roster, b: Bundle): Roster {
    if b == [] then roster
    else
      var r := UpdateLeaves(roster, b[..|b| - 1]);
      var p := b[|b| - 1];
      if p.proposal.Update? && p.sender.Member? && p.sender.index in r then r[p.sender.index := p.proposal.leaf] else r
  }

  function RemoveLeaves(roster: Roster, b: Bundle): Roster {
    if b == [] then roster
    else
      var r := RemoveLeaves(roster, b[..|b| - 1]);
      if b[|b| - 1].proposal.Remove? then r - {b[|b| - 1].proposal.index} else r
  }

  /** The leftmost blank leaf at or after `from`. */
  function FreeIndex(roster: Roster, from: nat): (i: nat)
    ensures i >= from && i !in roster
    ensures forall k :: from <= k < i ==> k in roster
    decreases |set k | k in roster && k >= from|
  {
    if from in roster then
      var above := set k | k in roster && k >= from + 1;
      var all := set k | k in roster && k >= from;
      assert all == above + {from};
      FreeIndex(roster, from + 1)
    else from
  }

  function AddLeaves(roster: Roster, b: Bundle): Roster {
    if b == [] then roster
    else
      var r := AddLeaves(roster, b[..|b| - 1]);
      var p := b[|b| - 1].proposal;
      if p.Add? then r[FreeIndex(r, 0) := p.leaf] else r
  }

  function ReplaceExtensions(extensions: Extensions, b: Bundle): Extensions {
    if b == [] then extensions
    else
      var p := b[|b| - 1].proposal;
      if p.GroupContextExtensions? then p.extensions else ReplaceExtensions(extensions, b[..|b| - 1])
  }

  function ApplyProposals(roster: Roster, b: Bundle): Roster {
    AddLeaves(RemoveLeaves(UpdateLeaves(roster, b), b), b)
  }

  function NextRoster(g: Shared, c: Commit): Roster {
    var r := ApplyProposals(g.roster, c.proposals);
    if c.path.Some? && c.source.ExistingMember? then r[c.source.index := c.path.value.leaf] else r
  }

  /** The values of the PSKs a commit names, in order. */
  function Resolve(b: Bundle, store: PskMap): Option<seq<Secret>> {
    if b == [] then Some([])
    else
      match Resolve(b[..|b| - 1], store)
      case None => None
      case Some(values) =>
        var p := b[|b| - 1].proposal;
        if !p.Psk? then Some(values)
        else if p.ref in store then Some(values + [store[p.ref]])
        else None
  }

  function Advance(g: Shared, c: Commit, psks: seq<Secret>): Shared
    requires g.epoch < EPOCH_UNBOUND - 1
  {
    var roster := NextRoster(g, c);
    var extensions := ReplaceExtensions(g.extensions, c.proposals);
    var commitSecret := if c.path.Some? then c.path.value.secret else Zero;
    Shared(g.groupId, g.suite, g.epoch + 1, roster, extensions,
           EpochSecret(g.secret, commitSecret, psks, Context(g.groupId, g.epoch + 1, roster, extensions)))
  }

  predicate ForcesPath(p: Proposal) {
    p.Update? || p.Remove? || p.ExternalInit? || p.GroupContextExtensions?
  }

  /** Section 12.4 of RFC 9420: no path may be omitted for an empty commit or for one of these
      proposals. The rules' hook keeps custom proposals off this list. */
  predicate PathRequired(b: Bundle) {
    b == [] || exists p | p in b :: ForcesPath(p.proposal)
  }

  predicate LeafMoveAllowed(roster: Roster, core: Core, index: nat, leaf: Leaf) {
    index in roster && core.ValidateMember(leaf.id) && core.ValidSuccessor(roster[index].id, leaf.id)
  }

  predicate CredentialsAllowed(g: Shared, core: Core, c: Commit) {
    && (forall p | p in c.proposals ::
          && (p.proposal.Update? && p.sender.Member? ==>
              LeafMoveAllowed(g.roster, core, p.sender.index, p.proposal.leaf))
          && (p.proposal.Add? ==> core.ValidateMember(p.proposal.leaf.id)))
    && (c.path.Some? && c.source.ExistingMember? ==> LeafMoveAllowed(g.roster, core, c.source.index, c.path.value.leaf))
  }

  /** Everything checked before a commit may apply, short of its PSKs and confirmation. */
  function Check(g: Shared, core: Core, c: Commit): Option<MlsError> {
    if c.groupId != g.groupId then Some(WrongGroup)
    else if c.epoch != g.epoch then Some(WrongEpoch)
    else if g.epoch >= EPOCH_UNBOUND - 1 then Some(EpochLimit)
    else if c.source.ExistingMember? && c.source.index !in g.roster then Some(UnknownSender)
    else
      match FilterProposals(c.source, |g.roster|, g.suite, g.epoch, c.proposals)
      case Err(e) => Some(Refused(e))
      case Ok(_) =>
        if PathRequired(c.proposals) && c.path.None? then Some(MissingPath)
        else if !CredentialsAllowed(g, core, c) then Some(Credential)
        else None
  }

  /** A received commit: the next state, or why it is refused. */
  function Process(g: Shared, core: Core, store: PskMap, c: Commit): (r: Result<Shared, MlsError>)
    ensures r.Ok? ==> r.value.groupId == g.groupId && r.value.suite == g.suite && r.value.epoch == g.epoch + 1
  {
    var refused := Check(g, core, c);
    if refused.Some? then Err(refused.value)
    else
      match Resolve(c.proposals, store)
      case None => Err(MissingPsk)
      case Some(psks) =>
        var next := Advance(g, c, psks);
        if c.confirmation != Tag(next.secret) then Err(BadConfirmation) else Ok(next)
  }

  /** A commit built by member `own`: the message and the state it will apply. The path rides iff
      the proposals require one or the rules pin one. */
  function Build(g: Shared, core: Core, store: PskMap, own: nat, b: Bundle, path: Path)
      : (r: Result<(Commit, Shared), MlsError>)
    ensures r.Ok? ==> r.value.1.groupId == g.groupId && r.value.1.epoch == g.epoch + 1
  {
    var withPath := PathRequired(b) || PathPinned(g.suite, b);
    var draft := Commit(g.groupId, g.epoch, ExistingMember(own), b, if withPath then Some(path) else None, Tag(Zero));
    var refused := Check(g, core, draft);
    if refused.Some? then Err(refused.value)
    else
      match Resolve(b, store)
      case None => Err(MissingPsk)
      case Some(psks) =>
        var next := Advance(g, draft, psks);
        Ok((draft.(confirmation := Tag(next.secret)), next))
  }

  /** What every member derives alike from the same commit: a receiver whose store agrees with the
      committer's on the named PSKs reaches the committer's very state, unless its own
      Authentication Service refuses a credential. */
  lemma {:induction false} ResolveAgrees(b: Bundle, s: PskMap, t: PskMap)
    requires forall p :: p in b && p.proposal.Psk? && p.proposal.ref in s ==>
              p.proposal.ref in t && t[p.proposal.ref] == s[p.proposal.ref]
    requires Resolve(b, s).Some?
    ensures Resolve(b, t) == Resolve(b, s)
  {
    if b != [] {
      assert b[|b| - 1] in b;
      forall p | p in b[..|b| - 1] ensures p in b {
      }
      ResolveAgrees(b[..|b| - 1], s, t);
    }
  }

  lemma ReceiverFollowsBuilder(g: Shared, core: Core, store: PskMap, own: nat, b: Bundle, path: Path, theirs: Core,
                               theirStore: PskMap)
    requires Build(g, core, store, own, b, path).Ok?
    requires forall p :: p in b && p.proposal.Psk? && p.proposal.ref in store ==>
               p.proposal.ref in theirStore && theirStore[p.proposal.ref] == store[p.proposal.ref]
    ensures var (c, next) := Build(g, core, store, own, b, path).value;
            Process(g, theirs, theirStore, c) == if CredentialsAllowed(g, theirs, c) then Ok(next) else Err(Credential)
  {
    ResolveAgrees(b, store, theirStore);
    var (c, next) := Build(g, core, store, own, b, path).value;
    assert Advance(g, c, Resolve(b, store).value) == next;
  }

  // ---- one member's copy ----

  /** The shared state, the member's own leaf index, and the exporter leaves spent this epoch. */
  datatype Replica = Replica(shared: Shared, own: nat, spent: set<nat>)

  function Moved(r: Replica, next: Shared): Replica {
    Replica(next, r.own, {})
  }

  datatype ExportedPsk = ExportedPsk(component: nat, pskId: Secret, psk: Secret)

  function StorageId(e: ExportedPsk): PskRef {
    Application(e.component, e.pskId)
  }

  function ExportedFrom(g: Shared, component: nat): ExportedPsk {
    var leaf := ExporterLeaf(g.secret, component);
    ExportedPsk(component, Derived(leaf, PskIdLabel), Derived(leaf, PskLabel))
  }

  /** `SafeExportSecret` and the two derivations; the leaf is consumed, so a second export of the
      same component in the same epoch fails. */
  function ExportPsk(r: Replica, component: nat): Result<(ExportedPsk, Replica), CombinerError> {
    if component in r.spent then Err(CombinerError.Mls)
    else Ok((ExportedFrom(r.shared, component), r.(spent := r.spent + {component})))
  }

  /** Two exports name the same stored PSK only if they come from the same epoch secret and
      component, and then they carry the same value. */
  lemma ExportsNeverCollide(g: Shared, h: Shared, c: nat, d: nat)
    ensures StorageId(ExportedFrom(g, c)) == StorageId(ExportedFrom(h, d)) <==> g.secret == h.secret && c == d
    ensures StorageId(ExportedFrom(g, c)) == StorageId(ExportedFrom(h, d)) ==> ExportedFrom(g, c) == ExportedFrom(h, d)
  {
    if StorageId(ExportedFrom(g, c)) == StorageId(ExportedFrom(h, d)) {
      var a, b := ExporterLeaf(g.secret, c), ExporterLeaf(h.secret, d);
      assert Derived(a, PskIdLabel) == Derived(b, PskIdLabel);
      assert a == b;
    }
  }

  // ---- what a commit is refused for ----

  /** Each refusal, in the order the checks are made; what passes them all is the state the commit's own
      confirmation names. */
  lemma RefusalNames(g: Shared, core: Core, store: PskMap, c: Commit)
    ensures var r := Process(g, core, store, c);
            if c.groupId != g.groupId then r == Err(WrongGroup)
            else if c.epoch != g.epoch then r == Err(WrongEpoch)
            else if g.epoch >= EPOCH_UNBOUND - 1 then r == Err(EpochLimit)
            else if c.source.ExistingMember? && c.source.index !in g.roster then r == Err(UnknownSender)
            else if !Whitelisted(c.source, |g.roster|, g.suite, g.epoch, c.proposals) then r.Err? && r.error.Refused?
            else if PathRequired(c.proposals) && c.path.None? then r == Err(MissingPath)
            else if !CredentialsAllowed(g, core, c) then r == Err(Credential)
            else if Resolve(c.proposals, store).None? then r == Err(MissingPsk)
            else if c.confirmation != Tag(Advance(g, c, Resolve(c.proposals, store).value).secret) then
                r == Err(BadConfirmation)
            else r.Ok? && c.confirmation == Tag(r.value.secret)
  {
    FilterIff(c.source, |g.roster|, g.suite, g.epoch, c.proposals);
  }

  /** A built commit carries the committer's path iff it is empty, folds an Update, or is the classical half of
      an attested pair: an Add, a PSK or a PQ attestation alone brings none. */
  lemma PathRidesIff(g: Shared, core: Core, store: PskMap, own: nat, b: Bundle, path: Path)
    requires Build(g, core, store, own, b, path).Ok?
    ensures var c := Build(g, core, store, own, b, path).value.0;
            && c.groupId == g.groupId && c.epoch == g.epoch && c.source == ExistingMember(own) && c.proposals == b
            && c.path == if PathRides(g, b) then Some(path) else None
  {
    var draft := Commit(g.groupId, g.epoch, ExistingMember(own), b,
                        if PathRequired(b) || PathPinned(g.suite, b) then Some(path) else None, Tag(Zero));
    assert Check(g, core, draft).None?;
    FilterIff(ExistingMember(own), |g.roster|, g.suite, g.epoch, b);
    PathRule(g, own, b);
  }

  ghost predicate PathRides(g: Shared, b: Bundle) {
    || b == []
    || (exists k :: 0 <= k < |b| && b[k].proposal.Update?)
    || (SuiteIsPq(g.suite) != Some(true) && exists k :: 0 <= k < |b| && b[k].proposal.Custom?)
  }

  lemma PathRule(g: Shared, own: nat, b: Bundle)
    requires Whitelisted(ExistingMember(own), |g.roster|, g.suite, g.epoch, b)
    ensures PathRequired(b) || PathPinned(g.suite, b) <==> PathRides(g, b)
  {
    forall p | p in b ensures !NeverLegitimate(p.proposal) {
      var k :| 0 <= k < |b| && b[k] == p;
    }
    if k :| 0 <= k < |b| && b[k].proposal.Update? {
      assert b[k] in b;
    }
    if k :| 0 <= k < |b| && b[k].proposal.Custom? {
      assert b[k] in Customs(b);
      assert b[k].proposal.custom.kind == APP_DATA_UPDATE;
    }
    forall c | c in Customs(b) ensures exists k :: 0 <= k < |b| && b[k] == c && b[k].proposal.Custom? {
      assert c in b;
    }
  }

  /** A receiver in the builder's state accepts what the builder built iff its Authentication Service allows
      the credentials and its own PSKs resolve to the very values the builder used. */
  lemma ReceiverAcceptsIff(g: Shared, core: Core, store: PskMap, own: nat, b: Bundle, path: Path, theirs: Core,
                           held: PskMap)
    requires Build(g, core, store, own, b, path).Ok?
    ensures var (c, next) := Build(g, core, store, own, b, path).value;
            && (Process(g, theirs, held, c).Ok? <==>
                CredentialsAllowed(g, theirs, c) && Resolve(b, held) == Resolve(b, store))
            && (Process(g, theirs, held, c).Ok? ==> Process(g, theirs, held, c).value == next)
  {
    var (c, next) := Build(g, core, store, own, b, path).value;
    assert next == Advance(g, c, Resolve(b, store).value);
  }

  /** A new epoch's secret commits to everything it was made of: the group, its number, its members and
      extensions, the epoch before it, the committer's fresh secret and the PSKs. Two groups that agree on
      it agree on all of these. */
  lemma SecretBindsEpoch(g: Shared, c: Commit, psks: seq<Secret>, h: Shared, d: Commit, others: seq<Secret>)
    requires g.epoch < EPOCH_UNBOUND - 1 && h.epoch < EPOCH_UNBOUND - 1
    requires Advance(g, c, psks).secret == Advance(h, d, others).secret
    ensures var next, other := Advance(g, c, psks), Advance(h, d, others);
            && next.groupId == other.groupId && next.epoch == other.epoch
            && next.roster == other.roster && next.extensions == other.extensions
    ensures g.secret == h.secret && psks == others
    ensures c.path.Some? && d.path.Some? ==> c.path.value.secret == d.path.value.secret
  {
  }

  /** And nothing it was made of is left out: the previous epoch, a path's fresh secret and every PSK. */
  lemma EpochAbsorbs(g: Shared, c: Commit, psks: seq<Secret>)
    requires g.epoch < EPOCH_UNBOUND - 1
    ensures Contains(Advance(g, c, psks).secret, g.secret)
    ensures c.path.Some? ==> Contains(Advance(g, c, psks).secret, c.path.value.secret)
    ensures forall p :: p in psks ==> Contains(Advance(g, c, psks).secret, p)
    ensures Advance(g, c, psks).epoch == g.epoch + 1 && Advance(g, c, psks).groupId == g.groupId
  {
    assert Contains(g.secret, g.secret);
    if c.path.Some? {
      assert Contains(c.path.value.secret, c.path.value.secret);
    }
    forall p | p in psks ensures Contains(Advance(g, c, psks).secret, p) {
      assert Contains(p, p);
    }
  }

  /** A component's leaf can be exported once an epoch, independently of other components; the PSK and its
      name are different derivations of that leaf, which comes from the epoch secret. */
  lemma ExportsOnce(r: Replica, component: nat, other: nat)
    requires component !in r.spent && other !in r.spent && other != component
    ensures ExportPsk(r, component).Ok?
    ensures var (e, after) := ExportPsk(r, component).value;
            && after.shared == r.shared && after.own == r.own
            && ExportPsk(after, component).Err? && ExportPsk(after, other).Ok?
            && e.component == component && StorageId(e) == Application(component, e.pskId)
            && e.psk != e.pskId && Contains(e.psk, r.shared.secret) && Contains(e.pskId, r.shared.secret)
  {
    var leaf := ExporterLeaf(r.shared.secret, component);
    assert Contains(r.shared.secret, r.shared.secret);
    assert Contains(leaf, r.shared.secret);
    assert Contains(Derived(leaf, PskLabel), r.shared.secret) && Contains(Derived(leaf, PskIdLabel), r.shared.secret);
  }
}
