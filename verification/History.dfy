/** The commits one group's single writer has made, and what any mirror of the group reaches by
    applying them. The writer is leaf 0; every entry is the outcome of its own build. */
module History {
  import opened Prelude
  import opened KeySchedule
  import opened Proposals
  import opened Component
  import opened Rules
  import opened Mls
  import opened Ownership
  import opened Ratchet

  const OWNER: nat := 0

  const MIRROR: nat := 1

  /** One commit: what it was built from, the message, and the state it starts. */
  datatype Entry = Entry(pre: Shared, core: Core, store: PskMap, bundle: Bundle, path: Path, message: Commit,
                         post: Shared) {

    predicate Sound() {
      Build(pre, core, store, OWNER, bundle, path) == Ok((message, post))
    }

    /** What a commit of a two-party group keeps and moves. */
    predicate Step() {
      && post.epoch == pre.epoch + 1 && post.groupId == pre.groupId && post.suite == pre.suite
      && post.extensions == pre.extensions && TwoParty(pre.roster) && TwoParty(post.roster)
      && post.secret.EpochSecret? && post.secret.init == pre.secret
    }
  }

  datatype History = History(base: Shared, log: seq<Entry>) {

    /** The writer's state after its first `i` commits. */
    function At(i: nat): Shared
      requires i <= |log|
    {
      if i == 0 then base else log[i - 1].post
    }

    function Head(): Shared {
      At(|log|)
    }

    predicate LinkedAt(i: nat)
      requires i < |log|
    {
      log[i].pre == At(i) && log[i].Step()
    }

    ghost predicate Linked() {
      && TwoParty(base.roster)
      && forall i {:trigger LinkedAt(i)} :: 0 <= i < |log| ==> LinkedAt(i)
    }

    ghost predicate AllSound() {
      forall i {:trigger log[i].Sound()} :: 0 <= i < |log| ==> log[i].Sound()
    }

    /** `g` is a state the writer was in. */
    ghost predicate Passed(g: Shared) {
      exists i :: 0 <= i <= |log| && g == At(i)
    }
  }

  lemma BuiltCommitIsChecked(e: Entry)
    requires e.Sound()
    ensures Check(e.pre, e.core, e.message).None? && Resolve(e.bundle, e.store).Some?
    ensures e.message.proposals == e.bundle && e.message.source == ExistingMember(OWNER)
              && e.message.epoch == e.pre.epoch
    ensures e.pre.epoch < EPOCH_UNBOUND - 1
    ensures e.post == Advance(e.pre, e.message, Resolve(e.bundle, e.store).value)
  {
  }

  lemma SoundEntryStep(e: Entry)
    requires e.Sound() && TwoParty(e.pre.roster)
    ensures e.Step()
  {
    BuiltCommitIsChecked(e);
    SteadyCommit(e.pre, e.core, e.message, 0);
  }

  lemma {:induction false} PositionsAreEpochs(h: History, i: nat)
    requires h.Linked() && i <= |h.log|
    ensures h.At(i).epoch == h.base.epoch + i
    ensures h.At(i).groupId == h.base.groupId && h.At(i).suite == h.base.suite
    ensures TwoParty(h.At(i).roster) && h.At(i).extensions == h.base.extensions
  {
    if i > 0 {
      PositionsAreEpochs(h, i - 1);
      assert h.LinkedAt(i - 1);
    }
  }

  /** Two states the writer passed through that have equal epochs are the same state. */
  lemma EqualEpochsAgree(h: History, g: Shared, k: Shared)
    requires h.Linked() && h.Passed(g) && h.Passed(k) && g.epoch == k.epoch
    ensures g == k
  {
    var i :| 0 <= i <= |h.log| && g == h.At(i);
    var j :| 0 <= j <= |h.log| && k == h.At(j);
    PositionsAreEpochs(h, i);
    PositionsAreEpochs(h, j);
  }

  function Append(h: History, e: Entry): History {
    History(h.base, h.log + [e])
  }

  /** The history with one more commit at its head is a history of the same writer. */
  ghost predicate Grown(h: History, e: Entry) {
    && Append(h, e).Linked() && Append(h, e).AllSound()
    && e.pre == h.Head() && e.Step()
    && (forall g :: h.Passed(g) ==> Append(h, e).Passed(g))
  }

  lemma AppendGrows(h: History, e: Entry)
    requires h.Linked() && h.AllSound() && e.Sound() && e.pre == h.Head()
    ensures Grown(h, e)
  {
    var longer := Append(h, e);
    PositionsAreEpochs(h, |h.log|);
    SoundEntryStep(e);
    forall i | 0 <= i <= |h.log| ensures longer.At(i) == h.At(i) {
    }
    forall i | 0 <= i < |longer.log| ensures longer.LinkedAt(i) && longer.log[i].Sound() {
      if i < |h.log| {
        assert h.LinkedAt(i) && h.log[i].Sound();
      }
    }
    forall g | h.Passed(g) ensures longer.Passed(g) {
      var i :| 0 <= i <= |h.log| && g == h.At(i);
      assert g == longer.At(i);
    }
  }

  // ---- PSK values are determined by their names ----

  /** An exported PSK's value is the sibling derivation of its name. */
  predicate Genuine(ref: PskRef, value: Secret) {
    && ref.Application? && ref.pskId.Derived?
    && value == Derived(ref.pskId.parent, PskLabel)
  }

  ghost predicate AllGenuine(store: PskMap) {
    forall ref :: ref in store ==> Genuine(ref, store[ref])
  }

  lemma ExportsAreGenuine(g: Shared, component: nat)
    ensures Genuine(StorageId(ExportedFrom(g, component)), ExportedFrom(g, component).psk)
  {
  }

  /** Every PSK the bundle names is in the store. */
  ghost predicate Named(b: Bundle, store: PskMap) {
    forall p :: p in b && p.proposal.Psk? ==> p.proposal.ref in store
  }

  /** A bundle's PSKs resolve iff each is in the store. */
  lemma {:induction false} ResolvesIffNamed(b: Bundle, store: PskMap)
    ensures Resolve(b, store).Some? <==> Named(b, store)
  {
    if b != [] {
      var front, last := b[..|b| - 1], b[|b| - 1];
      ResolvesIffNamed(front, store);
      assert last in b;
      forall p | p in b ensures p in front || p == last {
      }
      forall p | p in front ensures p in b {
      }
    }
  }

  /** Two genuine stores agree on every name they share. */
  lemma GenuineAgree(b: Bundle, s: PskMap, t: PskMap)
    requires AllGenuine(s) && AllGenuine(t) && Named(b, t)
    ensures forall p :: p in b && p.proposal.Psk? && p.proposal.ref in s ==>
              p.proposal.ref in t && t[p.proposal.ref] == s[p.proposal.ref]
  {
    forall p | p in b && p.proposal.Psk? && p.proposal.ref in s
      ensures p.proposal.ref in t && t[p.proposal.ref] == s[p.proposal.ref]
    {
      assert Genuine(p.proposal.ref, s[p.proposal.ref]) && Genuine(p.proposal.ref, t[p.proposal.ref]);
    }
  }

  /** A mirror at the commit's own epoch whose store holds the named PSKs at the writer's values
      reaches the writer's next state, unless its Authentication Service refuses a credential. */
  lemma MirrorFollows(e: Entry, r: Replica, core: Core, store: PskMap)
    requires e.Sound() && r.shared == e.pre && r.own == MIRROR
    requires forall p :: p in e.bundle && p.proposal.Psk? && p.proposal.ref in e.store ==>
               p.proposal.ref in store && store[p.proposal.ref] == e.store[p.proposal.ref]
    ensures Receive(r, core, store, e.message) ==
            if CredentialsAllowed(e.pre, core, e.message) then Ok(e.post) else Err(Credential)
  {
    ReceiverFollowsBuilder(e.pre, e.core, e.store, OWNER, e.bundle, e.path, core, store);
  }

  /** A commit naming a PSK the mirror lacks never applies. */
  lemma UnnamedRefused(e: Entry, r: Replica, core: Core, store: PskMap)
    requires e.Sound() && !Named(e.bundle, store)
    ensures Receive(r, core, store, e.message).Err?
  {
    BuiltCommitIsChecked(e);
    ResolvesIffNamed(e.bundle, store);
  }

  /** A mirror at a logged commit's epoch is at that commit's own pre-state. */
  lemma AtEntry(h: History, g: Shared, i: nat)
    requires h.Linked() && h.Passed(g) && i < |h.log|
    ensures g.epoch == h.log[i].pre.epoch <==> g == h.log[i].pre
    ensures h.Passed(h.log[i].post) && h.log[i].Step()
  {
    assert h.LinkedAt(i);
    assert h.log[i].pre == h.At(i) && h.log[i].post == h.At(i + 1);
    if g.epoch == h.log[i].pre.epoch {
      EqualEpochsAgree(h, g, h.At(i));
    }
  }

  /** What the pre-states of logged commits are, and that only they have those epochs. */
  lemma EpochOfCommit(h: History, i: nat, at: nat)
    requires h.Linked() && h.AllSound() && i < |h.log| && at <= |h.log|
    ensures h.log[i].Sound() && h.log[i].pre == h.At(i) && h.log[i].post == h.At(i + 1)
    ensures h.log[i].message.epoch == h.log[i].pre.epoch
    ensures h.log[i].pre.epoch == h.base.epoch + i
    ensures h.At(at).epoch == h.base.epoch + at
    ensures h.At(at).epoch == h.log[i].pre.epoch <==> at == i
  {
    assert h.LinkedAt(i) && h.log[i].Sound();
    BuiltCommitIsChecked(h.log[i]);
    PositionsAreEpochs(h, i);
    PositionsAreEpochs(h, at);
  }

  /** A commit of another epoch never applies. */
  lemma OtherEpochRefused(e: Entry, r: Replica, core: Core, store: PskMap)
    requires e.Sound() && r.shared.epoch != e.pre.epoch
    ensures Receive(r, core, store, e.message).Err?
  {
  }

  // ---- entropy ----

  lemma {:induction false} ResolvedValueIsUsed(b: Bundle, store: PskMap, p: ProposalInfo)
    requires Resolve(b, store).Some? && p in b && p.proposal.Psk?
    ensures p.proposal.ref in store && store[p.proposal.ref] in Resolve(b, store).value
  {
    if p != b[|b| - 1] {
      assert p in b[..|b| - 1];
      ResolvedValueIsUsed(b[..|b| - 1], store, p);
    }
  }

  /** The PSKs a commit names are mixed into the epoch it starts. */
  lemma CommitAbsorbs(e: Entry, p: ProposalInfo)
    requires e.Sound() && p in e.bundle && p.proposal.Psk?
    ensures p.proposal.ref in e.store && Contains(e.post.secret, e.store[p.proposal.ref])
  {
    ResolvedValueIsUsed(e.bundle, e.store, p);
  }

  /** Nothing absorbed is ever lost: a later epoch's secret contains every earlier one's inputs. */
  lemma {:induction false} EntropyIsKept(h: History, i: nat, j: nat, x: Secret)
    requires h.Linked() && i <= j <= |h.log| && Contains(h.At(i).secret, x)
    ensures Contains(h.At(j).secret, x)
    decreases j
  {
    if i < j {
      EntropyIsKept(h, i, j - 1, x);
      assert h.LinkedAt(j - 1);
      assert h.At(j).secret.init == h.At(j - 1).secret;
    }
  }

  // ---- the bind's PQ half ----

  lemma BindIsPathless(e: Entry, attestation: ApqInfoUpdate)
    requires e.Sound() && SuiteIsPq(e.pre.suite) == Some(true)
    requires e.bundle == BindBundle(e.pre, OWNER, attestation)
    ensures e.message.path.None?
    ensures forall core: Core :: CredentialsAllowed(e.pre, core, e.message)
    ensures attestation.pqEpoch == e.pre.epoch + 1
    ensures Attestation(e.bundle) == Ok(Some(attestation))
  {
    BuiltCommitIsChecked(e);
    AcceptedIsWhitelisted(e.pre, e.core, e.message);
    BindAttestation(e.pre, attestation);
    assert e.bundle[1].proposal.Custom?;
    var u :| ToCustomProposal(attestation) == ToCustomProposal(u) && e.pre.epoch + 1 == u.pqEpoch;
    AttestationDecodesIff(ToCustomProposal(attestation), u);
    AttestationDecodesIff(ToCustomProposal(attestation), attestation);
  }

  lemma BindAttestation(g: Shared, attestation: ApqInfoUpdate)
    ensures Attestation(BindBundle(g, OWNER, attestation)) == Ok(Some(attestation))
  {
    var b := BindBundle(g, OWNER, attestation);
    assert b[..1] == [b[0]] && b[..1][..0] == [];
    assert Attestation(b[..1]) == Ok(None);
    AttestationDecodesIff(ToCustomProposal(attestation), attestation);
  }

  /** The other half of a bind never is: an attesting commit on a classical half always carries an
      updatePath. */
  lemma ClassicalFullHasPath(e: Entry)
    requires e.Sound() && SuiteIsPq(e.pre.suite) == Some(false) && Attestation(e.bundle) != Ok(None)
    ensures e.message.path == Some(e.path)
  {
    AttestationIff(e.bundle);
    BuiltCommitIsChecked(e);
    AcceptedIsWhitelisted(e.pre, e.core, e.message);
    var custom := Customs(e.bundle)[0];
    assert custom in e.bundle;
    var k :| 0 <= k < |e.bundle| && e.bundle[k] == custom;
    assert custom.proposal.custom.kind == APP_DATA_UPDATE;
    assert custom in Customs(e.bundle);
  }

  /** Two binds of one PQ half name different ids, each of its own epoch. */
  lemma BindIdsDiffer(h: History, i: nat, j: nat)
    requires h.Linked() && i < |h.log| && j < |h.log|
    ensures InjectedRef(h.log[i].pre) == InjectedRef(h.log[j].pre) <==> i == j
    ensures h.log[i].pre.epoch == h.base.epoch + i
  {
    assert h.LinkedAt(i) && h.LinkedAt(j);
    PositionsAreEpochs(h, i);
    PositionsAreEpochs(h, j);
    InjectedRefsDiffer(h.log[i].pre, h.log[j].pre);
  }

  lemma BuiltPath(e: Entry)
    requires e.Sound()
    ensures e.message.path == None || e.message.path == Some(e.path)
  {
  }
}
