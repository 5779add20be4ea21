# The APQ combiner, modelled and proved

A session between two parties runs, in each direction, a pair of MLS groups: a *classical* one that
carries the messages and a *PQ* one with a post-quantum KEM. The PQ half exports an `apq_psk` into the
classical half when the pair is created, and again after every *bind*: a pathless PQ commit that
injects a freshly agreed secret, followed by a classical commit that carries the export and attests
both new epochs. In between run PARTIAL commits (classical only) and A.5 re-keys (PQ only). This
project models that machinery and proves what it is for: the two copies of each half never disagree,
the injected entropy reaches the message group and stays there, nothing secret is left behind, and
leaves change hands only as the Authentication Service allows.

An MLS group is abstract: a shared state (group id, suite, epoch, roster, extensions, a symbolic
epoch secret built as in section 8 of RFC 9420) and one member's private part (own leaf, exporter
leaves already spent). Commits are checked, resolved against a PSK store and applied as in section
12.4 of RFC 9420; a refused commit leaves the group as it was. Secrets are terms, so two secrets are
equal only if derived alike from equal inputs.

## How the files fit together

| file | role |
|---|---|
| `Prelude`, `Codec`, `ByteOrder` | bytes, integers, the variable-length vectors of section 2.1.2 of RFC 9420, byte order and sorting |
| `CommitLog`, `Authentication`, `Succession` | the credential window against the unbounded commit log; sequences, cores and views as objects; succession told from the calls alone |
| `Proposals`, `Component`, `Rules` | proposals, the epoch attestation and its codec, the operation whitelist |
| `KeySchedule`, `Mls` | symbolic secrets; building and processing commits; exporter leaves |
| `Ownership` | leaf ownership over runs of arbitrary commits |
| `Attested` | attestations over runs of arbitrary commits on both halves |
| `PskIds`, `Framing`, `SealedSecret` | PSK identifiers, the pair envelope and ciphertext framing, the sealed secret |
| `Ratchet` | stores and groups as objects, the two ratchet halves, captured handles |
| `ApqInfoChecks`, `Establishment`, `Clients` | what joiners verify; creation and join on values, then over objects |
| `History`, `Replicas` | the owner's commit logs; one direction of a session as a state machine |
| `Invariant`, `OwnerSteps`, `Deliveries` | what every step keeps, and why; what each delivery comes to |
| `AnySender` | what the mirror's checks are worth against logs nobody honest wrote |
| `Agreement`, `InOrder`, `ExportLog`, `Progress`, `Steps`, `Rounds`, `Direction` | the theorems over whole runs, from creation on: safety, delivery in order, what each step comes to, and rounds that complete |
| `Storage`, `KeyPackageStore` | group-state storage and the key-package store |

The run model (`Replicas`) has one owner and one mirror, and of the other direction the mirror's own
send group as the states it goes through. A step is: the owner observing such a state, or the mirror
committing a new one; a round being opened, answered, or its reply opened; the bind's PQ trigger; a
classical commit, which discharges an owed bind; a frame re-sent; a re-key; or a delivery. A delivery
hands the mirror *any* message the owner ever sent and an opening hands the owner *any* reply the mirror
ever made, so loss, repetition and reordering are all runs. Both Authentication Services are arbitrary
at every step. `Direction` ties the start of such runs to what creation and join really produce.

## Findings

* `rust/apq/src/group.rs:276-287` says injected ids and application PSK ids differ both in length and in
  their leading byte. The lengths do separate them (41 bytes against 38) for 32-byte group ids, and
  `PskIds.FamiliesCollideIff` shows that is exactly what is needed: ids of the two families can coincide
  iff the group id is 29 bytes long. The leading bytes meet iff the epoch's low byte is 3
  (`PskIds.LeadingBytesMeetIff`), because the epoch is written little-endian.
* A commit of the already current credential returns early (`rust/apq/src/authentication.rs:144-148`)
  and does not expire authorizations in flight. So succession is a partial order after a commit that
  moves the sequence (`Authentication.CommitRestoresOrder`) but not after every commit
  (`Authentication.RecommitKeepsBackwardAuthorization` is the counterexample);
  `Authentication.PartialOrderIff` gives the exact condition.
* `apply_injected_commit` can fail with the group already moved: the commit applies before its
  attestation is read (`rust/apq/src/pq_ratchet.rs:295-307`). That happens iff the commit is accepted and
  carries no custom proposal (`Attested.ApplyFailsMovedIff`); the peer's empty commit is such a one
  (`Attested.EmptyCommitMovesAndFails`). No exporter leaf is spent by it, and the injected id is still
  wiped (`Ratchet.ApplySpendsOnlyOnSuccess`, `Ratchet.ApplyInjectedCommit`).
* `verify_apqinfo_pair` (`rust/apq/src/component.rs:361-381`) pins a classical half's sibling group and
  epoch (`ApqInfoChecks.OneSibling`), but a PQ half's sibling only by group id: a classical state verifies
  against it iff it carries the same record stamped with its own epoch
  (`ApqInfoChecks.ClassicalSiblingIff`, with `ApqInfoChecks.RestampedVerifies` as the witness). It checks
  the recorded suites and never reads the suites the two groups run
  (`ApqInfoChecks.OwnSuitesAreNotRead`).
* `rust/two-mls-pq/src/session/mod.rs:557-565` says commits made while a peer frame is in flight can outrun
  the ledger of eight cross-party PSKs. With evidence gating they cannot: evidence that would license a
  further commit comes in frames that carry the very commit in flight, so what an unapplied commit binds
  is always one of the two newest entries (`Agreement.LedgerNeverOutrun`).

## Model

| member | source | states |
|---|---|---|
| Direction.EveryRunAgrees | rust/apq/src/group.rs:717-819 | for every creation and join that succeed and every run after them: the mirror is always at a state the owner was in, equal epochs mean equal shared states including secrets in both halves, every completed round exported one PSK on both sides, both message groups keep the establishment `apq_psk`, the owner's has every sent bind's secret and the mirror's has it once past that commit, each an answer the mirror gave, no leaf is spent twice, no injected secret stays in a store, the ledger is never outrun, and with in-order delivery the mirror ends at the owner's own two states |
| Direction.BootstrappedPairIsStart | rust/two-mls-pq/src/session/pq_ops.rs:1935-1971 | a deferred PQ half, bootstrapped at whatever state the classical half has reached: a join that succeeds has the creator's very state, its checks pass, and the pair starts runs that keep the invariant |
| Direction.SessionsCompleteRounds | rust/apq/src/pq_ratchet.rs:1-9 | after any creation and join, any number of rounds that meet no obstacle all complete: both message groups are the same and contain the establishment `apq_psk` and every one of the secrets |
| Rounds.RoundsComplete | rust/apq/src/pq_ratchet.rs:222-312 | from any idle state n rounds complete n binds, with every secret in both message groups, both mirror halves at the owner's states, and each round binding the mirror's newest state |
| Rounds.RoundCompletes | rust/two-mls-pq/src/session/pq_ops.rs:570-720 | one round opened, answered, injected, discharged and delivered leaves both sides idle again, one bind on, with its secret in both message groups |
| ExportLog.RunRecords | rust/apq/src/group.rs:379-413 | over every run the record of exports shows every leaf a party's state says it spent, so that no entry twice means no leaf twice |
| Steps.CommitDischarges | rust/two-mls-pq/src/session/messaging.rs:860-879 | while a bind is owed the classical commit step is its discharge: through iff the epoch has room and both leaves may move, and then it carries exactly that bind, staples it, owes nothing and has spent the leaf |
| Steps.CommitIsPartial | rust/two-mls-pq/src/session/messaging.rs:780-879 | with nothing owed it is a PARTIAL, through iff the epoch has room and the leaves it moves may move, folding and binding exactly what it was given and recording the state it bound |
| Steps.TriggerInjects | rust/two-mls-pq/src/session/mod.rs:696-730 | the trigger step goes through iff a secret is opened, nothing is owed and there is room; it injects exactly that secret, reserves both next epochs and starts with fresh exporter leaves |
| Steps.RekeyCommits | rust/two-mls-pq/src/session/pq_ops.rs:983-1145 | the re-key step goes through iff nothing is owed, there is room and both leaves may move; it folds and binds exactly what it was given |
| Steps.RespondAnswers | rust/two-mls-pq/src/session/pq_ops.rs:570-720 | a round is answered iff it was opened, has no answer and the mirror holds none; a sealed reply is locked to the mirror's PQ half |
| Steps.OpenTakesReply | rust/two-mls-pq/src/session/pq_ops.rs:874-902 | a reply is opened iff it answers the round in flight and, sealed, is locked to the owner's PQ half |
| Steps.MirrorCommitMoves | rust/two-mls-pq/src/session/messaging.rs:606-625 | the mirror's own group moves iff the owner has proved to be at its newest state, and spends that state's leaf |
| Steps.DeliverIsOutcome | rust/two-mls-pq/src/session/messaging.rs:1385-1547 | every delivery comes to the outcome the logs determine |
| Deliveries.WindowHoldsIff | rust/two-mls-pq/src/session/messaging.rs:427-454 | the ledger resolves the PSKs of exactly the eight newest states |
| Agreement.ReplicasAgree | rust/apq/src/pq_ratchet.rs:237-312 | over every lossy, repeating, reordering run neither mirror half is ever ahead of the owner or off its path, and equal epochs mean equal states |
| Agreement.SameExportEveryRound | rust/apq/src/pq_ratchet.rs:222-312 | in every completed round the applier's export equals the owner's, the classical commit names it, and both commits attest exactly the two epochs they opened |
| Agreement.EntropyReachesMessages | rust/apq/src/pq_ratchet.rs:1-9 | every sent bind's secret is a sub-term of the owner's message-group secret for good, and of the mirror's once it is past that commit |
| Agreement.BaseEntropyStays | rust/apq/src/group.rs:751-758 | whatever the message group's first secret contained stays contained in both copies over every run |
| Agreement.OpenedIsHeld | rust/two-mls-pq/src/session/pq_ops.rs:688-715 | over every run, whatever replies were lost or replayed, the secret the owner opened is the one the mirror holds, unless the mirror is wedged |
| Agreement.InjectedSecretsWereAnswers | rust/two-mls-pq/src/session/pq_ops.rs:883-940 | no bind in any run injects anything but a secret the mirror answered a round with in that run |
| Progress.OpensIffSameState | rust/two-mls-pq/src/session/pq_ops.rs:874-902 | a reply opens iff it answers the round in flight and, if sealed, was sealed at the PQ state the owner is in; it then opens to exactly the answer |
| Agreement.LedgerNeverOutrun | rust/two-mls-pq/src/session/messaging.rs:606-625 | over every run, what a commit the mirror has not applied binds is one of the two newest entries of the mirror's ledger of eight |
| Agreement.LeavesSpentOnceSecretsWiped | rust/apq/src/group.rs:379-413 | over every run no party spends one epoch's `apq_psk` leaf twice, nor one cross-party leaf of the mirror's send group, and no store holds any injected id between steps |
| Deliveries.FullDelivers | rust/two-mls-pq/src/session/mod.rs:873-953 | a delivered bind does exactly one of five things, decided by the two epochs, the held secret and the classical credentials; when it completes, both halves are the owner's next states and the attestation check never fails |
| AnySender.RunCompletesWell | rust/two-mls-pq/src/session/mod.rs:912-936 | over every run from a two-party mirror, whatever the sender's logs held: the mirror stays two-party, every bind it completes has both commits attest exactly the two epochs they start and exports that PQ epoch's PSK, and no commit completes twice |
| AnySender.DueBindSettles | rust/two-mls-pq/src/session/mod.rs:873-953 | any bind due at the mirror is settled at once, the secret spent and its id gone: it completes iff the PQ commit is accepted with the held secret, the classical one with the new export, and both attest those epochs; otherwise the mirror is wedged |
| AnySender.PlainCounts | rust/two-mls-pq/src/session/messaging.rs:1510-1527 | an accepted plain commit proves anything only if it attests nothing or the epochs both halves are at |
| AnySender.RekeyWedgesIff | rust/two-mls-pq/src/session/pq_ops.rs:1249-1272 | an accepted re-key is refused, its half already moved, iff it carries an attestation |
| AnySender.StaleReservationBreaks | rust/two-mls-pq/src/session/mod.rs:799-808 | a discharge off either reserved epoch exports and commits nothing |
| Deliveries.BindApplies | rust/apq/src/pq_ratchet.rs:289-312 | at the bind's epoch the held secret is the injected one, so the PQ commit applies under any Authentication Service and re-exports the owner's PSK; at another epoch the half stays as it was |
| Deliveries.PartialDelivers | rust/two-mls-pq/src/session/messaging.rs:1467-1547 | a plain commit is skipped, ahead, applied to the owner's own next state, or refused by the Authentication Service; a missing PSK never refuses it |
| Deliveries.RekeyDelivers | rust/two-mls-pq/src/session/pq_ops.rs:1174-1290 | a delivered re-key applies, to the owner's next state, iff the half is at its epoch, its credentials are allowed and the mirror registered the PSK it names; otherwise no group moves |
| Deliveries.StepKeeps | rust/two-mls-pq/src/session/mod.rs:787-953 | every step of either party keeps the invariant of the direction |
| InOrder.MirrorCatchesUp | rust/two-mls-pq/src/session/mod.rs:839-856 | a mirror that gets each message in turn, with any replays in between, never wedges, completes one round per delivered bind and catches up with both of the owner's halves |
| InOrder.ReplayIsHarmless | rust/two-mls-pq/src/session/mod.rs:839-856 | a message the mirror is past changes neither group, spends nothing and never wedges |
| OwnerSteps.DischargeReaches | rust/two-mls-pq/src/session/mod.rs:787-822 | while a bind is owed both reserved epochs still hold and the leaf is unspent, so a discharge always gets as far as building |
| Progress.TriggerCommitsIff | rust/two-mls-pq/src/session/mod.rs:696-730 | the trigger commits iff a secret is opened, nothing is owed and both epochs have room: no Authentication Service and no missing PSK can stop it |
| Progress.DischargeCommitsIff | rust/two-mls-pq/src/session/messaging.rs:992-1075 | the discharge commits iff the epoch has room and the Authentication Service lets the folded leaf and the owner's own leaf move |
| Progress.PartialCommitsIff | rust/two-mls-pq/src/session/messaging.rs:780-879 | a PARTIAL commit goes through iff the epoch has room, the folded leaf may move and, unless it carries a PSK alone, so may the owner's |
| Progress.RekeyCommitsIff | rust/two-mls-pq/src/session/pq_ops.rs:983-1145 | an A.5 re-key goes through iff nothing is owed, the epoch has room and both leaves may move |
| OwnerSteps.BindCrossKeeps | rust/two-mls-pq/src/session/messaging.rs:786-828 | the cross-party PSK of the state last applied is bound at most once, and its leaf is then spent for the first time, whether or not the commit succeeds |
| OwnerSteps.TriggerKeeps | rust/two-mls-pq/src/session/mod.rs:696-730 | the trigger half, committing or failing, keeps the invariant |
| OwnerSteps.FullKeeps | rust/two-mls-pq/src/session/messaging.rs:992-1075 | a discharge, committing or failing, keeps the invariant |
| OwnerSteps.RekeyKeeps | rust/two-mls-pq/src/session/pq_ops.rs:983-1145 | an A.5 re-key keeps the invariant; it is refused while a bind is owed |
| History.MirrorFollows | rust/apq/src/pq_ratchet.rs:281-312 | a mirror at a commit's epoch with the named PSKs reaches the writer's next state unless a credential is refused |
| History.BindIsPathless | rust/apq/src/rules.rs:75-93 | the bind's PQ half never carries a path, so no Authentication Service can refuse it, and its attestation reads back and is true |
| History.BindIdsDiffer | rust/apq/src/pq_ratchet.rs:185-187 | two binds of one PQ half register the same id iff they are the same bind |
| History.ClassicalFullHasPath | rust/apq/src/rules.rs:209-246 | a classical commit that attests always carries an updatePath |
| History.EntropyIsKept | rust/apq/src/pq_ratchet.rs:1-9 | what one epoch's secret contains, every later one does |
| Mls.ReceiverFollowsBuilder | rust/apq/src/pq_ratchet.rs:237-262 | any receiver in the builder's state whose store agrees on the named PSKs reaches the very state the builder did, or refuses a credential |
| Mls.ReceiverAcceptsIff | rust/apq/src/pq_ratchet.rs:281-312 | a receiver in the builder's state accepts iff its Authentication Service allows the credentials and its own PSKs have the builder's values |
| Mls.RefusalNames | rust/apq/src/pq_ratchet.rs:289-300 | a commit of another group, epoch or unknown sender, not whitelisted, pathless where a path is due, with a refused credential, a missing PSK or a wrong confirmation is refused as that, in this order, and accepted otherwise |
| Mls.SecretBindsEpoch | rust/apq/src/pq_ratchet.rs:1-9 | equal epoch secrets mean equal group, epoch, roster, extensions, previous secret and PSKs |
| Mls.EpochAbsorbs | rust/apq/src/pq_ratchet.rs:1-9 | the previous secret, the committer's fresh one and every PSK are in the new secret |
| Mls.ExportsOnce | rust/apq/src/group.rs:379-413 | a component exports once an epoch, independently of the others; the PSK and its name are different derivations of that epoch's secret |
| Attested.AcceptedAttestationIsTrue | rust/apq/src/component.rs:247-270 | in every accepted commit the attestation is read without error, is exactly the one carried, and names the epoch the commit starts |
| Attested.FullAttestsBothEpochs | rust/apq/src/rules.rs:123-162 | over any run between a FULL's two accepted halves both read the same attestation; its classical epoch is current, and its PQ epoch is iff no PQ commit was accepted in between |
| Attested.ApplyFailsMovedIff | rust/apq/src/pq_ratchet.rs:289-312 | applying a bind fails with the group moved iff the commit is accepted and carries no custom proposal, and then the failure is the missing attestation |
| Attested.EmptyCommitMovesAndFails | rust/apq/src/pq_ratchet.rs:295-307 | the witness: the peer's empty commit of any two-party ML-KEM group with room moves it by one epoch and fails |
| Attested.ExportFailsMovedIff | rust/apq/src/pq_ratchet.rs:306-311 | when the export fails, the group has moved iff the commit was accepted |
| Ownership.RunsStayOwned | rust/apq/src/rules.rs:100-207 | over every run of arbitrary commits and credential events, from a lone creator or a joiner's two-party group: one leaf, then always the same two, each credential within its owner's ids, extensions unchanged |
| Ownership.LeafChangesAreAuthored | rust/apq/src/authentication.rs:227-237 | a leaf changes only by an accepted commit carrying its own member's content, within the Authentication Service |
| Ownership.SteadyCommit | rust/apq/src/rules.rs:164-205 | any accepted two-party commit keeps both leaves, each untouched or moved by its own member |
| Ownership.SteadyCommitLands | rust/apq/src/rules.rs:164-205 | an accepted commit drops nothing: the committer's leaf becomes its path's, the other the one its member's Update carries, and a leaf with neither stays |
| Rules.FilterIff | rust/apq/src/rules.rs:100-207 | the filter accepts a commit iff it is whitelisted, stated by positions in the bundle, and returns it unchanged |
| Rules.RefusalNames | rust/apq/src/rules.rs:100-207 | which error each refused commit gets, stated by positions in the bundle |
| Rules.SuiteTable | rust/apq/src/client.rs:54-129 | exactly suites 1 to 7 are classical and exactly 0xFDEA is post-quantum; no known suite signs post-quantum |
| Component.AttestationDecodesIff | rust/apq/src/component.rs:219-242 | a custom proposal decodes to an attestation iff it is that attestation's one encoding |
| Component.AttestationLayout | rust/apq/src/component.rs:219-228 | the attestation proposal byte for byte |
| Component.AttestationIff | rust/apq/src/component.rs:244-260 | the attestation found is `None` iff nothing custom was applied, and `u` iff exactly one custom proposal was and it encodes `u` |
| Component.FindApqInfoUpdate | rust/apq/src/component.rs:247-260 | the loop computes that attestation, failing on a second or malformed custom proposal |
| Authentication.WindowRefinesLog | rust/apq/src/authentication.rs:144-154 | after any calls the window is exactly the last eight of the commit log deduplicated by last occurrence |
| Authentication.RetainedIff | rust/apq/src/authentication.rs:144-154 | an id is in the window iff it was committed and fewer than eight distinct others were since |
| Authentication.NoMovingBackwards | rust/apq/src/authentication.rs:156-184 | with nothing in flight and pins once canonical, distinct ids succeed iff the target is in the window, the predecessor in it or pinned, and its last commit is earlier |
| Authentication.CatchUpIff | rust/apq/src/authentication.rs:156-184 | an unpinned once-canonical id can move to the current one iff at most seven distinct others were committed since |
| Authentication.PinnedLeafAlwaysCatchesUp | rust/apq/src/authentication.rs:75-84 | while an id stays pinned, however many commits run, it can always move to the current credential |
| Succession.SuccessionIff | rust/apq/src/authentication.rs:156-184 | for every sequence of calls: a move is allowed iff it goes from an id recent or pinned to one authorized since the last step, or to a recent one committed later |
| Succession.CoreJudges | rust/apq/src/authentication.rs:227-237 | the core allows exactly the moves either party's calls allow, and admits exactly the ids either party's calls admit, or any in the adoption window |
| Authentication.PartialOrderIff | rust/apq/src/authentication.rs:156-184 | succession is reflexive, antisymmetric and transitive over all known ids iff authorizations only point forward |
| Authentication.CommitRestoresOrder | rust/apq/src/authentication.rs:133-154 | a commit that moves the sequence makes succession a partial order |
| Authentication.RecommitKeepsBackwardAuthorization | rust/apq/src/authentication.rs:144-148 | a commit of the current id does not: a concrete sequence whose order stays broken |
| Authentication.PartySequence.Commit | rust/apq/src/authentication.rs:144-154 | the retain, push and trim loop computes the specified next sequence |
| Authentication.AuthView.CommitTheirs | rust/apq/src/authentication.rs:245-272 | a write through a view changes the core it is bound to, as the sequence specification says, and no other |
| PskIds.InjectedIdsAreInjective | rust/apq/src/group.rs:288-294 | an injected id determines its epoch and group |
| PskIds.InjectedIdLayout | rust/apq/src/group.rs:288-294 | an injected id is the little-endian epoch, the group id and the domain byte |
| PskIds.FamiliesCollideIff | rust/apq/src/group.rs:275-287 | an injected id can equal an exported PSK's storage id iff the group id is 29 bytes |
| PskIds.FamiliesAreDisjoint | rust/apq/src/group.rs:275-287 | with 32-byte group ids the two families never meet |
| PskIds.LeadingBytesMeetIff | rust/apq/src/group.rs:275-294 | the two families' ids start with the same byte iff the injection's epoch is 3 modulo 256 |
| Ratchet.InjectAndCommit | rust/apq/src/pq_ratchet.rs:237-262 | on every exit the injected id is gone from every listed store, however aliased, and nothing else there changed; the group ends as specified |
| Ratchet.ExportApqPsk | rust/apq/src/pq_ratchet.rs:272-279 | it fails iff the leaf is spent or the library fails, and then changes nothing; otherwise it spends that leaf and registers the one value everywhere |
| Ratchet.BindNamesEpoch | rust/apq/src/pq_ratchet.rs:185-187 | the id a bind registers, names and wipes is external and spells out the group's own pre-commit epoch and id |
| Ratchet.InjectMovesIff | rust/apq/src/pq_ratchet.rs:237-262 | the injecting group moves iff the commit was built and applied, and success means just that commit on a two-party group |
| Ratchet.ApplyRefusalNames | rust/apq/src/pq_ratchet.rs:289-312 | which error each failing message or commit earns, and whether the group has moved by then |
| Ratchet.ApplyInjectedCommit | rust/apq/src/pq_ratchet.rs:289-312 | the same wipe on every exit, at the pre-commit epoch's id though the epoch moved; on success the new export is registered beside the rest |
| Ratchet.ApplySpendsOnlyOnSuccess | rust/apq/src/pq_ratchet.rs:264-312 | a failed apply spends no exporter leaf; a successful one spends exactly the new epoch's |
| Ratchet.RegisterPskStores | rust/apq/src/group.rs:491-501 | every listed store, aliased or not, gains exactly this entry |
| Ratchet.ForgetPskStores | rust/apq/src/group.rs:503-510 | every listed store loses exactly this entry |
| Ratchet.Drive | rust/apq/src/group.rs:58-129 | after any sequence of `set_pq`, register, forget and client swaps: the classical handle is the birth client's, the PQ one the last attached client's, each store took exactly the calls made while it was one of the two, and every other store is untouched |
| Ratchet.CombinerGroup.SetPq | rust/apq/src/group.rs:104-110 | the PQ handle follows the client that made the PQ half, the classical one stays |
| Ratchet.CombinerGroup.RegisterPsk | rust/apq/src/group.rs:112-121 | exactly the stores the live halves resolve from change, in this entry only |
| Ratchet.CombinerGroup.ForgetPsk | rust/apq/src/group.rs:123-129 | exactly those stores lose this entry |
| Establishment.JoinFollowsCreate | rust/apq/src/group.rs:784-819 | joining a created pair, all checks included, succeeds iff the joiner holds the bound cross-party PSK and both halves name the same two identities; it then holds the creator's two states, the same `apq_psk` and one spent leaf, and the adoption window is shut on every exit |
| Establishment.JoinRecordsCreator | rust/apq/src/group.rs:784-819 | on success the joiner's canonical peer is leaf 0 of the message group, the creator, and its stores hold the creator's own `apq_psk` |
| Establishment.JoinLeavesClient | rust/apq/src/group.rs:784-819 | for any two Welcomes: the window is shut, the joiner's own sequence untouched, the peer recorded exactly on success, and the stores gain the PQ half's export exactly when that half was joined |
| Establishment.JoinRecvIff | rust/apq/src/group.rs:784-819 | for any two Welcomes: a join succeeds iff both are accepted, the pair verifies for the pinned suites and both rosters hold the same members |
| Establishment.JoinedIff | rust/apq/src/group.rs:698-711 | a Welcome is accepted iff its leaves are admitted, its PSKs held, its confirmation theirs, the joiner in it, and its tree of two leaves |
| Establishment.CreateLeavesClient | rust/apq/src/group.rs:717-763 | success or not, the named peer is canonical, the rest of the Authentication Service untouched, and the stores gain what was exported |
| Establishment.CreatedSendAbsorbs | rust/apq/src/group.rs:717-763 | both halves' leaves and secrets: the classical one has its path, seed, cross-party PSK and `apq_psk` in it, the PQ one its seed |
| Establishment.CreatedRecords | rust/apq/src/component.rs:146-165 | the records a created pair carries, field by field |
| Establishment.BoundSendSpends | rust/apq/src/group.rs:869-910 | binding spends exactly the received group's cross-party leaf, refuses if it is spent, and a made pair has that export in it |
| Establishment.CreateSucceedsIff | rust/apq/src/group.rs:869-910 | creating a pair succeeds iff the binding is not empty, both key packages' identities are admitted and the creator may move its classical leaf to the committed path's |
| Establishment.HonestPartiesEstablish | rust/apq/src/group.rs:717-819 | two parties with one identity each, the joiner holding what the creator bound, always create and join |
| Establishment.JoinFollowsCreation | rust/apq/src/group.rs:626-665 | one group's joiner succeeds iff every bound PSK resolves to the creator's value, and is then leaf 1 of the creator's state |
| Establishment.CreatedSendShape | rust/apq/src/group.rs:717-763 | every created pair is two-party at epoch 1 under the drawn ids, each half naming the other, and the classical secret contains the PQ export |
| Establishment.DeferredVerifies | rust/apq/src/group.rs:829-864 | a classical-only creation verifies as deferred, and with no PQ half whatever as a live pair |
| Establishment.BootstrapJoins | rust/two-mls-pq/src/session/pq_ops.rs:1769-1788 | the bootstrapped PQ half is joined iff both members are admitted; the joiner has the creator's state, which verifies against the classical half's record iff it was created under the pre-allocated id, and carries no binding |
| Establishment.BindingVerifiesIff | rust/apq/src/component.rs:305-333 | the joiner's binding check passes iff it expects the creator's binding; the PQ half carries none; an empty binding never creates a pair |
| Clients.CreateGroupWithMember | rust/apq/src/group.rs:626-665 | builds the specified group and Welcome over a live store, or nothing |
| Clients.CreateSendGroup | rust/apq/src/group.rs:717-763 | the client's stores and Authentication Service end as specified on every exit; a made pair keeps this client's handles |
| Clients.CreateBoundSendGroup | rust/apq/src/group.rs:869-910 | the same for an acceptor, whose received group spends its cross-party leaf whatever happens next |
| Clients.JoinCombinerGroup | rust/apq/src/group.rs:784-819 | the same for joining; the creator becomes canonical only after every check |
| ApqInfoChecks.ClassicalSiblingIff | rust/apq/src/component.rs:361-381 | a second classical state verifies against a verified PQ half iff it is of the same group and carries the same record stamped with its own epoch |
| ApqInfoChecks.PairVerifiesIff | rust/apq/src/component.rs:335-381 | in plain fields: a pair verifies iff both halves carry records of exactly the pinned, coherent suites and mode, agreeing but for the classical epoch, and name these two groups at these real epochs |
| ApqInfoChecks.DeferredPassesIff | rust/apq/src/component.rs:383-397 | the same for the deferred check |
| ApqInfoChecks.BootstrapPassesIff | rust/apq/src/component.rs:399-426 | the same for the bootstrapped half |
| ApqInfoChecks.DowngradeRefused | rust/apq/src/component.rs:177-197 | a pair recorded under other suites than the pinned ones is refused as a suite mismatch |
| ApqInfoChecks.RestampedVerifies | rust/apq/src/component.rs:361-381 | the witness: the classical half re-stamped at any other epoch verifies too |
| ApqInfoChecks.OneSibling | rust/apq/src/component.rs:361-381 | a second PQ half verifies against a verified classical half iff it is the same group at the same epoch with the same record |
| ApqInfoChecks.OwnSuitesAreNotRead | rust/apq/src/component.rs:361-381 | the verdict does not depend on the suites the two groups run |
| ApqInfoChecks.MembershipConsistentIff | rust/apq/src/component.rs:428-457 | the sorted comparison holds iff both halves are two-party with the same two ids in either order |
| Storage.StorageRefinesRecord | rust/apq/src/storage.rs:173-194 | after any writes a group's record is its last three inserted epochs at their latest data |
| Storage.StateIsLast | rust/apq/src/storage.rs:173-194 | after any writes a group is stored iff it was written, under the state of its last write |
| Storage.ExportLayout | rust/apq/src/storage.rs:41-63 | a record on the wire, byte for byte |
| Storage.ReadsLatestOfThree | rust/apq/src/storage.rs:160-201 | with ascending inserts, `epoch` returns the latest data iff the id is among the three highest, and `max_epoch_id` is the highest |
| Storage.OtherGroupsUntouched | rust/apq/src/storage.rs:173-194 | a write leaves every other group's record as it was |
| Storage.ImportIffExport | rust/apq/src/storage.rs:87-147 | a blob imports as a record iff it is that record's export and the record has at most three epochs, strictly ascending |
| Storage.ReachableRecordsImport | rust/apq/src/storage.rs:87-147 | every record ascending writes can reach exports to a blob that imports back |
| Storage.PersistableGroupStorage.WriteGroup | rust/apq/src/storage.rs:173-194 | the insert, update and trim loops compute the specified record |
| Storage.PersistableGroupStorage.ExportGroup | rust/apq/src/storage.rs:87-117 | fails iff the group is unknown or some vector is too long for its header; the blob imports back as exactly this group and record, or, if the record breaks the epoch invariants, not at all |
| Storage.PersistableGroupStorage.ImportGroup | rust/apq/src/storage.rs:123-147 | installs the imported record, or changes nothing |
| KeyPackageStore.CaptureIsFaithful | rust/two-mls-pq/src/key_package_store.rs:97-107 | over any calls in a capture the list is the inserted pairs in order and the map their net effect |
| KeyPackageStore.RunIsFaithful | rust/two-mls-pq/src/key_package_store.rs:147-176 | capturing or not, the map holds the calls' net effect; a capture in progress gains exactly the inserted pairs, and without one nothing is recorded |
| KeyPackageStore.ListingIsUnique | rust/two-mls-pq/src/key_package_store.rs:131-145 | a map has one strictly sorted listing |
| KeyPackageStore.PreloadRestores | rust/two-mls-pq/src/key_package_store.rs:66-77 | preloading a map's listing gives back the map |
| KeyPackageStore.SyntheticKeyPackageStore.Capture | rust/two-mls-pq/src/key_package_store.rs:97-107 | the capture window records exactly its own inserts |
| KeyPackageStore.SyntheticKeyPackageStore.AllEntries | rust/two-mls-pq/src/key_package_store.rs:131-145 | returns the sorted listing and changes nothing |
| Framing.PairDecodesIff | rust/apq/src/group.rs:232-273 | an input decodes to a pair iff it is that pair's encoding under that tag |
| Framing.TagsNeverCrossDecode | rust/apq/src/group.rs:205-230 | nothing decodes under two tags |
| Framing.DecodeApqPair | rust/apq/src/group.rs:248-273 | the 32-bit decoder computes the same, with no index or length computation out of range |
| Framing.CtDecodesIff | rust/apq/src/pq_ratchet.rs:114-131 | the ciphertext framing decodes exactly its own encodings |
| Framing.Layouts | rust/apq/src/group.rs:232-245 | the envelopes and the ciphertext byte for byte, and the two tags |
| SealedSecret.SealedSecretIsReceipt | rust/apq/src/pq_ratchet.rs:90-180 | a sealed secret opens iff the ephemeral and the PSK are the sealer's, and then to exactly that secret |
| SealedSecret.SealedWire | rust/apq/src/pq_ratchet.rs:87-123 | the sealed secret on the wire: a length, the encapsulation, and the secret sealed under the key extracted from the KEM secret and the epoch PSK in HPKE's order |
| SealedSecret.IdealProviderIsSound | rust/apq/src/pq_ratchet.rs:90-180 | the assumptions on KEM, KDF and AEAD are satisfiable |

## Left out

- Ratchet trees, signatures, message and Welcome encryption, and the joiner-secret derivation are abstracted: a Welcome reveals the init and commit secrets, never a PSK.
- Real KEM, KDF and AEAD: `SealedSecret` takes them as functions satisfying stated laws; in the run model a sealed reply is a term that opens under the conditions `SealedSecret.SealedSecretIsReceipt` derives from them.
- Failures inside the MLS library that depend on nothing modelled appear in `Ratchet` as a chosen fault and not in the run model, where a commit fails only for a modelled reason.
- Epochs are `u64` and refuse to move within one of the pending sentinel; the library's own behaviour at 2^64 is not modelled.
- In the run model one map stands for all stores a party registers PSKs in; separate and aliased stores are modelled in `Ratchet` and `Clients`.
- In the run model the owner's copies of the mirror's own groups are those groups' own states: that they are is the other direction's `Agreement.ReplicasAgree`, with the parties exchanged. It is used for the states the owner observes and for a round answered by a commit of the mirror's PQ group.
- The owner may commit at any time, which is more than its own license allows; the mirror's license is modelled, because the ledger depends on it.
- Deliveries.RekeyDelivers: which PSK of its own PQ group the mirror registers is an argument of the delivery; that the watermarks of both parties keep it the one a re-key names is not derived.
- After a failed bind, or a re-key refused once it has moved its half, a party stops taking the steps that need the spent input (`broken`, `wedged`); re-establishing a session is not modelled.
- An A.5 re-key's request frame is not modelled; the leaf it carries is the re-key step's argument.
- Header keys, turn taking, archives, attachment keys, application messages and the Swift bindings are not modelled.
- Zeroization of freed memory and mutex poisoning are not modelled; a shared handle is a reference.
- ApqInfoChecks.EnsureMembershipConsistent: sorts by insertion on values, not in place.
- KeyPackageStore.SyntheticKeyPackageStore.AllEntries: sorts by insertion on values, not in place.
- `for_invitation` is `preloaded` under another name, and the plain getters return a field unchanged.
