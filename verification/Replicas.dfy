/** One direction of a session: the owner's send pair, the peer's mirror of it, and the commits
    between them, over every run of PARTIAL commits, A.5 re-keys, FULL binds and deliveries.

    The network may lose, repeat and reorder: a delivery hands the mirror any message the owner
    ever sent, an opening hands the owner any reply the mirror ever made. Both parties'
    Authentication Services are arbitrary at every step. Of the other direction only the mirror's
    own send group appears, as the states it has gone through. */
module Replicas {
  import opened Prelude
  import opened KeySchedule
  import opened Proposals
  import opened Component
  import opened Mls
  import opened Ratchet
  import opened History

  // ---- state ----

  /** A bind whose PQ half has committed and whose classical half is still owed. */
  datatype Owed = Owed(pq: nat, attestation: ApqInfoUpdate)

  /** The newest classical commit, which every frame carries again: none yet, a plain one, or one
      that discharged a bind. Commits are named by position in their half's log. */
  datatype Carried = Birth | Partial(cl: nat) | Full(cl: nat, pq: nat)

  /** What the owner sends. A frame's offer shows which state of the mirror's own send group the
      owner had applied when it sent the frame. */
  datatype Message = Frame(staple: Carried, offer: nat) | RekeyFrame(pq: nat)

  /** How the mirror answers a round: it seals a fresh secret to the round's key and its own copy of
      the PQ half, or commits its own PQ group, whose new epoch then exports the secret. */
  datatype Answer = Sealing(secret: Secret) | Committing(group: Shared)

  datatype Reply = Sealed(round: nat, lock: Secret, secret: Secret) | Committed(round: nat, group: Shared)

  /** `crosses[i]` is the state of the mirror's send group whose PSK classical commit `i` binds;
      `seen` is the last such state the owner applied, `bound` the last one it bound. */
  datatype Owner = Owner(
    cl: History,
    pq: History,
    spent: set<nat>,
    store: PskMap,
    staple: Carried,
    crosses: seq<Option<nat>>,
    seen: nat,
    bound: Option<nat>,
    round: Option<nat>,
    rounds: nat,
    offer: Option<Secret>,
    owed: Option<Owed>,
    broken: bool) {

    function PqReplica(): Replica {
      Replica(pq.Head(), OWNER, spent)
    }
  }

  /** `sends` are the states of the mirror's own send group; `applied` is the newest of them the
      owner has proved to have applied; `answered` the secret of each round answered. */
  datatype Mirror = Mirror(
    cl: Replica,
    pq: Replica,
    store: PskMap,
    sends: seq<Shared>,
    applied: Option<nat>,
    answered: map<nat, Secret>,
    held: Option<Secret>,
    wedged: bool)

  /** One spending of an exporter leaf: the `apq_psk` one of the PQ half, or the cross-party one of
      the mirror's send group. */
  datatype Export = Export(party: nat, component: nat, epoch: U64)

  /** A bind the mirror completed: which commits, and the PSK it exported. */
  datatype Completed = Completed(cl: nat, pq: nat, exported: ExportedPsk)

  datatype World = World(
    a: Owner,
    b: Mirror,
    wire: seq<Message>,
    replies: seq<Reply>,
    exports: seq<Export>,
    completed: seq<Completed>)

  datatype Step =
    | Observe
    | MirrorCommit(next: Shared)
    | Begin
    | Respond(round: nat, answer: Answer)
    | Open(k: nat)
    | Trigger(core: Core, path: Path)
    | CommitClassical(fold: Option<Leaf>, core: Core, path: Path)
    | Resend
    | Rekey(leaf: Leaf, cross: Option<Shared>, core: Core, path: Path)
    | Deliver(k: nat, core: Core, own: Option<Shared>)

  // ---- cross-party PSKs ----

  const SEND_PSK_WINDOW: nat := 8

  function CrossOf(g: Shared): ExportedPsk {
    ExportedFrom(g, TWOMLS_COMPONENT_ID)
  }

  function CrossMap(g: Shared): PskMap {
    map[StorageId(CrossOf(g)) := CrossOf(g).psk]
  }

  function LedgerOf(states: seq<Shared>): PskMap {
    if states == [] then map[]
    else LedgerOf(states[..|states| - 1]) + CrossMap(states[|states| - 1])
  }

  /** The PSKs the mirror still vouches for: one a state, the newest eight. */
  function Window(sends: seq<Shared>): PskMap {
    LedgerOf(if |sends| > SEND_PSK_WINDOW then sends[|sends| - SEND_PSK_WINDOW..] else sends)
  }

  function CrossPsk(g: Option<Shared>): PskMap {
    if g.Some? then CrossMap(g.value) else map[]
  }

  function CrossProposal(g: Option<Shared>): Bundle {
    if g.Some? then [ProposalInfo(Psk(StorageId(CrossOf(g.value))), Member(OWNER))] else []
  }

  function FoldProposal(fold: Option<Leaf>): Bundle {
    if fold.Some? then [ProposalInfo(Update(fold.value), Member(MIRROR))] else []
  }

  // ---- rounds ----

  /** What a sealed secret is locked to beside the round's key: the PQ half at its current epoch. */
  function SealLock(g: Shared): Secret {
    Derived(g.secret, SealLabel)
  }

  function ReplySecret(r: Reply): Secret {
    match r
    case Sealed(_, _, secret) => secret
    case Committed(_, group) => CrossOf(group).psk
  }

  function AnswerSecret(answer: Answer): Secret {
    match answer
    case Sealing(secret) => secret
    case Committing(group) => CrossOf(group).psk
  }

  function AnswerWith(round: nat, answer: Answer, pq: Shared): Reply {
    match answer
    case Sealing(secret) => Sealed(round, SealLock(pq), secret)
    case Committing(group) => Committed(round, group)
  }

  /** The owner opens a round. */
  function TakeBegin(w: World): World {
    var a := w.a;
    if a.broken || a.round.Some? || a.offer.Some? || a.owed.Some? then w
    else w.(a := a.(round := Some(a.rounds), rounds := a.rounds + 1))
  }

  /** The mirror answers a round the owner opened, once, and only with nothing held already. */
  function TakeRespond(w: World, round: nat, answer: Answer): World {
    var b := w.b;
    if b.wedged || round >= w.a.rounds || round in b.answered || b.held.Some? then w
    else
      var reply := AnswerWith(round, answer, b.pq.shared);
      w.(b := b.(held := Some(ReplySecret(reply)), answered := b.answered[round := ReplySecret(reply)]),
         replies := w.replies + [reply])
  }

  /** A reply opens iff it answers the round in flight and, when sealed, is locked to the PQ half as
      the owner has it. */
  predicate Opens(a: Owner, r: Reply) {
    a.round == Some(r.round) && (r.Sealed? ==> r.lock == SealLock(a.pq.Head()))
  }

  function TakeOpen(w: World, k: nat): World {
    var a := w.a;
    if a.broken || a.owed.Some? || k >= |w.replies| || !Opens(a, w.replies[k]) then w
    else w.(a := a.(round := None, offer := Some(ReplySecret(w.replies[k]))))
  }

  // ---- the mirror's own send group ----

  function TakeObserve(w: World): World {
    if w.a.seen + 1 < |w.b.sends| then w.(a := w.a.(seen := w.a.seen + 1)) else w
  }

  /** The mirror commits its own send group only once the owner has applied the state it is at, and
      ledgers the new state's PSK. */
  function TakeMirrorCommit(w: World, next: Shared): World {
    var sends := w.b.sends;
    if sends == [] || w.b.applied != Some(|sends| - 1) || next.epoch != sends[|sends| - 1].epoch + 1 then w
    else
      w.(b := w.b.(sends := sends + [next]),
         exports := w.exports + [Export(MIRROR, TWOMLS_COMPONENT_ID, next.epoch)])
  }

  // ---- the owner's commits ----

  predicate CanTrigger(a: Owner) {
    && !a.broken && a.offer.Some? && a.owed.None?
    && a.cl.Head().epoch < EPOCH_UNBOUND && a.pq.Head().epoch < EPOCH_UNBOUND
  }

  /** Both next epochs, reserved for the two halves of one bind. */
  function Reservation(a: Owner): ApqInfoUpdate
    requires CanTrigger(a)
  {
    ApqInfoUpdate(a.cl.Head().epoch + 1, a.pq.Head().epoch + 1)
  }

  /** The owner's store while the opened secret is registered. */
  function WithOffer(a: Owner): PskMap
    requires CanTrigger(a)
  {
    a.store[InjectedRef(a.pq.Head()) := a.offer.value]
  }

  function TriggerOutcome(a: Owner, core: Core, path: Path): (Result<Commit, CombinerError>, Replica)
    requires CanTrigger(a)
  {
    Injected(a.PqReplica(), core, WithOffer(a), Reservation(a), path, NoFault)
  }

  /** Whatever else happens, histories only grow from where they began. */
  predicate SameBases(w: World, v: World) {
    v.a.cl.base == w.a.cl.base && v.a.pq.base == w.a.pq.base
  }

  /** The trigger half of a bind: inject the opened secret and reserve both next epochs. */
  function TakeTrigger(w: World, core: Core, path: Path): (v: World)
    ensures SameBases(w, v)
    ensures |v.a.pq.log| > |w.a.pq.log| <==> CanTrigger(w.a) && TriggerOutcome(w.a, core, path).0.Ok?
  {
    var a := w.a;
    if !CanTrigger(a) then w
    else
      var pre := a.pq.Head();
      match TriggerOutcome(a, core, path)
      case (Err(_), _) => w.(a := a.(store := a.store - {InjectedRef(pre)}, offer := None))
      case (Ok(c), after) =>
        var e := Entry(pre, core, WithOffer(a), BindBundle(pre, OWNER, Reservation(a)), path, c, after.shared);
        w.(a := a.(pq := Append(a.pq, e), spent := {}, store := a.store - {InjectedRef(pre)},
                   offer := None, owed := Some(Owed(|a.pq.log|, Reservation(a)))))
  }

  /** The state whose PSK the next classical commit binds: the one last applied, unless it was bound
      already. */
  function NextCross(w: World): Option<nat> {
    if w.a.bound == Some(w.a.seen) || w.a.seen >= |w.b.sends| then None else Some(w.a.seen)
  }

  function StateAt(sends: seq<Shared>, cross: Option<nat>): Option<Shared> {
    if cross.Some? && cross.value < |sends| then Some(sends[cross.value]) else None
  }

  /** Export and register that PSK, and move the watermark: the leaf is spent whether or not the
      commit succeeds. */
  function BindCross(w: World): (v: World)
    ensures SameBases(w, v)
  {
    var cross := NextCross(w);
    if cross.None? then w
    else
      var g := w.b.sends[cross.value];
      w.(a := w.a.(store := w.a.store + CrossMap(g), bound := cross),
         exports := w.exports + [Export(OWNER, TWOMLS_COMPONENT_ID, g.epoch)])
  }

  function Forget(store: PskMap, g: Option<Shared>): PskMap {
    store - CrossPsk(g).Keys
  }

  function PartialBundle(fold: Option<Leaf>, cross: Option<Shared>): Bundle {
    FoldProposal(fold) + CrossProposal(cross)
  }

  function FullBundle(fold: Option<Leaf>, cross: Option<Shared>, attestation: ApqInfoUpdate, apq: ExportedPsk): Bundle {
    PartialBundle(fold, cross)
    + [ProposalInfo(Custom(ToCustomProposal(attestation)), Member(OWNER))]
    + [ProposalInfo(Psk(StorageId(apq)), Member(OWNER))]
  }

  /** A commit's frame leaves with it. */
  function Stapled(w: World, staple: Carried, a: Owner): World {
    w.(a := a.(staple := staple), wire := w.wire + [Frame(staple, a.seen)])
  }

  function TakePartial(w: World, fold: Option<Leaf>, cross: Option<nat>, core: Core, path: Path): (v: World)
    ensures SameBases(w, v) && v.a.pq == w.a.pq && v.a.offer == w.a.offer && v.b == w.b
  {
    var a := w.a;
    var pre := a.cl.Head();
    var state := StateAt(w.b.sends, cross);
    var bundle := PartialBundle(fold, state);
    match Build(pre, core, a.store, OWNER, bundle, path)
    case Err(_) => w
    case Ok((c, post)) =>
      Stapled(w, Partial(|a.cl.log|),
                 a.(cl := Append(a.cl, Entry(pre, core, a.store, bundle, path, c, post)),
                    crosses := a.crosses + [cross], store := Forget(a.store, state)))
  }

  /** The discharge: the next classical commit carries the owed bind. Both reservations are checked,
      the leaf is spent, and a failure past that point is final. */
  function TakeFull(w: World, owed: Owed, fold: Option<Leaf>, cross: Option<nat>, core: Core, path: Path): (v: World)
    ensures SameBases(w, v) && v.a.pq == w.a.pq && v.a.offer == w.a.offer && v.b == w.b
  {
    var a := w.a;
    var pre := a.cl.Head();
    var state := StateAt(w.b.sends, cross);
    if pre.epoch + 1 != owed.attestation.tEpoch || a.pq.Head().epoch != owed.attestation.pqEpoch then
      w.(a := a.(broken := true))
    else
      match ExportPsk(a.PqReplica(), APQ_COMPONENT_ID)
      case Err(_) => w.(a := a.(broken := true))
      case Ok((apq, after)) =>
        var exports := w.exports + [Export(OWNER, APQ_COMPONENT_ID, a.pq.Head().epoch)];
        var store := a.store[StorageId(apq) := apq.psk];
        var bundle := FullBundle(fold, state, owed.attestation, apq);
        match Build(pre, core, store, OWNER, bundle, path)
        case Err(_) => w.(a := a.(spent := after.spent, store := store, broken := true), exports := exports)
        case Ok((c, post)) =>
          Stapled(w, Full(|a.cl.log|, owed.pq),
                     a.(cl := Append(a.cl, Entry(pre, core, store, bundle, path, c, post)),
                        crosses := a.crosses + [cross], spent := after.spent,
                        store := Forget(a.store, state) - {StorageId(apq)}, owed := None)).(exports := exports)
  }

  function TakeCommit(w: World, fold: Option<Leaf>, core: Core, path: Path): (v: World)
    ensures SameBases(w, v) && v.a.pq == w.a.pq && v.a.offer == w.a.offer && v.b == w.b
  {
    if w.a.broken then w
    else
      var cross := NextCross(w);
      if w.a.owed.Some? then TakeFull(BindCross(w), w.a.owed.value, fold, cross, core, path)
      else TakePartial(BindCross(w), fold, cross, core, path)
  }

  function TakeResend(w: World): World {
    w.(wire := w.wire + [Frame(w.a.staple, w.a.seen)])
  }

  /** An A.5 re-key of the owner's PQ half: refused while a bind is owed. It may bind the PSK of the
      mirror's own PQ group, as the owner has it. */
  function TakeRekey(w: World, leaf: Leaf, cross: Option<Shared>, core: Core, path: Path): (v: World)
    ensures SameBases(w, v) && v.a.offer == w.a.offer && v.b == w.b
  {
    var a := w.a;
    if a.broken || a.owed.Some? then w
    else
      var pre := a.pq.Head();
      var store := a.store + CrossPsk(cross);
      var bundle := PartialBundle(Some(leaf), cross);
      match Build(pre, core, store, OWNER, bundle, path)
      case Err(_) => w.(a := a.(store := store))
      case Ok((c, post)) =>
        w.(a := a.(pq := Append(a.pq, Entry(pre, core, store, bundle, path, c, post)), spent := {},
                   store := Forget(a.store, cross)),
           wire := w.wire + [RekeyFrame(|a.pq.log|)])
  }

  // ---- the mirror's deliveries ----

  /** What the rest of a processed frame proves: the owner has applied the mirror's send group up to
      the offer, if the offer is for the state the group is at. */
  function Noted(w: World, offer: nat): (v: World)
    ensures v == w.(b := w.b.(applied := v.b.applied))
  {
    if |w.b.sends| == offer + 1 then w.(b := w.b.(applied := Some(offer))) else w
  }

  /** An attestation on a plain commit must name the epochs both halves are at. */
  predicate PlainAttestationHolds(c: Commit, cl: Shared, pq: Shared) {
    match Attestation(c.proposals)
    case Err(_) => false
    case Ok(None) => true
    case Ok(Some(u)) => u.tEpoch == cl.epoch && u.pqEpoch == pq.epoch
  }

  /** A plain commit staple: behind is a skip, ahead is a desync, at the epoch it applies with the
      ledgered PSKs in the store. */
  function ApplyPartial(w: World, i: nat, offer: nat, core: Core): (v: World)
    requires i < |w.a.cl.log|
    ensures v.a == w.a && v.wire == w.wire && v.replies == w.replies && v.b.answered == w.b.answered
  {
    var b := w.b;
    var c := w.a.cl.log[i].message;
    if c.epoch < b.cl.shared.epoch then Noted(w, offer)
    else if c.epoch > b.cl.shared.epoch then w
    else
      match Receive(b.cl, core, b.store + Window(b.sends), c)
      case Err(_) => w
      case Ok(next) =>
        var moved := w.(b := b.(cl := Moved(b.cl, next)));
        if PlainAttestationHolds(c, next, b.pq.shared) && |next.roster| == 2 then Noted(moved, offer) else moved
  }

  /** The classical half of a bind, once its PQ half is at `after` and exported `apq`, and the attestation
      check over both halves. */
  function ApplyClassicalHalf(w: World, i: nat, j: nat, offer: nat, core: Core, after: Replica, apq: ExportedPsk,
                              u: ApqInfoUpdate): (v: World)
    requires i < |w.a.cl.log| && j < |w.a.pq.log|
    ensures v.a == w.a && v.wire == w.wire && v.replies == w.replies && v.b.answered == w.b.answered
  {
    var b := w.b;
    var c := w.a.cl.log[i].message;
    var ref := InjectedRef(b.pq.shared);
    var registered := (b.store - {ref})[StorageId(apq) := apq.psk];
    var bound := b.(pq := after, store := registered, held := None);
    var exports := w.exports + [Export(MIRROR, APQ_COMPONENT_ID, after.shared.epoch)];
    match Receive(b.cl, core, (b.store + Window(b.sends) - {ref})[StorageId(apq) := apq.psk], c)
    case Err(_) => w.(b := bound.(wedged := true), exports := exports)
    case Ok(next) =>
      var moved := bound.(cl := Moved(b.cl, next));
      if Attestation(c.proposals) == Ok(Some(u)) && u.pqEpoch == after.shared.epoch && u.tEpoch == next.epoch
         && |next.roster| == 2 then
        Noted(w.(b := moved.(store := registered - {StorageId(apq)}), exports := exports,
                 completed := w.completed + [Completed(i, j, apq)]), offer)
      else w.(b := moved.(wedged := true), exports := exports)
  }

  /** A bind staple: apply the PQ half with the held secret, then the classical half, then verify
      the attestation against both. The secret is consumed first, so any failure is final. */
  function ApplyFull(w: World, i: nat, j: nat, offer: nat, core: Core): (v: World)
    requires i < |w.a.cl.log| && j < |w.a.pq.log|
    ensures v.a == w.a && v.wire == w.wire && v.replies == w.replies && v.b.answered == w.b.answered
  {
    var b := w.b;
    var cl, pq := w.a.cl.log[i].message, w.a.pq.log[j].message;
    if cl.epoch < b.cl.shared.epoch then Noted(w, offer)
    else if cl.epoch > b.cl.shared.epoch || b.held.None? then w
    else
      var ref := InjectedRef(b.pq.shared);
      match Applied(b.pq, core, (b.store + Window(b.sends))[ref := b.held.value], CommitMessage(pq), NoFault)
      case (Err(_), after) => w.(b := b.(pq := after, store := b.store - {ref}, held := None, wedged := true))
      case (Ok((apq, u)), after) => ApplyClassicalHalf(w, i, j, offer, core, after, apq, u)
  }

  /** An A.5 re-key: the mirror registers its own PQ group's PSK if it still can (`own`), applies, and
      forgets it. */
  function ApplyRekey(w: World, j: nat, core: Core, own: Option<Shared>): (v: World)
    requires j < |w.a.pq.log|
    ensures v.a == w.a && v.wire == w.wire && v.replies == w.replies && v.b.answered == w.b.answered
  {
    var b := w.b;
    var c := w.a.pq.log[j].message;
    var store := b.store + CrossPsk(own);
    match Receive(b.pq, core, store, c)
    case Err(_) => w.(b := b.(store := store))
    case Ok(next) =>
      var moved := b.(pq := Moved(b.pq, next), store := Forget(b.store, own));
      if Attestation(c.proposals) == Ok(None) && |next.roster| == 2 then w.(b := moved)
      else w.(b := moved.(wedged := true))
  }

  function TakeDeliver(w: World, k: nat, core: Core, own: Option<Shared>): (v: World)
    ensures v.a == w.a && v.wire == w.wire && v.replies == w.replies && v.b.answered == w.b.answered
  {
    if w.b.wedged || k >= |w.wire| then w
    else
      match w.wire[k]
      case Frame(Birth, offer) => Noted(w, offer)
      case Frame(Partial(i), offer) => if i < |w.a.cl.log| then ApplyPartial(w, i, offer, core) else w
      case Frame(Full(i, j), offer) =>
        if i < |w.a.cl.log| && j < |w.a.pq.log| then ApplyFull(w, i, j, offer, core) else w
      case RekeyFrame(j) => if j < |w.a.pq.log| then ApplyRekey(w, j, core, own) else w
  }

  function Take(w: World, step: Step): (v: World)
    ensures SameBases(w, v)
  {
    match step
    case Observe => TakeObserve(w)
    case MirrorCommit(next) => TakeMirrorCommit(w, next)
    case Begin => TakeBegin(w)
    case Respond(round, answer) => TakeRespond(w, round, answer)
    case Open(k) => TakeOpen(w, k)
    case Trigger(core, path) => TakeTrigger(w, core, path)
    case CommitClassical(fold, core, path) => TakeCommit(w, fold, core, path)
    case Resend => TakeResend(w)
    case Rekey(leaf, cross, core, path) => TakeRekey(w, leaf, cross, core, path)
    case Deliver(k, core, own) => TakeDeliver(w, k, core, own)
  }

  function Run(w: World, steps: seq<Step>): (v: World)
    ensures SameBases(w, v)
  {
    if steps == [] then w else Take(Run(w, steps[..|steps| - 1]), steps[|steps| - 1])
  }
}
