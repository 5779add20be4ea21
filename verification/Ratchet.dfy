/** The PQ ratchet over live objects: PSK stores shared by reference, groups that resolve PSKs from
    the store of the client they were born with, and the two halves of a bind. */
module Ratchet {
  import opened Prelude
  import opened KeySchedule
  import opened Proposals
  import opened Component
  import opened Mls
  import PskIds

  // ---- specifications on values ----

  function InjectedRef(g: Shared): PskRef {
    External(PskIds.InjectedSecretPskId(g.epoch, g.groupId))
  }

  /** The pathless bind's content: the injected PSK and the epoch attestation. */
  function BindBundle(g: Shared, own: nat, attestation: ApqInfoUpdate): Bundle {
    [ProposalInfo(Psk(InjectedRef(g)), Member(own)), ProposalInfo(Custom(ToCustomProposal(attestation)), Member(own))]
  }

  /** The one library call that fails for reasons of its own, if any: every early return of the
      ratchet is then an exit some run takes. */
  datatype Fault = NoFault | OnProposal | OnApply | OnSerialize | OnExport

  /** What injecting and committing does to the committer's copy, given the PSKs its group resolves
      while the secret is registered. */
  function Injected(r: Replica, core: Core, store: PskMap, attestation: ApqInfoUpdate, path: Path,
                    fault: Fault): (Result<Commit, CombinerError>, Replica) {
    if fault.OnProposal? then (Err(CombinerError.Mls), r)
    else
      match Build(r.shared, core, store, r.own, BindBundle(r.shared, r.own, attestation), path)
      case Err(_) => (Err(CombinerError.Mls), r)
      case Ok((c, next)) =>
        if fault.OnApply? then (Err(CombinerError.Mls), r)
        else if |next.roster| != 2 || fault.OnSerialize? then (Err(CombinerError.Mls), Moved(r, next))
        else (Ok(c), Moved(r, next))
  }

  datatype Incoming = Garbage | CommitMessage(commit: Commit) | OtherMessage(processable: bool)

  /** A member processes others' commits only. */
  function Receive(r: Replica, core: Core, store: PskMap, c: Commit): (v: Result<Shared, MlsError>)
    ensures v.Ok? ==> v.value.epoch == r.shared.epoch + 1
  {
    if c.source == ExistingMember(r.own) then Err(UnknownSender) else Process(r.shared, core, store, c)
  }

  /** What processing the peer's bind commit does to the applier's copy, up to reading the
      attestation. The commit applies before its attestation is read: a commit without one moves the
      group and still fails. */
  function Received(r: Replica, core: Core, store: PskMap, msg: Incoming)
      : (Result<ApqInfoUpdate, CombinerError>, Replica) {
    match msg
    case Garbage => (Err(CombinerError.Mls), r)
    case OtherMessage(processable) => (Err(if processable then ApqInfoMismatch else CombinerError.Mls), r)
    case CommitMessage(c) =>
      match Receive(r, core, store, c)
      case Err(_) => (Err(CombinerError.Mls), r)
      case Ok(next) =>
        var moved := Moved(r, next);
        match Attestation(c.proposals)
        case Err(e) => (Err(e), moved)
        case Ok(None) => (Err(ApqInfoMismatch), moved)
        case Ok(Some(u)) => (if |next.roster| != 2 then Err(CombinerError.Mls) else Ok(u), moved)
  }

  /** Applying the peer's bind commit: processing it, then spending the new epoch's exporter leaf. */
  function Applied(r: Replica, core: Core, store: PskMap, msg: Incoming, fault: Fault)
      : (Result<(ExportedPsk, ApqInfoUpdate), CombinerError>, Replica) {
    var (received, moved) := Received(r, core, store, msg);
    match received
    case Err(e) => (Err(e), moved)
    case Ok(u) =>
      if fault.OnExport? then (Err(CombinerError.Mls), moved)
      else
        match ExportPsk(moved, APQ_COMPONENT_ID)
        case Err(e) => (Err(e), moved)
        case Ok((exported, spent)) => (Ok((exported, u)), spent)
  }

  /** A failed apply spends no exporter leaf: either the group did not move and its spent leaves are
      what they were, or it is in a new epoch with none spent. It succeeds only with the new epoch's
      own export, and then exactly that one leaf is spent. */
  lemma ApplySpendsOnlyOnSuccess(r: Replica, core: Core, store: PskMap, msg: Incoming, fault: Fault)
    ensures var (v, after) := Applied(r, core, store, msg, fault);
            && (after.shared == r.shared ==> after == r && v.Err?)
            && (after.shared != r.shared ==> after.shared.epoch == r.shared.epoch + 1)
            && (v.Err? && after.shared != r.shared ==> after.spent == {})
            && (v.Ok? ==>
                  && after.spent == {APQ_COMPONENT_ID}
                  && v.value.0 == ExportedFrom(after.shared, APQ_COMPONENT_ID))
  {
  }

  // ---- live objects ----

  /** An in-memory PSK store; every clone of a handle is this one object. */
  class Store {
    var entries: PskMap

    constructor ()
      ensures entries == map[]
    {
      entries := map[];
    }
  }

  method RegisterPskStores(stores: seq<Store>, ref: PskRef, psk: Secret)
    modifies set s | s in stores
    ensures forall s :: s in stores ==> s.entries == old(s.entries)[ref := psk]
  {
    for i := 0 to |stores|
      invariant forall s :: s in stores[..i] ==> s.entries == old(s.entries)[ref := psk]
      invariant forall s :: s in stores && s !in stores[..i] ==> s.entries == old(s.entries)
    {
      stores[i].entries := stores[i].entries[ref := psk];
      assert stores[..i + 1] == stores[..i] + [stores[i]];
    }
    assert stores[..|stores|] == stores;
  }

  method ForgetPskStores(stores: seq<Store>, ref: PskRef)
    modifies set s | s in stores
    ensures forall s :: s in stores ==> s.entries == old(s.entries) - {ref}
  {
    for i := 0 to |stores|
      invariant forall s :: s in stores[..i] ==> s.entries == old(s.entries) - {ref}
      invariant forall s :: s in stores && s !in stores[..i] ==> s.entries == old(s.entries)
    {
      stores[i].entries := stores[i].entries - {ref};
      assert stores[..i + 1] == stores[..i] + [stores[i]];
    }
    assert stores[..|stores|] == stores;
  }

  /** A member's live group and the store of the client that created or joined it. */
  class Group {
    var replica: Replica
    var pending: Option<Shared>
    const psks: Store

    constructor (replica: Replica, psks: Store)
      ensures this.replica == replica && this.pending == None && this.psks == psks
    {
      this.replica, this.pending, this.psks := replica, None, psks;
    }

    method BuildCommit(core: Core, b: Bundle, path: Path) returns (r: Result<Commit, MlsError>)
      modifies this`pending
      ensures var built := Build(replica.shared, core, psks.entries, replica.own, b, path);
              && (built.Err? ==> r == Err(built.error) && pending == old(pending))
              && (built.Ok? ==> r == Ok(built.value.0) && pending == Some(built.value.1))
    {
      var built := Build(replica.shared, core, psks.entries, replica.own, b, path);
      if built.Err? {
        return Err(built.error);
      }
      pending := Some(built.value.1);
      return Ok(built.value.0);
    }

    method ApplyPendingCommit(fault: Fault) returns (r: Result<(), CombinerError>)
      modifies this
      ensures old(pending).None? || fault.OnApply? ==>
                r == Err(CombinerError.Mls) && replica == old(replica) && pending == old(pending)
      ensures old(pending).Some? && !fault.OnApply? ==>
                r == Ok(()) && replica == Moved(old(replica), old(pending).value) && pending == None
    {
      if pending.None? || fault.OnApply? {
        return Err(CombinerError.Mls);
      }
      replica, pending := Moved(replica, pending.value), None;
      return Ok(());
    }

    method ProcessCommit(core: Core, c: Commit) returns (r: Result<Bundle, MlsError>)
      modifies this
      ensures var v := Receive(old(replica), core, psks.entries, c);
              && (v.Err? ==> r == Err(v.error) && replica == old(replica) && pending == old(pending))
              && (v.Ok? ==> r == Ok(c.proposals) && replica == Moved(old(replica), v.value))
    {
      var v := Receive(replica, core, psks.entries, c);
      if v.Err? {
        return Err(v.error);
      }
      replica, pending := Moved(replica, v.value), None;
      return Ok(c.proposals);
    }

    method Export(component: nat, fault: Fault) returns (r: Result<ExportedPsk, CombinerError>)
      modifies this`replica
      ensures component in old(replica).spent || fault.OnExport? ==>
                r == Err(CombinerError.Mls) && replica == old(replica)
      ensures component !in old(replica).spent && !fault.OnExport? ==>
                && r == Ok(ExportedFrom(old(replica).shared, component))
                && replica == old(replica).(spent := old(replica).spent + {component})
    {
      var exported := ExportPsk(replica, component);
      if exported.Err? || fault.OnExport? {
        return Err(CombinerError.Mls);
      }
      replica := exported.value.1;
      return Ok(exported.value.0);
    }
  }

  /** The PSKs a group resolves while `ref` is registered in `stores`. */
  ghost function Resolvable(g: Group, stores: seq<Store>, ref: PskRef, psk: Secret): PskMap
    reads g.psks
  {
    if g.psks in stores then g.psks.entries[ref := psk] else g.psks.entries
  }

  /** Inject `s` by a pathless PSK commit. On every exit, early returns included, the injected id is
      gone from every listed store (however the list aliases), every other entry of a listed store is
      what it was, and unlisted stores are untouched. */
  method InjectAndCommit(pq: Group, s: Secret, stores: seq<Store>, attestation: ApqInfoUpdate, core: Core, path: Path,
                         fault: Fault)
      returns (r: Result<Commit, CombinerError>)
    modifies pq, set st | st in stores
    ensures (r, pq.replica) ==
            Injected(old(pq.replica), core, old(Resolvable(pq, stores, InjectedRef(pq.replica.shared), s)),
                     attestation, path, fault)
    ensures forall st :: st in stores ==> st.entries == old(st.entries) - {old(InjectedRef(pq.replica.shared))}
  {
    var ref := InjectedRef(pq.replica.shared);
    RegisterPskStores(stores, ref, s);
    if fault.OnProposal? {
      ForgetPskStores(stores, ref);
      return Err(CombinerError.Mls);
    }
    var built := pq.BuildCommit(core, BindBundle(pq.replica.shared, pq.replica.own, attestation), path);
    if built.Err? {
      ForgetPskStores(stores, ref);
      return Err(CombinerError.Mls);
    }
    var applied := pq.ApplyPendingCommit(fault);
    if applied.Err? {
      ForgetPskStores(stores, ref);
      return Err(CombinerError.Mls);
    }
    if |pq.replica.shared.roster| != 2 {
      ForgetPskStores(stores, ref);
      return Err(CombinerError.Mls);
    }
    ForgetPskStores(stores, ref);
    if fault.OnSerialize? {
      return Err(CombinerError.Mls);
    }
    return Ok(built.value);
  }

  method ExportApqPsk(pq: Group, stores: seq<Store>, fault: Fault) returns (r: Result<ExportedPsk, CombinerError>)
    modifies pq`replica, set st | st in stores
    ensures r.Err? <==> APQ_COMPONENT_ID in old(pq.replica).spent || fault.OnExport?
    ensures r.Err? ==>
              && r.error == CombinerError.Mls && pq.replica == old(pq.replica)
              && forall st :: st in stores ==> st.entries == old(st.entries)
    ensures r.Ok? ==>
              && r.value == ExportedFrom(old(pq.replica).shared, APQ_COMPONENT_ID)
              && pq.replica == old(pq.replica).(spent := old(pq.replica).spent + {APQ_COMPONENT_ID})
              && forall st :: st in stores ==> st.entries == old(st.entries)[StorageId(r.value) := r.value.psk]
  {
    r := pq.Export(APQ_COMPONENT_ID, fault);
    if r.Ok? {
      RegisterPskStores(stores, StorageId(r.value), r.value.psk);
    }
  }

  /** Process the peer's bind commit and read its attestation; the group may have moved even when
      this fails. */
  method ReceiveBind(pq: Group, msg: Incoming, core: Core) returns (r: Result<ApqInfoUpdate, CombinerError>)
    modifies pq
    ensures (r, pq.replica) == Received(old(pq.replica), core, pq.psks.entries, msg)
  {
    if !msg.CommitMessage? {
      return Err(if msg.OtherMessage? && msg.processable then ApqInfoMismatch else CombinerError.Mls);
    }
    var received := pq.ProcessCommit(core, msg.commit);
    if received.Err? {
      return Err(CombinerError.Mls);
    }
    var attestation := FindApqInfoUpdate(received.value);
    if attestation.Err? || attestation.value.None? {
      return Err(if attestation.Err? then attestation.error else ApqInfoMismatch);
    }
    if |pq.replica.shared.roster| != 2 {
      return Err(CombinerError.Mls);
    }
    return Ok(attestation.value.value);
  }

  /** Register the held secret, apply the peer's bind commit, re-export. On every exit the injected
      id (taken at the epoch before the commit, though the epoch may have moved) is gone from every
      listed store; on success the new export is registered beside the untouched rest. */
  method ApplyInjectedCommit(pq: Group, s: Secret, msg: Incoming, stores: seq<Store>, core: Core, fault: Fault)
      returns (r: Result<(ExportedPsk, ApqInfoUpdate), CombinerError>)
    modifies pq, set st | st in stores
    ensures (r, pq.replica) == Applied(old(pq.replica), core,
                                       old(Resolvable(pq, stores, InjectedRef(pq.replica.shared), s)), msg, fault)
    ensures r.Err? ==> forall st :: st in stores ==>
              st.entries == old(st.entries) - {old(InjectedRef(pq.replica.shared))}
    ensures r.Ok? ==> forall st :: st in stores ==>
              st.entries ==
              (old(st.entries) - {old(InjectedRef(pq.replica.shared))})[StorageId(r.value.0) := r.value.0.psk]
  {
    var ref := InjectedRef(pq.replica.shared);
    RegisterPskStores(stores, ref, s);
    var attestation := ReceiveBind(pq, msg, core);
    ForgetPskStores(stores, ref);
    assert forall st :: st in stores ==> st.entries == old(st.entries) - {ref};
    if attestation.Err? {
      return Err(attestation.error);
    }
    var exported := ExportApqPsk(pq, stores, fault);
    if exported.Err? {
      return Err(exported.error);
    }
    return Ok((exported.value, attestation.value));
  }

  // ---- captured store handles ----

  class Client {
    const classicalStore: Store
    const pqStore: Store

    constructor ()
      ensures fresh(classicalStore) && fresh(pqStore) && classicalStore != pqStore
      ensures classicalStore.entries == map[] && pqStore.entries == map[]
    {
      classicalStore := new Store();
      pqStore := new Store();
    }
  }

  /** A `{classical, pq}` pair with the store handles of the clients its halves were born with. */
  class CombinerGroup {
    var classical: Group
    var pq: Group?
    var classicalPsks: Store
    var pqPsks: Store
    ghost var birth: Client
    ghost var pqBirth: Client

    /** Every handle is the store the corresponding live half resolves from. */
    ghost predicate Valid()
      reads this
    {
      && classicalPsks == birth.classicalStore && classical.psks == classicalPsks
      && pqPsks == pqBirth.pqStore && (pq != null ==> pq.psks == pqPsks)
    }

    constructor FromClient(client: Client, classical: Group, pq: Group?)
      requires classical.psks == client.classicalStore
      requires pq != null ==> pq.psks == client.pqStore
      ensures Valid() && birth == client && pqBirth == client
      ensures this.classical == classical && this.pq == pq
    {
      this.classical, this.pq := classical, pq;
      classicalPsks, pqPsks := client.classicalStore, client.pqStore;
      birth, pqBirth := client, client;
    }

    /** Attach a PQ half another client made: only the PQ handle follows it. */
    method SetPq(pq: Group, client: Client)
      requires Valid() && pq.psks == client.pqStore
      modifies this
      ensures Valid() && this.pq == pq && pqBirth == client
      ensures birth == old(birth) && classical == old(classical) && classicalPsks == old(classicalPsks)
    {
      this.pq := pq;
      pqPsks := client.pqStore;
      pqBirth := client;
    }

    /** Exactly the two birth stores change, in exactly this entry, whichever client the session
        currently drives. */
    method RegisterPsk(ref: PskRef, psk: Secret)
      requires Valid()
      modifies birth.classicalStore, pqBirth.pqStore
      ensures Valid()
      ensures birth.classicalStore.entries == old(birth.classicalStore.entries)[ref := psk]
      ensures pqBirth.pqStore.entries == old(pqBirth.pqStore.entries)[ref := psk]
    {
      classicalPsks.entries := classicalPsks.entries[ref := psk];
      pqPsks.entries := pqPsks.entries[ref := psk];
    }

    method ForgetPsk(ref: PskRef)
      requires Valid()
      modifies birth.classicalStore, pqBirth.pqStore
      ensures Valid()
      ensures birth.classicalStore.entries == old(birth.classicalStore.entries) - {ref}
      ensures pqBirth.pqStore.entries == old(pqBirth.pqStore.entries) - {ref}
    {
      classicalPsks.entries := classicalPsks.entries - {ref};
      pqPsks.entries := pqPsks.entries - {ref};
    }
  }

  // ---- any sequence of calls on one group ----

  /** A session drives a group through `set_pq`, registering and forgetting PSKs, and swapping the client
      it currently uses, which no handle follows. */
  datatype HandleCall =
    | Attach(pq: Group, client: Client)
    | Register(ref: PskRef, psk: Secret)
    | Drop(ref: PskRef)
    | Swap(client: Client)

  function Effect(entries: PskMap, c: HandleCall): PskMap {
    match c
    case Register(ref, psk) => entries[ref := psk]
    case Drop(ref) => entries - {ref}
    case _ => entries
  }

  /** The client whose PQ store the handle names after some calls: the last one attached. */
  function Attached(first: Client, calls: seq<HandleCall>): Client {
    if calls == [] then first
    else if calls[|calls| - 1].Attach? then calls[|calls| - 1].client
    else Attached(first, calls[..|calls| - 1])
  }

  /** What a store holds after some calls: it takes the calls made while it was the classical birth
      store or the attached client's PQ store, and no others. */
  function StoreAfter(entries: PskMap, birth: Client, first: Client, calls: seq<HandleCall>, store: Store): PskMap {
    if calls == [] then entries
    else
      var front := calls[..|calls| - 1];
      var before := StoreAfter(entries, birth, first, front, store);
      if store == birth.classicalStore || store == Attached(first, front).pqStore then
        Effect(before, calls[|calls| - 1])
      else before
  }

  ghost function Reachable(birth: Client, first: Client, calls: seq<HandleCall>): set<Store> {
    {birth.classicalStore, first.pqStore} + set c | c in calls && c.Attach? :: c.client.pqStore
  }

  lemma {:induction false} AttachedIsReachable(birth: Client, first: Client, calls: seq<HandleCall>, i: nat)
    requires i <= |calls|
    ensures Attached(first, calls[..i]).pqStore in Reachable(birth, first, calls)
  {
    if i > 0 {
      assert calls[..i][..i - 1] == calls[..i - 1];
      AttachedIsReachable(birth, first, calls, i - 1);
    }
  }

  /** After any calls every handle is still the store its half resolves from: the classical one always
      the birth client's, the PQ one the last attached client's. Each store took exactly the calls made
      while it was one of the two; every other client's store is untouched. */
  method Drive(g: CombinerGroup, calls: seq<HandleCall>)
    requires g.Valid()
    requires forall c :: c in calls && c.Attach? ==> c.pq.psks == c.client.pqStore
    modifies g, Reachable(g.birth, g.pqBirth, calls)
    ensures g.Valid() && g.birth == old(g.birth) && g.classical == old(g.classical)
    ensures g.pqBirth == Attached(old(g.pqBirth), calls)
    ensures forall st :: st in Reachable(g.birth, old(g.pqBirth), calls) ==>
              st.entries == StoreAfter(old(st.entries), g.birth, old(g.pqBirth), calls, st)
  {
    ghost var first := g.pqBirth;
    ghost var stores := Reachable(g.birth, first, calls);
    for i := 0 to |calls|
      invariant g.Valid() && g.birth == old(g.birth) && g.classical == old(g.classical)
      invariant g.pqBirth == Attached(first, calls[..i])
      invariant forall st :: st in stores ==> st.entries == StoreAfter(old(st.entries), g.birth, first, calls[..i], st)
    {
      AttachedIsReachable(g.birth, first, calls, i);
      assert calls[..i + 1][..i] == calls[..i];
      match calls[i]
      case Attach(pq, client) => g.SetPq(pq, client);
      case Register(ref, psk) => g.RegisterPsk(ref, psk);
      case Drop(ref) => g.ForgetPsk(ref);
      case Swap(_) =>
    }
    assert calls[..|calls|] == calls;
  }

  // ---- which id, and when the group moves ----

  /** A member never processes its own commit; another's is processed as such. */
  lemma OwnCommitRefused(r: Replica, core: Core, store: PskMap, c: Commit)
    ensures c.source == ExistingMember(r.own) ==> Receive(r, core, store, c).Err?
    ensures c.source != ExistingMember(r.own) ==> Receive(r, core, store, c) == Process(r.shared, core, store, c)
  {
  }

  /** The id a bind registers, names and wipes is external and spells out the group's own epoch and id. */
  lemma BindNamesEpoch(g: Shared, own: nat, attestation: ApqInfoUpdate)
    ensures var ref := BindBundle(g, own, attestation)[0].proposal.ref;
            && BindBundle(g, own, attestation)[0].sender == Member(own)
            && ref == InjectedRef(g) && ref.External?
            && |ref.id| == 9 + |g.groupId|
            && FromLittleEndian(ref.id[..8]) == g.epoch && ref.id[8..8 + |g.groupId|] == g.groupId
            && ref.id[8 + |g.groupId|] == 0x52
    ensures BindBundle(g, own, attestation)[1] == ProposalInfo(Custom(ToCustomProposal(attestation)), Member(own))
    ensures |BindBundle(g, own, attestation)| == 2
  {
    PskIds.InjectedIdLayout(g.epoch, g.groupId);
  }

  /** So ids are shared only within one epoch of one group. */
  lemma InjectedRefsDiffer(g: Shared, h: Shared)
    ensures InjectedRef(g) == InjectedRef(h) <==> g.epoch == h.epoch && g.groupId == h.groupId
  {
    PskIds.InjectedIdsAreInjective(g.epoch, g.groupId, h.epoch, h.groupId);
  }

  /** Injecting fails with the group moved iff the commit was built and applied and only then something
      failed; whenever it moves it is one epoch on with every exporter leaf fresh. */
  lemma InjectMovesIff(r: Replica, core: Core, store: PskMap, attestation: ApqInfoUpdate, path: Path, fault: Fault)
    ensures var (v, after) := Injected(r, core, store, attestation, path, fault);
            var built := Build(r.shared, core, store, r.own, BindBundle(r.shared, r.own, attestation), path);
            && (after != r ==> after.shared.epoch == r.shared.epoch + 1 && after.spent == {} && after.own == r.own)
            && (after.shared != r.shared <==> built.Ok? && !fault.OnProposal? && !fault.OnApply?)
            && (v.Ok? ==> built.Ok? && v.value == built.value.0 && after.shared == built.value.1)
            && (v.Ok? <==> built.Ok? && |built.value.1.roster| == 2 && (fault.NoFault? || fault.OnExport?))
  {
  }

  /** Which error an apply gives: what does not parse, is not processable, or is refused moves nothing; a
      processable message that is no commit, and a commit that attests nothing, are a mismatch. */
  lemma ApplyRefusalNames(r: Replica, core: Core, store: PskMap, msg: Incoming, fault: Fault)
    ensures var (v, after) := Applied(r, core, store, msg, fault);
            match msg
            case Garbage => v == Err(CombinerError.Mls) && after == r
            case OtherMessage(processable) => after == r
                && v == Err(if processable then ApqInfoMismatch else CombinerError.Mls)
            case CommitMessage(c) =>
              var received := Receive(r, core, store, c);
              if received.Err? then v == Err(CombinerError.Mls) && after == r
              else if Attestation(c.proposals) == Ok(None) then v == Err(ApqInfoMismatch)
                  && after == Moved(r, received.value)
              else if Attestation(c.proposals).Err? then v.Err? && after == Moved(r, received.value)
              else if |received.value.roster| != 2 || fault.OnExport? then
                v == Err(CombinerError.Mls) && after == Moved(r, received.value)
              else
                && v == Ok((ExportedFrom(received.value, 0xFF01), Attestation(c.proposals).value.value))
                && after == Replica(received.value, r.own, {0xFF01})
  {
  }
}
