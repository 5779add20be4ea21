/** Creation and join over live objects: clients with their stores and Authentication Service, and
    the groups they make. */
module Clients {
  import opened Prelude
  import opened KeySchedule
  import opened Proposals
  import opened Component
  import opened Mls
  import opened ApqInfoChecks
  import opened Establishment
  import opened Ratchet
  import Authentication

  class CombinerClient {
    const suite: ApqCipherSuite
    const own: KeyPackages
    const view: Authentication.AuthView
    const stores: Client

    ghost predicate Valid()
      reads view, view.target
    {
      view.target.mine != view.target.theirs && stores.classicalStore != stores.pqStore
    }

    function Value(): Party
      reads view, view.target, view.target.mine, view.target.theirs, stores.classicalStore, stores.pqStore
    {
      Party(suite, own, view.target.Value(), stores.classicalStore.entries, stores.pqStore.entries)
    }

    constructor (suite: ApqCipherSuite, own: KeyPackages, id: Bytes)
      ensures Valid() && fresh(view) && fresh(view.target) && fresh(stores)
      ensures Value() == Party(suite, own, Authentication.Core(Authentication.Run([Authentication.Event.Commit(id)]),
                                                               Authentication.EMPTY, false), map[], map[])
    {
      this.suite, this.own := suite, own;
      view := new Authentication.AuthView(id);
      stores := new Client();
    }

    /** Register one exported PSK where either half of a group of this client resolves it. */
    method Register(psk: ExportedPsk)
      requires Valid()
      modifies stores.classicalStore, stores.pqStore
      ensures Valid() && Value() == Registered(old(Value()), psk)
    {
      stores.classicalStore.entries := stores.classicalStore.entries[StorageId(psk) := psk.psk];
      stores.pqStore.entries := stores.pqStore.entries[StorageId(psk) := psk.psk];
    }
  }

  /** Create a group around one key package; each PSK is named by the member-add commit. */
  method CreateGroupWithMember(c: Creation, suite: nat, own: Leaf, seed: Secret, theirs: Leaf, core: Core, store: Store,
                               psks: seq<ExportedPsk>, path: Path)
                                   returns (g: Group?, r: Result<Welcome, CombinerError>)
    ensures var made := Created(c, suite, own, seed, theirs, core, store.entries, psks, path);
            && (made.Err? ==> g == null && r == Err(made.error))
            && (made.Ok? ==>
                  && g != null && fresh(g) && g.replica == made.value.0 && g.psks == store
                  && r == Ok(made.value.1))
  {
    var group := new Group(Replica(Lone(c, suite, own, seed), 0, {}), store);
    var bundle: Bundle := [ProposalInfo(Add(theirs), Member(0))];
    for i := 0 to |psks|
      invariant bundle == [ProposalInfo(Add(theirs), Member(0))] + PskProposals(psks[..i])
    {
      assert psks[..i + 1][..i] == psks[..i];
      bundle := bundle + [ProposalInfo(Psk(StorageId(psks[i])), Member(0))];
    }
    assert psks[..|psks|] == psks;
    if c.attestation.Some? {
      bundle := bundle + [ProposalInfo(Custom(ToCustomProposal(c.attestation.value)), Member(0))];
    }
    assert bundle == CreationBundle(theirs, psks, c.attestation);
    var lone := group.replica.shared;
    var built := group.BuildCommit(core, bundle, path);
    if built.Err? {
      return null, Err(CombinerError.Mls);
    }
    var applied := group.ApplyPendingCommit(NoFault);
    return group, Ok(WelcomeFor(lone, built.value, group.replica.shared));
  }

  method JoinGroupFromWelcome(w: Welcome, core: Core, store: Store, own: Leaf)
      returns (g: Group?, r: Result<(), CombinerError>)
    ensures var joined := Joined(w, core, store.entries, own);
            && (joined.Err? ==> g == null && r == Err(joined.error))
            && (joined.Ok? ==> g != null && fresh(g) && g.replica == joined.value && g.psks == store && r == Ok(()))
  {
    var joined := Joined(w, core, store.entries, own);
    if joined.Err? {
      return null, Err(joined.error);
    }
    g := new Group(joined.value, store);
    r := Ok(());
  }

  method CreatePqHalf(client: CombinerClient, theirs: KeyPackages, d: Draw)
      returns (g: Group?, r: Result<Welcome, CombinerError>)
    ensures var made := CreatedPq(client.Value(), theirs, d);
            && (made.Err? ==> g == null && r == Err(made.error))
            && (made.Ok? ==> g != null && fresh(g) && g.replica == made.value.0 && g.replica.spent == {}
                             && g.psks == client.stores.pqStore && r == Ok(made.value.1))
  {
    g, r := CreateGroupWithMember(PqCreation(client.suite, d), client.suite.pq, client.own.pq, d.pqSeed, theirs.pq,
                                  client.view.target.Value(), client.stores.pqStore, [], d.pqPath);
  }

  method CreateClassicalHalf(client: CombinerClient, theirs: KeyPackages, cross: Option<ExportedPsk>, apq: ExportedPsk,
                             binding: Option<Bytes>, d: Draw)
      returns (g: Group?, r: Result<Welcome, CombinerError>)
    ensures var made := CreateBound(client.Value(), theirs, cross, apq, binding, d);
            && (made.Err? ==> g == null && r == Err(made.error))
            && (made.Ok? ==>
                  && g != null && fresh(g) && g.replica == made.value.0
                  && g.psks == client.stores.classicalStore && r == Ok(made.value.1))
  {
    if binding == Some([]) {
      return null, Err(AppBindingMismatch);
    }
    g, r := CreateGroupWithMember(ClassicalCreation(client.suite, d, binding), client.suite.classical,
                                  client.own.classical, d.tSeed, theirs.classical, client.view.target.Value(),
                                  client.stores.classicalStore,
                                  Crossing(cross) + [apq], d.tPath);
  }

  /** Export the new PQ half's PSK, register it, and build the classical half on it. */
  method BindClassicalHalf(client: CombinerClient, theirs: KeyPackages, cross: Option<ExportedPsk>, pq: Group,
                           binding: Option<Bytes>, d: Draw)
      returns (apq: ExportedPsk, g: Group?, r: Result<Welcome, CombinerError>)
    requires client.Valid() && pq.replica.spent == {}
    modifies pq`replica, client.stores.classicalStore, client.stores.pqStore
    ensures apq == ExportedFrom(old(pq.replica).shared, APQ_COMPONENT_ID)
    ensures pq.replica == old(pq.replica).(spent := {APQ_COMPONENT_ID})
    ensures client.Valid() && client.Value() == Registered(old(client.Value()), apq)
    ensures var made := CreateBound(client.Value(), theirs, cross, apq, binding, d);
            && (made.Err? ==> g == null && r == Err(made.error))
            && (made.Ok? ==>
                  && g != null && fresh(g) && g.replica == made.value.0
                  && g.psks == client.stores.classicalStore && r == Ok(made.value.1))
  {
    var exported := pq.Export(APQ_COMPONENT_ID, NoFault);
    apq := exported.value;
    client.Register(apq);
    g, r := CreateClassicalHalf(client, theirs, cross, apq, binding, d);
  }

  /** Both halves, once the client is ready. */
  method BuildHalves(client: CombinerClient, theirs: KeyPackages, cross: Option<ExportedPsk>, binding: Option<Bytes>,
                     d: Draw)
      returns (g: CombinerGroup?, r: Result<(Welcome, Welcome), CombinerError>)
    requires client.Valid()
    modifies client.stores.classicalStore, client.stores.pqStore
    ensures client.Valid() && client.Value() == CreateHalves(old(client.Value()), theirs, cross, binding, d).1
    ensures var out := CreateHalves(old(client.Value()), theirs, cross, binding, d).0;
            && (out.Err? ==> g == null && r == Err(out.error))
            && (out.Ok? ==>
                  && g != null && fresh(g) && g.Valid() && g.birth == client.stores && g.pqBirth == client.stores
                  && g.pq != null
                  && g.classical.replica == out.value.cl && g.pq.replica == out.value.pq
                  && r == Ok((out.value.clWelcome, out.value.pqWelcome)))
  {
    var pq, pqWelcome := CreatePqHalf(client, theirs, d);
    if pqWelcome.Err? {
      return null, Err(pqWelcome.error);
    }
    var apq, cl, clWelcome := BindClassicalHalf(client, theirs, cross, pq, binding, d);
    if clWelcome.Err? {
      return null, Err(clWelcome.error);
    }
    g := new CombinerGroup.FromClient(client.stores, cl, pq);
    r := Ok((clWelcome.value, pqWelcome.value));
  }

  /** Create the initiator's send pair. The client's stores and Authentication Service end as
      `CreateSend` says on every exit, failures included, and a made pair keeps this client's store
      handles. */
  method CreateSendGroup(client: CombinerClient, theirs: KeyPackages, binding: Option<Bytes>, d: Draw)
      returns (g: CombinerGroup?, r: Result<(Welcome, Welcome), CombinerError>)
    requires client.Valid()
    modifies client.view.target.theirs, client.stores.classicalStore, client.stores.pqStore
    ensures client.Valid() && client.Value() == CreateSend(old(client.Value()), theirs, None, binding, d).1
    ensures var out := CreateSend(old(client.Value()), theirs, None, binding, d).0;
            && (out.Err? ==> g == null && r == Err(out.error))
            && (out.Ok? ==>
                  && g != null && fresh(g) && g.Valid() && g.birth == client.stores && g.pqBirth == client.stores
                  && g.pq != null
                  && g.classical.replica == out.value.cl && g.pq.replica == out.value.pq
                  && r == Ok((out.value.clWelcome, out.value.pqWelcome)))
  {
    client.view.CommitTheirs(AdmittedId(theirs, None));
    g, r := BuildHalves(client, theirs, None, binding, d);
  }

  /** Create the acceptor's send pair, bound to the group it received: that group's cross-party leaf is
      spent, and everything else is as for the initiator. */
  method CreateBoundSendGroup(client: CombinerClient, theirs: KeyPackages, recv: Group, binding: Option<Bytes>, d: Draw)
      returns (g: CombinerGroup?, r: Result<(Welcome, Welcome), CombinerError>)
    requires client.Valid()
    modifies recv`replica, client.view.target.theirs, client.stores.classicalStore, client.stores.pqStore
    ensures client.Valid() && client.Value() ==
              CreateBoundSend(old(client.Value()), theirs, old(recv.replica), binding, d).1
    ensures recv.replica == CreateBoundSend(old(client.Value()), theirs, old(recv.replica), binding, d).2
    ensures var out := CreateBoundSend(old(client.Value()), theirs, old(recv.replica), binding, d).0;
            && (out.Err? ==> g == null && r == Err(out.error))
            && (out.Ok? ==>
                  && g != null && fresh(g) && g.Valid() && g.birth == client.stores && g.pqBirth == client.stores
                  && g.pq != null
                  && g.classical.replica == out.value.cl && g.pq.replica == out.value.pq
                  && r == Ok((out.value.clWelcome, out.value.pqWelcome)))
  {
    client.view.CommitTheirs(theirs.classical.id);
    var cross := recv.Export(TWOMLS_COMPONENT_ID, NoFault);
    if cross.Err? {
      return null, Err(cross.error);
    }
    client.Register(cross.value);
    assert client.Value() == Ready(old(client.Value()), theirs, Some(cross.value));
    g, r := BuildHalves(client, theirs, Some(cross.value), binding, d);
  }

  /** The joins themselves, inside the adoption window. */
  method JoinBoth(client: CombinerClient, clWelcome: Welcome, pqWelcome: Welcome)
      returns (g: CombinerGroup?, r: Result<(), CombinerError>)
    requires client.Valid()
    modifies client.stores.classicalStore, client.stores.pqStore
    ensures client.Valid() && client.Value() == JoinHalves(old(client.Value()), clWelcome, pqWelcome).1
    ensures var out := JoinHalves(old(client.Value()), clWelcome, pqWelcome).0;
            && (out.Err? ==> g == null && r == Err(out.error))
            && (out.Ok? ==>
                  && g != null && fresh(g) && g.Valid() && g.birth == client.stores && g.pqBirth == client.stores
                  && g.pq != null
                  && g.classical.replica == out.value.cl && g.pq.replica == out.value.pq && r == Ok(()))
  {
    var core := client.view.target.Value();
    var pq, joinedPq := JoinGroupFromWelcome(pqWelcome, core, client.stores.pqStore, client.own.pq);
    if joinedPq.Err? {
      return null, Err(joinedPq.error);
    }
    var apq := pq.Export(APQ_COMPONENT_ID, NoFault);
    client.Register(apq.value);
    var cl, joinedCl := JoinGroupFromWelcome(clWelcome, core, client.stores.classicalStore, client.own.classical);
    if joinedCl.Err? {
      return null, Err(joinedCl.error);
    }
    g := new CombinerGroup.FromClient(client.stores, cl, pq);
    r := Ok(());
  }

  method JoinInWindow(client: CombinerClient, clWelcome: Welcome, pqWelcome: Welcome)
      returns (g: CombinerGroup?, r: Result<(), CombinerError>)
    requires client.Valid()
    modifies client.view.target, client.stores.classicalStore, client.stores.pqStore
    ensures client.Valid() && client.Value() == JoinOpened(old(client.Value()), clWelcome, pqWelcome).1
    ensures !client.view.target.adopting
    ensures var out := JoinOpened(old(client.Value()), clWelcome, pqWelcome).0;
            && (out.Err? ==> g == null && r == Err(out.error))
            && (out.Ok? ==>
                  && g != null && fresh(g) && g.Valid() && g.birth == client.stores && g.pqBirth == client.stores
                  && g.pq != null
                  && g.classical.replica == out.value.cl && g.pq.replica == out.value.pq && r == Ok(()))
  {
    client.view.target.adopting := true;
    assert client.Value() == old(client.Value()).(core := old(client.Value()).core.(adopting := true));
    g, r := JoinBoth(client, clWelcome, pqWelcome);
    client.view.target.adopting := false;
  }

  /** Join both halves and verify them. On every exit the adoption window is shut and the client is
      as `JoinRecv` says; the creator is recorded only when everything verified. */
  method JoinCombinerGroup(client: CombinerClient, clWelcome: Welcome, pqWelcome: Welcome)
      returns (g: CombinerGroup?, r: Result<(), CombinerError>)
    requires client.Valid()
    modifies client.view.target, client.view.target.theirs, client.stores.classicalStore, client.stores.pqStore
    ensures client.Valid() && client.Value() == JoinRecv(old(client.Value()), clWelcome, pqWelcome).1
    ensures !client.view.target.adopting
    ensures var out := JoinRecv(old(client.Value()), clWelcome, pqWelcome).0;
            && (out.Err? ==> g == null && r == Err(out.error))
            && (out.Ok? ==>
                  && r == Ok(()) && g != null && fresh(g) && g.Valid() && g.birth == client.stores
                  && g.pqBirth == client.stores
                  && g.pq != null && g.classical.replica == out.value.cl && g.pq.replica == out.value.pq)
  {
    var group, joined := JoinInWindow(client, clWelcome, pqWelcome);
    if joined.Err? {
      return null, Err(joined.error);
    }
    var creator := JoinVerified(group.classical.replica, group.pq.replica, client.suite);
    if creator.Err? {
      return null, Err(creator.error);
    }
    client.view.CommitTheirs(creator.value);
    return group, Ok(());
  }
}
