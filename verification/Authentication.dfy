/** The TwoMLS Authentication Service: which credential a leaf may move to.

    `Sequence` is one party's state as a value and `Run` the state after any list of calls;
    `PartySequence` is the object the session updates in place, proved to follow `Apply` call
    by call. */
module Authentication {
  import opened Prelude
  import opened CommitLog

  const CREDENTIAL_HISTORY_WINDOW: nat := 8

  function Position(s: seq<Id>, id: Id): (r: Option<nat>)
    ensures r.None? <==> id !in s
    ensures r.Some? ==> r.value < |s| && s[r.value] == id && id !in s[..r.value]
  {
    if s == [] then None
    else if s[0] == id then Some(0)
    else
      match Position(s[1..], id)
      case None => None
      case Some(k) => Some(k + 1)
  }

  datatype Sequence = Sequence(history: seq<Id>, authorizedNext: seq<Id>, pinned: seq<Id>) {

    /** The canonical current credential. */
    function Current(): Option<Id> {
      if history == [] then None else Some(Last(history))
    }

    /** Ids a leaf may bear at all. */
    predicate Admits(id: Id) {
      id in history || id in authorizedNext || id in pinned
    }

    /** May a leaf bearing `pred` move to `succ`? */
    predicate ValidSuccessor(pred: Id, succ: Id) {
      if pred == succ then true
      else
        var predPos := Position(history, pred);
        if predPos.None? && pred !in pinned then false
        else if succ in authorizedNext then true
        else
          match (predPos, Position(history, succ))
          case (_, None) => false
          case (Some(pp), Some(sp)) => sp > pp
          case (None, Some(_)) => true
    }
  }

  datatype Event = Commit(id: Id) | Authorize(id: Id) | Pin(id: Id) | Unpin(id: Id)

  const EMPTY := Sequence([], [], [])

  function Apply(s: Sequence, e: Event): Sequence {
    match e
    case Commit(id) =>
      if s.Current() == Some(id) then s
      else Sequence(LastN(Without(s.history, id) + [id], CREDENTIAL_HISTORY_WINDOW), [], s.pinned)
    case Authorize(id) =>
      if id in s.authorizedNext then s else s.(authorizedNext := s.authorizedNext + [id])
    case Pin(id) =>
      if id in s.pinned then s else s.(pinned := s.pinned + [id])
    case Unpin(id) => s.(pinned := Without(s.pinned, id))
  }

  function Run(events: seq<Event>): Sequence {
    if events == [] then EMPTY
    else Apply(Run(events[..|events| - 1]), events[|events| - 1])
  }

  /** The full commit log of a run, repeated commits included. */
  ghost function Commits(events: seq<Event>): seq<Id> {
    if events == [] then []
    else
      var before := Commits(events[..|events| - 1]);
      match events[|events| - 1]
      case Commit(id) => before + [id]
      case _ => before
  }

  /** The window is exactly the last eight elements of the commit log deduplicated by last
      occurrence, whatever authorizations and pins came in between. */
  lemma {:induction false} WindowRefinesLog(events: seq<Event>)
    ensures Run(events).history == LastN(ByLastCommit(Commits(events)), CREDENTIAL_HISTORY_WINDOW)
  {
    if events != [] {
      var earlier := events[..|events| - 1];
      var e := events[|events| - 1];
      WindowRefinesLog(earlier);
      if e.Commit? {
        var order := ByLastCommit(Commits(earlier));
        ByLastCommitDistinct(Commits(earlier));
        assert ButLast(Commits(events)) == Commits(earlier) && Last(Commits(events)) == e.id;
        LastNOfAppend(order, CREDENTIAL_HISTORY_WINDOW, e.id);
        if Run(earlier).Current() == Some(e.id) {
          assert Last(order) == e.id;
          WithoutAbsent(ButLast(order), e.id);
        }
      }
    }
  }

  lemma {:induction false} WithoutAbsent(s: seq<Id>, id: Id)
    requires id !in s
    ensures Without(s, id) == s
  {
    if s != [] {
      WithoutAbsent(ButLast(s), id);
    }
  }

  lemma WindowDistinct(events: seq<Event>)
    ensures Distinct(Run(events).history)
  {
    WindowRefinesLog(events);
    var order := ByLastCommit(Commits(events));
    ByLastCommitDistinct(Commits(events));
    if |order| > CREDENTIAL_HISTORY_WINDOW {
      var cut := |order| - CREDENTIAL_HISTORY_WINDOW;
      assert order == order[..cut] + order[cut..];
      DistinctSuffix(order[..cut], order[cut..]);
    }
  }

  /** An id is retained iff it was committed and fewer than eight distinct other ids have been
      committed since. */
  lemma RetainedIff(events: seq<Event>, id: Id)
    ensures id in Run(events).history <==>
            id in Commits(events) && |Since(Commits(events), id)| < CREDENTIAL_HISTORY_WINDOW
  {
    WindowRefinesLog(events);
    ByLastCommitDistinct(Commits(events));
    AmongLastN(ByLastCommit(Commits(events)), CREDENTIAL_HISTORY_WINDOW, id);
    ByLastCommitMembers(Commits(events), id);
    SinceByLastCommit(Commits(events), id);
  }

  /** Within the window, position order is the order of last commits in the full log. */
  lemma WindowOrder(events: seq<Event>, a: Id, b: Id)
    requires a in Run(events).history && b in Run(events).history && a != b
    ensures a in Commits(events) && b in Commits(events)
    ensures Position(Run(events).history, a).value < Position(Run(events).history, b).value <==>
            LastCommit(Commits(events), a) < LastCommit(Commits(events), b)
  {
    var window := Run(events).history;
    var order := ByLastCommit(Commits(events));
    RetainedIff(events, a);
    RetainedIff(events, b);
    WindowDistinct(events);
    SinceTellsOrder(window, Position(window, a).value, Position(window, b).value);
    WindowRefinesLog(events);
    assert order == order[..|order| - |window|] + window;
    SinceSuffix(order[..|order| - |window|], window, a);
    SinceByLastCommit(Commits(events), a);
    SinceTellsLastCommit(Commits(events), a, b);
  }

  /** Everything committed before the window's oldest element has left it. */
  lemma EvictedIsOlder(events: seq<Event>, gone: Id, kept: Id)
    requires gone in Commits(events) && gone !in Run(events).history
    requires kept in Run(events).history
    ensures kept in Commits(events)
    ensures LastCommit(Commits(events), gone) < LastCommit(Commits(events), kept)
  {
    var log := Commits(events);
    var order := ByLastCommit(log);
    RetainedIff(events, gone);
    RetainedIff(events, kept);
    WindowRefinesLog(events);
    ByLastCommitMembers(log, gone);
    ByLastCommitMembers(log, kept);
    ByLastCommitDistinct(log);
    SinceByLastCommit(log, gone);
    SinceByLastCommit(log, kept);
    var g :| 0 <= g < |order| && order[g] == gone;
    var k :| 0 <= k < |order| && order[k] == kept;
    SinceTellsPlace(order, g);
    SinceTellsPlace(order, k);
    SinceTellsOrder(order, g, k);
    SinceTellsLastCommit(log, gone, kept);
  }

  /** With nothing in flight and only once-canonical ids pinned, a move is legal exactly when it
      goes forward in the full commit log, from a known id to a retained one. */
  lemma NoMovingBackwards(events: seq<Event>, pred: Id, succ: Id)
    requires Run(events).authorizedNext == []
    requires forall p :: p in Run(events).pinned ==> p in Commits(events)
    requires pred != succ
    ensures Run(events).ValidSuccessor(pred, succ) <==>
            && succ in Run(events).history
            && (pred in Run(events).history || pred in Run(events).pinned)
            && pred in Commits(events) && succ in Commits(events)
            && LastCommit(Commits(events), pred) < LastCommit(Commits(events), succ)
  {
    var s := Run(events);
    RetainedIff(events, pred);
    RetainedIff(events, succ);
    if succ in s.history {
      if pred in s.history {
        WindowOrder(events, pred, succ);
      } else if pred in s.pinned {
        EvictedIsOlder(events, pred, succ);
      }
    }
  }

  /** A leaf bearing a once-canonical id can move to the current credential iff its id is
      pinned or at most seven distinct other ids have been committed since. */
  lemma CatchUpIff(events: seq<Event>, pred: Id)
    requires pred in Commits(events)
    ensures Run(events).Current().Some?
    ensures Run(events).ValidSuccessor(pred, Run(events).Current().value) <==>
            || pred in Run(events).pinned
            || |Since(Commits(events), pred)| <= CREDENTIAL_HISTORY_WINDOW - 1
  {
    var s := Run(events);
    var log := Commits(events);
    WindowRefinesLog(events);
    ByLastCommitMembers(log, pred);
    assert s.history != [];
    var current := Last(s.history);
    RetainedIff(events, pred);
    RetainedIff(events, current);
    WindowDistinct(events);
    if pred in s.history && pred != current {
      LastPosition(s.history);
    }
  }

  predicate Unpins(e: Event, id: Id) {
    e.Unpin? && e.id == id
  }

  lemma {:induction false} PinSurvives(before: seq<Event>, after: seq<Event>, pred: Id)
    requires pred in Commits(before) && pred in Run(before).pinned
    requires forall e :: e in after ==> !Unpins(e, pred)
    ensures pred in Commits(before + after) && pred in Run(before + after).pinned
  {
    if after == [] {
      assert before + after == before;
    } else {
      var shorter := after[..|after| - 1];
      var e := after[|after| - 1];
      PinSurvives(before, shorter, pred);
      assert (before + after)[..|before + after| - 1] == before + shorter;
      assert !Unpins(e, pred);
      WithoutMembers(Run(before + shorter).pinned, e.id, pred);
    }
  }

  /** A pin survives every later call but its own retirement, and an id once committed stays in
      the log: catch-up then stays possible however many commits run. */
  lemma PinnedLeafAlwaysCatchesUp(before: seq<Event>, after: seq<Event>, pred: Id)
    requires pred in Commits(before) && pred in Run(before).pinned
    requires forall e :: e in after ==> !Unpins(e, pred)
    ensures Run(before + after).Current().Some?
    ensures Run(before + after).ValidSuccessor(pred, Run(before + after).Current().value)
  {
    PinSurvives(before, after, pred);
    CatchUpIff(before + after, pred);
  }

  ghost predicate IsPartialOrder(s: Sequence) {
    && (forall a :: s.ValidSuccessor(a, a))
    && (forall a, b :: s.ValidSuccessor(a, b) && s.ValidSuccessor(b, a) ==> a == b)
    && (forall a, b, c :: s.ValidSuccessor(a, b) && s.ValidSuccessor(b, c) ==> s.ValidSuccessor(a, c))
  }

  /** An id a leaf can move away from. */
  predicate Known(s: Sequence, id: Id) {
    id in s.history || id in s.pinned
  }

  /** What a caller of `authorize` must keep: of the ids in flight at most one is also known, and
      that one is the current credential (or there is no canonical credential yet). */
  ghost predicate AuthorizesForwardOnly(s: Sequence) {
    && (forall a, b :: a in s.authorizedNext && b in s.authorizedNext && Known(s, a) && Known(s, b) ==> a == b)
    && (forall a :: a in s.authorizedNext && Known(s, a) && s.history != [] ==> a == Last(s.history))
  }

  lemma OrderNeedsForwardAuthorization(s: Sequence)
    requires Distinct(s.history) && IsPartialOrder(s)
    ensures AuthorizesForwardOnly(s)
  {
    forall a, b | a in s.authorizedNext && b in s.authorizedNext && Known(s, a) && Known(s, b)
      ensures a == b
    {
      assert s.ValidSuccessor(a, b) && s.ValidSuccessor(b, a);
    }
    forall a | a in s.authorizedNext && Known(s, a) && s.history != []
      ensures a == Last(s.history)
    {
      var current := Last(s.history);
      if a != current {
        LastPosition(s.history);
        assert s.ValidSuccessor(current, a) && s.ValidSuccessor(a, current);
      }
    }
  }

  lemma LastPosition(h: seq<Id>)
    requires Distinct(h) && h != []
    ensures Position(h, Last(h)) == Some(|h| - 1)
  {
    DistinctByIndex(h, Position(h, Last(h)).value, |h| - 1);
  }

  lemma ForwardAuthorizationIsTransitive(s: Sequence, a: Id, b: Id, c: Id)
    requires Distinct(s.history) && AuthorizesForwardOnly(s)
    requires s.ValidSuccessor(a, b) && s.ValidSuccessor(b, c)
    ensures s.ValidSuccessor(a, c)
    ensures a == c ==> a == b
  {
    if a != b && b != c {
      if s.history != [] {
        LastPosition(s.history);
      }
      assert Known(s, a) && Known(s, b);
    }
  }

  /** Succession is a partial order over all ids (pinned, evicted and merely authorized ones
      included) exactly when the authorizations in flight only point forward. */
  lemma PartialOrderIff(s: Sequence)
    requires Distinct(s.history)
    ensures IsPartialOrder(s) <==> AuthorizesForwardOnly(s)
  {
    if IsPartialOrder(s) {
      OrderNeedsForwardAuthorization(s);
    }
    if AuthorizesForwardOnly(s) {
      forall a, b, c | s.ValidSuccessor(a, b) && s.ValidSuccessor(b, c)
        ensures s.ValidSuccessor(a, c)
      {
        ForwardAuthorizationIsTransitive(s, a, b, c);
      }
      forall a, b | s.ValidSuccessor(a, b) && s.ValidSuccessor(b, a)
        ensures a == b
      {
        ForwardAuthorizationIsTransitive(s, a, b, a);
      }
    }
  }

  /** A canonical step to a new credential expires every authorization, so succession is a
      partial order right after it, on every run. */
  lemma CommitRestoresOrder(events: seq<Event>, id: Id)
    requires Run(events).Current() != Some(id)
    ensures IsPartialOrder(Run(events + [Commit(id)]))
  {
    assert (events + [Commit(id)])[..|events|] == events;
    WindowDistinct(events + [Commit(id)]);
    PartialOrderIff(Run(events + [Commit(id)]));
  }

  /** Re-committing the current credential is a no-op and expires nothing: an authorization of an
      older canonical id survives it, and two ids are then each other's successors. */
  lemma RecommitKeepsBackwardAuthorization(a: Id, b: Id)
    requires a != b
    ensures
      var s := Run([Commit(a), Commit(b), Authorize(a), Commit(b)]);
      s.ValidSuccessor(a, b) && s.ValidSuccessor(b, a) && !IsPartialOrder(s)
  {
    var e1, e2, e3, e4 := [Commit(a)], [Commit(a), Commit(b)],
        [Commit(a), Commit(b), Authorize(a)], [Commit(a), Commit(b), Authorize(a), Commit(b)];
    assert e1[..0] == [] && e2[..1] == e1 && e3[..2] == e2 && e4[..3] == e3;
    assert Without([], a) == [];
    assert ButLast([a]) == [];
    assert Without([a], b) == [a];
    assert Run(e1) == Sequence([a], [], []);
    assert Run(e2) == Sequence([a, b], [], []);
    assert Run(e3) == Sequence([a, b], [a], []);
    assert Run(e4) == Run(e3);
    assert Position([b], b) == Some(0);
    assert Position([a, b], b) == Some(1);
    assert Run(e4).ValidSuccessor(a, b) && Run(e4).ValidSuccessor(b, a);
  }

  /** Both parties' sequences, and the one-shot window a session opens around a welcome join. */
  datatype Core = Core(mine: Sequence, theirs: Sequence, adopting: bool) {

    predicate Knows(id: Id) {
      mine.Admits(id) || theirs.Admits(id)
    }

    predicate ValidateMember(id: Id) {
      adopting || Knows(id)
    }

    predicate ValidSuccessor(pred: Id, succ: Id) {
      pred == succ || mine.ValidSuccessor(pred, succ) || theirs.ValidSuccessor(pred, succ)
    }
  }

  /** One party's sequence as the session updates it. */
  class PartySequence {
    var history: seq<Id>
    var authorizedNext: seq<Id>
    var pinned: seq<Id>

    function Parts(): Sequence
      reads this
    {
      Sequence(history, authorizedNext, pinned)
    }

    constructor Seeded(id: Id)
      ensures Parts() == Run([Event.Commit(id)])
    {
      history, authorizedNext, pinned := [], [], [];
      new;
      Commit(id);
      assert [Event.Commit(id)][..0] == [];
    }

    constructor FromParts(parts: Sequence)
      ensures Parts() == parts
    {
      history, authorizedNext, pinned := parts.history, parts.authorizedNext, parts.pinned;
    }

    method Commit(id: Id)
      modifies this
      ensures Parts() == Apply(old(Parts()), Event.Commit(id))
    {
      if Parts().Current() == Some(id) {
        return;
      }
      authorizedNext := [];
      history := Without(history, id);
      history := history + [id];
      ghost var full := history;
      while |history| > CREDENTIAL_HISTORY_WINDOW
        invariant |history| <= |full| && history == full[|full| - |history|..]
        invariant |history| < |full| ==> |history| >= CREDENTIAL_HISTORY_WINDOW
        invariant authorizedNext == [] && pinned == old(pinned)
      {
        history := history[1..];
      }
      assert history == LastN(full, CREDENTIAL_HISTORY_WINDOW);
    }

    method Authorize(id: Id)
      modifies this
      ensures Parts() == Apply(old(Parts()), Event.Authorize(id))
    {
      if id !in authorizedNext {
        authorizedNext := authorizedNext + [id];
      }
    }

    method Pin(id: Id)
      modifies this
      ensures Parts() == Apply(old(Parts()), Event.Pin(id))
    {
      if id !in pinned {
        pinned := pinned + [id];
      }
    }

    method Unpin(id: Id)
      modifies this
      ensures Parts() == Apply(old(Parts()), Event.Unpin(id))
    {
      pinned := Without(pinned, id);
    }
  }

  /** The session-canonical state behind every view. */
  class AuthCore {
    const mine: PartySequence
    const theirs: PartySequence
    var adopting: bool

    function Value(): Core
      reads this, mine, theirs
    {
      Core(mine.Parts(), theirs.Parts(), adopting)
    }

    /** A principal not yet attached to any session: it knows only itself. */
    constructor (ownId: Id)
      ensures fresh(mine) && fresh(theirs) && mine != theirs
      ensures Value() == Core(Run([Commit(ownId)]), EMPTY, false)
    {
      mine := new PartySequence.Seeded(ownId);
      theirs := new PartySequence.FromParts(EMPTY);
      adopting := false;
    }
  }

  /** A client's rebindable view; the clones both halves of a client hold are one object here. */
  class AuthView {
    var target: AuthCore

    constructor (ownId: Id)
      ensures fresh(target) && fresh(target.mine) && fresh(target.theirs)
      ensures target.Value() == Core(Run([Commit(ownId)]), EMPTY, false)
    {
      target := new AuthCore(ownId);
    }

    method Rebind(canonical: AuthCore)
      modifies this
      ensures target == canonical
    {
      target := canonical;
    }

    /** Canonicalize the peer's id through this view: every view bound to the same core sees it,
        and no other core is touched. */
    method CommitTheirs(id: Id)
      requires target.mine != target.theirs
      modifies target.theirs
      ensures target == old(target)
      ensures target.Value() == old(target.Value()).(theirs := Apply(old(target.Value().theirs), Event.Commit(id)))
    {
      target.theirs.Commit(id);
    }
  }
}
