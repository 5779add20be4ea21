/** Who may succeed whom, told from the calls a party's sequence received and nothing else. */
module Succession {
  import opened Prelude
  import opened CommitLog
  import opened Authentication

  lemma CommitIsCurrent(s: Sequence, id: Id)
    ensures Apply(s, Commit(id)).Current() == Some(id)
  {
  }

  /** Call `i` moved the sequence: a commit of an id that was not current. */
  ghost predicate Moves(events: seq<Event>, i: nat) {
    i < |events| && events[i].Commit? && Run(events[..i]).Current() != Some(events[i].id)
  }

  /** Authorized, and not committed past since. */
  ghost predicate InFlight(events: seq<Event>, id: Id) {
    exists i: nat :: i < |events| && events[i] == Authorize(id) && forall j: nat :: i < j ==> !Moves(events, j)
  }

  ghost predicate PinnedAt(events: seq<Event>, i: nat, id: Id) {
    i < |events| && events[i] == Pin(id) && forall j: nat :: i < j < |events| ==> events[j] != Unpin(id)
  }

  /** Pinned, and not unpinned since. */
  ghost predicate PinHeld(events: seq<Event>, id: Id) {
    exists i: nat :: PinnedAt(events, i, id)
  }

  /** Committed, with fewer than eight distinct other ids committed since. */
  ghost predicate Recent(events: seq<Event>, id: Id) {
    id in Commits(events) && |Since(Commits(events), id)| < 8
  }

  lemma MovesOfPrefix(events: seq<Event>, n: nat, j: nat)
    requires j < n <= |events|
    ensures Moves(events[..n], j) <==> Moves(events, j)
  {
    assert events[..n][..j] == events[..j];
  }

  /** The last call in flight is the last one, or was in flight before it and it moved nothing. */
  lemma InFlightStep(events: seq<Event>, id: Id)
    requires events != []
    ensures var n := |events| - 1;
            InFlight(events, id) <==> events[n] == Authorize(id) || (InFlight(events[..n], id) && !Moves(events, n))
  {
    var n := |events| - 1;
    var front := events[..n];
    forall j: nat | j < n ensures Moves(front, j) <==> Moves(events, j) {
      MovesOfPrefix(events, n, j);
    }
    if events[n] == Authorize(id) {
      assert forall j: nat :: n < j ==> !Moves(events, j);
    }
    if InFlight(front, id) && !Moves(events, n) {
      var i: nat :| i < n && front[i] == Authorize(id) && forall j: nat :: i < j ==> !Moves(front, j);
      assert events[i] == Authorize(id) && forall j: nat :: i < j ==> !Moves(events, j);
    }
    if InFlight(events, id) && events[n] != Authorize(id) {
      var i: nat :| i < |events| && events[i] == Authorize(id) && forall j: nat :: i < j ==> !Moves(events, j);
      assert front[i] == Authorize(id) && forall j: nat :: i < j ==> !Moves(front, j);
    }
  }

  lemma {:induction false} InFlightIff(events: seq<Event>, id: Id)
    ensures id in Run(events).authorizedNext <==> InFlight(events, id)
  {
    if events != [] {
      InFlightIff(events[..|events| - 1], id);
      InFlightStep(events, id);
    }
  }

  lemma PinHeldStep(events: seq<Event>, id: Id)
    requires events != []
    ensures var n := |events| - 1;
            PinHeld(events, id) <==> events[n] == Pin(id) || (PinHeld(events[..n], id) && events[n] != Unpin(id))
  {
    var n := |events| - 1;
    var front := events[..n];
    if PinHeld(front, id) && events[n] != Unpin(id) {
      var i: nat :| PinnedAt(front, i, id);
      assert PinnedAt(events, i, id);
    }
    if events[n] == Pin(id) {
      assert PinnedAt(events, n, id);
    }
    if PinHeld(events, id) && events[n] != Pin(id) {
      var i: nat :| PinnedAt(events, i, id);
      assert PinnedAt(front, i, id);
    }
  }

  lemma {:induction false} PinHeldIff(events: seq<Event>, id: Id)
    ensures id in Run(events).pinned <==> PinHeld(events, id)
  {
    if events != [] {
      var e := events[|events| - 1];
      PinHeldIff(events[..|events| - 1], id);
      PinHeldStep(events, id);
      WithoutMembers(Run(events[..|events| - 1]).pinned, e.id, id);
    }
  }

  /** Succession told from the calls alone: from an id recent or pinned, to one in flight or to a recent
      one whose last commit is later; an id no longer recent counts as older than all of those. */
  ghost predicate Forward(events: seq<Event>, pred: Id, succ: Id) {
    && (Recent(events, pred) || PinHeld(events, pred))
    && (|| InFlight(events, succ)
        || (Recent(events, succ)
            && (Recent(events, pred) ==> LastCommit(Commits(events), pred) < LastCommit(Commits(events), succ))))
  }

  lemma SuccessionIff(events: seq<Event>, pred: Id, succ: Id)
    ensures Run(events).ValidSuccessor(pred, succ) <==> pred == succ || Forward(events, pred, succ)
  {
    RetainedIff(events, pred);
    RetainedIff(events, succ);
    PinHeldIff(events, pred);
    InFlightIff(events, succ);
    if pred != succ && pred in Run(events).history && succ in Run(events).history {
      WindowOrder(events, pred, succ);
    }
  }

  lemma AdmitsIff(events: seq<Event>, id: Id)
    ensures Run(events).Admits(id) <==> Recent(events, id) || InFlight(events, id) || PinHeld(events, id)
  {
    RetainedIff(events, id);
    InFlightIff(events, id);
    PinHeldIff(events, id);
  }

  lemma CoreMovesIff(mine: Sequence, theirs: Sequence, adopting: bool, pred: Id, succ: Id)
    ensures Core(mine, theirs, adopting).ValidSuccessor(pred, succ) <==>
            pred == succ || mine.ValidSuccessor(pred, succ) || theirs.ValidSuccessor(pred, succ)
  {
  }

  lemma CoreAdmitsIff(mine: Sequence, theirs: Sequence, adopting: bool, id: Id)
    ensures Core(mine, theirs, adopting).ValidateMember(id) <==> adopting || mine.Admits(id) || theirs.Admits(id)
  {
  }

  /** The two parties' sequences judge a leaf together: it may move forward in either, and nowhere else;
      and a member is admitted by either, or by the adoption window. */
  lemma CoreJudges(mine: seq<Event>, theirs: seq<Event>, adopting: bool, pred: Id, succ: Id)
    ensures var core := Core(Run(mine), Run(theirs), adopting);
            && (core.ValidSuccessor(pred, succ) <==>
                pred == succ || Forward(mine, pred, succ) || Forward(theirs, pred, succ))
            && (core.ValidateMember(succ) <==>
                  || adopting
                  || Recent(mine, succ) || InFlight(mine, succ) || PinHeld(mine, succ)
                  || Recent(theirs, succ) || InFlight(theirs, succ) || PinHeld(theirs, succ))
  {
    CoreMovesIff(Run(mine), Run(theirs), adopting, pred, succ);
    CoreAdmitsIff(Run(mine), Run(theirs), adopting, succ);
    SuccessionIff(mine, pred, succ);
    SuccessionIff(theirs, pred, succ);
    AdmitsIff(mine, succ);
    AdmitsIff(theirs, succ);
  }
}
