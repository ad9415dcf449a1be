/** Repeating a committed account transition is safe. */
module AccountReplay {
  import opened Options
  import opened Records
  import opened AccountRules
  import opened AccountSteps

  /** The lines of one transition are its batch. */
  lemma BatchOfLines(moves: seq<Move>, m: Transfers, target: UserId, actor: UserId, reason: Reason, tid: TransitionId)
    requires FreshTransition(moves, tid)
    ensures Batch(moves + Lines(m.Keys, m, target, actor, reason, tid), target, reason, tid) == m.Keys
  {
    hide Lines;
    var lines := Lines(m.Keys, m, target, actor, reason, tid);
    var all := moves + lines;
    LinesAbout(m.Keys, m, target, actor, reason, tid);
    LinesCover(m.Keys, m, target, actor, reason, tid);
    forall a | a in m
      ensures a in Batch(all, target, reason, tid)
    {
      var i :| 0 <= i < |lines| && lines[i].assignment == a;
      assert all[|moves| + i] == lines[i];
    }
    assert forall i :: 0 <= i < |all| && all[i].transition == tid ==> |moves| <= i && all[i] == lines[i - |moves|];
  }

  predicate HasLine(lines: seq<Move>, a: AssignmentId) {
    exists i :: 0 <= i < |lines| && lines[i].assignment == a
  }

  lemma LinePrefix(line: Move, tail: seq<Move>, a: AssignmentId)
    requires line.assignment == a || HasLine(tail, a)
    ensures HasLine([line] + tail, a)
  {
    var lines := [line] + tail;
    if line.assignment == a {
      assert lines[0].assignment == a;
    } else {
      var i :| 0 <= i < |tail| && tail[i].assignment == a;
      assert lines[i + 1].assignment == a;
    }
  }

  lemma {:induction false} LinesCover(ids: set<AssignmentId>, m: Transfers, target: UserId, actor: UserId,
                                      reason: Reason, tid: TransitionId)
    requires ids <= m.Keys
    ensures forall a :: a in ids ==> HasLine(Lines(ids, m, target, actor, reason, tid), a)
    decreases |ids|
  {
    hide HasLine;
    if ids != {} {
      var l, rest := Least(ids), ids - {Least(ids)};
      LinesCover(rest, m, target, actor, reason, tid);
      var tail := Lines(rest, m, target, actor, reason, tid);
      forall a | a in ids
        ensures HasLine(Lines(ids, m, target, actor, reason, tid), a)
      {
        LinePrefix(Move(tid, l, target, m[l], actor, reason), tail, a);
      }
    }
  }

  /** Each assignment of the batch was last moved to its replacement. */
  lemma {:induction false} MovedByLines(moves: seq<Move>, lines: seq<Move>, m: Transfers, target: UserId,
                                        reason: Reason, tid: TransitionId, a: AssignmentId)
    requires forall i :: 0 <= i < |lines| ==>
               lines[i].assignment in m && Leaves(lines[i], target, reason) && lines[i].transition == tid
               && lines[i].to == m[lines[i].assignment]
    requires HasLine(lines, a)
    ensures MovedTo(moves + lines, target, reason, tid, a) == Some(m[a])
    decreases |lines|
  {
    var n := |lines| - 1;
    assert (moves + lines)[..|moves| + n] == moves + lines[..n];
    assert (moves + lines)[|moves| + n] == lines[n];
    if lines[n].assignment != a {
      var i :| 0 <= i < |lines| && lines[i].assignment == a;
      assert lines[..n][i] == lines[i];
      MovedByLines(moves, lines[..n], m, target, reason, tid, a);
    }
  }

  lemma LatestOfLines(moves: seq<Move>, lines: seq<Move>, target: UserId, reason: Reason, tid: TransitionId)
    requires lines != [] && Leaves(lines[|lines| - 1], target, reason) && lines[|lines| - 1].transition == tid
    ensures LatestTransition(moves + lines, target, reason) == Some(tid)
  {
    assert (moves + lines)[|moves + lines| - 1] == lines[|lines| - 1];
  }

  /** The history of a committed transfer answers its own map. */
  lemma ReplayAnswers(db: Db, before: seq<Move>, target: UserId, actor: UserId, m: Transfers, reason: Reason,
                      tid: TransitionId)
    requires FreshTransition(before, tid) && db.moves == before + Lines(m.Keys, m, target, actor, reason, tid)
    requires forall a :: a in m ==> a in db.assignments && db.assignments[a].examiner == m[a]
    ensures Replay(db, target, m, reason) == AlreadyApplied(m)
  {
    hide Lines, Batch, MovedTo, LatestTransition;
    if m != map[] {
      var lines := Lines(m.Keys, m, target, actor, reason, tid);
      LinesAbout(m.Keys, m, target, actor, reason, tid);
      LinesCover(m.Keys, m, target, actor, reason, tid);
      assert m.Keys != {} by { var a :| a in m; }
      LatestOfLines(before, lines, target, reason, tid);
      BatchOfLines(before, m, target, actor, reason, tid);
      forall a | a in m
        ensures MovedTo(db.moves, target, reason, tid, a) == Some(m[a])
      {
        MovedByLines(before, lines, m, target, reason, tid, a);
      }
    }
  }

  lemma CommittedOwners(db: Db, target: UserId, actor: UserId, request: Request, m: Transfers, tid: TransitionId)
    requires Transition(db, target, actor, request, m, tid).1.Updated?
    ensures Transition(db, target, actor, request, m, tid).1 == Updated(m)
    ensures var after := Transition(db, target, actor, request, m, tid).0;
            && (forall a :: a in m ==> a in after.assignments && after.assignments[a].examiner == m[a])
            && after.moves == db.moves + Lines(m.Keys, m, target, actor, ReasonOf(request), tid)
  {
    hide SetsValid, Replay, Lines, TransferProblem, DistinctValues, ActiveAdmins, Transfer, Replaces;
    AcceptedTransfer(db, target, m, request);
    assert Transfer(db, target, m) ==> forall a :: a in m ==>
      OpenFor(db, a, target) by { TransferIsOpen(db, target, m); }
  }

  lemma TransferIsOpen(db: Db, target: UserId, m: Transfers)
    ensures Transfer(db, target, m) ==> forall a :: a in m ==> OpenFor(db, a, target)
  {
    hide Replaces;
    assert forall a :: a in OpenAssignments(db, target) ==> OpenFor(db, a, target);
  }

  /**
   * The same request again, with nothing in between: nothing changes and the same
   * pairs come back; only an administrator who deactivated their own account may no
   * longer ask.
   */
  lemma RetryIsSafe(db: Db, target: UserId, actor: UserId, request: Request, m: Transfers, tid: TransitionId,
                    retry: TransitionId)
    requires FreshTransition(db.moves, tid)
    requires Transition(db, target, actor, request, m, tid).1.Updated?
    ensures var after := Transition(db, target, actor, request, m, tid).0;
            Transition(after, target, actor, request, m, retry)
            == (after, if target == actor then Rejected(Unauthorized) else AlreadyApplied(m))
  {
    hide SetsValid, Replay, Lines, TransferProblem, DistinctValues, ActiveAdmins, Transferred;
    CommittedOwners(db, target, actor, request, m, tid);
    ReplayAnswers(Transition(db, target, actor, request, m, tid).0, db.moves, target, actor, m, ReasonOf(request), tid);
  }

  lemma {:induction false} MovedToHasLine(moves: seq<Move>, target: UserId, reason: Reason, t: TransitionId,
                                          a: AssignmentId)
    requires MovedTo(moves, target, reason, t, a).Some?
    ensures exists i :: 0 <= i < |moves| && Leaves(moves[i], target, reason) && moves[i].transition == t
                        && moves[i].assignment == a && moves[i].to == MovedTo(moves, target, reason, t, a).value
  {
    var last := moves[|moves| - 1];
    if !(Leaves(last, target, reason) && last.transition == t && last.assignment == a) {
      var before := moves[..|moves| - 1];
      MovedToHasLine(before, target, reason, t, a);
      var i :| 0 <= i < |before| && Leaves(before[i], target, reason) && before[i].transition == t
               && before[i].assignment == a && before[i].to == MovedTo(before, target, reason, t, a).value;
      assert moves[i] == before[i];
    }
  }

  /** An "already applied" answer is true: every pair is on record and still in force. */
  lemma AlreadyAppliedIsTrue(db: Db, target: UserId, actor: UserId, request: Request, m: Transfers, tid: TransitionId,
                             a: AssignmentId)
    requires Transition(db, target, actor, request, m, tid).1 == AlreadyApplied(m) && a in m
    ensures Transition(db, target, actor, request, m, tid).0 == db
    ensures a in db.assignments && db.assignments[a].examiner == m[a]
    ensures exists i :: 0 <= i < |db.moves| && Leaves(db.moves[i], target, ReasonOf(request))
                        && db.moves[i].assignment == a && db.moves[i].to == m[a]
  {
    hide SetsValid, Lines, TransferProblem, DistinctValues, ActiveAdmins, Transferred, Batch, LatestTransition, MovedTo;
    var latest := LatestTransition(db.moves, target, ReasonOf(request));
    MovedToHasLine(db.moves, target, ReasonOf(request), latest.value, a);
  }
}
