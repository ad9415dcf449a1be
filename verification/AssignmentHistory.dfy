/** What runs do to the owners and the work of assignments. */
module AssignmentHistory {
  import opened Options
  import opened Records
  import opened LifecycleInvariant
  import opened AccountSteps
  import opened AccountReplay
  import opened Lifecycle
  import opened LifecycleHistory
  import opened AssignmentFrames
  import ExaminerRules
  import AccountRules

  // ---------------------------------------------------------------------
  // After a void
  // ---------------------------------------------------------------------

  lemma ScoringAfterVoid(db: Db, e: Event, a: AssignmentId)
    requires StatusAround(db, a) == Some(Voided)
    requires e.CreateAssignmentSet? || e.StartScoring? || e.SaveScore? || e.CompleteScoring? || e.Reassign?
    ensures a in Apply(db, e).0.assignments && Apply(db, e).0.assignments[a] == db.assignments[a]
  {
    hide HasOpenFlag, SetOf, ValidSet, TwoDistinct, ExaminerRules.Eligible, ExaminerRules.ValidScore;
  }

  lemma TransitionAfterVoid(db: Db, e: Event, a: AssignmentId)
    requires StatusAround(db, a) == Some(Voided) && e.Transition?
    ensures a in Apply(db, e).0.assignments && Apply(db, e).0.assignments[a] == db.assignments[a]
  {
    hide AccountRules.SetsValid, AccountRules.Replay, AccountRules.Lines, AccountRules.DistinctValues,
         Transfer, AccountRules.ActiveAdmins, AccountRules.TransferProblem, AccountRules.OpenAssignments;
    if Apply(db, e).1.Updated? {
      AcceptedTransfer(db, e.target, e.m, e.request);
      TransferIsOpen(db, e.target, e.m);
    }
  }

  /** No step touches an assignment of a voided Submission. */
  lemma VoidFreezesWork(db: Db, e: Event, a: AssignmentId)
    requires StatusAround(db, a) == Some(Voided)
    ensures a in Apply(db, e).0.assignments && Apply(db, e).0.assignments[a] == db.assignments[a]
  {
    hide Apply;
    if e.Transition? {
      TransitionAfterVoid(db, e, a);
    } else if e.CreateAssignmentSet? || e.StartScoring? || e.SaveScore? || e.CompleteScoring? || e.Reassign? {
      ScoringAfterVoid(db, e, a);
    } else if e.OpenCheckout? || e.RejectCheckout? || e.RecordSession? || e.NotifyFailed? || e.NotifyPaid? || e.Waive?
           || e.Complete? || e.DismissFlag? {
      PaymentServiceLeaves(db, e);
    } else {
      SubmissionServiceLeaves(db, e);
    }
  }

  lemma StatusStays(before: Db, after: Db, sid: SubmissionId)
    requires Evolves(before, after) && StatusOf(before, sid) in {Some(Voided), Some(Abandoned)}
    ensures StatusOf(after, sid) == StatusOf(before, sid)
  {
    hide AssignmentsEvolve, FlagsEvolve, CreditsEvolve, PaymentsEvolve, UsersEvolve;
  }

  lemma {:induction false} WorkStaysFrozen(db: Db, events: seq<Event>, a: AssignmentId)
    requires Consistent(db) && StatusAround(db, a) == Some(Voided)
    ensures a in Run(db, events).assignments && Run(db, events).assignments[a] == db.assignments[a]
    decreases |events|
  {
    hide Inv, Apply, Evolves;
    if events != [] {
      var ix :| Inv(db, ix);
      VoidFreezesWork(db, events[0], a);
      StepEvolves(db, ix, events[0]);
      StatusStays(db, Apply(db, events[0]).0, db.assignments[a].submission);
      StepConsistent(db, events[0]);
      WorkStaysFrozen(Apply(db, events[0]).0, events[1..], a);
    }
  }

  /**
   * Voided and abandoned Submissions stay so in every continuation, and after a void the
   * assignments stay exactly as they were: nothing is started, scored, completed or moved.
   */
  lemma EndsAreFinal(db: Db, events: seq<Event>, sid: SubmissionId)
    requires Consistent(db) && StatusOf(db, sid) in {Some(Voided), Some(Abandoned)}
    ensures StatusOf(Run(db, events), sid) == StatusOf(db, sid)
    ensures StatusOf(db, sid) == Some(Voided) ==>
              forall a :: a in SetOf(db.assignments, sid) ==>
                a in Run(db, events).assignments && Run(db, events).assignments[a] == db.assignments[a]
  {
    hide Consistent, Run, Evolves;
    RunEvolves(db, events);
    StatusStays(db, Run(db, events), sid);
    if StatusOf(db, sid) == Some(Voided) {
      forall a | a in SetOf(db.assignments, sid)
        ensures a in Run(db, events).assignments && Run(db, events).assignments[a] == db.assignments[a]
      {
        WorkStaysFrozen(db, events, a);
      }
    }
  }

  // ---------------------------------------------------------------------
  // Owners and history
  // ---------------------------------------------------------------------

  /** A line appended to the history says that `a` went from one owner to another. */
  predicate Recorded(before: seq<Move>, after: seq<Move>, a: AssignmentId, from: UserId, to: UserId) {
    exists i :: |before| <= i < |after| && after[i].assignment == a && after[i].from == from && after[i].to == to
  }

  /** An assignment changes its owner exactly when the step records that move, and then nothing else of it. */
  ghost predicate OwnerStep(db: Db, next: Db, a: AssignmentId)
    requires a in db.assignments
  {
    && a in next.assignments
    && (next.assignments[a].examiner != db.assignments[a].examiner
        <==> Recorded(db.moves, next.moves, a, db.assignments[a].examiner, next.assignments[a].examiner))
    && (next.moves != db.moves ==>
          next.assignments[a] == db.assignments[a].(examiner := next.assignments[a].examiner))
    && (next.assignments[a].examiner == db.assignments[a].examiner ==>
          forall i :: |db.moves| <= i < |next.moves| ==> next.moves[i].assignment != a)
  }

  lemma ScoringOwners(db: Db, e: Event, a: AssignmentId)
    requires a in db.assignments
    requires e.CreateAssignmentSet? || e.StartScoring? || e.SaveScore? || e.CompleteScoring?
    ensures OwnerStep(db, Apply(db, e).0, a)
  {
    hide HasOpenFlag, SetOf, ValidSet, TwoDistinct, ExaminerRules.Eligible, ExaminerRules.ValidScore;
  }

  lemma ReassignmentOwners(db: Db, e: Event, a: AssignmentId)
    requires a in db.assignments && e.Reassign?
    ensures OwnerStep(db, Apply(db, e).0, a)
  {
    var next := Apply(db, e).0;
    if next.moves != db.moves { assert next.moves[|db.moves|].assignment == e.aid; }
  }

  lemma TransferOwners(db: Db, target: UserId, actor: UserId, m: Transfers, reason: Reason, tid: TransitionId,
                       a: AssignmentId, next: Db)
    requires a in db.assignments && Transfer(db, target, m)
    requires next.assignments == AccountRules.Transferred(db.assignments, m)
    requires next.moves == db.moves + AccountRules.Lines(m.Keys, m, target, actor, reason, tid)
    ensures OwnerStep(db, next, a)
  {
    hide AccountRules.Lines;
    var lines := AccountRules.Lines(m.Keys, m, target, actor, reason, tid);
    LinesAbout(m.Keys, m, target, actor, reason, tid);
    if a in m {
      TransferIsOpen(db, target, m);
      LinesCover(m.Keys, m, target, actor, reason, tid);
      var i :| 0 <= i < |lines| && lines[i].assignment == a;
      assert next.moves[|db.moves| + i] == lines[i];
    } else {
      assert forall i :: |db.moves| <= i < |next.moves| ==> next.moves[i] == lines[i - |db.moves|];
    }
  }

  lemma TransitionOwners(db: Db, e: Event, a: AssignmentId)
    requires a in db.assignments && e.Transition?
    ensures OwnerStep(db, Apply(db, e).0, a)
  {
    hide OwnerStep, AccountRules.SetsValid, AccountRules.Replay, AccountRules.Lines,
         AccountRules.DistinctValues, Transfer, AccountRules.ActiveAdmins, AccountRules.TransferProblem,
         AccountRules.OpenAssignments, AccountRules.Transferred;
    if Apply(db, e).1.Updated? {
      AcceptedTransfer(db, e.target, e.m, e.request);
      TransferOwners(db, e.target, e.actor, e.m, AccountRules.ReasonOf(e.request), e.tid, a, Apply(db, e).0);
    } else {
      SameOwners(db, Apply(db, e).0, a);
    }
  }

  lemma SameOwners(db: Db, next: Db, a: AssignmentId)
    requires a in db.assignments && next.assignments == db.assignments && next.moves == db.moves
    ensures OwnerStep(db, next, a)
  {
  }

  /**
   * In every step an assignment changes its owner if and only if a line with its old and its new
   * owner is appended to the history; it keeps its id, slot, status and scores then, and no line
   * is appended about an assignment that keeps its owner.
   */
  lemma OwnerChangesAreRecorded(db: Db, e: Event, a: AssignmentId)
    requires a in db.assignments
    ensures OwnerStep(db, Apply(db, e).0, a)
  {
    hide Apply, OwnerStep;
    if e.Transition? {
      TransitionOwners(db, e, a);
    } else if e.Reassign? {
      ReassignmentOwners(db, e, a);
    } else if e.CreateAssignmentSet? || e.StartScoring? || e.SaveScore? || e.CompleteScoring? {
      ScoringOwners(db, e, a);
    } else {
      if e.OpenCheckout? || e.RejectCheckout? || e.RecordSession? || e.NotifyFailed? || e.NotifyPaid? || e.Waive?
         || e.Complete? || e.DismissFlag? {
        PaymentServiceLeaves(db, e);
      } else {
        SubmissionServiceLeaves(db, e);
      }
      SameOwners(db, Apply(db, e).0, a);
    }
  }
}
