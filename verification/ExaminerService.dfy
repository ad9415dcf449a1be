module ExaminerRules {
  import opened Options
  import opened Records

  // ---------------------------------------------------------------------
  // Scores
  // ---------------------------------------------------------------------

  /** A half band from 1.0 to 6.0. */
  predicate ValidBand(band: real) {
    1.0 <= band <= 6.0 && (2.0 * band).Floor as real == 2.0 * band
  }

  predicate ValidScore(score: Score, system: ScoringSystem) {
    match system
    case Rubric6 =>
      && score.rubric.Some? && ValidBand(score.value)
      && ValidBand(score.rubric.value.pronunciation) && ValidBand(score.rubric.value.fluency)
      && ValidBand(score.rubric.value.vocabulary) && ValidBand(score.rubric.value.grammar)
    case Legacy100 => 0.0 <= score.value <= 100.0
  }

  /** What is stored for a score input: legacy scores carry no rubric. */
  function Stored(score: Score, system: ScoringSystem): Score {
    if system == Rubric6 then score else score.(rubric := None)
  }

  // ---------------------------------------------------------------------
  // Assignment sets
  // ---------------------------------------------------------------------

  function Eligible(users: map<UserId, User>, student: UserId): set<UserId> {
    set u | u in users && ActiveExaminer(users, u) && u != student
  }

  predicate ReadableStatus(status: Status) {
    status in {Scoring, Scored, Certified, FlagReview, Voided}
  }

  /** Commit one assignment set for the candidates `first` and `second`. */
  function CreateAssignmentSet(db: Db, sid: SubmissionId, first: UserId, second: UserId, a1: AssignmentId,
                               a2: AssignmentId): (Db, Outcome) {
    if sid !in db.submissions || db.submissions[sid].retention == Purged then (db, Rejected(NotFound))
    else
      var s, ids := db.submissions[sid], SetOf(db.assignments, sid);
      if s.retention != Retained then (db, Rejected(NotAssignmentReady))
      else if ids != {} then
        if TwoDistinct(db.assignments, ids) && ReadableStatus(s.status) then (db, Existing)
        else (db, Rejected(InvariantViolation))
      else if s.status != Paid || HasOpenFlag(db.flags, sid) then (db, Rejected(NotAssignmentReady))
      else if |Eligible(db.users, s.student)| < 2 then (db, Rejected(InsufficientCapacity))
      else if first == second || first == s.student || second == s.student then (db, Rejected(InvariantViolation))
      else if !ActiveExaminer(db.users, first) || !ActiveExaminer(db.users, second) then
        (db, Rejected(InsufficientCapacity))
      else
        (db.(submissions := db.submissions[sid := s.(status := Scoring)],
             assignments := db.assignments[a1 := Assignment(sid, 1, first, Assigned, [], first)]
                                          [a2 := Assignment(sid, 2, second, Assigned, [], second)]), Done)
  }

  // ---------------------------------------------------------------------
  // Scoring
  // ---------------------------------------------------------------------

  predicate Paused(db: Db, sid: SubmissionId)
    requires sid in db.submissions
  {
    db.submissions[sid].status == FlagReview || HasOpenFlag(db.flags, sid)
  }

  /** The assignment and its retained Submission, as the locked transactions read them. */
  predicate Present(db: Db, aid: AssignmentId) {
    aid in db.assignments && db.assignments[aid].submission in db.submissions
  }

  function StartScoring(db: Db, aid: AssignmentId, uid: UserId): (Db, Outcome) {
    if !Present(db, aid) then (db, Rejected(NotFound))
    else
      var a, sid := db.assignments[aid], db.assignments[aid].submission;
      if !IsRetained(db.submissions, sid) || db.submissions[sid].status == Voided then (db, Rejected(InvalidLifecycle))
      else if a.examiner != uid then (db, Rejected(Unauthorized))
      else if Paused(db, sid) then (db, Rejected(OpenFlag))
      else if a.status != Assigned then (db, Rejected(InvalidLifecycle))
      else (db.(assignments := db.assignments[aid := a.(status := Started)]), Done)
  }

  function SaveScore(db: Db, aid: AssignmentId, uid: UserId, score: Score): (Db, Outcome) {
    if !Present(db, aid) then (db, Rejected(NotFound))
    else
      var a, sid := db.assignments[aid], db.assignments[aid].submission;
      var system := db.submissions[sid].system;
      if !IsRetained(db.submissions, sid) then (db, Rejected(InvalidLifecycle))
      else if a.examiner != uid then (db, Rejected(Unauthorized))
      else if db.submissions[sid].status == Voided then (db, Rejected(InvalidLifecycle))
      else if Paused(db, sid) then (db, Rejected(OpenFlag))
      else if a.status == Completed then (db, Rejected(DraftFrozen))
      else if !ValidScore(score, system) then (db, Rejected(ScoreInvalid))
      else
        var stored := Stored(score, system);
        var scores := if a.scores == [] then [stored] else a.scores[0 := stored];
        (db.(assignments := db.assignments[aid := a.(scores := scores, status := Started)]), Done)
  }

  predicate AllCompleted(assignments: map<AssignmentId, Assignment>, ids: set<AssignmentId>)
    requires ids <= assignments.Keys
  {
    forall a :: a in ids ==> assignments[a].status == Completed
  }

  function CompleteScoring(db: Db, aid: AssignmentId, uid: UserId): (Db, Outcome) {
    if !Present(db, aid) then (db, Rejected(NotFound))
    else
      var a, sid := db.assignments[aid], db.assignments[aid].submission;
      var s, ids := db.submissions[sid], SetOf(db.assignments, sid);
      if !IsRetained(db.submissions, sid) then (db, Rejected(InvalidLifecycle))
      else if a.examiner != uid then (db, Rejected(Unauthorized))
      else if !ValidSet(db.assignments, ids) then (db, Rejected(InvalidAssignmentSet))
      else if Paused(db, sid) || s.status == Voided then
        (db, if a.status == Completed && s.status != Voided then AlreadyCompleted else Rejected(OpenFlag))
      else if s.status !in {Scoring, Scored, Certified} then (db, Rejected(InvalidLifecycle))
      else if (s.status == Scoring) == AllCompleted(db.assignments, ids) then (db, Rejected(InconsistentScoring))
      else if a.status == Completed then (db, AlreadyCompleted)
      else if a.scores == [] then (db, Rejected(ScoreMissing))
      else if !ValidScore(a.scores[0], s.system) then (db, Rejected(ScoreInvalid))
      else
        var assignments := db.assignments[aid := a.(status := Completed)];
        (db.(assignments := assignments,
             submissions := if AllCompleted(assignments, ids)
                            then db.submissions[sid := s.(status := Scored)] else db.submissions), Done)
  }

  // ---------------------------------------------------------------------
  // Admin reassignment
  // ---------------------------------------------------------------------

  predicate Reassignable(status: Status, work: Work, scoreCount: nat) {
    status in {Scoring, FlagReview} && work == Assigned && scoreCount == 0
  }

  function Reassign(db: Db, aid: AssignmentId, admin: UserId, examiner: UserId, tid: TransitionId): (Db, Outcome) {
    if !Present(db, aid) then (db, Rejected(NotFound))
    else if !ActiveAdmin(db.users, admin) then (db, Rejected(Unauthorized))
    else
      var a, sid := db.assignments[aid], db.assignments[aid].submission;
      var s := db.submissions[sid];
      if s.retention != Retained then (db, Rejected(NotFound))
      else if a.examiner == examiner then (db, AlreadyApplied(map[aid := examiner]))
      else if !Reassignable(s.status, a.status, |a.scores|) then (db, Rejected(NotReassignable))
      else if !ActiveExaminer(db.users, examiner)
           || (exists b :: b in db.assignments && b != aid && db.assignments[b].submission == sid
                           && db.assignments[b].examiner == examiner)
           || examiner == s.student then (db, Rejected(InvalidExaminer))
      else
        (db.(assignments := db.assignments[aid := a.(examiner := examiner)],
             moves := db.moves + [Move(tid, aid, a.examiner, examiner, admin, AdminReassignment)]),
         Updated(map[aid := examiner]))
  }
}

/** The transactions of assignment and scoring. */
module ExaminerService {
  import opened Records
  import opened Database
  import ExaminerRules
  import opened Options
  import Lifecycle
  import ExaminerEffects

  method CreateExaminerAssignmentSet(tx: Tables, sid: SubmissionId, first: UserId, second: UserId, a1: AssignmentId,
                                     a2: AssignmentId)
    returns (out: Outcome)
    modifies tx`submissions, tx`assignments
    ensures (tx.Snapshot(), out) == ExaminerRules.CreateAssignmentSet(old(tx.Snapshot()), sid, first, second, a1, a2)
    ensures Lifecycle.Consistent(old(tx.Snapshot())) && old(a1 !in tx.assignments && a2 !in tx.assignments)
            && a1 != a2 ==>
              && Lifecycle.Consistent(tx.Snapshot())
              && (out == Done <==>
                    && old(StatusOf(tx.Snapshot(), sid)) == Some(Paid) && first != second
                    && ActiveExaminer(tx.users, first) && ActiveExaminer(tx.users, second)
                    && old(!OwnedBy(tx.submissions, sid, first) && !OwnedBy(tx.submissions, sid, second)))
              && (out == Existing <==> old(SetOf(tx.assignments, sid)) != {})
  {
    hide Lifecycle.Consistent, HasOpenFlag, SetOf, TwoDistinct, ExaminerRules.Eligible;
    ghost var db := tx.Snapshot();
    if Lifecycle.Consistent(db) {
      Lifecycle.StepConsistent(db, Lifecycle.CreateAssignmentSet(sid, first, second, a1, a2));
      ExaminerEffects.CreationAccepted(db, sid, first, second, a1, a2);
    }
    if sid !in tx.submissions || tx.submissions[sid].retention == Purged { return Rejected(NotFound); }
    if tx.submissions[sid].retention != Retained { return Rejected(NotAssignmentReady); }
    var ids := SetOf(tx.assignments, sid);
    if ids != {} {
      if TwoDistinct(tx.assignments, ids) && ExaminerRules.ReadableStatus(tx.submissions[sid].status) {
        return Existing;
      }
      return Rejected(InvariantViolation);
    }
    if tx.submissions[sid].status != Paid || HasOpenFlag(tx.flags, sid) { return Rejected(NotAssignmentReady); }
    var student := tx.submissions[sid].student;
    if |ExaminerRules.Eligible(tx.users, student)| < 2 { return Rejected(InsufficientCapacity); }
    if first == second || first == student || second == student { return Rejected(InvariantViolation); }
    if !ActiveExaminer(tx.users, first) || !ActiveExaminer(tx.users, second) { return Rejected(InsufficientCapacity); }
    tx.submissions := tx.submissions[sid := tx.submissions[sid].(status := Scoring)];
    tx.assignments := tx.assignments[a1 := Assignment(sid, 1, first, Assigned, [], first)];
    tx.assignments := tx.assignments[a2 := Assignment(sid, 2, second, Assigned, [], second)];
    return Done;
  }

  method StartExaminerAssignment(tx: Tables, aid: AssignmentId, uid: UserId) returns (out: Outcome)
    modifies tx`assignments
    ensures (tx.Snapshot(), out) == ExaminerRules.StartScoring(old(tx.Snapshot()), aid, uid)
    ensures Lifecycle.Consistent(old(tx.Snapshot())) ==>
              && Lifecycle.Consistent(tx.Snapshot())
              && (out == Done <==>
                    old(AssignedTo(tx.assignments, aid, uid) && HasWork(tx.assignments, aid, Assigned)
                        && StatusAround(tx.Snapshot(), aid) == Some(Scoring)))
  {
    hide Lifecycle.Consistent, HasOpenFlag;
    ghost var db := tx.Snapshot();
    if Lifecycle.Consistent(db) {
      Lifecycle.StepConsistent(db, Lifecycle.StartScoring(aid, uid));
      ExaminerEffects.WorkAccepted(db, aid, uid, Score(0.0, None));
    }
    if !ExaminerRules.Present(tx.Snapshot(), aid) { return Rejected(NotFound); }
    var assignment := tx.assignments[aid];
    var sid := assignment.submission;
    if !IsRetained(tx.submissions, sid) || tx.submissions[sid].status == Voided { return Rejected(InvalidLifecycle); }
    if assignment.examiner != uid { return Rejected(Unauthorized); }
    if ExaminerRules.Paused(tx.Snapshot(), sid) { return Rejected(OpenFlag); }
    if assignment.status != Assigned { return Rejected(InvalidLifecycle); }
    tx.assignments := tx.assignments[aid := assignment.(status := Started)];
    return Done;
  }

  method SaveExaminerScore(tx: Tables, aid: AssignmentId, uid: UserId, score: Score) returns (out: Outcome)
    modifies tx`assignments
    ensures (tx.Snapshot(), out) == ExaminerRules.SaveScore(old(tx.Snapshot()), aid, uid, score)
    ensures Lifecycle.Consistent(old(tx.Snapshot())) ==>
              && Lifecycle.Consistent(tx.Snapshot())
              && (out == Done <==>
                    old(AssignedTo(tx.assignments, aid, uid) && !HasWork(tx.assignments, aid, Completed)
                        && StatusAround(tx.Snapshot(), aid) == Some(Scoring)
                        && ExaminerEffects.FitsSystem(tx.Snapshot(), aid, score)))
              && (out == Done ==>
                    && aid in tx.assignments && aid in old(tx.assignments)
                    && tx.assignments[aid].scores
                       == [ExaminerEffects.Recorded(score, ExaminerEffects.SystemOf(old(tx.Snapshot()), aid))])
  {
    hide Lifecycle.Consistent, HasOpenFlag, ExaminerRules.ValidScore;
    ghost var db := tx.Snapshot();
    if Lifecycle.Consistent(db) {
      Lifecycle.StepConsistent(db, Lifecycle.SaveScore(aid, uid, score));
      ExaminerEffects.WorkAccepted(db, aid, uid, score);
      if aid in db.assignments { ExaminerEffects.WorkWrites(db, aid, uid, score, uid); }
    }
    if !ExaminerRules.Present(tx.Snapshot(), aid) { return Rejected(NotFound); }
    var assignment := tx.assignments[aid];
    var sid := assignment.submission;
    var system := tx.submissions[sid].system;
    if !IsRetained(tx.submissions, sid) { return Rejected(InvalidLifecycle); }
    if assignment.examiner != uid { return Rejected(Unauthorized); }
    if tx.submissions[sid].status == Voided { return Rejected(InvalidLifecycle); }
    if ExaminerRules.Paused(tx.Snapshot(), sid) { return Rejected(OpenFlag); }
    if assignment.status == Completed { return Rejected(DraftFrozen); }
    if !ExaminerRules.ValidScore(score, system) { return Rejected(ScoreInvalid); }
    var stored := ExaminerRules.Stored(score, system);
    if assignment.scores != [] {
      assignment := assignment.(scores := assignment.scores[0 := stored]);
    } else {
      assignment := assignment.(scores := [stored]);
    }
    if assignment.status == Assigned {
      assignment := assignment.(status := Started);
    }
    tx.assignments := tx.assignments[aid := assignment];
    return Done;
  }

  method CompleteExaminerScoring(tx: Tables, aid: AssignmentId, uid: UserId) returns (out: Outcome)
    modifies tx`assignments, tx`submissions
    ensures (tx.Snapshot(), out) == ExaminerRules.CompleteScoring(old(tx.Snapshot()), aid, uid)
    ensures Lifecycle.Consistent(old(tx.Snapshot())) ==>
              && Lifecycle.Consistent(tx.Snapshot())
              && (out == Done <==>
                    old(AssignedTo(tx.assignments, aid, uid) && !HasWork(tx.assignments, aid, Completed)
                        && StatusAround(tx.Snapshot(), aid) == Some(Scoring)
                        && ExaminerEffects.HasScore(tx.Snapshot(), aid)))
              && (out == Done ==>
                    StatusAround(tx.Snapshot(), aid)
                    == Some(if old(ExaminerEffects.OtherCompleted(tx.Snapshot(), aid)) then Scored else Scoring))
  {
    hide Lifecycle.Consistent, HasOpenFlag, ExaminerRules.ValidScore, ExaminerRules.AllCompleted, ValidSet,
         SetOf, ExaminerEffects.OtherCompleted;
    ghost var db := tx.Snapshot();
    if Lifecycle.Consistent(db) {
      Lifecycle.StepConsistent(db, Lifecycle.CompleteScoring(aid, uid));
      ExaminerEffects.CompletionAccepted(db, aid, uid);
    }
    if !ExaminerRules.Present(tx.Snapshot(), aid) { return Rejected(NotFound); }
    var assignment := tx.assignments[aid];
    var sid := assignment.submission;
    var submission, ids := tx.submissions[sid], SetOf(tx.assignments, sid);
    if submission.retention != Retained { return Rejected(InvalidLifecycle); }
    if assignment.examiner != uid { return Rejected(Unauthorized); }
    if !ValidSet(tx.assignments, ids) { return Rejected(InvalidAssignmentSet); }
    if ExaminerRules.Paused(tx.Snapshot(), sid) || submission.status == Voided {
      if assignment.status == Completed && submission.status != Voided { return AlreadyCompleted; }
      return Rejected(OpenFlag);
    }
    if submission.status !in {Scoring, Scored, Certified} { return Rejected(InvalidLifecycle); }
    if (submission.status == Scoring) == ExaminerRules.AllCompleted(tx.assignments, ids) {
      return Rejected(InconsistentScoring);
    }
    if assignment.status == Completed { return AlreadyCompleted; }
    if assignment.scores == [] { return Rejected(ScoreMissing); }
    if !ExaminerRules.ValidScore(assignment.scores[0], submission.system) { return Rejected(ScoreInvalid); }
    tx.assignments := tx.assignments[aid := assignment.(status := Completed)];
    if ExaminerRules.AllCompleted(tx.assignments, ids) {
      tx.submissions := tx.submissions[sid := submission.(status := Scored)];
    }
    return Done;
  }

  method ReassignExaminerAssignment(tx: Tables, aid: AssignmentId, admin: UserId, examiner: UserId, tid: TransitionId)
    returns (out: Outcome)
    modifies tx`assignments, tx`moves
    ensures (tx.Snapshot(), out) == ExaminerRules.Reassign(old(tx.Snapshot()), aid, admin, examiner, tid)
    ensures Lifecycle.Consistent(old(tx.Snapshot())) && FreshTransition(old(tx.moves), tid) ==>
              && Lifecycle.Consistent(tx.Snapshot())
              && (out == Updated(map[aid := examiner]) <==>
                    && ActiveAdmin(tx.users, admin) && old(HasWork(tx.assignments, aid, Assigned))
                    && old(StatusAround(tx.Snapshot(), aid)) in {Some(Scoring), Some(FlagReview)}
                    && ActiveExaminer(tx.users, examiner)
                    && old(!ExaminerEffects.InSet(tx.assignments, aid, examiner)
                           && !ExaminerEffects.AboutOwn(tx.Snapshot(), aid, examiner)))
  {
    hide Lifecycle.Consistent, ExaminerEffects.InSet;
    ghost var db := tx.Snapshot();
    if Lifecycle.Consistent(db) {
      Lifecycle.StepConsistent(db, Lifecycle.Reassign(aid, admin, examiner, tid));
      ExaminerEffects.ReassignmentAccepted(db, aid, admin, examiner, tid);
    }
    if !ExaminerRules.Present(tx.Snapshot(), aid) { return Rejected(NotFound); }
    if !ActiveAdmin(tx.users, admin) { return Rejected(Unauthorized); }
    var assignment := tx.assignments[aid];
    var submission := tx.submissions[assignment.submission];
    if submission.retention != Retained { return Rejected(NotFound); }
    if assignment.examiner == examiner { return AlreadyApplied(map[aid := examiner]); }
    if !ExaminerRules.Reassignable(submission.status, assignment.status, |assignment.scores|) {
      return Rejected(NotReassignable);
    }
    var takenBy := exists b :: b in tx.assignments && b != aid && tx.assignments[b].submission == assignment.submission
                               && tx.assignments[b].examiner == examiner;
    if !ActiveExaminer(tx.users, examiner) || takenBy || examiner == submission.student {
      return Rejected(InvalidExaminer);
    }
    tx.assignments := tx.assignments[aid := assignment.(examiner := examiner)];
    tx.moves := tx.moves + [Move(tid, aid, assignment.examiner, examiner, admin, AdminReassignment)];
    return Updated(map[aid := examiner]);
  }
}
