/** What assignment, scoring and reassignment achieve. */
module ExaminerEffects {
  import opened Options
  import opened Records
  import opened LifecycleInvariant
  import opened LifecycleRows
  import opened ExaminerSteps
  import opened AccountSteps
  import opened Lifecycle
  import opened LifecycleSafety
  import ExaminerRules
  import AccountRules

  // ---------------------------------------------------------------------
  // Sets
  // ---------------------------------------------------------------------

  lemma TwoEligible(users: Users, student: UserId, first: UserId, second: UserId)
    requires first != second && first in ExaminerRules.Eligible(users, student)
             && second in ExaminerRules.Eligible(users, student)
    ensures |ExaminerRules.Eligible(users, student)| >= 2
  {
    var all := ExaminerRules.Eligible(users, student);
    assert {first, second} <= all;
    assert all == {first, second} + (all - {first, second});
  }

  /**
   * A set is created exactly for a paid Submission and two different eligible examiners; paid
   * already means retained, without open flag and without assignments.
   */
  lemma CreationAccepted(db: Db, sid: SubmissionId, first: UserId, second: UserId, a1: AssignmentId, a2: AssignmentId)
    requires Consistent(db)
    ensures ExaminerRules.CreateAssignmentSet(db, sid, first, second, a1, a2).1 == Done <==>
              && StatusOf(db, sid) == Some(Paid) && first != second
              && ActiveExaminer(db.users, first) && ActiveExaminer(db.users, second)
              && !OwnedBy(db.submissions, sid, first) && !OwnedBy(db.submissions, sid, second)
    ensures ExaminerRules.CreateAssignmentSet(db, sid, first, second, a1, a2).1 == Existing <==>
            SetOf(db.assignments, sid) != {}
  {
    hide Inv, HasOpenFlag, SetOf, TwoDistinct, ExaminerRules.Eligible;
    var ix :| Inv(db, ix);
    SetIsPair(db, ix, sid);
    if sid in db.submissions {
      AtSubmission(db, ix, sid);
      SetTwoDistinct(db, sid);
      var student := db.submissions[sid].student;
      if first != second && ActiveExaminer(db.users, first) && ActiveExaminer(db.users, second)
         && first != student && second != student {
        BothEligible(db.users, student, first, second);
        TwoEligible(db.users, student, first, second);
      }
    } else {
      NoSetWithoutSubmission(db, ix, sid);
    }
  }

  /** A created set: the Submission is in scoring, and the candidates have untouched work in slots 1 and 2. */
  lemma CreationWrites(db: Db, sid: SubmissionId, first: UserId, second: UserId, a1: AssignmentId, a2: AssignmentId)
    requires a1 !in db.assignments && a2 !in db.assignments && a1 != a2
    requires ExaminerRules.CreateAssignmentSet(db, sid, first, second, a1, a2).1 == Done
    ensures sid in db.submissions
    ensures var next := ExaminerRules.CreateAssignmentSet(db, sid, first, second, a1, a2).0;
            && next.submissions == db.submissions[sid := db.submissions[sid].(status := Scoring)]
            && next.assignments.Keys == db.assignments.Keys + {a1, a2}
            && (forall a :: a in db.assignments ==> next.assignments[a] == db.assignments[a])
            && next.assignments[a1] == Assignment(sid, 1, first, Assigned, [], first)
            && next.assignments[a2] == Assignment(sid, 2, second, Assigned, [], second)
            && next == db.(submissions := next.submissions, assignments := next.assignments)
  {
    hide HasOpenFlag, SetOf, TwoDistinct, ExaminerRules.Eligible;
  }

  lemma BothEligible(users: Users, student: UserId, first: UserId, second: UserId)
    requires ActiveExaminer(users, first) && ActiveExaminer(users, second) && first != student && second != student
    ensures first in ExaminerRules.Eligible(users, student) && second in ExaminerRules.Eligible(users, student)
  {
  }

  lemma SetTwoDistinct(db: Db, sid: SubmissionId)
    ensures ValidSet(db.assignments, SetOf(db.assignments, sid)) ==>
              TwoDistinct(db.assignments, SetOf(db.assignments, sid))
  {
    hide TwoDistinct;
  }

  lemma NoSetWithoutSubmission(db: Db, ix: Index, sid: SubmissionId)
    requires Inv(db, ix) && sid !in db.submissions
    ensures sid !in ix.pairs
  {
    hide Placed, Flagging, Around;
  }

  /** Creating the set again finds it, for any candidates. */
  lemma CreationRepeats(db: Db, sid: SubmissionId, first: UserId, second: UserId, a1: AssignmentId, a2: AssignmentId,
                        f2: UserId, s2: UserId, b1: AssignmentId, b2: AssignmentId)
    requires Consistent(db) && a1 !in db.assignments && a2 !in db.assignments && a1 != a2
    requires ExaminerRules.CreateAssignmentSet(db, sid, first, second, a1, a2).1 == Done
    ensures var after := ExaminerRules.CreateAssignmentSet(db, sid, first, second, a1, a2).0;
            ExaminerRules.CreateAssignmentSet(after, sid, f2, s2, b1, b2) == (after, Existing)
  {
    hide Paired, Placed, Flagging, Around, HasOpenFlag, ExaminerRules.Eligible, SetOf;
    var ix :| Inv(db, ix);
    var after := ExaminerRules.CreateAssignmentSet(db, sid, first, second, a1, a2).0;
    SetIsPair(db, ix, sid);
    NewPairFound(db, sid, a1, a2, after);
    TwoIsValid(after.assignments, {a1, a2}, a1, a2);
  }

  lemma NewPairFound(db: Db, sid: SubmissionId, a1: AssignmentId, a2: AssignmentId, after: Db)
    requires SetOf(db.assignments, sid) == {} && a1 !in db.assignments && a2 !in db.assignments
    requires exists x1: Assignment, x2: Assignment :: x1.submission == sid && x2.submission == sid
                                                   && after.assignments == db.assignments[a1 := x1][a2 := x2]
    ensures SetOf(after.assignments, sid) == {a1, a2}
  {
    assert forall a :: a in SetOf(db.assignments, sid) <==> a in db.assignments && db.assignments[a].submission == sid;
  }

  // ---------------------------------------------------------------------
  // Exactly when scoring work is accepted
  // ---------------------------------------------------------------------

  lemma ScoringMeans(db: Db, aid: AssignmentId)
    requires Consistent(db) && aid in db.assignments
    ensures db.assignments[aid].submission in db.submissions
    ensures var sid := db.assignments[aid].submission;
            var status := db.submissions[sid].status;
            && IsRetained(db.submissions, sid)
            && (HasOpenFlag(db.flags, sid) <==> status == FlagReview)
            && status in {Scoring, Scored, Certified, FlagReview, Voided}
            && (Finished(status) ==> db.assignments[aid].status == Completed)
  {
    hide Paired, Placed, Flagging, Around, HasOpenFlag;
    var ix :| Inv(db, ix);
    AtAssignment(db, ix, aid);
    AtSubmission(db, ix, db.assignments[aid].submission);
  }

  /** Neither operation checks that the Submission is in scoring; both are accepted exactly when it is. */
  lemma WorkAccepted(db: Db, aid: AssignmentId, uid: UserId, score: Score)
    requires Consistent(db)
    ensures ExaminerRules.StartScoring(db, aid, uid).1 == Done <==>
              AssignedTo(db.assignments, aid, uid) && HasWork(db.assignments, aid, Assigned)
              && StatusAround(db, aid) == Some(Scoring)
    ensures ExaminerRules.SaveScore(db, aid, uid, score).1 == Done <==>
              && AssignedTo(db.assignments, aid, uid) && !HasWork(db.assignments, aid, Completed)
              && StatusAround(db, aid) == Some(Scoring) && FitsSystem(db, aid, score)
  {
    hide Inv, HasOpenFlag, ExaminerRules.ValidScore;
    if aid in db.assignments {
      ScoringMeans(db, aid);
      ScoresFollowWork(db, aid);
    }
  }

  /** The half bands from 1 to 6. */
  predicate OnBand(x: real) {
    x in {1.0, 1.5, 2.0, 2.5, 3.0, 3.5, 4.0, 4.5, 5.0, 5.5, 6.0}
  }

  /** A rubric score has its band and all four criteria on half bands; a legacy score lies from 0 to 100. */
  lemma ValidScores(score: Score)
    ensures ExaminerRules.ValidScore(score, Rubric6) <==>
              && OnBand(score.value) && score.rubric.Some?
              && OnBand(score.rubric.value.pronunciation) && OnBand(score.rubric.value.fluency)
              && OnBand(score.rubric.value.vocabulary) && OnBand(score.rubric.value.grammar)
    ensures ExaminerRules.ValidScore(score, Legacy100) <==> 0.0 <= score.value <= 100.0
  {
    hide ExaminerRules.ValidBand, OnBand;
    forall x: real
      ensures ExaminerRules.ValidBand(x) <==> OnBand(x)
    {
      BandsAreHalves(x);
    }
  }

  lemma BandsAreHalves(x: real)
    ensures ExaminerRules.ValidBand(x) <==> OnBand(x)
  {
    var twice := (2.0 * x).Floor;
    if ExaminerRules.ValidBand(x) {
      assert 2 <= twice <= 12 && x == twice as real / 2.0;
    }
  }

  /** A score that is valid in the scoring system of the assignment's Submission. */
  predicate FitsSystem(db: Db, aid: AssignmentId, score: Score) {
    aid in db.assignments && db.assignments[aid].submission in db.submissions
    && ExaminerRules.ValidScore(score, db.submissions[db.assignments[aid].submission].system)
  }

  /** A score as it is kept: the legacy system knows no rubric. */
  function Recorded(score: Score, system: Option<ScoringSystem>): Score {
    if system == Some(Legacy100) then Score(score.value, None) else Score(score.value, score.rubric)
  }

  function SystemOf(db: Db, aid: AssignmentId): Option<ScoringSystem> {
    if aid in db.assignments && db.assignments[aid].submission in db.submissions
    then Some(db.submissions[db.assignments[aid].submission].system) else None
  }

  /**
   * An accepted start makes exactly this assignment started, and nobody can start it again. An
   * accepted save makes it started with exactly this score, the band and each criterion as given.
   */
  lemma WorkWrites(db: Db, aid: AssignmentId, uid: UserId, score: Score, other: UserId)
    requires Consistent(db) && aid in db.assignments
    ensures var r, a := ExaminerRules.StartScoring(db, aid, uid), db.assignments[aid];
            && (r.1 != Done ==> r.0 == db)
            && (r.1 == Done ==>
                  && r.0 == db.(assignments := db.assignments[aid := a.(status := Started)])
                  && ExaminerRules.StartScoring(r.0, aid, other).1.Rejected?)
    ensures var r, a := ExaminerRules.SaveScore(db, aid, uid, score), db.assignments[aid];
            && (r.1 != Done ==> r.0 == db)
            && (r.1 == Done ==>
                  r.0 == db.(assignments :=
                    db.assignments[aid := a.(status := Started, scores := [Recorded(score, SystemOf(db, aid))])]))
  {
    hide Inv, HasOpenFlag, ExaminerRules.ValidScore;
    ScoringMeans(db, aid);
    ScoresFollowWork(db, aid);
    var a, stored := db.assignments[aid], Recorded(score, SystemOf(db, aid));
    assert a.scores != [] ==> a.scores[0 := stored] == [stored];
  }

  /** Saving again replaces the score: only the last one counts. */
  lemma LastScoreWins(db: Db, aid: AssignmentId, uid: UserId, first: Score, last: Score)
    requires Consistent(db) && FitsSystem(db, aid, last)
    requires ExaminerRules.SaveScore(db, aid, uid, first).1 == Done
    ensures ExaminerRules.SaveScore(ExaminerRules.SaveScore(db, aid, uid, first).0, aid, uid, last)
            == ExaminerRules.SaveScore(db, aid, uid, last)
  {
    hide Inv, HasOpenFlag, ExaminerRules.ValidScore, ExaminerRules.Stored;
    ScoresFollowWork(db, aid);
    var a, system := db.assignments[aid], db.submissions[db.assignments[aid].submission].system;
    var saved := ExaminerRules.SaveScore(db, aid, uid, first).0;
    var stored := ExaminerRules.Stored(last, system);
    assert a.scores != [] ==> a.scores[0 := stored] == [stored];
    assert saved.assignments[aid].scores[0 := stored] == [stored];
    assert saved.assignments[aid := a.(scores := [stored], status := Started)]
        == db.assignments[aid := a.(scores := [stored], status := Started)];
  }

  predicate HasScore(db: Db, aid: AssignmentId) {
    aid in db.assignments && db.assignments[aid].scores != []
  }

  /** The other assignment of the set is completed. */
  predicate OtherCompleted(db: Db, aid: AssignmentId) {
    aid in db.assignments
    && forall b :: b in SetOf(db.assignments, db.assignments[aid].submission) && b != aid ==>
         HasWork(db.assignments, b, Completed)
  }

  /**
   * Completion is accepted exactly for the owner's saved score while scoring, and ends scoring
   * exactly as the second one. Work that is completed already stays so and is answered as such,
   * also while it is paused or certified.
   */
  lemma CompletionAccepted(db: Db, aid: AssignmentId, uid: UserId)
    requires Consistent(db)
    ensures var r := ExaminerRules.CompleteScoring(db, aid, uid);
            && (r.1 == Done <==>
                  && AssignedTo(db.assignments, aid, uid) && !HasWork(db.assignments, aid, Completed)
                  && StatusAround(db, aid) == Some(Scoring) && HasScore(db, aid))
            && (r.1 == AlreadyCompleted <==>
                  && AssignedTo(db.assignments, aid, uid) && HasWork(db.assignments, aid, Completed)
                  && StatusAround(db, aid) != Some(Voided))
            && (r.1 != Done ==> r.0 == db)
            && (r.1 == Done ==>
                  && aid in db.assignments
                  && r.0.assignments == db.assignments[aid := db.assignments[aid].(status := Completed)]
                  && StatusAround(r.0, aid) == Some(if OtherCompleted(db, aid) then Scored else Scoring))
  {
    hide Inv, HasOpenFlag, ExaminerRules.ValidScore, ValidSet, SetOf;
    if aid in db.assignments {
      var sid := db.assignments[aid].submission;
      ScoringMeans(db, aid);
      ScoresFollowWork(db, aid);
      SetsAndStatus(db, sid);
      InItsSet(db, aid);
      LastOfSet(db, aid);
    }
  }

  lemma LastOfSet(db: Db, aid: AssignmentId)
    requires aid in db.assignments
    ensures var ids := SetOf(db.assignments, db.assignments[aid].submission);
            ExaminerRules.AllCompleted(db.assignments[aid := db.assignments[aid].(status := Completed)], ids)
            <==> OtherCompleted(db, aid)
  {
  }

  lemma InItsSet(db: Db, aid: AssignmentId)
    requires aid in db.assignments
    ensures aid in SetOf(db.assignments, db.assignments[aid].submission)
  {
  }

  // ---------------------------------------------------------------------
  // Reassignment
  // ---------------------------------------------------------------------

  predicate InSet(assignments: Assignments, aid: AssignmentId, examiner: UserId) {
    aid in assignments
    && exists b :: b in assignments && assignments[b].submission == assignments[aid].submission
                   && assignments[b].examiner == examiner
  }

  predicate AboutOwn(db: Db, aid: AssignmentId, examiner: UserId) {
    aid in db.assignments && OwnedBy(db.submissions, db.assignments[aid].submission, examiner)
  }

  /**
   * An Admin moves exactly untouched work of a Submission in scoring or in review, to an active
   * examiner who is neither its student nor in its set; untouched already means without a score.
   */
  lemma ReassignmentAccepted(db: Db, aid: AssignmentId, admin: UserId, examiner: UserId, tid: TransitionId)
    requires Consistent(db)
    ensures ExaminerRules.Reassign(db, aid, admin, examiner, tid).1 == Updated(map[aid := examiner]) <==>
              && ActiveAdmin(db.users, admin) && HasWork(db.assignments, aid, Assigned)
              && StatusAround(db, aid) in {Some(Scoring), Some(FlagReview)}
              && ActiveExaminer(db.users, examiner) && !InSet(db.assignments, aid, examiner)
              && !AboutOwn(db, aid, examiner)
  {
    hide Inv, HasOpenFlag;
    if aid in db.assignments {
      ScoringMeans(db, aid);
      ScoresFollowWork(db, aid);
    }
  }

  /**
   * An accepted reassignment writes the owner of this assignment and one line, nothing else.
   * Naming the present owner is not refused: an active Admin is told that it is so already, whatever
   * the work's status, and nothing is written.
   */
  lemma ReassignmentWrites(db: Db, aid: AssignmentId, admin: UserId, examiner: UserId, tid: TransitionId)
    requires Consistent(db)
    ensures var r := ExaminerRules.Reassign(db, aid, admin, examiner, tid);
            && (r.1 == AlreadyApplied(map[aid := examiner]) <==>
                  ActiveAdmin(db.users, admin) && AssignedTo(db.assignments, aid, examiner))
            && (!r.1.Updated? ==> r.0 == db)
            && (r.1.Updated? ==>
                  && aid in db.assignments
                  && r.0 == db.(assignments := db.assignments[aid := db.assignments[aid].(examiner := examiner)],
                                moves := db.moves + [Move(tid, aid, db.assignments[aid].examiner, examiner, admin,
                                                          AdminReassignment)]))
  {
    hide Inv, HasOpenFlag;
    if aid in db.assignments { ScoringMeans(db, aid); }
  }

  /** Moving the work back restores every assignment; the history keeps both moves. */
  lemma ReassignmentUndone(db: Db, aid: AssignmentId, owner: UserId, admin: UserId, examiner: UserId,
                           tid: TransitionId, back: TransitionId)
    requires Consistent(db) && AssignedTo(db.assignments, aid, owner) && ActiveExaminer(db.users, owner)
    requires ExaminerRules.Reassign(db, aid, admin, examiner, tid).1 == Updated(map[aid := examiner])
    ensures ExaminerRules.Reassign(ExaminerRules.Reassign(db, aid, admin, examiner, tid).0, aid, admin, owner, back)
            == (db.(moves := db.moves + [Move(tid, aid, owner, examiner, admin, AdminReassignment)]
                                      + [Move(back, aid, examiner, owner, admin, AdminReassignment)]),
                Updated(map[aid := owner]))
  {
    hide Inv;
    var ix :| Inv(db, ix);
    ScoringMeans(db, aid);
    OwnerAlone(db, ix, aid);
    var moved := ExaminerRules.Reassign(db, aid, admin, examiner, tid).0;
    assert moved.assignments[aid := db.assignments[aid]] == db.assignments;
  }

  /** No other assignment of the set has the same owner, and the owner is not the student. */
  lemma OwnerAlone(db: Db, ix: Index, aid: AssignmentId)
    requires Inv(db, ix) && aid in db.assignments && db.assignments[aid].submission in db.submissions
    ensures db.assignments[aid].examiner != db.submissions[db.assignments[aid].submission].student
    ensures forall b :: b in db.assignments && b != aid
                        && db.assignments[b].submission == db.assignments[aid].submission ==>
              db.assignments[b].examiner != db.assignments[aid].examiner
  {
    hide Flagging, Around;
  }
}
