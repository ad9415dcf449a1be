/** The examiner service keeps the invariant. */
module ExaminerSteps {
  import opened Options
  import opened Records
  import opened LifecycleInvariant
  import opened LifecycleRows
  import ExaminerRules

  // ---------------------------------------------------------------------
  // Scoring
  // ---------------------------------------------------------------------

  /** Everything around the pairs survives progress on one assignment by its owner. */
  lemma WorkAround(db: Db, ix: Index, aid: AssignmentId, x: Assignment)
    requires Around(db, ix) && aid in db.assignments && SamePlace(db.assignments[aid], x)
    requires x.examiner == db.assignments[aid].examiner && db.assignments[aid].status != Completed
    requires x.submission in db.submissions && GoodScores(x, db.submissions[x.submission].system)
    ensures Around(db.(assignments := db.assignments[aid := x]), ix)
  {
    var sid := x.submission;
    assert db.submissions[sid].status != Voided ==> Capable(db.users, x.examiner);
    hide Standing, Marking, Crediting, Charging, Accounting, Owned, Administered, Traced, Current, GoodScores;
    WorkMarking(db.submissions, db.assignments, aid, x);
    WorkOwned(db.users, db.submissions, db.assignments, aid, x);
    WorkTraced(db.assignments, db.moves, aid, x);
  }

  /** What the invariant says about one assignment and its pair. */
  lemma AtAssignment(db: Db, ix: Index, aid: AssignmentId)
    requires Inv(db, ix) && aid in db.assignments
    ensures var a := db.assignments[aid];
            && a.submission in db.submissions && a.submission in ix.pairs
            && ix.pairs[a.submission].0 in db.assignments && ix.pairs[a.submission].1 in db.assignments
            && ix.pairs[a.submission].0 != ix.pairs[a.submission].1
            && (aid == ix.pairs[a.submission].0 || aid == ix.pairs[a.submission].1)
            && GoodPair(db.submissions[a.submission], a.submission, db.assignments[ix.pairs[a.submission].0],
                        db.assignments[ix.pairs[a.submission].1])
            && GoodScores(a, db.submissions[a.submission].system)
  {
    hide GoodPair, GoodScores, Flagging, Crediting, Charging, Accounting, Owned, Administered, Traced, Current;
  }

  lemma StillFits(s: Submission, sid: SubmissionId, assignments: Assignments, pair: Pair, aid: AssignmentId,
                  x: Assignment)
    requires pair.0 in assignments && pair.1 in assignments && pair.0 != pair.1 && (aid == pair.0 || aid == pair.1)
    requires GoodPair(s, sid, assignments[pair.0], assignments[pair.1])
    requires SamePlace(assignments[aid], x) && x.examiner == assignments[aid].examiner
    requires assignments[aid].status != Completed && x.status != Completed
    ensures FitsPair(s, sid, assignments, pair, aid, x)
  {
  }

  /** Unfinished work by the owner that does not complete the pair. */
  lemma WorkKeeps(db: Db, ix: Index, aid: AssignmentId, x: Assignment)
    requires Inv(db, ix) && aid in db.assignments && SamePlace(db.assignments[aid], x)
    requires x.examiner == db.assignments[aid].examiner && db.assignments[aid].status != Completed
    requires x.submission in db.submissions && GoodScores(x, db.submissions[x.submission].system)
    requires x.status != Completed
    ensures Inv(db.(assignments := db.assignments[aid := x]), ix)
  {
    hide Paired, Placed, Flagging, Around, GoodScores, GoodPair, FitsPair;
    var s, sid := db.submissions[x.submission], x.submission;
    AtAssignment(db, ix, aid);
    StillFits(s, sid, db.assignments, ix.pairs[sid], aid, x);
    assert db.submissions[x.submission := s] == db.submissions;
    WorkAround(db, ix, aid, x);
    WorkPaired(db.submissions, db.assignments, ix.pairs, aid, x, s);
  }

  lemma StartScoringKeeps(db: Db, ix: Index, aid: AssignmentId, uid: UserId)
    requires Inv(db, ix)
    ensures Inv(ExaminerRules.StartScoring(db, aid, uid).0, ix)
  {
    hide Inv, HasOpenFlag;
    if ExaminerRules.StartScoring(db, aid, uid).1 == Done {
      AtAssignment(db, ix, aid);
      WorkKeeps(db, ix, aid, db.assignments[aid].(status := Started));
    }
  }

  lemma SaveScoreKeeps(db: Db, ix: Index, aid: AssignmentId, uid: UserId, score: Score)
    requires Inv(db, ix)
    ensures Inv(ExaminerRules.SaveScore(db, aid, uid, score).0, ix)
  {
    hide Inv, HasOpenFlag;
    if ExaminerRules.SaveScore(db, aid, uid, score).1 == Done {
      AtAssignment(db, ix, aid);
      var stored := ExaminerRules.Stored(score, db.submissions[db.assignments[aid].submission].system);
      var a := db.assignments[aid];
      assert a.scores != [] ==> a.scores[0 := stored] == [stored];
      WorkKeeps(db, ix, aid, a.(scores := [stored], status := Started));
    }
  }

  lemma TwoIsValid(assignments: Assignments, ids: set<AssignmentId>, a: AssignmentId, b: AssignmentId)
    requires a in assignments && b in assignments && a != b && ids == {a, b}
    requires assignments[a].slot == 1 && assignments[b].slot == 2 && assignments[a].examiner != assignments[b].examiner
    ensures ValidSet(assignments, ids)
  {
    assert Slots(assignments, ids) == {1, 2};
    assert Examiners(assignments, ids) == {assignments[a].examiner, assignments[b].examiner};
  }

  /** The code's set query finds exactly the pair, and its shape checks pass. */
  lemma SetIsPair(db: Db, ix: Index, sid: SubmissionId)
    requires Inv(db, ix)
    ensures sid !in ix.pairs ==> SetOf(db.assignments, sid) == {}
    ensures sid in ix.pairs ==>
              && SetOf(db.assignments, sid) == {ix.pairs[sid].0, ix.pairs[sid].1}
              && ValidSet(db.assignments, SetOf(db.assignments, sid))
  {
    hide Flagging, ValidSet, TwoDistinct, Standing, Marking, Crediting, Charging, Accounting, Owned,
         Administered, Traced, Current;
    if sid in ix.pairs {
      assert SetOf(db.assignments, sid) == {ix.pairs[sid].0, ix.pairs[sid].1};
      TwoIsValid(db.assignments, SetOf(db.assignments, sid), ix.pairs[sid].0, ix.pairs[sid].1);
    }
  }

  lemma CompletesPair(s: Submission, sid: SubmissionId, assignments: Assignments, pair: Pair, aid: AssignmentId,
                      x: Assignment, next: Submission)
    requires pair.0 in assignments && pair.1 in assignments && pair.0 != pair.1 && (aid == pair.0 || aid == pair.1)
    requires GoodPair(s, sid, assignments[pair.0], assignments[pair.1]) && s.status == Scoring
    requires x == assignments[aid].(status := Completed)
    requires next ==
             if ExaminerRules.AllCompleted(assignments[aid := x], {pair.0, pair.1}) then s.(status := Scored) else s
    ensures FitsPair(next, sid, assignments, pair, aid, x)
  {
  }

  lemma CompleteScoringKeeps(db: Db, ix: Index, aid: AssignmentId, uid: UserId)
    requires Inv(db, ix)
    ensures Inv(ExaminerRules.CompleteScoring(db, aid, uid).0, ix)
  {
    hide Paired, Placed, Flagging, Around, GoodPair, GoodScores, HasOpenFlag, FitsPair, Advances, Ordinary, SetOf;
    hide ExaminerRules.AllCompleted, ValidSet;
    if ExaminerRules.CompleteScoring(db, aid, uid).1 == Done {
      AtAssignment(db, ix, aid);
      var a := db.assignments[aid];
      var sid, s, x := a.submission, db.submissions[a.submission], a.(status := Completed);
      SetIsPair(db, ix, sid);
      NotAllCompleted(db.assignments, SetOf(db.assignments, sid), aid);
      var last := ExaminerRules.AllCompleted(db.assignments[aid := x], SetOf(db.assignments, sid));
      var next := if last then s.(status := Scored) else s;
      CompletesPair(s, sid, db.assignments, ix.pairs[sid], aid, x, next);
      CompletedScores(a, s.system);
      WorkAround(db, ix, aid, x);
      WorkPaired(db.submissions, db.assignments, ix.pairs, aid, x, next);
      AtSubmission(db, ix, sid);
      StatusFlagging(db.submissions, db.flags, sid, next);
      ScoredAround(db.(assignments := db.assignments[aid := x]), ix, sid, next);
      assert db.submissions[sid := s] == db.submissions;
    }
  }

  lemma NotAllCompleted(assignments: Assignments, ids: set<AssignmentId>, aid: AssignmentId)
    requires ids <= assignments.Keys && aid in ids && assignments[aid].status != Completed
    ensures !ExaminerRules.AllCompleted(assignments, ids)
  {
  }

  lemma CompletedScores(a: Assignment, system: ScoringSystem)
    requires GoodScores(a, system) && a.scores != []
    ensures GoodScores(a.(status := Completed), system)
  {
  }

  lemma ScoredAround(db: Db, ix: Index, sid: SubmissionId, next: Submission)
    requires Around(db, ix) && sid in db.submissions && sid in ix.pairs && db.submissions[sid].status == Scoring
    requires next == db.submissions[sid] || next == db.submissions[sid].(status := Scored)
    ensures Around(db.(submissions := db.submissions[sid := next]), ix)
  {
    assert next.flagReturn == None && (next.retention == Retained);
    assert next.paymentRequired ==> sid in ix.paidBy;
    RowAround(db, ix, sid, next);
  }

  // ---------------------------------------------------------------------
  // Reassignment and set creation
  // ---------------------------------------------------------------------

  lemma OwnerAfterMove(moves: seq<Move>, move: Move, a: AssignmentId, first: UserId)
    ensures OwnerAfter(moves + [move], a, first)
            == if move.assignment != a then OwnerAfter(moves, a, first)
               else if OwnerAfter(moves, a, first) == Some(move.from) then Some(move.to) else None
  {
    assert (moves + [move])[..|moves|] == moves;
  }

  lemma MoveTraced(assignments: Assignments, moves: seq<Move>, move: Move)
    requires Traced(assignments, moves) && move.assignment in assignments
    requires assignments[move.assignment].examiner == move.from
    ensures var x := assignments[move.assignment].(examiner := move.to);
            Traced(assignments[move.assignment := x], moves + [move])
  {
    hide OwnerAfter;
    forall a | a in assignments {
      OwnerAfterMove(moves, move, a, assignments[a].firstExaminer);
    }
  }

  lemma ReassignAround(db: Db, ix: Index, aid: AssignmentId, move: Move)
    requires Around(db, ix) && aid in db.assignments && db.assignments[aid].submission in db.submissions
    requires move.assignment == aid && move.from == db.assignments[aid].examiner && Capable(db.users, move.to)
    requires GoodScores(db.assignments[aid], db.submissions[db.assignments[aid].submission].system)
    ensures var x := db.assignments[aid].(examiner := move.to);
            Around(db.(assignments := db.assignments[aid := x], moves := db.moves + [move]), ix)
  {
    hide Standing, Marking, Crediting, Charging, Accounting, Owned, Administered, Traced, Current;
    var x := db.assignments[aid].(examiner := move.to);
    WorkMarking(db.submissions, db.assignments, aid, x);
    WorkOwned(db.users, db.submissions, db.assignments, aid, x);
    MoveTraced(db.assignments, db.moves, move);
  }

  lemma NewOwnerFits(s: Submission, sid: SubmissionId, assignments: Assignments, pair: Pair, aid: AssignmentId,
                     examiner: UserId)
    requires pair.0 in assignments && pair.1 in assignments && pair.0 != pair.1 && (aid == pair.0 || aid == pair.1)
    requires GoodPair(s, sid, assignments[pair.0], assignments[pair.1])
    requires examiner != s.student && examiner != assignments[if aid == pair.0 then pair.1 else pair.0].examiner
    ensures FitsPair(s, sid, assignments, pair, aid, assignments[aid].(examiner := examiner))
  {
  }

  lemma ReassignKeeps(db: Db, ix: Index, aid: AssignmentId, admin: UserId, examiner: UserId, tid: TransitionId)
    requires Inv(db, ix)
    ensures Inv(ExaminerRules.Reassign(db, aid, admin, examiner, tid).0, ix)
  {
    hide Paired, Placed, Flagging, Around, GoodPair, GoodScores, FitsPair;
    if ExaminerRules.Reassign(db, aid, admin, examiner, tid).1 == Updated(map[aid := examiner]) {
      AtAssignment(db, ix, aid);
      var a := db.assignments[aid];
      var sid, s := a.submission, db.submissions[a.submission];
      SetIsPair(db, ix, sid);
      var other := if aid == ix.pairs[sid].0 then ix.pairs[sid].1 else ix.pairs[sid].0;
      assert other in SetOf(db.assignments, sid);
      NewOwnerFits(s, sid, db.assignments, ix.pairs[sid], aid, examiner);
      ReassignAround(db, ix, aid, Move(tid, aid, a.examiner, examiner, admin, AdminReassignment));
      WorkPaired(db.submissions, db.assignments, ix.pairs, aid, a.(examiner := examiner), s);
      assert db.submissions[sid := s] == db.submissions;
    }
  }

  lemma {:induction false} Unmoved(moves: seq<Move>, a: AssignmentId, first: UserId)
    requires forall i :: 0 <= i < |moves| ==> moves[i].assignment != a
    ensures OwnerAfter(moves, a, first) == Some(first)
  {
    if moves != [] { Unmoved(moves[..|moves| - 1], a, first); }
  }

  /** A fresh assignment of a capable examiner. */
  predicate NewWork(users: Users, x: Assignment) {
    x.status == Assigned && x.scores == [] && x.firstExaminer == x.examiner && Capable(users, x.examiner)
  }

  lemma NewTraced(assignments: Assignments, moves: seq<Move>, a: AssignmentId, x: Assignment)
    requires Traced(assignments, moves) && a !in assignments && x.firstExaminer == x.examiner
    ensures Traced(assignments[a := x], moves)
  {
    hide OwnerAfter;
    Unmoved(moves, a, x.firstExaminer);
  }

  lemma NewAround(db: Db, ix: Index, a: AssignmentId, x: Assignment)
    requires Around(db, ix) && a !in db.assignments && x.submission in db.submissions && NewWork(db.users, x)
    ensures Around(db.(assignments := db.assignments[a := x]), ix)
  {
    hide Standing, Crediting, Charging, Accounting, Administered, Traced, Current;
    NewTraced(db.assignments, db.moves, a, x);
  }

  lemma PairCrediting(submissions: Submissions, credits: seq<Credit>, index: map<SubmissionId, nat>,
                      pairs: map<SubmissionId, Pair>,
                      sid: SubmissionId, pair: Pair)
    requires Crediting(submissions, credits, index, pairs)
    ensures Crediting(submissions, credits, index, pairs[sid := pair])
  {
  }

  lemma PairCharging(submissions: Submissions, payments: Payments, waivers: set<SubmissionId>,
                     pairs: map<SubmissionId, Pair>,
                     paidBy: map<SubmissionId, PaymentId>, sid: SubmissionId, pair: Pair)
    requires Charging(submissions, payments, waivers, pairs, paidBy)
    requires sid in submissions && Ready(submissions[sid].status, false)
    ensures Charging(submissions, payments, waivers, pairs[sid := pair], paidBy)
  {
  }

  lemma PairAround(db: Db, ix: Index, sid: SubmissionId, pair: Pair)
    requires Around(db, ix) && sid in db.submissions && db.submissions[sid].status == Paid
    ensures Around(db, ix.(pairs := ix.pairs[sid := pair]))
  {
    hide Marking, Crediting, Charging, Accounting, Owned, Administered, Traced, Current;
    PairCrediting(db.submissions, db.credits, ix.credit, ix.pairs, sid, pair);
    PairCharging(db.submissions, db.payments, db.waivers, ix.pairs, ix.paidBy, sid, pair);
  }

  lemma PairAdded(submissions: Submissions, assignments: Assignments, pairs: map<SubmissionId, Pair>,
                  sid: SubmissionId, s: Submission,
                  a1: AssignmentId, a2: AssignmentId, x1: Assignment, x2: Assignment)
    requires Paired(submissions, assignments, pairs) && sid !in pairs
    requires a1 !in assignments && a2 !in assignments && a1 != a2 && GoodPair(s, sid, x1, x2)
    ensures Paired(submissions[sid := s], assignments[a1 := x1][a2 := x2], pairs[sid := (a1, a2)])
  {
    hide GoodPair;
  }

  lemma PlaceAdded(assignments: Assignments, pairs: map<SubmissionId, Pair>, sid: SubmissionId,
                   a1: AssignmentId, a2: AssignmentId, x1: Assignment, x2: Assignment)
    requires Placed(assignments, pairs) && sid !in pairs && x1.submission == sid && x2.submission == sid
    ensures Placed(assignments[a1 := x1][a2 := x2], pairs[sid := (a1, a2)])
  {
  }

  lemma ScoringAround(db: Db, ix: Index, sid: SubmissionId)
    requires Around(db, ix) && sid in db.submissions && db.submissions[sid].status == Paid && sid in ix.pairs
    requires db.submissions[sid].retention == Retained
    ensures Around(db.(submissions := db.submissions[sid := db.submissions[sid].(status := Scoring)]), ix)
  {
    var s := db.submissions[sid].(status := Scoring);
    assert s.flagReturn == None;
    assert s.paymentRequired ==> sid in ix.paidBy;
    RowAround(db, ix, sid, s);
  }

  lemma CreateKeeps(db: Db, ix: Index, sid: SubmissionId, first: UserId, second: UserId, a1: AssignmentId,
                    a2: AssignmentId)
    returns (next: Index)
    requires Inv(db, ix) && a1 !in db.assignments && a2 !in db.assignments && a1 != a2
    ensures Inv(ExaminerRules.CreateAssignmentSet(db, sid, first, second, a1, a2).0, next)
  {
    hide Paired, Placed, Flagging, Around, HasOpenFlag, ExaminerRules.Eligible, TwoDistinct;
    next := ix;
    if ExaminerRules.CreateAssignmentSet(db, sid, first, second, a1, a2).1 == Done {
      var s := db.submissions[sid];
      SetIsPair(db, ix, sid);
      var x1, x2 := Assignment(sid, 1, first, Assigned, [], first), Assignment(sid, 2, second, Assigned, [], second);
      next := ix.(pairs := ix.pairs[sid := (a1, a2)]);
      StatusFlagging(db.submissions, db.flags, sid, s.(status := Scoring));
      NewAround(db, ix, a1, x1);
      var one := db.(assignments := db.assignments[a1 := x1]);
      NewAround(one, ix, a2, x2);
      var two := one.(assignments := one.assignments[a2 := x2]);
      PairAround(two, ix, sid, (a1, a2));
      ScoringAround(two, next, sid);
      PairAdded(db.submissions, db.assignments, ix.pairs, sid, s.(status := Scoring), a1, a2, x1, x2);
      PlaceAdded(db.assignments, ix.pairs, sid, a1, a2, x1, x2);
    }
  }
}
