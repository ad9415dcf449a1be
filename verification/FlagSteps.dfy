/** The flag service keeps the invariant. */
module FlagSteps {
  import opened Options
  import opened Records
  import opened LifecycleInvariant
  import opened LifecycleRows
  import opened ExaminerSteps
  import opened SubmissionSteps
  import FlagRules

  lemma RaiseDeviceFlagKeeps(db: Db, ix: Index, sid: SubmissionId, uid: UserId, fid: FlagId, entryKnown: bool)
    requires Inv(db, ix) && fid !in db.flags
    ensures Inv(FlagRules.RaiseDeviceFlag(db, sid, uid, fid, entryKnown).0, ix)
  {
    hide Paired, Placed, Around, HasOpenFlag;
    if FlagRules.RaiseDeviceFlag(db, sid, uid, fid, entryKnown).1 == Done {
      FlagAdded(db.flags, fid, sid);
      FlagsAround(db, ix, db.flags[fid := Flag(sid, None)]);
    }
  }

  /** The pair survives a pause, a resumption and a void: none of them ends scoring. */
  lemma PausedPair(s: Submission, sid: SubmissionId, a: Assignment, b: Assignment, next: Submission)
    requires GoodPair(s, sid, a, b) && !Finished(s.status) && !Finished(next.status)
    requires next.student == s.student && next.retention == s.retention
    requires next.status in {Scoring, FlagReview, Voided}
    ensures GoodPair(next, sid, a, b)
  {
  }

  lemma PauseKeeps(db: Db, ix: Index, sid: SubmissionId, s: Submission, flags: Flags)
    requires Inv(db, ix) && sid in db.submissions && sid in ix.pairs
    requires db.submissions[sid].status in {Scoring, FlagReview}
    requires s == db.submissions[sid].(status := FlagReview, flagReturn := Some(Scoring))
          || s == db.submissions[sid].(status := Scoring, flagReturn := None)
    requires forall f :: f in flags ==> flags[f].submission in db.submissions
    requires forall t :: t != sid ==> HasOpenFlag(flags, t) == HasOpenFlag(db.flags, t)
    requires HasOpenFlag(flags, sid) <==> s.status == FlagReview
    ensures Inv(db.(flags := flags, submissions := db.submissions[sid := s]), ix)
  {
    hide Placed, Flagging, Around, HasOpenFlag, GoodPair;
    AtSubmission(db, ix, sid);
    RowFlagging(db.submissions, db.flags, sid, s, flags);
    PausedPair(db.submissions[sid], sid, db.assignments[ix.pairs[sid].0], db.assignments[ix.pairs[sid].1], s);
    RowPaired(db.submissions, db.assignments, ix.pairs, sid, s);
    RowAround(db, ix, sid, s);
    FlagsAround(db.(submissions := db.submissions[sid := s]), ix, flags);
  }

  lemma RaiseIntegrityConcernKeeps(db: Db, ix: Index, aid: AssignmentId, uid: UserId, fid: FlagId, answerKnown: bool)
    requires Inv(db, ix) && fid !in db.flags
    ensures Inv(FlagRules.RaiseIntegrityConcern(db, aid, uid, fid, answerKnown).0, ix)
  {
    hide Paired, Placed, Around, HasOpenFlag;
    if FlagRules.RaiseIntegrityConcern(db, aid, uid, fid, answerKnown).1 == Done {
      var sid := db.assignments[aid].submission;
      AtAssignment(db, ix, aid);
      AtSubmission(db, ix, sid);
      FlagAdded(db.flags, fid, sid);
      var s := db.submissions[sid].(status := FlagReview, flagReturn := Some(Scoring));
      PauseKeeps(db, ix, sid, s, db.flags[fid := Flag(sid, None)]);
      assert db.submissions[sid].status == FlagReview ==> db.submissions[sid := s] == db.submissions;
    }
  }

  // ---------------------------------------------------------------------
  // Confirming
  // ---------------------------------------------------------------------

  lemma ConfirmedFlags(db: Db, fid: FlagId, admin: UserId)
    requires FlagRules.ResolveProblem(db, fid, admin) == None
    ensures var sid, next := db.flags[fid].submission, FlagRules.ConfirmFlag(db, fid, admin).0.flags;
            && next.Keys == db.flags.Keys
            && (forall f :: f in db.flags ==> next[f].submission == db.flags[f].submission)
            && !HasOpenFlag(next, sid)
            && (forall t :: t != sid ==> HasOpenFlag(next, t) == HasOpenFlag(db.flags, t))
  {
    var sid, next := db.flags[fid].submission, FlagRules.ConfirmFlag(db, fid, admin).0.flags;
    FlagsResolved(db.flags, next, sid);
    assert forall f :: f in next ==> !OpenOn(next, f, sid);
  }

  lemma VoidCrediting(submissions: Submissions, credits: seq<Credit>, index: map<SubmissionId, nat>,
                      pairs: map<SubmissionId, Pair>, sid: SubmissionId, s: Submission)
    requires Crediting(submissions, credits, index, pairs) && sid in submissions
    requires submissions[sid].status != Voided && s.status == Voided && s.student == submissions[sid].student
    requires s.paymentRequired == submissions[sid].paymentRequired && !Ready(submissions[sid].status, false)
    ensures Crediting(submissions[sid := s], credits + [Credit(s.student, sid, None)], index[sid := |credits|], pairs)
  {
  }

  lemma ConfirmFlagKeeps(db: Db, ix: Index, fid: FlagId, admin: UserId) returns (next: Index)
    requires Inv(db, ix)
    ensures Inv(FlagRules.ConfirmFlag(db, fid, admin).0, next)
  {
    hide Placed, Flagging, Standing, Marking, Crediting, Charging, Accounting, Owned, Administered, Traced,
         Current, HasOpenFlag, GoodPair;
    next := ix;
    if FlagRules.ResolveProblem(db, fid, admin) == None {
      var sid := db.flags[fid].submission;
      var s := db.submissions[sid].(status := Voided, flagReturn := None);
      next := ix.(credit := ix.credit[sid := |db.credits|]);
      AtSubmission(db, ix, sid);
      ConfirmedFlags(db, fid, admin);
      FlagSubmissions(db);
      RowFlagging(db.submissions, db.flags, sid, s, FlagRules.ConfirmFlag(db, fid, admin).0.flags);
      if sid in ix.pairs {
        PausedPair(db.submissions[sid], sid, db.assignments[ix.pairs[sid].0], db.assignments[ix.pairs[sid].1], s);
      }
      RowPaired(db.submissions, db.assignments, ix.pairs, sid, s);
      FlagsAround(db, ix, FlagRules.ConfirmFlag(db, fid, admin).0.flags);
      VoidAround(db.(flags := FlagRules.ConfirmFlag(db, fid, admin).0.flags), ix, sid, s);
    }
  }

  lemma FlagSubmissions(db: Db)
    requires Flagging(db.submissions, db.flags)
    ensures forall f :: f in db.flags ==> db.flags[f].submission in db.submissions
  {
  }

  lemma VoidAround(db: Db, ix: Index, sid: SubmissionId, s: Submission)
    requires Around(db, ix) && sid in db.submissions && db.submissions[sid].status == FlagReview
    requires sid in ix.pairs && db.submissions[sid].paymentRequired ==> sid in ix.paidBy
    requires db.submissions[sid].retention == Retained
             && s == db.submissions[sid].(status := Voided, flagReturn := None)
    ensures Around(db.(submissions := db.submissions[sid := s], credits := db.credits + [Credit(s.student, sid, None)]),
                   ix.(credit := ix.credit[sid := |db.credits|]))
  {
    hide Standing, Marking, Crediting, Charging, Accounting, Owned, Administered, Traced, Current;
    RowStanding(db.submissions, ix.pairs, sid, s);
    RowMarking(db.submissions, db.assignments, sid, s);
    VoidCrediting(db.submissions, db.credits, ix.credit, ix.pairs, sid, s);
    RowCharging(db.submissions, db.payments, db.waivers, ix.pairs, ix.paidBy, sid, s);
    RowOwned(db.users, db.submissions, db.assignments, sid, s);
    RowCurrent(db.submissions, sid, s);
  }

  // ---------------------------------------------------------------------
  // Dismissing
  // ---------------------------------------------------------------------

  lemma DismissFlagKeeps(db: Db, ix: Index, fid: FlagId, admin: UserId, paymentEnabled: bool, locked: set<nat>)
    requires Inv(db, ix)
    ensures Inv(FlagRules.DismissFlag(db, fid, admin, paymentEnabled, locked).0, ix)
  {
    hide Paired, Placed, Flagging, Around, HasOpenFlag, FlagRules.Route;
    if FlagRules.ResolveProblem(db, fid, admin) == None {
      var sid := db.flags[fid].submission;
      var s := db.submissions[sid];
      var flags := db.flags[fid := db.flags[fid].(resolution := Some(Dismissed))];
      var dismissed := db.(flags := flags);
      FlagsResolved(db.flags, flags, sid);
      FlagSubmissions(db);
      AtSubmission(db, ix, sid);
      if sid in ix.pairs {
        if HasOpenFlag(flags, sid) {
          PauseKeeps(db, ix, sid, s, flags);
          assert db.submissions[sid := s] == db.submissions;
        } else {
          PauseKeeps(db, ix, sid, s.(status := Scoring, flagReturn := None), flags);
        }
      } else if HasOpenFlag(flags, sid) {
        RowFlagging(db.submissions, db.flags, sid, s, flags);
        FlagsAround(db, ix, flags);
        assert db.submissions[sid := s] == db.submissions;
      } else {
        var aside := s.(status := Abandoned, flagReturn := None);
        FreeRowKeeps(db, ix, sid, aside);
        RowFlagging(db.submissions, db.flags, sid, aside, flags);
        FlagsAround(db.(submissions := db.submissions[sid := aside]), ix, flags);
        RouteKeeps(dismissed, ix, sid, s, paymentEnabled, locked);
      }
    }
  }
}
