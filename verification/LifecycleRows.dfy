/** How the invariant survives a change of one row. */
module LifecycleRows {
  import opened Options
  import opened Records
  import opened LifecycleInvariant

  // ---------------------------------------------------------------------
  // One Submission row changes
  // ---------------------------------------------------------------------

  /** A change that never takes back what other rows rely on. */
  ghost predicate Advances(was: Submission, s: Submission, staffed: bool) {
    && s.student == was.student && s.system == was.system
    && (Ready(was.status, staffed) ==> Ready(s.status, staffed) && (!was.paymentRequired ==> !s.paymentRequired))
    && (was.status == AwaitingPayment ==> s.status == AwaitingPayment || Ready(s.status, staffed))
  }

  /** A change that neither voids nor restarts the Submission. */
  ghost predicate Ordinary(was: Submission, s: Submission) {
    && (s.status == Voided <==> was.status == Voided)
    && (Unfinished(s) ==> Unfinished(was))
    && (s.retention != Retained ==> s.status == InProgress || s.status == Abandoned || s.status == AwaitingPayment)
  }

  lemma OrdinaryMeans(was: Submission, s: Submission, staffed: bool)
    requires Advances(was, s, staffed) && Ordinary(was, s)
    ensures s.student == was.student && s.system == was.system
    ensures s.status == Voided <==> was.status == Voided
    ensures Unfinished(s) ==> Unfinished(was)
    ensures s.retention != Retained ==> s.status == InProgress || s.status == Abandoned || s.status == AwaitingPayment
  {
  }

  lemma RowStanding(submissions: Submissions, pairs: map<SubmissionId, Pair>, sid: SubmissionId, s: Submission)
    requires Standing(submissions, pairs)
    requires s.status == Scoring || Finished(s.status) ==> sid in pairs
    requires s.status == AwaitingPayment ==> s.paymentRequired
    requires s.flagReturn == if s.status == FlagReview && sid in pairs then Some(Scoring) else None
    ensures Standing(submissions[sid := s], pairs)
  {
  }

  lemma RowPaired(submissions: Submissions, assignments: Assignments, pairs: map<SubmissionId, Pair>,
                  sid: SubmissionId, s: Submission)
    requires Paired(submissions, assignments, pairs)
    requires sid in pairs ==> GoodPair(s, sid, assignments[pairs[sid].0], assignments[pairs[sid].1])
    ensures Paired(submissions[sid := s], assignments, pairs)
  {
    hide GoodPair;
  }

  lemma RowMarking(submissions: Submissions, assignments: Assignments, sid: SubmissionId, s: Submission)
    requires Marking(submissions, assignments) && sid in submissions && s.system == submissions[sid].system
    ensures Marking(submissions[sid := s], assignments)
  {
  }

  /** Flags change on at most one Submission, whose row changes with them. */
  lemma RowFlagging(submissions: Submissions, flags: Flags, sid: SubmissionId, s: Submission, next: Flags)
    requires Flagging(submissions, flags) && sid in submissions
    requires forall f :: f in next ==> next[f].submission in submissions
    requires forall t :: t != sid ==> HasOpenFlag(next, t) == HasOpenFlag(flags, t)
    requires s.status == InProgress || s.status == Abandoned || (HasOpenFlag(next, sid) <==> s.status == FlagReview)
    ensures Flagging(submissions[sid := s], next)
  {
    hide HasOpenFlag;
  }

  lemma StatusFlagging(submissions: Submissions, flags: Flags, sid: SubmissionId, s: Submission)
    requires Flagging(submissions, flags) && sid in submissions
    requires s.status == InProgress || s.status == Abandoned || (HasOpenFlag(flags, sid) <==> s.status == FlagReview)
    ensures Flagging(submissions[sid := s], flags)
  {
    hide HasOpenFlag;
  }

  lemma RowCrediting(submissions: Submissions, credits: seq<Credit>, index: map<SubmissionId, nat>,
                     pairs: map<SubmissionId, Pair>,
                     sid: SubmissionId, s: Submission)
    requires Crediting(submissions, credits, index, pairs) && sid in submissions
    requires Advances(submissions[sid], s, sid in pairs) && (s.status == Voided <==> submissions[sid].status == Voided)
    ensures Crediting(submissions[sid := s], credits, index, pairs)
  {
    hide Ready;
  }

  lemma RowCharging(submissions: Submissions, payments: Payments, waivers: set<SubmissionId>,
                    pairs: map<SubmissionId, Pair>,
                    paidBy: map<SubmissionId, PaymentId>, sid: SubmissionId, s: Submission)
    requires Charging(submissions, payments, waivers, pairs, paidBy) && sid in submissions
    requires Advances(submissions[sid], s, sid in pairs)
    requires Ready(s.status, sid in pairs) && s.paymentRequired ==> sid in paidBy
    ensures Charging(submissions[sid := s], payments, waivers, pairs, paidBy)
  {
    hide Ready;
  }

  lemma RowOwned(users: Users, submissions: Submissions, assignments: Assignments, sid: SubmissionId, s: Submission)
    requires Owned(users, submissions, assignments) && sid in submissions
    requires submissions[sid].status == Voided ==> s.status == Voided
    ensures Owned(users, submissions[sid := s], assignments)
  {
  }

  lemma RowCurrent(submissions: Submissions, sid: SubmissionId, s: Submission)
    requires Current(submissions) && sid in submissions
    requires s.student == submissions[sid].student && (Unfinished(s) ==> Unfinished(submissions[sid]))
    requires s.retention != Retained ==> s.status == InProgress || s.status == Abandoned || s.status == AwaitingPayment
    ensures Current(submissions[sid := s])
  {
  }

  /** Everything around the pairs and the flags survives a row that fits its neighbours. */
  lemma RowAround(db: Db, ix: Index, sid: SubmissionId, s: Submission)
    requires Around(db, ix) && sid in db.submissions
    requires Advances(db.submissions[sid], s, sid in ix.pairs) && Ordinary(db.submissions[sid], s)
    requires s.status == Scoring || Finished(s.status) ==> sid in ix.pairs
    requires s.status == AwaitingPayment ==> s.paymentRequired
    requires s.flagReturn == if s.status == FlagReview && sid in ix.pairs then Some(Scoring) else None
    requires Ready(s.status, sid in ix.pairs) && s.paymentRequired ==> sid in ix.paidBy
    ensures Around(db.(submissions := db.submissions[sid := s]), ix)
  {
    hide Standing, Marking, Crediting, Charging, Accounting, Owned, Administered, Traced, Current, Ready,
         Advances, Ordinary;
    var was := db.submissions[sid];
    OrdinaryMeans(was, s, sid in ix.pairs);
    RowStanding(db.submissions, ix.pairs, sid, s);
    RowMarking(db.submissions, db.assignments, sid, s);
    RowCrediting(db.submissions, db.credits, ix.credit, ix.pairs, sid, s);
    RowCharging(db.submissions, db.payments, db.waivers, ix.pairs, ix.paidBy, sid, s);
    RowOwned(db.users, db.submissions, db.assignments, sid, s);
    RowCurrent(db.submissions, sid, s);
  }

  // ---------------------------------------------------------------------
  // One assignment row changes
  // ---------------------------------------------------------------------

  /** Same place, same origin. */
  predicate SamePlace(a: Assignment, b: Assignment) {
    a.submission == b.submission && a.slot == b.slot && a.firstExaminer == b.firstExaminer
  }

  /** The pair of `sid` once `aid` reads `x`. */
  ghost predicate FitsPair(s: Submission, sid: SubmissionId, assignments: Assignments, pair: Pair, aid: AssignmentId,
                           x: Assignment)
    requires pair.0 in assignments && pair.1 in assignments
  {
    GoodPair(s, sid, if aid == pair.0 then x else assignments[pair.0], if aid == pair.1 then x else assignments[pair.1])
  }

  lemma WorkPaired(submissions: Submissions, assignments: Assignments, pairs: map<SubmissionId, Pair>,
                   aid: AssignmentId, x: Assignment, s: Submission)
    requires Paired(submissions, assignments, pairs) && Placed(assignments, pairs)
    requires aid in assignments && SamePlace(assignments[aid], x)
    requires FitsPair(s, x.submission, assignments, pairs[x.submission], aid, x)
    ensures Paired(submissions[x.submission := s], assignments[aid := x], pairs)
    ensures Placed(assignments[aid := x], pairs)
  {
    var next, sid := assignments[aid := x], x.submission;
    forall t | t in pairs
      ensures t in submissions[sid := s] && pairs[t].0 in next && pairs[t].1 in next && pairs[t].0 != pairs[t].1
      ensures GoodPair(submissions[sid := s][t], t, next[pairs[t].0], next[pairs[t].1])
    {
      if t != sid {
        assert assignments[pairs[t].0].submission == t && assignments[pairs[t].1].submission == t;
      }
    }
  }

  lemma WorkMarking(submissions: Submissions, assignments: Assignments, aid: AssignmentId, x: Assignment)
    requires Marking(submissions, assignments) && aid in assignments && SamePlace(assignments[aid], x)
    requires GoodScores(x, submissions[x.submission].system)
    ensures Marking(submissions, assignments[aid := x])
  {
    hide GoodScores;
  }

  lemma WorkOwned(users: Users, submissions: Submissions, assignments: Assignments, aid: AssignmentId, x: Assignment)
    requires Owned(users, submissions, assignments) && aid in assignments
    requires x.submission in submissions
    requires x.status != Completed && submissions[x.submission].status != Voided ==> Capable(users, x.examiner)
    ensures Owned(users, submissions, assignments[aid := x])
  {
  }

  lemma WorkTraced(assignments: Assignments, moves: seq<Move>, aid: AssignmentId, x: Assignment)
    requires Traced(assignments, moves) && aid in assignments
    requires x.firstExaminer == assignments[aid].firstExaminer && x.examiner == assignments[aid].examiner
    ensures Traced(assignments[aid := x], moves)
  {
    hide OwnerAfter;
  }

  // ---------------------------------------------------------------------
  // Flags
  // ---------------------------------------------------------------------

  lemma FlagAdded(flags: Flags, f: FlagId, sid: SubmissionId)
    requires f !in flags
    ensures forall t :: HasOpenFlag(flags[f := Flag(sid, None)], t) == (t == sid || HasOpenFlag(flags, t))
  {
    var next := flags[f := Flag(sid, None)];
    forall t
      ensures HasOpenFlag(next, t) == (t == sid || HasOpenFlag(flags, t))
    {
      assert OpenOn(next, f, sid);
      if HasOpenFlag(flags, t) {
        var g :| g in flags && OpenOn(flags, g, t);
        assert OpenOn(next, g, t);
      }
      if HasOpenFlag(next, t) && t != sid {
        var g :| g in next && OpenOn(next, g, t);
        assert OpenOn(flags, g, t);
      }
    }
  }

  /** Resolving flags of `sid` leaves the others alone. */
  lemma FlagsResolved(flags: Flags, next: Flags, sid: SubmissionId)
    requires next.Keys == flags.Keys
    requires forall f :: f in flags ==> next[f].submission == flags[f].submission
    requires forall f :: f in flags && flags[f].submission != sid ==> next[f] == flags[f]
    ensures forall t :: t != sid ==> HasOpenFlag(next, t) == HasOpenFlag(flags, t)
  {
    forall t | t != sid
      ensures HasOpenFlag(next, t) == HasOpenFlag(flags, t)
    {
      assert forall f :: f in flags ==> OpenOn(next, f, t) == OpenOn(flags, f, t);
    }
  }

  /** Flags matter to nothing but the flag conjunct. */
  lemma FlagsAround(db: Db, ix: Index, flags: Flags)
    requires Around(db, ix)
    ensures Around(db.(flags := flags), ix)
  {
    hide Standing, Marking, Crediting, Charging, Accounting, Owned, Administered, Traced, Current;
  }

  // ---------------------------------------------------------------------
  // Submissions outside any pair
  // ---------------------------------------------------------------------

  /** What the invariant says about one Submission. */
  lemma AtSubmission(db: Db, ix: Index, sid: SubmissionId)
    requires Inv(db, ix) && sid in db.submissions
    ensures var s := db.submissions[sid];
            && (sid in ix.pairs ==>
                s.retention == Retained && s.status in {Scoring, Scored, Certified, FlagReview, Voided})
            && (s.status == Scoring || Finished(s.status) ==> sid in ix.pairs)
            && (s.status == AwaitingPayment ==> s.paymentRequired)
            && s.flagReturn == (if s.status == FlagReview && sid in ix.pairs then Some(Scoring) else None)
            && (s.status != InProgress && s.status != Abandoned ==>
              (HasOpenFlag(db.flags, sid) <==> s.status == FlagReview))
            && (s.retention != Retained ==>
                s.status == InProgress || s.status == Abandoned || s.status == AwaitingPayment)
            && (Ready(s.status, sid in ix.pairs) && s.paymentRequired ==> sid in ix.paidBy)
  {
    hide Placed, Marking, Crediting, Accounting, Owned, Administered, Traced, HasOpenFlag;
  }

  /** A row without assignments changes. */
  lemma FreeRowKeeps(db: Db, ix: Index, sid: SubmissionId, s: Submission)
    requires Inv(db, ix) && sid in db.submissions && sid !in ix.pairs
    requires Advances(db.submissions[sid], s, false) && Ordinary(db.submissions[sid], s)
    requires s.status != Scoring && !Finished(s.status) && s.flagReturn == None
    requires s.status == AwaitingPayment ==> s.paymentRequired
    requires s.status == InProgress || s.status == Abandoned || (HasOpenFlag(db.flags, sid) <==> s.status == FlagReview)
    requires Ready(s.status, false) && s.paymentRequired ==> sid in ix.paidBy
    ensures Inv(db.(submissions := db.submissions[sid := s]), ix)
  {
    hide Paired, Placed, Flagging, Around, HasOpenFlag, Advances, Ordinary, Ready;
    RowPaired(db.submissions, db.assignments, ix.pairs, sid, s);
    StatusFlagging(db.submissions, db.flags, sid, s);
    RowAround(db, ix, sid, s);
  }
}
