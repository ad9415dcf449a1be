/** What every transaction of the lifecycle services keeps true of the tables. */
module LifecycleInvariant {
  import opened Options
  import opened Records
  import opened ExaminerRules

  type Users = map<UserId, User>
  type Submissions = map<SubmissionId, Submission>
  type Flags = map<FlagId, Flag>
  type Payments = map<PaymentId, Payment>
  type Assignments = map<AssignmentId, Assignment>
  type Pair = (AssignmentId, AssignmentId)

  /**
   * Where to find what the invariant says exists: a staffed Submission's two
   * assignments, a voided one's retake credit, and the attempt that paid for one.
   */
  datatype Index = Index(
    pairs: map<SubmissionId, Pair>, credit: map<SubmissionId, nat>, paidBy: map<SubmissionId, PaymentId>)

  // ---------------------------------------------------------------------
  // Assignment sets
  // ---------------------------------------------------------------------

  predicate Finished(status: Status) {
    status == Scored || status == Certified
  }

  /** Slots 1 and 2, two examiners, neither of them the student; scoring is over exactly when both completed. */
  ghost predicate GoodPair(s: Submission, sid: SubmissionId, a: Assignment, b: Assignment) {
    && a.submission == sid && b.submission == sid && a.slot == 1 && b.slot == 2
    && a.examiner != b.examiner && a.examiner != s.student && b.examiner != s.student
    && s.retention == Retained && ReadableStatus(s.status)
    && (Finished(s.status) <==> a.status == Completed && b.status == Completed)
  }

  /** Every listed pair is there and good. */
  ghost predicate Paired(submissions: Submissions, assignments: Assignments, pairs: map<SubmissionId, Pair>) {
    forall s :: s in pairs ==>
      && s in submissions && pairs[s].0 in assignments && pairs[s].1 in assignments && pairs[s].0 != pairs[s].1
      && GoodPair(submissions[s], s, assignments[pairs[s].0], assignments[pairs[s].1])
  }

  /** No assignment outside a pair. */
  ghost predicate Placed(assignments: Assignments, pairs: map<SubmissionId, Pair>) {
    forall a :: a in assignments ==>
      var s := assignments[a].submission;
      s in pairs && (a == pairs[s].0 || a == pairs[s].1)
  }

  /** Scoring needs a pair, what awaits payment owes it, and only a paused pair has somewhere to return to. */
  ghost predicate Standing(submissions: Submissions, pairs: map<SubmissionId, Pair>) {
    forall s :: s in submissions ==>
      && (submissions[s].status == Scoring || Finished(submissions[s].status) ==> s in pairs)
      && (submissions[s].status == AwaitingPayment ==> submissions[s].paymentRequired)
      && submissions[s].flagReturn
         == if submissions[s].status == FlagReview && s in pairs then Some(Scoring) else None
  }

  /** An untouched assignment has no score, a completed one exactly one, and every score is valid. */
  predicate GoodScores(a: Assignment, system: ScoringSystem) {
    && (a.status == Assigned ==> a.scores == [])
    && (a.status == Completed ==> a.scores != [])
    && (a.scores != [] ==> |a.scores| == 1 && ValidScore(a.scores[0], system))
  }

  ghost predicate Marking(submissions: Submissions, assignments: Assignments) {
    forall a :: a in assignments ==>
      assignments[a].submission in submissions
      && GoodScores(assignments[a], submissions[assignments[a].submission].system)
  }

  // ---------------------------------------------------------------------
  // Flags, credits, money
  // ---------------------------------------------------------------------

  /** Past recording, a Submission has an open flag exactly while it is in flag review. */
  ghost predicate Flagging(submissions: Submissions, flags: Flags) {
    && (forall f :: f in flags ==> flags[f].submission in submissions)
    && (forall s :: s in submissions && submissions[s].status != InProgress && submissions[s].status != Abandoned ==>
          (HasOpenFlag(flags, s) <==> submissions[s].status == FlagReview))
  }

  /** Cleared for assignment, by payment or without it. */
  predicate Ready(status: Status, staffed: bool) {
    staffed || status == Paid || status == Scoring || Finished(status)
  }

  ghost predicate Crediting(submissions: Submissions, credits: seq<Credit>, index: map<SubmissionId, nat>,
                            pairs: map<SubmissionId, Pair>) {
    && (forall s :: s in index <==> s in submissions && submissions[s].status == Voided)
    && (forall s :: s in index ==> index[s] < |credits| && credits[index[s]].voided == s)
    && (forall i :: 0 <= i < |credits| ==>
          var c := credits[i];
          && c.voided in index && index[c.voided] == i && c.student == submissions[c.voided].student
          && (c.redeemed.Some? ==> Redeems(submissions, pairs, c.student, c.redeemed.value)))
    && (forall i, j :: 0 <= i < j < |credits| && credits[i].redeemed.Some? ==>
      credits[i].redeemed != credits[j].redeemed)
    && (forall i, j :: 0 <= j <= i < |credits| ==> credits[i].redeemed != Some(credits[j].voided))
  }

  /** A credit is redeemed by a cleared Submission of its own student, which then owes nothing. */
  ghost predicate Redeems(submissions: Submissions, pairs: map<SubmissionId, Pair>, student: UserId, r: SubmissionId) {
    && r in submissions && submissions[r].student == student && !submissions[r].paymentRequired
    && Ready(submissions[r].status, r in pairs)
  }

  /** Nothing is cleared unpaid, and only what was sent to payment, or past it, has payments. */
  ghost predicate Charging(submissions: Submissions, payments: Payments, waivers: set<SubmissionId>,
                           pairs: map<SubmissionId, Pair>, paidBy: map<SubmissionId, PaymentId>) {
    && (forall s :: s in submissions && Ready(submissions[s].status, s in pairs) && submissions[s].paymentRequired ==>
        s in paidBy)
    && (forall s :: s in paidBy ==>
          && paidBy[s] in payments && payments[paidBy[s]].submission == s && payments[paidBy[s]].wasPaid
          && s in submissions && Ready(submissions[s].status, s in pairs))
    && (forall p :: p in payments ==>
          var s := payments[p].submission;
          s in submissions
          && ((submissions[s].status == AwaitingPayment && !payments[p].wasPaid)
              || Ready(submissions[s].status, s in pairs)))
    && (forall s :: s in waivers ==>
          s in submissions && !submissions[s].paymentRequired && Ready(submissions[s].status, s in pairs))
  }

  ghost predicate Accounting(payments: Payments) {
    && (forall p :: p in payments ==>
          && (payments[p].status == Succeeded ==> payments[p].wasPaid)
          && (payments[p].wasPaid ==> payments[p].session.Some? && payments[p].transaction.Some?))
    && (forall p, q :: p in payments && q in payments && p != q ==>
          && (payments[p].session.Some? ==> payments[p].session != payments[q].session)
          && (payments[p].transaction.Some? ==> payments[p].transaction != payments[q].transaction))
  }

  // ---------------------------------------------------------------------
  // People and history
  // ---------------------------------------------------------------------

  /** An active account that may score. */
  predicate Capable(users: Users, u: UserId) {
    u in users && !users[u].deleted && users[u].role != Student
  }

  ghost predicate Owned(users: Users, submissions: Submissions, assignments: Assignments) {
    forall a :: a in assignments && assignments[a].status != Completed ==>
      assignments[a].submission in submissions
      && (submissions[assignments[a].submission].status != Voided ==> Capable(users, assignments[a].examiner))
  }

  ghost predicate Administered(users: Users) {
    exists u :: ActiveAdmin(users, u)
  }

  /** The owner of `a` after the history, if every line continues from the previous owner. */
  function OwnerAfter(moves: seq<Move>, a: AssignmentId, first: UserId): Option<UserId> {
    if moves == [] then Some(first)
    else
      var before, last := OwnerAfter(moves[..|moves| - 1], a, first), moves[|moves| - 1];
      if last.assignment != a then before else if before == Some(last.from) then Some(last.to) else None
  }

  ghost predicate Traced(assignments: Assignments, moves: seq<Move>) {
    && (forall a :: a in assignments ==>
          OwnerAfter(moves, a, assignments[a].firstExaminer) == Some(assignments[a].examiner))
    && (forall i :: 0 <= i < |moves| ==> moves[i].assignment in assignments)
  }

  predicate Unfinished(s: Submission) {
    s.status == InProgress && s.retention != Purged
  }

  /** One unfinished attempt per student, and only unrouted or unpaid work leaves the retained state. */
  ghost predicate Current(submissions: Submissions) {
    && (forall s, t :: s in submissions && t in submissions && s != t ==>
          !(Unfinished(submissions[s]) && Unfinished(submissions[t])
            && submissions[s].student == submissions[t].student))
    && (forall s :: s in submissions && submissions[s].retention != Retained ==>
          submissions[s].status == InProgress || submissions[s].status == Abandoned
          || submissions[s].status == AwaitingPayment)
  }

  ghost predicate Inv(db: Db, ix: Index) {
    && Paired(db.submissions, db.assignments, ix.pairs)
    && Placed(db.assignments, ix.pairs)
    && Flagging(db.submissions, db.flags)
    && Around(db, ix)
  }

  /** Everything but the pairs and the flags. */
  ghost predicate Around(db: Db, ix: Index) {
    && Standing(db.submissions, ix.pairs)
    && Marking(db.submissions, db.assignments)
    && Crediting(db.submissions, db.credits, ix.credit, ix.pairs)
    && Charging(db.submissions, db.payments, db.waivers, ix.pairs, ix.paidBy)
    && Accounting(db.payments)
    && Owned(db.users, db.submissions, db.assignments)
    && Administered(db.users)
    && Traced(db.assignments, db.moves)
    && Current(db.submissions)
  }
}
