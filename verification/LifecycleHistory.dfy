/** What can never be taken back: how any later state of a run relates to an earlier one. */
module LifecycleHistory {
  import opened Options
  import opened Records
  import opened LifecycleInvariant
  import opened LifecycleRows
  import opened AccountSteps
  import opened Lifecycle
  import ExaminerRules
  import FlagRules
  import PaymentRules
  import SubmissionRules
  import AccountRules

  // ---------------------------------------------------------------------
  // The relation
  // ---------------------------------------------------------------------

  /** How far a Submission has come; a paused Submission in scoring stays in scoring. */
  function Stage(s: Submission): nat {
    match s.status
    case InProgress => 0
    case FlagReview => if s.flagReturn.Some? then 4 else 1
    case AwaitingPayment => 2
    case Paid => 3
    case Scoring => 4
    case Scored => 5
    case Certified => 6
    case Voided => 7
    case Abandoned => 8
  }

  /** Never to an earlier stage, never out of an end, and abandoned only while recording. */
  predicate RowEvolves(before: Submission, after: Submission) {
    && after.student == before.student && after.system == before.system
    && Stage(before) <= Stage(after)
    && (before.status == Voided || before.status == Abandoned ==> after.status == before.status)
    && (after.status == Abandoned ==> before.status == InProgress || before.status == Abandoned)
    && (before.retention == Purged ==> after.retention == Purged)
  }

  ghost predicate SubmissionsEvolve(before: Submissions, after: Submissions) {
    forall s :: s in before ==> s in after && RowEvolves(before[s], after[s])
  }

  /** Its place never changes; once begun it keeps its owner, once completed everything. */
  predicate WorkEvolves(before: Assignment, after: Assignment) {
    && SamePlace(before, after)
    && (before.status != Assigned ==> after.status != Assigned && after.examiner == before.examiner)
    && (before.status == Completed ==> after == before)
  }

  ghost predicate AssignmentsEvolve(before: Assignments, after: Assignments) {
    forall a :: a in before ==> a in after && WorkEvolves(before[a], after[a])
  }

  ghost predicate FlagsEvolve(before: Flags, after: Flags) {
    forall f :: f in before ==>
      f in after && after[f].submission == before[f].submission
      && (before[f].resolution.Some? ==> after[f].resolution == before[f].resolution)
  }

  /** Credits are only added, and redeemed once. */
  ghost predicate CreditsEvolve(before: seq<Credit>, after: seq<Credit>) {
    && |before| <= |after|
    && forall i :: 0 <= i < |before| ==>
         && after[i].student == before[i].student && after[i].voided == before[i].voided
         && (before[i].redeemed.Some? ==> after[i].redeemed == before[i].redeemed)
  }

  /** A verified payment stays on record. */
  ghost predicate PaymentsEvolve(before: Payments, after: Payments) {
    forall p :: p in before && before[p].wasPaid ==>
      p in after && after[p].wasPaid && after[p].submission == before[p].submission
  }

  ghost predicate UsersEvolve(before: Users, after: Users) {
    forall u :: u in before ==> u in after && (before[u].deleted ==> after[u].deleted)
  }

  ghost predicate Evolves(before: Db, after: Db) {
    && SubmissionsEvolve(before.submissions, after.submissions)
    && AssignmentsEvolve(before.assignments, after.assignments)
    && FlagsEvolve(before.flags, after.flags)
    && CreditsEvolve(before.credits, after.credits)
    && PaymentsEvolve(before.payments, after.payments)
    && UsersEvolve(before.users, after.users)
    && before.waivers <= after.waivers
    && before.moves <= after.moves
  }

  lemma EvolvesTransitive(a: Db, b: Db, c: Db)
    requires Evolves(a, b) && Evolves(b, c)
    ensures Evolves(a, c)
  {
    hide RowEvolves, WorkEvolves;
    forall s | s in a.submissions
      ensures RowEvolves(a.submissions[s], c.submissions[s])
    {
      RowTransitive(a.submissions[s], b.submissions[s], c.submissions[s]);
    }
    forall x | x in a.assignments
      ensures WorkEvolves(a.assignments[x], c.assignments[x])
    {
      WorkTransitive(a.assignments[x], b.assignments[x], c.assignments[x]);
    }
  }

  lemma RowTransitive(a: Submission, b: Submission, c: Submission)
    requires RowEvolves(a, b) && RowEvolves(b, c)
    ensures RowEvolves(a, c)
  {
  }

  lemma WorkTransitive(a: Assignment, b: Assignment, c: Assignment)
    requires WorkEvolves(a, b) && WorkEvolves(b, c)
    ensures WorkEvolves(a, c)
  {
  }

  // ---------------------------------------------------------------------
  // One step
  // ---------------------------------------------------------------------

  /** The row of `sid` alone changes. */
  lemma RowStep(before: Submissions, sid: SubmissionId, s: Submission)
    requires sid in before ==> RowEvolves(before[sid], s)
    ensures SubmissionsEvolve(before, before[sid := s])
  {
  }

  lemma Unchanged(db: Db)
    ensures Evolves(db, db)
  {
  }

  lemma SubmissionServiceEvolves(db: Db, e: Event)
    requires e.Register? || e.StartAssessment? || e.Abandon? || e.Heartbeat? || e.Sweep?
          || e.QuarantineSubmission? || e.RecoverSubmission?
    ensures Evolves(db, Apply(db, e).0)
  {
    hide SubmissionRules.HasActive, SubmissionRules.OnlyDeadPayments, SetOf, AssignmentsEvolve, FlagsEvolve,
         CreditsEvolve, PaymentsEvolve;
    Unchanged(db);
  }

  /** Only retention changes, and no verified payment is lost. */
  lemma PurgeEvolves(db: Db, ix: Index, sid: SubmissionId)
    requires Inv(db, ix)
    ensures Evolves(db, SubmissionRules.PurgeSubmission(db, sid).0)
  {
    hide Inv, SubmissionRules.OnlyDeadPayments, SubmissionRules.Referenced, SetOf, AssignmentsEvolve,
         FlagsEvolve, CreditsEvolve, SubmissionsEvolve;
    Unchanged(db);
    if SubmissionRules.PurgeSubmission(db, sid).1 == Done {
      AtSubmission(db, ix, sid);
      PurgedUnpaid(db, ix, sid);
      RowStep(db.submissions, sid, db.submissions[sid].(retention := Purged));
    }
  }

  lemma PurgedUnpaid(db: Db, ix: Index, sid: SubmissionId)
    requires Inv(db, ix) && sid in db.submissions && db.submissions[sid].retention != Retained
    ensures forall p :: p in db.payments && db.payments[p].submission == sid ==> !db.payments[p].wasPaid
  {
    hide Placed, Flagging, Standing, Marking, Crediting, Accounting, Owned, Administered, Traced;
    AtSubmission(db, ix, sid);
  }

  lemma RouteEvolves(db: Db, sid: SubmissionId, paymentEnabled: bool, locked: set<nat>)
    requires sid in db.submissions && Stage(db.submissions[sid]) <= 1
    ensures Evolves(db, FlagRules.Route(db, sid, paymentEnabled, locked).0)
  {
    hide AssignmentsEvolve, FlagsEvolve, PaymentsEvolve, UsersEvolve;
    Unchanged(db);
  }

  lemma CompleteEvolves(db: Db, sid: SubmissionId, uid: UserId, evidenceComplete: bool, paymentEnabled: bool,
                        locked: set<nat>)
    ensures Evolves(db, SubmissionRules.Complete(db, sid, uid, evidenceComplete, paymentEnabled, locked).0)
  {
    hide AssignmentsEvolve, FlagsEvolve, PaymentsEvolve, UsersEvolve, CreditsEvolve, FlagRules.Route, HasOpenFlag;
    Unchanged(db);
    if sid in db.submissions && db.submissions[sid].status == InProgress {
      RouteEvolves(db, sid, paymentEnabled, locked);
    }
  }

  lemma RaiseEvolves(db: Db, e: Event)
    requires e.RaiseDeviceFlag? || e.RaiseIntegrityConcern?
    ensures Evolves(db, Apply(db, e).0)
  {
    hide AssignmentsEvolve, CreditsEvolve, PaymentsEvolve, UsersEvolve;
    Unchanged(db);
  }

  lemma ConfirmEvolves(db: Db, fid: FlagId, admin: UserId)
    ensures Evolves(db, FlagRules.ConfirmFlag(db, fid, admin).0)
  {
    hide AssignmentsEvolve, PaymentsEvolve, UsersEvolve, SubmissionsEvolve;
    Unchanged(db);
    if FlagRules.ResolveProblem(db, fid, admin) == None {
      var sid := db.flags[fid].submission;
      RowStep(db.submissions, sid, db.submissions[sid].(status := Voided, flagReturn := None));
    }
  }

  lemma DismissEvolves(db: Db, ix: Index, fid: FlagId, admin: UserId, paymentEnabled: bool, locked: set<nat>)
    requires Inv(db, ix)
    ensures Evolves(db, FlagRules.DismissFlag(db, fid, admin, paymentEnabled, locked).0)
  {
    hide Inv, AssignmentsEvolve, PaymentsEvolve, UsersEvolve, CreditsEvolve, SubmissionsEvolve,
         FlagRules.Route, HasOpenFlag;
    Unchanged(db);
    if FlagRules.ResolveProblem(db, fid, admin) == None {
      var sid := db.flags[fid].submission;
      var s := db.submissions[sid];
      AtSubmission(db, ix, sid);
      var dismissed := db.(flags := db.flags[fid := db.flags[fid].(resolution := Some(Dismissed))]);
      RowStep(db.submissions, sid, s.(status := Scoring, flagReturn := None));
      if s.flagReturn.None? {
        RouteEvolves(dismissed, sid, paymentEnabled, locked);
        EvolvesTransitive(db, dismissed, FlagRules.Route(dismissed, sid, paymentEnabled, locked).0);
      }
    }
  }

  lemma PaymentServiceEvolves(db: Db, e: Event)
    requires e.OpenCheckout? || e.RejectCheckout? || e.RecordSession? || e.NotifyFailed?
    ensures Evolves(db, Apply(db, e).0)
  {
    hide AssignmentsEvolve, FlagsEvolve, CreditsEvolve, UsersEvolve, SubmissionsEvolve, PaymentRules.SessionTaken;
    Unchanged(db);
  }

  lemma NotifyPaidEvolves(db: Db, pid: PaymentId, session: nat, transaction: nat)
    ensures Evolves(db, PaymentRules.NotifyPaid(db, pid, session, transaction).0)
  {
    hide SubmissionsEvolve, AssignmentsEvolve, FlagsEvolve, CreditsEvolve, UsersEvolve,
         PaymentRules.SessionTaken, PaymentRules.TransactionTaken;
    Unchanged(db);
    if pid in db.payments && db.payments[pid].submission in db.submissions {
      var sid := db.payments[pid].submission;
      if db.submissions[sid].status == AwaitingPayment {
        RowStep(db.submissions, sid, db.submissions[sid].(status := Paid));
      }
    }
  }

  lemma WaiveEvolves(db: Db, sid: SubmissionId, admin: UserId)
    ensures Evolves(db, PaymentRules.Waive(db, sid, admin).0)
  {
    hide SubmissionsEvolve, AssignmentsEvolve, FlagsEvolve, CreditsEvolve, UsersEvolve, PaymentsEvolve;
    Unchanged(db);
    if PaymentRules.Waive(db, sid, admin).1 == AssignNow {
      RowStep(db.submissions, sid, db.submissions[sid].(paymentRequired := false, status := Paid));
    }
  }

  lemma ExaminerServiceEvolves(db: Db, e: Event)
    requires e.StartScoring? || e.SaveScore? || e.Reassign?
    ensures Evolves(db, Apply(db, e).0)
  {
    hide SubmissionsEvolve, FlagsEvolve, CreditsEvolve, PaymentsEvolve, UsersEvolve, HasOpenFlag, SetOf,
         TwoDistinct, ExaminerRules.Eligible, ExaminerRules.ValidScore;
    Unchanged(db);
  }

  lemma CreateEvolves(db: Db, e: Event)
    requires e.CreateAssignmentSet?
    ensures Evolves(db, Apply(db, e).0)
  {
    hide FlagsEvolve, CreditsEvolve, PaymentsEvolve, UsersEvolve, HasOpenFlag, SetOf, TwoDistinct,
         ExaminerRules.Eligible;
    Unchanged(db);
  }

  lemma CompleteScoringEvolves(db: Db, aid: AssignmentId, uid: UserId)
    ensures Evolves(db, ExaminerRules.CompleteScoring(db, aid, uid).0)
  {
    hide FlagsEvolve, CreditsEvolve, PaymentsEvolve, UsersEvolve, HasOpenFlag, ValidSet, ExaminerRules.ValidScore;
    Unchanged(db);
  }

  lemma TransitionEvolves(db: Db, target: UserId, actor: UserId, request: AccountRules.Request, m: Transfers,
                          tid: TransitionId)
    ensures Evolves(db, AccountRules.Transition(db, target, actor, request, m, tid).0)
  {
    hide AssignmentsEvolve, FlagsEvolve, CreditsEvolve, PaymentsEvolve, SubmissionsEvolve, UsersEvolve,
         Transfer, AccountRules.SetsValid, AccountRules.Replay, AccountRules.Lines, AccountRules.Transferred,
         AccountRules.TransferProblem, AccountRules.DistinctValues, AccountRules.ActiveAdmins;
    Unchanged(db);
    if AccountRules.Transition(db, target, actor, request, m, tid).1.Updated? {
      AcceptedTransfer(db, target, m, request);
      TransferredUntouched(db, target, m, request);
      TransferEvolves(db, target, m);
      var user := db.users[target];
      AccountEvolves(db.users, target,
                     if request.Deactivate? then user.(deleted := true) else user.(role := request.role));
    }
  }

  lemma AccountEvolves(users: Users, target: UserId, user: User)
    requires target in users && (users[target].deleted ==> user.deleted)
    ensures UsersEvolve(users, users[target := user])
  {
  }

  lemma TransferredUntouched(db: Db, target: UserId, m: Transfers, request: AccountRules.Request)
    requires target in db.users && AccountRules.TransferProblem(db, target, m, request) == None
    ensures forall a :: a in m && a in db.assignments ==> db.assignments[a].status == Assigned
  {
    hide AccountRules.Replaces;
    forall a | a in m
      ensures a in db.assignments ==> db.assignments[a].status == Assigned
    {
      assert a in AccountRules.OpenAssignments(db, target) ==> AccountRules.OpenFor(db, a, target);
    }
  }

  lemma TransferEvolves(db: Db, target: UserId, m: Transfers)
    requires forall a :: a in m && a in db.assignments ==> db.assignments[a].status == Assigned
    ensures AssignmentsEvolve(db.assignments, AccountRules.Transferred(db.assignments, m))
  {
  }

  lemma StepEvolves(db: Db, ix: Index, e: Event)
    requires Inv(db, ix)
    ensures Evolves(db, Apply(db, e).0)
  {
    hide Inv, Evolves, SubmissionRules.Register, SubmissionRules.StartAssessment, SubmissionRules.Abandon,
         SubmissionRules.Heartbeat, SubmissionRules.Sweep, SubmissionRules.Complete,
         SubmissionRules.QuarantineSubmission, SubmissionRules.RecoverSubmission,
         SubmissionRules.PurgeSubmission, FlagRules.RaiseDeviceFlag, FlagRules.RaiseIntegrityConcern,
         FlagRules.ConfirmFlag, FlagRules.DismissFlag, PaymentRules.OpenCheckout, PaymentRules.RejectCheckout,
         PaymentRules.RecordSession, PaymentRules.NotifyFailed, PaymentRules.NotifyPaid, PaymentRules.Waive,
         ExaminerRules.CreateAssignmentSet, ExaminerRules.StartScoring, ExaminerRules.SaveScore,
         ExaminerRules.CompleteScoring, ExaminerRules.Reassign, AccountRules.Transition;
    Unchanged(db);
    if Fresh(db, e) {
      match e
      case Complete(sid, uid, evidence, enabled, locked) => CompleteEvolves(db, sid, uid, evidence, enabled, locked);
      case PurgeSubmission(sid) => PurgeEvolves(db, ix, sid);
      case RaiseDeviceFlag(_, _, _, _) => RaiseEvolves(db, e);
      case RaiseIntegrityConcern(_, _, _, _) => RaiseEvolves(db, e);
      case ConfirmFlag(fid, admin) => ConfirmEvolves(db, fid, admin);
      case DismissFlag(fid, admin, enabled, locked) => DismissEvolves(db, ix, fid, admin, enabled, locked);
      case CompleteScoring(aid, uid) => CompleteScoringEvolves(db, aid, uid);
      case Transition(target, actor, request, m, tid) => TransitionEvolves(db, target, actor, request, m, tid);
      case OpenCheckout(_, _, _) => PaymentServiceEvolves(db, e);
      case RejectCheckout(_) => PaymentServiceEvolves(db, e);
      case RecordSession(_, _) => PaymentServiceEvolves(db, e);
      case NotifyFailed(_) => PaymentServiceEvolves(db, e);
      case NotifyPaid(pid, session, transaction) => NotifyPaidEvolves(db, pid, session, transaction);
      case Waive(sid, admin) => WaiveEvolves(db, sid, admin);
      case CreateAssignmentSet(_, _, _, _, _) => CreateEvolves(db, e);
      case StartScoring(_, _) => ExaminerServiceEvolves(db, e);
      case SaveScore(_, _, _) => ExaminerServiceEvolves(db, e);
      case Reassign(_, _, _, _) => ExaminerServiceEvolves(db, e);
      case _ => SubmissionServiceEvolves(db, e);
    }
  }

  /** Whatever happens later in the run. */
  lemma {:induction false} RunEvolves(db: Db, events: seq<Event>)
    requires Consistent(db)
    ensures Evolves(db, Run(db, events))
    decreases |events|
  {
    hide Inv, Evolves, Apply;
    Unchanged(db);
    if events != [] {
      var ix :| Inv(db, ix);
      var next := Apply(db, events[0]).0;
      StepEvolves(db, ix, events[0]);
      StepConsistent(db, events[0]);
      RunEvolves(next, events[1..]);
      EvolvesTransitive(db, next, Run(db, events));
    }
  }

  /** A begun assignment keeps its owner for good, a completed one its score as well. */
  lemma ScoringIsFrozen(db: Db, events: seq<Event>, aid: AssignmentId)
    requires Consistent(db) && aid in db.assignments && db.assignments[aid].status != Assigned
    ensures aid in Run(db, events).assignments
    ensures var later := Run(db, events).assignments[aid];
            && later.examiner == db.assignments[aid].examiner && later.status != Assigned
            && (db.assignments[aid].status == Completed ==> later == db.assignments[aid])
  {
    hide Consistent, Run, SubmissionsEvolve, FlagsEvolve, CreditsEvolve, PaymentsEvolve, UsersEvolve;
    RunEvolves(db, events);
  }
}
