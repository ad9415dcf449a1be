/** What each refusal of a lifecycle transaction says about the tables. */
module Refusals {
  import opened Options
  import opened Records
  import opened LifecycleInvariant
  import opened Lifecycle
  import opened LifecycleSafety
  import opened SubmissionEffects
  import opened PaymentEffects
  import opened ExaminerEffects
  import opened AccountEffects
  import ExaminerRules
  import FlagRules
  import PaymentRules
  import SubmissionRules
  import AccountRules

  predicate Exists(db: Db, sid: SubmissionId) {
    sid in db.submissions && db.submissions[sid].retention != Purged
  }

  /** The Submission of an assignment. */
  function SubmissionOf(db: Db, aid: AssignmentId): Option<SubmissionId> {
    if aid in db.assignments then Some(db.assignments[aid].submission) else None
  }

  /** The Submission of an assignment is withdrawn or gone. */
  predicate Withdrawn(db: Db, aid: AssignmentId) {
    aid in db.assignments && !IsRetained(db.submissions, db.assignments[aid].submission)
  }

  predicate Paused(db: Db, aid: AssignmentId) {
    aid in db.assignments
    && (StatusAround(db, aid) == Some(FlagReview) || HasOpenFlag(db.flags, db.assignments[aid].submission))
  }

  /** Why the submission service refuses, by the error it answers. */
  predicate SubmissionReason(db: Db, e: Event, error: Error) {
    match e
    case Register(uid) => error == UniqueViolation && uid in db.users
    case StartAssessment(student, sid, stale, _) =>
      || (error == ActiveSubmission && stale.Some? && !Recording(db, stale.value, student))
      || (error == UniqueViolation
          && (student !in db.users || sid in db.submissions
              || exists s :: s in db.submissions && Some(s) != stale && db.submissions[s].student == student
                             && Unfinished(db.submissions[s])))
    case Abandon(sid, uid) =>
      || (error == NotFound && !Exists(db, sid))
      || (error == Unauthorized && Exists(db, sid) && !OwnedBy(db.submissions, sid, uid))
      || (error == InvalidLifecycle && Exists(db, sid) && OwnedBy(db.submissions, sid, uid)
          && (!IsRetained(db.submissions, sid) || StatusOf(db, sid) !in {Some(InProgress), Some(Abandoned)}))
    case Heartbeat(sid, uid, _) => error == InvalidLifecycle && !Recording(db, sid, uid)
    case Complete(sid, uid, evidence, _, _) =>
      || (error == NotFound && !Exists(db, sid))
      || (error == Unauthorized && Exists(db, sid) && !OwnedBy(db.submissions, sid, uid))
      || (error == InvalidLifecycle && Exists(db, sid) && OwnedBy(db.submissions, sid, uid)
          && (!IsRetained(db.submissions, sid) || StatusOf(db, sid) == Some(Abandoned)))
      || (error == ValidationFailed && Recording(db, sid, uid) && !evidence)
    case QuarantineSubmission(sid) =>
      error == NotPurgeable && !(HeldAs(db, sid, Retained) && Disposable(db, sid))
    case RecoverSubmission(sid) => error == NotPurgeable && !HeldAs(db, sid, Quarantined)
    case PurgeSubmission(sid) =>
      error == NotPurgeable
      && (!HeldAs(db, sid, Quarantined) || !SubmissionRules.OnlyDeadPayments(db.payments, sid)
          || SetOf(db.assignments, sid) != {} || SubmissionRules.Referenced(db, sid))
    case _ => false
  }

  /** Why the flag service refuses. */
  predicate FlagReason(db: Db, e: Event, error: Error) {
    match e
    case RaiseDeviceFlag(sid, uid, _, entryKnown) =>
      || (error == NotFound && !(IsRetained(db.submissions, sid) && OwnedBy(db.submissions, sid, uid)))
      || (error == InvalidLifecycle && OwnedBy(db.submissions, sid, uid) && StatusOf(db, sid) != Some(InProgress))
      || (error == ValidationFailed && Recording(db, sid, uid) && !entryKnown)
    case RaiseIntegrityConcern(aid, uid, _, answerKnown) =>
      || (error == NotFound && (aid !in db.assignments || Withdrawn(db, aid)))
      || (error == Unauthorized && aid in db.assignments && !AssignedTo(db.assignments, aid, uid))
      || (error == InvalidLifecycle && AssignedTo(db.assignments, aid, uid)
          && (HasWork(db.assignments, aid, Completed) || StatusAround(db, aid) !in {Some(Scoring), Some(FlagReview)}))
      || (error == ValidationFailed && AssignedTo(db.assignments, aid, uid) && !answerKnown)
    case ConfirmFlag(fid, admin) => ResolveReason(db, fid, admin, error)
    case DismissFlag(fid, admin, _, _) => ResolveReason(db, fid, admin, error)
    case _ => false
  }

  predicate ResolveReason(db: Db, fid: FlagId, admin: UserId, error: Error) {
    || (error == Unauthorized && !ActiveAdmin(db.users, admin))
    || (ActiveAdmin(db.users, admin)
        && (|| (error == NotFound && (fid !in db.flags || db.flags[fid].submission !in db.submissions))
            || (error == AlreadyResolved && fid in db.flags && db.flags[fid].resolution.Some?)
            || (error == InvalidLifecycle && fid in db.flags && db.flags[fid].resolution.None?
                && (!IsRetained(db.submissions, db.flags[fid].submission)
                    || StatusOf(db, db.flags[fid].submission) != Some(FlagReview)))))
  }

  /** Why the payment service refuses. */
  predicate PaymentReason(db: Db, e: Event, error: Error) {
    match e
    case OpenCheckout(sid, uid, _) =>
      || (error == NotFound && !IsRetained(db.submissions, sid))
      || (error == Unauthorized && IsRetained(db.submissions, sid) && !OwnedBy(db.submissions, sid, uid))
      || (error == InvalidLifecycle && IsRetained(db.submissions, sid) && OwnedBy(db.submissions, sid, uid)
          && !(StatusOf(db, sid) == Some(AwaitingPayment) && db.submissions[sid].paymentRequired))
    case RecordSession(pid, session) =>
      error == UniqueViolation && InPlay(db, pid) && SessionElsewhere(db, pid, session)
    case NotifyPaid(pid, session, transaction) =>
      || (error == NotFound && !InPlay(db, pid))
      || (error == PaymentMismatch && InPlay(db, pid)
          && if db.payments[pid].status in {Pending, Failed}
             then SessionElsewhere(db, pid, session) || TransactionElsewhere(db, pid, transaction)
             else !(db.payments[pid].status == Succeeded && db.payments[pid].session == Some(session)
                    && db.payments[pid].transaction == Some(transaction)))
    case Waive(sid, admin) =>
      || (error == Unauthorized && !ActiveAdmin(db.users, admin))
      || (ActiveAdmin(db.users, admin)
          && (|| (error == NotFound && !IsRetained(db.submissions, sid))
              || (error == InvalidLifecycle && IsRetained(db.submissions, sid)
                  && StatusOf(db, sid) != Some(AwaitingPayment))
              || (error == UniqueViolation && sid in db.waivers)))
    case _ => false
  }

  /** Why set creation, scoring and reassignment are refused, apart from damaged data. */
  predicate ExaminerReason(db: Db, e: Event, error: Error) {
    match e
    case CreateAssignmentSet(sid, first, second, _, _) =>
      || (error == NotFound && !Exists(db, sid))
      || (error == NotAssignmentReady && Exists(db, sid)
          && !(IsRetained(db.submissions, sid) && StatusOf(db, sid) == Some(Paid) && !HasOpenFlag(db.flags, sid)))
      || (error == InsufficientCapacity && Exists(db, sid)
          && (|ExaminerRules.Eligible(db.users, db.submissions[sid].student)| < 2
              || !ActiveExaminer(db.users, first) || !ActiveExaminer(db.users, second)))
      || (error == InvariantViolation
          && (first == second || OwnedBy(db.submissions, sid, first) || OwnedBy(db.submissions, sid, second)))
    case StartScoring(aid, uid) =>
      || (error == NotFound && !ExaminerRules.Present(db, aid))
      || (error == Unauthorized && aid in db.assignments && !AssignedTo(db.assignments, aid, uid))
      || (error == OpenFlag && AssignedTo(db.assignments, aid, uid) && Paused(db, aid))
      || (error == InvalidLifecycle && aid in db.assignments
          && (Withdrawn(db, aid) || StatusAround(db, aid) == Some(Voided) || !HasWork(db.assignments, aid, Assigned)))
    case SaveScore(aid, uid, score) =>
      || (error == NotFound && !ExaminerRules.Present(db, aid))
      || (error == Unauthorized && aid in db.assignments && !AssignedTo(db.assignments, aid, uid))
      || (error == InvalidLifecycle && (Withdrawn(db, aid) || StatusAround(db, aid) == Some(Voided)))
      || (error == OpenFlag && AssignedTo(db.assignments, aid, uid) && Paused(db, aid))
      || (error == DraftFrozen && AssignedTo(db.assignments, aid, uid) && HasWork(db.assignments, aid, Completed))
      || (error == ScoreInvalid && AssignedTo(db.assignments, aid, uid) && ExaminerRules.Present(db, aid)
          && !ExaminerRules.ValidScore(score, db.submissions[db.assignments[aid].submission].system))
    case CompleteScoring(aid, uid) =>
      || (error == NotFound && !ExaminerRules.Present(db, aid))
      || (error == Unauthorized && aid in db.assignments && !AssignedTo(db.assignments, aid, uid))
      || (error == InvalidLifecycle && aid in db.assignments
          && (Withdrawn(db, aid) || StatusAround(db, aid) !in {Some(Scoring), Some(Scored), Some(Certified)}))
      || (error == OpenFlag && AssignedTo(db.assignments, aid, uid)
          && (Paused(db, aid) || StatusAround(db, aid) == Some(Voided)))
      || (error == ScoreMissing && AssignedTo(db.assignments, aid, uid) && db.assignments[aid].scores == [])
    case Reassign(aid, admin, examiner, _) =>
      || (error == NotFound && (!ExaminerRules.Present(db, aid) || Withdrawn(db, aid)))
      || (error == Unauthorized && !ActiveAdmin(db.users, admin))
      || (error == NotReassignable && ActiveAdmin(db.users, admin) && aid in db.assignments
          && !AssignedTo(db.assignments, aid, examiner)
          && (StatusAround(db, aid) !in {Some(Scoring), Some(FlagReview)}
              || !HasWork(db.assignments, aid, Assigned) || db.assignments[aid].scores != []))
      || (error == InvalidExaminer && ActiveAdmin(db.users, admin) && aid in db.assignments
          && !AssignedTo(db.assignments, aid, examiner)
          && !MayTakeOver(db, aid, examiner))
    case _ => false
  }

  /** Why an account transition is refused. */
  ghost predicate TransitionReason(db: Db, e: Event, error: Error)
    requires e.Transition?
  {
    var users, request := db.users, e.request;
    var done := e.target in users && if request.Deactivate? then users[e.target].deleted
                                     else !users[e.target].deleted && users[e.target].role == request.role;
    match error
    case SelfRoleChange => request.ToRole? && e.target == e.actor
    case Unauthorized => !ActiveAdmin(users, e.actor)
    case UserNotFound => e.target !in users || (users[e.target].deleted && request.ToRole?)
    case LastActiveAdmin =>
      request.Deactivate? && e.actor == e.target && ActiveAdmin(users, e.target) && !OtherAdmin(users, e.target)
    case WorkInProgress => exists a :: a in db.assignments && OpenWork(db, a, e.target)
                                       && HasWork(db.assignments, a, Started)
    case InvalidReassignment =>
      || !OneEach(e.m)
      || (done && e.m != map[] && NeverMoved(db.moves, e.target, AccountRules.ReasonOf(request), e.m))
      || (RealChange(users, e.target, e.actor, request) && !HandsOverAll(db, e.target, request, e.m))
    case ReassignmentConflict =>
      && done && e.m != map[] && !StillCommitted(db, e.target, AccountRules.ReasonOf(request), e.m)
      && !NeverMoved(db.moves, e.target, AccountRules.ReasonOf(request), e.m)
    case _ => false
  }

  ghost predicate Reason(db: Db, e: Event, error: Error) {
    || (error == UniqueViolation && !Fresh(db, e))
    || SubmissionReason(db, e, error)
    || FlagReason(db, e, error)
    || PaymentReason(db, e, error)
    || ExaminerReason(db, e, error)
    || (e.Transition? && TransitionReason(db, e, error))
  }

  predicate OfSubmissionService(e: Event) {
    e.Register? || e.StartAssessment? || e.Abandon? || e.Heartbeat? || e.Sweep? || e.Complete?
    || e.QuarantineSubmission? || e.RecoverSubmission? || e.PurgeSubmission?
  }

  predicate OfFlagService(e: Event) {
    e.RaiseDeviceFlag? || e.RaiseIntegrityConcern? || e.ConfirmFlag? || e.DismissFlag?
  }

  predicate OfPaymentService(e: Event) {
    e.OpenCheckout? || e.RejectCheckout? || e.RecordSession? || e.NotifyFailed? || e.NotifyPaid? || e.Waive?
  }

  lemma SubmissionRefusals(db: Db, e: Event)
    requires OfSubmissionService(e) && Apply(db, e).1.Rejected?
    ensures Apply(db, e).0 == db && SubmissionReason(db, e, Apply(db, e).1.error)
  {
    hide HasOpenFlag, SetOf, FlagRules.OldestCredit, SubmissionRules.HasActive, SubmissionRules.OnlyDeadPayments,
         SubmissionRules.Referenced, Disposable;
    match e
    case StartAssessment(student, sid, stale, now) => StartAccepted(db, student, sid, stale, now);
    case QuarantineSubmission(sid) => RetentionWrites(db, sid);
    case _ =>
  }

  lemma FlagRefusals(db: Db, e: Event)
    requires OfFlagService(e) && Apply(db, e).1.Rejected? && Fresh(db, e)
    ensures Apply(db, e).0 == db && FlagReason(db, e, Apply(db, e).1.error)
  {
    hide HasOpenFlag, FlagRules.OldestCredit;
  }

  lemma PaymentRefusals(db: Db, e: Event)
    requires OfPaymentService(e) && Apply(db, e).1.Rejected? && Fresh(db, e)
    ensures Apply(db, e).0 == db && PaymentReason(db, e, Apply(db, e).1.error)
  {
    hide SessionElsewhere, TransactionElsewhere, PaymentRules.SessionTaken, PaymentRules.TransactionTaken;
    match e
    case NotifyPaid(pid, session, transaction) => NotificationsWrite(db, pid, session, transaction);
    case RecordSession(pid, session) => CheckoutAnswersWrite(db, pid, session);
    case _ =>
  }

  lemma CreationRefusals(db: Db, e: Event)
    requires Consistent(db) && e.CreateAssignmentSet? && Apply(db, e).1.Rejected? && Fresh(db, e)
    ensures Apply(db, e).0 == db && ExaminerReason(db, e, Apply(db, e).1.error)
  {
    hide Inv, HasOpenFlag, SetOf, TwoDistinct, ExaminerRules.Eligible;
    CreationAccepted(db, e.sid, e.first, e.second, e.a1, e.a2);
    assert Apply(db, e).1.error == InvariantViolation ==> SetOf(db.assignments, e.sid) == {};
  }

  lemma ScoringRefusals(db: Db, e: Event)
    requires (e.StartScoring? || e.SaveScore?) && Apply(db, e).1.Rejected?
    ensures Apply(db, e).0 == db && ExaminerReason(db, e, Apply(db, e).1.error)
  {
    hide HasOpenFlag, ExaminerRules.ValidScore;
  }

  lemma CompletionRefusals(db: Db, e: Event)
    requires Consistent(db) && e.CompleteScoring? && Apply(db, e).1.Rejected?
    ensures Apply(db, e).0 == db && ExaminerReason(db, e, Apply(db, e).1.error)
  {
    hide Inv, HasOpenFlag, SetOf, ValidSet, ExaminerRules.ValidScore, ExaminerRules.AllCompleted;
    var ix :| Inv(db, ix);
    CompletionIsConsistent(db, ix, e.aid, e.uid);
  }

  lemma ReassignmentRefusals(db: Db, e: Event)
    requires e.Reassign? && Apply(db, e).1.Rejected? && Fresh(db, e)
    ensures Apply(db, e).0 == db && ExaminerReason(db, e, Apply(db, e).1.error)
  {
    hide HasOpenFlag;
  }

  lemma TransitionRefusals(db: Db, e: Event)
    requires Consistent(db) && e.Transition? && Apply(db, e).1.Rejected? && Fresh(db, e)
    ensures Apply(db, e).0 == db && TransitionReason(db, e, Apply(db, e).1.error)
  {
    hide Inv, AccountRules.SetsValid, AccountRules.Replay, AccountRules.Lines, AccountRules.ActiveAdmins,
         AccountRules.Transferred, AccountRules.OpenAssignments, AccountRules.Replaces, HandsOverAll, OtherAdmin,
         StillCommitted, NeverMoved, OpenWork;
    RepeatAnswered(db, e.target, e.actor, e.request, e.m, e.tid);
    LastAdminStays(db, e.target, e.actor, e.request, e.m, e.tid);
    SetsStayValid(db, e.target);
    if RealChange(db.users, e.target, e.actor, e.request) { NoProblemMeans(db, e.target, e.m, e.request); }
    BegunWork(db, e.target);
    ReplayRefused(db, e.target, e.m, AccountRules.ReasonOf(e.request));
  }

  lemma BegunWork(db: Db, target: UserId)
    requires Consistent(db)
    ensures forall a :: a in AccountRules.OpenAssignments(db, target) ==> a in db.assignments && OpenWork(db, a, target)
    ensures forall a :: a in AccountRules.OpenAssignments(db, target) && db.assignments[a].scores != [] ==>
              db.assignments[a].status == Started
  {
    hide Inv, OpenWork;
    forall a | a in AccountRules.OpenAssignments(db, target)
      ensures OpenWork(db, a, target)
      ensures db.assignments[a].scores != [] ==> db.assignments[a].status == Started
    {
      OpenWorkMeans(db, a, target);
      UntouchedMeans(db, a, target);
    }
  }

  /**
   * Every refusal is true: a refused transaction writes nothing, and the error it answers states
   * something that holds of the tables. What is not listed is never refused, so in consistent
   * states no transaction reports damaged data.
   */
  lemma RefusalsAreTrue(db: Db, e: Event)
    requires Consistent(db) && Apply(db, e).1.Rejected?
    ensures Apply(db, e).0 == db
    ensures Reason(db, e, Apply(db, e).1.error)
  {
    hide Consistent, Apply, SubmissionReason, FlagReason, PaymentReason, ExaminerReason, TransitionReason;
    if !Fresh(db, e) {
      Clash(db, e);
    } else if OfSubmissionService(e) {
      SubmissionRefusals(db, e);
    } else if OfFlagService(e) {
      FlagRefusals(db, e);
    } else if OfPaymentService(e) {
      PaymentRefusals(db, e);
    } else if e.CreateAssignmentSet? {
      CreationRefusals(db, e);
    } else if e.Reassign? {
      ReassignmentRefusals(db, e);
    } else if e.Transition? {
      TransitionRefusals(db, e);
    } else if e.CompleteScoring? {
      CompletionRefusals(db, e);
    } else {
      ScoringRefusals(db, e);
    }
  }

  lemma Clash(db: Db, e: Event)
    requires !Fresh(db, e)
    ensures Apply(db, e) == (db, Rejected(UniqueViolation))
  {
  }
}
