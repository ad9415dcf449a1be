/** Which steps write payments, and what they keep. */
module PaymentFrames {
  import opened Options
  import opened Records
  import opened LifecycleInvariant
  import opened Lifecycle
  import FlagRules
  import SubmissionRules
  import PaymentRules
  import ExaminerRules
  import AccountRules

  lemma SubmissionServiceUntouched(db: Db, e: Event)
    requires e.Register? || e.StartAssessment? || e.Abandon? || e.Heartbeat? || e.Sweep? || e.QuarantineSubmission?
          || e.RecoverSubmission? || e.Waive? || e.RaiseDeviceFlag? || e.RaiseIntegrityConcern? || e.ConfirmFlag?
    ensures Apply(db, e).0.payments == db.payments
  {
    hide SetOf, SubmissionRules.HasActive, SubmissionRules.OnlyDeadPayments;
  }

  lemma ExaminerServiceUntouched(db: Db, e: Event)
    requires e.CreateAssignmentSet? || e.StartScoring? || e.SaveScore? || e.CompleteScoring? || e.Reassign?
             || e.Transition?
    ensures Apply(db, e).0.payments == db.payments
  {
    hide SetOf, ValidSet, TwoDistinct, HasOpenFlag, ExaminerRules.ValidScore, ExaminerRules.Eligible,
         ExaminerRules.AllCompleted, AccountRules.SetsValid, AccountRules.Replay, AccountRules.Lines,
         AccountRules.TransferProblem, AccountRules.Transferred, AccountRules.DistinctValues,
         AccountRules.ActiveAdmins;
  }

  lemma RoutingUntouched(db: Db, e: Event)
    requires e.Complete? || e.DismissFlag?
    ensures Apply(db, e).0.payments == db.payments
  {
    hide FlagRules.Route, HasOpenFlag;
    match e
    case Complete(sid, _, _, enabled, locked) => if sid in db.submissions { RoutePayments(db, sid, enabled, locked); }
    case DismissFlag(fid, admin, enabled, locked) =>
      if FlagRules.ResolveProblem(db, fid, admin) == None {
        var dismissed := db.(flags := db.flags[fid := db.flags[fid].(resolution := Some(Dismissed))]);
        RoutePayments(dismissed, db.flags[fid].submission, enabled, locked);
      }
    case _ =>
  }

  /** Only the payment service and a purge write payments. */
  lemma PaymentsUntouched(db: Db, e: Event)
    requires !e.OpenCheckout? && !e.RejectCheckout? && !e.RecordSession? && !e.NotifyFailed? && !e.NotifyPaid?
             && !e.PurgeSubmission?
    ensures Apply(db, e).0.payments == db.payments
  {
    hide Apply;
    if e.Complete? || e.DismissFlag? {
      RoutingUntouched(db, e);
    } else if e.CreateAssignmentSet? || e.StartScoring? || e.SaveScore? || e.CompleteScoring? || e.Reassign?
           || e.Transition? {
      ExaminerServiceUntouched(db, e);
    } else {
      SubmissionServiceUntouched(db, e);
    }
  }

  lemma RoutePayments(db: Db, sid: SubmissionId, paymentEnabled: bool, locked: set<nat>)
    requires sid in db.submissions
    ensures FlagRules.Route(db, sid, paymentEnabled, locked).0.payments == db.payments
  {
  }

  lemma PurgeStep(db: Db, e: Event, pid: PaymentId)
    requires pid in db.payments && e.PurgeSubmission? && e.sid != db.payments[pid].submission
    ensures pid in Apply(db, e).0.payments && Apply(db, e).0.payments[pid] == db.payments[pid]
  {
    hide SubmissionRules.OnlyDeadPayments, SubmissionRules.Referenced, SetOf;
  }

  lemma DeadOnly(db: Db, sid: SubmissionId, pid: PaymentId)
    requires pid in db.payments && db.payments[pid].status == Succeeded
    ensures SubmissionRules.OnlyDeadPayments(db.payments, sid) ==> db.payments[pid].submission != sid
  {
  }

  /** A purge keeps paid attempts. */
  lemma PurgeKeepsPaid(db: Db, e: Event, pid: PaymentId)
    requires pid in db.payments && db.payments[pid].status == Succeeded && e.PurgeSubmission?
    ensures pid in Apply(db, e).0.payments && Apply(db, e).0.payments[pid] == db.payments[pid]
  {
    hide SubmissionRules.OnlyDeadPayments, SubmissionRules.Referenced, SetOf;
    DeadOnly(db, e.sid, pid);
  }

  /** Whether an identifier is taken does not depend on the attempt itself. */
  lemma TakenByOthers(payments: Payments, pid: PaymentId, p: Payment, session: nat, transaction: nat)
    ensures PaymentRules.SessionTaken(payments[pid := p], pid, session)
            == PaymentRules.SessionTaken(payments, pid, session)
    ensures PaymentRules.TransactionTaken(payments[pid := p], pid, transaction)
            == PaymentRules.TransactionTaken(payments, pid, transaction)
  {
    var next := payments[pid := p];
    assert forall q :: q in next && q != pid ==> next[q] == payments[q];
    assert forall q :: q in payments && q != pid ==> q in next && next[q] == payments[q];
  }
}
