/** Which steps leave the assignments and their history alone. */
module AssignmentFrames {
  import opened Records
  import opened Lifecycle
  import FlagRules
  import PaymentRules
  import SubmissionRules

  lemma SubmissionServiceLeaves(db: Db, e: Event)
    requires e.Register? || e.StartAssessment? || e.Abandon? || e.Heartbeat? || e.Sweep? || e.QuarantineSubmission?
          || e.RecoverSubmission? || e.PurgeSubmission? || e.RaiseDeviceFlag? || e.RaiseIntegrityConcern?
          || e.ConfirmFlag?
    ensures Apply(db, e).0.assignments == db.assignments && Apply(db, e).0.moves == db.moves
  {
    hide SetOf, SubmissionRules.HasActive, SubmissionRules.OnlyDeadPayments, SubmissionRules.Referenced;
  }

  lemma PaymentServiceLeaves(db: Db, e: Event)
    requires e.OpenCheckout? || e.RejectCheckout? || e.RecordSession? || e.NotifyFailed? || e.NotifyPaid? || e.Waive?
          || e.Complete? || e.DismissFlag?
    ensures Apply(db, e).0.assignments == db.assignments && Apply(db, e).0.moves == db.moves
  {
    hide Apply;
    if e.Complete? || e.DismissFlag? {
      RoutingLeaves(db, e);
    } else {
      PaymentsLeave(db, e);
    }
  }

  lemma RoutingLeaves(db: Db, e: Event)
    requires e.Complete? || e.DismissFlag?
    ensures Apply(db, e).0.assignments == db.assignments && Apply(db, e).0.moves == db.moves
  {
    hide FlagRules.OldestCredit, HasOpenFlag;
  }

  lemma PaymentsLeave(db: Db, e: Event)
    requires e.OpenCheckout? || e.RejectCheckout? || e.RecordSession? || e.NotifyFailed? || e.NotifyPaid? || e.Waive?
    ensures Apply(db, e).0.assignments == db.assignments && Apply(db, e).0.moves == db.moves
  {
    hide PaymentRules.SessionTaken, PaymentRules.TransactionTaken;
  }
}
