module PaymentRules {
  import opened Options
  import opened Records

  /** Open a checkout: one new PENDING attempt. */
  function OpenCheckout(db: Db, sid: SubmissionId, uid: UserId, pid: PaymentId): (Db, Outcome) {
    if !IsRetained(db.submissions, sid) then (db, Rejected(NotFound))
    else
      var s := db.submissions[sid];
      if s.student != uid then (db, Rejected(Unauthorized))
      else if !s.paymentRequired || s.status != AwaitingPayment then (db, Rejected(InvalidLifecycle))
      else (db.(payments := db.payments[pid := Payment(sid, Pending, false, None, None)]), Done)
  }

  predicate Payable(db: Db, pid: PaymentId) {
    pid in db.payments && IsRetained(db.submissions, db.payments[pid].submission)
  }

  /** The provider rejected the checkout; the write has no status guard. */
  function RejectCheckout(db: Db, pid: PaymentId): (Db, Outcome) {
    if !Payable(db, pid) then (db, Done)
    else (db.(payments := db.payments[pid := db.payments[pid].(status := Failed)]), Done)
  }

  predicate SessionTaken(payments: map<PaymentId, Payment>, pid: PaymentId, session: nat) {
    exists p :: p in payments && p != pid && payments[p].session == Some(session)
  }

  predicate TransactionTaken(payments: map<PaymentId, Payment>, pid: PaymentId, transaction: nat) {
    exists p :: p in payments && p != pid && payments[p].transaction == Some(transaction)
  }

  function RecordSession(db: Db, pid: PaymentId, session: nat): (Db, Outcome) {
    if !Payable(db, pid) then (db, Done)
    else if SessionTaken(db.payments, pid, session) then (db, Rejected(UniqueViolation))
    else (db.(payments := db.payments[pid := db.payments[pid].(session := Some(session))]), Done)
  }

  /** The locked transaction of a failure notification. */
  function NotifyFailed(db: Db, pid: PaymentId): (Db, Outcome) {
    if !Payable(db, pid) || db.payments[pid].status != Pending then (db, Done)
    else (db.(payments := db.payments[pid := db.payments[pid].(status := Failed)]), Done)
  }

  /** The locked transaction of a verified success notification. */
  function NotifyPaid(db: Db, pid: PaymentId, session: nat, transaction: nat): (Db, Outcome) {
    if !Payable(db, pid) then (db, Rejected(NotFound))
    else
      var p, sid := db.payments[pid], db.payments[pid].submission;
      if p.status != Pending && p.status != Failed then
        (db, if p.status == Succeeded && p.session == Some(session) && p.transaction == Some(transaction)
             then Done else Rejected(PaymentMismatch))
      else if SessionTaken(db.payments, pid, session) || TransactionTaken(db.payments, pid, transaction) then
        (db, Rejected(PaymentMismatch))
      else
        var paid := db.(payments := db.payments[pid := p.(status := Succeeded, wasPaid := true,
                                                         session := Some(session), transaction := Some(transaction))]);
        var s := db.submissions[sid];
        if s.status == AwaitingPayment then (paid.(submissions := db.submissions[sid := s.(status := Paid)]), AssignNow)
        else (paid, Done)
  }

  /** An Admin waives payment for one Submission awaiting it. */
  function Waive(db: Db, sid: SubmissionId, admin: UserId): (Db, Outcome) {
    if !ActiveAdmin(db.users, admin) then (db, Rejected(Unauthorized))
    else if !IsRetained(db.submissions, sid) then (db, Rejected(NotFound))
    else if db.submissions[sid].status != AwaitingPayment then (db, Rejected(InvalidLifecycle))
    else if sid in db.waivers then (db, Rejected(UniqueViolation))
    else
      (db.(waivers := db.waivers + {sid},
           submissions := db.submissions[sid := db.submissions[sid].(paymentRequired := false,
                                                                     status := Paid)]), AssignNow)
  }
}

/** The locked payment transactions and the waiver. */
module PaymentService {
  import opened Options
  import opened Records
  import opened Database
  import PaymentRules
  import Lifecycle
  import PaymentEffects

  method OpenCheckout(tx: Tables, sid: SubmissionId, uid: UserId, pid: PaymentId) returns (out: Outcome)
    modifies tx`payments
    ensures (tx.Snapshot(), out) == PaymentRules.OpenCheckout(old(tx.Snapshot()), sid, uid, pid)
    ensures Lifecycle.Consistent(old(tx.Snapshot())) && pid !in old(tx.payments) ==>
              && Lifecycle.Consistent(tx.Snapshot())
              && (out == Done <==>
                    IsRetained(tx.submissions, sid) && OwnedBy(tx.submissions, sid, uid)
                    && StatusOf(tx.Snapshot(), sid) == Some(AwaitingPayment))
    ensures forall p :: p in old(tx.payments) && p != pid ==> p in tx.payments && tx.payments[p] == old(tx.payments)[p]
  {
    hide Lifecycle.Consistent;
    ghost var db := tx.Snapshot();
    if Lifecycle.Consistent(db) {
      Lifecycle.StepConsistent(db, Lifecycle.OpenCheckout(sid, uid, pid));
      PaymentEffects.AwaitingOwes(db, sid);
    }
    if !IsRetained(tx.submissions, sid) { return Rejected(NotFound); }
    if tx.submissions[sid].student != uid { return Rejected(Unauthorized); }
    if !tx.submissions[sid].paymentRequired || tx.submissions[sid].status != AwaitingPayment {
      return Rejected(InvalidLifecycle);
    }
    tx.payments := tx.payments[pid := Payment(sid, Pending, false, None, None)];
    return Done;
  }

  method RejectCheckout(tx: Tables, pid: PaymentId) returns (out: Outcome)
    modifies tx`payments
    ensures (tx.Snapshot(), out) == PaymentRules.RejectCheckout(old(tx.Snapshot()), pid)
    ensures Lifecycle.Consistent(old(tx.Snapshot())) ==> Lifecycle.Consistent(tx.Snapshot())
  {
    hide Lifecycle.Consistent;
    ghost var db := tx.Snapshot();
    if Lifecycle.Consistent(db) {
      Lifecycle.StepConsistent(db, Lifecycle.RejectCheckout(pid));
    }
    if PaymentRules.Payable(tx.Snapshot(), pid) {
      tx.payments := tx.payments[pid := tx.payments[pid].(status := Failed)];
    }
    return Done;
  }

  method RecordSession(tx: Tables, pid: PaymentId, session: nat) returns (out: Outcome)
    modifies tx`payments
    ensures (tx.Snapshot(), out) == PaymentRules.RecordSession(old(tx.Snapshot()), pid, session)
    ensures Lifecycle.Consistent(old(tx.Snapshot())) ==> Lifecycle.Consistent(tx.Snapshot())
  {
    hide Lifecycle.Consistent, PaymentRules.SessionTaken;
    ghost var db := tx.Snapshot();
    if Lifecycle.Consistent(db) {
      Lifecycle.StepConsistent(db, Lifecycle.RecordSession(pid, session));
    }
    if !PaymentRules.Payable(tx.Snapshot(), pid) { return Done; }
    if PaymentRules.SessionTaken(tx.payments, pid, session) { return Rejected(UniqueViolation); }
    tx.payments := tx.payments[pid := tx.payments[pid].(session := Some(session))];
    return Done;
  }

  method NotifyFailed(tx: Tables, pid: PaymentId) returns (out: Outcome)
    modifies tx`payments
    ensures (tx.Snapshot(), out) == PaymentRules.NotifyFailed(old(tx.Snapshot()), pid)
    ensures forall p :: p in old(tx.payments) && old(tx.payments)[p].status == Succeeded ==>
              p in tx.payments && tx.payments[p] == old(tx.payments)[p]
    ensures Lifecycle.Consistent(old(tx.Snapshot())) ==> Lifecycle.Consistent(tx.Snapshot())
  {
    hide Lifecycle.Consistent;
    ghost var db := tx.Snapshot();
    if Lifecycle.Consistent(db) {
      Lifecycle.StepConsistent(db, Lifecycle.NotifyFailed(pid));
    }
    if PaymentRules.Payable(tx.Snapshot(), pid) && tx.payments[pid].status == Pending {
      tx.payments := tx.payments[pid := tx.payments[pid].(status := Failed)];
    }
    return Done;
  }

  method NotifyPaid(tx: Tables, pid: PaymentId, session: nat, transaction: nat) returns (out: Outcome)
    modifies tx`payments, tx`submissions
    ensures (tx.Snapshot(), out) == PaymentRules.NotifyPaid(old(tx.Snapshot()), pid, session, transaction)
    ensures !out.Rejected? ==>
              && pid in tx.payments && tx.payments[pid].status == Succeeded
              && tx.payments[pid].session == Some(session) && tx.payments[pid].transaction == Some(transaction)
              && PaymentRules.NotifyPaid(tx.Snapshot(), pid, session, transaction) == (tx.Snapshot(), Done)
    ensures out.Rejected? ==> tx.Snapshot() == old(tx.Snapshot())
    ensures Lifecycle.Consistent(old(tx.Snapshot())) ==> Lifecycle.Consistent(tx.Snapshot())
  {
    hide Lifecycle.Consistent, PaymentRules.SessionTaken, PaymentRules.TransactionTaken;
    ghost var db := tx.Snapshot();
    if Lifecycle.Consistent(db) {
      Lifecycle.StepConsistent(db, Lifecycle.NotifyPaid(pid, session, transaction));
    }
    if !PaymentRules.NotifyPaid(db, pid, session, transaction).1.Rejected? {
      PaymentEffects.SuccessRepeats(db, pid, session, transaction);
    }
    if !PaymentRules.Payable(tx.Snapshot(), pid) { return Rejected(NotFound); }
    var payment := tx.payments[pid];
    if payment.status != Pending && payment.status != Failed {
      if payment.status != Succeeded || payment.session != Some(session) || payment.transaction != Some(transaction) {
        return Rejected(PaymentMismatch);
      }
      return Done;
    }
    if PaymentRules.SessionTaken(tx.payments, pid, session)
       || PaymentRules.TransactionTaken(tx.payments, pid, transaction) {
      return Rejected(PaymentMismatch);
    }
    tx.payments := tx.payments[pid := payment.(status := Succeeded, wasPaid := true, session := Some(session),
                                               transaction := Some(transaction))];
    if tx.submissions[payment.submission].status != AwaitingPayment { return Done; }
    tx.submissions := tx.submissions[payment.submission := tx.submissions[payment.submission].(status := Paid)];
    return AssignNow;
  }

  method WaiveSubmissionPayment(tx: Tables, sid: SubmissionId, admin: UserId) returns (out: Outcome)
    modifies tx`waivers, tx`submissions
    ensures (tx.Snapshot(), out) == PaymentRules.Waive(old(tx.Snapshot()), sid, admin)
    ensures Lifecycle.Consistent(old(tx.Snapshot())) ==>
              && Lifecycle.Consistent(tx.Snapshot())
              && (out == AssignNow <==>
                    ActiveAdmin(tx.users, admin)
                    && old(IsRetained(tx.submissions, sid) && StatusOf(tx.Snapshot(), sid) == Some(AwaitingPayment)))
  {
    hide Lifecycle.Consistent;
    ghost var db := tx.Snapshot();
    if Lifecycle.Consistent(db) {
      Lifecycle.StepConsistent(db, Lifecycle.Waive(sid, admin));
      PaymentEffects.NotYetWaived(db, sid);
    }
    if !ActiveAdmin(tx.users, admin) { return Rejected(Unauthorized); }
    if !IsRetained(tx.submissions, sid) { return Rejected(NotFound); }
    if tx.submissions[sid].status != AwaitingPayment { return Rejected(InvalidLifecycle); }
    if sid in tx.waivers { return Rejected(UniqueViolation); }
    tx.waivers := tx.waivers + {sid};
    tx.submissions := tx.submissions[sid := tx.submissions[sid].(paymentRequired := false, status := Paid)];
    return AssignNow;
  }
}
