/** What checkouts, notifications and waivers achieve. */
module PaymentEffects {
  import opened Options
  import opened Records
  import opened LifecycleInvariant
  import opened Lifecycle
  import opened LifecycleHistory
  import opened AssignmentTrigger
  import opened PaymentFrames
  import PaymentRules

  /**
   * A checkout is opened exactly for the owner of a retained Submission that awaits payment, which
   * always owes it; a success notification of that attempt then pays and starts assignment.
   */
  lemma CheckoutLeadsToPayment(db: Db, sid: SubmissionId, uid: UserId, pid: PaymentId, session: nat, transaction: nat)
    requires Consistent(db) && pid !in db.payments
    requires !PaymentRules.SessionTaken(db.payments, pid, session)
             && !PaymentRules.TransactionTaken(db.payments, pid, transaction)
    ensures var r := PaymentRules.OpenCheckout(db, sid, uid, pid);
            && (r.1 == Done <==>
                  IsRetained(db.submissions, sid) && OwnedBy(db.submissions, sid, uid)
                  && StatusOf(db, sid) == Some(AwaitingPayment))
            && r.0 == (if r.1 == Done then db.(payments := db.payments[pid := Payment(sid, Pending, false, None, None)])
                       else db)
            && (r.1 == Done ==>
                  var paid := PaymentRules.NotifyPaid(r.0, pid, session, transaction);
                  paid.1 == AssignNow && StatusOf(paid.0, sid) == Some(Paid)
                  && paid.0.payments == db.payments[pid := Payment(sid, Succeeded, true, Some(session),
                                                                   Some(transaction))])
  {
    hide Consistent, PaymentRules.SessionTaken, PaymentRules.TransactionTaken;
    AwaitingOwes(db, sid);
    TakenByOthers(db.payments, pid, Payment(sid, Pending, false, None, None), session, transaction);
  }

  lemma AwaitingOwes(db: Db, sid: SubmissionId)
    requires Consistent(db)
    ensures StatusOf(db, sid) == Some(AwaitingPayment) ==> db.submissions[sid].paymentRequired
  {
    hide Paired, Placed, Flagging, Marking, Crediting, Charging, Accounting, Owned, Administered, Traced, Current;
    var ix :| Inv(db, ix);
  }

  /** An attempt of a Submission that is not withdrawn. */
  predicate InPlay(db: Db, pid: PaymentId) {
    pid in db.payments && IsRetained(db.submissions, db.payments[pid].submission)
  }

  predicate SessionElsewhere(db: Db, pid: PaymentId, session: nat) {
    exists p :: p in db.payments && p != pid && db.payments[p].session == Some(session)
  }

  predicate TransactionElsewhere(db: Db, pid: PaymentId, transaction: nat) {
    exists p :: p in db.payments && p != pid && db.payments[p].transaction == Some(transaction)
  }

  /**
   * The two late answers of a checkout write one column of the attempt and nothing else: a rejection
   * its status, whatever that is, and the session write its session, unless another attempt has it.
   */
  lemma CheckoutAnswersWrite(db: Db, pid: PaymentId, session: nat)
    ensures PaymentRules.RejectCheckout(db, pid)
            == (if !InPlay(db, pid) then db
                else db.(payments := db.payments[pid := db.payments[pid].(status := Failed)]), Done)
    ensures var r := PaymentRules.RecordSession(db, pid, session);
            && (r.1.Rejected? <==> InPlay(db, pid) && SessionElsewhere(db, pid, session))
            && r.0 == if InPlay(db, pid) && !SessionElsewhere(db, pid, session)
                      then db.(payments := db.payments[pid := db.payments[pid].(session := Some(session))]) else db
  {
  }

  /**
   * A failure notification fails a pending attempt and changes nothing else. A success notification
   * is refused exactly when the Submission is withdrawn, another attempt has one of its identifiers
   * while this one is unpaid, or this one is settled differently. It pays an unpaid attempt with its
   * identifiers, clears the Submission exactly if that was waiting for it, and is then the trigger.
   */
  lemma NotificationsWrite(db: Db, pid: PaymentId, session: nat, transaction: nat)
    ensures PaymentRules.NotifyFailed(db, pid)
            == (if InPlay(db, pid) && db.payments[pid].status == Pending
                then db.(payments := db.payments[pid := db.payments[pid].(status := Failed)]) else db, Done)
    ensures var r := PaymentRules.NotifyPaid(db, pid, session, transaction);
            if !InPlay(db, pid) then r.0 == db && r.1.Rejected?
            else
              var p, sid := db.payments[pid], db.payments[pid].submission;
              if p.status in {Pending, Failed} then
                if SessionElsewhere(db, pid, session) || TransactionElsewhere(db, pid, transaction)
                then r == (db, Rejected(PaymentMismatch))
                else
                  && r.0.payments == db.payments[pid := Payment(sid, Succeeded, true, Some(session), Some(transaction))]
                  && r.0 == db.(payments := r.0.payments, submissions := r.0.submissions)
                  && (r.1 == AssignNow <==> StatusOf(db, sid) == Some(AwaitingPayment))
                  && r.0.submissions == (if r.1 == AssignNow
                                         then db.submissions[sid := db.submissions[sid].(status := Paid)]
                                         else db.submissions)
                  && !r.1.Rejected?
              else
                r == (db, if p.status == Succeeded && p.session == Some(session) && p.transaction == Some(transaction)
                          then Done else Rejected(PaymentMismatch))
  {
  }

  /**
   * A success and a failure notification of one attempt end alike in
   * either order, and the trigger fires in the same cases.
   */
  lemma FailureAndSuccessCommute(db: Db, pid: PaymentId, session: nat, transaction: nat)
    requires !PaymentRules.NotifyPaid(db, pid, session, transaction).1.Rejected?
    ensures PaymentRules.NotifyPaid(PaymentRules.NotifyFailed(db, pid).0, pid, session, transaction)
            == PaymentRules.NotifyPaid(db, pid, session, transaction)
    ensures PaymentRules.NotifyFailed(PaymentRules.NotifyPaid(db, pid, session, transaction).0, pid).0
            == PaymentRules.NotifyPaid(db, pid, session, transaction).0
  {
    hide PaymentRules.SessionTaken, PaymentRules.TransactionTaken;
    if PaymentRules.Payable(db, pid) {
      var failed := db.payments[pid].(status := Failed);
      var paid := failed.(status := Succeeded, wasPaid := true, session := Some(session),
                          transaction := Some(transaction));
      TakenByOthers(db.payments, pid, failed, session, transaction);
      assert db.payments[pid := failed][pid := paid] == db.payments[pid := paid];
    }
  }

  /** A duplicate of an accepted success notification succeeds, writes nothing and triggers nothing. */
  lemma SuccessRepeats(db: Db, pid: PaymentId, session: nat, transaction: nat)
    requires !PaymentRules.NotifyPaid(db, pid, session, transaction).1.Rejected?
    ensures var paid := PaymentRules.NotifyPaid(db, pid, session, transaction).0;
            PaymentRules.NotifyPaid(paid, pid, session, transaction) == (paid, Done)
  {
    hide PaymentRules.SessionTaken, PaymentRules.TransactionTaken;
  }

  /**
   * A waiver is accepted exactly from an active administrator for a retained Submission that
   * awaits payment, which never has one already; no later payment starts assignment again.
   */
  lemma WaiverClears(db: Db, sid: SubmissionId, admin: UserId, events: seq<Event>)
    requires Consistent(db)
    ensures var r := PaymentRules.Waive(db, sid, admin);
            && (r.1 == AssignNow <==>
                  ActiveAdmin(db.users, admin) && IsRetained(db.submissions, sid)
                  && StatusOf(db, sid) == Some(AwaitingPayment))
            && (r.1 != AssignNow ==> r.0 == db && r.1.Rejected?)
            && (r.1 == AssignNow ==>
                  && r.0 == db.(waivers := db.waivers + {sid},
                                submissions := db.submissions[sid := db.submissions[sid].(paymentRequired := false,
                                                                                          status := Paid)])
                  && sid in Run(r.0, events).waivers
                  && Triggers(r.0, events, sid) == 0)
  {
    hide Consistent, Run, Triggers, Evolves;
    NotYetWaived(db, sid);
    var r := PaymentRules.Waive(db, sid, admin);
    if r.1 == AssignNow {
      StepConsistent(db, Waive(sid, admin));
      AssignedOnce(r.0, events, sid);
      RunEvolves(r.0, events);
      WaiverStays(r.0, Run(r.0, events), sid);
    }
  }

  lemma NotYetWaived(db: Db, sid: SubmissionId)
    requires Consistent(db)
    ensures StatusOf(db, sid) == Some(AwaitingPayment) ==> sid !in db.waivers
  {
    hide Placed, Flagging, Marking, Crediting, Accounting, Owned, Administered, Traced, Current;
    var ix :| Inv(db, ix);
  }

  lemma WaiverStays(before: Db, after: Db, sid: SubmissionId)
    requires Evolves(before, after) && sid in before.waivers
    ensures sid in after.waivers
  {
    hide SubmissionsEvolve, AssignmentsEvolve, FlagsEvolve, CreditsEvolve, PaymentsEvolve, UsersEvolve;
  }
}
