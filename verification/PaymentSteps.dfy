/** Payments and waivers keep the invariant. */
module PaymentSteps {
  import opened Options
  import opened Records
  import opened LifecycleInvariant
  import opened LifecycleRows
  import PaymentRules

  /** One payment row changes, or a new unpaid one appears. */
  lemma PaymentKeeps(db: Db, ix: Index, pid: PaymentId, p: Payment)
    requires Inv(db, ix) && p.submission in db.submissions
    requires pid in db.payments ==> p.submission == db.payments[pid].submission && (db.payments[pid].wasPaid ==>
              p.wasPaid)
    requires db.submissions[p.submission].status == AwaitingPayment || pid in db.payments
    requires p.wasPaid ==> Ready(db.submissions[p.submission].status, p.submission in ix.pairs)
    requires p.status == Succeeded ==> p.wasPaid
    requires p.wasPaid ==> p.session.Some? && p.transaction.Some?
    requires p.session.Some? ==> !PaymentRules.SessionTaken(db.payments, pid, p.session.value)
    requires p.transaction.Some? ==> !PaymentRules.TransactionTaken(db.payments, pid, p.transaction.value)
    ensures Inv(db.(payments := db.payments[pid := p]), ix)
  {
    hide Paired, Placed, Flagging, Standing, Marking, Crediting, Charging, Accounting, Owned, Administered,
         Traced, Current, PaymentRules.SessionTaken, PaymentRules.TransactionTaken;
    PaymentCharging(db, ix, pid, p);
    PaymentAccounting(db.payments, pid, p);
  }

  lemma PaymentCharging(db: Db, ix: Index, pid: PaymentId, p: Payment)
    requires Charging(db.submissions, db.payments, db.waivers, ix.pairs, ix.paidBy) && p.submission in db.submissions
    requires pid in db.payments ==> p.submission == db.payments[pid].submission && (db.payments[pid].wasPaid ==>
              p.wasPaid)
    requires db.submissions[p.submission].status == AwaitingPayment || pid in db.payments
    requires p.wasPaid ==> Ready(db.submissions[p.submission].status, p.submission in ix.pairs)
    ensures Charging(db.submissions, db.payments[pid := p], db.waivers, ix.pairs, ix.paidBy)
  {
    hide Ready;
  }

  lemma PaymentAccounting(payments: Payments, pid: PaymentId, p: Payment)
    requires Accounting(payments)
    requires p.status == Succeeded ==> p.wasPaid
    requires p.wasPaid ==> p.session.Some? && p.transaction.Some?
    requires p.session.Some? ==> !PaymentRules.SessionTaken(payments, pid, p.session.value)
    requires p.transaction.Some? ==> !PaymentRules.TransactionTaken(payments, pid, p.transaction.value)
    ensures Accounting(payments[pid := p])
  {
  }

  /** What the invariant says about one payment. */
  lemma AtPayment(db: Db, ix: Index, pid: PaymentId)
    requires Inv(db, ix) && pid in db.payments
    ensures var p := db.payments[pid];
            && p.submission in db.submissions
            && ((db.submissions[p.submission].status == AwaitingPayment && !p.wasPaid)
                || Ready(db.submissions[p.submission].status, p.submission in ix.pairs))
            && (p.status == Succeeded ==> p.wasPaid)
            && (p.wasPaid ==> p.session.Some? && p.transaction.Some?)
            && (p.session.Some? ==> !PaymentRules.SessionTaken(db.payments, pid, p.session.value))
            && (p.transaction.Some? ==> !PaymentRules.TransactionTaken(db.payments, pid, p.transaction.value))
  {
    hide Paired, Placed, Flagging, Standing, Marking, Crediting, Owned, Administered, Traced, Current, Ready;
  }

  lemma OpenCheckoutKeeps(db: Db, ix: Index, sid: SubmissionId, uid: UserId, pid: PaymentId)
    requires Inv(db, ix) && pid !in db.payments
    ensures Inv(PaymentRules.OpenCheckout(db, sid, uid, pid).0, ix)
  {
    hide Inv, PaymentRules.SessionTaken, PaymentRules.TransactionTaken;
    if PaymentRules.OpenCheckout(db, sid, uid, pid).1 == Done {
      PaymentKeeps(db, ix, pid, Payment(sid, Pending, false, None, None));
    }
  }

  lemma RejectCheckoutKeeps(db: Db, ix: Index, pid: PaymentId)
    requires Inv(db, ix)
    ensures Inv(PaymentRules.RejectCheckout(db, pid).0, ix)
    ensures Inv(PaymentRules.NotifyFailed(db, pid).0, ix)
  {
    hide Inv, PaymentRules.SessionTaken, PaymentRules.TransactionTaken;
    if pid in db.payments {
      AtPayment(db, ix, pid);
      PaymentKeeps(db, ix, pid, db.payments[pid].(status := Failed));
    }
  }

  lemma RecordSessionKeeps(db: Db, ix: Index, pid: PaymentId, session: nat)
    requires Inv(db, ix)
    ensures Inv(PaymentRules.RecordSession(db, pid, session).0, ix)
  {
    hide Inv, PaymentRules.SessionTaken, PaymentRules.TransactionTaken;
    if pid in db.payments {
      AtPayment(db, ix, pid);
      if !PaymentRules.SessionTaken(db.payments, pid, session) {
        PaymentKeeps(db, ix, pid, db.payments[pid].(session := Some(session)));
      }
    }
  }

  /** A verified payment settles the Submission that awaits it. */
  lemma SettleKeeps(db: Db, ix: Index, pid: PaymentId, p: Payment)
    returns (next: Index)
    requires Inv(db, ix) && pid in db.payments && p.submission == db.payments[pid].submission
    requires p.submission in db.submissions && db.submissions[p.submission].status == AwaitingPayment
    requires db.submissions[p.submission].retention == Retained
    requires p.wasPaid && p.session.Some? && p.transaction.Some?
    requires !PaymentRules.SessionTaken(db.payments, pid, p.session.value)
    requires !PaymentRules.TransactionTaken(db.payments, pid, p.transaction.value)
    ensures var s := db.submissions[p.submission].(status := Paid);
            Inv(db.(payments := db.payments[pid := p], submissions := db.submissions[p.submission := s]), next)
  {
    hide Paired, Placed, Flagging, Standing, Marking, Crediting, Charging, Accounting, Owned, Administered,
         Traced, Current, HasOpenFlag, PaymentRules.SessionTaken, PaymentRules.TransactionTaken;
    var sid := p.submission;
    next := ix.(paidBy := ix.paidBy[sid := pid]);
    var s := db.submissions[sid].(status := Paid);
    AtSubmission(db, ix, sid);
    RowPaired(db.submissions, db.assignments, ix.pairs, sid, s);
    StatusFlagging(db.submissions, db.flags, sid, s);
    RowStanding(db.submissions, ix.pairs, sid, s);
    RowMarking(db.submissions, db.assignments, sid, s);
    RowCrediting(db.submissions, db.credits, ix.credit, ix.pairs, sid, s);
    SettledCharging(db.submissions, db.payments, db.waivers, ix.pairs, ix.paidBy, s, pid, p);
    PaymentAccounting(db.payments, pid, p);
    RowOwned(db.users, db.submissions, db.assignments, sid, s);
    RowCurrent(db.submissions, sid, s);
  }

  lemma SettledCharging(submissions: Submissions, payments: Payments, waivers: set<SubmissionId>,
                        pairs: map<SubmissionId, Pair>,
                        paidBy: map<SubmissionId, PaymentId>, s: Submission, pid: PaymentId, p: Payment)
    requires Charging(submissions, payments, waivers, pairs, paidBy) && p.submission in submissions
    requires Advances(submissions[p.submission], s, p.submission in pairs) && Ready(s.status, p.submission in pairs)
    requires pid in payments && payments[pid].submission == p.submission && p.wasPaid
    ensures Charging(submissions[p.submission := s], payments[pid := p], waivers, pairs, paidBy[p.submission := pid])
  {
    hide Ready;
  }

  lemma NotifyPaidKeeps(db: Db, ix: Index, pid: PaymentId, session: nat, transaction: nat) returns (next: Index)
    requires Inv(db, ix)
    ensures Inv(PaymentRules.NotifyPaid(db, pid, session, transaction).0, next)
  {
    hide Inv, PaymentRules.SessionTaken, PaymentRules.TransactionTaken, Ready;
    next := ix;
    if PaymentRules.NotifyPaid(db, pid, session, transaction).0 != db {
      var p := db.payments[pid].(status := Succeeded, wasPaid := true, session := Some(session),
                                 transaction := Some(transaction));
      AtPayment(db, ix, pid);
      if db.submissions[p.submission].status == AwaitingPayment {
        next := SettleKeeps(db, ix, pid, p);
      } else {
        PaymentKeeps(db, ix, pid, p);
      }
    }
  }

  lemma WaiverKeeps(db: Db, ix: Index, sid: SubmissionId)
    requires Inv(db, ix) && sid in db.submissions && !db.submissions[sid].paymentRequired
    requires Ready(db.submissions[sid].status, false)
    ensures Inv(db.(waivers := db.waivers + {sid}), ix)
  {
    hide Paired, Placed, Flagging, Standing, Marking, Crediting, Accounting, Owned, Administered, Traced, Current;
  }

  lemma WaiveKeeps(db: Db, ix: Index, sid: SubmissionId, admin: UserId)
    requires Inv(db, ix)
    ensures Inv(PaymentRules.Waive(db, sid, admin).0, ix)
  {
    hide Inv, HasOpenFlag;
    if PaymentRules.Waive(db, sid, admin).1 == AssignNow {
      var s := db.submissions[sid].(paymentRequired := false, status := Paid);
      AtSubmission(db, ix, sid);
      FreeRowKeeps(db, ix, sid, s);
      WaiverKeeps(db.(submissions := db.submissions[sid := s]), ix, sid);
    }
  }
}
