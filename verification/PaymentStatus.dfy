/** How single steps and whole runs change the status and the identifiers of one payment attempt. */
module PaymentStatus {
  import opened Options
  import opened Records
  import opened Lifecycle
  import opened PaymentFrames
  import PaymentRules

  // ---------------------------------------------------------------------
  // Status
  // ---------------------------------------------------------------------

  function Rank(status: PaymentStatus): nat {
    match status
    case Pending => 0
    case Failed => 1
    case Succeeded => 2
    case Refunded => 3
  }

  function Max(a: nat, b: nat): nat {
    if a < b then b else a
  }

  /**
   * What a step reports about `pid`: a transaction that is refused,
   * or finds the Submission withdrawn, reports nothing.
   */
  function Reported(db: Db, e: Event, pid: PaymentId): nat {
    match e
    case NotifyPaid(p, _, _) => if p == pid && !Apply(db, e).1.Rejected? then 2 else 0
    case NotifyFailed(p) => if p == pid && PaymentRules.Payable(db, pid) then 1 else 0
    case _ => 0
  }

  /** The provider rejects the attempt's own checkout, and the write goes through. */
  predicate Rejects(db: Db, e: Event, pid: PaymentId) {
    e == RejectCheckout(pid) && PaymentRules.Payable(db, pid)
  }

  /** The status of an attempt after any step but the purge of its own Submission. */
  lemma StatusStep(db: Db, e: Event, pid: PaymentId)
    requires pid in db.payments && db.payments[pid].status != Refunded
    requires e != PurgeSubmission(db.payments[pid].submission)
    ensures var after := Apply(db, e).0.payments;
            && pid in after && after[pid].submission == db.payments[pid].submission && after[pid].status != Refunded
            && Rank(after[pid].status)
               == if Rejects(db, e, pid) then 1 else Max(Rank(db.payments[pid].status), Reported(db, e, pid))
  {
    hide Apply;
    if e.NotifyPaid? {
      PaidStep(db, e, pid);
    } else if e.PurgeSubmission? {
      PurgeStep(db, e, pid);
    } else if e.OpenCheckout? || e.RejectCheckout? || e.RecordSession? || e.NotifyFailed? {
      CheckoutStep(db, e, pid);
    } else {
      PaymentsUntouched(db, e);
    }
  }

  lemma PaidStep(db: Db, e: Event, pid: PaymentId)
    requires pid in db.payments && db.payments[pid].status != Refunded && e.NotifyPaid?
    ensures var after := Apply(db, e).0.payments;
            && pid in after && after[pid].submission == db.payments[pid].submission && after[pid].status != Refunded
            && Rank(after[pid].status) == Max(Rank(db.payments[pid].status), Reported(db, e, pid))
  {
    hide PaymentRules.SessionTaken, PaymentRules.TransactionTaken;
  }

  lemma CheckoutStep(db: Db, e: Event, pid: PaymentId)
    requires pid in db.payments && db.payments[pid].status != Refunded
    requires e.OpenCheckout? || e.RejectCheckout? || e.RecordSession? || e.NotifyFailed?
    ensures var after := Apply(db, e).0.payments;
            && pid in after && after[pid].submission == db.payments[pid].submission && after[pid].status != Refunded
            && Rank(after[pid].status)
               == if Rejects(db, e, pid) then 1 else Max(Rank(db.payments[pid].status), Reported(db, e, pid))
  {
    hide PaymentRules.SessionTaken;
  }

  /** A paid attempt stops reading as paid exactly when its own checkout is rejected afterwards. */
  lemma PaidIsLostOnlyByRejection(db: Db, e: Event, pid: PaymentId)
    requires pid in db.payments && db.payments[pid].status == Succeeded
    ensures pid in Apply(db, e).0.payments
    ensures Apply(db, e).0.payments[pid].status != Succeeded <==> Rejects(db, e, pid)
  {
    hide Apply, Rejects, Reported;
    if e == PurgeSubmission(db.payments[pid].submission) {
      PurgeKeepsPaid(db, e, pid);
      assert !Rejects(db, e, pid) by { NoRejection(db, e, pid); }
    } else {
      StatusStep(db, e, pid);
    }
  }

  lemma NoRejection(db: Db, e: Event, pid: PaymentId)
    requires !e.RejectCheckout?
    ensures !Rejects(db, e, pid)
  {
  }

  /** The highest outcome that a run reports about `pid`. */
  function Highest(db: Db, events: seq<Event>, pid: PaymentId): nat
    decreases |events|
  {
    if events == [] then 0
    else Max(Reported(db, events[0], pid), Highest(Apply(db, events[0]).0, events[1..], pid))
  }

  /** The highest outcome reported after the last rejection of the checkout, if there is one. */
  function SinceRejection(db: Db, events: seq<Event>, pid: PaymentId): Option<nat>
    decreases |events|
  {
    if events == [] then None
    else
      var next := Apply(db, events[0]).0;
      var later := SinceRejection(next, events[1..], pid);
      if later.Some? then later
      else if Rejects(db, events[0], pid) then Some(Highest(next, events[1..], pid)) else None
  }

  /**
   * In any run an attempt ends at the highest outcome reported about it,
   * or, since its checkout was last rejected, at least failed.
   */
  lemma {:induction false} RunStatus(db: Db, events: seq<Event>, pid: PaymentId)
    requires pid in db.payments && db.payments[pid].status != Refunded
    requires forall i :: 0 <= i < |events| ==> events[i] != PurgeSubmission(db.payments[pid].submission)
    ensures var after, since := Run(db, events).payments, SinceRejection(db, events, pid);
            && pid in after
            && Rank(after[pid].status)
               == if since.Some? then Max(1, since.value)
                 else Max(Rank(db.payments[pid].status), Highest(db, events, pid))
    decreases |events|
  {
    hide Apply, Reported, Rejects, Rank;
    if events != [] {
      StatusStep(db, events[0], pid);
      assert forall i :: 0 <= i < |events[1..]| ==> events[1..][i] == events[i + 1];
      RunStatus(Apply(db, events[0]).0, events[1..], pid);
    }
  }

  // ---------------------------------------------------------------------
  // Identifiers
  // ---------------------------------------------------------------------

  predicate FreeSession(db: Db, pid: PaymentId, session: nat) {
    !PaymentRules.SessionTaken(db.payments, pid, session)
  }

  predicate FreeTransaction(db: Db, pid: PaymentId, transaction: nat) {
    !PaymentRules.TransactionTaken(db.payments, pid, transaction)
  }

  /** The two steps that write identifiers, where they change any. */
  predicate Rewrites(db: Db, e: Event, pid: PaymentId)
    requires pid in db.payments
  {
    var p := db.payments[pid];
    && PaymentRules.Payable(db, pid)
    && match e
       case RecordSession(q, session) => q == pid && FreeSession(db, pid, session) && p.session != Some(session)
       case NotifyPaid(q, session, transaction) =>
         && q == pid && (p.status == Pending || p.status == Failed)
         && FreeSession(db, pid, session) && FreeTransaction(db, pid, transaction)
         && !(p.session == Some(session) && p.transaction == Some(transaction))
       case _ => false
  }

  /**
   * The recorded identifiers of an attempt change in a step if and only if the step is an
   * accepted success notification of an unpaid attempt, or the session write of its
   * checkout, which looks at no status.
   */
  lemma IdentifiersChangeExactly(db: Db, e: Event, pid: PaymentId)
    requires pid in db.payments && e != PurgeSubmission(db.payments[pid].submission)
    ensures var after := Apply(db, e).0.payments;
            && pid in after
            && (after[pid].session != db.payments[pid].session || after[pid].transaction != db.payments[pid].transaction
                <==> Rewrites(db, e, pid))
  {
    hide Apply, Rewrites;
    if e.NotifyPaid? || e.RecordSession? {
      RewritingStep(db, e, pid);
    } else {
      NoRewrite(db, e, pid);
      if e.PurgeSubmission? {
        PurgeStep(db, e, pid);
      } else if e.OpenCheckout? || e.RejectCheckout? || e.NotifyFailed? {
        StatusWrite(db, e, pid);
      } else {
        PaymentsUntouched(db, e);
      }
    }
  }

  lemma RewritingStep(db: Db, e: Event, pid: PaymentId)
    requires pid in db.payments && (e.NotifyPaid? || e.RecordSession?)
    ensures var after := Apply(db, e).0.payments;
            && pid in after
            && (after[pid].session != db.payments[pid].session || after[pid].transaction != db.payments[pid].transaction
                <==> Rewrites(db, e, pid))
  {
    hide PaymentRules.SessionTaken, PaymentRules.TransactionTaken;
  }

  lemma NoRewrite(db: Db, e: Event, pid: PaymentId)
    requires pid in db.payments && !e.NotifyPaid? && !e.RecordSession?
    ensures !Rewrites(db, e, pid)
  {
  }

  lemma StatusWrite(db: Db, e: Event, pid: PaymentId)
    requires pid in db.payments && (e.OpenCheckout? || e.RejectCheckout? || e.NotifyFailed?)
    ensures var after := Apply(db, e).0.payments;
            pid in after && after[pid].session == db.payments[pid].session
            && after[pid].transaction == db.payments[pid].transaction
  {
  }

  /** Neither a rejection nor a session write of this attempt's checkout. */
  predicate LeavesCheckout(e: Event, pid: PaymentId) {
    e != RejectCheckout(pid) && !(e.RecordSession? && e.pid == pid)
  }

  lemma PaidStays(db: Db, e: Event, pid: PaymentId)
    requires pid in db.payments && db.payments[pid].status == Succeeded && LeavesCheckout(e, pid)
    ensures pid in Apply(db, e).0.payments
    ensures var p := Apply(db, e).0.payments[pid];
            p.status == Succeeded && p.session == db.payments[pid].session
            && p.transaction == db.payments[pid].transaction
  {
    hide Apply;
    PaidIsLostOnlyByRejection(db, e, pid);
    if e == PurgeSubmission(db.payments[pid].submission) {
      PurgeKeepsPaid(db, e, pid);
    } else {
      IdentifiersChangeExactly(db, e, pid);
    }
  }

  /** A paid attempt keeps its status and identifiers in every run without a late answer of its own checkout. */
  lemma {:induction false} SettledIdentifiersStay(db: Db, events: seq<Event>, pid: PaymentId)
    requires pid in db.payments && db.payments[pid].status == Succeeded
    requires forall i :: 0 <= i < |events| ==> LeavesCheckout(events[i], pid)
    ensures pid in Run(db, events).payments
    ensures var p := Run(db, events).payments[pid];
            p.status == Succeeded && p.session == db.payments[pid].session
            && p.transaction == db.payments[pid].transaction
    decreases |events|
  {
    hide Apply, LeavesCheckout;
    if events != [] {
      PaidStays(db, events[0], pid);
      SettledIdentifiersStay(Apply(db, events[0]).0, events[1..], pid);
    }
  }

  /**
   * The session write arriving after the payment: the session is replaced,
   * and the provider's duplicate is refused from then on.
   */
  lemma LateSessionReplacesPaidOne(db: Db, pid: PaymentId, session: nat, transaction: nat, other: nat)
    requires PaymentRules.Payable(db, pid) && db.payments[pid].status == Succeeded
    requires db.payments[pid].session == Some(session) && db.payments[pid].transaction == Some(transaction)
    requires FreeSession(db, pid, other) && other != session
    ensures var late := PaymentRules.RecordSession(db, pid, other).0;
            && late.payments[pid].status == Succeeded && late.payments[pid].session == Some(other)
            && PaymentRules.NotifyPaid(db, pid, session, transaction) == (db, Done)
            && PaymentRules.NotifyPaid(late, pid, session, transaction) == (late, Rejected(PaymentMismatch))
  {
    hide PaymentRules.SessionTaken, PaymentRules.TransactionTaken;
  }

  /**
   * After such a rejection a notification that was read earlier, with other identifiers,
   * pays the attempt again and overwrites them; without the rejection it changes nothing.
   */
  lemma RejectionReopensIdentifiers(db: Db, pid: PaymentId, first: (nat, nat), second: (nat, nat))
    requires PaymentRules.Payable(db, pid) && db.payments[pid].status == Pending
    requires !PaymentRules.SessionTaken(db.payments, pid, first.0)
             && !PaymentRules.TransactionTaken(db.payments, pid, first.1)
    requires !PaymentRules.SessionTaken(db.payments, pid, second.0)
             && !PaymentRules.TransactionTaken(db.payments, pid, second.1)
    ensures var paid := PaymentRules.NotifyPaid(db, pid, first.0, first.1).0;
            var rejected := PaymentRules.RejectCheckout(paid, pid).0;
            var again := PaymentRules.NotifyPaid(rejected, pid, second.0, second.1).0;
            && paid.payments[pid].status == Succeeded && rejected.payments[pid].status == Failed
            && again.payments[pid].status == Succeeded
            && again.payments[pid].session == Some(second.0) && again.payments[pid].transaction == Some(second.1)
            && PaymentRules.NotifyPaid(paid, pid, second.0, second.1).0 == paid
  {
    hide PaymentRules.SessionTaken, PaymentRules.TransactionTaken;
    var p := db.payments[pid].(status := Failed, wasPaid := true, session := Some(first.0),
                               transaction := Some(first.1));
    TakenByOthers(db.payments, pid, p, second.0, second.1);
    assert PaymentRules.RejectCheckout(PaymentRules.NotifyPaid(db, pid, first.0, first.1).0, pid).0.payments
           == db.payments[pid := p];
  }
}
