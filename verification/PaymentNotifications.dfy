/**
 * Provider notifications: each is an unlocked, possibly stale read of its
 * payment, followed some time later by its locked transaction.
 */
module PaymentNotifications {
  import opened Options
  import opened Records
  import opened LifecycleInvariant
  import opened Lifecycle
  import opened PaymentFrames
  import opened PaymentStatus
  import opened AssignmentTrigger
  import PaymentRules
  import SubmissionRules

  datatype Callback = Success | Failure | Undecided

  /** `verified` says that the provider's own transaction query confirmed a success. */
  datatype Notification = Notification(pid: PaymentId, callback: Callback, session: nat, transaction: nat,
                                       verified: bool)

  /** The database and the notifications whose read was accepted but not yet acted on. */
  datatype Inbox = Inbox(db: Db, waiting: seq<Notification>)

  datatype Step = Receive(n: Notification) | Commit(k: nat) | Other(e: Event)

  /** What the unlocked read lets through. */
  predicate Accepts(db: Db, n: Notification) {
    && PaymentRules.Payable(db, n.pid)
    && var p := db.payments[n.pid];
       && (p.status == Succeeded ==> n.callback == Success)
       && (p.session.Some? ==> p.session == Some(n.session))
       && (p.transaction.Some? ==> p.transaction == Some(n.transaction))
       && (n.callback == Success ==> n.verified)
       && n.callback != Undecided
  }

  /** The locked transaction, as one step of the lifecycle. */
  function Transaction(n: Notification): Event {
    if n.callback == Success then NotifyPaid(n.pid, n.session, n.transaction) else NotifyFailed(n.pid)
  }

  function Next(s: Inbox, step: Step): Inbox {
    match step
    case Receive(n) => if Accepts(s.db, n) then s.(waiting := s.waiting + [n]) else s
    case Commit(k) =>
      if k < |s.waiting|
      then Inbox(Apply(s.db, Transaction(s.waiting[k])).0, s.waiting[..k] + s.waiting[k + 1..])
      else s
    case Other(e) => s.(db := Apply(s.db, e).0)
  }

  function Process(s: Inbox, steps: seq<Step>): Inbox
    decreases |steps|
  {
    if steps == [] then s else Process(Next(s, steps[0]), steps[1..])
  }

  predicate Differs(recorded: Option<nat>, sent: nat) {
    recorded.Some? && recorded.value != sent
  }

  /**
   * The unlocked read turns a notification away, with nothing changed, exactly when its Submission
   * is withdrawn, an identifier differs from the recorded one, a success is unconfirmed, the status
   * is unknown, or anything but a success arrives for a paid attempt.
   */
  lemma TurnedAway(s: Inbox, n: Notification)
    ensures Next(s, Receive(n)) == s <==>
              || !PaymentRules.Payable(s.db, n.pid)
              || Differs(s.db.payments[n.pid].session, n.session)
              || Differs(s.db.payments[n.pid].transaction, n.transaction)
              || (n.callback == Success && !n.verified)
              || n.callback == Undecided
              || (s.db.payments[n.pid].status == Succeeded && n.callback != Success)
    ensures Next(s, Receive(n)) != s ==> Next(s, Receive(n)) == s.(waiting := s.waiting + [n])
  {
    hide PaymentRules.Payable;
    assert |s.waiting + [n]| > |s.waiting|;
    if PaymentRules.Payable(s.db, n.pid) { PayableIsKnown(s.db, n.pid); }
  }

  lemma PayableIsKnown(db: Db, pid: PaymentId)
    requires PaymentRules.Payable(db, pid)
    ensures pid in db.payments
  {
  }

  // ---------------------------------------------------------------------
  // As a run of the lifecycle
  // ---------------------------------------------------------------------

  /** The lifecycle steps of a run with notifications. */
  function Events(s: Inbox, steps: seq<Step>): seq<Event>
    decreases |steps|
  {
    if steps == [] then []
    else
      (match steps[0]
       case Receive(_) => []
       case Commit(k) => if k < |s.waiting| then [Transaction(s.waiting[k])] else []
       case Other(e) => [e])
      + Events(Next(s, steps[0]), steps[1..])
  }

  lemma {:induction false} ProcessIsRun(s: Inbox, steps: seq<Step>)
    ensures Process(s, steps).db == Run(s.db, Events(s, steps))
    decreases |steps|
  {
    hide Apply;
    if steps != [] {
      var next, rest := Next(s, steps[0]), steps[1..];
      ProcessIsRun(next, rest);
      var events := Events(next, rest);
      match steps[0]
      case Receive(_) => assert [] + events == events;
      case Commit(k) =>
        if k < |s.waiting| {
          assert ([Transaction(s.waiting[k])] + events)[1..] == events;
        } else {
          assert [] + events == events;
        }
      case Other(e) => assert ([e] + events)[1..] == events;
    }
  }

  /** The transactions and other steps of a run, whatever the reads let through. */
  lemma {:induction false} EventsAre(s: Inbox, steps: seq<Step>, i: nat)
    requires i < |Events(s, steps)|
    ensures Events(s, steps)[i].NotifyPaid? || Events(s, steps)[i].NotifyFailed? || Other(Events(s, steps)[i]) in steps
    decreases |steps|
  {
    hide Apply;
    var next, rest := Next(s, steps[0]), steps[1..];
    var used := |Events(s, steps)| - |Events(next, rest)|;
    if i >= used {
      EventsAre(next, rest, i - used);
      assert Events(s, steps)[i] == Events(next, rest)[i - used];
    }
  }

  /**
   * For every interleaving of stale reads, locked transactions, duplicates and other steps the
   * attempt ends at the highest outcome reported about it, in the order pending, failed, paid;
   * if its checkout was rejected on the way, at the highest since then, and at least failed.
   */
  lemma NotificationsConverge(s: Inbox, steps: seq<Step>, pid: PaymentId)
    requires pid in s.db.payments && s.db.payments[pid].status != Refunded
    requires Other(PurgeSubmission(s.db.payments[pid].submission)) !in steps
    ensures var after, since := Process(s, steps).db.payments, SinceRejection(s.db, Events(s, steps), pid);
            && pid in after
            && Rank(after[pid].status)
               == if since.Some? then Max(1, since.value)
                  else Max(Rank(s.db.payments[pid].status), Highest(s.db, Events(s, steps), pid))
  {
    hide Process, Events, Run, SinceRejection, Highest, Rank;
    ProcessIsRun(s, steps);
    var events := Events(s, steps);
    forall i | 0 <= i < |events|
      ensures events[i] != PurgeSubmission(s.db.payments[pid].submission)
    {
      EventsAre(s, steps, i);
    }
    RunStatus(s.db, events, pid);
  }

  /**
   * Once paid, notifications of any content and in any order never touch status or
   * identifiers; only a late answer of the attempt's own checkout can.
   */
  lemma PaidIdentifiersStay(s: Inbox, steps: seq<Step>, pid: PaymentId)
    requires pid in s.db.payments && s.db.payments[pid].status == Succeeded
    requires forall e :: Other(e) in steps ==> LeavesCheckout(e, pid)
    ensures pid in Process(s, steps).db.payments
    ensures var p, was := Process(s, steps).db.payments[pid], s.db.payments[pid];
            p.status == Succeeded && p.session == was.session && p.transaction == was.transaction
  {
    hide Process, Events, Run;
    ProcessIsRun(s, steps);
    var events := Events(s, steps);
    forall i | 0 <= i < |events|
      ensures LeavesCheckout(events[i], pid)
    {
      EventsAre(s, steps, i);
    }
    SettledIdentifiersStay(s.db, events, pid);
  }

  // ---------------------------------------------------------------------
  // Which success notifications are heard
  // ---------------------------------------------------------------------

  /** Every attempt has one provider session and one transaction of its own. */
  ghost predicate OwnIds(ids: PaymentId -> (nat, nat)) {
    forall p, q :: p != q ==> ids(p).0 != ids(q).0 && ids(p).1 != ids(q).1
  }

  ghost predicate Faithful(payments: Payments, ids: PaymentId -> (nat, nat)) {
    forall p :: p in payments ==>
      && (payments[p].session.Some? ==> payments[p].session.value == ids(p).0)
      && (payments[p].transaction.Some? ==> payments[p].transaction.value == ids(p).1)
      && (payments[p].status == Succeeded ==> payments[p].session.Some? && payments[p].transaction.Some?)
      && payments[p].status != Refunded
  }

  lemma HeardOnce(db: Db, ids: PaymentId -> (nat, nat), pid: PaymentId)
    requires Faithful(db.payments, ids) && OwnIds(ids) && PaymentRules.Payable(db, pid)
    ensures Reported(db, NotifyPaid(pid, ids(pid).0, ids(pid).1), pid) == 2
  {
    assert !PaymentRules.SessionTaken(db.payments, pid, ids(pid).0);
    assert !PaymentRules.TransactionTaken(db.payments, pid, ids(pid).1);
    hide PaymentRules.SessionTaken, PaymentRules.TransactionTaken;
  }

  /** Whatever the provider sends about an attempt carries that attempt's own identifiers. */
  predicate OwnWriter(e: Event, ids: PaymentId -> (nat, nat)) {
    && (e.NotifyPaid? ==> e.session == ids(e.pid).0 && e.transaction == ids(e.pid).1)
    && (e.RecordSession? ==> e.session == ids(e.pid).0)
  }

  lemma FaithfulStep(db: Db, e: Event, ids: PaymentId -> (nat, nat))
    requires Faithful(db.payments, ids) && OwnWriter(e, ids)
    ensures Faithful(Apply(db, e).0.payments, ids)
  {
    hide Apply;
    if e.NotifyPaid? || e.RecordSession? {
      WriterFaithful(db, e, ids);
    } else if e.OpenCheckout? || e.RejectCheckout? || e.NotifyFailed? || e.PurgeSubmission? {
      OtherFaithful(db, e, ids);
    } else {
      PaymentsUntouched(db, e);
    }
  }

  lemma WriterFaithful(db: Db, e: Event, ids: PaymentId -> (nat, nat))
    requires Faithful(db.payments, ids) && OwnWriter(e, ids) && (e.NotifyPaid? || e.RecordSession?)
    ensures Faithful(Apply(db, e).0.payments, ids)
  {
    hide PaymentRules.SessionTaken, PaymentRules.TransactionTaken;
  }

  lemma OtherFaithful(db: Db, e: Event, ids: PaymentId -> (nat, nat))
    requires Faithful(db.payments, ids)
             && (e.OpenCheckout? || e.RejectCheckout? || e.NotifyFailed? || e.PurgeSubmission?)
    ensures Faithful(Apply(db, e).0.payments, ids)
  {
    hide SubmissionRules.OnlyDeadPayments, SubmissionRules.Referenced, SetOf;
  }

  lemma {:induction false} FaithfulRun(db: Db, events: seq<Event>, ids: PaymentId -> (nat, nat))
    requires Faithful(db.payments, ids) && forall i :: 0 <= i < |events| ==> OwnWriter(events[i], ids)
    ensures Faithful(Run(db, events).payments, ids)
    decreases |events|
  {
    hide Apply, Faithful, OwnWriter;
    if events != [] {
      FaithfulStep(db, events[0], ids);
      FaithfulRun(Apply(db, events[0]).0, events[1..], ids);
    }
  }

  /**
   * While the provider keeps to each attempt's own identifiers, a success notification is
   * refused only when the Submission is withdrawn, in every run.
   */
  lemma OwnNotificationsAreHeard(db: Db, events: seq<Event>, ids: PaymentId -> (nat, nat), pid: PaymentId)
    requires Faithful(db.payments, ids) && OwnIds(ids)
    requires forall i :: 0 <= i < |events| ==> OwnWriter(events[i], ids)
    ensures var later := Run(db, events);
            PaymentRules.Payable(later, pid) ==> Reported(later, NotifyPaid(pid, ids(pid).0, ids(pid).1), pid) == 2
  {
    hide Run, Faithful, OwnWriter, OwnIds, Reported, PaymentRules.Payable;
    FaithfulRun(db, events, ids);
    if PaymentRules.Payable(Run(db, events), pid) {
      HeardOnce(Run(db, events), ids, pid);
    }
  }

  // ---------------------------------------------------------------------
  // One trigger
  // ---------------------------------------------------------------------

  /** Over all attempts of one Submission, and all their notifications, assignment starts at most once. */
  lemma NotificationsAssignOnce(s: Inbox, steps: seq<Step>, sid: SubmissionId)
    requires Consistent(s.db)
    ensures Process(s, steps).db == Run(s.db, Events(s, steps))
    ensures Triggers(s.db, Events(s, steps), sid) <= 1
  {
    hide Consistent, Process, Events, Run;
    ProcessIsRun(s, steps);
    AssignedOnce(s.db, Events(s, steps), sid);
  }
}
