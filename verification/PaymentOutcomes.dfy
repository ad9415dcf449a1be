/**
 * With identifiers of each attempt's own, the status an attempt ends with is decided by the
 * notifications sent about it, not by when they are read or committed.
 */
module PaymentOutcomes {
  import opened Options
  import opened Records
  import opened Lifecycle
  import opened PaymentStatus
  import opened PaymentNotifications
  import ExaminerRules
  import FlagRules
  import PaymentRules
  import SubmissionRules
  import AccountRules

  // ---------------------------------------------------------------------
  // A Submission that is not withdrawn
  // ---------------------------------------------------------------------

  lemma SubmissionServiceRetains(db: Db, e: Event, sid: SubmissionId)
    requires IsRetained(db.submissions, sid) && e != QuarantineSubmission(sid)
    requires e.Register? || e.StartAssessment? || e.Abandon? || e.Heartbeat? || e.Sweep? || e.QuarantineSubmission?
          || e.RecoverSubmission? || e.PurgeSubmission? || e.RaiseDeviceFlag? || e.RaiseIntegrityConcern?
          || e.ConfirmFlag?
    ensures IsRetained(Apply(db, e).0.submissions, sid)
  {
    hide SetOf, SubmissionRules.HasActive, SubmissionRules.OnlyDeadPayments, SubmissionRules.Referenced;
  }

  lemma PaymentServiceRetains(db: Db, e: Event, sid: SubmissionId)
    requires IsRetained(db.submissions, sid)
    requires e.OpenCheckout? || e.RejectCheckout? || e.RecordSession? || e.NotifyFailed? || e.NotifyPaid? || e.Waive?
          || e.Complete? || e.DismissFlag?
    ensures IsRetained(Apply(db, e).0.submissions, sid)
  {
    hide Apply, IsRetained;
    if e.Complete? || e.DismissFlag? {
      RoutingRetains(db, e, sid);
    } else {
      PaymentsRetain(db, e, sid);
    }
  }

  lemma RoutingRetains(db: Db, e: Event, sid: SubmissionId)
    requires IsRetained(db.submissions, sid) && (e.Complete? || e.DismissFlag?)
    ensures IsRetained(Apply(db, e).0.submissions, sid)
  {
    hide FlagRules.OldestCredit, HasOpenFlag;
  }

  lemma PaymentsRetain(db: Db, e: Event, sid: SubmissionId)
    requires IsRetained(db.submissions, sid)
    requires e.OpenCheckout? || e.RejectCheckout? || e.RecordSession? || e.NotifyFailed? || e.NotifyPaid? || e.Waive?
    ensures IsRetained(Apply(db, e).0.submissions, sid)
  {
    hide PaymentRules.SessionTaken, PaymentRules.TransactionTaken;
  }

  lemma ExaminerServiceRetains(db: Db, e: Event, sid: SubmissionId)
    requires IsRetained(db.submissions, sid)
    requires e.CreateAssignmentSet? || e.StartScoring? || e.SaveScore? || e.CompleteScoring? || e.Reassign?
          || e.Transition?
    ensures IsRetained(Apply(db, e).0.submissions, sid)
  {
    hide HasOpenFlag, SetOf, ValidSet, TwoDistinct, ExaminerRules.Eligible, ExaminerRules.ValidScore,
         AccountRules.SetsValid, AccountRules.Lines, AccountRules.Transferred, AccountRules.TransferProblem,
         AccountRules.DistinctValues, AccountRules.ActiveAdmins, AccountRules.Replay;
  }

  /** Only a quarantine withdraws a retained Submission. */
  lemma StaysRetained(db: Db, e: Event, sid: SubmissionId)
    requires IsRetained(db.submissions, sid) && e != QuarantineSubmission(sid)
    ensures IsRetained(Apply(db, e).0.submissions, sid)
  {
    hide Apply, IsRetained;
    if e.CreateAssignmentSet? || e.StartScoring? || e.SaveScore? || e.CompleteScoring? || e.Reassign?
       || e.Transition? {
      ExaminerServiceRetains(db, e, sid);
    } else if e.OpenCheckout? || e.RejectCheckout? || e.RecordSession? || e.NotifyFailed? || e.NotifyPaid? || e.Waive?
           || e.Complete? || e.DismissFlag? {
      PaymentServiceRetains(db, e, sid);
    } else {
      SubmissionServiceRetains(db, e, sid);
    }
  }

  lemma PurgeRefused(db: Db, sid: SubmissionId)
    requires IsRetained(db.submissions, sid)
    ensures Apply(db, PurgeSubmission(sid)).0 == db
  {
    hide SetOf, SubmissionRules.OnlyDeadPayments, SubmissionRules.Referenced;
  }

  // ---------------------------------------------------------------------
  // Outcomes of lifecycle steps
  // ---------------------------------------------------------------------

  /** The outcome a step carries about `pid`, read off the step alone. */
  function Carried(e: Event, pid: PaymentId): nat {
    match e
    case NotifyPaid(p, _, _) => if p == pid then 2 else 0
    case NotifyFailed(p) => if p == pid then 1 else 0
    case _ => 0
  }

  /** While the Submission is retained nothing that is sent about an attempt is refused. */
  lemma CarriedIsReported(db: Db, e: Event, ids: PaymentId -> (nat, nat), pid: PaymentId)
    requires Faithful(db.payments, ids) && OwnIds(ids) && OwnWriter(e, ids) && PaymentRules.Payable(db, pid)
    ensures Reported(db, e, pid) == Carried(e, pid)
    ensures Rejects(db, e, pid) <==> e == RejectCheckout(pid)
  {
    hide Faithful, OwnIds, Apply, PaymentRules.Payable;
    if e.NotifyPaid? && e.pid == pid { HeardOnce(db, ids, pid); }
  }

  /** What any step makes of the status of an attempt whose Submission is retained. */
  lemma CarriedStep(db: Db, e: Event, ids: PaymentId -> (nat, nat), pid: PaymentId)
    requires Faithful(db.payments, ids) && OwnIds(ids) && OwnWriter(e, ids) && PaymentRules.Payable(db, pid)
    ensures var after := Apply(db, e).0.payments;
            && pid in after && after[pid].submission == db.payments[pid].submission
            && Rank(after[pid].status)
               == if e == RejectCheckout(pid) then 1 else Max(Rank(db.payments[pid].status), Carried(e, pid))
  {
    hide OwnIds, OwnWriter, Apply, Rank, Reported, Rejects;
    if e == PurgeSubmission(db.payments[pid].submission) {
      PurgeRefused(db, db.payments[pid].submission);
    } else {
      CarriedIsReported(db, e, ids, pid);
      StatusStep(db, e, pid);
    }
  }

  // ---------------------------------------------------------------------
  // Plain runs
  // ---------------------------------------------------------------------

  function HighestCarried(events: seq<Event>, pid: PaymentId): nat {
    if events == [] then 0 else Max(Carried(events[0], pid), HighestCarried(events[1..], pid))
  }

  /** The highest outcome carried after the last rejection of the checkout, if there is one. */
  function CarriedSinceRejection(events: seq<Event>, pid: PaymentId): Option<nat> {
    if events == [] then None
    else
      var later := CarriedSinceRejection(events[1..], pid);
      if later.Some? then later
      else if events[0] == RejectCheckout(pid) then Some(HighestCarried(events[1..], pid)) else None
  }

  /** The Submission of `pid` is retained in every state of the run. */
  predicate PayableAlong(db: Db, events: seq<Event>, pid: PaymentId)
    decreases |events|
  {
    PaymentRules.Payable(db, pid) && (events != [] ==> PayableAlong(Apply(db, events[0]).0, events[1..], pid))
  }

  /** What a run reports about an attempt is a function of the steps alone. */
  lemma {:induction false} RunReportsWhatItCarries(db: Db, events: seq<Event>, ids: PaymentId -> (nat, nat),
                                                   pid: PaymentId)
    requires Faithful(db.payments, ids) && OwnIds(ids) && PayableAlong(db, events, pid)
    requires forall i :: 0 <= i < |events| ==> OwnWriter(events[i], ids)
    ensures Highest(db, events, pid) == HighestCarried(events, pid)
    ensures SinceRejection(db, events, pid) == CarriedSinceRejection(events, pid)
    decreases |events|
  {
    hide Faithful, OwnIds, OwnWriter, Apply, Reported, Rejects, Carried, PaymentRules.Payable;
    if events != [] {
      CarriedIsReported(db, events[0], ids, pid);
      FaithfulStep(db, events[0], ids);
      RunReportsWhatItCarries(Apply(db, events[0]).0, events[1..], ids, pid);
    }
  }

  /**
   * The status an attempt ends with is the highest outcome carried by the run's steps, in the
   * order pending, failed, paid, or, once its checkout was rejected, the highest since then and
   * at least failed: no step's own result comes into it.
   */
  lemma {:induction false} RunDecidesStatus(db: Db, events: seq<Event>, ids: PaymentId -> (nat, nat), pid: PaymentId)
    requires Faithful(db.payments, ids) && OwnIds(ids) && PayableAlong(db, events, pid)
    requires forall i :: 0 <= i < |events| ==> OwnWriter(events[i], ids)
    ensures var after, since := Run(db, events).payments, CarriedSinceRejection(events, pid);
            && pid in after
            && Rank(after[pid].status)
               == if since.Some? then Max(1, since.value)
                  else Max(Rank(db.payments[pid].status), HighestCarried(events, pid))
    decreases |events|
  {
    hide Faithful, OwnIds, OwnWriter, Apply, Rank, Carried;
    if events != [] {
      CarriedStep(db, events[0], ids, pid);
      FaithfulStep(db, events[0], ids);
      RunDecidesStatus(Apply(db, events[0]).0, events[1..], ids, pid);
    }
  }

  // ---------------------------------------------------------------------
  // Runs with notifications
  // ---------------------------------------------------------------------

  /** The outcome a notification states; an unconfirmed success and an unknown status state none. */
  function Stated(n: Notification, pid: PaymentId): nat {
    if n.pid != pid then 0
    else if n.callback == Success && n.verified then 2
    else if n.callback == Failure then 1 else 0
  }

  function HighestStated(ns: seq<Notification>, pid: PaymentId): nat {
    if ns == [] then 0 else Max(Stated(ns[0], pid), HighestStated(ns[1..], pid))
  }

  /** What a step brings in about `pid` from outside; a commit only acts on what was read before. */
  function Sent(step: Step, pid: PaymentId): nat {
    match step
    case Receive(n) => Stated(n, pid)
    case Commit(_) => 0
    case Other(e) => Carried(e, pid)
  }

  function HighestSent(steps: seq<Step>, pid: PaymentId): nat {
    if steps == [] then 0 else Max(Sent(steps[0], pid), HighestSent(steps[1..], pid))
  }

  /** Notifications and other writes carry the identifiers of the attempt they are about. */
  predicate OwnStep(step: Step, ids: PaymentId -> (nat, nat)) {
    match step
    case Receive(n) => n.session == ids(n.pid).0 && n.transaction == ids(n.pid).1
    case Commit(_) => true
    case Other(e) => OwnWriter(e, ids)
  }

  /** What has been read and let through. */
  predicate Taken(n: Notification, ids: PaymentId -> (nat, nat)) {
    && n.session == ids(n.pid).0 && n.transaction == ids(n.pid).1
    && n.callback != Undecided && (n.callback == Success ==> n.verified)
  }

  ghost predicate OwnInbox(s: Inbox, ids: PaymentId -> (nat, nat)) {
    && Faithful(s.db.payments, ids)
    && forall i :: 0 <= i < |s.waiting| ==> Taken(s.waiting[i], ids)
  }

  /** The Submission of `pid` is retained in every state. */
  predicate PayableThroughout(s: Inbox, steps: seq<Step>, pid: PaymentId)
    decreases |steps|
  {
    PaymentRules.Payable(s.db, pid) && (steps != [] ==> PayableThroughout(Next(s, steps[0]), steps[1..], pid))
  }

  lemma {:induction false} StatedConcat(a: seq<Notification>, b: seq<Notification>, pid: PaymentId)
    ensures HighestStated(a + b, pid) == Max(HighestStated(a, pid), HighestStated(b, pid))
  {
    if a == [] {
      assert a + b == b;
    } else {
      assert (a + b)[1..] == a[1..] + b;
      StatedConcat(a[1..], b, pid);
    }
  }

  lemma StatedWithout(ns: seq<Notification>, k: nat, pid: PaymentId)
    requires k < |ns|
    ensures HighestStated(ns, pid) == Max(HighestStated(ns[..k] + ns[k + 1..], pid), Stated(ns[k], pid))
  {
    assert ns == ns[..k] + ns[k..] && ns[k..][1..] == ns[k + 1..];
    StatedConcat(ns[..k], ns[k..], pid);
    StatedConcat(ns[..k], ns[k + 1..], pid);
  }

  lemma TakenIsOwn(n: Notification, ids: PaymentId -> (nat, nat), pid: PaymentId)
    requires Taken(n, ids)
    ensures OwnWriter(Transaction(n), ids) && Carried(Transaction(n), pid) == Stated(n, pid)
    ensures !Transaction(n).RejectCheckout?
  {
  }

  /** The status an attempt is heading for: what it has, or what waits to be committed. */
  function Heading(s: Inbox, pid: PaymentId): nat
    requires pid in s.db.payments
  {
    Max(Rank(s.db.payments[pid].status), HighestStated(s.waiting, pid))
  }

  lemma ReceiveHeads(s: Inbox, n: Notification, ids: PaymentId -> (nat, nat), pid: PaymentId)
    requires OwnInbox(s, ids) && OwnStep(Receive(n), ids) && PaymentRules.Payable(s.db, pid)
    ensures var next := Next(s, Receive(n));
            OwnInbox(next, ids) && next.db == s.db && Heading(next, pid) == Max(Heading(s, pid), Stated(n, pid))
  {
    StatedConcat(s.waiting, [n], pid);
    assert HighestStated([n], pid) == Stated(n, pid);
    if !Accepts(s.db, n) && n.pid == pid {
      assert n.callback == Failure ==> s.db.payments[pid].status == Succeeded;
    }
  }

  lemma CommitHeads(s: Inbox, k: nat, ids: PaymentId -> (nat, nat), pid: PaymentId)
    requires OwnInbox(s, ids) && OwnIds(ids) && PaymentRules.Payable(s.db, pid)
    ensures var next := Next(s, Commit(k));
            OwnInbox(next, ids) && pid in next.db.payments && Heading(next, pid) == Heading(s, pid)
  {
    hide Faithful, OwnIds, OwnWriter, Taken, Apply, Rank, Carried, Stated, PaymentRules.Payable;
    PayableIsKnown(s.db, pid);
    if k < |s.waiting| {
      StatedWithout(s.waiting, k, pid);
      TakenIsOwn(s.waiting[k], ids, pid);
      FaithfulStep(s.db, Transaction(s.waiting[k]), ids);
      CarriedStep(s.db, Transaction(s.waiting[k]), ids, pid);
    }
  }

  lemma OtherHeads(s: Inbox, e: Event, ids: PaymentId -> (nat, nat), pid: PaymentId)
    requires OwnInbox(s, ids) && OwnIds(ids) && OwnWriter(e, ids) && PaymentRules.Payable(s.db, pid)
    ensures var next := Next(s, Other(e));
            && OwnInbox(next, ids) && pid in next.db.payments
            && Heading(next, pid)
               == if e == RejectCheckout(pid) then Max(1, HighestStated(s.waiting, pid))
                  else Max(Heading(s, pid), Carried(e, pid))
  {
    hide Faithful, OwnIds, OwnWriter, Taken, Apply, Rank, Carried, HighestStated;
    FaithfulStep(s.db, e, ids);
    CarriedStep(s.db, e, ids, pid);
  }

  /**
   * Every run takes the attempt to the highest outcome sent about it, wherever it was heading
   * before: no notification that was sent is lost, refused or overtaken, and nothing else counts.
   */
  lemma {:induction false} HighestSentWins(s: Inbox, steps: seq<Step>, ids: PaymentId -> (nat, nat), pid: PaymentId)
    requires OwnInbox(s, ids) && OwnIds(ids) && PayableThroughout(s, steps, pid)
    requires forall i :: 0 <= i < |steps| ==> OwnStep(steps[i], ids) && steps[i] != Other(RejectCheckout(pid))
    ensures pid in Process(s, steps).db.payments
    ensures Heading(Process(s, steps), pid) == Max(Heading(s, pid), HighestSent(steps, pid))
    decreases |steps|
  {
    hide OwnInbox, OwnIds, OwnWriter, Heading, Next, Stated, Carried;
    if steps != [] {
      assert OwnStep(steps[0], ids);
      match steps[0] {
        case Receive(n) => ReceiveHeads(s, n, ids, pid);
        case Commit(k) => CommitHeads(s, k, ids, pid);
        case Other(e) => OtherHeads(s, e, ids, pid);
      }
      HighestSentWins(Next(s, steps[0]), steps[1..], ids, pid);
    }
  }

  // ---------------------------------------------------------------------
  // Order
  // ---------------------------------------------------------------------

  lemma {:induction false} HighestSentMeans(steps: seq<Step>, pid: PaymentId)
    ensures forall step :: step in steps ==> Sent(step, pid) <= HighestSent(steps, pid)
    ensures HighestSent(steps, pid) == 0 || exists step :: step in steps && Sent(step, pid) == HighestSent(steps, pid)
  {
    hide Sent;
    if steps != [] {
      HighestSentMeans(steps[1..], pid);
      assert forall step :: step in steps <==> step == steps[0] || step in steps[1..];
    }
  }

  lemma SameSent(first: seq<Step>, second: seq<Step>, pid: PaymentId)
    requires forall step: Step :: step in first && !step.Commit? ==> step in second
    ensures HighestSent(first, pid) <= HighestSent(second, pid)
  {
    HighestSentMeans(first, pid);
    HighestSentMeans(second, pid);
  }

  /**
   * Two runs from one state that bring in the same notifications and other steps, in any two
   * orders, with any duplicates, reads and commits interleaved in any way, leave the attempt in
   * the same status, once everything that was read is committed.
   */
  lemma OrderDoesNotMatter(s: Inbox, first: seq<Step>, second: seq<Step>, ids: PaymentId -> (nat, nat), pid: PaymentId)
    requires OwnInbox(s, ids) && OwnIds(ids)
    requires PayableThroughout(s, first, pid) && PayableThroughout(s, second, pid)
    requires forall i :: 0 <= i < |first| ==> OwnStep(first[i], ids) && first[i] != Other(RejectCheckout(pid))
    requires forall i :: 0 <= i < |second| ==> OwnStep(second[i], ids) && second[i] != Other(RejectCheckout(pid))
    requires forall step: Step :: !step.Commit? ==> (step in first <==> step in second)
    requires Process(s, first).waiting == [] && Process(s, second).waiting == []
    ensures pid in Process(s, first).db.payments && pid in Process(s, second).db.payments
    ensures Process(s, first).db.payments[pid].status == Process(s, second).db.payments[pid].status
  {
    hide OwnInbox, OwnIds, OwnStep, Process, HighestSent, PayableThroughout;
    PayableThen(s, first, pid);
    HighestSentWins(s, first, ids, pid);
    HighestSentWins(s, second, ids, pid);
    SameSent(first, second, pid);
    SameSent(second, first, pid);
  }

  lemma PayableThen(s: Inbox, steps: seq<Step>, pid: PaymentId)
    requires PayableThroughout(s, steps, pid)
    ensures PaymentRules.Payable(s.db, pid)
  {
  }

  /**
   * The same read as a table: paid exactly if it was paid or a confirmed success was sent, else
   * failed exactly if it had failed or a failure was sent, else as it was.
   */
  lemma StatusIsWhatWasSent(s: Inbox, steps: seq<Step>, ids: PaymentId -> (nat, nat), pid: PaymentId)
    requires OwnInbox(s, ids) && OwnIds(ids) && PayableThroughout(s, steps, pid) && s.waiting == []
    requires forall i :: 0 <= i < |steps| ==> OwnStep(steps[i], ids) && steps[i] != Other(RejectCheckout(pid))
    requires Process(s, steps).waiting == []
    ensures pid in s.db.payments && pid in Process(s, steps).db.payments
    ensures var before, after := s.db.payments[pid].status, Process(s, steps).db.payments[pid].status;
            var paid := before == Succeeded || exists step :: step in steps && Sent(step, pid) == 2;
            var failed := before == Failed || exists step :: step in steps && Sent(step, pid) == 1;
            after == if paid then Succeeded else if failed then Failed else Pending
  {
    hide OwnIds, OwnStep, Process, PayableThroughout, Sent, Taken;
    PayableThen(s, steps, pid);
    HighestSentWins(s, steps, ids, pid);
    HighestSentMeans(steps, pid);
    SentBounded(pid);
  }

  lemma SentBounded(pid: PaymentId)
    ensures forall step: Step :: Sent(step, pid) <= 2
  {
  }

  /** After a rejection of the checkout the same holds from there on, with what had been read by then. */
  lemma RejectionStartsAfresh(s: Inbox, steps: seq<Step>, ids: PaymentId -> (nat, nat), pid: PaymentId)
    requires OwnInbox(s, ids) && OwnIds(ids) && PayableThroughout(s, [Other(RejectCheckout(pid))] + steps, pid)
    requires forall i :: 0 <= i < |steps| ==> OwnStep(steps[i], ids) && steps[i] != Other(RejectCheckout(pid))
    ensures var after := Process(s, [Other(RejectCheckout(pid))] + steps);
            && pid in after.db.payments
            && Heading(after, pid) == Max(Max(1, HighestStated(s.waiting, pid)), HighestSent(steps, pid))
  {
    hide OwnInbox, OwnIds, OwnStep, Heading, Next, HighestSent;
    assert ([Other(RejectCheckout(pid))] + steps)[1..] == steps;
    OtherHeads(s, RejectCheckout(pid), ids, pid);
    HighestSentWins(Next(s, Other(RejectCheckout(pid))), steps, ids, pid);
  }

  // ---------------------------------------------------------------------
  // Without a quarantine
  // ---------------------------------------------------------------------

  lemma TransactionRetains(n: Notification, sid: SubmissionId)
    ensures Transaction(n) != QuarantineSubmission(sid)
  {
  }

  lemma PayableStep(s: Inbox, step: Step, ids: PaymentId -> (nat, nat), pid: PaymentId)
    requires OwnInbox(s, ids) && OwnIds(ids) && OwnStep(step, ids) && PaymentRules.Payable(s.db, pid)
    requires step != Other(QuarantineSubmission(s.db.payments[pid].submission))
    ensures var next := Next(s, step);
            && OwnInbox(next, ids) && PaymentRules.Payable(next.db, pid)
            && next.db.payments[pid].submission == s.db.payments[pid].submission
  {
    hide Faithful, OwnIds, OwnWriter, Taken, Apply, IsRetained, Rank, Carried, Accepts;
    var sid := s.db.payments[pid].submission;
    match step
    case Receive(n) =>
      ReceiveHeads(s, n, ids, pid);
    case Commit(k) =>
      if k < |s.waiting| {
        TakenIsOwn(s.waiting[k], ids, pid);
        CommitHeads(s, k, ids, pid);
        CarriedStep(s.db, Transaction(s.waiting[k]), ids, pid);
        TransactionRetains(s.waiting[k], sid);
        StaysRetained(s.db, Transaction(s.waiting[k]), sid);
      }
    case Other(e) =>
      OtherHeads(s, e, ids, pid);
      CarriedStep(s.db, e, ids, pid);
      StaysRetained(s.db, e, sid);
  }

  /** A run that does not quarantine the Submission never withdraws it. */
  lemma {:induction false} UnquarantinedIsPayable(s: Inbox, steps: seq<Step>, ids: PaymentId -> (nat, nat),
                                                  pid: PaymentId)
    requires OwnInbox(s, ids) && OwnIds(ids) && PaymentRules.Payable(s.db, pid)
    requires forall i :: 0 <= i < |steps| ==>
               OwnStep(steps[i], ids) && steps[i] != Other(QuarantineSubmission(s.db.payments[pid].submission))
    ensures PayableThroughout(s, steps, pid)
    decreases |steps|
  {
    hide OwnInbox, OwnIds, OwnStep, Next;
    if steps != [] {
      PayableStep(s, steps[0], ids, pid);
      UnquarantinedIsPayable(Next(s, steps[0]), steps[1..], ids, pid);
    }
  }
}
