/** Automatic assignment starts once for every Submission that gets cleared. */
module AssignmentTrigger {
  import opened Options
  import opened Records
  import opened LifecycleInvariant
  import opened LifecycleRows
  import opened Lifecycle
  import opened LifecycleHistory
  import ExaminerRules
  import FlagRules
  import PaymentRules
  import SubmissionRules
  import AccountRules

  /** The Submission for which a step starts automatic assignment. */
  function TriggerOf(db: Db, e: Event): Option<SubmissionId> {
    if Apply(db, e).1 != AssignNow then None
    else
      match e
      case Complete(sid, _, _, _, _) => Some(sid)
      case DismissFlag(fid, _, _, _) => if fid in db.flags then Some(db.flags[fid].submission) else None
      case NotifyPaid(pid, _, _) => if pid in db.payments then Some(db.payments[pid].submission) else None
      case Waive(sid, _) => Some(sid)
      case _ => None
  }

  function Triggers(db: Db, events: seq<Event>, sid: SubmissionId): nat
    decreases |events|
  {
    if events == [] then 0
    else (if TriggerOf(db, events[0]) == Some(sid) then 1 else 0) + Triggers(Apply(db, events[0]).0, events[1..], sid)
  }

  function StageAt(db: Db, sid: SubmissionId): nat {
    if sid in db.submissions then Stage(db.submissions[sid]) else 0
  }

  /** The trigger is exactly the step across the line between unpaid and paid. */
  ghost predicate Crosses(db: Db, e: Event, sid: SubmissionId) {
    var next := Apply(db, e).0;
    && (TriggerOf(db, e) == Some(sid) ==> StageAt(db, sid) < 3 && StageAt(next, sid) == 3)
    && (TriggerOf(db, e) != Some(sid) && StageAt(db, sid) < 3 ==> StageAt(next, sid) < 3 || StageAt(next, sid) >= 7)
  }

  lemma SubmissionServiceCrosses(db: Db, e: Event, sid: SubmissionId)
    requires e.Register? || e.StartAssessment? || e.Abandon? || e.Heartbeat? || e.Sweep?
          || e.QuarantineSubmission? || e.RecoverSubmission? || e.PurgeSubmission?
    ensures Crosses(db, e, sid)
  {
    hide SubmissionRules.HasActive, SubmissionRules.OnlyDeadPayments, SubmissionRules.Referenced, SetOf;
  }

  lemma RouteCrosses(db: Db, sid: SubmissionId, paymentEnabled: bool, locked: set<nat>, other: SubmissionId)
    requires sid in db.submissions
    ensures var r := FlagRules.Route(db, sid, paymentEnabled, locked);
            && (r.1 == AssignNow ==> StageAt(r.0, sid) == 3)
            && (r.1 != AssignNow ==> r.1 == Done && StageAt(r.0, sid) == 2)
            && (other != sid ==> StageAt(r.0, other) == StageAt(db, other))
  {
  }

  lemma CompleteCrosses(db: Db, e: Event, sid: SubmissionId)
    requires e.Complete?
    ensures Crosses(db, e, sid)
  {
    hide FlagRules.Route, HasOpenFlag;
    if e.sid in db.submissions { RouteCrosses(db, e.sid, e.paymentEnabled, e.locked, sid); }
  }

  lemma FlagServiceCrosses(db: Db, e: Event, sid: SubmissionId)
    requires e.RaiseDeviceFlag? || e.RaiseIntegrityConcern? || e.ConfirmFlag?
    ensures Crosses(db, e, sid)
  {
  }

  lemma DismissCrosses(db: Db, ix: Index, e: Event, sid: SubmissionId)
    requires Inv(db, ix) && e.DismissFlag?
    ensures Crosses(db, e, sid)
  {
    hide Inv, FlagRules.Route, HasOpenFlag;
    if FlagRules.ResolveProblem(db, e.fid, e.admin) == None {
      var at := db.flags[e.fid].submission;
      AtSubmission(db, ix, at);
      var dismissed := db.(flags := db.flags[e.fid := db.flags[e.fid].(resolution := Some(Dismissed))]);
      RouteCrosses(dismissed, at, e.paymentEnabled, e.locked, sid);
    }
  }

  lemma PaymentServiceCrosses(db: Db, e: Event, sid: SubmissionId)
    requires e.OpenCheckout? || e.RejectCheckout? || e.RecordSession? || e.NotifyFailed? || e.NotifyPaid? || e.Waive?
    ensures Crosses(db, e, sid)
  {
    hide PaymentRules.SessionTaken, PaymentRules.TransactionTaken;
  }

  lemma ExaminerServiceCrosses(db: Db, e: Event, sid: SubmissionId)
    requires e.CreateAssignmentSet? || e.StartScoring? || e.SaveScore? || e.Reassign?
    ensures Crosses(db, e, sid)
  {
    hide HasOpenFlag, SetOf, TwoDistinct, ExaminerRules.Eligible, ExaminerRules.ValidScore;
  }

  lemma CompleteScoringCrosses(db: Db, e: Event, sid: SubmissionId)
    requires e.CompleteScoring?
    ensures Crosses(db, e, sid)
  {
    hide HasOpenFlag, SetOf, ValidSet, ExaminerRules.ValidScore;
  }

  lemma TransitionCrosses(db: Db, e: Event, sid: SubmissionId)
    requires e.Transition?
    ensures Crosses(db, e, sid)
  {
    hide AccountRules.SetsValid, AccountRules.Lines, AccountRules.Transferred, AccountRules.TransferProblem,
         AccountRules.DistinctValues, AccountRules.ActiveAdmins, AccountRules.Replay;
  }

  lemma StepCrosses(db: Db, ix: Index, e: Event, sid: SubmissionId)
    requires Inv(db, ix)
    ensures Crosses(db, e, sid)
  {
    hide Inv, Crosses;
    match e
    case Complete(_, _, _, _, _) => CompleteCrosses(db, e, sid);
    case RaiseDeviceFlag(_, _, _, _) => FlagServiceCrosses(db, e, sid);
    case RaiseIntegrityConcern(_, _, _, _) => FlagServiceCrosses(db, e, sid);
    case ConfirmFlag(_, _) => FlagServiceCrosses(db, e, sid);
    case DismissFlag(_, _, _, _) => DismissCrosses(db, ix, e, sid);
    case OpenCheckout(_, _, _) => PaymentServiceCrosses(db, e, sid);
    case RejectCheckout(_) => PaymentServiceCrosses(db, e, sid);
    case RecordSession(_, _) => PaymentServiceCrosses(db, e, sid);
    case NotifyFailed(_) => PaymentServiceCrosses(db, e, sid);
    case NotifyPaid(_, _, _) => PaymentServiceCrosses(db, e, sid);
    case Waive(_, _) => PaymentServiceCrosses(db, e, sid);
    case CreateAssignmentSet(_, _, _, _, _) => ExaminerServiceCrosses(db, e, sid);
    case StartScoring(_, _) => ExaminerServiceCrosses(db, e, sid);
    case SaveScore(_, _, _) => ExaminerServiceCrosses(db, e, sid);
    case Reassign(_, _, _, _) => ExaminerServiceCrosses(db, e, sid);
    case CompleteScoring(_, _) => CompleteScoringCrosses(db, e, sid);
    case Transition(_, _, _, _, _) => TransitionCrosses(db, e, sid);
    case _ => SubmissionServiceCrosses(db, e, sid);
  }

  lemma StageGrows(before: Db, after: Db, sid: SubmissionId)
    requires Evolves(before, after)
    ensures StageAt(before, sid) <= StageAt(after, sid)
    ensures StageAt(before, sid) >= 7 ==> StageAt(after, sid) == StageAt(before, sid)
  {
    hide AssignmentsEvolve, FlagsEvolve, CreditsEvolve, PaymentsEvolve, UsersEvolve;
  }

  /**
   * Over any run: none for a Submission already cleared, at most one in all, and
   * exactly one for a Submission that becomes cleared.
   */
  lemma {:induction false} AssignedOnce(db: Db, events: seq<Event>, sid: SubmissionId)
    requires Consistent(db)
    ensures Triggers(db, events, sid) <= 1
    ensures StageAt(db, sid) >= 3 ==> Triggers(db, events, sid) == 0
    ensures StageAt(db, sid) < 3 && 3 <= StageAt(Run(db, events), sid) < 7 ==> Triggers(db, events, sid) == 1
    decreases |events|
  {
    hide Inv, Apply, Evolves, TriggerOf, StageAt;
    if events != [] {
      var ix :| Inv(db, ix);
      var next := Apply(db, events[0]).0;
      StepCrosses(db, ix, events[0], sid);
      StepEvolves(db, ix, events[0]);
      StageGrows(db, next, sid);
      StepConsistent(db, events[0]);
      AssignedOnce(next, events[1..], sid);
      RunEvolves(next, events[1..]);
      StageGrows(next, Run(db, events), sid);
    }
  }
}
