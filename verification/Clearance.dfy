/** Why a Submission was cleared for scoring. */
module Clearance {
  import opened Options
  import opened Records
  import opened LifecycleInvariant
  import opened Lifecycle
  import opened LifecycleHistory
  import opened AssignmentFrames
  import opened AssignmentTrigger
  import opened LifecycleSafety
  import ExaminerRules
  import FlagRules
  import PaymentRules
  import AccountRules

  /** A waiver, a redeemed credit or a verified payment is on record. */
  ghost predicate Excused(db: Db, sid: SubmissionId) {
    || sid in db.waivers
    || (exists i :: 0 <= i < |db.credits| && db.credits[i].redeemed == Some(sid))
    || (exists p :: p in db.payments && db.payments[p].submission == sid && db.payments[p].wasPaid)
  }

  lemma ExcuseStays(before: Db, after: Db, sid: SubmissionId)
    requires Evolves(before, after) && Excused(before, sid)
    ensures Excused(after, sid)
  {
    hide SubmissionsEvolve, AssignmentsEvolve, FlagsEvolve, UsersEvolve;
    if i :| 0 <= i < |before.credits| && before.credits[i].redeemed == Some(sid) {
      assert after.credits[i].redeemed == Some(sid);
    } else if p :| p in before.payments && before.payments[p].submission == sid && before.payments[p].wasPaid {
      assert p in after.payments && after.payments[p].submission == sid;
    }
  }

  /** A step that routes with payment switched off. */
  predicate RoutesFree(e: Event) {
    (e.Complete? && !e.paymentEnabled) || (e.DismissFlag? && !e.paymentEnabled)
  }

  /** How often a run clears `sid` while payment is switched off. */
  function FreeTriggers(db: Db, events: seq<Event>, sid: SubmissionId): nat
    decreases |events|
  {
    if events == [] then 0
    else (if TriggerOf(db, events[0]) == Some(sid) && RoutesFree(events[0]) then 1 else 0)
         + FreeTriggers(Apply(db, events[0]).0, events[1..], sid)
  }

  lemma RouteExcuses(db: Db, sid: SubmissionId, locked: set<nat>)
    requires sid in db.submissions && FlagRules.Route(db, sid, true, locked).1 == AssignNow
    ensures Excused(FlagRules.Route(db, sid, true, locked).0, sid)
  {
    hide FlagRules.OldestCredit;
    var pick := FlagRules.OldestCredit(db.credits, db.submissions[sid].student, locked, 0);
    assert FlagRules.Route(db, sid, true, locked).0.credits[pick.value].redeemed == Some(sid);
  }

  lemma TriggerExcuses(db: Db, e: Event, sid: SubmissionId)
    requires TriggerOf(db, e) == Some(sid) && !RoutesFree(e)
    ensures Excused(Apply(db, e).0, sid)
  {
    hide Excused, FlagRules.Route, HasOpenFlag, PaymentRules.SessionTaken, PaymentRules.TransactionTaken;
    match e
    case Complete(_, _, _, _, locked) => RouteExcuses(db, sid, locked);
    case DismissFlag(fid, _, _, locked) =>
      RouteExcuses(db.(flags := db.flags[fid := db.flags[fid].(resolution := Some(Dismissed))]), sid, locked);
    case NotifyPaid(pid, _, _) => PaymentExcuses(Apply(db, e).0, pid);
    case Waive(_, _) => WaiverExcuses(Apply(db, e).0, sid);
    case _ =>
  }

  lemma PaymentExcuses(db: Db, pid: PaymentId)
    requires pid in db.payments && db.payments[pid].wasPaid
    ensures Excused(db, db.payments[pid].submission)
  {
  }

  lemma WaiverExcuses(db: Db, sid: SubmissionId)
    requires sid in db.waivers
    ensures Excused(db, sid)
  {
  }

  // ---------------------------------------------------------------------
  // Staffing comes after clearing
  // ---------------------------------------------------------------------

  lemma ExaminerServiceAdds(db: Db, e: Event)
    requires e.StartScoring? || e.SaveScore? || e.CompleteScoring? || e.Reassign? || e.Transition?
    ensures Apply(db, e).0.assignments.Keys == db.assignments.Keys
  {
    hide SetOf, ValidSet, HasOpenFlag, ExaminerRules.ValidScore, ExaminerRules.AllCompleted,
         AccountRules.SetsValid, AccountRules.Replay, AccountRules.Lines, AccountRules.TransferProblem,
         AccountRules.DistinctValues, AccountRules.ActiveAdmins;
  }

  lemma CreationAdds(db: Db, e: Event)
    requires e.CreateAssignmentSet?
    ensures var next := Apply(db, e).0.assignments;
            forall a :: a in next && a !in db.assignments ==> next[a].submission == e.sid && StageAt(db, e.sid) == 3
  {
    hide SetOf, TwoDistinct, HasOpenFlag, ExaminerRules.Eligible;
  }

  /** Only set creation adds assignments, and only to a cleared Submission. */
  lemma NewAssignment(db: Db, e: Event, a: AssignmentId)
    requires a in Apply(db, e).0.assignments && a !in db.assignments
    ensures StageAt(db, Apply(db, e).0.assignments[a].submission) == 3
  {
    hide Apply;
    if e.CreateAssignmentSet? {
      CreationAdds(db, e);
    } else if e.StartScoring? || e.SaveScore? || e.CompleteScoring? || e.Reassign? || e.Transition? {
      ExaminerServiceAdds(db, e);
    } else if e.OpenCheckout? || e.RejectCheckout? || e.RecordSession? || e.NotifyFailed? || e.NotifyPaid? || e.Waive?
           || e.Complete? || e.DismissFlag? {
      PaymentServiceLeaves(db, e);
    } else {
      SubmissionServiceLeaves(db, e);
    }
  }

  // ---------------------------------------------------------------------
  // The reason
  // ---------------------------------------------------------------------

  /** Cleared for scoring, or staffed: paid or further, also while paused, and voided while in scoring. */
  predicate Passed(db: Db, sid: SubmissionId) {
    3 <= StageAt(db, sid) < 7 || SetOf(db.assignments, sid) != {}
  }

  /** A Submission passes the line between unpaid and paid in a step that triggers assignment. */
  lemma PassingTriggers(db: Db, e: Event, sid: SubmissionId)
    requires Crosses(db, e, sid) && Evolves(db, Apply(db, e).0)
    requires !Passed(db, sid) && Passed(Apply(db, e).0, sid)
    ensures TriggerOf(db, e) == Some(sid)
  {
    hide Apply, Evolves, TriggerOf, StageAt;
    var next := Apply(db, e).0;
    StageGrows(db, next, sid);
    if SetOf(next.assignments, sid) != {} {
      var a :| a in SetOf(next.assignments, sid);
      if a in db.assignments {
        SamePlaceLater(db, next, a, sid);
      } else {
        NewAssignment(db, e, a);
      }
    }
  }

  lemma SamePlaceLater(before: Db, after: Db, a: AssignmentId, sid: SubmissionId)
    requires Evolves(before, after) && a in before.assignments && a in SetOf(after.assignments, sid)
    ensures a in SetOf(before.assignments, sid)
  {
    hide SubmissionsEvolve, FlagsEvolve, CreditsEvolve, PaymentsEvolve, UsersEvolve;
  }

  lemma {:induction false} PassedForAReason(db: Db, events: seq<Event>, sid: SubmissionId)
    requires Consistent(db) && (Passed(db, sid) ==> Excused(db, sid))
    ensures Passed(Run(db, events), sid) ==> Excused(Run(db, events), sid) || FreeTriggers(db, events, sid) == 1
    ensures FreeTriggers(db, events, sid) <= Triggers(db, events, sid) <= 1
    decreases |events|
  {
    hide Inv, Apply, Evolves, TriggerOf, StageAt, Passed, Excused, Crosses, RoutesFree;
    AssignedOnce(db, events, sid);
    if events != [] {
      var ix :| Inv(db, ix);
      var e, next := events[0], Apply(db, events[0]).0;
      StepCrosses(db, ix, e, sid);
      StepEvolves(db, ix, e);
      StepConsistent(db, e);
      if Excused(db, sid) {
        ExcuseStays(db, next, sid);
      } else if Passed(next, sid) {
        PassingTriggers(db, e, sid);
        if !RoutesFree(e) { TriggerExcuses(db, e, sid); }
      }
      if Passed(next, sid) && !Excused(next, sid) {
        FewerFree(next, events[1..], sid);
      } else {
        PassedForAReason(next, events[1..], sid);
      }
    }
  }

  /** Free triggers are triggers. */
  lemma {:induction false} FewerFree(db: Db, events: seq<Event>, sid: SubmissionId)
    ensures FreeTriggers(db, events, sid) <= Triggers(db, events, sid)
    decreases |events|
  {
    hide Apply, TriggerOf, RoutesFree;
    if events != [] { FewerFree(Apply(db, events[0]).0, events[1..], sid); }
  }

  /**
   * Over any run: what is paid or further, or has assignments, was waived, redeemed a retake
   * credit, has an attempt with a verified notification, or was routed while payment was off;
   * and as long as it is marked as requiring payment, it has that attempt.
   */
  lemma NothingScoredUnpaid(db: Db, events: seq<Event>, sid: SubmissionId)
    requires Consistent(db) && (Passed(db, sid) ==> Excused(db, sid))
    ensures var later := Run(db, events);
            Passed(later, sid) ==>
              && (Excused(later, sid) || FreeTriggers(db, events, sid) == 1)
              && (sid in later.submissions && later.submissions[sid].paymentRequired ==>
                    exists p :: p in later.payments && later.payments[p].submission == sid && later.payments[p].wasPaid)
  {
    hide Inv, Consistent, Run, SetOf, Excused;
    PassedForAReason(db, events, sid);
    RunConsistent(db, events);
    var later := Run(db, events);
    if Passed(later, sid) && sid in later.submissions && later.submissions[sid].paymentRequired {
      ClearedStatus(later, sid);
      OwingIsPaid(later, sid);
    }
  }

  /** The stages between clearing and the ends are the cleared statuses, or a paused one with assignments. */
  lemma ClearedStatus(db: Db, sid: SubmissionId)
    requires Consistent(db) && Passed(db, sid) && sid in db.submissions
    ensures db.submissions[sid].status in {Paid, Scoring, Scored, Certified} || SetOf(db.assignments, sid) != {}
  {
    hide Consistent, SetOf;
    SetsAndStatus(db, sid);
  }
}
