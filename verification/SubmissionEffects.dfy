/** What recording, its end and retention achieve. */
module SubmissionEffects {
  import opened Options
  import opened Records
  import opened LifecycleInvariant
  import opened Lifecycle
  import opened LifecycleHistory
  import opened FlagEffects
  import ExaminerRules
  import FlagRules
  import PaymentRules
  import SubmissionRules
  import AccountRules

  // ---------------------------------------------------------------------
  // Registering
  // ---------------------------------------------------------------------

  /** Who registers is a student: neither an administrator nor ever chosen as an examiner as such. */
  lemma RegistrationMakesStudents(db: Db, uid: UserId)
    ensures var r := SubmissionRules.Register(db, uid);
            && (r.1 == Done <==> uid !in db.users)
            && (r.1 == Done ==> r.0 == db.(users := db.users[uid := User(Student, false)]))
            && (forall u :: ActiveAdmin(r.0.users, u) <==> ActiveAdmin(db.users, u))
            && (forall u :: ActiveExaminer(r.0.users, u) <==> ActiveExaminer(db.users, u))
  {
  }

  // ---------------------------------------------------------------------
  // Starting
  // ---------------------------------------------------------------------

  /** An unfinished attempt of this student that a start may supersede. */
  predicate Recording(db: Db, sid: SubmissionId, student: UserId) {
    IsRetained(db.submissions, sid) && OwnedBy(db.submissions, sid, student) && StatusOf(db, sid) == Some(InProgress)
  }

  /**
   * A start is accepted exactly for a known student with a new id, whose only unfinished attempt is
   * the one it supersedes, if any. It creates one attempt, in progress and seen at this moment, and
   * abandons the superseded one; nothing else is written.
   */
  lemma StartAccepted(db: Db, student: UserId, sid: SubmissionId, stale: Option<SubmissionId>, now: int)
    ensures var r := SubmissionRules.StartAssessment(db, student, sid, stale, now);
            && (r.1 == Done <==>
                  && student in db.users && sid !in db.submissions
                  && (stale.Some? ==> Recording(db, stale.value, student))
                  && forall s :: s in db.submissions && Some(s) != stale && db.submissions[s].student == student ==>
                       !Unfinished(db.submissions[s]))
            && (r.1 != Done ==> r.0 == db)
            && (r.1 == Done ==>
                  && r.0 == db.(submissions := r.0.submissions)
                  && r.0.submissions.Keys == db.submissions.Keys + {sid}
                  && r.0.submissions[sid] == Submission(student, InProgress, Retained, Rubric6, true, None, now)
                  && forall s :: s in db.submissions ==>
                       r.0.submissions[s] == if Some(s) == stale then db.submissions[s].(status := Abandoned)
                                             else db.submissions[s])
  {
    hide SubmissionRules.HasActive;
    if stale.Some? && Recording(db, stale.value, student) {
      SupersedingAllowed(db, stale.value, student);
    }
    if stale.None? { ActiveMeans(db.submissions, student); }
  }

  lemma ActiveMeans(submissions: Submissions, student: UserId)
    ensures SubmissionRules.HasActive(submissions, student)
            <==> exists s :: s in submissions && submissions[s].student == student && Unfinished(submissions[s])
  {
  }

  /**
   * A started attempt stays in progress through every continuation whose sweeps have no later cutoff
   * than the start and in which its student does not end it.
   */
  lemma StartKeepsAttempt(db: Db, student: UserId, sid: SubmissionId, stale: Option<SubmissionId>, now: int,
                          events: seq<Event>)
    requires SubmissionRules.StartAssessment(db, student, sid, stale, now).1 == Done
    requires forall i :: 0 <= i < |events| ==> LeavesAlone(events[i], sid, now)
    ensures StatusOf(Run(SubmissionRules.StartAssessment(db, student, sid, stale, now).0, events), sid)
            == Some(InProgress)
  {
    hide Run, LeavesAlone, SubmissionRules.HasActive;
    SeenAttemptStays(SubmissionRules.StartAssessment(db, student, sid, stale, now).0, events, sid, now);
  }

  // ---------------------------------------------------------------------
  // Abandoning
  // ---------------------------------------------------------------------

  lemma NothingElseActive(db: Db, sid: SubmissionId, student: UserId)
    requires Consistent(db) && sid in db.submissions && Unfinished(db.submissions[sid])
             && db.submissions[sid].student == student
    ensures !SubmissionRules.HasActive(db.submissions[sid := db.submissions[sid].(status := Abandoned)], student)
  {
    hide Paired, Placed, Flagging, Standing, Marking, Crediting, Charging, Accounting, Owned, Administered, Traced;
    var ix :| Inv(db, ix);
  }

  /**
   * Abandoning is accepted exactly from the owner of a retained attempt that is in progress or
   * abandoned already. It ends the one attempt that kept the student from starting the next.
   */
  lemma AbandonmentFreesStudent(db: Db, sid: SubmissionId, uid: UserId, next: SubmissionId, now: int)
    requires Consistent(db) && uid in db.users && next !in db.submissions
    ensures var r := SubmissionRules.Abandon(db, sid, uid);
            && (r.1 == Done <==>
                  && IsRetained(db.submissions, sid) && OwnedBy(db.submissions, sid, uid)
                  && StatusOf(db, sid) in {Some(InProgress), Some(Abandoned)})
            && (r.1 != Done ==> r.0 == db)
            && (r.1 == Done ==>
                  && r.0 == db.(submissions := db.submissions[sid := db.submissions[sid].(status := Abandoned)])
                  && SubmissionRules.Abandon(r.0, sid, uid) == (r.0, Done))
            && (r.1 == Done && StatusOf(db, sid) == Some(InProgress) ==>
                  && SubmissionRules.StartAssessment(db, uid, next, None, now).1 == Rejected(UniqueViolation)
                  && SubmissionRules.StartAssessment(r.0, uid, next, None, now).1 == Done)
  {
    hide Consistent, SubmissionRules.HasActive;
    if IsRetained(db.submissions, sid) && OwnedBy(db.submissions, sid, uid) && StatusOf(db, sid) == Some(InProgress) {
      NothingElseActive(db, sid, uid);
      IsActive(db.submissions, sid);
    }
  }

  lemma IsActive(submissions: Submissions, sid: SubmissionId)
    requires sid in submissions && Unfinished(submissions[sid])
    ensures SubmissionRules.HasActive(submissions, submissions[sid].student)
  {
  }

  // ---------------------------------------------------------------------
  // How recording ends
  // ---------------------------------------------------------------------

  /** No attempt of the student but `sid` is unfinished. */
  predicate NoOtherActive(submissions: Submissions, sid: SubmissionId, student: UserId) {
    forall s :: s in submissions && s != sid && submissions[s].student == student ==> !Unfinished(submissions[s])
  }

  /** The four ways out of recording. */
  predicate EndsRecording(db: Db, e: Event, sid: SubmissionId) {
    && IsRetained(db.submissions, sid)
    && match e
       case Abandon(s, uid) => s == sid && OwnedBy(db.submissions, sid, uid)
       case Complete(s, uid, evidenceComplete, _, _) =>
         s == sid && OwnedBy(db.submissions, sid, uid) && evidenceComplete
       case StartAssessment(student, next, stale, _) =>
         && stale == Some(sid) && OwnedBy(db.submissions, sid, student) && student in db.users
         && next !in db.submissions && NoOtherActive(db.submissions, sid, student)
       case Sweep(cutoff) => db.submissions[sid].lastSeen < cutoff
       case _ => false
  }

  /** When the attempt was last seen, after a step. */
  function SeenAfter(db: Db, e: Event, sid: SubmissionId): int
    requires sid in db.submissions
  {
    if e.Heartbeat? && e.sid == sid && IsRetained(db.submissions, sid) && OwnedBy(db.submissions, sid, e.uid) then e.now
    else db.submissions[sid].lastSeen
  }

  ghost predicate RecordingStep(db: Db, e: Event, sid: SubmissionId)
    requires sid in db.submissions
  {
    var after := Apply(db, e).0.submissions;
    && sid in after
    && (after[sid].status != InProgress <==> EndsRecording(db, e, sid))
    && (after[sid].status == InProgress ==> after[sid].lastSeen == SeenAfter(db, e, sid))
  }

  lemma SubmissionServiceRecording(db: Db, e: Event, sid: SubmissionId)
    requires sid in db.submissions && db.submissions[sid].status == InProgress
    requires e.Register? || e.Abandon? || e.Heartbeat? || e.Sweep?
          || e.QuarantineSubmission? || e.RecoverSubmission? || e.PurgeSubmission?
    ensures RecordingStep(db, e, sid)
  {
    hide SubmissionRules.OnlyDeadPayments, SubmissionRules.Referenced, SetOf;
  }

  lemma StartRecording(db: Db, e: Event, sid: SubmissionId)
    requires sid in db.submissions && db.submissions[sid].status == InProgress && e.StartAssessment?
    ensures RecordingStep(db, e, sid)
  {
    hide SubmissionRules.HasActive, NoOtherActive;
    SupersedingAllowed(db, sid, e.student);
  }

  lemma SupersedingAllowed(db: Db, sid: SubmissionId, student: UserId)
    requires sid in db.submissions
    ensures SubmissionRules.HasActive(db.submissions[sid := db.submissions[sid].(status := Abandoned)], student)
            <==> !NoOtherActive(db.submissions, sid, student)
  {
    var next := db.submissions[sid := db.submissions[sid].(status := Abandoned)];
    assert forall s :: s in next && s != sid ==> next[s] == db.submissions[s];
  }

  lemma RoutingRecording(db: Db, e: Event, sid: SubmissionId)
    requires sid in db.submissions && db.submissions[sid].status == InProgress
    requires e.Complete? || e.DismissFlag?
    ensures RecordingStep(db, e, sid)
  {
    hide RecordingStep;
    if e.Complete? {
      CompletionRecording(db, e, sid);
    } else {
      DismissalRecording(db, e, sid);
    }
  }

  lemma CompletionRecording(db: Db, e: Event, sid: SubmissionId)
    requires sid in db.submissions && db.submissions[sid].status == InProgress && e.Complete?
    ensures RecordingStep(db, e, sid)
  {
    hide HasOpenFlag, FlagRules.OldestCredit;
  }

  lemma DismissalRecording(db: Db, e: Event, sid: SubmissionId)
    requires sid in db.submissions && db.submissions[sid].status == InProgress && e.DismissFlag?
    ensures RecordingStep(db, e, sid)
  {
    hide HasOpenFlag, FlagRules.OldestCredit;
  }

  lemma OtherRecording(db: Db, e: Event, sid: SubmissionId)
    requires sid in db.submissions && db.submissions[sid].status == InProgress
    requires e.RaiseDeviceFlag? || e.RaiseIntegrityConcern? || e.ConfirmFlag?
          || e.OpenCheckout? || e.RejectCheckout? || e.RecordSession? || e.NotifyFailed? || e.NotifyPaid? || e.Waive?
    ensures RecordingStep(db, e, sid)
  {
    hide PaymentRules.SessionTaken, PaymentRules.TransactionTaken;
  }

  lemma ExaminerServiceRecording(db: Db, e: Event, sid: SubmissionId)
    requires sid in db.submissions && db.submissions[sid].status == InProgress
    requires e.CreateAssignmentSet? || e.StartScoring? || e.SaveScore? || e.CompleteScoring? || e.Reassign?
             || e.Transition?
    ensures RecordingStep(db, e, sid)
  {
    hide HasOpenFlag, SetOf, ValidSet, TwoDistinct, ExaminerRules.Eligible, ExaminerRules.ValidScore,
         AccountRules.SetsValid, AccountRules.Lines, AccountRules.Transferred, AccountRules.TransferProblem,
         AccountRules.DistinctValues, AccountRules.ActiveAdmins, AccountRules.Replay;
  }

  /**
   * An attempt leaves recording in a step if and only if its owner abandons or completes it, the
   * next start supersedes it, or a sweep finds its last sign of life before the cutoff.
   */
  lemma RecordingEndsExactly(db: Db, e: Event, sid: SubmissionId)
    requires StatusOf(db, sid) == Some(InProgress)
    ensures StatusOf(Apply(db, e).0, sid) != Some(InProgress) <==> EndsRecording(db, e, sid)
    ensures RecordingStep(db, e, sid)
  {
    hide Apply, EndsRecording, SeenAfter;
    if e.Complete? || e.DismissFlag? {
      RoutingRecording(db, e, sid);
    } else if e.CreateAssignmentSet? || e.StartScoring? || e.SaveScore? || e.CompleteScoring? || e.Reassign?
           || e.Transition? {
      ExaminerServiceRecording(db, e, sid);
    } else if e.RaiseDeviceFlag? || e.RaiseIntegrityConcern? || e.ConfirmFlag?
           || e.OpenCheckout? || e.RejectCheckout? || e.RecordSession? || e.NotifyFailed? || e.NotifyPaid? || e.Waive? {
      OtherRecording(db, e, sid);
    } else if e.StartAssessment? {
      StartRecording(db, e, sid);
    } else {
      SubmissionServiceRecording(db, e, sid);
    }
  }

  /** No owner's decision about the attempt, no sweep beyond `now`, and no clock running backwards. */
  predicate LeavesAlone(e: Event, sid: SubmissionId, now: int) {
    && (e.Abandon? ==> e.sid != sid)
    && (e.Complete? ==> e.sid != sid)
    && (e.StartAssessment? ==> e.stale != Some(sid))
    && (e.Sweep? ==> e.cutoff <= now)
    && (e.Heartbeat? && e.sid == sid ==> e.now >= now)
  }

  lemma {:induction false} SeenAttemptStays(db: Db, events: seq<Event>, sid: SubmissionId, now: int)
    requires sid in db.submissions && db.submissions[sid].status == InProgress && db.submissions[sid].lastSeen >= now
    requires forall i :: 0 <= i < |events| ==> LeavesAlone(events[i], sid, now)
    ensures StatusOf(Run(db, events), sid) == Some(InProgress)
    decreases |events|
  {
    hide Apply;
    if events != [] {
      assert LeavesAlone(events[0], sid, now);
      RecordingEndsExactly(db, events[0], sid);
      SeenAttemptStays(Apply(db, events[0]).0, events[1..], sid, now);
    }
  }

  /**
   * After a heartbeat the attempt survives everything that happens, as long as sweeps look back
   * no further than to it and the owner does not end it.
   */
  lemma HeartbeatKeepsAttempt(db: Db, sid: SubmissionId, uid: UserId, now: int, events: seq<Event>)
    requires SubmissionRules.Heartbeat(db, sid, uid, now).1 == Done
    requires forall i :: 0 <= i < |events| ==> LeavesAlone(events[i], sid, now)
    ensures StatusOf(Run(SubmissionRules.Heartbeat(db, sid, uid, now).0, events), sid) == Some(InProgress)
  {
    hide Run, LeavesAlone;
    SeenAttemptStays(SubmissionRules.Heartbeat(db, sid, uid, now).0, events, sid, now);
  }

  /** A heartbeat is taken exactly from the owner of a retained attempt in progress, and writes only its time. */
  lemma HeartbeatWrites(db: Db, sid: SubmissionId, uid: UserId, now: int)
    ensures var r := SubmissionRules.Heartbeat(db, sid, uid, now);
            && (r.1 == Done <==> Recording(db, sid, uid))
            && (r.1 != Done ==> r.0 == db)
            && (r.1 == Done ==>
                  r.0 == db.(submissions := db.submissions[sid := db.submissions[sid].(lastSeen := now)]))
  {
  }

  /** A heartbeat never revives an ended attempt: it is refused and writes nothing, in every continuation. */
  lemma HeartbeatNeverRevives(db: Db, sid: SubmissionId, uid: UserId, now: int, events: seq<Event>)
    requires Consistent(db) && sid in db.submissions && StatusOf(db, sid) != Some(InProgress)
    ensures SubmissionRules.Heartbeat(Run(db, events), sid, uid, now) == (Run(db, events), Rejected(InvalidLifecycle))
  {
    hide Consistent, Run, Evolves;
    RunEvolves(db, events);
    NeverInProgress(db, Run(db, events), sid);
  }

  lemma NeverInProgress(before: Db, after: Db, sid: SubmissionId)
    requires Evolves(before, after) && sid in before.submissions && before.submissions[sid].status != InProgress
    ensures StatusOf(after, sid) != Some(InProgress)
    ensures before.submissions[sid].status != Abandoned ==> StatusOf(after, sid) != Some(Abandoned)
  {
    hide AssignmentsEvolve, FlagsEvolve, CreditsEvolve, PaymentsEvolve, UsersEvolve;
  }

  /** A sweep abandons exactly the retained attempts in progress that were last seen before its cutoff. */
  lemma SweepWrites(db: Db, cutoff: int)
    ensures var r := SubmissionRules.Sweep(db, cutoff);
            && r.1 == Done && r.0 == db.(submissions := r.0.submissions)
            && r.0.submissions.Keys == db.submissions.Keys
            && forall s :: s in db.submissions ==>
                 && (r.0.submissions[s] != db.submissions[s] <==>
                       Recording(db, s, db.submissions[s].student) && db.submissions[s].lastSeen < cutoff)
                 && (r.0.submissions[s] != db.submissions[s] ==>
                       r.0.submissions[s] == db.submissions[s].(status := Abandoned))
  {
  }

  lemma SweepTwice(db: Db, first: int, second: int)
    ensures SubmissionRules.Sweep(SubmissionRules.Sweep(db, first).0, second)
            == SubmissionRules.Sweep(db, if first < second then second else first)
  {
    var twice := SubmissionRules.Sweep(SubmissionRules.Sweep(db, first).0, second).0.submissions;
    var once := SubmissionRules.Sweep(db, if first < second then second else first).0.submissions;
    assert twice.Keys == once.Keys;
    assert forall s :: s in once ==> twice[s] == once[s];
    assert twice == once;
  }

  /** Sweeps of several instances amount to the latest cutoff, in whatever order they run. */
  lemma SweepsMerge(db: Db, first: int, second: int)
    ensures SubmissionRules.Sweep(SubmissionRules.Sweep(db, first).0, second)
            == SubmissionRules.Sweep(db, if first < second then second else first)
    ensures SubmissionRules.Sweep(SubmissionRules.Sweep(db, first).0, second)
            == SubmissionRules.Sweep(SubmissionRules.Sweep(db, second).0, first)
  {
    hide SubmissionRules.Sweep;
    SweepTwice(db, first, second);
    SweepTwice(db, second, first);
  }

  // ---------------------------------------------------------------------
  // Completing
  // ---------------------------------------------------------------------

  /**
   * A completion is accepted exactly from the owner of a retained Submission, for a complete
   * recording in progress or one that is over already; only the first is written.
   */
  lemma CompletionTaken(db: Db, sid: SubmissionId, uid: UserId, evidence: bool, enabled: bool, locked: set<nat>)
    ensures var r := SubmissionRules.Complete(db, sid, uid, evidence, enabled, locked);
            && (!r.1.Rejected? <==>
                  && IsRetained(db.submissions, sid) && OwnedBy(db.submissions, sid, uid)
                  && StatusOf(db, sid) != Some(Abandoned) && (StatusOf(db, sid) == Some(InProgress) ==> evidence))
            && (r.1.Rejected? || StatusOf(db, sid) != Some(InProgress) ==> r.0 == db)
            && (!r.1.Rejected? && StatusOf(db, sid) != Some(InProgress) ==> r.1 == Done)
  {
    hide HasOpenFlag, FlagRules.OldestCredit;
  }

  /**
   * A completed recording goes to review exactly with an open flag, and then without any charge
   * and without spending a credit; otherwise it is routed.
   */
  lemma CompletionOutcome(db: Db, sid: SubmissionId, uid: UserId, paymentEnabled: bool, locked: set<nat>)
    requires IsRetained(db.submissions, sid) && OwnedBy(db.submissions, sid, uid)
             && StatusOf(db, sid) == Some(InProgress)
    ensures var r := SubmissionRules.Complete(db, sid, uid, true, paymentEnabled, locked);
            && !r.1.Rejected?
            && (StatusOf(r.0, sid) == Some(FlagReview) <==> HasOpenFlag(db.flags, sid))
            && (StatusOf(r.0, sid) == Some(Paid) <==> r.1 == AssignNow)
            && (StatusOf(r.0, sid) in {Some(FlagReview), Some(Paid), Some(AwaitingPayment)})
            && (HasOpenFlag(db.flags, sid) ==>
                  r.0 == db.(submissions := db.submissions[sid := db.submissions[sid].(status := FlagReview,
                                                                                       flagReturn := None)]))
    ensures var r := SubmissionRules.Complete(db, sid, uid, true, paymentEnabled, locked);
            !HasOpenFlag(db.flags, sid) ==> Routed(db, r.0, sid, r.1, paymentEnabled, locked)
  {
    hide HasOpenFlag, FlagRules.OldestCredit, Routed;
    if !HasOpenFlag(db.flags, sid) { RoutingSpendsOldestCredit(db, sid, paymentEnabled, locked); }
  }

  /**
   * Once accepted, completing again changes nothing in any
   * continuation; it succeeds while the Submission is retained.
   */
  lemma CompletionIsFinal(db: Db, sid: SubmissionId, uid: UserId, evidence: bool, enabled: bool, locked: set<nat>,
                          events: seq<Event>, evidence2: bool, enabled2: bool, locked2: set<nat>)
    requires Consistent(db) && !SubmissionRules.Complete(db, sid, uid, evidence, enabled, locked).1.Rejected?
    ensures var later := Run(SubmissionRules.Complete(db, sid, uid, evidence, enabled, locked).0, events);
            && SubmissionRules.Complete(later, sid, uid, evidence2, enabled2, locked2).0 == later
            && (IsRetained(later.submissions, sid) ==>
                  SubmissionRules.Complete(later, sid, uid, evidence2, enabled2, locked2).1 == Done)
  {
    hide Consistent, Run, Evolves, HasOpenFlag;
    var after := SubmissionRules.Complete(db, sid, uid, evidence, enabled, locked).0;
    CompletedStatus(db, sid, uid, evidence, enabled, locked);
    StepConsistent(db, Complete(sid, uid, evidence, enabled, locked));
    RunEvolves(after, events);
    NeverInProgress(after, Run(after, events), sid);
    SameStudent(after, Run(after, events), sid);
  }

  lemma CompletedStatus(db: Db, sid: SubmissionId, uid: UserId, evidence: bool, enabled: bool, locked: set<nat>)
    requires !SubmissionRules.Complete(db, sid, uid, evidence, enabled, locked).1.Rejected?
    ensures var after := SubmissionRules.Complete(db, sid, uid, evidence, enabled, locked).0.submissions;
            sid in after && after[sid].student == uid && after[sid].status != InProgress
            && after[sid].status != Abandoned
  {
    hide HasOpenFlag, FlagRules.OldestCredit;
  }

  lemma SameStudent(before: Db, after: Db, sid: SubmissionId)
    requires Evolves(before, after) && sid in before.submissions
    ensures sid in after.submissions && after.submissions[sid].student == before.submissions[sid].student
  {
    hide AssignmentsEvolve, FlagsEvolve, CreditsEvolve, PaymentsEvolve, UsersEvolve;
  }

  // ---------------------------------------------------------------------
  // Retention
  // ---------------------------------------------------------------------

  /** Not needed any more: never cleared or staffed, and with no attempt that could still be paid. */
  predicate Disposable(db: Db, sid: SubmissionId) {
    && StatusOf(db, sid) in {Some(InProgress), Some(Abandoned), Some(AwaitingPayment)}
    && (forall a :: a in db.assignments ==> db.assignments[a].submission != sid)
    && forall p :: p in db.payments && db.payments[p].submission == sid ==>
         db.payments[p].status == Failed || db.payments[p].status == Refunded
  }

  predicate HeldAs(db: Db, sid: SubmissionId, retention: Retention) {
    sid in db.submissions && db.submissions[sid].retention == retention
  }

  lemma NoneAssigned(assignments: Assignments, sid: SubmissionId)
    ensures SetOf(assignments, sid) == {} <==> forall a :: a in assignments ==> assignments[a].submission != sid
  {
    assert forall a :: a in SetOf(assignments, sid) <==> a in assignments && assignments[a].submission == sid;
  }

  /** Only a retained Submission is quarantined, and only a quarantined one recovered; nothing but this is written. */
  lemma RetentionWrites(db: Db, sid: SubmissionId)
    ensures var r := SubmissionRules.QuarantineSubmission(db, sid);
            && (r.1 == Done <==> HeldAs(db, sid, Retained) && Disposable(db, sid))
            && (r.1 != Done ==> r.0 == db)
            && (r.1 == Done ==>
                  r.0 == db.(submissions := db.submissions[sid := db.submissions[sid].(retention := Quarantined)]))
    ensures var r := SubmissionRules.RecoverSubmission(db, sid);
            && (r.1 == Done <==> HeldAs(db, sid, Quarantined))
            && (r.1 != Done ==> r.0 == db)
            && (r.1 == Done ==>
                  r.0 == db.(submissions := db.submissions[sid := db.submissions[sid].(retention := Retained)]))
  {
    hide SetOf;
    NoneAssigned(db.assignments, sid);
  }

  /**
   * A purge is final and removes exactly the Submission's payment attempts. It is refused unless the
   * Submission is quarantined, and while a waiver, a flag or a credit still names it.
   */
  lemma PurgeWrites(db: Db, sid: SubmissionId)
    ensures var r := SubmissionRules.PurgeSubmission(db, sid);
            && (r.1 == Done <==>
                  && HeldAs(db, sid, Quarantined) && sid !in db.waivers
                  && (forall a :: a in db.assignments ==> db.assignments[a].submission != sid)
                  && (forall p :: p in db.payments && db.payments[p].submission == sid ==>
                        db.payments[p].status == Failed || db.payments[p].status == Refunded)
                  && (forall f :: f in db.flags ==> db.flags[f].submission != sid)
                  && (forall i :: 0 <= i < |db.credits| ==>
                        db.credits[i].voided != sid && db.credits[i].redeemed != Some(sid)))
            && (r.1 != Done ==> r.0 == db)
            && (r.1 == Done ==>
                  && r.0 == db.(submissions := db.submissions[sid := db.submissions[sid].(retention := Purged)],
                                payments := r.0.payments)
                  && (forall p :: p in r.0.payments <==> p in db.payments && db.payments[p].submission != sid)
                  && (forall p :: p in r.0.payments ==> r.0.payments[p] == db.payments[p]))
  {
    hide SetOf;
    NoneAssigned(db.assignments, sid);
  }

  /** Recovery undoes quarantine. */
  lemma RecoveryUndoesQuarantine(db: Db, sid: SubmissionId)
    requires SubmissionRules.QuarantineSubmission(db, sid).1 == Done
    ensures SubmissionRules.RecoverSubmission(SubmissionRules.QuarantineSubmission(db, sid).0, sid) == (db, Done)
  {
    hide SubmissionRules.OnlyDeadPayments, SetOf;
    var quarantined := SubmissionRules.QuarantineSubmission(db, sid).0;
    assert quarantined.submissions[sid := db.submissions[sid]] == db.submissions;
  }
}
