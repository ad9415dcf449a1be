module SubmissionRules {
  import opened Options
  import opened Records
  import FlagRules

  function Register(db: Db, uid: UserId): (Db, Outcome) {
    if uid in db.users then (db, Rejected(UniqueViolation))
    else (db.(users := db.users[uid := User(Student, false)]), Done)
  }

  /** Another unfinished attempt of the same student is in the one-active index. */
  predicate HasActive(submissions: map<SubmissionId, Submission>, student: UserId) {
    exists s :: s in submissions && submissions[s].student == student && submissions[s].status == InProgress
                && submissions[s].retention != Purged
  }

  /** Create the student's next attempt, superseding a stale unfinished one. */
  function StartAssessment(db: Db, student: UserId, sid: SubmissionId, stale: Option<SubmissionId>,
                           now: int): (Db, Outcome) {
    if stale.Some? && !(IsRetained(db.submissions, stale.value) && db.submissions[stale.value].student == student
                        && db.submissions[stale.value].status == InProgress) then
      (db, Rejected(ActiveSubmission))
    else
      var superseded :=
        if stale.None? then db.submissions
        else db.submissions[stale.value := db.submissions[stale.value].(status := Abandoned)];
      if student !in db.users || sid in db.submissions || HasActive(superseded, student) then
        (db, Rejected(UniqueViolation))
      else
        (db.(submissions := superseded[sid := Submission(student, InProgress, Retained, Rubric6, true, None, now)]),
         Done)
  }

  function Abandon(db: Db, sid: SubmissionId, uid: UserId): (Db, Outcome) {
    if sid !in db.submissions || db.submissions[sid].retention == Purged then (db, Rejected(NotFound))
    else
      var s := db.submissions[sid];
      if s.student != uid then (db, Rejected(Unauthorized))
      else if s.retention != Retained then (db, Rejected(InvalidLifecycle))
      else if s.status == Abandoned then (db, Done)
      else if s.status != InProgress then (db, Rejected(InvalidLifecycle))
      else (db.(submissions := db.submissions[sid := s.(status := Abandoned)]), Done)
  }

  function Heartbeat(db: Db, sid: SubmissionId, uid: UserId, now: int): (Db, Outcome) {
    if IsRetained(db.submissions, sid) && db.submissions[sid].student == uid
       && db.submissions[sid].status == InProgress then
      (db.(submissions := db.submissions[sid := db.submissions[sid].(lastSeen := now)]), Done)
    else (db, Rejected(InvalidLifecycle))
  }

  /** Abandon every unfinished attempt last seen before the cutoff. */
  function Sweep(db: Db, cutoff: int): (Db, Outcome) {
    (db.(submissions := map s | s in db.submissions ::
           var row := db.submissions[s];
           if row.status == InProgress && row.retention == Retained && row.lastSeen < cutoff
           then row.(status := Abandoned) else row), Done)
  }

  predicate PastRecording(status: Status) {
    status in {AwaitingPayment, Paid, Scoring, Scored, Certified, FlagReview, Voided}
  }

  function Complete(db: Db, sid: SubmissionId, uid: UserId, evidenceComplete: bool, paymentEnabled: bool,
                    locked: set<nat>): (Db, Outcome) {
    if sid !in db.submissions || db.submissions[sid].retention == Purged then (db, Rejected(NotFound))
    else
      var s := db.submissions[sid];
      if s.student != uid then (db, Rejected(Unauthorized))
      else if s.retention != Retained then (db, Rejected(InvalidLifecycle))
      else if s.status != InProgress then
        (db, if PastRecording(s.status) then Done else Rejected(InvalidLifecycle))
      else if !evidenceComplete then (db, Rejected(ValidationFailed))
      else if HasOpenFlag(db.flags, sid) then
        (db.(submissions := db.submissions[sid := s.(status := FlagReview, flagReturn := None)]), Done)
      else FlagRules.Route(db, sid, paymentEnabled, locked)
  }

  // ---------------------------------------------------------------------
  // Retention
  // ---------------------------------------------------------------------

  predicate Purgeable(status: Status) {
    status in {InProgress, Abandoned, AwaitingPayment}
  }

  predicate OnlyDeadPayments(payments: map<PaymentId, Payment>, sid: SubmissionId) {
    forall p :: p in payments && payments[p].submission == sid ==> payments[p].status in {Failed, Refunded}
  }

  function QuarantineSubmission(db: Db, sid: SubmissionId): (Db, Outcome) {
    if !IsRetained(db.submissions, sid) || !Purgeable(db.submissions[sid].status)
       || !OnlyDeadPayments(db.payments, sid) || SetOf(db.assignments, sid) != {} then (db, Rejected(NotPurgeable))
    else (db.(submissions := db.submissions[sid := db.submissions[sid].(retention := Quarantined)]), Done)
  }

  function RecoverSubmission(db: Db, sid: SubmissionId): (Db, Outcome) {
    if sid !in db.submissions || db.submissions[sid].retention != Quarantined then (db, Rejected(NotPurgeable))
    else (db.(submissions := db.submissions[sid := db.submissions[sid].(retention := Retained)]), Done)
  }

  /** Rows that other tables still reference cannot be deleted. */
  predicate Referenced(db: Db, sid: SubmissionId) {
    || sid in db.waivers
    || (exists f :: f in db.flags && db.flags[f].submission == sid)
    || (exists i :: 0 <= i < |db.credits| && (db.credits[i].voided == sid || db.credits[i].redeemed == Some(sid)))
  }

  function PurgeSubmission(db: Db, sid: SubmissionId): (Db, Outcome) {
    if sid !in db.submissions || db.submissions[sid].retention != Quarantined
       || !OnlyDeadPayments(db.payments, sid) || SetOf(db.assignments, sid) != {} || Referenced(db, sid) then
      (db, Rejected(NotPurgeable))
    else
      (db.(submissions := db.submissions[sid := db.submissions[sid].(retention := Purged)],
           payments := map p | p in db.payments && db.payments[p].submission != sid :: db.payments[p]), Done)
  }
}

/** The transactions of the submission service and of Assessment start. */
module SubmissionService {
  import opened Options
  import opened Records
  import opened Database
  import SubmissionRules
  import FlagService
  import Lifecycle
  import SubmissionEffects

  method StartAssessment(tx: Tables, student: UserId, sid: SubmissionId, stale: Option<SubmissionId>,
                         now: int) returns (out: Outcome)
    modifies tx`submissions
    ensures (tx.Snapshot(), out) == SubmissionRules.StartAssessment(old(tx.Snapshot()), student, sid, stale, now)
    ensures Lifecycle.Consistent(old(tx.Snapshot())) ==> Lifecycle.Consistent(tx.Snapshot())
    ensures out == Done ==>
              sid in tx.submissions && tx.submissions[sid].status == InProgress
              && tx.submissions[sid].student == student
  {
    hide Lifecycle.Consistent, SubmissionRules.HasActive;
    ghost var db := tx.Snapshot();
    if Lifecycle.Consistent(db) {
      Lifecycle.StepConsistent(db, Lifecycle.StartAssessment(student, sid, stale, now));
    }
    if stale.Some? && !(IsRetained(tx.submissions, stale.value) && tx.submissions[stale.value].student == student
                        && tx.submissions[stale.value].status == InProgress) {
      return Rejected(ActiveSubmission);
    }
    var before := tx.submissions;
    if stale.Some? {
      tx.submissions := tx.submissions[stale.value := tx.submissions[stale.value].(status := Abandoned)];
    }
    if student !in tx.users || sid in tx.submissions || SubmissionRules.HasActive(tx.submissions, student) {
      tx.submissions := before; // the failed insert rolls the transaction back
      return Rejected(UniqueViolation);
    }
    tx.submissions := tx.submissions[sid := Submission(student, InProgress, Retained, Rubric6, true, None, now)];
    return Done;
  }

  method AbandonSubmission(tx: Tables, sid: SubmissionId, uid: UserId) returns (out: Outcome)
    modifies tx`submissions
    ensures (tx.Snapshot(), out) == SubmissionRules.Abandon(old(tx.Snapshot()), sid, uid)
    ensures out == Done <==>
              old(IsRetained(tx.submissions, sid) && OwnedBy(tx.submissions, sid, uid)
                  && StatusOf(tx.Snapshot(), sid) in {Some(InProgress), Some(Abandoned)})
    ensures Lifecycle.Consistent(old(tx.Snapshot())) ==>
              && Lifecycle.Consistent(tx.Snapshot())
              && (out == Done ==> StatusOf(tx.Snapshot(), sid) == Some(Abandoned))
              && (out == Done && old(StatusOf(tx.Snapshot(), sid)) == Some(InProgress) ==>
                    !SubmissionRules.HasActive(tx.submissions, uid))
  {
    hide Lifecycle.Consistent, SubmissionRules.HasActive;
    ghost var db := tx.Snapshot();
    if Lifecycle.Consistent(db) {
      Lifecycle.StepConsistent(db, Lifecycle.Abandon(sid, uid));
      if sid in db.submissions && OwnedBy(db.submissions, sid, uid) && StatusOf(db, sid) == Some(InProgress)
         && IsRetained(db.submissions, sid) {
        SubmissionEffects.NothingElseActive(db, sid, uid);
      }
    }
    if sid !in tx.submissions || tx.submissions[sid].retention == Purged { return Rejected(NotFound); }
    if tx.submissions[sid].student != uid { return Rejected(Unauthorized); }
    if tx.submissions[sid].retention != Retained { return Rejected(InvalidLifecycle); }
    if tx.submissions[sid].status == Abandoned { return Done; }
    if tx.submissions[sid].status != InProgress { return Rejected(InvalidLifecycle); }
    tx.submissions := tx.submissions[sid := tx.submissions[sid].(status := Abandoned)];
    return Done;
  }

  method RecordSubmissionHeartbeat(tx: Tables, sid: SubmissionId, uid: UserId, now: int) returns (out: Outcome)
    modifies tx`submissions
    ensures (tx.Snapshot(), out) == SubmissionRules.Heartbeat(old(tx.Snapshot()), sid, uid, now)
    ensures out == Done <==>
              old(IsRetained(tx.submissions, sid) && OwnedBy(tx.submissions, sid, uid)
                  && StatusOf(tx.Snapshot(), sid) == Some(InProgress))
    ensures StatusOf(tx.Snapshot(), sid) == old(StatusOf(tx.Snapshot(), sid))
    ensures Lifecycle.Consistent(old(tx.Snapshot())) ==> Lifecycle.Consistent(tx.Snapshot())
  {
    hide Lifecycle.Consistent;
    ghost var db := tx.Snapshot();
    if Lifecycle.Consistent(db) {
      Lifecycle.StepConsistent(db, Lifecycle.Heartbeat(sid, uid, now));
    }
    if IsRetained(tx.submissions, sid) && tx.submissions[sid].student == uid
       && tx.submissions[sid].status == InProgress {
      tx.submissions := tx.submissions[sid := tx.submissions[sid].(lastSeen := now)];
      return Done;
    }
    return Rejected(InvalidLifecycle);
  }

  method AbandonStaleSubmissions(tx: Tables, cutoff: int) returns (out: Outcome)
    modifies tx`submissions
    ensures (tx.Snapshot(), out) == SubmissionRules.Sweep(old(tx.Snapshot()), cutoff)
    ensures forall s :: s in tx.submissions && tx.submissions[s].status == InProgress
                        && tx.submissions[s].retention == Retained ==>
              tx.submissions[s].lastSeen >= cutoff
    ensures forall s :: s in old(tx.submissions) ==>
              s in tx.submissions
              && (old(tx.submissions)[s].status != InProgress ==> tx.submissions[s] == old(tx.submissions)[s])
    ensures Lifecycle.Consistent(old(tx.Snapshot())) ==> Lifecycle.Consistent(tx.Snapshot())
  {
    hide Lifecycle.Consistent;
    ghost var db := tx.Snapshot();
    if Lifecycle.Consistent(db) {
      Lifecycle.StepConsistent(db, Lifecycle.Sweep(cutoff));
    }
    tx.submissions := map s | s in tx.submissions ::
      var row := tx.submissions[s];
      if row.status == InProgress && row.retention == Retained && row.lastSeen < cutoff
      then row.(status := Abandoned) else row;
    return Done;
  }

  method CompleteSubmission(tx: Tables, sid: SubmissionId, uid: UserId, evidenceComplete: bool, paymentEnabled: bool,
                            locked: set<nat>)
    returns (out: Outcome)
    modifies tx`submissions, tx`credits
    ensures (tx.Snapshot(), out)
            == SubmissionRules.Complete(old(tx.Snapshot()), sid, uid, evidenceComplete, paymentEnabled, locked)
    ensures old(StatusOf(tx.Snapshot(), sid)) == Some(InProgress) && !out.Rejected? ==>
              && StatusOf(tx.Snapshot(), sid) in {Some(FlagReview), Some(Paid), Some(AwaitingPayment)}
              && (StatusOf(tx.Snapshot(), sid) == Some(FlagReview) <==> HasOpenFlag(tx.flags, sid))
              && (StatusOf(tx.Snapshot(), sid) == Some(Paid) <==> out == AssignNow)
              && (HasOpenFlag(tx.flags, sid) ==> tx.credits == old(tx.credits))
    ensures old(StatusOf(tx.Snapshot(), sid)) != Some(InProgress) ==> tx.Snapshot() == old(tx.Snapshot())
    ensures Lifecycle.Consistent(old(tx.Snapshot())) ==> Lifecycle.Consistent(tx.Snapshot())
  {
    hide Lifecycle.Consistent, HasOpenFlag;
    ghost var db := tx.Snapshot();
    if Lifecycle.Consistent(db) {
      Lifecycle.StepConsistent(db, Lifecycle.Complete(sid, uid, evidenceComplete, paymentEnabled, locked));
    }
    if IsRetained(db.submissions, sid) && OwnedBy(db.submissions, sid, uid) && StatusOf(db, sid) == Some(InProgress)
       && evidenceComplete {
      SubmissionEffects.CompletionOutcome(db, sid, uid, paymentEnabled, locked);
    }
    if sid !in tx.submissions || tx.submissions[sid].retention == Purged { return Rejected(NotFound); }
    var submission := tx.submissions[sid];
    if submission.student != uid { return Rejected(Unauthorized); }
    if submission.retention != Retained { return Rejected(InvalidLifecycle); }
    if submission.status != InProgress {
      if SubmissionRules.PastRecording(submission.status) { return Done; }
      return Rejected(InvalidLifecycle);
    }
    if !evidenceComplete { return Rejected(ValidationFailed); }
    if HasOpenFlag(tx.flags, sid) {
      tx.submissions := tx.submissions[sid := submission.(status := FlagReview, flagReturn := None)];
      return Done;
    }
    out := FlagService.RouteRecordedSubmission(tx, sid, paymentEnabled, locked);
  }
}
