module FlagRules {
  import opened Options
  import opened Records

  /** A credit the student can still redeem and no other transaction holds locked. */
  predicate Redeemable(credits: seq<Credit>, student: UserId, locked: set<nat>, i: nat) {
    i < |credits| && credits[i].student == student && credits[i].redeemed == None && i !in locked
  }

  /** The oldest redeemable credit. */
  function OldestCredit(credits: seq<Credit>, student: UserId, locked: set<nat>, from: nat): (pick: Option<nat>)
    requires from <= |credits|
    ensures pick.Some? ==> from <= pick.value && Redeemable(credits, student, locked, pick.value)
    ensures forall i: nat :: from <= i < (if pick.Some? then pick.value else |credits|) ==>
             !Redeemable(credits, student, locked, i)
    decreases |credits| - from
  {
    if from == |credits| then None
    else if Redeemable(credits, student, locked, from) then Some(from)
    else OldestCredit(credits, student, locked, from + 1)
  }

  /** Route a recorded Submission without open flag to payment or past it. */
  function Route(db: Db, sid: SubmissionId, paymentEnabled: bool, locked: set<nat>): (Db, Outcome)
    requires sid in db.submissions
  {
    var s := db.submissions[sid];
    var pick := if paymentEnabled then OldestCredit(db.credits, s.student, locked, 0) else None;
    var paymentRequired := paymentEnabled && pick.None?;
    var routed := s.(paymentRequired := paymentRequired, flagReturn := None,
                     status := if paymentRequired then AwaitingPayment else Paid);
    (db.(submissions := db.submissions[sid := routed],
         credits := if pick.Some? then db.credits[pick.value := db.credits[pick.value].(redeemed := Some(sid))]
                    else db.credits),
     if paymentRequired then Done else AssignNow)
  }

  /** A device flag, raised by the test client or with a confirmed upload. */
  function RaiseDeviceFlag(db: Db, sid: SubmissionId, uid: UserId, fid: FlagId, entryKnown: bool): (Db, Outcome) {
    if !IsRetained(db.submissions, sid) || db.submissions[sid].student != uid then (db, Rejected(NotFound))
    else if db.submissions[sid].status != InProgress then (db, Rejected(InvalidLifecycle))
    else if !entryKnown then (db, Rejected(ValidationFailed))
    else (db.(flags := db.flags[fid := Flag(sid, None)]), Done)
  }

  function RaiseIntegrityConcern(db: Db, aid: AssignmentId, uid: UserId, fid: FlagId,
                                 answerKnown: bool): (Db, Outcome) {
    if aid !in db.assignments || !IsRetained(db.submissions, db.assignments[aid].submission) then
      (db, Rejected(NotFound))
    else
      var a, sid := db.assignments[aid], db.assignments[aid].submission;
      var s := db.submissions[sid];
      if a.examiner != uid then (db, Rejected(Unauthorized))
      else if a.status == Completed || (s.status != Scoring && s.status != FlagReview) then
        (db, Rejected(InvalidLifecycle))
      else if !answerKnown then (db, Rejected(ValidationFailed))
      else
        (db.(flags := db.flags[fid := Flag(sid, None)],
             submissions := if s.status == Scoring
                            then db.submissions[sid := s.(status := FlagReview, flagReturn := Some(Scoring))]
                            else db.submissions), Done)
  }

  /** Why an Admin may not resolve this flag, if anything stands in the way. */
  function ResolveProblem(db: Db, fid: FlagId, admin: UserId): Option<Error> {
    if !ActiveAdmin(db.users, admin) then Some(Unauthorized)
    else if fid !in db.flags || db.flags[fid].submission !in db.submissions then Some(NotFound)
    else if db.flags[fid].resolution != None then Some(AlreadyResolved)
    else if !IsRetained(db.submissions, db.flags[fid].submission)
         || db.submissions[db.flags[fid].submission].status != FlagReview then Some(InvalidLifecycle)
    else None
  }

  /** The confirmed flag and the other open ones of the Submission, resolved. */
  function Settled(flags: map<FlagId, Flag>, fid: FlagId, sid: SubmissionId): map<FlagId, Flag> {
    map f | f in flags ::
      if f == fid then flags[f].(resolution := Some(Confirmed))
      else if OpenOn(flags, f, sid) then flags[f].(resolution := Some(Superseded))
      else flags[f]
  }

  function ConfirmFlag(db: Db, fid: FlagId, admin: UserId): (Db, Outcome) {
    var problem := ResolveProblem(db, fid, admin);
    if problem.Some? then (db, Rejected(problem.value))
    else
      var sid := db.flags[fid].submission;
      var s := db.submissions[sid];
      (db.(flags := Settled(db.flags, fid, sid),
           submissions := db.submissions[sid := s.(status := Voided, flagReturn := None)],
           credits := db.credits + [Credit(s.student, sid, None)]), Done)
  }

  function DismissFlag(db: Db, fid: FlagId, admin: UserId, paymentEnabled: bool, locked: set<nat>): (Db, Outcome) {
    var problem := ResolveProblem(db, fid, admin);
    if problem.Some? then (db, Rejected(problem.value))
    else
      var sid := db.flags[fid].submission;
      var s := db.submissions[sid];
      var dismissed := db.(flags := db.flags[fid := db.flags[fid].(resolution := Some(Dismissed))]);
      if HasOpenFlag(dismissed.flags, sid) then (dismissed, Done)
      else if s.flagReturn.Some? then
        (dismissed.(submissions := db.submissions[sid := s.(status := s.flagReturn.value, flagReturn := None)]), Done)
      else Route(dismissed, sid, paymentEnabled, locked)
  }
}

/** The transactions of the flag service; each takes effect whole, an early return writes nothing. */
module FlagService {
  import opened Options
  import opened Records
  import opened Database
  import FlagRules
  import Lifecycle
  import FlagEffects

  method RouteRecordedSubmission(tx: Tables, sid: SubmissionId, paymentEnabled: bool,
                                 locked: set<nat>) returns (out: Outcome)
    requires sid in tx.submissions
    modifies tx`submissions, tx`credits
    ensures (tx.Snapshot(), out) == FlagRules.Route(old(tx.Snapshot()), sid, paymentEnabled, locked)
    ensures FlagEffects.Routed(old(tx.Snapshot()), tx.Snapshot(), sid, out, paymentEnabled, locked)
  {
    hide FlagEffects.Routed;
    FlagEffects.RoutingSpendsOldestCredit(tx.Snapshot(), sid, paymentEnabled, locked);
    var paymentRequired := paymentEnabled;
    if paymentEnabled {
      var pick := FlagRules.OldestCredit(tx.credits, tx.submissions[sid].student, locked, 0);
      if pick.Some? {
        tx.credits := tx.credits[pick.value := tx.credits[pick.value].(redeemed := Some(sid))];
      }
      paymentRequired := pick.None?;
    }
    var status := if paymentRequired then AwaitingPayment else Paid;
    tx.submissions := tx.submissions[sid := tx.submissions[sid].(paymentRequired := paymentRequired, status := status,
                                                                 flagReturn := None)];
    out := if paymentRequired then Done else AssignNow;
  }

  method RaiseDeviceFlag(tx: Tables, sid: SubmissionId, uid: UserId, fid: FlagId,
                         entryKnown: bool) returns (out: Outcome)
    modifies tx`flags
    ensures (tx.Snapshot(), out) == FlagRules.RaiseDeviceFlag(old(tx.Snapshot()), sid, uid, fid, entryKnown)
    ensures out == Done <==>
              old(IsRetained(tx.submissions, sid) && OwnedBy(tx.submissions, sid, uid)
                  && StatusOf(tx.Snapshot(), sid) == Some(InProgress)) && entryKnown
    ensures Lifecycle.Consistent(old(tx.Snapshot())) && fid !in old(tx.flags) ==>
              Lifecycle.Consistent(tx.Snapshot()) && (out == Done ==> OpenOn(tx.flags, fid, sid))
  {
    hide Lifecycle.Consistent;
    ghost var db := tx.Snapshot();
    if Lifecycle.Consistent(db) {
      Lifecycle.StepConsistent(db, Lifecycle.RaiseDeviceFlag(sid, uid, fid, entryKnown));
    }
    if !IsRetained(tx.submissions, sid) || tx.submissions[sid].student != uid { return Rejected(NotFound); }
    if tx.submissions[sid].status != InProgress { return Rejected(InvalidLifecycle); }
    if !entryKnown { return Rejected(ValidationFailed); }
    tx.flags := tx.flags[fid := Flag(sid, None)];
    return Done;
  }

  method RaiseIntegrityConcern(tx: Tables, aid: AssignmentId, uid: UserId, fid: FlagId,
                               answerKnown: bool) returns (out: Outcome)
    modifies tx`flags, tx`submissions
    ensures (tx.Snapshot(), out) == FlagRules.RaiseIntegrityConcern(old(tx.Snapshot()), aid, uid, fid, answerKnown)
    ensures Lifecycle.Consistent(old(tx.Snapshot())) && fid !in old(tx.flags) ==>
              && Lifecycle.Consistent(tx.Snapshot())
              && (out == Done <==>
                    && answerKnown && AssignedTo(tx.assignments, aid, uid) && !HasWork(tx.assignments, aid, Completed)
                    && old(StatusAround(tx.Snapshot(), aid)) in {Some(Scoring), Some(FlagReview)})
              && (out == Done ==> StatusAround(tx.Snapshot(), aid) == Some(FlagReview))
  {
    hide Lifecycle.Consistent;
    ghost var db := tx.Snapshot();
    if Lifecycle.Consistent(db) {
      Lifecycle.StepConsistent(db, Lifecycle.RaiseIntegrityConcern(aid, uid, fid, answerKnown));
      if fid !in tx.flags { FlagEffects.ConcernAccepted(db, aid, uid, fid, answerKnown); }
    }
    if aid !in tx.assignments { return Rejected(NotFound); }
    var assignment := tx.assignments[aid];
    var sid := assignment.submission;
    if !IsRetained(tx.submissions, sid) { return Rejected(NotFound); }
    if assignment.examiner != uid { return Rejected(Unauthorized); }
    var status := tx.submissions[sid].status;
    if assignment.status == Completed || (status != Scoring && status != FlagReview) {
      return Rejected(InvalidLifecycle);
    }
    if !answerKnown { return Rejected(ValidationFailed); }
    tx.flags := tx.flags[fid := Flag(sid, None)];
    if status == Scoring {
      tx.submissions := tx.submissions[sid := tx.submissions[sid].(status := FlagReview, flagReturn := Some(Scoring))];
    }
    return Done;
  }

  /** Confirming one flag and then superseding what is still open settles them all. */
  lemma SettledInTwoWrites(flags: map<FlagId, Flag>, fid: FlagId, sid: SubmissionId)
    requires fid in flags
    ensures var first := flags[fid := flags[fid].(resolution := Some(Confirmed))];
            (map f | f in first ::
             if OpenOn(first, f, sid) then first[f].(resolution := Some(Superseded)) else first[f])
            == FlagRules.Settled(flags, fid, sid)
  {
  }

  method ConfirmFlag(tx: Tables, fid: FlagId, admin: UserId) returns (out: Outcome)
    modifies tx`flags, tx`submissions, tx`credits
    ensures (tx.Snapshot(), out) == FlagRules.ConfirmFlag(old(tx.Snapshot()), fid, admin)
    ensures Lifecycle.Consistent(old(tx.Snapshot())) ==> Lifecycle.Consistent(tx.Snapshot())
    ensures out == Done ==> |tx.credits| == |old(tx.credits)| + 1
  {
    hide Lifecycle.Consistent, OpenOn, FlagRules.Settled;
    ghost var db := tx.Snapshot();
    if Lifecycle.Consistent(db) {
      Lifecycle.StepConsistent(db, Lifecycle.ConfirmFlag(fid, admin));
    }
    var problem := FlagRules.ResolveProblem(tx.Snapshot(), fid, admin);
    if problem.Some? { return Rejected(problem.value); }
    var sid := tx.flags[fid].submission;
    SettledInTwoWrites(tx.flags, fid, sid);
    tx.flags := tx.flags[fid := tx.flags[fid].(resolution := Some(Confirmed))];
    tx.flags := map f | f in tx.flags ::
      if OpenOn(tx.flags, f, sid) then tx.flags[f].(resolution := Some(Superseded)) else tx.flags[f];
    tx.submissions := tx.submissions[sid := tx.submissions[sid].(status := Voided, flagReturn := None)];
    tx.credits := tx.credits + [Credit(tx.submissions[sid].student, sid, None)];
    return Done;
  }

  method DismissFlag(tx: Tables, fid: FlagId, admin: UserId, paymentEnabled: bool,
                     locked: set<nat>) returns (out: Outcome)
    modifies tx`flags, tx`submissions, tx`credits
    ensures (tx.Snapshot(), out) == FlagRules.DismissFlag(old(tx.Snapshot()), fid, admin, paymentEnabled, locked)
    ensures Lifecycle.Consistent(old(tx.Snapshot())) ==>
              && Lifecycle.Consistent(tx.Snapshot())
              && (!out.Rejected? <==>
                    ActiveAdmin(tx.users, admin) && old(FlagEffects.Resolvable(tx.Snapshot(), fid)))
              && (!out.Rejected? ==> FlagEffects.Returned(old(tx.Snapshot()), tx.Snapshot(), fid, out))
  {
    hide Lifecycle.Consistent, FlagEffects.Resolvable, FlagEffects.Returned;
    ghost var db := tx.Snapshot();
    if Lifecycle.Consistent(db) {
      Lifecycle.StepConsistent(db, Lifecycle.DismissFlag(fid, admin, paymentEnabled, locked));
      FlagEffects.DismissalReturns(db, fid, admin, paymentEnabled, locked);
    }
    var problem := FlagRules.ResolveProblem(tx.Snapshot(), fid, admin);
    if problem.Some? { return Rejected(problem.value); }
    var sid := tx.flags[fid].submission;
    tx.flags := tx.flags[fid := tx.flags[fid].(resolution := Some(Dismissed))];
    if HasOpenFlag(tx.flags, sid) { return Done; }
    var back := tx.submissions[sid].flagReturn;
    if back.Some? {
      tx.submissions := tx.submissions[sid := tx.submissions[sid].(status := back.value, flagReturn := None)];
      return Done;
    }
    out := RouteRecordedSubmission(tx, sid, paymentEnabled, locked);
  }
}
