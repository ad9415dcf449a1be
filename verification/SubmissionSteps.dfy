/** The submission service and its routing keep the invariant. */
module SubmissionSteps {
  import opened Options
  import opened Records
  import opened LifecycleInvariant
  import opened LifecycleRows
  import FlagRules
  import SubmissionRules

  // ---------------------------------------------------------------------
  // Giving up unfinished attempts
  // ---------------------------------------------------------------------

  /** Some unfinished attempts are abandoned; nothing else changes. */
  ghost predicate AbandonsSome(submissions: Submissions, next: Submissions) {
    && next.Keys == submissions.Keys
    && forall s :: s in submissions ==>
         next[s] == submissions[s]
         || (submissions[s].status == InProgress && next[s] == submissions[s].(status := Abandoned))
  }

  lemma AbandonPaired(submissions: Submissions, assignments: Assignments, pairs: map<SubmissionId, Pair>,
                      next: Submissions)
    requires Paired(submissions, assignments, pairs) && Standing(submissions, pairs) && AbandonsSome(submissions, next)
    ensures Paired(next, assignments, pairs) && Standing(next, pairs)
  {
  }

  lemma AbandonCrediting(submissions: Submissions, credits: seq<Credit>, index: map<SubmissionId, nat>,
                         pairs: map<SubmissionId, Pair>, next: Submissions)
    requires Crediting(submissions, credits, index, pairs) && AbandonsSome(submissions, next)
    ensures Crediting(next, credits, index, pairs)
  {
  }

  lemma AbandonCharging(submissions: Submissions, payments: Payments, waivers: set<SubmissionId>,
                        pairs: map<SubmissionId, Pair>,
                        paidBy: map<SubmissionId, PaymentId>, next: Submissions)
    requires Charging(submissions, payments, waivers, pairs, paidBy) && AbandonsSome(submissions, next)
    ensures Charging(next, payments, waivers, pairs, paidBy)
  {
    assert forall s :: s in submissions ==>
      && Ready(next[s].status, s in pairs) == Ready(submissions[s].status, s in pairs)
      && next[s].paymentRequired == submissions[s].paymentRequired
      && (next[s].status == AwaitingPayment) == (submissions[s].status == AwaitingPayment);
    ChargingSame(submissions, payments, waivers, pairs, paidBy, next);
  }

  lemma ChargingSame(submissions: Submissions, payments: Payments, waivers: set<SubmissionId>,
                     pairs: map<SubmissionId, Pair>,
                     paidBy: map<SubmissionId, PaymentId>, next: Submissions)
    requires Charging(submissions, payments, waivers, pairs, paidBy) && next.Keys == submissions.Keys
    requires forall s :: s in submissions ==>
      && Ready(next[s].status, s in pairs) == Ready(submissions[s].status, s in pairs)
      && next[s].paymentRequired == submissions[s].paymentRequired
      && (next[s].status == AwaitingPayment) == (submissions[s].status == AwaitingPayment)
    ensures Charging(next, payments, waivers, pairs, paidBy)
  {
    hide Ready;
  }

  lemma AbandonRest(db: Db, next: Submissions)
    requires AbandonsSome(db.submissions, next)
    ensures Marking(db.submissions, db.assignments) ==> Marking(next, db.assignments)
    ensures Flagging(db.submissions, db.flags) ==> Flagging(next, db.flags)
    ensures Owned(db.users, db.submissions, db.assignments) ==> Owned(db.users, next, db.assignments)
    ensures Current(db.submissions) ==> Current(next)
  {
    hide HasOpenFlag, GoodScores;
  }

  lemma AbandonKeeps(db: Db, ix: Index, next: Submissions)
    requires Inv(db, ix) && AbandonsSome(db.submissions, next)
    ensures Inv(db.(submissions := next), ix)
  {
    hide Paired, Standing, Marking, Flagging, Crediting, Charging, Accounting, Owned, Administered, Traced,
         Current, Placed, AbandonsSome;
    AbandonPaired(db.submissions, db.assignments, ix.pairs, next);
    AbandonCrediting(db.submissions, db.credits, ix.credit, ix.pairs, next);
    AbandonCharging(db.submissions, db.payments, db.waivers, ix.pairs, ix.paidBy, next);
    AbandonRest(db, next);
  }

  lemma AbandonOneKeeps(db: Db, ix: Index, sid: SubmissionId, uid: UserId)
    requires Inv(db, ix)
    ensures Inv(SubmissionRules.Abandon(db, sid, uid).0, ix)
  {
    hide Inv;
    var next := SubmissionRules.Abandon(db, sid, uid).0;
    AbandonKeeps(db, ix, next.submissions);
    assert next == db.(submissions := next.submissions);
  }

  lemma SweepKeeps(db: Db, ix: Index, cutoff: int)
    requires Inv(db, ix)
    ensures Inv(SubmissionRules.Sweep(db, cutoff).0, ix)
  {
    hide Inv;
    AbandonKeeps(db, ix, SubmissionRules.Sweep(db, cutoff).0.submissions);
  }

  // ---------------------------------------------------------------------
  // New attempts and new accounts
  // ---------------------------------------------------------------------

  lemma RegisterKeeps(db: Db, ix: Index, uid: UserId)
    requires Inv(db, ix)
    ensures Inv(SubmissionRules.Register(db, uid).0, ix)
  {
    hide Paired, Placed, Standing, Flagging, Marking, Crediting, Charging, Accounting, Traced, Current;
    if uid !in db.users {
      var admin :| ActiveAdmin(db.users, admin);
      assert ActiveAdmin(db.users[uid := User(Student, false)], admin);
    }
  }

  lemma NewPaired(submissions: Submissions, assignments: Assignments, pairs: map<SubmissionId, Pair>,
                  sid: SubmissionId, s: Submission)
    requires Paired(submissions, assignments, pairs) && Standing(submissions, pairs) && sid !in submissions
    requires s.status == InProgress && s.flagReturn == None
    ensures Paired(submissions[sid := s], assignments, pairs) && Standing(submissions[sid := s], pairs)
  {
    hide GoodPair;
  }

  lemma NewCrediting(submissions: Submissions, credits: seq<Credit>, index: map<SubmissionId, nat>,
                     pairs: map<SubmissionId, Pair>, sid: SubmissionId, s: Submission)
    requires Crediting(submissions, credits, index, pairs) && sid !in submissions && s.status == InProgress
    ensures Crediting(submissions[sid := s], credits, index, pairs)
  {
  }

  lemma NewCharging(submissions: Submissions, payments: Payments, waivers: set<SubmissionId>,
                    pairs: map<SubmissionId, Pair>,
                    paidBy: map<SubmissionId, PaymentId>, sid: SubmissionId, s: Submission)
    requires Charging(submissions, payments, waivers, pairs, paidBy) && sid !in submissions && s.status == InProgress
             && sid !in pairs
    ensures Charging(submissions[sid := s], payments, waivers, pairs, paidBy)
  {
  }

  lemma NewRest(db: Db, sid: SubmissionId, s: Submission)
    requires sid !in db.submissions && s.status == InProgress && !SubmissionRules.HasActive(db.submissions, s.student)
    ensures Marking(db.submissions, db.assignments) ==> Marking(db.submissions[sid := s], db.assignments)
    ensures Flagging(db.submissions, db.flags) ==> Flagging(db.submissions[sid := s], db.flags)
    ensures Owned(db.users, db.submissions, db.assignments) ==>
             Owned(db.users, db.submissions[sid := s], db.assignments)
    ensures Current(db.submissions) ==> Current(db.submissions[sid := s])
  {
    hide HasOpenFlag, GoodScores;
  }

  lemma NewKeeps(db: Db, ix: Index, sid: SubmissionId, s: Submission)
    requires Inv(db, ix) && sid !in db.submissions && s.status == InProgress && s.flagReturn == None
    requires !SubmissionRules.HasActive(db.submissions, s.student)
    ensures Inv(db.(submissions := db.submissions[sid := s]), ix)
  {
    assert sid !in ix.pairs;
    hide Paired, Placed, Standing, Flagging, Marking, Crediting, Charging, Accounting, Owned, Administered,
         Traced, Current, SubmissionRules.HasActive;
    NewPaired(db.submissions, db.assignments, ix.pairs, sid, s);
    NewCrediting(db.submissions, db.credits, ix.credit, ix.pairs, sid, s);
    NewCharging(db.submissions, db.payments, db.waivers, ix.pairs, ix.paidBy, sid, s);
    NewRest(db, sid, s);
  }

  lemma StartAssessmentKeeps(db: Db, ix: Index, student: UserId, sid: SubmissionId, stale: Option<SubmissionId>,
                             now: int)
    requires Inv(db, ix)
    ensures Inv(SubmissionRules.StartAssessment(db, student, sid, stale, now).0, ix)
  {
    hide Inv, SubmissionRules.HasActive;
    if SubmissionRules.StartAssessment(db, student, sid, stale, now).1 == Done {
      var superseded :=
        if stale.None? then db.submissions
        else db.submissions[stale.value := db.submissions[stale.value].(status := Abandoned)];
      AbandonKeeps(db, ix, superseded);
      NewKeeps(db.(submissions := superseded), ix, sid,
               Submission(student, InProgress, Retained, Rubric6, true, None, now));
    }
  }

  lemma HeartbeatKeeps(db: Db, ix: Index, sid: SubmissionId, uid: UserId, now: int)
    requires Inv(db, ix)
    ensures Inv(SubmissionRules.Heartbeat(db, sid, uid, now).0, ix)
  {
    hide Inv, HasOpenFlag;
    if SubmissionRules.Heartbeat(db, sid, uid, now).1 == Done {
      AtSubmission(db, ix, sid);
      FreeRowKeeps(db, ix, sid, db.submissions[sid].(lastSeen := now));
    }
  }

  // ---------------------------------------------------------------------
  // Routing
  // ---------------------------------------------------------------------

  lemma RedeemCrediting(submissions: Submissions, credits: seq<Credit>, index: map<SubmissionId, nat>,
                        pairs: map<SubmissionId, Pair>, i: nat, sid: SubmissionId)
    requires Crediting(submissions, credits, index, pairs) && i < |credits| && credits[i].redeemed == None
    requires Redeems(submissions, pairs, credits[i].student, sid) && submissions[sid].status != Voided
    requires forall j :: 0 <= j < |credits| ==> credits[j].redeemed != Some(sid)
    ensures Crediting(submissions, credits[i := credits[i].(redeemed := Some(sid))], index, pairs)
  {
    hide Redeems;
  }

  /** An unrouted Submission has not redeemed anything. */
  lemma Unrouted(submissions: Submissions, credits: seq<Credit>, index: map<SubmissionId, nat>,
                 pairs: map<SubmissionId, Pair>, sid: SubmissionId)
    requires Crediting(submissions, credits, index, pairs) && sid in submissions
             && !Ready(submissions[sid].status, sid in pairs)
    ensures forall j :: 0 <= j < |credits| ==> credits[j].redeemed != Some(sid)
  {
  }

  lemma RedeemKeeps(db: Db, ix: Index, i: nat, sid: SubmissionId)
    requires Inv(db, ix) && i < |db.credits| && db.credits[i].redeemed == None
    requires Redeems(db.submissions, ix.pairs, db.credits[i].student, sid) && db.submissions[sid].status != Voided
    requires forall j :: 0 <= j < |db.credits| ==> db.credits[j].redeemed != Some(sid)
    ensures Inv(db.(credits := db.credits[i := db.credits[i].(redeemed := Some(sid))]), ix)
  {
    hide Paired, Placed, Standing, Flagging, Marking, Crediting, Charging, Accounting, Owned, Administered,
         Traced, Current, Redeems;
    RedeemCrediting(db.submissions, db.credits, ix.credit, ix.pairs, i, sid);
  }

  /** Routing a recorded Submission, once no flag is open; set aside, it would be consistent. */
  lemma RouteKeeps(db: Db, ix: Index, sid: SubmissionId, was: Submission, paymentEnabled: bool, locked: set<nat>)
    requires sid in db.submissions && was == db.submissions[sid]
    requires Inv(db.(submissions := db.submissions[sid := was.(status := Abandoned, flagReturn := None)]), ix)
    requires was.retention == Retained && !HasOpenFlag(db.flags, sid)
    ensures Inv(FlagRules.Route(db, sid, paymentEnabled, locked).0, ix)
  {
    hide Inv, HasOpenFlag;
    var aside := db.(submissions := db.submissions[sid := was.(status := Abandoned, flagReturn := None)]);
    AtSubmission(aside, ix, sid);
    assert sid !in ix.pairs;
    var pick := if paymentEnabled then FlagRules.OldestCredit(db.credits, was.student, locked, 0) else None;
    var paymentRequired := paymentEnabled && pick.None?;
    var routed := was.(paymentRequired := paymentRequired, flagReturn := None,
                       status := if paymentRequired then AwaitingPayment else Paid);
    FreeRowKeeps(aside, ix, sid, routed);
    var next := aside.(submissions := aside.submissions[sid := routed]);
    assert next.submissions == db.submissions[sid := routed];
    if pick.Some? {
      assert forall j :: 0 <= j < |db.credits| ==>
        db.credits[j].redeemed != Some(sid) by { NoneRedeemed(aside, ix, sid); }
      RedeemKeeps(next, ix, pick.value, sid);
    }
  }

  lemma NoneRedeemed(db: Db, ix: Index, sid: SubmissionId)
    requires Inv(db, ix) && sid in db.submissions && db.submissions[sid].status == Abandoned && sid !in ix.pairs
    ensures forall j :: 0 <= j < |db.credits| ==> db.credits[j].redeemed != Some(sid)
  {
    hide Paired, Placed, Standing, Flagging, Marking, Crediting, Charging, Accounting, Owned, Administered,
         Traced, Current;
    Unrouted(db.submissions, db.credits, ix.credit, ix.pairs, sid);
  }

  lemma CompleteKeeps(db: Db, ix: Index, sid: SubmissionId, uid: UserId, evidenceComplete: bool, paymentEnabled: bool,
                      locked: set<nat>)
    requires Inv(db, ix)
    ensures Inv(SubmissionRules.Complete(db, sid, uid, evidenceComplete, paymentEnabled, locked).0, ix)
  {
    hide Inv, HasOpenFlag, FlagRules.Route;
    if IsRetained(db.submissions, sid) && db.submissions[sid].status == InProgress {
      var s := db.submissions[sid];
      AtSubmission(db, ix, sid);
      if HasOpenFlag(db.flags, sid) {
        FreeRowKeeps(db, ix, sid, s.(status := FlagReview, flagReturn := None));
      } else {
        FreeRowKeeps(db, ix, sid, s.(status := Abandoned, flagReturn := None));
        RouteKeeps(db, ix, sid, s, paymentEnabled, locked);
      }
    }
  }

  // ---------------------------------------------------------------------
  // Retention
  // ---------------------------------------------------------------------

  lemma QuarantineKeeps(db: Db, ix: Index, sid: SubmissionId)
    requires Inv(db, ix)
    ensures Inv(SubmissionRules.QuarantineSubmission(db, sid).0, ix)
    ensures Inv(SubmissionRules.RecoverSubmission(db, sid).0, ix)
  {
    hide Inv, HasOpenFlag, SubmissionRules.OnlyDeadPayments, SetOf;
    if sid in db.submissions {
      var s := db.submissions[sid];
      AtSubmission(db, ix, sid);
      if SubmissionRules.QuarantineSubmission(db, sid).1 == Done {
        FreeRowKeeps(db, ix, sid, s.(retention := Quarantined));
      }
      if SubmissionRules.RecoverSubmission(db, sid).1 == Done {
        FreeRowKeeps(db, ix, sid, s.(retention := Retained));
      }
    }
  }

  lemma PurgeKeeps(db: Db, ix: Index, sid: SubmissionId)
    requires Inv(db, ix)
    ensures Inv(SubmissionRules.PurgeSubmission(db, sid).0, ix)
  {
    hide Inv, HasOpenFlag, SubmissionRules.OnlyDeadPayments, SetOf, SubmissionRules.Referenced;
    if SubmissionRules.PurgeSubmission(db, sid).1 == Done {
      AtSubmission(db, ix, sid);
      var purged := db.(submissions := db.submissions[sid := db.submissions[sid].(retention := Purged)]);
      FreeRowKeeps(db, ix, sid, db.submissions[sid].(retention := Purged));
      DropPayments(purged, ix, sid);
    }
  }

  /** Payments of a Submission that nothing was paid for can go. */
  lemma DropPayments(db: Db, ix: Index, sid: SubmissionId)
    requires Inv(db, ix) && sid in db.submissions && !Ready(db.submissions[sid].status, sid in ix.pairs)
    ensures Inv(db.(payments := map p | p in db.payments && db.payments[p].submission != sid :: db.payments[p]), ix)
  {
    hide Paired, Placed, Standing, Flagging, Marking, Crediting, Owned, Administered, Traced, Current;
  }
}
