/** What flags and their resolution achieve. */
module FlagEffects {
  import opened Options
  import opened Records
  import opened LifecycleInvariant
  import opened LifecycleRows
  import opened Lifecycle
  import opened LifecycleSafety
  import opened LifecycleHistory
  import opened ExaminerEffects
  import ExaminerRules
  import FlagRules

  /** A free retake of this student that no other transaction holds. */
  predicate Spendable(credits: seq<Credit>, student: UserId, locked: set<nat>, i: nat) {
    i < |credits| && i !in locked && credits[i].student == student && credits[i].redeemed == None
  }

  /**
   * A recorded Submission on its way: free of payment exactly when payment is off or a credit is
   * there, and then the oldest credit is spent on it, exactly if payment is on.
   */
  ghost predicate Routed(before: Db, after: Db, sid: SubmissionId, out: Outcome, paymentEnabled: bool,
                         locked: set<nat>) {
    && sid in before.submissions
    && var s := before.submissions[sid];
       var free := !paymentEnabled || exists i: nat :: Spendable(before.credits, s.student, locked, i);
       && out == (if free then AssignNow else Done)
       && after == before.(submissions := before.submissions[sid := s.(paymentRequired := !free, flagReturn := None,
                             status := if free then Paid else AwaitingPayment)],
                           credits := after.credits)
       && |after.credits| == |before.credits|
       && (after.credits != before.credits <==> paymentEnabled && free)
       && (forall i: nat :: i < |before.credits| && after.credits[i] != before.credits[i] ==>
             && Spendable(before.credits, s.student, locked, i)
             && after.credits[i] == before.credits[i].(redeemed := Some(sid))
             && forall j: nat :: j < i ==> !Spendable(before.credits, s.student, locked, j))
  }

  lemma SpendableMeans(credits: seq<Credit>, student: UserId, locked: set<nat>)
    ensures forall i: nat :: Spendable(credits, student, locked, i) <==>
                             FlagRules.Redeemable(credits, student, locked, i)
  {
  }

  /** Routing frees the student of payment exactly when the rule says so, and spends the oldest credit. */
  lemma RoutingSpendsOldestCredit(db: Db, sid: SubmissionId, paymentEnabled: bool, locked: set<nat>)
    requires sid in db.submissions
    ensures var r := FlagRules.Route(db, sid, paymentEnabled, locked);
            Routed(db, r.0, sid, r.1, paymentEnabled, locked)
  {
    hide FlagRules.Redeemable, Spendable;
    SpendableMeans(db.credits, db.submissions[sid].student, locked);
    var student := db.submissions[sid].student;
    var pick := FlagRules.OldestCredit(db.credits, student, locked, 0);
    if pick.Some? {
      RedeemableMeans(db.credits, student, locked, pick.value);
      assert db.credits[pick.value].(redeemed := Some(sid)) != db.credits[pick.value];
    }
    forall i: nat | FlagRules.Redeemable(db.credits, student, locked, i)
      ensures i < |db.credits|
    {
      RedeemableMeans(db.credits, student, locked, i);
    }
  }

  lemma RedeemableMeans(credits: seq<Credit>, student: UserId, locked: set<nat>, i: nat)
    ensures FlagRules.Redeemable(credits, student, locked, i) ==> i < |credits| && credits[i].redeemed == None
  {
  }

  // ---------------------------------------------------------------------
  // An open flag holds everything back
  // ---------------------------------------------------------------------

  lemma OpenFlagStatus(db: Db, fid: FlagId, sid: SubmissionId)
    requires Consistent(db) && OpenOn(db.flags, fid, sid)
    ensures StatusOf(db, sid) in {Some(InProgress), Some(Abandoned), Some(FlagReview)}
  {
    hide Inv, HasOpenFlag;
    assert HasOpenFlag(db.flags, sid) by { SomeOpenFlag(db.flags, fid, sid); }
    FlagKnown(db, fid);
    if StatusOf(db, sid) != Some(InProgress) && StatusOf(db, sid) != Some(Abandoned) {
      FlagsMatchStatus(db, sid);
    }
  }

  lemma SomeOpenFlag(flags: Flags, fid: FlagId, sid: SubmissionId)
    requires OpenOn(flags, fid, sid)
    ensures HasOpenFlag(flags, sid)
  {
  }

  lemma FlagKnown(db: Db, fid: FlagId)
    requires Consistent(db) && fid in db.flags
    ensures db.flags[fid].submission in db.submissions
  {
    hide Paired, Placed, Around, HasOpenFlag;
    var ix :| Inv(db, ix);
  }

  lemma FlagStays(before: Db, after: Db, fid: FlagId, sid: SubmissionId)
    requires Evolves(before, after) && fid in before.flags && before.flags[fid].submission == sid
    ensures fid in after.flags && after.flags[fid].submission == sid
  {
    hide SubmissionsEvolve, AssignmentsEvolve, CreditsEvolve, PaymentsEvolve, UsersEvolve;
  }

  /** In every continuation an unresolved flag keeps its Submission in recording, abandoned or in review. */
  lemma FlagHoldsBack(db: Db, fid: FlagId, sid: SubmissionId, events: seq<Event>)
    requires Consistent(db) && fid in db.flags && db.flags[fid].submission == sid
    ensures var later := Run(db, events);
            && fid in later.flags && later.flags[fid].submission == sid
            && (later.flags[fid].resolution == None ==>
                  StatusOf(later, sid) in {Some(InProgress), Some(Abandoned), Some(FlagReview)})
  {
    hide Consistent, Run, Evolves, StatusOf;
    var later := Run(db, events);
    RunConsistent(db, events);
    RunEvolves(db, events);
    FlagStays(db, later, fid, sid);
    if OpenOn(later.flags, fid, sid) { OpenFlagStatus(later, fid, sid); }
  }

  /**
   * A device flag is taken exactly from the owner of a retained attempt in progress, about a prompt
   * of its manifest; it is then one more open flag, and nothing else is written.
   */
  lemma DeviceFlagAccepted(db: Db, sid: SubmissionId, uid: UserId, fid: FlagId, entryKnown: bool)
    ensures var r := FlagRules.RaiseDeviceFlag(db, sid, uid, fid, entryKnown);
            && (r.1 == Done <==>
                  && entryKnown && IsRetained(db.submissions, sid) && OwnedBy(db.submissions, sid, uid)
                  && StatusOf(db, sid) == Some(InProgress))
            && r.0 == if r.1 == Done then db.(flags := db.flags[fid := Flag(sid, None)]) else db
  {
  }

  /**
   * A device flag is taken only while recording; from then on, whatever happens, the
   * Submission is neither charged nor assigned nor scored until the flag is resolved.
   */
  lemma DeviceFlagHoldsBack(db: Db, sid: SubmissionId, uid: UserId, fid: FlagId, entryKnown: bool, events: seq<Event>)
    requires Consistent(db) && fid !in db.flags
    requires FlagRules.RaiseDeviceFlag(db, sid, uid, fid, entryKnown).1 == Done
    ensures StatusOf(db, sid) == Some(InProgress)
    ensures var later := Run(FlagRules.RaiseDeviceFlag(db, sid, uid, fid, entryKnown).0, events);
            && fid in later.flags && later.flags[fid].submission == sid
            && (later.flags[fid].resolution == None ==>
                  StatusOf(later, sid) in {Some(InProgress), Some(Abandoned), Some(FlagReview)})
  {
    hide Consistent, Run;
    var e := RaiseDeviceFlag(sid, uid, fid, entryKnown);
    StepConsistent(db, e);
    FlagHoldsBack(Apply(db, e).0, fid, sid, events);
  }

  // ---------------------------------------------------------------------
  // Concerns
  // ---------------------------------------------------------------------

  /**
   * A concern is accepted exactly from an assigned examiner whose work
   * is not finished, while scoring or already paused.
   */
  lemma ConcernAccepted(db: Db, aid: AssignmentId, uid: UserId, fid: FlagId, answerKnown: bool)
    requires Consistent(db) && fid !in db.flags
    ensures var r := FlagRules.RaiseIntegrityConcern(db, aid, uid, fid, answerKnown);
            && (r.1 == Done <==>
                  && answerKnown && AssignedTo(db.assignments, aid, uid) && !HasWork(db.assignments, aid, Completed)
                  && StatusAround(db, aid) in {Some(Scoring), Some(FlagReview)})
            && (r.1 != Done ==> r.0 == db)
            && (r.1 == Done ==> Consistent(r.0) && StatusAround(r.0, aid) == Some(FlagReview))
            && (r.1 == Done ==>
                  && aid in db.assignments
                  && var sid := db.assignments[aid].submission;
                     && sid in db.submissions
                     && r.0.flags == db.flags[fid := Flag(sid, None)]
                     && r.0 == db.(flags := r.0.flags, submissions := r.0.submissions)
                     && r.0.submissions == if StatusOf(db, sid) == Some(FlagReview) then db.submissions
                          else db.submissions[sid := db.submissions[sid].(status := FlagReview,
                                                                          flagReturn := Some(Scoring))])
  {
    hide Consistent;
    if aid in db.assignments { ScoringMeans(db, aid); }
    StepConsistent(db, RaiseIntegrityConcern(aid, uid, fid, answerKnown));
  }

  /** From then on neither examiner can start, save or complete, whatever happens, until the concern is resolved. */
  lemma ConcernPausesScoring(db: Db, aid: AssignmentId, uid: UserId, fid: FlagId, events: seq<Event>,
                             other: AssignmentId, examiner: UserId, score: Score)
    requires Consistent(db) && fid !in db.flags && other in db.assignments && aid in db.assignments
    requires db.assignments[other].submission == db.assignments[aid].submission
    requires FlagRules.RaiseIntegrityConcern(db, aid, uid, fid, true).1 == Done
    ensures var later := Run(FlagRules.RaiseIntegrityConcern(db, aid, uid, fid, true).0, events);
            && fid in later.flags
            && (later.flags[fid].resolution == None ==>
                  && ExaminerRules.StartScoring(later, other, examiner).1 != Done
                  && ExaminerRules.SaveScore(later, other, examiner, score).1 != Done
                  && ExaminerRules.CompleteScoring(later, other, examiner).1 != Done)
  {
    hide Consistent, Run, Evolves, ExaminerRules.StartScoring, ExaminerRules.SaveScore, ExaminerRules.CompleteScoring;
    var sid := db.assignments[aid].submission;
    var raised := FlagRules.RaiseIntegrityConcern(db, aid, uid, fid, true).0;
    var later := Run(raised, events);
    StepConsistent(db, RaiseIntegrityConcern(aid, uid, fid, true));
    RunConsistent(raised, events);
    FlagHoldsBack(raised, fid, sid, events);
    RunEvolves(raised, events);
    PlaceStays(raised, later, other);
    WorkAccepted(later, other, examiner, score);
    CompletionAccepted(later, other, examiner);
  }

  lemma PlaceStays(before: Db, after: Db, a: AssignmentId)
    requires Evolves(before, after) && a in before.assignments
    ensures a in after.assignments && after.assignments[a].submission == before.assignments[a].submission
  {
    hide SubmissionsEvolve, FlagsEvolve, CreditsEvolve, PaymentsEvolve, UsersEvolve;
  }

  /** Dismissing the only open concern puts the Submission back exactly where it was. */
  lemma DismissalUndoesConcern(db: Db, aid: AssignmentId, uid: UserId, fid: FlagId, admin: UserId,
                               paymentEnabled: bool, locked: set<nat>)
    requires Consistent(db) && fid !in db.flags && ActiveAdmin(db.users, admin)
    requires FlagRules.RaiseIntegrityConcern(db, aid, uid, fid, true).1 == Done
    requires StatusAround(db, aid) == Some(Scoring)
    ensures aid in db.assignments
    ensures FlagRules.DismissFlag(FlagRules.RaiseIntegrityConcern(db, aid, uid, fid, true).0, fid, admin,
                                  paymentEnabled, locked)
            == (db.(flags := db.flags[fid := Flag(db.assignments[aid].submission, Some(Dismissed))]), Done)
  {
    hide Consistent, HasOpenFlag, FlagRules.Route, SetOf, ValidSet;
    var sid := db.assignments[aid].submission;
    var raised := FlagRules.RaiseIntegrityConcern(db, aid, uid, fid, true).0;
    FlagsMatchStatus(db, sid);
    SetsAndStatus(db, sid);
    var flags := db.flags[fid := Flag(sid, Some(Dismissed))];
    NoFlagAppears(db.flags, flags, fid, sid);
    assert raised.flags[fid := raised.flags[fid].(resolution := Some(Dismissed))] == flags;
    assert raised.submissions[sid := db.submissions[sid]] == db.submissions;
  }

  lemma NoFlagAppears(flags: Flags, next: Flags, fid: FlagId, sid: SubmissionId)
    requires fid !in flags && next == flags[fid := Flag(sid, Some(Dismissed))] && !HasOpenFlag(flags, sid)
    ensures !HasOpenFlag(next, sid)
  {
    assert forall f :: OpenOn(next, f, sid) ==> OpenOn(flags, f, sid);
  }

  // ---------------------------------------------------------------------
  // Resolutions
  // ---------------------------------------------------------------------

  /** An open flag of a Submission in review. */
  predicate Resolvable(db: Db, fid: FlagId) {
    fid in db.flags && db.flags[fid].resolution == None && StatusOf(db, db.flags[fid].submission) == Some(FlagReview)
  }

  /** An Admin can resolve exactly the open flags of Submissions in review. */
  lemma ResolutionAccepted(db: Db, fid: FlagId, admin: UserId)
    requires Consistent(db)
    ensures FlagRules.ResolveProblem(db, fid, admin) == None <==> ActiveAdmin(db.users, admin) && Resolvable(db, fid)
  {
    hide Inv, HasOpenFlag;
    if fid in db.flags && db.flags[fid].submission in db.submissions {
      var ix :| Inv(db, ix);
      AtSubmission(db, ix, db.flags[fid].submission);
    }
  }

  predicate OtherOpenFlag(flags: Flags, fid: FlagId, sid: SubmissionId) {
    exists f :: f in flags && f != fid && OpenOn(flags, f, sid)
  }

  lemma DismissedFlags(flags: Flags, fid: FlagId, sid: SubmissionId)
    requires fid in flags
    ensures HasOpenFlag(flags[fid := flags[fid].(resolution := Some(Dismissed))], sid) <==>
            OtherOpenFlag(flags, fid, sid)
  {
    var next := flags[fid := flags[fid].(resolution := Some(Dismissed))];
    assert forall f :: f in next && OpenOn(next, f, sid) <==> f in flags && f != fid && OpenOn(flags, f, sid);
  }

  /**
   * Where a dismissal leaves the Submission: in review exactly while another flag is open, else
   * back in scoring if it has assignments, and if not routed on to payment or past it.
   */
  predicate Returned(before: Db, after: Db, fid: FlagId, out: Outcome) {
    fid in before.flags &&
    var sid := before.flags[fid].submission;
    StatusOf(after, sid) == Some(
      if OtherOpenFlag(before.flags, fid, sid) then FlagReview
      else if SetOf(before.assignments, sid) != {} then Scoring
      else if out == AssignNow then Paid else AwaitingPayment)
    && (out == AssignNow ==> !OtherOpenFlag(before.flags, fid, sid) && SetOf(before.assignments, sid) == {})
  }

  /**
   * What a dismissal writes: this flag's resolution, and the status it returns to; only a Submission
   * without assignments and other open flags is routed, which may spend a credit.
   */
  ghost predicate DismissalWrites(before: Db, after: Db, fid: FlagId, out: Outcome, paymentEnabled: bool,
                                  locked: set<nat>) {
    fid in before.flags && before.flags[fid].submission in before.submissions &&
    var sid := before.flags[fid].submission;
    var s := before.submissions[sid];
    var dismissed := before.(flags := before.flags[fid := Flag(sid, Some(Dismissed))]);
    if OtherOpenFlag(before.flags, fid, sid) then after == dismissed && out == Done
    else if SetOf(before.assignments, sid) != {} then
      out == Done && after == dismissed.(submissions := before.submissions[sid := s.(status := Scoring,
                                                                                     flagReturn := None)])
    else Routed(dismissed, after, sid, out, paymentEnabled, locked)
  }

  /**
   * An Admin can dismiss exactly the open flags of Submissions in
   * review, and each dismissal leaves the Submission as stated.
   */
  lemma DismissalReturns(db: Db, fid: FlagId, admin: UserId, paymentEnabled: bool, locked: set<nat>)
    requires Consistent(db)
    ensures var r := FlagRules.DismissFlag(db, fid, admin, paymentEnabled, locked);
            && (!r.1.Rejected? <==> ActiveAdmin(db.users, admin) && Resolvable(db, fid))
            && (r.1.Rejected? ==> r.0 == db)
            && (!r.1.Rejected? ==>
                  Returned(db, r.0, fid, r.1) && DismissalWrites(db, r.0, fid, r.1, paymentEnabled, locked))
  {
    hide Consistent, HasOpenFlag, SetOf, ValidSet, OtherOpenFlag, FlagRules.OldestCredit, Resolvable, Routed;
    ResolutionAccepted(db, fid, admin);
    if FlagRules.ResolveProblem(db, fid, admin) == None {
      var sid := db.flags[fid].submission;
      DismissedFlags(db.flags, fid, sid);
      SetsAndStatus(db, sid);
      RoutingSpendsOldestCredit(db.(flags := db.flags[fid := Flag(sid, Some(Dismissed))]), sid, paymentEnabled, locked);
    }
  }

  /** A confirmation leaves no flag open, resolves each by its part in it, and grants the student one credit. */
  lemma ConfirmationSettlesAll(db: Db, fid: FlagId, admin: UserId)
    requires FlagRules.ConfirmFlag(db, fid, admin).1 == Done
    ensures fid in db.flags && FlagRules.ConfirmFlag(db, fid, admin).0.flags.Keys == db.flags.Keys
    ensures db.flags[fid].submission in db.submissions
    ensures var sid, next := db.flags[fid].submission, FlagRules.ConfirmFlag(db, fid, admin).0;
            && !HasOpenFlag(next.flags, sid)
            && next.flags[fid].resolution == Some(Confirmed)
            && (forall f :: f in db.flags && f != fid && OpenOn(db.flags, f, sid) ==>
              next.flags[f].resolution == Some(Superseded))
            && (forall f :: f in db.flags && !OpenOn(db.flags, f, sid) ==> next.flags[f] == db.flags[f])
            && StatusOf(next, sid) == Some(Voided)
            && next.credits == db.credits + [Credit(db.submissions[sid].student, sid, None)]
            && next.submissions == db.submissions[sid := db.submissions[sid].(status := Voided, flagReturn := None)]
            && next == db.(flags := next.flags, submissions := next.submissions, credits := next.credits)
  {
    var sid, next := db.flags[fid].submission, FlagRules.ConfirmFlag(db, fid, admin).0;
    assert forall f :: f in next.flags ==> !OpenOn(next.flags, f, sid);
  }

  /**
   * A confirmation is final: in every continuation the Submission is voided without any open
   * flag, the flags that were open keep their resolutions, and exactly this credit stands for it.
   */
  lemma ConfirmationIsFinal(db: Db, fid: FlagId, admin: UserId, events: seq<Event>)
    requires Consistent(db) && FlagRules.ConfirmFlag(db, fid, admin).1 == Done
    ensures fid in db.flags
    ensures var sid, later := db.flags[fid].submission, Run(FlagRules.ConfirmFlag(db, fid, admin).0, events);
            && StatusOf(later, sid) == Some(Voided) && !HasOpenFlag(later.flags, sid)
            && (forall f :: f in db.flags && OpenOn(db.flags, f, sid) ==>
                  f in later.flags && later.flags[f].resolution == Some(if f == fid then Confirmed else Superseded))
            && |db.credits| < |later.credits|
            && (forall i :: 0 <= i < |later.credits| ==> (later.credits[i].voided == sid <==> i == |db.credits|))
  {
    hide Consistent, Run, Evolves, HasOpenFlag, FlagRules.ConfirmFlag;
    ConfirmationSettlesAll(db, fid, admin);
    var sid, next := db.flags[fid].submission, FlagRules.ConfirmFlag(db, fid, admin).0;
    var later := Run(next, events);
    StepConsistent(db, ConfirmFlag(fid, admin));
    RunConsistent(next, events);
    RunEvolves(next, events);
    VoidStays(next, later, sid);
    FlagsMatchStatus(later, sid);
    ResolutionsStay(next, later);
    CreditStays(next, later, sid, |db.credits|);
  }

  lemma VoidStays(before: Db, after: Db, sid: SubmissionId)
    requires Evolves(before, after) && StatusOf(before, sid) == Some(Voided)
    ensures StatusOf(after, sid) == Some(Voided)
  {
    hide AssignmentsEvolve, FlagsEvolve, CreditsEvolve, PaymentsEvolve, UsersEvolve;
  }

  lemma ResolutionsStay(before: Db, after: Db)
    requires Evolves(before, after)
    ensures forall f :: f in before.flags && before.flags[f].resolution.Some? ==>
              f in after.flags && after.flags[f].resolution == before.flags[f].resolution
  {
    hide SubmissionsEvolve, AssignmentsEvolve, CreditsEvolve, PaymentsEvolve, UsersEvolve;
  }

  lemma CreditStays(before: Db, after: Db, sid: SubmissionId, i: nat)
    requires Evolves(before, after) && Consistent(after) && i < |before.credits| && before.credits[i].voided == sid
    ensures i < |after.credits| && forall k :: 0 <= k < |after.credits| ==> (after.credits[k].voided == sid <==> k == i)
  {
    hide Consistent, SubmissionsEvolve, AssignmentsEvolve, FlagsEvolve, PaymentsEvolve, UsersEvolve;
    CreditsConserved(after);
  }
}
