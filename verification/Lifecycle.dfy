/** Runs of the lifecycle: any interleaving of the services' transactions. */
module Lifecycle {
  import opened Options
  import opened Records
  import opened LifecycleInvariant
  import opened ExaminerSteps
  import opened SubmissionSteps
  import opened FlagSteps
  import opened PaymentSteps
  import opened AccountSteps
  import ExaminerRules
  import FlagRules
  import PaymentRules
  import SubmissionRules
  import AccountRules

  datatype Event =
    | Register(uid: UserId)
    | StartAssessment(student: UserId, sid: SubmissionId, stale: Option<SubmissionId>, now: int)
    | Abandon(sid: SubmissionId, uid: UserId)
    | Heartbeat(sid: SubmissionId, uid: UserId, now: int)
    | Sweep(cutoff: int)
    | Complete(sid: SubmissionId, uid: UserId, evidenceComplete: bool, paymentEnabled: bool, locked: set<nat>)
    | QuarantineSubmission(sid: SubmissionId)
    | RecoverSubmission(sid: SubmissionId)
    | PurgeSubmission(sid: SubmissionId)
    | RaiseDeviceFlag(sid: SubmissionId, uid: UserId, fid: FlagId, entryKnown: bool)
    | RaiseIntegrityConcern(aid: AssignmentId, uid: UserId, fid: FlagId, answerKnown: bool)
    | ConfirmFlag(fid: FlagId, admin: UserId)
    | DismissFlag(fid: FlagId, admin: UserId, paymentEnabled: bool, locked: set<nat>)
    | OpenCheckout(sid: SubmissionId, uid: UserId, pid: PaymentId)
    | RejectCheckout(pid: PaymentId)
    | RecordSession(pid: PaymentId, session: nat)
    | NotifyFailed(pid: PaymentId)
    | NotifyPaid(pid: PaymentId, session: nat, transaction: nat)
    | Waive(sid: SubmissionId, admin: UserId)
    | CreateAssignmentSet(sid: SubmissionId, first: UserId, second: UserId, a1: AssignmentId, a2: AssignmentId)
    | StartScoring(aid: AssignmentId, uid: UserId)
    | SaveScore(aid: AssignmentId, uid: UserId, score: Score)
    | CompleteScoring(aid: AssignmentId, uid: UserId)
    | Reassign(aid: AssignmentId, admin: UserId, examiner: UserId, tid: TransitionId)
    | Transition(target: UserId, actor: UserId, request: AccountRules.Request, m: Transfers, tid: TransitionId)

  /** Generated ids are new; a clash would fail the insert. */
  predicate Fresh(db: Db, e: Event) {
    match e
    case RaiseDeviceFlag(_, _, fid, _) => fid !in db.flags
    case RaiseIntegrityConcern(_, _, fid, _) => fid !in db.flags
    case OpenCheckout(_, _, pid) => pid !in db.payments
    case CreateAssignmentSet(_, _, _, a1, a2) => a1 !in db.assignments && a2 !in db.assignments && a1 != a2
    case Reassign(_, _, _, tid) => FreshTransition(db.moves, tid)
    case Transition(_, _, _, _, tid) => FreshTransition(db.moves, tid)
    case _ => true
  }

  function Apply(db: Db, e: Event): (Db, Outcome) {
    if !Fresh(db, e) then (db, Rejected(UniqueViolation))
    else
      match e
      case Register(uid) => SubmissionRules.Register(db, uid)
      case StartAssessment(student, sid, stale, now) => SubmissionRules.StartAssessment(db, student, sid, stale, now)
      case Abandon(sid, uid) => SubmissionRules.Abandon(db, sid, uid)
      case Heartbeat(sid, uid, now) => SubmissionRules.Heartbeat(db, sid, uid, now)
      case Sweep(cutoff) => SubmissionRules.Sweep(db, cutoff)
      case Complete(sid, uid, evidence, enabled, locked) =>
        SubmissionRules.Complete(db, sid, uid, evidence, enabled, locked)
      case QuarantineSubmission(sid) => SubmissionRules.QuarantineSubmission(db, sid)
      case RecoverSubmission(sid) => SubmissionRules.RecoverSubmission(db, sid)
      case PurgeSubmission(sid) => SubmissionRules.PurgeSubmission(db, sid)
      case RaiseDeviceFlag(sid, uid, fid, known) => FlagRules.RaiseDeviceFlag(db, sid, uid, fid, known)
      case RaiseIntegrityConcern(aid, uid, fid, known) => FlagRules.RaiseIntegrityConcern(db, aid, uid, fid, known)
      case ConfirmFlag(fid, admin) => FlagRules.ConfirmFlag(db, fid, admin)
      case DismissFlag(fid, admin, enabled, locked) => FlagRules.DismissFlag(db, fid, admin, enabled, locked)
      case OpenCheckout(sid, uid, pid) => PaymentRules.OpenCheckout(db, sid, uid, pid)
      case RejectCheckout(pid) => PaymentRules.RejectCheckout(db, pid)
      case RecordSession(pid, session) => PaymentRules.RecordSession(db, pid, session)
      case NotifyFailed(pid) => PaymentRules.NotifyFailed(db, pid)
      case NotifyPaid(pid, session, transaction) => PaymentRules.NotifyPaid(db, pid, session, transaction)
      case Waive(sid, admin) => PaymentRules.Waive(db, sid, admin)
      case CreateAssignmentSet(sid, first, second, a1, a2) =>
        ExaminerRules.CreateAssignmentSet(db, sid, first, second, a1, a2)
      case StartScoring(aid, uid) => ExaminerRules.StartScoring(db, aid, uid)
      case SaveScore(aid, uid, score) => ExaminerRules.SaveScore(db, aid, uid, score)
      case CompleteScoring(aid, uid) => ExaminerRules.CompleteScoring(db, aid, uid)
      case Reassign(aid, admin, examiner, tid) => ExaminerRules.Reassign(db, aid, admin, examiner, tid)
      case Transition(target, actor, request, m, tid) => AccountRules.Transition(db, target, actor, request, m, tid)
  }

  function Run(db: Db, events: seq<Event>): Db
    decreases |events|
  {
    if events == [] then db else Run(Apply(db, events[0]).0, events[1..])
  }

  // ---------------------------------------------------------------------
  // Every reachable state is consistent
  // ---------------------------------------------------------------------

  ghost predicate Consistent(db: Db) {
    exists ix :: Inv(db, ix)
  }

  /** Accounts only, with someone to administer them. */
  ghost predicate Initial(db: Db) {
    Administered(db.users) && db == Db(db.users, map[], map[], [], map[], {}, map[], [])
  }

  ghost predicate Reachable(db: Db) {
    exists start, events :: Initial(start) && db == Run(start, events)
  }

  lemma SubmissionStepInv(db: Db, ix: Index, e: Event)
    requires Inv(db, ix)
    requires e.Register? || e.StartAssessment? || e.Abandon? || e.Heartbeat? || e.Sweep? || e.Complete?
          || e.QuarantineSubmission? || e.RecoverSubmission? || e.PurgeSubmission?
    ensures Inv(Apply(db, e).0, ix)
  {
    hide Inv;
    match e
    case Register(uid) => RegisterKeeps(db, ix, uid);
    case StartAssessment(student, sid, stale, now) => StartAssessmentKeeps(db, ix, student, sid, stale, now);
    case Abandon(sid, uid) => AbandonOneKeeps(db, ix, sid, uid);
    case Heartbeat(sid, uid, now) => HeartbeatKeeps(db, ix, sid, uid, now);
    case Sweep(cutoff) => SweepKeeps(db, ix, cutoff);
    case Complete(sid, uid, evidence, enabled, locked) => CompleteKeeps(db, ix, sid, uid, evidence, enabled, locked);
    case QuarantineSubmission(sid) => QuarantineKeeps(db, ix, sid);
    case RecoverSubmission(sid) => QuarantineKeeps(db, ix, sid);
    case PurgeSubmission(sid) => PurgeKeeps(db, ix, sid);
  }

  lemma FlagStepInv(db: Db, ix: Index, e: Event) returns (next: Index)
    requires Inv(db, ix) && Fresh(db, e)
    requires e.RaiseDeviceFlag? || e.RaiseIntegrityConcern? || e.ConfirmFlag? || e.DismissFlag?
    ensures Inv(Apply(db, e).0, next)
  {
    hide Inv;
    next := ix;
    match e
    case RaiseDeviceFlag(sid, uid, fid, known) => RaiseDeviceFlagKeeps(db, ix, sid, uid, fid, known);
    case RaiseIntegrityConcern(aid, uid, fid, known) => RaiseIntegrityConcernKeeps(db, ix, aid, uid, fid, known);
    case ConfirmFlag(fid, admin) => next := ConfirmFlagKeeps(db, ix, fid, admin);
    case DismissFlag(fid, admin, enabled, locked) => DismissFlagKeeps(db, ix, fid, admin, enabled, locked);
  }

  lemma PaymentStepInv(db: Db, ix: Index, e: Event) returns (next: Index)
    requires Inv(db, ix) && Fresh(db, e)
    requires e.OpenCheckout? || e.RejectCheckout? || e.RecordSession? || e.NotifyFailed? || e.NotifyPaid? || e.Waive?
    ensures Inv(Apply(db, e).0, next)
  {
    hide Inv;
    next := ix;
    match e
    case OpenCheckout(sid, uid, pid) => OpenCheckoutKeeps(db, ix, sid, uid, pid);
    case RejectCheckout(pid) => RejectCheckoutKeeps(db, ix, pid);
    case RecordSession(pid, session) => RecordSessionKeeps(db, ix, pid, session);
    case NotifyFailed(pid) => RejectCheckoutKeeps(db, ix, pid);
    case NotifyPaid(pid, session, transaction) => next := NotifyPaidKeeps(db, ix, pid, session, transaction);
    case Waive(sid, admin) => WaiveKeeps(db, ix, sid, admin);
  }

  lemma ExaminerStepInv(db: Db, ix: Index, e: Event) returns (next: Index)
    requires Inv(db, ix) && Fresh(db, e)
    requires e.CreateAssignmentSet? || e.StartScoring? || e.SaveScore? || e.CompleteScoring? || e.Reassign?
             || e.Transition?
    ensures Inv(Apply(db, e).0, next)
  {
    hide Inv;
    next := ix;
    match e
    case CreateAssignmentSet(sid, first, second, a1, a2) => next := CreateKeeps(db, ix, sid, first, second, a1, a2);
    case StartScoring(aid, uid) => StartScoringKeeps(db, ix, aid, uid);
    case SaveScore(aid, uid, score) => SaveScoreKeeps(db, ix, aid, uid, score);
    case CompleteScoring(aid, uid) => CompleteScoringKeeps(db, ix, aid, uid);
    case Reassign(aid, admin, examiner, tid) => ReassignKeeps(db, ix, aid, admin, examiner, tid);
    case Transition(target, actor, request, m, tid) => TransitionKeeps(db, ix, target, actor, request, m, tid);
  }

  lemma StepInv(db: Db, ix: Index, e: Event) returns (next: Index)
    requires Inv(db, ix)
    ensures Inv(Apply(db, e).0, next)
  {
    hide Inv, Apply, Fresh;
    next := ix;
    if !Fresh(db, e) {
      NotFresh(db, e);
    } else if e.RaiseDeviceFlag? || e.RaiseIntegrityConcern? || e.ConfirmFlag? || e.DismissFlag? {
      next := FlagStepInv(db, ix, e);
    } else if e.OpenCheckout? || e.RejectCheckout? || e.RecordSession? || e.NotifyFailed? || e.NotifyPaid? || e.Waive? {
      next := PaymentStepInv(db, ix, e);
    } else if e.CreateAssignmentSet? || e.StartScoring? || e.SaveScore? || e.CompleteScoring? || e.Reassign?
           || e.Transition? {
      next := ExaminerStepInv(db, ix, e);
    } else {
      SubmissionStepInv(db, ix, e);
    }
  }

  lemma NotFresh(db: Db, e: Event)
    requires !Fresh(db, e)
    ensures Apply(db, e) == (db, Rejected(UniqueViolation))
  {
  }

  lemma StepConsistent(db: Db, e: Event)
    requires Consistent(db)
    ensures Consistent(Apply(db, e).0)
  {
    hide Inv, Apply;
    var ix :| Inv(db, ix);
    var next := StepInv(db, ix, e);
  }

  lemma {:induction false} RunConsistent(db: Db, events: seq<Event>)
    requires Consistent(db)
    ensures Consistent(Run(db, events))
    decreases |events|
  {
    hide Consistent, Apply;
    if events != [] {
      StepConsistent(db, events[0]);
      RunConsistent(Apply(db, events[0]).0, events[1..]);
    }
  }

  lemma InitialConsistent(db: Db)
    requires Initial(db)
    ensures Consistent(db)
  {
    assert Inv(db, Index(map[], map[], map[]));
  }

  /** The invariant of every run that starts with accounts only. */
  lemma ReachableConsistent(db: Db)
    requires Reachable(db)
    ensures Consistent(db)
  {
    hide Consistent, Run;
    var start, events :| Initial(start) && db == Run(start, events);
    InitialConsistent(start);
    RunConsistent(start, events);
  }
}
