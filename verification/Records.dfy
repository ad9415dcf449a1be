/** The tables of the lifecycle services and the outcomes of their transactions. */
module Records {
  import opened Options

  type UserId = nat
  type SubmissionId = nat
  type FlagId = nat
  type PaymentId = nat
  type AssignmentId = nat
  type TransitionId = nat

  datatype Role = Student | Examiner | Admin
  datatype User = User(role: Role, deleted: bool)

  datatype Status =
    | InProgress | Abandoned | AwaitingPayment | Paid | Scoring | Scored | Certified | FlagReview | Voided

  /** `Purged` rows are kept as tombstones, so an id is never used twice. */
  datatype Retention = Retained | Quarantined | Purged

  datatype ScoringSystem = Legacy100 | Rubric6

  /** `lastSeen` is the last heartbeat, or the creation time before the first one. */
  datatype Submission = Submission(
    student: UserId, status: Status, retention: Retention, system: ScoringSystem,
    paymentRequired: bool, flagReturn: Option<Status>, lastSeen: int)

  datatype Resolution = Confirmed | Dismissed | Superseded
  /** An open flag has no resolution. */
  datatype Flag = Flag(submission: SubmissionId, resolution: Option<Resolution>)

  /** A free retake, granted for `voided`; credits are listed oldest first. */
  datatype Credit = Credit(student: UserId, voided: SubmissionId, redeemed: Option<SubmissionId>)

  datatype PaymentStatus = Pending | Succeeded | Failed | Refunded
  /** `wasPaid` says that `paidAt` is set. */
  datatype Payment = Payment(
    submission: SubmissionId, status: PaymentStatus, wasPaid: bool, session: Option<nat>, transaction: Option<nat>)

  datatype Work = Assigned | Started | Completed

  datatype Rubric = Rubric(pronunciation: real, fluency: real, vocabulary: real, grammar: real)
  datatype Score = Score(value: real, rubric: Option<Rubric>)

  /** `firstExaminer` is who the assignment was created for; it is never written again. */
  datatype Assignment = Assignment(
    submission: SubmissionId, slot: int, examiner: UserId, status: Work, scores: seq<Score>, firstExaminer: UserId)

  datatype Reason = RoleTransition | Deactivation | AdminReassignment
  /** One line of the reassignment history. */
  datatype Move = Move(
    transition: TransitionId, assignment: AssignmentId, from: UserId, to: UserId, admin: UserId, reason: Reason)

  datatype Db = Db(
    users: map<UserId, User>,
    submissions: map<SubmissionId, Submission>,
    flags: map<FlagId, Flag>,
    credits: seq<Credit>,
    payments: map<PaymentId, Payment>,
    waivers: set<SubmissionId>,
    assignments: map<AssignmentId, Assignment>,
    moves: seq<Move>)

  datatype Error =
    | NotFound | Unauthorized | InvalidLifecycle | ValidationFailed
    | AlreadyResolved
    | ActiveSubmission | UniqueViolation
    | NotAssignmentReady | InsufficientCapacity | InvariantViolation
    | OpenFlag | DraftFrozen | InvalidAssignmentSet | InconsistentScoring | ScoreMissing | ScoreInvalid
    | NotReassignable | InvalidExaminer
    | SelfRoleChange | UserNotFound | LastActiveAdmin | WorkInProgress | ScoredWork
    | AssignmentSetInvalid | InvalidReassignment | ReassignmentConflict
    | PaymentMismatch | NotPurgeable

  /** Assignment and examiner of every transferred assignment. */
  type Transfers = map<AssignmentId, UserId>

  datatype Outcome =
    | Rejected(error: Error)
    | Done
    | AssignNow
    | Existing
    | AlreadyCompleted
    | Updated(transfers: Transfers)
    | AlreadyApplied(transfers: Transfers)

  // ---------------------------------------------------------------------
  // Small queries shared by the services
  // ---------------------------------------------------------------------

  predicate ActiveAdmin(users: map<UserId, User>, id: UserId) {
    id in users && users[id].role == Admin && !users[id].deleted
  }

  predicate ActiveExaminer(users: map<UserId, User>, id: UserId) {
    id in users && users[id].role == Examiner && !users[id].deleted
  }

  predicate IsRetained(submissions: map<SubmissionId, Submission>, id: SubmissionId) {
    id in submissions && submissions[id].retention == Retained
  }

  predicate OpenOn(flags: map<FlagId, Flag>, f: FlagId, sid: SubmissionId) {
    f in flags && flags[f].submission == sid && flags[f].resolution == None
  }

  predicate HasOpenFlag(flags: map<FlagId, Flag>, sid: SubmissionId) {
    exists f :: f in flags && OpenOn(flags, f, sid)
  }

  /** The ids of a Submission's assignments. */
  function SetOf(assignments: map<AssignmentId, Assignment>, sid: SubmissionId): (ids: set<AssignmentId>)
    ensures ids <= assignments.Keys
  {
    set a | a in assignments && assignments[a].submission == sid
  }

  function Slots(assignments: map<AssignmentId, Assignment>, ids: set<AssignmentId>): set<int>
    requires ids <= assignments.Keys
  {
    set a | a in ids :: assignments[a].slot
  }

  function Examiners(assignments: map<AssignmentId, Assignment>, ids: set<AssignmentId>): set<UserId>
    requires ids <= assignments.Keys
  {
    set a | a in ids :: assignments[a].examiner
  }

  /** Two assignments, two slots, two examiners. */
  predicate TwoDistinct(assignments: map<AssignmentId, Assignment>, ids: set<AssignmentId>)
    requires ids <= assignments.Keys
  {
    |ids| == 2 && |Slots(assignments, ids)| == 2 && |Examiners(assignments, ids)| == 2
  }

  predicate ValidSet(assignments: map<AssignmentId, Assignment>, ids: set<AssignmentId>)
    requires ids <= assignments.Keys
  {
    TwoDistinct(assignments, ids) && Slots(assignments, ids) == {1, 2}
  }

  predicate FreshTransition(moves: seq<Move>, tid: TransitionId) {
    forall i :: 0 <= i < |moves| ==> moves[i].transition != tid
  }

  function StatusOf(db: Db, sid: SubmissionId): Option<Status> {
    if sid in db.submissions then Some(db.submissions[sid].status) else None
  }

  /** The status of the Submission an assignment belongs to. */
  function StatusAround(db: Db, aid: AssignmentId): Option<Status> {
    if aid in db.assignments then StatusOf(db, db.assignments[aid].submission) else None
  }

  predicate OwnedBy(submissions: map<SubmissionId, Submission>, sid: SubmissionId, student: UserId) {
    sid in submissions && submissions[sid].student == student
  }

  predicate AssignedTo(assignments: map<AssignmentId, Assignment>, aid: AssignmentId, examiner: UserId) {
    aid in assignments && assignments[aid].examiner == examiner
  }

  predicate HasWork(assignments: map<AssignmentId, Assignment>, aid: AssignmentId, work: Work) {
    aid in assignments && assignments[aid].status == work
  }
}
