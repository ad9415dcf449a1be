module AccountRules {
  import opened Options
  import opened Records

  // ---------------------------------------------------------------------
  // Replay of a committed transition
  // ---------------------------------------------------------------------

  /** A history line of transfers away from `target` for this reason. */
  predicate Leaves(move: Move, target: UserId, reason: Reason) {
    move.from == target && move.reason == reason
  }

  function LatestTransition(moves: seq<Move>, target: UserId, reason: Reason): Option<TransitionId> {
    if moves == [] then None
    else if Leaves(moves[|moves| - 1], target, reason) then Some(moves[|moves| - 1].transition)
    else LatestTransition(moves[..|moves| - 1], target, reason)
  }

  /** The assignments moved away from `target` by one transition. */
  function Batch(moves: seq<Move>, target: UserId, reason: Reason, t: TransitionId): set<AssignmentId> {
    set i | 0 <= i < |moves| && Leaves(moves[i], target, reason) && moves[i].transition == t :: moves[i].assignment
  }

  /** The new examiner in the transition's latest line for `a`. */
  function MovedTo(moves: seq<Move>, target: UserId, reason: Reason, t: TransitionId, a: AssignmentId): Option<UserId> {
    if moves == [] then None
    else
      var last := moves[|moves| - 1];
      if Leaves(last, target, reason) && last.transition == t && last.assignment == a then Some(last.to)
      else MovedTo(moves[..|moves| - 1], target, reason, t, a)
  }

  /** Is the requested map the latest committed one, and still the state of its assignments? */
  function Replay(db: Db, target: UserId, m: Transfers, reason: Reason): (answer: Outcome)
    ensures answer == AlreadyApplied(m) || answer.Rejected?
  {
    if m == map[] then AlreadyApplied(map[])
    else
      var latest := LatestTransition(db.moves, target, reason);
      var batch := if latest.Some? then Batch(db.moves, target, reason, latest.value) else {};
      if batch != m.Keys && batch != {} then
        if exists i :: 0 <= i < |db.moves| && Leaves(db.moves[i], target, reason)
                       && Some(db.moves[i].transition) != latest
                       && Batch(db.moves, target, reason, db.moves[i].transition) == m.Keys
        then Rejected(ReassignmentConflict) else Rejected(InvalidReassignment)
      else if latest.Some? && forall a :: a in m ==>
                a in db.assignments && db.assignments[a].examiner == m[a]
                && MovedTo(db.moves, target, reason, latest.value, a) == Some(m[a])
      then AlreadyApplied(m) else Rejected(ReassignmentConflict)
  }

  // ---------------------------------------------------------------------
  // The transition
  // ---------------------------------------------------------------------

  /** A requested role, or a deactivation. */
  datatype Request = ToRole(role: Role) | Deactivate

  function ReasonOf(request: Request): Reason {
    if request.Deactivate? then Deactivation else RoleTransition
  }

  predicate DistinctValues(m: Transfers) {
    forall a, b :: a in m && b in m && a != b ==> m[a] != m[b]
  }

  function ActiveAdmins(users: map<UserId, User>): set<UserId> {
    set u | u in users && ActiveAdmin(users, u)
  }

  /** Every set in which the target owns an assignment must be well formed, open or not. */
  predicate SetsValid(assignments: map<AssignmentId, Assignment>, target: UserId) {
    forall a :: a in assignments && assignments[a].examiner == target ==>
      ValidSet(assignments, SetOf(assignments, assignments[a].submission))
  }

  /** An unfinished assignment of a Submission that is not voided. */
  predicate OpenFor(db: Db, a: AssignmentId, target: UserId) {
    && a in db.assignments && db.assignments[a].examiner == target && db.assignments[a].status != Completed
    && db.assignments[a].submission in db.submissions
    && db.submissions[db.assignments[a].submission].status != Voided
  }

  function OpenAssignments(db: Db, target: UserId): set<AssignmentId> {
    set a | a in db.assignments && OpenFor(db, a, target)
  }

  predicate RequiresTransfer(current: Role, request: Request) {
    request.Deactivate? || (request.role == Student && current != Student)
  }

  /** A replacement for one transferred assignment. */
  predicate Replaces(db: Db, a: AssignmentId, target: UserId, replacement: UserId) {
    && ActiveExaminer(db.users, replacement) && replacement != target
    && a in db.assignments && db.assignments[a].submission in db.submissions
    && replacement != db.submissions[db.assignments[a].submission].student
    && forall b :: b in db.assignments && db.assignments[b].submission == db.assignments[a].submission ==>
         db.assignments[b].examiner != replacement
  }

  /** What stands in the way of the transfers, once the sets are known to be well formed. */
  function TransferProblem(db: Db, target: UserId, m: Transfers, request: Request): Option<Error>
    requires target in db.users
  {
    var open := OpenAssignments(db, target);
    if !RequiresTransfer(db.users[target].role, request) then
      if m != map[] then Some(InvalidReassignment) else None
    else if exists a :: a in open && db.assignments[a].status == Started then Some(WorkInProgress)
    else if exists a :: a in open && db.assignments[a].scores != [] then Some(ScoredWork)
    else if m.Keys != open then Some(InvalidReassignment)
    else if exists a :: a in m && !Replaces(db, a, target, m[a]) then Some(InvalidReassignment)
    else None
  }

  predicate IsLeast(a: AssignmentId, ids: set<AssignmentId>) {
    a in ids && forall b :: b in ids ==> a <= b
  }

  lemma {:induction false} LeastExists(ids: set<AssignmentId>)
    requires ids != {}
    ensures exists a :: IsLeast(a, ids)
    decreases |ids|
  {
    var x :| x in ids;
    if ids == {x} {
      assert IsLeast(x, ids);
    } else {
      var rest := ids - {x};
      assert ids == rest + {x};
      LeastExists(rest);
      var y :| IsLeast(y, rest);
      assert IsLeast(if x <= y then x else y, ids);
    }
  }

  function Least(ids: set<AssignmentId>): (least: AssignmentId)
    requires ids != {}
    ensures IsLeast(least, ids)
  {
    LeastExists(ids);
    var a :| a in ids && IsLeast(a, ids);
    a
  }

  /** One history line per transferred assignment, in ascending order of their ids. */
  function Lines(ids: set<AssignmentId>, m: Transfers, target: UserId, actor: UserId, reason: Reason,
                 tid: TransitionId): seq<Move>
    requires ids <= m.Keys
    decreases |ids|
  {
    if ids == {} then []
    else
      var a := Least(ids);
      [Move(tid, a, target, m[a], actor, reason)] + Lines(ids - {a}, m, target, actor, reason, tid)
  }

  function Transferred(assignments: map<AssignmentId, Assignment>, m: Transfers): map<AssignmentId, Assignment> {
    map a | a in assignments :: if a in m then assignments[a].(examiner := m[a]) else assignments[a]
  }

  function Transition(db: Db, target: UserId, actor: UserId, request: Request, m: Transfers,
                      tid: TransitionId): (Db, Outcome) {
    if request.ToRole? && target == actor then (db, Rejected(SelfRoleChange))
    else if !DistinctValues(m) then (db, Rejected(InvalidReassignment))
    else if !ActiveAdmin(db.users, actor) then (db, Rejected(Unauthorized))
    else if target !in db.users then (db, Rejected(UserNotFound))
    else
      var user := db.users[target];
      if user.deleted then
        (db, if request.ToRole? then Rejected(UserNotFound) else Replay(db, target, m, Deactivation))
      else if request.ToRole? && user.role == request.role then (db, Replay(db, target, m, RoleTransition))
      else if user.role == Admin && |ActiveAdmins(db.users)| <= 1 then (db, Rejected(LastActiveAdmin))
      else if !SetsValid(db.assignments, target) then (db, Rejected(AssignmentSetInvalid))
      else
        var problem := TransferProblem(db, target, m, request);
        if problem.Some? then (db, Rejected(problem.value))
        else
          (db.(assignments := Transferred(db.assignments, m),
               moves := db.moves + Lines(m.Keys, m, target, actor, ReasonOf(request), tid),
               users := db.users[target := if request.Deactivate? then user.(deleted := true)
                                           else user.(role := request.role)]), Updated(m))
  }
}

/** The account transition transaction. */
module AccountService {
  import opened Options
  import opened Records
  import opened Database
  import opened AccountRules
  import Lifecycle
  import AccountEffects

  lemma TransferStep(assignments: map<AssignmentId, Assignment>, m: Transfers, rest: set<AssignmentId>,
                     aid: AssignmentId)
    requires aid in rest && rest <= m.Keys && aid in assignments
    ensures Transferred(assignments, m - rest)[aid := Transferred(assignments, m - rest)[aid].(examiner := m[aid])]
            == Transferred(assignments, m - (rest - {aid}))
  {
    assert aid !in m - rest;
  }

  lemma TransferEnds(assignments: map<AssignmentId, Assignment>, m: Transfers)
    ensures Transferred(assignments, m - m.Keys) == assignments
    ensures m - {} == m
  {
  }

  lemma LinesStep(moves: seq<Move>, rest: set<AssignmentId>, m: Transfers, target: UserId, actor: UserId,
                  reason: Reason, tid: TransitionId)
    requires rest != {} && rest <= m.Keys
    ensures var aid := Least(rest);
            moves + Lines(rest, m, target, actor, reason, tid)
            == (moves + [Move(tid, aid, target, m[aid], actor, reason)])
                + Lines(rest - {aid}, m, target, actor, reason, tid)
  {
  }

  /** Move every listed assignment and write its history line, in ascending order. */
  method TransferAll(tx: Tables, m: Transfers, target: UserId, actor: UserId, reason: Reason, tid: TransitionId)
    requires m.Keys <= tx.assignments.Keys
    modifies tx`assignments, tx`moves
    ensures tx.assignments == Transferred(old(tx.assignments), m)
    ensures tx.moves == old(tx.moves) + Lines(m.Keys, m, target, actor, reason, tid)
  {
    hide Lines, Transferred;
    var rest := m.Keys;
    TransferEnds(tx.assignments, m);
    assert Lines({}, m, target, actor, reason, tid) == [] by { LinesEnd(m, target, actor, reason, tid); }
    while rest != {}
      invariant rest <= m.Keys && tx.assignments.Keys == old(tx.assignments).Keys
      invariant tx.assignments == Transferred(old(tx.assignments), m - rest)
      invariant tx.moves + Lines(rest, m, target, actor, reason, tid)
                == old(tx.moves) + Lines(m.Keys, m, target, actor, reason, tid)
      decreases |rest|
    {
      var aid := Least(rest);
      TransferStep(old(tx.assignments), m, rest, aid);
      LinesStep(tx.moves, rest, m, target, actor, reason, tid);
      tx.assignments := tx.assignments[aid := tx.assignments[aid].(examiner := m[aid])];
      tx.moves := tx.moves + [Move(tid, aid, target, m[aid], actor, reason)];
      rest := rest - {aid};
    }
  }

  lemma LinesEnd(m: Transfers, target: UserId, actor: UserId, reason: Reason, tid: TransitionId)
    ensures Lines({}, m, target, actor, reason, tid) == []
  {
  }

  /** Change a role or deactivate an account, handing its open work over. */
  method TransitionAccount(tx: Tables, target: UserId, actor: UserId, request: Request, m: Transfers, tid: TransitionId)
    returns (out: Outcome)
    modifies tx`users, tx`assignments, tx`moves
    ensures (tx.Snapshot(), out) == Transition(old(tx.Snapshot()), target, actor, request, m, tid)
    ensures Lifecycle.Consistent(old(tx.Snapshot())) && FreshTransition(old(tx.moves), tid) ==>
              Lifecycle.Consistent(tx.Snapshot())
    ensures Lifecycle.Consistent(old(tx.Snapshot())) ==>
              (out == Updated(m) <==> AccountEffects.Acceptable(old(tx.Snapshot()), target, actor, request, m))
  {
    hide Lifecycle.Consistent, Lines, Transferred, SetsValid, Replay, Replaces, OpenAssignments, DistinctValues,
         ActiveAdmins, TransferProblem, FreshTransition, AccountEffects.Acceptable;
    TransitionConsistent(tx.Snapshot(), target, actor, request, m, tid);
    if request.ToRole? && target == actor { return Rejected(SelfRoleChange); }
    if !DistinctValues(m) { return Rejected(InvalidReassignment); }
    if !ActiveAdmin(tx.users, actor) { return Rejected(Unauthorized); }
    if target !in tx.users { return Rejected(UserNotFound); }
    var user := tx.users[target];
    if user.deleted {
      if request.ToRole? { return Rejected(UserNotFound); }
      return Replay(tx.Snapshot(), target, m, Deactivation);
    }
    if request.ToRole? && user.role == request.role {
      return Replay(tx.Snapshot(), target, m, RoleTransition);
    }
    if user.role == Admin && |ActiveAdmins(tx.users)| <= 1 { return Rejected(LastActiveAdmin); }
    if !SetsValid(tx.assignments, target) { return Rejected(AssignmentSetInvalid); }
    var problem := TransferProblem(tx.Snapshot(), target, m, request);
    if problem.Some? { return Rejected(problem.value); }
    AcceptedKeys(tx.Snapshot(), target, m, request);
    TransferAll(tx, m, target, actor, ReasonOf(request), tid);
    tx.users := tx.users[target := if request.Deactivate? then user.(deleted := true) else user.(role := request.role)];
    return Updated(m);
  }

  lemma TransitionConsistent(db: Db, target: UserId, actor: UserId, request: Request, m: Transfers, tid: TransitionId)
    ensures Lifecycle.Consistent(db) && FreshTransition(db.moves, tid) ==>
              Lifecycle.Consistent(Transition(db, target, actor, request, m, tid).0)
    ensures Lifecycle.Consistent(db) ==>
              (Transition(db, target, actor, request, m, tid).1 == Updated(m)
               <==> AccountEffects.Acceptable(db, target, actor, request, m))
  {
    hide Lifecycle.Consistent, Transition, AccountEffects.Acceptable;
    if Lifecycle.Consistent(db) { AccountEffects.TransitionAccepted(db, target, actor, request, m, tid); }
    if Lifecycle.Consistent(db) {
      Lifecycle.StepConsistent(db, Lifecycle.Transition(target, actor, request, m, tid));
    }
  }

  lemma AcceptedKeys(db: Db, target: UserId, m: Transfers, request: Request)
    requires target in db.users && TransferProblem(db, target, m, request) == None
    ensures m.Keys <= db.assignments.Keys
  {
    hide Replaces;
  }
}
