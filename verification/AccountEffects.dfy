/** When account transitions are accepted, what they hand over, and which repeats are answered. */
module AccountEffects {
  import opened Options
  import opened Records
  import opened LifecycleInvariant
  import opened AccountSteps
  import opened AccountReplay
  import opened Lifecycle
  import opened LifecycleSafety
  import opened ExaminerEffects
  import AccountRules

  // ---------------------------------------------------------------------
  // Acceptance
  // ---------------------------------------------------------------------

  predicate ActiveUser(users: Users, id: UserId) {
    id in users && !users[id].deleted
  }

  /** A change of role or a deactivation that would change something. */
  predicate RealChange(users: Users, target: UserId, actor: UserId, request: AccountRules.Request) {
    && ActiveUser(users, target)
    && (request.ToRole? ==> target != actor && users[target].role != request.role)
  }

  ghost predicate OtherAdmin(users: Users, target: UserId) {
    exists other :: other != target && ActiveAdmin(users, other)
  }

  /** Unfinished work of a Submission that is not voided. */
  predicate OpenWork(db: Db, a: AssignmentId, owner: UserId) {
    && AssignedTo(db.assignments, a, owner) && !HasWork(db.assignments, a, Completed)
    && StatusAround(db, a) != Some(Voided)
  }

  /** Someone else who may take over this work. */
  predicate MayTakeOver(db: Db, a: AssignmentId, examiner: UserId) {
    ActiveExaminer(db.users, examiner) && !InSet(db.assignments, a, examiner) && !AboutOwn(db, a, examiner)
  }

  /** Exactly the open work is handed over, all of it untouched; without loss of capability nothing is. */
  ghost predicate HandsOverAll(db: Db, target: UserId, request: AccountRules.Request, m: Transfers) {
    if request.Deactivate? || request.role == Student then
      forall a :: (a in m <==> OpenWork(db, a, target))
               && (a in m ==> HasWork(db.assignments, a, Assigned) && MayTakeOver(db, a, m[a]))
    else m == map[]
  }

  predicate OneEach(m: Transfers) {
    forall a, b :: a in m && b in m && m[a] == m[b] ==> a == b
  }

  ghost predicate Acceptable(db: Db, target: UserId, actor: UserId, request: AccountRules.Request, m: Transfers) {
    && ActiveAdmin(db.users, actor) && RealChange(db.users, target, actor, request) && OneEach(m)
    && (ActiveAdmin(db.users, target) ==> OtherAdmin(db.users, target))
    && HandsOverAll(db, target, request, m)
  }

  lemma OpenWorkMeans(db: Db, a: AssignmentId, target: UserId)
    requires Consistent(db)
    ensures a in AccountRules.OpenAssignments(db, target) <==> OpenWork(db, a, target)
  {
    hide Inv;
    if a in db.assignments { ScoringMeans(db, a); }
  }

  lemma UntouchedMeans(db: Db, a: AssignmentId, target: UserId)
    requires Consistent(db) && OpenWork(db, a, target)
    ensures a in db.assignments && (db.assignments[a].status == Assigned <==> db.assignments[a].status != Started)
    ensures db.assignments[a].status == Assigned ==> db.assignments[a].scores == []
  {
    hide Inv;
    ScoringMeans(db, a);
    ScoresFollowWork(db, a);
  }

  lemma TakingOverMeans(db: Db, a: AssignmentId, target: UserId, examiner: UserId)
    requires Consistent(db) && AssignedTo(db.assignments, a, target)
    ensures AccountRules.Replaces(db, a, target, examiner) <==> MayTakeOver(db, a, examiner)
  {
    hide Inv;
    ScoringMeans(db, a);
  }

  /** In consistent states only the map can be wrong, or work begun. */
  lemma NoProblemMeans(db: Db, target: UserId, m: Transfers, request: AccountRules.Request)
    requires Consistent(db) && target in db.users
    requires request.ToRole? ==> db.users[target].role != request.role
    ensures AccountRules.TransferProblem(db, target, m, request) == None <==> HandsOverAll(db, target, request, m)
  {
    hide Inv, AccountRules.Replaces, AccountRules.OpenAssignments, OpenWork, MayTakeOver;
    var open := AccountRules.OpenAssignments(db, target);
    forall a
      ensures a in open <==> OpenWork(db, a, target)
    {
      OpenWorkMeans(db, a, target);
    }
    forall a | OpenWork(db, a, target)
      ensures a in db.assignments && AssignedTo(db.assignments, a, target)
      ensures db.assignments[a].status == Assigned <==> db.assignments[a].status != Started
      ensures db.assignments[a].status == Assigned ==> db.assignments[a].scores == []
    {
      UntouchedMeans(db, a, target);
      OpenWorkIsAssigned(db, a, target);
    }
    forall a | a in m && OpenWork(db, a, target)
      ensures AccountRules.Replaces(db, a, target, m[a]) <==> MayTakeOver(db, a, m[a])
    {
      TakingOverMeans(db, a, target, m[a]);
    }
  }

  lemma OpenWorkIsAssigned(db: Db, a: AssignmentId, target: UserId)
    requires OpenWork(db, a, target)
    ensures AssignedTo(db.assignments, a, target)
  {
  }

  lemma SetsStayValid(db: Db, target: UserId)
    requires Consistent(db)
    ensures AccountRules.SetsValid(db.assignments, target)
  {
    hide Inv, AccountRules.SetsValid;
    var ix :| Inv(db, ix);
    SetsAreValid(db, ix, target);
  }

  lemma LastAdminMeans(users: Users, target: UserId)
    requires ActiveAdmin(users, target)
    ensures |AccountRules.ActiveAdmins(users)| <= 1 <==> !OtherAdmin(users, target)
  {
    var admins := AccountRules.ActiveAdmins(users);
    assert target in admins;
    if other :| other != target && ActiveAdmin(users, other) {
      assert {target, other} <= admins;
      assert admins == {target, other} + (admins - {target, other});
    } else {
      assert admins == {target};
    }
  }

  /**
   * A transition is carried out if and only if an active Admin asks for a real change, of an
   * account that is not the last active Admin, and hands over exactly the work it must, to
   * different examiners who may take it over.
   */
  lemma TransitionAccepted(db: Db, target: UserId, actor: UserId, request: AccountRules.Request, m: Transfers,
                           tid: TransitionId)
    requires Consistent(db)
    ensures AccountRules.Transition(db, target, actor, request, m, tid).1 == Updated(m) <==>
              Acceptable(db, target, actor, request, m)
  {
    hide Inv, AccountRules.SetsValid, AccountRules.Replay, AccountRules.Lines, AccountRules.TransferProblem,
         AccountRules.ActiveAdmins, AccountRules.Transferred, HandsOverAll, OtherAdmin;
    SetsStayValid(db, target);
    if ActiveAdmin(db.users, target) { LastAdminMeans(db.users, target); }
    if target in db.users && (request.ToRole? ==> db.users[target].role != request.role) {
      NoProblemMeans(db, target, m, request);
    }
  }

  /**
   * The guard for the last active Admin stops exactly that account's own deactivation: nobody else
   * is active who could ask for it, and a role change of one's own is refused before.
   */
  lemma LastAdminStays(db: Db, target: UserId, actor: UserId, request: AccountRules.Request, m: Transfers,
                       tid: TransitionId)
    ensures AccountRules.Transition(db, target, actor, request, m, tid).1 == Rejected(LastActiveAdmin) <==>
              && request.Deactivate? && actor == target && ActiveAdmin(db.users, target)
              && !OtherAdmin(db.users, target) && OneEach(m)
  {
    hide AccountRules.SetsValid, AccountRules.Lines, AccountRules.Transferred, AccountRules.ActiveAdmins,
         AccountRules.Batch, AccountRules.LatestTransition, AccountRules.MovedTo, AccountRules.Replaces,
         AccountRules.OpenAssignments;
    if ActiveAdmin(db.users, target) { LastAdminMeans(db.users, target); }
  }

  // ---------------------------------------------------------------------
  // What is handed over
  // ---------------------------------------------------------------------

  /** Once scoring capability is removed, the account owns no open work, and each piece is where the map sent it. */
  lemma TransitionHandsOver(db: Db, target: UserId, actor: UserId, request: AccountRules.Request, m: Transfers,
                            tid: TransitionId)
    requires AccountRules.Transition(db, target, actor, request, m, tid).1.Updated?
    requires AccountRules.RequiresTransfer(db.users[target].role, request)
    ensures var after := AccountRules.Transition(db, target, actor, request, m, tid).0;
            && AccountRules.OpenAssignments(after, target) == {}
            && (forall a :: a in m ==> a in after.assignments && after.assignments[a].examiner == m[a])
            && (forall a :: a in db.assignments && a !in m ==>
              a in after.assignments && after.assignments[a] == db.assignments[a])
            && (request.Deactivate? ==> after.users[target].deleted)
            && (request.ToRole? ==> after.users[target].role == request.role && !after.users[target].deleted)
  {
    hide AccountRules.SetsValid, AccountRules.Replay, AccountRules.Lines, AccountRules.DistinctValues,
         AccountRules.ActiveAdmins, AccountRules.TransferProblem, AccountRules.Replaces;
    AcceptedTransfer(db, target, m, request);
    NothingLeft(db, target, m);
  }

  lemma NothingLeft(db: Db, target: UserId, m: Transfers)
    requires Transfer(db, target, m) && AccountRules.OpenAssignments(db, target) == m.Keys
    ensures forall a :: a in m ==> a in db.assignments && m[a] != target
    ensures forall a :: AccountRules.OpenFor(db, a, target) ==> a in m
  {
    assert forall a :: a in AccountRules.OpenAssignments(db, target) <==>
           a in db.assignments && AccountRules.OpenFor(db, a, target);
    assert forall a :: a in m ==> AccountRules.Replaces(db, a, target, m[a]);
  }

  lemma {:induction false} LinesAscend(ids: set<AssignmentId>, m: Transfers, target: UserId, actor: UserId,
                                       reason: Reason, tid: TransitionId)
    requires ids <= m.Keys
    ensures var lines := AccountRules.Lines(ids, m, target, actor, reason, tid);
            forall i, j :: 0 <= i < j < |lines| ==> lines[i].assignment < lines[j].assignment
    decreases |ids|
  {
    if ids != {} {
      var rest := ids - {AccountRules.Least(ids)};
      LinesAscend(rest, m, target, actor, reason, tid);
      LinesAbout(rest, m, target, actor, reason, tid);
    }
  }

  /**
   * What a transition writes: the account's role or its deactivation, the new owner of each listed
   * assignment, and one history line for each, in ascending order of their ids.
   */
  lemma TransitionWrites(db: Db, target: UserId, actor: UserId, request: AccountRules.Request, m: Transfers,
                         tid: TransitionId)
    requires AccountRules.Transition(db, target, actor, request, m, tid).1.Updated?
    ensures target in db.users
    ensures var after, n := AccountRules.Transition(db, target, actor, request, m, tid).0, |db.moves|;
            && after == db.(users := after.users, assignments := after.assignments, moves := after.moves)
            && after.users == db.users[target := match request
                                                 case Deactivate => User(db.users[target].role, true)
                                                 case ToRole(role) => User(role, false)]
            && after.assignments.Keys == db.assignments.Keys
            && (forall a :: a in db.assignments ==>
                  after.assignments[a] == if a in m then db.assignments[a].(examiner := m[a]) else db.assignments[a])
            && |after.moves| == n + |m| && after.moves[..n] == db.moves
            && (forall i :: n <= i < |after.moves| ==>
                  var a := after.moves[i].assignment;
                  a in m && after.moves[i] == Move(tid, a, target, m[a], actor,
                                                   if request.Deactivate? then Deactivation else RoleTransition))
            && (forall i, j :: n <= i < j < |after.moves| ==> after.moves[i].assignment < after.moves[j].assignment)
  {
    hide AccountRules.SetsValid, AccountRules.Replay, AccountRules.Lines, AccountRules.TransferProblem,
         AccountRules.DistinctValues, AccountRules.ActiveAdmins;
    var reason := AccountRules.ReasonOf(request);
    LinesAbout(m.Keys, m, target, actor, reason, tid);
    LinesAscend(m.Keys, m, target, actor, reason, tid);
    var lines := AccountRules.Lines(m.Keys, m, target, actor, reason, tid);
    assert |m.Keys| == |m| by { KeysCount(m); }
    assert forall i :: |db.moves| <= i < |db.moves + lines| ==> (db.moves + lines)[i] == lines[i - |db.moves|];
  }

  lemma {:induction false} KeysCount(m: Transfers)
    ensures |m.Keys| == |m|
  {
  }

  // ---------------------------------------------------------------------
  // Which repeats are answered
  // ---------------------------------------------------------------------

  /** A history line of a transfer away from `target`, for this kind of transition. */
  predicate Left(moves: seq<Move>, i: int, target: UserId, reason: Reason) {
    0 <= i < |moves| && moves[i].from == target && moves[i].reason == reason
  }

  /** The last such line. */
  ghost predicate LastLeft(moves: seq<Move>, i: int, target: UserId, reason: Reason) {
    Left(moves, i, target, reason) && forall j :: j > i ==> !Left(moves, j, target, reason)
  }

  /** The last line of transition `t` about `a`. */
  ghost predicate LastMoved(moves: seq<Move>, i: int, target: UserId, reason: Reason, t: TransitionId,
                            a: AssignmentId) {
    && Left(moves, i, target, reason) && moves[i].transition == t && moves[i].assignment == a
    && forall j :: j > i && Left(moves, j, target, reason) && moves[j].transition == t ==> moves[j].assignment != a
  }

  /** Transition `t` moved `a`, last of all to `to`. */
  ghost predicate SentTo(moves: seq<Move>, target: UserId, reason: Reason, t: TransitionId, a: AssignmentId,
                         to: UserId) {
    exists i :: LastMoved(moves, i, target, reason, t, a) && moves[i].to == to
  }

  /** Transition `t` is the latest that moved work away from `target`. */
  ghost predicate Latest(moves: seq<Move>, target: UserId, reason: Reason, t: TransitionId) {
    exists i :: LastLeft(moves, i, target, reason) && moves[i].transition == t
  }

  /** `m` is exactly what the latest transition moved, and every replacement still owns the work. */
  ghost predicate StillCommitted(db: Db, target: UserId, reason: Reason, m: Transfers) {
    exists t :: Latest(db.moves, target, reason, t) &&
      forall a :: (a in m <==> exists to :: SentTo(db.moves, target, reason, t, a, to))
               && (a in m ==> AssignedTo(db.assignments, a, m[a]) && SentTo(db.moves, target, reason, t, a, m[a]))
  }

  lemma {:induction false} LatestMeans(moves: seq<Move>, target: UserId, reason: Reason)
    ensures var latest := AccountRules.LatestTransition(moves, target, reason);
            forall t: TransitionId :: latest == Some(t) <==> Latest(moves, target, reason, t)
    decreases |moves|
  {
    if moves != [] {
      var n := |moves| - 1;
      if AccountRules.Leaves(moves[n], target, reason) {
        assert LastLeft(moves, n, target, reason);
      } else {
        var before := moves[..n];
        LatestMeans(before, target, reason);
        assert forall i :: Left(moves, i, target, reason) <==> Left(before, i, target, reason);
        assert forall i :: LastLeft(moves, i, target, reason) <==> LastLeft(before, i, target, reason);
      }
    }
  }

  lemma {:induction false} MovedToMeans(moves: seq<Move>, target: UserId, reason: Reason, t: TransitionId,
                                        a: AssignmentId)
    ensures var moved := AccountRules.MovedTo(moves, target, reason, t, a);
            forall to: UserId :: moved == Some(to) <==> SentTo(moves, target, reason, t, a, to)
    decreases |moves|
  {
    if moves != [] {
      var n := |moves| - 1;
      var last := moves[n];
      if AccountRules.Leaves(last, target, reason) && last.transition == t && last.assignment == a {
        assert LastMoved(moves, n, target, reason, t, a);
      } else {
        var before := moves[..n];
        MovedToMeans(before, target, reason, t, a);
        assert forall i :: LastMoved(moves, i, target, reason, t, a) <==> LastMoved(before, i, target, reason, t, a);
      }
    }
  }

  lemma BatchMeans(moves: seq<Move>, target: UserId, reason: Reason, t: TransitionId, a: AssignmentId)
    ensures a in AccountRules.Batch(moves, target, reason, t) <==>
              AccountRules.MovedTo(moves, target, reason, t, a).Some?
  {
    if a in AccountRules.Batch(moves, target, reason, t) { BatchMovedTo(moves, target, reason, t, a); }
    if AccountRules.MovedTo(moves, target, reason, t, a).Some? {
      MovedToHasLine(moves, target, reason, t, a);
    }
  }

  lemma {:induction false} BatchMovedTo(moves: seq<Move>, target: UserId, reason: Reason, t: TransitionId,
                                        a: AssignmentId)
    requires exists i :: 0 <= i < |moves| && AccountRules.Leaves(moves[i], target, reason)
                         && moves[i].transition == t && moves[i].assignment == a
    ensures AccountRules.MovedTo(moves, target, reason, t, a).Some?
    decreases |moves|
  {
    var n := |moves| - 1;
    var i :| 0 <= i < |moves| && AccountRules.Leaves(moves[i], target, reason) && moves[i].transition == t
             && moves[i].assignment == a;
    if i < n {
      assert moves[..n][i] == moves[i];
      BatchMovedTo(moves[..n], target, reason, t, a);
    }
  }

  /** A repeat is answered exactly when it names all of the latest transfer, with owners still in force. */
  lemma ReplayMeans(db: Db, target: UserId, m: Transfers, reason: Reason)
    ensures AccountRules.Replay(db, target, m, reason) == AlreadyApplied(m) <==>
              m == map[] || StillCommitted(db, target, reason, m)
  {
    hide AccountRules.LatestTransition, AccountRules.Batch, AccountRules.MovedTo, Latest, SentTo;
    var latest := AccountRules.LatestTransition(db.moves, target, reason);
    LatestMeans(db.moves, target, reason);
    if latest.Some? {
      var t := latest.value;
      forall a
        ensures a in AccountRules.Batch(db.moves, target, reason, t) <==>
                  exists to: UserId :: SentTo(db.moves, target, reason, t, a, to)
        ensures forall to: UserId :: AccountRules.MovedTo(db.moves, target, reason, t, a) == Some(to)
                                     <==> SentTo(db.moves, target, reason, t, a, to)
      {
        BatchMeans(db.moves, target, reason, t, a);
        MovedToMeans(db.moves, target, reason, t, a);
        var moved := AccountRules.MovedTo(db.moves, target, reason, t, a);
        assert moved.Some? ==> SentTo(db.moves, target, reason, t, a, moved.value);
      }
      if m != map[] {
        var some :| some in m;
        if AccountRules.Replay(db, target, m, reason) == AlreadyApplied(m) {
          assert some in AccountRules.Batch(db.moves, target, reason, t);
          assert AccountRules.Batch(db.moves, target, reason, t) == m.Keys;
          assert StillCommitted(db, target, reason, m);
        }
        if StillCommitted(db, target, reason, m) {
          assert AccountRules.Batch(db.moves, target, reason, t) == m.Keys;
        }
      }
    }
  }

  /** `m` names exactly the work that transition `t` moved away from `target`. */
  ghost predicate MovedAll(moves: seq<Move>, target: UserId, reason: Reason, t: TransitionId, m: Transfers) {
    forall a :: a in m <==>
      exists i :: Left(moves, i, target, reason) && moves[i].transition == t && moves[i].assignment == a
  }

  /** Work was moved away from `target`, but no transition moved exactly this. */
  ghost predicate NeverMoved(moves: seq<Move>, target: UserId, reason: Reason, m: Transfers) {
    && (exists i :: Left(moves, i, target, reason))
    && forall i :: Left(moves, i, target, reason) ==> !MovedAll(moves, target, reason, moves[i].transition, m)
  }

  lemma BatchIsMovedAll(moves: seq<Move>, target: UserId, reason: Reason, t: TransitionId, m: Transfers)
    ensures AccountRules.Batch(moves, target, reason, t) == m.Keys <==> MovedAll(moves, target, reason, t, m)
  {
    var batch := AccountRules.Batch(moves, target, reason, t);
    assert forall a :: a in batch <==>
      exists i :: Left(moves, i, target, reason) && moves[i].transition == t && moves[i].assignment == a;
    assert batch == m.Keys <==> forall a :: a in batch <==> a in m;
  }

  /** A repeat is an invalid request if no transition moved this work, and otherwise in conflict with a later change. */
  lemma ReplayRefused(db: Db, target: UserId, m: Transfers, reason: Reason)
    ensures var answer := AccountRules.Replay(db, target, m, reason);
            && (answer == Rejected(InvalidReassignment) <==> m != map[] && NeverMoved(db.moves, target, reason, m))
            && (answer.Rejected? && answer.error != InvalidReassignment ==> answer.error == ReassignmentConflict)
  {
    hide AccountRules.LatestTransition, AccountRules.Batch, AccountRules.MovedTo, MovedAll;
    var moves := db.moves;
    var latest := AccountRules.LatestTransition(moves, target, reason);
    LatestMeans(moves, target, reason);
    forall i | Left(moves, i, target, reason)
      ensures AccountRules.Batch(moves, target, reason, moves[i].transition) == m.Keys
              <==> MovedAll(moves, target, reason, moves[i].transition, m)
      ensures AccountRules.Leaves(moves[i], target, reason)
      ensures latest.Some?
    {
      BatchIsMovedAll(moves, target, reason, moves[i].transition, m);
      SomeLatest(moves, target, reason, i);
    }
    if latest.Some? {
      var i :| LastLeft(moves, i, target, reason) && moves[i].transition == latest.value;
      assert Left(moves, i, target, reason);
      assert moves[i].assignment in AccountRules.Batch(moves, target, reason, latest.value) by {
        InBatch(moves, target, reason, i);
      }
    }
  }

  lemma InBatch(moves: seq<Move>, target: UserId, reason: Reason, i: int)
    requires Left(moves, i, target, reason)
    ensures moves[i].assignment in AccountRules.Batch(moves, target, reason, moves[i].transition)
  {
  }

  lemma {:induction false} SomeLatest(moves: seq<Move>, target: UserId, reason: Reason, i: int)
    requires Left(moves, i, target, reason)
    ensures AccountRules.LatestTransition(moves, target, reason).Some?
    decreases |moves|
  {
    var n := |moves| - 1;
    if !AccountRules.Leaves(moves[n], target, reason) { SomeLatest(moves[..n], target, reason, i); }
  }

  /**
   * A transition is answered as already applied, with nothing written, if and only if an active
   * Admin asks for what already holds of the account, for exactly the latest transfer or for none.
   */
  lemma RepeatAnswered(db: Db, target: UserId, actor: UserId, request: AccountRules.Request, m: Transfers,
                       tid: TransitionId)
    ensures var r := AccountRules.Transition(db, target, actor, request, m, tid);
            && (!r.1.Updated? ==> r.0 == db)
            && (r.1 == AlreadyApplied(m) <==>
                  && ActiveAdmin(db.users, actor) && OneEach(m) && target in db.users
                  && (if request.Deactivate? then db.users[target].deleted
                      else target != actor && !db.users[target].deleted && db.users[target].role == request.role)
                  && (m == map[] || StillCommitted(db, target, AccountRules.ReasonOf(request), m)))
  {
    hide AccountRules.SetsValid, AccountRules.Lines, AccountRules.TransferProblem, AccountRules.ActiveAdmins,
         AccountRules.Transferred, AccountRules.Replay, StillCommitted;
    ReplayMeans(db, target, m, AccountRules.ReasonOf(request));
  }
}
