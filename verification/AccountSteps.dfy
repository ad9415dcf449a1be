/** Account transitions keep the invariant. */
module AccountSteps {
  import opened Options
  import opened Records
  import opened LifecycleInvariant
  import opened ExaminerSteps
  import opened AccountRules

  // ---------------------------------------------------------------------
  // The history lines of one transition
  // ---------------------------------------------------------------------

  lemma {:induction false} LinesAbout(ids: set<AssignmentId>, m: Transfers, target: UserId, actor: UserId,
                                      reason: Reason, tid: TransitionId)
    requires ids <= m.Keys
    ensures var lines := Lines(ids, m, target, actor, reason, tid);
            && |lines| == |ids|
            && forall i :: 0 <= i < |lines| ==>
                 lines[i].assignment in ids
                 && lines[i] == Move(tid, lines[i].assignment, target, m[lines[i].assignment], actor, reason)
    decreases |ids|
  {
    if ids != {} { LinesAbout(ids - {Least(ids)}, m, target, actor, reason, tid); }
  }

  lemma {:induction false} OwnerAfterLines(moves: seq<Move>, ids: set<AssignmentId>, m: Transfers, target: UserId,
                                           actor: UserId,
                                          reason: Reason, tid: TransitionId, a: AssignmentId, first: UserId)
    requires ids <= m.Keys && (a in ids ==> OwnerAfter(moves, a, first) == Some(target))
    ensures OwnerAfter(moves + Lines(ids, m, target, actor, reason, tid), a, first)
            == if a in ids then Some(m[a]) else OwnerAfter(moves, a, first)
    decreases |ids|
  {
    if ids == {} {
      assert moves + [] == moves;
    } else {
      hide OwnerAfter;
      var l, rest := Least(ids), ids - {Least(ids)};
      var line := Move(tid, l, target, m[l], actor, reason);
      OwnerAfterMove(moves, line, a, first);
      OwnerAfterLines(moves + [line], rest, m, target, actor, reason, tid, a, first);
      var lines := Lines(rest, m, target, actor, reason, tid);
      assert moves + [line] + lines == moves + ([line] + lines);
    }
  }

  // ---------------------------------------------------------------------
  // The tables after a transfer
  // ---------------------------------------------------------------------

  /** A transfer of open work of `target` to examiners outside the sets. */
  ghost predicate Transfer(db: Db, target: UserId, m: Transfers) {
    && m.Keys <= OpenAssignments(db, target)
    && forall a :: a in m ==> Replaces(db, a, target, m[a])
  }

  lemma TransferPaired(db: Db, ix: Index, target: UserId, m: Transfers)
    requires Paired(db.submissions, db.assignments, ix.pairs) && Transfer(db, target, m)
    ensures Paired(db.submissions, Transferred(db.assignments, m), ix.pairs)
  {
    forall t | t in ix.pairs
      ensures GoodPair(db.submissions[t], t, Transferred(db.assignments, m)[ix.pairs[t].0],
                       Transferred(db.assignments, m)[ix.pairs[t].1])
    {
      var a, b := ix.pairs[t].0, ix.pairs[t].1;
      assert GoodPair(db.submissions[t], t, db.assignments[a], db.assignments[b]);
      assert a in m ==> OpenFor(db, a, target) && Replaces(db, a, target, m[a]);
      assert b in m ==> OpenFor(db, b, target) && Replaces(db, b, target, m[b]);
    }
  }

  lemma TransferPlaced(db: Db, ix: Index, m: Transfers)
    requires Placed(db.assignments, ix.pairs) && Marking(db.submissions, db.assignments)
    ensures Placed(Transferred(db.assignments, m), ix.pairs)
    ensures Marking(db.submissions, Transferred(db.assignments, m))
  {
    assert forall a :: a in db.assignments ==>
      GoodScores(Transferred(db.assignments, m)[a], db.submissions[db.assignments[a].submission].system);
    hide GoodScores;
  }

  lemma TransferTraced(db: Db, target: UserId, m: Transfers, actor: UserId, reason: Reason, tid: TransitionId)
    requires Traced(db.assignments, db.moves) && Transfer(db, target, m)
    ensures Traced(Transferred(db.assignments, m), db.moves + Lines(m.Keys, m, target, actor, reason, tid))
  {
    hide OwnerAfter, Lines, Replaces;
    var next := Transferred(db.assignments, m);
    forall a | a in next
      ensures OwnerAfter(db.moves + Lines(m.Keys, m, target, actor, reason, tid), a, next[a].firstExaminer)
              == Some(next[a].examiner)
    {
      assert a in m ==> OpenFor(db, a, target);
      OwnerAfterLines(db.moves, m.Keys, m, target, actor, reason, tid, a, db.assignments[a].firstExaminer);
    }
    LinesAbout(m.Keys, m, target, actor, reason, tid);
    var lines := Lines(m.Keys, m, target, actor, reason, tid);
    forall i | 0 <= i < |db.moves + lines|
      ensures (db.moves + lines)[i].assignment in db.assignments
    {
      if i >= |db.moves| {
        assert OpenFor(db, lines[i - |db.moves|].assignment, target);
      }
    }
  }

  lemma TransferOwned(db: Db, target: UserId, m: Transfers, user: User)
    requires Owned(db.users, db.submissions, db.assignments) && Transfer(db, target, m) && target in db.users
    requires OpenAssignments(db, target) == m.Keys || (!user.deleted && user.role != Student)
    ensures Owned(db.users[target := user], db.submissions, Transferred(db.assignments, m))
  {
    var next, users := Transferred(db.assignments, m), db.users[target := user];
    forall a | a in next && next[a].status != Completed && db.submissions[next[a].submission].status != Voided
      ensures Capable(users, next[a].examiner)
    {
      assert a in OpenAssignments(db, target) <==> OpenFor(db, a, target);
      assert a in m ==> Replaces(db, a, target, m[a]);
    }
  }

  lemma AdminRemains(users: Users, target: UserId, user: User)
    requires Administered(users) && target in users
    requires ActiveAdmin(users, target) ==> |ActiveAdmins(users)| > 1
    ensures Administered(users[target := user])
  {
    var admins := ActiveAdmins(users);
    var known :| ActiveAdmin(users, known);
    if known == target {
      assert admins != {target};
      var other :| other in admins && other != target;
      assert ActiveAdmin(users[target := user], other);
    } else {
      assert ActiveAdmin(users[target := user], known);
    }
  }

  lemma TransitionKeeps(db: Db, ix: Index, target: UserId, actor: UserId, request: Request, m: Transfers,
                        tid: TransitionId)
    requires Inv(db, ix)
    ensures Inv(Transition(db, target, actor, request, m, tid).0, ix)
  {
    hide Paired, Placed, Flagging, Standing, Marking, Crediting, Charging, Accounting, Owned, Administered,
         Traced, Current, SetsValid, Replay, Lines, Transferred, TransferProblem, Transfer, DistinctValues,
         ActiveAdmins;
    if Transition(db, target, actor, request, m, tid).1.Updated? {
      var user := db.users[target];
      var next := if request.Deactivate? then user.(deleted := true) else user.(role := request.role);
      AcceptedTransfer(db, target, m, request);
      TransferPaired(db, ix, target, m);
      TransferPlaced(db, ix, m);
      TransferTraced(db, target, m, actor, ReasonOf(request), tid);
      TransferOwned(db, target, m, next);
      AdminRemains(db.users, target, next);
    }
  }

  lemma AcceptedTransfer(db: Db, target: UserId, m: Transfers, request: Request)
    requires target in db.users && TransferProblem(db, target, m, request) == None
    ensures Transfer(db, target, m)
    ensures RequiresTransfer(db.users[target].role, request) ==> OpenAssignments(db, target) == m.Keys
  {
    hide Replaces;
  }
}
