/** What holds of the tables in every consistent state, in terms of the rows alone. */
module LifecycleSafety {
  import opened Options
  import opened Records
  import opened LifecycleInvariant
  import opened LifecycleRows
  import opened ExaminerSteps
  import opened Lifecycle
  import ExaminerRules
  import AccountRules

  // ---------------------------------------------------------------------
  // Assignment sets and status
  // ---------------------------------------------------------------------

  /** No assignment at all, or slots 1 and 2 with two examiners, none of them the student. */
  lemma SetsAndStatus(db: Db, sid: SubmissionId)
    requires Consistent(db) && sid in db.submissions
    ensures var s, ids := db.submissions[sid], SetOf(db.assignments, sid);
            && (ids == {} || ValidSet(db.assignments, ids))
            && (ids != {} ==> s.status in {Scoring, Scored, Certified, FlagReview, Voided})
            && (s.status in {Scoring, Scored, Certified} ==> ids != {})
            && (ids != {} ==> (Finished(s.status) <==> ExaminerRules.AllCompleted(db.assignments, ids)))
            && s.flagReturn == (if s.status == FlagReview && ids != {} then Some(Scoring) else None)
            && forall a :: a in ids ==> db.assignments[a].examiner != s.student
  {
    hide Paired, Placed, Flagging, Around, ValidSet, SetOf, HasOpenFlag;
    var ix :| Inv(db, ix);
    SetIsPair(db, ix, sid);
    AtSubmission(db, ix, sid);
    if sid in ix.pairs {
      PairAt(db, ix, sid);
    }
  }

  lemma PairAt(db: Db, ix: Index, sid: SubmissionId)
    requires Inv(db, ix) && sid in ix.pairs
    ensures sid in db.submissions && ix.pairs[sid].0 in db.assignments && ix.pairs[sid].1 in db.assignments
    ensures GoodPair(db.submissions[sid], sid, db.assignments[ix.pairs[sid].0], db.assignments[ix.pairs[sid].1])
  {
    hide GoodPair, Around, Flagging;
  }

  /** An untouched assignment has no score, a completed one exactly one, and all are valid. */
  lemma ScoresFollowWork(db: Db, aid: AssignmentId)
    requires Consistent(db) && aid in db.assignments
    ensures var a := db.assignments[aid];
            && a.submission in db.submissions
            && (a.status == Assigned ==> a.scores == [])
            && (a.status == Completed ==> |a.scores| == 1)
            && |a.scores| <= 1
            && forall score :: score in a.scores ==>
              ExaminerRules.ValidScore(score, db.submissions[a.submission].system)
  {
    hide Paired, Placed, Flagging, Around, ExaminerRules.ValidScore;
    var ix :| Inv(db, ix);
    AtAssignment(db, ix, aid);
  }

  /** Outcomes that ask for data repair. */
  predicate AsksForRepair(e: Event, outcome: Outcome) {
    match e
    case CreateAssignmentSet(_, first, second, _, _) => outcome == Rejected(InvariantViolation)
    case CompleteScoring(_, _) =>
      outcome == Rejected(InvalidAssignmentSet) || outcome == Rejected(InconsistentScoring)
      || outcome == Rejected(ScoreInvalid)
    case Transition(_, _, _, _, _) => outcome == Rejected(AssignmentSetInvalid)
    case _ => false
  }

  /** Candidates drawn from the eligible examiners of a Submission. */
  predicate GoodCandidates(db: Db, e: Event) {
    e.CreateAssignmentSet? ==>
      e.first != e.second
      && (e.sid in db.submissions ==>
          e.first != db.submissions[e.sid].student && e.second != db.submissions[e.sid].student)
  }

  lemma CompletionIsConsistent(db: Db, ix: Index, aid: AssignmentId, uid: UserId)
    requires Inv(db, ix)
    ensures !AsksForRepair(CompleteScoring(aid, uid), ExaminerRules.CompleteScoring(db, aid, uid).1)
  {
    hide Paired, Placed, Flagging, Around, HasOpenFlag, ExaminerRules.ValidScore, ValidSet, SetOf;
    if ExaminerRules.Present(db, aid) {
      AtAssignment(db, ix, aid);
      SetIsPair(db, ix, db.assignments[aid].submission);
    }
  }

  lemma SetsAreValid(db: Db, ix: Index, target: UserId)
    requires Inv(db, ix)
    ensures AccountRules.SetsValid(db.assignments, target)
  {
    hide Inv, ValidSet;
    forall a | a in db.assignments && db.assignments[a].examiner == target
      ensures ValidSet(db.assignments, SetOf(db.assignments, db.assignments[a].submission))
    {
      AtAssignment(db, ix, a);
      SetIsPair(db, ix, db.assignments[a].submission);
    }
  }

  lemma CreationIsConsistent(db: Db, ix: Index, sid: SubmissionId, first: UserId, second: UserId, a1: AssignmentId,
                             a2: AssignmentId)
    requires Inv(db, ix) && GoodCandidates(db, CreateAssignmentSet(sid, first, second, a1, a2))
    ensures ExaminerRules.CreateAssignmentSet(db, sid, first, second, a1, a2).1 != Rejected(InvariantViolation)
  {
    hide Inv, HasOpenFlag, SetOf, ExaminerRules.Eligible;
    if sid in db.submissions {
      SetIsPair(db, ix, sid);
      AtSubmission(db, ix, sid);
    }
  }

  /** The fail-closed branches are never taken. */
  lemma NoDataRepair(db: Db, e: Event)
    requires Consistent(db) && GoodCandidates(db, e)
    ensures !AsksForRepair(e, Apply(db, e).1)
  {
    hide Inv, SetOf, HasOpenFlag, AccountRules.SetsValid, AccountRules.Replay, AccountRules.TransferProblem;
    var ix :| Inv(db, ix);
    match e
    case CreateAssignmentSet(sid, first, second, a1, a2) => CreationIsConsistent(db, ix, sid, first, second, a1, a2);
    case CompleteScoring(aid, uid) => CompletionIsConsistent(db, ix, aid, uid);
    case Transition(target, actor, request, m, tid) => TransitionIsConsistent(db, ix, target, actor, request, m, tid);
    case _ =>
  }

  lemma TransitionIsConsistent(db: Db, ix: Index, target: UserId, actor: UserId, request: AccountRules.Request,
                               m: Transfers, tid: TransitionId)
    requires Inv(db, ix)
    ensures AccountRules.Transition(db, target, actor, request, m, tid).1 != Rejected(AssignmentSetInvalid)
  {
    hide Inv, AccountRules.SetsValid, AccountRules.Transferred, AccountRules.Lines,
         AccountRules.DistinctValues, AccountRules.Replaces;
    SetsAreValid(db, ix, target);
  }

  // ---------------------------------------------------------------------
  // Flags, credits, money, people
  // ---------------------------------------------------------------------

  /** Outside recording, an open flag and flag review are the same thing. */
  lemma FlagsMatchStatus(db: Db, sid: SubmissionId)
    requires Consistent(db) && sid in db.submissions
    requires db.submissions[sid].status != InProgress && db.submissions[sid].status != Abandoned
    ensures HasOpenFlag(db.flags, sid) <==> db.submissions[sid].status == FlagReview
  {
    hide Inv, HasOpenFlag;
    var ix :| Inv(db, ix);
    AtSubmission(db, ix, sid);
  }

  function VoidedSubmissions(submissions: Submissions): set<SubmissionId> {
    set s | s in submissions && submissions[s].status == Voided
  }

  function CreditedSubmissions(credits: seq<Credit>): set<SubmissionId> {
    set i | 0 <= i < |credits| :: credits[i].voided
  }

  /**
   * One credit per voided Submission, for its student; each redeemed
   * at most once, by another Submission of that student.
   */
  lemma CreditsConserved(db: Db)
    requires Consistent(db)
    ensures |db.credits| == |VoidedSubmissions(db.submissions)|
    ensures CreditedSubmissions(db.credits) == VoidedSubmissions(db.submissions)
    ensures forall i :: 0 <= i < |db.credits| ==>
              var c := db.credits[i];
              && c.voided in db.submissions && c.student == db.submissions[c.voided].student
              && (c.redeemed.Some? ==>
                    c.redeemed.value != c.voided && c.redeemed.value in db.submissions
                    && db.submissions[c.redeemed.value].student == c.student)
    ensures forall i, j :: 0 <= i < j < |db.credits| ==>
              && db.credits[i].voided != db.credits[j].voided
              && (db.credits[i].redeemed.Some? ==> db.credits[i].redeemed != db.credits[j].redeemed)
  {
    hide Paired, Placed, Flagging, Standing, Marking, Charging, Accounting, Owned, Administered, Traced,
         Current;
    var ix :| Inv(db, ix);
    CreditsMatch(db.submissions, db.credits, ix.credit, ix.pairs);
  }

  lemma CreditsMatch(submissions: Submissions, credits: seq<Credit>, index: map<SubmissionId, nat>,
                     pairs: map<SubmissionId, Pair>)
    requires Crediting(submissions, credits, index, pairs)
    ensures CreditedSubmissions(credits) == VoidedSubmissions(submissions)
    ensures |credits| == |VoidedSubmissions(submissions)|
  {
    hide Redeems;
    assert forall s :: s in VoidedSubmissions(submissions) ==> credits[index[s]].voided == s;
    assert CreditedSubmissions(credits) == VoidedSubmissions(submissions);
    CountDistinct(credits);
  }

  lemma {:induction false} CountDistinct(credits: seq<Credit>)
    requires forall i, j :: 0 <= i < j < |credits| ==> credits[i].voided != credits[j].voided
    ensures |CreditedSubmissions(credits)| == |credits|
  {
    if credits != [] {
      var rest, last := credits[..|credits| - 1], credits[|credits| - 1];
      CountDistinct(rest);
      assert forall i :: 0 <= i < |rest| ==> rest[i] == credits[i];
      assert CreditedSubmissions(credits) == CreditedSubmissions(rest) + {last.voided};
    }
  }

  /** Follow `n` links: from a credit to the credit that its redeeming Submission got when it was voided. */
  ghost predicate Linked(credits: seq<Credit>, i: nat, j: nat, n: nat)
    decreases n
  {
    if n == 0 then i == j
    else
      exists k: nat ::
        k < |credits| && i < |credits| && credits[i].redeemed == Some(credits[k].voided) && Linked(credits, k, j, n - 1)
  }

  lemma {:induction false} LinksGrow(credits: seq<Credit>, i: nat, j: nat, n: nat)
    requires forall i, j :: 0 <= j <= i < |credits| ==> credits[i].redeemed != Some(credits[j].voided)
    requires Linked(credits, i, j, n)
    ensures i + n <= j
    decreases n
  {
    if n > 0 {
      var k: nat :| k < |credits| && i < |credits| && credits[i].redeemed == Some(credits[k].voided)
          && Linked(credits, k, j, n - 1);
      LinksGrow(credits, k, j, n - 1);
    }
  }

  /** Retakes of retakes never lead back: every link goes to a later credit. */
  lemma RetakesNeverCycle(db: Db, i: nat, j: nat, n: nat)
    requires Consistent(db) && Linked(db.credits, i, j, n)
    ensures i + n <= j
  {
    hide Linked, Paired, Placed, Flagging, Standing, Marking, Charging, Accounting, Owned, Administered,
         Traced, Current;
    var ix :| Inv(db, ix);
    LinksGrow(db.credits, i, j, n);
  }

  /**
   * What is cleared or staffed and still requires payment has an
   * attempt with a verified notification, and no waiver.
   */
  lemma OwingIsPaid(db: Db, sid: SubmissionId)
    requires Consistent(db) && sid in db.submissions && db.submissions[sid].paymentRequired
    requires db.submissions[sid].status in {Paid, Scoring, Scored, Certified} || SetOf(db.assignments, sid) != {}
    ensures exists p :: p in db.payments && db.payments[p].submission == sid && db.payments[p].wasPaid
    ensures sid !in db.waivers
  {
    hide Paired, Placed, Flagging, Standing, Marking, Crediting, Accounting, Owned, Administered, Traced,
         Current, SetOf;
    var ix :| Inv(db, ix);
    SetIsPair(db, ix, sid);
    assert db.payments[ix.paidBy[sid]].submission == sid;
  }

  /** A Submission voided during the test was never charged and never redeemed a credit. */
  lemma NoChargeForVoidedTest(db: Db, sid: SubmissionId)
    requires Consistent(db) && sid in db.submissions
    requires db.submissions[sid].status == Voided && SetOf(db.assignments, sid) == {}
    ensures forall p :: p in db.payments ==> db.payments[p].submission != sid
    ensures sid !in db.waivers
    ensures forall i :: 0 <= i < |db.credits| ==> db.credits[i].redeemed != Some(sid)
  {
    hide Paired, Placed, Flagging, Standing, Marking, Accounting, Owned, Administered, Traced, Current, SetOf;
    var ix :| Inv(db, ix);
    SetIsPair(db, ix, sid);
  }

  /** Recorded provider identifiers belong to one attempt, and a settled attempt has both. */
  lemma IdentifiersAreUnique(db: Db, p: PaymentId, q: PaymentId)
    requires Consistent(db) && p in db.payments && q in db.payments && p != q
    ensures db.payments[p].session.Some? ==> db.payments[p].session != db.payments[q].session
    ensures db.payments[p].transaction.Some? ==> db.payments[p].transaction != db.payments[q].transaction
    ensures db.payments[p].status == Succeeded ==> db.payments[p].session.Some? && db.payments[p].transaction.Some?
  {
    hide Paired, Placed, Flagging, Standing, Marking, Crediting, Charging, Owned, Administered, Traced,
         Current;
    var ix :| Inv(db, ix);
  }

  /** Open work is in capable hands that are not the student's, and someone can always administer. */
  lemma OpenWorkIsOwned(db: Db, aid: AssignmentId)
    requires Consistent(db) && aid in db.assignments && db.assignments[aid].status != Completed
    ensures var a := db.assignments[aid];
            && a.submission in db.submissions && a.examiner != db.submissions[a.submission].student
            && (db.submissions[a.submission].status != Voided ==>
                  a.examiner in db.users && !db.users[a.examiner].deleted && db.users[a.examiner].role != Student)
  {
    hide Paired, Placed, Flagging, Standing, Marking, Crediting, Charging, Accounting, Administered, Traced,
         Current;
    var ix :| Inv(db, ix);
    AtAssignment(db, ix, aid);
  }

  lemma AdminAlwaysRemains(db: Db)
    requires Consistent(db)
    ensures exists u :: u in db.users && db.users[u].role == Admin && !db.users[u].deleted
  {
    hide Paired, Placed, Flagging, Standing, Marking, Crediting, Charging, Accounting, Owned, Traced, Current;
    var ix :| Inv(db, ix);
    var u :| ActiveAdmin(db.users, u);
  }

  // ---------------------------------------------------------------------
  // The reassignment history
  // ---------------------------------------------------------------------

  /** The history's lines for one assignment, oldest first. */
  function LinesOf(moves: seq<Move>, a: AssignmentId): seq<Move> {
    if moves == [] then []
    else
      var before, last := LinesOf(moves[..|moves| - 1], a), moves[|moves| - 1];
      if last.assignment == a then before + [last] else before
  }

  /** A chain of owners from `first` to `last`. */
  ghost predicate Chain(lines: seq<Move>, first: UserId, last: UserId) {
    && (lines == [] ==> first == last)
    && (lines != [] ==> lines[0].from == first && lines[|lines| - 1].to == last)
    && forall i :: 0 < i < |lines| ==> lines[i].from == lines[i - 1].to
  }

  lemma {:induction false} OwnerIsChain(moves: seq<Move>, a: AssignmentId, first: UserId, last: UserId)
    ensures OwnerAfter(moves, a, first) == Some(last) <==> Chain(LinesOf(moves, a), first, last)
  {
    if moves != [] {
      var before, move := moves[..|moves| - 1], moves[|moves| - 1];
      OwnerIsChain(before, a, first, last);
      if move.assignment == a {
        OwnerIsChain(before, a, first, move.from);
        ChainExtends(LinesOf(before, a), first, move);
      }
    }
  }

  lemma ChainExtends(lines: seq<Move>, first: UserId, move: Move)
    ensures Chain(lines + [move], first, move.to) <==> Chain(lines, first, move.from)
  {
    var all := lines + [move];
    assert forall i :: 0 <= i < |lines| ==> all[i] == lines[i];
    if Chain(all, first, move.to) && lines != [] {
      assert all[|lines|].from == all[|lines| - 1].to;
    }
  }

  /** Replaying an assignment's history from its first examiner ends at its owner, line by line. */
  lemma HistoryIsFaithful(db: Db, aid: AssignmentId)
    requires Consistent(db) && aid in db.assignments
    ensures Chain(LinesOf(db.moves, aid), db.assignments[aid].firstExaminer, db.assignments[aid].examiner)
  {
    hide Paired, Placed, Flagging, Standing, Marking, Crediting, Charging, Accounting, Owned, Administered,
         Current, Chain;
    var ix :| Inv(db, ix);
    OwnerIsChain(db.moves, aid, db.assignments[aid].firstExaminer, db.assignments[aid].examiner);
  }
}
