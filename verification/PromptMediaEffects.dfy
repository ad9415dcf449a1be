/** What each step of the media cleanup leaves behind, and what references protect. */
module PromptMediaEffects {
  import opened Options
  import opened PromptMedia
  import opened PromptMediaSafety

  // ---------------------------------------------------------------------
  // Quarantine
  // ---------------------------------------------------------------------

  /** The status a quarantine run gives an object it finds not yet finished. */
  function Found(m: Media, key: Key, sources: set<QuestionId>, wellFormed: bool, inspected: bool): CleanupStatus {
    if !inspected then CleanupFailed
    else if key !in m.storage then Missing
    else if !wellFormed || InUse(m.questions, key) || Referenced(m, key, sources) then SkippedReferenced
    else Quarantined
  }

  /**
   * A quarantine run leaves a finished object alone and gives any other the status found; only one
   * put into quarantine has an end of quarantine, thirty days on, so only that can be deleted later.
   */
  lemma QuarantineFinds(m: Media, key: Key, sources: set<QuestionId>, now: int, wellFormed: bool, inspected: bool,
                        later: int)
    ensures var after := Quarantine(m, key, sources, now, wellFormed, inspected);
            && after == m.(objects := after.objects, quarantinedAt := after.quarantinedAt)
            && after.objects - {key} == m.objects - {key} && after.quarantinedAt - {key} == m.quarantinedAt - {key}
            && (StatusOf(m.objects, key) in {Some(Deleted), Some(Missing)} ==> after == m)
            && (StatusOf(m.objects, key) !in {Some(Deleted), Some(Missing)} ==>
                  && StatusOf(after.objects, key) == Some(Found(m, key, sources, wellFormed, inspected))
                  && after.objects[key].attempts == AttemptsOf(m.objects, key)
                  && (after.objects[key].quarantineUntil.Some? <==> after.objects[key].status == Quarantined)
                  && (after.objects[key].status == Quarantined ==>
                        key in after.quarantinedAt && after.quarantinedAt[key] == now)
                  && (after.objects[key].status != Quarantined ==> after.quarantinedAt == m.quarantinedAt)
                  && (ReadyToDelete(after, key, later) ==>
                        after.objects[key].status == Quarantined && later >= now + 30 * 24 * 60 * 60 * 1000))
  {
    hide InUse, Referenced, Blocked;
  }

  /** It can be deleted from the moment the thirty days are over, if nothing refers to it then. */
  lemma QuarantineEnds(m: Media, key: Key, sources: set<QuestionId>, now: int, later: int)
    requires key in m.storage && !InUse(m.questions, key) && !Referenced(m, key, sources)
    requires StatusOf(m.objects, key) !in {Some(Deleted), Some(Missing)}
    ensures var after := Quarantine(m, key, sources, now, true, true);
            ReadyToDelete(after, key, later) <==> later >= now + 30 * 24 * 60 * 60 * 1000 && !Blocked(m, key)
  {
    hide InUse, Referenced, Blocked;
    BlockedSame(m, Quarantine(m, key, sources, now, true, true), key);
  }

  // ---------------------------------------------------------------------
  // Preparing
  // ---------------------------------------------------------------------

  predicate Overdue(m: Media, key: Key, now: int) {
    && StatusOf(m.objects, key) !in {None, Some(Deleted), Some(Missing)}
    && m.objects[key].quarantineUntil.Some? && m.objects[key].quarantineUntil.value <= now
  }

  /**
   * Preparing counts an attempt and announces the delete exactly if it is due and unreferenced; an
   * object found referenced again leaves quarantine for good; anything else is left as it is.
   */
  lemma PreparationOutcome(m: Media, key: Key, now: int, later: int)
    ensures var after := Prepare(m, key, now);
            && after == m.(objects := after.objects) && after.objects - {key} == m.objects - {key}
            && (!Overdue(m, key, now) ==> after == m)
            && (Overdue(m, key, now) && !Blocked(m, key) ==>
                  after.objects[key] == Cleanup(DeletePending, m.objects[key].quarantineUntil,
                                                m.objects[key].attempts + 1))
            && (Overdue(m, key, now) && Blocked(m, key) ==>
                  && after.objects[key] == Cleanup(SkippedReferenced, None, m.objects[key].attempts)
                  && !ReadyToDelete(after, key, later))
  {
    hide Blocked;
  }

  // ---------------------------------------------------------------------
  // Confirming
  // ---------------------------------------------------------------------

  /** A confirmation that finds the key referenced deletes nothing; if it is recorded, the quarantine is over. */
  lemma ReferenceStopsDelete(m: Media, key: Key, call: StorageCall, committed: bool, later: int)
    requires StatusOf(m.objects, key) == Some(DeletePending) && Blocked(m, key)
    ensures var after := Confirm(m, key, call, committed);
            && after.storage == m.storage && after.deletions == m.deletions
            && (!committed ==> after == m)
            && (committed ==>
                  && after.objects == m.objects[key := Cleanup(SkippedReferenced, None, m.objects[key].attempts)]
                  && !ReadyToDelete(after, key, later))
  {
    hide Blocked;
  }

  /** A delete that storage failed on, and that was recorded as failed. */
  function FailedDelete(m: Media, key: Key, now: int, gone: bool): Media {
    Confirm(Prepare(m, key, now), key, Failed(gone), true)
  }

  /**
   * A failed delete is recorded as failed and not as done: the row keeps the end of its quarantine
   * and stays ready, and the object is still there unless the failing call removed it.
   */
  lemma FailureKeepsRow(m: Media, key: Key, now: int, gone: bool)
    requires ReadyToDelete(m, key, now)
    ensures var failed := FailedDelete(m, key, now, gone);
            && StatusOf(failed.objects, key) == Some(CleanupFailed) && !Final(failed.objects[key].status)
            && failed.objects[key].quarantineUntil == m.objects[key].quarantineUntil
            && failed.objects[key].attempts == m.objects[key].attempts + 1
            && failed.storage == (if gone then m.storage - {key} else m.storage)
            && Blocked(failed, key) == Blocked(m, key)
  {
    hide Blocked;
    BlockedSame(m, Prepare(m, key, now), key);
    BlockedSame(m, FailedDelete(m, key, now, gone), key);
  }

  /** Neither a quarantine nor a finalization of this key. */
  predicate LeavesRow(step: Step, key: Key) {
    && !(step.DoQuarantine? && step.key == key) && !(step.DoPrepare? && step.key == key)
    && !(step.DoConfirm? && step.key == key) && !(step.DoGiveUp? && step.key == key)
  }

  lemma RowStep(m: Media, step: Step, key: Key)
    requires LeavesRow(step, key)
    ensures key in Apply(m, step).objects <==> key in m.objects
    ensures key in m.objects ==> Apply(m, step).objects[key] == m.objects[key]
  {
    hide Apply;
    if step.DoQuarantine? || step.DoPrepare? || step.DoConfirm? || step.DoGiveUp? {
      OtherRow(m, step, key);
    } else {
      RowsUntouched(m, step);
    }
  }

  lemma OtherRow(m: Media, step: Step, key: Key)
    requires LeavesRow(step, key)
    requires step.DoQuarantine? || step.DoPrepare? || step.DoConfirm? || step.DoGiveUp?
    ensures key in Apply(m, step).objects <==> key in m.objects
    ensures key in m.objects ==> Apply(m, step).objects[key] == m.objects[key]
  {
    hide Blocked, Quarantine, Prepare, Confirm, GiveUp;
    match step {
      case DoQuarantine(k, sources, now, wellFormed, inspected) =>
        QuarantineFinds(m, k, sources, now, wellFormed, inspected, now);
      case DoPrepare(k, now) => PreparationOutcome(m, k, now, now);
      case DoConfirm(k, call, committed) => ConfirmOther(m, k, call, committed);
      case DoGiveUp(k) => GivingUpIsRetried(m, k, 0);
      case _ =>
    }
    SameRow(m.objects, Apply(m, step).objects, step.key, key);
  }

  lemma SameRow(before: map<Key, Cleanup>, after: map<Key, Cleanup>, k: Key, key: Key)
    requires after - {k} == before - {k} && k != key
    ensures key in after <==> key in before
    ensures key in before ==> after[key] == before[key]
  {
    assert key in after <==> key in after - {k};
    assert key in before <==> key in before - {k};
    if key in before { assert (after - {k})[key] == (before - {k})[key]; }
  }

  lemma ConfirmOther(m: Media, k: Key, call: StorageCall, committed: bool)
    ensures Confirm(m, k, call, committed).objects - {k} == m.objects - {k}
  {
    hide Blocked;
  }

  /** Only cleanup writes cleanup rows. */
  lemma RowsUntouched(m: Media, step: Step)
    requires !step.DoQuarantine? && !step.DoPrepare? && !step.DoConfirm? && !step.DoGiveUp?
    ensures Apply(m, step).objects == m.objects
  {
    hide Reserved, Unrestorable, StillEligible, Live;
  }

  lemma {:induction false} RowStays(m: Media, steps: seq<Step>, key: Key)
    requires forall i :: 0 <= i < |steps| ==> LeavesRow(steps[i], key)
    ensures key in Run(m, steps).objects <==> key in m.objects
    ensures key in m.objects ==> Run(m, steps).objects[key] == m.objects[key]
    decreases |steps|
  {
    hide Apply, LeavesRow;
    if steps != [] {
      RowStep(m, steps[0], key);
      RowStays(Apply(m, steps[0]), steps[1..], key);
    }
  }

  /**
   * A failed delete is tried again: whatever happens in between, the key is ready at any later time
   * exactly while nothing blocks it, and the next attempt that gets through deletes the object if it
   * is still there and records that it was missing otherwise.
   */
  lemma FailureIsRetried(m: Media, key: Key, now: int, gone: bool, steps: seq<Step>, later: int)
    requires ReadyToDelete(m, key, now) && now <= later
    requires forall i :: 0 <= i < |steps| ==> LeavesRow(steps[i], key)
    ensures var next := Run(FailedDelete(m, key, now, gone), steps);
            && (ReadyToDelete(next, key, later) <==> !Blocked(next, key))
            && (!Blocked(next, key) ==>
                  var after := Confirm(Prepare(next, key, later), key, Confirmed, true);
                  key !in after.storage
                  && StatusOf(after.objects, key) == Some(if key in next.storage then Deleted else Missing))
  {
    hide Blocked, Run, FailedDelete, Confirm, Prepare, LeavesRow;
    FailureKeepsRow(m, key, now, gone);
    RowStays(FailedDelete(m, key, now, gone), steps, key);
    var next := Run(FailedDelete(m, key, now, gone), steps);
    if !Blocked(next, key) { FinalizationDeletes(next, key, later); }
  }

  /** Giving up on an error deletes nothing, and keeps what is due due. */
  lemma GivingUpIsRetried(m: Media, key: Key, later: int)
    ensures var after := GiveUp(m, key);
            && after == m.(objects := after.objects) && after.objects - {key} == m.objects - {key}
            && (ReadyToDelete(after, key, later) <==> ReadyToDelete(m, key, later))
            && (StatusOf(m.objects, key) !in {None, Some(Deleted), Some(Missing)} ==>
                  after.objects[key] == Cleanup(CleanupFailed, m.objects[key].quarantineUntil, m.objects[key].attempts))
            && (StatusOf(m.objects, key) in {None, Some(Deleted), Some(Missing)} ==> after == m)
  {
    hide Blocked;
    BlockedSame(m, GiveUp(m, key), key);
  }

  // ---------------------------------------------------------------------
  // Uploads
  // ---------------------------------------------------------------------

  /** A Question whose media was uploaded in time and confirmed has it, and can be delivered. */
  lemma UploadArrives(m: Media, q: QuestionId, key: Key, ms: nat)
    requires q !in m.questions && key !in m.boundAt && key !in m.storage
    ensures var bound := Bind(AddQuestion(m, q), q, key);
            var waited := Wait(bound, ms);
            var stored := Store(waited, key);
            && bound.questions[q] == Question(Some(key), false, false)
            && (key in stored.storage <==> ms <= 60 * 60 * 1000)
            && (if ms <= 60 * 60 * 1000
                then ConfirmUpload(stored, q).questions == m.questions[q := Question(Some(key), false, true)]
                else ConfirmUpload(stored, q) == waited)
  {
  }

  /** A key serves one upload only, and uploaded media is never replaced. */
  lemma KeysAreFresh(m: Media, q: QuestionId, other: QuestionId, key: Key, next: Key)
    requires Known(m) && q in m.questions
    ensures m.questions[q].key.Some? ==> Bind(m, other, m.questions[q].key.value) == m
    ensures m.questions[q].uploaded || m.questions[q].deleted ==> Bind(m, q, next) == m
    ensures Bind(m, other, key).questions.Keys == m.questions.Keys
    ensures other != q ==> Bind(m, other, key).questions[q] == m.questions[q]
  {
  }

  // ---------------------------------------------------------------------
  // Manifests
  // ---------------------------------------------------------------------

  /** Every pick is still an active Question with the media that was chosen. */
  predicate Deliverable(m: Media, picks: seq<(QuestionId, Key)>) {
    forall i :: 0 <= i < |picks| ==>
      picks[i].0 in m.questions && !m.questions[picks[i].0].deleted
      && m.questions[picks[i].0].key == Some(picks[i].1)
  }

  /** The manifest of a started Submission: one entry for each pick, in order, behind all older ones. */
  predicate Manifest(entries: seq<Entry>, from: nat, sid: SubmissionId, picks: seq<(QuestionId, Key)>) {
    && |entries| == from + |picks|
    && forall i :: 0 <= i < |picks| ==>
         && entries[from + i].submission == sid
         && entries[from + i].question == picks[i].0
         && entries[from + i].key == picks[i].1
  }

  /** A start creates the Submission and its whole manifest, exactly for a new id and picks that still hold. */
  lemma StartDelivers(m: Media, sid: SubmissionId, picks: seq<(QuestionId, Key)>)
    ensures var after := Start(m, sid, picks);
            if sid in m.submissions || !Deliverable(m, picks) then after == m
            else
              && after == m.(submissions := m.submissions[sid := Retained], entries := after.entries)
              && m.entries <= after.entries && Manifest(after.entries, |m.entries|, sid, picks)
  {
  }

  lemma EntryStep(m: Media, step: Step, i: nat, key: Key)
    requires EntryRefers(m, i, key) && step != DoWithdraw(m.entries[i].submission, Purged)
    ensures EntryRefers(Apply(m, step), i, key)
    ensures Apply(m, step).entries[i] == m.entries[i]
  {
    hide Blocked, Referenced, InUse, Users, Reserved, Unrestorable, StillEligible;
  }

  lemma EntryBlocks(m: Media, i: nat, key: Key)
    requires EntryRefers(m, i, key)
    ensures Referenced(m, key, Users(m.questions, key)) && Blocked(m, key)
  {
    hide Users, InUse;
  }

  lemma BlockedKeepsObject(m: Media, step: Step, key: Key)
    requires Blocked(m, key)
    ensures key in m.storage ==> key in Apply(m, step).storage
    ensures |Apply(m, step).deletions| > |m.deletions| ==>
              |Apply(m, step).deletions| == |m.deletions| + 1 && Apply(m, step).deletions[|m.deletions|].key != key
  {
    hide Blocked, Referenced, InUse, Users, Reserved, Unrestorable, StillEligible, Live;
  }

  /** Media that a manifest entry refers to is deleted in no run before its Submission is purged. */
  lemma {:induction false} EntryProtects(m: Media, i: nat, key: Key, steps: seq<Step>)
    requires EntryRefers(m, i, key)
    requires forall k :: 0 <= k < |steps| ==> steps[k] != DoWithdraw(m.entries[i].submission, Purged)
    ensures EntryRefers(Run(m, steps), i, key) && Blocked(Run(m, steps), key)
    ensures key in m.storage ==> key in Run(m, steps).storage
    ensures m.deletions <= Run(m, steps).deletions
    ensures forall k :: |m.deletions| <= k < |Run(m, steps).deletions| ==> Run(m, steps).deletions[k].key != key
    decreases |steps|
  {
    hide Apply, Blocked;
    EntryBlocks(m, i, key);
    if steps != [] {
      EntryStep(m, steps[0], i, key);
      DeletionsGrow(m, steps[0]);
      BlockedKeepsObject(m, steps[0], key);
      EntryProtects(Apply(m, steps[0]), i, key, steps[1..]);
    }
  }

  /** What a started Submission delivers stays in storage in every run in which it is not purged. */
  lemma DeliveredMediaStays(m: Media, sid: SubmissionId, picks: seq<(QuestionId, Key)>, i: nat, steps: seq<Step>)
    requires sid !in m.submissions && Deliverable(m, picks) && i < |picks|
    requires forall k :: 0 <= k < |steps| ==> steps[k] != DoWithdraw(sid, Purged)
    ensures var started := Start(m, sid, picks);
            var later := Run(started, steps);
            && Referenced(later, picks[i].1, Users(later.questions, picks[i].1))
            && (picks[i].1 in m.storage ==> picks[i].1 in later.storage)
            && m.deletions <= later.deletions
            && forall k :: |m.deletions| <= k < |later.deletions| ==> later.deletions[k].key != picks[i].1
  {
    hide Run, Referenced, Users, Deliverable;
    StartDelivers(m, sid, picks);
    var started := Start(m, sid, picks);
    EntryProtects(started, |m.entries| + i, picks[i].1, steps);
    EntryBlocks(Run(started, steps), |m.entries| + i, picks[i].1);
  }

  // ---------------------------------------------------------------------
  // Answers and withdrawal
  // ---------------------------------------------------------------------

  /** Cleanup has claimed the media, and no active Question uses it. */
  predicate Claimed(m: Media, key: Option<Key>) {
    && key.Some? && key.value in m.objects && m.objects[key.value].status != SkippedReferenced
    && !InUse(m.questions, key.value)
  }

  /**
   * An Answer is taken exactly for a retained Submission, for a prompt of its own manifest or a bare
   * Question, whose media cleanup has not claimed; it is appended and nothing else is written.
   */
  lemma AnswerAccepted(m: Media, sid: SubmissionId, source: Source)
    ensures var after := Record(m, sid, source);
            var media := match source
                         case FromEntry(e) => if e < |m.entries| then Some(m.entries[e].key) else None
                         case FromQuestion(q) => if q in m.questions then m.questions[q].key else None;
            if && sid in m.submissions && m.submissions[sid] == Retained && !Claimed(m, media)
               && (source.FromEntry? ==> source.entry < |m.entries| && m.entries[source.entry].submission == sid)
            then after == m.(answers := m.answers + [Answer(sid, source)]) else after == m
  {
    hide InUse;
    assert Reserved(m, GuardedKey(m, source)) <==> Claimed(m, GuardedKey(m, source));
  }

  /** A withdrawn Submission keeps its media until it is purged, and a purge is for good. */
  lemma PurgeIsFinal(m: Media, sid: SubmissionId, retention: Retention)
    ensures var after := Withdraw(m, sid, retention);
            && after == m.(submissions := after.submissions)
            && after.submissions.Keys == m.submissions.Keys
            && (forall s :: s in m.submissions ==>
                  after.submissions[s]
                  == if s == sid && m.submissions[s] != Purged then retention else m.submissions[s])
  {
  }
}
