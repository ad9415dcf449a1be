/** Deleted media is never in use again, in any interleaving. */
module PromptMediaSafety {
  import opened Options
  import opened PromptMedia

  /** `now` is a clock reading that the step took before it got its lock. */
  datatype Step =
    | DoQuarantine(key: Key, sources: set<QuestionId>, now: int, wellFormed: bool, inspected: bool)
    | DoPrepare(key: Key, now: int)
    | DoConfirm(key: Key, call: StorageCall, committed: bool)
    | DoGiveUp(key: Key)
    | DoBind(q: QuestionId, key: Key)
    | DoStore(key: Key)
    | DoConfirmUpload(q: QuestionId)
    | DoAddQuestion(q: QuestionId)
    | DoRetire(q: QuestionId)
    | DoRestore(q: QuestionId, positionFree: bool)
    | DoStart(sid: SubmissionId, picks: seq<(QuestionId, Key)>)
    | DoRecord(sid: SubmissionId, source: Source)
    | DoWithdraw(sid: SubmissionId, retention: Retention)
    | DoWait(ms: nat)

  /** Clock readings lie in the past, a quarantine's after its inventory saw the key in use. */
  predicate Timely(m: Media, step: Step) {
    match step
    case DoQuarantine(key, _, now, _, _) => key in m.boundAt && m.boundAt[key] <= now <= m.clock
    case DoPrepare(_, now) => now <= m.clock
    case _ => true
  }

  function Apply(m: Media, step: Step): Media {
    if !Timely(m, step) then m
    else
      match step
      case DoQuarantine(key, sources, now, wellFormed, inspected) =>
        Quarantine(m, key, sources, now, wellFormed, inspected)
      case DoPrepare(key, now) => Prepare(m, key, now)
      case DoConfirm(key, call, committed) => Confirm(m, key, call, committed)
      case DoGiveUp(key) => GiveUp(m, key)
      case DoBind(q, key) => Bind(m, q, key)
      case DoStore(key) => Store(m, key)
      case DoConfirmUpload(q) => ConfirmUpload(m, q)
      case DoAddQuestion(q) => AddQuestion(m, q)
      case DoRetire(q) => Retire(m, q)
      case DoRestore(q, positionFree) => Restore(m, q, positionFree)
      case DoStart(sid, picks) => Start(m, sid, picks)
      case DoRecord(sid, source) => Record(m, sid, source)
      case DoWithdraw(sid, retention) => Withdraw(m, sid, retention)
      case DoWait(ms) => Wait(m, ms)
  }

  function Run(m: Media, steps: seq<Step>): Media
    decreases |steps|
  {
    if steps == [] then m else Run(Apply(m, steps[0]), steps[1..])
  }

  const EMPTY := Media(map[], map[], map[], [], [], {}, 0, map[], map[], [])

  ghost predicate WasDeleted(m: Media, key: Key) {
    exists i :: 0 <= i < |m.deletions| && m.deletions[i].key == key
  }

  // ---------------------------------------------------------------------
  // The invariant
  // ---------------------------------------------------------------------

  /** No one can get at the key again: not by restoring its Question, not by a stored or new reference. */
  ghost predicate Gone(m: Media, key: Key) {
    && key !in m.storage
    && !InUse(m.questions, key)
    && !Referenced(m, key, Users(m.questions, key))
    && (Users(m.questions, key) != {} ==> Unrestorable(m.objects, Some(key)))
    && key in m.boundAt && m.clock > m.boundAt[key] + UPLOAD_URL_MS
  }

  ghost predicate Known(m: Media) {
    && (forall q :: q in m.questions && m.questions[q].key.Some? ==> m.questions[q].key.value in m.boundAt)
    && (forall i :: 0 <= i < |m.entries| ==> m.entries[i].key in m.boundAt && m.entries[i].submission in m.submissions)
    && (forall i :: 0 <= i < |m.answers| ==> m.answers[i].submission in m.submissions)
    && (forall i :: 0 <= i < |m.answers| && m.answers[i].source.FromEntry? ==>
          m.answers[i].source.entry < |m.entries|
          && m.entries[m.answers[i].source.entry].submission == m.answers[i].submission)
  }

  /** Pending deletes are due, and a quarantine's end is measured from its own reading. */
  ghost predicate Due(m: Media) {
    && (forall k :: k in m.quarantinedAt ==> k in m.boundAt && m.boundAt[k] <= m.quarantinedAt[k])
    && (forall k :: k in m.objects && m.objects[k].quarantineUntil.Some? ==>
          k in m.quarantinedAt && m.objects[k].quarantineUntil.value == m.quarantinedAt[k] + RETENTION_QUARANTINE_MS)
    && (forall k :: k in m.objects && m.objects[k].status == DeletePending ==>
          m.objects[k].quarantineUntil.Some? && m.objects[k].quarantineUntil.value <= m.clock)
    && (forall i :: 0 <= i < |m.deletions| ==> m.deletions[i].at >= m.deletions[i].since + RETENTION_QUARANTINE_MS)
  }

  ghost predicate Safe(m: Media) {
    && Known(m)
    && Due(m)
    && forall i :: 0 <= i < |m.deletions| ==> Gone(m, m.deletions[i].key)
  }

  // ---------------------------------------------------------------------
  // Each step keeps it
  // ---------------------------------------------------------------------

  lemma ReferencesSame(m: Media, next: Media, key: Key, sources: set<QuestionId>)
    requires next.entries == m.entries && next.answers == m.answers && next.submissions == m.submissions
    ensures Referenced(next, key, sources) == Referenced(m, key, sources)
  {
    assert forall i: nat :: EntryRefers(next, i, key) == EntryRefers(m, i, key);
    assert forall i: nat :: AnswerRefers(next, i, key, sources) == AnswerRefers(m, i, key, sources);
  }

  /** Cleanup steps touch neither Questions nor references. */
  lemma CleanupGone(m: Media, next: Media, key: Key)
    requires Gone(m, key)
    requires next.entries == m.entries && next.answers == m.answers && next.submissions == m.submissions
    requires next.questions == m.questions && next.storage <= m.storage && next.boundAt == m.boundAt
             && next.clock == m.clock
    requires Users(m.questions, key) != {} ==> Unrestorable(next.objects, Some(key))
    ensures Gone(next, key)
  {
    hide Referenced, InUse, Users, Unrestorable;
    ReferencesSame(m, next, key, Users(m.questions, key));
  }

  lemma QuarantineGone(m: Media, step: Step, key: Key)
    requires Gone(m, key) && step.DoQuarantine?
    ensures Gone(Apply(m, step), key)
  {
    hide Referenced, InUse, Users;
    CleanupGone(m, Apply(m, step), key);
  }

  lemma PrepareGone(m: Media, k: Key, now: int, key: Key)
    requires Gone(m, key)
    ensures Gone(Prepare(m, k, now), key)
    ensures Gone(GiveUp(m, k), key)
  {
    hide Referenced, InUse, Users;
    CleanupGone(m, Prepare(m, k, now), key);
    CleanupGone(m, GiveUp(m, k), key);
  }

  lemma ConfirmGone(m: Media, k: Key, call: StorageCall, committed: bool, key: Key)
    requires Gone(m, key)
    ensures Gone(Confirm(m, k, call, committed), key)
  {
    hide Referenced, InUse, Users;
    CleanupGone(m, Confirm(m, k, call, committed), key);
  }

  /** The key deleted by this step. */
  lemma ConfirmMakesGone(m: Media, k: Key, call: StorageCall, committed: bool)
    requires Due(m) && Known(m) && Confirm(m, k, call, committed).deletions != m.deletions
    ensures Gone(Confirm(m, k, call, committed), k)
  {
    hide Referenced, InUse, Users;
    ReferencesSame(m, Confirm(m, k, call, committed), k, Users(m.questions, k));
  }

  /** A step beside the cleanup that leaves storage and cleanup rows alone. */
  lemma BesideGone(m: Media, next: Media, key: Key)
    requires Gone(m, key)
    requires next.objects == m.objects && next.storage == m.storage && next.clock >= m.clock
    requires key in next.boundAt && next.boundAt[key] == m.boundAt[key]
    requires !InUse(next.questions, key) && Users(next.questions, key) <= Users(m.questions, key)
    requires !Referenced(next, key, Users(next.questions, key))
    ensures Gone(next, key)
  {
    hide Referenced, InUse, Users;
  }

  lemma ReferencesShrink(m: Media, next: Media, key: Key, sources: set<QuestionId>, fewer: set<QuestionId>)
    requires next.entries == m.entries && next.answers == m.answers && fewer <= sources
    requires forall s :: Live(next, s) ==> Live(m, s)
    requires !Referenced(m, key, sources)
    ensures !Referenced(next, key, fewer)
  {
    assert forall i: nat :: EntryRefers(next, i, key) ==> EntryRefers(m, i, key);
    assert forall i: nat :: AnswerRefers(next, i, key, fewer) ==> AnswerRefers(m, i, key, sources);
  }

  lemma BindGone(m: Media, q: QuestionId, k: Key, key: Key)
    requires Gone(m, key)
    ensures Gone(Bind(m, q, k), key)
  {
    hide Referenced;
    var next := Bind(m, q, k);
    ReferencesShrink(m, next, key, Users(m.questions, key), Users(next.questions, key));
    BesideGone(m, next, key);
  }

  lemma RetireGone(m: Media, q: QuestionId, key: Key)
    requires Gone(m, key)
    ensures Gone(Retire(m, q), key)
    ensures Gone(AddQuestion(m, q), key)
  {
    hide Referenced;
    assert Users(Retire(m, q).questions, key) == Users(m.questions, key);
    assert Users(AddQuestion(m, q).questions, key) == Users(m.questions, key);
    ReferencesShrink(m, Retire(m, q), key, Users(m.questions, key), Users(m.questions, key));
    ReferencesShrink(m, AddQuestion(m, q), key, Users(m.questions, key), Users(m.questions, key));
  }

  lemma ConfirmUploadGone(m: Media, q: QuestionId, key: Key)
    requires Gone(m, key)
    ensures Gone(ConfirmUpload(m, q), key)
  {
    hide Referenced;
    assert Users(ConfirmUpload(m, q).questions, key) == Users(m.questions, key);
    ReferencesShrink(m, ConfirmUpload(m, q), key, Users(m.questions, key), Users(m.questions, key));
  }

  /** Restoring is refused for the Questions that used the key. */
  lemma RestoreGone(m: Media, q: QuestionId, positionFree: bool, key: Key)
    requires Gone(m, key)
    ensures Gone(Restore(m, q, positionFree), key)
  {
    hide Referenced;
    var next := Restore(m, q, positionFree);
    if next != m {
      assert q in Users(m.questions, key) <==> m.questions[q].key == Some(key);
      ReferencesShrink(m, next, key, Users(m.questions, key), Users(next.questions, key));
      BesideGone(m, next, key);
    }
  }

  /** New manifests deliver media in use, which deleted media is not. */
  lemma StartGone(m: Media, sid: SubmissionId, picks: seq<(QuestionId, Key)>, key: Key)
    requires Gone(m, key) && Known(m)
    ensures Gone(Start(m, sid, picks), key)
  {
    var next, sources := Start(m, sid, picks), Users(m.questions, key);
    assert forall i: nat :: i < |m.entries| ==> EntryRefers(next, i, key) == EntryRefers(m, i, key);
    assert forall i: nat :: |m.entries| <= i < |next.entries| ==> next.entries[i].key == picks[i - |m.entries|].1;
    assert forall i: nat :: |m.entries| <= i < |next.entries| ==> !EntryRefers(next, i, key);
    assert forall i: nat :: i < |m.answers| ==> AnswerRefers(next, i, key, sources) == AnswerRefers(m, i, key, sources);
    BesideGone(m, next, key);
  }

  /** A new Answer cannot refer to deleted media: its manifest would already, or the reservation refuses it. */
  lemma RecordGone(m: Media, sid: SubmissionId, source: Source, key: Key)
    requires Gone(m, key) && Known(m)
    ensures Gone(Record(m, sid, source), key)
  {
    var next, sources := Record(m, sid, source), Users(m.questions, key);
    assert forall i: nat :: EntryRefers(next, i, key) == EntryRefers(m, i, key);
    assert forall i: nat :: i < |m.answers| ==> AnswerRefers(next, i, key, sources) == AnswerRefers(m, i, key, sources);
    if next != m {
      NewAnswerElsewhere(m, sid, source, key);
    }
    BesideGone(m, next, key);
  }

  lemma NewAnswerElsewhere(m: Media, sid: SubmissionId, source: Source, key: Key)
    requires Gone(m, key) && Record(m, sid, source) != m
    ensures !AnswerRefers(Record(m, sid, source), |m.answers|, key, Users(m.questions, key))
  {
    match source
    case FromEntry(e) =>
      assert m.entries[e].key == key ==> EntryRefers(m, e, key);
    case FromQuestion(q) =>
  }

  lemma WithdrawGone(m: Media, sid: SubmissionId, retention: Retention, key: Key)
    requires Gone(m, key)
    ensures Gone(Withdraw(m, sid, retention), key)
  {
    hide Referenced, InUse, Users;
    var next := Withdraw(m, sid, retention);
    ReferencesShrink(m, next, key, Users(m.questions, key), Users(m.questions, key));
    BesideGone(m, next, key);
  }

  lemma StoreGone(m: Media, k: Key, ms: nat, key: Key)
    requires Gone(m, key)
    ensures Gone(Store(m, k), key)
    ensures Gone(Wait(m, ms), key)
  {
    hide Referenced, InUse, Users;
    ReferencesSame(m, Store(m, k), key, Users(m.questions, key));
    ReferencesSame(m, Wait(m, ms), key, Users(m.questions, key));
  }

  lemma StepGone(m: Media, step: Step, key: Key)
    requires Gone(m, key) && Known(m)
    ensures Gone(Apply(m, step), key)
  {
    hide Gone, Known, Bind, Retire, AddQuestion, ConfirmUpload, Restore, Quarantine, Prepare, Confirm, GiveUp,
         Start, Record, Withdraw, Store, Wait;
    if Timely(m, step) {
      match step
      case DoQuarantine(_, _, _, _, _) => QuarantineGone(m, step, key);
      case DoPrepare(k, now) => PrepareGone(m, k, now, key);
      case DoGiveUp(k) => PrepareGone(m, k, 0, key);
      case DoConfirm(k, call, committed) => ConfirmGone(m, k, call, committed, key);
      case DoStore(k) => StoreGone(m, k, 0, key);
      case DoWait(ms) => StoreGone(m, 0, ms, key);
      case DoStart(sid, picks) => StartGone(m, sid, picks, key);
      case DoRecord(sid, source) => RecordGone(m, sid, source, key);
      case DoWithdraw(sid, retention) => WithdrawGone(m, sid, retention, key);
      case DoRestore(q, positionFree) => RestoreGone(m, q, positionFree, key);
      case DoBind(q, k) => BindGone(m, q, k, key);
      case DoConfirmUpload(q) => ConfirmUploadGone(m, q, key);
      case DoAddQuestion(q) => RetireGone(m, q, key);
      case DoRetire(q) => RetireGone(m, q, key);
    }
  }

  lemma QuestionStepKnown(m: Media, step: Step)
    requires Known(m)
    requires step.DoBind? || step.DoConfirmUpload? || step.DoAddQuestion? || step.DoRetire? || step.DoRestore?
             || step.DoWithdraw?
    ensures Known(Apply(m, step))
  {
  }

  lemma StartKnown(m: Media, step: Step)
    requires Known(m) && (step.DoStart? || step.DoRecord?)
    ensures Known(Apply(m, step))
  {
    hide Reserved;
  }

  lemma QuarantineKnown(m: Media, step: Step)
    requires Known(m) && (step.DoQuarantine? || step.DoPrepare? || step.DoGiveUp?)
    ensures Known(Apply(m, step))
  {
    hide Known, Referenced, InUse, Users, Blocked;
    KnownSame(m, Apply(m, step));
  }

  lemma ConfirmKnown(m: Media, key: Key, call: StorageCall, committed: bool)
    requires Known(m)
    ensures Known(Confirm(m, key, call, committed))
  {
    hide Known, Blocked;
    KnownSame(m, Confirm(m, key, call, committed));
  }

  lemma StoreKnown(m: Media, key: Key, ms: nat)
    requires Known(m)
    ensures Known(Store(m, key)) && Known(Wait(m, ms))
  {
    hide Known;
    KnownSame(m, Store(m, key));
    KnownSame(m, Wait(m, ms));
  }

  lemma KnownSame(m: Media, next: Media)
    requires Known(m) && next.questions == m.questions && next.entries == m.entries && next.answers == m.answers
    requires next.submissions == m.submissions && next.boundAt == m.boundAt
    ensures Known(next)
  {
  }

  lemma StepKnown(m: Media, step: Step)
    requires Known(m)
    ensures Known(Apply(m, step))
  {
    hide Known, Confirm, Store, Wait, Quarantine, Prepare, GiveUp, Start, Record, Bind, Retire, Restore,
         ConfirmUpload, AddQuestion, Withdraw;
    match step
    case DoStart(_, _) => StartKnown(m, step);
    case DoRecord(_, _) => StartKnown(m, step);
    case DoQuarantine(_, _, _, _, _) => QuarantineKnown(m, step);
    case DoPrepare(_, _) => QuarantineKnown(m, step);
    case DoConfirm(key, call, committed) => ConfirmKnown(m, key, call, committed);
    case DoGiveUp(_) => QuarantineKnown(m, step);
    case DoStore(key) => StoreKnown(m, key, 0);
    case DoWait(ms) => StoreKnown(m, 0, ms);
    case _ => QuestionStepKnown(m, step);
  }

  lemma QuarantineDue(m: Media, step: Step)
    requires Due(m) && step.DoQuarantine?
    ensures Due(Apply(m, step))
  {
    hide Referenced, InUse, Users, Blocked;
  }

  lemma PrepareDue(m: Media, step: Step)
    requires Due(m) && (step.DoPrepare? || step.DoGiveUp?)
    ensures Due(Apply(m, step))
  {
    hide Referenced, InUse, Users, Blocked;
  }

  lemma ConfirmDue(m: Media, key: Key, call: StorageCall, committed: bool)
    requires Due(m)
    ensures Due(Confirm(m, key, call, committed))
  {
    hide Blocked;
  }

  lemma BesideDue(m: Media, step: Step)
    requires Due(m) && !step.DoQuarantine? && !step.DoPrepare? && !step.DoGiveUp? && !step.DoConfirm?
    ensures Due(Apply(m, step))
  {
    hide Reserved, Unrestorable, StillEligible, Live;
  }

  lemma StepDue(m: Media, step: Step)
    requires Due(m)
    ensures Due(Apply(m, step))
  {
    hide Due, Quarantine, Prepare, GiveUp, Confirm;
    match step
    case DoQuarantine(_, _, _, _, _) => QuarantineDue(m, step);
    case DoPrepare(_, _) => PrepareDue(m, step);
    case DoGiveUp(_) => PrepareDue(m, step);
    case DoConfirm(key, call, committed) => ConfirmDue(m, key, call, committed);
    case _ => BesideDue(m, step);
  }

  /** The only step that deletes appends one deletion, of its own key. */
  lemma DeletionsGrow(m: Media, step: Step)
    ensures Apply(m, step).deletions == m.deletions
            || (step.DoConfirm? && |Apply(m, step).deletions| == |m.deletions| + 1
                && m.deletions <= Apply(m, step).deletions
                && Apply(m, step).deletions[|m.deletions|].key == step.key)
  {
    hide Blocked, Referenced, InUse, Users, Reserved, Unrestorable, StillEligible, Live;
  }

  lemma StepSafe(m: Media, step: Step)
    requires Safe(m)
    ensures Safe(Apply(m, step))
  {
    hide Gone, Known, Due, Apply, Confirm;
    var next := Apply(m, step);
    StepKnown(m, step);
    StepDue(m, step);
    DeletionsGrow(m, step);
    forall i | 0 <= i < |next.deletions|
      ensures Gone(next, next.deletions[i].key)
    {
      if i < |m.deletions| {
        StepGone(m, step, m.deletions[i].key);
      } else {
        ConfirmStep(m, step);
        ConfirmMakesGone(m, step.key, step.call, step.committed);
      }
    }
  }

  lemma ConfirmStep(m: Media, step: Step)
    requires step.DoConfirm?
    ensures Apply(m, step) == Confirm(m, step.key, step.call, step.committed)
  {
  }

  lemma {:induction false} RunSafe(m: Media, steps: seq<Step>)
    requires Safe(m)
    ensures Safe(Run(m, steps))
    decreases |steps|
  {
    hide Safe, Apply;
    if steps != [] {
      StepSafe(m, steps[0]);
      RunSafe(Apply(m, steps[0]), steps[1..]);
    }
  }

  // ---------------------------------------------------------------------
  // The promises
  // ---------------------------------------------------------------------

  /**
   * In every interleaving: a key that was deleted from storage is no active Question's
   * media, in no manifest and behind no Answer that still counts, and not in storage.
   */
  lemma DeletedIsNeverUsed(steps: seq<Step>, key: Key)
    requires WasDeleted(Run(EMPTY, steps), key)
    ensures var m := Run(EMPTY, steps);
            && key !in m.storage
            && (forall q :: q in m.questions && m.questions[q].key == Some(key) ==> m.questions[q].deleted)
            && (forall i: nat :: i < |m.entries| && m.entries[i].key == key ==> !Live(m, m.entries[i].submission))
            && (forall i: nat :: i < |m.answers| && GuardedKey(m, m.answers[i].source) == Some(key) ==>
                  !Live(m, m.answers[i].submission))
  {
    hide Run, Gone, Safe;
    var m := Run(EMPTY, steps);
    EmptySafe();
    RunSafe(EMPTY, steps);
    SafeGone(m, key);
    forall i: nat | i < |m.entries| && m.entries[i].key == key
      ensures !Live(m, m.entries[i].submission)
    {
      GoneEntry(m, key, i);
    }
    forall i: nat | i < |m.answers| && GuardedKey(m, m.answers[i].source) == Some(key)
      ensures !Live(m, m.answers[i].submission)
    {
      GoneAnswer(m, key, i);
    }
    GoneQuestions(m, key);
  }

  lemma EmptySafe()
    ensures Safe(EMPTY)
  {
  }

  lemma SafeGone(m: Media, key: Key)
    requires Safe(m) && WasDeleted(m, key)
    ensures Gone(m, key)
  {
    hide Gone, Known, Due;
  }

  lemma GoneQuestions(m: Media, key: Key)
    requires Gone(m, key)
    ensures key !in m.storage
    ensures forall q :: q in m.questions && m.questions[q].key == Some(key) ==> m.questions[q].deleted
  {
    hide Referenced, Users;
  }

  lemma GoneEntry(m: Media, key: Key, i: nat)
    requires Gone(m, key) && i < |m.entries| && m.entries[i].key == key
    ensures !Live(m, m.entries[i].submission)
  {
    hide Users;
    assert Live(m, m.entries[i].submission) ==> EntryRefers(m, i, key);
  }

  lemma GoneAnswer(m: Media, key: Key, i: nat)
    requires Gone(m, key) && i < |m.answers| && GuardedKey(m, m.answers[i].source) == Some(key)
    ensures !Live(m, m.answers[i].submission)
  {
    assert Live(m, m.answers[i].submission) ==> AnswerRefers(m, i, key, Users(m.questions, key));
  }

  /** Every delete came at least the retention time after the quarantine it relied on. */
  lemma DeletesWaited(steps: seq<Step>, i: nat)
    requires i < |Run(EMPTY, steps).deletions|
    ensures var d := Run(EMPTY, steps).deletions[i]; d.at - d.since >= 30 * 24 * 3600 * 1000
  {
    hide Run, Gone, Known;
    EmptySafe();
    RunSafe(EMPTY, steps);
  }

  /** A delete relies on the latest quarantine, with no reference left at that very moment. */
  lemma DeletesAreRechecked(m: Media, step: Step)
    requires Safe(m) && Apply(m, step).deletions != m.deletions
    ensures step.DoConfirm? && !InUse(m.questions, step.key) && !Referenced(m, step.key, Users(m.questions, step.key))
    ensures step.key in m.quarantinedAt
    ensures Apply(m, step).deletions == m.deletions + [Deletion(step.key, m.clock, m.quarantinedAt[step.key])]
  {
    hide Gone, Known, Referenced, InUse, Users;
    DeletionsGrow(m, step);
  }

  ghost predicate NotPending(m: Media, key: Key) {
    StatusOf(m.objects, key) != Some(DeletePending)
  }

  lemma StepStaysCancelled(m: Media, step: Step, key: Key)
    requires NotPending(m, key) && !(step.DoPrepare? && step.key == key)
    ensures NotPending(Apply(m, step), key)
    ensures forall i :: |m.deletions| <= i < |Apply(m, step).deletions| ==> Apply(m, step).deletions[i].key != key
  {
    hide Confirm, Apply;
    if step.DoConfirm? {
      ConfirmStep(m, step);
      ConfirmStaysCancelled(m, step.key, step.call, step.committed, key);
    } else {
      OtherStaysCancelled(m, step, key);
    }
  }

  lemma ConfirmStaysCancelled(m: Media, k: Key, call: StorageCall, committed: bool, key: Key)
    requires NotPending(m, key)
    ensures NotPending(Confirm(m, k, call, committed), key)
    ensures forall i :: |m.deletions| <= i < |Confirm(m, k, call, committed).deletions| ==>
             Confirm(m, k, call, committed).deletions[i].key != key
  {
    hide Blocked;
  }

  lemma OtherStaysCancelled(m: Media, step: Step, key: Key)
    requires NotPending(m, key) && !step.DoConfirm? && !(step.DoPrepare? && step.key == key)
    ensures NotPending(Apply(m, step), key) && Apply(m, step).deletions == m.deletions
  {
    hide Confirm, Blocked, Referenced, InUse, Users, Reserved, Unrestorable, StillEligible, Live;
  }

  /** Without a new preparation nothing deletes the key. */
  lemma {:induction false} RunStaysCancelled(m: Media, steps: seq<Step>, key: Key)
    requires NotPending(m, key) && forall i :: 0 <= i < |steps| ==> !(steps[i].DoPrepare? && steps[i].key == key)
    ensures m.deletions <= Run(m, steps).deletions
    ensures forall i :: |m.deletions| <= i < |Run(m, steps).deletions| ==> Run(m, steps).deletions[i].key != key
    decreases |steps|
  {
    hide NotPending, Apply;
    if steps != [] {
      StepStaysCancelled(m, steps[0], key);
      DeletionsGrow(m, steps[0]);
      RunStaysCancelled(Apply(m, steps[0]), steps[1..], key);
    }
  }

  /** A quarantine between prepare and confirm cancels the pending delete, whatever it finds. */
  lemma RequarantineCancels(m: Media, key: Key, sources: set<QuestionId>, now: int, wellFormed: bool, inspected: bool,
                            steps: seq<Step>)
    requires forall i :: 0 <= i < |steps| ==> !(steps[i].DoPrepare? && steps[i].key == key)
    ensures var q := Quarantine(m, key, sources, now, wellFormed, inspected);
            && m.deletions <= Run(q, steps).deletions
            && forall i :: |m.deletions| <= i < |Run(q, steps).deletions| ==> Run(q, steps).deletions[i].key != key
  {
    hide Run, InUse, Referenced;
    RunStaysCancelled(Quarantine(m, key, sources, now, wellFormed, inspected), steps, key);
  }

  // ---------------------------------------------------------------------
  // Cleanup gets done
  // ---------------------------------------------------------------------

  /** Quarantine over, nothing in the way. */
  predicate ReadyToDelete(m: Media, key: Key, now: int) {
    && key in m.objects && !Final(m.objects[key].status)
    && m.objects[key].quarantineUntil.Some? && m.objects[key].quarantineUntil.value <= now
    && !Blocked(m, key)
  }

  /** Cleanup steps of any key leave a key's references and users as they were. */
  lemma BlockedSame(m: Media, next: Media, key: Key)
    requires next.entries == m.entries && next.answers == m.answers && next.submissions == m.submissions
             && next.questions == m.questions
    ensures Blocked(next, key) == Blocked(m, key)
  {
    hide Referenced, InUse, Users;
    ReferencesSame(m, next, key, Users(m.questions, key));
  }

  /** A finalization removes the object and records it; where it was gone already, it records that. */
  lemma FinalizationDeletes(m: Media, key: Key, now: int)
    requires ReadyToDelete(m, key, now)
    ensures var after := Confirm(Prepare(m, key, now), key, Confirmed, true);
            && key !in after.storage
            && StatusOf(after.objects, key) == Some(if key in m.storage then Deleted else Missing)
            && after.objects[key].attempts == m.objects[key].attempts + 1
  {
    hide Blocked;
    BlockedSame(m, Prepare(m, key, now), key);
  }

  /** A crash after the delete leaves the attempt pending; the next run finds the object gone and closes it. */
  lemma CrashIsRetried(m: Media, key: Key, now: int, later: int)
    requires ReadyToDelete(m, key, now) && now <= later
    ensures var crashed := Confirm(Prepare(m, key, now), key, Confirmed, false);
            && StatusOf(crashed.objects, key) == Some(DeletePending) && key !in crashed.storage
            && ReadyToDelete(crashed, key, later)
            && StatusOf(Confirm(Prepare(crashed, key, later), key, Confirmed, true).objects, key) == Some(Missing)
  {
    hide Blocked;
    var prepared := Prepare(m, key, now);
    var crashed := Confirm(prepared, key, Confirmed, false);
    BlockedSame(m, prepared, key);
    BlockedSame(m, crashed, key);
    FinalizationDeletes(crashed, key, later);
  }

  // ---------------------------------------------------------------------
  // Retiring and restoring
  // ---------------------------------------------------------------------

  /** Restoring undoes retiring, exactly as long as cleanup has not begun to delete the media or failed to. */
  lemma RestoreUndoesRetire(m: Media, q: QuestionId)
    requires q in m.questions && !m.questions[q].deleted
    ensures Restore(Retire(m, q), q, true) == m <==> !Unrestorable(m.objects, m.questions[q].key)
    ensures Retire(Retire(m, q), q) == Retire(m, q)
  {
    var retired := Retire(m, q);
    assert retired.questions[q := m.questions[q]] == m.questions;
    assert Retire(retired, q).questions == retired.questions;
  }

  /** A Question that was restored has its media: it was never deleted. */
  lemma RestoredMediaExists(m: Media, q: QuestionId, positionFree: bool, key: Key)
    requires Safe(m) && q in m.questions && m.questions[q].key == Some(key) && Restore(m, q, positionFree) != m
    ensures !WasDeleted(m, key)
  {
    hide Known, Due;
    assert q in Users(m.questions, key);
    if WasDeleted(m, key) { SafeGone(m, key); }
  }

  predicate DeliveredBy(m: Media, q: QuestionId, key: Key) {
    q in m.questions && m.questions[q] == Question(Some(key), false, true)
  }

  lemma ActiveStep(m: Media, step: Step, q: QuestionId, key: Key)
    requires DeliveredBy(m, q, key) && !(step.DoRetire? && step.q == q)
    ensures DeliveredBy(Apply(m, step), q, key)
  {
    hide Blocked, Referenced, InUse, Users, Reserved, Unrestorable, StillEligible, Live;
  }

  lemma ActiveIsBlocked(m: Media, q: QuestionId, key: Key, call: StorageCall, committed: bool)
    requires DeliveredBy(m, q, key)
    ensures Confirm(m, key, call, committed).deletions == m.deletions
  {
    hide Referenced, Users;
    assert InUse(m.questions, key);
  }

  /** Media of a Question that stays active is never deleted. */
  lemma {:induction false} ActiveMediaStays(m: Media, q: QuestionId, key: Key, steps: seq<Step>)
    requires DeliveredBy(m, q, key) && forall i :: 0 <= i < |steps| ==> !(steps[i].DoRetire? && steps[i].q == q)
    ensures m.deletions <= Run(m, steps).deletions
    ensures forall i :: |m.deletions| <= i < |Run(m, steps).deletions| ==> Run(m, steps).deletions[i].key != key
    decreases |steps|
  {
    hide Apply, DeliveredBy, Confirm;
    if steps != [] {
      var next := Apply(m, steps[0]);
      ActiveStep(m, steps[0], q, key);
      DeletionsGrow(m, steps[0]);
      if steps[0].DoConfirm? {
        ConfirmStep(m, steps[0]);
        if steps[0].key == key { ActiveIsBlocked(m, q, key, steps[0].call, steps[0].committed); }
      }
      ActiveMediaStays(next, q, key, steps[1..]);
    }
  }

  /**
   * Restoring a Question whose media is only quarantined saves the media: until the Question is
   * retired again no step deletes it, however long the quarantine has been over.
   */
  lemma RestoringSavesMedia(m: Media, q: QuestionId, key: Key, steps: seq<Step>)
    requires q in m.questions && m.questions[q] == Question(Some(key), true, true)
    requires StatusOf(m.objects, key) == Some(Quarantined)
    requires forall i :: 0 <= i < |steps| ==> !(steps[i].DoRetire? && steps[i].q == q)
    ensures var restored := Restore(m, q, true);
            && DeliveredBy(restored, q, key)
            && m.deletions <= Run(restored, steps).deletions
            && forall i :: |m.deletions| <= i < |Run(restored, steps).deletions| ==>
                 Run(restored, steps).deletions[i].key != key
  {
    hide Run;
    ActiveMediaStays(Restore(m, q, true), q, key, steps);
  }

  /** What preparing promises: the delete is due by the latest quarantine, and nothing is in its way. */
  lemma PreparedIsDue(m: Media, key: Key, now: int)
    requires Due(m) && now <= m.clock && ReadyToDelete(m, key, now)
    ensures key in m.quarantinedAt && m.quarantinedAt[key] + RETENTION_QUARANTINE_MS <= m.clock
    ensures !InUse(m.questions, key) && !Referenced(m, key, Users(m.questions, key))
  {
    hide Referenced, InUse, Users;
  }
}
