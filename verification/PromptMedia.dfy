/**
 * Prompt media of Questions, its two-phase cleanup, and the steps that run
 * beside it. Every step that reads or writes a key's references holds that
 * key's lock, so each is atomic; a storage delete happens inside its step.
 */
module PromptMedia {
  import opened Options

  type QuestionId = nat
  type SubmissionId = nat
  type Key = nat

  const RETENTION_QUARANTINE_MS := 30 * 24 * 60 * 60 * 1000
  const UPLOAD_URL_MS := 3600 * 1000

  datatype Question = Question(key: Option<Key>, deleted: bool, uploaded: bool)

  datatype CleanupStatus = Quarantined | DeletePending | Deleted | CleanupFailed | SkippedReferenced | Missing

  datatype Cleanup = Cleanup(status: CleanupStatus, quarantineUntil: Option<int>, attempts: nat)

  datatype Retention = Retained | Withdrawn | Purged

  /** A delivered prompt of a Submission's manifest. */
  datatype Entry = Entry(submission: SubmissionId, question: QuestionId, key: Key)

  datatype Source = FromEntry(entry: nat) | FromQuestion(question: QuestionId)
  datatype Answer = Answer(submission: SubmissionId, source: Source)

  /** A delete carried out in storage, with the clock reading of the quarantine it relied on. */
  datatype Deletion = Deletion(key: Key, at: int, since: int)

  /** `boundAt`, `quarantinedAt` and `deletions` are history that no step reads, except for the upload deadline. */
  datatype Media = Media(
    questions: map<QuestionId, Question>, objects: map<Key, Cleanup>,
    submissions: map<SubmissionId, Retention>, entries: seq<Entry>, answers: seq<Answer>,
    storage: set<Key>, clock: int,
    boundAt: map<Key, int>, quarantinedAt: map<Key, int>, deletions: seq<Deletion>)

  // ---------------------------------------------------------------------
  // References
  // ---------------------------------------------------------------------

  predicate Live(m: Media, sid: SubmissionId) {
    sid in m.submissions && m.submissions[sid] != Purged
  }

  /** The Questions that use the key, retired or not. */
  function Users(questions: map<QuestionId, Question>, key: Key): set<QuestionId> {
    set q | q in questions && questions[q].key == Some(key)
  }

  predicate InUse(questions: map<QuestionId, Question>, key: Key) {
    exists q :: q in questions && questions[q].key == Some(key) && !questions[q].deleted
  }

  predicate EntryRefers(m: Media, i: nat, key: Key) {
    i < |m.entries| && m.entries[i].key == key && Live(m, m.entries[i].submission)
  }

  predicate AnswerRefers(m: Media, i: nat, key: Key, sources: set<QuestionId>) {
    && i < |m.answers| && Live(m, m.answers[i].submission)
    && match m.answers[i].source
       case FromEntry(e) => e < |m.entries| && m.entries[e].key == key
       case FromQuestion(q) => q in sources
  }

  /** A manifest or an Answer of a Submission that is not purged still refers to the key. */
  predicate Referenced(m: Media, key: Key, sources: set<QuestionId>) {
    (exists i: nat :: i < |m.entries| && EntryRefers(m, i, key))
    || (exists i: nat :: i < |m.answers| && AnswerRefers(m, i, key, sources))
  }

  /** Does the recheck of prepare and confirm stop the delete? */
  predicate Blocked(m: Media, key: Key) {
    Users(m.questions, key) == {} || InUse(m.questions, key) || Referenced(m, key, Users(m.questions, key))
  }

  predicate Final(status: CleanupStatus) {
    status == Deleted || status == Missing
  }

  function StatusOf(objects: map<Key, Cleanup>, key: Key): Option<CleanupStatus> {
    if key in objects then Some(objects[key].status) else None
  }

  function AttemptsOf(objects: map<Key, Cleanup>, key: Key): nat {
    if key in objects then objects[key].attempts else 0
  }

  // ---------------------------------------------------------------------
  // Cleanup
  // ---------------------------------------------------------------------

  /** One candidate of a quarantine run; `sources` is what the inventory saw, `now` was read after it. */
  function Quarantine(m: Media, key: Key, sources: set<QuestionId>, now: int, wellFormed: bool,
                      inspected: bool): Media {
    if key in m.objects && Final(m.objects[key].status) then m
    else
      var attempts := AttemptsOf(m.objects, key);
      if !inspected then m.(objects := m.objects[key := Cleanup(CleanupFailed, None, attempts)])
      else
        var present := key in m.storage;
        if wellFormed && !InUse(m.questions, key) && !Referenced(m, key, sources) && present then
          m.(objects := m.objects[key := Cleanup(Quarantined, Some(now + RETENTION_QUARANTINE_MS), attempts)],
             quarantinedAt := m.quarantinedAt[key := now])
        else
          m.(objects := m.objects[key := Cleanup(if present then SkippedReferenced else Missing, None, attempts)])
  }

  /** Commit the intention to delete, if the quarantine is over and nothing refers to the key. */
  function Prepare(m: Media, key: Key, now: int): Media {
    if key !in m.objects || Final(m.objects[key].status) then m
    else
      var row := m.objects[key];
      if row.quarantineUntil.None? || row.quarantineUntil.value > now then m
      else if Blocked(m, key) then
        m.(objects := m.objects[key := row.(status := SkippedReferenced, quarantineUntil := None)])
      else m.(objects := m.objects[key := row.(status := DeletePending, attempts := row.attempts + 1)])
  }

  /** What the storage call did and reported. */
  datatype StorageCall = Confirmed | Failed(gone: bool)

  function Removed(m: Media, key: Key, call: StorageCall): Media {
    if call == Failed(false) then m
    else
      m.(storage := m.storage - {key},
         deletions := m.deletions
             + [Deletion(key, m.clock, if key in m.quarantinedAt then m.quarantinedAt[key] else m.clock)])
  }

  /** Delete in storage and record it; without `committed` the record is lost in a crash, the delete is not. */
  function Confirm(m: Media, key: Key, call: StorageCall, committed: bool): Media {
    if StatusOf(m.objects, key) != Some(DeletePending) then m
    else
      var row := m.objects[key];
      if Blocked(m, key) then
        if !committed then m
        else m.(objects := m.objects[key := row.(status := SkippedReferenced, quarantineUntil := None)])
      else
        var removed := Removed(m, key, call);
        if !committed then removed
        else if call.Confirmed? then
          removed.(objects := m.objects[key := row.(status := if key in m.storage then Deleted else Missing,
                                                    quarantineUntil := None)])
        else removed.(objects := m.objects[key := row.(status := CleanupFailed)])
  }

  /** Finalization gave up on an error. */
  function GiveUp(m: Media, key: Key): Media {
    if key !in m.objects || Final(m.objects[key].status) then m
    else m.(objects := m.objects[key := m.objects[key].(status := CleanupFailed)])
  }

  // ---------------------------------------------------------------------
  // What runs beside it
  // ---------------------------------------------------------------------

  /** An upload address for a Question's media: always a key never used before. */
  function Bind(m: Media, q: QuestionId, key: Key): Media {
    if q !in m.questions || m.questions[q].deleted || m.questions[q].uploaded || key in m.boundAt then m
    else
      m.(questions := m.questions[q := m.questions[q].(key := Some(key), uploaded := false)],
         boundAt := m.boundAt[key := m.clock])
  }

  /** The upload arrives before its address expires. */
  function Store(m: Media, key: Key): Media {
    if key !in m.boundAt || m.clock > m.boundAt[key] + UPLOAD_URL_MS then m
    else m.(storage := m.storage + {key})
  }

  function ConfirmUpload(m: Media, q: QuestionId): Media {
    if q !in m.questions || m.questions[q].deleted || m.questions[q].key.None?
       || m.questions[q].key.value !in m.storage then m
    else m.(questions := m.questions[q := m.questions[q].(uploaded := true)])
  }

  function AddQuestion(m: Media, q: QuestionId): Media {
    if q in m.questions then m else m.(questions := m.questions[q := Question(None, false, false)])
  }

  function Retire(m: Media, q: QuestionId): Media {
    if q !in m.questions then m else m.(questions := m.questions[q := m.questions[q].(deleted := true)])
  }

  predicate Unrestorable(objects: map<Key, Cleanup>, key: Option<Key>) {
    key.Some? && key.value in objects && objects[key.value].status in {CleanupFailed, DeletePending, Deleted, Missing}
  }

  function Restore(m: Media, q: QuestionId, positionFree: bool): Media {
    if q !in m.questions || !m.questions[q].deleted || Unrestorable(m.objects, m.questions[q].key)
       || !positionFree then m
    else m.(questions := m.questions[q := m.questions[q].(deleted := false)])
  }

  /** The picks are still what they were when they were chosen. */
  predicate StillEligible(questions: map<QuestionId, Question>, picks: seq<(QuestionId, Key)>) {
    forall i :: 0 <= i < |picks| ==>
      picks[i].0 in questions && !questions[picks[i].0].deleted && questions[picks[i].0].key == Some(picks[i].1)
  }

  function Start(m: Media, sid: SubmissionId, picks: seq<(QuestionId, Key)>): Media {
    if sid in m.submissions || !StillEligible(m.questions, picks) then m
    else
      m.(submissions := m.submissions[sid := Retained],
         entries := m.entries + seq(|picks|, i requires 0 <= i < |picks| => Entry(sid, picks[i].0, picks[i].1)))
  }

  /** The key whose reservation guards a new Answer. */
  function GuardedKey(m: Media, source: Source): Option<Key> {
    match source
    case FromEntry(e) => if e < |m.entries| then Some(m.entries[e].key) else None
    case FromQuestion(q) => if q in m.questions then m.questions[q].key else None
  }

  /** The database refuses an Answer whose media cleanup has reserved. */
  predicate Reserved(m: Media, key: Option<Key>) {
    key.Some? && key.value in m.objects
    && m.objects[key.value].status in {Quarantined, DeletePending, Deleted, CleanupFailed, Missing}
    && !InUse(m.questions, key.value)
  }

  function Record(m: Media, sid: SubmissionId, source: Source): Media {
    if sid !in m.submissions || m.submissions[sid] != Retained
       || (source.FromEntry? && !(source.entry < |m.entries| && m.entries[source.entry].submission == sid))
       || Reserved(m, GuardedKey(m, source)) then m
    else m.(answers := m.answers + [Answer(sid, source)])
  }

  /** Quarantine, recovery and purge of a Submission; a purged one never comes back. */
  function Withdraw(m: Media, sid: SubmissionId, retention: Retention): Media {
    if !Live(m, sid) then m else m.(submissions := m.submissions[sid := retention])
  }

  function Wait(m: Media, ms: nat): Media {
    m.(clock := m.clock + ms)
  }
}
