/** The cleanup runs over the rows as they are updated in place. */
module PromptMediaCleanup {
  import opened Options
  import opened PromptMedia
  import opened PromptMediaSafety
  import PromptMediaEffects

  /** One inventory line with the answer of its storage inspection; `now` was read before its transaction. */
  datatype Candidate = Candidate(key: Key, sources: set<QuestionId>, now: int, wellFormed: bool, inspected: bool)

  /** One finalization attempt: `broken` says that preparing failed with an error. */
  datatype Attempt = Attempt(key: Key, now: int, broken: bool, call: StorageCall, committed: bool)

  function StepOf(c: Candidate): Step {
    DoQuarantine(c.key, c.sources, c.now, c.wellFormed, c.inspected)
  }

  lemma SafeDue(m: Media)
    requires Safe(m)
    ensures Due(m)
  {
    hide Due;
  }

  lemma SameDeletions(before: Media, after: Media, key: Key)
    requires after.deletions == before.deletions
    ensures WasDeleted(after, key) == WasDeleted(before, key)
  {
  }

  function QuarantineSteps(candidates: seq<Candidate>): seq<Step> {
    if candidates == [] then []
    else [StepOf(candidates[0])] + QuarantineSteps(candidates[1..])
  }

  /** The transactions of one finalization attempt, which depend on how preparing went. */
  function FinalizeSteps(m: Media, a: Attempt): seq<Step> {
    if a.broken then [DoGiveUp(a.key)]
    else if ReadyToDelete(m, a.key, a.now) then [DoPrepare(a.key, a.now), DoConfirm(a.key, a.call, a.committed)]
    else [DoPrepare(a.key, a.now)]
  }

  function FinalizeRun(m: Media, attempts: seq<Attempt>): seq<Step>
    decreases |attempts|
  {
    if attempts == [] then []
    else FinalizeSteps(m, attempts[0]) + FinalizeRun(Run(m, FinalizeSteps(m, attempts[0])), attempts[1..])
  }

  lemma {:induction false} RunConcat(m: Media, first: seq<Step>, second: seq<Step>)
    ensures Run(m, first + second) == Run(Run(m, first), second)
    decreases |first|
  {
    hide Apply;
    if first == [] {
      assert first + second == second;
    } else {
      assert (first + second)[1..] == first[1..] + second;
      RunConcat(Apply(m, first[0]), first[1..], second);
    }
  }

  lemma RunTwo(m: Media, first: Step, second: Step)
    ensures Run(m, [first]) == Apply(m, first)
    ensures Run(m, [first, second]) == Apply(Apply(m, first), second)
  {
    hide Apply;
    var next := Apply(m, first);
    assert [first, second][1..] == [second] && [second][1..] == [];
    assert Run(next, [second]) == Run(Apply(next, second), []);
  }

  /** What the method below promises beside its rule. */
  lemma ConfirmMeans(m: Media, key: Key, call: StorageCall, committed: bool)
    ensures var after := Confirm(m, key, call, committed);
            && (Safe(m) ==> Safe(after))
            && (StatusOf(m.objects, key) == Some(DeletePending) && !Blocked(m, key) && committed ==>
                  && key in after.objects
                  && (call.Failed? ==> after.objects[key] == m.objects[key].(status := CleanupFailed))
                  && (call.Confirmed? ==> Final(after.objects[key].status) && key !in after.storage))
            && (after.deletions != m.deletions ==>
                  !InUse(m.questions, key) && !Referenced(m, key, Users(m.questions, key)))
  {
    hide Safe, Referenced, InUse, Users;
    if Safe(m) { StepSafe(m, DoConfirm(key, call, committed)); }
  }

  lemma QuarantineMeans(m: Media, c: Candidate)
    ensures var after := Quarantine(m, c.key, c.sources, c.now, c.wellFormed, c.inspected);
            && StatusOf(after.objects, c.key) != Some(DeletePending)
            && (Safe(m) && Timely(m, StepOf(c)) ==> Safe(after))
  {
    hide Safe, InUse, Referenced;
    if Safe(m) { StepSafe(m, StepOf(c)); }
  }

  class MediaStore {
    var questions: map<QuestionId, Question>
    var objects: map<Key, Cleanup>
    var submissions: map<SubmissionId, Retention>
    var entries: seq<Entry>
    var answers: seq<Answer>
    var storage: set<Key>
    var clock: int
    var boundAt: map<Key, int>
    var quarantinedAt: map<Key, int>
    var deletions: seq<Deletion>

    constructor ()
      ensures Snapshot() == EMPTY
    {
      questions, objects, submissions, entries, answers := map[], map[], map[], [], [];
      storage, clock, boundAt, quarantinedAt, deletions := {}, 0, map[], map[], [];
    }

    function Snapshot(): Media
      reads this
    {
      Media(questions, objects, submissions, entries, answers, storage, clock, boundAt, quarantinedAt, deletions)
    }

    method QuarantineCandidate(c: Candidate)
      modifies this`objects, this`quarantinedAt
      ensures Snapshot() == Quarantine(old(Snapshot()), c.key, c.sources, c.now, c.wellFormed, c.inspected)
      ensures StatusOf(objects, c.key) != Some(DeletePending)
      ensures Safe(old(Snapshot())) && Timely(old(Snapshot()), StepOf(c)) ==> Safe(Snapshot())
    {
      hide Safe, Timely, StepOf, InUse, Referenced;
      QuarantineMeans(Snapshot(), c);
      if c.key in objects && Final(objects[c.key].status) { return; }
      var attempts := AttemptsOf(objects, c.key);
      if !c.inspected {
        objects := objects[c.key := Cleanup(CleanupFailed, None, attempts)];
        return;
      }
      var present := c.key in storage;
      var eligible := c.wellFormed && !InUse(questions, c.key) && !Referenced(Snapshot(), c.key, c.sources) && present;
      var status := if eligible then Quarantined else if !present then Missing else SkippedReferenced;
      var until := if eligible then Some(c.now + RETENTION_QUARANTINE_MS) else None;
      objects := objects[c.key := Cleanup(status, until, attempts)];
      if eligible { quarantinedAt := quarantinedAt[c.key := c.now]; }
    }

    method PrepareDeleteAttempt(key: Key, now: int) returns (pending: bool)
      modifies this`objects
      ensures Snapshot() == Prepare(old(Snapshot()), key, now)
      ensures pending == ReadyToDelete(old(Snapshot()), key, now)
      ensures Safe(old(Snapshot())) && now <= clock ==> Safe(Snapshot())
      ensures Safe(old(Snapshot())) && now <= clock && pending ==>
                && key in quarantinedAt && quarantinedAt[key] + RETENTION_QUARANTINE_MS <= clock
                && !InUse(questions, key) && !Referenced(Snapshot(), key, Users(questions, key))
    {
      hide Safe, Due, Blocked, Referenced, InUse, Users;
      ghost var before := Snapshot();
      if Safe(before) { StepSafe(before, DoPrepare(key, now)); SafeDue(before); }
      if Safe(before) && now <= clock && ReadyToDelete(before, key, now) {
        PreparedIsDue(before, key, now);
        ReferencesSame(before, Prepare(before, key, now), key, Users(before.questions, key));
      }
      if key !in objects || Final(objects[key].status) { return false; }
      var row := objects[key];
      if row.quarantineUntil.None? || row.quarantineUntil.value > now { return false; }
      if Blocked(Snapshot(), key) {
        objects := objects[key := row.(status := SkippedReferenced, quarantineUntil := None)];
        return false;
      }
      objects := objects[key := row.(status := DeletePending, attempts := row.attempts + 1)];
      return true;
    }

    method ConfirmDeleteAttempt(key: Key, call: StorageCall, committed: bool)
      modifies this`objects, this`storage, this`deletions
      ensures Snapshot() == Confirm(old(Snapshot()), key, call, committed)
      ensures Safe(old(Snapshot())) ==> Safe(Snapshot())
      ensures StatusOf(old(objects), key) == Some(DeletePending) && old(!Blocked(Snapshot(), key)) && committed ==>
                && key in objects
                && (call.Failed? ==> objects[key] == old(objects)[key].(status := CleanupFailed))
                && (call.Confirmed? ==> Final(objects[key].status) && key !in storage)
      ensures deletions != old(deletions) ==>
                old(!InUse(questions, key) && !Referenced(Snapshot(), key, Users(questions, key)))
    {
      hide Safe, Blocked, Referenced, InUse, Users;
      ConfirmMeans(Snapshot(), key, call, committed);
      if StatusOf(objects, key) != Some(DeletePending) { return; }
      var row := objects[key];
      if Blocked(Snapshot(), key) {
        if committed { objects := objects[key := row.(status := SkippedReferenced, quarantineUntil := None)]; }
        return;
      }
      var present := key in storage;
      if call != Failed(false) {
        storage := storage - {key};
        deletions := deletions + [Deletion(key, clock, if key in quarantinedAt then quarantinedAt[key] else clock)];
      }
      if !committed { return; }
      if call.Confirmed? {
        objects := objects[key := row.(status := if present then Deleted else Missing, quarantineUntil := None)];
      } else {
        objects := objects[key := row.(status := CleanupFailed)];
      }
    }

    method FinalizeCandidate(a: Attempt)
      requires a.now <= clock
      modifies this`objects, this`storage, this`deletions
      ensures Snapshot() == Run(old(Snapshot()), FinalizeSteps(old(Snapshot()), a))
    {
      hide Prepare, Confirm, GiveUp, ReadyToDelete, Blocked, Run;
      RunTwo(Snapshot(), DoPrepare(a.key, a.now), DoConfirm(a.key, a.call, a.committed));
      RunTwo(Snapshot(), DoGiveUp(a.key), DoGiveUp(a.key));
      if a.broken {
        AbandonAttempt(a.key);
        return;
      }
      var pending := PrepareDeleteAttempt(a.key, a.now);
      if pending { ConfirmDeleteAttempt(a.key, a.call, a.committed); }
    }

    method AbandonAttempt(key: Key)
      modifies this`objects
      ensures Snapshot() == GiveUp(old(Snapshot()), key)
    {
      if key in objects && !Final(objects[key].status) {
        objects := objects[key := objects[key].(status := CleanupFailed)];
      }
    }

    /** A quarantine run takes the candidates one by one. */
    method RunQuarantine(candidates: seq<Candidate>)
      requires forall i :: 0 <= i < |candidates| ==>
                 candidates[i].key in boundAt && boundAt[candidates[i].key] <= candidates[i].now <= clock
      modifies this`objects, this`quarantinedAt
      ensures Snapshot() == Run(old(Snapshot()), QuarantineSteps(candidates))
    {
      hide Quarantine;
      for i := 0 to |candidates|
        invariant Run(Snapshot(), QuarantineSteps(candidates[i..])) == Run(old(Snapshot()), QuarantineSteps(candidates))
      {
        ghost var c := candidates[i];
        ghost var step := DoQuarantine(c.key, c.sources, c.now, c.wellFormed, c.inspected);
        assert candidates[i..][1..] == candidates[i + 1..];
        assert QuarantineSteps(candidates[i..])[1..] == QuarantineSteps(candidates[i + 1..]);
        assert Apply(Snapshot(), step) == Quarantine(Snapshot(), c.key, c.sources, c.now, c.wellFormed, c.inspected);
        QuarantineCandidate(candidates[i]);
      }
    }

    /** A finalization run takes the due objects one by one. */
    method RunFinalize(attempts: seq<Attempt>)
      requires forall i :: 0 <= i < |attempts| ==> attempts[i].now <= clock
      modifies this`objects, this`storage, this`deletions
      ensures Snapshot() == Run(old(Snapshot()), FinalizeRun(old(Snapshot()), attempts))
    {
      hide Apply, FinalizeSteps, ReadyToDelete;
      for i := 0 to |attempts|
        invariant Run(Snapshot(), FinalizeRun(Snapshot(), attempts[i..]))
                  == Run(old(Snapshot()), FinalizeRun(old(Snapshot()), attempts))
      {
        ghost var steps := FinalizeSteps(Snapshot(), attempts[i]);
        assert attempts[i..][1..] == attempts[i + 1..];
        RunConcat(Snapshot(), steps, FinalizeRun(Run(Snapshot(), steps), attempts[i + 1..]));
        FinalizeCandidate(attempts[i]);
      }
    }

    // -------------------------------------------------------------------
    // Questions and manifests, under the same locks
    // -------------------------------------------------------------------

    method RetireQuestion(q: QuestionId)
      modifies this`questions
      ensures Snapshot() == Retire(old(Snapshot()), q)
      ensures Safe(old(Snapshot())) ==> Safe(Snapshot())
    {
      hide Safe;
      if Safe(Snapshot()) { StepSafe(Snapshot(), DoRetire(q)); }
      if q !in questions { return; }
      if !questions[q].deleted { questions := questions[q := questions[q].(deleted := true)]; }
      assert questions == Retire(old(Snapshot()), q).questions;
    }

    method RestoreQuestion(q: QuestionId, positionFree: bool)
      modifies this`questions
      ensures Snapshot() == Restore(old(Snapshot()), q, positionFree)
      ensures Safe(old(Snapshot())) ==> Safe(Snapshot())
      ensures Safe(old(Snapshot())) && questions != old(questions) && questions[q].key.Some? ==>
                !WasDeleted(Snapshot(), questions[q].key.value)
    {
      hide Safe, WasDeleted;
      ghost var before := Snapshot();
      if Safe(before) {
        StepSafe(before, DoRestore(q, positionFree));
        if Restore(before, q, positionFree) != before && before.questions[q].key.Some? {
          RestoredMediaExists(before, q, positionFree, before.questions[q].key.value);
          SameDeletions(before, Restore(before, q, positionFree), before.questions[q].key.value);
        }
      }
      if q !in questions || !questions[q].deleted { return; }
      var key := questions[q].key;
      if key.Some? && key.value in objects
         && objects[key.value].status in {CleanupFailed, DeletePending, Deleted, Missing} { return; }
      if !positionFree { return; }
      questions := questions[q := questions[q].(deleted := false)];
    }

    /** Recheck and deliver the picks one by one; a conflict undoes what was created. */
    method CreateManifest(sid: SubmissionId, picks: seq<(QuestionId, Key)>) returns (created: bool)
      modifies this`submissions, this`entries
      ensures Snapshot() == Start(old(Snapshot()), sid, picks)
      ensures created <==> sid !in old(submissions) && PromptMediaEffects.Deliverable(Snapshot(), picks)
      ensures created ==> old(entries) <= entries && PromptMediaEffects.Manifest(entries, |old(entries)|, sid, picks)
      ensures !created ==> submissions == old(submissions) && entries == old(entries)
    {
      if sid in submissions { return false; }
      var before := submissions;
      submissions := submissions[sid := Retained];
      var delivered: seq<Entry> := [];
      for i := 0 to |picks|
        invariant delivered == seq(i, j requires 0 <= j < i => Entry(sid, picks[j].0, picks[j].1))
        invariant StillEligible(questions, picks[..i])
        invariant submissions == before[sid := Retained] && entries == old(entries)
      {
        var q := picks[i].0;
        if q !in questions || questions[q].deleted || questions[q].key != Some(picks[i].1) {
          submissions := before;
          assert !StillEligible(questions, picks);
          return false;
        }
        delivered := delivered + [Entry(sid, q, picks[i].1)];
        assert picks[..i + 1] == picks[..i] + [picks[i]];
      }
      assert picks[..|picks|] == picks;
      entries := entries + delivered;
      return true;
    }
  }
}
