/** Which Test Set a new Assessment is delivered from. */
module TestSetSelection {
  import opened Options

  type QuestionId = nat
  type TestSetId = nat

  /** An eligible Question of one slot. */
  datatype Candidate = Candidate(question: QuestionId, testSet: TestSetId)

  /** The eligible Questions of every slot, each slot's list ordered by id. */
  type Bank = seq<seq<Candidate>>

  /** Without an index into the deliverable sets, the assessment is unavailable for the listed slots. */
  datatype Selection = Unavailable(failedSlots: seq<nat>) | Selected(testSet: TestSetId, picks: seq<Candidate>)

  /** A Test Set's Question in one slot; of several the last one counts. */
  function QuestionOf(candidates: seq<Candidate>, ts: TestSetId): (pick: Option<Candidate>)
    ensures pick.Some? ==> pick.value in candidates && pick.value.testSet == ts
    ensures pick.None? ==> forall c :: c in candidates ==> c.testSet != ts
  {
    if candidates == [] then None
    else
      var last := candidates[|candidates| - 1];
      if last.testSet == ts then Some(last) else QuestionOf(candidates[..|candidates| - 1], ts)
  }

  predicate Deliverable(bank: Bank, ts: TestSetId) {
    forall i :: 0 <= i < |bank| ==> QuestionOf(bank[i], ts).Some?
  }

  /** The Test Sets with a Question in the first slot that have one in every slot. */
  function DeliverableSets(bank: Bank): set<TestSetId>
    requires bank != []
  {
    set c | c in bank[0] && Deliverable(bank, c.testSet) :: c.testSet
  }

  function EmptySlots(bank: Bank, from: nat): seq<nat>
    requires from <= |bank|
    decreases |bank| - from
  {
    if from == |bank| then [] else (if bank[from] == [] then [from] else []) + EmptySlots(bank, from + 1)
  }

  function AllSlots(bank: Bank): seq<nat> {
    seq(|bank|, i => i)
  }

  /** `choice` is the randomly chosen deliverable set. */
  function Select(bank: Bank, choice: TestSetId): Selection
    requires bank != []
    requires DeliverableSets(bank) != {} ==> choice in DeliverableSets(bank)
  {
    if EmptySlots(bank, 0) != [] then Unavailable(EmptySlots(bank, 0))
    else if DeliverableSets(bank) == {} then Unavailable(AllSlots(bank))
    else
      assert Deliverable(bank, choice);
      Selected(choice, seq(|bank|, i requires 0 <= i < |bank| => QuestionOf(bank[i], choice).value))
  }

  lemma {:induction false} EmptySlotsAre(bank: Bank, from: nat)
    requires from <= |bank|
    ensures forall i :: i in EmptySlots(bank, from) <==> from <= i < |bank| && bank[i] == []
    decreases |bank| - from
  {
    if from < |bank| { EmptySlotsAre(bank, from + 1); }
  }

  predicate Offers(candidates: seq<Candidate>, ts: TestSetId) {
    exists c :: c in candidates && c.testSet == ts
  }

  lemma QuestionOfMeans(candidates: seq<Candidate>, ts: TestSetId)
    ensures QuestionOf(candidates, ts).Some? <==> Offers(candidates, ts)
  {
    if QuestionOf(candidates, ts).Some? {
      assert QuestionOf(candidates, ts).value in candidates;
    }
  }

  /** A Test Set is deliverable exactly when it has an eligible Question in every slot. */
  lemma DeliverableMeans(bank: Bank, ts: TestSetId)
    requires bank != []
    ensures ts in DeliverableSets(bank) <==> forall i :: 0 <= i < |bank| ==> Offers(bank[i], ts)
  {
    forall i | 0 <= i < |bank|
      ensures QuestionOf(bank[i], ts).Some? <==> Offers(bank[i], ts)
    {
      QuestionOfMeans(bank[i], ts);
    }
    assert Offers(bank[0], ts) && Deliverable(bank, ts) ==> ts in DeliverableSets(bank);
    assert ts in DeliverableSets(bank) ==> Deliverable(bank, ts);
  }

  /** One Question per slot, all of one Test Set, never mixed; unavailable exactly when no Test Set fills every slot. */
  lemma SelectionIsOneTestSet(bank: Bank, choice: TestSetId)
    requires bank != []
    requires DeliverableSets(bank) != {} ==> choice in DeliverableSets(bank)
    ensures var s := Select(bank, choice);
            && (s.Selected? <==> DeliverableSets(bank) != {})
            && (s.Selected? ==>
                  && s.testSet == choice && |s.picks| == |bank|
                  && forall i :: 0 <= i < |bank| ==> s.picks[i] in bank[i] && s.picks[i].testSet == choice)
  {
    EmptySlotsAre(bank, 0);
    if DeliverableSets(bank) != {} {
      DeliverableMeans(bank, choice);
      assert forall i :: 0 <= i < |bank| ==> Offers(bank[i], choice);
      SomeListed(EmptySlots(bank, 0));
    }
  }

  lemma SomeListed(slots: seq<nat>)
    ensures slots != [] ==> exists i :: i in slots
  {
    if slots != [] { assert slots[0] in slots; }
  }
}
