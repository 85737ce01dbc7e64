/** The scoring logic and state updates of the evaluation form
    (components/EvaluationForm.tsx): section subtotals, global score and
    level, the single-key score update, the blockage-tag toggle, and record
    construction followed by a reset on submit. */
module EvaluationForm {
  import opened Types
  import opened Constants
  import ScoreInput

  /** Reference sum: the values stored under a list of keys. */
  function SumOver(s: ScoreSets, keys: seq<Criterion>): int {
    if |keys| == 0 then 0 else s.Get(keys[0]) + SumOver(s, keys[1..])
  }

  lemma {:induction false} SumOverAppend(s: ScoreSets, a: seq<Criterion>, b: seq<Criterion>)
    ensures SumOver(s, a + b) == SumOver(s, a) + SumOver(s, b)
  {
    if |a| > 0 {
      assert (a + b)[1..] == a[1..] + b;
      SumOverAppend(s, a[1..], b);
    } else {
      assert a + b == b;
    }
  }

  /** The sum over four keys, written out. */
  lemma SumOverFour(s: ScoreSets, ks: seq<Criterion>)
    requires |ks| == 4
    ensures SumOver(s, ks) == s.Get(ks[0]) + s.Get(ks[1]) + s.Get(ks[2]) + s.Get(ks[3])
  {
    assert SumOver(s, ks[3..]) == s.Get(ks[3]) by {
      assert ks[3..][1..] == [];
    }
    assert SumOver(s, ks[2..]) == s.Get(ks[2]) + SumOver(s, ks[3..]) by {
      assert ks[2..][1..] == ks[3..];
    }
    assert SumOver(s, ks[1..]) == s.Get(ks[1]) + SumOver(s, ks[2..]) by {
      assert ks[1..][1..] == ks[2..];
    }
  }

  /** Every key of every section, section by section. */
  function AllCriteria(): (r: seq<Criterion>)
    ensures |r| == 20
    ensures forall c: Criterion :: c in r
  {
    CriteriaOf(UdemyContent) + CriteriaOf(DigitalTools) + CriteriaOf(IAComprehension)
    + CriteriaOf(TimeManagement) + CriteriaOf(PracticalExercise)
  }

  /** A section's subtotal: the sum of the values of its score record. */
  function Subtotal(s: ScoreSets, cat: Category): int {
    match cat
    case UdemyContent =>
      var u := s.udemyContent; u.access + u.progress + u.comprehension + u.engagement
    case DigitalTools =>
      var d := s.digitalTools; d.identification + d.practice + d.utility + d.autonomy
    case IAComprehension =>
      var a := s.iaComprehension; a.fundamentals + a.legalReasoning + a.criticalThinking + a.methodologicalCaution
    case TimeManagement =>
      var t := s.timeManagement; t.regularity + t.workMethod + t.discipline + t.adjustmentCapacity
    case PracticalExercise =>
      var p := s.practicalExercise; p.problemFormulation + p.promptWriting + p.resultExploitation + p.deliverableOrganization
  }

  /** The global score: the five subtotals added up. */
  function GlobalScore(s: ScoreSets): int {
    Subtotal(s, UdemyContent) + Subtotal(s, DigitalTools) + Subtotal(s, IAComprehension)
    + Subtotal(s, TimeManagement) + Subtotal(s, PracticalExercise)
  }

  /** A section's subtotal is the sum of the values under its four keys. */
  lemma SubtotalIsSumOfCriteria(s: ScoreSets, cat: Category)
    ensures Subtotal(s, cat) == SumOver(s, CriteriaOf(cat))
  {
    SumOverFour(s, CriteriaOf(cat));
  }

  /** The global score is the sum of all twenty criterion values. */
  lemma GlobalScoreIsSumOfAllCriteria(s: ScoreSets)
    ensures GlobalScore(s) == SumOver(s, AllCriteria())
  {
    var u, d, a, t, p := CriteriaOf(UdemyContent), CriteriaOf(DigitalTools),
      CriteriaOf(IAComprehension), CriteriaOf(TimeManagement), CriteriaOf(PracticalExercise);
    SumOverAppend(s, u + d + a + t, p);
    SumOverAppend(s, u + d + a, t);
    SumOverAppend(s, u + d, a);
    SumOverAppend(s, u, d);
    SubtotalIsSumOfCriteria(s, UdemyContent);
    SubtotalIsSumOfCriteria(s, DigitalTools);
    SubtotalIsSumOfCriteria(s, IAComprehension);
    SubtotalIsSumOfCriteria(s, TimeManagement);
    SubtotalIsSumOfCriteria(s, PracticalExercise);
  }

  /** Every value lies between 0 and its criterion's table maximum, as
      every value entered through a score input does. */
  predicate ScoresInRange(s: ScoreSets) {
    forall c: Criterion :: 0 <= s.Get(c) <= CriterionMax(c)
  }

  /** With values in range, a subtotal lies between 0 and the section max. */
  lemma SubtotalBounds(s: ScoreSets, cat: Category)
    requires ScoresInRange(s)
    ensures 0 <= Subtotal(s, cat) <= CategoryMax(cat)
  {
    var ks := CriteriaOf(cat);
    TableMaximaSumToCategoryMax(cat);
    assert 0 <= s.Get(ks[0]) <= CriterionMax(ks[0]);
    assert 0 <= s.Get(ks[1]) <= CriterionMax(ks[1]);
    assert 0 <= s.Get(ks[2]) <= CriterionMax(ks[2]);
    assert 0 <= s.Get(ks[3]) <= CriterionMax(ks[3]);
  }

  /** With values in range, the global score lies in [0, TotalMaxScore]. */
  lemma GlobalScoreBounds(s: ScoreSets)
    requires ScoresInRange(s)
    ensures 0 <= GlobalScore(s) <= TotalMaxScore
  {
    SubtotalBounds(s, UdemyContent);
    SubtotalBounds(s, DigitalTools);
    SubtotalBounds(s, IAComprehension);
    SubtotalBounds(s, TimeManagement);
    SubtotalBounds(s, PracticalExercise);
    CategoryMaximaSumToTotal();
  }

  /** The level of a total, checking the highest band's minimum first. On
      [0, TotalMaxScore] it picks the one band containing the total; below
      0 it gives the lowest level and above the maximum the highest. */
  function Classify(total: int): (level: EvaluationLevel)
    ensures forall l: EvaluationLevel :: ScoreRange(l).Contains(total) ==> l == level
    ensures total < 0 ==> level == AAccompagnerEtroitement
    ensures total > TotalMaxScore ==> level == Autonome
  {
    if total >= AutonomeRange.min then Autonome
    else if total >= EnProgressionRange.min then EnProgression
    else AAccompagnerEtroitement
  }

  /** Every total in [0, TotalMaxScore] lands in a band that contains it. */
  lemma ClassifyInBand(total: int)
    requires 0 <= total <= TotalMaxScore
    ensures ScoreRange(Classify(total)).Contains(total)
  {
  }

  /** Raising the total never lowers the level. */
  lemma ClassifyMonotone(a: int, b: int)
    requires a <= b
    ensures Classify(a).Rank() <= Classify(b).Rank()
  {
  }

  /** The band edges: 0 and 29, 30 and 44, 45 and 60. */
  lemma ClassifyBandEdges()
    ensures Classify(0) == AAccompagnerEtroitement && Classify(29) == AAccompagnerEtroitement
    ensures Classify(30) == EnProgression && Classify(44) == EnProgression
    ensures Classify(45) == Autonome && Classify(60) == Autonome
  {
  }

  /** The form's editable state. The global score and level shown are not
      stored: they are `GlobalScore(scores)` and its `Classify`. */
  datatype FormState = FormState(
    participantInfo: ParticipantInfo,
    scores: ScoreSets,
    difficulties: Difficulties,
    actionPlan: ActionPlan,
    trainerObservations: string)
  {
    function Score(): int { GlobalScore(scores) }
    function Level(): EvaluationLevel { Classify(GlobalScore(scores)) }
  }

  /** The state the form starts in and returns to after a submit; `today`
      is the session date it defaults to. */
  function InitialForm(today: string): (f: FormState)
    ensures forall c: Criterion :: f.scores.Get(c) == 0
    ensures f.difficulties.blockageTypes == [] && f.difficulties.mainBlockage == ""
    ensures f.participantInfo.name == "" && f.participantInfo.trainer == ""
    ensures f.participantInfo.sessionDate == today
    ensures f.trainerObservations == ""
    ensures f.actionPlan.priorityObjective == "" && f.actionPlan.toolToConsolidate == ""
    ensures f.actionPlan.udemyModuleRecommended == "" && f.actionPlan.deliverableExpected == ""
  {
    FormState(
      ParticipantInfo("", today, ""),
      ZeroScores,
      Difficulties([], ""),
      ActionPlan("", "", "", ""),
      "")
  }

  /** With every value zero, as after a reset, the global score is 0 and
      the level the lowest; this is also the form's initial derived state. */
  lemma AllZeroScoresDerive(s: ScoreSets)
    requires forall c: Criterion :: s.Get(c) == 0
    ensures GlobalScore(s) == 0
    ensures Classify(GlobalScore(s)) == AAccompagnerEtroitement
  {
    GlobalScoreIsSumOfAllCriteria(s);
    SumOverZero(s, AllCriteria());
  }

  lemma {:induction false} SumOverZero(s: ScoreSets, keys: seq<Criterion>)
    requires forall c: Criterion :: s.Get(c) == 0
    ensures SumOver(s, keys) == 0
  {
    if |keys| > 0 {
      SumOverZero(s, keys[1..]);
    }
  }

  /** The score sets with one value replaced. */
  function SetScore(s: ScoreSets, key: Criterion, value: int): (r: ScoreSets)
    ensures r.Get(key) == value
    ensures forall c: Criterion :: c != key ==> r.Get(c) == s.Get(c)
    ensures key.Category() != UdemyContent ==> r.udemyContent == s.udemyContent
    ensures key.Category() != DigitalTools ==> r.digitalTools == s.digitalTools
    ensures key.Category() != IAComprehension ==> r.iaComprehension == s.iaComprehension
    ensures key.Category() != TimeManagement ==> r.timeManagement == s.timeManagement
    ensures key.Category() != PracticalExercise ==> r.practicalExercise == s.practicalExercise
  {
    match key
    case Access => s.(udemyContent := s.udemyContent.(access := value))
    case Progress => s.(udemyContent := s.udemyContent.(progress := value))
    case Comprehension => s.(udemyContent := s.udemyContent.(comprehension := value))
    case Engagement => s.(udemyContent := s.udemyContent.(engagement := value))
    case Identification => s.(digitalTools := s.digitalTools.(identification := value))
    case Practice => s.(digitalTools := s.digitalTools.(practice := value))
    case Utility => s.(digitalTools := s.digitalTools.(utility := value))
    case Autonomy => s.(digitalTools := s.digitalTools.(autonomy := value))
    case Fundamentals => s.(iaComprehension := s.iaComprehension.(fundamentals := value))
    case LegalReasoning => s.(iaComprehension := s.iaComprehension.(legalReasoning := value))
    case CriticalThinking => s.(iaComprehension := s.iaComprehension.(criticalThinking := value))
    case MethodologicalCaution => s.(iaComprehension := s.iaComprehension.(methodologicalCaution := value))
    case Regularity => s.(timeManagement := s.timeManagement.(regularity := value))
    case Method => s.(timeManagement := s.timeManagement.(workMethod := value))
    case Discipline => s.(timeManagement := s.timeManagement.(discipline := value))
    case AdjustmentCapacity => s.(timeManagement := s.timeManagement.(adjustmentCapacity := value))
    case ProblemFormulation => s.(practicalExercise := s.practicalExercise.(problemFormulation := value))
    case PromptWriting => s.(practicalExercise := s.practicalExercise.(promptWriting := value))
    case ResultExploitation => s.(practicalExercise := s.practicalExercise.(resultExploitation := value))
    case DeliverableOrganization => s.(practicalExercise := s.practicalExercise.(deliverableOrganization := value))
  }

  /** `handleScoreChange(section, key, value)`: the key's value becomes
      `value`; every other key, every other section and every non-score
      field keep their values, and the global score moves by the change. */
  function ScoreChange(f: FormState, section: Category, key: Criterion, value: int): (g: FormState)
    requires key.Category() == section
    ensures g.scores.Get(key) == value
    ensures forall c: Criterion :: c != key ==> g.scores.Get(c) == f.scores.Get(c)
    ensures section != UdemyContent ==> g.scores.udemyContent == f.scores.udemyContent
    ensures section != DigitalTools ==> g.scores.digitalTools == f.scores.digitalTools
    ensures section != IAComprehension ==> g.scores.iaComprehension == f.scores.iaComprehension
    ensures section != TimeManagement ==> g.scores.timeManagement == f.scores.timeManagement
    ensures section != PracticalExercise ==> g.scores.practicalExercise == f.scores.practicalExercise
    ensures g.participantInfo == f.participantInfo && g.difficulties == f.difficulties
    ensures g.actionPlan == f.actionPlan && g.trainerObservations == f.trainerObservations
    ensures g.Score() == f.Score() - f.scores.Get(key) + value
  {
    SetScoreMovesTotal(f.scores, key, value);
    f.(scores := SetScore(f.scores, key, value))
  }

  /** Replacing one value moves the key's subtotal and the global score by
      the difference and leaves the other subtotals alone. */
  lemma SetScoreMovesTotal(s: ScoreSets, key: Criterion, value: int)
    ensures Subtotal(SetScore(s, key, value), key.Category()) == Subtotal(s, key.Category()) - s.Get(key) + value
    ensures forall cat :: cat != key.Category() ==> Subtotal(SetScore(s, key, value), cat) == Subtotal(s, cat)
    ensures GlobalScore(SetScore(s, key, value)) == GlobalScore(s) - s.Get(key) + value
  {
    var r := SetScore(s, key, value);
    var home := key.Category();
    forall cat | cat != home ensures Subtotal(r, cat) == Subtotal(s, cat) {
      SubtotalOfSameSection(r, s, cat);
    }
    SubtotalOfSection(s, key, value);
  }

  /** Equal records for a section give equal subtotals. */
  lemma SubtotalOfSameSection(r: ScoreSets, s: ScoreSets, cat: Category)
    requires cat == UdemyContent ==> r.udemyContent == s.udemyContent
    requires cat == DigitalTools ==> r.digitalTools == s.digitalTools
    requires cat == IAComprehension ==> r.iaComprehension == s.iaComprehension
    requires cat == TimeManagement ==> r.timeManagement == s.timeManagement
    requires cat == PracticalExercise ==> r.practicalExercise == s.practicalExercise
    ensures Subtotal(r, cat) == Subtotal(s, cat)
  {
  }

  lemma SubtotalOfSection(s: ScoreSets, key: Criterion, value: int)
    ensures Subtotal(SetScore(s, key, value), key.Category()) == Subtotal(s, key.Category()) - s.Get(key) + value
  {
    match key
    case Access =>
    case Progress =>
    case Comprehension =>
    case Engagement =>
    case Identification =>
    case Practice =>
    case Utility =>
    case Autonomy =>
    case Fundamentals =>
    case LegalReasoning =>
    case CriticalThinking =>
    case MethodologicalCaution =>
    case Regularity =>
    case Method =>
    case Discipline =>
    case AdjustmentCapacity =>
    case ProblemFormulation =>
    case PromptWriting =>
    case ResultExploitation =>
    case DeliverableOrganization =>
  }

  /** Typing `raw` into the score input of `key`: the input's handler
      clamps it against the key's table maximum and emits its decimal
      string, which the form parses back and stores. The stored value is
      the clamped one, so scores in range stay in range, and no field
      outside the scores changes. */
  function EnterScore(f: FormState, key: Criterion, raw: string): (g: FormState)
    ensures g.scores.Get(key) == ScoreInput.Clamp(ScoreInput.ParseInt(raw), CriterionMax(key))
    ensures 0 <= g.scores.Get(key) <= CriterionMax(key)
    ensures forall c: Criterion :: c != key ==> g.scores.Get(c) == f.scores.Get(c)
    ensures ScoresInRange(f.scores) ==> ScoresInRange(g.scores)
    ensures g.participantInfo == f.participantInfo && g.difficulties == f.difficulties
    ensures g.actionPlan == f.actionPlan && g.trainerObservations == f.trainerObservations
  {
    var m := CriterionMax(key);
    var emitted := ScoreInput.HandleChange(raw, m);
    var v := ScoreInput.ParseInt(emitted).value;
    assert 0 <= v <= m;
    var g := ScoreChange(f, key.Category(), key, v);
    assert ScoresInRange(f.scores) ==> ScoresInRange(g.scores) by {
      if ScoresInRange(f.scores) {
        forall c: Criterion ensures 0 <= g.scores.Get(c) <= CriterionMax(c) {
          if c != key {
            assert 0 <= f.scores.Get(c) <= CriterionMax(c);
          }
        }
      }
    }
    g
  }

  /** No tag occurs twice. */
  predicate NoDuplicates(tags: seq<BlockageType>) {
    forall i, j :: 0 <= i < j < |tags| ==> tags[i] != tags[j]
  }

  /** `tags.filter(u => u !== t)`. */
  function Without(tags: seq<BlockageType>, t: BlockageType): (r: seq<BlockageType>)
    ensures t !in r
    ensures forall u :: u != t ==> (u in r <==> u in tags)
    ensures NoDuplicates(tags) ==> NoDuplicates(r)
  {
    if |tags| == 0 then []
    else
      var rest := Without(tags[1..], t);
      assert forall u :: u in tags <==> u == tags[0] || u in tags[1..];
      if tags[0] == t then rest
      else
        assert NoDuplicates(tags) ==> tags[0] !in tags[1..] && NoDuplicates(tags[1..]);
        [tags[0]] + rest
  }

  /** In a duplicate-free list, removing a tag removes exactly its one
      position and keeps the others in order. */
  lemma {:induction false} WithoutRemovesPosition(tags: seq<BlockageType>, i: nat)
    requires NoDuplicates(tags) && i < |tags|
    ensures Without(tags, tags[i]) == tags[..i] + tags[i + 1..]
  {
    if i == 0 {
      WithoutAbsent(tags[1..], tags[0]);
    } else {
      WithoutRemovesPosition(tags[1..], i - 1);
      assert tags[1..][i - 1] == tags[i];
      assert tags[..i] == [tags[0]] + tags[1..][..i - 1];
      assert tags[i + 1..] == tags[1..][i..];
    }
  }

  /** Removing an absent tag changes nothing. */
  lemma {:induction false} WithoutAbsent(tags: seq<BlockageType>, t: BlockageType)
    requires t !in tags
    ensures Without(tags, t) == tags
  {
    if |tags| > 0 {
      WithoutAbsent(tags[1..], t);
      assert tags == [tags[0]] + tags[1..];
    }
  }

  /** `handleBlockageTypeChange` on the tag list: a present tag is removed,
      an absent one appended. Membership of `t` flips, every other tag's
      membership is kept, and a duplicate-free list stays duplicate-free. */
  function ToggleBlockage(tags: seq<BlockageType>, t: BlockageType): (r: seq<BlockageType>)
    ensures t in r <==> t !in tags
    ensures forall u :: u != t ==> (u in r <==> u in tags)
    ensures t !in tags ==> r == tags + [t]
    ensures NoDuplicates(tags) ==> NoDuplicates(r)
  {
    if t in tags then Without(tags, t) else tags + [t]
  }

  /** Toggling an absent tag twice restores the list exactly. */
  lemma ToggleTwiceAbsent(tags: seq<BlockageType>, t: BlockageType)
    requires t !in tags
    ensures ToggleBlockage(ToggleBlockage(tags, t), t) == tags
  {
    var once := tags + [t];
    assert once[|tags|] == t;
    assert once[..|tags|] == tags;
    if NoDuplicates(tags) {
      assert NoDuplicates(once);
      WithoutRemovesPosition(once, |tags|);
    } else {
      AppendWithout(tags, t);
    }
  }

  lemma {:induction false} AppendWithout(tags: seq<BlockageType>, t: BlockageType)
    requires t !in tags
    ensures Without(tags + [t], t) == tags
  {
    if |tags| == 0 {
      assert [] + [t] == [t];
      assert [t][1..] == [];
    } else {
      assert (tags + [t])[1..] == tags[1..] + [t];
      AppendWithout(tags[1..], t);
      assert tags == [tags[0]] + tags[1..];
    }
  }

  /** Toggling a present tag twice keeps the same tags (as a multiset) but
      moves `t` to the end, so the list is restored exactly only when `t`
      was already last. */
  lemma ToggleTwicePresent(tags: seq<BlockageType>, i: nat)
    requires NoDuplicates(tags) && i < |tags|
    ensures ToggleBlockage(ToggleBlockage(tags, tags[i]), tags[i]) == tags[..i] + tags[i + 1..] + [tags[i]]
    ensures multiset(ToggleBlockage(ToggleBlockage(tags, tags[i]), tags[i])) == multiset(tags)
    ensures i == |tags| - 1 ==> ToggleBlockage(ToggleBlockage(tags, tags[i]), tags[i]) == tags
  {
    var t := tags[i];
    assert t in tags;
    WithoutRemovesPosition(tags, i);
    var once := Without(tags, t);
    assert ToggleBlockage(once, t) == once + [t];
    assert tags == tags[..i] + [t] + tags[i + 1..];
    calc {
      multiset(once + [t]);
      multiset(tags[..i]) + multiset(tags[i + 1..]) + multiset{t};
      multiset(tags[..i] + [t] + tags[i + 1..]);
    }
    if i == |tags| - 1 {
      assert tags[i + 1..] == [];
      assert tags[..i] + [t] == tags;
    }
  }

  /** Toggling a tag that is not last twice reorders the list. */
  lemma ToggleTwiceReorders()
    ensures ToggleBlockage(ToggleBlockage([Technique, Conceptuel], Technique), Technique)
         == [Conceptuel, Technique]
  {
    WithoutRemovesPosition([Technique, Conceptuel], 0);
    assert [Technique, Conceptuel][1..] == [Conceptuel];
  }

  /** The form-level blockage toggle: only the tag list changes. */
  function BlockageTypeChange(f: FormState, t: BlockageType): (g: FormState)
    ensures g.difficulties.blockageTypes == ToggleBlockage(f.difficulties.blockageTypes, t)
    ensures g.difficulties.mainBlockage == f.difficulties.mainBlockage
    ensures g.scores == f.scores && g.participantInfo == f.participantInfo
    ensures g.actionPlan == f.actionPlan && g.trainerObservations == f.trainerObservations
  {
    f.(difficulties := f.difficulties.(blockageTypes := ToggleBlockage(f.difficulties.blockageTypes, t)))
  }

  /** What the form keeps true of its state: values in range and no tag
      twice. */
  predicate FormInvariant(f: FormState) {
    ScoresInRange(f.scores) && NoDuplicates(f.difficulties.blockageTypes)
  }

  /** The form starts in a state satisfying its invariant. */
  lemma InitialFormInvariant(today: string)
    ensures FormInvariant(InitialForm(today))
  {
    var z := InitialForm(today);
    forall c: Criterion ensures 0 <= z.scores.Get(c) <= CriterionMax(c) {
    }
  }

  /** Every user action through the form's inputs preserves the invariant. */
  lemma FormActionsPreserveInvariant(f: FormState, key: Criterion, raw: string, t: BlockageType)
    requires FormInvariant(f)
    ensures FormInvariant(EnterScore(f, key, raw))
    ensures FormInvariant(BlockageTypeChange(f, t))
  {
  }

  /** A record's stored global score and level are the ones derived from
      its own score sets. */
  predicate Consistent(r: EvaluationRecord) {
    r.globalScore == GlobalScore(r.Scores()) && r.levelReached == Classify(r.globalScore)
  }

  datatype Submission = Submission(record: EvaluationRecord, next: FormState)

  /** `handleSubmit`: the record built from the current state, with the
      id and submission time supplied by the caller, and the reset state
      the form continues with. */
  function Submit(f: FormState, id: string, submittedAt: int, today: string): (s: Submission)
    ensures Consistent(s.record)
    ensures s.record.Scores() == f.scores
    ensures s.record.globalScore == f.Score() && s.record.levelReached == f.Level()
    ensures s.record.participantInfo == f.participantInfo && s.record.difficulties == f.difficulties
    ensures s.record.actionPlan == f.actionPlan && s.record.trainerObservations == f.trainerObservations
    ensures s.record.id == id && s.record.submissionDate == submittedAt
    ensures s.next == InitialForm(today)
  {
    var record := EvaluationRecord(
      id,
      f.participantInfo,
      f.scores.udemyContent,
      f.scores.digitalTools,
      f.scores.iaComprehension,
      f.scores.timeManagement,
      f.difficulties,
      f.scores.practicalExercise,
      f.Score(),
      f.Level(),
      f.actionPlan,
      f.trainerObservations,
      submittedAt);
    Submission(record, InitialForm(today))
  }

  /** A record submitted from a state the form maintains has its global
      score in [0, TotalMaxScore], a level whose band contains it, and no
      tag twice. */
  lemma SubmittedRecordWellFormed(f: FormState, id: string, submittedAt: int, today: string)
    requires FormInvariant(f)
    ensures var r := Submit(f, id, submittedAt, today).record;
      0 <= r.globalScore <= TotalMaxScore
      && ScoreRange(r.levelReached).Contains(r.globalScore)
      && NoDuplicates(r.difficulties.blockageTypes)
  {
    GlobalScoreBounds(f.scores);
    ClassifyInBand(f.Score());
  }

}
