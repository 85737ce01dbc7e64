/** The aggregations the dashboard draws from the collection of records
    (components/Dashboard.tsx): per-section averages, the level
    distribution, blockage-tag frequencies, the expand/collapse toggle of
    the detail view, and the newest-first display order. */
module Dashboard {
  import opened Wrappers
  import opened Types
  import opened Constants
  import opened EvaluationForm

  /** `toggleExpand(id)`: collapse when `id` is the expanded record,
      otherwise expand `id` (closing any other). */
  function ToggleExpand(expanded: Option<string>, id: string): (r: Option<string>)
    ensures r == None <==> expanded == Some(id)
    ensures r != None ==> r == Some(id)
  {
    if expanded == Some(id) then None else Some(id)
  }

  /** Pressing the same record's button twice restores the previous state
      exactly when nothing or that record was expanded; with another record
      expanded, the second press collapses everything. */
  lemma ToggleExpandTwice(expanded: Option<string>, id: string)
    ensures ToggleExpand(ToggleExpand(expanded, id), id) == expanded
        <==> expanded == None || expanded == Some(id)
  {
  }

  /** The chart name of a section. */
  function CategoryName(cat: Category): string {
    match cat
    case UdemyContent => "Udemy Content"
    case DigitalTools => "Digital Tools"
    case IAComprehension => "IA Comprehension"
    case TimeManagement => "Time Management"
    case PracticalExercise => "Practical Exercise"
  }

  /** Sum of one section's subtotals over all records, recomputed from the
      criterion values (the stored global score is not used). */
  function CategoryTotal(records: seq<EvaluationRecord>, cat: Category): int {
    if |records| == 0 then 0
    else CategoryTotal(records[..|records| - 1], cat) + Subtotal(records[|records| - 1].Scores(), cat)
  }

  /** The total does not depend on the direction of accumulation: taking
      the first record off the front gives the same sum as the loop, which
      adds the records from first to last. */
  lemma {:induction false} CategoryTotalHeadFirst(records: seq<EvaluationRecord>, cat: Category)
    requires |records| > 0
    ensures CategoryTotal(records, cat) == Subtotal(records[0].Scores(), cat) + CategoryTotal(records[1..], cat)
  {
    var n := |records|;
    if n == 1 {
      assert records[..0] == [] && records[1..] == [];
    } else {
      var init := records[..n - 1];
      CategoryTotalHeadFirst(init, cat);
      assert records[1..][..n - 2] == init[1..];
      assert records[1..][n - 2] == records[n - 1];
    }
  }

  datatype CategoryAverage = CategoryAverage(name: string, average: real, max: int)

  /** One bar of the averages chart. */
  function AverageOf(records: seq<EvaluationRecord>, cat: Category): (a: CategoryAverage)
    requires |records| > 0
    ensures a.name == CategoryName(cat) && a.max == CategoryMax(cat)
    ensures a.average * (|records| as real) == CategoryTotal(records, cat) as real
  {
    var n := |records| as real;
    var total := CategoryTotal(records, cat) as real;
    DivisionUndone(total, n);
    CategoryAverage(CategoryName(cat), total / n, CategoryMax(cat))
  }

  lemma DivisionUndone(a: real, n: real)
    requires n > 0.0
    ensures (a / n) * n == a
  {
  }

  /** An exact average of values in [0, m] lies in [0, m]. */
  lemma AverageBetween(avg: real, n: real, total: real, m: real)
    requires n > 0.0 && avg * n == total
    requires 0.0 <= total <= m * n
    ensures 0.0 <= avg <= m
  {
  }

  /** `calculateAverageScores`: nothing for an empty collection; otherwise
      one entry per section in the fixed order, each the section's total
      divided by the number of records, next to the section maximum. */
  function AverageScores(records: seq<EvaluationRecord>): (r: seq<CategoryAverage>)
    ensures |records| == 0 <==> r == []
    ensures |records| > 0 ==> |r| == 5
    ensures |records| > 0 ==> forall i :: 0 <= i < |r| ==>
      && r[i].name == CategoryName(AllCategories[i])
      && r[i].max == CategoryMax(AllCategories[i])
      && r[i].average * (|records| as real) == CategoryTotal(records, AllCategories[i]) as real
  {
    if |records| == 0 then []
    else seq(5, i requires 0 <= i < 5 => AverageOf(records, AllCategories[i]))
  }

  /** With all values in range, a section total over n records lies in
      [0, n * section maximum]. */
  lemma {:induction false} CategoryTotalBounds(records: seq<EvaluationRecord>, cat: Category)
    requires forall k :: 0 <= k < |records| ==> ScoresInRange(records[k].Scores())
    ensures 0 <= CategoryTotal(records, cat) <= |records| * CategoryMax(cat)
  {
    if |records| > 0 {
      var last := records[|records| - 1];
      CategoryTotalBounds(records[..|records| - 1], cat);
      SubtotalBounds(last.Scores(), cat);
    }
  }

  /** With all values in range, each section's average lies in [0, its maximum]. */
  lemma AverageWithinMax(records: seq<EvaluationRecord>, cat: Category)
    requires forall k :: 0 <= k < |records| ==> ScoresInRange(records[k].Scores())
    requires |records| > 0
    ensures 0.0 <= AverageOf(records, cat).average <= CategoryMax(cat) as real
  {
    var n := |records| as real;
    CategoryTotalBounds(records, cat);
    assert (|records| * CategoryMax(cat)) as real == (CategoryMax(cat) as real) * n;
    AverageBetween(AverageOf(records, cat).average, n, CategoryTotal(records, cat) as real, CategoryMax(cat) as real);
  }

  /** Records that agree on their score sets give the same averages,
      whatever global scores and levels they store. */
  lemma {:induction false} AveragesIgnoreStoredScores(a: seq<EvaluationRecord>, b: seq<EvaluationRecord>)
    requires |a| == |b|
    requires forall k :: 0 <= k < |a| ==> a[k].Scores() == b[k].Scores()
    ensures AverageScores(a) == AverageScores(b)
  {
    forall cat: Category ensures CategoryTotal(a, cat) == CategoryTotal(b, cat) {
      SameScoresSameTotal(a, b, cat);
    }
  }

  lemma {:induction false} SameScoresSameTotal(a: seq<EvaluationRecord>, b: seq<EvaluationRecord>, cat: Category)
    requires |a| == |b|
    requires forall k :: 0 <= k < |a| ==> a[k].Scores() == b[k].Scores()
    ensures CategoryTotal(a, cat) == CategoryTotal(b, cat)
  {
    if |a| > 0 {
      SameScoresSameTotal(a[..|a| - 1], b[..|b| - 1], cat);
    }
  }

  /** The number of records at a level. */
  function CountLevel(records: seq<EvaluationRecord>, level: EvaluationLevel): nat {
    if |records| == 0 then 0
    else CountLevel(records[..|records| - 1], level)
         + (if records[|records| - 1].levelReached == level then 1 else 0)
  }

  /** Every record is counted at exactly one level. */
  lemma {:induction false} LevelCountsSumToSize(records: seq<EvaluationRecord>)
    ensures CountLevel(records, Autonome) + CountLevel(records, EnProgression)
          + CountLevel(records, AAccompagnerEtroitement) == |records|
  {
    if |records| > 0 {
      LevelCountsSumToSize(records[..|records| - 1]);
    }
  }

  /** No record is counted twice and none at a level it is not stored at:
      the count is 0 exactly when no record has the level, and the number of
      records exactly when all of them have it. */
  lemma {:induction false} CountLevelExtremes(records: seq<EvaluationRecord>, level: EvaluationLevel)
    ensures CountLevel(records, level) <= |records|
    ensures CountLevel(records, level) == 0 <==> forall k :: 0 <= k < |records| ==> records[k].levelReached != level
    ensures CountLevel(records, level) == |records| <==> forall k :: 0 <= k < |records| ==> records[k].levelReached == level
  {
    if |records| > 0 {
      var init := records[..|records| - 1];
      CountLevelExtremes(init, level);
      assert forall k :: 0 <= k < |init| ==> init[k] == records[k];
    }
  }

  datatype NamedCount = NamedCount(name: string, value: nat)

  /** `calculateLevelDistribution`: nothing for an empty collection;
      otherwise one entry per level in declaration order, each the number
      of records whose stored level it is. */
  method LevelDistribution(records: seq<EvaluationRecord>) returns (r: seq<NamedCount>)
    ensures |records| == 0 ==> r == []
    ensures |records| > 0 ==> |r| == 3
    ensures |records| > 0 ==> forall i :: 0 <= i < |r| ==>
      r[i].name == AllLevels()[i].Label() && r[i].value == CountLevel(records, AllLevels()[i])
  {
    if |records| == 0 {
      return [];
    }
    var distribution: map<EvaluationLevel, nat> :=
      map[Autonome := 0, EnProgression := 0, AAccompagnerEtroitement := 0];
    var k := 0;
    assert records[..0] == [];
    forall l: EvaluationLevel ensures l in distribution && distribution[l] == CountLevel(records[..0], l) {
      if l.Autonome? {} else if l.EnProgression? {} else {}
    }
    while k < |records|
      invariant 0 <= k <= |records|
      invariant forall l: EvaluationLevel :: l in distribution && distribution[l] == CountLevel(records[..k], l)
    {
      assert records[..k + 1][..k] == records[..k];
      var level := records[k].levelReached;
      distribution := distribution[level := distribution[level] + 1];
      k := k + 1;
    }
    assert records[..k] == records;
    var levels := AllLevels();
    r := [ NamedCount(levels[0].Label(), distribution[levels[0]]),
           NamedCount(levels[1].Label(), distribution[levels[1]]),
           NamedCount(levels[2].Label(), distribution[levels[2]]) ];
  }

  /** The number of times a tag occurs in a list. */
  function Occurrences(tags: seq<BlockageType>, t: BlockageType): nat {
    if |tags| == 0 then 0
    else Occurrences(tags[..|tags| - 1], t) + (if tags[|tags| - 1] == t then 1 else 0)
  }

  /** The number of times a tag occurs over all records' lists. */
  function TagFrequency(records: seq<EvaluationRecord>, t: BlockageType): nat {
    if |records| == 0 then 0
    else TagFrequency(records[..|records| - 1], t)
         + Occurrences(records[|records| - 1].difficulties.blockageTypes, t)
  }

  /** A tag occurs no more often than the list is long, and never exactly
      when it is absent. */
  lemma {:induction false} OccurrencesZeroIffAbsent(tags: seq<BlockageType>, t: BlockageType)
    ensures Occurrences(tags, t) <= |tags|
    ensures Occurrences(tags, t) == 0 <==> t !in tags
  {
    if |tags| > 0 {
      var init := tags[..|tags| - 1];
      OccurrencesZeroIffAbsent(init, t);
      assert tags == init + [tags[|tags| - 1]];
    }
  }

  /** A tag's frequency is 0 exactly when no record's list holds it. */
  lemma {:induction false} TagFrequencyZeroIffUntagged(records: seq<EvaluationRecord>, t: BlockageType)
    ensures TagFrequency(records, t) == 0 <==> forall k :: 0 <= k < |records| ==> t !in records[k].difficulties.blockageTypes
  {
    if |records| > 0 {
      var init := records[..|records| - 1];
      TagFrequencyZeroIffUntagged(init, t);
      OccurrencesZeroIffAbsent(records[|records| - 1].difficulties.blockageTypes, t);
      assert forall k :: 0 <= k < |init| ==> init[k] == records[k];
    }
  }

  /** `calculateBlockageFrequency`: nothing for an empty collection;
      otherwise one entry per tag in declaration order, each counting every
      occurrence of the tag in every record's list. */
  method BlockageFrequency(records: seq<EvaluationRecord>) returns (r: seq<NamedCount>)
    ensures |records| == 0 ==> r == []
    ensures |records| > 0 ==> |r| == 5
    ensures |records| > 0 ==> forall i :: 0 <= i < |r| ==>
      r[i].name == AllBlockageTypes()[i].Label() && r[i].value == TagFrequency(records, AllBlockageTypes()[i])
  {
    if |records| == 0 {
      return [];
    }
    var frequency: map<BlockageType, nat> :=
      map[Technique := 0, Methodologique := 0, Conceptuel := 0, Organisationnel := 0, Motivation := 0];
    var k := 0;
    assert records[..0] == [];
    forall t: BlockageType ensures t in frequency && frequency[t] == TagFrequency(records[..0], t) {
      if t.Technique? {} else if t.Methodologique? {} else if t.Conceptuel? {}
      else if t.Organisationnel? {} else {}
    }
    while k < |records|
      invariant 0 <= k <= |records|
      invariant forall t: BlockageType :: t in frequency && frequency[t] == TagFrequency(records[..k], t)
    {
      frequency := CountTags(frequency, records[k].difficulties.blockageTypes);
      assert records[..k + 1][..k] == records[..k];
      k := k + 1;
    }
    assert records[..k] == records;
    var types := AllBlockageTypes();
    r := seq(5, i requires 0 <= i < 5 => NamedCount(types[i].Label(), frequency[types[i]]));
  }

  /** The inner loop of `calculateBlockageFrequency`: one increment per
      occurrence of each tag in one record's list. */
  method CountTags(frequency: map<BlockageType, nat>, tags: seq<BlockageType>) returns (result: map<BlockageType, nat>)
    requires forall t: BlockageType :: t in frequency
    ensures forall t: BlockageType :: t in result && result[t] == frequency[t] + Occurrences(tags, t)
  {
    result := frequency;
    var j := 0;
    assert tags[..0] == [];
    while j < |tags|
      invariant 0 <= j <= |tags|
      invariant forall t: BlockageType :: t in result && result[t] == frequency[t] + Occurrences(tags[..j], t)
    {
      assert tags[..j + 1][..j] == tags[..j];
      result := result[tags[j] := result[tags[j]] + 1];
      j := j + 1;
    }
    assert tags[..j] == tags;
  }

  /** Every tag in a list is one of the five tags. */
  lemma {:induction false} OccurrencesSumToLength(tags: seq<BlockageType>)
    ensures Occurrences(tags, Technique) + Occurrences(tags, Methodologique) + Occurrences(tags, Conceptuel)
          + Occurrences(tags, Organisationnel) + Occurrences(tags, Motivation) == |tags|
  {
    if |tags| > 0 {
      OccurrencesSumToLength(tags[..|tags| - 1]);
    }
  }

  /** The number of tags over all records' lists. */
  function TagCount(records: seq<EvaluationRecord>): nat {
    if |records| == 0 then 0
    else TagCount(records[..|records| - 1]) + |records[|records| - 1].difficulties.blockageTypes|
  }

  /** The five frequencies add up to the total length of the tag lists. */
  lemma {:induction false} FrequenciesSumToTagCount(records: seq<EvaluationRecord>)
    ensures TagFrequency(records, Technique) + TagFrequency(records, Methodologique)
          + TagFrequency(records, Conceptuel) + TagFrequency(records, Organisationnel)
          + TagFrequency(records, Motivation) == TagCount(records)
  {
    if |records| > 0 {
      FrequenciesSumToTagCount(records[..|records| - 1]);
      OccurrencesSumToLength(records[|records| - 1].difficulties.blockageTypes);
    }
  }

  /** The number of records whose list holds a tag. */
  function RecordsTagging(records: seq<EvaluationRecord>, t: BlockageType): nat {
    if |records| == 0 then 0
    else RecordsTagging(records[..|records| - 1], t)
         + (if t in records[|records| - 1].difficulties.blockageTypes then 1 else 0)
  }

  /** In a duplicate-free list a tag occurs once if present, else never. */
  lemma {:induction false} OccurrencesWithoutDuplicates(tags: seq<BlockageType>, t: BlockageType)
    requires NoDuplicates(tags)
    ensures Occurrences(tags, t) == if t in tags then 1 else 0
  {
    if |tags| > 0 {
      var init := tags[..|tags| - 1];
      OccurrencesWithoutDuplicates(init, t);
      assert tags == init + [tags[|tags| - 1]];
      assert tags[|tags| - 1] !in init;
    }
  }

  /** When every list is duplicate-free, as the form keeps them, counting
      occurrences is the same as counting the records that carry the tag. */
  lemma {:induction false} FrequencyCountsRecordsWhenDuplicateFree(records: seq<EvaluationRecord>, t: BlockageType)
    requires forall k :: 0 <= k < |records| ==> NoDuplicates(records[k].difficulties.blockageTypes)
    ensures TagFrequency(records, t) == RecordsTagging(records, t)
  {
    if |records| > 0 {
      FrequencyCountsRecordsWhenDuplicateFree(records[..|records| - 1], t);
      OccurrencesWithoutDuplicates(records[|records| - 1].difficulties.blockageTypes, t);
    }
  }

  /** A duplicated tag is counted once per occurrence. */
  lemma DuplicateTagCountedTwice(r: EvaluationRecord)
    requires r.difficulties.blockageTypes == [Technique, Technique]
    ensures TagFrequency([r], Technique) == 2
    ensures RecordsTagging([r], Technique) == 1
  {
    var tags := r.difficulties.blockageTypes;
    assert tags[..1] == [Technique];
    assert tags[..1][..0] == [];
    assert Occurrences(tags[..1], Technique) == 1;
    assert Occurrences(tags, Technique) == 2;
    assert [r][..0] == [];
  }

  /** Newest first: submission timestamps never increase along the list. */
  predicate NewestFirst(records: seq<EvaluationRecord>) {
    forall i, j :: 0 <= i < j < |records| ==> records[i].submissionDate >= records[j].submissionDate
  }

  /** Insert a record into a newest-first list before the first record not
      newer than it. */
  function InsertByDate(x: EvaluationRecord, records: seq<EvaluationRecord>): (r: seq<EvaluationRecord>)
    requires NewestFirst(records)
    ensures NewestFirst(r)
    ensures multiset(r) == multiset(records) + multiset{x}
    ensures |r| == |records| + 1
    ensures r[0] == x || (|records| > 0 && r[0] == records[0])
  {
    if |records| == 0 then [x]
    else if x.submissionDate >= records[0].submissionDate then [x] + records
    else
      var rest := InsertByDate(x, records[1..]);
      assert multiset(records) == multiset{records[0]} + multiset(records[1..]) by {
        assert records == [records[0]] + records[1..];
      }
      ConsNewestFirst(records[0], rest);
      [records[0]] + rest
  }

  /** A record no older than the head of a newest-first list can go in front of it. */
  lemma ConsNewestFirst(a: EvaluationRecord, rest: seq<EvaluationRecord>)
    requires NewestFirst(rest)
    requires |rest| > 0 ==> a.submissionDate >= rest[0].submissionDate
    ensures NewestFirst([a] + rest)
  {
  }

  /** The order the record list is displayed in: the records sorted by
      submission timestamp, newest first. */
  function DisplayOrder(records: seq<EvaluationRecord>): (r: seq<EvaluationRecord>)
    ensures NewestFirst(r)
    ensures multiset(r) == multiset(records)
  {
    if |records| == 0 then []
    else
      assert records == [records[0]] + records[1..];
      InsertByDate(records[0], DisplayOrder(records[1..]))
  }

  /** A list already newest first is displayed as it is; in particular
      records with equal times keep their order. */
  lemma {:induction false} DisplayOrderOfSorted(records: seq<EvaluationRecord>)
    requires NewestFirst(records)
    ensures DisplayOrder(records) == records
  {
    if |records| > 0 {
      assert NewestFirst(records[1..]);
      DisplayOrderOfSorted(records[1..]);
      assert records == [records[0]] + records[1..];
    }
  }

  /** Two records with the same time are displayed in the order given;
      otherwise the newer one comes first. */
  lemma DisplayOrderOfTwo(a: EvaluationRecord, b: EvaluationRecord)
    ensures a.submissionDate >= b.submissionDate ==> DisplayOrder([a, b]) == [a, b]
    ensures a.submissionDate < b.submissionDate ==> DisplayOrder([a, b]) == [b, a]
  {
    assert [a, b][1..] == [b];
    assert [b][1..] == [];
    assert DisplayOrder([b]) == [b];
    if a.submissionDate >= b.submissionDate {
      DisplayOrderOfSorted([a, b]);
    } else {
      assert InsertByDate(a, [b]) == [b] + InsertByDate(a, []);
    }
  }
}
