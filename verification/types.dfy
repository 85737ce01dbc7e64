/** The closed enumerations and record shapes of the evaluation data model
    (types.ts), plus the criterion keys that name the score fields. */
module Types {

  /** The five blockage tags a trainer can attach to an evaluation, in
      declaration order. */
  datatype BlockageType = Technique | Methodologique | Conceptuel | Organisationnel | Motivation
  {
    /** The string value of the enum member, as stored in a record. */
    function Label(): string {
      match this
      case Technique => "Technique"
      case Methodologique => "Méthodologique"
      case Conceptuel => "Conceptuel"
      case Organisationnel => "Organisationnel"
      case Motivation => "Motivation / projection professionnelle"
    }
  }

  /** Every blockage tag exactly once, in declaration order (the order in
      which `Object.values` enumerates the enum). */
  function AllBlockageTypes(): (r: seq<BlockageType>)
    ensures |r| == 5
    ensures forall t: BlockageType :: t in r
    ensures forall i, j :: 0 <= i < j < |r| ==> r[i].Label() != r[j].Label()
    ensures r[0].Label() == "Technique" && r[1].Label() == "Méthodologique"
    ensures r[2].Label() == "Conceptuel" && r[3].Label() == "Organisationnel"
    ensures r[4].Label() == "Motivation / projection professionnelle"
  {
    var r := [Technique, Methodologique, Conceptuel, Organisationnel, Motivation];
    forall t: BlockageType ensures t in r {
      if t.Technique? { assert t == r[0]; }
      else if t.Methodologique? { assert t == r[1]; }
      else if t.Conceptuel? { assert t == r[2]; }
      else if t.Organisationnel? { assert t == r[3]; }
      else { assert t == r[4]; }
    }
    r
  }

  /** The three qualitative levels, highest first. */
  datatype EvaluationLevel = Autonome | EnProgression | AAccompagnerEtroitement
  {
    function Label(): string {
      match this
      case Autonome => "Autonome"
      case EnProgression => "En progression"
      case AAccompagnerEtroitement => "À accompagner étroitement"
    }

    /** Position on the scale, lowest level 0. */
    function Rank(): nat {
      match this
      case AAccompagnerEtroitement => 0
      case EnProgression => 1
      case Autonome => 2
    }
  }

  /** Every level exactly once, in declaration order. */
  function AllLevels(): (r: seq<EvaluationLevel>)
    ensures |r| == 3
    ensures forall l: EvaluationLevel :: l in r
    ensures forall i, j :: 0 <= i < j < |r| ==> r[i].Label() != r[j].Label()
    ensures r[0].Label() == "Autonome" && r[1].Label() == "En progression"
    ensures r[2].Label() == "À accompagner étroitement"
  {
    var r := [Autonome, EnProgression, AAccompagnerEtroitement];
    forall l: EvaluationLevel ensures l in r {
      if l.Autonome? { assert l == r[0]; }
      else if l.EnProgression? { assert l == r[1]; }
      else { assert l == r[2]; }
    }
    r
  }

  /** The five score sections of a record, named as the record fields. */
  datatype Category = UdemyContent | DigitalTools | IAComprehension | TimeManagement | PracticalExercise

  /** The sections in the fixed order the form and the dashboard use. */
  const AllCategories: seq<Category> :=
    [UdemyContent, DigitalTools, IAComprehension, TimeManagement, PracticalExercise]

  /** One scored field of one section: the twenty keys of the five score
      interfaces. */
  datatype Criterion =
    | Access | Progress | Comprehension | Engagement
    | Identification | Practice | Utility | Autonomy
    | Fundamentals | LegalReasoning | CriticalThinking | MethodologicalCaution
    | Regularity | Method | Discipline | AdjustmentCapacity
    | ProblemFormulation | PromptWriting | ResultExploitation | DeliverableOrganization
  {
    /** The section whose interface declares this key. */
    function Category(): Category {
      match this
      case Access | Progress | Comprehension | Engagement => UdemyContent
      case Identification | Practice | Utility | Autonomy => DigitalTools
      case Fundamentals | LegalReasoning | CriticalThinking | MethodologicalCaution => IAComprehension
      case Regularity | Method | Discipline | AdjustmentCapacity => TimeManagement
      case ProblemFormulation | PromptWriting | ResultExploitation | DeliverableOrganization => PracticalExercise
    }

    /** Position of the key among its interface's four fields. */
    function Index(): nat {
      match this
      case Access | Identification | Fundamentals | Regularity | ProblemFormulation => 0
      case Progress | Practice | LegalReasoning | Method | PromptWriting => 1
      case Comprehension | Utility | CriticalThinking | Discipline | ResultExploitation => 2
      case Engagement | Autonomy | MethodologicalCaution | AdjustmentCapacity | DeliverableOrganization => 3
    }

    /** The property name of the key in the score interface. */
    function KeyName(): string {
      match this
      case Access => "access"
      case Progress => "progress"
      case Comprehension => "comprehension"
      case Engagement => "engagement"
      case Identification => "identification"
      case Practice => "practice"
      case Utility => "utility"
      case Autonomy => "autonomy"
      case Fundamentals => "fundamentals"
      case LegalReasoning => "legalReasoning"
      case CriticalThinking => "criticalThinking"
      case MethodologicalCaution => "methodologicalCaution"
      case Regularity => "regularity"
      case Method => "method"
      case Discipline => "discipline"
      case AdjustmentCapacity => "adjustmentCapacity"
      case ProblemFormulation => "problemFormulation"
      case PromptWriting => "promptWriting"
      case ResultExploitation => "resultExploitation"
      case DeliverableOrganization => "deliverableOrganization"
    }
  }

  /** The four keys of a section's interface, in declaration order. */
  function CriteriaOf(cat: Category): (r: seq<Criterion>)
    ensures |r| == 4
    ensures forall i :: 0 <= i < 4 ==> r[i].Category() == cat && r[i].Index() == i
    ensures forall c: Criterion :: c in r <==> c.Category() == cat
  {
    match cat
    case UdemyContent => [Access, Progress, Comprehension, Engagement]
    case DigitalTools => [Identification, Practice, Utility, Autonomy]
    case IAComprehension => [Fundamentals, LegalReasoning, CriticalThinking, MethodologicalCaution]
    case TimeManagement => [Regularity, Method, Discipline, AdjustmentCapacity]
    case PracticalExercise => [ProblemFormulation, PromptWriting, ResultExploitation, DeliverableOrganization]
  }

  datatype ParticipantInfo = ParticipantInfo(name: string, sessionDate: string, trainer: string)

  /** The five four-field score records. Scores are whole numbers here;
      the source's `number` is only ever assigned parsed integers. */
  datatype UdemyContentScores = UdemyContentScores(access: int, progress: int, comprehension: int, engagement: int)
  datatype DigitalToolsScores = DigitalToolsScores(identification: int, practice: int, utility: int, autonomy: int)
  datatype IAScores = IAScores(fundamentals: int, legalReasoning: int, criticalThinking: int, methodologicalCaution: int)
  /** `workMethod` is the source's `method` field (a reserved word here). */
  datatype TimeManagementScores = TimeManagementScores(regularity: int, workMethod: int, discipline: int, adjustmentCapacity: int)
  datatype PracticalExerciseScores = PracticalExerciseScores(problemFormulation: int, promptWriting: int, resultExploitation: int, deliverableOrganization: int)

  /** The five score records side by side, as the form holds them. */
  datatype ScoreSets = ScoreSets(
    udemyContent: UdemyContentScores,
    digitalTools: DigitalToolsScores,
    iaComprehension: IAScores,
    timeManagement: TimeManagementScores,
    practicalExercise: PracticalExerciseScores)
  {
    /** The value stored under one key. */
    function Get(c: Criterion): int {
      match c
      case Access => udemyContent.access
      case Progress => udemyContent.progress
      case Comprehension => udemyContent.comprehension
      case Engagement => udemyContent.engagement
      case Identification => digitalTools.identification
      case Practice => digitalTools.practice
      case Utility => digitalTools.utility
      case Autonomy => digitalTools.autonomy
      case Fundamentals => iaComprehension.fundamentals
      case LegalReasoning => iaComprehension.legalReasoning
      case CriticalThinking => iaComprehension.criticalThinking
      case MethodologicalCaution => iaComprehension.methodologicalCaution
      case Regularity => timeManagement.regularity
      case Method => timeManagement.workMethod
      case Discipline => timeManagement.discipline
      case AdjustmentCapacity => timeManagement.adjustmentCapacity
      case ProblemFormulation => practicalExercise.problemFormulation
      case PromptWriting => practicalExercise.promptWriting
      case ResultExploitation => practicalExercise.resultExploitation
      case DeliverableOrganization => practicalExercise.deliverableOrganization
    }
  }

  /** Every score zero: the form's initial and post-submit scores. */
  const ZeroScores: ScoreSets := ScoreSets(
    UdemyContentScores(0, 0, 0, 0),
    DigitalToolsScores(0, 0, 0, 0),
    IAScores(0, 0, 0, 0),
    TimeManagementScores(0, 0, 0, 0),
    PracticalExerciseScores(0, 0, 0, 0))

  datatype Difficulties = Difficulties(blockageTypes: seq<BlockageType>, mainBlockage: string)

  datatype ActionPlan = ActionPlan(
    priorityObjective: string,
    toolToConsolidate: string,
    udemyModuleRecommended: string,
    deliverableExpected: string)

  /** One submitted evaluation. `globalScore` and `levelReached` are stored
      next to the score sets they were derived from; `submissionDate` is an
      abstract timestamp (larger is later). */
  datatype EvaluationRecord = EvaluationRecord(
    id: string,
    participantInfo: ParticipantInfo,
    udemyContent: UdemyContentScores,
    digitalTools: DigitalToolsScores,
    iaComprehension: IAScores,
    timeManagement: TimeManagementScores,
    difficulties: Difficulties,
    practicalExercise: PracticalExerciseScores,
    globalScore: int,
    levelReached: EvaluationLevel,
    actionPlan: ActionPlan,
    trainerObservations: string,
    submissionDate: int)
  {
    /** The record's five score sets. */
    function Scores(): ScoreSets {
      ScoreSets(udemyContent, digitalTools, iaComprehension, timeManagement, practicalExercise)
    }
  }

  /** Every key of every section appears exactly once, at its own index. */
  lemma CriteriaPartitionKeys(c: Criterion)
    ensures CriteriaOf(c.Category())[c.Index()] == c
    ensures forall cat :: c in CriteriaOf(cat) <==> cat == c.Category()
  {
  }

  /** Within a section the four property names are distinct. */
  lemma SectionKeyNamesDistinct(cat: Category)
    ensures forall i, j :: 0 <= i < j < 4 ==> CriteriaOf(cat)[i].KeyName() != CriteriaOf(cat)[j].KeyName()
  {
  }
}
