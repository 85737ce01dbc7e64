/** The static tables of the scoring grid (constants.ts): per-section and
    total maxima, the three level bands, and the five criterion tables. */
module Constants {
  import opened Types

  const MaxScoreUdemyContent: int := 10
  const MaxScoreDigitalTools: int := 10
  const MaxScoreIAComprehension: int := 10
  const MaxScoreTimeManagement: int := 10
  const MaxScorePracticalExercise: int := 20
  const TotalMaxScore: int := 60

  /** The maximum subtotal of a section. */
  function CategoryMax(cat: Category): int {
    match cat
    case UdemyContent => MaxScoreUdemyContent
    case DigitalTools => MaxScoreDigitalTools
    case IAComprehension => MaxScoreIAComprehension
    case TimeManagement => MaxScoreTimeManagement
    case PracticalExercise => MaxScorePracticalExercise
  }

  /** An inclusive band of global scores. */
  datatype Range = Range(min: int, max: int) {
    predicate Contains(t: int) {
      min <= t <= max
    }
  }

  /** The three entries of the band table. */
  const AutonomeRange: Range := Range(45, 60)
  const EnProgressionRange: Range := Range(30, 44)
  const AAccompagnerEtroitementRange: Range := Range(0, 29)

  /** The band of global scores each level stands for. */
  function ScoreRange(level: EvaluationLevel): Range {
    match level
    case Autonome => AutonomeRange
    case EnProgression => EnProgressionRange
    case AAccompagnerEtroitement => AAccompagnerEtroitementRange
  }

  /** One row of a criterion table: the label shown (`title`, the source's `label`), the maximum score and
      the key of the score field it edits. */
  datatype CriterionDef = CriterionDef(title: string, max: int, key: string)

  const UdemyContentCriteria: seq<CriterionDef> := [
    CriterionDef("Accès régulier au cours", 2, "access"),
    CriterionDef("Avancement minimal attendu (Sections 1 à 3 entamées)", 3, "progress"),
    CriterionDef("Compréhension globale (Capacité à reformuler les notions clés)", 3, "comprehension"),
    CriterionDef("Engagement personnel (Prise de notes, questions formulées)", 2, "engagement")
  ]

  const DigitalToolsCriteria: seq<CriterionDef> := [
    CriterionDef("Identification des outils (Capacité à nommer ≥ 2 outils)", 2, "identification"),
    CriterionDef("Mise en pratique réelle (Outil testé même partiellement)", 3, "practice"),
    CriterionDef("Compréhension de l’utilité (Usage aligné avec un besoin juridique)", 3, "utility"),
    CriterionDef("Autonomie initiale (Réplication sans assistance)", 2, "autonomy")
  ]

  const IAComprehensionCriteria: seq<CriterionDef> := [
    CriterionDef("Notions fondamentales (IA générative, LLM, prompt)", 3, "fundamentals"),
    CriterionDef("Raisonnement juridique (Logique structurée dans la demande)", 3, "legalReasoning"),
    CriterionDef("Esprit critique (Questionnement des réponses IA)", 2, "criticalThinking"),
    CriterionDef("Prudence méthodologique (Distinction IA / sources juridiques)", 2, "methodologicalCaution")
  ]

  const TimeManagementCriteria: seq<CriterionDef> := [
    CriterionDef("Régularité (Temps hebdomadaire identifié)", 3, "regularity"),
    CriterionDef("Méthode de travail (Créneau dédié, outil de suivi)", 3, "method"),
    CriterionDef("Discipline personnelle (Respect des engagements)", 2, "discipline"),
    CriterionDef("Capacité d’ajustement (Adaptation du rythme)", 2, "adjustmentCapacity")
  ]

  const PracticalExerciseCriteria: seq<CriterionDef> := [
    CriterionDef("Formulation du problème (Question juridique claire)", 5, "problemFormulation"),
    CriterionDef("Rédaction du prompt (Prompt structuré et pertinent)", 5, "promptWriting"),
    CriterionDef("Exploitation du résultat (Lecture critique, tri des informations)", 5, "resultExploitation"),
    CriterionDef("Organisation du livrable (Classement dans un outil)", 5, "deliverableOrganization")
  ]

  /** The criterion table the form renders for a section. */
  function CriteriaTable(cat: Category): seq<CriterionDef> {
    match cat
    case UdemyContent => UdemyContentCriteria
    case DigitalTools => DigitalToolsCriteria
    case IAComprehension => IAComprehensionCriteria
    case TimeManagement => TimeManagementCriteria
    case PracticalExercise => PracticalExerciseCriteria
  }

  /** The sum of the maxima of a table's rows. */
  function TableMaxSum(table: seq<CriterionDef>): int {
    if |table| == 0 then 0 else table[0].max + TableMaxSum(table[1..])
  }

  /** The maximum the score input of one key accepts: the `max` of the
      table row whose key names it. */
  function CriterionMax(c: Criterion): (m: int)
    ensures m > 0
    ensures c.Index() < |CriteriaTable(c.Category())|
    ensures CriteriaTable(c.Category())[c.Index()].key == c.KeyName()
    ensures forall i :: 0 <= i < |CriteriaTable(c.Category())| ==>
      (CriteriaTable(c.Category())[i].key == c.KeyName() ==> m == CriteriaTable(c.Category())[i].max)
  {
    TableKeysMatchFields(c.Category());
    CriteriaTable(c.Category())[c.Index()].max
  }

  /** Each table has four rows whose keys are, in order, the four fields of
      the section's score interface, so its keys are distinct. */
  lemma TableKeysMatchFields(cat: Category)
    ensures |CriteriaTable(cat)| == |CriteriaOf(cat)| == 4
    ensures forall i :: 0 <= i < 4 ==> CriteriaTable(cat)[i].key == CriteriaOf(cat)[i].KeyName()
    ensures forall i, j :: 0 <= i < j < 4 ==> CriteriaTable(cat)[i].key != CriteriaTable(cat)[j].key
  {
    SectionKeyNamesDistinct(cat);
  }

  /** Each table's row maxima add up to the section maximum
      (2+3+3+2, 2+3+3+2, 3+3+2+2, 3+3+2+2 and 5+5+5+5). */
  lemma TableMaximaSumToCategoryMax(cat: Category)
    ensures TableMaxSum(CriteriaTable(cat)) == CategoryMax(cat)
    ensures CriterionMax(CriteriaOf(cat)[0]) + CriterionMax(CriteriaOf(cat)[1])
          + CriterionMax(CriteriaOf(cat)[2]) + CriterionMax(CriteriaOf(cat)[3]) == CategoryMax(cat)
  {
  }

  /** The five section maxima add up to the total maximum. */
  lemma CategoryMaximaSumToTotal()
    ensures CategoryMax(UdemyContent) + CategoryMax(DigitalTools) + CategoryMax(IAComprehension)
          + CategoryMax(TimeManagement) + CategoryMax(PracticalExercise) == TotalMaxScore
  {
  }

  /** The three bands are non-empty, the top one ends at the total maximum,
      and every score in [0, TotalMaxScore] lies in exactly one band while
      no score outside it lies in any. */
  lemma BandsPartitionScoreRange()
    ensures forall l: EvaluationLevel :: ScoreRange(l).min <= ScoreRange(l).max
    ensures ScoreRange(Autonome).max == TotalMaxScore
    ensures forall t :: 0 <= t <= TotalMaxScore ==>
      ScoreRange(Autonome).Contains(t) || ScoreRange(EnProgression).Contains(t)
      || ScoreRange(AAccompagnerEtroitement).Contains(t)
    ensures forall t, l1: EvaluationLevel, l2: EvaluationLevel ::
      ScoreRange(l1).Contains(t) && ScoreRange(l2).Contains(t) ==> l1 == l2
    ensures forall t, l: EvaluationLevel :: ScoreRange(l).Contains(t) ==> 0 <= t <= TotalMaxScore
  {
  }
}
