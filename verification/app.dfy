/** The application shell (App.tsx): the collection of saved records and
    the view currently shown, with the transitions the form and the
    navigation buttons trigger. Persistence to browser storage is not part
    of this model. */
module App {
  import opened Types
  import opened EvaluationForm
  import opened Dashboard

  /** `AppView`: the two screens. */
  datatype View = FormView | DashboardView

  datatype AppState = AppState(evaluations: seq<EvaluationRecord>, currentView: View)

  /** The state on first mount: no records, the form shown. */
  function Initial(): (s: AppState)
    ensures |s.evaluations| == 0
    ensures s.currentView.FormView?
  {
    AppState([], FormView)
  }

  /** `handleSaveEvaluation`: append the record and show the dashboard. */
  function SaveEvaluation(s: AppState, rec: EvaluationRecord): (t: AppState)
    ensures |t.evaluations| == |s.evaluations| + 1
    ensures t.evaluations[..|s.evaluations|] == s.evaluations
    ensures t.evaluations[|s.evaluations|] == rec
    ensures t.currentView == DashboardView
  {
    AppState(s.evaluations + [rec], DashboardView)
  }

  /** `handleCancelForm`: leave the form for the dashboard. */
  function CancelForm(s: AppState): (t: AppState)
    ensures t.evaluations == s.evaluations && t.currentView == DashboardView
  {
    s.(currentView := DashboardView)
  }

  /** `handleBackToForm`: return to the form. */
  function BackToForm(s: AppState): (t: AppState)
    ensures t.evaluations == s.evaluations && t.currentView == FormView
  {
    s.(currentView := FormView)
  }

  /** A navigation button: show the chosen view, whatever is shown now. */
  function Navigate(s: AppState, v: View): (t: AppState)
    ensures t.evaluations == s.evaluations && t.currentView == v
  {
    s.(currentView := v)
  }

  /** Everything that can happen to the shell. */
  datatype Event =
    | Save(record: EvaluationRecord)
    | Cancel
    | Back
    | NavForm
    | NavDashboard

  /** The view an event leads to, whatever the state before it. */
  function ViewAfter(e: Event): View {
    match e
    case Save(_) => DashboardView
    case Cancel => DashboardView
    case Back => FormView
    case NavForm => FormView
    case NavDashboard => DashboardView
  }

  function Step(s: AppState, e: Event): (t: AppState)
    ensures t.currentView == ViewAfter(e)
    ensures e.Save? ==> t.evaluations == s.evaluations + [e.record]
    ensures !e.Save? ==> t.evaluations == s.evaluations
  {
    match e
    case Save(rec) => SaveEvaluation(s, rec)
    case Cancel => CancelForm(s)
    case Back => BackToForm(s)
    case NavForm => Navigate(s, FormView)
    case NavDashboard => Navigate(s, DashboardView)
  }

  /** The state after a sequence of events, applied in order. */
  function Run(s: AppState, events: seq<Event>): AppState {
    if |events| == 0 then s
    else Step(Run(s, events[..|events| - 1]), events[|events| - 1])
  }

  /** The records carried by the save events, in order. */
  function Saved(events: seq<Event>): seq<EvaluationRecord> {
    if |events| == 0 then []
    else
      var last := events[|events| - 1];
      Saved(events[..|events| - 1]) + (if last.Save? then [last.record] else [])
  }

  /** The shell's own transitions only append: after any run the
      collection is the records held before, followed by the saved records
      in the order they were saved. The dashboard's in-place sort of the
      same array while it renders is not one of these transitions. */
  lemma {:induction false} RunAppendsSaved(s: AppState, events: seq<Event>)
    ensures Run(s, events).evaluations == s.evaluations + Saved(events)
  {
    if |events| > 0 {
      var init := events[..|events| - 1];
      RunAppendsSaved(s, init);
      assert s.evaluations + Saved(init) + (if events[|events| - 1].Save? then [events[|events| - 1].record] else [])
          == s.evaluations + Saved(events);
    }
  }

  /** Consequently no transition of the shell loses, edits or reorders an
      earlier record, and a run with no save leaves the collection as it
      was. */
  lemma {:induction false} EarlierRecordsKept(s: AppState, events: seq<Event>)
    ensures |s.evaluations| <= |Run(s, events).evaluations|
    ensures Run(s, events).evaluations[..|s.evaluations|] == s.evaluations
    ensures Saved(events) == [] ==> Run(s, events).evaluations == s.evaluations
  {
    RunAppendsSaved(s, events);
    assert (s.evaluations + Saved(events))[..|s.evaluations|] == s.evaluations;
  }

  /** After a non-empty run the view is the one the last event leads to;
      after an empty run it is unchanged. */
  lemma RunView(s: AppState, events: seq<Event>)
    ensures |events| == 0 ==> Run(s, events).currentView == s.currentView
    ensures |events| > 0 ==> Run(s, events).currentView == ViewAfter(events[|events| - 1])
  {
  }

  /** Every stored record carries the score and level derived from its
      criterion values. */
  predicate AllConsistent(records: seq<EvaluationRecord>) {
    forall k :: 0 <= k < |records| ==> Consistent(records[k])
  }

  /** Saving only records the form produced keeps every stored record
      consistent. */
  lemma {:induction false} RunKeepsConsistent(s: AppState, events: seq<Event>)
    requires AllConsistent(s.evaluations)
    requires forall k :: 0 <= k < |events| && events[k].Save? ==> Consistent(events[k].record)
    ensures AllConsistent(Run(s, events).evaluations)
  {
    if |events| > 0 {
      RunKeepsConsistent(s, events[..|events| - 1]);
    }
  }

  /** Saving the record the form submits keeps the collection consistent. */
  lemma SaveSubmissionKeepsConsistent(s: AppState, f: FormState, id: string, submittedAt: int, today: string)
    requires AllConsistent(s.evaluations)
    ensures AllConsistent(SaveEvaluation(s, Submit(f, id, submittedAt, today).record).evaluations)
  {
  }

  /** The number of records whose criterion values classify at a level. */
  function CountClassified(records: seq<EvaluationRecord>, level: EvaluationLevel): nat {
    if |records| == 0 then 0
    else CountClassified(records[..|records| - 1], level)
         + (if Classify(GlobalScore(records[|records| - 1].Scores())) == level then 1 else 0)
  }

  /** In a consistent collection the level distribution, which reads the
      stored levels, agrees with classifying the criterion values afresh. */
  lemma {:induction false} StoredLevelsAgreeWithScores(records: seq<EvaluationRecord>, level: EvaluationLevel)
    requires AllConsistent(records)
    ensures CountLevel(records, level) == CountClassified(records, level)
  {
    if |records| > 0 {
      StoredLevelsAgreeWithScores(records[..|records| - 1], level);
    }
  }
}
