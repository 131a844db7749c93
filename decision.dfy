/** The decision engine of the operator/job mismatch predictor: the
    classifier's prediction on the scaled record, the threshold override on
    the raw values, the resulting verdict, and the note on the skill gap. */
module Decision {
  import opened Features

  /** Why a Mismatch is reported: the override fired ("operator performance
      is not suitable") or the classifier predicted 1 ("avoid assigning this
      operator"). */
  datatype Reason = PerformanceUnsuitable | AvoidAssigning

  datatype Verdict = Mismatch(reason: Reason) | Match

  /** The note shown under the verdict: a warning that the gap is large, an
      information that the operator is overqualified, or nothing. */
  datatype Note = NoNote | LargeGapWarning | OverqualifiedInfo

  /** Everything one submission produces. */
  datatype Outcome = Outcome(verdict: Verdict, note: Note)

  /** The trained classifier, opaque here: any map from the nine-column row
      to a class (1 means mismatch). */
  type Classifier = seq<real> -> int

  /** The hybrid override, on the raw (unscaled) form values. */
  predicate Override(i: OperatorJobInput) {
    i.safetyIncidents > 5 || i.operationalEfficiency < 0.3 || i.reworkCost > 3000.0
  }

  /** The verdict: the override takes precedence over the prediction; without
      it, only the prediction 1 is a Mismatch and every other prediction is a Match. */
  function Decide(i: OperatorJobInput, prediction: int): (v: Verdict)
    ensures v == Mismatch(PerformanceUnsuitable) <==> Override(i)
    ensures v == Mismatch(AvoidAssigning) <==> !Override(i) && prediction == 1
    ensures v == Match <==> !Override(i) && prediction != 1
  {
    if Override(i) then Mismatch(PerformanceUnsuitable)
    else if prediction == 1 then Mismatch(AvoidAssigning)
    else Match
  }

  /** The skill-gap note: a warning above 1, the overqualified note below 0,
      nothing for a gap of 0 or 1. */
  function Explain(skillGap: int): (n: Note)
    ensures n == LargeGapWarning <==> skillGap > 1
    ensures n == OverqualifiedInfo <==> skillGap < 0
    ensures n == NoNote <==> skillGap == 0 || skillGap == 1
  {
    if skillGap > 1 then LargeGapWarning
    else if skillGap < 0 then OverqualifiedInfo
    else NoNote
  }

  /** The classifier's prediction for a submission: derive, scale the three
      continuous columns, and classify the row. */
  function Prediction(i: OperatorJobInput, scaler: Scaler, classifier: Classifier): (p: int)
    ensures var s := scaler(i.productQualityScore, i.reworkCost, i.operationalEfficiency);
      p == classifier(ToRow(Derive(i))[..6] + [s.0, s.1, s.2])
  {
    var row := ToRow(ScaleSplice(Derive(i), scaler));
    assert row == ToRow(Derive(i))[..6] + row[6..];
    classifier(row)
  }

  /** One submission, end to end. */
  function Evaluate(i: OperatorJobInput, scaler: Scaler, classifier: Classifier): (o: Outcome)
    ensures o.note == Explain(i.jobSkillRequired - i.skillLevel)
  {
    Outcome(Decide(i, Prediction(i, scaler, classifier)), Explain(Derive(i).skillGap))
  }

  /** Whenever a threshold is crossed the verdict is the performance Mismatch,
      whatever the scaler and the classifier are. */
  lemma OverrideTakesPrecedence(i: OperatorJobInput, scaler: Scaler, classifier: Classifier)
    requires Override(i)
    ensures Evaluate(i, scaler, classifier).verdict == Mismatch(PerformanceUnsuitable)
  {
  }

  /** Without an override the verdict is the classifier's prediction mapped
      1 to Mismatch and anything else to Match. */
  lemma ModelDecidesOtherwise(i: OperatorJobInput, scaler: Scaler, classifier: Classifier)
    requires !Override(i)
    ensures Evaluate(i, scaler, classifier).verdict
         == if Prediction(i, scaler, classifier) == 1 then Mismatch(AvoidAssigning) else Match
  {
  }

  /** A classifier that always answers Match cannot stop the override: the
      verdict is a Mismatch for every scaler exactly when a threshold is
      crossed or the prediction is 1. */
  lemma MismatchIffOverrideOrLabel(i: OperatorJobInput, scaler: Scaler, classifier: Classifier)
    ensures Evaluate(i, scaler, classifier).verdict.Mismatch?
        <==> Override(i) || Prediction(i, scaler, classifier) == 1
  {
  }

  /** The note depends on the skill gap alone: two submissions with the same
      gap get the same note, whatever their other values, scalers, classifiers
      and verdicts. */
  lemma NoteDependsOnlyOnGap(i1: OperatorJobInput, s1: Scaler, c1: Classifier,
                             i2: OperatorJobInput, s2: Scaler, c2: Classifier)
    requires i1.jobSkillRequired - i1.skillLevel == i2.jobSkillRequired - i2.skillLevel
    ensures Evaluate(i1, s1, c1).note == Evaluate(i2, s2, c2).note
  {
  }

  /** No state is carried between submissions: the outcome is fixed by the
      input and the prediction, whichever scaler and classifier produced it. */
  lemma OutcomeDeterminedByInputAndLabel(i: OperatorJobInput, s1: Scaler, c1: Classifier,
                                         s2: Scaler, c2: Classifier)
    requires Prediction(i, s1, c1) == Prediction(i, s2, c2)
    ensures Evaluate(i, s1, c1) == Evaluate(i, s2, c2)
  {
  }

  /** The note agrees with the indicators: overqualified note exactly when
      is_overqualified is set, and a warning only for an underqualified
      operator. The converse fails at gap 1: an operator one level short is
      underqualified and gets no note. */
  lemma NoteAgreesWithIndicators(i: OperatorJobInput)
    ensures var f := Derive(i);
      && (Explain(f.skillGap) == OverqualifiedInfo <==> f.isOverqualified == 1)
      && (Explain(f.skillGap) == LargeGapWarning ==> f.isUnderqualified == 1)
      && (f.isUnderqualified == 1 && Explain(f.skillGap) == NoNote <==> f.skillGap == 1)
  {
  }

  /** A constant classifier. */
  function Constant(prediction: int): Classifier {
    row => prediction
  }

  /** The identity scaler. */
  function Unscaled(): Scaler {
    (q, r, e) => (q, r, e)
  }

  /** A form input with the given skills and incidents, and the form's
      default quality, cost and efficiency (none of which crosses a
      threshold). */
  function Submission(skillLevel: int, jobSkillRequired: int, safetyIncidents: int): (i: OperatorJobInput)
    requires 1 <= skillLevel <= 5 && 1 <= jobSkillRequired <= 5 && 0 <= safetyIncidents <= 10
    ensures WithinFormBounds(i)
    ensures Derive(i).skillGap == jobSkillRequired - skillLevel
    ensures Override(i) <==> safetyIncidents > 5
  {
    FormDefaults(skillLevel, jobSkillRequired).(safetyIncidents := safetyIncidents)
  }

  /** A skill pair, within the slider range, whose gap yields note n. */
  lemma SkillsForNote(n: Note) returns (skillLevel: int, jobSkillRequired: int)
    ensures 1 <= skillLevel <= 5 && 1 <= jobSkillRequired <= 5
    ensures Explain(jobSkillRequired - skillLevel) == n
  {
    match n
    case NoNote => skillLevel, jobSkillRequired := 3, 3;
    case LargeGapWarning => skillLevel, jobSkillRequired := 1, 4;
    case OverqualifiedInfo => skillLevel, jobSkillRequired := 5, 1;
  }

  /** Verdict and note are independent: every combination of the three
      verdicts and the three notes is the outcome of some input the form
      allows, so neither the override nor the note hides another branch. */
  lemma EveryOutcomeReachable(v: Verdict, n: Note)
    ensures exists i, prediction ::
      WithinFormBounds(i) && Evaluate(i, Unscaled(), Constant(prediction)) == Outcome(v, n)
  {
    var skillLevel, jobSkillRequired := SkillsForNote(n);
    var (incidents, prediction) := match v
      case Mismatch(PerformanceUnsuitable) => (8, 0)
      case Mismatch(AvoidAssigning) => (0, 1)
      case Match => (0, 0);
    var i := Submission(skillLevel, jobSkillRequired, incidents);
    assert Evaluate(i, Unscaled(), Constant(prediction)) == Outcome(v, n);
  }

  /** Five worked submissions, for every scaler and classifier: the gap,
      the note and the verdict each one gets (the classifier's label decides
      the verdict where no threshold is crossed). */
  lemma Scenarios(scaler: Scaler, classifier: Classifier)
    ensures var i := OperatorJobInput(3, 3, 0, 80.0, 1000.0, 0.9);
      && Derive(i).skillGap == 0 && !Override(i) && Evaluate(i, scaler, classifier).note == NoNote
      && Evaluate(i, scaler, classifier).verdict
         == (if Prediction(i, scaler, classifier) == 1 then Mismatch(AvoidAssigning) else Match)
    ensures var i := OperatorJobInput(5, 1, 0, 50.0, 500.0, 0.9);
      && Derive(i).skillGap == -4 && Derive(i).isOverqualified == 1
      && Evaluate(i, scaler, classifier).note == OverqualifiedInfo && !Override(i)
      && Evaluate(i, scaler, classifier).verdict
         == (if Prediction(i, scaler, classifier) == 1 then Mismatch(AvoidAssigning) else Match)
    ensures Evaluate(OperatorJobInput(3, 3, 8, 50.0, 2500.0, 0.75), scaler, classifier).verdict
         == Mismatch(PerformanceUnsuitable)
    ensures Evaluate(OperatorJobInput(3, 3, 0, 50.0, 5000.0, 0.75), scaler, classifier).verdict
         == Mismatch(PerformanceUnsuitable)
    ensures var i := OperatorJobInput(1, 4, 0, 50.0, 500.0, 0.9);
      && Derive(i).skillGap == 3 && !Override(i) && Evaluate(i, scaler, classifier).note == LargeGapWarning
      && Evaluate(i, scaler, classifier).verdict
         == (if Prediction(i, scaler, classifier) == 1 then Mismatch(AvoidAssigning) else Match)
  {
  }
}
