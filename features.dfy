/** The feature deriver of the operator/job mismatch predictor: the six raw
    form values, the nine-field record handed to the classifier, its fixed
    column order, and the splice that puts the scaler's output into the
    three continuous columns. */
module Features {

  /** The six values the input form collects for one submission. */
  datatype OperatorJobInput = OperatorJobInput(
    skillLevel: int,
    jobSkillRequired: int,
    safetyIncidents: int,
    productQualityScore: real,
    reworkCost: real,
    operationalEfficiency: real)

  /** The ranges the form's sliders and number inputs allow. The decision
      logic itself never checks them. */
  predicate WithinFormBounds(i: OperatorJobInput) {
    && 1 <= i.skillLevel <= 5
    && 1 <= i.jobSkillRequired <= 5
    && 0 <= i.safetyIncidents <= 10
    && 0.0 <= i.productQualityScore <= 100.0
    && 0.0 <= i.reworkCost <= 10000.0
    && 0.0 <= i.operationalEfficiency <= 1.0
  }

  /** The record sent to the classifier, fields in training order. */
  datatype FeatureVector = FeatureVector(
    skillLevel: int,
    jobSkillRequired: int,
    skillGap: int,
    isOverqualified: int,
    isUnderqualified: int,
    safetyIncidents: int,
    productQualityScore: real,
    reworkCost: real,
    operationalEfficiency: real)

  /** Python's `int(b)` on a boolean. */
  function Indicator(b: bool): (n: int)
    ensures n == 0 || n == 1
    ensures n == 1 <==> b
  {
    if b then 1 else 0
  }

  /** What every derived record satisfies: the gap is required minus actual,
      and the two indicators are 0/1 flags for its sign. */
  predicate WellFormed(f: FeatureVector) {
    && f.skillGap == f.jobSkillRequired - f.skillLevel
    && (f.isOverqualified == 0 || f.isOverqualified == 1)
    && (f.isUnderqualified == 0 || f.isUnderqualified == 1)
    && (f.isOverqualified == 1 <==> f.skillGap < 0)
    && (f.isUnderqualified == 1 <==> f.skillGap > 0)
  }

  /** The raw form values a record was derived from. */
  function Raw(f: FeatureVector): OperatorJobInput {
    OperatorJobInput(f.skillLevel, f.jobSkillRequired, f.safetyIncidents,
                     f.productQualityScore, f.reworkCost, f.operationalEfficiency)
  }

  /** Gap and indicator derivation, and assembly of the record. The result is
      well formed and carries the six raw values unchanged. */
  function Derive(i: OperatorJobInput): (f: FeatureVector)
    ensures WellFormed(f)
    ensures Raw(f) == i
  {
    var skillGap := i.jobSkillRequired - i.skillLevel;
    FeatureVector(
      i.skillLevel, i.jobSkillRequired, skillGap,
      Indicator(skillGap < 0), Indicator(skillGap > 0),
      i.safetyIncidents, i.productQualityScore, i.reworkCost, i.operationalEfficiency)
  }

  /** Derive is a bijection between raw inputs and well-formed records: a
      well-formed record is determined by its raw values. */
  lemma DeriveRecoversWellFormed(f: FeatureVector)
    requires WellFormed(f)
    ensures Derive(Raw(f)) == f
  {
  }

  /** The two indicators are never both set; both are clear exactly when
      there is no gap; their difference is the sign of the gap. */
  lemma IndicatorsEncodeSign(i: OperatorJobInput)
    ensures var f := Derive(i);
      && !(f.isOverqualified == 1 && f.isUnderqualified == 1)
      && (f.isOverqualified == 0 && f.isUnderqualified == 0 <==> f.skillGap == 0)
      && f.isUnderqualified - f.isOverqualified
         == (if f.skillGap > 0 then 1 else if f.skillGap < 0 then -1 else 0)
  {
  }

  /** Within the slider ranges the gap lies in [-4, 4]. */
  lemma GapWithinFormBounds(i: OperatorJobInput)
    requires WithinFormBounds(i)
    ensures -4 <= Derive(i).skillGap <= 4
  {
  }

  /** The form's default values with the two skill sliders set as given. */
  function FormDefaults(skillLevel: int, jobSkillRequired: int): (i: OperatorJobInput)
    ensures 1 <= skillLevel <= 5 && 1 <= jobSkillRequired <= 5 ==> WithinFormBounds(i)
    ensures Derive(i).skillGap == jobSkillRequired - skillLevel
  {
    OperatorJobInput(skillLevel, jobSkillRequired, 0, 50.0, 2500.0, 0.75)
  }

  /** The bound of GapWithinFormBounds is tight: every gap in [-4, 4], and no
      other, comes from some input the form allows. */
  lemma GapRangeIsExact(g: int)
    ensures (-4 <= g <= 4) <==> exists i :: WithinFormBounds(i) && Derive(i).skillGap == g
  {
    if -4 <= g <= 4 {
      var i := if g >= 0 then FormDefaults(1, 1 + g) else FormDefaults(1 - g, 1);
      assert WithinFormBounds(i) && Derive(i).skillGap == g;
    }
    forall i | WithinFormBounds(i) ensures -4 <= Derive(i).skillGap <= 4 {
      GapWithinFormBounds(i);
    }
  }

  /** The column order the classifier was trained on. */
  const Columns: seq<string> := [
    "skill_level", "job_skill_required", "skill_gap",
    "is_overqualified", "is_underqualified", "safety_incidents",
    "product_quality_score", "rework_cost", "operational_efficiency"]

  /** The columns the scaler was fitted on, in its order. */
  const ScaledColumns: seq<string> := [
    "product_quality_score", "rework_cost", "operational_efficiency"]

  /** The input dictionary: each column name with the value stored under it. */
  function InputDict(f: FeatureVector): map<string, real> {
    map[
      "skill_level" := f.skillLevel as real,
      "job_skill_required" := f.jobSkillRequired as real,
      "skill_gap" := f.skillGap as real,
      "is_overqualified" := f.isOverqualified as real,
      "is_underqualified" := f.isUnderqualified as real,
      "safety_incidents" := f.safetyIncidents as real,
      "product_quality_score" := f.productQualityScore,
      "rework_cost" := f.reworkCost,
      "operational_efficiency" := f.operationalEfficiency]
  }

  /** The one-row frame the classifier reads: position k holds the value the
      dictionary stores under the k-th training column, and the dictionary has
      no column outside the training order. */
  function ToRow(f: FeatureVector): (row: seq<real>)
    ensures |row| == |Columns|
    ensures forall k | 0 <= k < |Columns| :: Columns[k] in InputDict(f) && row[k] == InputDict(f)[Columns[k]]
    ensures forall name | name in InputDict(f) :: name in Columns
  {
    [f.skillLevel as real, f.jobSkillRequired as real, f.skillGap as real,
     f.isOverqualified as real, f.isUnderqualified as real, f.safetyIncidents as real,
     f.productQualityScore, f.reworkCost, f.operationalEfficiency]
  }

  /** Reads a row back into a record (integer columns by their floor). */
  function FromRow(row: seq<real>): FeatureVector
    requires |row| == |Columns|
  {
    FeatureVector(row[0].Floor, row[1].Floor, row[2].Floor, row[3].Floor, row[4].Floor,
                  row[5].Floor, row[6], row[7], row[8])
  }

  /** No information is lost in the row: every record comes back from it. */
  lemma RowRoundTrip(f: FeatureVector)
    ensures FromRow(ToRow(f)) == f
  {
  }

  /** The fitted scaler, opaque here: any map on the three continuous values
      (quality score, rework cost, efficiency, in that order). */
  type Scaler = (real, real, real) -> (real, real, real)

  /** The column assignment that replaces the three continuous fields by the
      scaler's output and keeps the other six. */
  function ScaleSplice(f: FeatureVector, scaler: Scaler): (g: FeatureVector)
    ensures g.skillLevel == f.skillLevel && g.jobSkillRequired == f.jobSkillRequired
    ensures g.skillGap == f.skillGap
    ensures g.isOverqualified == f.isOverqualified && g.isUnderqualified == f.isUnderqualified
    ensures g.safetyIncidents == f.safetyIncidents
    ensures (g.productQualityScore, g.reworkCost, g.operationalEfficiency)
         == scaler(f.productQualityScore, f.reworkCost, f.operationalEfficiency)
  {
    var scaled := scaler(f.productQualityScore, f.reworkCost, f.operationalEfficiency);
    f.(productQualityScore := scaled.0, reworkCost := scaled.1, operationalEfficiency := scaled.2)
  }

  /** Position k of Columns names a scaled column exactly for the last three
      positions, and ScaledColumns lists them in row order. */
  lemma ScaledColumnPositions(k: int)
    requires 0 <= k < |Columns|
    ensures Columns[k] in ScaledColumns <==> 6 <= k
    ensures 6 <= k ==> ScaledColumns[k - 6] == Columns[k]
  {
  }

  /** On the classifier's row, scaling replaces exactly the columns named in
      ScaledColumns, with the scaler's values in its order, and leaves every
      other column as derived. The override reads none of these values. */
  lemma ScalingTouchesOnlyScaledColumns(f: FeatureVector, scaler: Scaler, k: int)
    requires 0 <= k < |Columns|
    ensures Columns[k] !in ScaledColumns ==> ToRow(ScaleSplice(f, scaler))[k] == ToRow(f)[k]
    ensures Columns[k] in ScaledColumns ==>
      var s := scaler(f.productQualityScore, f.reworkCost, f.operationalEfficiency);
      ToRow(ScaleSplice(f, scaler))[k] == [s.0, s.1, s.2][k - 6]
  {
    ScaledColumnPositions(k);
  }
}
