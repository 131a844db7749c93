# Operator-job mismatch predictor: the decision rule

This project models the per-submission decision of a small predictor. The
predictor tells whether assigning an operator to a job is likely to end in a
performance mismatch.

For one submission the predictor does four things:

- It derives the skill gap (required minus actual) and two 0/1 flags for its sign.
- It builds a nine-column record in the order the classifier was trained on.
- It replaces the three continuous columns with a fitted scaler's output and asks a trained classifier for a label.
- It combines that label with a threshold override on the raw inputs. Then it adds a note about the skill gap.

Module `Features` (features.dfy) holds the raw input, the derived record, its
column order and the scaling splice. Module `Decision` (decision.dfy) holds the
override, the verdict, the note and the whole evaluation.

The classifier and the scaler are opaque artifacts. They are parameters here:

- a `Classifier` is any function from the nine-value row to an `int` label;
- a `Scaler` is any function on the triple (quality score, rework cost, efficiency).

The lemmas about an evaluation hold for all classifiers and all scalers,
except `Decision.EveryOutcomeReachable`. That lemma is existential: it picks
the identity scaler `Unscaled` and a constant classifier `Constant` as
witnesses.

The integer sliders are `int` and the continuous inputs are `real`.

`ScaleSplice` keeps six fields unscaled: the two skill levels, the gap, the
two indicators and the incident count (app.py:42-59).

## Model

| member | source | states |
|---|---|---|
| `Features.WithinFormBounds` | app.py:24-31 | the ranges the form's widgets allow: both skills in [1,5], incidents in [0,10], quality in [0,100], rework cost in [0,10000], efficiency in [0,1]; the decision logic itself never checks them |
| `Features.FormDefaults` | app.py:24-31 | the form's default values (0 incidents, quality 50, rework cost 2500, efficiency 0.75) with any two skills in [1,5] lie within the form's bounds, and their gap is required - actual |
| `Features.Indicator` | app.py:38-39 | Python's `int(b)` is 0 or 1, and it is 1 exactly when `b` holds |
| `Features.Derive` | app.py:37-52 | the record is well formed: gap = required - actual, is_overqualified is 1 iff gap < 0, is_underqualified is 1 iff gap > 0, both flags are 0/1; the six raw values are carried unchanged |
| `Features.DeriveRecoversWellFormed` | app.py:37-52 | every well-formed record is the derivation of its own raw values, so derivation is a bijection onto well-formed records |
| `Features.IndicatorsEncodeSign` | app.py:38-39 | the two flags are never both 1, both are 0 exactly when the gap is 0, and under - over is the sign of the gap |
| `Features.GapWithinFormBounds` | app.py:24-25 | with both skill sliders in [1,5] the gap lies in [-4,4] |
| `Features.GapRangeIsExact` | app.py:24-25 | a gap is produced by some form-allowed input if and only if it lies in [-4,4] |
| `Features.ToRow` | app.py:42-54 | the classifier's row has one value per training column, and position k holds the value the input dictionary (`InputDict`, name to value) stores under the k-th column name; the dictionary has no other column |
| `Features.RowRoundTrip` | app.py:42-54 | the row loses nothing: reading it back in column order gives the record again |
| `Features.ScaleSplice` | app.py:57-59 | the three continuous fields become the scaler's output in its order; the six other fields are unchanged |
| `Features.ScaledColumnPositions` | app.py:42-59 | a training column is one of the scaler's three columns iff it is one of the last three positions, and the scaler's order is the row order |
| `Features.ScalingTouchesOnlyScaledColumns` | app.py:57-59 | on the row, every column not named for scaling keeps its derived value, and each scaled column holds the scaler's matching output |
| `Decision.Override` | app.py:68 | the override condition on the raw values: more than 5 incidents, efficiency below 0.3, or rework cost above 3000; its effect on the verdict is stated by `Decision.Decide` and `Decision.OverrideTakesPrecedence` |
| `Decision.Prediction` | app.py:54-62 | the classifier sees the six derived columns unscaled followed by the scaler's output on the raw quality, cost and efficiency, in that order |
| `Decision.Decide` | app.py:68-74 | performance Mismatch iff the override holds; "avoid assigning" Mismatch iff no override and label 1; Match iff no override and any label other than 1 |
| `Decision.Explain` | app.py:78-81 | large-gap warning iff gap > 1, overqualified note iff gap < 0, no note iff gap is 0 or 1 |
| `Decision.Evaluate` | app.py:36-81 | the note of a whole evaluation is the note for required - actual, whatever the scaler and classifier |
| `Decision.OverrideTakesPrecedence` | app.py:68-69 | when incidents > 5, efficiency < 0.3 or rework cost > 3000 (raw values), the verdict is the performance Mismatch for every scaler and classifier |
| `Decision.ModelDecidesOtherwise` | app.py:70-74 | without an override the verdict is the label mapped 1 to Mismatch ("avoid assigning") and anything else to Match |
| `Decision.MismatchIffOverrideOrLabel` | app.py:62-74 | the verdict is a Mismatch iff the override holds or the classifier's label is 1 |
| `Decision.NoteDependsOnlyOnGap` | app.py:77-81 | two submissions with equal gaps get equal notes, whatever their other inputs, scalers, classifiers and verdicts |
| `Decision.OutcomeDeterminedByInputAndLabel` | app.py:36-81 | no state is carried between submissions: equal input and equal label give an equal verdict and note |
| `Decision.NoteAgreesWithIndicators` | app.py:37-81 | the overqualified note appears iff is_overqualified is 1; a warning implies is_underqualified is 1; an underqualified operator gets no note exactly at gap 1 |
| `Decision.EveryOutcomeReachable` | app.py:68-81 | each of the three verdicts with each of the three notes is the outcome of some form-allowed input and label, so no branch is dead |
| `Decision.Scenarios` | app.py:37-81 | five worked submissions: gap 0 without note, gap -4 with the overqualified note and gap 3 with the warning, each without override so the label decides the verdict; 8 incidents and a 5000 rework cost each force the performance Mismatch |

## Left out

- The web form, its layout and widgets, and the rendering of the verdict and note as coloured messages (app.py:11-33, 65-66). Presentation only. `Reason`, `Verdict` and `Note` stand for the messages. The message texts and their emoji are not modelled.
- The skill-gap summary line `required - actual = gap` (app.py:77). It is string formatting for display.
- The step sizes of the form inputs (0.1, 100, 0.01). `Features.WithinFormBounds` keeps only their ranges.
- Loading the model and scaler from disk (app.py:8-9). This is file I/O and deserialisation; both become parameters.
- The internals of the classifier and the scaler (app.py:57-62). They are foreign library calls, modelled as arbitrary functions. An exception raised inside them is not modelled.
- The DataFrame built from the dictionary (app.py:54). The model uses a datatype and a fixed-order row, and the column-name selection at app.py:57-58 becomes the three named fields.
- IEEE floating point. Inputs are reals, and the thresholds 0.3 and 3000 are exact. Rounding of slider values at the 0.3 boundary is not captured.
