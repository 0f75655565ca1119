# Heart-disease risk scoring

A model of the risk-scoring path of a small Streamlit application that
estimates a patient's 10-year risk of coronary heart disease. A patient fills
in a form of fourteen clinical and lifestyle answers; the application turns
the answers into one row of fourteen numbers in the column order the trained
classifier expects, asks the classifier for the probability of the positive
class, and labels that probability "High Risk" when it exceeds 0.3 and
"Low Risk" otherwise.

- `patient.dfy` (module `Patient`): the answers as a typed record
  (`Sex`, `YesNo`, `RawRecord`) and the input domain the form widgets impose
  (`Valid`, with the widget ranges as constants and the form's initial values
  as `Default`).
- `encoder.dfy` (module `Encoder`): the column list `Columns`, the positional
  row `Encode`, the 0/1 encodings of the two-option answers, a by-name
  reference definition `Field` of what each column must hold, the column
  ranges `Lo`/`Hi`, and the lemmas relating them.
- `risk.dfy` (module `Risk`): the decision rule `Classify`, the displayed
  label text, and `Assess`, which composes encoder, classifier and rule.
  The classifier is an opaque function parameter.

What the code does not do, and so the model does not either:

- The application performs no validation of its own: the ranges hold only
  because the form widgets cannot produce anything else (app.py:125-138).
  `Valid` therefore describes the records that can reach the encoder;
  nothing in the model rejects a record.
- It prints the classifier's feature names (app.py:172) but never compares
  them with `Columns`. No comparison is modelled.
- It never checks that the probability lies in [0, 1], so `Classify` and
  `Assess` accept any real.

## Model

| member | source | states |
|---|---|---|
| Patient.Valid | app.py:125-138 | a definition without a contract: the conjunction of the eight inclusive widget ranges, age [30, 80], BMI [15.0, 40.0], glucose [60, 300], total cholesterol [100, 600], heart rate [50, 120], systolic [80, 200], diastolic [60, 120], cigarettes per day [0, 40] |
| Patient.Default | app.py:125-138 | a constant: the record the form holds before any change, the widgets' initial values and the first option of every radio group, with the box unchecked |
| Patient.DefaultIsValid | app.py:125-138 | the form's initial values (age 45, BMI 25.0, glucose 100, cholesterol 200, heart rate 75, systolic 120, diastolic 80, 0 cigarettes) lie inside every widget range |
| Encoder.SexFlag | app.py:145 | the sex entry is 1 exactly for "Male" and 0 exactly for "Female" |
| Encoder.YesNoFlag | app.py:147 | a Yes/No entry is 1 exactly for "Yes" and 0 exactly for "No" |
| Encoder.BoolFlag | app.py:152 | the diabetes entry is 1 exactly when the box is checked and 0 exactly when it is not |
| Encoder.Encode | app.py:144-158 | the row always has 14 entries, as many as there are column names |
| Encoder.Columns | app.py:159-163 | a constant: the fourteen column names in source order, male, age, currentSmoker, cigsPerDay, BPMeds, prevalentStroke, prevalentHyp, diabetes, totChol, sysBP, diaBP, BMI, heartRate, glucose |
| Encoder.ColumnsDistinct | app.py:159-163 | no column name is repeated, so each name identifies one position |
| Encoder.EncodeMatchesColumns | app.py:144-163 | for every position i, entry i of the row is the value that the by-name reference definition gives for column name `Columns[i]`: the value list and the column list line up |
| Encoder.FlagEntries | app.py:145-152 | positions 0, 2, 4, 5, 6, 7 hold 1 exactly for "Male"/"Yes"/checked, and every one of them is 0 or 1 |
| Encoder.NumericEntries | app.py:146-158 | age (1), cigarettes per day (3), cholesterol (8), systolic (9), diastolic (10), BMI (11), heart rate (12) and glucose (13) appear at their positions unchanged |
| Encoder.CigsIndependentOfSmoker | app.py:147-148 | changing only the smoker answer changes only position 2; position 3 carries the cigarettes-per-day answer whatever the smoker answer is |
| Encoder.ValidIffInRange | app.py:125-138 | a record is within the widget bounds if and only if every entry of its row lies in its column's range (the widget range for numeric columns, [0, 1] for flags) |
| Encoder.EncodeInjective | app.py:144-158 | two records have the same row if and only if they are the same record |
| Encoder.ExampleRow | app.py:144-158 | the worked example (male, 55, BMI 28.0, glucose 110, hypertension, cholesterol 240, heart rate 80, BP 150/95, smoker, 10 a day) encodes to [1, 55, 1, 10, 0, 0, 1, 0, 240, 150, 95, 28.0, 80, 110] |
| Risk.Classify | app.py:166 | the label is high risk if and only if p > 0.3, and low risk if and only if p <= 0.3 |
| Risk.LabelText | app.py:166 | the text is "High Risk" exactly for the high-risk label and "Low Risk" exactly for the low-risk label |
| Risk.ThresholdIsLowRisk | app.py:166 | a probability of exactly 0.3 is labelled "Low Risk" |
| Risk.ClassifyMonotone | app.py:166 | raising the probability never turns a high-risk label into a low-risk one |
| Risk.Assess | app.py:165-166 | the verdict's probability is the classifier's value on the encoded row, and its label is high risk exactly when that value exceeds 0.3 |

## Left out

- The feature guide, markdown, form rendering and submission button (app.py:10-143 apart from the widget bounds), and the metric and progress-bar display (app.py:169-170): presentation and I/O.
- Loading the classifier from disk (app.py:6): file I/O and deserialisation.
- The classifier's `predict_proba` (app.py:165): a foreign, opaque computation; `Assess` takes it as a function parameter and assumes nothing about its range.
- The pandas DataFrame (app.py:144): the single row is modelled as a `seq<real>` beside the `Columns` list. The DataFrame keeps integer columns as integers and BMI as a float; the model turns every entry into a `real`, which loses that distinction but no value.
- The percentage formatting of the probability (app.py:169): floating-point text formatting for display.
- The closing print of the classifier's feature names (app.py:172): debug output; the code compares them with nothing.
- IEEE floating-point behaviour: BMI, the probability and the threshold are exact `real`s, so 0.3 is the exact decimal and not the nearest double.
