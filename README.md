# Breast cancer survival prediction: encoding and result pipeline

A Dafny model of what the Streamlit form in `app.py` computes when PREDICT is pressed. It
encodes a patient record as a fixed 13-column feature row, gives that row unscaled to the
mortality classifier, scales it for the survival regressor, maps the status code to
Alive/Dead, and splits the predicted months into years and months.

Modules:

- `Wrappers` (`wrappers.dfy`): `Option`/`Result`, and `Lookup`, which models a Python dict
  subscription that raises `KeyError`.
- `Categories` (`categories.dfy`): one datatype per categorical field. `Label()` is the
  radio-button string and `Code()` the integer. The source's nine dictionaries and the
  widgets' option lists are mirrored as constants, and one lemma per field ties them
  together. The estrogen and progesterone fields share the datatype `HormoneStatus` but keep
  their two dictionaries.
- `Assembler` (`assembler.dfy`): `PatientRecord`, the widget bounds `WithinFormBounds`, the
  row `Features` (the source's `patient_data`), and its inverse `Decode`, which fixes which
  column holds which field.
- `PyNum` (`pynum.dfy`): Python's float `//`, `%` and `int()`, written out on exact reals.
- `Pipeline` (`pipeline.dfy`): the status mapping, `status_class`, the survival split and
  the request `Predict`. The classifier, scaler and regressor are parameters: total functions
  that answer `None` where the artifact raises.

Every exception in the request is caught by `except Exception` at app.py:195. So `Predict`
returns a `Result`: `InferenceFailure` when a collaborator raises, and `UnknownStatus(code)`
when the status lookup raises `KeyError`. An out-of-range code fails before the scaler is
called.

The row is a `seq<real>`. NumPy stores the mixed int/float list as a float array, so every
column is a float.

The survival identity `years * 12 + months == floor(m)` holds for every exact real `m`,
negative ones included; on the negative side this is a fact about exact reals only. The
printed total `int(m)` equals `floor(m)` exactly when `m >= 0` or `m` is whole. For example, -0.5 months is shown as "-1 years and 11 months (0 months)":
`NegativeSurvivalDisagrees` states this.

## Model

| member | source | states |
|---|---|---|
| `Categories.EnumerationIsBijective` | app.py:124-132 | a table that sends its i-th label to i is a bijection between its n labels and the codes 0..n-1: the labels are distinct, the table has exactly n keys, codes are below n, equal codes mean equal labels, and any label outside the options is a `KeyError` |
| `Categories.TableSizesAndKeys` | app.py:124-132 | each of the nine dicts has exactly as many entries as its widget has options (3, 4, 3, 5, 5, 4, 2, 2, 2), and a label outside the options is a `KeyError` |
| `Categories.RaceEncoding` | app.py:124 | `race_mapping` enumerates White, Black, Other in order; each race's code is the position of its label and the dict value of its label; codes are injective and `RaceFromCode` inverts them exactly on 0..2 |
| `Categories.TStageEncoding` | app.py:125 | same for T1..T4 onto 0..3 |
| `Categories.NStageEncoding` | app.py:126 | same for N1..N3 onto 0..2 |
| `Categories.SixthStageEncoding` | app.py:127 | same for IIA, IIB, IIIA, IIIB, IIIC onto 0..4 |
| `Categories.MaritalEncoding` | app.py:128 | same for Married, Divorced, Single, Widowed, Separated onto 0..4 |
| `Categories.GradeEncoding` | app.py:129 | same for the grade labels "1".."4" onto 0..3 |
| `Categories.AStageEncoding` | app.py:130 | same for Regional, Distant onto 0..1 |
| `Categories.HormoneEncoding` | app.py:131-132 | both `estrogen_mapping` and `progesterone_mapping` send Positive to 0 and Negative to 1, in label order, and the codes are inverted by `HormoneFromCode` |
| `Assembler.Features` | app.py:135-138 | the row has 13 entries, and every column other than 0, 8, 11 and 12 holds a whole code in 0..4 |
| `Assembler.DecodeFeatures` | app.py:135-138 | reading the row back column by column in the fixed order recovers the record |
| `Assembler.FeaturesDecode` | app.py:135-138 | every row that decodes is exactly the row of the record it decodes to |
| `Assembler.FeaturesInjective` | app.py:135-138 | two records give the same row if and only if they are equal |
| `Assembler.NumericPassThrough` | app.py:135-138 | age, tumour size, nodes examined and nodes positive appear unchanged at columns 0, 8, 11 and 12 |
| `Assembler.NodeCountsNotCrossChecked` | app.py:118-138 | any pair of node counts is accepted, and changing them alters columns 11 and 12 only |
| `Assembler.BoundedFeatures` | app.py:98-121 | a record within the widget bounds gives a row of values in [0, 120] |
| `Assembler.ExampleFeatures` | app.py:124-138 | the example record (55, White, T2, N1, IIA, Married, "2", Regional, 2.5, Positive, Negative, 10, 1) is within bounds and encodes to [55, 0, 1, 0, 0, 0, 1, 0, 2.5, 0, 1, 10, 1] |
| `PyNum.FloorDiv` | app.py:153 | Python `//`: a whole number q with q <= x/y < q + 1 |
| `PyNum.Mod` | app.py:154 | Python `%`: x == y * (x // y) + r, with r in [0, y) for positive y and in (y, 0] for negative y |
| `PyNum.Trunc` | app.py:153-155 | Python `int()` on a float: truncation toward zero, with the sign of x and magnitude within 1 below |x| |
| `PyNum.TruncIsFloorIff` | app.py:155 | `int(x)` equals floor(x) if and only if x >= 0 or x is whole |
| `Pipeline.StatusOf` | app.py:145-146 | the lookup succeeds exactly for the keys of `status_mapping`, and the status found has the dict's text as its name |
| `Pipeline.StatusClass` | app.py:158 | the class is "status-alive" or "status-dead", and "status-alive" exactly when the code is 0 |
| `Pipeline.StatusMappingCodes` | app.py:145-158 | only codes 0 and 1 have a status, 0 exactly Alive and 1 exactly Dead; `status_class` is "status-alive" exactly when the code is 0, and when the lookup succeeds exactly when the status is Alive |
| `Pipeline.SplitSurvival` | app.py:153-155 | the displayed months lie in 0..11 for any prediction |
| `Pipeline.SurvivalSplitIdentity` | app.py:153-154 | years == floor(m / 12) == floor(m) div 12, months == floor(m) mod 12, and years * 12 + months == floor(m), for every real m |
| `Pipeline.SurvivalTotalAgrees` | app.py:153-155 | `int(m)` equals floor(m) exactly when m >= 0 or m is whole; for m >= 0 the years are non-negative and years * 12 + months == int(m) |
| `Pipeline.NegativeSurvivalDisagrees` | app.py:153-155 | -0.5 months gives -1 years, 11 months and a total of 0 |
| `Pipeline.SurvivalExamples` | app.py:153-155 | 67.5 gives 5 years, 7 months, 67 months; 120.0 gives 10 years, 0 months, 120 months |
| `Pipeline.Predict` | app.py:142-196 | the request succeeds exactly when the classifier answers the unscaled row with code 0 or 1, the scaler answers the row, and the regressor answers the scaled row. On success the status is Alive exactly for code 0 and Dead exactly for code 1, `status_class` is that of the code, and the survival is `SplitSurvival` of the regressor's answer on the scaled row. A raising classifier, scaler or regressor gives `InferenceFailure`, and a code other than 0/1 gives `UnknownStatus(code)` |
| `Pipeline.StatusIgnoresScaler` | app.py:144-150 | the status and its CSS class, and the status lookup error, do not depend on the scaler or the regressor |
| `Pipeline.SurvivalIgnoresClassifier` | app.py:144-155 | the survival does not depend on the classifier |
| `Pipeline.ScalingFeedsOnlyRegressor` | app.py:144-150 | with models that accept only one exact input, the request succeeds when the classifier expects the unscaled row and the regressor the scaled row, and fails if the classifier expects the scaled row or the regressor the unscaled one |
| `Pipeline.ExamplePrediction` | app.py:135-158 | the example record, a classifier answering 0 and a regressor answering 67.5 give Alive, "status-alive", 5 years, 7 months, 67 months |
| `Pipeline.UnknownCodeReported` | app.py:144-146 | a classifier code other than 0 or 1 ends the request with `UnknownStatus(code)`, whatever the scaler and regressor are |

## Left out

- The Streamlit page, CSS, markdown and HTML rendering (app.py:17-121, 161-175), including the text `survival_text` is formatted into: presentation only. The model does compute the three integers that text shows.
- Loading the pickled artifacts with `joblib.load`, and the `FileNotFoundError`/`st.stop` path (app.py:8-14): file I/O and a foreign library.
- The internals of the classifier, the scaler and the regressor: they are uninterpreted function parameters. The one-row matrix `[[...]]` and the `[0]` that takes the first prediction are modelled as one row in and one value out.
- The Plotly gauge (app.py:178-193): a widget. Its value `int(predicted_survival)` is `Survival.totalMonths`.
- IEEE float behaviour: rounding, NaN and infinite regressor outputs (for which `int()` raises). The model uses exact reals.
- Pipeline.SurvivalSplitIdentity: holds of exact reals only on the negative side. In doubles a tiny negative prediction such as -1e-20 gives `m % 12 == 12.0` and `m // 12 == -1.0`, shown as "-1 years and 12 months".
- PyNum.FloorDiv: requires a non-zero divisor instead of modelling `ZeroDivisionError`, because the only divisor used is the constant 12.
- PyNum.Mod: requires a non-zero divisor for the same reason.
- Enforcing the widget bounds (age 1..120, tumour size 0.1..50.0, node counts 0..50): the widgets do this, so it appears only as the predicate `WithinFormBounds`. No operation requires it, because the encoding does not depend on it.
