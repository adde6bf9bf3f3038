/** The prediction request (app.py:141-196): classify the unscaled row, map the status code,
    scale the row for the regressor, and split the predicted survival into years and months.

    The classifier, the scaler and the regressor are pre-trained artifacts whose arithmetic is
    not modelled: they are parameters, total functions that answer `None` where the artifact
    raises. Every exception of the request is caught at app.py:195 and reported, so the
    request is a `Result`. */
module Pipeline {
  import opened Wrappers
  import opened Assembler
  import PyNum

  // ---------- mortality status (app.py:144-146, 158) ----------

  datatype Status = Alive | Dead {
    /** The text the result card shows. */
    function Name(): string {
      match this
      case Alive => "Alive"
      case Dead => "Dead"
    }
  }

  /** `status_mapping` (app.py:145). */
  const StatusMapping: map<int, string> := map[0 := "Alive", 1 := "Dead"]

  /** `status_mapping[predicted_status]`: `None` where Python raises `KeyError`. */
  function StatusOf(code: int): (s: Option<Status>)
    ensures s.Some? <==> code in StatusMapping
    ensures s.Some? ==> StatusMapping[code] == s.value.Name()
  {
    if code == 0 then Some(Alive) else if code == 1 then Some(Dead) else None
  }

  /** `status_class` (app.py:158): the CSS class of the status text, chosen on the raw code. */
  function StatusClass(code: int): (c: string)
    ensures c == "status-alive" || c == "status-dead"
    ensures c == "status-alive" <==> code == 0
  {
    if code == 0 then "status-alive" else "status-dead"
  }

  /** Only the codes 0 and 1 have a status, 0 being Alive and 1 Dead; whenever the lookup
      succeeds, the CSS class agrees with the status it found. */
  lemma StatusMappingCodes(code: int)
    ensures StatusOf(code).Some? <==> code == 0 || code == 1
    ensures StatusOf(code) == Some(Alive) <==> code == 0
    ensures StatusOf(code) == Some(Dead) <==> code == 1
    ensures StatusClass(code) == "status-alive" <==> code == 0
    ensures StatusOf(code).Some? ==>
      (StatusClass(code) == "status-alive" <==> StatusOf(code).value == Alive)
  {
  }

  // ---------- survival formatting (app.py:153-155, 180) ----------

  /** `years`, `months` and `int(predicted_survival)`; the last one is also the gauge value. */
  datatype Survival = Survival(years: int, months: int, totalMonths: int)

  /** app.py:153-155, with Python's `//`, `%` and `int()`. */
  function SplitSurvival(m: real): (s: Survival)
    ensures 0 <= s.months < 12
  {
    Survival(PyNum.Trunc(PyNum.FloorDiv(m, 12.0)), PyNum.Trunc(PyNum.Mod(m, 12.0)), PyNum.Trunc(m))
  }

  /** For every prediction, as an exact real of either sign: the years are the whole months
      divided by 12 and the months what remains, so together they make up the whole months.
      For negative predictions this holds of exact reals only: in IEEE doubles a tiny negative
      value such as -1e-20 rounds `m % 12` up to 12.0. */
  lemma SurvivalSplitIdentity(m: real)
    ensures SplitSurvival(m).years == (m / 12.0).Floor == m.Floor / 12
    ensures SplitSurvival(m).months == m.Floor % 12
    ensures SplitSurvival(m).years * 12 + SplitSurvival(m).months == m.Floor
  {
  }

  /** The printed total `int(m)` is the whole months, and so agrees with the years and months
      shown beside it, exactly when the prediction is non-negative or whole. */
  lemma SurvivalTotalAgrees(m: real)
    ensures SplitSurvival(m).totalMonths == m.Floor <==> m >= 0.0 || PyNum.IsWhole(m)
    ensures m >= 0.0 ==>
      && SplitSurvival(m).years >= 0
      && SplitSurvival(m).years * 12 + SplitSurvival(m).months == SplitSurvival(m).totalMonths
  {
  }

  /** A negative fractional prediction shows years and months that do not add up to the total
      printed beside them: -0.5 months reads "-1 years and 11 months (0 months)". */
  lemma NegativeSurvivalDisagrees()
    ensures SplitSurvival(-0.5) == Survival(-1, 11, 0)
  {
  }

  lemma SurvivalExamples()
    ensures SplitSurvival(67.5) == Survival(5, 7, 67)
    ensures SplitSurvival(120.0) == Survival(10, 0, 120)
  {
  }

  // ---------- the request (app.py:141-158, 195-196) ----------

  /** `clf.predict` on the one-row matrix: the status code, or `None` if it raises. */
  type Classifier = FeatureVector -> Option<int>
  /** `scaler.transform`: the scaled row, or `None` if it raises. */
  type Scaler = FeatureVector -> Option<FeatureVector>
  /** `reg.predict` on the scaled row: the survival in months, or `None` if it raises. */
  type Regressor = FeatureVector -> Option<real>

  /** Why a request showed "Prediction Error" instead of a result. */
  datatype PredictionError =
    | InferenceFailure          // a collaborator raised
    | UnknownStatus(code: int)  // the status lookup raised KeyError

  datatype Prediction = Prediction(status: Status, statusClass: string, survival: Survival)

  /** One press of PREDICT for the record `r`. */
  function Predict(r: PatientRecord, classify: Classifier, scale: Scaler, regress: Regressor)
    : (res: Result<Prediction, PredictionError>)
    ensures classify(Features(r)).None? ==> res == Failure(InferenceFailure)
    ensures classify(Features(r)).Some? && StatusOf(classify(Features(r)).value).None? ==>
      res == Failure(UnknownStatus(classify(Features(r)).value))
    ensures (&& classify(Features(r)).Some?
             && StatusOf(classify(Features(r)).value).Some?
             && (scale(Features(r)).None? || regress(scale(Features(r)).value).None?))
      ==> res == Failure(InferenceFailure)
    ensures res.Success? <==>
      && classify(Features(r)).Some?
      && StatusOf(classify(Features(r)).value).Some?
      && scale(Features(r)).Some?
      && regress(scale(Features(r)).value).Some?
    ensures res.Success? ==>
      && (res.value.status == Alive <==> classify(Features(r)) == Some(0))
      && (res.value.status == Dead <==> classify(Features(r)) == Some(1))
      && (res.value.statusClass == "status-alive" <==> res.value.status == Alive)
      && res.value.statusClass == StatusClass(classify(Features(r)).value)
    ensures res.Success? ==> res.value.survival == SplitSurvival(regress(scale(Features(r)).value).value)
    ensures res.Success? ==> 0 <= res.value.survival.months < 12
  {
    var row := Features(r);
    match classify(row)
    case None => Failure(InferenceFailure)
    case Some(code) =>
      match StatusOf(code)
      case None => Failure(UnknownStatus(code))
      case Some(status) =>
        match scale(row)
        case None => Failure(InferenceFailure)
        case Some(scaled) =>
          match regress(scaled)
          case None => Failure(InferenceFailure)
          case Some(months) => Success(Prediction(status, StatusClass(code), SplitSurvival(months)))
  }

  /** The status depends on the classifier alone: replacing the scaler and the regressor
      neither changes a status that was found nor the status error, which is raised before
      the scaler is ever called. */
  lemma StatusIgnoresScaler(r: PatientRecord, classify: Classifier,
                            scale1: Scaler, regress1: Regressor, scale2: Scaler, regress2: Regressor)
    ensures Predict(r, classify, scale1, regress1).Success? && Predict(r, classify, scale2, regress2).Success? ==>
      && Predict(r, classify, scale1, regress1).value.status == Predict(r, classify, scale2, regress2).value.status
      && Predict(r, classify, scale1, regress1).value.statusClass == Predict(r, classify, scale2, regress2).value.statusClass
    ensures Predict(r, classify, scale1, regress1).Failure? && Predict(r, classify, scale1, regress1).error.UnknownStatus? ==>
      Predict(r, classify, scale2, regress2) == Predict(r, classify, scale1, regress1)
  {
  }

  /** The survival depends on the scaler and the regressor alone: any two classifiers that
      both yield a status give the same survival. */
  lemma SurvivalIgnoresClassifier(r: PatientRecord, classify1: Classifier, classify2: Classifier,
                                  scale: Scaler, regress: Regressor)
    ensures Predict(r, classify1, scale, regress).Success? && Predict(r, classify2, scale, regress).Success? ==>
      Predict(r, classify1, scale, regress).value.survival == Predict(r, classify2, scale, regress).value.survival
  {
  }

  /** A scaler that visibly changes the row: it adds 1 to every column. */
  function Shifted(u: FeatureVector): FeatureVector {
    seq(|u|, i requires 0 <= i < |u| => u[i] + 1.0)
  }

  /** With models that only answer the row they expect, the request succeeds exactly when the
      classifier expects the unscaled row and the regressor the scaled one: the scaler is
      never applied before classification, and always before regression. */
  lemma ScalingFeedsOnlyRegressor(r: PatientRecord)
    ensures var row := Features(r);
      Predict(r,
              (u: FeatureVector) => if u == row then Some(0) else None,
              (u: FeatureVector) => Some(Shifted(u)),
              (u: FeatureVector) => if u == Shifted(row) then Some(67.5) else None)
      == Success(Prediction(Alive, "status-alive", Survival(5, 7, 67)))
    ensures var row := Features(r);
      Predict(r,
              (u: FeatureVector) => if u == Shifted(row) then Some(0) else None,
              (u: FeatureVector) => Some(Shifted(u)),
              (u: FeatureVector) => Some(67.5))
      == Failure(InferenceFailure)
    ensures var row := Features(r);
      Predict(r,
              (u: FeatureVector) => Some(0),
              (u: FeatureVector) => Some(Shifted(u)),
              (u: FeatureVector) => if u == row then Some(67.5) else None)
      == Failure(InferenceFailure)
  {
    var row := Features(r);
    assert Shifted(row)[0] == row[0] + 1.0;
    SurvivalExamples();
  }

  /** The worked example: with a classifier answering 0 and a regressor answering 67.5, the
      example record is predicted Alive with 5 years and 7 months (67 months). */
  lemma ExamplePrediction(scale: Scaler)
    requires scale(Features(ExampleRecord)).Some?
    ensures Predict(ExampleRecord, (u: FeatureVector) => Some(0), scale, (u: FeatureVector) => Some(67.5))
      == Success(Prediction(Alive, "status-alive", Survival(5, 7, 67)))
  {
  }

  /** A classifier code other than 0 or 1 ends the request with the lookup error whatever the
      scaler and the regressor would have done. */
  lemma UnknownCodeReported(r: PatientRecord, code: int, scale: Scaler, regress: Regressor)
    requires code != 0 && code != 1
    ensures Predict(r, (u: FeatureVector) => Some(code), scale, regress) == Failure(UnknownStatus(code))
  {
  }
}
