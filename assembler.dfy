/** The patient record and the feature assembler: the thirteen-column row handed to the
    model artifacts, in the column order they were fit on. */
module Assembler {
  import opened Wrappers
  import opened Categories
  import PyNum

  /** One form submission. Numeric fields keep the widget's type: `int` for age and the two
      node counts, `float` (here `real`) for the tumour size. */
  datatype PatientRecord = PatientRecord(
    age: int,
    race: Race,
    tStage: TStage,
    nStage: NStage,
    sixthStage: SixthStage,
    maritalStatus: MaritalStatus,
    grade: Grade,
    aStage: AStage,
    tumorSize: real,
    estrogenStatus: HormoneStatus,
    progesteroneStatus: HormoneStatus,
    nodesExamined: int,
    nodesPositive: int)

  /** The bounds the number widgets enforce (app.py:98, 109, 118, 121). Nothing relates one
      field to another: more positive nodes than examined ones is accepted. */
  predicate WithinFormBounds(r: PatientRecord) {
    && 1 <= r.age <= 120
    && 0.1 <= r.tumorSize <= 50.0
    && 0 <= r.nodesExamined <= 50
    && 0 <= r.nodesPositive <= 50
  }

  const FeatureCount: nat := 13

  /** A row of the feature matrix. The source's array mixes ints and a float, so NumPy
      stores every entry as a float. */
  type FeatureVector = seq<real>

  /** The row `patient_data` (app.py:135-138): numeric fields unchanged, each categorical
      field replaced by its code. */
  function Features(r: PatientRecord): (v: FeatureVector)
    ensures |v| == FeatureCount
    ensures forall i :: 0 <= i < |v| && i !in NumericColumns ==> PyNum.IsWhole(v[i]) && 0.0 <= v[i] < 5.0
  {
    [ r.age as real,
      r.race.Code() as real,
      r.tStage.Code() as real,
      r.nStage.Code() as real,
      r.sixthStage.Code() as real,
      r.maritalStatus.Code() as real,
      r.grade.Code() as real,
      r.aStage.Code() as real,
      r.tumorSize,
      r.estrogenStatus.Code() as real,
      r.progesteroneStatus.Code() as real,
      r.nodesExamined as real,
      r.nodesPositive as real ]
  }

  /** The columns that carry a numeric field rather than a code. */
  const NumericColumns: set<int> := {0, 8, 11, 12}

  /** The whole number `x` stands for, if it is one. */
  function WholeNumber(x: real): (n: Option<int>)
    ensures n.Some? <==> PyNum.IsWhole(x)
    ensures n.Some? ==> n.value as real == x
  {
    if PyNum.IsWhole(x) then Some(x.Floor) else None
  }

  /** Reads a record back from a row, column by column in the order of `Features`; `None`
      when the row has the wrong length or a column holds no valid code. */
  function Decode(v: FeatureVector): Option<PatientRecord> {
    if |v| != FeatureCount then None
    else
      var age :- WholeNumber(v[0]);
      var raceCode :- WholeNumber(v[1]);
      var race :- RaceFromCode(raceCode);
      var tCode :- WholeNumber(v[2]);
      var tStage :- TStageFromCode(tCode);
      var nCode :- WholeNumber(v[3]);
      var nStage :- NStageFromCode(nCode);
      var sixthCode :- WholeNumber(v[4]);
      var sixthStage :- SixthStageFromCode(sixthCode);
      var maritalCode :- WholeNumber(v[5]);
      var marital :- MaritalFromCode(maritalCode);
      var gradeCode :- WholeNumber(v[6]);
      var grade :- GradeFromCode(gradeCode);
      var aCode :- WholeNumber(v[7]);
      var aStage :- AStageFromCode(aCode);
      var estrogenCode :- WholeNumber(v[9]);
      var estrogen :- HormoneFromCode(estrogenCode);
      var progesteroneCode :- WholeNumber(v[10]);
      var progesterone :- HormoneFromCode(progesteroneCode);
      var examined :- WholeNumber(v[11]);
      var positive :- WholeNumber(v[12]);
      Some(PatientRecord(age, race, tStage, nStage, sixthStage, marital, grade, aStage,
                         v[8], estrogen, progesterone, examined, positive))
  }

  /** Every column of the row can be read back to the field it came from, so each field
      occupies its own fixed column. */
  lemma DecodeFeatures(r: PatientRecord)
    ensures Decode(Features(r)) == Some(r)
  {
    RaceEncoding();
    TStageEncoding();
    NStageEncoding();
    SixthStageEncoding();
    MaritalEncoding();
    GradeEncoding();
    AStageEncoding();
    HormoneEncoding();
  }

  /** Conversely, every row that decodes is the row of the record it decodes to. */
  lemma FeaturesDecode(v: FeatureVector, r: PatientRecord)
    requires Decode(v) == Some(r)
    ensures Features(r) == v
  {
  }

  /** Distinct records give distinct rows. */
  lemma FeaturesInjective(r1: PatientRecord, r2: PatientRecord)
    ensures Features(r1) == Features(r2) <==> r1 == r2
  {
  }

  /** The numeric fields pass through unchanged at columns 0, 8, 11 and 12. */
  lemma NumericPassThrough(r: PatientRecord)
    ensures Features(r)[0] == r.age as real
    ensures Features(r)[8] == r.tumorSize
    ensures Features(r)[11] == r.nodesExamined as real
    ensures Features(r)[12] == r.nodesPositive as real
  {
  }

  /** The node counts are not checked against each other: changing them changes columns 11
      and 12 and nothing else, whichever of the two is larger. */
  lemma NodeCountsNotCrossChecked(r: PatientRecord, examined: int, positive: int)
    ensures var v := Features(r.(nodesExamined := examined, nodesPositive := positive));
      && v[..11] == Features(r)[..11]
      && v[11] == examined as real
      && v[12] == positive as real
  {
  }

  /** A record within the widget bounds yields a row of values between 0 and 120. */
  lemma BoundedFeatures(r: PatientRecord)
    requires WithinFormBounds(r)
    ensures forall i :: 0 <= i < FeatureCount ==> 0.0 <= Features(r)[i] <= 120.0
  {
  }

  /** The record used as the worked example of the pipeline. */
  const ExampleRecord: PatientRecord :=
    PatientRecord(55, White, T2, N1, IIA, Married, Grade2, Regional, 2.5, Positive, Negative, 10, 1)

  lemma ExampleFeatures()
    ensures WithinFormBounds(ExampleRecord)
    ensures Features(ExampleRecord) == [55.0, 0.0, 1.0, 0.0, 0.0, 0.0, 1.0, 0.0, 2.5, 0.0, 1.0, 10.0, 1.0]
  {
  }
}
