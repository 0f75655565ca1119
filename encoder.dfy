/**
 * The feature encoder: one form submission becomes the single row of
 * fourteen numbers handed to the trained classifier, in the column order the
 * classifier was trained on.
 */
module Encoder {
  import opened Patient

  datatype Option<T> = None | Some(value: T)

  /** Number of features the classifier expects. */
  const Width := 14

  /** Column names of the row, in order. */
  const Columns: seq<string> := [
    "male", "age", "currentSmoker", "cigsPerDay", "BPMeds",
    "prevalentStroke", "prevalentHyp", "diabetes", "totChol",
    "sysBP", "diaBP", "BMI", "heartRate", "glucose"
  ]

  /** Positions of the columns in the row. */
  const MaleAt := 0
  const AgeAt := 1
  const CurrentSmokerAt := 2
  const CigsPerDayAt := 3
  const BPMedsAt := 4
  const PrevalentStrokeAt := 5
  const PrevalentHypAt := 6
  const DiabetesAt := 7
  const TotCholAt := 8
  const SysBPAt := 9
  const DiaBPAt := 10
  const BmiAt := 11
  const HeartRateAt := 12
  const GlucoseAt := 13

  /** Positions holding a 0/1 encoding of a two-option answer. */
  const FlagPositions: set<int> :=
    {MaleAt, CurrentSmokerAt, BPMedsAt, PrevalentStrokeAt, PrevalentHypAt, DiabetesAt}

  /** 1 for "Male", 0 for "Female". */
  function SexFlag(s: Sex): (f: real)
    ensures f == 1.0 <==> s == Male
    ensures f == 0.0 <==> s == Female
  {
    match s
    case Male => 1.0
    case Female => 0.0
  }

  /** 1 for "Yes", 0 for "No". */
  function YesNoFlag(a: YesNo): (f: real)
    ensures f == 1.0 <==> a == Yes
    ensures f == 0.0 <==> a == No
  {
    match a
    case Yes => 1.0
    case No => 0.0
  }

  /** 1 when the box is checked, 0 otherwise. */
  function BoolFlag(b: bool): (f: real)
    ensures f == 1.0 <==> b
    ensures f == 0.0 <==> !b
  {
    if b then 1.0 else 0.0
  }

  /** The feature row for a record; entry i is the value of column `Columns[i]`. */
  function Encode(r: RawRecord): (v: seq<real>)
    ensures |v| == Width == |Columns|
  {
    [
      SexFlag(r.sex),
      r.age as real,
      YesNoFlag(r.currentSmoker),
      r.cigsPerDay as real,
      YesNoFlag(r.bpMeds),
      YesNoFlag(r.prevalentStroke),
      YesNoFlag(r.prevalentHyp),
      BoolFlag(r.diabetes),
      r.totChol as real,
      r.sysBP as real,
      r.diaBP as real,
      r.bmi,
      r.heartRate as real,
      r.glucose as real
    ]
  }

  /**
   * Reference definition of the row by column name, written independently of
   * the positional list: the value the classifier should see under `name`.
   * Exactly the fourteen names of `Columns` carry a value; every other name
   * gives `None`.
   */
  function Field(r: RawRecord, name: string): Option<real> {
    match name
    case "male" => Some(if r.sex == Male then 1.0 else 0.0)
    case "age" => Some(r.age as real)
    case "currentSmoker" => Some(if r.currentSmoker == Yes then 1.0 else 0.0)
    case "cigsPerDay" => Some(r.cigsPerDay as real)
    case "BPMeds" => Some(if r.bpMeds == Yes then 1.0 else 0.0)
    case "prevalentStroke" => Some(if r.prevalentStroke == Yes then 1.0 else 0.0)
    case "prevalentHyp" => Some(if r.prevalentHyp == Yes then 1.0 else 0.0)
    case "diabetes" => Some(if r.diabetes then 1.0 else 0.0)
    case "totChol" => Some(r.totChol as real)
    case "sysBP" => Some(r.sysBP as real)
    case "diaBP" => Some(r.diaBP as real)
    case "BMI" => Some(r.bmi)
    case "heartRate" => Some(r.heartRate as real)
    case "glucose" => Some(r.glucose as real)
    case _ => None
  }

  /** No column name occurs twice, so a name picks out exactly one position. */
  lemma ColumnsDistinct()
    ensures forall i, j :: 0 <= i < j < |Columns| ==> Columns[i] != Columns[j]
  {
  }

  /** Every entry of the row is the value its column name stands for. */
  lemma EncodeMatchesColumns(r: RawRecord)
    ensures forall i :: 0 <= i < Width ==> Field(r, Columns[i]) == Some(Encode(r)[i])
  {
  }

  /** Each two-option answer sits at its own position as 1 exactly for "Male"/"Yes"/checked. */
  lemma FlagEntries(r: RawRecord)
    ensures Encode(r)[MaleAt] == 1.0 <==> r.sex == Male
    ensures Encode(r)[CurrentSmokerAt] == 1.0 <==> r.currentSmoker == Yes
    ensures Encode(r)[BPMedsAt] == 1.0 <==> r.bpMeds == Yes
    ensures Encode(r)[PrevalentStrokeAt] == 1.0 <==> r.prevalentStroke == Yes
    ensures Encode(r)[PrevalentHypAt] == 1.0 <==> r.prevalentHyp == Yes
    ensures Encode(r)[DiabetesAt] == 1.0 <==> r.diabetes
    ensures forall i :: i in FlagPositions ==> Encode(r)[i] == 0.0 || Encode(r)[i] == 1.0
  {
  }

  /** Numeric answers appear unchanged: no rounding, clamping or unit conversion. */
  lemma NumericEntries(r: RawRecord)
    ensures Encode(r)[AgeAt] == r.age as real
    ensures Encode(r)[CigsPerDayAt] == r.cigsPerDay as real
    ensures Encode(r)[TotCholAt] == r.totChol as real
    ensures Encode(r)[SysBPAt] == r.sysBP as real
    ensures Encode(r)[DiaBPAt] == r.diaBP as real
    ensures Encode(r)[BmiAt] == r.bmi
    ensures Encode(r)[HeartRateAt] == r.heartRate as real
    ensures Encode(r)[GlucoseAt] == r.glucose as real
  {
  }

  /**
   * The cigarettes-per-day entry does not depend on the smoker answer: it is
   * sent as entered even when the patient says they do not smoke.
   */
  lemma CigsIndependentOfSmoker(r: RawRecord, s: YesNo)
    ensures Encode(r.(currentSmoker := s))[CigsPerDayAt] == r.cigsPerDay as real
    ensures forall i :: 0 <= i < Width && i != CurrentSmokerAt ==>
              Encode(r.(currentSmoker := s))[i] == Encode(r)[i]
  {
  }

  /** Lower bound of each column over all records the form can produce. */
  const Lo: seq<real> := [0.0, AgeMin as real, 0.0, CigsMin as real, 0.0, 0.0, 0.0, 0.0,
                          TotCholMin as real, SysBPMin as real, DiaBPMin as real, BmiMin,
                          HeartRateMin as real, GlucoseMin as real]
  /** Upper bound of each column over all records the form can produce. */
  const Hi: seq<real> := [1.0, AgeMax as real, 1.0, CigsMax as real, 1.0, 1.0, 1.0, 1.0,
                          TotCholMax as real, SysBPMax as real, DiaBPMax as real, BmiMax,
                          HeartRateMax as real, GlucoseMax as real]

  /** Every entry of `v` lies within its column's range. */
  predicate InRange(v: seq<real>)
    requires |v| == Width
  {
    forall i :: 0 <= i < Width ==> Lo[i] <= v[i] <= Hi[i]
  }

  /**
   * A record is within the widget bounds exactly when every entry of its row
   * is within its column's range: the encoder neither widens nor narrows the
   * input domain.
   */
  lemma ValidIffInRange(r: RawRecord)
    ensures Valid(r) <==> InRange(Encode(r))
  {
    var v := Encode(r);
    if InRange(v) {
      assert Lo[AgeAt] <= v[AgeAt] <= Hi[AgeAt];
      assert Lo[CigsPerDayAt] <= v[CigsPerDayAt] <= Hi[CigsPerDayAt];
      assert Lo[TotCholAt] <= v[TotCholAt] <= Hi[TotCholAt];
      assert Lo[SysBPAt] <= v[SysBPAt] <= Hi[SysBPAt];
      assert Lo[DiaBPAt] <= v[DiaBPAt] <= Hi[DiaBPAt];
      assert Lo[BmiAt] <= v[BmiAt] <= Hi[BmiAt];
      assert Lo[HeartRateAt] <= v[HeartRateAt] <= Hi[HeartRateAt];
      assert Lo[GlucoseAt] <= v[GlucoseAt] <= Hi[GlucoseAt];
    }
  }

  /** Two records with the same row are the same record. */
  lemma EncodeInjective(a: RawRecord, b: RawRecord)
    ensures Encode(a) == Encode(b) <==> a == b
  {
  }

  /** The worked example: a 55-year-old male smoker with hypertension. */
  lemma ExampleRow()
    ensures Encode(RawRecord(55, Male, 28.0, 110, No, Yes, 240, 80, 150, 95, No, Yes, 10, false))
         == [1.0, 55.0, 1.0, 10.0, 0.0, 0.0, 1.0, 0.0, 240.0, 150.0, 95.0, 28.0, 80.0, 110.0]
  {
  }
}
