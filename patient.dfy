/**
 * The raw clinical record a patient enters on the form, and the input domain
 * that the form's widgets impose on it.
 *
 * The application never checks these bounds itself: each slider, number box,
 * radio group and checkbox can only produce values inside its own range, so
 * `Valid` describes every record that can reach the encoder rather than a
 * test the code performs.
 */
module Patient {

  /** A two-option answer to the "Sex" radio group. */
  datatype Sex = Female | Male

  /** A two-option answer to a "No"/"Yes" radio group. */
  datatype YesNo = No | Yes

  /**
   * One submission of the patient form. Fields that come from integer
   * widgets (every slider, and every number box whose bounds are integers)
   * are `int`; the BMI box has real bounds and yields a real.
   * `diabetes` is a checkbox, hence a `bool`.
   */
  datatype RawRecord = RawRecord(
    age: int,
    sex: Sex,
    bmi: real,
    glucose: int,
    prevalentStroke: YesNo,
    prevalentHyp: YesNo,
    totChol: int,
    heartRate: int,
    sysBP: int,
    diaBP: int,
    bpMeds: YesNo,
    currentSmoker: YesNo,
    cigsPerDay: int,
    diabetes: bool
  )

  // Widget bounds, inclusive at both ends.
  const AgeMin := 30
  const AgeMax := 80
  const BmiMin := 15.0
  const BmiMax := 40.0
  const GlucoseMin := 60
  const GlucoseMax := 300
  const TotCholMin := 100
  const TotCholMax := 600
  const HeartRateMin := 50
  const HeartRateMax := 120
  const SysBPMin := 80
  const SysBPMax := 200
  const DiaBPMin := 60
  const DiaBPMax := 120
  const CigsMin := 0
  const CigsMax := 40

  /** A record the form's widgets can produce. */
  predicate Valid(r: RawRecord) {
    && AgeMin <= r.age <= AgeMax
    && BmiMin <= r.bmi <= BmiMax
    && GlucoseMin <= r.glucose <= GlucoseMax
    && TotCholMin <= r.totChol <= TotCholMax
    && HeartRateMin <= r.heartRate <= HeartRateMax
    && SysBPMin <= r.sysBP <= SysBPMax
    && DiaBPMin <= r.diaBP <= DiaBPMax
    && CigsMin <= r.cigsPerDay <= CigsMax
  }

  /** The record the form shows before the user changes anything. */
  const Default := RawRecord(45, Female, 25.0, 100, No, No, 200, 75, 120, 80, No, No, 0, false)

  lemma DefaultIsValid()
    ensures Valid(Default)
  {
  }
}
