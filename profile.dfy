// The applicant profile that the form collects and hands to the premium
// predictor: four bounded integers from sliders and number inputs, and eight
// closed choices from select boxes. The string labels are those the page
// offers and passes on in its input dictionary.

module Profiles {

  datatype Gender = Male | Female
  datatype MaritalStatus = Married | Unmarried
  datatype BmiCategory = Normal | Obesity | Overweight | Underweight
  datatype SmokingStatus = NoSmoking | Regular | Occasional
  datatype EmploymentStatus = Salaried | SelfEmployed | Freelancer
  datatype Region = Northwest | Southeast | Northeast | Southwest
  /** The eight disease combinations the medical history offers. */
  datatype Condition =
    | Diabetes
    | HighBloodPressure
    | DiabetesAndHighBp
    | Thyroid
    | HeartDisease
    | BpAndHeartDisease
    | DiabetesAndThyroid
    | DiabetesAndHeartDisease
  /** A medical history is either "No Disease" or one disease combination. */
  datatype MedicalHistory = NoDisease | Disease(condition: Condition)
  datatype InsurancePlan = Bronze | Silver | Gold

  // The option lists of the select boxes, in the order the page shows them.
  const GENDER_OPTIONS: seq<string> := ["Male", "Female"]
  const MARITAL_STATUS_OPTIONS: seq<string> := ["Married", "Unmarried"]
  const BMI_CATEGORY_OPTIONS: seq<string> := ["Normal", "Obesity", "Overweight", "Underweight"]
  const SMOKING_STATUS_OPTIONS: seq<string> := ["No Smoking", "Regular", "Occasional"]
  const EMPLOYMENT_STATUS_OPTIONS: seq<string> := ["Salaried", "Self-Employed", "Freelancer"]
  const REGION_OPTIONS: seq<string> := ["Northwest", "Southeast", "Northeast", "Southwest"]
  const MEDICAL_HISTORY_OPTIONS: seq<string> := [
    "No Disease", "Diabetes", "High Blood Pressure", "Diabetes & High BP",
    "Thyroid", "Heart Disease", "BP & Heart Disease", "Diabetes & Thyroid",
    "Diabetes & Heart Disease"
  ]
  const INSURANCE_PLAN_OPTIONS: seq<string> := ["Bronze", "Silver", "Gold"]

  // The label each choice carries on the page: one of the options of its
  // select box.

  function GenderLabel(g: Gender): (r: string)
    ensures r in GENDER_OPTIONS
  {
    match g
    case Male => "Male"
    case Female => "Female"
  }

  function MaritalStatusLabel(m: MaritalStatus): (r: string)
    ensures r in MARITAL_STATUS_OPTIONS
  {
    match m
    case Married => "Married"
    case Unmarried => "Unmarried"
  }

  function BmiCategoryLabel(b: BmiCategory): (r: string)
    ensures r in BMI_CATEGORY_OPTIONS
  {
    match b
    case Normal => "Normal"
    case Obesity => "Obesity"
    case Overweight => "Overweight"
    case Underweight => "Underweight"
  }

  function SmokingStatusLabel(s: SmokingStatus): (r: string)
    ensures r in SMOKING_STATUS_OPTIONS
  {
    match s
    case NoSmoking => "No Smoking"
    case Regular => "Regular"
    case Occasional => "Occasional"
  }

  function EmploymentStatusLabel(e: EmploymentStatus): (r: string)
    ensures r in EMPLOYMENT_STATUS_OPTIONS
  {
    match e
    case Salaried => "Salaried"
    case SelfEmployed => "Self-Employed"
    case Freelancer => "Freelancer"
  }

  function RegionLabel(g: Region): (r: string)
    ensures r in REGION_OPTIONS
  {
    match g
    case Northwest => "Northwest"
    case Southeast => "Southeast"
    case Northeast => "Northeast"
    case Southwest => "Southwest"
  }

  function MedicalHistoryLabel(m: MedicalHistory): (r: string)
    ensures r in MEDICAL_HISTORY_OPTIONS
  {
    match m
    case NoDisease => "No Disease"
    case Disease(c) => ConditionLabel(c)
  }

  /** The label of a disease combination: one of the options after
      "No Disease". */
  function ConditionLabel(c: Condition): (r: string)
    ensures r in MEDICAL_HISTORY_OPTIONS[1..]
  {
    match c
    case Diabetes => "Diabetes"
    case HighBloodPressure => "High Blood Pressure"
    case DiabetesAndHighBp => "Diabetes & High BP"
    case Thyroid => "Thyroid"
    case HeartDisease => "Heart Disease"
    case BpAndHeartDisease => "BP & Heart Disease"
    case DiabetesAndThyroid => "Diabetes & Thyroid"
    case DiabetesAndHeartDisease => "Diabetes & Heart Disease"
  }

  function InsurancePlanLabel(p: InsurancePlan): (r: string)
    ensures r in INSURANCE_PLAN_OPTIONS
  {
    match p
    case Bronze => "Bronze"
    case Silver => "Silver"
    case Gold => "Gold"
  }

  // Conversely, every option a select box offers is the label of exactly one
  // choice, so the datatypes above match the page's option lists one to one.

  lemma SmokingStatusOptionsCovered()
    ensures forall x :: x in SMOKING_STATUS_OPTIONS ==> exists s :: SmokingStatusLabel(s) == x
    ensures forall a, b :: SmokingStatusLabel(a) == SmokingStatusLabel(b) ==> a == b
  {
    assert SmokingStatusLabel(NoSmoking) == SMOKING_STATUS_OPTIONS[0];
    assert SmokingStatusLabel(Regular) == SMOKING_STATUS_OPTIONS[1];
    assert SmokingStatusLabel(Occasional) == SMOKING_STATUS_OPTIONS[2];
  }

  lemma MedicalHistoryOptionsCovered()
    ensures forall x :: x in MEDICAL_HISTORY_OPTIONS ==> exists m :: MedicalHistoryLabel(m) == x
    ensures forall a, b :: MedicalHistoryLabel(a) == MedicalHistoryLabel(b) ==> a == b
  {
    var histories := [
      NoDisease, Disease(Diabetes), Disease(HighBloodPressure), Disease(DiabetesAndHighBp),
      Disease(Thyroid), Disease(HeartDisease), Disease(BpAndHeartDisease),
      Disease(DiabetesAndThyroid), Disease(DiabetesAndHeartDisease)
    ];
    forall x | x in MEDICAL_HISTORY_OPTIONS ensures exists m :: MedicalHistoryLabel(m) == x {
      var i :| 0 <= i < |MEDICAL_HISTORY_OPTIONS| && MEDICAL_HISTORY_OPTIONS[i] == x;
      assert MedicalHistoryLabel(histories[i]) == x;
    }
    forall a, b | MedicalHistoryLabel(a) == MedicalHistoryLabel(b) ensures a == b {
      MedicalHistoryLabelInjective(a, b);
    }
  }

  /** Distinct medical histories carry distinct labels. */
  lemma MedicalHistoryLabelInjective(a: MedicalHistory, b: MedicalHistory)
    requires MedicalHistoryLabel(a) == MedicalHistoryLabel(b)
    ensures a == b
  {
    if a.Disease? && b.Disease? {
      assert ConditionLabel(a.condition) == ConditionLabel(b.condition);
    }
  }

  lemma BmiCategoryOptionsCovered()
    ensures forall x :: x in BMI_CATEGORY_OPTIONS ==> exists b :: BmiCategoryLabel(b) == x
    ensures forall a, b :: BmiCategoryLabel(a) == BmiCategoryLabel(b) ==> a == b
  {
    assert BmiCategoryLabel(Normal) == BMI_CATEGORY_OPTIONS[0];
    assert BmiCategoryLabel(Obesity) == BMI_CATEGORY_OPTIONS[1];
    assert BmiCategoryLabel(Overweight) == BMI_CATEGORY_OPTIONS[2];
    assert BmiCategoryLabel(Underweight) == BMI_CATEGORY_OPTIONS[3];
  }

  lemma OtherOptionsCovered()
    ensures forall x :: x in GENDER_OPTIONS ==> exists g :: GenderLabel(g) == x
    ensures forall x :: x in MARITAL_STATUS_OPTIONS ==> exists m :: MaritalStatusLabel(m) == x
    ensures forall x :: x in EMPLOYMENT_STATUS_OPTIONS ==> exists e :: EmploymentStatusLabel(e) == x
    ensures forall x :: x in REGION_OPTIONS ==> exists g :: RegionLabel(g) == x
    ensures forall x :: x in INSURANCE_PLAN_OPTIONS ==> exists p :: InsurancePlanLabel(p) == x
    ensures forall a, b :: GenderLabel(a) == GenderLabel(b) ==> a == b
    ensures forall a, b :: MaritalStatusLabel(a) == MaritalStatusLabel(b) ==> a == b
    ensures forall a, b :: EmploymentStatusLabel(a) == EmploymentStatusLabel(b) ==> a == b
    ensures forall a, b :: RegionLabel(a) == RegionLabel(b) ==> a == b
    ensures forall a, b :: InsurancePlanLabel(a) == InsurancePlanLabel(b) ==> a == b
  {
    assert GenderLabel(Male) == GENDER_OPTIONS[0];
    assert GenderLabel(Female) == GENDER_OPTIONS[1];
    assert MaritalStatusLabel(Married) == MARITAL_STATUS_OPTIONS[0];
    assert MaritalStatusLabel(Unmarried) == MARITAL_STATUS_OPTIONS[1];
    assert EmploymentStatusLabel(Salaried) == EMPLOYMENT_STATUS_OPTIONS[0];
    assert EmploymentStatusLabel(SelfEmployed) == EMPLOYMENT_STATUS_OPTIONS[1];
    assert EmploymentStatusLabel(Freelancer) == EMPLOYMENT_STATUS_OPTIONS[2];
    assert RegionLabel(Northwest) == REGION_OPTIONS[0];
    assert RegionLabel(Southeast) == REGION_OPTIONS[1];
    assert RegionLabel(Northeast) == REGION_OPTIONS[2];
    assert RegionLabel(Southwest) == REGION_OPTIONS[3];
    assert InsurancePlanLabel(Bronze) == INSURANCE_PLAN_OPTIONS[0];
    assert InsurancePlanLabel(Silver) == INSURANCE_PLAN_OPTIONS[1];
    assert InsurancePlanLabel(Gold) == INSURANCE_PLAN_OPTIONS[2];
  }

  // Bounds of the integer widgets (inclusive).
  const MIN_AGE := 18
  const MAX_AGE := 100
  const MAX_DEPENDANTS := 20
  const MAX_INCOME_LAKHS := 200
  const MAX_GENETICAL_RISK := 5

  /** The typed form of the page's input dictionary: one field per key. */
  datatype Profile = Profile(
    age: int,
    dependants: int,
    incomeLakhs: int,
    geneticalRisk: int,
    plan: InsurancePlan,
    employment: EmploymentStatus,
    gender: Gender,
    maritalStatus: MaritalStatus,
    bmi: BmiCategory,
    smoking: SmokingStatus,
    region: Region,
    medicalHistory: MedicalHistory)
  {
    /** Every integer lies in the range its widget allows (the age slider
        18 to 100, the dependants input 0 to 20, the income slider 0 to 200,
        the genetical risk slider 0 to 5); the choices are in range by
        construction. */
    predicate Valid()
      ensures Valid() ==>
        18 <= age <= 100 && 0 <= dependants <= 20 &&
        0 <= incomeLakhs <= 200 && 0 <= geneticalRisk <= 5
      ensures (18 <= age <= 100 && 0 <= dependants <= 20 &&
               0 <= incomeLakhs <= 200 && 0 <= geneticalRisk <= 5) ==> Valid()
    {
      MIN_AGE <= age <= MAX_AGE &&
      0 <= dependants <= MAX_DEPENDANTS &&
      0 <= incomeLakhs <= MAX_INCOME_LAKHS &&
      0 <= geneticalRisk <= MAX_GENETICAL_RISK
    }
  }

  /** What the form holds before the user touches it: the widgets' initial
      values, and the first option of every select box. */
  function DefaultProfile(): (p: Profile)
    ensures p.Valid()
    ensures p.age == 30 && p.dependants == 2 && p.incomeLakhs == 15 && p.geneticalRisk == 2
    ensures GenderLabel(p.gender) == GENDER_OPTIONS[0]
    ensures MaritalStatusLabel(p.maritalStatus) == MARITAL_STATUS_OPTIONS[0]
    ensures RegionLabel(p.region) == REGION_OPTIONS[0]
    ensures EmploymentStatusLabel(p.employment) == EMPLOYMENT_STATUS_OPTIONS[0]
    ensures BmiCategoryLabel(p.bmi) == BMI_CATEGORY_OPTIONS[0]
    ensures SmokingStatusLabel(p.smoking) == SMOKING_STATUS_OPTIONS[0]
    ensures MedicalHistoryLabel(p.medicalHistory) == MEDICAL_HISTORY_OPTIONS[0]
    ensures InsurancePlanLabel(p.plan) == INSURANCE_PLAN_OPTIONS[0]
  {
    Profile(30, 2, 15, 2, Bronze, Salaried, Male, Married, Normal, NoSmoking, Northwest, NoDisease)
  }
}
