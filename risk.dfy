// The risk classifier that runs after a successful premium prediction: an
// integer score built from smoking status, medical history, BMI category and
// age, then cut into three levels, each shown in its own colour.

module Risk {
  import opened Profiles

  /** The levels' words and colours, in rank order. */
  const LEVEL_WORDS: seq<string> := ["Low", "Medium", "High"]
  const LEVEL_COLOURS: seq<string> := ["#4CAF50", "#FF9800", "#F44336"]

  datatype RiskLevel = Low | Medium | High {
    /** The word shown on the result card: the levels' words in rank order. */
    function Label(): (r: string)
      ensures r == LEVEL_WORDS[Rank()]
    {
      match this
      case Low => "Low"
      case Medium => "Medium"
      case High => "High"
    }

    /** The colour the word is shown in: green, orange and red in rank
        order. */
    function Colour(): (r: string)
      ensures r == LEVEL_COLOURS[Rank()]
    {
      match this
      case Low => "#4CAF50"
      case Medium => "#FF9800"
      case High => "#F44336"
    }

    /** Position in the order Low < Medium < High. */
    function Rank(): nat {
      match this
      case Low => 0
      case Medium => 1
      case High => 2
    }
  }

  /** Ages strictly above this add a point. */
  const AGE_THRESHOLD := 50
  /** Highest score still classified Low. */
  const LOW_MAX_SCORE := 1
  /** Highest score still classified Medium. */
  const MEDIUM_MAX_SCORE := 3

  // What each factor adds to the score, one function per factor.

  function SmokingPoints(s: SmokingStatus): nat {
    match s
    case Regular => 3
    case Occasional => 1
    case NoSmoking => 0
  }

  function MedicalHistoryPoints(m: MedicalHistory): nat {
    if m != NoDisease then 2 else 0
  }

  predicate IsOverweightOrObese(b: BmiCategory) {
    b == Obesity || b == Overweight
  }

  function BmiPoints(b: BmiCategory): nat {
    if IsOverweightOrObese(b) then 1 else 0
  }

  function AgePoints(age: int): nat {
    if age > AGE_THRESHOLD then 1 else 0
  }

  /** The risk score: the sum of the four factors' points, never more than
      3 + 2 + 1 + 1. */
  function RiskScore(s: SmokingStatus, m: MedicalHistory, b: BmiCategory, age: int): (r: int)
    ensures 0 <= r <= 7
  {
    SmokingPoints(s) + MedicalHistoryPoints(m) + BmiPoints(b) + AgePoints(age)
  }

  /** The score as the page accumulates it: start at zero and add each
      factor's points in turn. */
  method ComputeRiskScore(s: SmokingStatus, m: MedicalHistory, b: BmiCategory, age: int)
    returns (score: int)
    ensures score == RiskScore(s, m, b, age)
  {
    score := 0;
    if s == Regular {
      score := score + 3;
    } else if s == Occasional {
      score := score + 1;
    }
    if m != NoDisease {
      score := score + 2;
    }
    if IsOverweightOrObese(b) {
      score := score + 1;
    }
    if age > AGE_THRESHOLD {
      score := score + 1;
    }
  }

  /** The level a score falls into: at most 1 is Low, 2 and 3 are Medium,
      4 and more are High. */
  function LevelOf(score: int): (r: RiskLevel)
    ensures r == Low <==> score <= 1
    ensures r == Medium <==> 2 <= score <= 3
    ensures r == High <==> score >= 4
  {
    if score <= LOW_MAX_SCORE then Low
    else if score <= MEDIUM_MAX_SCORE then Medium
    else High
  }

  /** The risk level of the four factors, characterised directly: High when
      a regular smoker has any other factor, or a medical history comes with
      two further factors; Low when there is no medical history and at most
      one point from smoking, BMI and age together. */
  function Classify(s: SmokingStatus, m: MedicalHistory, b: BmiCategory, age: int): (r: RiskLevel)
    ensures r == High <==>
      (s == Regular && (m != NoDisease || IsOverweightOrObese(b) || age > AGE_THRESHOLD)) ||
      (m != NoDisease && s == Occasional && (IsOverweightOrObese(b) || age > AGE_THRESHOLD)) ||
      (m != NoDisease && s == NoSmoking && IsOverweightOrObese(b) && age > AGE_THRESHOLD)
    ensures r == Low <==>
      m == NoDisease &&
      ((s == NoSmoking && !(IsOverweightOrObese(b) && age > AGE_THRESHOLD)) ||
       (s == Occasional && !IsOverweightOrObese(b) && age <= AGE_THRESHOLD))
  {
    LevelOf(RiskScore(s, m, b, age))
  }

  function ProfileRiskScore(p: Profile): int {
    RiskScore(p.smoking, p.medicalHistory, p.bmi, p.age)
  }

  /** The risk level of a whole profile, read from its four risk fields. */
  function ProfileRiskLevel(p: Profile): RiskLevel {
    Classify(p.smoking, p.medicalHistory, p.bmi, p.age)
  }

  // ---------------------------------------------------------------------
  // Properties of the score

  /** The points agree with the page's comparisons on the labels it passes
      on: "Regular" adds 3 and "Occasional" 1, any history other than
      "No Disease" adds 2, and "Obesity" or "Overweight" add 1. */
  lemma PointsFollowLabels(s: SmokingStatus, m: MedicalHistory, b: BmiCategory)
    ensures SmokingPoints(s) ==
      if SmokingStatusLabel(s) == "Regular" then 3
      else if SmokingStatusLabel(s) == "Occasional" then 1
      else 0
    ensures MedicalHistoryPoints(m) == if MedicalHistoryLabel(m) != "No Disease" then 2 else 0
    ensures BmiPoints(b) == if BmiCategoryLabel(b) in ["Obesity", "Overweight"] then 1 else 0
  {
  }

  /** Regular smoking adds 3, occasional smoking 1, no smoking nothing. */
  lemma SmokingContribution(m: MedicalHistory, b: BmiCategory, age: int)
    ensures RiskScore(Regular, m, b, age) == RiskScore(NoSmoking, m, b, age) + 3
    ensures RiskScore(Occasional, m, b, age) == RiskScore(NoSmoking, m, b, age) + 1
  {
  }

  /** Every medical history other than "No Disease" adds exactly 2, whichever
      disease label it is. */
  lemma MedicalHistoryContribution(s: SmokingStatus, m: MedicalHistory, b: BmiCategory, age: int)
    ensures m != NoDisease ==> RiskScore(s, m, b, age) == RiskScore(s, NoDisease, b, age) + 2
  {
  }

  /** Only Obesity and Overweight add a point; Normal and Underweight score
      alike. */
  lemma BmiContribution(s: SmokingStatus, m: MedicalHistory, age: int)
    ensures RiskScore(s, m, Obesity, age) == RiskScore(s, m, Normal, age) + 1
    ensures RiskScore(s, m, Overweight, age) == RiskScore(s, m, Normal, age) + 1
    ensures RiskScore(s, m, Underweight, age) == RiskScore(s, m, Normal, age)
  {
  }

  /** Age adds a point strictly above 50: 50 adds nothing, 51 adds one. */
  lemma AgeContribution(s: SmokingStatus, m: MedicalHistory, b: BmiCategory, age: int)
    ensures age <= AGE_THRESHOLD ==> RiskScore(s, m, b, age) == RiskScore(s, m, b, 50)
    ensures age > AGE_THRESHOLD ==> RiskScore(s, m, b, age) == RiskScore(s, m, b, 51)
    ensures RiskScore(s, m, b, 51) == RiskScore(s, m, b, 50) + 1
  {
  }

  /** Every score from 0 to 7 is the score of some valid profile, so the
      bound of RiskScore is tight. */
  lemma ScoreAttainable(n: int)
    requires 0 <= n <= 7
    ensures exists p: Profile :: p.Valid() && ProfileRiskScore(p) == n
  {
    var p := DefaultProfile();
    var q :=
      if n == 0 then p
      else if n == 1 then p.(smoking := Occasional)
      else if n == 2 then p.(medicalHistory := Disease(Diabetes))
      else if n == 3 then p.(smoking := Regular)
      else if n == 4 then p.(smoking := Regular, bmi := Obesity)
      else if n == 5 then p.(smoking := Regular, medicalHistory := Disease(Thyroid))
      else if n == 6 then p.(smoking := Regular, medicalHistory := Disease(HeartDisease), age := 60)
      else p.(smoking := Regular, medicalHistory := Disease(HeartDisease), bmi := Overweight, age := 60);
    assert q.Valid() && ProfileRiskScore(q) == n;
  }

  // ---------------------------------------------------------------------
  // Properties of the level

  /** What the result card shows for a score: the word and the colour of
      its level, cut at 1 and 3. */
  lemma LevelThresholds(score: int)
    ensures LevelOf(score).Label() ==
      if score <= 1 then "Low" else if score <= 3 then "Medium" else "High"
    ensures LevelOf(score).Colour() ==
      if score <= 1 then "#4CAF50" else if score <= 3 then "#FF9800" else "#F44336"
  {
  }

  /** A higher score never gives a lower level. */
  lemma LevelOfMonotone(a: int, b: int)
    requires a <= b
    ensures LevelOf(a).Rank() <= LevelOf(b).Rank()
  {
  }

  /** Moving any factor to a value that scores at least as much never lowers
      the level. */
  lemma ClassifyMonotone(
    s1: SmokingStatus, m1: MedicalHistory, b1: BmiCategory, age1: int,
    s2: SmokingStatus, m2: MedicalHistory, b2: BmiCategory, age2: int)
    requires SmokingPoints(s1) <= SmokingPoints(s2)
    requires MedicalHistoryPoints(m1) <= MedicalHistoryPoints(m2)
    requires BmiPoints(b1) <= BmiPoints(b2)
    requires age1 <= age2
    ensures Classify(s1, m1, b1, age1).Rank() <= Classify(s2, m2, b2, age2).Rank()
  {
    LevelOfMonotone(RiskScore(s1, m1, b1, age1), RiskScore(s2, m2, b2, age2));
  }

  /** A regular smoker with any one other factor present is High. */
  lemma RegularSmokerWithOtherFactorIsHigh(m: MedicalHistory, b: BmiCategory, age: int)
    requires m != NoDisease || IsOverweightOrObese(b) || age > AGE_THRESHOLD
    ensures Classify(Regular, m, b, age) == High
  {
  }

  /** No smoking, no disease, normal BMI and an age of at most 50 score 0,
      which is Low. */
  lemma NoFactorIsLow(b: BmiCategory, age: int)
    requires !IsOverweightOrObese(b) && age <= AGE_THRESHOLD
    ensures RiskScore(NoSmoking, NoDisease, b, age) == 0
    ensures Classify(NoSmoking, NoDisease, b, age) == Low
  {
  }

  /** Gender, region, income, dependants, genetical risk, employment, marital
      status and plan never affect the level. */
  lemma LevelIgnoresOtherFields(p: Profile, q: Profile)
    requires p.smoking == q.smoking && p.medicalHistory == q.medicalHistory
    requires p.bmi == q.bmi && p.age == q.age
    ensures ProfileRiskLevel(p) == ProfileRiskLevel(q)
  {
  }

  /** Every level is the level of some valid profile. */
  lemma EveryLevelAttainable(l: RiskLevel)
    ensures exists p: Profile :: p.Valid() && ProfileRiskLevel(p) == l
  {
    var n := match l case Low => 0 case Medium => 2 case High => 7;
    ScoreAttainable(n);
    var p: Profile :| p.Valid() && ProfileRiskScore(p) == n;
    assert ProfileRiskLevel(p) == l;
  }

  /** The form as first shown classifies as Low. */
  lemma DefaultProfileIsLow()
    ensures ProfileRiskScore(DefaultProfile()) == 0
    ensures ProfileRiskLevel(DefaultProfile()) == Low
  {
  }

  /** Three worked examples: 3+2+1+1 is High, 1 is Low, 0+2+1+0 is Medium. */
  lemma WorkedExamples()
    ensures RiskScore(Regular, Disease(HeartDisease), Obesity, 60) == 7
    ensures Classify(Regular, Disease(HeartDisease), Obesity, 60) == High
    ensures RiskScore(Occasional, NoDisease, Normal, 30) == 1
    ensures Classify(Occasional, NoDisease, Normal, 30) == Low
    ensures RiskScore(NoSmoking, Disease(Diabetes), Overweight, 45) == 3
    ensures Classify(NoSmoking, Disease(Diabetes), Overweight, 45) == Medium
  {
  }
}
