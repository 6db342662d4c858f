/** The metrics calculator of app.py: body-mass index and its four-way
    status, the Mifflin-St Jeor basal metabolic rate, and the daily calorie
    target adjusted for the user's goal. Weights are in kilograms, heights in
    centimetres and ages in whole years, as the form collects them. The
    gender and goal arrive as the strings the form's select boxes return. */
module Metrics {

  const MALE := "Male"
  const FEMALE := "Female"
  const LOSE_WEIGHT := "Lose Weight"
  const GAIN_WEIGHT := "Gain Weight"
  const MAINTAIN := "Maintain Healthy Lifestyle"

  /** The form's bounds on its inputs. */
  predicate ValidWeight(weight: real) { 30.0 <= weight <= 200.0 }
  predicate ValidHeight(height: real) { 120.0 <= height <= 220.0 }
  predicate ValidAge(age: int) { 10 <= age <= 100 }

  function HeightMeters(height: real): real {
    height / 100.0
  }

  /** Body-mass index: weight over the square of the height in metres. */
  function Bmi(weight: real, height: real): (bmi: real)
    requires height > 0.0
    ensures bmi * HeightMeters(height) * HeightMeters(height) == weight
    ensures weight > 0.0 ==> bmi > 0.0
  {
    weight / (HeightMeters(height) * HeightMeters(height))
  }

  datatype BmiStatus = Underweight | NormalWeight | Overweight | Obese {
    /** The text shown next to the BMI. */
    function Label(): string {
      match this
      case Underweight => "Underweight"
      case NormalWeight => "Normal weight"
      case Overweight => "Overweight"
      case Obese => "Obese"
    }

    /** Position on the scale from thinnest to heaviest. */
    function Rank(): nat {
      match this
      case Underweight => 0
      case NormalWeight => 1
      case Overweight => 2
      case Obese => 3
    }
  }

  /** The status chain exactly as app.py tests it, one branch after
      another; a value no branch accepts falls through to Obese. */
  function Classify(bmi: real): BmiStatus {
    if bmi < 18.5 then Underweight
    else if 18.5 <= bmi < 24.9 then NormalWeight
    else if 25.0 <= bmi < 29.9 then Overweight
    else Obese
  }

  /** Each status holds on exactly one band of BMI values; Obese holds on
      two: from 29.9 up, and on the gap from 24.9 up to 25. */
  lemma ClassifyBands(bmi: real)
    ensures Classify(bmi) == Underweight <==> bmi < 18.5
    ensures Classify(bmi) == NormalWeight <==> 18.5 <= bmi < 24.9
    ensures Classify(bmi) == Overweight <==> 25.0 <= bmi < 29.9
    ensures Classify(bmi) == Obese <==> (24.9 <= bmi < 25.0 || 29.9 <= bmi)
  {
  }

  /** The text shown next to the BMI, band by band. */
  lemma StatusLabels(bmi: real)
    ensures Classify(bmi).Label() == "Underweight" <==> bmi < 18.5
    ensures Classify(bmi).Label() == "Normal weight" <==> 18.5 <= bmi < 24.9
    ensures Classify(bmi).Label() == "Overweight" <==> 25.0 <= bmi < 29.9
    ensures Classify(bmi).Label() == "Obese" <==> (24.9 <= bmi < 25.0 || 29.9 <= bmi)
  {
    ClassifyBands(bmi);
  }

  /** Away from the gap, a larger BMI never gets a lighter status. */
  lemma ClassifyMonotoneOffGap(a: real, b: real)
    requires a <= b
    requires !(24.9 <= a < 25.0) && !(24.9 <= b < 25.0)
    ensures Classify(a).Rank() <= Classify(b).Rank()
  {
  }

  /** The gap breaks that order: 24.9 is called Obese, 25 only Overweight. */
  lemma ClassifyGapNotMonotone()
    ensures Classify(24.9) == Obese && Classify(25.0) == Overweight
    ensures Classify(24.9).Rank() > Classify(25.0).Rank()
  {
  }

  /** The evident intent of the chain: the contiguous bands below 18.5,
      below 25 and below 30, with no gap between them. */
  function ClassifyIntended(bmi: real): (status: BmiStatus)
    ensures status == Underweight <==> bmi < 18.5
    ensures status == NormalWeight <==> 18.5 <= bmi < 25.0
    ensures status == Overweight <==> 25.0 <= bmi < 30.0
    ensures status == Obese <==> 30.0 <= bmi
  {
    if bmi < 18.5 then Underweight
    else if bmi < 25.0 then NormalWeight
    else if bmi < 30.0 then Overweight
    else Obese
  }

  /** The intended classification is monotone everywhere. */
  lemma ClassifyIntendedMonotone(a: real, b: real)
    requires a <= b
    ensures ClassifyIntended(a).Rank() <= ClassifyIntended(b).Rank()
  {
  }

  /** The two agree except on [24.9, 25) and [29.9, 30). */
  lemma ClassifyAgreesOffGaps(bmi: real)
    requires !(24.9 <= bmi < 25.0) && !(29.9 <= bmi < 30.0)
    ensures Classify(bmi) == ClassifyIntended(bmi)
  {
  }

  /** Basal metabolic rate by Mifflin-St Jeor; every gender other than
      "Male" takes the female constant. */
  function Bmr(weight: real, height: real, age: int, gender: string): real {
    if gender == MALE then 10.0 * weight + 6.25 * height - 5.0 * age as real + 5.0
    else 10.0 * weight + 6.25 * height - 5.0 * age as real - 161.0
  }

  /** The male and female formulas differ by the constant 166 only. */
  lemma MaleMinusFemale(weight: real, height: real, age: int, gender: string)
    requires gender != MALE
    ensures Bmr(weight, height, age, MALE) - Bmr(weight, height, age, gender) == 166.0
    ensures Bmr(weight, height, age, gender) == Bmr(weight, height, age, FEMALE)
  {
  }

  /** The change the goal makes to the calorie target; goals other than
      losing or gaining weight make none. */
  function GoalAdjustment(goal: string): (delta: real)
    ensures goal == LOSE_WEIGHT ==> delta == -400.0
    ensures goal == GAIN_WEIGHT ==> delta == 400.0
    ensures goal != LOSE_WEIGHT && goal != GAIN_WEIGHT ==> delta == 0.0
  {
    if goal == LOSE_WEIGHT then -400.0
    else if goal == GAIN_WEIGHT then 400.0
    else 0.0
  }

  /** Daily calorie target: the BMR at light activity (factor 1.2), moved
      by the goal's adjustment. */
  function CalorieTarget(weight: real, height: real, age: int, gender: string, goal: string): real {
    1.2 * Bmr(weight, height, age, gender) + GoalAdjustment(goal)
  }

  /** The calorie estimate as app.py computes it: the light-activity
      figure first, then `-=` or `+=` by the goal. */
  method EstimateCalories(weight: real, height: real, age: int, gender: string, goal: string)
    returns (calories: real)
    ensures calories == CalorieTarget(weight, height, age, gender, goal)
  {
    var bmr := Bmr(weight, height, age, gender);
    calories := bmr * 1.2;
    if goal == LOSE_WEIGHT {
      calories := calories - 400.0;
    } else if goal == GAIN_WEIGHT {
      calories := calories + 400.0;
    }
  }

  /** Maintaining is the plain light-activity figure; losing and gaining
      are 400 below and above it, so they are 800 apart. */
  lemma CalorieTargetByGoal(weight: real, height: real, age: int, gender: string)
    ensures CalorieTarget(weight, height, age, gender, MAINTAIN) == 1.2 * Bmr(weight, height, age, gender)
    ensures CalorieTarget(weight, height, age, gender, LOSE_WEIGHT) == 1.2 * Bmr(weight, height, age, gender) - 400.0
    ensures CalorieTarget(weight, height, age, gender, GAIN_WEIGHT) == 1.2 * Bmr(weight, height, age, gender) + 400.0
    ensures CalorieTarget(weight, height, age, gender, GAIN_WEIGHT)
          - CalorieTarget(weight, height, age, gender, LOSE_WEIGHT) == 800.0
  {
  }

  /** For a fixed gender and goal the target rises with weight and height
      and falls with age: 12 kcal per kg, 7.5 per cm, 6 per year. */
  lemma CalorieTargetMonotone(w1: real, w2: real, h1: real, h2: real, a1: int, a2: int, gender: string, goal: string)
    requires w1 <= w2 && h1 <= h2 && a1 >= a2
    ensures CalorieTarget(w1, h1, a1, gender, goal) <= CalorieTarget(w2, h2, a2, gender, goal)
    ensures CalorieTarget(w2, h2, a2, gender, goal) - CalorieTarget(w1, h1, a1, gender, goal)
          == 12.0 * (w2 - w1) + 7.5 * (h2 - h1) + 6.0 * (a1 - a2) as real
  {
  }

  /** 60 kg, 165 cm, 25 years, female, maintaining: a BMI of about 22.04
      (Normal weight), a BMR of 600 + 1031.25 - 125 - 161 = 1345.25 and a
      target of 1614.3 kcal. */
  lemma WorkedExample()
    ensures 22.03 < Bmi(60.0, 165.0) < 22.04
    ensures Classify(Bmi(60.0, 165.0)) == NormalWeight
    ensures Bmr(60.0, 165.0, 25, FEMALE) == 1345.25
    ensures CalorieTarget(60.0, 165.0, 25, FEMALE, MAINTAIN) == 1614.3
  {
  }
}
