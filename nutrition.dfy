/** The nutrition tab and the example-meal tab of the web front end: basal metabolic
    rate, daily energy expenditure, the goal-dependent calorie target, the macronutrient
    ranges and the water target, all in exact real arithmetic. */
module Nutrition {
  import opened Plan
  import opened Wrappers

  /** Basal metabolic rate in kcal/day, the Roza–Shizgal revision of the Harris–Benedict
      equation, with weight in kg, height in cm and age in years. */
  function Bmr(sex: Sex, weight: real, height: real, age: int): real
  {
    match sex
    case Male => 88.362 + 13.397 * weight + 4.799 * height - 5.677 * (age as real)
    case Female => 447.593 + 9.247 * weight + 3.098 * height - 4.330 * (age as real)
  }

  /** Heavier or taller raises the rate, older lowers it, for either sex. */
  lemma BmrMonotone(sex: Sex, w1: real, w2: real, h1: real, h2: real, a1: int, a2: int)
    requires w1 <= w2 && h1 <= h2 && a2 <= a1
    ensures Bmr(sex, w1, h1, a1) <= Bmr(sex, w2, h2, a2)
  {
  }

  /** Activity multiplier per weekly training frequency. */
  const ActivityMultipliers: map<int, real> := map[3 := 1.375, 4 := 1.55, 5 := 1.725, 6 := 1.9, 7 := 1.9]

  /** `activity_multipliers.get(frequency, 1.55)`. */
  function ActivityMultiplier(frequency: int): (m: real)
    ensures m > 1.0
    ensures m in {1.375, 1.55, 1.725, 1.9}
  {
    if frequency in ActivityMultipliers then ActivityMultipliers[frequency] else 1.55
  }

  /** The table entry by entry, with 1.55 for every frequency outside it. */
  lemma ActivityMultiplierTable(frequency: int)
    ensures frequency == 3 ==> ActivityMultiplier(frequency) == 1.375
    ensures frequency == 4 ==> ActivityMultiplier(frequency) == 1.55
    ensures frequency == 5 ==> ActivityMultiplier(frequency) == 1.725
    ensures frequency == 6 || frequency == 7 ==> ActivityMultiplier(frequency) == 1.9
    ensures !(3 <= frequency <= 7) ==> ActivityMultiplier(frequency) == 1.55
  {
  }

  /** Total daily energy expenditure. */
  function Tdee(bmr: real, frequency: int): real
  {
    bmr * ActivityMultiplier(frequency)
  }

  /** Every multiplier exceeds one, so a positive BMR always gives a larger TDEE. */
  lemma TdeeExceedsBmr(bmr: real, frequency: int)
    requires bmr > 0.0
    ensures Tdee(bmr, frequency) > bmr
  {
    var m := ActivityMultiplier(frequency);
    assert Tdee(bmr, frequency) - bmr == bmr * (m - 1.0);
    assert m - 1.0 > 0.0;
  }

  /** The four branches of the calorie-target dispatch on the goal text. */
  datatype CalorieCase = Deficit | Surplus | Recomp | Maintain

  /** The if/elif chain: fat loss without muscle gain, muscle gain without fat loss,
      the combined label, and everything else. */
  function CalorieCaseOf(g: Goal): CalorieCase
  {
    if ContainsLoss(g) && !ContainsGain(g) then Deficit
    else if ContainsGain(g) && !ContainsLoss(g) then Surplus
    else if ContainsCombined(g) then Recomp
    else Maintain
  }

  /** kcal/day added to TDEE in each branch. */
  function Adjustment(c: CalorieCase): real
  {
    match c
    case Deficit => -500.0
    case Surplus => 300.0
    case Recomp => -200.0
    case Maintain => 0.0
  }

  /** The note shown under the calorie metrics. */
  function CalorieNote(c: CalorieCase): string
  {
    match c
    case Deficit => "체중 감량을 위한 칼로리 적자"
    case Surplus => "근육 증가를 위한 칼로리 흑자"
    case Recomp => "바디 리컴포지션"
    case Maintain => "체중 유지"
  }

  function TargetCalories(tdee: real, g: Goal): real
  {
    tdee + Adjustment(CalorieCaseOf(g))
  }

  /** Which branch each of the five goals takes. */
  lemma CalorieCasePerGoal(g: Goal)
    ensures CalorieCaseOf(g) == match g
                                case WeightLoss => Deficit
                                case MuscleGain => Surplus
                                case Recomposition => Recomp
                                case Fitness => Maintain
                                case Maintenance => Maintain
  {
    GoalKeywords(g);
  }

  /** The three guards of the chain never hold together, so its order does not matter,
      and the final `else` is taken exactly by "체력 향상" and "건강 유지". */
  lemma CalorieGuardsExclusive(g: Goal)
    ensures var lossOnly := ContainsLoss(g) && !ContainsGain(g);
            var gainOnly := ContainsGain(g) && !ContainsLoss(g);
            var combined := ContainsCombined(g);
            && !(lossOnly && gainOnly) && !(lossOnly && combined) && !(gainOnly && combined)
            && (!lossOnly && !gainOnly && !combined <==> g == Fitness || g == Maintenance)
  {
    GoalKeywords(g);
  }

  /** The calorie target per goal: TDEE − 500 for fat loss, + 300 for muscle gain,
      − 200 for the combined goal, TDEE itself for fitness and maintenance. */
  lemma TargetCaloriesPerGoal(tdee: real, g: Goal)
    ensures g == WeightLoss ==> TargetCalories(tdee, g) == tdee - 500.0
    ensures g == MuscleGain ==> TargetCalories(tdee, g) == tdee + 300.0
    ensures g == Recomposition ==> TargetCalories(tdee, g) == tdee - 200.0
    ensures g == Fitness || g == Maintenance ==> TargetCalories(tdee, g) == tdee
  {
    CalorieCasePerGoal(g);
  }

  /** The note shown under the calorie metrics, per goal; the four notes are distinct, so
      the note tells the branch taken. */
  lemma CalorieNotePerGoal(g: Goal)
    ensures CalorieNote(CalorieCaseOf(g)) == match g
                                             case WeightLoss => "체중 감량을 위한 칼로리 적자"
                                             case MuscleGain => "근육 증가를 위한 칼로리 흑자"
                                             case Recomposition => "바디 리컴포지션"
                                             case Fitness => "체중 유지"
                                             case Maintenance => "체중 유지"
    ensures forall c1, c2 :: CalorieNote(c1) == CalorieNote(c2) ==> c1 == c2
  {
    CalorieCasePerGoal(g);
  }

  /** A closed interval of grams (or litres) per day. */
  datatype Range = Range(lo: real, hi: real)

  /** Protein in g/day: 1.8–2.2 g/kg when the goal mentions muscle gain, else 1.6–2.0 g/kg. */
  function ProteinRange(weight: real, g: Goal): Range
  {
    if ContainsGain(g) then Range(weight * 1.8, weight * 2.2)
    else Range(weight * 1.6, weight * 2.0)
  }

  /** The carbohydrate and fat factors in g/kg: the fat-loss keyword is tested first, so the
      combined goal takes the fat-loss factors. */
  function CarbFatFactors(g: Goal): (real, real)
  {
    if ContainsLoss(g) then (2.0, 0.8)
    else if ContainsGain(g) then (4.0, 1.0)
    else (3.0, 0.9)
  }

  function CarbRange(weight: real, g: Goal): Range
  {
    var (carb, _) := CarbFatFactors(g);
    Range(weight * carb, weight * (carb + 0.5))
  }

  function FatRange(weight: real, g: Goal): Range
  {
    var (_, fat) := CarbFatFactors(g);
    Range(weight * fat, weight * (fat + 0.2))
  }

  /** Water in litres per day: 35 ml per kg. */
  function WaterTarget(weight: real): real
  {
    weight * 0.035
  }

  /** Everything the nutrition tab computes for one profile, goal and frequency. */
  datatype Guide = Guide(bmr: real, tdee: real, target: real, calorieCase: CalorieCase,
                         protein: Range, carbs: Range, fat: Range, water: real)

  function NutritionGuide(p: Profile, g: Goal, frequency: int): Guide
  {
    var bmr := Bmr(p.sex, p.weight, p.height, p.age);
    var tdee := Tdee(bmr, frequency);
    Guide(bmr, tdee, TargetCalories(tdee, g), CalorieCaseOf(g),
          ProteinRange(p.weight, g), CarbRange(p.weight, g), FatRange(p.weight, g),
          WaterTarget(p.weight))
  }

  /** Protein per goal, its per-kg factors, and a non-empty range for any positive weight. */
  lemma ProteinPerGoal(weight: real, g: Goal)
    requires weight > 0.0
    ensures var r := ProteinRange(weight, g);
            && (g == MuscleGain || g == Recomposition ==> r == Range(weight * 1.8, weight * 2.2))
            && (g != MuscleGain && g != Recomposition ==> r == Range(weight * 1.6, weight * 2.0))
            && 0.0 < r.lo < r.hi
  {
    GoalKeywords(g);
  }

  /** Carbohydrate and fat per goal: fat loss and the combined goal 2.0/0.8 g/kg, muscle gain
      4.0/1.0 g/kg, the rest 3.0/0.9 g/kg; both ranges are non-empty for a positive weight. */
  lemma CarbFatPerGoal(weight: real, g: Goal)
    requires weight > 0.0
    ensures g == WeightLoss || g == Recomposition ==> CarbFatFactors(g) == (2.0, 0.8)
    ensures g == MuscleGain ==> CarbFatFactors(g) == (4.0, 1.0)
    ensures g == Fitness || g == Maintenance ==> CarbFatFactors(g) == (3.0, 0.9)
    ensures 0.0 < CarbRange(weight, g).lo < CarbRange(weight, g).hi
    ensures 0.0 < FatRange(weight, g).lo < FatRange(weight, g).hi
  {
    GoalKeywords(g);
  }

  /** The guide's parts fit together: TDEE exceeds a positive BMR, the target is TDEE shifted
      by the goal's adjustment, and every range is non-empty. */
  lemma GuideConsistent(p: Profile, g: Goal, frequency: int)
    requires p.weight > 0.0
    requires Bmr(p.sex, p.weight, p.height, p.age) > 0.0
    ensures var r := NutritionGuide(p, g, frequency);
            && r.tdee > r.bmr
            && r.target == r.tdee + Adjustment(r.calorieCase)
            && r.protein.lo < r.protein.hi && r.carbs.lo < r.carbs.hi && r.fat.lo < r.fat.hi
            && r.water > 0.0
  {
    TdeeExceedsBmr(Bmr(p.sex, p.weight, p.height, p.age), frequency);
    ProteinPerGoal(p.weight, g);
    CarbFatPerGoal(p.weight, g);
  }

  /** The default form values: a 164 cm, 57 kg, 25-year-old woman training four times a
      week for fat loss. */
  lemma DefaultScenario()
    ensures var r := NutritionGuide(Profile(164.0, 57.0, 25, Female, 26.0, 25.0), WeightLoss, 4);
            && r.bmr == 1374.494
            && r.tdee == 2130.4657
            && r.target == 1630.4657
            && r.protein == Range(91.2, 114.0)
            && r.carbs == Range(114.0, 142.5)
            && r.fat == Range(45.6, 57.0)
            && r.water == 1.995
  {
    TargetCaloriesPerGoal(2130.4657, WeightLoss);
    ProteinPerGoal(57.0, WeightLoss);
    CarbFatPerGoal(57.0, WeightLoss);
  }

  /** The nutrition tips shown below the water target: one text for goals mentioning fat
      loss, another for goals mentioning only muscle gain, none otherwise. */
  datatype NutritionTip = LossTips | GainTips

  function NutritionTipFor(g: Goal): (r: Option<NutritionTip>)
  {
    if ContainsLoss(g) then Some(LossTips)
    else if ContainsGain(g) then Some(GainTips)
    else None
  }

  lemma NutritionTipPerGoal(g: Goal)
    ensures NutritionTipFor(g) == match g
                                  case WeightLoss => Some(LossTips)
                                  case Recomposition => Some(LossTips)
                                  case MuscleGain => Some(GainTips)
                                  case Fitness => None
                                  case Maintenance => None
  {
    GoalKeywords(g);
  }
}
