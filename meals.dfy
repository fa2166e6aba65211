/** The example-meal tab of the web front end: it recomputes the calorie target, names a
    meal type and picks one of four meal templates by that name. */
module Meals {
  import opened Plan
  import opened Nutrition
  import opened Wrappers

  /** The `meal_type` text the tab computes. */
  datatype MealType = LossMeals | GainMeals | RecompMeals | MaintenanceMeals

  function MealTypeLabel(m: MealType): string
  {
    match m
    case LossMeals => "체중 감량"
    case GainMeals => "근육 증가"
    case RecompMeals => "체중 감량 + 근육 증가"
    case MaintenanceMeals => "체중 유지"
  }

  datatype MealPlan = MealPlan(target: real, mealType: MealType)

  /** The tab's dispatch, a second copy of the nutrition tab's chain, evaluated on the
      plan's goal and frequency. */
  function MealPlanFor(p: Profile, g: Goal, frequency: int): MealPlan
  {
    var tdee := Tdee(Bmr(p.sex, p.weight, p.height, p.age), frequency);
    if ContainsLoss(g) && !ContainsGain(g) then MealPlan(tdee - 500.0, LossMeals)
    else if ContainsGain(g) && !ContainsLoss(g) then MealPlan(tdee + 300.0, GainMeals)
    else if ContainsCombined(g) then MealPlan(tdee - 200.0, RecompMeals)
    else MealPlan(tdee, MaintenanceMeals)
  }

  /** The meal type that corresponds to each branch of the nutrition tab's chain. */
  function MealTypeOf(c: CalorieCase): MealType
  {
    match c
    case Deficit => LossMeals
    case Surplus => GainMeals
    case Recomp => RecompMeals
    case Maintain => MaintenanceMeals
  }

  /** The copy agrees with the nutrition tab: same target, and the meal type of the branch
      the nutrition tab takes. */
  lemma MealPlanAgreesWithGuide(p: Profile, g: Goal, frequency: int)
    ensures MealPlanFor(p, g, frequency).target == NutritionGuide(p, g, frequency).target
    ensures MealPlanFor(p, g, frequency).mealType == MealTypeOf(NutritionGuide(p, g, frequency).calorieCase)
  {
  }

  /** The meal type per goal. */
  lemma MealTypePerGoal(p: Profile, g: Goal, frequency: int)
    ensures MealPlanFor(p, g, frequency).mealType == match g
                                                     case WeightLoss => LossMeals
                                                     case MuscleGain => GainMeals
                                                     case Recomposition => RecompMeals
                                                     case Fitness => MaintenanceMeals
                                                     case Maintenance => MaintenanceMeals
  {
    GoalKeywords(g);
  }

  /** The four fixed day menus. */
  datatype MealTemplate = LossDay | GainDay | RecompDay | MaintenanceDay

  /** The template chosen by comparing the meal-type text, with maintenance in the `else`. */
  function TemplateFor(mealTypeText: string): MealTemplate
  {
    if mealTypeText == "체중 감량" then LossDay
    else if mealTypeText == "근육 증가" then GainDay
    else if mealTypeText == "체중 감량 + 근육 증가" then RecompDay
    else MaintenanceDay
  }

  /** Each meal type's text selects its own template, so the four labels are told apart. */
  lemma TemplateForLabel(m: MealType)
    ensures TemplateFor(MealTypeLabel(m)) == match m
                                             case LossMeals => LossDay
                                             case GainMeals => GainDay
                                             case RecompMeals => RecompDay
                                             case MaintenanceMeals => MaintenanceDay
  {
    match m
    case LossMeals =>
    case GainMeals =>
      assert MealTypeLabel(m)[0] != "체중 감량"[0];
    case RecompMeals =>
      assert |MealTypeLabel(m)| != |"체중 감량"|;
      assert MealTypeLabel(m)[0] != "근육 증가"[0];
    case MaintenanceMeals =>
      assert MealTypeLabel(m)[3] != "체중 감량"[3];
      assert MealTypeLabel(m)[0] != "근육 증가"[0];
      assert |MealTypeLabel(m)| != |"체중 감량 + 근육 증가"|;
  }

  // As written, the tab reads the bare names `frequency` and `goal`. They are bound only
  // while the input form runs; the results page, where the tab lives, is the other branch
  // of the top-level `if`, so there the lookup raises NameError. The model below keeps
  // that behaviour apart; the rest of the model uses MealPlanFor on the plan's own goal
  // and frequency, as the nutrition tab does.

  /** The module-level names the tab reads, when bound. */
  datatype Bindings = Bindings(goal: Option<Goal>, frequency: Option<int>)

  /** The two session flags the top-level `if` tests. */
  datatype Session = Session(planGenerated: bool, showInputForm: bool)

  /** The input form runs, and binds its widgets' values, when no plan is generated yet or
      the form is asked for again; otherwise the results page runs. */
  predicate FormRuns(session: Session)
  {
    !session.planGenerated || session.showInputForm
  }

  /** The names one script pass leaves bound: the form's goal and frequency when the form
      branch runs, nothing otherwise, since every pass starts from a fresh module scope. */
  function PassBindings(session: Session, formGoal: Goal, formFrequency: int): (names: Bindings)
    ensures names.frequency.Some? <==> FormRuns(session)
    ensures names.goal.Some? <==> FormRuns(session)
    ensures FormRuns(session) ==> names == Bindings(Some(formGoal), Some(formFrequency))
  {
    if FormRuns(session) then Bindings(Some(formGoal), Some(formFrequency)) else Bindings(None, None)
  }

  datatype TabView = Shown(plan: MealPlan) | NameError(name: string)

  /** The tab as written: `frequency` is read first, then `goal`. */
  function MealTabAsWritten(p: Profile, names: Bindings): TabView
  {
    if names.frequency.None? then NameError("frequency")
    else if names.goal.None? then NameError("goal")
    else Shown(MealPlanFor(p, names.goal.value, names.frequency.value))
  }

  /** The tab lives in the results branch. On every pass that takes it, whatever the form
      held on earlier passes, the tab as written raises NameError on `frequency` and never
      shows a plan. */
  lemma MealTabAsWrittenFails(p: Profile, session: Session, formGoal: Goal, formFrequency: int)
    requires !FormRuns(session)
    ensures MealTabAsWritten(p, PassBindings(session, formGoal, formFrequency)) == NameError("frequency")
  {
  }

  /** The corrected tab reads the plan's goal and frequency, and then agrees with the
      nutrition tab for every profile, goal and frequency. */
  function MealTab(p: Profile, planGoal: Goal, planFrequency: int): (r: TabView)
    ensures r.Shown?
    ensures r.plan.target == NutritionGuide(p, planGoal, planFrequency).target
    ensures r.plan.mealType == MealTypeOf(NutritionGuide(p, planGoal, planFrequency).calorieCase)
  {
    MealPlanAgreesWithGuide(p, planGoal, planFrequency);
    Shown(MealPlanFor(p, planGoal, planFrequency))
  }
}
