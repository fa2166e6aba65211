# FitPlan AI front-end logic in Dafny

FitPlan AI builds a personal training plan from a short body profile. It has two front
ends. One is a Streamlit web app (`app.py`). The other is a terminal dialogue
(`my_fitness_plan.py`). The planning engine behind both, `fitness_plan_demo`, is not part
of this model. Its outputs (a day's exercise records, the cardio presets) are inputs here.

The decision logic that the front ends compute themselves is modelled and proved:

- **Nutrition** (`nutrition.dfy`, module `Nutrition`):
  - the sex-specific BMR formula and the activity-multiplier table;
  - the goal-text dispatch to a calorie target;
  - the protein, carbohydrate and fat ranges and the water target, in exact `real` arithmetic.
- **Goals and labels** (`plan.dfy`, module `Plan`):
  - the five goal labels, with the substring tests (`"체중 감량" in goal`) that every dispatch uses;
  - the sexes, environments and pain areas, and the profile record.
- **Example meals** (`meals.dfy`, module `Meals`): the meal tab's second copy of the calorie
  dispatch, its meal-type text and the template chosen from it. The tab as written has a
  defect, listed under Findings.
- **Body charts** (`metrics.dfy`, module `BodyMetrics`): BMI and muscle ratio, the per-sex
  threshold tables, and the low/normal/high colour decision.
- **Strength grouping** (`strength.dfy`, module `StrengthGrouping`): the loop that splits a
  day's strength records into large-muscle and small-muscle lists.
- **Cardio guide** (`cardio.dfy`, module `CardioGuide`):
  - the treadmill preset looked up by key priority;
  - the order-preserving split of equipment keys into treadmill keys and the rest;
  - the cardio tip chosen by goal.
- **Terminal input** (`terminal.dfy`, module `TerminalInput`, and `numerals.dfy`, module
  `Numerals`):
  - Python's `int()` on a stripped line, and the range checks for age, frequency and duration;
  - the gender tokens and the goal and environment menus;
  - the comma-separated pain-area parser, and the fixed profile built from the answers.
- **Helpers**: `text.dfy` (module `Text`) holds Python's substring test, `strip()`,
  `split()` and `join()`. `seqs.dfy` (module `Seqs`) holds order-preserving selection
  (`Filter`, `FilterMap`) and subsequences. `wrappers.dfy` holds `Option`.

The default form values (app.py:224-236) describe a 164 cm, 57 kg, 25-year-old woman. The
formula at app.py:1009 gives her a BMR of 1374.494 kcal, then 2130.4657 kcal TDEE and a
1630.4657 kcal fat-loss target (`Nutrition.DefaultScenario`).

## Model

| member | source | states |
|---|---|---|
| Plan.SexOfLabel | app.py:1006-1009 | the gender text exactly "남성" selects the male branch; any other text selects the female one |
| Plan.SexLabel | my_fitness_plan.py:48-53 | definition of the stored gender texts "남성" and "여성"; no contract of its own, see SexLabelRoundTrip |
| Plan.SexLabelRoundTrip | my_fitness_plan.py:48-53 | the label the terminal stores for a sex ("남성"/"여성") is read back as that sex by the web app's gender test |
| Plan.GoalKeywords | app.py:284 | on the five goal labels, `"체중 감량" in goal` holds exactly for fat loss and the combined goal, `"근육 증가" in goal` exactly for muscle gain and the combined goal, and the combined label only for itself |
| Plan.GoalLabel | app.py:284 | definition of the five goal texts; no contract of its own, see GoalKeywords and TerminalInput.GoalMenuOneToOne |
| Plan.ContainsLoss | app.py:1015 | definition of `"체중 감량" in goal`; no contract of its own, see GoalKeywords |
| Plan.ContainsGain | app.py:1018 | definition of `"근육 증가" in goal`; no contract of its own, see GoalKeywords |
| Plan.ContainsCombined | app.py:1021 | definition of `"체중 감량 + 근육 증가" in goal`; no contract of its own, see GoalKeywords |
| Plan.EnvironmentLabel | my_fitness_plan.py:99-103 | definition of the three environment texts; no contract of its own, see TerminalInput.EnvironmentMenuOneToOne |
| Plan.PainAreaLabel | my_fitness_plan.py:160-167 | definition of the six pain-area texts; no contract of its own, see TerminalInput.AreaMenuLabels |
| Text.ContainsIffOccurs | app.py:1015 | Python's substring test holds exactly when the text occurs at some position |
| Text.Contains | app.py:1015 | definition of Python's substring test `in`; no contract of its own, see ContainsIffOccurs |
| Text.StripSpec | my_fitness_plan.py:37 | `strip()` returns the block between the leading and trailing whitespace; everything cut away is whitespace and the result neither starts nor ends with whitespace |
| Text.Strip | my_fitness_plan.py:37 | definition of `str.strip()` over Python's whitespace set; no contract of its own, see StripSpec and StripIdempotent |
| Text.TrimStartSpec | my_fitness_plan.py:37 | trimming the front keeps a suffix, cuts only whitespace and stops at a non-whitespace character |
| Text.TrimEndSpec | my_fitness_plan.py:37 | trimming the end keeps a prefix, cuts only whitespace and stops at a non-whitespace character |
| Text.StripIdempotent | my_fitness_plan.py:37-38 | stripping twice is stripping once, so `int()` stripping again changes nothing |
| Text.SplitJoin | my_fitness_plan.py:169 | `split(',')` loses nothing: joining the pieces with the comma gives the line back, no piece holds a comma, and there is one piece more than commas |
| Text.Split | my_fitness_plan.py:169 | definition of `str.split(',')`; no contract of its own, see SplitJoin |
| Nutrition.BmrMonotone | app.py:1006-1009 | for either sex, a heavier or taller or younger profile never has a lower BMR |
| Nutrition.Bmr | app.py:1006-1009 | definition of the two BMR formulas, selected by sex; no contract of its own, its properties are BmrMonotone and DefaultScenario |
| Nutrition.ActivityMultiplier | app.py:1011-1012 | every multiplier the lookup returns exceeds 1 and is one of 1.375, 1.55, 1.725, 1.9 |
| Nutrition.ActivityMultiplierTable | app.py:1011-1012 | 3→1.375, 4→1.55, 5→1.725, 6 and 7→1.9, and every other frequency defaults to 1.55 |
| Nutrition.Tdee | app.py:1011-1012 | definition: BMR times the activity multiplier; no contract of its own, see TdeeExceedsBmr |
| Nutrition.TdeeExceedsBmr | app.py:1012 | a positive BMR always gives a strictly larger TDEE |
| Nutrition.CalorieCasePerGoal | app.py:1015-1026 | the branch each goal takes: deficit for fat loss, surplus for muscle gain, recomposition for the combined goal, maintenance for fitness and health maintenance |
| Nutrition.CalorieCaseOf | app.py:1015-1026 | definition of the if/elif chain on the goal text; no contract of its own, see CalorieCasePerGoal and CalorieGuardsExclusive |
| Nutrition.Adjustment | app.py:1016-1025 | definition of the kcal added in each branch; no contract of its own, see TargetCaloriesPerGoal |
| Nutrition.CalorieNote | app.py:1015-1026 | definition of the note shown in each branch; no contract of its own, see CalorieNotePerGoal |
| Nutrition.CalorieNotePerGoal | app.py:1015-1026 | the note per goal: calorie deficit for fat loss, surplus for muscle gain, recomposition for the combined goal, "체중 유지" for fitness and maintenance; no two branches share a note |
| Nutrition.TargetCalories | app.py:1015-1026 | definition: TDEE plus the adjustment of the branch taken; no contract of its own, see TargetCaloriesPerGoal |
| Nutrition.CalorieGuardsExclusive | app.py:1015-1026 | no two guards of the chain hold together, and the final `else` is taken exactly by "체력 향상" and "건강 유지" |
| Nutrition.TargetCaloriesPerGoal | app.py:1015-1026 | target = TDEE − 500 for fat loss, TDEE + 300 for muscle gain, TDEE − 200 for the combined goal, TDEE otherwise |
| Nutrition.ProteinPerGoal | app.py:1042-1047 | protein is 1.8–2.2 g/kg exactly for the goals that mention muscle gain, else 1.6–2.0 g/kg, and the range is non-empty for a positive weight |
| Nutrition.ProteinRange | app.py:1042-1047 | definition of the protein range; no contract of its own, see ProteinPerGoal |
| Nutrition.CarbFatFactors | app.py:1049-1058 | definition of the carbohydrate and fat factors, fat-loss test first; no contract of its own, see CarbFatPerGoal |
| Nutrition.CarbRange | app.py:1049-1068 | definition of the carbohydrate range; no contract of its own, see CarbFatPerGoal |
| Nutrition.FatRange | app.py:1049-1071 | definition of the fat range; no contract of its own, see CarbFatPerGoal |
| Nutrition.WaterTarget | app.py:1075-1076 | definition: 35 ml per kg; no contract of its own, see GuideConsistent and DefaultScenario |
| Nutrition.CarbFatPerGoal | app.py:1049-1071 | carb/fat factors 2.0/0.8 for fat loss and the combined goal (fat loss is tested first), 4.0/1.0 for muscle gain, 3.0/0.9 otherwise; both ranges are non-empty for a positive weight |
| Nutrition.GuideConsistent | app.py:1006-1075 | TDEE exceeds a positive BMR, the target is TDEE plus the adjustment of the branch taken, every macro range is non-empty and the water target is positive |
| Nutrition.NutritionGuide | app.py:1001-1075 | definition of everything the nutrition tab computes for one profile, goal and frequency; no contract of its own, see GuideConsistent and DefaultScenario |
| Nutrition.DefaultScenario | app.py:1006-1075 | for the default form values (164 cm, 57 kg, 25 years, female, fat loss, 4 sessions) BMR 1374.494, TDEE 2130.4657, target 1630.4657, protein 91.2–114, carbs 114–142.5, fat 45.6–57 g, water 1.995 L |
| Nutrition.NutritionTipPerGoal | app.py:1079-1092 | fat-loss tips for fat loss and the combined goal, muscle-gain tips for muscle gain, none for fitness and maintenance |
| Nutrition.NutritionTipFor | app.py:1079-1092 | definition of the tip chain; no contract of its own, see NutritionTipPerGoal |
| Meals.MealPlanAgreesWithGuide | app.py:1103-1122 | the meal tab's copy of the dispatch gives the nutrition tab's target and the meal type of the branch the nutrition tab takes |
| Meals.MealPlanFor | app.py:1103-1124 | definition of the tab's copy of the calorie chain with its meal type; no contract of its own, see MealPlanAgreesWithGuide and MealTypePerGoal |
| Meals.MealTypePerGoal | app.py:1111-1122 | the meal type per goal: "체중 감량", "근육 증가", "체중 감량 + 근육 증가", and "체중 유지" for fitness and maintenance |
| Meals.MealTypeLabel | app.py:1113-1122 | definition of the four meal-type texts; no contract of its own, see TemplateForLabel |
| Meals.TemplateForLabel | app.py:1130-1258 | each meal-type text selects its own one of the four templates |
| Meals.TemplateFor | app.py:1130-1258 | definition of the template choice by meal-type text; no contract of its own, see TemplateForLabel |
| Meals.MealTabAsWrittenFails | app.py:1109-1111 | on every script pass that takes the results branch of the `if` at app.py:241 (plan generated, form not asked for), the names the pass binds leave `frequency` unbound, so the tab as written raises NameError on it instead of showing a plan |
| Meals.MealTabAsWritten | app.py:1109-1124 | definition of the tab as written, reading the bare names `frequency` and then `goal`; no contract of its own, see MealTabAsWrittenFails |
| Meals.PassBindings | app.py:241-305 | a pass binds the form's `goal` and `frequency` exactly when the form branch runs, that is when no plan is generated yet or the form is asked for again |
| Meals.FormRuns | app.py:241 | definition of the top-level branch condition `not plan_generated or show_input_form`; no contract of its own, see PassBindings and MealTabAsWrittenFails |
| Meals.MealTab | app.py:1098-1122 | the corrected tab always shows a plan whose target and meal type agree with the nutrition tab for the plan's goal and frequency |
| BodyMetrics.Bmi | app.py:483 | BMI times the square of the height in metres is the weight |
| BodyMetrics.MuscleRatio | app.py:485 | the muscle ratio times the weight is 100 times the muscle mass |
| BodyMetrics.TablesContiguous | app.py:488-495 | for either sex, each table starts at 0 and each band ends where the next begins |
| BodyMetrics.Thresholds | app.py:488-495 | normal bands: BMI 18.5–25 for both sexes, body fat 10–20 male and 18–28 female, muscle ratio 37–50 male and 30–45 female |
| BodyMetrics.BmiBands | app.py:488-494 | definition of the BMI band table, the same for both sexes; no contract of its own, see TablesContiguous and Thresholds |
| BodyMetrics.BodyFatBands | app.py:488-494 | definition of the body-fat band tables per sex; no contract of its own, see TablesContiguous and Thresholds |
| BodyMetrics.MuscleBands | app.py:488-495 | definition of the muscle-ratio band tables per sex; no contract of its own, see TablesContiguous and Thresholds |
| BodyMetrics.Classify | app.py:517-522 | low exactly below the normal band's start, high exactly above its end, normal on the band including both boundaries |
| BodyMetrics.BarColour | app.py:516-522 | definition of the bar colour per band; no contract of its own, see BarColourDecision |
| BodyMetrics.BarColourDecision | app.py:516-522 | the bar is orange exactly below the normal band, red exactly above it and green exactly within it, ends included; no two bands share a colour |
| BodyMetrics.ClassifyMonotone | app.py:517-522 | a larger value never falls in a lower band |
| BodyMetrics.BodyChart | app.py:483-522 | each chart is low, normal or high exactly as its value lies below, within (ends included) or above the normal band: BMI 18.5–25 for both sexes, body fat 10–20 % male and 18–28 % female, muscle ratio 37–50 % male and 30–45 % female |
| BodyMetrics.DefaultProfileChart | app.py:483-522 | the form's defaults (app.py:224-236) with both optional inputs switched on at their preset values (app.py:272, 277), the same values the terminal fixes (my_fitness_plan.py:180-181), are normal on all three charts |
| StrengthGrouping.GroupStrength | app.py:680-693 | the loop's two lists are exactly the day's records with a repetition count whose name holds / holds no large-muscle keyword, in day order |
| StrengthGrouping.LargeMuscleExercises | app.py:687-691 | definition of the large-muscle list as the day's records with "횟수" and a keyword, in day order; no contract of its own, see GroupStrength and GroupingMembers |
| StrengthGrouping.SmallMuscleExercises | app.py:687-693 | definition of the small-muscle list as the day's records with "횟수" and no keyword, in day order; no contract of its own, see GroupStrength and GroupingMembers |
| StrengthGrouping.GroupingMembers | app.py:687-693 | a record is in the large list iff it is in the day, has "횟수" and its name holds a keyword; in the small list iff the same without a keyword; never in both |
| StrengthGrouping.HasReps | app.py:688 | definition of the test `"횟수" in exercise`; no contract of its own, see GroupingMembers and GroupingPartition |
| StrengthGrouping.GroupingPartition | app.py:687-693 | the two lists together hold, as a multiset, exactly the day's records that carry "횟수" |
| StrengthGrouping.GroupingKeepsOrder | app.py:687-693 | each list is a subsequence of the day |
| StrengthGrouping.FrontSquatKeywordRedundant | app.py:684-685 | the last keyword "프론트 스쿼트" changes no classification, since every name holding it holds "스쿼트" |
| StrengthGrouping.IsLargeMuscle | app.py:684-689 | definition of the keyword test on the name; no contract of its own, see GroupingMembers and FrontSquatKeywordRedundant |
| CardioGuide.EquipmentDetails | app.py:807 | a missing settings entry reads as a well-formed (empty) dictionary; a present one is used as it is |
| CardioGuide.MissingSettings | app.py:807-883 | without a settings entry no expander is shown, neither treadmill nor other, and the summary shows the general intensity |
| CardioGuide.TreadmillInfo | app.py:808-814 | none exactly when no priority key is present; otherwise the preset of the first present key in the order "트레드밀 (런닝머신)", "트레드밀", "트레드밀 인터벌" |
| CardioGuide.SummaryIntensity | app.py:808-830 | with no priority key present the summary shows the general intensity; otherwise it shows the intermediate setting of the first present key in the order "트레드밀 (런닝머신)", "트레드밀", "트레드밀 인터벌" |
| CardioGuide.OtherKeysAreNotTreadmill | app.py:852-853 | "not in treadmill_keys" selects exactly the keys that hold neither "트레드밀" nor "런닝머신" |
| CardioGuide.TreadmillKeys | app.py:852 | definition of the treadmill-key comprehension; no contract of its own, see KeyPartition |
| CardioGuide.IsTreadmillKey | app.py:852 | definition of the test `'트레드밀' in key or '런닝머신' in key`; no contract of its own, see KeyPartition and TreadmillInfoShownFirst |
| CardioGuide.OtherKeys | app.py:853 | definition of the comprehension of keys not in the treadmill list; no contract of its own, see OtherKeysAreNotTreadmill and KeyPartition |
| CardioGuide.KeyPartition | app.py:852-853 | the two key lists together are the keys as a multiset, each holds exactly its kind of key, and each keeps the dictionary order |
| CardioGuide.DisplayOrder | app.py:855-883 | the expanders show every key once: first the treadmill keys in dictionary order, then the other keys in dictionary order |
| CardioGuide.TreadmillInfoShownFirst | app.py:807-856 | the preset in the summary box belongs to a key among the treadmill keys shown first |
| CardioGuide.CardioTipFor | app.py:888-905 | the steady-pace tip exactly for the fat-loss goal, the interval tip for every other goal |
| Numerals.ParseShowRoundTrip | my_fitness_plan.py:38 | `int()` on the decimal text of any integer gives the integer back (no digit-count limit, see Left out) |
| Numerals.ParseInt | my_fitness_plan.py:38 | definition of `int()` on a line: strip, optional sign, digits with single underscores; no contract of its own, see ParseShowRoundTrip, ParsePadded, ParseLeadingZeros, ParseSignAndUnderscore and ParseRejects |
| Numerals.ParsePadded | my_fitness_plan.py:37-38 | `int(" 25\n")` is 25: surrounding whitespace is ignored |
| Numerals.ParseLeadingZeros | my_fitness_plan.py:38 | `int("007")` is 7 |
| Numerals.ParseSignAndUnderscore | my_fitness_plan.py:38 | `int("+1_0")` is 10 |
| Numerals.ParseRejects | my_fitness_plan.py:38-44 | a doubled underscore, an empty line and a word raise ValueError |
| TerminalInput.ParseStripped | my_fitness_plan.py:37-38 | `int()` of the stripped line equals `int()` of the line |
| TerminalInput.ReadNumber | my_fitness_plan.py:36-45 | a line is accepted iff it parses and lies in the range, both ends included, giving the parsed number; it is rejected as not a number iff it does not parse |
| TerminalInput.ReadAge | my_fitness_plan.py:36-45 | the age is accepted iff the line parses to 10..100 |
| TerminalInput.ReadFrequency | my_fitness_plan.py:116-125 | the frequency is accepted iff the line parses to 3..7 |
| TerminalInput.ReadDuration | my_fitness_plan.py:128-137 | the duration is accepted iff the line parses to 30..120 |
| TerminalInput.ReadShownNumber | my_fitness_plan.py:36-45 | a number typed in decimal is accepted exactly when in range and read back unchanged; otherwise it is rejected as out of range |
| TerminalInput.PromptRanges | my_fitness_plan.py:39-132 | the ages, frequencies and durations a typed number gets through with are exactly 10..100, 3..7 and 30..120 |
| TerminalInput.NormaliseGender | my_fitness_plan.py:46-56 | "남", "M", "m" give male; "여", "F", "f" give female; every other stripped token is rejected |
| TerminalInput.ReadGoalChoice | my_fitness_plan.py:67-84 | accepted iff the line parses to 1..5, giving that menu entry; rejected as not a number iff it does not parse |
| TerminalInput.GoalMenuOneToOne | my_fitness_plan.py:72-79 | the menu's numbers are 1..5, it offers all five goals, no two numbers give the same goal, and numbers 1 to 5 carry "체중 감량", "근육 증가", "체중 감량 + 근육 증가", "체력 향상" and "건강 유지" |
| TerminalInput.ReadEnvironmentChoice | my_fitness_plan.py:94-109 | accepted iff the line parses to 1..3, giving that menu entry; rejected as not a number iff it does not parse |
| TerminalInput.EnvironmentMenuOneToOne | my_fitness_plan.py:99-104 | the menu's numbers are 1..3, it offers all three environments, no two numbers give the same one, and numbers 1 to 3 carry "헬스장", "홈트레이닝 (장비 있음)" and "홈트레이닝 (장비 없음)" |
| TerminalInput.AreaOf | my_fitness_plan.py:160-172 | a token names an area iff its stripped text is a key of the area menu, and then it names that key's area |
| TerminalInput.AreaMenuKeys | my_fitness_plan.py:160-167 | the area menu's keys are exactly the one-character texts "1" to "6" |
| TerminalInput.AreaMenuLabels | my_fitness_plan.py:160-167 | the menu offers all six areas, numbers 1 to 6 carry "목/어깨", "허리", "무릎", "손목", "팔꿈치" and "발목", and no two areas share a label |
| TerminalInput.AreaTokens | my_fitness_plan.py:169-172 | a token contributes an area iff, stripped, it is a single digit 1 to 6 |
| TerminalInput.CollectAreas | my_fitness_plan.py:169-172 | the loop's list is the areas the tokens name, in token order |
| TerminalInput.AskPainAreas | my_fitness_plan.py:146-172 | the area list is empty unless the answer is in the yes-set, and then it is the areas the selection line's tokens name |
| TerminalInput.AnswersYes | my_fitness_plan.py:147-149 | definition of the yes-set test on the stripped answer; no contract of its own, see AskPainAreas |
| TerminalInput.Tokens | my_fitness_plan.py:158-169 | definition of the comma pieces of the stripped selection line; no contract of its own, see SelectionBound and Text.SplitJoin |
| TerminalInput.AreasOf | my_fitness_plan.py:168-172 | definition of the areas the tokens name, in token order; no contract of its own, see CollectAreas, AreasOfAppend and AreasFromTokens |
| TerminalInput.AreasOfAppend | my_fitness_plan.py:169-172 | the areas of two runs of tokens are those of the first run followed by those of the second: order and repeats are kept |
| TerminalInput.SelectionBound | my_fitness_plan.py:169-172 | there are no more areas than tokens, so at most one more than the commas in the stripped line |
| TerminalInput.AreasFromTokens | my_fitness_plan.py:169-172 | an area is in the list iff some token names it |
| TerminalInput.PaddedToken | my_fitness_plan.py:170 | a token with a leading space, " 3", still names the knee |
| TerminalInput.UnknownTokens | my_fitness_plan.py:169-172 | a letter "x" and an out-of-menu number "7" name no area and are skipped |
| TerminalInput.RepeatedSelection | my_fitness_plan.py:169-172 | a number given twice yields its area twice |
| TerminalInput.TerminalProfile | my_fitness_plan.py:175-182 | the profile always has height 164, weight 57, body fat 26 and muscle mass 25; only age and sex come from the answers |

## Left out

- `fitness_plan_demo` is not part of this model. That covers goal recommendation, the weekly plan, weight tables, pain and condition substitutions, and cardio presets. Its outputs are taken as inputs: a day's records, a preset table, the plan's goal and frequency.
- Streamlit rendering is left out: CSS, session-state bookkeeping, tabs, the rendering of the expanders and the exercise-video list. None of it computes a plan value. Which expanders are shown and in what order is modelled (`CardioGuide.DisplayOrder`).
- Plotly chart construction is left out, apart from the band and colour decision.
- Console I/O is left out: `print`, `input()`, the `while True` retry loops and the Windows stdout re-wrapping. Each prompt is one line, and the model gives the outcome of reading it (accepted value or rejection).
- `demo_example.py` and `test_gender.py` only build and print fixed scenarios, so they are left out.
- Display rounding (`int(...)`, `round(...)`) and IEEE floating point are not modelled; arithmetic is exact `real`.
- The meal-template texts and advisory prose are static content, so they are left out. Only the template choice is modelled.
- The profile has no missing body fat or muscle mass. In the web app a `None` muscle mass fails at the division at app.py:485; a `None` body fat passes app.py:484 and fails later, at the comparison at app.py:517 reached from the body-fat chart call at app.py:577.
- Numerals.ParseInt: Python's `int()` also accepts non-ASCII Unicode decimal digits; the model accepts ASCII digits only. CPython 3.11 and later (and the 2022 security releases) also raise ValueError for text of more than 4300 digits, by a limit that is configurable at run time; the program then prints its not-a-number message (my_fitness_plan.py:43-44). The model has no such limit, so such a line is parsed and then rejected as out of range.
- Numerals.ParseShowRoundTrip: holds for the model's `int()`, which has no digit-count limit; the interpreter's reading of an integer of more than 4300 digits raises ValueError instead.
- TerminalInput.ReadNumber: a line of more than 4300 digits is rejected as out of range in the model, while the interpreter reports it as not a number.
- TerminalInput.ReadShownNumber: holds for the model's `int()` without the digit-count limit; a typed number of more than 4300 digits is reported by the interpreter as not a number.
- CardioGuide.SummaryIntensity: the source tests the preset's truthiness, and an empty preset dictionary would count as missing. A modelled preset always has its four settings, so it is never empty.
- StrengthGrouping.Exercise: a record is its name plus the set of its keys. The grouping reads only the name (key "이름", app.py:689) and the presence of "횟수". A record with "횟수" but without "이름" raises KeyError at app.py:689; the model's record always has a name, so that error is not modelled.

## Findings

| source | as written | input that shows it | evidently intended | confidence | as-written member | corrected member |
|---|---|---|---|---|---|---|
| app.py:1109-1111 | the example-meal tab reads the bare names `frequency` and `goal`, which are bound only in the input-form branch of the top-level `if` (app.py:282, app.py:305) | opening the results page after a plan is generated: the form branch has not run in that script pass, so `frequency` is unbound and NameError is raised | read the plan's own goal and frequency (`planner.goal`, `planner.frequency`), as the nutrition tab does | not executed | Meals.MealTabAsWrittenFails | Meals.MealTab |
