# Calories-App core in Dafny

A model of the computational core of the Calories-App Streamlit page
(`app.py`). The page collects a user's weight, height, age, gender, goal and
health conditions, then:

- computes the body-mass index, its status label, the Mifflin-St Jeor basal
  metabolic rate and a daily calorie target (module `Metrics`, `metrics.dfy`);
- starts from a fixed catalog of meal suggestions per slot, applies three
  condition-driven rewrites in a fixed order, splits the calorie target over
  the four slots and builds the table shown to the user (module `Meals`,
  `meals.dfy`);
- keeps a per-session progress table of dated weights with a one-decimal
  BMI, appended to on each submitted form and shown with a chart once it is
  non-empty (module `Progress`, `progress.dfy`, class `ProgressLedger`).

Two support modules model the Python built-ins the core relies on:
`Rounding` (`round(x)` and `round(x, 1)`, rounding half to even, over exact
reals) and `Text` (the substring test `sub in s` and `sep.join(items)`).

Modelling choices:

- Gender, goal and conditions stay strings, as the select boxes return
  them. So "every gender other than `Male` takes the female constant" and
  "conditions other than the three tested ones are ignored" are properties
  of the model, not artefacts of an enumeration.
- The `meals` dict is a `map<Slot, seq<string>>`. The gluten rule's
  `for key in meals` loop is the method `Meals.WithoutEverywhere`, a loop
  over the dict's keys. `Meals.AdjustMeals` and `Meals.BuildMealPlan` take
  the dict they start from as a parameter; `Meals.PageMealPlan` passes
  `Meals.CatalogMeals()`, the literal dict `app.py` builds on each request.
  The rule properties are proved for any starting dict. The effect on the
  literal catalog is proved slot by slot, from the substring facts about
  each dish in module `Dishes` (`dishes.dfy`).
- The classification chain is modelled as written, including the gap
  `[24.9, 25)` that falls through to Obese (see Findings).
- For 60 kg, 165 cm, 25 years, female, the formula at `app.py:67` gives
  10·60 + 6.25·165 − 5·25 − 161 = 1345.25, and so 1614.3 kcal;
  `Metrics.WorkedExample` states these figures.

## Model

| member | source | states |
|---|---|---|
| Metrics.Bmi | app.py:45-46 | the BMI times the squared height in metres gives back the weight; a positive weight gives a positive BMI |
| Metrics.ClassifyBands | app.py:48-55 | each status holds exactly on its band (both directions); Obese holds from 29.9 up and on the gap [24.9, 25) |
| Metrics.StatusLabels | app.py:48-55 | the status text is "Underweight", "Normal weight", "Overweight" or "Obese" exactly on the bands of the chain |
| Metrics.ClassifyMonotoneOffGap | app.py:48-55 | away from the gap a larger BMI never gets a lighter status |
| Metrics.ClassifyGapNotMonotone | app.py:50-53 | as written, 24.9 is Obese while 25 is Overweight, so the status is not monotone in the BMI |
| Metrics.ClassifyIntended | app.py:48-55 | the contiguous bands <18.5, [18.5, 25), [25, 30), ≥30, each as an if-and-only-if |
| Metrics.ClassifyIntendedMonotone | app.py:48-55 | the contiguous classification is monotone everywhere |
| Metrics.ClassifyAgreesOffGaps | app.py:48-55 | the written and the contiguous classification agree outside [24.9, 25) and [29.9, 30) |
| Metrics.MaleMinusFemale | app.py:64-67 | the male BMR is exactly 166 above the female one, and every gender other than "Male" gets the female formula |
| Metrics.GoalAdjustment | app.py:72-75 | "Lose Weight" gives −400, "Gain Weight" +400, any other goal 0 |
| Metrics.EstimateCalories | app.py:64-75 | the value computed step by step (BMR, ×1.2, then −= or += 400) equals the calorie-target function |
| Metrics.CalorieTargetByGoal | app.py:69-75 | maintaining gives 1.2·BMR, losing and gaining 400 below and above it, 800 apart |
| Metrics.CalorieTargetMonotone | app.py:64-75 | for a fixed gender and goal the target changes by 12 per kg, 7.5 per cm and −6 per year of age |
| Metrics.WorkedExample | app.py:45-75 | 60 kg, 165 cm, 25 years, female, maintaining: BMI between 22.03 and 22.04, Normal weight, BMR 1345.25, target 1614.3 |
| Rounding.Round | app.py:121-124 | `round(x)`: within one half of x, and the even neighbour on a tie |
| Rounding.RoundIsNearest | app.py:121-124 | no integer is closer to x than `round(x)` |
| Rounding.RoundTenth | app.py:158 | `round(x, 1)`: within 0.05 of x and a whole number of tenths |
| Text.JoinShowsEveryItem | app.py:127-130 | every item of a list appears whole in `", ".join` of it |
| Text.JoinLength | app.py:127-130 | the joined text is as long as the items plus one separator between each two neighbours |
| Text.AbsentPair | app.py:111 | if two neighbouring characters of a word never stand side by side in a text, the word is not in the text |
| Meals.CatalogMeals | app.py:86-107 | the starting dict has exactly the four slots, each holding its catalog list |
| Meals.CatalogHasEverySlot | app.py:86-107 | every slot has an entry in the starting dict |
| Meals.WithoutKeeps | app.py:111 | a filtered list keeps exactly the items that contain none of the banned words |
| Meals.WithoutIsSubsequence | app.py:111 | filtering keeps the surviving items in their original order |
| Meals.WithoutTwice | app.py:110-114 | filtering by one word list and then another equals filtering once by both |
| Meals.WithoutEverywhere | app.py:113-114 | the loop over the dict's keys leaves the keys unchanged and replaces every entry by its filtered list |
| Meals.AdjustMeals | app.py:109-116 | the three rules applied in order to any dict with every slot: same keys, each entry as the per-slot rewrite describes |
| Meals.DiabetesFixesSnacks | app.py:115-116 | under Diabetes, Snacks is the fixed diabetic list, whatever was there and whatever else is selected |
| Meals.OnlyTestedConditionsMatter | app.py:109-116 | two selections that agree on the three tested conditions (on Lactose Intolerance only for Breakfast) give the same suggestions |
| Meals.NoRuleKeepsItems | app.py:109-116 | with none of the three tested conditions every slot is left unchanged |
| Meals.LactoseFreeBreakfast | app.py:110-111 | under Lactose Intolerance no breakfast item mentions yogurt; without Gluten Intolerance exactly the yogurt-free items remain |
| Meals.GlutenFreeEverywhere | app.py:112-116 | under Gluten Intolerance no item in any slot mentions bread or roti, the diabetic snacks included |
| Meals.RewriteIsSubsequence | app.py:110-114 | apart from Snacks under Diabetes, a slot keeps some of its items in their original order |
| Meals.DiabeticSnacksGlutenFree | app.py:116 | none of the diabetic snacks mentions bread or roti |
| Meals.BreakfastUnderRules | app.py:87-91 | the catalog breakfast under lactose only, gluten only, and both, as concrete lists |
| Meals.LunchUnderRules | app.py:92-96 | the catalog lunch loses only the bread soup under Gluten Intolerance and is unchanged otherwise |
| Meals.DinnerUnderRules | app.py:97-101 | the catalog dinner loses only the curry with roti under Gluten Intolerance and is unchanged otherwise |
| Meals.SnacksUnderRules | app.py:102-106 | the catalog snacks change under Diabetes only; the gluten rule drops none of them |
| Meals.Allocation | app.py:121-124 | a slot's calories are within half a calorie of its share of the target |
| Meals.FractionsSumToOne | app.py:121-124 | the four shares 0.25, 0.35, 0.30 and 0.10 add up to 1 |
| Meals.AllocationsNearTarget | app.py:120-125 | the four rounded allocations add up to within 2 kcal of the target |
| Meals.RowShowsEverySuggestion | app.py:126-131 | every suggestion left for a slot appears whole in that slot's row |
| Meals.MealTable | app.py:118-132 | four rows in the order of the "Meal" column, each with the slot name, its rounded share and the slot's list joined by ", " |
| Meals.BuildMealPlan | app.py:109-132 | the rules then the table: four rows in the order of the "Meal" column, each with the slot name, its rounded share and its rewritten suggestions joined by ", " |
| Meals.PageMealPlan | app.py:86-132 | the table the page shows: row k holds slot k's name, its rounded share and the catalog suggestions the rules leave for it, joined by ", " |
| Progress.LoggedBmi | app.py:154-158 | the stored BMI is within 0.05 of the exact BMI and has one decimal |
| Progress.BmiRange | app.py:151-154 | over the form's ranges the exact BMI lies between 6.19 and 138.9 |
| Progress.NewEntry | app.py:153-159 | the new row carries the given date and weight and the BMI `round(weight / height_m², 1)` at the given height: within 0.05 of the exact BMI, one decimal, a valid row |
| Progress.ProgressLedger.constructor | app.py:145-146 | a session starts with an empty table |
| Progress.ProgressLedger.Add | app.py:153-160 | one row is appended at the end, the earlier rows are unchanged, and every row stays valid |
| Progress.ProgressLedger.Show | app.py:163-170 | no data exactly when the table is empty; otherwise the table as it stands and one chart point per row, per line |
| Progress.WeightSeries | app.py:168 | the weight line has one point per row, in row order, with that row's date and weight |
| Progress.BmiSeries | app.py:168 | the BMI line has one point per row, in row order, with that row's date and BMI |
| Progress.SeriesGrowAtEnd | app.py:160-168 | appending a row extends each chart line by that row's point and keeps the earlier points |
| Progress.LoggedBmiExample | app.py:154-158 | 70 kg at 165 cm is logged with BMI 25.7 |

## Left out

- The Streamlit page itself is not modelled: headers, text, tables, charts, the success and info messages, and the `:.1f` / `:.0f` display formatting. `Show` returns what would be displayed instead.
- Widget range enforcement is not modelled: the form's bounds (weight 30–200 kg, height 120–220 cm, age 10–100) become the predicates `ValidWeight`, `ValidHeight` and `ValidAge`. They appear as preconditions only where the model needs them.
- `st.session_state` persistence across reruns is not modelled: the ledger object stands for the session's table.
- `date.today()` is not modelled: the date is a parameter of `Add`.
- pandas is not modelled: the data frames become sequences of rows, and `concat` becomes sequence append.
- Floating point is not modelled: all arithmetic is on exact reals. Python's `round` on a binary double can differ from exact half-to-even rounding when the decimal value is not representable, e.g. `round(2.675, 2)`.
- Meals.AdjustMeals: the dict it starts from is a parameter, so that the rule properties hold for every catalog. The literal catalog of `app.py:86-107` is `CatalogMeals()`, which `PageMealPlan` passes, and its rewrites are proved per slot.
- Progress.ProgressLedger.Add: the height is a parameter. In `app.py` it is the height currently in the profile form, and it is not stored with the entry.

## Findings

| source | as written | input that shows it | evidently intended | confidence | as-written member | corrected member |
|---|---|---|---|---|---|---|
| app.py:50-52 | the Normal band ends at 24.9 and the Overweight band starts at 25, so a BMI in [24.9, 25) falls through to Obese | BMI 24.9: Obese, while 25.0 is Overweight | contiguous bands: Normal below 25, Overweight below 30 | not executed | Metrics.ClassifyGapNotMonotone | Metrics.ClassifyIntendedMonotone |

The page shows the status of the as-written chain, so `Metrics.Classify` is
the one the model attaches to a BMI. The chain also calls [29.9, 30) Obese,
while the usual bands start Obese at 30. `Metrics.ClassifyAgreesOffGaps`
says where the two classifications differ.
