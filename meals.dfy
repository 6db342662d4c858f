/** The meal rule engine of app.py: a fixed catalog of suggestions per meal
    slot, three rewrites driven by the selected health conditions (applied in
    a fixed order, so that the last one wins on Snacks), the split of the
    calorie target across the slots, and the table of rows shown to the user.
    The conditions arrive as the list of strings the multiselect returns;
    any string other than the three the rules test is ignored. */
module Meals {
  import opened Text
  import opened Rounding
  import opened Dishes

  datatype Slot = Breakfast | Lunch | Dinner | Snacks {
    function Name(): string {
      match this
      case Breakfast => "Breakfast"
      case Lunch => "Lunch"
      case Dinner => "Dinner"
      case Snacks => "Snacks"
    }

    /** The slot's share of the daily calorie target. */
    function Fraction(): real {
      match this
      case Breakfast => 0.25
      case Lunch => 0.35
      case Dinner => 0.30
      case Snacks => 0.10
    }
  }

  /** The slots in the order the meal table lists them. */
  const SLOTS: seq<Slot> := [Breakfast, Lunch, Dinner, Snacks]

  const LACTOSE_INTOLERANCE := "Lactose Intolerance"
  const GLUTEN_INTOLERANCE := "Gluten Intolerance"
  const DIABETES := "Diabetes"

  /** Text that marks a suggestion as unsuitable under an intolerance. */
  const DAIRY_WORDS: seq<string> := ["yogurt"]
  const GLUTEN_WORDS: seq<string> := ["bread", "roti"]

  /** What Snacks becomes under Diabetes, whatever it held before. */
  const DIABETIC_SNACKS: seq<string> := ["Boiled egg", "Apple slices with peanut butter", "Vegetable sticks with hummus"]

  const SEPARATOR := ", "

  /** The suggestions every request starts from. */
  function Catalog(slot: Slot): seq<string> {
    match slot
    case Breakfast => ["Oatmeal with fruits", "Boiled eggs with brown bread", "Greek yogurt with nuts and honey"]
    case Lunch => ["Grilled chicken with brown rice", "Vegetable salad with olive oil dressing", "Lentil soup with whole wheat bread"]
    case Dinner => ["Baked fish with vegetables", "Stir-fried tofu with rice", "Vegetable curry with roti"]
    case Snacks => ["Mixed nuts", "Fruit smoothie", "Roasted chickpeas"]
  }

  /** The `meals` dict: a suggestion list per slot. */
  type MealLists = map<Slot, seq<string>>

  /** The dict app.py builds afresh on every request. */
  function CatalogMeals(): (meals: MealLists)
    ensures meals.Keys == {Breakfast, Lunch, Dinner, Snacks}
    ensures forall s :: s in meals ==> meals[s] == Catalog(s)
  {
    map[Breakfast := Catalog(Breakfast), Lunch := Catalog(Lunch),
        Dinner := Catalog(Dinner), Snacks := Catalog(Snacks)]
  }

  /** Every slot has an entry. */
  ghost predicate HasEverySlot(meals: MealLists) {
    forall s: Slot :: s in meals
  }

  lemma CatalogHasEverySlot()
    ensures HasEverySlot(CatalogMeals())
  {
    forall s: Slot
      ensures s in CatalogMeals()
    {
      match s
      case Breakfast =>
      case Lunch =>
      case Dinner =>
      case Snacks =>
    }
  }

  /** The item contains none of the banned words. */
  predicate FreeOf(item: string, banned: seq<string>) {
    forall b :: b in banned ==> !Contains(item, b)
  }

  /** The list comprehension `[m for m in items if <no banned word in m>]`. */
  function Without(items: seq<string>, banned: seq<string>): (kept: seq<string>)
    ensures |kept| <= |items|
  {
    if items == [] then []
    else (if FreeOf(items[0], banned) then [items[0]] else []) + Without(items[1..], banned)
  }

  /** Filtering keeps exactly the items free of every banned word. */
  lemma {:induction false} WithoutKeeps(items: seq<string>, banned: seq<string>)
    ensures forall m :: m in Without(items, banned) <==> m in items && FreeOf(m, banned)
    decreases |items|
  {
    if items != [] {
      WithoutKeeps(items[1..], banned);
    }
  }

  /** `a` is `b` with some elements dropped and the rest in their order. */
  ghost predicate IsSubsequence(a: seq<string>, b: seq<string>)
    decreases |b|
  {
    if b == [] then a == []
    else IsSubsequence(a, b[1..]) || (a != [] && a[0] == b[0] && IsSubsequence(a[1..], b[1..]))
  }

  /** Filtering keeps the surviving items in their original order. */
  lemma {:induction false} WithoutIsSubsequence(items: seq<string>, banned: seq<string>)
    ensures IsSubsequence(Without(items, banned), items)
    decreases |items|
  {
    if items != [] {
      var rest := Without(items[1..], banned);
      WithoutIsSubsequence(items[1..], banned);
      if FreeOf(items[0], banned) {
        assert Without(items, banned) == [items[0]] + rest;
        assert ([items[0]] + rest)[1..] == rest;
      } else {
        assert Without(items, banned) == rest;
      }
    }
  }

  lemma {:induction false} SubsequenceOfItself(items: seq<string>)
    ensures IsSubsequence(items, items)
    decreases |items|
  {
    if items != [] {
      SubsequenceOfItself(items[1..]);
    }
  }

  /** Filtering twice drops what either filter drops. */
  lemma {:induction false} WithoutTwice(items: seq<string>, first: seq<string>, second: seq<string>)
    ensures Without(Without(items, first), second) == Without(items, first + second)
    decreases |items|
  {
    if items != [] {
      WithoutTwice(items[1..], first, second);
      var x := items[0];
      assert FreeOf(x, first + second) <==> FreeOf(x, first) && FreeOf(x, second) by {
        assert forall b :: b in first + second <==> b in first || b in second;
      }
      if FreeOf(x, first) {
        assert Without(items, first) == [x] + Without(items[1..], first);
        assert ([x] + Without(items[1..], first))[1..] == Without(items[1..], first);
      } else {
        assert Without(items, first) == Without(items[1..], first);
      }
    }
  }

  /** What the three rules, in app.py's order, make of a slot that
      starts with `items`: Lactose Intolerance drops the Breakfast items that
      mention yogurt; Gluten Intolerance then drops, in every slot, the items
      that mention bread or roti; Diabetes finally replaces Snacks by the
      fixed diabetic list, whatever the first two rules left there. */
  function Rewrite(slot: Slot, items: seq<string>, conditions: seq<string>): seq<string> {
    if slot == Snacks && DIABETES in conditions then DIABETIC_SNACKS
    else
      var afterLactose :=
        if slot == Breakfast && LACTOSE_INTOLERANCE in conditions then Without(items, DAIRY_WORDS) else items;
      if GLUTEN_INTOLERANCE in conditions then Without(afterLactose, GLUTEN_WORDS) else afterLactose
  }

  /** What app.py finally suggests for a slot. */
  function Suggestions(slot: Slot, conditions: seq<string>): seq<string> {
    Rewrite(slot, Catalog(slot), conditions)
  }

  /** The gluten rule's loop: every entry of the dict, visited in turn, is
      replaced by its filtered list; the keys stay as they are. */
  method WithoutEverywhere(meals: MealLists, banned: seq<string>) returns (filtered: MealLists)
    ensures filtered.Keys == meals.Keys
    ensures forall key :: key in meals ==> filtered[key] == Without(meals[key], banned)
  {
    filtered := meals;
    var pending := meals.Keys;
    while pending != {}
      invariant pending <= meals.Keys && filtered.Keys == meals.Keys
      invariant forall key :: key in meals && key !in pending ==> filtered[key] == Without(meals[key], banned)
      invariant forall key :: key in pending ==> filtered[key] == meals[key]
      decreases pending
    {
      var key :| key in pending;
      filtered := filtered[key := Without(filtered[key], banned)];
      pending := pending - {key};
    }
  }

  /** app.py's rewrites, applied in its order to a copy of the dict it
      starts from: Breakfast is reassigned under Lactose Intolerance, every
      entry is reassigned under Gluten Intolerance, and Snacks is replaced
      under Diabetes. Each entry ends up as `Rewrite` says. */
  method AdjustMeals(start: MealLists, conditions: seq<string>) returns (meals: MealLists)
    requires HasEverySlot(start)
    ensures meals.Keys == start.Keys
    ensures forall s :: s in meals ==> meals[s] == Rewrite(s, start[s], conditions)
  {
    meals := start;
    if LACTOSE_INTOLERANCE in conditions {
      meals := meals[Breakfast := Without(meals[Breakfast], DAIRY_WORDS)];
    }
    if GLUTEN_INTOLERANCE in conditions {
      meals := WithoutEverywhere(meals, GLUTEN_WORDS);
    }
    if DIABETES in conditions {
      meals := meals[Snacks := DIABETIC_SNACKS];
    }
  }

  /** Under Diabetes, Snacks is the fixed list whatever else is selected and
      whatever Snacks held before. */
  lemma DiabetesFixesSnacks(items: seq<string>, conditions: seq<string>)
    requires DIABETES in conditions
    ensures Rewrite(Snacks, items, conditions) == DIABETIC_SNACKS
  {
  }

  /** Only the three tested conditions matter, and Lactose Intolerance
      matters for Breakfast alone: two selections that agree on those give
      the same result. */
  lemma OnlyTestedConditionsMatter(slot: Slot, items: seq<string>, c1: seq<string>, c2: seq<string>)
    requires (GLUTEN_INTOLERANCE in c1 <==> GLUTEN_INTOLERANCE in c2) && (DIABETES in c1 <==> DIABETES in c2)
    requires slot == Breakfast ==> (LACTOSE_INTOLERANCE in c1 <==> LACTOSE_INTOLERANCE in c2)
    ensures Rewrite(slot, items, c1) == Rewrite(slot, items, c2)
  {
  }

  /** With none of the three tested conditions, every slot is left as it was. */
  lemma NoRuleKeepsItems(slot: Slot, items: seq<string>, conditions: seq<string>)
    requires LACTOSE_INTOLERANCE !in conditions && GLUTEN_INTOLERANCE !in conditions && DIABETES !in conditions
    ensures Rewrite(slot, items, conditions) == items
  {
  }

  /** Under Lactose Intolerance no Breakfast item mentions yogurt, and each
      item that does not mention yogurt survives unless the gluten rule
      drops it. */
  lemma LactoseFreeBreakfast(items: seq<string>, conditions: seq<string>)
    requires LACTOSE_INTOLERANCE in conditions
    ensures forall m :: m in Rewrite(Breakfast, items, conditions) ==> m in items && !Contains(m, "yogurt")
    ensures GLUTEN_INTOLERANCE !in conditions ==>
      forall m :: m in Rewrite(Breakfast, items, conditions) <==> m in items && !Contains(m, "yogurt")
  {
    WithoutKeeps(items, DAIRY_WORDS);
    WithoutKeeps(Without(items, DAIRY_WORDS), GLUTEN_WORDS);
  }

  /** Under Gluten Intolerance no item in any slot mentions bread or roti;
      that holds of the diabetic snacks too, which replace Snacks last. */
  lemma GlutenFreeEverywhere(slot: Slot, items: seq<string>, conditions: seq<string>)
    requires GLUTEN_INTOLERANCE in conditions
    ensures forall m :: m in Rewrite(slot, items, conditions) ==> !Contains(m, "bread") && !Contains(m, "roti")
  {
    if slot == Snacks && DIABETES in conditions {
      DiabeticSnacksGlutenFree();
    } else if slot == Breakfast && LACTOSE_INTOLERANCE in conditions {
      WithoutKeeps(Without(items, DAIRY_WORDS), GLUTEN_WORDS);
    } else {
      WithoutKeeps(items, GLUTEN_WORDS);
    }
  }

  /** Except for Snacks under Diabetes, a slot keeps some of its items, in
      their order. */
  lemma RewriteIsSubsequence(slot: Slot, items: seq<string>, conditions: seq<string>)
    requires !(slot == Snacks && DIABETES in conditions)
    ensures IsSubsequence(Rewrite(slot, items, conditions), items)
  {
    var lactose := slot == Breakfast && LACTOSE_INTOLERANCE in conditions;
    var gluten := GLUTEN_INTOLERANCE in conditions;
    if lactose && gluten {
      WithoutTwice(items, DAIRY_WORDS, GLUTEN_WORDS);
      WithoutIsSubsequence(items, DAIRY_WORDS + GLUTEN_WORDS);
    } else if lactose {
      WithoutIsSubsequence(items, DAIRY_WORDS);
    } else if gluten {
      WithoutIsSubsequence(items, GLUTEN_WORDS);
    } else {
      SubsequenceOfItself(items);
    }
  }

  /** None of the diabetic snacks mentions bread or roti. */
  lemma DiabeticSnacksGlutenFree()
    ensures forall m :: m in DIABETIC_SNACKS ==> !Contains(m, "bread") && !Contains(m, "roti")
  {
    BoiledEggWords();
    AppleSlicesWords();
    VegetableSticksWords();
  }

  /** Filtering a three-item list, item by item. */
  lemma WithoutThree(x: string, y: string, z: string, banned: seq<string>)
    ensures Without([x, y, z], banned) ==
      (if FreeOf(x, banned) then [x] else []) + (if FreeOf(y, banned) then [y] else [])
      + (if FreeOf(z, banned) then [z] else [])
  {
    assert [x, y, z][1..] == [y, z];
    assert [y, z][1..] == [z];
    assert [z][1..] == [];
    assert Without([z], banned) == (if FreeOf(z, banned) then [z] else []);
    assert Without([y, z], banned) == (if FreeOf(y, banned) then [y] else []) + Without([z], banned);
  }

  /** Which breakfast dishes mention yogurt. */
  lemma BreakfastDairyWords()
    ensures FreeOf("Oatmeal with fruits", DAIRY_WORDS) && FreeOf("Boiled eggs with brown bread", DAIRY_WORDS)
    ensures !FreeOf("Greek yogurt with nuts and honey", DAIRY_WORDS)
  {
    OatmealWords();
    BoiledEggsWords();
    GreekYogurtDairy();
  }

  /** Which breakfast dishes mention bread or roti. */
  lemma BreakfastGlutenWords()
    ensures FreeOf("Oatmeal with fruits", GLUTEN_WORDS) && FreeOf("Greek yogurt with nuts and honey", GLUTEN_WORDS)
    ensures !FreeOf("Boiled eggs with brown bread", GLUTEN_WORDS)
  {
    OatmealWords();
    BoiledEggsWords();
    GreekYogurtWords();
  }

  /** Which lunch dishes mention bread or roti. */
  lemma LunchGlutenWords()
    ensures FreeOf("Grilled chicken with brown rice", GLUTEN_WORDS)
    ensures FreeOf("Vegetable salad with olive oil dressing", GLUTEN_WORDS)
    ensures !FreeOf("Lentil soup with whole wheat bread", GLUTEN_WORDS)
  {
    GrilledChickenWords();
    VegetableSaladWords();
    LentilSoupWords();
  }

  /** Which dinner dishes mention bread or roti. */
  lemma DinnerGlutenWords()
    ensures FreeOf("Baked fish with vegetables", GLUTEN_WORDS) && FreeOf("Stir-fried tofu with rice", GLUTEN_WORDS)
    ensures !FreeOf("Vegetable curry with roti", GLUTEN_WORDS)
  {
    BakedFishWords();
    StirFriedTofuWords();
    VegetableCurryWords();
  }

  /** No snack in the catalog mentions bread or roti. */
  lemma SnacksGlutenWords()
    ensures FreeOf("Mixed nuts", GLUTEN_WORDS) && FreeOf("Fruit smoothie", GLUTEN_WORDS)
    ensures FreeOf("Roasted chickpeas", GLUTEN_WORDS)
  {
    MixedNutsWords();
    FruitSmoothieWords();
    RoastedChickpeasWords();
  }

  /** The breakfast catalog under the rules that touch it: Lactose
      Intolerance drops the yogurt dish, Gluten Intolerance the dish with
      bread, and both together leave the oatmeal alone. */
  lemma BreakfastUnderRules(conditions: seq<string>)
    ensures LACTOSE_INTOLERANCE in conditions && GLUTEN_INTOLERANCE !in conditions ==>
      Suggestions(Breakfast, conditions) == ["Oatmeal with fruits", "Boiled eggs with brown bread"]
    ensures LACTOSE_INTOLERANCE !in conditions && GLUTEN_INTOLERANCE in conditions ==>
      Suggestions(Breakfast, conditions) == ["Oatmeal with fruits", "Greek yogurt with nuts and honey"]
    ensures LACTOSE_INTOLERANCE in conditions && GLUTEN_INTOLERANCE in conditions ==>
      Suggestions(Breakfast, conditions) == ["Oatmeal with fruits"]
  {
    var oats, eggs, greek := "Oatmeal with fruits", "Boiled eggs with brown bread", "Greek yogurt with nuts and honey";
    BreakfastDairyWords();
    BreakfastGlutenWords();
    WithoutThree(oats, eggs, greek, DAIRY_WORDS);
    WithoutThree(oats, eggs, greek, GLUTEN_WORDS);
    WithoutTwice([oats, eggs, greek], DAIRY_WORDS, GLUTEN_WORDS);
    WithoutThree(oats, eggs, greek, DAIRY_WORDS + GLUTEN_WORDS);
  }

  /** Under Gluten Intolerance lunch loses the bread soup. */
  lemma LunchUnderRules(conditions: seq<string>)
    ensures GLUTEN_INTOLERANCE in conditions ==>
      Suggestions(Lunch, conditions) == ["Grilled chicken with brown rice", "Vegetable salad with olive oil dressing"]
    ensures GLUTEN_INTOLERANCE !in conditions ==> Suggestions(Lunch, conditions) == Catalog(Lunch)
  {
    LunchGlutenWords();
    WithoutThree("Grilled chicken with brown rice", "Vegetable salad with olive oil dressing",
      "Lentil soup with whole wheat bread", GLUTEN_WORDS);
  }

  /** Under Gluten Intolerance dinner loses the curry with roti. */
  lemma DinnerUnderRules(conditions: seq<string>)
    ensures GLUTEN_INTOLERANCE in conditions ==>
      Suggestions(Dinner, conditions) == ["Baked fish with vegetables", "Stir-fried tofu with rice"]
    ensures GLUTEN_INTOLERANCE !in conditions ==> Suggestions(Dinner, conditions) == Catalog(Dinner)
  {
    DinnerGlutenWords();
    WithoutThree("Baked fish with vegetables", "Stir-fried tofu with rice", "Vegetable curry with roti", GLUTEN_WORDS);
  }

  /** Snacks change only under Diabetes; the gluten rule finds nothing to
      drop among them. */
  lemma SnacksUnderRules(conditions: seq<string>)
    ensures DIABETES in conditions ==> Suggestions(Snacks, conditions) == DIABETIC_SNACKS
    ensures DIABETES !in conditions ==> Suggestions(Snacks, conditions) == Catalog(Snacks)
  {
    SnacksGlutenWords();
    WithoutThree("Mixed nuts", "Fruit smoothie", "Roasted chickpeas", GLUTEN_WORDS);
  }

  /** One row of the table shown to the user. */
  datatype MealRow = MealRow(meal: string, calories: int, suggestions: string)

  /** A slot's calories: its share of the target, rounded to a whole number;
      never more than half a calorie off the exact share. */
  function Allocation(calories: real, slot: Slot): (kcal: int)
    ensures calories * slot.Fraction() - 0.5 <= kcal as real <= calories * slot.Fraction() + 0.5
  {
    Round(calories * slot.Fraction())
  }

  /** The four shares make up the whole target. */
  lemma FractionsSumToOne()
    ensures Breakfast.Fraction() + Lunch.Fraction() + Dinner.Fraction() + Snacks.Fraction() == 1.0
  {
  }

  /** The four rounded allocations add up to within 2 of the target. */
  lemma AllocationsNearTarget(calories: real)
    ensures var total := Allocation(calories, Breakfast) + Allocation(calories, Lunch)
                       + Allocation(calories, Dinner) + Allocation(calories, Snacks);
            calories - 2.0 <= total as real <= calories + 2.0
  {
  }

  /** The row the table shows for a slot that starts with `items`. */
  function Row(calories: real, conditions: seq<string>, slot: Slot, items: seq<string>): MealRow {
    MealRow(slot.Name(), Allocation(calories, slot), Join(Rewrite(slot, items, conditions), SEPARATOR))
  }

  /** Every suggestion left for a slot appears, whole, in its row. */
  lemma RowShowsEverySuggestion(calories: real, conditions: seq<string>, slot: Slot, items: seq<string>, m: string)
    requires m in Rewrite(slot, items, conditions)
    ensures Contains(Row(calories, conditions, slot, items).suggestions, m)
  {
    var kept := Rewrite(slot, items, conditions);
    var k :| 0 <= k < |kept| && kept[k] == m;
    JoinShowsEveryItem(kept, SEPARATOR, k);
  }

  /** The table of app.py built from the rewritten dict: one row per slot,
      in the order the table's "Meal" column lists them, with the slot's
      name, its rounded share of the calorie target and its suggestions
      joined with ", ". */
  method MealTable(meals: MealLists, calories: real) returns (plan: seq<MealRow>)
    requires HasEverySlot(meals)
    ensures |plan| == |SLOTS|
    ensures forall k :: 0 <= k < |plan| ==>
      plan[k] == MealRow(SLOTS[k].Name(), Allocation(calories, SLOTS[k]), Join(meals[SLOTS[k]], SEPARATOR))
  {
    plan := [
      MealRow("Breakfast", Round(calories * 0.25), Join(meals[Breakfast], SEPARATOR)),
      MealRow("Lunch", Round(calories * 0.35), Join(meals[Lunch], SEPARATOR)),
      MealRow("Dinner", Round(calories * 0.30), Join(meals[Dinner], SEPARATOR)),
      MealRow("Snacks", Round(calories * 0.10), Join(meals[Snacks], SEPARATOR))
    ];
  }

  /** The meal section of app.py: the rules applied to the dict it starts
      from, then the table; each row is the slot's `Row`. */
  method BuildMealPlan(start: MealLists, calories: real, conditions: seq<string>) returns (plan: seq<MealRow>)
    requires HasEverySlot(start)
    ensures |plan| == |SLOTS|
    ensures forall k :: 0 <= k < |plan| ==> plan[k] == Row(calories, conditions, SLOTS[k], start[SLOTS[k]])
  {
    var meals := AdjustMeals(start, conditions);
    assert HasEverySlot(meals) by {
      forall s: Slot
        ensures s in meals
      {
        assert s in start;
      }
    }
    plan := MealTable(meals, calories);
  }

  /** The table the page shows: the plan built from the catalog dict. Each
      row holds exactly the slot's catalog suggestions as the rules leave
      them. */
  method PageMealPlan(calories: real, conditions: seq<string>) returns (plan: seq<MealRow>)
    ensures |plan| == |SLOTS|
    ensures forall k :: 0 <= k < |plan| ==>
      plan[k].meal == SLOTS[k].Name() && plan[k].calories == Allocation(calories, SLOTS[k])
      && plan[k].suggestions == Join(Suggestions(SLOTS[k], conditions), SEPARATOR)
  {
    CatalogHasEverySlot();
    plan := BuildMealPlan(CatalogMeals(), calories, conditions);
  }
}
