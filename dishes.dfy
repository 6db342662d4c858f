/** The words the meal rules look for, in each dish of the catalog and of
    the diabetic snack list: which of "yogurt", "bread" and "roti" each dish
    mentions, as Python's `in` decides it. */
module Dishes {
  import opened Text

  lemma OatmealWords()
    ensures !Contains("Oatmeal with fruits", "yogurt")
    ensures !Contains("Oatmeal with fruits", "bread")
    ensures !Contains("Oatmeal with fruits", "roti")
  {
    assert PairAbsent("Oatmeal with fruits", 'y', 'o');
    AbsentPair("Oatmeal with fruits", "yogurt", 0);
    assert PairAbsent("Oatmeal with fruits", 'b', 'r');
    AbsentPair("Oatmeal with fruits", "bread", 0);
    assert PairAbsent("Oatmeal with fruits", 'r', 'o');
    AbsentPair("Oatmeal with fruits", "roti", 0);
  }

  lemma BoiledEggsWords()
    ensures !Contains("Boiled eggs with brown bread", "yogurt")
    ensures Contains("Boiled eggs with brown bread", "bread")
  {
    assert PairAbsent("Boiled eggs with brown bread", 'y', 'o');
    AbsentPair("Boiled eggs with brown bread", "yogurt", 0);
    var s := "Boiled eggs with brown bread";
    assert s[23] == 'b' && s[24] == 'r' && s[25] == 'e' && s[26] == 'a' && s[27] == 'd';
    ContainsAt(s, "bread", 23);
  }

  lemma GreekYogurtWords()
    ensures !Contains("Greek yogurt with nuts and honey", "bread")
    ensures !Contains("Greek yogurt with nuts and honey", "roti")
  {
    assert PairAbsent("Greek yogurt with nuts and honey", 'b', 'r');
    AbsentPair("Greek yogurt with nuts and honey", "bread", 0);
    assert PairAbsent("Greek yogurt with nuts and honey", 'r', 'o');
    AbsentPair("Greek yogurt with nuts and honey", "roti", 0);
  }

  lemma GreekYogurtDairy()
    ensures Contains("Greek yogurt with nuts and honey", "yogurt")
  {
    var s := "Greek yogurt with nuts and honey";
    assert s[6] == 'y' && s[7] == 'o' && s[8] == 'g' && s[9] == 'u' && s[10] == 'r' && s[11] == 't';
    ContainsAt(s, "yogurt", 6);
  }

  lemma GrilledChickenWords()
    ensures !Contains("Grilled chicken with brown rice", "bread")
    ensures !Contains("Grilled chicken with brown rice", "roti")
  {
    assert PairAbsent("Grilled chicken with brown rice", 'e', 'a');
    AbsentPair("Grilled chicken with brown rice", "bread", 2);
    assert PairAbsent("Grilled chicken with brown rice", 'o', 't');
    AbsentPair("Grilled chicken with brown rice", "roti", 1);
  }

  lemma VegetableSaladWords()
    ensures !Contains("Vegetable salad with olive oil dressing", "bread")
    ensures !Contains("Vegetable salad with olive oil dressing", "roti")
  {
    assert PairAbsent("Vegetable salad with olive oil dressing", 'b', 'r');
    AbsentPair("Vegetable salad with olive oil dressing", "bread", 0);
    assert PairAbsent("Vegetable salad with olive oil dressing", 'r', 'o');
    AbsentPair("Vegetable salad with olive oil dressing", "roti", 0);
  }

  lemma LentilSoupWords()
    ensures Contains("Lentil soup with whole wheat bread", "bread")
  {
    var s := "Lentil soup with whole wheat bread";
    assert s[29] == 'b' && s[30] == 'r' && s[31] == 'e' && s[32] == 'a' && s[33] == 'd';
    ContainsAt(s, "bread", 29);
  }

  lemma BakedFishWords()
    ensures !Contains("Baked fish with vegetables", "bread")
    ensures !Contains("Baked fish with vegetables", "roti")
  {
    assert PairAbsent("Baked fish with vegetables", 'b', 'r');
    AbsentPair("Baked fish with vegetables", "bread", 0);
    assert PairAbsent("Baked fish with vegetables", 'r', 'o');
    AbsentPair("Baked fish with vegetables", "roti", 0);
  }

  lemma StirFriedTofuWords()
    ensures !Contains("Stir-fried tofu with rice", "bread")
    ensures !Contains("Stir-fried tofu with rice", "roti")
  {
    assert PairAbsent("Stir-fried tofu with rice", 'b', 'r');
    AbsentPair("Stir-fried tofu with rice", "bread", 0);
    assert PairAbsent("Stir-fried tofu with rice", 'r', 'o');
    AbsentPair("Stir-fried tofu with rice", "roti", 0);
  }

  lemma VegetableCurryWords()
    ensures Contains("Vegetable curry with roti", "roti")
  {
    var s := "Vegetable curry with roti";
    assert s[21] == 'r' && s[22] == 'o' && s[23] == 't' && s[24] == 'i';
    ContainsAt(s, "roti", 21);
  }

  lemma MixedNutsWords()
    ensures !Contains("Mixed nuts", "bread")
    ensures !Contains("Mixed nuts", "roti")
  {
    assert PairAbsent("Mixed nuts", 'b', 'r');
    AbsentPair("Mixed nuts", "bread", 0);
    assert PairAbsent("Mixed nuts", 'r', 'o');
    AbsentPair("Mixed nuts", "roti", 0);
  }

  lemma FruitSmoothieWords()
    ensures !Contains("Fruit smoothie", "bread")
    ensures !Contains("Fruit smoothie", "roti")
  {
    assert PairAbsent("Fruit smoothie", 'b', 'r');
    AbsentPair("Fruit smoothie", "bread", 0);
    assert PairAbsent("Fruit smoothie", 'r', 'o');
    AbsentPair("Fruit smoothie", "roti", 0);
  }

  lemma RoastedChickpeasWords()
    ensures !Contains("Roasted chickpeas", "bread")
    ensures !Contains("Roasted chickpeas", "roti")
  {
    assert PairAbsent("Roasted chickpeas", 'b', 'r');
    AbsentPair("Roasted chickpeas", "bread", 0);
    assert PairAbsent("Roasted chickpeas", 'r', 'o');
    AbsentPair("Roasted chickpeas", "roti", 0);
  }

  lemma BoiledEggWords()
    ensures !Contains("Boiled egg", "bread")
    ensures !Contains("Boiled egg", "roti")
  {
    assert PairAbsent("Boiled egg", 'b', 'r');
    AbsentPair("Boiled egg", "bread", 0);
    assert PairAbsent("Boiled egg", 'r', 'o');
    AbsentPair("Boiled egg", "roti", 0);
  }

  lemma AppleSlicesWords()
    ensures !Contains("Apple slices with peanut butter", "bread")
    ensures !Contains("Apple slices with peanut butter", "roti")
  {
    assert PairAbsent("Apple slices with peanut butter", 'b', 'r');
    AbsentPair("Apple slices with peanut butter", "bread", 0);
    assert PairAbsent("Apple slices with peanut butter", 'r', 'o');
    AbsentPair("Apple slices with peanut butter", "roti", 0);
  }

  lemma VegetableSticksWords()
    ensures !Contains("Vegetable sticks with hummus", "bread")
    ensures !Contains("Vegetable sticks with hummus", "roti")
  {
    assert PairAbsent("Vegetable sticks with hummus", 'b', 'r');
    AbsentPair("Vegetable sticks with hummus", "bread", 0);
    assert PairAbsent("Vegetable sticks with hummus", 'r', 'o');
    AbsentPair("Vegetable sticks with hummus", "roti", 0);
  }
}
