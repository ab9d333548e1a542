/**
 * The drink-catalogue filter engine (DrinkViewModel.swift).
 *
 * The view model's five published fields are captured by the value type
 * `Filters`; the read-only queries (`filteredDrinks`, the two averages) are
 * functions of such a snapshot and a drink list, and the class
 * `DrinkViewModel` holds the fields and the three operations that overwrite
 * them in place.
 */
module ViewModel {
  import opened Wrappers
  import opened Drinks
  import Search
  import Seqs

  /** The filter criteria: the values of the view model's published fields. */
  datatype Filters = Filters(
    selectedCategories: set<DrinkCategory>,
    caloriesThreshold: real,
    caffeineThreshold: real,
    searchText: string,
    selectedSize: DrinkSize)

  /** The fields' initial values, which `resetFilters` restores. */
  function InitialFilters(): Filters
  {
    Filters(AllCategories(), 500.0, 300.0, "", Grande)
  }

  // ---------------------------------------------------------------------
  // The filter closure and its three guards
  // ---------------------------------------------------------------------

  /**
   * The closure passed to `filter`: three early-exit guards in source order
   * (category, nutrition for the selected size, search text).
   */
  predicate Keep(f: Filters, d: Drink)
  {
    match ParseCategory(d.category)
    case None => false
    case Some(category) =>
      if category !in f.selectedCategories then false
      else
        var nutrition := NutritionFor(d, f.selectedSize);
        if nutrition.Some? && nutrition.value.calories as real > f.caloriesThreshold then false
        else if nutrition.Some? && nutrition.value.caffeine as real > f.caffeineThreshold then false
        else if f.searchText != "" then
          Search.ContainsIgnoringCase(d.name, f.searchText)
          || Search.ContainsIgnoringCase(d.drinkDescription, f.searchText)
        else true
  }

  /** Guard 1: the stored category parses and is selected. */
  predicate CategorySelected(f: Filters, d: Drink)
  {
    ParseCategory(d.category).Some? && ParseCategory(d.category).value in f.selectedCategories
  }

  /** Guard 2: thresholds are inclusive upper bounds; a missing entry passes. */
  predicate WithinThresholds(f: Filters, d: Drink)
  {
    match NutritionFor(d, f.selectedSize)
    case None => true
    case Some(n) => n.calories as real <= f.caloriesThreshold && n.caffeine as real <= f.caffeineThreshold
  }

  /** Guard 3: no search text, or the name or the description contains it. */
  predicate MatchesSearch(f: Filters, d: Drink)
  {
    f.searchText == []
    || Search.ContainsIgnoringCase(d.name, f.searchText)
    || Search.ContainsIgnoringCase(d.drinkDescription, f.searchText)
  }

  /** The early-exit chain keeps a drink exactly when it passes all three guards. */
  lemma KeepIffAllGuards(f: Filters, d: Drink)
    ensures Keep(f, d) <==> CategorySelected(f, d) && WithinThresholds(f, d) && MatchesSearch(f, d)
  {
  }

  /** A drink with no entry for the selected size skips the threshold check entirely. */
  lemma MissingNutritionSkipsThresholds(f: Filters, d: Drink)
    requires NutritionFor(d, f.selectedSize).None?
    ensures Keep(f, d) <==> CategorySelected(f, d) && MatchesSearch(f, d)
    ensures forall cal: real, caf: real ::
      Keep(f.(caloriesThreshold := cal, caffeineThreshold := caf), d) == Keep(f, d)
  {
  }

  /** A drink whose value equals a threshold is still kept: the bounds are inclusive. */
  lemma ThresholdsAreInclusive(f: Filters, d: Drink, n: Nutrition)
    requires NutritionFor(d, f.selectedSize) == Some(n)
    requires CategorySelected(f, d) && MatchesSearch(f, d)
    ensures Keep(f.(caloriesThreshold := n.calories as real, caffeineThreshold := n.caffeine as real), d)
    ensures n.calories as real > f.caloriesThreshold ==> !Keep(f, d)
    ensures n.caffeine as real > f.caffeineThreshold ==> !Keep(f, d)
  {
  }

  /** Loosening every criterion never hides a drink that was shown. */
  predicate Looser(f: Filters, g: Filters)
  {
    && f.selectedCategories <= g.selectedCategories
    && f.caloriesThreshold <= g.caloriesThreshold
    && f.caffeineThreshold <= g.caffeineThreshold
    && f.selectedSize == g.selectedSize
    && (g.searchText == [] || g.searchText == f.searchText)
  }

  lemma KeepMonotone(f: Filters, g: Filters, d: Drink)
    requires Looser(f, g) && Keep(f, d)
    ensures Keep(g, d)
  {
    KeepIffAllGuards(f, d);
    KeepIffAllGuards(g, d);
  }

  // ---------------------------------------------------------------------
  // filteredDrinks
  // ---------------------------------------------------------------------

  /** `filteredDrinks(drinks:)`: the drinks the closure keeps, in list order. */
  function FilteredDrinks(f: Filters, drinks: seq<Drink>): (r: seq<Drink>)
    ensures |r| <= |drinks|
    ensures forall k :: 0 <= k < |r| ==> r[k] in drinks && Keep(f, r[k])
    ensures forall i :: 0 <= i < |drinks| && Keep(f, drinks[i]) ==> drinks[i] in r
  {
    Seqs.Filter(drinks, d => Keep(f, d))
  }

  /**
   * The result is the subsequence of the input made of exactly the drinks
   * that pass all three guards, in their original relative order.
   */
  lemma FilteredDrinksIsOrderedSelection(f: Filters, drinks: seq<Drink>)
    ensures exists idx ::
      && Seqs.Embeds(idx, FilteredDrinks(f, drinks), drinks)
      && (forall i :: 0 <= i < |drinks| ==>
            (i in idx <==> CategorySelected(f, drinks[i]) && WithinThresholds(f, drinks[i]) && MatchesSearch(f, drinks[i])))
  {
    var keep := d => Keep(f, d);
    Seqs.FilterIsOrderedSelection(drinks, keep);
    var idx := Seqs.KeptIndices(drinks, keep);
    assert FilteredDrinks(f, drinks) == Seqs.Filter(drinks, keep);
    assert Seqs.Embeds(idx, FilteredDrinks(f, drinks), drinks);
    forall i | 0 <= i < |drinks|
      ensures i in idx <==> CategorySelected(f, drinks[i]) && WithinThresholds(f, drinks[i]) && MatchesSearch(f, drinks[i])
    {
      KeepIffAllGuards(f, drinks[i]);
    }
  }

  /** Filtering twice with the same criteria is filtering once. */
  lemma FilteredDrinksIdempotent(f: Filters, drinks: seq<Drink>)
    ensures FilteredDrinks(f, FilteredDrinks(f, drinks)) == FilteredDrinks(f, drinks)
  {
    Seqs.FilterKeepsAll(FilteredDrinks(f, drinks), d => Keep(f, d));
  }

  /** Filtering distributes over concatenation: no drink moves past another. */
  lemma FilteredDrinksAppend(f: Filters, a: seq<Drink>, b: seq<Drink>)
    ensures FilteredDrinks(f, a + b) == FilteredDrinks(f, a) + FilteredDrinks(f, b)
  {
    Seqs.FilterAppend(a, b, d => Keep(f, d));
  }

  // ---------------------------------------------------------------------
  // averageCalories / averageCaffeine
  // ---------------------------------------------------------------------

  /** The closure `{ $0.nutrition(for: size) }`. */
  function EntryOf(size: DrinkSize): Drink -> Option<Nutrition>
  {
    d => NutritionFor(d, size)
  }

  /** `compactMap { $0.nutrition(for: size) }`: the entries present for `size`, in list order. */
  function EntriesFor(size: DrinkSize, drinks: seq<Drink>): seq<Nutrition>
  {
    Seqs.CompactMap(drinks, EntryOf(size))
  }

  /** The drinks that have an entry for `size`, in list order. */
  function DrinksWithEntry(size: DrinkSize, drinks: seq<Drink>): seq<Drink>
  {
    Seqs.Filter(drinks, Seqs.Present(EntryOf(size)))
  }

  /** The field each average reads, converted as `Double($1.calories)` / `Double($1.caffeine)` do. */
  function CaloriesOf(n: Nutrition): int { n.calories }

  function CaffeineOf(n: Nutrition): int { n.caffeine }

  /** `averageCalories(drinks:)`: the mean calories over the entries for the selected size, or 0. */
  function AverageCalories(f: Filters, drinks: seq<Drink>): real
  {
    Seqs.MeanBy(EntriesFor(f.selectedSize, drinks), CaloriesOf)
  }

  /** `averageCaffeine(drinks:)`: the mean caffeine over the entries for the selected size, or 0. */
  function AverageCaffeine(f: Filters, drinks: seq<Drink>): real
  {
    Seqs.MeanBy(EntriesFor(f.selectedSize, drinks), CaffeineOf)
  }

  /** Some drink has an entry for `size` exactly when the compacted list is non-empty. */
  lemma EntriesForNonEmpty(size: DrinkSize, drinks: seq<Drink>)
    ensures EntriesFor(size, drinks) != [] <==> exists d :: d in drinks && NutritionFor(d, size).Some?
  {
    var ns := EntriesFor(size, drinks);
    Seqs.CompactMapMembers(drinks, EntryOf(size));
    if ns != [] {
      assert ns[0] in ns;
    }
  }

  /** With no entry for the selected size anywhere in the list, both averages are 0. */
  lemma AveragesZeroWithoutEntries(f: Filters, drinks: seq<Drink>)
    requires forall d :: d in drinks ==> NutritionFor(d, f.selectedSize).None?
    ensures AverageCalories(f, drinks) == 0.0 && AverageCaffeine(f, drinks) == 0.0
  {
    EntriesForNonEmpty(f.selectedSize, drinks);
  }

  /** Otherwise each average times the number of entries is that field's total over the entries. */
  lemma AveragesAreMeans(f: Filters, drinks: seq<Drink>)
    requires exists d :: d in drinks && NutritionFor(d, f.selectedSize).Some?
    ensures var ns := EntriesFor(f.selectedSize, drinks);
      && ns != []
      && AverageCalories(f, drinks) * |ns| as real == Seqs.SumBy(ns, CaloriesOf) as real
      && AverageCaffeine(f, drinks) * |ns| as real == Seqs.SumBy(ns, CaffeineOf) as real
  {
    EntriesForNonEmpty(f.selectedSize, drinks);
  }

  /**
   * The entries are those of the drinks that have one, one per drink and in
   * the same order, so duplicates are kept and the averages divide by the
   * number of such drinks.
   */
  lemma EntriesFollowDrinks(size: DrinkSize, drinks: seq<Drink>)
    ensures var ds, ns := DrinksWithEntry(size, drinks), EntriesFor(size, drinks);
      && |ns| == |ds|
      && forall k :: 0 <= k < |ds| ==> NutritionFor(ds[k], size) == Some(ns[k])
  {
    Seqs.CompactMapIsFilteredValues(drinks, EntryOf(size));
  }

  /**
   * Each average is that field summed over the whole list, a drink without an
   * entry for the selected size counting 0, divided by the number of drinks
   * that have one.
   */
  lemma AveragesOverDrinks(f: Filters, drinks: seq<Drink>)
    requires exists d :: d in drinks && NutritionFor(d, f.selectedSize).Some?
    ensures var count := |DrinksWithEntry(f.selectedSize, drinks)|;
      && count > 0
      && AverageCalories(f, drinks) == Seqs.SumBy(drinks, Seqs.ValueOrZero(EntryOf(f.selectedSize), CaloriesOf)) as real / count as real
      && AverageCaffeine(f, drinks) == Seqs.SumBy(drinks, Seqs.ValueOrZero(EntryOf(f.selectedSize), CaffeineOf)) as real / count as real
  {
    var size := f.selectedSize;
    EntriesForNonEmpty(size, drinks);
    EntriesFollowDrinks(size, drinks);
    Seqs.MeanByCompactMap(drinks, EntryOf(size), CaloriesOf);
    Seqs.MeanByCompactMap(drinks, EntryOf(size), CaffeineOf);
  }

  /** Drinks without an entry for the selected size do not affect the averages. */
  lemma AveragesIgnoreMissing(f: Filters, a: seq<Drink>, d: Drink, b: seq<Drink>)
    requires NutritionFor(d, f.selectedSize).None?
    ensures AverageCalories(f, a + [d] + b) == AverageCalories(f, a + b)
    ensures AverageCaffeine(f, a + [d] + b) == AverageCaffeine(f, a + b)
  {
    Seqs.CompactMapSkipsAbsent(a, d, b, EntryOf(f.selectedSize));
  }

  /** Each average lies within the range of its field over the drinks that have an entry. */
  lemma AverageCaloriesBounds(f: Filters, drinks: seq<Drink>, lo: int, hi: int)
    requires exists d :: d in drinks && NutritionFor(d, f.selectedSize).Some?
    requires forall d :: d in drinks && NutritionFor(d, f.selectedSize).Some? ==>
      lo <= NutritionFor(d, f.selectedSize).value.calories <= hi
    ensures lo as real <= AverageCalories(f, drinks) <= hi as real
  {
    var ns := EntriesFor(f.selectedSize, drinks);
    EntriesForNonEmpty(f.selectedSize, drinks);
    Seqs.CompactMapMembers(drinks, EntryOf(f.selectedSize));
    forall i | 0 <= i < |ns| ensures lo <= ns[i].calories <= hi {
      assert ns[i] in ns;
    }
    Seqs.MeanByBounds(ns, CaloriesOf, lo, hi);
  }

  lemma AverageCaffeineBounds(f: Filters, drinks: seq<Drink>, lo: int, hi: int)
    requires exists d :: d in drinks && NutritionFor(d, f.selectedSize).Some?
    requires forall d :: d in drinks && NutritionFor(d, f.selectedSize).Some? ==>
      lo <= NutritionFor(d, f.selectedSize).value.caffeine <= hi
    ensures lo as real <= AverageCaffeine(f, drinks) <= hi as real
  {
    var ns := EntriesFor(f.selectedSize, drinks);
    EntriesForNonEmpty(f.selectedSize, drinks);
    Seqs.CompactMapMembers(drinks, EntryOf(f.selectedSize));
    forall i | 0 <= i < |ns| ensures lo <= ns[i].caffeine <= hi {
      assert ns[i] in ns;
    }
    Seqs.MeanByBounds(ns, CaffeineOf, lo, hi);
  }

  /** A single drink's averages are its own values for the selected size. */
  lemma AveragesOfOne(f: Filters, d: Drink, n: Nutrition)
    requires NutritionFor(d, f.selectedSize) == Some(n)
    ensures AverageCalories(f, [d]) == n.calories as real
    ensures AverageCaffeine(f, [d]) == n.caffeine as real
  {
    assert EntriesFor(f.selectedSize, [d]) == [n] by {
      assert [d][..0] == [];
    }
    assert [n][..0] == [];
    assert Seqs.SumBy([n], CaloriesOf) == n.calories;
    assert Seqs.SumBy([n], CaffeineOf) == n.caffeine;
  }

  // ---------------------------------------------------------------------
  // Mood presets, reset and toggle, as functions of the criteria
  // ---------------------------------------------------------------------

  function MoodCategories(mood: DrinkMood): set<DrinkCategory>
  {
    match mood
    case Energize => {Coffee, Espresso, ColdBrew}
    case Relax => {Tea, Refreshers}
    case Refresh => {Refreshers, ColdBrew, Frappuccino}
    case Indulge => {Frappuccino, HotChocolate}
    case Warm => {Coffee, Tea, HotChocolate, Espresso}
  }

  function MoodCaffeineThreshold(mood: DrinkMood): real
  {
    if mood == Relax then 100.0 else 500.0
  }

  function MoodCaloriesThreshold(mood: DrinkMood): real
  {
    match mood
    case Refresh => 300.0
    case Indulge => 600.0
    case _ => 500.0
  }

  /** `applyMoodFilter(_:)`: every criterion but the search text comes from the preset. */
  function WithMood(f: Filters, mood: DrinkMood): Filters
  {
    f.(selectedCategories := MoodCategories(mood),
       caffeineThreshold := MoodCaffeineThreshold(mood),
       caloriesThreshold := MoodCaloriesThreshold(mood),
       selectedSize := Grande)
  }

  /** Only the last mood applied matters, so applying one twice is applying it once. */
  lemma WithMoodLastWins(f: Filters, m1: DrinkMood, m2: DrinkMood)
    ensures WithMood(WithMood(f, m1), m2) == WithMood(f, m2)
    ensures WithMood(WithMood(f, m1), m1) == WithMood(f, m1)
  {
  }

  /** No preset selects the fallback category, and every preset selects the grande cup. */
  lemma MoodPresetShape(f: Filters, mood: DrinkMood)
    ensures Other !in WithMood(f, mood).selectedCategories
    ensures WithMood(f, mood).selectedCategories != {}
    ensures WithMood(f, mood).selectedSize == Grande
    ensures WithMood(f, mood).searchText == f.searchText
  {
  }

  /** Under the initial criteria a drink is kept iff its category parses and its grande entry, if any, is within 500 kcal and 300 mg. */
  lemma InitialFiltersKeep(d: Drink)
    ensures Keep(InitialFilters(), d) <==>
      && ParseCategory(d.category).Some?
      && (d.nutritionGrande.Some? ==>
            d.nutritionGrande.value.calories <= 500 && d.nutritionGrande.value.caffeine <= 300)
  {
    if ParseCategory(d.category).Some? {
      AllCategoriesComplete(ParseCategory(d.category).value);
    }
  }

  /**
   * A worked case: the relax preset keeps the tea (55 mg caffeine, 240 kcal)
   * and drops the coffee, whose category it does not select.
   */
  lemma RelaxPresetExample()
    ensures
      var latte := NewDrink("拿铁", "", category := Coffee, nutritionGrande := Some(Nutrition(250, 150, 10.0, 23.0, 13.0)));
      var tea := NewDrink("抹茶拿铁", "", category := Tea, nutritionGrande := Some(Nutrition(240, 55, 7.0, 31.0, 9.0)));
      FilteredDrinks(WithMood(InitialFilters(), Relax), [latte, tea]) == [tea]
  {
    var latte := NewDrink("拿铁", "", category := Coffee, nutritionGrande := Some(Nutrition(250, 150, 10.0, 23.0, 13.0)));
    var tea := NewDrink("抹茶拿铁", "", category := Tea, nutritionGrande := Some(Nutrition(240, 55, 7.0, 31.0, 9.0)));
    var f := WithMood(InitialFilters(), Relax);
    assert !Keep(f, latte) && Keep(f, tea);
    FilteredDrinksAppend(f, [latte], [tea]);
    assert [latte] + [tea] == [latte, tea];
    assert [latte][..0] == [] && [tea][..0] == [];
  }

  /** `toggleCategory(_:)` on the category set: remove when present, insert otherwise. */
  function Toggled(s: set<DrinkCategory>, c: DrinkCategory): set<DrinkCategory>
  {
    if c in s then s - {c} else s + {c}
  }

  /** Toggling flips membership of `c` and of nothing else. */
  lemma ToggledFlipsOnlyItsCategory(s: set<DrinkCategory>, c: DrinkCategory)
    ensures c in Toggled(s, c) <==> c !in s
    ensures forall x :: x != c ==> (x in Toggled(s, c) <==> x in s)
  {
  }

  /** Two toggles of the same category restore the set. */
  lemma ToggledInvolution(s: set<DrinkCategory>, c: DrinkCategory)
    ensures Toggled(Toggled(s, c), c) == s
  {
  }

  // ---------------------------------------------------------------------
  // The view model object
  // ---------------------------------------------------------------------

  class DrinkViewModel {
    var selectedCategories: set<DrinkCategory>
    var caloriesThreshold: real
    var caffeineThreshold: real
    var searchText: string
    var selectedSize: DrinkSize

    /** The current criteria, as read by `filteredDrinks` and the averages. */
    function Snapshot(): Filters
      reads this
    {
      Filters(selectedCategories, caloriesThreshold, caffeineThreshold, searchText, selectedSize)
    }

    constructor ()
      ensures Snapshot() == InitialFilters()
    {
      selectedCategories := AllCategories();
      caloriesThreshold := 500.0;
      caffeineThreshold := 300.0;
      searchText := "";
      selectedSize := Grande;
    }

    method ApplyMoodFilter(mood: DrinkMood)
      modifies this
      ensures Snapshot() == WithMood(old(Snapshot()), mood)
      ensures selectedSize == Grande && searchText == old(searchText)
    {
      match mood
      case Energize =>
        selectedCategories := {Coffee, Espresso, ColdBrew};
        caffeineThreshold := 500.0;
        caloriesThreshold := 500.0;
        selectedSize := Grande;
      case Relax =>
        selectedCategories := {Tea, Refreshers};
        caffeineThreshold := 100.0;
        caloriesThreshold := 500.0;
        selectedSize := Grande;
      case Refresh =>
        selectedCategories := {Refreshers, ColdBrew, Frappuccino};
        caffeineThreshold := 500.0;
        caloriesThreshold := 300.0;
        selectedSize := Grande;
      case Indulge =>
        selectedCategories := {Frappuccino, HotChocolate};
        caffeineThreshold := 500.0;
        caloriesThreshold := 600.0;
        selectedSize := Grande;
      case Warm =>
        selectedCategories := {Coffee, Tea, HotChocolate, Espresso};
        caffeineThreshold := 500.0;
        caloriesThreshold := 500.0;
        selectedSize := Grande;
    }

    method ResetFilters()
      modifies this
      ensures Snapshot() == InitialFilters()
    {
      selectedCategories := AllCategories();
      caloriesThreshold := 500.0;
      caffeineThreshold := 300.0;
      searchText := "";
      selectedSize := Grande;
    }

    method ToggleCategory(category: DrinkCategory)
      modifies this
      ensures Snapshot() == old(Snapshot()).(selectedCategories := Toggled(old(selectedCategories), category))
    {
      if category in selectedCategories {
        selectedCategories := selectedCategories - {category};
      } else {
        selectedCategories := selectedCategories + {category};
      }
    }
  }
}
