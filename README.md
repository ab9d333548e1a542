# Brewbuddy catalogue engine in Dafny

Brewbuddy is a coffee-menu browser. Apart from its SwiftUI screens, the app has one piece of real logic: the drink-catalogue filter engine (`DrinkViewModel`) and a few pure helpers around it. This project models those parts and proves their properties:

- `drinks.dfy` (module `Drinks`) models the data model in `Item.swift`:
  - the category, size and mood enumerations and their raw string values, with parsing from a raw value;
  - the `Nutrition` record;
  - the `Drink` record, which stores its category as a raw string;
  - `Drink.init` with the source's default arguments;
  - the per-size nutrition lookup.
- `view_model.dfy` (module `ViewModel`) models `DrinkViewModel.swift`:
  - The five published fields are captured by the value `Filters`.
  - `filteredDrinks` is the function `FilteredDrinks` over a `Filters` value. It is Swift's `filter` applied to the closure `Keep`, which keeps the source's three early-exit guards in source order.
  - The two averages are functions over a `Filters` value.
  - The class `DrinkViewModel` holds the five fields. Its methods overwrite them in place, as `applyMoodFilter`, `resetFilters` and `toggleCategory` do. Each method's `ensures` ties the new fields, read through `Snapshot()`, to a pure function of the old ones (`WithMood`, `InitialFilters`, `Toggled`). The lemmas about those functions carry the properties: last mood wins, reset values, and toggle flips one category and is an involution.
- `data_manager.dfy` (module `DataManager`) models the record-to-drink conversion inside `loadDrinksFromJSON` and the fallback list built by `createSampleDrinks`.
- `favorites.dfy` (module `Favorites`) models the comparison chart's field selector and its grande-only maximum.
- `content.dfy` (module `Content`) models the time-of-day greeting and the scroll-offset preference reducer.
- `seqs.dfy` (module `Seqs`) holds the standard-library operations the code is built from: `filter`, `compactMap`, the `reduce` sum and `max()`. Each has a lemma that relates it to an independent description of its result:
  - `filter` is the order-preserving selection of the accepted elements;
  - `compactMap` is `filter` on the elements that have a value, then unwrapping, position by position;
  - the sum over compacted values is a sum over the whole list with absent values counted as 0;
  - `max()` is an attained upper bound.
- `search.dfy` (module `Search`) models `localizedCaseInsensitiveContains`. Both strings are lower-cased in ASCII, then a substring search runs. The scan is proved equal to "occurs at some position".
- `wrappers.dfy` holds the `Option` type, Swift's `T?`.

Swift `Int` is modelled as `int`. `Double` and `CGFloat` are modelled as `real`.

Behaviour of the Swift code worth noting:
- The category guard also rejects a drink whose stored category string is not one of the eight raw values. Loaded drinks never hit this case (`DataManager.LoadedCategoryGuard`).
- The view model holds no favourites set (see "Left out").
- The thresholds are not bounded; any value is accepted.

## Model

| member | source | states |
|---|---|---|
| Drinks.ParseCategory | Brewbuddy/Item.swift:12-21 | a parsed category's raw value is the parsed string |
| Drinks.CategoryRoundTrip | Brewbuddy/Item.swift:12-21 | parsing a category's raw value yields that category |
| Drinks.ParseCategoryExact | Brewbuddy/Item.swift:12-21 | parsing succeeds exactly on the eight raw values |
| Drinks.CategoryRawValueInjective | Brewbuddy/Item.swift:12-21 | the eight category raw values are pairwise distinct |
| Drinks.AllCategoriesComplete | Brewbuddy/Item.swift:12-20 | `allCases` contains every category |
| Drinks.ParseSize | Brewbuddy/Item.swift:26-30 | a parsed size's raw value is the parsed string |
| Drinks.SizeRoundTrip | Brewbuddy/Item.swift:26-30 | parsing a size's raw value yields that size |
| Drinks.SizeRawValueInjective | Brewbuddy/Item.swift:26-30 | the three size raw values are pairwise distinct |
| Drinks.ParseMood | Brewbuddy/Item.swift:35-40 | a parsed mood's raw value is the parsed string |
| Drinks.MoodRoundTrip | Brewbuddy/Item.swift:35-40 | parsing a mood's raw value yields that mood |
| Drinks.MoodRawValueInjective | Brewbuddy/Item.swift:35-40 | the five mood raw values are pairwise distinct |
| Drinks.NewDrink | Brewbuddy/Item.swift:76-86 | the stored category string parses back to the given category; `description` goes to `drinkDescription`; every other argument goes to its same-named field |
| Drinks.NewDrinkDefaults | Brewbuddy/Item.swift:76 | omitted arguments give not featured, available, no image and no nutrition for any size |
| Drinks.NutritionFor | Brewbuddy/Item.swift:89-98 | the lookup returns one of the three per-size fields |
| Drinks.NutritionForSelectsField | Brewbuddy/Item.swift:89-98 | tall, grande and venti select `nutritionTall`, `nutritionGrande` and `nutritionVenti` |
| Drinks.NutritionForOnlyReadsItsField | Brewbuddy/Item.swift:89-98 | the lookup for a size depends on that size's field only |
| Search.Lower | Brewbuddy/DrinkViewModel.swift:44-45 | lower-casing keeps the length and maps each character through ASCII lower-casing |
| Search.ContainsIgnoringCase | Brewbuddy/DrinkViewModel.swift:44-45 | no contract of its own; `ContainsIgnoringCaseIgnoresCase` states that the match ignores case and `ContainsIgnoringCaseOfOccurrence` that an exact occurrence matches |
| Search.ContainsIffOccurs | Brewbuddy/DrinkViewModel.swift:44-45 | the substring scan succeeds iff the needle occurs at some position |
| Search.ContainsIgnoringCaseIgnoresCase | Brewbuddy/DrinkViewModel.swift:44-45 | the match does not depend on the case of either argument |
| Search.ContainsIgnoringCaseOfOccurrence | Brewbuddy/DrinkViewModel.swift:44-45 | an exact occurrence in the name or description is always a match |
| Seqs.Filter | Brewbuddy/DrinkViewModel.swift:23 | every result element is an accepted input element, and every accepted input element is in the result |
| Seqs.FilterIsOrderedSelection | Brewbuddy/DrinkViewModel.swift:23 | `filter` returns exactly the accepted elements as a subsequence in their original order |
| Seqs.FilterKeepsAll | Brewbuddy/DrinkViewModel.swift:23 | a list whose every element is accepted is returned unchanged |
| Seqs.FilterAppend | Brewbuddy/DrinkViewModel.swift:23 | filtering distributes over concatenation |
| Seqs.CompactMapMembers | Brewbuddy/DrinkViewModel.swift:112 | every collected value comes from some element, and every present value is collected |
| Seqs.CompactMapSkipsAbsent | Brewbuddy/DrinkViewModel.swift:112 | an element mapped to nil does not change the result |
| Seqs.CompactMapIsFilteredValues | Brewbuddy/DrinkViewModel.swift:112 | `compactMap` yields one value per element that has one, in list order: its length is that of the filtered list and its k-th value is the k-th such element's value |
| Seqs.CompactMapAgrees | Brewbuddy/FavoritesView.swift:297-300 | two lists mapped alike position by position compact to the same values |
| Seqs.SumByCompactMap | Brewbuddy/DrinkViewModel.swift:112-115 | the `reduce` sum over the compacted values equals the sum over the whole list with absent values counted as 0 |
| Seqs.MeanByCompactMap | Brewbuddy/DrinkViewModel.swift:112-116 | the guarded mean of compacted values is the whole-list sum (absent as 0) divided by the number of elements that have a value |
| Seqs.SumByBounds | Brewbuddy/DrinkViewModel.swift:115 | a sum of n values in [lo, hi] lies in [n*lo, n*hi] |
| Seqs.MeanBy | Brewbuddy/DrinkViewModel.swift:113-116 | 0 for no values; otherwise mean times count equals the sum |
| Seqs.MeanByBounds | Brewbuddy/DrinkViewModel.swift:113-116 | a non-empty mean lies between any bounds of its values |
| Seqs.Max | Brewbuddy/FavoritesView.swift:302 | `max()` is nil iff the list is empty; otherwise it is an element and no element exceeds it |
| ViewModel.InitialFilters | Brewbuddy/DrinkViewModel.swift:15-19 | no contract of its own; the constructor and `ResetFilters` are stated against it, and `InitialFiltersKeep` says which drinks it keeps |
| ViewModel.Keep | Brewbuddy/DrinkViewModel.swift:23-48 | no contract of its own; stated by `KeepIffAllGuards`, `ThresholdsAreInclusive`, `MissingNutritionSkipsThresholds` and `KeepMonotone` |
| ViewModel.KeepIffAllGuards | Brewbuddy/DrinkViewModel.swift:25-48 | the early-exit closure keeps a drink iff its category parses and is selected, it is within the thresholds, and it matches the search |
| ViewModel.MissingNutritionSkipsThresholds | Brewbuddy/DrinkViewModel.swift:31-40 | with no entry for the selected size, the thresholds do not affect the outcome |
| ViewModel.ThresholdsAreInclusive | Brewbuddy/DrinkViewModel.swift:33-39 | a value equal to its threshold passes; a value above its threshold rejects |
| ViewModel.KeepMonotone | Brewbuddy/DrinkViewModel.swift:25-48 | loosening categories, thresholds or search text never hides a kept drink |
| ViewModel.FilteredDrinks | Brewbuddy/DrinkViewModel.swift:22-50 | the result is no longer than the input; its members are exactly the input drinks the closure keeps |
| ViewModel.FilteredDrinksIsOrderedSelection | Brewbuddy/DrinkViewModel.swift:22-50 | the result is the order-preserving subsequence of exactly the drinks that pass all three guards |
| ViewModel.FilteredDrinksIdempotent | Brewbuddy/DrinkViewModel.swift:22-50 | filtering a filtered list again changes nothing |
| ViewModel.FilteredDrinksAppend | Brewbuddy/DrinkViewModel.swift:22-23 | filtering distributes over concatenation, so drinks are never reordered |
| ViewModel.AverageCalories | Brewbuddy/DrinkViewModel.swift:111-117 | no contract of its own; stated by `AveragesOverDrinks`, `AveragesZeroWithoutEntries`, `AveragesAreMeans` and `AverageCaloriesBounds` |
| ViewModel.AverageCaffeine | Brewbuddy/DrinkViewModel.swift:120-126 | no contract of its own; stated by `AveragesOverDrinks`, `AveragesZeroWithoutEntries`, `AveragesAreMeans` and `AverageCaffeineBounds` |
| ViewModel.EntriesForNonEmpty | Brewbuddy/DrinkViewModel.swift:112 | the compacted entries are non-empty iff some drink has an entry for the size |
| ViewModel.AveragesZeroWithoutEntries | Brewbuddy/DrinkViewModel.swift:111-126 | both averages are 0 when no drink has an entry for the selected size |
| ViewModel.AveragesAreMeans | Brewbuddy/DrinkViewModel.swift:111-126 | otherwise each average times the entry count equals that field's total over the entries |
| ViewModel.EntriesFollowDrinks | Brewbuddy/DrinkViewModel.swift:112 | the entries are those of the drinks that have one for the size, one per drink and in the same order, so duplicate entries are kept |
| ViewModel.AveragesOverDrinks | Brewbuddy/DrinkViewModel.swift:111-126 | when some drink has an entry, each average is that field summed over all drinks (0 for a drink without an entry) divided by the number of drinks with an entry |
| ViewModel.AveragesIgnoreMissing | Brewbuddy/DrinkViewModel.swift:111-126 | a drink without an entry for the selected size does not change either average |
| ViewModel.AverageCaloriesBounds | Brewbuddy/DrinkViewModel.swift:111-117 | the calorie average lies within the calorie range of the drinks that have an entry |
| ViewModel.AverageCaffeineBounds | Brewbuddy/DrinkViewModel.swift:120-126 | the caffeine average lies within the caffeine range of the drinks that have an entry |
| ViewModel.AveragesOfOne | Brewbuddy/DrinkViewModel.swift:111-126 | a single drink's averages are its own calories and caffeine |
| ViewModel.WithMood | Brewbuddy/DrinkViewModel.swift:53-90 | no contract of its own; `ApplyMoodFilter` is stated against it, and `WithMoodLastWins`, `MoodPresetShape` and `RelaxPresetExample` state its behaviour |
| ViewModel.WithMoodLastWins | Brewbuddy/DrinkViewModel.swift:53-90 | applying a preset after any other gives that preset alone; applying one twice is applying it once |
| ViewModel.MoodPresetShape | Brewbuddy/DrinkViewModel.swift:53-90 | every preset selects some categories but never `.other`, sets grande and keeps the search text |
| ViewModel.RelaxPresetExample | Brewbuddy/DrinkViewModel.swift:62-67 | under the relax preset a tea at 55 mg and 240 kcal is kept and a coffee is dropped |
| ViewModel.InitialFiltersKeep | Brewbuddy/DrinkViewModel.swift:15-50 | under the initial fields a drink is kept iff its category parses and its grande entry, if any, is within 500 kcal and 300 mg |
| ViewModel.Toggled | Brewbuddy/DrinkViewModel.swift:102-108 | no contract of its own; `ToggleCategory` is stated against it, and `ToggledFlipsOnlyItsCategory` and `ToggledInvolution` state its behaviour |
| ViewModel.ToggledFlipsOnlyItsCategory | Brewbuddy/DrinkViewModel.swift:102-108 | toggling flips membership of the given category and of no other |
| ViewModel.ToggledInvolution | Brewbuddy/DrinkViewModel.swift:102-108 | toggling the same category twice restores the set |
| ViewModel.DrinkViewModel.constructor | Brewbuddy/DrinkViewModel.swift:15-19 | the fields start as all categories, 500, 300, empty search and grande |
| ViewModel.DrinkViewModel.ApplyMoodFilter | Brewbuddy/DrinkViewModel.swift:53-90 | categories, thresholds and size become the mood's preset with grande; the search text is unchanged |
| ViewModel.DrinkViewModel.ResetFilters | Brewbuddy/DrinkViewModel.swift:93-99 | the fields become exactly the initial values |
| ViewModel.DrinkViewModel.ToggleCategory | Brewbuddy/DrinkViewModel.swift:102-108 | the category set becomes the toggled set; every other field is unchanged |
| DataManager.ToNutrition | Brewbuddy/DataManager.swift:53-78 | no contract of its own; `ToDrinkCopiesNutrition` states that each size's entry is present iff the record's is, with all five fields copied |
| DataManager.RecordCategory | Brewbuddy/DataManager.swift:80 | a known raw value keeps its category; any other string becomes `.other` |
| DataManager.ToDrink | Brewbuddy/DataManager.swift:82-92 | the category always parses; a known category string is kept; an unknown one becomes `.other`; a missing `isFeatured` becomes false; `isAvailable` is true; name, description and image URL are copied |
| DataManager.ToDrinkCopiesNutrition | Brewbuddy/DataManager.swift:53-78 | per size, the drink has an entry iff the record does, with all five fields copied |
| DataManager.ToDrinks | Brewbuddy/DataManager.swift:52-93 | one drink per record, same length, same order |
| DataManager.ToDrinksAppend | Brewbuddy/DataManager.swift:52 | conversion distributes over concatenation of record lists |
| DataManager.LoadedCategoryGuard | Brewbuddy/DataManager.swift:80 | a loaded drink passes the category guard iff its record's category, or `.other` for an unknown one, is selected |
| DataManager.CreateSampleDrinks | Brewbuddy/DataManager.swift:101-217 | seven drinks in fixed order with fixed names and categories; each has all three sizes, an image and is available; only the latte and the cold brew are featured; all pass the initial filters |
| Favorites.NutritionValue | Brewbuddy/FavoritesView.swift:280-293 | no contract of its own; stated by `NutritionValueSelectsField` |
| Favorites.NutritionValueSelectsField | Brewbuddy/FavoritesView.swift:280-293 | each type selects its own field; integer fields keep their value |
| Favorites.MaxNutritionValue | Brewbuddy/FavoritesView.swift:296-303 | no contract of its own; stated by `MaxNutritionValueSpec` and `MaxNutritionValueReadsOnlyGrande` |
| Favorites.MaxNutritionValueSpec | Brewbuddy/FavoritesView.swift:296-303 | with no grande entry the result is 1.0; otherwise it is some drink's grande value, and no drink's grande value exceeds it |
| Favorites.MaxNutritionValueReadsOnlyGrande | Brewbuddy/FavoritesView.swift:298 | lists that agree on grande entries have the same maximum, whatever their tall and venti entries |
| Content.TimeBasedGreeting | Brewbuddy/ContentView.swift:379-389 | no contract of its own; stated by `GreetingPartition` |
| Content.GreetingPartition | Brewbuddy/ContentView.swift:379-389 | hours 6-11 give the morning greeting, 12-17 the afternoon one, every other integer the evening one; exactly one applies |
| Content.ReduceScrollOffset | Brewbuddy/ContentView.swift:393-397 | no contract of its own; `CombineOffsetsLastWins` states that folding it keeps the last reported offset |
| Content.CombineOffsetsLastWins | Brewbuddy/ContentView.swift:393-398 | combining offsets with the reducer yields the last offset, or the start value when there is none |

## Left out

- SwiftUI views, layout, animation, haptics, image loading, category icons and colours, and the scroll-offset opacity and padding arithmetic are presentation only.
- `DrinkDetailView.swift`: the size-ratio, caffeine-hours and calorie-comparison display maths and their string formatting.
- `FavoritesView.formatValue` and the bar-width computation: floating-point remainder and formatting.
- Favourites: `getFavoriteDrinks(from:)`, `toggleFavorite(drink:)` and the `DrinkDetailView(drink:viewModel:)` initialiser are called by the views, but their definitions are not part of this model. No behaviour is invented for them.
- Persistence and loading I/O: bundle lookup, file reading, JSON decoding and its failure branch, `modelContext` inserts and save, and the SwiftData container.
- `Search.ContainsIgnoringCase`: only ASCII letters are case-folded, and characters are matched by code point. Locale-aware Unicode case folding and Unicode canonical equivalence are not modelled: a decomposed `e` plus combining acute accent does not match a precomposed `é`, nor does a CJK compatibility ideograph match its canonical counterpart, although the app's non-literal search treats them as equal. Empty search text never reaches the match, so its value for an empty needle does not matter.
- `ViewModel.AverageCalories` and `ViewModel.AverageCaffeine` compute over exact reals, so the IEEE rounding of the `Double` sum and division is not captured.
- The slider ranges in the views are UI bounds. The engine does not enforce them, and neither does the model.
- Swift's 64-bit `Int` width: the core only compares integer fields and converts them to `Double`, so wrap-around never arises and `int` is used.
- `ViewModel.Keep`: the threshold guards compare the integer calories and caffeine with the thresholds exactly. Swift's `Double(nutrition.calories)` rounds integers above 2^53 first, so for such values the model can reject a drink the app keeps.
- `Drinks.ParseCategory`, `Drinks.ParseSize`, `Drinks.ParseMood`: raw values are matched by code-point equality. Swift's `String ==` uses Unicode canonical equivalence, so a canonically equivalent spelling of a raw value, such as a CJK compatibility ideograph, parses in the app but not in the model.
- `DataManager.RecordCategory`: inherits the code-point matching of `Drinks.ParseCategory`, so a record whose category is a canonically equivalent spelling becomes `.other` in the model but is resolved in the app.
- The clock read of the current hour and the loading delay. The hour is a parameter of `Content.TimeBasedGreeting`.
- Object identity: `Drink` and `Nutrition` are persistent SwiftData classes, but nothing in the core mutates them after construction. They are modelled as values, so aliasing between drinks is not represented.
- The `NutritionType` raw values, icons, colours and units are display strings only.
- `Content.CombineOffsets` folds the reducer over a list of reported offsets. This is how SwiftUI uses a preference key. The fold itself belongs to the framework; the source supplies only the reducer.
