/**
 * The catalogue's data model (Item.swift): the category, cup-size and mood
 * enumerations with their raw string values, the per-size nutrition record,
 * and the drink record whose category is stored as a raw string.
 */
module Drinks {
  import opened Wrappers

  /** The eight drink categories, in declaration order. */
  datatype DrinkCategory =
    | Coffee | Tea | Refreshers | Frappuccino | ColdBrew | Espresso | HotChocolate | Other

  /** The raw value each category is stored and decoded as. */
  function CategoryRawValue(c: DrinkCategory): string
  {
    match c
    case Coffee => "咖啡"
    case Tea => "茶"
    case Refreshers => "清爽饮料"
    case Frappuccino => "星冰乐"
    case ColdBrew => "冷萃咖啡"
    case Espresso => "浓缩咖啡"
    case HotChocolate => "热巧克力"
    case Other => "其他"
  }

  /** `DrinkCategory(rawValue:)`: the category whose raw value is `s`, if any. */
  function ParseCategory(s: string): (r: Option<DrinkCategory>)
    ensures r.Some? ==> CategoryRawValue(r.value) == s
  {
    if s == CategoryRawValue(Coffee) then Some(Coffee)
    else if s == CategoryRawValue(Tea) then Some(Tea)
    else if s == CategoryRawValue(Refreshers) then Some(Refreshers)
    else if s == CategoryRawValue(Frappuccino) then Some(Frappuccino)
    else if s == CategoryRawValue(ColdBrew) then Some(ColdBrew)
    else if s == CategoryRawValue(Espresso) then Some(Espresso)
    else if s == CategoryRawValue(HotChocolate) then Some(HotChocolate)
    else if s == CategoryRawValue(Other) then Some(Other)
    else None
  }

  /** `DrinkCategory.allCases`. */
  function AllCategories(): set<DrinkCategory>
  {
    {Coffee, Tea, Refreshers, Frappuccino, ColdBrew, Espresso, HotChocolate, Other}
  }

  /** `allCases` lists every category. */
  lemma AllCategoriesComplete(c: DrinkCategory)
    ensures c in AllCategories()
  {
    match c
    case Coffee =>
    case Tea =>
    case Refreshers =>
    case Frappuccino =>
    case ColdBrew =>
    case Espresso =>
    case HotChocolate =>
    case Other =>
  }

  /** Parsing a category's raw value gives the category back. */
  lemma CategoryRoundTrip(c: DrinkCategory)
    ensures ParseCategory(CategoryRawValue(c)) == Some(c)
  {
  }

  /** Parsing accepts exactly the eight raw values. */
  lemma ParseCategoryExact(s: string)
    ensures ParseCategory(s).Some? <==> exists c: DrinkCategory :: CategoryRawValue(c) == s
  {
    if c: DrinkCategory :| CategoryRawValue(c) == s {
      CategoryRoundTrip(c);
    }
  }

  /** The eight category raw values are pairwise distinct. */
  lemma CategoryRawValueInjective(c: DrinkCategory, d: DrinkCategory)
    ensures CategoryRawValue(c) == CategoryRawValue(d) ==> c == d
  {
    CategoryRoundTrip(c);
    CategoryRoundTrip(d);
  }

  /** The three cup sizes. */
  datatype DrinkSize = Tall | Grande | Venti

  function SizeRawValue(s: DrinkSize): string
  {
    match s
    case Tall => "中杯(Tall)"
    case Grande => "大杯(Grande)"
    case Venti => "超大杯(Venti)"
  }

  /** `DrinkSize(rawValue:)`. */
  function ParseSize(s: string): (r: Option<DrinkSize>)
    ensures r.Some? ==> SizeRawValue(r.value) == s
  {
    if s == SizeRawValue(Tall) then Some(Tall)
    else if s == SizeRawValue(Grande) then Some(Grande)
    else if s == SizeRawValue(Venti) then Some(Venti)
    else None
  }

  lemma SizeRoundTrip(s: DrinkSize)
    ensures ParseSize(SizeRawValue(s)) == Some(s)
  {
  }

  /** The three size raw values are pairwise distinct. */
  lemma SizeRawValueInjective(s: DrinkSize, t: DrinkSize)
    ensures SizeRawValue(s) == SizeRawValue(t) ==> s == t
  {
    SizeRoundTrip(s);
    SizeRoundTrip(t);
  }

  /** The five moods a user can pick a preset by. */
  datatype DrinkMood = Energize | Relax | Refresh | Indulge | Warm

  function MoodRawValue(m: DrinkMood): string
  {
    match m
    case Energize => "提神醒脑"
    case Relax => "放松心情"
    case Refresh => "清爽解渴"
    case Indulge => "甜蜜享受"
    case Warm => "温暖舒适"
  }

  /** `DrinkMood(rawValue:)`. */
  function ParseMood(s: string): (r: Option<DrinkMood>)
    ensures r.Some? ==> MoodRawValue(r.value) == s
  {
    if s == MoodRawValue(Energize) then Some(Energize)
    else if s == MoodRawValue(Relax) then Some(Relax)
    else if s == MoodRawValue(Refresh) then Some(Refresh)
    else if s == MoodRawValue(Indulge) then Some(Indulge)
    else if s == MoodRawValue(Warm) then Some(Warm)
    else None
  }

  lemma MoodRoundTrip(m: DrinkMood)
    ensures ParseMood(MoodRawValue(m)) == Some(m)
  {
  }

  /** The five mood raw values are pairwise distinct. */
  lemma MoodRawValueInjective(m: DrinkMood, n: DrinkMood)
    ensures MoodRawValue(m) == MoodRawValue(n) ==> m == n
  {
    MoodRoundTrip(m);
    MoodRoundTrip(n);
  }

  /** Nutrition facts of one cup size; caffeine in mg, the rest in grams. */
  datatype Nutrition = Nutrition(calories: int, caffeine: int, fat: real, sugar: real, protein: real)

  /** A catalogue drink. `category` holds a category's raw value, not the enumeration. */
  datatype Drink = Drink(
    name: string,
    drinkDescription: string,
    imageURL: Option<string>,
    category: string,
    isFeatured: bool,
    isAvailable: bool,
    nutritionTall: Option<Nutrition>,
    nutritionGrande: Option<Nutrition>,
    nutritionVenti: Option<Nutrition>)

  /** `Drink.init`: stores the category as its raw value; optional arguments default as in the source. */
  function NewDrink(
    name: string,
    description: string,
    imageURL: Option<string> := None,
    category: DrinkCategory,
    isFeatured: bool := false,
    isAvailable: bool := true,
    nutritionTall: Option<Nutrition> := None,
    nutritionGrande: Option<Nutrition> := None,
    nutritionVenti: Option<Nutrition> := None): (d: Drink)
    ensures d.category == CategoryRawValue(category) && ParseCategory(d.category) == Some(category)
    ensures d.name == name && d.drinkDescription == description && d.imageURL == imageURL
    ensures d.isFeatured == isFeatured && d.isAvailable == isAvailable
    ensures d.nutritionTall == nutritionTall && d.nutritionGrande == nutritionGrande
    ensures d.nutritionVenti == nutritionVenti
  {
    CategoryRoundTrip(category);
    Drink(name, description, imageURL, CategoryRawValue(category), isFeatured, isAvailable,
          nutritionTall, nutritionGrande, nutritionVenti)
  }

  /** With only the required arguments, `Drink.init` yields a featured-off, available drink with no image or nutrition. */
  lemma NewDrinkDefaults(name: string, description: string, category: DrinkCategory)
    ensures var d := NewDrink(name, description, category := category);
      && !d.isFeatured && d.isAvailable && d.imageURL == None
      && d.nutritionTall == None && d.nutritionGrande == None && d.nutritionVenti == None
      && ParseCategory(d.category) == Some(category)
  {
  }

  /** `Drink.nutrition(for:)`. */
  function NutritionFor(d: Drink, size: DrinkSize): (r: Option<Nutrition>)
    ensures r == d.nutritionTall || r == d.nutritionGrande || r == d.nutritionVenti
  {
    match size
    case Tall => d.nutritionTall
    case Grande => d.nutritionGrande
    case Venti => d.nutritionVenti
  }

  /** Each size selects its own field and no other. */
  lemma NutritionForSelectsField(d: Drink)
    ensures NutritionFor(d, Tall) == d.nutritionTall
    ensures NutritionFor(d, Grande) == d.nutritionGrande
    ensures NutritionFor(d, Venti) == d.nutritionVenti
  {
  }

  /** The lookup depends only on the field its size selects. */
  lemma NutritionForOnlyReadsItsField(d: Drink, e: Drink, size: DrinkSize)
    requires size == Tall ==> d.nutritionTall == e.nutritionTall
    requires size == Grande ==> d.nutritionGrande == e.nutritionGrande
    requires size == Venti ==> d.nutritionVenti == e.nutritionVenti
    ensures NutritionFor(d, size) == NutritionFor(e, size)
  {
  }
}
