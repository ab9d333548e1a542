/**
 * Catalogue loading (DataManager.swift): the decoded JSON record types, the
 * record-to-drink conversion applied by `loadDrinksFromJSON`, and the fixed
 * fallback list built by `createSampleDrinks`.  Reading the bundle, decoding
 * JSON and inserting into the store are not part of this model.
 */
module DataManager {
  import opened Wrappers
  import opened Drinks
  import ViewModel

  /** A decoded nutrition object. */
  datatype NutritionData = NutritionData(calories: int, caffeine: int, fat: real, sugar: real, protein: real)

  /** A decoded drink record; optional keys may be missing. */
  datatype DrinkData = DrinkData(
    name: string,
    description: string,
    imageURL: Option<string>,
    category: string,
    isFeatured: Option<bool>,
    nutritionTall: Option<NutritionData>,
    nutritionGrande: Option<NutritionData>,
    nutritionVenti: Option<NutritionData>)

  /** `x != nil ? Nutrition(calories: x!.calories, ...) : nil`. */
  function ToNutrition(x: Option<NutritionData>): (r: Option<Nutrition>)
  {
    match x
    case None => None
    case Some(n) => Some(Nutrition(n.calories, n.caffeine, n.fat, n.sugar, n.protein))
  }

  /** The record's entry for one cup size. */
  function RecordNutrition(data: DrinkData, size: DrinkSize): Option<NutritionData>
  {
    match size
    case Tall => data.nutritionTall
    case Grande => data.nutritionGrande
    case Venti => data.nutritionVenti
  }

  /** `DrinkCategory(rawValue: data.category) ?? .other`. */
  function RecordCategory(data: DrinkData): (c: DrinkCategory)
    ensures ParseCategory(data.category).Some? ==> CategoryRawValue(c) == data.category
    ensures ParseCategory(data.category).None? ==> c == Other
  {
    ParseCategory(data.category).GetOr(Other)
  }

  /** The body of the `map` closure in `loadDrinksFromJSON`. */
  function ToDrink(data: DrinkData): (d: Drink)
    ensures ParseCategory(d.category).Some?
    ensures ParseCategory(data.category).Some? ==> d.category == data.category
    ensures ParseCategory(data.category).None? ==> ParseCategory(d.category) == Some(Other)
    ensures d.isFeatured == (data.isFeatured == Some(true))
    ensures d.isAvailable
    ensures d.name == data.name && d.drinkDescription == data.description && d.imageURL == data.imageURL
  {
    NewDrink(
      data.name,
      data.description,
      imageURL := data.imageURL,
      category := RecordCategory(data),
      isFeatured := data.isFeatured.GetOr(false),
      isAvailable := true,
      nutritionTall := ToNutrition(data.nutritionTall),
      nutritionGrande := ToNutrition(data.nutritionGrande),
      nutritionVenti := ToNutrition(data.nutritionVenti))
  }

  /** Per size, the drink has an entry iff the record has one, with every field copied. */
  lemma ToDrinkCopiesNutrition(data: DrinkData, size: DrinkSize)
    ensures NutritionFor(ToDrink(data), size).Some? <==> RecordNutrition(data, size).Some?
    ensures RecordNutrition(data, size).Some? ==>
      var n, x := NutritionFor(ToDrink(data), size).value, RecordNutrition(data, size).value;
      && n.calories == x.calories && n.caffeine == x.caffeine
      && n.fat == x.fat && n.sugar == x.sugar && n.protein == x.protein
  {
  }

  /** `drinkData.map { ... }`: one drink per record, in record order. */
  function ToDrinks(records: seq<DrinkData>): (ds: seq<Drink>)
    ensures |ds| == |records|
    ensures forall i :: 0 <= i < |records| ==> ds[i] == ToDrink(records[i])
  {
    if records == [] then [] else [ToDrink(records[0])] + ToDrinks(records[1..])
  }

  /** Loading distributes over concatenation of record lists. */
  lemma ToDrinksAppend(a: seq<DrinkData>, b: seq<DrinkData>)
    ensures ToDrinks(a + b) == ToDrinks(a) + ToDrinks(b)
  {
  }

  /**
   * The filter's category guard never rejects a loaded drink for an
   * unparsable category: a record with an unknown category is shown exactly
   * when the fallback category is selected.
   */
  lemma LoadedCategoryGuard(f: ViewModel.Filters, data: DrinkData)
    ensures ViewModel.CategorySelected(f, ToDrink(data)) <==> RecordCategory(data) in f.selectedCategories
  {
    var c := RecordCategory(data);
    CategoryRoundTrip(c);
  }

  /** `createSampleDrinks()`: the seven fallback drinks, appended in a fixed order. */
  method CreateSampleDrinks() returns (drinks: seq<Drink>)
    ensures |drinks| == 7
    ensures [drinks[0].name, drinks[1].name, drinks[2].name, drinks[3].name,
             drinks[4].name, drinks[5].name, drinks[6].name]
         == ["拿铁", "美式咖啡", "冷萃咖啡", "摩卡星冰乐", "抹茶拿铁", "草莓星冰乐", "浓缩咖啡"]
    ensures [drinks[0].category, drinks[1].category, drinks[2].category, drinks[3].category,
             drinks[4].category, drinks[5].category, drinks[6].category]
         == [CategoryRawValue(Coffee), CategoryRawValue(Coffee), CategoryRawValue(ColdBrew),
             CategoryRawValue(Frappuccino), CategoryRawValue(Tea), CategoryRawValue(Refreshers),
             CategoryRawValue(Espresso)]
    ensures forall i :: 0 <= i < |drinks| ==>
      && drinks[i].nutritionTall.Some? && drinks[i].nutritionGrande.Some? && drinks[i].nutritionVenti.Some?
      && drinks[i].imageURL.Some? && drinks[i].isAvailable
      && (drinks[i].isFeatured <==> i == 0 || i == 2)
    ensures forall i :: 0 <= i < |drinks| ==> ViewModel.Keep(ViewModel.InitialFilters(), drinks[i])
  {
    drinks := [];

    var latteTall := Nutrition(190, 75, 7.0, 18.0, 10.0);
    var latteGrande := Nutrition(250, 150, 10.0, 23.0, 13.0);
    var latteVenti := Nutrition(340, 225, 14.0, 31.0, 17.0);
    var latte := NewDrink(
      "拿铁",
      "醇厚的浓缩咖啡与丝滑的蒸汽牛奶完美融合，口感柔和。",
      imageURL := Some("https://www.starbucks.com.cn/images/products/latte.jpg"),
      category := Coffee,
      isFeatured := true,
      nutritionTall := Some(latteTall),
      nutritionGrande := Some(latteGrande),
      nutritionVenti := Some(latteVenti));
    ViewModel.InitialFiltersKeep(latte);
    drinks := drinks + [latte];

    var americanoTall := Nutrition(15, 150, 0.0, 0.0, 1.0);
    var americanoGrande := Nutrition(20, 225, 0.0, 0.0, 1.0);
    var americanoVenti := Nutrition(25, 300, 0.0, 0.0, 1.0);
    var americano := NewDrink(
      "美式咖啡",
      "浓缩咖啡与热水的经典混合，带来醇厚的咖啡风味。",
      imageURL := Some("https://www.starbucks.com.cn/images/products/caffe-americano.jpg"),
      category := Coffee,
      nutritionTall := Some(americanoTall),
      nutritionGrande := Some(americanoGrande),
      nutritionVenti := Some(americanoVenti));
    ViewModel.InitialFiltersKeep(americano);
    drinks := drinks + [americano];

    var coldBrewTall := Nutrition(5, 155, 0.0, 0.0, 0.0);
    var coldBrewGrande := Nutrition(5, 205, 0.0, 0.0, 0.0);
    var coldBrewVenti := Nutrition(10, 310, 0.0, 0.0, 0.0);
    var coldBrew := NewDrink(
      "冷萃咖啡",
      "精选咖啡豆经过20小时慢萃，带来顺滑口感与天鹅绒般的质地。",
      imageURL := Some("https://www.starbucks.com.cn/images/products/cold-brew.jpg"),
      category := ColdBrew,
      isFeatured := true,
      nutritionTall := Some(coldBrewTall),
      nutritionGrande := Some(coldBrewGrande),
      nutritionVenti := Some(coldBrewVenti));
    ViewModel.InitialFiltersKeep(coldBrew);
    drinks := drinks + [coldBrew];

    var mochaFrappuccinoTall := Nutrition(290, 65, 11.0, 40.0, 4.0);
    var mochaFrappuccinoGrande := Nutrition(400, 95, 15.0, 55.0, 5.0);
    var mochaFrappuccinoVenti := Nutrition(520, 130, 19.0, 73.0, 7.0);
    var mochaFrappuccino := NewDrink(
      "摩卡星冰乐",
      "咖啡、牛奶与冰块融合，加入摩卡酱与鲜奶油，口感丰富。",
      imageURL := Some("https://www.starbucks.com.cn/images/products/mocha-frappuccino.jpg"),
      category := Frappuccino,
      nutritionTall := Some(mochaFrappuccinoTall),
      nutritionGrande := Some(mochaFrappuccinoGrande),
      nutritionVenti := Some(mochaFrappuccinoVenti));
    ViewModel.InitialFiltersKeep(mochaFrappuccino);
    drinks := drinks + [mochaFrappuccino];

    var greenTeaLatteTall := Nutrition(240, 55, 7.0, 31.0, 9.0);
    var greenTeaLatteGrande := Nutrition(320, 80, 9.0, 41.0, 12.0);
    var greenTeaLatteVenti := Nutrition(430, 110, 12.0, 55.0, 16.0);
    var greenTeaLatte := NewDrink(
      "抹茶拿铁",
      "优质抹茶粉与蒸汽牛奶的完美结合，带来独特的抹茶风味。",
      imageURL := Some("https://www.starbucks.com.cn/images/products/green-tea-latte.jpg"),
      category := Tea,
      nutritionTall := Some(greenTeaLatteTall),
      nutritionGrande := Some(greenTeaLatteGrande),
      nutritionVenti := Some(greenTeaLatteVenti));
    ViewModel.InitialFiltersKeep(greenTeaLatte);
    drinks := drinks + [greenTeaLatte];

    var strawberryAcaiTall := Nutrition(90, 20, 0.0, 20.0, 0.0);
    var strawberryAcaiGrande := Nutrition(130, 30, 0.0, 29.0, 0.0);
    var strawberryAcaiVenti := Nutrition(170, 40, 0.0, 38.0, 0.0);
    var strawberryAcai := NewDrink(
      "草莓星冰乐",
      "草莓果汁与冰块混合，加入真实草莓果粒，清爽怡人。",
      imageURL := Some("https://www.starbucks.com.cn/images/products/strawberry-acai.jpg"),
      category := Refreshers,
      nutritionTall := Some(strawberryAcaiTall),
      nutritionGrande := Some(strawberryAcaiGrande),
      nutritionVenti := Some(strawberryAcaiVenti));
    ViewModel.InitialFiltersKeep(strawberryAcai);
    drinks := drinks + [strawberryAcai];

    var espressoTall := Nutrition(10, 75, 0.0, 0.0, 0.0);
    var espressoGrande := Nutrition(15, 150, 0.0, 0.0, 1.0);
    var espressoVenti := Nutrition(20, 225, 0.0, 0.0, 1.0);
    var espresso := NewDrink(
      "浓缩咖啡",
      "精心萃取的浓缩咖啡，浓郁醇厚，是多种咖啡饮品的基础。",
      imageURL := Some("https://www.starbucks.com.cn/images/products/espresso.jpg"),
      category := Espresso,
      nutritionTall := Some(espressoTall),
      nutritionGrande := Some(espressoGrande),
      nutritionVenti := Some(espressoVenti));
    ViewModel.InitialFiltersKeep(espresso);
    drinks := drinks + [espresso];

    assert drinks == [latte, americano, coldBrew, mochaFrappuccino, greenTeaLatte, strawberryAcai, espresso];

  }
}
