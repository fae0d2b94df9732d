/**
 * The meal recommendation engine (recommendation.service.ts) and its HTTP
 * error mapping (recommendation.controller.ts). The food catalog is a
 * sequence in the database's order, and each catalog query is "keep the
 * foods that match, then take the first n".
 */
module Recommendation {
  import opened Common
  import opened Text
  import opened Users
  import opened Glucose

  /** A catalog row. */
  datatype Food = Food(
    id: string, name: string, giValue: real, mealType: string, imageUrl: string, recipeLink: string,
    calories: real, protein: real, fat: real, sugar: real,
    allergens: seq<string>, tags: seq<string>)

  datatype Nutrition = Nutrition(calories: real, protein: real, fat: real, sugar: real)

  /**
   * A recommended food: the catalog row with its four nutrition fields
   * moved into `nutrition`. The service sets the top-level fields to
   * `undefined`, which the JSON answer leaves out, so they have no place here.
   */
  datatype FoodDto = FoodDto(
    id: string, name: string, giValue: real, mealType: string, imageUrl: string, recipeLink: string,
    nutrition: Nutrition, allergens: seq<string>, tags: seq<string>)

  datatype RecommendationResponse = RecommendationResponse(recommendations: seq<FoodDto>)

  /** A forecast point of the model. */
  datatype PredictedGlucose = PredictedGlucose(id: string, userId: string, value: real, predictedFor: int)

  /** The catalog row a recommended food was made from. */
  function Unshape(d: FoodDto): Food {
    Food(d.id, d.name, d.giValue, d.mealType, d.imageUrl, d.recipeLink,
      d.nutrition.calories, d.nutrition.protein, d.nutrition.fat, d.nutrition.sugar, d.allergens, d.tags)
  }

  /** The reshaping of lines 57-69: `nutrition` holds the food's own four values and nothing is lost. */
  function Shape(f: Food): (d: FoodDto)
    ensures d.nutrition == Nutrition(f.calories, f.protein, f.fat, f.sugar)
    ensures Unshape(d) == f
  {
    FoodDto(f.id, f.name, f.giValue, f.mealType, f.imageUrl, f.recipeLink,
      Nutrition(f.calories, f.protein, f.fat, f.sugar), f.allergens, f.tags)
  }

  /** Reshaping is a bijection between catalog rows and recommended foods. */
  lemma ShapeUnshape(d: FoodDto)
    ensures Shape(Unshape(d)) == d
  {
  }

  function ShapeAll(foods: seq<Food>): (ds: seq<FoodDto>)
    ensures |ds| == |foods|
    ensures forall i :: 0 <= i < |ds| ==> ds[i] == Shape(foods[i])
  {
    seq(|foods|, i requires 0 <= i < |foods| => Shape(foods[i]))
  }

  /**
   * The position of the element with the largest key; among equal keys,
   * the earliest one. (Which of several equal rows the database returns
   * first is its own choice; this model takes the earliest stored.)
   */
  function NewestIndex<T>(rs: seq<T>, key: T -> int): (r: Option<nat>)
    ensures r.None? <==> rs == []
    ensures r.Some? ==> r.value < |rs|
    ensures r.Some? ==> forall i :: 0 <= i < |rs| ==> key(rs[i]) <= key(rs[r.value])
    ensures r.Some? ==> forall j :: 0 <= j < r.value ==> key(rs[j]) < key(rs[r.value])
  {
    if rs == [] then None
    else match NewestIndex(rs[1..], key)
      case None => Some(0)
      case Some(k) =>
        assert rs[1..][k] == rs[k + 1];
        if key(rs[0]) >= key(rs[k + 1]) then Some(0) else Some(k + 1)
  }

  /** `glucoseReadings: { orderBy: { timestamp: 'desc' }, take: 1 }`: the user's reading with the largest timestamp. */
  function LatestReading(readings: seq<GlucoseReading>, userId: string): (r: Option<GlucoseReading>)
    ensures r.None? <==> forall x :: x in readings ==> x.userId != userId
    ensures r.Some? ==> r.value in readings && r.value.userId == userId
    ensures r.Some? ==> forall x :: x in readings && x.userId == userId ==> x.timestamp <= r.value.timestamp
  {
    var mine := ReadingsOf(readings, userId);
    match NewestIndex(mine, (x: GlucoseReading) => x.timestamp)
    case None => None
    case Some(i) => Some(mine[i])
  }

  /** The forecast points of one user, in insertion order. */
  function ForecastsOf(forecasts: seq<PredictedGlucose>, userId: string): (r: seq<PredictedGlucose>)
    ensures forall x :: x in r <==> x in forecasts && x.userId == userId
  {
    if forecasts == [] then []
    else if forecasts[0].userId == userId then [forecasts[0]] + ForecastsOf(forecasts[1..], userId)
    else ForecastsOf(forecasts[1..], userId)
  }

  /** Another user's forecast point does not change what a user's points are; a new point of the user comes last. */
  lemma {:induction false} ForecastsOfAppend(forecasts: seq<PredictedGlucose>, x: PredictedGlucose, userId: string)
    ensures ForecastsOf(forecasts + [x], userId) == ForecastsOf(forecasts, userId) + (if x.userId == userId then [x] else [])
  {
    if forecasts == [] {
      assert forecasts + [x] == [x];
      assert [x][1..] == [];
    } else {
      assert (forecasts + [x])[1..] == forecasts[1..] + [x];
      ForecastsOfAppend(forecasts[1..], x, userId);
    }
  }

  /** `predictedGlucose: { orderBy: { predictedFor: 'desc' }, take: 1 }`: the user's point with the latest `predictedFor`. */
  function LatestForecast(forecasts: seq<PredictedGlucose>, userId: string): (r: Option<PredictedGlucose>)
    ensures r.None? <==> forall x :: x in forecasts ==> x.userId != userId
    ensures r.Some? ==> r.value in forecasts && r.value.userId == userId
    ensures r.Some? ==> forall x :: x in forecasts && x.userId == userId ==> x.predictedFor <= r.value.predictedFor
  {
    var mine := ForecastsOf(forecasts, userId);
    match NewestIndex(mine, (x: PredictedGlucose) => x.predictedFor)
    case None => None
    case Some(i) => Some(mine[i])
  }

  /** An inclusive range of glycaemic-index values. */
  datatype GiBand = GiBand(giMin: real, giMax: real)

  const LowGi := GiBand(0.0, 55.0)
  const MediumGi := GiBand(56.0, 70.0)

  /** A forecast strictly above the current reading calls for low-GI foods; otherwise, equality included, medium-GI. */
  function ChooseBand(reading: real, forecast: real): (band: GiBand)
    ensures band == LowGi <==> forecast > reading
    ensures band == MediumGi <==> forecast <= reading
  {
    if forecast > reading then LowGi else MediumGi
  }

  /** `(user.allergies || '').split(',').map(a => a.trim())` */
  function ParseAllergens(allergies: Option<string>): (r: seq<string>)
    ensures |r| >= 1
    ensures allergies.None? || allergies == Some("") ==> r == [""]
    ensures var parts := Split(allergies.GetOr(""), ',');
      |r| == |parts| && forall i :: 0 <= i < |r| ==> r[i] == Trim(parts[i])
  {
    var parts := Split(allergies.GetOr(""), ',');
    seq(|parts|, i requires 0 <= i < |parts| => Trim(parts[i]))
  }

  /** Trimming a piece without commas gives a piece without commas, which a second trim leaves alone. */
  lemma TrimmedPiece(p: string)
    requires ',' !in p
    ensures ',' !in Trim(p) && Trim(Trim(p)) == Trim(p)
  {
    TrimSpec(p);
    TrimIdempotent(p);
    var a := Trim(p);
    var k := |p| - |TrimStart(p)|;
    forall j | 0 <= j < |a| ensures a[j] != ',' {
      assert a[j] == p[k + j];
    }
  }

  /** Each allergen entry is one comma-separated piece of the field, trimmed: it holds no comma and trimming it again changes nothing. */
  lemma AllergenEntries(allergies: Option<string>)
    ensures forall a :: a in ParseAllergens(allergies) ==> ',' !in a && Trim(a) == a
  {
    var parts := Split(allergies.GetOr(""), ',');
    var r := ParseAllergens(allergies);
    SplitPiecesHaveNoSeparator(allergies.GetOr(""), ',');
    forall a | a in r ensures ',' !in a && Trim(a) == a {
      var i :| 0 <= i < |r| && r[i] == a;
      assert parts[i] in parts;
      TrimmedPiece(parts[i]);
    }
  }

  /** The `where` of the catalog query: in the band, of the meal type, and sharing no allergen with the user's list. */
  predicate Admissible(f: Food, band: GiBand, mealType: string, allergens: seq<string>) {
    && band.giMin <= f.giValue <= band.giMax
    && f.mealType == mealType
    && forall a :: a in f.allergens ==> a !in allergens
  }

  /** Every catalog food passing the `where`, in catalog order. */
  function Matching(catalog: seq<Food>, band: GiBand, mealType: string, allergens: seq<string>): (r: seq<Food>)
    ensures |r| <= |catalog|
    ensures forall i :: 0 <= i < |r| ==> Admissible(r[i], band, mealType, allergens)
    ensures forall f :: f in r <==> f in catalog && Admissible(f, band, mealType, allergens)
  {
    if catalog == [] then []
    else if Admissible(catalog[0], band, mealType, allergens) then
      [catalog[0]] + Matching(catalog[1..], band, mealType, allergens)
    else Matching(catalog[1..], band, mealType, allergens)
  }

  /** The query over two consecutive stretches of the catalog is the query over each, in order. */
  lemma {:induction false} MatchingAppend(a: seq<Food>, b: seq<Food>, band: GiBand, mealType: string, allergens: seq<string>)
    ensures Matching(a + b, band, mealType, allergens) == Matching(a, band, mealType, allergens) + Matching(b, band, mealType, allergens)
  {
    if a == [] {
      assert a + b == b;
    } else {
      assert (a + b)[1..] == a[1..] + b;
      MatchingAppend(a[1..], b, band, mealType, allergens);
    }
  }

  /** A one-food catalog matches exactly when that food passes the `where`. */
  lemma MatchingSingle(f: Food, band: GiBand, mealType: string, allergens: seq<string>)
    ensures Matching([f], band, mealType, allergens) == if Admissible(f, band, mealType, allergens) then [f] else []
  {
    assert [f][1..] == [];
  }

  /** The meal types, in the order their blocks appear. */
  const MealTypes: seq<string> := ["breakfast", "lunch", "dinner", "snack"]

  /** How many foods one meal type may contribute. */
  function Quota(mealType: string): nat {
    if mealType == "snack" then 4 else 3
  }

  /** The catalog query of one meal type, `findMany({ where, take: count })`. */
  function FindFoods(catalog: seq<Food>, band: GiBand, mealType: string, allergens: seq<string>, count: nat): seq<Food> {
    Take(Matching(catalog, band, mealType, allergens), count)
  }

  /** The block one meal type adds: up to its quota of matching foods, reshaped. */
  function Block(catalog: seq<Food>, band: GiBand, mealType: string, allergens: seq<string>): (b: seq<FoodDto>)
    ensures |b| <= Quota(mealType)
    ensures forall i :: 0 <= i < |b| ==>
              Unshape(b[i]) in catalog && Admissible(Unshape(b[i]), band, mealType, allergens)
  {
    ShapeAll(FindFoods(catalog, band, mealType, allergens, Quota(mealType)))
  }

  /** Which foods a block holds: the first min(quota, matches) matching foods, in catalog order. */
  lemma BlockIsFirstMatches(catalog: seq<Food>, band: GiBand, mealType: string, allergens: seq<string>)
    ensures var b := Block(catalog, band, mealType, allergens);
      var matches := Matching(catalog, band, mealType, allergens);
      && |b| == Min(Quota(mealType), |matches|)
      && forall i :: 0 <= i < |b| ==> Unshape(b[i]) == matches[i]
  {
    var b := Block(catalog, band, mealType, allergens);
    var matches := Matching(catalog, band, mealType, allergens);
    var foods := FindFoods(catalog, band, mealType, allergens, Quota(mealType));
    assert foods == matches[..|foods|];
    forall i | 0 <= i < |b| ensures Unshape(b[i]) == matches[i] {
      assert b[i] == Shape(foods[i]);
    }
  }

  /** The blocks of the given meal types, one after the other. */
  function Blocks(catalog: seq<Food>, band: GiBand, mealTypes: seq<string>, allergens: seq<string>): seq<FoodDto>
  {
    if mealTypes == [] then []
    else Blocks(catalog, band, mealTypes[..|mealTypes| - 1], allergens)
         + Block(catalog, band, mealTypes[|mealTypes| - 1], allergens)
  }

  /** What the service finds about the user before it queries the catalog: the band and the allergen list. */
  datatype Context = Context(band: GiBand, allergens: seq<string>)

  function LoadContext(userId: string, users: seq<User>, readings: seq<GlucoseReading>, forecasts: seq<PredictedGlucose>)
    : (r: Result<Context>)
  {
    var user := LookupId(users, userId);
    var latest := LatestReading(readings, userId);
    var forecast := LatestForecast(forecasts, userId);
    if user.None? || latest.None? || forecast.None? then Err(PlainError("Missing glucose data"))
    else Ok(Context(ChooseBand(latest.value.value, forecast.value.value), ParseAllergens(user.value.profile.allergies)))
  }

  /** The answer of `getRecommendations(userId)`: the first ten foods of the four blocks. */
  function Recommend(userId: string, users: seq<User>, readings: seq<GlucoseReading>,
                     forecasts: seq<PredictedGlucose>, catalog: seq<Food>): Result<RecommendationResponse>
  {
    match LoadContext(userId, users, readings, forecasts)
    case Err(e) => Err(e)
    case Ok(c) => Ok(RecommendationResponse(Take(Blocks(catalog, c.band, MealTypes, c.allergens), 10)))
  }

  /**
   * `getRecommendations(userId, trend)`: the loop over the meal types that
   * appends one block per type, then the cut to ten. `trend` is never read.
   */
  method GetRecommendations(userId: string, trend: Option<string>, users: seq<User>, readings: seq<GlucoseReading>,
                            forecasts: seq<PredictedGlucose>, catalog: seq<Food>)
    returns (r: Result<RecommendationResponse>)
    ensures r == Recommend(userId, users, readings, forecasts, catalog)
  {
    var user := LookupId(users, userId);
    var latestReading := LatestReading(readings, userId);
    var latestPrediction := LatestForecast(forecasts, userId);
    if user.None? || latestReading.None? || latestPrediction.None? {
      return Err(PlainError("Missing glucose data"));
    }
    var band := ChooseBand(latestReading.value.value, latestPrediction.value.value);
    var userAllergens := ParseAllergens(user.value.profile.allergies);
    var recommendations: seq<FoodDto> := [];
    for k := 0 to |MealTypes|
      invariant recommendations == Blocks(catalog, band, MealTypes[..k], userAllergens)
    {
      var mealType := MealTypes[k];
      var count := if mealType == "snack" then 4 else 3;
      var foods := FindFoods(catalog, band, mealType, userAllergens, count);
      var mappedFoods := ShapeAll(foods);
      assert count == Quota(mealType);
      BlocksStep(catalog, band, MealTypes, k, userAllergens);
      recommendations := recommendations + mappedFoods;
    }
    assert MealTypes[..|MealTypes|] == MealTypes;
    RecommendWhenLoaded(userId, users, readings, forecasts, catalog);
    r := Ok(RecommendationResponse(Take(recommendations, 10)));
  }

  /** The blocks of the first `k + 1` meal types are those of the first `k`, then the block of the next. */
  lemma BlocksStep(catalog: seq<Food>, band: GiBand, mealTypes: seq<string>, k: nat, allergens: seq<string>)
    requires k < |mealTypes|
    ensures Blocks(catalog, band, mealTypes[..k + 1], allergens) ==
              Blocks(catalog, band, mealTypes[..k], allergens) + Block(catalog, band, mealTypes[k], allergens)
  {
    assert mealTypes[..k + 1][..k] == mealTypes[..k];
  }

  /**
   * When the user, a reading and a forecast point are found, the answer is the
   * first ten foods of the four blocks, for the band the latest reading and
   * the latest forecast point choose and the allergens of the user's profile.
   */
  lemma RecommendWhenLoaded(userId: string, users: seq<User>, readings: seq<GlucoseReading>,
                            forecasts: seq<PredictedGlucose>, catalog: seq<Food>)
    requires LookupId(users, userId).Some?
    requires LatestReading(readings, userId).Some? && LatestForecast(forecasts, userId).Some?
    ensures var band := ChooseBand(LatestReading(readings, userId).value.value, LatestForecast(forecasts, userId).value.value);
      var allergens := ParseAllergens(LookupId(users, userId).value.profile.allergies);
      Recommend(userId, users, readings, forecasts, catalog) ==
        Ok(RecommendationResponse(Take(Blocks(catalog, band, MealTypes, allergens), 10)))
  {
  }

  /** The only error of the service is "Missing glucose data". */
  lemma RecommendErrorIsMissingData(userId: string, users: seq<User>, readings: seq<GlucoseReading>,
                                    forecasts: seq<PredictedGlucose>, catalog: seq<Food>)
    ensures var r := Recommend(userId, users, readings, forecasts, catalog);
      r.Err? <==> LoadContext(userId, users, readings, forecasts).Err?
    ensures var r := Recommend(userId, users, readings, forecasts, catalog);
      r.Err? ==> r.error == PlainError("Missing glucose data")
  {
  }

  /** The service fails, with "Missing glucose data", exactly when the user, a reading or a forecast point is missing. */
  lemma MissingGlucoseData(userId: string, users: seq<User>, readings: seq<GlucoseReading>,
                           forecasts: seq<PredictedGlucose>, catalog: seq<Food>)
    ensures Recommend(userId, users, readings, forecasts, catalog).Err? <==>
              (forall j :: 0 <= j < |users| ==> users[j].id != userId)
              || (forall x :: x in readings ==> x.userId != userId)
              || (forall x :: x in forecasts ==> x.userId != userId)
    ensures Recommend(userId, users, readings, forecasts, catalog).Err? ==>
              Recommend(userId, users, readings, forecasts, catalog).error == PlainError("Missing glucose data")
  {
  }

  /** A recommended food that is a reshaped catalog food of one of `mealTypes` passing the `where` of its meal type. */
  predicate Qualifies(d: FoodDto, catalog: seq<Food>, band: GiBand, mealTypes: seq<string>, allergens: seq<string>) {
    d.mealType in mealTypes && Unshape(d) in catalog && Admissible(Unshape(d), band, d.mealType, allergens)
  }

  /** Every food of a block is of the block's meal type and qualifies. */
  lemma BlockQualifies(catalog: seq<Food>, band: GiBand, mealType: string, mealTypes: seq<string>, allergens: seq<string>)
    requires mealType in mealTypes
    ensures var b := Block(catalog, band, mealType, allergens);
      forall i :: 0 <= i < |b| ==> b[i].mealType == mealType && Qualifies(b[i], catalog, band, mealTypes, allergens)
  {
    var b := Block(catalog, band, mealType, allergens);
    forall i | 0 <= i < |b| ensures b[i].mealType == mealType && Qualifies(b[i], catalog, band, mealTypes, allergens) {
      assert Unshape(b[i]).mealType == b[i].mealType;
    }
  }

  /** Whatever the blocks hold: reshaped catalog foods of the listed meal types, passing the `where`. */
  lemma {:induction false} BlocksFacts(catalog: seq<Food>, band: GiBand, mealTypes: seq<string>, allergens: seq<string>)
    ensures forall i :: 0 <= i < |Blocks(catalog, band, mealTypes, allergens)| ==>
              Qualifies(Blocks(catalog, band, mealTypes, allergens)[i], catalog, band, mealTypes, allergens)
  {
    if mealTypes != [] {
      var init := mealTypes[..|mealTypes| - 1];
      BlocksFacts(catalog, band, init, allergens);
      var front := Blocks(catalog, band, init, allergens);
      var last := Block(catalog, band, mealTypes[|mealTypes| - 1], allergens);
      BlockQualifies(catalog, band, mealTypes[|mealTypes| - 1], mealTypes, allergens);
      var b := front + last;
      assert Blocks(catalog, band, mealTypes, allergens) == b;
      forall i | 0 <= i < |b| ensures Qualifies(b[i], catalog, band, mealTypes, allergens) {
        if i < |front| {
          assert b[i] == front[i];
          assert Qualifies(front[i], catalog, band, init, allergens);
          assert front[i].mealType in init;
        } else {
          assert b[i] == last[i - |front|];
        }
      }
    }
  }

  /**
   * Every recommended food is a reshaped catalog food of one of the four
   * meal types, in the band the trend selects, with no allergen equal to an
   * entry of the user's list.
   */
  lemma RecommendedFoodsQualify(userId: string, users: seq<User>, readings: seq<GlucoseReading>,
                                forecasts: seq<PredictedGlucose>, catalog: seq<Food>)
    ensures var r := Recommend(userId, users, readings, forecasts, catalog);
      r.Ok? ==>
        var reading := LatestReading(readings, userId).value.value;
        var forecast := LatestForecast(forecasts, userId).value.value;
        var allergens := ParseAllergens(LookupId(users, userId).value.profile.allergies);
        forall i :: 0 <= i < |r.value.recommendations| ==>
          var d := r.value.recommendations[i];
          && d.mealType in MealTypes
          && Shape(Unshape(d)) == d && Unshape(d) in catalog
          && (forecast > reading ==> 0.0 <= d.giValue <= 55.0)
          && (forecast <= reading ==> 56.0 <= d.giValue <= 70.0)
          && (forall a :: a in d.allergens ==> a !in allergens)
  {
    var r := Recommend(userId, users, readings, forecasts, catalog);
    if r.Ok? {
      var c := LoadContext(userId, users, readings, forecasts).value;
      var reading := LatestReading(readings, userId).value.value;
      var forecast := LatestForecast(forecasts, userId).value.value;
      assert c.band == ChooseBand(reading, forecast);
      assert c.allergens == ParseAllergens(LookupId(users, userId).value.profile.allergies);
      BlocksFacts(catalog, c.band, MealTypes, c.allergens);
      var b := Blocks(catalog, c.band, MealTypes, c.allergens);
      var rs := r.value.recommendations;
      assert rs == Take(b, 10);
      forall i | 0 <= i < |rs|
        ensures rs[i].mealType in MealTypes && Unshape(rs[i]) in catalog
        ensures Admissible(Unshape(rs[i]), c.band, rs[i].mealType, c.allergens)
      {
        assert rs[i] == b[i];
        assert Qualifies(b[i], catalog, c.band, MealTypes, c.allergens);
      }
    }
  }

  /** How many foods of meal type `m` a list holds. */
  function CountMeal(ds: seq<FoodDto>, m: string): nat {
    if ds == [] then 0
    else CountMeal(ds[..|ds| - 1], m) + (if ds[|ds| - 1].mealType == m then 1 else 0)
  }

  lemma {:induction false} CountMealAppend(a: seq<FoodDto>, b: seq<FoodDto>, m: string)
    ensures CountMeal(a + b, m) == CountMeal(a, m) + CountMeal(b, m)
  {
    if b == [] {
      assert a + b == a;
    } else {
      assert (a + b)[..|a + b| - 1] == a + b[..|b| - 1];
      CountMealAppend(a, b[..|b| - 1], m);
    }
  }

  lemma {:induction false} CountMealAllOf(ds: seq<FoodDto>, m: string, m': string)
    requires forall i :: 0 <= i < |ds| ==> ds[i].mealType == m'
    ensures CountMeal(ds, m) == if m == m' then |ds| else 0
  {
    if ds != [] {
      CountMealAllOf(ds[..|ds| - 1], m, m');
    }
  }

  lemma CountMealPrefix(ds: seq<FoodDto>, n: nat, m: string)
    ensures CountMeal(Take(ds, n), m) <= CountMeal(ds, m)
  {
    var t := Take(ds, n);
    assert ds == t + ds[|t|..];
    CountMealAppend(t, ds[|t|..], m);
  }

  predicate Distinct(mealTypes: seq<string>) {
    forall i, j :: 0 <= i < j < |mealTypes| ==> mealTypes[i] != mealTypes[j]
  }

  lemma {:induction false} BlocksQuota(catalog: seq<Food>, band: GiBand, mealTypes: seq<string>, allergens: seq<string>, m: string)
    requires Distinct(mealTypes)
    ensures CountMeal(Blocks(catalog, band, mealTypes, allergens), m) <= if m in mealTypes then Quota(m) else 0
  {
    if mealTypes != [] {
      var init := mealTypes[..|mealTypes| - 1];
      var lastType := mealTypes[|mealTypes| - 1];
      var last := Block(catalog, band, lastType, allergens);
      BlocksQuota(catalog, band, init, allergens, m);
      CountMealAppend(Blocks(catalog, band, init, allergens), last, m);
      BlockQualifies(catalog, band, lastType, mealTypes, allergens);
      CountMealAllOf(last, m, lastType);
      assert m == lastType ==> m !in init;
      assert m in mealTypes <==> m in init || m == lastType;
    }
  }

  /**
   * Each meal type contributes at most its quota (three, four snacks),
   * nothing of another meal type is recommended, and the list holds at most
   * ten foods.
   */
  lemma RecommendationQuota(userId: string, users: seq<User>, readings: seq<GlucoseReading>,
                            forecasts: seq<PredictedGlucose>, catalog: seq<Food>, m: string)
    ensures var r := Recommend(userId, users, readings, forecasts, catalog);
      r.Ok? ==>
        && |r.value.recommendations| <= 10
        && CountMeal(r.value.recommendations, m) <= (if m in MealTypes then Quota(m) else 0)
  {
    RecommendErrorIsMissingData(userId, users, readings, forecasts, catalog);
    var c := LoadContext(userId, users, readings, forecasts);
    if c.Ok? {
      RecommendWhenLoaded(userId, users, readings, forecasts, catalog);
      TopTenQuota(catalog, c.value.band, c.value.allergens, m);
    }
  }

  lemma MealTypesDistinct()
    ensures Distinct(MealTypes)
  {
    assert MealTypes[0] != MealTypes[1] && MealTypes[0] != MealTypes[2] && MealTypes[0] != MealTypes[3];
    assert MealTypes[1] != MealTypes[2] && MealTypes[1] != MealTypes[3] && MealTypes[2] != MealTypes[3];
  }

  /** The cut to ten of the four blocks respects every meal type's quota. */
  lemma TopTenQuota(catalog: seq<Food>, band: GiBand, allergens: seq<string>, m: string)
    ensures var r := Take(Blocks(catalog, band, MealTypes, allergens), 10);
      |r| <= 10 && CountMeal(r, m) <= (if m in MealTypes then Quota(m) else 0)
  {
    var all := Blocks(catalog, band, MealTypes, allergens);
    MealTypesDistinct();
    BlocksQuota(catalog, band, MealTypes, allergens, m);
    CountMealPrefix(all, 10, m);
  }

  /** The position of a meal type in the block order. */
  function MealRank(m: string): nat {
    if m == "breakfast" then 0 else if m == "lunch" then 1 else if m == "dinner" then 2 else 3
  }

  predicate OrderedByMeal(ds: seq<FoodDto>) {
    forall i, j :: 0 <= i < j < |ds| ==> MealRank(ds[i].mealType) <= MealRank(ds[j].mealType)
  }

  /** A block of rank `k` appended after foods of lower rank keeps the list ordered. */
  lemma AppendOrdered(front: seq<FoodDto>, last: seq<FoodDto>, k: nat)
    requires OrderedByMeal(front) && forall i :: 0 <= i < |front| ==> MealRank(front[i].mealType) < k
    requires forall i :: 0 <= i < |last| ==> MealRank(last[i].mealType) == k
    ensures OrderedByMeal(front + last)
    ensures forall i :: 0 <= i < |front + last| ==> MealRank((front + last)[i].mealType) <= k
  {
    var b := front + last;
    forall i, j | 0 <= i < j < |b| ensures MealRank(b[i].mealType) <= MealRank(b[j].mealType) {
      if j < |front| {
        assert b[i] == front[i] && b[j] == front[j];
      } else if i >= |front| {
        assert b[i] == last[i - |front|] && b[j] == last[j - |front|];
      } else {
        assert b[i] == front[i] && b[j] == last[j - |front|];
      }
    }
    forall i | 0 <= i < |b| ensures MealRank(b[i].mealType) <= k {
      if i < |front| {
        assert b[i] == front[i];
      } else {
        assert b[i] == last[i - |front|];
      }
    }
  }

  lemma {:induction false} BlocksOrdered(catalog: seq<Food>, band: GiBand, allergens: seq<string>, k: nat)
    requires k <= |MealTypes|
    ensures OrderedByMeal(Blocks(catalog, band, MealTypes[..k], allergens))
    ensures forall i :: 0 <= i < |Blocks(catalog, band, MealTypes[..k], allergens)| ==>
              MealRank(Blocks(catalog, band, MealTypes[..k], allergens)[i].mealType) < k
  {
    if k > 0 {
      BlocksOrdered(catalog, band, allergens, k - 1);
      var front := Blocks(catalog, band, MealTypes[..k - 1], allergens);
      var last := Block(catalog, band, MealTypes[k - 1], allergens);
      assert MealTypes[..k][..k - 1] == MealTypes[..k - 1];
      assert Blocks(catalog, band, MealTypes[..k], allergens) == front + last;
      assert MealRank(MealTypes[k - 1]) == k - 1;
      BlockQualifies(catalog, band, MealTypes[k - 1], MealTypes, allergens);
      AppendOrdered(front, last, k - 1);
    }
  }

  /** The recommendations come in blocks ordered breakfast, lunch, dinner, snack. */
  lemma RecommendationOrder(userId: string, users: seq<User>, readings: seq<GlucoseReading>,
                            forecasts: seq<PredictedGlucose>, catalog: seq<Food>)
    ensures var r := Recommend(userId, users, readings, forecasts, catalog);
      r.Ok? ==> OrderedByMeal(r.value.recommendations)
  {
    var r := Recommend(userId, users, readings, forecasts, catalog);
    if r.Ok? {
      var c := LoadContext(userId, users, readings, forecasts).value;
      BlocksOrdered(catalog, c.band, c.allergens, 4);
      assert MealTypes[..4] == MealTypes;
      var b := Blocks(catalog, c.band, MealTypes, c.allergens);
      assert forall i :: 0 <= i < |r.value.recommendations| ==> r.value.recommendations[i] == b[i];
    }
  }

  /** The four blocks, breakfast first. */
  lemma BlocksInMealOrder(catalog: seq<Food>, band: GiBand, allergens: seq<string>)
    ensures Blocks(catalog, band, MealTypes, allergens) ==
              Block(catalog, band, "breakfast", allergens) + Block(catalog, band, "lunch", allergens)
              + Block(catalog, band, "dinner", allergens) + Block(catalog, band, "snack", allergens)
  {
    var l3 := ["breakfast", "lunch", "dinner"];
    var l2 := ["breakfast", "lunch"];
    var l1 := ["breakfast"];
    assert MealTypes[..3] == l3 && l3[..2] == l2 && l2[..1] == l1 && l1[..0] == [];
    assert MealTypes[3] == "snack" && l3[2] == "dinner" && l2[1] == "lunch" && l1[0] == "breakfast";
    assert Blocks(catalog, band, l1, allergens) == Block(catalog, band, "breakfast", allergens);
    assert Blocks(catalog, band, l2, allergens) ==
             Blocks(catalog, band, l1, allergens) + Block(catalog, band, "lunch", allergens);
    assert Blocks(catalog, band, l3, allergens) ==
             Blocks(catalog, band, l2, allergens) + Block(catalog, band, "dinner", allergens);
    assert Blocks(catalog, band, MealTypes, allergens) ==
             Blocks(catalog, band, l3, allergens) + Block(catalog, band, "snack", allergens);
  }

  /** A meal type with enough matching foods fills its whole quota. */
  lemma FullBlock(catalog: seq<Food>, band: GiBand, mealType: string, allergens: seq<string>)
    requires mealType in MealTypes
    requires |Matching(catalog, band, mealType, allergens)| >= Quota(mealType)
    ensures var b := Block(catalog, band, mealType, allergens);
      |b| == Quota(mealType) && forall i :: 0 <= i < |b| ==> b[i].mealType == mealType
  {
    BlockIsFirstMatches(catalog, band, mealType, allergens);
    BlockQualifies(catalog, band, mealType, MealTypes, allergens);
  }

  /** The first ten of four full blocks: three breakfasts, three lunches, three dinners, one snack. */
  lemma TenOfFullBlocks(b0: seq<FoodDto>, b1: seq<FoodDto>, b2: seq<FoodDto>, b3: seq<FoodDto>)
    requires |b0| == 3 && |b1| == 3 && |b2| == 3 && |b3| == 4
    requires forall i :: 0 <= i < 3 ==> b0[i].mealType == "breakfast"
    requires forall i :: 0 <= i < 3 ==> b1[i].mealType == "lunch"
    requires forall i :: 0 <= i < 3 ==> b2[i].mealType == "dinner"
    requires b3[0].mealType == "snack"
    ensures var r := Take(b0 + b1 + b2 + b3, 10);
      && |r| == 10
      && (forall i :: 0 <= i < 3 ==> r[i].mealType == "breakfast")
      && (forall i :: 3 <= i < 6 ==> r[i].mealType == "lunch")
      && (forall i :: 6 <= i < 9 ==> r[i].mealType == "dinner")
      && r[9].mealType == "snack"
  {
    var all := b0 + b1 + b2 + b3;
    assert |all| == 13;
    forall i | 0 <= i < 10
      ensures all[i] == (if i < 3 then b0[i] else if i < 6 then b1[i - 3] else if i < 9 then b2[i - 6] else b3[0])
    {
    }
  }

  /**
   * When the catalog has enough matching foods of every meal type, the
   * blocks hold 3 + 3 + 3 + 4 foods and the cut to ten drops three of the
   * four snacks.
   */
  lemma FullCatalogGivesTen(catalog: seq<Food>, band: GiBand, allergens: seq<string>)
    requires forall m :: m in MealTypes ==> |Matching(catalog, band, m, allergens)| >= Quota(m)
    ensures var r := Take(Blocks(catalog, band, MealTypes, allergens), 10);
      && |r| == 10
      && (forall i :: 0 <= i < 3 ==> r[i].mealType == "breakfast")
      && (forall i :: 3 <= i < 6 ==> r[i].mealType == "lunch")
      && (forall i :: 6 <= i < 9 ==> r[i].mealType == "dinner")
      && r[9].mealType == "snack"
  {
    assert "breakfast" in MealTypes && "lunch" in MealTypes && "dinner" in MealTypes && "snack" in MealTypes;
    FullBlock(catalog, band, "breakfast", allergens);
    FullBlock(catalog, band, "lunch", allergens);
    FullBlock(catalog, band, "dinner", allergens);
    FullBlock(catalog, band, "snack", allergens);
    BlocksInMealOrder(catalog, band, allergens);
    TenOfFullBlocks(Block(catalog, band, "breakfast", allergens), Block(catalog, band, "lunch", allergens),
                    Block(catalog, band, "dinner", allergens), Block(catalog, band, "snack", allergens));
  }

  /** With no allergies on file, the list is `[""]`, so a food tagged with the empty allergen is never recommended. */
  lemma NoAllergiesExcludeEmptyTag(f: Food, band: GiBand, mealType: string, allergies: Option<string>)
    requires allergies.None? || allergies == Some("")
    requires "" in f.allergens
    ensures !Admissible(f, band, mealType, ParseAllergens(allergies))
  {
  }

  /**
   * `GET /recommendations?userId=...`: a missing or empty userId is a 400
   * and the service is not consulted; a service error becomes a 500 whose
   * message carries the error's; an answer passes through unchanged.
   */
  function RecommendationsEndpoint(userId: Option<string>, users: seq<User>, readings: seq<GlucoseReading>,
                                   forecasts: seq<PredictedGlucose>, catalog: seq<Food>)
    : (r: Result<RecommendationResponse>)
    ensures userId.None? || userId == Some("") ==> r == Err(HttpException(400, "userId required"))
    ensures userId.Some? && userId.value != "" ==>
              var s := Recommend(userId.value, users, readings, forecasts, catalog);
              && (s.Ok? ==> r == s)
              && (s.Err? ==> r == Err(HttpException(500, "Failed to generate recommendations: " + s.error.message)))
  {
    if userId.None? || userId.value == "" then Err(HttpException(400, "userId required"))
    else match Recommend(userId.value, users, readings, forecasts, catalog)
      case Ok(v) => Ok(v)
      case Err(e) => Err(HttpException(500, "Failed to generate recommendations: " + e.message))
  }

  /** The endpoint's only failures are the 400 and the 500; the missing-data case reads "Failed to generate recommendations: Missing glucose data". */
  lemma EndpointStatuses(userId: Option<string>, users: seq<User>, readings: seq<GlucoseReading>,
                         forecasts: seq<PredictedGlucose>, catalog: seq<Food>)
    ensures var r := RecommendationsEndpoint(userId, users, readings, forecasts, catalog);
      && (r.Err? ==> r.error.HttpException? && (r.error.status == 400 || r.error.status == 500))
      && (userId.Some? && userId.value != "" && Recommend(userId.value, users, readings, forecasts, catalog).Err? ==>
            r == Err(HttpException(500, "Failed to generate recommendations: " + "Missing glucose data")))
  {
    if userId.Some? && userId.value != "" {
      RecommendErrorIsMissingData(userId.value, users, readings, forecasts, catalog);
    }
  }
}
