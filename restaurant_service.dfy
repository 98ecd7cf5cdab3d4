/**
 * The data side of `RestaurantService`: the restaurant record, the mapping of
 * the UI's cuisine names and language codes onto Google Places request
 * values, the clean-up of Places type names for display, the defaulting of
 * missing Places fields, the fallback to built-in sample data, and the sorted
 * list of cuisines. Ratings are whole tenths of a star (4.5 stars is 45).
 */
module RestaurantService {
  import opened Wrappers
  import opened Strings
  import opened Sequences

  // ---------------------------------------------------------------------------
  // Records
  // ---------------------------------------------------------------------------

  datatype LatLng = LatLng(lat: real, lng: real)

  datatype PriceRange = PriceRange(startPrice: int, endPrice: int)

  /** A restaurant as the rest of the app sees it. `priceRange` is read by the filter but never produced here. */
  datatype Restaurant = Restaurant(
    id: string,
    name: string,
    rating: nat,
    distance: real,
    formattedDistance: string,
    address: string,
    priceLevel: int,
    cuisineTypes: seq<string>,
    isOpen: bool,
    photoUrl: Option<string>,
    location: LatLng,
    priceRange: Option<PriceRange>)

  datatype LocalizedText = LocalizedText(text: Option<string>)

  /** The opening hours of a place; the API may leave out `openNow` itself. */
  datatype OpeningHours = OpeningHours(openNow: Option<bool>)

  datatype Photo = Photo(name: string)

  /** A place as the Places API (New) returns it; every field but `id` and `location` may be missing. */
  datatype Place = Place(
    id: string,
    displayName: Option<LocalizedText>,
    formattedAddress: Option<string>,
    location: LatLng,
    rating: Option<nat>,
    priceLevel: Option<int>,
    types: Option<seq<string>>,
    currentOpeningHours: Option<OpeningHours>,
    photos: Option<seq<Photo>>)

  // ---------------------------------------------------------------------------
  // Language codes
  // ---------------------------------------------------------------------------

  const LanguageMap: map<string, string> := map["en" := "en", "ja" := "ja", "zh" := "zh-CN"]

  /** The Places language code for an interface language; anything unknown falls back to English. */
  function GetGoogleMapsLanguage(code: string): (lang: string)
    ensures lang in {"en", "ja", "zh-CN"}
    ensures code == "en" ==> lang == "en"
    ensures code == "ja" ==> lang == "ja"
    ensures code == "zh" ==> lang == "zh-CN"
    ensures code !in {"en", "ja", "zh"} ==> lang == "en"
  {
    if code in LanguageMap then LanguageMap[code] else "en"
  }

  // ---------------------------------------------------------------------------
  // Cuisine names to Places types
  // ---------------------------------------------------------------------------

  const CuisineToTypeMap: map<string, seq<string>> := map[
    "american" := ["american_restaurant"],
    "chinese" := ["chinese_restaurant"],
    "indian" := ["indian_restaurant"],
    "italian" := ["italian_restaurant"],
    "japanese" := ["japanese_restaurant"],
    "korean" := ["korean_restaurant"],
    "mexican" := ["mexican_restaurant"],
    "thai" := ["thai_restaurant"],
    "french" := ["french_restaurant"],
    "greek" := ["greek_restaurant"],
    "mediterranean" := ["mediterranean_restaurant"],
    "middle eastern" := ["middle_eastern_restaurant"],
    "vietnamese" := ["vietnamese_restaurant"],
    "turkish" := ["turkish_restaurant"],
    "seafood" := ["seafood_restaurant"],
    "steak" := ["steak_house"],
    "sushi" := ["sushi_restaurant"],
    "pizza" := ["pizza_restaurant"],
    "hamburger" := ["hamburger_restaurant"],
    "fast food" := ["fast_food_restaurant"],
    "bakery" := ["bakery"],
    "cafe" := ["cafe"],
    "bar" := ["bar"],
    "food" := ["restaurant"]
  ]

  /** What is searched when no cuisine is selected. */
  const AllFoodTypes: seq<string> := ["restaurant", "meal_delivery", "meal_takeaway"]

  /** The table entry for one cuisine name, looked up case-insensitively; unknown names give nothing. */
  function LookupTypes(cuisine: string): seq<string> {
    var key := ToLower(cuisine);
    if key in CuisineToTypeMap then CuisineToTypeMap[key] else []
  }

  /** Every table entry of `cuisines`, in the order the `forEach` loops visit them. */
  function KnownTypes(cuisines: seq<string>): seq<string> {
    if cuisines == [] then [] else KnownTypes(cuisines[..|cuisines| - 1]) + LookupTypes(cuisines[|cuisines| - 1])
  }

  /** What `mapCuisineTypesToGooglePlacesTypes` returns, stated without its loops. */
  function PlacesTypesFor(cuisines: Option<seq<string>>): seq<string> {
    if cuisines.None? || cuisines.value == [] then AllFoodTypes
    else
      var found := Dedup(KnownTypes(cuisines.value));
      if found != [] then found else ["restaurant"]
  }

  lemma {:induction false} KnownTypesMembership(cuisines: seq<string>)
    ensures forall t :: t in KnownTypes(cuisines) <==> exists c :: c in cuisines && t in LookupTypes(c)
  {
    if cuisines != [] {
      var front, last := cuisines[..|cuisines| - 1], cuisines[|cuisines| - 1];
      assert cuisines == front + [last];
      KnownTypesMembership(front);
    }
  }

  /**
   * The Places types requested for a cuisine selection are never empty and
   * free of duplicates, and are the three general food types when nothing is
   * selected.
   */
  lemma {:induction false} PlacesTypesForShape(cuisines: Option<seq<string>>)
    ensures PlacesTypesFor(cuisines) != []
    ensures NoDuplicates(PlacesTypesFor(cuisines))
    ensures cuisines.None? || cuisines.value == [] ==> PlacesTypesFor(cuisines) == AllFoodTypes
  {
  }

  /** Some type is found exactly when some selected cuisine is in the table. */
  lemma {:induction false} KnownTypesEmpty(cuisines: seq<string>)
    ensures KnownTypes(cuisines) == [] <==> forall c :: c in cuisines ==> LookupTypes(c) == []
  {
    if cuisines != [] {
      var front, last := cuisines[..|cuisines| - 1], cuisines[|cuisines| - 1];
      assert cuisines == front + [last];
      KnownTypesEmpty(front);
    }
  }

  /** A selection none of whose cuisines is in the table asks for `restaurant` alone. */
  lemma {:induction false} PlacesTypesForUnknown(cuisines: seq<string>)
    requires cuisines != [] && forall c :: c in cuisines ==> LookupTypes(c) == []
    ensures PlacesTypesFor(Some(cuisines)) == ["restaurant"]
  {
    KnownTypesEmpty(cuisines);
  }

  /** Otherwise exactly the table images of the selected cuisines are asked for. */
  lemma {:induction false} PlacesTypesForKnown(cuisines: seq<string>)
    requires exists c :: c in cuisines && LookupTypes(c) != []
    ensures forall t :: t in PlacesTypesFor(Some(cuisines)) <==> exists c :: c in cuisines && t in LookupTypes(c)
  {
    KnownTypesEmpty(cuisines);
    KnownTypesMembership(cuisines);
    DedupMembership(KnownTypes(cuisines));
    assert Dedup(KnownTypes(cuisines)) != [] by {
      assert KnownTypes(cuisines)[0] in Dedup(KnownTypes(cuisines));
    }
  }

  /** The requested types keep the order in which the cuisines first produced them. */
  lemma {:induction false} PlacesTypesForOrder(cuisines: seq<string>)
    requires Dedup(KnownTypes(cuisines)) != []
    ensures forall i, j :: 0 <= i < j < |PlacesTypesFor(Some(cuisines))| ==>
      FirstIndex(KnownTypes(cuisines), PlacesTypesFor(Some(cuisines))[i]) <
      FirstIndex(KnownTypes(cuisines), PlacesTypesFor(Some(cuisines))[j])
  {
    DedupFirstOccurrenceOrder(KnownTypes(cuisines));
  }

  lemma {:induction false} KnownTypesStep(cs: seq<string>, i: nat)
    requires i < |cs|
    ensures KnownTypes(cs[..i + 1]) == KnownTypes(cs[..i]) + LookupTypes(cs[i])
  {
    assert cs[..i + 1][..i] == cs[..i] && cs[..i + 1][i] == cs[i];
  }

  /** `mapCuisineTypesToGooglePlacesTypes`: fills an insertion-ordered set from the table, cuisine by cuisine. */
  method MapCuisineTypesToGooglePlacesTypes(cuisineTypes: Option<seq<string>>) returns (types: seq<string>)
    ensures types == PlacesTypesFor(cuisineTypes)
    ensures types != [] && NoDuplicates(types)
  {
    if cuisineTypes.None? || |cuisineTypes.value| == 0 {
      PlacesTypesForShape(cuisineTypes);
      return AllFoodTypes;
    }
    var cs := cuisineTypes.value;
    var placesTypes: seq<string> := [];
    var i := 0;
    while i < |cs|
      invariant 0 <= i <= |cs|
      invariant placesTypes == Dedup(KnownTypes(cs[..i]))
    {
      var types := LookupTypes(cs[i]);
      placesTypes := AddAll(placesTypes, types, KnownTypes(cs[..i]));
      KnownTypesStep(cs, i);
      i := i + 1;
    }
    assert cs[..i] == cs;
    types := if |placesTypes| > 0 then placesTypes else ["restaurant"];
    PlacesTypesForShape(cuisineTypes);
  }

  // ---------------------------------------------------------------------------
  // Places types shown as cuisines
  // ---------------------------------------------------------------------------

  const FoodTypes: seq<string> := ["cafe", "meal_delivery", "meal_takeaway", "restaurant", "food"]

  const CuisineTypeNames: seq<string> := [
    "chinese_restaurant", "indian_restaurant",
    "italian_restaurant", "japanese_restaurant", "korean_restaurant",
    "mexican_restaurant", "thai_restaurant", "french_restaurant",
    "vietnamese_restaurant", "turkish_restaurant",
    "seafood_restaurant", "steak_house", "sushi_restaurant",
    "fast_food_restaurant", "family_restaurant"
  ]

  /**
   * Entries 1 to 9 of the exclude list. The list is one array in the
   * code; it is cut into ten runs here only so that each disjointness
   * proof stays small.
   */
  const ExcludeRun1: seq<string> := [
    "establishment", "point_of_interest", "store", "shopping_mall", "movie_theater", "gas_station",
    "bank", "atm", "pharmacy"
  ]

  /** Entries 10 to 18 of the exclude list. */
  const ExcludeRun2: seq<string> := [
    "hospital", "school", "gym", "beauty_salon", "car_dealer", "real_estate_agency", "lawyer",
    "dentist", "doctor"
  ]

  /** Entries 19 to 28 of the exclude list. */
  const ExcludeRun3: seq<string> := [
    "veterinary_care", "pet_store", "book_store", "clothing_store", "electronics_store",
    "furniture_store", "hardware_store", "jewelry_store", "shoe_store", "supermarket"
  ]

  /** Entries 29 to 38 of the exclude list. */
  const ExcludeRun4: seq<string> := [
    "convenience_store", "florist", "home_goods_store", "liquor_store", "bicycle_store",
    "car_rental", "car_repair", "car_wash", "parking", "lodging"
  ]

  /** Entries 39 to 44 of the exclude list. */
  const ExcludeRun5: seq<string> := [
    "travel_agency", "tourist_attraction", "amusement_park", "aquarium", "art_gallery", "casino"
  ]

  /** Entries 45 to 50 of the exclude list. */
  const ExcludeRun6: seq<string> := [
    "church", "city_hall", "courthouse", "embassy", "fire_station", "hindu_temple"
  ]

  /** Entries 51 to 57 of the exclude list. */
  const ExcludeRun7: seq<string> := [
    "library", "local_government_office", "mosque", "museum", "park", "place_of_worship", "police"
  ]

  /** Entries 58 to 69 of the exclude list. */
  const ExcludeRun8: seq<string> := [
    "post_office", "rv_park", "school", "stadium", "storage", "subway_station", "synagogue",
    "taxi_stand", "train_station", "transit_station", "university", "zoo"
  ]

  /** Entries 70 to 84 of the exclude list. */
  const ExcludeRun9: seq<string> := [
    "administrative_area_level_1", "administrative_area_level_2", "administrative_area_level_3",
    "country", "locality", "postal_code", "route", "street_address", "sublocality",
    "sublocality_level_1", "premise", "subpremise", "natural_feature", "neighborhood", "political"
  ]

  /** Entries 85 to 89 of the exclude list. */
  const ExcludeRun10: seq<string> := [
    "bakery", "bar", "night_club", "donut_shop", "health"
  ]

  /** The exclude list of `extractCuisineTypes`, in its original order. */
  const ExcludeTypes: seq<string> :=
    ExcludeRun1 + ExcludeRun2 + ExcludeRun3 + ExcludeRun4 + ExcludeRun5 +
    ExcludeRun6 + ExcludeRun7 + ExcludeRun8 + ExcludeRun9 + ExcludeRun10

  /** The filter callback of `extractCuisineTypes`, branch by branch. */
  predicate KeepType(t: string) {
    if t in CuisineTypeNames then true
    else if t in FoodTypes then true
    else t !in ExcludeTypes
  }

  /** The two allow-lists never meet the exclude list, so only the exclude list decides. */
  lemma {:induction false} KeepTypeIffNotExcluded(t: string)
    ensures KeepType(t) <==> t !in ExcludeTypes
  {
    if t in CuisineTypeNames || t in FoodTypes {
      AllowListsNotExcluded();
    }
  }

  lemma {:induction false} CuisinesMissRun1()
    ensures forall t :: t in CuisineTypeNames ==> t !in ExcludeRun1
  {
  }

  lemma {:induction false} FoodTypesMissRun1()
    ensures forall t :: t in FoodTypes ==> t !in ExcludeRun1
  {
  }

  lemma {:induction false} CuisinesMissRun2()
    ensures forall t :: t in CuisineTypeNames ==> t !in ExcludeRun2
  {
  }

  lemma {:induction false} FoodTypesMissRun2()
    ensures forall t :: t in FoodTypes ==> t !in ExcludeRun2
  {
  }

  lemma {:induction false} CuisinesMissRun3()
    ensures forall t :: t in CuisineTypeNames ==> t !in ExcludeRun3
  {
  }

  lemma {:induction false} FoodTypesMissRun3()
    ensures forall t :: t in FoodTypes ==> t !in ExcludeRun3
  {
  }

  lemma {:induction false} CuisinesMissRun4()
    ensures forall t :: t in CuisineTypeNames ==> t !in ExcludeRun4
  {
  }

  lemma {:induction false} FoodTypesMissRun4()
    ensures forall t :: t in FoodTypes ==> t !in ExcludeRun4
  {
  }

  lemma {:induction false} CuisinesMissRun5()
    ensures forall t :: t in CuisineTypeNames ==> t !in ExcludeRun5
  {
  }

  lemma {:induction false} FoodTypesMissRun5()
    ensures forall t :: t in FoodTypes ==> t !in ExcludeRun5
  {
  }

  lemma {:induction false} CuisinesMissRun6()
    ensures forall t :: t in CuisineTypeNames ==> t !in ExcludeRun6
  {
  }

  lemma {:induction false} FoodTypesMissRun6()
    ensures forall t :: t in FoodTypes ==> t !in ExcludeRun6
  {
  }

  lemma {:induction false} CuisinesMissRun7()
    ensures forall t :: t in CuisineTypeNames ==> t !in ExcludeRun7
  {
  }

  lemma {:induction false} FoodTypesMissRun7()
    ensures forall t :: t in FoodTypes ==> t !in ExcludeRun7
  {
  }

  lemma {:induction false} CuisinesMissRun8()
    ensures forall t :: t in CuisineTypeNames ==> t !in ExcludeRun8
  {
  }

  lemma {:induction false} FoodTypesMissRun8()
    ensures forall t :: t in FoodTypes ==> t !in ExcludeRun8
  {
  }

  lemma {:induction false} CuisinesMissRun9()
    ensures forall t :: t in CuisineTypeNames ==> t !in ExcludeRun9
  {
  }

  lemma {:induction false} FoodTypesMissRun9()
    ensures forall t :: t in FoodTypes ==> t !in ExcludeRun9
  {
  }

  lemma {:induction false} CuisinesMissRun10()
    ensures forall t :: t in CuisineTypeNames ==> t !in ExcludeRun10
  {
  }

  lemma {:induction false} FoodTypesMissRun10()
    ensures forall t :: t in FoodTypes ==> t !in ExcludeRun10
  {
  }

  lemma {:induction false} AllowListsNotExcluded()
    ensures forall t :: t in CuisineTypeNames ==> t !in ExcludeTypes
    ensures forall t :: t in FoodTypes ==> t !in ExcludeTypes
  {
    CuisinesMissRun1();
    FoodTypesMissRun1();
    CuisinesMissRun2();
    FoodTypesMissRun2();
    CuisinesMissRun3();
    FoodTypesMissRun3();
    CuisinesMissRun4();
    FoodTypesMissRun4();
    CuisinesMissRun5();
    FoodTypesMissRun5();
    CuisinesMissRun6();
    FoodTypesMissRun6();
    CuisinesMissRun7();
    FoodTypesMissRun7();
    CuisinesMissRun8();
    FoodTypesMissRun8();
    CuisinesMissRun9();
    FoodTypesMissRun9();
    CuisinesMissRun10();
    FoodTypesMissRun10();
  }

  /** The Places types kept for display, in their original order. */
  function KeptTypes(types: seq<string>): seq<string> {
    Filter(KeepType, types)
  }

  /** A type name with one trailing `_restaurant` dropped and every `_` turned into a space. */
  function DisplayBase(t: string): string {
    ReplaceChar(StripSuffix(t, "_restaurant"), '_', ' ')
  }

  /** A type name as displayed: `fast_food_restaurant` becomes `Fast Food`. */
  function DisplayName(t: string): string {
    CapitalizeWords(DisplayBase(t))
  }

  function DisplayNames(types: seq<string>): (r: seq<string>)
    ensures |r| == |types|
    ensures forall i :: 0 <= i < |types| ==> r[i] == DisplayName(types[i])
  {
    if types == [] then [] else [DisplayName(types[0])] + DisplayNames(types[1..])
  }

  /** `extractCuisineTypes`: filter, then clean up the names. */
  function ExtractCuisineTypes(types: seq<string>): seq<string> {
    DisplayNames(KeptTypes(types))
  }

  /**
   * A type survives exactly when it is not on the exclude list, and the
   * survivors keep their order: the result lists their display names.
   */
  lemma {:induction false} ExtractCuisineTypesKeeps(types: seq<string>)
    ensures IsSubsequence(KeptTypes(types), types)
    ensures forall t :: t in KeptTypes(types) <==> t in types && t !in ExcludeTypes
    ensures |ExtractCuisineTypes(types)| == |KeptTypes(types)| <= |types|
    ensures forall i :: 0 <= i < |KeptTypes(types)| ==>
      ExtractCuisineTypes(types)[i] == DisplayName(KeptTypes(types)[i])
  {
    FilterIsSubsequence(KeepType, types);
    FilterMembership(KeepType, types);
    forall t ensures KeepType(t) <==> t !in ExcludeTypes {
      KeepTypeIffNotExcluded(t);
    }
  }

  lemma {:induction false} UpperIsNotUnderscore(c: char)
    requires c != '_'
    ensures Upper(c) != '_'
  {
  }

  /**
   * The display transform drops one trailing `_restaurant`, turns every `_`
   * into a space and upper-cases the first character of every word; it keeps
   * the length of the stripped name and leaves no `_` behind.
   */
  lemma {:induction false} DisplayNameAt(t: string)
    ensures |DisplayName(t)| == |DisplayBase(t)|
    ensures EndsWith(t, "_restaurant") ==> |DisplayName(t)| == |t| - 11
    ensures forall k :: 0 <= k < |DisplayBase(t)| ==>
      DisplayName(t)[k] == if k == 0 || DisplayBase(t)[k - 1] == ' ' then Upper(DisplayBase(t)[k]) else DisplayBase(t)[k]
    ensures '_' !in DisplayName(t)
  {
    var base := DisplayBase(t);
    var r := DisplayName(t);
    assert r == CapitalizeWords(base);
    CapitalizeWordsAt(base);
    forall k | 0 <= k < |DisplayBase(t)|
      ensures DisplayName(t)[k] == if k == 0 || DisplayBase(t)[k - 1] == ' ' then Upper(DisplayBase(t)[k]) else DisplayBase(t)[k]
      ensures r[k] != '_'
    {
      assert r[k] == if k == 0 || base[k - 1] == ' ' then Upper(base[k]) else base[k];
      assert base[k] != '_';
      UpperIsNotUnderscore(base[k]);
    }
  }

  lemma {:induction false} DisplayBaseExample()
    ensures DisplayBase("fast_food_restaurant") == "fast food"
  {
    var t := "fast_food_restaurant";
    assert t[9..] == "_restaurant";
    var stripped := StripSuffix(t, "_restaurant");
    assert stripped == "fast_food";
    var base := ReplaceChar(stripped, '_', ' ');
    forall i | 0 <= i < 9 ensures base[i] == "fast food"[i] {
      assert stripped[i] == if i == 4 then '_' else "fast food"[i];
    }
  }

  lemma {:induction false} DisplayNameExample()
    ensures DisplayName("fast_food_restaurant") == "Fast Food"
  {
    DisplayBaseExample();
    CapitalizeExample();
  }

  // ---------------------------------------------------------------------------
  // Places records to restaurants
  // ---------------------------------------------------------------------------

  /** JavaScript's `s || fallback` on an optional string: a missing or empty text gives the fallback. */
  function TextOr(s: Option<string>, fallback: string): string {
    if s.Some? && s.value != "" then s.value else fallback
  }

  function DisplayText(place: Place): Option<string> {
    if place.displayName.Some? then place.displayName.value.text else None
  }

  const PhotoBase := "https://places.googleapis.com/v1/"

  /**
   * `formatNewApiRestaurantData`. The distance to the user and its printed form
   * come from the location service and are passed in.
   */
  function FormatNewApiRestaurantData(place: Place, distance: real, formattedDistance: string, apiKey: string): (r: Restaurant)
    ensures r.id == place.id && r.location == place.location
    ensures r.distance == distance && r.formattedDistance == formattedDistance
    ensures DisplayText(place).None? || DisplayText(place) == Some("") ==> r.name == "Unknown Restaurant"
    ensures DisplayText(place).Some? && DisplayText(place).value != "" ==> r.name == DisplayText(place).value
    ensures place.rating.None? ==> r.rating == 0
    ensures place.rating.Some? ==> r.rating == place.rating.value
    ensures place.priceLevel.None? ==> r.priceLevel == 0
    ensures place.priceLevel.Some? ==> r.priceLevel == place.priceLevel.value
    ensures place.formattedAddress.None? ==> r.address == ""
    ensures place.formattedAddress.Some? ==> r.address == place.formattedAddress.value
    ensures place.types.None? ==> r.cuisineTypes == []
    ensures place.types.Some? ==> r.cuisineTypes == ExtractCuisineTypes(place.types.value)
    ensures place.currentOpeningHours.None? ==> r.isOpen
    ensures place.currentOpeningHours.Some? ==> (r.isOpen <==> place.currentOpeningHours.value.openNow == Some(true))
    ensures place.currentOpeningHours.Some? && place.currentOpeningHours.value.openNow.None? ==> !r.isOpen
    ensures r.photoUrl.Some? <==> place.photos.Some? && place.photos.value != []
    ensures r.priceRange.None?
  {
    Restaurant(
      id := place.id,
      name := TextOr(DisplayText(place), "Unknown Restaurant"),
      rating := place.rating.GetOr(0),
      distance := distance,
      formattedDistance := formattedDistance,
      address := TextOr(place.formattedAddress, ""),
      priceLevel := place.priceLevel.GetOr(0),
      cuisineTypes := ExtractCuisineTypes(place.types.GetOr([])),
      isOpen := if place.currentOpeningHours.Some? then place.currentOpeningHours.value.openNow == Some(true) else true,
      photoUrl :=
        if place.photos.Some? && |place.photos.value| > 0 then
          Some(PhotoBase + place.photos.value[0].name + "/media?maxWidthPx=400&maxHeightPx=300&key=" + apiKey)
        else None,
      location := place.location,
      priceRange := None)
  }

  // ---------------------------------------------------------------------------
  // Sample data and the search fallback
  // ---------------------------------------------------------------------------

  function Mock(id: string, name: string, rating: nat, distance: real, formatted: string, address: string,
                priceLevel: int, cuisines: seq<string>, isOpen: bool, location: LatLng): Restaurant {
    Restaurant(id, name, rating, distance, formatted, address, priceLevel, cuisines, isOpen, None, location, None)
  }

  /** `getMockRestaurants`: eight fixed records placed around the user. */
  function GetMockRestaurants(location: LatLng): (r: seq<Restaurant>)
    ensures |r| == 8
    ensures forall i :: 0 <= i < |r| ==> r[i].priceRange.None? && r[i].photoUrl.None?
    ensures forall i, j :: 0 <= i < j < |r| ==> r[i].id != r[j].id
  {
    var lat, lng := location.lat, location.lng;
    [
      Mock("mock-1", "Pizza Palace", 45, 800.0, "800m", "123 Main St", 2, ["pizza", "italian"], true, LatLng(lat + 0.007, lng + 0.007)),
      Mock("mock-2", "Sushi Zen", 48, 1200.0, "1.2km", "456 Oak Ave", 3, ["sushi", "japanese"], true, LatLng(lat - 0.009, lng + 0.011)),
      Mock("mock-3", "Burger Barn", 42, 600.0, "600m", "789 Elm St", 1, ["burger", "american"], true, LatLng(lat + 0.005, lng - 0.008)),
      Mock("mock-4", "Taco Fiesta", 43, 1500.0, "1.5km", "321 Pine St", 2, ["mexican", "tacos"], true, LatLng(lat - 0.012, lng - 0.015)),
      Mock("mock-5", "Pasta Corner", 41, 900.0, "900m", "654 Maple Ave", 2, ["pasta", "italian"], false, LatLng(lat + 0.008, lng + 0.006)),
      Mock("mock-6", "Golden Dragon", 46, 2000.0, "2.0km", "987 Cedar St", 2, ["chinese", "asian"], true, LatLng(lat - 0.016, lng + 0.018)),
      Mock("mock-7", "Healthy Bites", 44, 1100.0, "1.1km", "159 Birch Rd", 3, ["healthy", "salad"], true, LatLng(lat + 0.009, lng - 0.012)),
      Mock("mock-8", "BBQ Smokehouse", 47, 1800.0, "1.8km", "753 Willow St", 3, ["bbq", "american"], true, LatLng(lat - 0.014, lng - 0.016))
    ]
  }

  /** The body of the Nearby Search request. */
  datatype SearchRequest = SearchRequest(
    includedTypes: seq<string>,
    center: LatLng,
    radius: nat,
    languageCode: string,
    maxResultCount: nat,
    rankPreference: string)

  /** How the request ended: an HTTP error status, a thrown error, or a parsed body whose `places` may be missing. */
  datatype Response = HttpError(status: int) | Thrown | Body(places: Option<seq<Place>>)

  /**
   * `searchNearby` with the network call replaced by its `response`:
   * without an API key nothing is sent and the sample data is returned; an
   * error, or a body with no places, also falls back to the sample data;
   * otherwise every place is converted in order. The result is never empty.
   */
  method SearchNearby(location: LatLng, radius: nat, language: string, cuisineTypes: seq<string>, apiKey: string,
                      response: Response, distanceTo: LatLng -> real, formatDistance: real -> string)
    returns (sent: Option<SearchRequest>, restaurants: seq<Restaurant>)
    ensures apiKey == "" ==> sent.None?
    ensures apiKey != "" ==> sent == Some(SearchRequest(PlacesTypesFor(Some(cuisineTypes)), location, radius,
                                                         GetGoogleMapsLanguage(language), 20, "DISTANCE"))
    ensures restaurants != []
    ensures apiKey == "" || !response.Body? || response.places.None? || response.places.value == [] ==>
      restaurants == GetMockRestaurants(location)
    ensures apiKey != "" && response.Body? && response.places.Some? && response.places.value != [] ==>
      var places := response.places.value;
      |restaurants| == |places| &&
      forall i :: 0 <= i < |places| ==>
        restaurants[i] == FormatNewApiRestaurantData(places[i], distanceTo(places[i].location),
                                                     formatDistance(distanceTo(places[i].location)), apiKey)
  {
    if apiKey == "" {
      return None, GetMockRestaurants(location);
    }
    var searchTypes := MapCuisineTypesToGooglePlacesTypes(Some(cuisineTypes));
    sent := Some(SearchRequest(searchTypes, location, radius, GetGoogleMapsLanguage(language), 20, "DISTANCE"));
    if !response.Body? || response.places.None? || |response.places.value| == 0 {
      return sent, GetMockRestaurants(location);
    }
    var places := response.places.value;
    restaurants := seq(|places|, i requires 0 <= i < |places| =>
      var d := distanceTo(places[i].location);
      FormatNewApiRestaurantData(places[i], d, formatDistance(d), apiKey));
  }

  // ---------------------------------------------------------------------------
  // The list of cuisines
  // ---------------------------------------------------------------------------

  /** Every cuisine of every restaurant, in the order the `forEach` loops visit them. */
  function AllCuisines(restaurants: seq<Restaurant>): seq<string> {
    if restaurants == [] then []
    else AllCuisines(restaurants[..|restaurants| - 1]) + restaurants[|restaurants| - 1].cuisineTypes
  }

  lemma {:induction false} AllCuisinesMembership(restaurants: seq<Restaurant>)
    ensures forall c :: c in AllCuisines(restaurants) <==> exists r :: r in restaurants && c in r.cuisineTypes
  {
    if restaurants != [] {
      var front, last := restaurants[..|restaurants| - 1], restaurants[|restaurants| - 1];
      assert restaurants == front + [last];
      AllCuisinesMembership(front);
    }
  }

  /**
   * `getCuisineTypes`: collects every cuisine into a set, then sorts. The
   * result is in strictly increasing order and holds exactly the cuisines
   * some restaurant lists.
   */
  method GetCuisineTypes(restaurants: seq<Restaurant>) returns (cuisines: seq<string>)
    ensures Sorted(cuisines) && NoDuplicates(cuisines)
    ensures forall c :: c in cuisines <==> exists r :: r in restaurants && c in r.cuisineTypes
  {
    var cuisineSet: seq<string> := [];
    var i := 0;
    while i < |restaurants|
      invariant 0 <= i <= |restaurants|
      invariant cuisineSet == Dedup(AllCuisines(restaurants[..i]))
    {
      cuisineSet := AddAll(cuisineSet, restaurants[i].cuisineTypes, AllCuisines(restaurants[..i]));
      AllCuisinesStep(restaurants, i);
      i := i + 1;
    }
    assert restaurants[..i] == restaurants;
    cuisines := SortStrings(cuisineSet);
    SortedCuisines(restaurants, cuisineSet, cuisines);
  }

  lemma {:induction false} AllCuisinesStep(restaurants: seq<Restaurant>, i: nat)
    requires i < |restaurants|
    ensures AllCuisines(restaurants[..i + 1]) == AllCuisines(restaurants[..i]) + restaurants[i].cuisineTypes
  {
    assert restaurants[..i + 1][..i] == restaurants[..i] && restaurants[..i + 1][i] == restaurants[i];
  }

  /** Sorting the collected set keeps it free of duplicates and keeps its members. */
  lemma {:induction false} SortedCuisines(restaurants: seq<Restaurant>, cuisineSet: seq<string>, cuisines: seq<string>)
    requires cuisineSet == Dedup(AllCuisines(restaurants))
    requires multiset(cuisines) == multiset(cuisineSet)
    ensures NoDuplicates(cuisines)
    ensures forall c :: c in cuisines <==> exists r :: r in restaurants && c in r.cuisineTypes
  {
    PermutationKeepsNoDuplicates(cuisines, cuisineSet);
    PermutationKeepsMembers(cuisines, cuisineSet);
    AllCuisinesMembership(restaurants);
    DedupMembership(AllCuisines(restaurants));
  }
}
