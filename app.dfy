/**
 * The app's filter state and the client-side filter over the restaurants the
 * search returned. Ratings are in tenths of a star (3.5 is `35`), prices in
 * yen and distances in metres.
 */
module App {
  import opened Wrappers
  import opened Sequences
  import opened RestaurantService

  /** The filter record the panel edits. */
  datatype Filters = Filters(
    minRating: nat,
    maxDistance: nat,
    cuisineTypes: seq<string>,
    openNow: bool,
    minPrice: int,
    maxPrice: int)

  /** The upper price bound that means "no price limit". */
  const NoPriceLimit := 100000

  /** The filters the app starts with: 3.5 stars, 1 km, any cuisine, open now, any price. */
  const DefaultFilters := Filters(35, 1000, [], true, 0, NoPriceLimit)

  /** Whether the price bounds differ from "any price". */
  predicate PriceFilterSet(f: Filters) {
    f.minPrice > 0 || f.maxPrice < NoPriceLimit
  }

  /**
   * A restaurant with a price range must lie inside the bounds; one without
   * passes only while no price bound is set.
   */
  predicate PriceMatch(r: Restaurant, f: Filters) {
    if r.priceRange.Some? then
      r.priceRange.value.startPrice >= f.minPrice && r.priceRange.value.endPrice <= f.maxPrice
    else !PriceFilterSet(f)
  }

  /** The test `applyFilters` puts to each restaurant. Cuisine and distance are left to the search. */
  predicate Matches(f: Filters, r: Restaurant) {
    r.rating >= f.minRating && (!f.openNow || r.isOpen) && PriceMatch(r, f)
  }

  /** `applyFilters`: the restaurants that pass `Matches`, in their original order. */
  function ApplyFilters(restaurants: seq<Restaurant>, f: Filters): seq<Restaurant> {
    Filter(r => Matches(f, r), restaurants)
  }

  /** The filtered list is the input with some restaurants removed, the rest in order. */
  lemma {:induction false} ApplyFiltersSubsequence(restaurants: seq<Restaurant>, f: Filters)
    ensures IsSubsequence(ApplyFilters(restaurants, f), restaurants)
    ensures |ApplyFilters(restaurants, f)| <= |restaurants|
  {
    FilterIsSubsequence(r => Matches(f, r), restaurants);
  }

  /**
   * A restaurant is kept exactly when its rating reaches the minimum, it is
   * open or closed ones are allowed, and its price passes.
   */
  lemma {:induction false} ApplyFiltersKeeps(restaurants: seq<Restaurant>, f: Filters)
    ensures forall r :: r in ApplyFilters(restaurants, f) <==>
      r in restaurants && r.rating >= f.minRating && (!f.openNow || r.isOpen) && PriceMatch(r, f)
  {
    FilterMembership(r => Matches(f, r), restaurants);
  }

  /**
   * A kept restaurant appears as many times as in the input, so duplicate
   * records are neither merged nor multiplied; a dropped one not at all.
   */
  lemma {:induction false} ApplyFiltersCount(restaurants: seq<Restaurant>, f: Filters)
    ensures forall r ::
      multiset(ApplyFilters(restaurants, f))[r] == (if Matches(f, r) then multiset(restaurants)[r] else 0)
  {
    FilterMultiset(r => Matches(f, r), restaurants);
  }

  /** Every kept restaurant reaches the minimum rating and, when `openNow` is set, is open. */
  lemma {:induction false} ApplyFiltersRatingAndOpen(restaurants: seq<Restaurant>, f: Filters)
    ensures forall r :: r in ApplyFilters(restaurants, f) ==> r.rating >= f.minRating
    ensures f.openNow ==> forall r :: r in ApplyFilters(restaurants, f) ==> r.isOpen
    ensures !f.openNow ==> forall r :: r in restaurants && r.rating >= f.minRating && PriceMatch(r, f) ==>
      r in ApplyFilters(restaurants, f)
  {
    ApplyFiltersKeeps(restaurants, f);
  }

  /**
   * Restaurants with a price range are kept only inside the bounds; those
   * without one are dropped exactly when a price bound is set.
   */
  lemma {:induction false} ApplyFiltersPrice(restaurants: seq<Restaurant>, f: Filters)
    ensures forall r :: r in ApplyFilters(restaurants, f) && r.priceRange.Some? ==>
      f.minPrice <= r.priceRange.value.startPrice && r.priceRange.value.endPrice <= f.maxPrice
    ensures forall r :: r in restaurants && r.priceRange.None? && r.rating >= f.minRating && (!f.openNow || r.isOpen) ==>
      (r !in ApplyFilters(restaurants, f) <==> f.minPrice > 0 || f.maxPrice < NoPriceLimit)
  {
    ApplyFiltersKeeps(restaurants, f);
  }

  /** Filtering an already filtered list with the same filters changes nothing. */
  lemma {:induction false} ApplyFiltersIdempotent(restaurants: seq<Restaurant>, f: Filters)
    ensures ApplyFilters(ApplyFilters(restaurants, f), f) == ApplyFilters(restaurants, f)
  {
    FilterIdempotent(r => Matches(f, r), restaurants);
  }

  /**
   * No record the service produces carries a price range, so choosing any
   * price preset empties the list.
   */
  lemma {:induction false} PriceFilterEmptiesServiceData(restaurants: seq<Restaurant>, f: Filters)
    requires forall r :: r in restaurants ==> r.priceRange.None?
    requires PriceFilterSet(f)
    ensures ApplyFilters(restaurants, f) == []
  {
    FilterNone(r => Matches(f, r), restaurants);
  }

  /** The sample data and every converted Places record are emptied by any price bound. */
  lemma {:induction false} PriceFilterEmptiesMockData(location: LatLng, f: Filters)
    requires PriceFilterSet(f)
    ensures ApplyFilters(GetMockRestaurants(location), f) == []
  {
    var rs := GetMockRestaurants(location);
    forall r | r in rs ensures r.priceRange.None? {
      var i :| 0 <= i < |rs| && rs[i] == r;
    }
    PriceFilterEmptiesServiceData(rs, f);
  }

  /** With the starting filters, seven of the eight sample restaurants remain: the closed one goes. */
  lemma {:induction false} DefaultFiltersOnMockData(location: LatLng)
    ensures ApplyFilters(GetMockRestaurants(location), DefaultFilters) ==
      GetMockRestaurants(location)[..4] + GetMockRestaurants(location)[5..]
    ensures GetMockRestaurants(location)[4].id == "mock-5" && !GetMockRestaurants(location)[4].isOpen
  {
    var rs := GetMockRestaurants(location);
    FilterDropsOne(r => Matches(DefaultFilters, r), rs, 4);
  }

  // ---------------------------------------------------------------------------
  // The App component's state
  // ---------------------------------------------------------------------------

  /**
   * The state the App component keeps: the filters, the restaurants the last
   * search returned, and the list the wheel shows.
   */
  class AppState {
    var filters: Filters
    var restaurants: seq<Restaurant>
    var filteredRestaurants: seq<Restaurant>

    constructor()
      ensures filters == DefaultFilters && restaurants == [] && filteredRestaurants == []
    {
      filters := DefaultFilters;
      restaurants := [];
      filteredRestaurants := [];
    }

    /** `handleFilterChange`: the panel's new record replaces the old one as a whole. */
    method HandleFilterChange(newFilters: Filters)
      modifies this
      ensures filters == newFilters
      ensures restaurants == old(restaurants) && filteredRestaurants == old(filteredRestaurants)
    {
      filters := newFilters;
    }

    /** `setRestaurants` with the result of a search. */
    method SetRestaurants(found: seq<Restaurant>)
      modifies this
      ensures restaurants == found
      ensures filters == old(filters) && filteredRestaurants == old(filteredRestaurants)
    {
      restaurants := found;
    }

    /**
     * The effect that re-filters when the restaurants or the rating, open or
     * price filters change: it runs `applyFilters` only when there are
     * restaurants, so an empty search leaves the previous list in place.
     */
    method RefreshFiltered()
      modifies this
      ensures |restaurants| > 0 ==> filteredRestaurants == ApplyFilters(restaurants, filters)
      ensures |restaurants| == 0 ==> filteredRestaurants == old(filteredRestaurants)
      ensures filters == old(filters) && restaurants == old(restaurants)
    {
      if |restaurants| > 0 {
        filteredRestaurants := ApplyFilters(restaurants, filters);
      }
    }
  }

  /**
   * After a search result arrives and the effect runs, the wheel shows the
   * matching restaurants of that result, each of them in it.
   */
  method ReceiveRestaurants(app: AppState, found: seq<Restaurant>)
    requires found != []
    modifies app
    ensures app.filteredRestaurants == ApplyFilters(found, app.filters)
    ensures IsSubsequence(app.filteredRestaurants, found)
  {
    app.SetRestaurants(found);
    app.RefreshFiltered();
    ApplyFiltersSubsequence(found, app.filters);
  }
}
