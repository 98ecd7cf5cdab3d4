# where-to-eat, modelled in Dafny

A model of the decision logic of the "where-to-eat" React app. The app fetches
nearby restaurants and filters them on the client. The user narrows them down
in a filter panel, and a prize wheel picks one at random. The model covers:

- **the prize wheel** (`prize_wheel.dfy`):
  - the spin / reveal state machine of `handleSpin` and its timer callback, as the class `Wheel` with `Spin` and `Reveal`;
  - the geometry of the index-first spin: draw an index, aim at the middle of its segment, add five full turns;
  - the equal segments `renderWheelSegments` draws.
- **the app's filter** (`app.dfy`):
  - the default filter record;
  - `applyFilters` over rating, open state and price;
  - the App component's state, as the class `AppState`: filter replacement, the search result, and the effect that re-filters.
- **the filter panel** (`filter_panel.dfy`):
  - the handlers that rebuild the filter record, the reset and `hasActiveFilters`;
  - the price presets and `formatDistance`;
  - the ordered summary of active filters built by `getActiveFiltersArray`, written as a method that appends entry by entry;
  - the panel's own state (expanded sections, bottom sheet), as the class `FilterPanelState`.
- **the restaurant service** (`restaurant_service.dfy`):
  - the language lookup;
  - the cuisine to Places-type mapping, a `Set` filled in a loop;
  - the type filter and the snake_case to Title Case display names;
  - the field defaults of `formatNewApiRestaurantData`;
  - the sample data;
  - the fallback choice of `searchNearby`;
  - the sorted cuisine union `getCuisineTypes`.
- **supporting modules**:
  - `sequences.dfy`: insertion-ordered de-duplication (a JavaScript `Set`) and `Array.prototype.filter`;
  - `strings.dfy`: ASCII strings, digits, lexicographic order and sorting;
  - `decimals.dfy`: how JavaScript prints an exact decimal such as `3.5` or `1.25`;
  - `wrappers.dfy`: `Option`.

Units:
- Ratings are whole tenths of a star, so 3.5 is `35`.
- Prices are whole yen and distances whole metres.
- Angles are exact `real`s.

Parameters stand in for what the code reads from outside:
- the translation function `t` is an opaque `string -> string`;
- `Math.random` is a real in `[0, 1)`;
- the distance to the user and its printed form are passed in, because they come from the location service;
- the Places API answer is a `Response` value.

Consequences of the code that the model makes explicit:
- `formatNewApiRestaurantData` never sets `priceRange`, and none of the sample restaurants has one. `applyFilters` drops a restaurant without a price range whenever a price bound is set. So choosing any price preset empties the list (`App.PriceFilterEmptiesServiceData`, `App.PriceFilterEmptiesMockData`).
- The summary of active filters is not the same test as `hasActiveFilters`. A minimum rating of 3.5 or less and a distance of 1 km or more are never listed. Price bounds that match no preset count as active but get no entry (`FilterPanel.ActiveWithEmptySummary`).
- The wheel's pointer reads the middle of the chosen segment when the previous rotation is a whole number of turns (`PrizeWheel.SpinAligned`). From other rotations it can drift: with three restaurants and index 0 drawn three times from rest, the second spin leaves the pointer on the 120° border between segments 0 and 1, and the third in the middle of segment 1 (`PrizeWheel.RepeatedSpinsDrift`). The restaurant revealed is always the one drawn; it is never read off the final angle.

The wheel has no debounce, draws the index first and aims at it, and does not reset when the restaurant list changes.

## Model

| member | source | states |
|---|---|---|
| PrizeWheel.SegmentAngle | src/components/PrizeWheel.js:26 | each of N segments spans a positive angle, and N of them make exactly 360° |
| PrizeWheel.RandomIndex | src/components/PrizeWheel.js:25 | `Math.floor(Math.random() * N)` is an index in `[0, N)` with `i <= random·N < i + 1` |
| PrizeWheel.RandomIndexInterval | src/components/PrizeWheel.js:25 | index `i` is drawn exactly when the random number lies in `[i/N, (i+1)/N)`, a share of 1/N for each restaurant |
| PrizeWheel.TargetAngle | src/components/PrizeWheel.js:26-27 | the target angle lies strictly inside segment `i`, `i·seg < a < (i+1)·seg`, and inside `(0, 360)` |
| PrizeWheel.NextRotation | src/components/PrizeWheel.js:28-29 | the new rotation exceeds the old one by more than 1800 and less than 2160 degrees |
| PrizeWheel.SegmentAt | src/components/PrizeWheel.js:55-59 | every angle in `[0, 360)` lies in a segment `i < N` with `i·seg <= a < (i+1)·seg` |
| PrizeWheel.SegmentAtUnique | src/components/PrizeWheel.js:55-59 | no other segment holds that angle |
| PrizeWheel.PointerAngle | src/components/PrizeWheel.js:101 | the wheel angle under the pointer lies in `[0, 360)`; the pointer's place at the top comes from the stylesheet |
| PrizeWheel.SpinAligned | src/components/PrizeWheel.js:27-29 | when the previous rotation is a whole number of turns, the pointer reads the target angle, which lies in segment `i` |
| PrizeWheel.RepeatedSpinsDrift | src/components/PrizeWheel.js:27-29 | with 3 restaurants and index 0 drawn three times from rest, the pointer reads the middle of segment 0, then the 120° border, then the middle of segment 1 |
| PrizeWheel.RenderWheelSegments | src/components/PrizeWheel.js:52-71 | no segments exactly when the list is empty; otherwise one per restaurant in list order, from `i·seg` to `(i+1)·seg`, colour `i mod 10`, z-index `N - i` |
| PrizeWheel.RenderedWellSpaced | src/components/PrizeWheel.js:55-59 | the drawn segments are laid out at equal spacing around the circle |
| PrizeWheel.SegmentsSpanCircle | src/components/PrizeWheel.js:58-59 | the first segment starts at 0° and the last ends at 360° |
| PrizeWheel.SegmentsContiguous | src/components/PrizeWheel.js:58-59 | each segment ends where the next one starts |
| PrizeWheel.SegmentsEqualWidth | src/components/PrizeWheel.js:55-59 | every segment is `360/N` wide |
| PrizeWheel.SegmentsPartition | src/components/PrizeWheel.js:55-59 | every angle in `[0, 360)` falls in exactly one segment, the one `SegmentAt` names |
| PrizeWheel.Wheel.constructor | src/components/PrizeWheel.js:8-10 | not spinning, nothing selected, rotation 0, no reveal pending |
| PrizeWheel.Wheel.Spin | src/components/PrizeWheel.js:19-38 | ignored while spinning or with no restaurants; otherwise spinning, selection cleared, rotation advanced by `NextRotation` and so strictly up, and the reveal of `restaurants[i]` (a member of the list) scheduled; one reveal owed per accepted spin |
| PrizeWheel.Wheel.Reveal | src/components/PrizeWheel.js:36-38 | stops spinning and selects the restaurant fixed at spin time; rotation unchanged; the reveal count catches up with the spin count |
| PrizeWheel.SpinThenReveal | src/components/PrizeWheel.js:19-38 | a spin and its reveal select `restaurants[RandomIndex(random, N)]` and leave the wheel idle, with as many reveals as spins |
| App.DefaultFilters | src/App.js:20-27 | definition; contract in `App.DefaultFiltersOnMockData`, `FilterPanel.ClearAllFilters` and `FilterPanel.DefaultHasEmptySummary` |
| App.PriceMatch | src/App.js:80-90 | definition; contract in `App.ApplyFiltersPrice` |
| App.Matches | src/App.js:75-92 | definition; contract in `App.ApplyFiltersKeeps` and `App.ApplyFiltersRatingAndOpen` |
| App.ApplyFilters | src/App.js:74-96 | definition; contract in `App.ApplyFiltersSubsequence`, `App.ApplyFiltersKeeps`, `App.ApplyFiltersCount` and `App.ApplyFiltersIdempotent` |
| App.ApplyFiltersCount | src/App.js:75-93 | each kept restaurant appears as often as in the input, and a dropped one not at all |
| App.ApplyFiltersSubsequence | src/App.js:74-95 | the filtered list is a subsequence of the restaurants, in their order, and no longer |
| App.ApplyFiltersKeeps | src/App.js:75-92 | a restaurant is kept iff it is in the list, reaches the minimum rating, is open or closed ones are allowed, and passes the price test |
| App.ApplyFiltersRatingAndOpen | src/App.js:76-78 | every kept restaurant reaches the minimum rating; with `openNow` every kept one is open; without it the open state is ignored |
| App.ApplyFiltersPrice | src/App.js:80-90 | kept restaurants with a price range lie inside the bounds; one without a range is dropped exactly when `minPrice > 0` or `maxPrice < 100000` |
| App.ApplyFiltersIdempotent | src/App.js:74-93 | filtering the filtered list again with the same filters changes nothing |
| App.PriceFilterEmptiesServiceData | src/App.js:87-90 | when no restaurant has a price range, any price bound empties the list |
| App.PriceFilterEmptiesMockData | src/App.js:87-90 | any price bound empties the sample list |
| App.DefaultFiltersOnMockData | src/App.js:20-27 | with the starting filters the sample list loses exactly its closed restaurant, `mock-5` |
| App.AppState.constructor | src/App.js:16-27 | the default filters and empty restaurant lists |
| App.AppState.HandleFilterChange | src/App.js:98-100 | the new filter record replaces the old one whole; the lists are unchanged |
| App.AppState.SetRestaurants | src/App.js:54 | the search result replaces the restaurants; the filters and filtered list are unchanged |
| App.AppState.RefreshFiltered | src/App.js:40-44 | with restaurants present, the filtered list becomes `applyFilters` of them; with none, the old filtered list stays |
| App.ReceiveRestaurants | src/App.js:40-54 | after a non-empty result arrives and the effect runs, the wheel's list is the filtered result, a subsequence of it |
| FilterPanel.HasActiveFilters | src/components/FilterPanel.js:90-95 | definition; contract in `FilterPanel.ClearedHasNoActiveFilters`, `FilterPanel.SummaryImpliesActive` and `FilterPanel.ActiveWithEmptySummary` |
| FilterPanel.PriceRanges | src/components/FilterPanel.js:60-65 | definition; contract in `FilterPanel.FindPriceRangeCases` |
| FilterPanel.ShowsPriceLabel | src/components/FilterPanel.js:117 | definition; contract in `FilterPanel.PriceLabelShownIffBand` |
| FilterPanel.FormatDistance | src/components/FilterPanel.js:78-81 | definition; contract in `FilterPanel.FormatDistanceRoundTrip` and `FilterPanel.FormatDistanceExamples` |
| FilterPanel.Summary | src/components/FilterPanel.js:97-126 | definition; contract in `FilterPanel.SummaryLabels` and `FilterPanel.GetActiveFiltersArray` |
| FilterPanel.Label | src/components/FilterPanel.js:100-123 | definition; contract in `FilterPanel.SummaryLabels` |
| FilterPanel.RatingLabel | src/components/FilterPanel.js:101 | definition; contract in `FilterPanel.RatingLabelExamples` |
| FilterPanel.DistanceLabel | src/components/FilterPanel.js:105 | definition; contract in `FilterPanel.FormatDistanceRoundTrip` |
| FilterPanel.CuisineLabel | src/components/FilterPanel.js:109-110 | definition; contract in `FilterPanel.CuisineToggleSummary` |
| FilterPanel.PriceLabel | src/components/FilterPanel.js:114-118 | definition; contract in `FilterPanel.PriceEntryIffPreset` |
| FilterPanel.HandleRatingChange | src/components/FilterPanel.js:34-36 | the minimum rating is the one chosen; every other field is unchanged |
| FilterPanel.HandleDistanceChange | src/components/FilterPanel.js:38-40 | the maximum distance is the one chosen; every other field is unchanged |
| FilterPanel.HandleCuisineToggle | src/components/FilterPanel.js:42-49 | at most one cuisine is selected; the cuisine is selected iff it was not before; a selected one clears the list; other fields are unchanged |
| FilterPanel.CuisineToggleTwice | src/components/FilterPanel.js:42-49 | from no selection, toggling a cuisine twice restores the record |
| FilterPanel.HandleOpenNowToggle | src/components/FilterPanel.js:51-53 | `openNow` flips; every other field is unchanged |
| FilterPanel.OpenNowToggleTwice | src/components/FilterPanel.js:51-53 | toggling twice restores the record |
| FilterPanel.HandlePriceRangeSelect | src/components/FilterPanel.js:55-57 | both price bounds take the chosen values; every other field is unchanged |
| FilterPanel.ClearAllFilters | src/components/FilterPanel.js:67-76 | the reset gives the app's default filter record |
| FilterPanel.ClearedHasNoActiveFilters | src/components/FilterPanel.js:90-95 | `hasActiveFilters` is false on the reset record and on every record nowhere stricter than it |
| FilterPanel.FindPriceRange | src/components/FilterPanel.js:114-116 | a preset found has exactly the given bounds and is in the list; when none is found, no preset has them |
| FilterPanel.FindPriceRangeCases | src/components/FilterPanel.js:60-65 | which of the four presets each pair of bounds finds, and none for every other pair |
| FilterPanel.PriceLabelShownIffBand | src/components/FilterPanel.js:113-119 | the price label is shown iff the bounds are exactly (1, 2000), (2000, 5000) or (5000, 99999) |
| FilterPanel.CuisineToggleSummary | src/components/FilterPanel.js:42-49 | selecting a cuisine gives the summary a cuisine entry that is exactly its translated name, with no `", "`, since one name is selected; deselecting it removes the cuisine entry |
| FilterPanel.LabelInSummary | src/components/FilterPanel.js:97-126 | the label of every active kind appears in the summary |
| FilterPanel.SummaryIsLabelsOf | src/components/FilterPanel.js:97-126 | the summary is the labels of the active entry kinds, in the order of the kinds |
| FilterPanel.SummaryLabels | src/components/FilterPanel.js:97-126 | the summary has one label per active kind, and its `i`-th label is that kind's label |
| FilterPanel.GetActiveFiltersArray | src/components/FilterPanel.js:97-126 | the array pushed entry by entry equals the summary: one label per active kind, in the order rating, distance, cuisine, price, closed |
| FilterPanel.ActiveKindsMembership | src/components/FilterPanel.js:100-123 | each entry is present iff its condition holds: rating above 3.5, distance under 1 km, some cuisine, a price preset label, closed places allowed |
| FilterPanel.ActiveKindsOrdered | src/components/FilterPanel.js:97-125 | at most five entries, in strictly increasing order rating, distance, cuisine, price, closed |
| FilterPanel.PriceEntryIffPreset | src/components/FilterPanel.js:113-119 | the summary has a price entry iff the bounds equal one of the three non-"all" presets |
| FilterPanel.DefaultHasEmptySummary | src/components/FilterPanel.js:90-126 | on the default or reset record the summary is empty and `hasActiveFilters` is false |
| FilterPanel.SummaryImpliesActive | src/components/FilterPanel.js:90-126 | a non-empty summary array implies `hasActiveFilters` |
| FilterPanel.ActiveWithEmptySummary | src/components/FilterPanel.js:90-119 | a maximum price of 3000 is an active filter but gets no summary entry |
| FilterPanel.RatingLabelExamples | src/components/FilterPanel.js:100-102 | 4.5 stars is labelled `Rating ≥ 4.5★` and 4 stars `Rating ≥ 4★` |
| FilterPanel.FormatDistanceRoundTrip | src/components/FilterPanel.js:78-81 | every label `formatDistance` prints reads back as the same number of metres, so no two distances share a label |
| FilterPanel.FormatDistanceExamples | src/components/FilterPanel.js:78-81 | 500 prints `500m`, 1000 `1km`, 1500 `1.5km`, 2000 `2km`, 5000 `5km` |
| FilterPanel.ToggledSections | src/components/FilterPanel.js:83-88 | the toggled section flips, with a missing entry counting as collapsed; every other section keeps its value |
| FilterPanel.ToggleSectionTwice | src/components/FilterPanel.js:83-88 | toggling a section twice restores the sections |
| FilterPanel.FilterPanelState.constructor | src/components/FilterPanel.js:7-14 | all sections expanded except cuisine; the bottom sheet closed |
| FilterPanel.FilterPanelState.ToggleSection | src/components/FilterPanel.js:83-88 | the sections become `ToggledSections` of the old ones; the sheet is unchanged |
| FilterPanel.FilterPanelState.OpenBottomSheet | src/components/FilterPanel.js:135 | the sheet opens; the sections are unchanged |
| FilterPanel.FilterPanelState.CloseBottomSheet | src/components/FilterPanel.js:307-313 | the sheet closes; the sections are unchanged |
| RestaurantService.LookupTypes | src/services/RestaurantService.js:53-54 | definition; contract in `RestaurantService.KnownTypesMembership` |
| RestaurantService.KnownTypes | src/services/RestaurantService.js:52-57 | definition; contract in `RestaurantService.KnownTypesMembership` and `RestaurantService.KnownTypesEmpty` |
| RestaurantService.PlacesTypesFor | src/services/RestaurantService.js:46-60 | definition; contract in `RestaurantService.PlacesTypesForShape`, `PlacesTypesForUnknown`, `PlacesTypesForKnown` and `PlacesTypesForOrder` |
| RestaurantService.KeepType | src/services/RestaurantService.js:140-175 | definition; contract in `RestaurantService.KeepTypeIffNotExcluded` |
| RestaurantService.ExtractCuisineTypes | src/services/RestaurantService.js:123-186 | definition; contract in `RestaurantService.ExtractCuisineTypesKeeps` |
| RestaurantService.DisplayBase | src/services/RestaurantService.js:179-181 | definition; contract in `RestaurantService.DisplayNameAt` and `RestaurantService.DisplayBaseExample` |
| RestaurantService.DisplayName | src/services/RestaurantService.js:177-185 | definition; contract in `RestaurantService.DisplayNameAt` and `RestaurantService.DisplayNameExample` |
| RestaurantService.AllCuisines | src/services/RestaurantService.js:363-365 | definition; contract in `RestaurantService.AllCuisinesMembership` |
| RestaurantService.GetGoogleMapsLanguage | src/services/RestaurantService.js:7-15 | `en` to `en`, `ja` to `ja`, `zh` to `zh-CN`, anything else to `en` |
| RestaurantService.KnownTypesMembership | src/services/RestaurantService.js:52-57 | the collected types are exactly the table images of the lower-cased selected cuisines |
| RestaurantService.KnownTypesEmpty | src/services/RestaurantService.js:52-57 | nothing is collected iff no selected cuisine is in the table |
| RestaurantService.PlacesTypesForShape | src/services/RestaurantService.js:46-60 | the result is never empty and has no duplicates; a missing or empty selection gives `restaurant`, `meal_delivery`, `meal_takeaway` |
| RestaurantService.PlacesTypesForUnknown | src/services/RestaurantService.js:59-60 | a selection with no cuisine in the table gives `["restaurant"]` |
| RestaurantService.PlacesTypesForKnown | src/services/RestaurantService.js:51-60 | otherwise a type is requested iff it is the table image of some selected cuisine |
| RestaurantService.PlacesTypesForOrder | src/services/RestaurantService.js:51-60 | the requested types keep the order in which they were first collected |
| RestaurantService.MapCuisineTypesToGooglePlacesTypes | src/services/RestaurantService.js:17-61 | the `Set` filled by the two `forEach` loops yields `PlacesTypesFor` of the selection: non-empty and duplicate-free |
| RestaurantService.KeepTypeIffNotExcluded | src/services/RestaurantService.js:140-175 | the filter callback keeps a type iff it is not on the exclude list, because neither allow-list meets it |
| RestaurantService.AllowListsNotExcluded | src/services/RestaurantService.js:125-172 | no cuisine type and no general food type is on the exclude list |
| RestaurantService.DisplayNames | src/services/RestaurantService.js:177-185 | one display name per kept type, in order |
| RestaurantService.ExtractCuisineTypesKeeps | src/services/RestaurantService.js:140-185 | the kept types are a subsequence of the input; a type survives iff it is not excluded; one display name per survivor, in order, none more than the input |
| RestaurantService.DisplayNameAt | src/services/RestaurantService.js:177-185 | the name drops a trailing `_restaurant` (11 characters), has no `_`, and upper-cases exactly the first letter and each letter after a space |
| RestaurantService.DisplayBaseExample | src/services/RestaurantService.js:179-181 | `fast_food_restaurant` becomes `fast food` before capitalising |
| RestaurantService.DisplayNameExample | src/services/RestaurantService.js:177-185 | `fast_food_restaurant` is displayed as `Fast Food` |
| RestaurantService.FormatNewApiRestaurantData | src/services/RestaurantService.js:219-248 | id and location copied; name `Unknown Restaurant`, rating 0, price level 0, address `""`, no cuisines when the field is missing or empty; open when `currentOpeningHours` is missing, otherwise open exactly when its `openNow` is `true`, so hours without `openNow` give a closed restaurant; a photo URL iff there is a photo; never a price range |
| RestaurantService.GetMockRestaurants | src/services/RestaurantService.js:250-359 | eight sample restaurants with distinct ids, none with a price range or photo |
| RestaurantService.SearchNearby | src/services/RestaurantService.js:63-121 | no request without an API key; otherwise a request for the mapped types, language, radius, 20 results by distance; the sample data when there is no key or the answer is an error or has no places, else each place formatted in order |
| RestaurantService.AllCuisinesMembership | src/services/RestaurantService.js:363-365 | the collected cuisines are exactly those of some restaurant |
| RestaurantService.SortedCuisines | src/services/RestaurantService.js:366 | the sorted list has no duplicates and the same members as the `Set` |
| RestaurantService.GetCuisineTypes | src/services/RestaurantService.js:361-367 | sorted, duplicate-free, and holding exactly the cuisines of some restaurant |
| Sequences.Dedup | src/services/RestaurantService.js:51-60 | the `Set` contents in insertion order: duplicate-free, every value in the input, every input value present |
| Sequences.DedupMembership | src/services/RestaurantService.js:51-60 | a value is in the `Set` iff it was added |
| Sequences.DedupFirstOccurrenceOrder | src/services/RestaurantService.js:51-60 | `Array.from(set)` lists the values in the order of their first `add` |
| Sequences.AddAll | src/services/RestaurantService.js:55 | adding values one by one to the `Set` gives `Dedup` of everything added so far |
| Sequences.FilterIsSubsequence | src/App.js:75 | `filter` keeps a subsequence of its input |
| Sequences.FilterMembership | src/App.js:75 | `filter` keeps exactly the input elements that pass |
| Sequences.FilterMultiset | src/App.js:75 | `filter` keeps each passing value as many times as it occurs, and no other |
| Sequences.FilterIdempotent | src/App.js:75 | filtering twice with one test equals filtering once |
| Strings.Split | src/services/RestaurantService.js:182 | no piece contains the separator and there is at least one piece; joined back in `Strings.JoinSplit` |
| Strings.Join | src/services/RestaurantService.js:184 | definition; contract in `Strings.JoinSplit` |
| Strings.CapitalizeWords | src/services/RestaurantService.js:182-184 | definition; contract in `Strings.CapitalizeWordsAt` |
| Strings.ToLower | src/services/RestaurantService.js:53 | `toLowerCase` on ASCII: same length, each letter lowered |
| Strings.StripSuffix | src/services/RestaurantService.js:180 | one trailing suffix is dropped when present; otherwise the text is unchanged |
| Strings.ReplaceChar | src/services/RestaurantService.js:181 | every `_` becomes a space and nothing else changes |
| Strings.JoinSplit | src/services/RestaurantService.js:182-184 | splitting on a character and joining with it gives back the text |
| Strings.CapitalizeWordsAt | src/services/RestaurantService.js:183-184 | capitalising each word upper-cases exactly the first character and each one after a space |
| Strings.SortStrings | src/services/RestaurantService.js:366 | `sort` gives a sorted permutation of its input |
| Decimals.DecimalTextRoundTrip | src/components/FilterPanel.js:80 | a number printed as `meters / 1000` reads back as the same value |
| Decimals.DecimalTextInjective | src/components/FilterPanel.js:80 | two values that print alike are equal |
| Decimals.DecimalTextWhole | src/components/FilterPanel.js:80 | a whole number of kilometres prints with no fractional part |

## Left out

- Geolocation, the haversine distance, `calculateDistance` and `LocationService.formatDistance`: the distance and its printed form are parameters of `FormatNewApiRestaurantData` and `SearchNearby`.
- The `fetch` call, HTTP status handling and JSON decoding in `searchNearby`: the answer is the `Response` value given to `SearchNearby`. A thrown error is `Thrown` and a failed status is `HttpError`; both lead to the sample data. The API key is a parameter, not read from the environment.
- `formatRestaurantData`, the legacy formatter: it calls foreign Google Maps methods and nothing calls it.
- Sound (`SoundManager`), all JSX rendering, CSS transitions, `ErrorFallback` and `LanguageSelector`.
- The timing of the reveal (`setTimeout`, 3000 ms): it is the explicit method `Wheel.Reveal`. The `useEffect` scheduling, `initializeApp`, and the `loading` and `error` state are also left out. `Wheel.Reveal` shows the restaurant captured at spin time even if the list has changed since, as the closure does.
- `PrizeWheel.Wheel.Spin`: takes the random number as a parameter. It does not model floating-point rounding of `Math.random() * N`; angles are exact reals.
- `PrizeWheel.PointerAngle`: the pointer position at the top of the wheel comes from the stylesheet, which is not part of this model. The model assumes the pointer reads angle `(-rotation) mod 360` of the wheel.
- `Strings.ToLower`: ASCII only; JavaScript's full Unicode case mapping is not modelled.
- `Strings.SortStrings`: orders by code point, which matches JavaScript's UTF-16 order on the ASCII names used here.
- `FilterPanel.RatingLabelExamples`, `Decimals.DecimalTextRoundTrip`: JavaScript prints numbers as binary floating point. The model assumes tenths of a star and thousandths of a kilometre print as the exact decimal, as they do for the values the panel offers.
- `RestaurantService.FormatNewApiRestaurantData`: when `currentOpeningHours` is present without `openNow`, the code stores `undefined` in `isOpen`. The model stores `false`, which is how `applyFilters` treats `undefined` (src/App.js:78).
- The `priceLevel` field is kept as a number; the Places API sends an enumeration string, which the code copies through unchanged.
- `RestaurantService.GetGoogleMapsLanguage`: the JavaScript lookup also finds keys inherited from `Object.prototype`, so a code such as `toString` returns a function. The model treats such codes like any unknown code and returns `en`. The cuisine table lookup has the same quirk; there a name such as `constructor` makes `forEach` throw. The model treats such a name as not in the table.
