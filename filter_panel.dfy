/**
 * The filter panel: the handlers that rebuild the filter record with one
 * field changed, the reset, the "are any filters active" test, the ordered
 * summary of active filters, the distance labels, and the panel's own state
 * (which sections are expanded, whether the mobile sheet is open).
 *
 * The translation function `t` is a parameter of type `string -> string`.
 */
module FilterPanel {
  import opened Wrappers
  import opened Strings
  import opened Sequences
  import opened Decimals
  import opened App

  // ---------------------------------------------------------------------------
  // Handlers
  // ---------------------------------------------------------------------------

  /** `handleRatingChange`: only the minimum rating changes. */
  function HandleRatingChange(f: Filters, rating: nat): (g: Filters)
    ensures g.minRating == rating
    ensures g.(minRating := f.minRating) == f
  {
    f.(minRating := rating)
  }

  /** `handleDistanceChange`: only the maximum distance changes. */
  function HandleDistanceChange(f: Filters, distance: nat): (g: Filters)
    ensures g.maxDistance == distance
    ensures g.(maxDistance := f.maxDistance) == f
  {
    f.(maxDistance := distance)
  }

  /**
   * `handleCuisineToggle`: one cuisine at most is selected. Choosing the
   * selected cuisine clears the selection; choosing another replaces it.
   */
  function HandleCuisineToggle(f: Filters, cuisine: string): (g: Filters)
    ensures |g.cuisineTypes| <= 1
    ensures cuisine in g.cuisineTypes <==> cuisine !in f.cuisineTypes
    ensures cuisine in f.cuisineTypes ==> g.cuisineTypes == []
    ensures g.(cuisineTypes := f.cuisineTypes) == f
  {
    var updatedCuisines := if cuisine in f.cuisineTypes then [] else [cuisine];
    f.(cuisineTypes := updatedCuisines)
  }

  /** Choosing the same cuisine twice, starting from no selection, leaves no selection. */
  lemma {:induction false} CuisineToggleTwice(f: Filters, cuisine: string)
    requires f.cuisineTypes == []
    ensures HandleCuisineToggle(HandleCuisineToggle(f, cuisine), cuisine) == f
  {
  }

  /** `handleOpenNowToggle`: only `openNow` changes, to its negation. */
  function HandleOpenNowToggle(f: Filters): (g: Filters)
    ensures g.openNow == !f.openNow
    ensures g.(openNow := f.openNow) == f
  {
    f.(openNow := !f.openNow)
  }

  /** Toggling `openNow` twice restores the record. */
  lemma {:induction false} OpenNowToggleTwice(f: Filters)
    ensures HandleOpenNowToggle(HandleOpenNowToggle(f)) == f
  {
  }

  /** `handlePriceRangeSelect`: both price bounds change together, nothing else. */
  function HandlePriceRangeSelect(f: Filters, minPrice: int, maxPrice: int): (g: Filters)
    ensures g.minPrice == minPrice && g.maxPrice == maxPrice
    ensures g.(minPrice := f.minPrice, maxPrice := f.maxPrice) == f
  {
    f.(minPrice := minPrice, maxPrice := maxPrice)
  }

  /** `clearAllFilters`: the record the panel resets to is the app's starting record. */
  function ClearAllFilters(): (g: Filters)
    ensures g == DefaultFilters
  {
    Filters(35, 1000, [], true, 0, 100000)
  }

  /**
   * `hasActiveFilters`: some filter is stricter than the starting one. A
   * rating below 3.5 or a distance beyond 1 km does not count.
   */
  predicate HasActiveFilters(f: Filters) {
    f.minRating > 35 ||
    f.maxDistance < 1000 ||
    |f.cuisineTypes| > 0 ||
    f.openNow != true ||
    f.minPrice > 0 ||
    f.maxPrice < 100000
  }

  /** The reset record has no active filter; nor does any record that is nowhere stricter. */
  lemma {:induction false} ClearedHasNoActiveFilters(f: Filters)
    ensures !HasActiveFilters(ClearAllFilters())
    ensures (f.minRating <= 35 && f.maxDistance >= 1000 && f.cuisineTypes == [] && f.openNow &&
             f.minPrice <= 0 && f.maxPrice >= NoPriceLimit) ==> !HasActiveFilters(f)
  {
  }

  // ---------------------------------------------------------------------------
  // Price presets
  // ---------------------------------------------------------------------------

  /** One price preset: its bounds and its label. */
  datatype PriceRangeOption = PriceRangeOption(min: int, max: int, labelText: string)

  /** `priceRanges`: "all prices" first, then three yen bands. */
  function PriceRanges(t: string -> string): seq<PriceRangeOption> {
    [
      PriceRangeOption(0, 100000, t("priceRanges.all")),
      PriceRangeOption(1, 2000, "¥1 - 2,000"),
      PriceRangeOption(2000, 5000, "¥2,000 - 5,000"),
      PriceRangeOption(5000, 99999, "¥5,000+")
    ]
  }

  /** `Array.prototype.find`: the first preset with exactly these bounds. */
  function FindPriceRange(ranges: seq<PriceRangeOption>, minPrice: int, maxPrice: int): (r: Option<PriceRangeOption>)
    ensures r.Some? ==> r.value in ranges && r.value.min == minPrice && r.value.max == maxPrice
    ensures r.None? ==> forall p :: p in ranges ==> !(p.min == minPrice && p.max == maxPrice)
  {
    if ranges == [] then None
    else if ranges[0].min == minPrice && ranges[0].max == maxPrice then Some(ranges[0])
    else FindPriceRange(ranges[1..], minPrice, maxPrice)
  }

  /**
   * The condition under which the summary shows a price label, as written:
   * `m && m.min > 0 || m?.max < 100000`. With no match, `undefined < 100000`
   * is false.
   */
  predicate ShowsPriceLabel(m: Option<PriceRangeOption>) {
    (m.Some? && m.value.min > 0) || (m.Some? && m.value.max < 100000)
  }

  // ---------------------------------------------------------------------------
  // The active-filter summary
  // ---------------------------------------------------------------------------

  /** The kinds of summary entry. */
  datatype ActiveKind = RatingEntry | DistanceEntry | CuisineEntry | PriceEntry | ClosedEntry

  /** Every kind, in the order the summary lists them. */
  const AllKinds: seq<ActiveKind> := [RatingEntry, DistanceEntry, CuisineEntry, PriceEntry, ClosedEntry]

  function Rank(k: ActiveKind): int {
    match k
    case RatingEntry => 0
    case DistanceEntry => 1
    case CuisineEntry => 2
    case PriceEntry => 3
    case ClosedEntry => 4
  }

  /** Whether the summary shows a price label for these bounds. */
  predicate PriceLabelShown(minPrice: int, maxPrice: int, t: string -> string) {
    ShowsPriceLabel(FindPriceRange(PriceRanges(t), minPrice, maxPrice))
  }

  /** The preset `find` returns for each pair of bounds. */
  lemma {:induction false} FindPriceRangeCases(minPrice: int, maxPrice: int, t: string -> string)
    ensures var m := FindPriceRange(PriceRanges(t), minPrice, maxPrice);
      if minPrice == 0 && maxPrice == 100000 then m == Some(PriceRangeOption(0, 100000, t("priceRanges.all")))
      else if minPrice == 1 && maxPrice == 2000 then m == Some(PriceRangeOption(1, 2000, "¥1 - 2,000"))
      else if minPrice == 2000 && maxPrice == 5000 then m == Some(PriceRangeOption(2000, 5000, "¥2,000 - 5,000"))
      else if minPrice == 5000 && maxPrice == 99999 then m == Some(PriceRangeOption(5000, 99999, "¥5,000+"))
      else m == None
  {
    var r0 := PriceRanges(t);
    var r1 := r0[1..];
    var r2 := r1[1..];
    var r3 := r2[1..];
    assert r3[1..] == [];
  }

  /**
   * The price label is shown exactly when the bounds are one of the three
   * yen bands; "all prices" and bounds that match no preset show nothing.
   */
  lemma {:induction false} PriceLabelShownIffBand(minPrice: int, maxPrice: int, t: string -> string)
    ensures PriceLabelShown(minPrice, maxPrice, t) <==>
      (minPrice, maxPrice) in [(1, 2000), (2000, 5000), (5000, 99999)]
  {
    FindPriceRangeCases(minPrice, maxPrice, t);
  }

  /**
   * Whether the summary lists an entry of kind `k` for `f`; `priceShown` is
   * the outcome of the price test, which needs the translated presets.
   */
  predicate IsActive(k: ActiveKind, f: Filters, priceShown: bool) {
    match k
    case RatingEntry => f.minRating > 35
    case DistanceEntry => f.maxDistance < 1000
    case CuisineEntry => |f.cuisineTypes| > 0
    case PriceEntry => priceShown
    case ClosedEntry => !f.openNow
  }

  /** The active ones of `kinds`, in their order. */
  function ActiveOf(kinds: seq<ActiveKind>, f: Filters, priceShown: bool): seq<ActiveKind> {
    Filter(k => IsActive(k, f, priceShown), kinds)
  }

  /** The entries the summary lists for `f`, in order. */
  function ActiveKinds(f: Filters, t: string -> string): seq<ActiveKind> {
    ActiveOf(AllKinds, f, PriceLabelShown(f.minPrice, f.maxPrice, t))
  }

  /** `formatDistance`: metres below 1000, else kilometres as JavaScript prints `meters / 1000`. */
  function FormatDistance(meters: nat): string {
    if meters < 1000 then NatToString(meters) + "m" else DecimalText(meters, 3) + "km"
  }

  /** The translated names of the selected cuisines. */
  function CuisineLabels(cuisines: seq<string>, t: string -> string): (labels: seq<string>)
    ensures |labels| == |cuisines|
    ensures forall i :: 0 <= i < |cuisines| ==> labels[i] == t("cuisineTypes." + cuisines[i])
  {
    seq(|cuisines|, i requires 0 <= i < |cuisines| => t("cuisineTypes." + cuisines[i]))
  }

  /** The rating entry: the minimum rating as JavaScript prints the number, between `≥` and a star. */
  function RatingLabel(minRating: nat): string {
    "Rating ≥ " + DecimalText(minRating, 1) + "★"
  }

  /** The distance entry. */
  function DistanceLabel(maxDistance: nat): string {
    "≤ " + FormatDistance(maxDistance)
  }

  /** The cuisine entry: the translated names joined with commas. */
  function CuisineLabel(cuisines: seq<string>, t: string -> string): string {
    Join(CuisineLabels(cuisines, t), ", ")
  }

  /** The price entry: the label of the preset the bounds match, if any. */
  function PriceLabel(minPrice: int, maxPrice: int, t: string -> string): string {
    match FindPriceRange(PriceRanges(t), minPrice, maxPrice)
    case Some(range) => range.labelText
    case None => ""
  }

  /** The text of one summary entry. */
  function Label(k: ActiveKind, f: Filters, t: string -> string): string {
    match k
    case RatingEntry => RatingLabel(f.minRating)
    case DistanceEntry => DistanceLabel(f.maxDistance)
    case CuisineEntry => CuisineLabel(f.cuisineTypes, t)
    case PriceEntry => PriceLabel(f.minPrice, f.maxPrice, t)
    case ClosedEntry => t("filters.includeClosed")
  }

  /** `[k]` when `b` holds, else nothing. */
  function When(b: bool, k: ActiveKind): seq<ActiveKind> {
    if b then [k] else []
  }

  /** The summary kinds spelled out: each kind whose filter is active, in the order of `AllKinds`. */
  lemma {:induction false} ActiveOfExplicit(f: Filters, priceShown: bool)
    ensures ActiveOf(AllKinds, f, priceShown) ==
      When(f.minRating > 35, RatingEntry) + When(f.maxDistance < 1000, DistanceEntry) +
      When(|f.cuisineTypes| > 0, CuisineEntry) + When(priceShown, PriceEntry) + When(!f.openNow, ClosedEntry)
  {
    var keep := k => IsActive(k, f, priceShown);
    var s := AllKinds;
    var k1, k2, k3, k4, k5 := When(f.minRating > 35, RatingEntry), When(f.maxDistance < 1000, DistanceEntry),
      When(|f.cuisineTypes| > 0, CuisineEntry), When(priceShown, PriceEntry), When(!f.openNow, ClosedEntry);
    assert Filter(keep, s[1..][1..][1..][1..][1..]) == [];
    assert Filter(keep, s[1..][1..][1..][1..]) == k5;
    assert Filter(keep, s[1..][1..][1..]) == k4 + k5;
    assert Filter(keep, s) == k1 + (k2 + (k3 + (k4 + k5)));
    ConcatRegroup(k1, k2, k3, k4, k5);
  }

  /** The texts of `kinds`, in order. */
  function LabelsOf(kinds: seq<ActiveKind>, f: Filters, t: string -> string): (labels: seq<string>)
    ensures |labels| == |kinds|
  {
    if kinds == [] then [] else LabelsOf(kinds[..|kinds| - 1], f, t) + [Label(kinds[|kinds| - 1], f, t)]
  }

  /** Each text is the label of the kind at the same position. */
  lemma {:induction false} LabelsOfAt(kinds: seq<ActiveKind>, f: Filters, t: string -> string)
    ensures forall i :: 0 <= i < |kinds| ==> LabelsOf(kinds, f, t)[i] == Label(kinds[i], f, t)
  {
    if kinds != [] {
      LabelsOfAt(kinds[..|kinds| - 1], f, t);
    }
  }

  lemma {:induction false} LabelsOfAppend(a: seq<ActiveKind>, b: seq<ActiveKind>, f: Filters, t: string -> string)
    ensures LabelsOf(a + b, f, t) == LabelsOf(a, f, t) + LabelsOf(b, f, t)
  {
    if b != [] {
      var front := b[..|b| - 1];
      assert (a + b)[..|a + b| - 1] == a + front;
      LabelsOfAppend(a, front, f, t);
    } else {
      assert a + b == a;
    }
  }

  /** `[text]` when `shown` holds, else nothing. */
  function Entry(shown: bool, text: string): seq<string> {
    if shown then [text] else []
  }

  lemma {:induction false} LabelsOfWhen(b: bool, k: ActiveKind, f: Filters, t: string -> string)
    ensures LabelsOf(When(b, k), f, t) == Entry(b, Label(k, f, t))
  {
    if b {
      assert When(b, k)[..0] == [];
    }
  }

  /** The label of each kind, one by one. */
  lemma {:induction false} LabelCases(f: Filters, t: string -> string)
    ensures Label(RatingEntry, f, t) == RatingLabel(f.minRating)
    ensures Label(DistanceEntry, f, t) == DistanceLabel(f.maxDistance)
    ensures Label(CuisineEntry, f, t) == CuisineLabel(f.cuisineTypes, t)
    ensures Label(PriceEntry, f, t) == PriceLabel(f.minPrice, f.maxPrice, t)
    ensures Label(ClosedEntry, f, t) == t("filters.includeClosed")
  {
  }

  /** The texts the summary lists for `f`: one per active filter, in the order of `AllKinds`. */
  function Summary(f: Filters, t: string -> string): seq<string> {
    Entry(f.minRating > 35, RatingLabel(f.minRating)) +
    Entry(f.maxDistance < 1000, DistanceLabel(f.maxDistance)) +
    Entry(|f.cuisineTypes| > 0, CuisineLabel(f.cuisineTypes, t)) +
    Entry(PriceLabelShown(f.minPrice, f.maxPrice, t), PriceLabel(f.minPrice, f.maxPrice, t)) +
    Entry(!f.openNow, t("filters.includeClosed"))
  }

  /** The labels of the active kinds, kind by kind. */
  lemma {:induction false} LabelsOfActiveByKind(f: Filters, priceShown: bool, t: string -> string)
    ensures LabelsOf(ActiveOf(AllKinds, f, priceShown), f, t) ==
      LabelsOf(When(f.minRating > 35, RatingEntry), f, t) + LabelsOf(When(f.maxDistance < 1000, DistanceEntry), f, t) +
      LabelsOf(When(|f.cuisineTypes| > 0, CuisineEntry), f, t) + LabelsOf(When(priceShown, PriceEntry), f, t) +
      LabelsOf(When(!f.openNow, ClosedEntry), f, t)
  {
    var k1, k2, k3, k4, k5 := When(f.minRating > 35, RatingEntry), When(f.maxDistance < 1000, DistanceEntry),
      When(|f.cuisineTypes| > 0, CuisineEntry), When(priceShown, PriceEntry), When(!f.openNow, ClosedEntry);
    LabelsOfAppend(k1, k2, f, t);
    LabelsOfAppend(k1 + k2, k3, f, t);
    LabelsOfAppend(k1 + k2 + k3, k4, f, t);
    LabelsOfAppend(k1 + k2 + k3 + k4, k5, f, t);
    ActiveOfExplicit(f, priceShown);
  }

  /** The summary is the labels of the active kinds. */
  lemma {:induction false} SummaryIsLabelsOf(f: Filters, t: string -> string)
    ensures Summary(f, t) == LabelsOf(ActiveKinds(f, t), f, t)
  {
    var priceShown := PriceLabelShown(f.minPrice, f.maxPrice, t);
    LabelsOfWhen(f.minRating > 35, RatingEntry, f, t);
    LabelsOfWhen(f.maxDistance < 1000, DistanceEntry, f, t);
    LabelsOfWhen(|f.cuisineTypes| > 0, CuisineEntry, f, t);
    LabelsOfWhen(priceShown, PriceEntry, f, t);
    LabelsOfWhen(!f.openNow, ClosedEntry, f, t);
    var e1, e2, e3, e4, e5 :=
      LabelsOf(When(f.minRating > 35, RatingEntry), f, t), LabelsOf(When(f.maxDistance < 1000, DistanceEntry), f, t),
      LabelsOf(When(|f.cuisineTypes| > 0, CuisineEntry), f, t), LabelsOf(When(priceShown, PriceEntry), f, t),
      LabelsOf(When(!f.openNow, ClosedEntry), f, t);
    LabelCases(f, t);
    assert Summary(f, t) == e1 + e2 + e3 + e4 + e5;
    LabelsOfActiveByKind(f, priceShown, t);
  }

  /** The summary holds the label of each active kind, in the order `ActiveKinds` lists them. */
  lemma {:induction false} SummaryLabels(f: Filters, t: string -> string)
    ensures |Summary(f, t)| == |ActiveKinds(f, t)|
    ensures forall i :: 0 <= i < |Summary(f, t)| ==> Summary(f, t)[i] == Label(ActiveKinds(f, t)[i], f, t)
  {
    SummaryIsLabelsOf(f, t);
    LabelsOfAt(ActiveKinds(f, t), f, t);
  }

  /**
   * Selecting a cuisine gives the summary a cuisine entry that is exactly its
   * translated name, with no separator, since the selection holds one name;
   * deselecting it removes the cuisine entry.
   */
  lemma {:induction false} CuisineToggleSummary(f: Filters, cuisine: string, t: string -> string)
    ensures CuisineEntry in ActiveKinds(HandleCuisineToggle(f, cuisine), t) <==> cuisine !in f.cuisineTypes
    ensures cuisine !in f.cuisineTypes ==>
      Label(CuisineEntry, HandleCuisineToggle(f, cuisine), t) == t("cuisineTypes." + cuisine) &&
      t("cuisineTypes." + cuisine) in Summary(HandleCuisineToggle(f, cuisine), t)
  {
    var g := HandleCuisineToggle(f, cuisine);
    ActiveKindsMembership(g, t);
    if cuisine !in f.cuisineTypes {
      assert g.cuisineTypes == [cuisine];
      SingleCuisineLabel(cuisine, t);
      LabelInSummary(g, t, CuisineEntry);
    }
  }

  /** One selected cuisine is labelled by its translated name alone. */
  lemma {:induction false} SingleCuisineLabel(cuisine: string, t: string -> string)
    ensures CuisineLabel([cuisine], t) == t("cuisineTypes." + cuisine)
  {
    assert CuisineLabels([cuisine], t) == [t("cuisineTypes." + cuisine)];
  }

  /** The label of every active kind appears in the summary. */
  lemma {:induction false} LabelInSummary(f: Filters, t: string -> string, k: ActiveKind)
    requires k in ActiveKinds(f, t)
    ensures Label(k, f, t) in Summary(f, t)
  {
    SummaryLabels(f, t);
    var i :| 0 <= i < |ActiveKinds(f, t)| && ActiveKinds(f, t)[i] == k;
    assert Summary(f, t)[i] == Label(k, f, t);
  }

  /**
   * `getActiveFiltersArray`: pushes one entry per active filter, in the
   * order rating, distance, cuisine, price, closed.
   */
  method GetActiveFiltersArray(f: Filters, t: string -> string) returns (activeFilters: seq<string>)
    ensures activeFilters == Summary(f, t)
    ensures |activeFilters| == |ActiveKinds(f, t)|
    ensures forall i :: 0 <= i < |activeFilters| ==> activeFilters[i] == Label(ActiveKinds(f, t)[i], f, t)
  {
    activeFilters := [];
    if f.minRating > 35 {
      activeFilters := activeFilters + ["Rating ≥ " + DecimalText(f.minRating, 1) + "★"];
    }
    assert activeFilters == Entry(f.minRating > 35, RatingLabel(f.minRating));
    ghost var before := activeFilters;
    if f.maxDistance < 1000 {
      activeFilters := activeFilters + ["≤ " + FormatDistance(f.maxDistance)];
    }
    assert activeFilters == before + Entry(f.maxDistance < 1000, DistanceLabel(f.maxDistance));
    before := activeFilters;
    if |f.cuisineTypes| > 0 {
      var cuisineLabels := CuisineLabels(f.cuisineTypes, t);
      activeFilters := activeFilters + [Join(cuisineLabels, ", ")];
    }
    assert activeFilters == before + Entry(|f.cuisineTypes| > 0, CuisineLabel(f.cuisineTypes, t));
    before := activeFilters;
    var matchingPriceRange := FindPriceRange(PriceRanges(t), f.minPrice, f.maxPrice);
    if ShowsPriceLabel(matchingPriceRange) {
      activeFilters := activeFilters + [matchingPriceRange.value.labelText];
    }
    assert activeFilters == before + Entry(PriceLabelShown(f.minPrice, f.maxPrice, t), PriceLabel(f.minPrice, f.maxPrice, t));
    before := activeFilters;
    if !f.openNow {
      activeFilters := activeFilters + [t("filters.includeClosed")];
    }
    assert activeFilters == before + Entry(!f.openNow, t("filters.includeClosed"));
    SummaryLabels(f, t);
  }

  /** An entry of `AllKinds` is kept exactly when its filter is active. */
  lemma {:induction false} ActiveOfMembership(f: Filters, priceShown: bool)
    ensures RatingEntry in ActiveOf(AllKinds, f, priceShown) <==> f.minRating > 35
    ensures DistanceEntry in ActiveOf(AllKinds, f, priceShown) <==> f.maxDistance < 1000
    ensures CuisineEntry in ActiveOf(AllKinds, f, priceShown) <==> |f.cuisineTypes| > 0
    ensures PriceEntry in ActiveOf(AllKinds, f, priceShown) <==> priceShown
    ensures ClosedEntry in ActiveOf(AllKinds, f, priceShown) <==> !f.openNow
  {
    FilterMembership(k => IsActive(k, f, priceShown), AllKinds);
  }

  /** An entry is listed exactly when its filter is active. */
  lemma {:induction false} ActiveKindsMembership(f: Filters, t: string -> string)
    ensures RatingEntry in ActiveKinds(f, t) <==> f.minRating > 35
    ensures DistanceEntry in ActiveKinds(f, t) <==> f.maxDistance < 1000
    ensures CuisineEntry in ActiveKinds(f, t) <==> |f.cuisineTypes| > 0
    ensures PriceEntry in ActiveKinds(f, t) <==> PriceLabelShown(f.minPrice, f.maxPrice, t)
    ensures ClosedEntry in ActiveKinds(f, t) <==> !f.openNow
  {
    ActiveOfMembership(f, PriceLabelShown(f.minPrice, f.maxPrice, t));
  }

  /** The kept kinds keep the order of `AllKinds`. */
  lemma {:induction false} ActiveOfOrdered(f: Filters, priceShown: bool)
    ensures |ActiveOf(AllKinds, f, priceShown)| <= 5
    ensures forall i, j :: 0 <= i < j < |ActiveOf(AllKinds, f, priceShown)| ==>
      Rank(ActiveOf(AllKinds, f, priceShown)[i]) < Rank(ActiveOf(AllKinds, f, priceShown)[j])
  {
    FilterKeepsRankOrder(k => IsActive(k, f, priceShown), AllKinds, Rank);
  }

  /** The summary lists at most five entries, each kind at most once, in the fixed order. */
  lemma {:induction false} ActiveKindsOrdered(f: Filters, t: string -> string)
    ensures |ActiveKinds(f, t)| <= 5
    ensures forall i, j :: 0 <= i < j < |ActiveKinds(f, t)| ==> Rank(ActiveKinds(f, t)[i]) < Rank(ActiveKinds(f, t)[j])
  {
    var kinds := ActiveKinds(f, t);
    ActiveOfOrdered(f, PriceLabelShown(f.minPrice, f.maxPrice, t));
    assert forall i, j :: 0 <= i < j < |kinds| ==> Rank(kinds[i]) < Rank(kinds[j]);
  }

  /**
   * The price entry is listed exactly when the bounds are one of the three
   * yen bands; "all prices" and bounds that match no preset list nothing.
   */
  lemma {:induction false} PriceEntryIffPreset(f: Filters, t: string -> string)
    ensures PriceEntry in ActiveKinds(f, t) <==>
      (f.minPrice, f.maxPrice) in [(1, 2000), (2000, 5000), (5000, 99999)]
  {
    ActiveKindsMembership(f, t);
    PriceLabelShownIffBand(f.minPrice, f.maxPrice, t);
  }

  /** The starting record, and so the reset one, lists nothing and has no active filter. */
  lemma {:induction false} DefaultHasEmptySummary(t: string -> string)
    ensures ActiveKinds(DefaultFilters, t) == [] && !HasActiveFilters(DefaultFilters)
    ensures ActiveKinds(ClearAllFilters(), t) == []
    ensures Summary(DefaultFilters, t) == [] && Summary(ClearAllFilters(), t) == []
  {
    PriceEntryIffPreset(DefaultFilters, t);
    SummaryLabels(DefaultFilters, t);
  }

  /** A non-empty summary means some filter is active. */
  lemma {:induction false} SummaryImpliesActive(f: Filters, t: string -> string)
    requires Summary(f, t) != []
    ensures HasActiveFilters(f)
  {
    SummaryLabels(f, t);
    PriceEntryIffPreset(f, t);
    var k := ActiveKinds(f, t)[0];
    assert k in ActiveKinds(f, t);
  }

  /**
   * The converse fails: bounds that match no preset make a filter active,
   * and filter out every restaurant without a price, yet the summary is empty.
   */
  lemma {:induction false} ActiveWithEmptySummary(t: string -> string)
    ensures var f := DefaultFilters.(maxPrice := 3000);
      HasActiveFilters(f) && ActiveKinds(f, t) == []
  {
    PriceEntryIffPreset(DefaultFilters.(maxPrice := 3000), t);
  }

  /** The rating entry prints the minimum rating as JavaScript prints the number. */
  lemma {:induction false} RatingLabelExamples(f: Filters, t: string -> string)
    ensures RatingLabel(45) == "Rating ≥ 4.5★"
    ensures RatingLabel(40) == "Rating ≥ 4★"
  {
    assert DecimalText(45, 1) == "4.5";
    DecimalTextWhole(4, 1);
  }

  // ---------------------------------------------------------------------------
  // Distance labels
  // ---------------------------------------------------------------------------

  /** Reads a distance label back as metres; `None` for anything that is not one. */
  function ParseDistance(s: string): Option<nat> {
    if EndsWith(s, "km") then ParseDecimal(s[..|s| - 2], 3)
    else if EndsWith(s, "m") then ParseDecimal(s[..|s| - 1], 0)
    else None
  }

  /** A label in metres reads back through the whole-number case. */
  lemma {:induction false} ParseDistanceMetres(digits: string)
    requires digits != [] && AllDigits(digits)
    ensures ParseDistance(digits + "m") == ParseDecimal(digits, 0)
  {
    var s := digits + "m";
    assert !EndsWith(s, "km") by {
      assert s[|s| - 2] == digits[|digits| - 1] && IsDigit(s[|s| - 2]);
    }
    assert s[..|s| - 1] == digits;
  }

  /** A label in kilometres reads back through the thousandths case. */
  lemma {:induction false} ParseDistanceKilometres(text: string)
    ensures ParseDistance(text + "km") == ParseDecimal(text, 3)
  {
    var s := text + "km";
    assert s[..|s| - 2] == text;
  }

  /** A distance label reads back as the distance it was printed from. */
  lemma {:induction false} FormatDistanceRoundTrip(meters: nat)
    ensures ParseDistance(FormatDistance(meters)) == Some(meters)
  {
    if meters < 1000 {
      var digits := NatToString(meters);
      assert digits == DecimalText(meters, 0);
      DecimalTextRoundTrip(meters, 0);
      ParseDistanceMetres(digits);
    } else {
      DecimalTextRoundTrip(meters, 3);
      ParseDistanceKilometres(DecimalText(meters, 3));
    }
  }

  /** The distance choices print as `500m`, `1km`, `2km` and `5km`, as `1500` prints as `1.5km`. */
  lemma {:induction false} FormatDistanceExamples()
    ensures FormatDistance(500) == "500m"
    ensures FormatDistance(1000) == "1km" && FormatDistance(2000) == "2km" && FormatDistance(5000) == "5km"
    ensures FormatDistance(1500) == "1.5km"
  {
    DecimalTextWhole(1, 3);
    DecimalTextWhole(2, 3);
    DecimalTextWhole(5, 3);
    assert DecimalText(1500, 3) == "1.5";
  }

  // ---------------------------------------------------------------------------
  // Panel state
  // ---------------------------------------------------------------------------

  /** The collapsible sections of the panel. */
  datatype Section = RatingSection | DistanceSection | CuisineSection | PriceSection | OpenNowSection

  /** All sections start expanded except the cuisine list. */
  const InitialSections: map<Section, bool> := map[
    RatingSection := true, DistanceSection := true, CuisineSection := false,
    PriceSection := true, OpenNowSection := true
  ]

  /** The sections after toggling `section`; a section with no entry counts as collapsed. */
  function ToggledSections(m: map<Section, bool>, section: Section): (r: map<Section, bool>)
    ensures section in r && r[section] == !(section in m && m[section])
    ensures forall s :: s in m && s != section ==> s in r && r[s] == m[s]
    ensures r.Keys == m.Keys + {section}
  {
    m[section := !(section in m && m[section])]
  }

  /** Toggling a section twice restores the panel's sections. */
  lemma {:induction false} ToggleSectionTwice(m: map<Section, bool>, section: Section)
    requires section in m
    ensures ToggledSections(ToggledSections(m, section), section) == m
  {
    var r := ToggledSections(ToggledSections(m, section), section);
    assert r.Keys == m.Keys;
    assert forall s :: s in m ==> r[s] == m[s];
  }

  /** The panel's own state: expanded sections and whether the mobile sheet is open. */
  class FilterPanelState {
    var expandedSections: map<Section, bool>
    var isBottomSheetOpen: bool

    constructor()
      ensures expandedSections == InitialSections && !isBottomSheetOpen
    {
      expandedSections := InitialSections;
      isBottomSheetOpen := false;
    }

    /** `toggleSection`: flips one section, leaving the others and the sheet alone. */
    method ToggleSection(section: Section)
      modifies this
      ensures expandedSections == ToggledSections(old(expandedSections), section)
      ensures isBottomSheetOpen == old(isBottomSheetOpen)
    {
      expandedSections := expandedSections[section := !(section in expandedSections && expandedSections[section])];
    }

    /** The mobile filter button opens the bottom sheet. */
    method OpenBottomSheet()
      modifies this
      ensures isBottomSheetOpen && expandedSections == old(expandedSections)
    {
      isBottomSheetOpen := true;
    }

    /** The backdrop and the close button close it. */
    method CloseBottomSheet()
      modifies this
      ensures !isBottomSheetOpen && expandedSections == old(expandedSections)
    {
      isBottomSheetOpen := false;
    }
  }
}
