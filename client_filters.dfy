/** The browser-side filtering of the results page: the location keyword
    predicates, the region matcher, the show/hide decisions of the combined
    filter, the urgency filter and the source filter, and the favourites
    toggle. */
module ClientFilters {
  import opened Common

  // ---------------------------------------------------------------------------
  // Location predicates

  const SpanishKeywords: seq<string> := [
    "españa", "madrid", "barcelona", "valencia", "sevilla",
    "andalucía", "cataluña", "galicia", "país vasco", "aragón",
    "castilla", "extremadura", "murcia", "canarias", "baleares",
    "asturias", "cantabria", "navarra", "rioja", "ceuta", "melilla"]

  const EuropeanKeywords: seq<string> := [
    "unión europea", "europa", "european", "ue", "horizon",
    "erasmus", "interreg", "life"]

  /** As the page lists them, `'mundial'` twice. */
  const InternationalKeywords: seq<string> := [
    "internacional", "mundial", "global", "iberoamérica",
    "latinoamérica", "mundial", "world bank", "onu", "oea"]

  /** The page's own region table, in object order. */
  const RegionMappings: seq<Entry> := [
    Entry("Andalucía", ["sevilla", "córdoba", "granada", "málaga", "cádiz", "huelva", "jaén", "almería"]),
    Entry("Cataluña", ["barcelona", "girona", "lleida", "tarragona", "catalunya"]),
    Entry("Madrid", ["madrid", "comunidad de madrid"]),
    Entry("Valencia", ["valencia", "castellón", "alicante", "comunidad valenciana"]),
    Entry("Galicia", ["coruña", "lugo", "ourense", "pontevedra"]),
    Entry("País Vasco", ["bilbao", "vitoria", "san sebastián", "euskadi"]),
    Entry("Aragón", ["zaragoza", "huesca", "teruel"]),
    Entry("Asturias", ["oviedo", "asturias"]),
    Entry("Cantabria", ["santander", "cantabria"]),
    Entry("Castilla-La Mancha", ["toledo", "ciudad real", "albacete", "cuenca", "guadalajara"]),
    Entry("Castilla y León", ["valladolid", "salamanca", "león", "burgos", "zamora", "palencia", "ávila", "segovia", "soria"]),
    Entry("Extremadura", ["badajoz", "cáceres"]),
    Entry("Islas Baleares", ["palma", "mallorca", "menorca", "ibiza", "formentera"]),
    Entry("Canarias", ["las palmas", "santa cruz", "tenerife", "gran canaria"]),
    Entry("La Rioja", ["logroño", "rioja"]),
    Entry("Murcia", ["murcia", "cartagena"]),
    Entry("Navarra", ["pamplona", "navarra"]),
    Entry("Ceuta", ["ceuta"]),
    Entry("Melilla", ["melilla"])
  ]

  /** `isSpanishLocation`. */
  predicate IsSpanishLocation(location: string) {
    AnyOccurs(SpanishKeywords, Lower(location)) || location == "España" || location == "Todas"
  }

  /** `isEuropeanLocation`. */
  predicate IsEuropeanLocation(location: string) {
    AnyOccurs(EuropeanKeywords, Lower(location))
  }

  /** `isInternationalLocation`. */
  predicate IsInternationalLocation(location: string) {
    AnyOccurs(InternationalKeywords, Lower(location))
  }

  /** The words of a target region: its row, or its own lower-cased name. */
  function RegionWords(targetRegion: string): seq<string> {
    match Lookup(RegionMappings, targetRegion)
    case Some(words) => words
    case None => [Lower(targetRegion)]
  }

  /** `matchesRegion`. */
  predicate MatchesRegion(location: string, targetRegion: string) {
    AnyOccurs(RegionWords(targetRegion), Lower(location))
  }

  /** Keyword tests on a lower-cased text ignore a second lower-casing. */
  lemma AnyOccursLower(keywords: seq<string>, s: string)
    ensures AnyOccurs(keywords, Lower(Lower(s))) == AnyOccurs(keywords, Lower(s))
  {
    LowerIdempotent(s);
  }

  /** The explicit `'España'` test adds nothing to the keyword test (the name
      lower-cases to the keyword `'españa'`); only `'Todas'` passes without a
      keyword. */
  lemma SpanishLocationByKeyword(location: string)
    ensures IsSpanishLocation(location) <==> AnyOccurs(SpanishKeywords, Lower(location)) || location == "Todas"
  {
    if location == "España" {
      assert Lower(location) == "españa";
      assert Contains(Lower(location), SpanishKeywords[0]);
    }
  }

  /** The European and international tests, and the region matcher, do not
      depend on the case of the location. */
  lemma LocationTestsIgnoreCase(location: string, targetRegion: string)
    ensures IsEuropeanLocation(Lower(location)) == IsEuropeanLocation(location)
    ensures IsInternationalLocation(Lower(location)) == IsInternationalLocation(location)
    ensures MatchesRegion(Lower(location), targetRegion) == MatchesRegion(location, targetRegion)
  {
    LowerIdempotent(location);
  }

  /** `'ue'` is matched anywhere in the text, so Spanish place names that
      contain it, such as Huesca, count as European. */
  lemma EuropeanInsideWords()
    ensures IsEuropeanLocation("Huesca")
  {
    var t := Lower("Huesca");
    assert t == "huesca";
    assert "ue" <= t[1..];
    assert Contains(t[1..], "ue");
    assert Contains(t, EuropeanKeywords[3]);
  }

  /** A target region outside the table matches exactly the locations that
      contain its lower-cased name. */
  lemma MatchesRegionFallback(location: string, targetRegion: string)
    requires !HasName(RegionMappings, targetRegion)
    ensures MatchesRegion(location, targetRegion) <==> Contains(Lower(location), Lower(targetRegion))
  {
    assert RegionWords(targetRegion) == [Lower(targetRegion)];
    assert forall k :: k in [Lower(targetRegion)] <==> k == Lower(targetRegion);
  }

  // ---------------------------------------------------------------------------
  // The combined filter

  /** What the combined filter reads from one card: its `data-` attributes
      (absent ones are `None`), the text of its amount element, and whether
      its publication date is more than seven days old. */
  datatype ItemData = ItemData(
    country: Option<string>,
    location: Option<string>,
    region: Option<string>,
    urgency: Option<string>,
    source: string,
    amountText: string,
    olderThanAWeek: bool)

  /** JavaScript's `a || b` on an optional string: an absent or empty string
      gives `b`. */
  function OrElse(a: Option<string>, b: string): (r: string)
    ensures a.Some? && a.value != [] ==> r == a.value
    ensures a.None? || a.value == [] ==> r == b
  {
    match a
    case Some(s) => if s != [] then s else b
    case None => b
  }

  function ItemCountry(item: ItemData): string {
    OrElse(item.country, OrElse(item.location, ""))
  }

  /** The country and region part of `applyAllFilters`. */
  predicate GeoShown(item: ItemData, country: string, region: string) {
    var itemCountry := ItemCountry(item);
    var countryOk :=
      if country != "Todos" && country != "Todas" then
        if country == "España" then IsSpanishLocation(itemCountry)
        else if country == "UE" then IsEuropeanLocation(itemCountry)
        else if country == "Internacional" then IsInternationalLocation(itemCountry)
        else true
      else true;
    if countryOk && country == "España" && region != "Todas" then
      OrElse(item.region, "") == region || MatchesRegion(itemCountry, region)
    else countryOk
  }

  /** At least six ASCII digits once every other character is removed
      (`/\d{6,}|[5-9]\d{5}/` on the digits only). */
  predicate HighAmount(amountText: string) {
    |KeepChars(amountText, IsAsciiDigit)| >= 6
  }

  /** The quick-filter part of `applyAllFilters`. */
  predicate QuickShown(item: ItemData, quick: Option<string>) {
    && (quick == Some("urgent") ==> OrElse(item.urgency, "") in {"critical", "high"})
    && (quick == Some("high-amount") ==> HighAmount(item.amountText))
    && (quick == Some("recent") ==> !item.olderThanAWeek)
  }

  predicate ItemShown(item: ItemData, country: string, region: string, quick: Option<string>) {
    GeoShown(item, country, region) && QuickShown(item, quick)
  }

  /** `'Todos'` or `'Todas'` as country lets every item through the country
      and region tests; the region matters only with country `'España'` and a
      region other than `'Todas'`. */
  lemma GeoFilterScope(item: ItemData, country: string, region: string, region': string)
    ensures country in {"Todos", "Todas"} ==> GeoShown(item, country, region)
    ensures country != "España" ==> GeoShown(item, country, region) == GeoShown(item, country, region')
    ensures region == "Todas" ==> GeoShown(item, "España", region) == IsSpanishLocation(ItemCountry(item))
    ensures GeoShown(item, "España", region) ==> IsSpanishLocation(ItemCountry(item))
  {
  }

  /** The urgent quick filter shows only critical and high items, and the
      quick filters only ever hide. */
  lemma QuickFilterHides(item: ItemData, country: string, region: string, quick: Option<string>)
    ensures ItemShown(item, country, region, quick) ==> GeoShown(item, country, region)
    ensures ItemShown(item, country, region, Some("urgent")) ==> OrElse(item.urgency, "") in {"critical", "high"}
    ensures quick.None? || quick == Some("clear") ==> (ItemShown(item, country, region, quick) <==> GeoShown(item, country, region))
  {
  }

  /** The list of result cards and the state the filters leave on it. */
  class ResultsPage {
    /** The cards, as `querySelectorAll('.grant-item')` finds them. */
    const items: seq<ItemData>
    /** Whether each card is displayed. */
    var shown: seq<bool>
    var currentQuickFilter: Option<string>

    predicate Valid()
      reads this
    {
      |shown| == |items|
    }

    constructor(items: seq<ItemData>)
      ensures this.items == items && Valid()
      ensures forall i :: 0 <= i < |items| ==> shown[i]
      ensures currentQuickFilter.None?
    {
      this.items := items;
      shown := seq(|items|, i => true);
      currentQuickFilter := None;
    }

    /** `applyAllFilters`: every card is shown or hidden by the combined
      filter, and a `'clear'` quick filter is dropped afterwards. */
    method ApplyAllFilters(countrySelect: Option<string>, regionSelect: Option<string>)
      requires Valid()
      modifies this
      ensures Valid()
      ensures forall i :: 0 <= i < |items| ==>
        shown[i] == ItemShown(items[i], OrElse(countrySelect, "Todas"), OrElse(regionSelect, "Todas"), old(currentQuickFilter))
      ensures currentQuickFilter == if old(currentQuickFilter) == Some("clear") then None else old(currentQuickFilter)
    {
      var country := OrElse(countrySelect, "Todas");
      var region := OrElse(regionSelect, "Todas");
      var quick := currentQuickFilter;
      for i := 0 to |items|
        invariant |shown| == |items| && currentQuickFilter == quick
        invariant forall j :: 0 <= j < i ==> shown[j] == ItemShown(items[j], country, region, quick)
      {
        shown := shown[i := ItemShown(items[i], country, region, quick)];
      }
      if quick == Some("clear") {
        currentQuickFilter := None;
      }
    }

    /** A quick-filter button: the filter becomes current and the combined
      filter runs. After `'clear'` only the country and region decide, and no
      quick filter remains. */
    method QuickFilterClicked(filter: string, countrySelect: Option<string>, regionSelect: Option<string>)
      requires Valid()
      modifies this
      ensures Valid()
      ensures forall i :: 0 <= i < |items| ==>
        shown[i] == ItemShown(items[i], OrElse(countrySelect, "Todas"), OrElse(regionSelect, "Todas"), Some(filter))
      ensures filter == "clear" ==> currentQuickFilter.None? && forall i :: 0 <= i < |items| ==>
        shown[i] == GeoShown(items[i], OrElse(countrySelect, "Todas"), OrElse(regionSelect, "Todas"))
      ensures filter != "clear" ==> currentQuickFilter == Some(filter)
    {
      currentQuickFilter := Some(filter);
      ApplyAllFilters(countrySelect, regionSelect);
    }

    /** `filterByUrgency`. */
    method FilterByUrgency(urgencyFilter: string)
      requires Valid()
      modifies this
      ensures Valid() && currentQuickFilter == old(currentQuickFilter)
      ensures forall i :: 0 <= i < |items| ==> shown[i] == UrgencyShown(urgencyFilter, items[i].urgency)
    {
      for i := 0 to |items|
        invariant |shown| == |items| && currentQuickFilter == old(currentQuickFilter)
        invariant forall j :: 0 <= j < i ==> shown[j] == UrgencyShown(urgencyFilter, items[j].urgency)
      {
        shown := shown[i := UrgencyShown(urgencyFilter, items[i].urgency)];
      }
    }

    /** `filterBySource`. */
    method FilterBySource(sourceFilter: string)
      requires Valid()
      modifies this
      ensures Valid() && currentQuickFilter == old(currentQuickFilter)
      ensures forall i :: 0 <= i < |items| ==> shown[i] == SourceShown(sourceFilter, items[i].source)
    {
      for i := 0 to |items|
        invariant |shown| == |items| && currentQuickFilter == old(currentQuickFilter)
        invariant forall j :: 0 <= j < i ==> shown[j] == SourceShown(sourceFilter, items[j].source)
      {
        shown := shown[i := SourceShown(sourceFilter, items[i].source)];
      }
    }
  }

  // ---------------------------------------------------------------------------
  // Urgency and source filters

  /** The `switch` of `filterByUrgency`; an absent `data-urgency` equals no
      string. */
  predicate UrgencyShown(urgencyFilter: string, urgency: Option<string>) {
    if urgencyFilter == "critical" then urgency == Some("critical")
    else if urgencyFilter == "high" then urgency == Some("critical") || urgency == Some("high")
    else if urgencyFilter == "medium" then urgency != Some("low")
    else if urgencyFilter == "active" then urgency != Some("expired")
    else true
  }

  /** The urgency filter is monotone: critical shows a subset of high, high a
      subset of medium; `'active'` hides exactly the expired items and any
      other choice hides nothing. */
  lemma UrgencyFilterMonotone(urgency: Option<string>, other: string)
    requires other !in {"critical", "high", "medium", "active"}
    ensures UrgencyShown("critical", urgency) ==> UrgencyShown("high", urgency)
    ensures UrgencyShown("high", urgency) ==> UrgencyShown("medium", urgency)
    ensures UrgencyShown("active", urgency) <==> urgency != Some("expired")
    ensures UrgencyShown(other, urgency)
  {
  }

  /** The test of `filterBySource`. */
  predicate SourceShown(sourceFilter: string, source: string) {
    sourceFilter == "all" || Contains(Lower(source), Lower(sourceFilter))
  }

  /** `'all'` and the empty filter show every source; any other filter is a
      case-insensitive substring test. */
  lemma SourceFilterProperties(sourceFilter: string, source: string)
    ensures SourceShown("all", source) && SourceShown("", source)
    ensures sourceFilter != "all" && Lower(sourceFilter) != "all" ==>
      SourceShown(sourceFilter, source) == SourceShown(Lower(sourceFilter), Lower(source))
  {
    LowerIdempotent(sourceFilter);
    LowerIdempotent(source);
    assert Lower("") == "";
    assert "" <= Lower(source);
  }

  // ---------------------------------------------------------------------------
  // Favourites

  /** `favs.filter(f => f !== title)`. */
  function Without(favs: seq<string>, title: string): (r: seq<string>)
    ensures title !in r
    ensures forall x :: x != title ==> (x in r <==> x in favs)
    ensures title !in favs ==> r == favs
    ensures |r| <= |favs|
    ensures title in favs ==> |r| < |favs|
  {
    if favs == [] then []
    else if favs[|favs| - 1] == title then Without(favs[..|favs| - 1], title)
    else
      assert forall x :: x in favs <==> x in favs[..|favs| - 1] || x == favs[|favs| - 1] by {
        assert favs == favs[..|favs| - 1] + [favs[|favs| - 1]];
      }
      Without(favs[..|favs| - 1], title) + [favs[|favs| - 1]]
  }

  /** The stored list after a toggle: shorter when the title was stored, one
      longer when it was not. */
  function Toggled(favs: seq<string>, title: string): (r: seq<string>)
    ensures title in favs ==> |r| < |favs|
    ensures title !in favs ==> |r| == |favs| + 1
  {
    if title in favs then Without(favs, title) else favs + [title]
  }

  /** A toggle flips the title's membership and no other title's. */
  lemma ToggleFlips(favs: seq<string>, title: string)
    ensures title in Toggled(favs, title) <==> title !in favs
    ensures forall x :: x != title ==> (x in Toggled(favs, title) <==> x in favs)
  {
  }

  /** Toggling twice restores every membership; when the title was absent it
      restores the list itself. */
  lemma ToggleTwice(favs: seq<string>, title: string)
    ensures forall x :: x in Toggled(Toggled(favs, title), title) <==> x in favs
    ensures title !in favs ==> Toggled(Toggled(favs, title), title) == favs
  {
    ToggleFlips(favs, title);
    ToggleFlips(Toggled(favs, title), title);
    if title !in favs {
      var once := favs + [title];
      assert once[..|once| - 1] == favs;
    }
  }

  /** The favourites list as `localStorage` keeps it. */
  class FavoriteStore {
    var favs: seq<string>

    constructor()
      ensures favs == []
    {
      favs := [];
    }

    /** `toggleFavorite`: every copy of a present title is removed, an absent
        one is appended once. */
    method ToggleFavorite(title: string)
      modifies this
      ensures favs == Toggled(old(favs), title)
      ensures title in favs <==> title !in old(favs)
    {
      if title in favs {
        favs := Without(favs, title);
      } else {
        favs := favs + [title];
      }
    }
  }
}
