/** The BOE adapter `BoeScraper`: the relevance keyword gate, the sector and
    location predicates, the region and location tagging, the clamped score
    and the date reformatting applied to each item of the daily summaries, and
    the 15-day / 10-record search over those summaries. */
module Boe {
  import opened Common
  import opened Dates
  import opened Records
  import Aggregator

  // ---------------------------------------------------------------------------
  // The daily summary, as far as the adapter reads it

  /** One item of a subsection; `title` is `''` when the item has none. */
  datatype Item = Item(title: string, url: Option<string>)

  /** A subsection, with its `items` list when it has one. */
  datatype Subsection = Subsection(items: Option<seq<Item>>)

  /** A section, with its `secciones` list when it has one. */
  datatype Section = Section(subsections: Option<seq<Subsection>>)

  /** What fetching one day's summary gave: nothing usable (a network error, a
      status other than 200, a body that is not JSON, or no `sumario`), or the
      summary with its `secciones` list when it has one. */
  datatype DayFetch = Unavailable | Summary(sections: Option<seq<Section>>)

  /** The search facets the adapter receives. */
  datatype Query = Query(sector: string, location: string, companyType: string, region: string)

  /** What the adapter takes from outside: today's date as `%Y-%m-%d`, the
      deadline it invents (45 days ahead), the amount-mining heuristic, the
      summary date `i` days back as `%Y%m%d`, and the summary fetch. */
  datatype Env = Env(
    today: string,
    deadline: string,
    amountOf: string -> string,
    dayStamp: nat -> string,
    fetch: string -> DayFetch)

  // ---------------------------------------------------------------------------
  // Keyword tables

  const RelevanceKeywords: seq<string> :=
    ["subvención", "ayuda", "convocatoria", "financiación", "programa", "incentivo", "apoyo", "fomento"]

  /** EU markers that exclude a title from a search restricted to Spain. */
  const EuKeywordsSpain: seq<string> := ["unión europea", "ue ", "europa ", "european"]

  /** EU markers a title needs for a search restricted to the EU. */
  const EuKeywordsUe: seq<string> := ["unión europea", "ue ", "europa", "european", "horizon"]

  /** EU markers that tag a record's location as the EU. */
  const EuKeywordsTag: seq<string> := ["europa", "european", "ue ", "unión europea"]

  const SectorKeywords: seq<Entry> := [
    Entry("Tecnología", ["tecnología", "tecnológico", "digital", "innovación", "i+d+i", "startup", "tic"]),
    Entry("Energía", ["energía", "energético", "renovable", "eficiencia energética", "autoconsumo"]),
    Entry("Industria", ["industria", "industrial", "manufactura", "producción"]),
    Entry("Agricultura", ["agricultura", "agrícola", "rural", "ganadero", "agrario"]),
    Entry("Comercio", ["comercio", "comercial", "exportación", "internacionalización"]),
    Entry("Servicios", ["servicios", "terciario", "turismo", "hostelería"]),
    Entry("Construcción", ["construcción", "vivienda", "edificación", "obra"]),
    Entry("Salud", ["salud", "sanitario", "médico", "farmacéutico"]),
    Entry("Turismo", ["turismo", "turístico", "hostelería", "restauración"]),
    Entry("Educación", ["educación", "educativo", "formación", "universidad"]),
    Entry("Transporte", ["transporte", "logística", "movilidad", "infraestructura"])
  ]

  const HighRelevanceWords: seq<string> := ["subvención", "ayuda", "convocatoria"]
  const LowRelevanceWords: seq<string> := ["modificación", "corrección", "prórroga"]

  // ---------------------------------------------------------------------------
  // Relevance predicates

  /** The keyword gate an item must pass before anything else is looked at. */
  predicate PassesKeywordGate(title: string) {
    AnyOccurs(RelevanceKeywords, Lower(title))
  }

  /** The words that signal `sector`: its table row, or else the sector name
      itself, lower-cased. */
  function SectorWords(sector: string): seq<string> {
    match Lookup(SectorKeywords, sector)
    case Some(words) => words
    case None => [Lower(sector)]
  }

  /** `_is_relevant_for_sector`. */
  predicate IsRelevantForSector(title: string, sector: string) {
    sector == "Todos" || AnyOccurs(SectorWords(sector), Lower(title))
  }

  /** The words of a region of the table (none for a name the table lacks). */
  function RegionWords(name: string): seq<string> {
    match Lookup(SpanishRegions, name)
    case Some(words) => words
    case None => []
  }

  /** `_is_relevant_for_location`. */
  predicate IsRelevantForLocation(title: string, location: string, region: string) {
    var t := Lower(title);
    if location == "Todas" then true
    else if location == "España" then
      if AnyOccurs(EuKeywordsSpain, t) then false
      else if region != "Todas" && HasName(SpanishRegions, region) then AnyOccurs(RegionWords(region), t)
      else true
    else if location == "UE" then AnyOccurs(EuKeywordsUe, t)
    else if HasName(SpanishRegions, location) then AnyOccurs(RegionWords(location), t)
    else true
  }

  /** The sector filter: `'Todos'` passes everything; a sector of the table
      needs one of its row's words in the lower-cased title; any other sector
      needs its own lower-cased name there. */
  lemma SectorRelevance(title: string, sector: string)
    ensures sector == "Todos" ==> IsRelevantForSector(title, sector)
    ensures sector != "Todos" && !HasName(SectorKeywords, sector) ==>
      (IsRelevantForSector(title, sector) <==> Contains(Lower(title), Lower(sector)))
    ensures forall words :: sector != "Todos" && Lookup(SectorKeywords, sector) == Some(words) ==>
      (IsRelevantForSector(title, sector) <==> AnyOccurs(words, Lower(title)))
  {
    if !HasName(SectorKeywords, sector) {
      assert SectorWords(sector) == [Lower(sector)];
      assert AnyOccurs([Lower(sector)], Lower(title)) <==> Contains(Lower(title), Lower(sector)) by {
        assert forall k :: k in [Lower(sector)] <==> k == Lower(sector);
      }
    }
  }

  /** The location filter, case by case: `'Todas'` passes everything;
      `'España'` rejects titles with an EU marker and, for a region of the
      table, needs one of its words; `'UE'` needs an EU marker; a region of the
      table needs one of its words; anything else passes. */
  lemma LocationRelevance(title: string, location: string, region: string)
    ensures location == "Todas" ==> IsRelevantForLocation(title, location, region)
    ensures location == "España" && AnyOccurs(EuKeywordsSpain, Lower(title)) ==>
      !IsRelevantForLocation(title, location, region)
    ensures forall words :: location == "España" && region != "Todas" && Lookup(SpanishRegions, region) == Some(words) ==>
      (IsRelevantForLocation(title, location, region) <==>
        !AnyOccurs(EuKeywordsSpain, Lower(title)) && AnyOccurs(words, Lower(title)))
    ensures location == "España" && !HasName(SpanishRegions, region) ==>
      (IsRelevantForLocation(title, location, region) <==> !AnyOccurs(EuKeywordsSpain, Lower(title)))
    ensures location == "UE" ==>
      (IsRelevantForLocation(title, location, region) <==> AnyOccurs(EuKeywordsUe, Lower(title)))
    ensures forall words :: location !in {"Todas", "España", "UE"} && Lookup(SpanishRegions, location) == Some(words) ==>
      (IsRelevantForLocation(title, location, region) <==> AnyOccurs(words, Lower(title)))
    ensures location !in {"Todas", "España", "UE"} && !HasName(SpanishRegions, location) ==>
      IsRelevantForLocation(title, location, region)
  {
  }

  // ---------------------------------------------------------------------------
  // Tagging

  /** `_extract_region_from_title`: the first region of the table, in table
      order, one of whose words occurs in the lower-cased title, else the
      default. */
  function ExtractRegion(title: string, defaultRegion: string): (r: string)
    ensures (forall j :: 0 <= j < |SpanishRegions| ==> !AnyOccurs(SpanishRegions[j].keywords, Lower(title))) ==>
      r == defaultRegion
    ensures (exists j :: 0 <= j < |SpanishRegions| && AnyOccurs(SpanishRegions[j].keywords, Lower(title))) ==>
      exists i :: 0 <= i < |SpanishRegions| && r == SpanishRegions[i].name
        && AnyOccurs(SpanishRegions[i].keywords, Lower(title))
        && forall j :: 0 <= j < i ==> !AnyOccurs(SpanishRegions[j].keywords, Lower(title))
  {
    match FirstMatch(SpanishRegions, Lower(title))
    case Some(name) => name
    case None => defaultRegion
  }

  /** `_extract_location_from_title`: the region tag when there is one, else
      `'Unión Europea'` on an EU marker, else the default. */
  function ExtractLocation(title: string, defaultLocation: string): (r: string)
    ensures (exists j :: 0 <= j < |SpanishRegions| && AnyOccurs(SpanishRegions[j].keywords, Lower(title))) ==>
      r == ExtractRegion(title, defaultLocation)
    ensures (forall j :: 0 <= j < |SpanishRegions| ==> !AnyOccurs(SpanishRegions[j].keywords, Lower(title))) ==>
      r == (if AnyOccurs(EuKeywordsTag, Lower(title)) then "Unión Europea" else defaultLocation)
  {
    var t := Lower(title);
    match FirstMatch(SpanishRegions, t)
    case Some(name) => name
    case None => if AnyOccurs(EuKeywordsTag, t) then "Unión Europea" else defaultLocation
  }

  /** A title that passes a region filter is tagged with a region of the table
      (the first one in table order that it mentions, which need not be the
      one searched for), as its location too. */
  lemma RegionFilterImpliesTag(title: string, location: string, region: string, defaultLocation: string, defaultRegion: string)
    requires location !in {"Todas", "España", "UE"} && HasName(SpanishRegions, location)
    requires IsRelevantForLocation(title, location, region)
    ensures HasName(SpanishRegions, ExtractRegion(title, defaultRegion))
    ensures ExtractLocation(title, defaultLocation) == ExtractRegion(title, defaultRegion)
  {
    assert location != "Todas" && location != "España" && location != "UE";
    var words := RegionWords(location);
    assert AnyOccurs(words, Lower(title));
    var j :| 0 <= j < |SpanishRegions| && SpanishRegions[j].name == location && words == SpanishRegions[j].keywords;
  }

  // ---------------------------------------------------------------------------
  // Score and dates

  /** `_calculate_relevance_score`: 5, plus 2 on a high-relevance word, minus 2
      on a low-relevance word, clamped to 1..10. The clamp never binds. */
  function RelevanceScore(title: string, sector: string): (r: int)
    ensures r == 3 || r == 5 || r == 7
    ensures r == 7 <==> AnyOccurs(HighRelevanceWords, Lower(title)) && !AnyOccurs(LowRelevanceWords, Lower(title))
    ensures r == 3 <==> !AnyOccurs(HighRelevanceWords, Lower(title)) && AnyOccurs(LowRelevanceWords, Lower(title))
  {
    var t := Lower(title);
    var score := 5 + (if AnyOccurs(HighRelevanceWords, t) then 2 else 0) - (if AnyOccurs(LowRelevanceWords, t) then 2 else 0);
    if score < 1 then 1 else if score > 10 then 10 else score
  }

  /** `_format_boe_date`: a `%Y%m%d` date printed as `%Y-%m-%d`, or today's
      date when it does not parse. */
  function FormatBoeDate(fecha: string, today: string): (r: string)
    ensures ParseCompact(fecha).Some? ==> |r| == 10 && r[4] == '-' && r[7] == '-'
    ensures ParseCompact(fecha).None? ==> r == today
  {
    match ParseCompact(fecha)
    case Some(d) => FormatIso(d)
    case None => today
  }

  /** On a summary date the reformatting keeps the digits and inserts the
      dashes; on anything `strptime` rejects it gives today's date. */
  lemma FormatBoeDateDigits(fecha: string, today: string)
    ensures |fecha| == 8 && AllDigits(fecha) && ParseCompact(fecha).Some? ==>
      FormatBoeDate(fecha, today) == fecha[..4] + "-" + fecha[4..6] + "-" + fecha[6..8]
    ensures ParseCompact(fecha).None? ==> FormatBoeDate(fecha, today) == today
  {
    if |fecha| == 8 && AllDigits(fecha) && ParseCompact(fecha).Some? {
      var d := ParseCompact(fecha).value;
      FormatCompactOfParse(fecha, d);
      var s := FormatCompact(d);
      assert s[..4] == Pad4(d.year) && s[4..6] == Pad2(d.month) && s[6..8] == Pad2(d.day);
    }
  }

  /** The publication date of a record from the summary of day `d` is `d`
      in ISO form, which the aggregator parses back to `d`. */
  lemma FormatBoeDateOfStamp(d: Date, today: string)
    requires ValidDate(d)
    ensures FormatBoeDate(FormatCompact(d), today) == FormatIso(d)
    ensures ParseIso(FormatBoeDate(FormatCompact(d), today)) == Some(d)
  {
    ParseCompactOfFormat(d);
    ParseIsoOfFormat(d);
  }

  // ---------------------------------------------------------------------------
  // Records

  const BoeDescription: string := "Convocatoria oficial publicada en BOE."
  const MaxTitle: nat := 150

  /** The link to the day's summary, for items without a `url`. */
  function DayLink(fecha: string): string {
    "https://www.boe.es/boe/dias/" + fecha + "/"
  }

  /** What every BOE record satisfies. */
  predicate IsBoeRecord(g: Grant, q: Query) {
    && |g.title| <= MaxTitle
    && g.description == BoeDescription
    && g.sector == q.sector
    && g.companyType == q.companyType
    && g.source == BoeSource
    && g.identifier.None?
    && (g.relevanceScore == 3 || g.relevanceScore == 5 || g.relevanceScore == 7)
  }

  /** The record one item yields, when it yields one: an item is kept exactly
      when its title passes the keyword gate, the sector filter and the
      location filter. */
  function ItemGrant(item: Item, q: Query, fecha: string, env: Env): (r: Option<Grant>)
    ensures r.Some? <==> (PassesKeywordGate(item.title) && IsRelevantForSector(item.title, q.sector)
      && IsRelevantForLocation(item.title, q.location, q.region))
    ensures r.Some? ==> (IsBoeRecord(r.value, q) && r.value.title <= item.title
      && r.value.publicationDate == FormatBoeDate(fecha, env.today))
  {
    var title := item.title;
    if PassesKeywordGate(title) && IsRelevantForSector(title, q.sector) && IsRelevantForLocation(title, q.location, q.region) then
      Some(Grant(
        title := Take(title, MaxTitle),
        description := BoeDescription,
        sector := q.sector,
        location := ExtractLocation(title, q.location),
        region := ExtractRegion(title, q.region),
        companyType := q.companyType,
        amount := env.amountOf(title),
        deadline := env.deadline,
        publicationDate := FormatBoeDate(fecha, env.today),
        source := BoeSource,
        link := match item.url case Some(u) => u case None => DayLink(fecha),
        relevanceScore := RelevanceScore(title, q.sector),
        identifier := None))
    else None
  }

  /** BOE records carry no identifier, so the aggregator tells them apart by
      their lower-cased title with the non-word characters removed. */
  lemma ItemGrantDedupKey(item: Item, q: Query, fecha: string, env: Env)
    requires ItemGrant(item, q, fecha, env).Some?
    ensures Aggregator.DedupKey(ItemGrant(item, q, fecha, env).value)
      == BoeSource + "_" + KeepChars(Lower(Take(item.title, MaxTitle)), IsWordChar)
  {
  }

  /** Every record of `gs` is a BOE record for the query, published on
      `date`. */
  predicate AllBoeRecords(gs: seq<Grant>, q: Query, date: string) {
    forall g :: g in gs ==> IsBoeRecord(g, q) && g.publicationDate == date
  }

  lemma AllBoeRecordsAppend(a: seq<Grant>, b: seq<Grant>, q: Query, date: string)
    requires AllBoeRecords(a, q, date) && AllBoeRecords(b, q, date)
    ensures AllBoeRecords(a + b, q, date)
  {
    MembersAppend(a, b);
  }

  /** The records of a list of items, in order. */
  function ItemsGrants(items: seq<Item>, q: Query, fecha: string, env: Env): (r: seq<Grant>)
    ensures |r| <= |items|
  {
    if items == [] then []
    else
      var init := ItemsGrants(items[..|items| - 1], q, fecha, env);
      match ItemGrant(items[|items| - 1], q, fecha, env)
      case Some(g) => init + [g]
      case None => init
  }

  /** One more item adds its record, if it yields one. */
  lemma ItemsGrantsStep(items: seq<Item>, i: nat, q: Query, fecha: string, env: Env)
    requires i < |items|
    ensures ItemsGrants(items[..i + 1], q, fecha, env) ==
      ItemsGrants(items[..i], q, fecha, env) + OptionToSeq(ItemGrant(items[i], q, fecha, env))
  {
    var p := items[..i + 1];
    assert p[..|p| - 1] == items[..i] && p[|p| - 1] == items[i];
  }

  /** The records of a subsection's items are BOE records of the day. */
  lemma {:induction false} ItemsGrantsRecords(items: seq<Item>, q: Query, fecha: string, env: Env)
    ensures AllBoeRecords(ItemsGrants(items, q, fecha, env), q, FormatBoeDate(fecha, env.today))
  {
    if items != [] {
      var n := |items|;
      var init := ItemsGrants(items[..n - 1], q, fecha, env);
      var last := OptionToSeq(ItemGrant(items[n - 1], q, fecha, env));
      ItemsGrantsRecords(items[..n - 1], q, fecha, env);
      ItemGrantRecord(items[n - 1], q, fecha, env);
      assert ItemsGrants(items, q, fecha, env) == init + last;
      AllBoeRecordsAppend(init, last, q, FormatBoeDate(fecha, env.today));
    }
  }

  /** The record of one item, if any, is a BOE record of the day. */
  lemma ItemGrantRecord(item: Item, q: Query, fecha: string, env: Env)
    ensures AllBoeRecords(OptionToSeq(ItemGrant(item, q, fecha, env)), q, FormatBoeDate(fecha, env.today))
  {
    var r := ItemGrant(item, q, fecha, env);
    if r.Some? {
      assert OptionToSeq(r) == [r.value];
    }
  }

  function SubsectionGrants(sub: Subsection, q: Query, fecha: string, env: Env): seq<Grant> {
    match sub.items
    case Some(items) => ItemsGrants(items, q, fecha, env)
    case None => []
  }

  function SubsectionsGrants(subs: seq<Subsection>, q: Query, fecha: string, env: Env): seq<Grant> {
    if subs == [] then []
    else SubsectionsGrants(subs[..|subs| - 1], q, fecha, env) + SubsectionGrants(subs[|subs| - 1], q, fecha, env)
  }

  lemma {:induction false} SubsectionsGrantsRecords(subs: seq<Subsection>, q: Query, fecha: string, env: Env)
    ensures AllBoeRecords(SubsectionsGrants(subs, q, fecha, env), q, FormatBoeDate(fecha, env.today))
  {
    if subs != [] {
      var last := subs[|subs| - 1];
      SubsectionsGrantsRecords(subs[..|subs| - 1], q, fecha, env);
      if last.items.Some? {
        ItemsGrantsRecords(last.items.value, q, fecha, env);
      }
      AllBoeRecordsAppend(SubsectionsGrants(subs[..|subs| - 1], q, fecha, env),
        SubsectionGrants(last, q, fecha, env), q, FormatBoeDate(fecha, env.today));
    }
  }

  function SectionGrants(sec: Section, q: Query, fecha: string, env: Env): seq<Grant> {
    match sec.subsections
    case Some(subs) => SubsectionsGrants(subs, q, fecha, env)
    case None => []
  }

  function SectionsGrants(secs: seq<Section>, q: Query, fecha: string, env: Env): seq<Grant> {
    if secs == [] then []
    else SectionsGrants(secs[..|secs| - 1], q, fecha, env) + SectionGrants(secs[|secs| - 1], q, fecha, env)
  }

  lemma {:induction false} SectionsGrantsRecords(secs: seq<Section>, q: Query, fecha: string, env: Env)
    ensures AllBoeRecords(SectionsGrants(secs, q, fecha, env), q, FormatBoeDate(fecha, env.today))
  {
    if secs != [] {
      var last := secs[|secs| - 1];
      SectionsGrantsRecords(secs[..|secs| - 1], q, fecha, env);
      if last.subsections.Some? {
        SubsectionsGrantsRecords(last.subsections.value, q, fecha, env);
      }
      AllBoeRecordsAppend(SectionsGrants(secs[..|secs| - 1], q, fecha, env),
        SectionGrants(last, q, fecha, env), q, FormatBoeDate(fecha, env.today));
    }
  }

  /** The records of one day's summary; an unusable day contributes none. */
  function DayGrants(day: DayFetch, q: Query, fecha: string, env: Env): seq<Grant> {
    match day
    case Summary(Some(secs)) => SectionsGrants(secs, q, fecha, env)
    case _ => []
  }

  /** The records of one day's summary are BOE records of that day. */
  lemma DayGrantsRecords(day: DayFetch, q: Query, fecha: string, env: Env)
    ensures AllBoeRecords(DayGrants(day, q, fecha, env), q, FormatBoeDate(fecha, env.today))
  {
    if day.Summary? && day.sections.Some? {
      SectionsGrantsRecords(day.sections.value, q, fecha, env);
    }
  }

  /** The records of day `i` back. */
  function DayGrantsAt(q: Query, env: Env, i: nat): seq<Grant> {
    DayGrants(env.fetch(env.dayStamp(i)), q, env.dayStamp(i), env)
  }

  /** The records of the summaries of today and the `n - 1` days before, newest
      day first. */
  function DaysGrants(q: Query, env: Env, n: nat): seq<Grant> {
    if n == 0 then [] else DaysGrants(q, env, n - 1) + DayGrantsAt(q, env, n - 1)
  }

  /** Every record collected over the days is a BOE record for the query. */
  lemma {:induction false} DaysGrantsRecords(q: Query, env: Env, n: nat)
    ensures forall g :: g in DaysGrants(q, env, n) ==> IsBoeRecord(g, q)
  {
    if n > 0 {
      DaysGrantsRecords(q, env, n - 1);
      DayGrantsRecords(env.fetch(env.dayStamp(n - 1)), q, env.dayStamp(n - 1), env);
      MembersAppend(DaysGrants(q, env, n - 1), DayGrantsAt(q, env, n - 1));
    }
  }

  /** Every record of day `i` is in the result over `n > i` days, however
      the other days went. */
  lemma DaysGrantsIncludesDay(q: Query, env: Env, n: nat, i: nat, g: Grant)
    requires i < n && g in DayGrantsAt(q, env, i)
    ensures g in DaysGrants(q, env, n)
  {
    DaysGrantsSteps(q, env);
    InSteppedConcat(m => DaysGrants(q, env, m), m => DayGrantsAt(q, env, m), n, i, g);
  }

  lemma DaysGrantsSteps(q: Query, env: Env)
    ensures forall m: nat :: m > 0 ==> DaysGrants(q, env, m) == DaysGrants(q, env, m - 1) + DayGrantsAt(q, env, m - 1)
  {
  }

  /** An unusable day adds nothing: the result is what the other days give. */
  lemma DaysGrantsSkipsUnavailable(q: Query, env: Env, n: nat)
    requires n > 0 && env.fetch(env.dayStamp(n - 1)) == Unavailable
    ensures DaysGrants(q, env, n) == DaysGrants(q, env, n - 1)
  {
  }

  // ---------------------------------------------------------------------------
  // The imperative adapter

  const DaysSearched: nat := 15
  const MaxBoeResults: nat := 10

  /** `_process_boe_subsection`: one pass over the items. */
  method ProcessSubsection(sub: Subsection, q: Query, fecha: string, env: Env) returns (grants: seq<Grant>)
    ensures grants == SubsectionGrants(sub, q, fecha, env)
  {
    grants := [];
    if sub.items.Some? {
      var items := sub.items.value;
      for i := 0 to |items|
        invariant grants == ItemsGrants(items[..i], q, fecha, env)
      {
        ItemsGrantsStep(items, i, q, fecha, env);
        var g := ItemGrant(items[i], q, fecha, env);
        if g.Some? {
          grants := grants + [g.value];
        }
      }
      assert items[..|items|] == items;
    }
  }

  /** The subsections of one section, one after another. */
  method ProcessSection(sec: Section, q: Query, fecha: string, env: Env) returns (grants: seq<Grant>)
    ensures grants == SectionGrants(sec, q, fecha, env)
  {
    grants := [];
    if sec.subsections.Some? {
      var subs := sec.subsections.value;
      for k := 0 to |subs|
        invariant grants == SubsectionsGrants(subs[..k], q, fecha, env)
      {
        assert subs[..k + 1][..k] == subs[..k];
        var found := ProcessSubsection(subs[k], q, fecha, env);
        grants := grants + found;
      }
      assert subs[..|subs|] == subs;
    }
  }

  /** The sections of one day's summary, one after another. */
  method ProcessDay(day: DayFetch, q: Query, fecha: string, env: Env) returns (grants: seq<Grant>)
    ensures grants == DayGrants(day, q, fecha, env)
  {
    grants := [];
    if day.Summary? && day.sections.Some? {
      var secs := day.sections.value;
      for j := 0 to |secs|
        invariant grants == SectionsGrants(secs[..j], q, fecha, env)
      {
        assert secs[..j + 1][..j] == secs[..j];
        var found := ProcessSection(secs[j], q, fecha, env);
        grants := grants + found;
      }
      assert secs[..|secs|] == secs;
    }
  }

  /** `search`: the summaries of today and the 14 days before, newest first,
      and the first 10 records. */
  method Search(q: Query, env: Env) returns (r: seq<Grant>)
    ensures r == Take(DaysGrants(q, env, DaysSearched), MaxBoeResults)
    ensures |r| <= MaxBoeResults && forall g :: g in r ==> IsBoeRecord(g, q)
  {
    var grants: seq<Grant> := [];
    for i := 0 to DaysSearched
      invariant grants == DaysGrants(q, env, i)
    {
      var searchDate := env.dayStamp(i);
      var found := ProcessDay(env.fetch(searchDate), q, searchDate, env);
      grants := grants + found;
    }
    r := Take(grants, MaxBoeResults);
    DaysGrantsRecords(q, env, DaysSearched);
    assert forall g :: g in r ==> g in grants;
  }
}
