/** The CDTI adapter `CdtiScraper`: the link gate and URL dedup over the
    anchors of a section page, the sector and company-type inference, the
    additive clamped score, the admission test, and the result step that keeps
    one grant per title key, ranks by score and keeps eight. */
module Cdti {
  import opened Common
  import opened Lists
  import opened Records
  import Aggregator

  // ---------------------------------------------------------------------------
  // Keyword tables

  const RelevantLinkKeywords: seq<string> := [
    "programa", "ayuda", "convocatoria", "subvención", "financiación",
    "i+d", "innovación", "tecnológico", "neotec", "eureka", "innterconecta",
    "pid", "cooperación", "internacional"]

  const ExcludedLinkKeywords: seq<string> := [
    "contacto", "aviso legal", "cookies", "mapa", "búsqueda",
    "newsletter", "rss", "imprimir", "pdf", "descargar"]

  /** The sector table of `_determine_sector_from_content`, in dictionary order. */
  const ContentSectors: seq<Entry> := [
    Entry("Tecnología", ["tecnología", "tic", "digital", "software", "ia", "innovación tecnológica", "neotec"]),
    Entry("Industria", ["industria", "industrial", "manufactura", "producción", "innterconecta"]),
    Entry("Energía", ["energía", "energético", "renovables", "sostenible"]),
    Entry("Salud", ["salud", "biotecnología", "farmacéutico", "biomédico"]),
    Entry("Transporte", ["transporte", "movilidad", "logística", "automoción"]),
    Entry("Aeroespacial", ["aeroespacial", "aeronáutico", "espacial", "defensa"])
  ]

  /** The smaller sector table of `_is_relevant_grant`. */
  const FilterSectors: seq<Entry> := [
    Entry("Tecnología", ["tecnología", "tic", "digital", "innovación"]),
    Entry("Industria", ["industria", "industrial", "manufactura"]),
    Entry("Energía", ["energía", "renovables", "sostenible"]),
    Entry("Salud", ["salud", "biotecnología", "farmacéutico"])
  ]

  const SmeWords: seq<string> := ["pyme", "pequeña", "mediana"]
  const StartupWords: seq<string> := ["startup", "nueva empresa"]
  const LargeCompanyWords: seq<string> := ["gran empresa", "grande"]
  const ResearchWords: seq<string> := ["universidad", "centro de investigación"]

  const HighRelevance: seq<string> := ["i+d+i", "innovación", "tecnológico", "neotec", "eureka", "innterconecta"]
  const MediumRelevance: seq<string> := ["programa", "ayuda", "subvención", "financiación"]
  const LowRelevance: seq<string> := ["modificación", "corrección", "prórroga"]

  // ---------------------------------------------------------------------------
  // Classification

  /** `_is_relevant_url`: the title (not the URL, which is never looked at)
      must mention a programme keyword and no excluded keyword. */
  function IsRelevantUrl(url: string, title: string): (r: bool)
    ensures r <==> AnyOccurs(RelevantLinkKeywords, Lower(title)) && !AnyOccurs(ExcludedLinkKeywords, Lower(title))
  {
    var t := Lower(title);
    if AnyOccurs(RelevantLinkKeywords, t) then
      if !AnyOccurs(ExcludedLinkKeywords, t) then true else false
    else false
  }

  /** The URL plays no part in the link gate. */
  lemma IsRelevantUrlIgnoresUrl(url: string, url': string, title: string)
    ensures IsRelevantUrl(url, title) == IsRelevantUrl(url', title)
  {
  }

  /** `_determine_sector_from_content`: the first sector of the table, in table
      order, one of whose words occurs in the lower-cased content, else
      `'Tecnología'`. */
  function DetermineSector(content: string): (r: string)
    ensures HasName(ContentSectors, r)
    ensures (forall j :: 0 <= j < |ContentSectors| ==> !AnyOccurs(ContentSectors[j].keywords, Lower(content))) ==>
      r == "Tecnología"
    ensures (exists j :: 0 <= j < |ContentSectors| && AnyOccurs(ContentSectors[j].keywords, Lower(content))) ==>
      exists i :: 0 <= i < |ContentSectors| && r == ContentSectors[i].name
        && AnyOccurs(ContentSectors[i].keywords, Lower(content))
        && forall j :: 0 <= j < i ==> !AnyOccurs(ContentSectors[j].keywords, Lower(content))
  {
    match FirstMatch(ContentSectors, Lower(content))
    case Some(name) => name
    case None => assert ContentSectors[0].name == "Tecnología"; "Tecnología"
  }

  /** `_determine_company_type_from_content`: PYME, then Startup, then Grande
      empresa, then Centro de investigación, else Todos. */
  function DetermineCompanyType(content: string): (r: string)
    ensures r in {"PYME", "Startup", "Grande empresa", "Centro de investigación", "Todos"}
    ensures r == "PYME" <==> AnyOccurs(SmeWords, Lower(content))
    ensures r == "Startup" <==> !AnyOccurs(SmeWords, Lower(content)) && AnyOccurs(StartupWords, Lower(content))
    ensures r == "Grande empresa" <==>
      !AnyOccurs(SmeWords, Lower(content)) && !AnyOccurs(StartupWords, Lower(content))
      && AnyOccurs(LargeCompanyWords, Lower(content))
    ensures r == "Centro de investigación" <==>
      !AnyOccurs(SmeWords, Lower(content)) && !AnyOccurs(StartupWords, Lower(content))
      && !AnyOccurs(LargeCompanyWords, Lower(content)) && AnyOccurs(ResearchWords, Lower(content))
  {
    var t := Lower(content);
    if Contains(t, "pyme") || Contains(t, "pequeña") || Contains(t, "mediana") then "PYME"
    else if Contains(t, "startup") || Contains(t, "nueva empresa") then "Startup"
    else if Contains(t, "gran empresa") || Contains(t, "grande") then "Grande empresa"
    else if Contains(t, "universidad") || Contains(t, "centro de investigación") then "Centro de investigación"
    else "Todos"
  }

  // ---------------------------------------------------------------------------
  // Score

  /** `max(1, min(10, x))`. */
  function Clamp(x: int): (r: int)
    ensures 1 <= r <= 10
    ensures 1 <= x <= 10 ==> r == x
  {
    if x < 1 then 1 else if x > 10 then 10 else x
  }

  /** The text the score reads: the title, a space and the description,
      lower-cased together. */
  function Combined(title: string, description: string): string {
    Lower(title + " " + description)
  }

  /** The score `_calculate_relevance_score` promises: 6, plus 2 for every
      high-relevance keyword present, plus 1 for every medium one, minus 2 for
      every low one, clamped to 1..10. */
  function RelevanceScore(title: string, description: string): int {
    var t := Combined(title, description);
    Clamp(6 + 2 * CountOccurring(HighRelevance, t) + CountOccurring(MediumRelevance, t) - 2 * CountOccurring(LowRelevance, t))
  }

  /** `_calculate_relevance_score`: three passes adjust the running score. */
  method CalculateRelevanceScore(title: string, description: string) returns (score: int)
    ensures score == RelevanceScore(title, description)
    ensures 1 <= score <= 10
  {
    score := 6;
    var text := Combined(title, description);
    for i := 0 to |HighRelevance|
      invariant score == 6 + 2 * CountOccurring(HighRelevance[..i], text)
    {
      CountOccurringStep(HighRelevance, i, text);
      if Contains(text, HighRelevance[i]) {
        score := score + 2;
      }
    }
    assert HighRelevance[..|HighRelevance|] == HighRelevance;
    var afterHigh := score;
    for i := 0 to |MediumRelevance|
      invariant score == afterHigh + CountOccurring(MediumRelevance[..i], text)
    {
      CountOccurringStep(MediumRelevance, i, text);
      if Contains(text, MediumRelevance[i]) {
        score := score + 1;
      }
    }
    assert MediumRelevance[..|MediumRelevance|] == MediumRelevance;
    var afterMedium := score;
    for i := 0 to |LowRelevance|
      invariant score == afterMedium - 2 * CountOccurring(LowRelevance[..i], text)
    {
      CountOccurringStep(LowRelevance, i, text);
      if Contains(text, LowRelevance[i]) {
        score := score - 2;
      }
    }
    assert LowRelevance[..|LowRelevance|] == LowRelevance;
    score := if score < 1 then 1 else if score > 10 then 10 else score;
  }

  const MinRelevance: int := 4

  /** The floor of 4 only rejects text with at least two of the three
      low-relevance keywords; text with none scores at least 6. */
  lemma ScoreFloor(title: string, description: string)
    ensures RelevanceScore(title, description) < MinRelevance ==>
      CountOccurring(LowRelevance, Combined(title, description)) >= 2
    ensures !AnyOccurs(LowRelevance, Combined(title, description)) ==> RelevanceScore(title, description) >= 6
  {
  }

  // ---------------------------------------------------------------------------
  // Admission

  /** The words that signal `sector` in the admission test: its row of the
      small table, or else the sector name itself, lower-cased. */
  function FilterSectorWords(sector: string): seq<string> {
    match Lookup(FilterSectors, sector)
    case Some(words) => words
    case None => [Lower(sector)]
  }

  /** The sector part of `_is_relevant_grant`. */
  predicate MatchesSector(g: Grant, sector: string) {
    sector == "Todos" || g.sector == sector
      || AnyOccurs(FilterSectorWords(sector), Lower(g.title + " " + g.description))
  }

  /** `_is_relevant_grant`: a non-empty title, the sector test, and a score of
      at least 4. The company type and region play no part. */
  predicate IsRelevantGrant(g: Grant, sector: string) {
    g.title != [] && MatchesSector(g, sector) && g.relevanceScore >= MinRelevance
  }

  /** Under `'Todos'`, or for the grant's own sector, only the title and the
      score decide. */
  lemma RelevantInOwnSector(g: Grant, sector: string)
    requires sector == "Todos" || g.sector == sector
    ensures IsRelevantGrant(g, sector) <==> g.title != [] && g.relevanceScore >= MinRelevance
  {
  }

  /** For a sector outside the small table that is not `'Todos'` and differs
      from the grant's inferred sector, admission needs the sector's lower-cased
      name in the grant's text. */
  lemma UnknownSectorNeedsName(g: Grant, sector: string)
    requires sector != "Todos" && g.sector != sector && !HasName(FilterSectors, sector)
    ensures MatchesSector(g, sector) <==> Contains(Lower(g.title + " " + g.description), Lower(sector))
  {
    assert FilterSectorWords(sector) == [Lower(sector)];
    assert forall k :: k in [Lower(sector)] <==> k == Lower(sector);
  }

  // ---------------------------------------------------------------------------
  // Links

  /** An anchor found by one of the selectors: its raw `href` (`''` when it
      has none) and its stripped text. */
  datatype Anchor = Anchor(href: string, text: string)

  /** A programme link: the full URL, the title (at most 200 characters) and
      the whole text. */
  datatype Link = Link(url: string, title: string, text: string)

  const BaseUrl: string := "https://www.cdti.es"
  const MaxLinkTitle: nat := 200
  const MinLinkTitle: nat := 10

  /** The full URL of an `href`; `resolve` is `urljoin(base_url, ·)`. */
  function FullUrl(href: string, resolve: string -> string): (u: string)
    ensures !StartsWith(href, "http") ==> u == resolve(href)
    ensures StartsWith(href, "http") ==> u == href
  {
    if StartsWith(href, "/") || StartsWith(href, "index.asp") then
      assert href[0] != 'h';
      resolve(href)
    else if !StartsWith(href, "http") then resolve(href)
    else href
  }

  function LinkUrl(l: Link): string { l.url }

  /** The link an anchor yields before the URL dedup, if any. */
  function Candidate(a: Anchor, resolve: string -> string): (r: Option<Link>)
    ensures r.Some? ==>
      MinLinkTitle <= |r.value.title| <= MaxLinkTitle && r.value.title <= r.value.text
      && IsRelevantUrl(r.value.url, r.value.text)
  {
    var href := Strip(a.href);
    var title := a.text;
    if href == [] || title == [] || |title| < MinLinkTitle then None
    else
      var url := FullUrl(href, resolve);
      if !IsRelevantUrl(url, title) then None
      else Some(Link(url, Take(title, MaxLinkTitle), title))
  }

  /** The links of a list of anchors before the URL dedup, in order. */
  function Candidates(anchors: seq<Anchor>, resolve: string -> string): (r: seq<Link>)
    ensures forall l :: l in r ==> MinLinkTitle <= |l.title| <= MaxLinkTitle && l.title <= l.text
    decreases |anchors|
  {
    if anchors == [] then []
    else
      match Candidate(anchors[0], resolve)
      case Some(l) => [l] + Candidates(anchors[1..], resolve)
      case None => Candidates(anchors[1..], resolve)
  }

  /** `_find_program_links` over the anchors the selectors return, in selector
      order: each kept link's first occurrence by full URL. */
  method FindProgramLinks(anchors: seq<Anchor>, resolve: string -> string) returns (links: seq<Link>)
    ensures links == FirstByKey(Candidates(anchors, resolve), LinkUrl)
  {
    links := [];
    var seenUrls: set<string> := {};
    var i := 0;
    while i < |anchors|
      invariant 0 <= i <= |anchors|
      invariant links + DedupFrom(Candidates(anchors[i..], resolve), LinkUrl, seenUrls)
        == FirstByKey(Candidates(anchors, resolve), LinkUrl)
    {
      assert anchors[i..][0] == anchors[i] && anchors[i..][1..] == anchors[i + 1..];
      var href := Strip(anchors[i].href);
      var title := anchors[i].text;
      if href != [] && title != [] && |title| >= MinLinkTitle {
        var fullUrl := FullUrl(href, resolve);
        if IsRelevantUrl(fullUrl, title) && fullUrl !in seenUrls {
          seenUrls := seenUrls + {fullUrl};
          links := links + [Link(fullUrl, Take(title, MaxLinkTitle), title)];
        }
      }
      i := i + 1;
    }
    assert anchors[i..] == [];
  }

  /** The links of a page: no URL twice, titles of at most 200 characters cut
      from texts of at least 10, every URL of the candidates represented. */
  lemma ProgramLinksProperties(anchors: seq<Anchor>, resolve: string -> string)
    ensures var links := FirstByKey(Candidates(anchors, resolve), LinkUrl);
      && DistinctKeys(links, LinkUrl)
      && (forall l :: l in links ==> MinLinkTitle <= |l.title| <= MaxLinkTitle && l.title <= l.text)
      && KeySet(links, LinkUrl) == KeySet(Candidates(anchors, resolve), LinkUrl)
  {
    var c := Candidates(anchors, resolve);
    FirstByKeyProperties(c, LinkUrl);
  }

  // ---------------------------------------------------------------------------
  // Grants

  /** What fetching a programme page gave: nothing (an error or a status
      other than 200), or the description the page yields, if any, and the
      amount mined from it. */
  datatype Detail = DetailFailed | Detail(description: Option<string>, amount: string)

  /** Python's `description or default`: an absent or empty description
      gives the default. */
  function OrElse(d: Option<string>, default: string): string {
    match d
    case Some(s) => if s != [] then s else default
    case None => default
  }

  /** What the adapter takes from outside: whether BeautifulSoup imports, the
      page behind each section URL, the detail page of each link, `urljoin`
      against the base URL, Python's `hash` on titles, and the dates it
      invents (90 days ahead, and today). */
  datatype Env = Env(
    bs4Available: bool,
    page: string -> Option<seq<Anchor>>,
    detail: string -> Detail,
    resolve: string -> string,
    hashOf: string -> int,
    deadline: string,
    today: string)

  const CdtiDefaultDescription: string := "Programa del CDTI. Consulta la documentación oficial para más detalles."
  const DefaultAmount: string := "Consultar convocatoria"
  const IdentifierStemLength: nat := 30

  /** `_generate_identifier(title, 'CDTI')`; `hash % 10000` is Python's floor
      remainder, never negative for the positive divisor. */
  function Identifier(title: string, hash: int): (r: string)
    ensures |r| > 3
    ensures StartsWith(r, "CDTI_")
  {
    "CDTI_" + Take(KeepChars(Lower(title), IsWordChar), IdentifierStemLength) + "_" + Decimal(hash % 10000)
  }

  /** `_extract_grant_from_link`. */
  function ExtractGrant(link: Link, env: Env): (g: Grant)
    ensures g.title == link.title && g.link == link.url && g.source == CdtiSource
    ensures g.identifier.Some? && |g.identifier.value| > 3
    ensures 1 <= g.relevanceScore <= 10
  {
    var detail := env.detail(link.url);
    var description := if detail.Detail? then detail.description else None;
    var amount := if detail.Detail? then detail.amount else DefaultAmount;
    var content := link.title + " " + OrElse(description, "");
    Grant(
      title := link.title,
      description := OrElse(description, CdtiDefaultDescription),
      sector := DetermineSector(content),
      location := "España",
      region := "Todas",
      companyType := DetermineCompanyType(content),
      amount := amount,
      deadline := env.deadline,
      publicationDate := env.today,
      source := CdtiSource,
      link := link.url,
      relevanceScore := RelevanceScore(link.title, OrElse(description, "")),
      identifier := Some(Identifier(link.title, env.hashOf(link.title))))
  }

  /** The aggregator tells CDTI records apart by their generated identifier,
      never by their title. */
  lemma ExtractGrantDedupKey(link: Link, env: Env)
    ensures Aggregator.DedupKey(ExtractGrant(link, env)) == CdtiSource + "_" + Identifier(link.title, env.hashOf(link.title))
  {
    var id := Identifier(link.title, env.hashOf(link.title));
    assert id[0] == 'C';
    assert "NO_ID"[0] == 'N';
  }

  /** What every CDTI record satisfies. */
  predicate IsCdtiRecord(g: Grant, sector: string) {
    && IsRelevantGrant(g, sector)
    && |g.title| <= MaxLinkTitle
    && g.source == CdtiSource
    && g.identifier.Some? && |g.identifier.value| > 3
    && g.relevanceScore <= 10
  }

  const MaxLinksPerSection: nat := 15

  /** No link title is longer than 200 characters. */
  predicate ShortTitles(links: seq<Link>) {
    forall l :: l in links ==> |l.title| <= MaxLinkTitle
  }

  /** The grants of `links` that pass admission, in order. */
  function AdmittedGrants(links: seq<Link>, sector: string, env: Env): (r: seq<Grant>)
    ensures |r| <= |links|
  {
    if links == [] then []
    else
      var init := AdmittedGrants(links[..|links| - 1], sector, env);
      var g := ExtractGrant(links[|links| - 1], env);
      if IsRelevantGrant(g, sector) then init + [g] else init
  }

  /** An admitted grant passes `_is_relevant_grant`. */
  lemma {:induction false} AdmittedGrantRelevant(links: seq<Link>, sector: string, env: Env, g: Grant)
    requires g in AdmittedGrants(links, sector, env)
    ensures IsRelevantGrant(g, sector)
  {
    var init := links[..|links| - 1];
    var prev := AdmittedGrants(init, sector, env);
    if g in prev {
      AdmittedGrantRelevant(init, sector, env, g);
    } else {
      MembersAppendOne(prev, ExtractGrant(links[|links| - 1], env));
    }
  }

  /** An admitted grant is the extraction of one of the links. */
  lemma {:induction false} AdmittedGrantOrigin(links: seq<Link>, sector: string, env: Env, g: Grant)
    requires g in AdmittedGrants(links, sector, env)
    ensures exists l :: l in links && g == ExtractGrant(l, env)
  {
    var init := links[..|links| - 1];
    var last := links[|links| - 1];
    var prev := AdmittedGrants(init, sector, env);
    if g in prev {
      AdmittedGrantOrigin(init, sector, env, g);
      var l :| l in init && g == ExtractGrant(l, env);
      assert l in links;
    } else {
      MembersAppendOne(prev, ExtractGrant(last, env));
      assert last in links;
    }
  }

  /** Every admitted grant passes `_is_relevant_grant` and carries the
      fields `_extract_grant_info` sets; with short link titles it is a CDTI
      record. */
  lemma AdmittedGrantsRecords(links: seq<Link>, sector: string, env: Env)
    ensures forall g :: g in AdmittedGrants(links, sector, env) ==>
      IsRelevantGrant(g, sector) && g.source == CdtiSource
      && g.identifier.Some? && |g.identifier.value| > 3 && g.relevanceScore <= 10
    ensures ShortTitles(links) ==> forall g :: g in AdmittedGrants(links, sector, env) ==> IsCdtiRecord(g, sector)
  {
    forall g | g in AdmittedGrants(links, sector, env)
      ensures IsRelevantGrant(g, sector) && g.source == CdtiSource
      ensures g.identifier.Some? && |g.identifier.value| > 3 && g.relevanceScore <= 10
      ensures ShortTitles(links) ==> |g.title| <= MaxLinkTitle
    {
      AdmittedGrantRelevant(links, sector, env, g);
      AdmittedGrantOrigin(links, sector, env, g);
      var l :| l in links && g == ExtractGrant(l, env);
    }
  }

  /** The grants a section page yields. */
  function SectionGrants(url: string, sector: string, env: Env): (r: seq<Grant>)
    ensures forall g :: g in r ==> IsCdtiRecord(g, sector)
    ensures |r| <= MaxLinksPerSection
  {
    match env.page(url)
    case None => []
    case Some(anchors) =>
      var links := FirstByKey(Candidates(anchors, env.resolve), LinkUrl);
      ProgramLinksProperties(anchors, env.resolve);
      assert ShortTitles(Take(links, MaxLinksPerSection));
      AdmittedGrantsRecords(Take(links, MaxLinksPerSection), sector, env);
      AdmittedGrants(Take(links, MaxLinksPerSection), sector, env)
  }

  /** The loop of `_scrape_section` over its first 15 links: each link's
      grant is kept when admitted. */
  method AdmitLinks(links: seq<Link>, sector: string, env: Env) returns (grants: seq<Grant>)
    ensures grants == AdmittedGrants(links, sector, env)
  {
    grants := [];
    for i := 0 to |links|
      invariant grants == AdmittedGrants(links[..i], sector, env)
    {
      assert links[..i + 1][..i] == links[..i];
      var grantData := ExtractGrant(links[i], env);
      if IsRelevantGrant(grantData, sector) {
        grants := grants + [grantData];
      }
    }
    assert links[..|links|] == links;
  }

  /** `_scrape_section`: the page's program links, the first 15 of them
      admitted one by one. */
  method ScrapeSection(url: string, sector: string, env: Env) returns (grants: seq<Grant>)
    ensures grants == SectionGrants(url, sector, env)
  {
    grants := [];
    var anchors := env.page(url);
    if anchors.Some? {
      var programLinks := FindProgramLinks(anchors.value, env.resolve);
      grants := AdmitLinks(Take(programLinks, MaxLinksPerSection), sector, env);
    }
  }

  // ---------------------------------------------------------------------------
  // Results

  /** `_process_results`' title key: punctuation other than `_` removed, then
      lower-cased, then the first 50 characters. */
  function TitleKey(g: Grant): string {
    Take(Lower(KeepChars(g.title, c => IsWordChar(c) || IsSpace(c))), 50)
  }

  /** A title key is never longer than 50 characters or than the title. */
  lemma TitleKeyBound(g: Grant)
    ensures |TitleKey(g)| <= 50 && |TitleKey(g)| <= |g.title|
  {
  }

  function Score(g: Grant): int { g.relevanceScore }

  const MaxCdtiResults: nat := 8

  /** What `_process_results` returns. */
  function Processed(grants: seq<Grant>): seq<Grant> {
    Take(SortDesc(FirstByKey(grants, TitleKey), Score), MaxCdtiResults)
  }

  /** `_process_results`: a dictionary filled in a loop keeps the first grant
      per title key, in insertion order; its values are sorted by score and
      cut to 8. */
  method ProcessResults(grants: seq<Grant>, sector: string, companyType: string, region: string)
    returns (r: seq<Grant>)
    ensures r == Processed(grants)
  {
    if grants == [] {
      assert FirstByKey(grants, TitleKey) == [] && SortDesc([], Score) == [];
      return [];
    }
    var uniqueGrants: seq<Grant> := [];
    var keys: set<string> := {};
    var i := 0;
    while i < |grants|
      invariant 0 <= i <= |grants|
      invariant uniqueGrants + DedupFrom(grants[i..], TitleKey, keys) == FirstByKey(grants, TitleKey)
    {
      var titleKey := TitleKey(grants[i]);
      DedupFromStep(grants, i, TitleKey, keys, uniqueGrants, FirstByKey(grants, TitleKey));
      if titleKey !in keys {
        keys := keys + {titleKey};
        uniqueGrants := uniqueGrants + [grants[i]];
      }
      i := i + 1;
    }
    assert grants[i..] == [];
    assert uniqueGrants == FirstByKey(grants, TitleKey);
    var sortedGrants := SortDesc(uniqueGrants, Score);
    r := Take(sortedGrants, MaxCdtiResults);
  }

  /** At most 8 results, ranked by score, taken from the input, no two with
      one title key. */
  lemma ProcessedProperties(grants: seq<Grant>)
    ensures var r := Processed(grants);
      && |r| <= MaxCdtiResults
      && SortedDesc(r, Score)
      && (forall g :: g in r ==> g in grants)
      && DistinctKeys(r, TitleKey)
  {
    var u := FirstByKey(grants, TitleKey);
    var s := SortDesc(u, Score);
    var r := Processed(grants);
    FirstByKeyProperties(grants, TitleKey);
    SortDescProperties(u, Score);
    SortDescDistinct(u, Score, TitleKey);
    forall g | g in r ensures g in grants {
      SortDescMember(u, Score, g);
    }
    forall i, j | 0 <= i < j < |r| ensures TitleKey(r[i]) != TitleKey(r[j]) {
      assert r[i] == s[i] && r[j] == s[j];
    }
  }

  /** The eight kept are the best-scoring deduplicated grants: a grant left
      out never scores higher than one kept. */
  lemma ProcessedKeepsBest(grants: seq<Grant>, g: Grant, h: Grant)
    requires g in FirstByKey(grants, TitleKey) && g !in Processed(grants) && h in Processed(grants)
    ensures Score(h) >= Score(g)
  {
    var u := FirstByKey(grants, TitleKey);
    var s := SortDesc(u, Score);
    var r := Processed(grants);
    SortDescProperties(u, Score);
    assert g in multiset(u);
    assert g in multiset(s);
    var k :| 0 <= k < |s| && s[k] == g;
    var m :| 0 <= m < |r| && r[m] == h;
    assert s[m] == h;
    forall i | 0 <= i < |r| ensures s[i] != g {
      assert r[i] == s[i];
    }
    assert k >= |r|;
  }

  // ---------------------------------------------------------------------------
  // Search

  const SectionUrls: seq<string> := [
    "https://www.cdti.es/index.asp?MP=4&MS=0&MN=1",
    "https://www.cdti.es/index.asp?MP=4&MS=0&MN=4",
    "https://www.cdti.es/index.asp?MP=100&MS=606&MN=2"
  ]

  /** The grants of the first `n` sections, in order. */
  function SectionsGrants(sector: string, env: Env, n: nat): (r: seq<Grant>)
    requires n <= |SectionUrls|
    ensures forall g :: g in r ==> IsCdtiRecord(g, sector)
  {
    if n == 0 then [] else SectionsGrants(sector, env, n - 1) + SectionGrants(SectionUrls[n - 1], sector, env)
  }

  /** What `search` returns. */
  function SearchResult(sector: string, env: Env): seq<Grant> {
    if env.bs4Available then Processed(SectionsGrants(sector, env, |SectionUrls|)) else []
  }

  /** The loop of `search` over the three sections, in order. */
  method ScrapeSections(sector: string, env: Env) returns (allGrants: seq<Grant>)
    ensures allGrants == SectionsGrants(sector, env, |SectionUrls|)
  {
    allGrants := [];
    for i := 0 to |SectionUrls|
      invariant allGrants == SectionsGrants(sector, env, i)
    {
      var sectionGrants := ScrapeSection(SectionUrls[i], sector, env);
      allGrants := allGrants + sectionGrants;
    }
  }

  /** `search`: the three sections in order, then `_process_results`. */
  method Search(sector: string, companyType: string, region: string, env: Env) returns (r: seq<Grant>)
    ensures r == SearchResult(sector, env)
  {
    if !env.bs4Available {
      return [];
    }
    var allGrants := ScrapeSections(sector, env);
    r := ProcessResults(allGrants, sector, companyType, region);
  }

  /** Every record the adapter returns was admitted, carries a title of at
      most 200 characters and an identifier the aggregator dedups on, and the
      list holds at most 8 records. */
  lemma SearchResultProperties(sector: string, env: Env)
    ensures |SearchResult(sector, env)| <= MaxCdtiResults
    ensures forall g :: g in SearchResult(sector, env) ==> IsCdtiRecord(g, sector)
    ensures !env.bs4Available ==> SearchResult(sector, env) == []
  {
    if env.bs4Available {
      ProcessedProperties(SectionsGrants(sector, env, |SectionUrls|));
    }
  }
}
