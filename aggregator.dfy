/** The aggregator `RealGrantAPI`: a result cache keyed by the four search
    facets, the adapters queried in a fixed order, the all-or-nothing fallback
    when an adapter raises, and the dedup / newest-first / top-25
    post-processing. */
module Aggregator {
  import opened Common
  import opened Dates
  import opened Lists
  import opened Records

  // ---------------------------------------------------------------------------
  // Facets and the cache key

  datatype Facets = Facets(sector: string, location: string, companyType: string, region: string)

  /** The cache key: the four facets joined by underscores. It starts with
      the sector and one separator, and has three separators' worth of
      characters beyond the facets. */
  function CacheKey(f: Facets): (k: string)
    ensures |k| == |f.sector| + |f.location| + |f.companyType| + |f.region| + 3
    ensures f.sector + "_" <= k
  {
    f.sector + "_" + f.location + "_" + f.companyType + "_" + f.region
  }

  /** Seconds a cached list stays valid. */
  const CacheTimeout: int := 1800

  /** Each key maps to the processed list and the clock reading (in seconds)
      at which it was stored. */
  type Cache = map<string, (seq<Grant>, int)>

  /** A lookup that the cache answers by itself. */
  predicate Fresh(cache: Cache, key: string, now: int) {
    key in cache && now - cache[key].1 < CacheTimeout
  }

  /** In `x + "_" + y` with no underscore in `x`, the first underscore is the
      separator. */
  lemma FirstSeparator(x: string, y: string)
    requires '_' !in x
    ensures (x + "_" + y)[|x|] == '_'
    ensures forall i :: 0 <= i < |x| ==> (x + "_" + y)[i] != '_'
  {
    forall i | 0 <= i < |x| ensures (x + "_" + y)[i] != '_' {
      assert (x + "_" + y)[i] == x[i];
    }
  }

  /** Joining with a separator that occurs in neither left part can be undone. */
  lemma SplitAtSeparator(x: string, y: string, x': string, y': string)
    requires '_' !in x && '_' !in x'
    requires x + "_" + y == x' + "_" + y'
    ensures x == x' && y == y'
  {
    var s := x + "_" + y;
    FirstSeparator(x, y);
    FirstSeparator(x', y');
    assert x == s[..|x|] == x';
    assert y == s[|x| + 1..] == y';
  }

  /** As long as the sector, location and company type contain no underscore,
      different facet combinations get different cache entries. */
  lemma CacheKeyInjective(a: Facets, b: Facets)
    requires '_' !in a.sector && '_' !in a.location && '_' !in a.companyType
    requires '_' !in b.sector && '_' !in b.location && '_' !in b.companyType
    requires CacheKey(a) == CacheKey(b)
    ensures a == b
  {
    assert CacheKey(a) == a.sector + "_" + (a.location + "_" + a.companyType + "_" + a.region);
    assert CacheKey(b) == b.sector + "_" + (b.location + "_" + b.companyType + "_" + b.region);
    SplitAtSeparator(a.sector, a.location + "_" + a.companyType + "_" + a.region,
                     b.sector, b.location + "_" + b.companyType + "_" + b.region);
    assert a.location + "_" + a.companyType + "_" + a.region == a.location + "_" + (a.companyType + "_" + a.region);
    assert b.location + "_" + b.companyType + "_" + b.region == b.location + "_" + (b.companyType + "_" + b.region);
    SplitAtSeparator(a.location, a.companyType + "_" + a.region, b.location, b.companyType + "_" + b.region);
    SplitAtSeparator(a.companyType, a.region, b.companyType, b.region);
  }

  /** Facets are free-form request arguments, and with an underscore inside a
      facet two different searches share one cache entry. */
  lemma CacheKeyCollision()
    ensures var a := Facets("Salud_Madrid", "España", "PYME", "Todas");
      var b := Facets("Salud", "Madrid_España", "PYME", "Todas");
      a != b && CacheKey(a) == CacheKey(b)
  {
    var a := Facets("Salud_Madrid", "España", "PYME", "Todas");
    var b := Facets("Salud", "Madrid_España", "PYME", "Todas");
    assert a.sector != b.sector by { assert |a.sector| != |b.sector|; }
  }

  // ---------------------------------------------------------------------------
  // Dedup key and publication-date key

  /** The identity used to drop duplicates: source and identifier when the
      record has a usable identifier, otherwise source and the title
      lower-cased with every non-word character removed. Every key starts
      with the source and an underscore; without a usable identifier the
      rest holds word characters only. */
  function DedupKey(g: Grant): (k: string)
    ensures g.source + "_" <= k
    ensures (g.identifier.None? || g.identifier.value == "NO_ID" || |g.identifier.value| <= 3) ==>
      forall i :: |g.source| < i < |k| ==> IsWordChar(k[i])
  {
    var identifier := match g.identifier case Some(id) => id case None => "NO_ID";
    if identifier == "NO_ID" || |identifier| <= 3 then
      g.source + "_" + KeepChars(Lower(g.title), IsWordChar)
    else
      g.source + "_" + identifier
  }

  /** The day a record sorts by: its ISO publication date, or 1900-01-01 when
      that does not parse. */
  function PublicationKey(g: Grant): int {
    match ParseIso(g.publicationDate)
    case Some(d) => Ordinal(d)
    case None => Ordinal(Epoch1900)
  }

  /** Records from different sources are never taken for duplicates of each
      other, as long as source names contain no underscore (the BOE and CDTI
      names do not). */
  lemma DedupKeySeparatesSources(g: Grant, h: Grant)
    requires '_' !in g.source && '_' !in h.source && g.source != h.source
    ensures DedupKey(g) != DedupKey(h)
  {
    if DedupKey(g) == DedupKey(h) {
      var x := DedupKey(g)[|g.source| + 1..];
      var y := DedupKey(h)[|h.source| + 1..];
      assert DedupKey(g) == g.source + "_" + x;
      assert DedupKey(h) == h.source + "_" + y;
      SplitAtSeparator(g.source, x, h.source, y);
    }
  }

  /** Two records without a usable identifier whose titles differ only in
      letter case are duplicates. */
  lemma DedupKeyIgnoresCase(g: Grant)
    requires g.identifier.None?
    ensures DedupKey(g.(title := Lower(g.title))) == DedupKey(g)
  {
    LowerIdempotent(g.title);
  }

  /** Records whose publication dates parse are ordered as their dates are. */
  lemma PublicationKeyOrder(g: Grant, h: Grant, d: Date, e: Date)
    requires ParseIso(g.publicationDate) == Some(d) && ParseIso(h.publicationDate) == Some(e)
    ensures PublicationKey(g) < PublicationKey(h) <==> Before(d, e)
  {
    OrdinalOrder(d, e);
  }

  // ---------------------------------------------------------------------------
  // Post-processing

  const MaxResults: nat := 25

  /** What `_process_results` computes: the first record per dedup key,
      stably sorted newest first, cut to 25. */
  function Processed(grants: seq<Grant>): seq<Grant> {
    Take(SortDesc(FirstByKey(grants, DedupKey), PublicationKey), MaxResults)
  }

  /** `_process_results`: one pass that records the keys already seen and
      keeps each record whose key is new, then the sort and the cut. The
      facets are accepted and not used. */
  method ProcessResults(grants: seq<Grant>, sector: string, location: string, companyType: string, region: string)
    returns (r: seq<Grant>)
    ensures r == Processed(grants)
  {
    var unique: seq<Grant> := [];
    var seenIds: set<string> := {};
    var i := 0;
    while i < |grants|
      invariant 0 <= i <= |grants|
      invariant unique + DedupFrom(grants[i..], DedupKey, seenIds) == FirstByKey(grants, DedupKey)
    {
      var uniqueId := DedupKey(grants[i]);
      DedupFromStep(grants, i, DedupKey, seenIds, unique, FirstByKey(grants, DedupKey));
      if uniqueId !in seenIds {
        seenIds := seenIds + {uniqueId};
        unique := unique + [grants[i]];
      }
      i := i + 1;
    }
    assert grants[i..] == [];
    assert unique == FirstByKey(grants, DedupKey);
    var sorted := SortDesc(unique, PublicationKey);
    r := Take(sorted, MaxResults);
  }

  /** What the post-processing promises: at most 25 records, a prefix of the
      deduplicated list sorted newest first, taken from the input, no two
      with one dedup key, and, when at most 25 distinct keys occur, one record
      for every key of the input. */
  lemma ProcessedProperties(grants: seq<Grant>)
    ensures var r := Processed(grants);
      && |r| <= MaxResults
      && r <= SortDesc(FirstByKey(grants, DedupKey), PublicationKey)
      && SortedDesc(r, PublicationKey)
      && (forall g :: g in r ==> g in grants)
      && DistinctKeys(r, DedupKey)
      && (|FirstByKey(grants, DedupKey)| <= MaxResults ==> KeySet(r, DedupKey) == KeySet(grants, DedupKey))
  {
    var u := FirstByKey(grants, DedupKey);
    var s := SortDesc(u, PublicationKey);
    var r := Processed(grants);
    FirstByKeyProperties(grants, DedupKey);
    SortDescProperties(u, PublicationKey);
    SortDescDistinct(u, PublicationKey, DedupKey);
    forall g | g in r ensures g in grants {
      assert g in s;
      SortDescMember(u, PublicationKey, g);
    }
    forall i, j | 0 <= i < j < |r| ensures DedupKey(r[i]) != DedupKey(r[j]) {
      assert r[i] == s[i] && r[j] == s[j];
    }
    if |u| <= MaxResults {
      ProcessedCoversKeys(grants);
    }
  }

  /** When the cut removes nothing, every dedup key of the input survives. */
  lemma ProcessedCoversKeys(grants: seq<Grant>)
    requires |FirstByKey(grants, DedupKey)| <= MaxResults
    ensures KeySet(Processed(grants), DedupKey) == KeySet(grants, DedupKey)
  {
    var u := FirstByKey(grants, DedupKey);
    var s := SortDesc(u, PublicationKey);
    FirstByKeyProperties(grants, DedupKey);
    SortDescProperties(u, PublicationKey);
    assert Processed(grants) == s;
    assert forall x :: x in s <==> x in multiset(s);
    assert forall x :: x in u <==> x in multiset(u);
    assert KeySet(s, DedupKey) == KeySet(u, DedupKey);
  }

  /** Newest first in calendar terms: a record never comes before one with a
      later publication date, and a record whose date does not parse never
      comes before one dated after 1900-01-01. */
  lemma ProcessedNewestFirst(grants: seq<Grant>, i: nat, j: nat)
    requires i < j < |Processed(grants)|
    ensures var r := Processed(grants);
      forall d, e :: ParseIso(r[i].publicationDate) == Some(d) && ParseIso(r[j].publicationDate) == Some(e)
        ==> !Before(d, e)
    ensures var r := Processed(grants);
      ParseIso(r[i].publicationDate).None? ==>
        forall e :: ParseIso(r[j].publicationDate) == Some(e) ==> !Before(Epoch1900, e)
  {
    var r := Processed(grants);
    ProcessedProperties(grants);
    assert PublicationKey(r[i]) >= PublicationKey(r[j]);
    forall d, e | ParseIso(r[i].publicationDate) == Some(d) && ParseIso(r[j].publicationDate) == Some(e)
      ensures !Before(d, e)
    {
      OrdinalOrder(d, e);
    }
    forall e | ParseIso(r[i].publicationDate).None? && ParseIso(r[j].publicationDate) == Some(e)
      ensures !Before(Epoch1900, e)
    {
      OrdinalOrder(Epoch1900, e);
    }
  }

  // ---------------------------------------------------------------------------
  // Adapters

  datatype Adapter = BoeApi | EuFunding | CdtiWeb | IdaeWeb

  /** What a call to an adapter did: returned records, or raised. */
  datatype Outcome = Returned(grants: seq<Grant>) | Raised

  /** The accumulated list after the adapter block, the adapters that were
      started, and whether the block ended in the exception handler. */
  datatype Collected = Collected(grants: seq<Grant>, invoked: seq<Adapter>, failed: bool)

  /** The EU Funding & Tenders adapter: a stub that finds nothing. */
  function EuFundingSearch(f: Facets): seq<Grant> { [] }

  /** The IDAE adapter: a stub that finds nothing. */
  function IdaeSearch(f: Facets): seq<Grant> { [] }

  /** The classes the `cdti` module defines. */
  const CdtiModuleClasses: set<string> := {"CdtiScraper"}

  /** The class name the aggregator looks up in that module as written, and
      the name it evidently means. */
  const CdtiClassAsWritten: string := "CdtisScraper"
  const CdtiClass: string := "CdtiScraper"

  /** The adapter block with the CDTI class looked up under `cdtiClass`: BOE,
      EU, CDTI, IDAE in that order, each result appended; any exception,
      including the failed attribute lookup, replaces everything gathered
      with the empty fallback list. */
  function CollectWith(cdtiClass: string, f: Facets, boe: Facets -> Outcome, cdti: Facets -> Outcome): Collected {
    match boe(f)
    case Raised => Collected([], [BoeApi], true)
    case Returned(b) =>
      var afterEu := b + EuFundingSearch(f);
      if cdtiClass !in CdtiModuleClasses then Collected([], [BoeApi, EuFunding], true)
      else match cdti(f)
        case Raised => Collected([], [BoeApi, EuFunding, CdtiWeb], true)
        case Returned(c) => Collected(afterEu + c + IdaeSearch(f), [BoeApi, EuFunding, CdtiWeb, IdaeWeb], false)
  }

  /** The adapter block as written, with the misspelt class name. */
  function CollectAsWritten(f: Facets, boe: Facets -> Outcome, cdti: Facets -> Outcome): (r: Collected)
    ensures r.invoked == if boe(f).Raised? then [BoeApi] else [BoeApi, EuFunding]
  {
    CollectWith(CdtiClassAsWritten, f, boe, cdti)
  }

  /** The adapter block with the class name it means. The adapters start in
      order until one raises, and every record returned comes from the BOE or
      the CDTI adapter. */
  function Collect(f: Facets, boe: Facets -> Outcome, cdti: Facets -> Outcome): (r: Collected)
    ensures r.invoked ==
      if boe(f).Raised? then [BoeApi]
      else if cdti(f).Raised? then [BoeApi, EuFunding, CdtiWeb]
      else [BoeApi, EuFunding, CdtiWeb, IdaeWeb]
    ensures forall g :: g in r.grants ==>
      (boe(f).Returned? && g in boe(f).grants) || (cdti(f).Returned? && g in cdti(f).grants)
  {
    CollectWith(CdtiClass, f, boe, cdti)
  }

  /** As written, the adapter block always ends in the handler: the BOE is
      queried, the EU stub runs, the CDTI lookup raises, and whatever the BOE
      returned is thrown away. */
  lemma CollectAsWrittenAlwaysFails(f: Facets, boe: Facets -> Outcome, cdti: Facets -> Outcome)
    ensures var c := CollectAsWritten(f, boe, cdti);
      c.failed && c.grants == [] && CdtiWeb !in c.invoked && c.invoked[0] == BoeApi
  {
  }

  /** The concrete case: one BOE record is found and none reaches the caller. */
  lemma CollectAsWrittenDiscardsBoe(g: Grant)
    ensures var f := Facets("Todos", "Todas", "Todos", "Todas");
      var boe := (x: Facets) => Returned([g]);
      var cdti := (x: Facets) => Returned([]);
      CollectAsWritten(f, boe, cdti).grants == [] && Collect(f, boe, cdti).grants == [g]
  {
    var f := Facets("Todos", "Todas", "Todos", "Todas");
    assert CdtiClass in CdtiModuleClasses;
    assert CdtiClassAsWritten !in CdtiModuleClasses by {
      assert CdtiClassAsWritten != "CdtiScraper" by { assert |CdtiClassAsWritten| != |"CdtiScraper"|; }
    }
  }

  /** With the class name fixed, when no adapter raises the result is every
      adapter's records in adapter order, all four adapters having run. */
  lemma CollectConcatenates(f: Facets, boe: Facets -> Outcome, cdti: Facets -> Outcome)
    requires boe(f).Returned? && cdti(f).Returned?
    ensures var c := Collect(f, boe, cdti);
      && !c.failed
      && c.grants == boe(f).grants + cdti(f).grants
      && c.invoked == [BoeApi, EuFunding, CdtiWeb, IdaeWeb]
  {
    assert CdtiClass in CdtiModuleClasses;
    assert boe(f).grants + [] + cdti(f).grants + [] == boe(f).grants + cdti(f).grants;
  }

  /** With the class name fixed, the handler runs exactly when an adapter
      raises, and then nothing gathered before survives. */
  lemma CollectFallback(f: Facets, boe: Facets -> Outcome, cdti: Facets -> Outcome)
    ensures var c := Collect(f, boe, cdti);
      && (c.failed <==> boe(f).Raised? || cdti(f).Raised?)
      && (c.failed ==> c.grants == [])
      && (boe(f).Raised? ==> c.invoked == [BoeApi])
  {
    assert CdtiClass in CdtiModuleClasses;
  }

  // ---------------------------------------------------------------------------
  // One search

  /** What one call of `search_grants` returns, the cache it leaves, and the
      adapters it starts. */
  datatype SearchStep = SearchStep(result: seq<Grant>, cache: Cache, invoked: seq<Adapter>)

  /** The search with the adapter block `collect`: a fresh cache entry is
      returned as it is; otherwise the gathered records are post-processed
      and stored with the current time, fallback included. */
  function SearchWith(collect: Collected, cache: Cache, f: Facets, now: int): SearchStep {
    var key := CacheKey(f);
    if Fresh(cache, key, now) then SearchStep(cache[key].0, cache, [])
    else
      var r := Processed(collect.grants);
      SearchStep(r, cache[key := (r, now)], collect.invoked)
  }

  /** `search_grants` as written. Whatever it returns is what the cache then
      holds under the search's key, no other key appears, and adapters start
      exactly when the cache cannot answer. */
  function SearchAsWritten(cache: Cache, f: Facets, now: int, boe: Facets -> Outcome, cdti: Facets -> Outcome): (r: SearchStep)
    ensures r.cache.Keys == cache.Keys + {CacheKey(f)}
    ensures r.cache[CacheKey(f)].0 == r.result
    ensures r.invoked == [] <==> Fresh(cache, CacheKey(f), now)
  {
    SearchWith(CollectAsWritten(f, boe, cdti), cache, f, now)
  }

  /** `search_grants` with the class name fixed, with the same cache and
      adapter guarantees as the code as written. */
  function Search(cache: Cache, f: Facets, now: int, boe: Facets -> Outcome, cdti: Facets -> Outcome): (r: SearchStep)
    ensures r.cache.Keys == cache.Keys + {CacheKey(f)}
    ensures r.cache[CacheKey(f)].0 == r.result
    ensures r.invoked == [] <==> Fresh(cache, CacheKey(f), now)
  {
    SearchWith(Collect(f, boe, cdti), cache, f, now)
  }

  /** As written, every search the cache does not answer returns nothing, and
      the empty list is then served from the cache for the next 1800 s. */
  lemma SearchAsWrittenMissIsEmpty(cache: Cache, f: Facets, now: int, boe: Facets -> Outcome, cdti: Facets -> Outcome)
    requires !Fresh(cache, CacheKey(f), now)
    ensures var s := SearchAsWritten(cache, f, now, boe, cdti);
      s.result == [] && s.cache[CacheKey(f)] == ([], now)
  {
    CollectAsWrittenAlwaysFails(f, boe, cdti);
  }

  /** A fresh entry is returned unchanged, the cache is left alone and no
      adapter is started. */
  lemma SearchHit(cache: Cache, f: Facets, now: int, boe: Facets -> Outcome, cdti: Facets -> Outcome)
    requires Fresh(cache, CacheKey(f), now)
    ensures var s := Search(cache, f, now, boe, cdti);
      s.result == cache[CacheKey(f)].0 && s.cache == cache && s.invoked == []
  {
  }

  /** On a miss the adapters are started, BOE first, the post-processed
      result is stored under the key with the current time, and no other key
      changes. */
  lemma SearchMiss(cache: Cache, f: Facets, now: int, boe: Facets -> Outcome, cdti: Facets -> Outcome)
    requires !Fresh(cache, CacheKey(f), now)
    ensures var s := Search(cache, f, now, boe, cdti);
      && s.result == Processed(Collect(f, boe, cdti).grants)
      && s.cache[CacheKey(f)] == (s.result, now)
      && s.invoked != [] && s.invoked[0] == BoeApi
      && (forall k :: k != CacheKey(f) ==> (k in s.cache <==> k in cache))
      && (forall k :: k != CacheKey(f) && k in cache ==> s.cache[k] == cache[k])
  {
  }

  /** An expired entry is not served: the adapters run again. */
  lemma SearchExpired(cache: Cache, f: Facets, now: int, boe: Facets -> Outcome, cdti: Facets -> Outcome)
    requires CacheKey(f) in cache && now - cache[CacheKey(f)].1 >= CacheTimeout
    ensures Search(cache, f, now, boe, cdti).invoked != []
  {
  }

  /** When an adapter raises, the search returns the empty list and caches
      it. */
  lemma SearchFallbackCached(cache: Cache, f: Facets, now: int, boe: Facets -> Outcome, cdti: Facets -> Outcome)
    requires !Fresh(cache, CacheKey(f), now)
    requires boe(f).Raised? || cdti(f).Raised?
    ensures var s := Search(cache, f, now, boe, cdti);
      s.result == [] && s.cache[CacheKey(f)] == ([], now)
  {
    CollectFallback(f, boe, cdti);
  }

  /** Repeating a search within 1800 s of the call that filled its entry gives the same list without starting
      any adapter, whatever the adapters would now return. */
  lemma SearchRepeatWithinTimeout(cache: Cache, f: Facets, now: int, later: int,
                                  boe: Facets -> Outcome, cdti: Facets -> Outcome,
                                  boe': Facets -> Outcome, cdti': Facets -> Outcome)
    requires !Fresh(cache, CacheKey(f), now)
    requires now <= later < now + CacheTimeout
    ensures var s := Search(cache, f, now, boe, cdti);
      var s' := Search(s.cache, f, later, boe', cdti');
      s'.result == s.result && s'.cache == s.cache && s'.invoked == []
  {
  }

  // ---------------------------------------------------------------------------
  // The aggregator object

  class RealGrantApi {
    /** The result cache. */
    var cache: Cache
    /** The adapters started so far, in order. */
    ghost var invoked: seq<Adapter>

    constructor ()
      ensures cache == map[] && invoked == []
    {
      cache := map[];
      invoked := [];
    }

    /** `_get_fallback_data`: the empty list. */
    static function FallbackData(): seq<Grant> { [] }

    /** `search_grants` with the class name fixed: the adapters are the
        parameters `boe` and `cdti` (the EU and IDAE stubs find nothing), and
        `now` is the clock reading in seconds. */
    method SearchGrants(sector: string, location: string, companyType: string, region: string, now: int,
                        boe: Facets -> Outcome, cdti: Facets -> Outcome)
      returns (r: seq<Grant>)
      modifies this
      ensures var s := Search(old(cache), Facets(sector, location, companyType, region), now, boe, cdti);
        r == s.result && cache == s.cache && invoked == old(invoked) + s.invoked
    {
      var f := Facets(sector, location, companyType, region);
      var cacheKey := CacheKey(f);
      if cacheKey in cache {
        var (cachedData, timestamp) := cache[cacheKey];
        if now - timestamp < CacheTimeout {
          return cachedData;
        }
      }
      var allGrants: seq<Grant> := [];
      var failed := false;
      invoked := invoked + [BoeApi];
      var b := boe(f);
      if b.Raised? {
        failed := true;
      } else {
        allGrants := allGrants + b.grants;
        invoked := invoked + [EuFunding];
        allGrants := allGrants + EuFundingSearch(f);
        if CdtiClass !in CdtiModuleClasses {
          failed := true;
        } else {
          invoked := invoked + [CdtiWeb];
          var c := cdti(f);
          if c.Raised? {
            failed := true;
          } else {
            allGrants := allGrants + c.grants;
            invoked := invoked + [IdaeWeb];
            allGrants := allGrants + IdaeSearch(f);
          }
        }
      }
      if failed {
        allGrants := FallbackData();
      }
      assert allGrants == Collect(f, boe, cdti).grants;
      assert invoked == old(invoked) + Collect(f, boe, cdti).invoked;
      r := ProcessResults(allGrants, sector, location, companyType, region);
      cache := cache[cacheKey := (r, now)];
    }
  }
}
