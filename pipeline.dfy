/**
 * The request semantics of `MCPHandlers` (backend/mcp_server/handlers.py) as
 * pure functions over the three caches: what one call of
 * `similarity_by_point`, `similarity_by_text` or the start-up warmup does to
 * the caches, what it answers and which external calls it makes. The class in
 * handlers.dfy is proved to follow these functions; the properties of the
 * caching discipline are lemmas about them.
 *
 * The DuckDB client is an oracle: `chipAt(lon, lat)` is `get_chip_by_point`
 * and `similar(vec, limit)` is what `get_similar_chips` returns once it has
 * accepted the seed vector.
 */
module Pipeline {
  import opened Wrappers
  import opened Coordinates
  import Osm
  import Text

  type ChipId = string
  type Vector = seq<real>

  /** A chip row: `{"chips_id", "vec"}`. */
  datatype Chip = Chip(id: ChipId, vec: Vector)

  /** A similarity row: `{"chips_id", "similarity", "lon", "lat"}`. */
  datatype Match = Match(chipId: ChipId, similarity: real, lon: int, lat: int)

  /** A row of the response: the match with its `"thumbnail"` added. */
  datatype Thumbed = Thumbed(chipId: ChipId, similarity: real, lon: int, lat: int, thumbnail: string)

  /** The two DuckDB queries the coordinator uses. */
  datatype Db = Db(chipAt: (int, int) -> Option<Chip>, similar: (Vector, int) -> seq<Match>)

  /** A step that either returns a value or raises an exception. */
  datatype Attempt<T> = Done(value: T) | Raise

  /** `similarity_by_point`'s answer. */
  datatype PointResponse =
    | Similar(seedChip: ChipId, results: seq<Thumbed>)
    | NoChip(error: string, lon: int, lat: int)
    | PointRaised

  /**
   * `similarity_by_text`'s answer. `TextResult` is the merged dictionary
   * `{"query", "poi", **similarity_result}`.
   */
  datatype TextResponse =
    | TextResult(query: string, poi: Osm.Poi, point: PointResponse)
    | NoGeocode(error: string, query: string)
    | TextRaised

  /** `_geocode_cache`, `_chip_cache` and `_sim_cache`. */
  datatype Caches = Caches(geocode: map<string, Osm.Poi>, chips: map<Key, Chip>, sims: map<ChipId, seq<Match>>)

  /** An expensive external call, as recorded by the coordinator's call log. */
  datatype Call = GeocodeCall(query: string) | ChipCall(lon: int, lat: int) | SimilarCall(vec: Vector, limit: int)

  /** The caches after a request, its answer, and the external calls it made, in order. */
  datatype Step<R> = Step(caches: Caches, response: R, calls: seq<Call>)

  /** What one warmup phrase came to: it ran to the end, or its exception was swallowed. */
  datatype WarmOutcome = Completed | Failed

  datatype Warmed = Warmed(caches: Caches, outcomes: seq<WarmOutcome>, calls: seq<Call>)

  /**
   * `OsmClient.geocode` as the coordinator sees it: one answer per query. The
   * class instantiates it with `OsmResolver`, the network being that of the
   * request at hand.
   */
  type Resolver = string -> Osm.Geocoded

  /** The geocoding step warmup runs for one phrase. */
  type WarmStep = string -> Attempt<Option<Osm.Poi>>

  const EmptyCaches: Caches := Caches(map[], map[], map[])

  const EmbeddingLength: int := 1024

  /** The `limit` both entry points pass to `get_similar_chips`. */
  const SimilarLimit: int := 8

  const ThumbBase: string := "https://lgnd-fullstack-takehome-thumbnails.s3.us-east-2.amazonaws.com"
  const ThumbSuffix: string := "_native.jpeg"

  const NoChipError: string := "No chip found at that location"
  const NoGeocodeError: string := "No OSM result for query"

  const WarmupQueries: seq<string> := ["airport", "marina", "parking lot", "downtown", "bridge"]

  /** `get_similar_chips` accepts only 1024 components with a non-zero norm. */
  predicate ValidVector(v: Vector) {
    |v| == EmbeddingLength && exists i :: 0 <= i < |v| && v[i] != 0.0
  }

  /** `get_similar_chips(vec, limit)`: raises `ValueError` on a vector it rejects. */
  function SimilarChips(db: Db, vec: Vector, limit: int): (r: Attempt<seq<Match>>)
    ensures r == Raise <==> !ValidVector(vec)
  {
    if ValidVector(vec) then Done(db.similar(vec, limit)) else Raise
  }

  // ---------------------------------------------------------------------------
  // Response payload
  // ---------------------------------------------------------------------------

  /** `f"{THUMB_BASE}/{cid}_native.jpeg"`. */
  function Thumbnail(id: ChipId): (url: string)
    ensures |url| == |ThumbBase| + 1 + |id| + |ThumbSuffix|
    ensures url[..|ThumbBase| + 1] == ThumbBase + "/"
    ensures url[|ThumbBase| + 1..|url| - |ThumbSuffix|] == id
    ensures url[|url| - |ThumbSuffix|..] == ThumbSuffix
  {
    ThumbBase + "/" + id + ThumbSuffix
  }

  /** Reads the chip id back out of a thumbnail URL, if it has the thumbnail shape. */
  function ChipIdOfThumbnail(url: string): Option<ChipId> {
    var head, tail := |ThumbBase| + 1, |ThumbSuffix|;
    if |url| >= head + tail && url[..head] == ThumbBase + "/" && url[|url| - tail..] == ThumbSuffix
    then Some(url[head..|url| - tail])
    else None
  }

  /** Every thumbnail URL names its chip: parsing it gives the id back. */
  lemma ThumbnailRoundTrip(id: ChipId)
    ensures ChipIdOfThumbnail(Thumbnail(id)) == Some(id)
  {
    var url := Thumbnail(id);
    var head := |ThumbBase| + 1;
    assert url[..head] == ThumbBase + "/";
    assert url[|url| - |ThumbSuffix|..] == ThumbSuffix;
    assert url[head..|url| - |ThumbSuffix|] == id;
  }

  /** Different chips never share a thumbnail. */
  lemma ThumbnailInjective(a: ChipId, b: ChipId)
    requires Thumbnail(a) == Thumbnail(b)
    ensures a == b
  {
    ThumbnailRoundTrip(a);
    ThumbnailRoundTrip(b);
  }

  /** `{**m, "thumbnail": ...}` for one match. */
  function WithThumbnail(m: Match): (t: Thumbed)
    ensures ChipIdOfThumbnail(t.thumbnail) == Some(m.chipId)
  {
    ThumbnailRoundTrip(m.chipId);
    Thumbed(m.chipId, m.similarity, m.lon, m.lat, Thumbnail(m.chipId))
  }

  /**
   * The `results` list: one row per match, in the matches' order, each row the
   * match's fields plus the thumbnail of its own chip.
   */
  function Payload(ms: seq<Match>): (r: seq<Thumbed>)
    ensures |r| == |ms|
    ensures forall i :: 0 <= i < |ms| ==>
      && r[i].chipId == ms[i].chipId && r[i].similarity == ms[i].similarity
      && r[i].lon == ms[i].lon && r[i].lat == ms[i].lat
      && r[i].thumbnail == Thumbnail(ms[i].chipId)
  {
    if ms == [] then [] else Payload(ms[..|ms| - 1]) + [WithThumbnail(ms[|ms| - 1])]
  }

  // ---------------------------------------------------------------------------
  // similarity_by_point and similarity_by_text
  // ---------------------------------------------------------------------------

  /** Steps 2 and 3 of `similarity_by_point`, once the seed chip is known. */
  function SimilarityFor(c: Caches, db: Db, chip: Chip, calls: seq<Call>): (s: Step<PointResponse>)
    ensures s.caches.geocode == c.geocode && s.caches.chips == c.chips
    ensures !s.response.NoChip?
    ensures s.response.PointRaised? <==> chip.id !in c.sims && !ValidVector(chip.vec)
    ensures s.response.Similar? ==>
      && s.response.seedChip == chip.id && chip.id in s.caches.sims
      && s.response.results == Payload(s.caches.sims[chip.id])
    ensures chip.id in c.sims ==> s.caches == c && s.calls == calls
    ensures chip.id !in c.sims ==> s.calls == calls + [SimilarCall(chip.vec, SimilarLimit)]
  {
    if chip.id in c.sims then
      Step(c, Similar(chip.id, Payload(c.sims[chip.id])), calls)
    else
      var calls' := calls + [SimilarCall(chip.vec, SimilarLimit)];
      match SimilarChips(db, chip.vec, SimilarLimit)
      case Raise => Step(c, PointRaised, calls')
      case Done(ms) => Step(c.(sims := c.sims[chip.id := ms]), Similar(chip.id, Payload(ms)), calls')
  }

  /** `similarity_by_point(lon, lat)`. */
  function ByPoint(c: Caches, db: Db, lon: int, lat: int): (s: Step<PointResponse>)
    ensures s.caches.geocode == c.geocode
    ensures s.response.NoChip? ==> s.caches == c && s.calls == [ChipCall(lon, lat)]
    ensures s.response.Similar? ==>
      && CacheKey(lon, lat) in s.caches.chips && s.response.seedChip == s.caches.chips[CacheKey(lon, lat)].id
      && s.response.seedChip in s.caches.sims
      && s.response.results == Payload(s.caches.sims[s.response.seedChip])
    ensures |s.calls| <= 2
  {
    var key := CacheKey(lon, lat);
    if key in c.chips then
      SimilarityFor(c, db, c.chips[key], [])
    else
      match db.chipAt(lon, lat)
      case None => Step(c, NoChip(NoChipError, lon, lat), [ChipCall(lon, lat)])
      case Some(chip) => SimilarityFor(c.(chips := c.chips[key := chip]), db, chip, [ChipCall(lon, lat)])
  }

  /** Step 2 of `similarity_by_text`: delegate to `similarity_by_point` and merge the answers. */
  function ThenByPoint(c: Caches, db: Db, query: string, poi: Osm.Poi, calls: seq<Call>): (s: Step<TextResponse>)
    ensures s.caches.geocode == c.geocode
    ensures |calls| <= |s.calls| <= |calls| + 2 && s.calls[..|calls|] == calls
    ensures !s.response.NoGeocode?
    ensures s.response.TextResult? ==> s.response.query == query && s.response.poi == poi && !s.response.point.PointRaised?
  {
    var s := ByPoint(c, db, poi.lon, poi.lat);
    var response := if s.response.PointRaised? then TextRaised else TextResult(query, poi, s.response);
    Step(s.caches, response, calls + s.calls)
  }

  /**
   * Step 1 of `similarity_by_text`: the geocode cache in front of the resolver.
   * Only a resolved POI is stored, under the normalised query.
   */
  function GeocodeStep(c: Caches, resolve: Resolver, query: string): (g: Step<Osm.Geocoded>)
    ensures g.caches.chips == c.chips && g.caches.sims == c.sims
    ensures g.response.Resolved? ==> Text.Normalize(query) in g.caches.geocode && g.caches.geocode[Text.Normalize(query)] == g.response.poi
    ensures !g.response.Resolved? ==> g.caches == c
    ensures Text.Normalize(query) in c.geocode ==> g.calls == [] && g.caches == c
    ensures Text.Normalize(query) !in c.geocode ==> g.calls == [GeocodeCall(query)] && g.response == resolve(query)
  {
    var q := Text.Normalize(query);
    if q in c.geocode then
      Step(c, Osm.Resolved(c.geocode[q]), [])
    else
      var g := resolve(query);
      Step(if g.Resolved? then c.(geocode := c.geocode[q := g.poi]) else c, g, [GeocodeCall(query)])
  }

  /** `similarity_by_text(query)`. */
  function ByText(c: Caches, db: Db, resolve: Resolver, query: string): (s: Step<TextResponse>)
    ensures s.response.TextResult? ==>
      && s.response.query == query
      && Text.Normalize(query) in s.caches.geocode && s.caches.geocode[Text.Normalize(query)] == s.response.poi
    ensures s.response.NoGeocode? ==> s.caches == c && s.response.query == query
    ensures Text.Normalize(query) in c.geocode ==> !s.response.NoGeocode?
    ensures |s.calls| <= 3
  {
    var g := GeocodeStep(c, resolve, query);
    match g.response
    case NotFound => Step(g.caches, NoGeocode(NoGeocodeError, query), g.calls)
    case Raised => Step(g.caches, TextRaised, g.calls)
    case Resolved(poi) => ThenByPoint(g.caches, db, query, poi, g.calls)
  }

  // ---------------------------------------------------------------------------
  // Warmup
  // ---------------------------------------------------------------------------

  /**
   * One iteration of `_warmup`: geocode the phrase, look its chip up and run
   * its similarity search, writing both caches unconditionally; an exception
   * ends the iteration but keeps what was already written.
   * (`if poi:` and `if chip:` test non-empty dictionaries, that is, presence.)
   */
  function WarmOne(c: Caches, db: Db, step: WarmStep, phrase: string): (w: Warmed)
    ensures |w.outcomes| == 1 && |w.calls| <= 2
    ensures w.caches.geocode == c.geocode
    ensures c.chips.Keys <= w.caches.chips.Keys && c.sims.Keys <= w.caches.sims.Keys
  {
    match step(phrase)
    case Raise => Warmed(c, [Failed], [])
    case Done(None) => Warmed(c, [Completed], [])
    case Done(Some(poi)) =>
      var calls := [ChipCall(poi.lon, poi.lat)];
      match db.chipAt(poi.lon, poi.lat)
      case None => Warmed(c, [Completed], calls)
      case Some(chip) =>
        var c1 := c.(chips := c.chips[CacheKey(poi.lon, poi.lat) := chip]);
        var calls' := calls + [SimilarCall(chip.vec, SimilarLimit)];
        match SimilarChips(db, chip.vec, SimilarLimit)
        case Raise => Warmed(c1, [Failed], calls')
        case Done(ms) => Warmed(c1.(sims := c1.sims[chip.id := ms]), [Completed], calls')
  }

  /** `_warmup` over `phrases`, in order. */
  function Warmup(c: Caches, db: Db, step: WarmStep, phrases: seq<string>): (w: Warmed)
    ensures |w.outcomes| == |phrases|
    ensures |w.calls| <= 2 * |phrases|
    decreases |phrases|
  {
    if phrases == [] then Warmed(c, [], [])
    else
      var w := Warmup(c, db, step, phrases[..|phrases| - 1]);
      var o := WarmOne(w.caches, db, step, phrases[|phrases| - 1]);
      Warmed(o.caches, w.outcomes + o.outcomes, w.calls + o.calls)
  }

  /**
   * The step as the source writes it: `self.osm.sync_geocode(q)` names a
   * method `OsmClient` does not have, so every phrase raises `AttributeError`.
   */
  function AsWrittenStep(): (step: WarmStep)
    ensures forall phrase :: step(phrase) == Raise
  {
    (phrase: string) => Raise
  }

  /** The resolver of module Osm, for a given similarity ratio and network. */
  function OsmResolver(score: Osm.Score, live: Osm.Network): Resolver {
    (query: string) => Osm.Geocode(query, score, live)
  }

  /** The evidently intended step: the resolver's own answer for the phrase. */
  function IntendedStep(resolve: Resolver): WarmStep {
    (phrase: string) =>
      match resolve(phrase)
      case Resolved(poi) => Done(Some(poi))
      case NotFound => Done(None)
      case Raised => Raise
  }

  // ---------------------------------------------------------------------------
  // Properties of the caching discipline
  // ---------------------------------------------------------------------------

  /** Every entry of `c` is still in `c'`, with the same value. */
  ghost predicate Extends(c: Caches, c': Caches) {
    && (forall q :: q in c.geocode ==> q in c'.geocode && c'.geocode[q] == c.geocode[q])
    && (forall k :: k in c.chips ==> k in c'.chips && c'.chips[k] == c.chips[k])
    && (forall id :: id in c.sims ==> id in c'.sims && c'.sims[id] == c.sims[id])
  }

  /**
   * A point request never consults the resolver and never touches the geocode
   * cache; it only adds entries, never overwriting or dropping a cached one.
   */
  lemma ByPointFrame(c: Caches, db: Db, lon: int, lat: int)
    ensures var s := ByPoint(c, db, lon, lat);
      && (forall i :: 0 <= i < |s.calls| ==> !s.calls[i].GeocodeCall?)
      && s.caches.geocode == c.geocode
      && Extends(c, s.caches)
  {
    var key := CacheKey(lon, lat);
    if key in c.chips {
      SimilarityForFrame(c, db, c.chips[key], []);
    } else if db.chipAt(lon, lat).Some? {
      var c1 := c.(chips := c.chips[key := db.chipAt(lon, lat).value]);
      SimilarityForFrame(c1, db, db.chipAt(lon, lat).value, [ChipCall(lon, lat)]);
      ExtendsTransitive(c, c1, ByPoint(c, db, lon, lat).caches);
    }
  }

  /** The similarity step adds at most a similarity entry under a new seed and makes no geocode call. */
  lemma SimilarityForFrame(c: Caches, db: Db, chip: Chip, calls: seq<Call>)
    requires forall i :: 0 <= i < |calls| ==> !calls[i].GeocodeCall?
    ensures var s := SimilarityFor(c, db, chip, calls);
      && (forall i :: 0 <= i < |s.calls| ==> !s.calls[i].GeocodeCall?)
      && Extends(c, s.caches)
  {
  }

  /** Chip-cache hit: no spatial lookup runs, and the cached chip is the seed. */
  lemma ByPointChipHit(c: Caches, db: Db, lon: int, lat: int)
    requires CacheKey(lon, lat) in c.chips
    ensures var s := ByPoint(c, db, lon, lat);
      && (forall i :: 0 <= i < |s.calls| ==> !s.calls[i].ChipCall?)
      && s.caches.chips == c.chips
      && !s.response.NoChip?
      && (s.response.Similar? ==> s.response.seedChip == c.chips[CacheKey(lon, lat)].id)
  {
  }

  /** Chip-cache miss with no containing chip: `{error, lon, lat}`, one lookup, no cache change. */
  lemma ByPointNoChip(c: Caches, db: Db, lon: int, lat: int)
    requires CacheKey(lon, lat) !in c.chips && db.chipAt(lon, lat).None?
    ensures ByPoint(c, db, lon, lat) == Step(c, NoChip(NoChipError, lon, lat), [ChipCall(lon, lat)])
  {
  }

  /** Chip-cache miss with a chip: only that key is added to the chip cache. */
  lemma ByPointStoresChip(c: Caches, db: Db, lon: int, lat: int, chip: Chip)
    requires CacheKey(lon, lat) !in c.chips && db.chipAt(lon, lat) == Some(chip)
    ensures var s := ByPoint(c, db, lon, lat);
      && s.caches.chips == c.chips[CacheKey(lon, lat) := chip]
      && s.caches.geocode == c.geocode
      && s.calls[0] == ChipCall(lon, lat)
      && (s.response.Similar? ==> s.response.seedChip == chip.id)
  {
  }

  /** Similarity-cache hit: no vector search runs and the cached list is answered. */
  lemma SimilarityHit(c: Caches, db: Db, chip: Chip, calls: seq<Call>)
    requires chip.id in c.sims
    ensures SimilarityFor(c, db, chip, calls) == Step(c, Similar(chip.id, Payload(c.sims[chip.id])), calls)
  {
  }

  /**
   * Similarity-cache miss: exactly one search with limit 8; its list, even an
   * empty one, is stored under the seed id; a rejected vector raises and
   * stores nothing.
   */
  lemma SimilarityMiss(c: Caches, db: Db, chip: Chip, calls: seq<Call>)
    requires chip.id !in c.sims
    ensures var s := SimilarityFor(c, db, chip, calls);
      && s.calls == calls + [SimilarCall(chip.vec, 8)]
      && (ValidVector(chip.vec) ==>
            && s.caches == c.(sims := c.sims[chip.id := db.similar(chip.vec, 8)])
            && s.response == Similar(chip.id, Payload(db.similar(chip.vec, 8))))
      && (!ValidVector(chip.vec) ==> s.caches == c && s.response == PointRaised)
  {
  }

  /**
   * A second point request whose coordinates round to the same key as a
   * successful first one makes no external call and answers the same payload.
   */
  lemma ByPointRepeat(c: Caches, db: Db, lon1: int, lat1: int, lon2: int, lat2: int)
    requires ByPoint(c, db, lon1, lat1).response.Similar?
    requires CacheKey(lon1, lat1) == CacheKey(lon2, lat2)
    ensures var s1 := ByPoint(c, db, lon1, lat1);
      ByPoint(s1.caches, db, lon2, lat2) == Step(s1.caches, s1.response, [])
  {
  }

  /**
   * Geocode-cache hit: the resolver is not consulted, and the answer merges the
   * cached POI with the point request at its coordinates.
   */
  lemma ByTextHit(c: Caches, db: Db, resolve: Resolver, query: string)
    requires Text.Normalize(query) in c.geocode
    ensures var s := ByText(c, db, resolve, query);
      var poi := c.geocode[Text.Normalize(query)];
      var p := ByPoint(c, db, poi.lon, poi.lat);
      && s.caches == p.caches && s.calls == p.calls
      && (p.response.PointRaised? ==> s.response == TextRaised)
      && (!p.response.PointRaised? ==> s.response == TextResult(query, poi, p.response))
      && (forall i :: 0 <= i < |s.calls| ==> !s.calls[i].GeocodeCall?)
      && s.caches.geocode == c.geocode
  {
    var poi := c.geocode[Text.Normalize(query)];
    assert ByText(c, db, resolve, query) == ThenByPoint(c, db, query, poi, []);
    ByPointFrame(c, db, poi.lon, poi.lat);
  }

  /** An unresolved query answers `{error, query}` and leaves every cache as it was. */
  lemma ByTextNotFound(c: Caches, db: Db, resolve: Resolver, query: string)
    requires Text.Normalize(query) !in c.geocode && resolve(query) == Osm.NotFound
    ensures ByText(c, db, resolve, query) == Step(c, NoGeocode(NoGeocodeError, query), [GeocodeCall(query)])
  {
  }

  /**
   * A geocoder exception (a malformed first hit) reaches the caller: one
   * geocode call, nothing cached, and the request raises.
   */
  lemma ByTextRaised(c: Caches, db: Db, resolve: Resolver, query: string)
    requires Text.Normalize(query) !in c.geocode && resolve(query) == Osm.Raised
    ensures ByText(c, db, resolve, query) == Step(c, TextRaised, [GeocodeCall(query)])
  {
  }

  /**
   * A resolved query stores its POI under the normalised text and answers the
   * POI merged with the point request for the POI's coordinates.
   */
  lemma ByTextResolved(c: Caches, db: Db, resolve: Resolver, query: string, poi: Osm.Poi)
    requires Text.Normalize(query) !in c.geocode && resolve(query) == Osm.Resolved(poi)
    ensures var s := ByText(c, db, resolve, query);
      var c1 := c.(geocode := c.geocode[Text.Normalize(query) := poi]);
      var p := ByPoint(c1, db, poi.lon, poi.lat);
      && s.caches == p.caches
      && s.caches.geocode == c.geocode[Text.Normalize(query) := poi]
      && s.calls == [GeocodeCall(query)] + p.calls
      && (p.response.PointRaised? ==> s.response == TextRaised)
      && (!p.response.PointRaised? ==> s.response == TextResult(query, poi, p.response))
  {
  }

  lemma ExtendsTransitive(a: Caches, b: Caches, c: Caches)
    requires Extends(a, b) && Extends(b, c)
    ensures Extends(a, c)
  {
  }

  /** The geocode step writes only the geocode cache, and only a key it did not hold. */
  lemma GeocodeStepExtends(c: Caches, resolve: Resolver, query: string)
    ensures var g := GeocodeStep(c, resolve, query);
      && Extends(c, g.caches)
      && g.caches.chips == c.chips && g.caches.sims == c.sims
  {
  }

  /** A text request only adds cache entries. */
  lemma ByTextExtends(c: Caches, db: Db, resolve: Resolver, query: string)
    ensures Extends(c, ByText(c, db, resolve, query).caches)
  {
    var g := GeocodeStep(c, resolve, query);
    GeocodeStepExtends(c, resolve, query);
    if g.response.Resolved? {
      var poi := g.response.poi;
      assert ByText(c, db, resolve, query) == ThenByPoint(g.caches, db, query, poi, g.calls);
      ByPointFrame(g.caches, db, poi.lon, poi.lat);
      ExtendsTransitive(c, g.caches, ByText(c, db, resolve, query).caches);
    }
  }

  /**
   * Repeating a text request that found similar chips makes no external call
   * at all, whatever the network does the second time, and answers the same.
   */
  lemma ByTextRepeat(c: Caches, db: Db, resolve1: Resolver, resolve2: Resolver, query: string)
    requires ByText(c, db, resolve1, query).response.TextResult?
    requires ByText(c, db, resolve1, query).response.point.Similar?
    ensures var s1 := ByText(c, db, resolve1, query);
      ByText(s1.caches, db, resolve2, query) == Step(s1.caches, s1.response, [])
  {
    var s1 := ByText(c, db, resolve1, query);
    var poi := s1.response.poi;
    var g := GeocodeStep(c, resolve1, query);
    assert g.response == Osm.Resolved(poi);
    assert s1 == ThenByPoint(g.caches, db, query, poi, g.calls);
    ByPointRepeat(g.caches, db, poi.lon, poi.lat, poi.lon, poi.lat);
    ByTextHit(s1.caches, db, resolve2, query);
  }


  /** Warmup never writes the geocode cache. */
  lemma {:induction false} WarmupKeepsGeocode(c: Caches, db: Db, step: WarmStep, phrases: seq<string>)
    ensures Warmup(c, db, step, phrases).caches.geocode == c.geocode
    decreases |phrases|
  {
    if phrases != [] {
      WarmupKeepsGeocode(c, db, step, phrases[..|phrases| - 1]);
    }
  }

  /** Warmup only adds keys; it may rewrite a chip entry, but never drops one. */
  lemma {:induction false} WarmupKeepsKeys(c: Caches, db: Db, step: WarmStep, phrases: seq<string>)
    ensures c.chips.Keys <= Warmup(c, db, step, phrases).caches.chips.Keys
    ensures c.sims.Keys <= Warmup(c, db, step, phrases).caches.sims.Keys
    decreases |phrases|
  {
    if phrases != [] {
      WarmupKeepsKeys(c, db, step, phrases[..|phrases| - 1]);
    }
  }

  /** Warming a list is warming a prefix and then the rest from where the prefix left the caches. */
  lemma {:induction false} WarmupSplit(c: Caches, db: Db, step: WarmStep, phrases: seq<string>, i: nat)
    requires i <= |phrases|
    ensures Warmup(c, db, step, phrases).caches
         == Warmup(Warmup(c, db, step, phrases[..i]).caches, db, step, phrases[i..]).caches
    decreases |phrases|
  {
    if i < |phrases| {
      var init := phrases[..|phrases| - 1];
      assert init[..i] == phrases[..i];
      assert phrases[i..][..|phrases[i..]| - 1] == init[i..];
      WarmupSplit(c, db, step, init, i);
    } else {
      assert phrases[..i] == phrases;
    }
  }

  /**
   * Every phrase is processed, in order: there is one outcome per phrase, and
   * phrase i is warmed from the caches the earlier phrases left, whether or
   * not any of them failed.
   */
  lemma {:induction false} WarmupVisitsEvery(c: Caches, db: Db, step: WarmStep, phrases: seq<string>)
    ensures var w := Warmup(c, db, step, phrases);
      && |w.outcomes| == |phrases|
      && forall i :: 0 <= i < |phrases| ==>
           w.outcomes[i] == WarmOne(Warmup(c, db, step, phrases[..i]).caches, db, step, phrases[i]).outcomes[0]
    decreases |phrases|
  {
    if phrases != [] {
      var init, last := phrases[..|phrases| - 1], phrases[|phrases| - 1];
      var wi := Warmup(c, db, step, init);
      var o := WarmOne(wi.caches, db, step, last);
      WarmupVisitsEvery(c, db, step, init);
      var w := Warmup(c, db, step, phrases);
      assert w.outcomes == wi.outcomes + o.outcomes;
      forall i | 0 <= i < |phrases|
        ensures w.outcomes[i] == WarmOne(Warmup(c, db, step, phrases[..i]).caches, db, step, phrases[i]).outcomes[0]
      {
        if i < |init| {
          assert init[..i] == phrases[..i];
        } else {
          assert phrases[..i] == init;
        }
      }
    }
  }

  /**
   * What one warmup phrase writes: nothing when the step raises or finds no
   * POI, nothing after the lookup when no chip contains the POI, the chip
   * under the POI's key when the vector is rejected, and the chip under the
   * POI's key and the search result under the seed id otherwise.
   */
  lemma WarmOneWrites(c: Caches, db: Db, step: WarmStep, phrase: string)
    ensures step(phrase) == Raise ==> WarmOne(c, db, step, phrase) == Warmed(c, [Failed], [])
    ensures step(phrase) == Done(None) ==> WarmOne(c, db, step, phrase) == Warmed(c, [Completed], [])
    ensures step(phrase).Done? && step(phrase).value.Some? ==>
      var poi := step(phrase).value.value;
      var w := WarmOne(c, db, step, phrase);
      match db.chipAt(poi.lon, poi.lat)
      case None => w == Warmed(c, [Completed], [ChipCall(poi.lon, poi.lat)])
      case Some(chip) =>
        var c1 := c.(chips := c.chips[CacheKey(poi.lon, poi.lat) := chip]);
        && w.calls == [ChipCall(poi.lon, poi.lat), SimilarCall(chip.vec, 8)]
        && (!ValidVector(chip.vec) ==> w.caches == c1 && w.outcomes == [Failed])
        && (ValidVector(chip.vec) ==>
              w.caches == c1.(sims := c1.sims[chip.id := db.similar(chip.vec, 8)]) && w.outcomes == [Completed])
  {
  }

  /**
   * A warmed phrase is a hit: the point request at its POI makes no call and
   * answers the payload of the search warmup ran for its chip.
   */
  lemma WarmOneThenByPoint(c: Caches, db: Db, step: WarmStep, phrase: string, poi: Osm.Poi, chip: Chip)
    requires step(phrase) == Done(Some(poi))
    requires db.chipAt(poi.lon, poi.lat) == Some(chip) && ValidVector(chip.vec)
    ensures var w := WarmOne(c, db, step, phrase);
      ByPoint(w.caches, db, poi.lon, poi.lat) == Step(w.caches, Similar(chip.id, Payload(db.similar(chip.vec, 8))), [])
  {
  }

  /**
   * A phrase whose step yields a POI inside a chip with a valid vector is
   * warm after warmup: its chip key and its seed id are both cached.
   */
  lemma WarmupWarmsResolved(c: Caches, db: Db, step: WarmStep, phrases: seq<string>, i: nat, poi: Osm.Poi, chip: Chip)
    requires i < |phrases| && step(phrases[i]) == Done(Some(poi))
    requires db.chipAt(poi.lon, poi.lat) == Some(chip) && ValidVector(chip.vec)
    ensures CacheKey(poi.lon, poi.lat) in Warmup(c, db, step, phrases).caches.chips
    ensures chip.id in Warmup(c, db, step, phrases).caches.sims
  {
    var before := Warmup(c, db, step, phrases[..i]).caches;
    var after := Warmup(c, db, step, phrases[..i + 1]).caches;
    assert phrases[..i + 1][..i] == phrases[..i];
    assert after == WarmOne(before, db, step, phrases[i]).caches;
    WarmupSplit(c, db, step, phrases, i + 1);
    WarmupKeepsKeys(after, db, step, phrases[i + 1..]);
  }

  /** As written, warmup fails on every phrase and caches nothing. */
  lemma {:induction false} WarmupAsWrittenCachesNothing(c: Caches, db: Db, phrases: seq<string>)
    ensures var w := Warmup(c, db, AsWrittenStep(), phrases);
      && w.caches == c && w.calls == []
      && |w.outcomes| == |phrases|
      && forall i :: 0 <= i < |phrases| ==> w.outcomes[i] == Failed
    decreases |phrases|
  {
    if phrases != [] {
      WarmupAsWrittenCachesNothing(c, db, phrases[..|phrases| - 1]);
    }
  }

  /**
   * With the intended step, every warmup phrase that resolves to a point
   * inside a chip with a valid vector is warm in both caches afterwards.
   */
  lemma IntendedWarmupWarmsResolved(c: Caches, db: Db, resolve: Resolver,
                                    phrases: seq<string>, i: nat, chip: Chip)
    requires i < |phrases| && resolve(phrases[i]).Resolved?
    requires var poi := resolve(phrases[i]).poi;
      db.chipAt(poi.lon, poi.lat) == Some(chip) && ValidVector(chip.vec)
    ensures var poi := resolve(phrases[i]).poi;
      var w := Warmup(c, db, IntendedStep(resolve), phrases);
      CacheKey(poi.lon, poi.lat) in w.caches.chips && chip.id in w.caches.sims
  {
    var poi := resolve(phrases[i]).poi;
    WarmupWarmsResolved(c, db, IntendedStep(resolve), phrases, i, poi, chip);
  }
}
