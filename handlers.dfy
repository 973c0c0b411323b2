/**
 * `MCPHandlers` of backend/mcp_server/handlers.py: the coordinator that holds
 * the three caches and runs the text and point pipelines against them.
 *
 * The caches are `map` fields the methods update in place. The DuckDB client
 * and difflib's ratio are fixed for the object's lifetime (`db`, `score`); the
 * network is a parameter of each call that may reach it. The ghost field
 * `calls` logs every external call, so that cache hits can be stated as "no
 * call was made". Each method is proved to do what the matching function of
 * module Pipeline says, and the caching properties are lemmas there.
 */
module Handlers {
  import opened Wrappers
  import opened Coordinates
  import opened Pipeline
  import Osm
  import Text

  /** Step 3 of `similarity_by_point`: the `results` list, built by appending. */
  method BuildResults(matches: seq<Match>) returns (results: seq<Thumbed>)
    ensures results == Payload(matches)
    ensures |results| == |matches|
    ensures forall i :: 0 <= i < |matches| ==> ChipIdOfThumbnail(results[i].thumbnail) == Some(matches[i].chipId)
  {
    results := [];
    var i := 0;
    while i < |matches|
      invariant 0 <= i <= |matches|
      invariant results == Payload(matches[..i])
    {
      results := results + [WithThumbnail(matches[i])];
      i := i + 1;
      assert matches[..i][..i - 1] == matches[..i - 1];
    }
    assert matches[..i] == matches;
    forall i | 0 <= i < |matches| ensures ChipIdOfThumbnail(results[i].thumbnail) == Some(matches[i].chipId) {
      ThumbnailRoundTrip(matches[i].chipId);
    }
  }

  lemma AppendAssociative(a: seq<Call>, b: seq<Call>, c: seq<Call>)
    ensures a + b + c == a + (b + c)
  {
  }

  class MCPHandlers {
    const db: Db
    const score: Osm.Score
    const warmupQueries: seq<string>

    var geocodeCache: map<string, Osm.Poi>
    var chipCache: map<Key, Chip>
    var simCache: map<ChipId, seq<Match>>

    /** Every external call made so far, in order. */
    ghost var calls: seq<Call>

    function State(): Caches
      reads this
    {
      Caches(geocodeCache, chipCache, simCache)
    }

    /**
     * `__init__`: empty caches, then warmup of the fixed phrase list with the
     * geocoding step `__init__` runs for each phrase. The source's step is
     * `AsWrittenStep()` (see `StartAsWritten`); `IntendedStep` of the client's
     * resolver is the corrected one.
     */
    constructor (db: Db, score: Osm.Score, step: WarmStep)
      ensures this.db == db && this.score == score && warmupQueries == WarmupQueries
      ensures var w := Warmup(EmptyCaches, db, step, WarmupQueries);
        State() == w.caches && calls == w.calls
    {
      this.db := db;
      this.score := score;
      warmupQueries := WarmupQueries;
      geocodeCache, chipCache, simCache := map[], map[], map[];
      calls := [];
      new;
      var outcomes := WarmupWith(step);
    }

    /** `_warmup` with a given geocoding step: every phrase in turn, each in its own `try`. */
    method WarmupWith(step: WarmStep) returns (outcomes: seq<WarmOutcome>)
      modifies this
      ensures var w := Warmup(old(State()), db, step, warmupQueries);
        State() == w.caches && outcomes == w.outcomes && calls == old(calls) + w.calls
    {
      ghost var start, calls0 := State(), calls;
      outcomes := [];
      var i := 0;
      while i < |warmupQueries|
        invariant 0 <= i <= |warmupQueries|
        invariant var w := Warmup(start, db, step, warmupQueries[..i]);
          State() == w.caches && outcomes == w.outcomes && calls == calls0 + w.calls
      {
        var outcome := WarmItem(step, warmupQueries[i]);
        outcomes := outcomes + [outcome];
        i := i + 1;
        assert warmupQueries[..i][..i - 1] == warmupQueries[..i - 1];
      }
      assert warmupQueries[..i] == warmupQueries;
    }

    /** The body of `_warmup`'s `try` block for one phrase; a raise ends it as `Failed`. */
    method WarmItem(step: WarmStep, phrase: string) returns (outcome: WarmOutcome)
      modifies this
      ensures var o := WarmOne(old(State()), db, step, phrase);
        State() == o.caches && [outcome] == o.outcomes && calls == old(calls) + o.calls
    {
      match step(phrase)
      case Raise =>
        outcome := Failed;
      case Done(None) =>
        outcome := Completed;
      case Done(Some(poi)) =>
        var key := CacheKey(poi.lon, poi.lat);
        calls := calls + [ChipCall(poi.lon, poi.lat)];
        var chip := db.chipAt(poi.lon, poi.lat);
        if chip.None? {
          return Completed;
        }
        chipCache := chipCache[key := chip.value];
        calls := calls + [SimilarCall(chip.value.vec, SimilarLimit)];
        var matches := SimilarChips(db, chip.value.vec, SimilarLimit);
        if matches.Raise? {
          return Failed;
        }
        simCache := simCache[chip.value.id := matches.value];
        outcome := Completed;
    }

    /** `similarity_by_point(lon, lat)`. */
    method SimilarityByPoint(lon: int, lat: int) returns (r: PointResponse)
      modifies this
      ensures var s := ByPoint(old(State()), db, lon, lat);
        State() == s.caches && r == s.response && calls == old(calls) + s.calls
    {
      var key := CacheKey(lon, lat);
      var chip: Chip;
      if key in chipCache {
        chip := chipCache[key];
      } else {
        calls := calls + [ChipCall(lon, lat)];
        var found := db.chipAt(lon, lat);
        if found.None? {
          return NoChip(NoChipError, lon, lat);
        }
        chip := found.value;
        chipCache := chipCache[key := chip];
      }
      var matches: seq<Match>;
      if chip.id in simCache {
        matches := simCache[chip.id];
      } else {
        calls := calls + [SimilarCall(chip.vec, SimilarLimit)];
        var found := SimilarChips(db, chip.vec, SimilarLimit);
        if found.Raise? {
          return PointRaised;
        }
        matches := found.value;
        simCache := simCache[chip.id := matches];
      }
      var results := BuildResults(matches);
      r := Similar(chip.id, results);
    }

    /**
     * Step 1 of `similarity_by_text`: the geocode cache in front of the
     * client's `geocode`, which `resolve` stands for during this request.
     */
    method CachedGeocode(query: string, resolve: Resolver) returns (g: Osm.Geocoded)
      modifies this
      ensures var s := GeocodeStep(old(State()), resolve, query);
        State() == s.caches && g == s.response && calls == old(calls) + s.calls
    {
      var q := Text.Normalize(query);
      if q in geocodeCache {
        return Osm.Resolved(geocodeCache[q]);
      }
      calls := calls + [GeocodeCall(query)];
      g := resolve(query);
      if g.Resolved? {
        geocodeCache := geocodeCache[q := g.poi];
      }
    }

    /** `similarity_by_text(query)`; `live` is the network as this request finds it. */
    method SimilarityByText(query: string, live: Osm.Network) returns (r: TextResponse)
      modifies this
      ensures var s := ByText(old(State()), db, OsmResolver(score, live), query);
        State() == s.caches && r == s.response && calls == old(calls) + s.calls
    {
      ghost var calls0 := calls;
      ghost var gs := GeocodeStep(State(), OsmResolver(score, live), query);
      ghost var spec := ByText(State(), db, OsmResolver(score, live), query);
      var g := CachedGeocode(query, OsmResolver(score, live));
      match g
      case NotFound =>
        assert spec == Step(gs.caches, NoGeocode(NoGeocodeError, query), gs.calls);
        return NoGeocode(NoGeocodeError, query);
      case Raised =>
        assert spec == Step(gs.caches, TextRaised, gs.calls);
        return TextRaised;
      case Resolved(poi) =>
        ghost var p := ByPoint(gs.caches, db, poi.lon, poi.lat);
        assert spec.calls == gs.calls + p.calls && spec.caches == p.caches;
        AppendAssociative(calls0, gs.calls, p.calls);
        var point := SimilarityByPoint(poi.lon, poi.lat);
        if point.PointRaised? {
          return TextRaised;
        }
        r := TextResult(query, poi, point);
    }
  }

  /**
   * The coordinator as the source builds it: every warmup phrase raises, so it
   * starts with empty caches and without having made any external call.
   */
  method StartAsWritten(db: Db, score: Osm.Score) returns (h: MCPHandlers)
    ensures fresh(h) && h.db == db && h.score == score
    ensures h.State() == EmptyCaches && h.calls == []
  {
    h := new MCPHandlers(db, score, AsWrittenStep());
    WarmupAsWrittenCachesNothing(EmptyCaches, db, WarmupQueries);
  }

  /**
   * A client of the class: two point requests for points with the same key.
   * The second is answered from the caches, identically, with no call at all.
   */
  method RepeatedPointRequest(h: MCPHandlers, lon1: int, lat1: int, lon2: int, lat2: int)
      returns (first: PointResponse, second: PointResponse)
    requires CacheKey(lon1, lat1) == CacheKey(lon2, lat2)
    modifies h
    ensures first.Similar? ==> second == first
    ensures first.Similar? ==> h.calls == old(h.calls) + ByPoint(old(h.State()), h.db, lon1, lat1).calls
  {
    first := h.SimilarityByPoint(lon1, lat1);
    ghost var c := old(h.State());
    if first.Similar? {
      ByPointRepeat(c, h.db, lon1, lat1, lon2, lat2);
    }
    second := h.SimilarityByPoint(lon2, lat2);
  }
}
