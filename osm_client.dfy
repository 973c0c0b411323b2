/**
 * The text-to-coordinate resolver of backend/mcp_server/osm_client.py
 * (`OsmClient.fuzzy_match` and `OsmClient.geocode`).
 *
 * A query is normalised, looked up exactly in a constant phrase table, then
 * fuzzily matched against the table's keys, and only then sent to the live
 * Nominatim service. The resolver is pure: the string-similarity ratio of
 * difflib is a parameter `score`, and the live service is a parameter `live`
 * mapping the request that would be sent to the response that came back.
 * Coordinates are whole micro-degrees.
 */
module Osm {
  import opened Wrappers
  import opened Text

  datatype LatLon = LatLon(lat: int, lon: int)

  /** The resolver's answer: `{"name", "lat", "lon"}`. */
  datatype Poi = Poi(name: string, lat: int, lon: int)

  /**
   * One element of the JSON list Nominatim returns. `lat` and `lon` are `None`
   * when the field is missing or is not a number `float` accepts.
   */
  datatype Hit = Hit(displayName: Option<string>, lat: Option<int>, lon: Option<int>)

  /** The query parameters of the live request. */
  datatype Request = Request(q: string, format: string, limit: int)

  /**
   * What `geocode` does: returns a POI, returns `None`, or raises (a malformed
   * first hit is parsed outside the `try` block, so its error escapes).
   */
  datatype Geocoded = Resolved(poi: Poi) | NotFound | Raised

  /** The tier of the resolution chain that decides the answer. */
  datatype Tier = Exact | Fuzzy | Live

  /** difflib's `SequenceMatcher(None, key, query).ratio()`, as `score(key, query)`. */
  type Score = (string, string) -> real

  /**
   * The live service: the JSON list returned for a request, or `None` when the
   * request, the HTTP status or the JSON decoding failed.
   */
  type Network = Request -> Option<seq<Hit>>

  /** The `cutoff` passed to `difflib.get_close_matches`. */
  const Cutoff: real := 0.55

  const LocalityHint: string := " in San Francisco, California, USA"

  /** The keys of `FALLBACKS`, in the order the class dictionary lists them. */
  const FallbackKeys: seq<string> := [
    "marina", "coastal marina", "harbor",
    "airport", "airplanes", "runway",
    "parking", "parking lot", "downtown"
  ]

  /** `FALLBACKS`: a read-only phrase to coordinate table. */
  const Fallbacks: map<string, LatLon> := map[
    "marina" := LatLon(37806500, -122441000),
    "coastal marina" := LatLon(37806500, -122441000),
    "harbor" := LatLon(37806500, -122441000),
    "airport" := LatLon(37615200, -122389900),
    "airplanes" := LatLon(37615200, -122389900),
    "runway" := LatLon(37615200, -122389900),
    "parking" := LatLon(37784000, -122409000),
    "parking lot" := LatLon(37784000, -122409000),
    "downtown" := LatLon(37788400, -122407600)
  ]

  /**
   * The table names four places: three phrases for the marina, three for the
   * airport, two for parking and one for downtown, each group sharing one point.
   */
  lemma FallbacksFourPlaces()
    ensures Fallbacks["marina"] == Fallbacks["coastal marina"] == Fallbacks["harbor"] == LatLon(37806500, -122441000)
    ensures Fallbacks["airport"] == Fallbacks["airplanes"] == Fallbacks["runway"] == LatLon(37615200, -122389900)
    ensures Fallbacks["parking"] == Fallbacks["parking lot"] == LatLon(37784000, -122409000)
    ensures Fallbacks["downtown"] == LatLon(37788400, -122407600)
    ensures Fallbacks.Values == {LatLon(37806500, -122441000), LatLon(37615200, -122389900), LatLon(37784000, -122409000), LatLon(37788400, -122407600)}
  {
  }

  /** The candidate list of `fuzzy_match` is exactly the table's key set, without repeats. */
  lemma FallbackKeysAreTheTable()
    ensures forall k :: k in FallbackKeys <==> k in Fallbacks
    ensures forall i, j :: 0 <= i < j < |FallbackKeys| ==> FallbackKeys[i] != FallbackKeys[j]
    ensures forall k :: k in FallbackKeys ==> k != ""
  {
  }

  /**
   * `get_close_matches` ranks the qualifying candidates by the pair
   * (ratio, candidate) and keeps the largest, so on equal ratios the
   * candidate that sorts later wins.
   */
  predicate Outranks(score: Score, q: string, a: string, b: string) {
    score(a, q) > score(b, q) || (score(a, q) == score(b, q) && StrLess(b, a))
  }

  lemma OutranksTransitive(score: Score, q: string, a: string, b: string, c: string)
    requires Outranks(score, q, a, b) && Outranks(score, q, b, c)
    ensures Outranks(score, q, a, c)
  {
    if score(a, q) == score(b, q) == score(c, q) {
      StrLessTransitive(c, b, a);
    }
  }

  lemma OutranksTotal(score: Score, q: string, a: string, b: string)
    requires a != b
    ensures Outranks(score, q, a, b) || Outranks(score, q, b, a)
  {
    StrLessTotal(a, b);
  }

  /**
   * `difflib.get_close_matches(q, cands, n=1, cutoff=0.55)`: the best candidate
   * whose ratio reaches the cutoff, or `None` when no candidate does.
   */
  function Closest(q: string, cands: seq<string>, score: Score): (r: Option<string>)
    ensures r.Some? ==> r.value in cands && score(r.value, q) >= Cutoff
    ensures r.None? <==> forall c :: c in cands ==> score(c, q) < Cutoff
    ensures r.Some? ==>
      forall c :: c in cands && c != r.value && score(c, q) >= Cutoff ==> Outranks(score, q, r.value, c)
  {
    if cands == [] then None
    else
      var init, last := cands[..|cands| - 1], cands[|cands| - 1];
      assert cands == init + [last];
      var best := Closest(q, init, score);
      if score(last, q) < Cutoff then best
      else match best
        case None => Some(last)
        case Some(b) =>
          if Outranks(score, q, last, b) then
            assert forall c :: c in init && c != last && score(c, q) >= Cutoff ==> Outranks(score, q, last, c) by {
              forall c | c in init && c != last && score(c, q) >= Cutoff
                ensures Outranks(score, q, last, c)
              {
                if c != b {
                  OutranksTransitive(score, q, last, b, c);
                }
              }
            }
            Some(last)
          else
            assert b != last ==> Outranks(score, q, b, last) by {
              if b != last {
                OutranksTotal(score, q, b, last);
              }
            }
            Some(b)
  }

  /** `fuzzy_match(q)`: the closest table key, if it is close enough. */
  function FuzzyMatch(q: string, score: Score): (r: Option<string>)
    ensures r.Some? ==> r.value in Fallbacks && score(r.value, q) >= Cutoff
    ensures r.None? <==> forall k :: k in Fallbacks ==> score(k, q) < Cutoff
    ensures r.Some? ==>
      forall k :: k in Fallbacks && k != r.value && score(k, q) >= Cutoff ==> Outranks(score, q, r.value, k)
  {
    FallbackKeysAreTheTable();
    Closest(q, FallbackKeys, score)
  }

  /** The request `geocode` sends when both table tiers fail. */
  function LiveRequest(query: string): (req: Request)
    ensures |req.q| == |query| + |LocalityHint|
    ensures req.q[..|query|] == query && req.q[|query|..] == LocalityHint
    ensures req.format == "json" && req.limit == 1
  {
    Request(query + LocalityHint, "json", 1)
  }

  /** Steps 3 and 4 of `geocode`: interpreting the live service's answer. */
  function FromResponse(resp: Option<seq<Hit>>): (r: Geocoded)
    ensures r == NotFound <==> resp.None? || resp == Some([])
    ensures r.Raised? <==> resp.Some? && resp.value != [] && (resp.value[0].lat.None? || resp.value[0].lon.None?)
    ensures r.Resolved? ==> resp.Some? && resp.value != [] && resp.value[0].lat.Some? && resp.value[0].lon.Some?
    ensures r.Resolved? ==> r.poi == Poi(resp.value[0].displayName.GetOr(""), resp.value[0].lat.value, resp.value[0].lon.value)
  {
    match resp
    case None => NotFound
    case Some(data) =>
      if data == [] then NotFound
      else
        var hit := data[0];
        if hit.lat.None? || hit.lon.None? then Raised
        else Resolved(Poi(hit.displayName.GetOr(""), hit.lat.value, hit.lon.value))
  }

  /** Which tier decides the answer for `query`. */
  function TierOf(query: string, score: Score): (t: Tier)
    ensures t == Exact <==> Normalize(query) in Fallbacks
    ensures t == Live <==> Normalize(query) !in Fallbacks && forall k :: k in Fallbacks ==> score(k, Normalize(query)) < Cutoff
  {
    var q := Normalize(query);
    if q in Fallbacks then Exact
    else if FuzzyMatch(q, score).Some? then Fuzzy
    else Live
  }

  /** `geocode(query)`: exact table hit, else fuzzy table hit, else the live service. */
  function Geocode(query: string, score: Score, live: Network): (r: Geocoded)
    ensures Normalize(query) in Fallbacks ==> r.Resolved? && LatLon(r.poi.lat, r.poi.lon) == Fallbacks[Normalize(query)]
    ensures !r.Resolved? ==> r == FromResponse(live(LiveRequest(query)))
  {
    var q := Normalize(query);
    if q in Fallbacks then
      Resolved(Poi("Fallback: " + query, Fallbacks[q].lat, Fallbacks[q].lon))
    else
      // `if fuzzy:` tests the key's truth; no table key is empty, so it tests `Some`.
      match FuzzyMatch(q, score)
      case Some(k) => Resolved(Poi("Fuzzy fallback: " + k, Fallbacks[k].lat, Fallbacks[k].lon))
      case None => FromResponse(live(LiveRequest(query)))
  }

  /**
   * The exact tier: a query whose normalised form is a table key gets that
   * key's coordinates, named after the query as typed, whatever the network does.
   */
  lemma GeocodeExact(query: string, score: Score, live: Network)
    requires Normalize(query) in Fallbacks
    ensures TierOf(query, score) == Exact
    ensures Geocode(query, score, live)
         == Resolved(Poi("Fallback: " + query, Fallbacks[Normalize(query)].lat, Fallbacks[Normalize(query)].lon))
  {
  }

  /**
   * The fuzzy tier: with no exact hit and a close key `k`, the answer carries
   * `k`'s coordinates and is named after `k`, whatever the network does.
   */
  lemma GeocodeFuzzy(query: string, score: Score, live: Network, k: string)
    requires Normalize(query) !in Fallbacks && FuzzyMatch(Normalize(query), score) == Some(k)
    ensures TierOf(query, score) == Fuzzy
    ensures k in Fallbacks && score(k, Normalize(query)) >= Cutoff
    ensures Geocode(query, score, live) == Resolved(Poi("Fuzzy fallback: " + k, Fallbacks[k].lat, Fallbacks[k].lon))
  {
  }

  /** The two table tiers never consult the network: any two networks give the same answer. */
  lemma GeocodeOffline(query: string, score: Score, live1: Network, live2: Network)
    requires TierOf(query, score) != Live
    ensures Geocode(query, score, live1) == Geocode(query, score, live2)
    ensures Geocode(query, score, live1).Resolved?
    ensures var p := Geocode(query, score, live1).poi; LatLon(p.lat, p.lon) in Fallbacks.Values
  {
    var q := Normalize(query);
    if q !in Fallbacks {
      var k := FuzzyMatch(q, score).value;
      assert Fallbacks[k] in Fallbacks.Values;
    } else {
      assert Fallbacks[q] in Fallbacks.Values;
    }
  }

  /**
   * The live tier is reached only when no key matches exactly and no key
   * reaches the cutoff; it sends the query with the locality hint, limit 1,
   * and its answer is the interpretation of that one response.
   */
  lemma GeocodeLive(query: string, score: Score, live: Network)
    requires TierOf(query, score) == Live
    ensures Normalize(query) !in Fallbacks
    ensures forall k :: k in Fallbacks ==> score(k, Normalize(query)) < Cutoff
    ensures Geocode(query, score, live) == FromResponse(live(Request(query + LocalityHint, "json", 1)))
  {
  }

  /** A failed request never escapes as an exception, whatever the tier. */
  lemma NetworkFailureIsNotFound(query: string, score: Score, live: Network)
    requires live(LiveRequest(query)).None?
    ensures Geocode(query, score, live) == NotFound <==> TierOf(query, score) == Live
    ensures !Geocode(query, score, live).Raised?
  {
  }

  /** Only the first hit of a non-empty answer is read. */
  lemma FirstHitOnly(hit: Hit, rest1: seq<Hit>, rest2: seq<Hit>)
    ensures FromResponse(Some([hit] + rest1)) == FromResponse(Some([hit] + rest2))
    ensures hit.lat.Some? && hit.lon.Some? && hit.displayName.None?
        ==> FromResponse(Some([hit] + rest1)) == Resolved(Poi("", hit.lat.value, hit.lon.value))
  {
  }

  /**
   * Queries with the same normalised form resolve to the same coordinates in
   * the table tiers (only the exact tier's name keeps the query as typed).
   */
  lemma GeocodeDependsOnNormalForm(a: string, b: string, score: Score, live: Network)
    requires Normalize(a) == Normalize(b) && TierOf(a, score) != Live
    ensures TierOf(b, score) == TierOf(a, score)
    ensures Geocode(a, score, live).Resolved? && Geocode(b, score, live).Resolved?
    ensures Geocode(a, score, live).poi.lat == Geocode(b, score, live).poi.lat
    ensures Geocode(a, score, live).poi.lon == Geocode(b, score, live).poi.lon
  {
    GeocodeOffline(a, score, live, live);
    GeocodeOffline(b, score, live, live);
  }

  /** "airport" is already in normal form. */
  lemma AirportIsNormal()
    ensures Normalize("airport") == "airport"
  {
    assert NoUpper("airport");
    NormalizeOfNormalForm("airport");
  }

  lemma LowerPaddedAirport()
    ensures Lower(" Airport ") == " airport "
  {
    LowerMeaning(" Airport ");
    assert IsUpper(" Airport "[1]);
    forall i | 0 <= i < 9 && i != 1
      ensures !IsUpper(" Airport "[i])
    {
    }
  }

  /** A capitalised, padded spelling of "airport" normalises to the key itself. */
  lemma PaddedAirportIsNormal()
    ensures Normalize(" Airport ") == "airport"
  {
    LowerPaddedAirport();
    assert " airport " == [' '] + "airport" + [' '];
    StripPadded("airport");
    assert Normalize(" Airport ") == Strip(" airport ");
  }

  /**
   * A capitalised, padded spelling of a table key takes the exact tier: it
   * gets the key's coordinates, named after the query as typed.
   */
  lemma PaddedAirportIsExact(score: Score, live: Network)
    ensures TierOf(" Airport ", score) == Exact
    ensures Geocode(" Airport ", score, live) == Resolved(Poi("Fallback:  Airport ", 37615200, -122389900))
  {
    PaddedAirportIsNormal();
    GeocodeExact(" Airport ", score, live);
    assert Fallbacks["airport"] == LatLon(37615200, -122389900);
    assert "Fallback: " + " Airport " == "Fallback:  Airport ";
  }

  /** "airport" is a table key: it resolves to the airport's coordinates without the network. */
  lemma AirportIsExact(score: Score, live: Network)
    ensures Geocode("airport", score, live) == Resolved(Poi("Fallback: airport", 37615200, -122389900))
  {
    AirportIsNormal();
    assert Fallbacks["airport"] == LatLon(37615200, -122389900);
    assert "Fallback: " + "airport" == "Fallback: airport";
  }
}
