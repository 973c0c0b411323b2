# Similarity-search coordinator: a Dafny model

This project models the orchestration core of a geospatial similarity-search
service. Given free text or a point, the service finds the imagery chip that
contains the point and the chips most similar to it. The core has two parts.

- `OsmClient` (backend/mcp_server/osm_client.py) resolves text to a point
  (a POI, a point of interest). It tries three tiers in order:
  1. an exact hit in a constant phrase table (`FALLBACKS`);
  2. a fuzzy match against the table's keys, using difflib with cutoff 0.55;
  3. one request to the Nominatim geocoding service.
- `MCPHandlers` (backend/mcp_server/handlers.py) is the coordinator. It holds
  three caches:
  - text to POI;
  - rounded point to chip;
  - seed chip to match list.

  It runs `similarity_by_point` and `similarity_by_text` against those caches.
  At start-up it runs a warmup over a fixed list of phrases. As written,
  every warmup phrase fails (see Findings), so the caches start empty.

Files:

- `wrappers.dfy`: `Option`.
- `coordinates.dfy`: coordinates as whole micro-degrees, plus Python's
  `round(x, 4)` with ties to even. Together these give `_cache_key`.
- `text.dfy`: `str.lower()`, `str.strip()` with Python's whitespace set, and
  Python's string order.
- `osm_client.dfy`: the pure resolver.
  - The phrase table, `fuzzy_match` and the `geocode` decision chain.
  - difflib's ratio is a parameter `score`.
  - The live service is a parameter `live`: it maps the request that would be
    sent to the JSON list that came back, or to `None` when the request, the
    HTTP status or the JSON decoding failed.
- `pipeline.dfy`: what one call of each handler does, as functions over the
  three caches. Each function returns the new caches, the answer and the
  external calls made, in order. The caching properties are lemmas about
  these functions.
- `handlers.dfy`: class `MCPHandlers`.
  - The three caches are `map` fields that the methods update in place.
  - A ghost call log records every external call.
  - Each method is proved to produce exactly the state, answer and calls of
    its `Pipeline` function.

The DuckDB client is an oracle (`Pipeline.Db`):
- `chipAt` is `get_chip_by_point`;
- `similar` is the row list `get_similar_chips` returns once it has accepted
  the vector.

The vector check of `get_similar_chips` is modelled: length 1024 and a
non-zero norm, otherwise it raises `ValueError`.

In these places the model follows the code, which a reader might not expect:
- **Malformed first hit.** A first Nominatim hit without a usable `lat` or
  `lon` is parsed outside the `try` block, so the error escapes
  (`Osm.Geocoded.Raised`); it does not become "not found".
- **Cutoff.** The fuzzy tier accepts a ratio equal to 0.55 (difflib tests
  `>=`), not only ratios above it.
- **Resolution method.** The code's POI has no resolution-method field. The
  tier that decides an answer is stated separately (`Osm.TierOf`).
- **Exceptions reach the caller.** Exceptions from the geocoder's parse step
  or from the vector check reach the caller of `similarity_by_point` and
  `similarity_by_text` (`PointRaised`, `TextRaised`). They are not turned
  into error responses. A chip cached before the raise stays cached.
- **Warmup.** Warmup does not run the text pipeline. It calls a method the
  client lacks (see Findings). Even as intended, it writes only the chip and
  similarity caches, and it writes them unconditionally.
- **Geocode cache key.** The cache is keyed by the normalised query, but
  `geocode` receives the query as typed. A cached POI therefore carries the
  name built from the first spelling that was resolved.
- **Concurrency.** There is no single-flight mechanism. The model is
  sequential: one request at a time.

## Model

| member | source | states |
|---|---|---|
| Coordinates.Round4 | backend/mcp_server/handlers.py:54 | the result is a nearest multiple of 1e-4 degree; on a tie it is the even one |
| Coordinates.Round4Unique | backend/mcp_server/handlers.py:54 | nearest-with-ties-to-even determines the rounded value uniquely |
| Coordinates.Round4OnGrid | backend/mcp_server/handlers.py:54 | a value with at most 4 decimals rounds to itself |
| Coordinates.Round4Monotone | backend/mcp_server/handlers.py:54 | rounding never swaps the order of two coordinates |
| Coordinates.CacheKey | backend/mcp_server/handlers.py:53-54 | each key component is within half a unit (5e-5 degree) of its coordinate |
| Coordinates.SameKey | backend/mcp_server/handlers.py:92-96 | two points share a chip-cache entry iff both coordinates round alike; if they do, they lie within 1e-4 degree of each other on each axis |
| Coordinates.CacheKeyOfGridPoint | backend/mcp_server/handlers.py:53-54 | re-keying a key's own grid point gives the key back |
| Text.LowerMeaning | backend/mcp_server/osm_client.py:66 | `lower()` keeps the length, leaves no upper-case letter, turns each capital into its lower-case letter (code point plus 32), keeps whitespace exactly where it was, and changes no other character |
| Text.LowerChar | backend/mcp_server/osm_client.py:66 | a capital becomes its lower-case letter (code point plus 32); the result is never upper case, whitespace is preserved, and other characters are unchanged |
| Text.TrimStart | backend/mcp_server/osm_client.py:66 | the result is a suffix of the input, everything removed is whitespace, and the result does not start with whitespace |
| Text.TrimEnd | backend/mcp_server/osm_client.py:66 | the result is a prefix of the input, everything removed is whitespace, and the result does not end with whitespace |
| Text.Strip | backend/mcp_server/osm_client.py:66 | the result has no surrounding whitespace; it is empty iff the input is all whitespace |
| Text.StripIsMiddle | backend/mcp_server/osm_client.py:66 | the result of `strip()` is a contiguous slice of the input, and everything cut off before and after it is whitespace |
| Text.Normalize | backend/mcp_server/osm_client.py:66 | the normalised query has no upper-case letter and no surrounding whitespace |
| Text.NormalizeIsMiddleOfLower | backend/mcp_server/handlers.py:153 | the normalised query is a contiguous slice of the lower-cased query, with only whitespace cut off either side |
| Text.StripPadded | backend/mcp_server/osm_client.py:66 | one space either side of a string without surrounding whitespace is exactly what `strip()` removes |
| Text.StripOfStripped | backend/mcp_server/osm_client.py:66 | a string without surrounding whitespace is its own strip |
| Text.NormalizeIdempotent | backend/mcp_server/handlers.py:153 | normalising twice equals normalising once, so a cache key is a fixed point |
| Text.NormalizeOfNormalForm | backend/mcp_server/osm_client.py:66-70 | a lower-case, stripped query is looked up unchanged |
| Text.StrLessTotal | backend/mcp_server/osm_client.py:47 | any two different strings are ordered, so difflib's tie-break always decides |
| Osm.FallbacksFourPlaces | backend/mcp_server/osm_client.py:24-34 | the table has nine phrases for four places (marina, airport, parking, downtown), each group sharing one point, and no other coordinates |
| Osm.FallbackKeysAreTheTable | backend/mcp_server/osm_client.py:45 | the candidate list is exactly the table's key set, with no repeats and no empty key |
| Osm.OutranksTransitive | backend/mcp_server/osm_client.py:47 | the ranking by (ratio, key) is transitive |
| Osm.Closest | backend/mcp_server/osm_client.py:47 | the result is a candidate at or above the cutoff; it is `None` iff every candidate is below the cutoff; it outranks every other qualifying candidate (higher ratio, or equal ratio and later in string order) |
| Osm.FuzzyMatch | backend/mcp_server/osm_client.py:36-55 | the same three properties, over the table's keys |
| Osm.LiveRequest | backend/mcp_server/osm_client.py:104-108 | the request text is the query followed by the San Francisco locality hint, with format json and limit 1 |
| Osm.FromResponse | backend/mcp_server/osm_client.py:112-137 | not-found iff the request failed or the list is empty; the result raises iff the first hit lacks lat or lon; a resolved POI is the first hit's display name (or "") and coordinates |
| Osm.TierOf | backend/mcp_server/osm_client.py:66-94 | the exact tier decides iff the normal form is a table key; the live tier decides iff it is not a key and every key is below the cutoff |
| Osm.Geocode | backend/mcp_server/osm_client.py:57-140 | a query whose normal form is a key resolves to that key's coordinates; any answer other than a POI is the interpretation of the live response to query plus hint |
| Osm.GeocodeExact | backend/mcp_server/osm_client.py:66-79 | a query whose normal form is a table key gets that key's coordinates, named "Fallback: " plus the query as typed, whatever the network does |
| Osm.GeocodeFuzzy | backend/mcp_server/osm_client.py:81-92 | with no exact hit and a close key k, the answer has k's coordinates and is named "Fuzzy fallback: " plus k |
| Osm.GeocodeOffline | backend/mcp_server/osm_client.py:69-92 | the table tiers always resolve, to coordinates from the table, and the answer is the same under any two networks |
| Osm.GeocodeLive | backend/mcp_server/osm_client.py:94-137 | the live tier is reached only when there is no exact key and every key is below the cutoff; its answer is the interpretation of the one response to query plus hint |
| Osm.NetworkFailureIsNotFound | backend/mcp_server/osm_client.py:112-119 | a failed request never raises, and it gives not-found iff the live tier is reached |
| Osm.FirstHitOnly | backend/mcp_server/osm_client.py:132-137 | only the first hit is read; a missing display name becomes "" |
| Osm.GeocodeDependsOnNormalForm | backend/mcp_server/osm_client.py:66-92 | queries with the same normal form get the same tier and, in the table tiers, the same coordinates |
| Osm.PaddedAirportIsNormal | backend/mcp_server/osm_client.py:66 | " Airport " lower-cases and strips to the key "airport" |
| Osm.PaddedAirportIsExact | backend/mcp_server/osm_client.py:66-79 | " Airport " takes the exact tier: the airport's coordinates, named "Fallback: " plus the query as typed, with any network |
| Osm.AirportIsExact | backend/mcp_server/osm_client.py:24-79 | "airport" resolves to (37.6152, -122.3899) as "Fallback: airport", with any network |
| Pipeline.SimilarChips | backend/mcp_server/duckdb_client.py:126-134 | raises iff the vector does not have 1024 components or is all zero |
| Pipeline.Thumbnail | backend/mcp_server/handlers.py:134 | the URL is the base, a slash, the chip id and the `_native.jpeg` suffix, and the id can be cut back out of it |
| Pipeline.ThumbnailRoundTrip | backend/mcp_server/handlers.py:134 | the chip id can be parsed back out of its thumbnail URL |
| Pipeline.ThumbnailInjective | backend/mcp_server/handlers.py:134 | different chips never share a thumbnail |
| Pipeline.WithThumbnail | backend/mcp_server/handlers.py:131-135 | a row's thumbnail names the row's own chip |
| Pipeline.Payload | backend/mcp_server/handlers.py:129-135 | one row per match, in order, keeping each match's fields and adding the thumbnail of its chip |
| Pipeline.WarmOne | backend/mcp_server/handlers.py:61-83 | one outcome per phrase, at most two calls; the geocode cache is untouched; no cache key is dropped |
| Pipeline.WarmOneWrites | backend/mcp_server/handlers.py:62-83 | per case, what one phrase writes: nothing on a raise or no POI; nothing after one lookup with no chip; the chip under the POI's key on a rejected vector (outcome failed); the chip and the limit-8 search result under the seed id otherwise |
| Pipeline.WarmOneThenByPoint | backend/mcp_server/handlers.py:68-78 | after a phrase is warmed, the point request at its POI makes no call and answers the payload of the search warmup ran |
| Pipeline.Warmup | backend/mcp_server/handlers.py:59-83 | one outcome per phrase and at most two external calls per phrase |
| Pipeline.AsWrittenStep | backend/mcp_server/handlers.py:66 | the source's warmup step raises for every phrase |
| Pipeline.SimilarityFor | backend/mcp_server/handlers.py:108-145 | the chip and geocode caches are untouched; it raises iff the seed is not cached and its vector is rejected; a success answers the payload of the list now cached for the seed; a hit makes no call, a miss exactly one search |
| Pipeline.ByPoint | backend/mcp_server/handlers.py:88-145 | the geocode cache is untouched; no chip means no cache change after one lookup; a success answers the payload of the list cached for the chip now cached under the point's key; at most two calls |
| Pipeline.GeocodeStep | backend/mcp_server/handlers.py:153-167 | only the geocode cache changes, and only on a resolved POI, which is then cached under the normalised query; a hit makes no call, a miss exactly one geocode call with the resolver's answer |
| Pipeline.ThenByPoint | backend/mcp_server/handlers.py:169-185 | the geocode cache is untouched; earlier calls are kept and at most two are added; a merged answer carries the query, the POI and a non-raising point answer |
| Pipeline.ByText | backend/mcp_server/handlers.py:150-185 | a merged answer carries the query and the POI cached for its normal form; not-found leaves the caches unchanged; a cached query is never not-found; at most three calls |
| Pipeline.ByPointFrame | backend/mcp_server/handlers.py:88-145 | a point request never geocodes, never touches the geocode cache, and never overwrites or drops a cached entry |
| Pipeline.SimilarityForFrame | backend/mcp_server/handlers.py:108-126 | the similarity step makes no geocode call and never overwrites or drops a cached entry |
| Pipeline.ByPointChipHit | backend/mcp_server/handlers.py:95-97 | on a chip-cache hit no spatial lookup runs, the chip cache is unchanged, and the cached chip is the seed |
| Pipeline.ByPointNoChip | backend/mcp_server/handlers.py:98-103 | a miss with no containing chip answers {error, lon, lat} after one lookup, with no cache change |
| Pipeline.ByPointStoresChip | backend/mcp_server/handlers.py:98-106 | a miss with a chip adds exactly that key and makes the chip the seed |
| Pipeline.SimilarityHit | backend/mcp_server/handlers.py:112-114 | on a similarity-cache hit the cached list is answered, with no search and no cache change |
| Pipeline.SimilarityMiss | backend/mcp_server/handlers.py:115-126 | a miss runs exactly one search with limit 8 and stores its list, even an empty one; a rejected vector raises and stores nothing |
| Pipeline.ByPointRepeat | backend/mcp_server/handlers.py:92-126 | a second point request with the same key as a successful first one makes no call and gives the same answer |
| Pipeline.ByTextHit | backend/mcp_server/handlers.py:156-185 | on a geocode-cache hit the resolver is not consulted; the caches and calls are those of the point request at the cached POI, and the answer merges query, cached POI and point answer (or raises when the point request raises) |
| Pipeline.ByTextRaised | backend/mcp_server/handlers.py:159-164 | a geocoder exception reaches the caller after one geocode call, with every cache unchanged |
| Pipeline.ByTextNotFound | backend/mcp_server/handlers.py:159-164 | an unresolved query answers {error, query} after one geocode call, with every cache unchanged |
| Pipeline.ByTextResolved | backend/mcp_server/handlers.py:159-185 | a resolved query stores its POI under the normalised text, runs the point request at the POI, and merges query, POI and point answer |
| Pipeline.GeocodeStepExtends | backend/mcp_server/handlers.py:156-167 | the geocode step writes only the geocode cache, and only adds to it |
| Pipeline.ByTextExtends | backend/mcp_server/handlers.py:150-185 | a text request never overwrites or drops a cached entry |
| Pipeline.ByTextRepeat | backend/mcp_server/handlers.py:153-174 | repeating a successful text request makes no external call, even on a different network, and gives the same answer |
| Pipeline.WarmupKeepsGeocode | backend/mcp_server/handlers.py:59-83 | warmup never writes the geocode cache |
| Pipeline.WarmupKeepsKeys | backend/mcp_server/handlers.py:69-78 | warmup never drops a chip or similarity key |
| Pipeline.WarmupSplit | backend/mcp_server/handlers.py:61 | warming a list is warming a prefix, then the rest from the caches the prefix left |
| Pipeline.WarmupVisitsEvery | backend/mcp_server/handlers.py:61-83 | every phrase is processed in order, with one outcome each, even after earlier failures |
| Pipeline.WarmupWarmsResolved | backend/mcp_server/handlers.py:68-78 | a phrase whose POI lies in a chip with a valid vector leaves that chip key and seed id cached |
| Pipeline.WarmupAsWrittenCachesNothing | backend/mcp_server/handlers.py:66 | as written, every phrase fails and warmup caches nothing and calls nothing |
| Pipeline.IntendedWarmupWarmsResolved | backend/mcp_server/handlers.py:65-78 | with the intended geocoding step, each phrase that resolves into a valid chip is warm in both caches |
| Handlers.BuildResults | backend/mcp_server/handlers.py:128-135 | the loop builds the payload, one row per match, each thumbnail naming its own chip |
| Handlers.MCPHandlers.constructor | backend/mcp_server/handlers.py:28-48 | the caches start empty and end as warmup of the five phrases with the given step leaves them |
| Handlers.StartAsWritten | backend/mcp_server/handlers.py:28-83 | built with the source's warmup step, the coordinator starts with empty caches and has made no external call |
| Handlers.MCPHandlers.WarmupWith | backend/mcp_server/handlers.py:59-83 | the loop leaves the caches, outcomes and calls that warmup of the phrase list specifies |
| Handlers.MCPHandlers.WarmItem | backend/mcp_server/handlers.py:62-83 | one phrase updates the caches and calls as specified, and reports whether it raised |
| Handlers.MCPHandlers.SimilarityByPoint | backend/mcp_server/handlers.py:88-145 | the new caches, answer and calls are those of the point-request function |
| Handlers.MCPHandlers.CachedGeocode | backend/mcp_server/handlers.py:153-167 | the new geocode cache, POI and calls are those of the geocode step |
| Handlers.MCPHandlers.SimilarityByText | backend/mcp_server/handlers.py:150-185 | the new caches, answer and calls are those of the text-request function |
| Handlers.RepeatedPointRequest | backend/mcp_server/handlers.py:92-126 | two point requests with the same key: if the first succeeds, the second answers the same and makes no call |

## Left out

- Coordinates.Round4: rounds the exact decimal value half to even. Python rounds the nearest binary double, which can put a decimal tie on either side, so a tie may round differently in the source.
- Coordinates are whole micro-degrees. Digits of a float coordinate beyond 1e-6 degree are not modelled.
- Text.LowerChar: lower-cases ASCII and Latin-1 capitals only. The rest of Unicode case mapping, including characters that map to two characters, is not modelled.
- Osm.FuzzyMatch: difflib's ratio is a parameter. Its computation and the `real_quick_ratio`/`quick_ratio` pre-filters are not modelled; those filters only discard candidates whose ratio is below the cutoff.
- The live request's URL, headers and 10-second timeout are not modelled. A timeout is one of the failures the network's `None` stands for.
- A JSON answer that is not a list is not modelled.
- DuckDB's SQL is not modelled. Nothing is assumed about the order or length of the similarity rows, or about which chip wins among overlapping geometries.
- Vector normalisation before the query is not modelled.
- Exceptions from `get_chip_by_point` itself (a database error) are not modelled.
- `get_chip_metadata` and the rest of duckdb_client.py are not part of this model.
- backend/mcp_server/server.py (the HTTP transport) is not part of this model.
- Logging and timing measurements are not modelled.
- Concurrency is not modelled. Requests run one at a time, and no single-flight guarantee is claimed; the source has none.
- The ghost call log of `Handlers.MCPHandlers` is instrumentation that the source does not have. It exists only to state "no external call".
- The network of each text request is a parameter of that request.
- Handlers.MCPHandlers.constructor: the warmup step is a parameter. `StartAsWritten` passes the source's step; `IntendedStep` gives the corrected one.
- Text.IsSpace is a definition of Python's whitespace set with no contract of its own. Its consequences are stated by `Text.LowerChar`, `Text.TrimStart`, `Text.TrimEnd` and `Text.StripIsMiddle`.

## Findings

| source | as written | input that shows it | evidently intended | confidence | as-written member | corrected member |
|---|---|---|---|---|---|---|
| backend/mcp_server/handlers.py:66 | warmup calls `self.osm.sync_geocode(q)`, which `OsmClient` does not define. Every phrase raises `AttributeError`, the `except` swallows it, and warmup caches nothing | any warmup phrase, e.g. "airport" | each phrase is geocoded by the client, and a resolved phrase warms the chip and similarity caches | high (not executed) | Pipeline.WarmupAsWrittenCachesNothing | Pipeline.IntendedWarmupWarmsResolved |
