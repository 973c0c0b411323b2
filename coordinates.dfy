/**
 * Coordinates and the chip-cache key (backend/mcp_server/handlers.py, `_cache_key`).
 *
 * The source keeps longitudes and latitudes as Python floats. This model keeps
 * them as whole numbers of micro-degrees (1e-6 degree), so that `round(x, 4)`
 * becomes exact integer arithmetic on a decimal value.
 */
module Coordinates {

  /** Micro-degrees in one unit of the 4th decimal place (1e-4 degree). */
  const KeyUnit: int := 100

  /** A chip-cache key: both coordinates rounded to 4 decimal places, in units of 1e-4 degree. */
  datatype Key = Key(lon: int, lat: int)

  /**
   * Python's `round(x, 4)` on a value given in micro-degrees: the nearest
   * multiple of 1e-4 degree, ties going to the even multiple (banker's rounding).
   */
  function Round4(x: int): (k: int)
    ensures KeyUnit * k - KeyUnit / 2 <= x <= KeyUnit * k + KeyUnit / 2
    ensures x - KeyUnit * k == KeyUnit / 2 ==> k % 2 == 0
    ensures KeyUnit * k - x == KeyUnit / 2 ==> k % 2 == 0
  {
    var q, r := x / KeyUnit, x % KeyUnit;
    if r < KeyUnit / 2 then q
    else if r > KeyUnit / 2 then q + 1
    else if q % 2 == 0 then q
    else q + 1
  }

  /** The nearest-with-ties-to-even property determines the rounded value uniquely. */
  lemma Round4Unique(x: int, k: int)
    requires KeyUnit * k - KeyUnit / 2 <= x <= KeyUnit * k + KeyUnit / 2
    requires x - KeyUnit * k == KeyUnit / 2 ==> k % 2 == 0
    requires KeyUnit * k - x == KeyUnit / 2 ==> k % 2 == 0
    ensures Round4(x) == k
  {
  }

  /** A value that already has at most 4 decimals rounds to itself. */
  lemma Round4OnGrid(k: int)
    ensures Round4(KeyUnit * k) == k
  {
    Round4Unique(KeyUnit * k, k);
  }

  /** Rounding is monotone: it never swaps the order of two points. */
  lemma Round4Monotone(x: int, y: int)
    requires x <= y
    ensures Round4(x) <= Round4(y)
  {
  }

  /** `_cache_key(lon, lat)`: the pair of rounded coordinates, and nothing else. */
  function CacheKey(lon: int, lat: int): (key: Key)
    ensures KeyUnit * key.lon - KeyUnit / 2 <= lon <= KeyUnit * key.lon + KeyUnit / 2
    ensures KeyUnit * key.lat - KeyUnit / 2 <= lat <= KeyUnit * key.lat + KeyUnit / 2
  {
    Key(Round4(lon), Round4(lat))
  }

  /**
   * Two points share a chip-cache entry exactly when both of their coordinates
   * round to the same 4-decimal values; points that share one lie within
   * 1e-4 degree of each other on each axis.
   */
  lemma SameKey(lon1: int, lat1: int, lon2: int, lat2: int)
    ensures CacheKey(lon1, lat1) == CacheKey(lon2, lat2)
        <==> Round4(lon1) == Round4(lon2) && Round4(lat1) == Round4(lat2)
    ensures CacheKey(lon1, lat1) == CacheKey(lon2, lat2)
        ==> -KeyUnit <= lon1 - lon2 <= KeyUnit && -KeyUnit <= lat1 - lat2 <= KeyUnit
  {
  }

  /** Re-keying a key's own grid point gives the key back. */
  lemma CacheKeyOfGridPoint(key: Key)
    ensures CacheKey(KeyUnit * key.lon, KeyUnit * key.lat) == key
  {
    Round4OnGrid(key.lon);
    Round4OnGrid(key.lat);
  }
}
