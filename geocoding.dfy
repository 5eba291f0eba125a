/**
 * The geocoding service: a cache-aside lookup in the `geocoding_cache` table
 * (location name to `POINT(lon lat)` string) in front of the Nominatim search
 * API. The API is an oracle: its answer to the one request a call makes is a
 * parameter, and each lookup reports the request it sent (`None` on a cache
 * hit). A failed cache write is silent in the source; `writeFails` models it.
 */
module Geocoding {
  import opened Common

  /** One result of a Nominatim search; `lat` and `lon` are the decimal strings the API returns. */
  datatype Place = Place(lat: string, lon: string, displayName: string)

  /** The API's answer: a transport error (axios throws) or the `response.data` array. */
  datatype ApiResponse = NetworkError(message: string) | Places(results: seq<Place>)

  /** The query parameters sent to Nominatim; an absent parameter is `undefined`. */
  datatype Request = Search(q: string) | ReverseLookup(lat: Option<string>, lon: Option<string>)

  /** What one lookup does: its result, the request it sent, and the cache afterwards. */
  datatype Lookup = Lookup(result: Result<string>, call: Option<Request>, cache: map<string, string>)

  const LOCATION_NOT_FOUND: string := "Location not found"

  /**
   * The coordinate string `POINT(${lon} ${lat})`: longitude first. For
   * space-free coordinates it has exactly two space-separated tokens.
   */
  function FormatPoint(lon: string, lat: string): (r: string)
    ensures ' ' !in lon && ' ' !in lat ==> Split(r, ' ') == ["POINT(" + lon, lat + ")"]
  {
    var r := "POINT(" + lon + " " + lat + ")";
    assert ' ' !in lon && ' ' !in lat ==> Split(r, ' ') == ["POINT(" + lon, lat + ")"] by {
      var parts := ["POINT(" + lon, lat + ")"];
      assert Join(parts, ' ') == r by {
        assert Join(parts[1..], ' ') == lat + ")";
      }
      if ' ' !in lon && ' ' !in lat {
        assert ' ' !in parts[0] && ' ' !in parts[1];
        SplitJoin(parts, ' ');
      }
    }
    r
  }

  /** JavaScript's `s.split(sep)` for a one-character separator. */
  function Split(s: string, sep: char): (parts: seq<string>)
    ensures |parts| >= 1
    ensures forall i :: 0 <= i < |parts| ==> sep !in parts[i]
    decreases |s|
  {
    if s == [] then [""]
    else
      var rest := Split(s[1..], sep);
      if s[0] == sep then [""] + rest
      else [[s[0]] + rest[0]] + rest[1..]
  }

  /** JavaScript's `parts.join(sep)`. */
  function Join(parts: seq<string>, sep: char): string
    requires |parts| >= 1
    decreases |parts|
  {
    if |parts| == 1 then parts[0] else parts[0] + [sep] + Join(parts[1..], sep)
  }

  /** Splitting loses nothing: joining the parts back gives the original string. */
  lemma {:induction false} JoinSplit(s: string, sep: char)
    ensures Join(Split(s, sep), sep) == s
    decreases |s|
  {
    if s != [] {
      JoinSplit(s[1..], sep);
      var rest := Split(s[1..], sep);
      if s[0] == sep {
        assert Split(s, sep)[1..] == rest;
      } else {
        var parts := Split(s, sep);
        assert parts[0] == [s[0]] + rest[0];
        if |rest| > 1 {
          assert parts[1..] == rest[1..];
          assert Join(rest, sep) == rest[0] + [sep] + Join(rest[1..], sep);
        }
      }
      assert s == [s[0]] + s[1..];
    }
  }

  /** A string without the separator splits into itself alone. */
  lemma {:induction false} SplitWithoutSeparator(a: string, sep: char)
    requires sep !in a
    ensures Split(a, sep) == [a]
    decreases |a|
  {
    if a != [] {
      SplitWithoutSeparator(a[1..], sep);
      assert a == [a[0]] + a[1..];
    }
  }

  /** Splitting at the first separator peels off the text before it. */
  lemma {:induction false} SplitAtFirstSeparator(a: string, sep: char, b: string)
    requires sep !in a
    ensures Split(a + [sep] + b, sep) == [a] + Split(b, sep)
    decreases |a|
  {
    var s := a + [sep] + b;
    if a == [] {
      assert s[1..] == b;
    } else {
      assert s[1..] == a[1..] + [sep] + b;
      SplitAtFirstSeparator(a[1..], sep, b);
      assert a == [a[0]] + a[1..];
    }
  }

  /** Joining parts that do not contain the separator and splitting again gives the parts back. */
  lemma {:induction false} SplitJoin(parts: seq<string>, sep: char)
    requires |parts| >= 1
    requires forall i :: 0 <= i < |parts| ==> sep !in parts[i]
    ensures Split(Join(parts, sep), sep) == parts
    decreases |parts|
  {
    if |parts| == 1 {
      SplitWithoutSeparator(parts[0], sep);
    } else {
      SplitJoin(parts[1..], sep);
      SplitAtFirstSeparator(parts[0], sep, Join(parts[1..], sep));
      assert parts == [parts[0]] + parts[1..];
    }
  }

  /** `parts[i]`, `undefined` past the end. */
  function Token(parts: seq<string>, i: nat): Option<string> {
    if i < |parts| then Some(parts[i]) else None
  }

  /** A string splits into two or more tokens exactly when it contains the separator. */
  lemma {:induction false} SplitCount(s: string, sep: char)
    ensures |Split(s, sep)| >= 2 <==> sep in s
    decreases |s|
  {
    if s != [] {
      SplitCount(s[1..], sep);
      assert s == [s[0]] + s[1..];
    }
  }

  /** The first token is the text before the first separator: a prefix followed by the separator or the end. */
  lemma {:induction false} SplitFirstToken(s: string, sep: char)
    ensures Split(s, sep)[0] <= s
    ensures |Split(s, sep)[0]| < |s| ==> s[|Split(s, sep)[0]|] == sep
    decreases |s|
  {
    if s != [] {
      SplitFirstToken(s[1..], sep);
      assert s == [s[0]] + s[1..];
    }
  }

  /** After the first token and its separator, the remaining tokens are the split of the rest. */
  lemma SplitRest(s: string, sep: char)
    requires |Split(s, sep)[0]| < |s|
    ensures Split(s, sep)[1..] == Split(s[|Split(s, sep)[0]| + 1..], sep)
  {
    var t := Split(s, sep)[0];
    SplitFirstToken(s, sep);
    assert s == t + [sep] + s[|t| + 1..];
    SplitAtFirstSeparator(t, sep, s[|t| + 1..]);
  }

  /**
   * The reverse-lookup parameters: `lon` is the first space-separated token
   * and always defined; `lat` is the second, `undefined` when the string has
   * no space. Each token is the text up to the next space or the end.
   */
  function ReverseParams(coordinates: string): (r: Request)
    ensures r.ReverseLookup? && r.lon.Some? && ' ' !in r.lon.value
    ensures r.lat.Some? <==> ' ' in coordinates
    ensures ' ' !in coordinates ==> r == ReverseLookup(None, Some(coordinates))
    ensures r.lon.value <= coordinates
    ensures |r.lon.value| < |coordinates| ==> coordinates[|r.lon.value|] == ' '
    ensures r.lat.Some? ==>
              var rest := coordinates[|r.lon.value| + 1..];
              ' ' !in r.lat.value && r.lat.value <= rest && (|r.lat.value| < |rest| ==> rest[|r.lat.value|] == ' ')
  {
    var parts := Split(coordinates, ' ');
    var r := ReverseLookup(Token(parts, 1), Token(parts, 0));
    assert r.lat.Some? <==> ' ' in coordinates by {
      SplitCount(coordinates, ' ');
    }
    assert ' ' !in coordinates ==> r == ReverseLookup(None, Some(coordinates)) by {
      if ' ' !in coordinates {
        SplitWithoutSeparator(coordinates, ' ');
      }
    }
    SplitFirstToken(coordinates, ' ');
    assert r.lat.Some? ==>
             var rest := coordinates[|parts[0]| + 1..];
             ' ' !in parts[1] && parts[1] <= rest && (|parts[1]| < |rest| ==> rest[|parts[1]|] == ' ') by {
      if r.lat.Some? {
        SplitRest(coordinates, ' ');
        assert parts[1] == parts[1..][0];
        SplitFirstToken(coordinates[|parts[0]| + 1..], ' ');
      }
    }
    r
  }

  /**
   * For a stored `POINT(lon lat)` string the tokens keep the WKT punctuation:
   * `lon` is sent as `POINT(<lon>` and `lat` as `<lat>)`.
   */
  lemma ReverseParamsOfPoint(lon: string, lat: string)
    requires ' ' !in lon && ' ' !in lat
    ensures ReverseParams(FormatPoint(lon, lat)) == ReverseLookup(Some(lat + ")"), Some("POINT(" + lon))
  {
  }

  /** `geocodeLocation(locationName)`, as a transition of the cache. */
  function GeocodeStep(cache: map<string, string>, locationName: string, response: ApiResponse, writeFails: bool): (l: Lookup)
    ensures locationName in cache ==> l == Lookup(Ok(cache[locationName]), None, cache)
    ensures locationName !in cache ==> l.call == Some(Search(locationName))
    ensures locationName !in cache && response == Places([]) ==> l.result == Err(LOCATION_NOT_FOUND)
    ensures locationName !in cache && response.NetworkError? ==> l.result == Err(response.message)
    ensures l.result.Err? ==> l.cache == cache
    ensures l.result.Ok? ==> locationName in l.cache || writeFails
    ensures l.cache == cache || (l.result.Ok? && l.cache == cache[locationName := l.result.value])
  {
    if locationName in cache then Lookup(Ok(cache[locationName]), None, cache)
    else
      var call := Some(Search(locationName));
      match response
      case NetworkError(m) => Lookup(Err(m), call, cache)
      case Places(ps) =>
        if |ps| == 0 then Lookup(Err(LOCATION_NOT_FOUND), call, cache)
        else
          var coordinates := FormatPoint(ps[0].lon, ps[0].lat);
          Lookup(Ok(coordinates), call, if writeFails then cache else cache[locationName := coordinates])
  }

  /** A miss with results yields the first result as `POINT(lon lat)`, longitude first. */
  lemma GeocodeMissFormatsFirstResult(cache: map<string, string>, name: string, ps: seq<Place>, writeFails: bool)
    requires name !in cache && |ps| > 0
    ensures GeocodeStep(cache, name, Places(ps), writeFails).result == Ok(FormatPoint(ps[0].lon, ps[0].lat))
  {
  }

  /** After a successful lookup whose cache write went through, the same name hits the cache and returns the same value. */
  lemma GeocodeRepeatHits(cache: map<string, string>, name: string, first: ApiResponse, second: ApiResponse, writeFails: bool)
    requires GeocodeStep(cache, name, first, false).result.Ok?
    ensures var l := GeocodeStep(cache, name, first, false);
            GeocodeStep(l.cache, name, second, writeFails) == Lookup(l.result, None, l.cache)
  {
  }

  /** The cached names whose coordinates equal `coordinates`. */
  ghost function NamesAt(cache: map<string, string>, coordinates: string): set<string> {
    set n | n in cache && cache[n] == coordinates
  }

  /**
   * `reverseGeocode(coordinates)`, as a transition of the cache. The lookup
   * by coordinates uses `.single()`, so it hits only when exactly one cached
   * name has these coordinates.
   */
  ghost function ReverseStep(cache: map<string, string>, coordinates: string, response: ApiResponse, writeFails: bool): (l: Lookup)
    ensures |NamesAt(cache, coordinates)| == 1 ==>
              l.call.None? && l.cache == cache && l.result.Ok? && l.result.value in cache && cache[l.result.value] == coordinates
    ensures |NamesAt(cache, coordinates)| != 1 ==> l.call == Some(ReverseParams(coordinates))
    ensures |NamesAt(cache, coordinates)| != 1 && response == Places([]) ==> l.result == Err(LOCATION_NOT_FOUND)
    ensures |NamesAt(cache, coordinates)| != 1 && response.NetworkError? ==> l.result == Err(response.message)
    ensures l.result.Err? ==> l.cache == cache
    ensures l.cache == cache || (l.result.Ok? && l.cache == cache[l.result.value := coordinates])
  {
    var names := NamesAt(cache, coordinates);
    if |names| == 1 then
      var n :| n in names;
      Lookup(Ok(n), None, cache)
    else
      var call := Some(ReverseParams(coordinates));
      match response
      case NetworkError(m) => Lookup(Err(m), call, cache)
      case Places(ps) =>
        if |ps| == 0 then Lookup(Err(LOCATION_NOT_FOUND), call, cache)
        else
          var name := ps[0].displayName;
          Lookup(Ok(name), call, if writeFails then cache else cache[name := coordinates])
  }

  /**
   * A successful reverse miss returns `display_name`, whether or not the
   * cache write went through; when it did, `(display_name, coordinates)` is stored.
   */
  lemma ReverseMissStoresDisplayName(cache: map<string, string>, coordinates: string, ps: seq<Place>, writeFails: bool)
    requires |NamesAt(cache, coordinates)| != 1 && |ps| > 0
    ensures var l := ReverseStep(cache, coordinates, Places(ps), writeFails);
            l.result == Ok(ps[0].displayName) &&
            l.cache == if writeFails then cache else cache[ps[0].displayName := coordinates]
  {
  }

  /** The `geocoding_cache` table, keyed by location name. */
  class GeocodingService {
    var cache: map<string, string>

    constructor (cache: map<string, string>)
      ensures this.cache == cache
    {
      this.cache := cache;
    }

    /** `geocodeLocation(locationName)`: check the cache, on a miss ask the API, format, upsert. */
    method GeocodeLocation(locationName: string, response: ApiResponse, writeFails: bool)
      returns (result: Result<string>, call: Option<Request>)
      modifies this
      ensures Lookup(result, call, cache) == GeocodeStep(old(cache), locationName, response, writeFails)
    {
      if locationName in cache {
        return Ok(cache[locationName]), None;
      }
      call := Some(Search(locationName));
      match response {
        case NetworkError(m) =>
          result := Err(m);
        case Places(ps) =>
          if |ps| == 0 {
            result := Err(LOCATION_NOT_FOUND);
          } else {
            var coordinates := FormatPoint(ps[0].lon, ps[0].lat);
            if !writeFails {
              cache := cache[locationName := coordinates];
            }
            result := Ok(coordinates);
          }
      }
    }

    /** `reverseGeocode(coordinates)`: check the cache by coordinates, on a miss ask the API, upsert. */
    method ReverseGeocode(coordinates: string, response: ApiResponse, writeFails: bool)
      returns (result: Result<string>, call: Option<Request>)
      modifies this
      ensures Lookup(result, call, cache) == ReverseStep(old(cache), coordinates, response, writeFails)
    {
      var names := set n | n in cache && cache[n] == coordinates;
      assert names == NamesAt(cache, coordinates);
      if |names| == 1 {
        var n :| n in names;
        assert |names - {n}| == 0;
        assert names == {n};
        return Ok(n), None;
      }
      call := Some(ReverseParams(coordinates));
      match response {
        case NetworkError(m) =>
          result := Err(m);
        case Places(ps) =>
          if |ps| == 0 {
            result := Err(LOCATION_NOT_FOUND);
          } else {
            var name := ps[0].displayName;
            if !writeFails {
              cache := cache[name := coordinates];
            }
            result := Ok(name);
          }
      }
    }
  }
}
