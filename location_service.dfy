/** Location resolution (location_service.py): the address built from a
    listing's location fields, the geocode cache and its file, and the
    service object whose cache `get_coordinates` fills in place.

    The external geocoder's answers to one lookup are a parameter
    `geocoder: string -> GeocodeOutcome`; `get_location_details`, which looks
    the address up twice, takes one such parameter per lookup, so the second
    call may answer differently from the first. The great-circle distance
    rounded to two places is a parameter `distanceKm: (Coord, Coord) -> real`.
    The file behind the cache is the field `cacheFile`, and the ghost field
    `queries` records every query sent to the geocoder, in order. */
module Locations {
  import opened Common
  import opened Models

  // ---------------------------------------------------------------------
  // The listing mapping `get_location_details` receives
  // ---------------------------------------------------------------------

  /** The Python values a listing mapping can hold. */
  datatype PyValue =
    | PyNone
    | PyBool(b: bool)
    | PyInt(i: int)
    | PyStr(s: string)
    | PyList(items: seq<PyValue>)
    | PyDict(entries: map<string, PyValue>)

  /** Python truthiness. */
  predicate Truthy(v: PyValue) {
    match v
    case PyNone => false
    case PyBool(b) => b
    case PyInt(i) => i != 0
    case PyStr(s) => s != ""
    case PyList(items) => |items| > 0
    case PyDict(entries) => |entries| > 0
  }

  /** `d.get(key, default)` */
  function Get(d: map<string, PyValue>, key: string, default: PyValue := PyNone): PyValue {
    if key in d then d[key] else default
  }

  /** `filter(None, values)`: the truthy values, in order. */
  function KeepTruthy(vs: seq<PyValue>): seq<PyValue> {
    if |vs| == 0 then []
    else (if Truthy(vs[0]) then [vs[0]] else []) + KeepTruthy(vs[1..])
  }

  predicate AllStr(vs: seq<PyValue>) {
    forall i :: 0 <= i < |vs| ==> vs[i].PyStr?
  }

  function Texts(vs: seq<PyValue>): (r: seq<string>)
    requires AllStr(vs)
    ensures |r| == |vs| && forall i :: 0 <= i < |vs| ==> r[i] == vs[i].s
  {
    if |vs| == 0 then [] else [vs[0].s] + Texts(vs[1..])
  }

  /** How building the address ends: with an address, with an empty one, or
      with an exception (a location that is not a mapping, or a truthy part
      that is not a string, which `join` refuses). */
  datatype AddressOutcome = Address(text: string) | NoAddress | AddressRaised

  /** The address of a listing: the truthy values among the area, district
      and region of its location mapping (an empty mapping when the key is
      missing), joined with ", ". */
  function BuildAddress(listing: map<string, PyValue>): AddressOutcome {
    match Get(listing, "location", PyDict(map[]))
    case PyDict(loc) =>
      var kept := KeepTruthy([Get(loc, "area"), Get(loc, "district"), Get(loc, "region")]);
      if !AllStr(kept) then AddressRaised
      else
        var text := Join(Texts(kept), ", ");
        if text == "" then NoAddress else Address(text)
    case _ => AddressRaised
  }

  /** A location field holding a string, or `None`. */
  function AsPy(field: Option<string>): PyValue {
    match field
    case Some(s) => PyStr(s)
    case None => PyNone
  }

  /** The parts that are present and non-empty, in order. */
  function NonEmpty(fields: seq<Option<string>>): (r: seq<string>)
    ensures forall i :: 0 <= i < |r| ==> r[i] != ""
  {
    if |fields| == 0 then []
    else (if fields[0].Some? && fields[0].value != "" then [fields[0].value] else [])
         + NonEmpty(fields[1..])
  }

  /** Each field as a Python value. */
  function AsPyAll(fields: seq<Option<string>>): (vs: seq<PyValue>)
    ensures |vs| == |fields| && forall i :: 0 <= i < |fields| ==> vs[i] == AsPy(fields[i])
  {
    if |fields| == 0 then [] else [AsPy(fields[0])] + AsPyAll(fields[1..])
  }

  lemma TextsAppend(a: seq<PyValue>, b: seq<PyValue>)
    requires AllStr(a) && AllStr(b)
    ensures AllStr(a + b) && Texts(a + b) == Texts(a) + Texts(b)
  {
    assert forall i :: 0 <= i < |a + b| ==> (a + b)[i] == if i < |a| then a[i] else b[i - |a|];
  }

  lemma {:induction false} KeepTruthyOfText(fields: seq<Option<string>>)
    ensures var kept := KeepTruthy(AsPyAll(fields));
      AllStr(kept) && Texts(kept) == NonEmpty(fields)
    decreases |fields|
  {
    if |fields| > 0 {
      var vs := AsPyAll(fields);
      var rest := AsPyAll(fields[1..]);
      assert vs[1..] == rest;
      KeepTruthyOfText(fields[1..]);
      var head := if Truthy(vs[0]) then [vs[0]] else [];
      var same := if fields[0].Some? && fields[0].value != "" then [fields[0].value] else [];
      assert KeepTruthy(vs) == head + KeepTruthy(rest);
      assert NonEmpty(fields) == same + NonEmpty(fields[1..]);
      assert AllStr(head) && Texts(head) == same;
      TextsAppend(head, KeepTruthy(rest));
    }
  }

  /** Three optional parts: the present non-empty ones are none exactly when
      each is missing or empty. */
  lemma NonEmptyOfThree(area: Option<string>, district: Option<string>, region: Option<string>)
    ensures |NonEmpty([area, district, region])| == 0
        <==> (area.None? || area == Some("")) && (district.None? || district == Some(""))
             && (region.None? || region == Some(""))
  {
    var fields := [area, district, region];
    var a := if area.Some? && area.value != "" then [area.value] else [];
    var d := if district.Some? && district.value != "" then [district.value] else [];
    var r := if region.Some? && region.value != "" then [region.value] else [];
    assert fields[1..][1..][1..] == [];
    assert NonEmpty(fields[1..][1..]) == r + [];
    assert NonEmpty(fields[1..]) == d + (r + []);
    assert NonEmpty(fields) == a + (d + (r + []));
  }

  /** For a location mapping whose area, district and region are strings or
      missing, the address is the present non-empty parts, in that order,
      joined by ", "; when there are none there is no address. */
  lemma AddressFromTextFields(listing: map<string, PyValue>,
                              area: Option<string>, district: Option<string>, region: Option<string>)
    requires "location" in listing && listing["location"].PyDict?
    requires Get(listing["location"].entries, "area") == AsPy(area)
    requires Get(listing["location"].entries, "district") == AsPy(district)
    requires Get(listing["location"].entries, "region") == AsPy(region)
    ensures var present := NonEmpty([area, district, region]);
      BuildAddress(listing)
        == if |present| == 0 then NoAddress else Address(Join(present, ", "))
    ensures BuildAddress(listing) == NoAddress
        <==> (area.None? || area == Some("")) && (district.None? || district == Some(""))
             && (region.None? || region == Some(""))
  {
    var fields := [area, district, region];
    var loc := listing["location"].entries;
    var parts := [Get(loc, "area"), Get(loc, "district"), Get(loc, "region")];
    var vs := AsPyAll(fields);
    assert Get(listing, "location", PyDict(map[])) == PyDict(loc);
    assert vs == parts;
    KeepTruthyOfText(fields);
    var present := NonEmpty(fields);
    assert Texts(KeepTruthy(parts)) == present;
    JoinEmptyIff(present, ", ");
    NonEmptyOfThree(area, district, region);
  }

  /** Listings whose location is not a mapping at all never get an address. */
  lemma NonMappingLocationRaises(listing: map<string, PyValue>)
    requires "location" in listing && !listing["location"].PyDict?
    ensures BuildAddress(listing) == AddressRaised
  {
  }

  // ---------------------------------------------------------------------
  // The cache file (`load_cache`, `save_cache`)
  // ---------------------------------------------------------------------

  /** What is on disk at the cache path: nothing, something that does not
      read as the expected document, or a mapping from address to a JSON
      array of numbers. */
  datatype CacheFile = Missing | Unreadable | Present(document: map<string, seq<real>>)

  predicate AllPairs(document: map<string, seq<real>>) {
    forall k | k in document :: |document[k]| == 2
  }

  /** `load_cache`: each two-element array becomes a coordinate; a missing or
      unreadable file gives the empty cache. */
  function LoadCache(file: CacheFile): (cache: map<string, Coord>)
    ensures !file.Present? ==> cache == map[]
    ensures file.Present? && AllPairs(file.document) ==> cache.Keys == file.document.Keys
  {
    match file
    case Present(doc) =>
      if AllPairs(doc) then map k | k in doc :: Coord(doc[k][0], doc[k][1]) else map[]
    case _ => map[]
  }

  /** The document `save_cache` writes: each coordinate as a two-element array. */
  function SaveDocument(cache: map<string, Coord>): (document: map<string, seq<real>>)
    ensures document.Keys == cache.Keys && AllPairs(document)
  {
    map k | k in cache :: [cache[k].lat, cache[k].lon]
  }

  /** Saving and loading back gives the same cache. */
  lemma SaveThenLoad(cache: map<string, Coord>)
    ensures LoadCache(Present(SaveDocument(cache))) == cache
  {
    var loaded := LoadCache(Present(SaveDocument(cache)));
    assert forall k | k in cache :: loaded[k] == cache[k];
  }

  /** Loading a well-formed document and saving it again gives the same document. */
  lemma LoadThenSave(document: map<string, seq<real>>)
    requires AllPairs(document)
    ensures SaveDocument(LoadCache(Present(document))) == document
  {
    var again := SaveDocument(LoadCache(Present(document)));
    forall k | k in document ensures again[k] == document[k] {
      assert |document[k]| == 2;
      assert again[k] == [document[k][0], document[k][1]];
    }
  }

  // ---------------------------------------------------------------------
  // Resolution (`get_coordinates`) as functions of the cache it starts from
  // ---------------------------------------------------------------------

  /** What one geocoder call produces; every kind of failure is distinct
      here and collapses to "no coordinates" in the service. */
  datatype GeocodeOutcome = Found(coords: Coord) | NotFound | TimedOut | Unavailable | Failed

  /** The query sent on a miss: the location, with ", Phuket, Thailand"
      appended unless it already mentions Phuket. */
  function NormalizeQuery(location: string): (q: string)
    ensures Contains(q, "Phuket")
    ensures Contains(location, "Phuket") ==> q == location
    ensures !Contains(location, "Phuket") ==> q == location + ", Phuket, Thailand" && q != location
  {
    if Contains(location, "Phuket") then location
    else
      assert location + ", Phuket, Thailand" == (location + ", ") + "Phuket" + ", Thailand";
      ContainsInfix(location + ", ", "Phuket", ", Thailand");
      location + ", Phuket, Thailand"
  }

  /** A query that is already normalised is sent as it is. */
  lemma NormalizeQueryIdempotent(location: string)
    ensures NormalizeQuery(NormalizeQuery(location)) == NormalizeQuery(location)
  {
  }

  /** The result of `get_coordinates(location)` against `cache`. */
  function Resolve(cache: map<string, Coord>, location: string,
                   geocoder: string -> GeocodeOutcome): Option<Coord>
  {
    if location in cache then Some(cache[location])
    else
      match geocoder(NormalizeQuery(location))
      case Found(c) => Some(c)
      case _ => None
  }

  /** Whether the call reaches the geocoder and gets a position back. */
  predicate Geocoded(cache: map<string, Coord>, location: string, geocoder: string -> GeocodeOutcome) {
    location !in cache && geocoder(NormalizeQuery(location)).Found?
  }

  /** The cache after `get_coordinates(location)`. */
  function CacheAfter(cache: map<string, Coord>, location: string,
                      geocoder: string -> GeocodeOutcome): map<string, Coord>
  {
    if Geocoded(cache, location, geocoder)
    then cache[NormalizeQuery(location) := geocoder(NormalizeQuery(location)).coords]
    else cache
  }

  /** The queries `get_coordinates(location)` sends to the geocoder. */
  function QueriesSent(cache: map<string, Coord>, location: string,
                       geocoder: string -> GeocodeOutcome): seq<string>
  {
    if location in cache then [] else [NormalizeQuery(location)]
  }

  /** A hit is returned verbatim, without a geocoder call and without a change. */
  lemma HitIsVerbatim(cache: map<string, Coord>, location: string, geocoder: string -> GeocodeOutcome)
    requires location in cache
    ensures Resolve(cache, location, geocoder) == Some(cache[location])
    ensures CacheAfter(cache, location, geocoder) == cache
    ensures QueriesSent(cache, location, geocoder) == []
  {
  }

  /** On a miss exactly one normalised query is sent. A position found is
      returned and stored under that query, every other entry unchanged;
      any failure returns nothing and leaves the cache as it was. */
  lemma MissStoresUnderNormalizedKey(cache: map<string, Coord>, location: string,
                                     geocoder: string -> GeocodeOutcome)
    requires location !in cache
    ensures var q := NormalizeQuery(location);
      && QueriesSent(cache, location, geocoder) == [q]
      && (geocoder(q).Found? ==>
            && Resolve(cache, location, geocoder) == Some(geocoder(q).coords)
            && CacheAfter(cache, location, geocoder).Keys == cache.Keys + {q}
            && CacheAfter(cache, location, geocoder)[q] == geocoder(q).coords
            && forall k | k in cache && k != q :: CacheAfter(cache, location, geocoder)[k] == cache[k])
      && (!geocoder(q).Found? ==>
            Resolve(cache, location, geocoder) == None && CacheAfter(cache, location, geocoder) == cache)
  {
  }

  /** Under a geocoder that repeats its answer, resolving the same location
      again yields the same result and leaves the cache as the first
      resolution left it. */
  lemma ResolveAgain(cache: map<string, Coord>, location: string, geocoder: string -> GeocodeOutcome)
    ensures var after := CacheAfter(cache, location, geocoder);
      Resolve(after, location, geocoder) == Resolve(cache, location, geocoder)
      && CacheAfter(after, location, geocoder) == after
  {
  }

  /** A location that does not mention Phuket never becomes a cache hit: the
      entry is written under the suffixed query, so every later lookup of the
      same location goes to the geocoder again. */
  lemma UnsuffixedLocationNeverHits(cache: map<string, Coord>, location: string,
                                    geocoder: string -> GeocodeOutcome)
    requires location !in cache && !Contains(location, "Phuket")
    ensures location !in CacheAfter(cache, location, geocoder)
    ensures QueriesSent(CacheAfter(cache, location, geocoder), location, geocoder)
         == [location + ", Phuket, Thailand"]
  {
  }

  // ---------------------------------------------------------------------
  // The service object
  // ---------------------------------------------------------------------

  /** What `get_location_details` returns. */
  datatype LocationDetails = LocationDetails(
    coordinates: Option<Coord>,
    distanceToPatong: Option<real>,
    address: Option<string>)

  /** The geocoder queries one `get_location_details` call sends for the
      address `a`: `get_coordinates(a)` answered by `first`, then, when that
      found a position, `get_coordinates(a)` once more inside
      `calculate_distance_to_patong`, answered by `second`. */
  function DetailsQueries(cache: map<string, Coord>, a: string,
                          first: string -> GeocodeOutcome, second: string -> GeocodeOutcome): seq<string>
  {
    QueriesSent(cache, a, first)
    + if Resolve(cache, a, first).Some?
      then QueriesSent(CacheAfter(cache, a, first), a, second) else []
  }

  /** The second lookup inside `get_location_details` reaches the geocoder
      again exactly when the address does not mention Phuket and was not
      cached: such an address costs two identical queries per call. */
  lemma DetailsQueryCount(cache: map<string, Coord>, a: string,
                          first: string -> GeocodeOutcome, second: string -> GeocodeOutcome)
    ensures a in cache ==> DetailsQueries(cache, a, first, second) == []
    ensures a !in cache && !Geocoded(cache, a, first)
        ==> DetailsQueries(cache, a, first, second) == [NormalizeQuery(a)]
    ensures Geocoded(cache, a, first) && Contains(a, "Phuket")
        ==> DetailsQueries(cache, a, first, second) == [a]
    ensures Geocoded(cache, a, first) && !Contains(a, "Phuket")
        ==> DetailsQueries(cache, a, first, second) == [NormalizeQuery(a), NormalizeQuery(a)]
  {
  }

  /** After a first lookup that geocoded `a`, the second lookup of
      `get_location_details` is a cache hit returning the first position when
      `a` mentions Phuket. Otherwise it goes to the geocoder again, and its
      own answer decides: a failure gives no position (and so no distance)
      and keeps the first entry; a position replaces the first entry. */
  lemma SecondLookup(cache: map<string, Coord>, a: string,
                     first: string -> GeocodeOutcome, second: string -> GeocodeOutcome)
    requires Geocoded(cache, a, first)
    ensures var mid := CacheAfter(cache, a, first);
      Contains(a, "Phuket") ==>
        && Resolve(mid, a, second) == Resolve(cache, a, first)
        && CacheAfter(mid, a, second) == mid
    ensures var mid := CacheAfter(cache, a, first);
      !Contains(a, "Phuket") ==>
        && Resolve(mid, a, second) == Resolve(cache, a, second)
        && CacheAfter(mid, a, second)
           == if second(NormalizeQuery(a)).Found? then CacheAfter(cache, a, second) else mid
  {
    var q := NormalizeQuery(a);
    var mid := CacheAfter(cache, a, first);
    if !Contains(a, "Phuket") {
      assert a != q;
      assert a !in mid;
      if second(q).Found? {
        assert mid[q := second(q).coords] == cache[q := second(q).coords];
      }
    }
  }

  class LocationService {
    /** Patong Beach, the fixed distance anchor. */
    const patongBeach: Coord
    var cache: map<string, Coord>
    var cacheFile: CacheFile
    ghost var queries: seq<string>

    /** `LocationService()`: the cache is whatever `load_cache` reads. */
    constructor (file: CacheFile)
      ensures patongBeach == Coord(7.9039, 98.2970)
      ensures cache == LoadCache(file) && cacheFile == file && queries == []
    {
      patongBeach := Coord(7.9039, 98.2970);
      cache := LoadCache(file);
      cacheFile := file;
      queries := [];
    }

    /** `save_cache`: writes the whole cache. */
    method SaveCache()
      modifies this`cacheFile
      ensures cacheFile == Present(SaveDocument(cache))
    {
      cacheFile := Present(SaveDocument(cache));
    }

    /** `get_coordinates`. */
    method GetCoordinates(location: string, geocoder: string -> GeocodeOutcome)
      returns (coords: Option<Coord>)
      modifies this`cache, this`cacheFile, this`queries
      ensures coords == Resolve(old(cache), location, geocoder)
      ensures cache == CacheAfter(old(cache), location, geocoder)
      ensures queries == old(queries) + QueriesSent(old(cache), location, geocoder)
      ensures cacheFile == if Geocoded(old(cache), location, geocoder)
                           then Present(SaveDocument(cache)) else old(cacheFile)
    {
      if location in cache {
        return Some(cache[location]);
      }
      var query := location;
      if !Contains(query, "Phuket") {
        query := query + ", Phuket, Thailand";
      }
      queries := queries + [query];
      var answer := geocoder(query);
      if answer.Found? {
        cache := cache[query := answer.coords];
        SaveCache();
        return Some(answer.coords);
      }
      return None;
    }

    /** `calculate_distance_to_patong`. */
    method CalculateDistanceToPatong(location: string, geocoder: string -> GeocodeOutcome,
                                     distanceKm: (Coord, Coord) -> real)
      returns (distance: Option<real>)
      modifies this`cache, this`cacheFile, this`queries
      ensures var c := Resolve(old(cache), location, geocoder);
        distance == if c.Some? then Some(distanceKm(c.value, patongBeach)) else None
      ensures cache == CacheAfter(old(cache), location, geocoder)
      ensures queries == old(queries) + QueriesSent(old(cache), location, geocoder)
      ensures cacheFile == if Geocoded(old(cache), location, geocoder)
                           then Present(SaveDocument(cache)) else old(cacheFile)
    {
      var coords := GetCoordinates(location, geocoder);
      if coords.None? {
        return None;
      }
      return Some(distanceKm(coords.value, patongBeach));
    }

    /** `get_location_details`: an empty or failing address gives all three
      results unset and touches nothing. Otherwise the coordinates come from
      the first lookup (answered by `first`); when there are some, the
      distance comes from the second lookup inside
      `calculate_distance_to_patong` (answered by `second`), which may find
      no position or another one. */
    method GetLocationDetails(listing: map<string, PyValue>,
                              first: string -> GeocodeOutcome, second: string -> GeocodeOutcome,
                              distanceKm: (Coord, Coord) -> real)
      returns (details: LocationDetails)
      modifies this`cache, this`cacheFile, this`queries
      ensures !BuildAddress(listing).Address? ==>
        && details == LocationDetails(None, None, None)
        && cache == old(cache) && cacheFile == old(cacheFile) && queries == old(queries)
      ensures BuildAddress(listing).Address? ==>
        var a := BuildAddress(listing).text;
        var c := Resolve(old(cache), a, first);
        var mid := CacheAfter(old(cache), a, first);
        && details.address == Some(a)
        && details.coordinates == c
        && queries == old(queries) + DetailsQueries(old(cache), a, first, second)
        && (c.None? ==>
              && details.distanceToPatong == None
              && cache == old(cache) && cacheFile == old(cacheFile))
        && (c.Some? ==>
              var d := Resolve(mid, a, second);
              && details.distanceToPatong == (if d.Some? then Some(distanceKm(d.value, patongBeach)) else None)
              && cache == CacheAfter(mid, a, second)
              && cacheFile == if Geocoded(mid, a, second) then Present(SaveDocument(cache))
                              else if Geocoded(old(cache), a, first) then Present(SaveDocument(mid))
                              else old(cacheFile))
    {
      var outcome := BuildAddress(listing);
      if !outcome.Address? {
        return LocationDetails(None, None, None);
      }
      var address := outcome.text;
      ghost var cache0, queries0 := cache, queries;
      var coords := GetCoordinates(address, first);
      ghost var cache1, file1, queries1 := cache, cacheFile, queries;
      var distance: Option<real> := None;
      if coords.Some? {
        distance := CalculateDistanceToPatong(address, second, distanceKm);
        assert queries == queries1 + QueriesSent(cache1, address, second);
        assert queries == queries0 + DetailsQueries(cache0, address, first, second);
        if !Geocoded(cache1, address, second) {
          assert cacheFile == file1;
        }
      } else {
        assert queries == queries0 + DetailsQueries(cache0, address, first, second);
      }
      return LocationDetails(coords, distance, Some(address));
    }
  }

  /** The sample initial cache that ships with the project, as its document. */
  function InitialCacheDocument(): (document: map<string, seq<real>>)
    ensures AllPairs(document)
  {
    map[
      "Patong, Kathu, Phuket" := [7.9039, 98.2970],
      "Rawai, Muang Phuket, Phuket" := [7.7781, 98.3307],
      "Chalong, Muang Phuket, Phuket" := [7.8484, 98.3319],
      "Kathu, Phuket" := [7.9191, 98.3332],
      "Ratsada, Muang Phuket, Phuket" := [7.8805, 98.4007],
      "Mai Khao, Thalang, Phuket" := [8.1797, 98.3031],
      "Kammala, Kathu, Phuket" := [7.9705, 98.2834],
      "Choeng Thale, Thalang, Phuket" := [7.9862, 98.2978],
      "Wichit, Muang Phuket, Phuket" := [7.8766, 98.3858],
      "Karon, Muang Phuket, Phuket" := [7.8429, 98.2947],
      "Sa Khu, Thalang, Phuket" := [8.0891, 98.3069],
      "Pa Khlok, Thalang, Phuket" := [8.0606, 98.4139],
      "Thep Krasattri, Thalang, Phuket" := [8.0224, 98.3492]
    ]
  }

  /** Against the sample cache, an address built from listing fields is
      answered from the cache, without a geocoder call. */
  lemma SampleCacheHit(geocoder: string -> GeocodeOutcome)
    ensures var cache := LoadCache(Present(InitialCacheDocument()));
      && Resolve(cache, "Kathu, Phuket", geocoder) == Some(Coord(7.9191, 98.3332))
      && QueriesSent(cache, "Kathu, Phuket", geocoder) == []
  {
    var doc := InitialCacheDocument();
    assert doc["Kathu, Phuket"] == [7.9191, 98.3332];
  }

  lemma PatongNotSampled()
    ensures "Patong" !in LoadCache(Present(InitialCacheDocument()))
  {
    assert "Patong" !in InitialCacheDocument();
  }

  lemma PatongSuffixed()
    ensures NormalizeQuery("Patong") == "Patong" + ", Phuket, Thailand"
  {
    var area, name := "Patong", "Phuket";
    assert area[1] != name[1];
    SameLengthContains(area, name);
  }

  /** A bare area name that does not mention Phuket misses the sample cache
      and is sent to the geocoder in its suffixed form. */
  lemma SampleCacheMiss(geocoder: string -> GeocodeOutcome)
    ensures var cache := LoadCache(Present(InitialCacheDocument()));
      QueriesSent(cache, "Patong", geocoder) == ["Patong" + ", Phuket, Thailand"]
  {
    PatongNotSampled();
    PatongSuffixed();
  }
}
