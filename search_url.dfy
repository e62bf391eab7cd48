/** The search request (streamlit_app.py): the sidebar form turned into
    search parameters, and `build_search_url`, which lists query pairs and
    joins them onto the base URL without any encoding.

    The current city, which the source reads from the session, is the
    parameter `sessionCity` (`None` when the session holds none). */
module Search {
  import opened Common

  const BaseUrl := "https://www.ddproperty.com/en/property-for-rent"

  const CityRegionCodes: map<string, string> :=
    map["Phuket" := "TH83", "Bangkok" := "TH10", "Chiang Mai" := "TH50", "Chiang Rai" := "TH57"]

  /** The city searched when the session names none. */
  function CurrentCity(sessionCity: Option<string>): (city: string)
    ensures sessionCity.None? ==> city == "Phuket"
    ensures sessionCity.Some? ==> city == sessionCity.value
  {
    sessionCity.GetOr("Phuket")
  }

  /** The region code of a city; cities without one search Phuket's. */
  function RegionCode(city: string): (code: string)
    ensures code in CityRegionCodes.Values
    ensures city in CityRegionCodes ==> code == CityRegionCodes[city]
    ensures city !in CityRegionCodes ==> code == "TH83"
  {
    if city in CityRegionCodes then CityRegionCodes[city]
    else
      assert CityRegionCodes["Phuket"] == "TH83";
      "TH83"
  }

  /** The parameters `build_search_url` looks at. A field is `None` when the
      key is missing or holds `None`; the list-valued ones hold the elements
      the source iterates over. */
  datatype SearchParams = SearchParams(
    minPrice: Option<int> := None,
    maxPrice: Option<int> := None,
    bedrooms: Option<seq<string>> := None,
    bathrooms: Option<seq<string>> := None,
    propertyTypes: Option<seq<string>> := None,
    furnishing: Option<seq<string>> := None,
    maxSize: Option<int> := None)

  /** Python truthiness of an optional number and of an optional list. */
  predicate TruthyInt(v: Option<int>) {
    v.Some? && v.value != 0
  }

  predicate TruthySeq(v: Option<seq<string>>) {
    v.Some? && |v.value| > 0
  }

  /** The query keys `build_search_url` can emit, in the order it appends them. */
  datatype Key =
    FreeText | Region | Market | SearchFlag | MinPrice | MaxPrice
    | Beds | Baths | PropertyTypes | Furnishing | MaxSize

  function KeyName(k: Key): string {
    match k
    case FreeText => "freetext"
    case Region => "region_code"
    case Market => "market"
    case SearchFlag => "search"
    case MinPrice => "minprice"
    case MaxPrice => "maxprice"
    case Beds => "beds[]"
    case Baths => "baths[]"
    case PropertyTypes => "property_type_code[]"
    case Furnishing => "furnishing[]"
    case MaxSize => "maxsize"
  }

  type Pair = (Key, string)

  // ---------------------------------------------------------------------
  // The query pairs and the URL, as functions
  // ---------------------------------------------------------------------

  function FixedPairs(city: string): seq<Pair> {
    [(FreeText, city), (Region, RegionCode(city)), (Market, "residential"), (SearchFlag, "true")]
  }

  /** One `key=value` pair for a truthy number, none otherwise. */
  function ScalarPairs(key: Key, v: Option<int>): seq<Pair> {
    if TruthyInt(v) then [(key, IntToDecimal(v.value))] else []
  }

  /** One `key=item` pair per item, in order. */
  function EachPair(key: Key, items: seq<string>): (r: seq<Pair>)
    ensures |r| == |items|
  {
    seq(|items|, i requires 0 <= i < |items| => (key, items[i]))
  }

  function RepeatedPairs(key: Key, v: Option<seq<string>>): seq<Pair> {
    if TruthySeq(v) then EachPair(key, v.value) else []
  }

  /** The pairs of the query, in the order the source appends them. */
  function QueryPairs(p: SearchParams, city: string): seq<Pair> {
    FixedPairs(city)
    + ScalarPairs(MinPrice, p.minPrice)
    + ScalarPairs(MaxPrice, p.maxPrice)
    + RepeatedPairs(Beds, p.bedrooms)
    + RepeatedPairs(Baths, p.bathrooms)
    + RepeatedPairs(PropertyTypes, p.propertyTypes)
    + RepeatedPairs(Furnishing, p.furnishing)
    + ScalarPairs(MaxSize, p.maxSize)
  }

  /** `f"{k}={v}"`. */
  function RenderPair(pair: Pair): string {
    KeyName(pair.0) + "=" + pair.1
  }

  function Render(pairs: seq<Pair>): (r: seq<string>)
    ensures |r| == |pairs|
  {
    seq(|pairs|, i requires 0 <= i < |pairs| => RenderPair(pairs[i]))
  }

  function QueryString(pairs: seq<Pair>): string {
    Join(Render(pairs), "&")
  }

  function SearchUrl(p: SearchParams, city: string): string {
    BaseUrl + "?" + QueryString(QueryPairs(p, city))
  }

  // ---------------------------------------------------------------------
  // build_search_url
  // ---------------------------------------------------------------------

  /** One of the loops of `build_search_url`: appends a pair per item. */
  method AppendEach(parts: seq<Pair>, key: Key, items: seq<string>) returns (r: seq<Pair>)
    ensures r == parts + EachPair(key, items)
  {
    r := parts;
    var i := 0;
    while i < |items|
      invariant 0 <= i <= |items|
      invariant r == parts + EachPair(key, items[..i])
    {
      assert EachPair(key, items[..i + 1]) == EachPair(key, items[..i]) + [(key, items[i])];
      r := r + [(key, items[i])];
      i := i + 1;
    }
    assert items[..i] == items;
  }

  /** `build_search_url(params)` with the session's city. */
  method BuildSearchUrl(params: SearchParams, sessionCity: Option<string>) returns (url: string)
    ensures url == SearchUrl(params, CurrentCity(sessionCity))
  {
    var city := sessionCity.GetOr("Phuket");
    var regionCode := if city in CityRegionCodes then CityRegionCodes[city] else "TH83";
    var queryParts: seq<Pair> := [];
    queryParts := queryParts + [(FreeText, city)];
    queryParts := queryParts + [(Region, regionCode)];
    queryParts := queryParts + [(Market, "residential")];
    queryParts := queryParts + [(SearchFlag, "true")];
    assert queryParts == FixedPairs(city);
    ghost var done := queryParts;
    if TruthyInt(params.minPrice) {
      queryParts := queryParts + [(MinPrice, IntToDecimal(params.minPrice.value))];
    }
    assert queryParts == done + ScalarPairs(MinPrice, params.minPrice);
    done := queryParts;
    if TruthyInt(params.maxPrice) {
      queryParts := queryParts + [(MaxPrice, IntToDecimal(params.maxPrice.value))];
    }
    assert queryParts == done + ScalarPairs(MaxPrice, params.maxPrice);
    done := queryParts;
    if TruthySeq(params.bedrooms) {
      queryParts := AppendEach(queryParts, Beds, params.bedrooms.value);
    }
    assert queryParts == done + RepeatedPairs(Beds, params.bedrooms);
    done := queryParts;
    if TruthySeq(params.bathrooms) {
      queryParts := AppendEach(queryParts, Baths, params.bathrooms.value);
    }
    assert queryParts == done + RepeatedPairs(Baths, params.bathrooms);
    done := queryParts;
    if TruthySeq(params.propertyTypes) {
      queryParts := AppendEach(queryParts, PropertyTypes, params.propertyTypes.value);
    }
    assert queryParts == done + RepeatedPairs(PropertyTypes, params.propertyTypes);
    done := queryParts;
    if TruthySeq(params.furnishing) {
      queryParts := AppendEach(queryParts, Furnishing, params.furnishing.value);
    }
    assert queryParts == done + RepeatedPairs(Furnishing, params.furnishing);
    done := queryParts;
    if TruthyInt(params.maxSize) {
      queryParts := queryParts + [(MaxSize, IntToDecimal(params.maxSize.value))];
    }
    assert queryParts == done + ScalarPairs(MaxSize, params.maxSize);
    url := BaseUrl + "?" + QueryString(queryParts);
  }

  // ---------------------------------------------------------------------
  // What the URL says
  // ---------------------------------------------------------------------

  /** The values that appear under `key`, in order. */
  function ValuesOf(pairs: seq<Pair>, key: Key): seq<string> {
    if |pairs| == 0 then []
    else (if pairs[0].0 == key then [pairs[0].1] else []) + ValuesOf(pairs[1..], key)
  }

  lemma {:induction false} ValuesOfAppend(a: seq<Pair>, b: seq<Pair>, key: Key)
    ensures ValuesOf(a + b, key) == ValuesOf(a, key) + ValuesOf(b, key)
    decreases |a|
  {
    if |a| == 0 {
      assert a + b == b;
    } else {
      assert (a + b)[0] == a[0];
      assert (a + b)[1..] == a[1..] + b;
      ValuesOfAppend(a[1..], b, key);
    }
  }

  lemma {:induction false} ValuesOfEach(k: Key, items: seq<string>, key: Key)
    ensures ValuesOf(EachPair(k, items), key) == if k == key then items else []
    decreases |items|
  {
    if |items| > 0 {
      assert EachPair(k, items)[1..] == EachPair(k, items[1..]);
      ValuesOfEach(k, items[1..], key);
    }
  }

  /** What each chunk of the query contributes under `key`. */
  function Contribution(p: SearchParams, city: string, key: Key): seq<string> {
    match key
    case FreeText => [city]
    case Region => [RegionCode(city)]
    case Market => ["residential"]
    case SearchFlag => ["true"]
    case MinPrice => if TruthyInt(p.minPrice) then [IntToDecimal(p.minPrice.value)] else []
    case MaxPrice => if TruthyInt(p.maxPrice) then [IntToDecimal(p.maxPrice.value)] else []
    case Beds => if TruthySeq(p.bedrooms) then p.bedrooms.value else []
    case Baths => if TruthySeq(p.bathrooms) then p.bathrooms.value else []
    case PropertyTypes => if TruthySeq(p.propertyTypes) then p.propertyTypes.value else []
    case Furnishing => if TruthySeq(p.furnishing) then p.furnishing.value else []
    case MaxSize => if TruthyInt(p.maxSize) then [IntToDecimal(p.maxSize.value)] else []
  }

  lemma ValuesOfRepeated(k: Key, v: Option<seq<string>>, key: Key)
    ensures ValuesOf(RepeatedPairs(k, v), key) == if k == key && TruthySeq(v) then v.value else []
  {
    if TruthySeq(v) {
      ValuesOfEach(k, v.value, key);
    }
  }

  lemma ValuesOfScalar(k: Key, v: Option<int>, key: Key)
    ensures ValuesOf(ScalarPairs(k, v), key)
         == if k == key && TruthyInt(v) then [IntToDecimal(v.value)] else []
  {
    if TruthyInt(v) {
      assert ScalarPairs(k, v)[1..] == [];
    }
  }

  lemma ValuesOfFixed(city: string, key: Key)
    ensures ValuesOf(FixedPairs(city), key)
         == match key
            case FreeText => [city]
            case Region => [RegionCode(city)]
            case Market => ["residential"]
            case SearchFlag => ["true"]
            case _ => []
  {
    var f := FixedPairs(city);
    var a: seq<string> := if key == FreeText then [city] else [];
    var b: seq<string> := if key == Region then [RegionCode(city)] else [];
    var c: seq<string> := if key == Market then ["residential"] else [];
    var d: seq<string> := if key == SearchFlag then ["true"] else [];
    assert f[1..][1..][1..][1..] == [];
    assert ValuesOf(f[1..][1..][1..], key) == d;
    assert ValuesOf(f[1..][1..], key) == c + d;
    assert ValuesOf(f[1..], key) == b + (c + d);
    assert ValuesOf(f, key) == a + (b + (c + d));
    if key == FreeText {
      assert b + (c + d) == [];
    } else if key == Region {
      assert a == [] && c + d == [];
    } else if key == Market {
      assert a + b == [] && d == [];
    } else if key == SearchFlag {
      assert a + (b + c) == [];
    } else {
      assert a + (b + (c + d)) == [];
    }
  }

  /** The query's eight chunks, in the order the source appends them: the
      four fixed pairs, then one chunk per filter. */
  function Chunk(p: SearchParams, city: string, i: nat): seq<Pair>
    requires i < 8
  {
    if i == 0 then FixedPairs(city)
    else if i == 1 then ScalarPairs(MinPrice, p.minPrice)
    else if i == 2 then ScalarPairs(MaxPrice, p.maxPrice)
    else if i == 3 then RepeatedPairs(Beds, p.bedrooms)
    else if i == 4 then RepeatedPairs(Baths, p.bathrooms)
    else if i == 5 then RepeatedPairs(PropertyTypes, p.propertyTypes)
    else if i == 6 then RepeatedPairs(Furnishing, p.furnishing)
    else ScalarPairs(MaxSize, p.maxSize)
  }

  /** The first `n` chunks. */
  function Prefix(p: SearchParams, city: string, n: nat): seq<Pair>
    requires n <= 8
  {
    if n == 0 then [] else Prefix(p, city, n - 1) + Chunk(p, city, n - 1)
  }

  lemma QueryPairsAreChunks(p: SearchParams, city: string)
    ensures QueryPairs(p, city) == Prefix(p, city, 8)
  {
    assert Prefix(p, city, 1) == FixedPairs(city);
    assert Prefix(p, city, 2) == FixedPairs(city) + ScalarPairs(MinPrice, p.minPrice);
    assert Prefix(p, city, 8) == Prefix(p, city, 7) + ScalarPairs(MaxSize, p.maxSize);
    assert Prefix(p, city, 7) == Prefix(p, city, 6) + RepeatedPairs(Furnishing, p.furnishing);
    assert Prefix(p, city, 6) == Prefix(p, city, 5) + RepeatedPairs(PropertyTypes, p.propertyTypes);
    assert Prefix(p, city, 5) == Prefix(p, city, 4) + RepeatedPairs(Baths, p.bathrooms);
    assert Prefix(p, city, 4) == Prefix(p, city, 3) + RepeatedPairs(Beds, p.bedrooms);
    assert Prefix(p, city, 3) == Prefix(p, city, 2) + ScalarPairs(MaxPrice, p.maxPrice);
  }

  /** The chunk that carries a key. */
  function ChunkOf(key: Key): nat {
    if KeyRank(key) < 4 then 0 else KeyRank(key) - 3
  }

  /** A chunk carries values only under its own keys. */
  lemma ValuesOfChunk(p: SearchParams, city: string, i: nat, key: Key)
    requires i < 8
    ensures ValuesOf(Chunk(p, city, i), key) == if i == ChunkOf(key) then Contribution(p, city, key) else []
  {
    if i == 0 {
      ValuesOfFixed(city, key);
    } else if i == 1 {
      ValuesOfScalar(MinPrice, p.minPrice, key);
    } else if i == 2 {
      ValuesOfScalar(MaxPrice, p.maxPrice, key);
    } else if i == 3 {
      ValuesOfRepeated(Beds, p.bedrooms, key);
    } else if i == 4 {
      ValuesOfRepeated(Baths, p.bathrooms, key);
    } else if i == 5 {
      ValuesOfRepeated(PropertyTypes, p.propertyTypes, key);
    } else if i == 6 {
      ValuesOfRepeated(Furnishing, p.furnishing, key);
    } else {
      ValuesOfScalar(MaxSize, p.maxSize, key);
    }
  }

  /** The values of one more chunk, added after the values of the chunks
      before it: the key's contribution, once, if its chunk is among them. */
  lemma CombineValues(before: seq<string>, last: seq<string>, c: seq<string>, m: nat, n: nat)
    requires n > 0
    requires before == (if m < n - 1 then c else [])
    requires last == (if m == n - 1 then c else [])
    ensures before + last == (if m < n then c else [])
  {
    if m < n - 1 {
      assert before + last == c + [];
    } else if m == n - 1 {
      assert before + last == [] + c;
    } else {
      assert before + last == [] + [];
    }
  }

  lemma {:induction false} ValuesOfPrefix(p: SearchParams, city: string, n: nat, key: Key)
    requires n <= 8
    ensures ValuesOf(Prefix(p, city, n), key) == if ChunkOf(key) < n then Contribution(p, city, key) else []
  {
    if n > 0 {
      var before := Prefix(p, city, n - 1);
      var last := Chunk(p, city, n - 1);
      ValuesOfPrefix(p, city, n - 1, key);
      ValuesOfAppend(before, last, key);
      ValuesOfChunk(p, city, n - 1, key);
      assert Prefix(p, city, n) == before + last;
      CombineValues(ValuesOf(before, key), ValuesOf(last, key), Contribution(p, city, key), ChunkOf(key), n);
    }
  }

  /** Under every key the query carries exactly what the parameters give for
      it: each of the four fixed pairs once; a single-valued filter's decimal
      value when it is truthy and nothing otherwise; a repeatable filter's
      items, one pair each in input order, when it is truthy and nothing
      otherwise. */
  lemma QueryValues(p: SearchParams, city: string, key: Key)
    ensures ValuesOf(QueryPairs(p, city), key) == Contribution(p, city, key)
  {
    QueryPairsAreChunks(p, city);
    ValuesOfPrefix(p, city, 8, key);
  }

  /** Position of a key in the source's fixed order of appends. */
  function KeyRank(key: Key): nat {
    match key
    case FreeText => 0
    case Region => 1
    case Market => 2
    case SearchFlag => 3
    case MinPrice => 4
    case MaxPrice => 5
    case Beds => 6
    case Baths => 7
    case PropertyTypes => 8
    case Furnishing => 9
    case MaxSize => 10
  }

  predicate InKeyOrder(ps: seq<Pair>) {
    forall i, j | 0 <= i < j < |ps| :: KeyRank(ps[i].0) <= KeyRank(ps[j].0)
  }

  predicate RankedBelow(ps: seq<Pair>, r: int) {
    forall i | 0 <= i < |ps| :: KeyRank(ps[i].0) < r
  }

  predicate RankedAtLeast(ps: seq<Pair>, r: int) {
    forall i | 0 <= i < |ps| :: KeyRank(ps[i].0) >= r
  }

  lemma AppendInOrder(a: seq<Pair>, b: seq<Pair>, r: int)
    requires InKeyOrder(a) && InKeyOrder(b) && RankedBelow(a, r) && RankedAtLeast(b, r)
    ensures InKeyOrder(a + b)
  {
    var s := a + b;
    forall i, j | 0 <= i < j < |s| ensures KeyRank(s[i].0) <= KeyRank(s[j].0) {
      if j < |a| {
        assert s[i] == a[i] && s[j] == a[j];
      } else if i < |a| {
        assert s[i] == a[i] && s[j] == b[j - |a|];
      } else {
        assert s[i] == b[i - |a|] && s[j] == b[j - |a|];
      }
    }
  }

  /** Every pair carries the key `k`. */
  predicate AllKeyed(c: seq<Pair>, k: Key) {
    forall j | 0 <= j < |c| :: c[j].0 == k
  }

  lemma ScalarKeyed(k: Key, v: Option<int>)
    ensures AllKeyed(ScalarPairs(k, v), k)
  {
  }

  lemma RepeatedKeyed(k: Key, v: Option<seq<string>>)
    ensures AllKeyed(RepeatedPairs(k, v), k)
  {
  }

  lemma KeyedRanks(c: seq<Pair>, k: Key)
    requires AllKeyed(c, k)
    ensures InKeyOrder(c) && RankedBelow(c, KeyRank(k) + 1) && RankedAtLeast(c, KeyRank(k))
  {
  }

  lemma FixedRanks(city: string)
    ensures InKeyOrder(FixedPairs(city)) && RankedBelow(FixedPairs(city), 4)
  {
    var c := FixedPairs(city);
    assert forall k | 0 <= k < 4 :: KeyRank(c[k].0) == k;
  }

  /** Each chunk is in key order, and its keys are those of its place. */
  lemma ChunkRanks(p: SearchParams, city: string, i: nat)
    requires i < 8
    ensures InKeyOrder(Chunk(p, city, i))
    ensures i == 0 ==> RankedBelow(Chunk(p, city, i), 4)
    ensures i > 0 ==> RankedBelow(Chunk(p, city, i), i + 4) && RankedAtLeast(Chunk(p, city, i), i + 3)
  {
    if i == 0 {
      FixedRanks(city);
    } else {
      var k := if i == 1 then MinPrice else if i == 2 then MaxPrice else if i == 3 then Beds
               else if i == 4 then Baths else if i == 5 then PropertyTypes
               else if i == 6 then Furnishing else MaxSize;
      assert KeyRank(k) == i + 3;
      if i == 1 {
        ScalarKeyed(MinPrice, p.minPrice);
      } else if i == 2 {
        ScalarKeyed(MaxPrice, p.maxPrice);
      } else if i == 3 {
        RepeatedKeyed(Beds, p.bedrooms);
      } else if i == 4 {
        RepeatedKeyed(Baths, p.bathrooms);
      } else if i == 5 {
        RepeatedKeyed(PropertyTypes, p.propertyTypes);
      } else if i == 6 {
        RepeatedKeyed(Furnishing, p.furnishing);
      } else {
        ScalarKeyed(MaxSize, p.maxSize);
      }
      KeyedRanks(Chunk(p, city, i), k);
    }
  }

  lemma {:induction false} PrefixInOrder(p: SearchParams, city: string, n: nat)
    requires n <= 8
    ensures InKeyOrder(Prefix(p, city, n)) && RankedBelow(Prefix(p, city, n), n + 3)
  {
    if n > 0 {
      PrefixInOrder(p, city, n - 1);
      var a := Prefix(p, city, n - 1);
      var c := Chunk(p, city, n - 1);
      ChunkRanks(p, city, n - 1);
      AppendInOrder(a, c, if n == 1 then 0 else n + 2);
      assert RankedBelow(a + c, n + 3) by {
        forall k | 0 <= k < |a + c| ensures KeyRank((a + c)[k].0) < n + 3 {
          if k < |a| {
            assert (a + c)[k] == a[k];
          } else {
            assert (a + c)[k] == c[k - |a|];
          }
        }
      }
    }
  }

  /** Whichever filters are set, the pairs follow the source's fixed order:
      freetext, region_code, market, search, minprice, maxprice, beds[],
      baths[], property_type_code[], furnishing[], maxsize. */
  lemma QueryKeysInOrder(p: SearchParams, city: string)
    ensures InKeyOrder(QueryPairs(p, city))
  {
    QueryPairsAreChunks(p, city);
    PrefixInOrder(p, city, 8);
  }

  lemma RenderAppend(a: seq<Pair>, b: seq<Pair>)
    ensures Render(a + b) == Render(a) + Render(b)
  {
  }

  /** The fixed head of every search URL:
      `BASE_URL?freetext=<city>&region_code=<code>&market=residential&search=true`. */
  function UrlHead(city: string): string {
    BaseUrl + "?"
    + ("freetext" + "=" + city + "&"
    + ("region_code" + "=" + RegionCode(city) + "&"
    + ("market" + "=" + "residential" + "&"
    + ("search" + "=" + "true"))))
  }

  /** With no filter set, the URL is exactly the fixed head. */
  lemma UnfilteredUrl(city: string)
    ensures SearchUrl(SearchParams(), city) == UrlHead(city)
  {
    assert QueryPairs(SearchParams(), city) == FixedPairs(city);
    var rf := Render(FixedPairs(city));
    assert |rf| == 4;
    assert Join(rf[3..], "&") == rf[3];
    assert Join(rf[2..], "&") == rf[2] + "&" + rf[3] by {
      assert rf[2..][1..] == rf[3..];
    }
    assert Join(rf[1..], "&") == rf[1] + "&" + (rf[2] + "&" + rf[3]) by {
      assert rf[1..][1..] == rf[2..];
    }
    assert rf[0] == "freetext" + "=" + city;
    assert rf[1] == "region_code" + "=" + RegionCode(city);
    assert rf[2] == "market" + "=" + "residential";
    assert rf[3] == "search" + "=" + "true";
  }

  /** The pairs after the four fixed ones, in order. */
  function FilterPairs(p: SearchParams): seq<Pair> {
    ScalarPairs(MinPrice, p.minPrice)
    + ScalarPairs(MaxPrice, p.maxPrice)
    + RepeatedPairs(Beds, p.bedrooms)
    + RepeatedPairs(Baths, p.bathrooms)
    + RepeatedPairs(PropertyTypes, p.propertyTypes)
    + RepeatedPairs(Furnishing, p.furnishing)
    + ScalarPairs(MaxSize, p.maxSize)
  }

  /** Regrouping a left-nested concatenation of eight lists. */
  lemma RegroupEight<T>(f: seq<T>, c1: seq<T>, c2: seq<T>, c3: seq<T>, c4: seq<T>,
                        c5: seq<T>, c6: seq<T>, c7: seq<T>)
    ensures f + c1 + c2 + c3 + c4 + c5 + c6 + c7 == f + (c1 + c2 + c3 + c4 + c5 + c6 + c7)
  {
    assert f + c1 + c2 == f + (c1 + c2);
    assert f + (c1 + c2) + c3 == f + (c1 + c2 + c3);
    assert f + (c1 + c2 + c3) + c4 == f + (c1 + c2 + c3 + c4);
    assert f + (c1 + c2 + c3 + c4) + c5 == f + (c1 + c2 + c3 + c4 + c5);
    assert f + (c1 + c2 + c3 + c4 + c5) + c6 == f + (c1 + c2 + c3 + c4 + c5 + c6);
  }

  lemma QueryPairsSplit(p: SearchParams, city: string)
    ensures QueryPairs(p, city) == FixedPairs(city) + FilterPairs(p)
  {
    RegroupEight(FixedPairs(city),
      ScalarPairs(MinPrice, p.minPrice), ScalarPairs(MaxPrice, p.maxPrice),
      RepeatedPairs(Beds, p.bedrooms), RepeatedPairs(Baths, p.bathrooms),
      RepeatedPairs(PropertyTypes, p.propertyTypes), RepeatedPairs(Furnishing, p.furnishing),
      ScalarPairs(MaxSize, p.maxSize));
  }

  /** With no filter set, only the fixed pairs are sent. */
  lemma NoFilterPairs(city: string)
    ensures FilterPairs(SearchParams()) == []
    ensures QueryPairs(SearchParams(), city) == FixedPairs(city)
  {
    QueryPairsSplit(SearchParams(), city);
  }

  /** Query strings of two non-empty pair lists join with one "&". */
  lemma QueryStringAppend(a: seq<Pair>, b: seq<Pair>)
    requires |a| > 0 && |b| > 0
    ensures QueryString(a + b) == QueryString(a) + "&" + QueryString(b)
  {
    RenderAppend(a, b);
    JoinAppend(Render(a), Render(b), "&");
  }

  lemma RegroupSeparated(x: string, head: string, tail: string)
    ensures x + (head + "&" + tail) == x + head + ("&" + tail)
  {
  }

  /** A prefix followed by the query string of `a + b`, with `a` non-empty,
      is the prefix and the query of `a`, then "&" and the query of `b` when
      `b` is non-empty. */
  lemma PrefixedQueryAppend(prefix: string, a: seq<Pair>, b: seq<Pair>)
    requires |a| > 0
    ensures prefix + QueryString(a + b)
         == prefix + QueryString(a) + (if |b| == 0 then "" else "&" + QueryString(b))
  {
    if |b| > 0 {
      QueryStringAppend(a, b);
      RegroupSeparated(prefix, QueryString(a), QueryString(b));
    } else {
      assert a + b == a;
    }
  }

  /** Every URL is the unfiltered one (see `UnfilteredUrl`), followed, when
      some filter is set, by a single "&" and the filter pairs. */
  lemma UrlStartsWithHead(p: SearchParams, city: string)
    ensures SearchUrl(p, city)
         == SearchUrl(SearchParams(), city)
          + (if |FilterPairs(p)| == 0 then "" else "&" + QueryString(FilterPairs(p)))
  {
    QueryPairsSplit(p, city);
    NoFilterPairs(city);
    PrefixedQueryAppend(BaseUrl + "?", FixedPairs(city), FilterPairs(p));
  }

  // ---------------------------------------------------------------------
  // From the sidebar form to the parameters (main)
  // ---------------------------------------------------------------------

  /** The sidebar's price check: a minimum above a maximum that is set
      (non-zero) is reset to zero; any other minimum is kept. */
  function ValidateMinPrice(minPrice: int, maxPrice: int): (r: int)
    ensures r == minPrice || r == 0
    ensures maxPrice >= 0 ==> maxPrice == 0 || r <= maxPrice
    ensures (maxPrice == 0 || minPrice <= maxPrice) ==> r == minPrice
    ensures minPrice > maxPrice && maxPrice != 0 ==> r == 0
  {
    if minPrice > maxPrice && maxPrice != 0 then 0 else minPrice
  }

  datatype PropertyTypeChoice =
    AnyPropertyType | Condominium | DetachedHouse | Villa | Townhouse | Land | Apartment

  function PropertyTypeCodeOf(t: PropertyTypeChoice): string
    requires t != AnyPropertyType
  {
    match t
    case Condominium => "CONDO"
    case DetachedHouse => "BUNG"
    case Villa => "VIL"
    case Townhouse => "TOWN"
    case Land => "LAND"
    case Apartment => "APT"
  }

  datatype FurnishingChoice = AnyFurnishing | FullyFurnished | PartiallyFurnished | Unfurnished

  function FurnishingCode(f: FurnishingChoice): string
    requires f != AnyFurnishing
  {
    match f
    case FullyFurnished => "FULL"
    case PartiallyFurnished => "PART"
    case Unfurnished => "UNFUR"
  }

  /** The sidebar's values, prices already in THB. Bedrooms and bathrooms are
      the selected option text ("Any", "1" … "5", "5+"). */
  datatype SearchForm = SearchForm(
    minPrice: int,
    maxPrice: int,
    propertyType: PropertyTypeChoice,
    bedrooms: string,
    bathrooms: string,
    furnishing: FurnishingChoice,
    maxSize: int)

  /** Iterating over a Python string: one one-character string per character. */
  function Characters(s: string): (r: seq<string>)
    ensures |r| == |s| && forall i :: 0 <= i < |s| ==> r[i] == [s[i]]
  {
    seq(|s|, i requires 0 <= i < |s| => [s[i]])
  }

  /** The cleaned-up `search_params` of `main`, as written: the bedroom and
      bathroom options are passed as strings, which `build_search_url`
      iterates character by character. */
  function SearchParamsFromForm(form: SearchForm): SearchParams {
    var minPrice := ValidateMinPrice(form.minPrice, form.maxPrice);
    SearchParams(
      minPrice := if minPrice > 0 then Some(minPrice) else None,
      maxPrice := if form.maxPrice > 0 then Some(form.maxPrice) else None,
      bedrooms := if form.bedrooms != "Any" then Some(Characters(form.bedrooms)) else None,
      bathrooms := if form.bathrooms != "Any" then Some(Characters(form.bathrooms)) else None,
      propertyTypes := if form.propertyType != AnyPropertyType
                       then Some([PropertyTypeCodeOf(form.propertyType)]) else None,
      furnishing := if form.furnishing != AnyFurnishing
                    then Some([FurnishingCode(form.furnishing)]) else None,
      maxSize := if form.maxSize > 0 then Some(form.maxSize) else None)
  }

  /** The form as it reaches the URL: positive prices and size appear as
      numbers, a chosen property type and furnishing as one code each, and a
      chosen bedroom or bathroom option as one pair per character of the
      option's text. */
  lemma FormReachesUrl(form: SearchForm, city: string)
    ensures var ps := QueryPairs(SearchParamsFromForm(form), city);
      var minPrice := ValidateMinPrice(form.minPrice, form.maxPrice);
      && ValuesOf(ps, MinPrice) == (if minPrice > 0 then [IntToDecimal(minPrice)] else [])
      && ValuesOf(ps, MaxPrice) == (if form.maxPrice > 0 then [IntToDecimal(form.maxPrice)] else [])
      && ValuesOf(ps, MaxSize) == (if form.maxSize > 0 then [IntToDecimal(form.maxSize)] else [])
      && ValuesOf(ps, PropertyTypes)
         == (if form.propertyType != AnyPropertyType then [PropertyTypeCodeOf(form.propertyType)] else [])
      && ValuesOf(ps, Furnishing)
         == (if form.furnishing != AnyFurnishing then [FurnishingCode(form.furnishing)] else [])
      && ValuesOf(ps, Beds) == (if form.bedrooms != "Any" then Characters(form.bedrooms) else [])
      && ValuesOf(ps, Baths) == (if form.bathrooms != "Any" then Characters(form.bathrooms) else [])
  {
    var p := SearchParamsFromForm(form);
    QueryValues(p, city, MinPrice);
    QueryValues(p, city, MaxPrice);
    QueryValues(p, city, MaxSize);
    QueryValues(p, city, PropertyTypes);
    QueryValues(p, city, Furnishing);
    QueryValues(p, city, Beds);
    QueryValues(p, city, Baths);
  }

  /** The "5+" bedroom option is sent as two filters, "5" and "+". */
  lemma FivePlusBedroomsSplit(form: SearchForm, city: string)
    requires form.bedrooms == "5+"
    ensures ValuesOf(QueryPairs(SearchParamsFromForm(form), city), Beds) == ["5", "+"]
  {
    var p := SearchParamsFromForm(form);
    assert |form.bedrooms| != |"Any"|;
    var cs := Characters(form.bedrooms);
    assert cs[0] == "5" && cs[1] == "+";
    assert cs == ["5", "+"];
    assert p.bedrooms == Some(cs);
    QueryValues(p, city, Beds);
  }

  /** The parameters with the bedroom and bathroom options passed whole, as
      the property type and furnishing codes are. */
  function SearchParamsFromFormIntended(form: SearchForm): SearchParams {
    var p := SearchParamsFromForm(form);
    p.(bedrooms := if form.bedrooms != "Any" then Some([form.bedrooms]) else None,
       bathrooms := if form.bathrooms != "Any" then Some([form.bathrooms]) else None)
  }

  /** With the options passed whole, a chosen bedroom or bathroom option
      appears as exactly one filter carrying the option's text, so "5+" is
      sent as "5+"; every other filter is as before. */
  lemma IntendedOptionsPassedWhole(form: SearchForm, city: string)
    ensures var ps := QueryPairs(SearchParamsFromFormIntended(form), city);
      && ValuesOf(ps, Beds) == (if form.bedrooms != "Any" then [form.bedrooms] else [])
      && ValuesOf(ps, Baths) == (if form.bathrooms != "Any" then [form.bathrooms] else [])
    ensures forall key | key != Beds && key != Baths ::
      ValuesOf(QueryPairs(SearchParamsFromFormIntended(form), city), key)
      == ValuesOf(QueryPairs(SearchParamsFromForm(form), city), key)
  {
    var p := SearchParamsFromFormIntended(form);
    QueryValues(p, city, Beds);
    QueryValues(p, city, Baths);
    forall key | key != Beds && key != Baths
      ensures ValuesOf(QueryPairs(p, city), key)
           == ValuesOf(QueryPairs(SearchParamsFromForm(form), city), key)
    {
      QueryValues(p, city, key);
      QueryValues(SearchParamsFromForm(form), city, key);
    }
  }
}
