# Thailand best apartments: a Dafny model of the listing back end

This project models the core of a Streamlit application. The application
searches rental listings on ddproperty.com, geocodes their addresses around
Phuket and shows them on a map with prices in THB and PLN. The model covers
five parts:

- the listing records and their construction (`Models`, models.py);
- the location service with its address cache (`Locations`,
  location_service.py):
  - `get_coordinates`: a cache lookup, then the normalised geocoder query;
  - `calculate_distance_to_patong`;
  - `get_location_details`: the address built from the listing, and the
    double lookup of that address;
  - the cache file written after every successful geocoding;
- the exchange-rate service (`Currency`, currency_service.py):
  - the built-in rate;
  - the refresh from an HTTP reply;
  - conversion rounded to two places;
  - the last-update stamp;
- the search request (`Search`, streamlit_app.py):
  - the sidebar values made into search parameters;
  - the price check;
  - `build_search_url`, whose loops append query pairs in a fixed key order;
- ordering and grouping for display (`ListingOrder`, streamlit_app.py):
  - `sort_listings`: a stable sort with infinite sentinel keys for an unset
    or zero price;
  - the `create_map` loop that gathers listings into one group per
    formatted coordinate key.

Objects whose state the source updates are Dafny classes:
`LocationService` (the cache, the cache file, a ghost log of geocoder
queries) and `CurrencyService` (the rate and the time it was fetched). The
loops of `build_search_url` and of `create_map` are methods with loop
invariants. Each method is proved against a specification function, and the
lemmas are stated about those functions.

Outside effects are parameters:

- the geocoder's answers to one lookup: `geocoder: string -> GeocodeOutcome` (`get_location_details` takes one such function per lookup, `first` and `second`);
- haversine followed by rounding: `distanceKm: (Coord, Coord) -> real`;
- the rate API reply: `RateReply`;
- the clock: `now`;
- the session's city: `sessionCity`;
- the coordinate formatting: `keyOf: Coord -> string`.

The cache file is the value `CacheFile`.

## Model

| member | source | states |
|---|---|---|
| Common.IntToDecimalRoundTrip | streamlit_app.py:66 | an integer query value rendered as Python's `str` parses back to itself, so numeric filters lose nothing in the URL |
| Common.IntToDecimalInjective | streamlit_app.py:66 | distinct prices or sizes render as distinct query values |
| Common.JoinEmptyIff | location_service.py:133-135 | joining non-empty address parts gives the empty string exactly when there are no parts |
| Common.JoinAppend | streamlit_app.py:66 | joining two non-empty lists of query pairs puts exactly one `&` between them |
| Models.NewPropertyListing | models.py:54-62 | construction keeps name and price; each nested record passed as `None` becomes the all-default record; one passed explicitly is kept |
| Models.NewPropertyListingKeepsGiven | models.py:45-62 | rebuilding a listing from its own records is the identity; an explicit record and an omitted one give the same listing exactly when the explicit one is the default |
| Models.DefaultRecords | models.py:4-52 | every field of the four records defaults to unset except `is_verified`, which defaults to false; a listing built with no arguments has no name and no price |
| Locations.AddressFromTextFields | location_service.py:126-140 | for a location mapping of string or `None` fields, the address is the non-empty fields among area, district and region, in that order, joined by ", "; there is no address exactly when all three are missing or empty |
| Locations.NonMappingLocationRaises | location_service.py:126-157 | a `location` entry that is not a mapping raises, and the call returns the all-unset details |
| Locations.LoadCache | location_service.py:31-46 | a missing or unreadable file gives the empty cache; a well-formed document gives a cache with the same keys |
| Locations.SaveDocument | location_service.py:48-58 | the saved document has the cache's keys, each mapped to a two-element array |
| Locations.SaveThenLoad | location_service.py:31-58 | loading what `save_cache` wrote gives back the same cache |
| Locations.LoadThenSave | location_service.py:31-58 | saving what was loaded from a well-formed document gives back the same document |
| Locations.NormalizeQuery | location_service.py:73-75 | the query always mentions Phuket; a location that mentions Phuket is sent as is, any other gets ", Phuket, Thailand" appended and so differs from the location |
| Locations.NormalizeQueryIdempotent | location_service.py:73-75 | normalising twice is normalising once |
| Locations.HitIsVerbatim | location_service.py:69-71 | a cached location is returned as stored, with no geocoder call and no cache change |
| Locations.MissStoresUnderNormalizedKey | location_service.py:73-94 | on a miss exactly one normalised query is sent; a result is returned and stored under the normalised query with every other entry unchanged; any failure returns nothing and changes nothing |
| Locations.ResolveAgain | location_service.py:60-94 | under a geocoder that repeats its answer, resolving the same location again gives the same result and leaves the cache as it is |
| Locations.SecondLookup | location_service.py:142-143 | after a first lookup that geocoded the address, the second lookup is a hit returning the first position when the address mentions Phuket; otherwise it goes to the geocoder again, so a failure gives no position and keeps the first entry, and a new position replaces that entry |
| Locations.UnsuffixedLocationNeverHits | location_service.py:69-82 | a location without "Phuket" is stored under its suffixed query, so the next lookup of the same location goes to the geocoder again |
| Locations.DetailsQueryCount | location_service.py:142-143 | one details call sends no query for a cached address, one query when geocoding fails or the address mentions Phuket, and two identical queries for a new address without Phuket |
| Locations.LocationService.constructor | location_service.py:13-29 | the Patong anchor is (7.9039, 98.2970), the cache is what `load_cache` reads, and no query has been sent |
| Locations.LocationService.SaveCache | location_service.py:48-58 | the file then holds the document of the whole current cache |
| Locations.LocationService.GetCoordinates | location_service.py:60-94 | returns the resolution against the old cache, updates the cache and the query log as the specification functions say, and rewrites the file exactly when a miss was geocoded |
| Locations.LocationService.CalculateDistanceToPatong | location_service.py:96-115 | the distance from the resolved coordinates to Patong when there are coordinates, nothing otherwise, with the same state change as one `get_coordinates` |
| Locations.LocationService.GetLocationDetails | location_service.py:117-157 | no address, or one that raises, gives all three results unset and changes nothing; otherwise the address is returned with the coordinates of the first lookup; without coordinates there is no distance and nothing changes; with coordinates the distance, the final cache and the file come from the second lookup, which may find no position or another one; the queries are those of `DetailsQueries` |
| Locations.InitialCacheDocument | create_initial_cache.py:3-17 | the shipped sample cache is a well-formed document |
| Locations.SampleCacheHit | location_service.py:69-72 | against the sample cache "Kathu, Phuket" is answered with its stored position and no geocoder query |
| Locations.SampleCacheMiss | location_service.py:69-75 | "Patong" misses the sample cache and is sent to the geocoder as "Patong, Phuket, Thailand" |
| Currency.Round2 | currency_service.py:48 | the result is a whole number of hundredths, at most half a hundredth from the value |
| Currency.Round2Nearest | currency_service.py:48 | no value with at most two decimals is nearer to the input than its rounding |
| Currency.Round2Idempotent | currency_service.py:48 | a value already rounded to two places is left alone |
| Currency.FetchErrorNamesStatus | currency_service.py:30 | the error for a non-200 reply starts with "Error fetching rate: " and the status code can be read back from the rest |
| Currency.CurrencyService.constructor | currency_service.py:7-10 | the rate starts at 0.1179 with no update time |
| Currency.CurrencyService.GetCurrentRate | currency_service.py:12-33 | only a 200 reply with a readable mid rate replaces the rate and stamps the time, with no error; a non-200 reply, an unreadable body or an exception returns the old rate with the matching message and changes nothing |
| Currency.CurrencyService.ConvertToPln | currency_service.py:35-51 | a missing or zero amount gives nothing; any other amount gives a whole number of hundredths within half a hundredth of the product with the rate |
| Currency.CurrencyService.GetLastUpdateTime | currency_service.py:53-59 | a time is reported exactly when a non-zero update stamp is held, and it is that stamp |
| Currency.DefaultRateConversion | currency_service.py:35-51 | at the built-in rate a 25,000 THB rent is 2,947.50 PLN and a missing price converts to nothing |
| Currency.RefreshScenario | currency_service.py:12-59 | a new service reports no update time; after a refresh it reports the fetch time exactly when the fetch succeeded |
| Search.CurrentCity | streamlit_app.py:30 | the session's city, or Phuket when the session holds none |
| Search.RegionCode | streamlit_app.py:22-31 | the code listed for one of the four cities, TH83 (Phuket) for any other; always one of the listed codes |
| Search.AppendEach | streamlit_app.py:46-60 | a filter loop appends one pair per item, in item order, to the pairs so far |
| Search.BuildSearchUrl | streamlit_app.py:10-67 | the URL is the base URL, "?" and the `&`-joined `key=value` pairs of `QueryPairs` for the current city |
| Search.QueryValues | streamlit_app.py:33-63 | under every key the query carries exactly the parameters' values: each fixed pair once; a scalar filter's decimal value when truthy, else nothing; a list filter's items, one pair each in order, when truthy, else nothing |
| Search.QueryKeysInOrder | streamlit_app.py:33-63 | whatever is set, the keys follow the fixed order freetext, region_code, market, search, minprice, maxprice, beds[], baths[], property_type_code[], furnishing[], maxsize |
| Search.UnfilteredUrl | streamlit_app.py:33-67 | with no filter the URL is the base URL followed by `?freetext=<city>&region_code=<code>&market=residential&search=true` |
| Search.UrlStartsWithHead | streamlit_app.py:33-67 | every URL is the unfiltered URL, followed, when a filter is set, by one "&" and the filter pairs |
| Search.ValidateMinPrice | streamlit_app.py:498-500 | a minimum above a non-zero maximum is reset to zero; otherwise the minimum is kept; the result never exceeds a set non-negative maximum |
| Search.FormReachesUrl | streamlit_app.py:676-687 | positive prices and size reach the URL as numbers, a chosen property type or furnishing as its single code, and a chosen bedroom or bathroom option as one pair per character of its text; options left at "Any" or 0 send nothing |
| Search.FivePlusBedroomsSplit | streamlit_app.py:680 | the "5+" bedroom option is sent as the two filters "5" and "+" |
| Search.IntendedOptionsPassedWhole | streamlit_app.py:676-687 | with the options wrapped in a one-element list, as property type and furnishing are, a chosen option is sent as one filter carrying its text, and every other filter is unchanged |
| ListingOrder.LeTotalOrder | streamlit_app.py:275 | the extended order on prices is a total order |
| ListingOrder.NegateReverses | streamlit_app.py:277 | negating the key reverses the order and loses nothing |
| ListingOrder.SortByKeyFacts | streamlit_app.py:275-277 | the sort returns a permutation of its input, in key order, with equal keys in input order |
| ListingOrder.SortListings | streamlit_app.py:265-278 | both price modes return a permutation of the input; any other criterion returns the input unchanged |
| ListingOrder.SortListingsLowHigh | streamlit_app.py:275 | priced listings come first by non-decreasing price, then those with no or zero price; listings with equal keys keep input order |
| ListingOrder.SortListingsHighLow | streamlit_app.py:277 | priced listings come first by non-increasing price, then those with no or zero price; listings with equal keys keep input order |
| ListingOrder.KeysInOrderFacts | streamlit_app.py:129-141 | a key has a group exactly when some located listing produces it, and the dictionary's keys are distinct |
| ListingOrder.GroupsOfMeaning | streamlit_app.py:129-141 | there is a group for exactly the keys produced; each holds the listings of its key in input order, with the coordinates and area of the first of them |
| ListingOrder.GroupByCoordinates | streamlit_app.py:129-141 | the loop builds exactly `GroupsOf`, and its key order is the order of first appearance without repeats |
| ListingOrder.ListingInExactlyOneGroup | streamlit_app.py:130-141 | a listing with coordinates is in the group of its own key; a listing is in no other group; one without coordinates is in none |
| ListingOrder.GroupTakesFirstListing | streamlit_app.py:135-140 | a group's coordinates and area are those of the first listing with its key |

## Left out

- I/O is outside the model. This covers reading and writing the JSON cache file (modelled as the value `CacheFile`), the SSL set-up, the one-second sleep before geocoding, the Nominatim client, the HTTP request to the NBP API and printing error messages.
- Locations.LoadCache: a present document with an entry whose array does not have two elements is treated as a load failure (empty cache). The source loads such an entry, without failing, as a tuple of that length. A lookup of its key returns that tuple. An empty tuple counts as no coordinates, and any other length makes the distance computation raise inside its caught `try`, so it gives no distance.
- Locations.LocationService.SaveCache: a write that fails (caught and printed by the source) is not modelled; the file always receives the document.
- The geocoder is not assumed to repeat its answers: each lookup gets its own answer function. The model does not relate the answers of different lookups to each other. Its timeouts, unavailability and other exceptions are distinct outcomes, and all of them lead to "no coordinates", as in the source.
- Locations.LocationService.GetLocationDetails: for an address without "Phuket" that is not cached, the source sends the geocoder the same query twice. A failed second answer then gives coordinates with no distance, and a different second answer gives the distance from other coordinates and overwrites the cache entry. The contract states this through `second`; `ResolveAgain` gives the plain "same coordinates, same cache" reading only for a geocoder that repeats its answer.
- The haversine distance and its rounding to two places are the parameter `distanceKm`. Their numeric value is not modelled.
- Currency.CurrencyService.ConvertToPln: the `Decimal` amount and rate are exact reals. The 28-digit `Decimal` context, the conversion to binary floating point before `round` and the caught conversion exception are not modelled, so the result is the exact product rounded half to even.
- Currency.CurrencyService.GetLastUpdateTime: returns the stamp itself. Formatting it with the local time zone is not modelled.
- The PLN-to-THB conversion of the sidebar's price inputs uses floating point and is not modelled. `SearchForm` holds the prices already in THB.
- The `:.6f` formatting of coordinates into group keys is the parameter `keyOf`. Two positions that format alike share a group, as in the source.
- The `None` clean-up at streamlit_app.py:687 leaves no state of its own in the model. `SearchParams` is a typed record in which a missing key and a `None` value are the same `None`, as they are for the `.get` calls of `build_search_url`.
- Everything Streamlit draws is out of scope: markers, pop-ups, the sidebar layout, reference points, city selection widgets, the map centre and zoom.
- The scraper (`scrape_listings` and the functions it calls), app.py, main.py and the test script are outside this model.

## Findings

| source | as written | input that shows it | evidently intended | confidence | as-written member | corrected member |
|---|---|---|---|---|---|---|
| streamlit_app.py:680-681 | the bedroom and bathroom options go into the parameters as plain strings, and `build_search_url` iterates over them character by character | bedrooms "5+" gives `beds[]=5&beds[]=+` | pass the option as a one-element list, as is done for property type and furnishing, giving `beds[]=5+`; this fixes only the character split: values are still not URL-encoded, as written, so a form decoder would read that `+` as a space | not executed | Search.FivePlusBedroomsSplit | Search.IntendedOptionsPassedWhole |
