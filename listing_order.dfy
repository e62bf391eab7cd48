/** Ordering and grouping of scraped listings for display
    (streamlit_app.py): `sort_listings`, a stable sort on the price with a
    missing or zero price mapped to plus or minus infinity, and the loop of
    `create_map` that gathers listings into one group per map position. */
module ListingOrder {
  import opened Common
  import opened Models

  // ---------------------------------------------------------------------
  // Integers extended with the two infinities (the sentinel sort keys)
  // ---------------------------------------------------------------------

  datatype Ext = NegInf | Fin(n: int) | PosInf

  predicate Le(a: Ext, b: Ext) {
    match (a, b)
    case (NegInf, _) => true
    case (_, PosInf) => true
    case (Fin(x), Fin(y)) => x <= y
    case _ => false
  }

  lemma LeTotalOrder(a: Ext, b: Ext, c: Ext)
    ensures Le(a, a)
    ensures Le(a, b) || Le(b, a)
    ensures Le(a, b) && Le(b, a) ==> a == b
    ensures Le(a, b) && Le(b, c) ==> Le(a, c)
  {
  }

  function Negate(e: Ext): Ext {
    match e
    case NegInf => PosInf
    case Fin(n) => Fin(-n)
    case PosInf => NegInf
  }

  /** Negation reverses the order and loses nothing. */
  lemma NegateReverses(a: Ext, b: Ext)
    ensures Le(Negate(a), Negate(b)) <==> Le(b, a)
    ensures Negate(a) == Negate(b) <==> a == b
  {
  }

  // ---------------------------------------------------------------------
  // Python's `sorted(xs, key=key)`: a stable sort
  // ---------------------------------------------------------------------

  predicate SortedBy<T>(s: seq<T>, key: T -> Ext) {
    forall i, j | 0 <= i < j < |s| :: Le(key(s[i]), key(s[j]))
  }

  /** The elements of `s` whose key is `k`, in their order in `s`. */
  function WithKey<T>(s: seq<T>, key: T -> Ext, k: Ext): seq<T> {
    if |s| == 0 then []
    else (if key(s[0]) == k then [s[0]] else []) + WithKey(s[1..], key, k)
  }

  /** Puts `x` in front of the first element whose key is not below its own. */
  function Insert<T>(x: T, ys: seq<T>, key: T -> Ext): seq<T> {
    if |ys| == 0 then [x]
    else if Le(key(x), key(ys[0])) then [x] + ys
    else [ys[0]] + Insert(x, ys[1..], key)
  }

  function SortByKey<T>(xs: seq<T>, key: T -> Ext): seq<T> {
    if |xs| == 0 then [] else Insert(xs[0], SortByKey(xs[1..], key), key)
  }

  lemma {:induction false} InsertPermutes<T>(x: T, ys: seq<T>, key: T -> Ext)
    ensures multiset(Insert(x, ys, key)) == multiset(ys) + multiset{x}
    decreases |ys|
  {
    if |ys| > 0 && !Le(key(x), key(ys[0])) {
      InsertPermutes(x, ys[1..], key);
      assert ys == [ys[0]] + ys[1..];
    }
  }

  /** Every key in `s` is at least `b`. */
  predicate AllAtLeast<T>(b: Ext, s: seq<T>, key: T -> Ext) {
    forall i | 0 <= i < |s| :: Le(b, key(s[i]))
  }

  /** The tail of a sorted list is sorted and bounded below by its head. */
  lemma SortedTail<T>(ys: seq<T>, key: T -> Ext)
    requires SortedBy(ys, key) && |ys| > 0
    ensures SortedBy(ys[1..], key) && AllAtLeast(key(ys[0]), ys[1..], key)
  {
    forall i, j | 0 <= i < j < |ys[1..]| ensures Le(key(ys[1..][i]), key(ys[1..][j])) {
      assert ys[1..][i] == ys[i + 1] && ys[1..][j] == ys[j + 1];
    }
    forall i | 0 <= i < |ys[1..]| ensures Le(key(ys[0]), key(ys[1..][i])) {
      assert ys[1..][i] == ys[i + 1];
    }
  }

  /** A head no greater than a sorted tail gives a sorted list. */
  lemma ConsSorted<T>(y: T, s: seq<T>, key: T -> Ext)
    requires SortedBy(s, key) && AllAtLeast(key(y), s, key)
    ensures SortedBy([y] + s, key)
  {
    var r := [y] + s;
    forall i, j | 0 <= i < j < |r| ensures Le(key(r[i]), key(r[j])) {
      assert r[j] == s[j - 1];
      if i > 0 {
        assert r[i] == s[i - 1];
      }
    }
  }

  /** Inserting an element at least `b` keeps every key at least `b`. */
  lemma {:induction false} InsertAtLeast<T>(x: T, ys: seq<T>, key: T -> Ext, b: Ext)
    requires AllAtLeast(b, ys, key) && Le(b, key(x))
    ensures AllAtLeast(b, Insert(x, ys, key), key)
    decreases |ys|
  {
    if |ys| == 0 {
    } else if Le(key(x), key(ys[0])) {
      var r := [x] + ys;
      forall i | 0 <= i < |r| ensures Le(b, key(r[i])) {
        if i > 0 {
          assert r[i] == ys[i - 1];
        }
      }
    } else {
      assert AllAtLeast(b, ys[1..], key) by {
        forall i | 0 <= i < |ys[1..]| ensures Le(b, key(ys[1..][i])) {
          assert ys[1..][i] == ys[i + 1];
        }
      }
      InsertAtLeast(x, ys[1..], key, b);
      var tail := Insert(x, ys[1..], key);
      var r := [ys[0]] + tail;
      forall i | 0 <= i < |r| ensures Le(b, key(r[i])) {
        if i > 0 {
          assert r[i] == tail[i - 1];
        }
      }
    }
  }

  lemma {:induction false} InsertSorted<T>(x: T, ys: seq<T>, key: T -> Ext)
    requires SortedBy(ys, key)
    ensures SortedBy(Insert(x, ys, key), key)
    decreases |ys|
  {
    if |ys| == 0 {
    } else if Le(key(x), key(ys[0])) {
      SortedTail(ys, key);
      forall j | 0 <= j < |ys| ensures Le(key(x), key(ys[j])) {
        if j > 0 {
          assert ys[j] == ys[1..][j - 1];
          LeTotalOrder(key(x), key(ys[0]), key(ys[j]));
        }
      }
      ConsSorted(x, ys, key);
    } else {
      SortedTail(ys, key);
      InsertSorted(x, ys[1..], key);
      LeTotalOrder(key(x), key(ys[0]), key(x));
      InsertAtLeast(x, ys[1..], key, key(ys[0]));
      ConsSorted(ys[0], Insert(x, ys[1..], key), key);
    }
  }

  lemma WithKeyCons<T>(y: T, s: seq<T>, key: T -> Ext, k: Ext)
    ensures WithKey([y] + s, key, k) == (if key(y) == k then [y] else []) + WithKey(s, key, k)
  {
    assert ([y] + s)[0] == y;
    assert ([y] + s)[1..] == s;
  }

  lemma SwapWhenOneEmpty<T>(a: seq<T>, b: seq<T>, c: seq<T>)
    requires a == [] || b == []
    ensures a + (b + c) == b + (a + c)
  {
    if a == [] {
      assert a + (b + c) == b + c == b + (a + c);
    } else {
      assert a + (b + c) == a + c == b + (a + c);
    }
  }

  /** Inserting `x` adds it in front of the elements sharing its key. */
  lemma {:induction false} InsertWithKey<T>(x: T, ys: seq<T>, key: T -> Ext, k: Ext)
    ensures WithKey(Insert(x, ys, key), key, k) == (if key(x) == k then [x] else []) + WithKey(ys, key, k)
    decreases |ys|
  {
    var hx: seq<T> := if key(x) == k then [x] else [];
    if |ys| == 0 {
      WithKeyCons(x, ys, key, k);
      assert [x] + ys == [x];
    } else if Le(key(x), key(ys[0])) {
      WithKeyCons(x, ys, key, k);
    } else {
      var tail := Insert(x, ys[1..], key);
      var h0: seq<T> := if key(ys[0]) == k then [ys[0]] else [];
      var rest := WithKey(ys[1..], key, k);
      assert ys == [ys[0]] + ys[1..];
      WithKeyCons(ys[0], ys[1..], key, k);
      WithKeyCons(ys[0], tail, key, k);
      InsertWithKey(x, ys[1..], key, k);
      assert WithKey(Insert(x, ys, key), key, k) == h0 + (hx + rest);
      LeTotalOrder(key(x), key(x), key(x));
      SwapWhenOneEmpty(h0, hx, rest);
    }
  }

  lemma {:induction false} SortByKeyPermutes<T>(xs: seq<T>, key: T -> Ext)
    ensures multiset(SortByKey(xs, key)) == multiset(xs)
    decreases |xs|
  {
    if |xs| > 0 {
      var rest := SortByKey(xs[1..], key);
      SortByKeyPermutes(xs[1..], key);
      InsertPermutes(xs[0], rest, key);
      assert SortByKey(xs, key) == Insert(xs[0], rest, key);
      assert xs == [xs[0]] + xs[1..];
      assert multiset(xs) == multiset(xs[1..]) + multiset{xs[0]};
    }
  }

  lemma {:induction false} SortByKeySorted<T>(xs: seq<T>, key: T -> Ext)
    ensures SortedBy(SortByKey(xs, key), key)
    decreases |xs|
  {
    if |xs| > 0 {
      SortByKeySorted(xs[1..], key);
      InsertSorted(xs[0], SortByKey(xs[1..], key), key);
    }
  }

  lemma {:induction false} SortByKeyStable<T>(xs: seq<T>, key: T -> Ext, k: Ext)
    ensures WithKey(SortByKey(xs, key), key, k) == WithKey(xs, key, k)
    decreases |xs|
  {
    if |xs| > 0 {
      SortByKeyStable(xs[1..], key, k);
      InsertWithKey(xs[0], SortByKey(xs[1..], key), key, k);
      assert xs == [xs[0]] + xs[1..];
      WithKeyCons(xs[0], xs[1..], key, k);
    }
  }

  /** `sorted` returns the same elements, in key order, and elements with
      equal keys keep their relative order (stability). */
  lemma SortByKeyFacts<T>(xs: seq<T>, key: T -> Ext)
    ensures multiset(SortByKey(xs, key)) == multiset(xs)
    ensures SortedBy(SortByKey(xs, key), key)
    ensures forall k :: WithKey(SortByKey(xs, key), key, k) == WithKey(xs, key, k)
  {
    SortByKeyPermutes(xs, key);
    SortByKeySorted(xs, key);
    forall k ensures WithKey(SortByKey(xs, key), key, k) == WithKey(xs, key, k) {
      SortByKeyStable(xs, key, k);
    }
  }

  // ---------------------------------------------------------------------
  // sort_listings
  // ---------------------------------------------------------------------

  /** A price Python treats as true: present and non-zero. */
  predicate Priced(l: PropertyListing) {
    l.price.Some? && l.price.value != 0
  }

  /** The ascending sort key: the price when it is truthy, plus infinity otherwise. */
  function LowHighKey(l: PropertyListing): Ext {
    if Priced(l) then Fin(l.price.value) else PosInf
  }

  /** The descending sort key: the price when it is truthy, minus infinity otherwise. */
  function HighLowKey(l: PropertyListing): Ext {
    if Priced(l) then Fin(l.price.value) else NegInf
  }

  /** `sorted(..., reverse=True)` keeps equal keys in input order, which is
      an ascending stable sort on the negated key. */
  function DescendingKey(l: PropertyListing): Ext {
    Negate(HighLowKey(l))
  }

  /** `sort_listings(listings, sort_by)`: a permutation of the input for the
      two price modes; the input itself for any other criterion. */
  function SortListings(listings: seq<PropertyListing>, sortBy: string): (r: seq<PropertyListing>)
    ensures multiset(r) == multiset(listings)
    ensures sortBy != "price_low_high" && sortBy != "price_high_low" ==> r == listings
  {
    if sortBy == "price_low_high" then
      SortByKeyFacts(listings, LowHighKey);
      SortByKey(listings, LowHighKey)
    else if sortBy == "price_high_low" then
      SortByKeyFacts(listings, DescendingKey);
      SortByKey(listings, DescendingKey)
    else listings
  }

  /** Cheapest first: priced listings by non-decreasing price, then the
      unpriced ones; listings with the same price, and the unpriced ones, in
      input order. */
  lemma SortListingsLowHigh(listings: seq<PropertyListing>)
    ensures var r := SortListings(listings, "price_low_high");
      && (forall i, j | 0 <= i < j < |r| && Priced(r[i]) && Priced(r[j]) ::
            r[i].price.value <= r[j].price.value)
      && (forall i, j | 0 <= i < j < |r| :: !Priced(r[i]) ==> !Priced(r[j]))
      && (forall k :: WithKey(r, LowHighKey, k) == WithKey(listings, LowHighKey, k))
  {
    SortByKeyFacts(listings, LowHighKey);
  }

  /** Dearest first: priced listings by non-increasing price, then the
      unpriced ones; listings with the same price, and the unpriced ones, in
      input order. */
  lemma SortListingsHighLow(listings: seq<PropertyListing>)
    ensures var r := SortListings(listings, "price_high_low");
      && (forall i, j | 0 <= i < j < |r| && Priced(r[i]) && Priced(r[j]) ::
            r[i].price.value >= r[j].price.value)
      && (forall i, j | 0 <= i < j < |r| :: !Priced(r[i]) ==> !Priced(r[j]))
      && (forall k :: WithKey(r, HighLowKey, k) == WithKey(listings, HighLowKey, k))
  {
    var r := SortListings(listings, "price_high_low");
    SortByKeyFacts(listings, DescendingKey);
    forall i, j | 0 <= i < j < |r|
      ensures Le(HighLowKey(r[j]), HighLowKey(r[i]))
    {
      NegateReverses(HighLowKey(r[i]), HighLowKey(r[j]));
    }
    forall k ensures WithKey(r, HighLowKey, k) == WithKey(listings, HighLowKey, k) {
      NegatedKeyGroups(r, k);
      NegatedKeyGroups(listings, k);
    }
  }

  /** Grouping by the negated key is grouping by the key. */
  lemma {:induction false} NegatedKeyGroups(s: seq<PropertyListing>, k: Ext)
    ensures WithKey(s, DescendingKey, Negate(k)) == WithKey(s, HighLowKey, k)
    decreases |s|
  {
    if |s| > 0 {
      NegateReverses(HighLowKey(s[0]), k);
      NegatedKeyGroups(s[1..], k);
    }
  }

  // ---------------------------------------------------------------------
  // The grouping loop of create_map
  // ---------------------------------------------------------------------

  /** One map marker's worth of listings: the position and area are those of
      the first listing that produced its key. */
  datatype Group = Group(coordinates: Coord, listings: seq<PropertyListing>, area: Option<string>)

  /** The listing carries coordinates and they format to `k`. */
  predicate HasKey(l: PropertyListing, keyOf: Coord -> string, k: string) {
    l.location.coordinates.Some? && keyOf(l.location.coordinates.value) == k
  }

  /** The listings whose coordinates format to `k`, in input order. */
  function WithCoordKey(ls: seq<PropertyListing>, keyOf: Coord -> string, k: string): (r: seq<PropertyListing>)
    ensures forall i | 0 <= i < |r| :: HasKey(r[i], keyOf, k)
    decreases |ls|
  {
    if |ls| == 0 then []
    else
      WithCoordKey(ls[..|ls| - 1], keyOf, k)
      + (if HasKey(ls[|ls| - 1], keyOf, k) then [ls[|ls| - 1]] else [])
  }

  predicate Located(l: PropertyListing) {
    l.location.coordinates.Some?
  }

  /** The distinct keys of the located listings, in order of first appearance. */
  function KeysInOrder(ls: seq<PropertyListing>, keyOf: Coord -> string): seq<string>
    decreases |ls|
  {
    if |ls| == 0 then []
    else
      var before := KeysInOrder(ls[..|ls| - 1], keyOf);
      var l := ls[|ls| - 1];
      if Located(l) && keyOf(l.location.coordinates.value) !in before
      then before + [keyOf(l.location.coordinates.value)]
      else before
  }

  /** A key is listed exactly when some located listing produces it, and then
      that listing is in its group. */
  lemma {:induction false} KeysInOrderFacts(ls: seq<PropertyListing>, keyOf: Coord -> string)
    ensures forall k :: k in KeysInOrder(ls, keyOf) <==> |WithCoordKey(ls, keyOf, k)| > 0
    ensures forall i, j | 0 <= i < j < |KeysInOrder(ls, keyOf)| ::
      KeysInOrder(ls, keyOf)[i] != KeysInOrder(ls, keyOf)[j]
    decreases |ls|
  {
    if |ls| > 0 {
      KeysInOrderFacts(ls[..|ls| - 1], keyOf);
    }
  }

  /** A group made from its members: position and area of the first. */
  function GroupFrom(members: seq<PropertyListing>): Group
    requires |members| > 0 && Located(members[0])
  {
    Group(members[0].location.coordinates.value, members, members[0].location.area)
  }

  /** `location_groups` after the listings `ls`, one listing at a time: a
      listing without coordinates is skipped; one with coordinates is
      appended to the group of its key, which it founds when the key is new. */
  function GroupsOf(ls: seq<PropertyListing>, keyOf: Coord -> string): map<string, Group>
    decreases |ls|
  {
    if |ls| == 0 then map[]
    else
      var before := GroupsOf(ls[..|ls| - 1], keyOf);
      var l := ls[|ls| - 1];
      if !Located(l) then before
      else
        var k := keyOf(l.location.coordinates.value);
        if k in before then before[k := before[k].(listings := before[k].listings + [l])]
        else before[k := Group(l.location.coordinates.value, [l], l.location.area)]
  }

  /** What the groups are, independently of how they are built: there is a
      group for exactly the keys in `KeysInOrder`, and each holds the
      listings of its key in input order, with the position and area of the
      first of them. */
  lemma {:induction false} GroupsOfMeaning(ls: seq<PropertyListing>, keyOf: Coord -> string)
    ensures forall k :: k in GroupsOf(ls, keyOf) <==> k in KeysInOrder(ls, keyOf)
    ensures forall k | k in GroupsOf(ls, keyOf) ::
      |WithCoordKey(ls, keyOf, k)| > 0 && GroupsOf(ls, keyOf)[k] == GroupFrom(WithCoordKey(ls, keyOf, k))
    decreases |ls|
  {
    if |ls| > 0 {
      var front := ls[..|ls| - 1];
      var l := ls[|ls| - 1];
      GroupsOfMeaning(front, keyOf);
      KeysInOrderFacts(front, keyOf);
      forall k | k in GroupsOf(ls, keyOf)
        ensures |WithCoordKey(ls, keyOf, k)| > 0 && GroupsOf(ls, keyOf)[k] == GroupFrom(WithCoordKey(ls, keyOf, k))
      {
        var w := WithCoordKey(front, keyOf, k);
        assert WithCoordKey(ls, keyOf, k) == w + (if HasKey(l, keyOf, k) then [l] else []);
        if HasKey(l, keyOf, k) {
          if k in GroupsOf(front, keyOf) {
            assert (w + [l])[0] == w[0];
          } else {
            assert w == [];
            assert w + [l] == [l];
          }
        }
      }
    }
  }

  /** The loop of `create_map` that fills `location_groups`: the groups of the
      listings seen so far, and the keys in the order the dictionary
      acquired them. */
  method GroupByCoordinates(listings: seq<PropertyListing>, keyOf: Coord -> string)
    returns (groups: map<string, Group>, order: seq<string>)
    ensures groups == GroupsOf(listings, keyOf)
    ensures order == KeysInOrder(listings, keyOf)
    ensures forall k :: k in groups <==> k in order
    ensures forall i, j | 0 <= i < j < |order| :: order[i] != order[j]
    ensures forall k | k in groups ::
      |WithCoordKey(listings, keyOf, k)| > 0 && groups[k] == GroupFrom(WithCoordKey(listings, keyOf, k))
  {
    groups := map[];
    order := [];
    var i := 0;
    while i < |listings|
      invariant 0 <= i <= |listings|
      invariant groups == GroupsOf(listings[..i], keyOf)
      invariant order == KeysInOrder(listings[..i], keyOf)
    {
      var listing := listings[i];
      assert listings[..i + 1][..i] == listings[..i];
      assert listings[..i + 1][i] == listing;
      GroupsOfMeaning(listings[..i], keyOf);
      if listing.location.coordinates.Some? {
        var coords := listing.location.coordinates.value;
        var coordsKey := keyOf(coords);
        if coordsKey !in groups {
          groups := groups[coordsKey := Group(coords, [], listing.location.area)];
          order := order + [coordsKey];
        }
        groups := groups[coordsKey := groups[coordsKey].(listings := groups[coordsKey].listings + [listing])];
        assert [] + [listing] == [listing];
      }
      i := i + 1;
    }
    assert listings[..i] == listings;
    GroupsOfMeaning(listings, keyOf);
    KeysInOrderFacts(listings, keyOf);
  }

  /** Every listing with coordinates is in the group of its own key and in no
      other; a listing without coordinates is in none; groups list their
      members in input order and each key appears once. */
  lemma ListingInExactlyOneGroup(listings: seq<PropertyListing>, keyOf: Coord -> string, l: PropertyListing)
    requires l in listings
    ensures var groups := GroupsOf(listings, keyOf);
      && (Located(l) ==> keyOf(l.location.coordinates.value) in groups
                         && l in groups[keyOf(l.location.coordinates.value)].listings)
      && (forall k | k in groups && l in groups[k].listings ::
            Located(l) && k == keyOf(l.location.coordinates.value))
  {
    KeysInOrderFacts(listings, keyOf);
    GroupsOfMeaning(listings, keyOf);
    if Located(l) {
      InGroupOfOwnKey(listings, keyOf, l);
    }
  }

  lemma {:induction false} InGroupOfOwnKey(ls: seq<PropertyListing>, keyOf: Coord -> string, l: PropertyListing)
    requires l in ls && Located(l)
    ensures l in WithCoordKey(ls, keyOf, keyOf(l.location.coordinates.value))
    decreases |ls|
  {
    if ls[|ls| - 1] != l {
      assert ls == ls[..|ls| - 1] + [ls[|ls| - 1]];
      InGroupOfOwnKey(ls[..|ls| - 1], keyOf, l);
    }
  }

  /** A group's position and area are those of the first listing with its key. */
  lemma GroupTakesFirstListing(listings: seq<PropertyListing>, keyOf: Coord -> string, i: nat)
    requires i < |listings| && Located(listings[i])
    requires forall j | 0 <= j < i :: !HasKey(listings[j], keyOf, keyOf(listings[i].location.coordinates.value))
    ensures var k := keyOf(listings[i].location.coordinates.value);
      && k in GroupsOf(listings, keyOf)
      && GroupsOf(listings, keyOf)[k].coordinates == listings[i].location.coordinates.value
      && GroupsOf(listings, keyOf)[k].area == listings[i].location.area
  {
    var k := keyOf(listings[i].location.coordinates.value);
    KeysInOrderFacts(listings, keyOf);
    GroupsOfMeaning(listings, keyOf);
    FirstWithCoordKey(listings, keyOf, i);
  }

  lemma {:induction false} FirstWithCoordKey(ls: seq<PropertyListing>, keyOf: Coord -> string, i: nat)
    requires i < |ls| && Located(ls[i])
    requires forall j | 0 <= j < i :: !HasKey(ls[j], keyOf, keyOf(ls[i].location.coordinates.value))
    ensures var w := WithCoordKey(ls, keyOf, keyOf(ls[i].location.coordinates.value));
      |w| > 0 && w[0] == ls[i]
    decreases |ls|
  {
    var k := keyOf(ls[i].location.coordinates.value);
    var front := ls[..|ls| - 1];
    if i == |ls| - 1 {
      NoneBefore(front, keyOf, k);
    } else {
      assert front[i] == ls[i];
      FirstWithCoordKey(front, keyOf, i);
    }
  }

  lemma {:induction false} NoneBefore(ls: seq<PropertyListing>, keyOf: Coord -> string, k: string)
    requires forall j | 0 <= j < |ls| :: !HasKey(ls[j], keyOf, k)
    ensures WithCoordKey(ls, keyOf, k) == []
    decreases |ls|
  {
    if |ls| > 0 {
      NoneBefore(ls[..|ls| - 1], keyOf, k);
    }
  }
}
