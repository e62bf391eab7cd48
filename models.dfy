/** The listing records (models.py). Every optional field is a
    `Common.Option`; each constructor parameter carries the default the
    dataclass declares, so `Location()` is the all-unset record. */
module Models {
  import opened Common

  /** A latitude/longitude pair, in degrees. */
  datatype Coord = Coord(lat: real, lon: real)

  datatype Location = Location(
    district: Option<string> := None,
    region: Option<string> := None,
    area: Option<string> := None,
    districtCode: Option<string> := None,
    regionCode: Option<string> := None,
    areaCode: Option<string> := None,
    coordinates: Option<Coord> := None,
    distanceToPatong: Option<real> := None,
    address: Option<string> := None)

  datatype PropertyInfo = PropertyInfo(
    bedrooms: Option<int> := None,
    bathrooms: Option<int> := None,
    floorArea: Option<string> := None,
    propertyType: Option<string> := None,
    furnishing: Option<string> := None,
    imageUrl: Option<string> := None)

  datatype ListingInfo = ListingInfo(
    id: Option<string> := None,
    url: Option<string> := None,
    position: Option<int> := None,
    status: Option<string> := None,
    variant: Option<string> := None)

  datatype AgentInfo = AgentInfo(
    id: Option<string> := None,
    name: Option<string> := None,
    phone: Option<string> := None,
    phoneFormatted: Option<string> := None,
    lineId: Option<string> := None,
    isVerified: bool := false,
    verificationDate: Option<string> := None,
    agencyType: Option<string> := None,
    profileImage: Option<string> := None)

  /** A listing once constructed: its four nested records are always there. */
  datatype PropertyListing = PropertyListing(
    name: Option<string>,
    price: Option<int>,
    location: Location,
    propertyInfo: PropertyInfo,
    listingInfo: ListingInfo,
    agentInfo: AgentInfo)

  /** `PropertyListing(...)` followed by `__post_init__`: a nested record
      passed as `None` (or left out) is replaced by a fresh all-default
      record; one passed explicitly is kept as given. */
  function NewPropertyListing(
    name: Option<string> := None,
    price: Option<int> := None,
    location: Option<Location> := None,
    propertyInfo: Option<PropertyInfo> := None,
    listingInfo: Option<ListingInfo> := None,
    agentInfo: Option<AgentInfo> := None): (r: PropertyListing)
    ensures r.name == name && r.price == price
    ensures r.location == location.GetOr(Location())
    ensures r.propertyInfo == propertyInfo.GetOr(PropertyInfo())
    ensures r.listingInfo == listingInfo.GetOr(ListingInfo())
    ensures r.agentInfo == agentInfo.GetOr(AgentInfo())
  {
    PropertyListing(
      name, price,
      if location.None? then Location() else location.value,
      if propertyInfo.None? then PropertyInfo() else propertyInfo.value,
      if listingInfo.None? then ListingInfo() else listingInfo.value,
      if agentInfo.None? then AgentInfo() else agentInfo.value)
  }

  /** Every field of the four records defaults to unset, except the agent's
      verification flag, which defaults to false; a listing built with no
      arguments has no name and no price and the four default records. */
  lemma DefaultRecords()
    ensures var l := Location();
      l.district.None? && l.region.None? && l.area.None? && l.districtCode.None?
      && l.regionCode.None? && l.areaCode.None? && l.coordinates.None?
      && l.distanceToPatong.None? && l.address.None?
    ensures var p := PropertyInfo();
      p.bedrooms.None? && p.bathrooms.None? && p.floorArea.None?
      && p.propertyType.None? && p.furnishing.None? && p.imageUrl.None?
    ensures var i := ListingInfo();
      i.id.None? && i.url.None? && i.position.None? && i.status.None? && i.variant.None?
    ensures var a := AgentInfo();
      a.id.None? && a.name.None? && a.phone.None? && a.phoneFormatted.None?
      && a.lineId.None? && !a.isVerified && a.verificationDate.None?
      && a.agencyType.None? && a.profileImage.None?
    ensures NewPropertyListing() == PropertyListing(None, None, Location(), PropertyInfo(), ListingInfo(), AgentInfo())
  {
  }

  /** Construction is idempotent: rebuilding a listing from its own fields,
      every nested record passed explicitly, gives the same listing back, and
      passing a record explicitly or leaving it out agree exactly when the
      explicit one is the default record. */
  lemma NewPropertyListingKeepsGiven(l: PropertyListing, loc: Location)
    ensures NewPropertyListing(l.name, l.price, Some(l.location), Some(l.propertyInfo),
                               Some(l.listingInfo), Some(l.agentInfo)) == l
    ensures (NewPropertyListing(location := Some(loc)) == NewPropertyListing()) <==> loc == Location()
  {
  }
}
