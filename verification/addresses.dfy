/**
  The address record a reverse-geocoding reply carries, the fallback chains
  that turn it into the displayed fields, and the one-line
  "street, city, country" address built from them (js/main.js, in
  `displayAddressInfo` and again in `getClickedLocationInfo`).
 */
module Addresses {
  import opened JsText

  /**
    The `address` object of a Nominatim reply. Every property is optional;
    the JSON names are `house_number`, `road`, `street`, `neighbourhood`,
    `suburb`, `city`, `town`, `village`, `municipality`, `county`,
    `state_district`, `state`, `province`, `country`, `postcode`,
    `country_code`, `shop`, `amenity`, `highway`, `natural` and `leisure`.
   */
  datatype Address = Address(
    houseNumber: Option<string>,
    road: Option<string>,
    street: Option<string>,
    neighbourhood: Option<string>,
    suburb: Option<string>,
    city: Option<string>,
    town: Option<string>,
    village: Option<string>,
    municipality: Option<string>,
    county: Option<string>,
    stateDistrict: Option<string>,
    state: Option<string>,
    province: Option<string>,
    country: Option<string>,
    postcode: Option<string>,
    countryCode: Option<string>,
    shop: Option<string>,
    amenity: Option<string>,
    highway: Option<string>,
    natural: Option<string>,
    leisure: Option<string>)

  /** The empty object `{}`. */
  const Blank := Address(None, None, None, None, None, None, None, None, None, None, None,
                         None, None, None, None, None, None, None, None, None, None)

  /** A decoded reverse-geocoding reply; only its `address` property is read. */
  datatype Reply = Reply(address: Option<Address>)

  /** The decoded IP-lookup reply, used as a fallback for the country. */
  datatype IpInfo = IpInfo(countryName: Option<string>, countryCode: Option<string>)

  /** `data.address || {}`: any object is truthy, so only a missing address becomes `{}`. */
  function AddressOf(reply: Reply): (a: Address)
    ensures reply.address.Some? ==> a == reply.address.value
    ensures reply.address.None? ==> a == Blank
  {
    match reply.address
    case Some(a) => a
    case None => Blank
  }

  /** `countryData?.country_name`: absent when the IP lookup gave nothing. */
  function IpCountryName(ip: Option<IpInfo>): Option<string>
  {
    if ip.Some? then ip.value.countryName else None
  }

  /** `countryData?.country_code`. */
  function IpCountryCode(ip: Option<IpInfo>): Option<string>
  {
    if ip.Some? then ip.value.countryCode else None
  }

  /** The fields the address panel shows, each already reduced to a string (`""` when absent). */
  datatype Fields = Fields(
    houseNumber: string,
    road: string,
    neighbourhood: string,
    city: string,
    county: string,
    state: string,
    country: string,
    postcode: string,
    countryCode: string)

  /**
    The fallback chains of `displayAddressInfo`: each field is the first
    non-empty value of its chain; country and country code fall back to the
    IP lookup only after the address's own value.
   */
  function PanelFields(a: Address, ip: Option<IpInfo>): (f: Fields)
    ensures PicksFirstTruthy([a.houseNumber], f.houseNumber)
    ensures PicksFirstTruthy([a.road, a.street], f.road)
    ensures PicksFirstTruthy([a.neighbourhood, a.suburb], f.neighbourhood)
    ensures PicksFirstTruthy([a.city, a.town, a.village, a.municipality], f.city)
    ensures PicksFirstTruthy([a.county, a.stateDistrict], f.county)
    ensures PicksFirstTruthy([a.state, a.province], f.state)
    ensures PicksFirstTruthy([a.country, IpCountryName(ip)], f.country)
    ensures PicksFirstTruthy([a.postcode], f.postcode)
    ensures PicksFirstTruthy([a.countryCode, IpCountryCode(ip)], f.countryCode)
  {
    Fields(
      FirstTruthy([a.houseNumber]),
      FirstTruthy([a.road, a.street]),
      FirstTruthy([a.neighbourhood, a.suburb]),
      FirstTruthy([a.city, a.town, a.village, a.municipality]),
      FirstTruthy([a.county, a.stateDistrict]),
      FirstTruthy([a.state, a.province]),
      FirstTruthy([a.country, IpCountryName(ip)]),
      FirstTruthy([a.postcode]),
      FirstTruthy([a.countryCode, IpCountryCode(ip)]))
  }

  /**
    The fields of the clicked-point popup (`getClickedLocationInfo`): the
    same chains for house number, road, city, country and country code,
    without any IP fallback.
   */
  function PopupFields(a: Address): (f: Fields)
    ensures PicksFirstTruthy([a.houseNumber], f.houseNumber)
    ensures PicksFirstTruthy([a.road, a.street], f.road)
    ensures PicksFirstTruthy([a.city, a.town, a.village, a.municipality], f.city)
    ensures PicksFirstTruthy([a.country], f.country)
    ensures PicksFirstTruthy([a.countryCode], f.countryCode)
  {
    Fields(
      FirstTruthy([a.houseNumber]),
      FirstTruthy([a.road, a.street]),
      "",
      FirstTruthy([a.city, a.town, a.village, a.municipality]),
      "",
      "",
      FirstTruthy([a.country]),
      "",
      FirstTruthy([a.countryCode]))
  }

  /** The IP lookup only matters when the address has no country of its own. */
  lemma IpFallbackOnlyWhenMissing(a: Address, ip: Option<IpInfo>)
    ensures Truthy(a.country) ==> PanelFields(a, ip).country == a.country.value
    ensures !Truthy(a.country) ==> PanelFields(a, ip).country == FirstTruthy([IpCountryName(ip)])
    ensures Truthy(a.countryCode) ==> PanelFields(a, ip).countryCode == a.countryCode.value
    ensures !Truthy(a.countryCode) ==> PanelFields(a, ip).countryCode == FirstTruthy([IpCountryCode(ip)])
  {
    var f := PanelFields(a, ip);
    if !Truthy(a.country) {
      var g := FirstTruthy([IpCountryName(ip)]);
      assert PicksFirstTruthy([a.country, IpCountryName(ip)], g);
      PicksFirstTruthyUnique([a.country, IpCountryName(ip)], f.country, g);
    }
    if !Truthy(a.countryCode) {
      var g := FirstTruthy([IpCountryCode(ip)]);
      assert PicksFirstTruthy([a.countryCode, IpCountryCode(ip)], g);
      PicksFirstTruthyUnique([a.countryCode, IpCountryCode(ip)], f.countryCode, g);
    }
  }

  /** Without IP data, the panel and the popup read the same five fields the same way. */
  lemma PopupAgreesWithPanel(a: Address)
    ensures PopupFields(a).houseNumber == PanelFields(a, None).houseNumber
    ensures PopupFields(a).road == PanelFields(a, None).road
    ensures PopupFields(a).city == PanelFields(a, None).city
    ensures PopupFields(a).country == PanelFields(a, None).country
    ensures PopupFields(a).countryCode == PanelFields(a, None).countryCode
  {
    IpFallbackOnlyWhenMissing(a, None);
  }

  const NoStreet: string := "Dirección no especificada"
  const NoCity: string := "Ciudad no especificada"
  const NoCountry: string := "País no especificado"

  /**
    `house_number && road ? `${house_number} ${road}` : (road || NoStreet)`:
    the house number is prefixed only when both parts are present, and the
    placeholder stands in for a missing road.
   */
  function StreetLine(houseNumber: string, road: string): (r: string)
    ensures r != ""
    ensures road == "" ==> r == NoStreet
    ensures road != "" && houseNumber == "" ==> r == road
    ensures road != "" && houseNumber != "" ==> r == houseNumber + " " + road
  {
    if houseNumber != "" && road != "" then houseNumber + " " + road else Or(road, NoStreet)
  }

  /**
    Three comma-free parts joined with ", " split on commas back into the
    first part and the other two, each after its one space.
   */
  lemma {:induction false} CommaJoinSplits(a: string, b: string, c: string)
    requires ',' !in a && ',' !in b && ',' !in c
    ensures SplitOn(a + ", " + b + ", " + c, ',') == [a, " " + b, " " + c]
  {
    var b', c' := " " + b, " " + c;
    assert ',' !in b' by { assert b'[1..] == b; }
    assert ',' !in c' by { assert c'[1..] == c; }
    assert a + ", " + b + ", " + c == a + [','] + (b' + [','] + c');
    SplitOnAfterFirstSeparator(a, ',', b' + [','] + c');
    SplitOnAfterFirstSeparator(b', ',', c');
    SplitOnWithoutSeparator(c', ',');
  }

  /**
    `${street}, ${city || NoCity}, ${country || NoCountry}`: the street line
    first, then ", " and the city (or its placeholder), then ", " and the
    country (or its placeholder) last; when no part holds a comma, splitting
    on commas recovers the three parts.
   */
  function FullAddress(street: string, city: string, country: string): (r: string)
    ensures |r| == |street| + |Or(city, NoCity)| + |Or(country, NoCountry)| + 4
    ensures r[..|street|] == street
    ensures r[|street|..|street| + 2] == ", "
    ensures r[|street| + 2..|street| + 2 + |Or(city, NoCity)|] == Or(city, NoCity)
    ensures r[|r| - |Or(country, NoCountry)| - 2..] == ", " + Or(country, NoCountry)
    ensures ',' !in street && ',' !in city && ',' !in country ==>
              SplitOn(r, ',') == [street, " " + Or(city, NoCity), " " + Or(country, NoCountry)]
  {
    var cs, ks := Or(city, NoCity), Or(country, NoCountry);
    if ',' !in street && ',' !in cs && ',' !in ks then
      CommaJoinSplits(street, cs, ks);
      street + ", " + cs + ", " + ks
    else
      street + ", " + cs + ", " + ks
  }

  /** The one-line address of a set of fields. */
  function AddressLine(f: Fields): string
  {
    FullAddress(StreetLine(f.houseNumber, f.road), f.city, f.country)
  }

  /**
    The full address always has three comma-separated components: the
    street line, then the city or its placeholder, then the country or its
    placeholder (each after one space), when none of the parts holds a comma.
   */
  lemma {:induction false} FullAddressHasThreeParts(street: string, city: string, country: string)
    requires ',' !in street && ',' !in city && ',' !in country
    ensures SplitOn(FullAddress(street, city, country), ',')
            == [street, " " + Or(city, NoCity), " " + Or(country, NoCountry)]
    ensures Or(city, NoCity) != "" && Or(country, NoCountry) != ""
    ensures city != "" <==> Or(city, NoCity) == city
    ensures country != "" <==> Or(country, NoCountry) == country
  {
  }
}
