/**
  `getPlaceType`: a first-match-wins decision list over the address record
  that labels the kind of place a reply describes.
 */
module PlaceTypes {
  import opened JsText
  import opened Addresses

  /** The ten labels, in the order the decision list tries them. */
  datatype PlaceType =
    | Residential
    | Commercial
    | Restaurant
    | Hospital
    | School
    | Bank
    | Road
    | NaturalArea
    | Recreational
    | General

  /** Position of a place type in the decision list. */
  function Rank(p: PlaceType): nat
  {
    match p
    case Residential => 0
    case Commercial => 1
    case Restaurant => 2
    case Hospital => 3
    case School => 4
    case Bank => 5
    case Road => 6
    case NaturalArea => 7
    case Recreational => 8
    case General => 9
  }

  /** `address.amenity === tag` (strict equality: only a present string equal to `tag`). */
  predicate AmenityIs(a: Address, tag: string)
  {
    a.amenity == Some(tag)
  }

  /** The guard of each rule, stated independently of the order they are tried in. */
  predicate Matches(p: PlaceType, a: Address)
  {
    match p
    case Residential => Truthy(a.houseNumber)
    case Commercial => Truthy(a.shop) || AmenityIs(a, "shop")
    case Restaurant => AmenityIs(a, "restaurant")
    case Hospital => AmenityIs(a, "hospital")
    case School => AmenityIs(a, "school")
    case Bank => AmenityIs(a, "bank")
    case Road => Truthy(a.highway)
    case NaturalArea => Truthy(a.natural)
    case Recreational => Truthy(a.leisure)
    case General => true
  }

  /**
    The decision list: the result is a rule whose guard holds and every rule
    tried before it fails, so the earliest matching rule wins and a record
    matching none is a general location.
   */
  function Classify(a: Address): (p: PlaceType)
    ensures Matches(p, a)
    ensures forall q: PlaceType :: Rank(q) < Rank(p) ==> !Matches(q, a)
  {
    if Truthy(a.houseNumber) then Residential
    else if Truthy(a.shop) || AmenityIs(a, "shop") then Commercial
    else if AmenityIs(a, "restaurant") then Restaurant
    else if AmenityIs(a, "hospital") then Hospital
    else if AmenityIs(a, "school") then School
    else if AmenityIs(a, "bank") then Bank
    else if Truthy(a.highway) then Road
    else if Truthy(a.natural) then NaturalArea
    else if Truthy(a.leisure) then Recreational
    else General
  }

  /** `getPlaceType(data)`: the place type of a reply, reading `data.address || {}`. */
  function PlaceTypeOf(reply: Reply): (p: PlaceType)
    ensures reply.address.None? ==> p == General
    ensures reply.address.Some? ==> Matches(p, reply.address.value)
    ensures reply.address.Some? ==> forall q: PlaceType :: Rank(q) < Rank(p) ==> !Matches(q, reply.address.value)
  {
    Classify(AddressOf(reply))
  }

  /** The rule order is a strict order: no two rules share a position. */
  lemma RankInjective(p: PlaceType, q: PlaceType)
    ensures Rank(p) == Rank(q) <==> p == q
  {
  }

  /** A non-empty house number makes the place residential whatever else the record holds. */
  lemma HouseNumberWins(a: Address, b: Address)
    requires Truthy(a.houseNumber)
    ensures Classify(a) == Residential
    ensures Classify(b.(houseNumber := a.houseNumber)) == Residential
  {
  }

  /** The decision list is the only function meeting its contract: it names the first matching rule. */
  lemma ClassifyIsFirstMatch(a: Address, p: PlaceType)
    requires Matches(p, a)
    requires forall q: PlaceType :: Rank(q) < Rank(p) ==> !Matches(q, a)
    ensures Classify(a) == p
  {
    var c := Classify(a);
    assert Rank(c) == Rank(p) by {
      assert Rank(c) < Rank(p) ==> !Matches(c, a);
      assert Rank(p) < Rank(c) ==> !Matches(p, a);
    }
    RankInjective(c, p);
  }

  /** The text shown for a place type. */
  function Label(p: PlaceType): (s: string)
    ensures |s| > 2
  {
    match p
    case Residential => "\U{1F3E0} Residencial"
    case Commercial => "\U{1F3EA} Comercial"
    case Restaurant => "\U{1F37D}\U{FE0F} Restaurante"
    case Hospital => "\U{1F3E5} Hospital"
    case School => "\U{1F3EB} Escuela"
    case Bank => "\U{1F3E6} Banco"
    case Road => "\U{1F6E3}\U{FE0F} Vía"
    case NaturalArea => "\U{1F33F} Área Natural"
    case Recreational => "\U{1F3AF} Recreativo"
    case General => "\U{1F4CD} Ubicación General"
  }

  /** Distinct place types are shown with distinct labels. */
  lemma LabelInjective(p: PlaceType, q: PlaceType)
    requires Label(p) == Label(q)
    ensures p == q
  {
    assert Label(p)[0] == Label(q)[0];
  }
}
