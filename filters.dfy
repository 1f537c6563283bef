/**
 * The filter-criteria record the listing page keeps in its state, persists
 * as the filter preference and hands to the filter sidebar.
 */
module Filters {
  import opened Wrappers

  /**
   * The criteria object. The four numeric fields hold `null` (`None`) or a
   * number; `propertyType` and `location` hold text, `""` when unset.
   * `priceCleared` records the stray field `price: ""` that removing the
   * price pill adds to the object: its value is always `""`, so only its
   * presence is kept.
   */
  datatype Criteria = Criteria(
    priceMin: Option<int>,
    priceMax: Option<int>,
    bedroomsMin: Option<int>,
    bathroomsMin: Option<int>,
    propertyType: string,
    location: string,
    priceCleared: bool)

  /** The initial state of the page and the record `clearFilters` writes. */
  const Cleared: Criteria := Criteria(None, None, None, None, "", "", false)

  /** JavaScript truthiness of a numeric field: `null` and `0` are false. */
  predicate IsSet(n: Option<int>) {
    n.Some? && n.value != 0
  }

  /** The named fields a caller may read or write. */
  datatype Field = PriceMin | PriceMax | BedroomsMin | BathroomsMin | PropertyType | Location

  /** The value of a field, as `Object.values` sees it. */
  datatype FieldValue = Number(n: Option<int>) | Text(s: string)

  /** The property name of a field in the criteria object. */
  function FieldName(f: Field): string {
    match f
    case PriceMin => "priceMin"
    case PriceMax => "priceMax"
    case BedroomsMin => "bedroomsMin"
    case BathroomsMin => "bathroomsMin"
    case PropertyType => "propertyType"
    case Location => "location"
  }

  /** Whether a field holds a number (else text). */
  predicate IsNumeric(f: Field) {
    f in {PriceMin, PriceMax, BedroomsMin, BathroomsMin}
  }

  function Get(c: Criteria, f: Field): (v: FieldValue)
    ensures v.Number? <==> IsNumeric(f)
  {
    match f
    case PriceMin => Number(c.priceMin)
    case PriceMax => Number(c.priceMax)
    case BedroomsMin => Number(c.bedroomsMin)
    case BathroomsMin => Number(c.bathroomsMin)
    case PropertyType => Text(c.propertyType)
    case Location => Text(c.location)
  }

  /** Two records with the same fields and the same stray `price` are the same. */
  lemma FieldsDetermine(c: Criteria, d: Criteria)
    requires forall f :: Get(c, f) == Get(d, f)
    requires c.priceCleared == d.priceCleared
    ensures c == d
  {
    assert Get(c, PriceMin) == Get(d, PriceMin) && Get(c, PriceMax) == Get(d, PriceMax);
    assert Get(c, BedroomsMin) == Get(d, BedroomsMin) && Get(c, BathroomsMin) == Get(d, BathroomsMin);
    assert Get(c, PropertyType) == Get(d, PropertyType) && Get(c, Location) == Get(d, Location);
  }
}
