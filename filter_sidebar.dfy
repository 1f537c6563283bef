/**
 * The filter sidebar: the option lists of its selects, the conversion of a
 * select's value to a criterion and back, `updateFilter` and
 * `hasActiveFilters`.
 */
module FilterSidebar {
  import opened Wrappers
  import opened Text
  import opened Filters
  import opened PropertyService
  import opened ListingPage

  /** The values of the property-type select; `""` is "All Types". */
  const PropertyTypeOptions: seq<string> := ["", "house", "condo", "townhome", "apartment"]
  /** The values of the bedrooms select; `""` is "Any", `"n"` is "n+". */
  const BedroomOptions: seq<string> := ["", "1", "2", "3", "4", "5"]
  /** The values of the bathrooms select. */
  const BathroomOptions: seq<string> := ["", "1", "2", "3", "4"]

  /**
   * The bedroom and bathroom `onChange` conversion
   * `value ? parseInt(value) : null`, for the digit text a select offers.
   */
  function SelectToCriterion(v: string): (r: Option<int>)
    requires IsDigits(v)
    ensures r.None? <==> v == ""
    ensures r.Some? ==> r.value >= 0
  {
    if v == "" then None else Some(ParseDigits(v))
  }

  /** The value a select shows for a criterion: `criterion || ""`. */
  function SelectedValue(n: Option<int>): (r: string)
    ensures r == "" <==> !IsSet(n)
  {
    if IsSet(n) then IntToString(n.value) else ""
  }

  /**
   * Every offered option survives the round trip through the criterion: the
   * select shows again the option that was picked.
   */
  lemma OptionRoundTrip(v: string)
    requires v in BedroomOptions || v in BathroomOptions
    ensures IsDigits(v)
    ensures SelectedValue(SelectToCriterion(v)) == v
    ensures v != "" ==> 1 <= SelectToCriterion(v).value <= 5
  {
    if v != "" {
      var n := SelectToCriterion(v).value;
      assert v == "1" || v == "2" || v == "3" || v == "4" || v == "5";
      assert NatToString(n) == v;
    }
  }

  /** A positive criterion is shown as its digits, which convert back to it. */
  lemma CriterionRoundTrip(n: int)
    requires n > 0
    ensures IsDigits(SelectedValue(Some(n)))
    ensures SelectToCriterion(SelectedValue(Some(n))) == Some(n)
  {
    ParseNatToString(n);
  }

  /** `updateFilter(key, value)`: `{ ...filters, [key]: value }` for a value of the field's kind. */
  function UpdateFilter(c: Criteria, f: Field, v: FieldValue): (r: Criteria)
    requires v.Number? <==> IsNumeric(f)
    ensures Get(r, f) == v
    ensures forall g :: g != f ==> Get(r, g) == Get(c, g)
    ensures r.priceCleared == c.priceCleared
  {
    match f
    case PriceMin => c.(priceMin := v.n)
    case PriceMax => c.(priceMax := v.n)
    case BedroomsMin => c.(bedroomsMin := v.n)
    case BathroomsMin => c.(bathroomsMin := v.n)
    case PropertyType => c.(propertyType := v.s)
    case Location => c.(location := v.s)
  }

  /** Writing a field's own value changes nothing. */
  lemma UpdateOwnValue(c: Criteria, f: Field)
    ensures UpdateFilter(c, f, Get(c, f)) == c
  {
    FieldsDetermine(UpdateFilter(c, f, Get(c, f)), c);
  }

  /** Of two writes to one field the last wins; writes to two different fields commute. */
  lemma UpdateTwice(c: Criteria, f: Field, g: Field, v: FieldValue, w: FieldValue)
    requires v.Number? <==> IsNumeric(f)
    requires w.Number? <==> IsNumeric(g)
    ensures f == g ==> UpdateFilter(UpdateFilter(c, f, v), g, w) == UpdateFilter(c, g, w)
    ensures f != g ==> UpdateFilter(UpdateFilter(c, f, v), g, w) == UpdateFilter(UpdateFilter(c, g, w), f, v)
  {
    var left := UpdateFilter(UpdateFilter(c, f, v), g, w);
    if f == g {
      FieldsDetermine(left, UpdateFilter(c, g, w));
    } else {
      FieldsDetermine(left, UpdateFilter(UpdateFilter(c, g, w), f, v));
    }
  }

  /**
   * Picking a property type from the select filters by exactly that type,
   * ignoring the case of the record's type; "All Types" filters nothing.
   */
  lemma TypeOptionFiltersByType(v: string, p: Property)
    requires v in PropertyTypeOptions
    ensures v == "" ==> Matches(UpdateFilter(Cleared, PropertyType, Text(v)), p)
    ensures v != "" ==> (Matches(UpdateFilter(Cleared, PropertyType, Text(v)), p) <==> Lower(p.propertyType) == v)
  {
    MatchesExactly(UpdateFilter(Cleared, PropertyType, Text(v)), p);
    LowerKeepsLowercase(v);
  }

  /** The option values are already lower case. */
  lemma LowerKeepsLowercase(v: string)
    requires v in PropertyTypeOptions
    ensures Lower(v) == v
  {
    if v == "house" {
      LowerOfSmall("house");
    } else if v == "condo" {
      LowerOfSmall("condo");
    } else if v == "townhome" {
      LowerOfSmall("townhome");
    } else if v == "apartment" {
      LowerOfSmall("apartment");
    }
  }

  /** Text without capital letters is its own lower case. */
  lemma LowerOfSmall(s: string)
    requires forall i :: 0 <= i < |s| ==> 'a' <= s[i] <= 'z'
    ensures Lower(s) == s
  {
  }

  /** A value `hasActiveFilters` skips: `""` or `null`. */
  predicate IsBlank(v: FieldValue) {
    v == Text("") || v == Number(None)
  }

  /**
   * `hasActiveFilters`: some value of the criteria object is neither `""`
   * nor `null`. The stray `price: ""` that `removeFilter` adds is `""`.
   */
  predicate HasActiveFilters(c: Criteria) {
    exists f :: !IsBlank(Get(c, f))
  }

  /**
   * The same test field by field: a numeric criterion counts as soon as it
   * holds a number, `0` included.
   */
  lemma HasActiveFiltersExactly(c: Criteria)
    ensures HasActiveFilters(c) <==>
      c.priceMin.Some? || c.priceMax.Some? || c.bedroomsMin.Some? || c.bathroomsMin.Some?
      || c.propertyType != "" || c.location != ""
  {
    if c.priceMin.Some? { assert !IsBlank(Get(c, PriceMin)); }
    if c.priceMax.Some? { assert !IsBlank(Get(c, PriceMax)); }
    if c.bedroomsMin.Some? { assert !IsBlank(Get(c, BedroomsMin)); }
    if c.bathroomsMin.Some? { assert !IsBlank(Get(c, BathroomsMin)); }
    if c.propertyType != "" { assert !IsBlank(Get(c, PropertyType)); }
    if c.location != "" { assert !IsBlank(Get(c, Location)); }
  }

  /**
   * Whenever the listing is narrowed the sidebar offers "Clear all"; the
   * cleared record offers none, and a record without active filters is the
   * cleared one up to the stray `price` property.
   */
  lemma FilteringShowsClear(c: Criteria)
    ensures ActiveSteps(c) != [] ==> HasActiveFilters(c)
    ensures !HasActiveFilters(Cleared)
    ensures !HasActiveFilters(c) ==> c.(priceCleared := false) == Cleared
  {
    HasActiveFiltersExactly(c);
    HasActiveFiltersExactly(Cleared);
  }

  /**
   * A numeric criterion of `0` makes the filters count as active, and the
   * select shows it as "Any", yet it filters nothing.
   */
  lemma ZeroActiveButIgnored(c: Criteria)
    requires c.bedroomsMin == Some(0)
    ensures HasActiveFilters(c)
    ensures SelectedValue(c.bedroomsMin) == ""
    ensures ActiveSteps(c) == ActiveSteps(c.(bedroomsMin := None))
  {
    HasActiveFiltersExactly(c);
    ZeroIsIgnored(c);
  }
}
