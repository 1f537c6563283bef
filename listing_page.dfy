/**
 * The listing page: the filter engine `applyFilters`, the active-filter
 * pills, `removeFilter`, `clearFilters`, the first-load merge of the URL
 * search term with the saved preference, and the page state that ties them
 * to the preference store.
 */
module ListingPage {
  import opened Wrappers
  import opened Text
  import opened Seqs
  import opened Filters
  import opened PropertyService
  import opened LocalStorage

  // ---------------------------------------------------------------------
  // The filter engine
  // ---------------------------------------------------------------------

  /** One `filtered = filtered.filter(...)` step of `applyFilters`, with its parameter. */
  datatype Step =
    | LocationStep(term: string)
    | PriceMinStep(bound: int)
    | PriceMaxStep(bound: int)
    | BedroomsMinStep(bound: int)
    | BathroomsMinStep(bound: int)
    | TypeStep(kind: string)

  /**
   * The predicate of a step. An empty location term is in every text, and an
   * exact type match needs a type of the same length.
   */
  predicate Passes(step: Step, p: Property): (r: bool)
    ensures step.LocationStep? && step.term == "" ==> r
    ensures step.TypeStep? && r ==> |p.propertyType| == |step.kind|
  {
    match step
    case LocationStep(term) =>
      var t := Lower(term);
      Includes(Lower(p.address), t) || Includes(Lower(p.title), t) || Includes(Lower(p.propertyType), t)
    case PriceMinStep(b) => p.price >= b
    case PriceMaxStep(b) => p.price <= b
    case BedroomsMinStep(b) => p.bedrooms >= b
    case BathroomsMinStep(b) => p.bathrooms >= b
    case TypeStep(k) => Lower(p.propertyType) == Lower(k)
  }

  /** The step that a criterion contributes: none unless it is truthy. */
  function StepIf(active: bool, step: Step): seq<Step> {
    if active then [step] else []
  }

  /**
   * The steps `applyFilters` runs for these criteria, in its order: one per
   * truthy field (JavaScript truthiness: `""`, `null` and `0` are skipped).
   */
  function ActiveSteps(c: Criteria): (r: seq<Step>)
    ensures |r| <= 6
    ensures r == [] <==> c.location == "" && c.propertyType == "" && !IsSet(c.priceMin)
                         && !IsSet(c.priceMax) && !IsSet(c.bedroomsMin) && !IsSet(c.bathroomsMin)
  {
    StepIf(c.location != "", LocationStep(c.location))
    + StepIf(IsSet(c.priceMin), PriceMinStep(c.priceMin.GetOr(0)))
    + StepIf(IsSet(c.priceMax), PriceMaxStep(c.priceMax.GetOr(0)))
    + StepIf(IsSet(c.bedroomsMin), BedroomsMinStep(c.bedroomsMin.GetOr(0)))
    + StepIf(IsSet(c.bathroomsMin), BathroomsMinStep(c.bathroomsMin.GetOr(0)))
    + StepIf(c.propertyType != "", TypeStep(c.propertyType))
  }

  predicate PassesAll(steps: seq<Step>, p: Property) {
    forall i :: 0 <= i < |steps| ==> Passes(steps[i], p)
  }

  /** A record is shown under the criteria when it passes every active step. */
  predicate Matches(c: Criteria, p: Property) {
    PassesAll(ActiveSteps(c), p)
  }

  /** `s.filter(p => Passes(step, p))` */
  function Keep(s: seq<Property>, step: Step): (r: seq<Property>)
    ensures forall p :: p in r <==> p in s && Passes(step, p)
  {
    if s == [] then []
    else if Passes(step, s[0]) then [s[0]] + Keep(s[1..], step)
    else Keep(s[1..], step)
  }

  /** The records of `s` that pass every step, in their order in `s`: one filter for the conjunction. */
  function Select(s: seq<Property>, steps: seq<Step>): (r: seq<Property>)
    ensures forall p :: p in r <==> p in s && PassesAll(steps, p)
    ensures IsSubsequence(r, s)
  {
    if s == [] then []
    else if PassesAll(steps, s[0]) then [s[0]] + Select(s[1..], steps)
    else Select(s[1..], steps)
  }

  /** Filtering by one more step after a conjunction is filtering by the longer conjunction. */
  lemma {:induction false} KeepAfterSelect(s: seq<Property>, steps: seq<Step>, step: Step)
    ensures Keep(Select(s, steps), step) == Select(s, steps + [step])
  {
    if s != [] {
      KeepAfterSelect(s[1..], steps, step);
      assert PassesAll(steps + [step], s[0]) <==> PassesAll(steps, s[0]) && Passes(step, s[0]) by {
        assert forall i :: 0 <= i < |steps| ==> (steps + [step])[i] == steps[i];
        assert (steps + [step])[|steps|] == step;
      }
    }
  }

  /** One `if (criterion) filtered = filtered.filter(...)` of `applyFilters`. */
  lemma Narrow(s: seq<Property>, done: seq<Step>, active: bool, step: Step)
    ensures Select(s, done + StepIf(active, step))
            == if active then Keep(Select(s, done), step) else Select(s, done)
  {
    if active {
      KeepAfterSelect(s, done, step);
    } else {
      assert done + StepIf(active, step) == done;
    }
  }

  /** No steps keep everything. */
  lemma {:induction false} SelectNothing(s: seq<Property>)
    ensures Select(s, []) == s
  {
    if s != [] {
      SelectNothing(s[1..]);
    }
  }

  /**
   * `applyFilters`: starting from a copy of the list, each truthy criterion
   * narrows `filtered` with its predicate. The result is the records that
   * satisfy every active predicate, in their original order.
   */
  method ApplyFilters(properties: seq<Property>, filters: Criteria) returns (filtered: seq<Property>)
    ensures filtered == Select(properties, ActiveSteps(filters))
    ensures forall p :: p in filtered <==> p in properties && Matches(filters, p)
    ensures IsSubsequence(filtered, properties)
  {
    filtered := properties;
    SelectNothing(properties);

    var location := LocationStep(filters.location);
    filtered := NarrowIf(properties, [], filtered, filters.location != "", location);
    assert [] + StepIf(filters.location != "", location) == StepIf(filters.location != "", location);
    ghost var done := StepIf(filters.location != "", location);

    var priceMin := PriceMinStep(filters.priceMin.GetOr(0));
    filtered := NarrowIf(properties, done, filtered, IsSet(filters.priceMin), priceMin);
    done := done + StepIf(IsSet(filters.priceMin), priceMin);

    var priceMax := PriceMaxStep(filters.priceMax.GetOr(0));
    filtered := NarrowIf(properties, done, filtered, IsSet(filters.priceMax), priceMax);
    done := done + StepIf(IsSet(filters.priceMax), priceMax);

    var bedrooms := BedroomsMinStep(filters.bedroomsMin.GetOr(0));
    filtered := NarrowIf(properties, done, filtered, IsSet(filters.bedroomsMin), bedrooms);
    done := done + StepIf(IsSet(filters.bedroomsMin), bedrooms);

    var bathrooms := BathroomsMinStep(filters.bathroomsMin.GetOr(0));
    filtered := NarrowIf(properties, done, filtered, IsSet(filters.bathroomsMin), bathrooms);
    done := done + StepIf(IsSet(filters.bathroomsMin), bathrooms);

    var kind := TypeStep(filters.propertyType);
    filtered := NarrowIf(properties, done, filtered, filters.propertyType != "", kind);
    done := done + StepIf(filters.propertyType != "", kind);

    assert done == ActiveSteps(filters);
  }

  /**
   * One `if (criterion) filtered = filtered.filter(...)` of `applyFilters`:
   * when the list so far is the selection by the steps already run, the
   * list afterwards is the selection by those steps and this one's.
   */
  method NarrowIf(ghost properties: seq<Property>, ghost done: seq<Step>, filtered: seq<Property>,
                  active: bool, step: Step) returns (next: seq<Property>)
    requires filtered == Select(properties, done)
    ensures next == Select(properties, done + StepIf(active, step))
  {
    next := filtered;
    if active {
      next := Keep(filtered, step);
    }
    Narrow(properties, done, active, step);
  }

  /** A record passes two lists of steps together iff it passes each. */
  lemma PassesAllConcat(a: seq<Step>, b: seq<Step>, p: Property)
    ensures PassesAll(a + b, p) <==> PassesAll(a, p) && PassesAll(b, p)
  {
    var ab := a + b;
    assert forall i :: 0 <= i < |a| ==> ab[i] == a[i];
    assert forall i :: 0 <= i < |b| ==> ab[|a| + i] == b[i];
    if PassesAll(a, p) && PassesAll(b, p) {
      forall i | 0 <= i < |ab|
        ensures Passes(ab[i], p)
      {
        if i >= |a| {
          assert ab[i] == b[i - |a|];
        }
      }
    }
  }

  /**
   * What each criterion demands of a shown record: the conjunction of the
   * truthy criteria, with the location term matched case-insensitively as a
   * substring of the address, the title or the type, and the type matched
   * case-insensitively and exactly.
   */
  lemma MatchesExactly(c: Criteria, p: Property)
    ensures Matches(c, p) <==>
      && (c.location != "" ==>
            Includes(Lower(p.address), Lower(c.location)) || Includes(Lower(p.title), Lower(c.location))
            || Includes(Lower(p.propertyType), Lower(c.location)))
      && (IsSet(c.priceMin) ==> p.price >= c.priceMin.value)
      && (IsSet(c.priceMax) ==> p.price <= c.priceMax.value)
      && (IsSet(c.bedroomsMin) ==> p.bedrooms >= c.bedroomsMin.value)
      && (IsSet(c.bathroomsMin) ==> p.bathrooms >= c.bathroomsMin.value)
      && (c.propertyType != "" ==> Lower(p.propertyType) == Lower(c.propertyType))
  {
    MatchesByPieces(c, p);
    PassesStepIf(c.location != "", LocationStep(c.location), p);
    PassesStepIf(IsSet(c.priceMin), PriceMinStep(c.priceMin.GetOr(0)), p);
    PassesStepIf(IsSet(c.priceMax), PriceMaxStep(c.priceMax.GetOr(0)), p);
    PassesStepIf(IsSet(c.bedroomsMin), BedroomsMinStep(c.bedroomsMin.GetOr(0)), p);
    PassesStepIf(IsSet(c.bathroomsMin), BathroomsMinStep(c.bathroomsMin.GetOr(0)), p);
    PassesStepIf(c.propertyType != "", TypeStep(c.propertyType), p);
  }

  /** A record matches iff it passes the contribution of each criterion. */
  lemma MatchesByPieces(c: Criteria, p: Property)
    ensures Matches(c, p) <==>
      && PassesAll(StepIf(c.location != "", LocationStep(c.location)), p)
      && PassesAll(StepIf(IsSet(c.priceMin), PriceMinStep(c.priceMin.GetOr(0))), p)
      && PassesAll(StepIf(IsSet(c.priceMax), PriceMaxStep(c.priceMax.GetOr(0))), p)
      && PassesAll(StepIf(IsSet(c.bedroomsMin), BedroomsMinStep(c.bedroomsMin.GetOr(0))), p)
      && PassesAll(StepIf(IsSet(c.bathroomsMin), BathroomsMinStep(c.bathroomsMin.GetOr(0))), p)
      && PassesAll(StepIf(c.propertyType != "", TypeStep(c.propertyType)), p)
  {
    var a := StepIf(c.location != "", LocationStep(c.location));
    var b := StepIf(IsSet(c.priceMin), PriceMinStep(c.priceMin.GetOr(0)));
    var d := StepIf(IsSet(c.priceMax), PriceMaxStep(c.priceMax.GetOr(0)));
    var e := StepIf(IsSet(c.bedroomsMin), BedroomsMinStep(c.bedroomsMin.GetOr(0)));
    var f := StepIf(IsSet(c.bathroomsMin), BathroomsMinStep(c.bathroomsMin.GetOr(0)));
    var g := StepIf(c.propertyType != "", TypeStep(c.propertyType));
    PassesAllConcat(a + b + d + e + f, g, p);
    PassesAllConcat(a + b + d + e, f, p);
    PassesAllConcat(a + b + d, e, p);
    PassesAllConcat(a + b, d, p);
    PassesAllConcat(a, b, p);
  }

  /** A criterion's contribution is passed iff the criterion is inactive or its step is passed. */
  lemma PassesStepIf(active: bool, step: Step, p: Property)
    ensures PassesAll(StepIf(active, step), p) <==> (active ==> Passes(step, p))
  {
    if active {
      assert StepIf(active, step)[0] == step;
    }
  }

  /** Criteria with no truthy field leave the list as it is. */
  lemma NothingSetIsIdentity(properties: seq<Property>, c: Criteria)
    requires c.location == "" && c.propertyType == ""
    requires !IsSet(c.priceMin) && !IsSet(c.priceMax) && !IsSet(c.bedroomsMin) && !IsSet(c.bathroomsMin)
    ensures Select(properties, ActiveSteps(c)) == properties
    ensures Select(properties, ActiveSteps(Cleared)) == properties
  {
    SelectNothing(properties);
  }

  /** A numeric criterion of `0` imposes no constraint: it filters exactly like `null`. */
  lemma ZeroIsIgnored(c: Criteria)
    ensures c.priceMin == Some(0) ==> ActiveSteps(c) == ActiveSteps(c.(priceMin := None))
    ensures c.priceMax == Some(0) ==> ActiveSteps(c) == ActiveSteps(c.(priceMax := None))
    ensures c.bedroomsMin == Some(0) ==> ActiveSteps(c) == ActiveSteps(c.(bedroomsMin := None))
    ensures c.bathroomsMin == Some(0) ==> ActiveSteps(c) == ActiveSteps(c.(bathroomsMin := None))
  {
  }

  /** Applying the same criteria to their own result changes nothing. */
  lemma {:induction false} SelectIdempotent(s: seq<Property>, steps: seq<Step>)
    ensures Select(Select(s, steps), steps) == Select(s, steps)
  {
    if s != [] {
      SelectIdempotent(s[1..], steps);
    }
  }

  /**
   * Running the steps of one list and then those of another is the same as
   * running both lists at once: the predicates compose by AND.
   */
  lemma {:induction false} SelectThenSelect(s: seq<Property>, first: seq<Step>, second: seq<Step>)
    ensures Select(Select(s, first), second) == Select(s, first + second)
  {
    if s != [] {
      SelectThenSelect(s[1..], first, second);
      var both := first + second;
      assert PassesAll(both, s[0]) <==> PassesAll(first, s[0]) && PassesAll(second, s[0]) by {
        assert forall i :: 0 <= i < |first| ==> both[i] == first[i];
        assert forall i :: 0 <= i < |second| ==> both[|first| + i] == second[i];
        if PassesAll(first, s[0]) && PassesAll(second, s[0]) {
          forall i | 0 <= i < |both|
            ensures Passes(both[i], s[0])
          {
            if i >= |first| {
              assert both[i] == second[i - |first|];
            }
          }
        }
      }
    }
  }

  // ---------------------------------------------------------------------
  // Active-filter pills
  // ---------------------------------------------------------------------

  /** The `key` of a pill, which `removeFilter` receives. */
  datatype PillKey = LocationPill | PricePill | PropertyTypePill | BedroomsPill | BathroomsPill

  function PillName(k: PillKey): string {
    match k
    case LocationPill => "location"
    case PricePill => "price"
    case PropertyTypePill => "propertyType"
    case BedroomsPill => "bedroomsMin"
    case BathroomsPill => "bathroomsMin"
  }

  /** The position a pill takes in the fixed pill order. */
  function PillRank(k: PillKey): nat {
    match k
    case LocationPill => 0
    case PricePill => 1
    case PropertyTypePill => 2
    case BedroomsPill => 3
    case BathroomsPill => 4
  }

  /** Whether the pill is shown: its field is truthy; the price pill when either price bound is. */
  predicate PillShown(c: Criteria, k: PillKey) {
    match k
    case LocationPill => c.location != ""
    case PricePill => IsSet(c.priceMin) || IsSet(c.priceMax)
    case PropertyTypePill => c.propertyType != ""
    case BedroomsPill => IsSet(c.bedroomsMin)
    case BathroomsPill => IsSet(c.bathroomsMin)
  }

  /**
   * `getActiveFilterPills`: pushes one pill per truthy criterion, in the
   * order location, price, type, bedrooms, bathrooms. Label text is not
   * modelled.
   */
  method GetActiveFilterPills(c: Criteria) returns (pills: seq<PillKey>)
    ensures forall k :: k in pills <==> PillShown(c, k)
    ensures RankAscending(pills)
    ensures |pills| <= 5
  {
    pills := [];
    pills := PushIf(pills, LocationPill, c.location != "");
    pills := PushIf(pills, PricePill, IsSet(c.priceMin) || IsSet(c.priceMax));
    pills := PushIf(pills, PropertyTypePill, c.propertyType != "");
    pills := PushIf(pills, BedroomsPill, IsSet(c.bedroomsMin));
    pills := PushIf(pills, BathroomsPill, IsSet(c.bathroomsMin));
  }

  /** Pills in strictly increasing rank: the fixed order, each at most once. */
  predicate RankAscending(pills: seq<PillKey>) {
    forall i, j :: 0 <= i < j < |pills| ==> PillRank(pills[i]) < PillRank(pills[j])
  }

  /** Every pill so far ranks below `r`. */
  predicate RanksBelow(pills: seq<PillKey>, r: nat) {
    forall i :: 0 <= i < |pills| ==> PillRank(pills[i]) < r
  }

  /**
   * One `if (criterion) pills.push(...)`: the pill is added at the end when
   * its criterion is truthy; it ranks above every pill before it.
   */
  method PushIf(pills: seq<PillKey>, k: PillKey, shown: bool) returns (next: seq<PillKey>)
    requires RankAscending(pills) && RanksBelow(pills, PillRank(k)) && |pills| <= PillRank(k)
    ensures forall x :: x in next <==> x in pills || (shown && x == k)
    ensures RankAscending(next) && RanksBelow(next, PillRank(k) + 1) && |next| <= PillRank(k) + 1
  {
    next := pills;
    if shown {
      next := pills + [k];
    }
  }

  /** The pill that stands for a step. */
  function PillOf(step: Step): PillKey {
    match step
    case LocationStep(_) => LocationPill
    case PriceMinStep(_) => PricePill
    case PriceMaxStep(_) => PricePill
    case BedroomsMinStep(_) => BedroomsPill
    case BathroomsMinStep(_) => BathroomsPill
    case TypeStep(_) => PropertyTypePill
  }

  /** The steps `applyFilters` runs are exactly one per truthy criterion, with its value. */
  lemma ActiveStepsMembers(c: Criteria, x: Step)
    ensures x in ActiveSteps(c) <==>
      || (c.location != "" && x == LocationStep(c.location))
      || (IsSet(c.priceMin) && x == PriceMinStep(c.priceMin.value))
      || (IsSet(c.priceMax) && x == PriceMaxStep(c.priceMax.value))
      || (IsSet(c.bedroomsMin) && x == BedroomsMinStep(c.bedroomsMin.value))
      || (IsSet(c.bathroomsMin) && x == BathroomsMinStep(c.bathroomsMin.value))
      || (c.propertyType != "" && x == TypeStep(c.propertyType))
  {
    var a := StepIf(c.location != "", LocationStep(c.location));
    var b := StepIf(IsSet(c.priceMin), PriceMinStep(c.priceMin.GetOr(0)));
    var d := StepIf(IsSet(c.priceMax), PriceMaxStep(c.priceMax.GetOr(0)));
    var e := StepIf(IsSet(c.bedroomsMin), BedroomsMinStep(c.bedroomsMin.GetOr(0)));
    var f := StepIf(IsSet(c.bathroomsMin), BathroomsMinStep(c.bathroomsMin.GetOr(0)));
    var g := StepIf(c.propertyType != "", TypeStep(c.propertyType));
    assert ActiveSteps(c) == a + b + d + e + f + g;
    InStepIf(c.location != "", LocationStep(c.location), x);
    InStepIf(IsSet(c.priceMin), PriceMinStep(c.priceMin.GetOr(0)), x);
    InStepIf(IsSet(c.priceMax), PriceMaxStep(c.priceMax.GetOr(0)), x);
    InStepIf(IsSet(c.bedroomsMin), BedroomsMinStep(c.bedroomsMin.GetOr(0)), x);
    InStepIf(IsSet(c.bathroomsMin), BathroomsMinStep(c.bathroomsMin.GetOr(0)), x);
    InStepIf(c.propertyType != "", TypeStep(c.propertyType), x);
  }

  lemma InStepIf(active: bool, step: Step, x: Step)
    ensures x in StepIf(active, step) <==> active && x == step
  {
  }

  /**
   * The pills describe the filtering exactly: a pill is shown iff some step
   * that `applyFilters` runs belongs to it, so no pills means no filtering.
   */
  lemma PillsMatchSteps(c: Criteria)
    ensures forall k :: PillShown(c, k) <==> exists step :: step in ActiveSteps(c) && PillOf(step) == k
    ensures (forall k :: !PillShown(c, k)) <==> ActiveSteps(c) == []
  {
    forall step | step in ActiveSteps(c)
      ensures PillShown(c, PillOf(step))
    {
      ActiveStepsMembers(c, step);
    }
    forall k | PillShown(c, k)
      ensures exists step :: step in ActiveSteps(c) && PillOf(step) == k
    {
      var step := Witness(c, k);
      ActiveStepsMembers(c, step);
    }
    if ActiveSteps(c) != [] {
      assert ActiveSteps(c)[0] in ActiveSteps(c);
    }
  }

  /** A step of a shown pill. */
  function Witness(c: Criteria, k: PillKey): (step: Step)
    ensures PillOf(step) == k
  {
    match k
    case LocationPill => LocationStep(c.location)
    case PricePill => if IsSet(c.priceMin) then PriceMinStep(c.priceMin.GetOr(0)) else PriceMaxStep(c.priceMax.GetOr(0))
    case PropertyTypePill => TypeStep(c.propertyType)
    case BedroomsPill => BedroomsMinStep(c.bedroomsMin.GetOr(0))
    case BathroomsPill => BathroomsMinStep(c.bathroomsMin.GetOr(0))
  }

  // ---------------------------------------------------------------------
  // removeFilter, clearFilters and the first-load merge
  // ---------------------------------------------------------------------

  /**
   * `removeFilter(key)`: a copy of the criteria whose property named `key`
   * is set to `null` when the name contains "Min" and to `""` otherwise.
   * The price pill's key is "price", which names no criterion: it adds the
   * stray property `price: ""`.
   */
  function RemoveFilter(c: Criteria, k: PillKey): (r: Criteria)
    ensures FieldOfPill(k).Some? ==>
      Get(r, FieldOfPill(k).value) == if IsNumeric(FieldOfPill(k).value) then Number(None) else Text("")
    ensures forall f :: Some(f) != FieldOfPill(k) ==> Get(r, f) == Get(c, f)
    ensures r.priceCleared == (c.priceCleared || k == PricePill)
  {
    match k
    case LocationPill => c.(location := "")
    case PricePill => c.(priceCleared := true)
    case PropertyTypePill => c.(propertyType := "")
    case BedroomsPill => c.(bedroomsMin := None)
    case BathroomsPill => c.(bathroomsMin := None)
  }

  /** The criterion a pill key names, when there is one. */
  function FieldOfPill(k: PillKey): Option<Field> {
    match k
    case LocationPill => Some(Location)
    case PricePill => None
    case PropertyTypePill => Some(PropertyType)
    case BedroomsPill => Some(BedroomsMin)
    case BathroomsPill => Some(BathroomsMin)
  }

  /**
   * `removeFilter` as the source writes it: the named criterion becomes
   * `null` when its name includes "Min", else `""`, and no other criterion
   * changes; for "price" no criterion changes at all.
   */
  lemma RemoveFilterRule(c: Criteria, k: PillKey)
    ensures FieldOfPill(k).Some? ==> FieldName(FieldOfPill(k).value) == PillName(k)
    ensures FieldOfPill(k).Some? ==>
      Get(RemoveFilter(c, k), FieldOfPill(k).value)
        == (if Includes(PillName(k), "Min") then Number(None) else Text(""))
    ensures forall f :: Some(f) != FieldOfPill(k) ==> Get(RemoveFilter(c, k), f) == Get(c, f)
    ensures RemoveFilter(c, k).priceCleared == (c.priceCleared || k == PricePill)
  {
    MinMarksNumericPills(k);
    match k
    case LocationPill =>
    case PricePill =>
    case PropertyTypePill =>
    case BedroomsPill =>
    case BathroomsPill =>
  }

  /** Of the pill keys, exactly the two bedroom and bathroom keys include "Min". */
  lemma MinMarksNumericPills(k: PillKey)
    ensures Includes(PillName(k), "Min") <==> k == BedroomsPill || k == BathroomsPill
  {
    match k
    case LocationPill =>
      NotIncludesMin("location");
    case PricePill =>
      NotIncludesMin("price");
    case PropertyTypePill =>
      NotIncludesMin("propertyType");
    case BedroomsPill =>
      assert OccursAt("bedroomsMin", "Min", 8);
      IncludesAt("bedroomsMin", "Min");
    case BathroomsPill =>
      assert OccursAt("bathroomsMin", "Min", 9);
      IncludesAt("bathroomsMin", "Min");
  }

  /** A name without a capital M does not include "Min". */
  lemma NotIncludesMin(s: string)
    requires 'M' !in s
    ensures !Includes(s, "Min")
  {
    IncludesAt(s, "Min");
    forall i
      ensures !OccursAt(s, "Min", i)
    {
      if 0 <= i && i + 3 <= |s| {
        assert s[i] in s;
        assert s[i..i + 3][0] == s[i];
      }
    }
  }

  /**
   * Removing the price pill as written leaves both price bounds, so the
   * pill is still shown afterwards and the list is filtered exactly as before.
   */
  lemma PricePillSurvivesRemoval(c: Criteria, properties: seq<Property>)
    requires PillShown(c, PricePill)
    ensures PillShown(RemoveFilter(c, PricePill), PricePill)
    ensures Select(properties, ActiveSteps(RemoveFilter(c, PricePill))) == Select(properties, ActiveSteps(c))
  {
  }

  /** Removing any other pill hides that pill and leaves the other pills as they were. */
  lemma RemoveFilterHidesPill(c: Criteria, k: PillKey)
    requires k != PricePill
    ensures !PillShown(RemoveFilter(c, k), k)
    ensures forall j :: j != k ==> PillShown(RemoveFilter(c, k), j) == PillShown(c, j)
  {
  }

  /** `urlSearch || ""` */
  function SearchTerm(urlSearch: Option<string>): string {
    match urlSearch
    case Some(s) => s
    case None => ""
  }

  /**
   * The first-load merge `{ ...filters, location: urlSearch || "", ...savedFilters }`:
   * the URL term fills `location` only when there is no saved preference;
   * a saved preference supplies every criterion, `location` included.
   */
  function InitialFilters(current: Criteria, urlSearch: Option<string>, saved: Option<Criteria>): (r: Criteria)
    ensures saved.None? ==> r == current.(location := SearchTerm(urlSearch))
    ensures saved.Some? ==> forall f :: Get(r, f) == Get(saved.value, f)
    ensures saved.Some? ==> r.priceCleared == (current.priceCleared || saved.value.priceCleared)
  {
    var withUrl := current.(location := SearchTerm(urlSearch));
    match saved
    case None => withUrl
    case Some(s) => s.(priceCleared := withUrl.priceCleared || s.priceCleared)
  }

  // ---------------------------------------------------------------------
  // Page state
  // ---------------------------------------------------------------------

  /** The listing page's state cells and the store it persists preferences in. */
  class ListingPageState {
    var filters: Criteria
    var properties: seq<Property>
    var filteredProperties: seq<Property>
    const store: Store

    constructor (store: Store)
      ensures filters == Cleared && properties == [] && filteredProperties == []
      ensures this.store == store
    {
      filters := Cleared;
      properties := [];
      filteredProperties := [];
      this.store := store;
    }

    /** The first effect: merge the URL search term with the saved preference. */
    method InitializeFilters(urlSearch: Option<string>)
      modifies this
      ensures filters == InitialFilters(old(filters), urlSearch, store.GetFilterPreferences())
      ensures properties == old(properties) && filteredProperties == old(filteredProperties)
    {
      var savedFilters := store.GetFilterPreferences();
      filters := InitialFilters(filters, urlSearch, savedFilters);
    }

    /** `loadProperties` with the records `getAll` resolved to. */
    method LoadProperties(data: seq<Property>)
      modifies this
      ensures properties == data && filters == old(filters) && filteredProperties == old(filteredProperties)
    {
      properties := data;
    }

    /** The filtering effect: the shown list is the records matching the criteria. */
    method Refilter()
      modifies this
      ensures filteredProperties == Select(properties, ActiveSteps(filters))
      ensures filters == old(filters) && properties == old(properties)
    {
      filteredProperties := ApplyFilters(properties, filters);
    }

    /** `handleFiltersChange`: take the new criteria and persist them. */
    method HandleFiltersChange(newFilters: Criteria)
      modifies this, store
      ensures filters == newFilters
      ensures properties == old(properties) && filteredProperties == old(filteredProperties)
      ensures store.writable == old(store.writable)
      ensures !old(store.writable) ==> store.items == old(store.items)
      ensures old(store.writable) ==> store.GetFilterPreferences() == Some(newFilters)
      ensures store.GetSavedProperties() == old(store.GetSavedProperties())
    {
      filters := newFilters;
      store.SaveFilterPreferences(newFilters);
    }

    /** `clearFilters`: back to the cleared record, persisted. */
    method ClearFilters()
      modifies this, store
      ensures filters == Cleared
      ensures properties == old(properties) && filteredProperties == old(filteredProperties)
      ensures store.writable == old(store.writable)
      ensures !old(store.writable) ==> store.items == old(store.items)
      ensures old(store.writable) ==> store.GetFilterPreferences() == Some(Cleared)
      ensures store.GetSavedProperties() == old(store.GetSavedProperties())
    {
      filters := Cleared;
      store.SaveFilterPreferences(Cleared);
    }

    /** `removeFilter(key)`: the criteria without that pill's criterion, persisted. */
    method RemoveFilterPill(k: PillKey)
      modifies this, store
      ensures filters == RemoveFilter(old(filters), k)
      ensures properties == old(properties) && filteredProperties == old(filteredProperties)
      ensures store.writable == old(store.writable)
      ensures !old(store.writable) ==> store.items == old(store.items)
      ensures old(store.writable) ==> store.GetFilterPreferences() == Some(filters)
      ensures store.GetSavedProperties() == old(store.GetSavedProperties())
    {
      var newFilters := RemoveFilter(filters, k);
      filters := newFilters;
      store.SaveFilterPreferences(newFilters);
    }
  }
}
