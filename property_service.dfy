/**
 * The in-memory listing table behind the record service: a module-level
 * array read by `getAll`/`getById`, grown by `push` in `create`, patched by
 * index assignment in `update` and shortened by `splice` in `delete`. The
 * simulated network delay of every operation is not modelled.
 */
module PropertyService {
  import opened Wrappers

  /** A listing record; the fields the browser reads. Numbers are integers. */
  datatype Property = Property(
    id: int,
    title: string,
    address: string,
    propertyType: string,
    price: int,
    bedrooms: int,
    bathrooms: int,
    squareFeet: int,
    yearBuilt: Option<int>,
    features: Option<seq<string>>,
    images: seq<string>,
    description: string)

  /**
   * A partial record spread over a stored one by `update`: each present field
   * replaces the stored value, absent fields keep it. The `id` may be present.
   */
  datatype Patch = Patch(
    id: Option<int>,
    title: Option<string>,
    address: Option<string>,
    propertyType: Option<string>,
    price: Option<int>,
    bedrooms: Option<int>,
    bathrooms: Option<int>,
    squareFeet: Option<int>,
    yearBuilt: Option<Option<int>>,
    features: Option<Option<seq<string>>>,
    images: Option<seq<string>>,
    description: Option<string>)

  /** The message of the error `update` and `delete` throw. */
  const NotFoundMessage: string := "Property not found"

  /** The patch with no field present. */
  const EmptyPatch: Patch := Patch(None, None, None, None, None, None, None, None, None, None, None, None)

  /**
   * `{ ...p, ...u }`: the empty patch changes nothing, and a patch without
   * an `Id` keeps the record's `Id`.
   */
  function Merge(p: Property, u: Patch): (r: Property)
    ensures u == EmptyPatch ==> r == p
    ensures u.id.None? ==> r.id == p.id
    ensures u.id.Some? ==> r.id == u.id.value
  {
    Property(
      u.id.GetOr(p.id), u.title.GetOr(p.title), u.address.GetOr(p.address),
      u.propertyType.GetOr(p.propertyType), u.price.GetOr(p.price),
      u.bedrooms.GetOr(p.bedrooms), u.bathrooms.GetOr(p.bathrooms),
      u.squareFeet.GetOr(p.squareFeet), u.yearBuilt.GetOr(p.yearBuilt),
      u.features.GetOr(p.features), u.images.GetOr(p.images),
      u.description.GetOr(p.description))
  }

  /** `findIndex(p => p.Id === id)`: the first position holding `id`, or none. */
  function FindIndex(s: seq<Property>, id: int): (r: Option<nat>)
    ensures r.None? <==> forall i :: 0 <= i < |s| ==> s[i].id != id
    ensures r.Some? ==> r.value < |s| && s[r.value].id == id
    ensures r.Some? ==> forall j :: 0 <= j < r.value ==> s[j].id != id
  {
    if s == [] then None
    else if s[0].id == id then Some(0)
    else match FindIndex(s[1..], id)
      case None => None
      case Some(k) => Some(k + 1)
  }

  /** `Math.max(...s.map(p => p.Id))` of a non-empty table. */
  function MaxId(s: seq<Property>): (m: int)
    requires |s| > 0
    ensures forall i :: 0 <= i < |s| ==> s[i].id <= m
    ensures exists i :: 0 <= i < |s| && s[i].id == m
  {
    if |s| == 1 then s[0].id
    else
      var rest := MaxId(s[1..]);
      assert forall i :: 1 <= i < |s| ==> s[i] == s[1..][i - 1];
      if s[0].id >= rest then s[0].id else rest
  }

  /** No two records of the table share an `Id`. */
  predicate UniqueIds(s: seq<Property>) {
    forall i, j :: 0 <= i < j < |s| ==> s[i].id != s[j].id
  }

  class PropertyTable {
    /** `propertyData`, in table order. */
    var data: seq<Property>

    constructor (initial: seq<Property>)
      ensures data == initial
    {
      data := initial;
    }

    /** `getAll`: a copy of every record, in table order; the table is not touched. */
    method GetAll() returns (r: seq<Property>)
      ensures r == data
    {
      r := data;
    }

    /** `getById`: the first record with that `Id`, or `null` when there is none. */
    method GetById(id: int) returns (r: Option<Property>)
      ensures r.None? <==> forall p :: p in data ==> p.id != id
      ensures r.Some? ==> exists i :: 0 <= i < |data| && data[i] == r.value
                            && r.value.id == id
                            && forall j :: 0 <= j < i ==> data[j].id != id
    {
      match FindIndex(data, id)
      case None =>
        r := None;
      case Some(i) =>
        r := Some(data[i]);
    }

    /**
     * `create`: the record gets the `Id` one above the largest in the table
     * (so unlike every existing one) and is appended.
     */
    method Create(record: Property) returns (r: Property)
      requires |data| > 0
      modifies this
      ensures r == record.(id := MaxId(old(data)) + 1)
      ensures forall p :: p in old(data) ==> p.id < r.id
      ensures data == old(data) + [r]
      ensures UniqueIds(old(data)) ==> UniqueIds(data)
    {
      var maxId := MaxId(data);
      r := record.(id := maxId + 1);
      data := data + [r];
    }

    /**
     * `update`: throws "Property not found" when no record has the `Id`;
     * otherwise the first such record is replaced, in place, by itself with
     * the patch spread over it, and the merged record is returned.
     */
    method Update(id: int, u: Patch) returns (r: Result<Property>)
      modifies this
      ensures FindIndex(old(data), id).None? ==> r == Err(NotFoundMessage) && data == old(data)
      ensures FindIndex(old(data), id).Some? ==>
                var i := FindIndex(old(data), id).value;
                r == Ok(Merge(old(data)[i], u)) && data == old(data)[i := r.value]
      ensures |data| == |old(data)|
    {
      match FindIndex(data, id)
      case None =>
        r := Err(NotFoundMessage);
      case Some(i) =>
        data := data[i := Merge(data[i], u)];
        r := Ok(data[i]);
    }

    /**
     * `delete`: throws "Property not found" when no record has the `Id`;
     * otherwise the first such record is spliced out and returned, the rest
     * keeping their order.
     */
    method Delete(id: int) returns (r: Result<Property>)
      modifies this
      ensures FindIndex(old(data), id).None? ==> r == Err(NotFoundMessage) && data == old(data)
      ensures FindIndex(old(data), id).Some? ==>
                var i := FindIndex(old(data), id).value;
                r == Ok(old(data)[i]) && data == old(data)[..i] + old(data)[i + 1..]
      ensures UniqueIds(old(data)) ==> UniqueIds(data)
    {
      match FindIndex(data, id)
      case None =>
        r := Err(NotFoundMessage);
      case Some(i) =>
        r := Ok(data[i]);
        data := data[..i] + data[i + 1..];
    }
  }

  /** Updating with a patch that carries no `Id` keeps the `Id`s unique. */
  lemma UpdateKeepsUniqueIds(s: seq<Property>, i: nat, u: Patch)
    requires UniqueIds(s) && i < |s| && u.id.None?
    ensures UniqueIds(s[i := Merge(s[i], u)])
  {
  }

  /**
   * A patch that does carry an `Id` can give two records the same `Id`:
   * `update` does not check it.
   */
  lemma UpdateCanDuplicateIds(a: Property, b: Property, u: Patch)
    requires a.id != b.id && u.id == Some(b.id)
    ensures UniqueIds([a, b]) && !UniqueIds([a, b][0 := Merge(a, u)])
  {
    assert [a, b][0 := Merge(a, u)][0].id == [a, b][0 := Merge(a, u)][1].id;
  }
}
