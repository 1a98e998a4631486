/** The category collections: asset classes, routes, instrument categories
    and AMFI categories. Each collection is the sequence of its documents in
    natural (insertion) order, so `findOne` is the first match. Documents get
    their `_id` from a counter shared by the collections. */
module CategoryModel {
  import opened Wrappers

  /** A document `_id`. */
  type ObjectId = nat

  /** The `status` of an AMFI category: `'set'` once it is linked to an
      instrument category, `'unset'` otherwise. */
  datatype Status = Set | Unset

  /** An `AmfiCategory` document: its name, its status and the instrument
      category it is linked to (`instrumentCategorySchema`). */
  datatype AmfiCategoryDoc = AmfiCategoryDoc(id: ObjectId, name: string, status: Status, instrumentCategory: Option<ObjectId>)

  datatype AssetClassDoc = AssetClassDoc(id: ObjectId, name: string)

  /** A `Route` document: a route name under one asset class. */
  datatype RouteDoc = RouteDoc(id: ObjectId, name: string, assetClassId: ObjectId)

  /** The `range` of an instrument category (`min`, `max`). */
  datatype Range = Range(min: int, max: int)

  /** An `InstrumentCategory` document. `assetClass` and `route` are the names
      copied from the seed entry, `routeId` the route document it hangs on. */
  datatype InstrumentCategoryDoc =
    InstrumentCategoryDoc(id: ObjectId, name: string, assetClass: string, route: string, routeId: ObjectId, range: Option<Range>)

  // ---------------------------------------------------------------------------
  // Queries

  /** `findOne`: the index of the first document satisfying `p`, if any. */
  function FirstWhere<T>(docs: seq<T>, p: T -> bool): (r: Option<nat>)
    ensures r.Some? ==> r.value < |docs| && p(docs[r.value])
    ensures r.Some? ==> forall j | 0 <= j < r.value :: !p(docs[j])
    ensures r.None? ==> forall j | 0 <= j < |docs| :: !p(docs[j])
    decreases |docs|
  {
    if docs == [] then None
    else if p(docs[0]) then Some(0)
    else
      match FirstWhere(docs[1..], p)
      case None => None
      case Some(k) => Some(k + 1)
  }

  /** Ids strictly increase along the collection and are all below `bound`:
      the shape a counter gives them. */
  predicate IdsOrdered<T>(docs: seq<T>, idOf: T -> ObjectId, bound: nat) {
    (forall i, j | 0 <= i < j < |docs| :: idOf(docs[i]) < idOf(docs[j]))
    && (forall i | 0 <= i < |docs| :: idOf(docs[i]) < bound)
  }

  /** A collection keeps its id order when a document with the next id is
      appended. */
  lemma IdsOrderedAppend<T>(docs: seq<T>, idOf: T -> ObjectId, bound: nat, d: T)
    requires IdsOrdered(docs, idOf, bound) && idOf(d) == bound
    ensures IdsOrdered(docs + [d], idOf, bound + 1)
  {
    var s := docs + [d];
    assert forall i | 0 <= i < |docs| :: s[i] == docs[i];
  }

  /** A request id: exactly 24 hexadecimal digits, in either letter case,
      read as a base-16 number below 16^24; any other text does not cast to
      an id. */
  function ObjectIdOf(s: string): (r: Option<ObjectId>)
    ensures r.Some? <==> |s| == 24 && AllHex(s)
    ensures r.Some? ==> r.value < Pow16(24)
  {
    if |s| == 24 then HexValue(s) else None
  }

  function HexDigit(c: char): Option<nat> {
    if '0' <= c <= '9' then Some(c as int - '0' as int)
    else if 'a' <= c <= 'f' then Some(c as int - 'a' as int + 10)
    else if 'A' <= c <= 'F' then Some(c as int - 'A' as int + 10)
    else None
  }

  predicate AllHex(s: string) {
    forall c | c in s :: HexDigit(c).Some?
  }

  function Pow16(n: nat): nat {
    if n == 0 then 1 else 16 * Pow16(n - 1)
  }

  /** The base-16 reading of a text, most significant digit first: defined
      exactly on texts of hexadecimal digits, and below 16 to the power of
      the text's length. */
  function HexValue(s: string): (r: Option<nat>)
    ensures r.Some? <==> AllHex(s)
    ensures r.Some? ==> r.value < Pow16(|s|)
    decreases |s|
  {
    if s == [] then Some(0)
    else
      var pre := s[..|s| - 1];
      assert forall c | c in pre :: c in s;
      assert s == pre + [s[|s| - 1]];
      match (HexValue(pre), HexDigit(s[|s| - 1]))
      case (Some(v), Some(d)) => Some(v * 16 + d)
      case _ => None
  }

  /** The lowercase digit of a value below 16. */
  function HexChar(d: nat): char
    requires d < 16
  {
    if d < 10 then ('0' as int + d) as char else ('a' as int + d - 10) as char
  }

  /** `n` lowercase hexadecimal digits of `v`, as `ObjectId.toString()`
      renders an id. */
  function HexText(v: nat, n: nat): (s: string)
    ensures |s| == n
  {
    if n == 0 then "" else HexText(v / 16, n - 1) + [HexChar(v % 16)]
  }

  lemma {:induction false} HexValueHexText(v: nat, n: nat)
    requires v < Pow16(n)
    ensures HexValue(HexText(v, n)) == Some(v)
  {
    if n > 0 {
      var s := HexText(v, n);
      HexValueHexText(v / 16, n - 1);
      assert s[..|s| - 1] == HexText(v / 16, n - 1);
    }
  }

  /** An id rendered as text casts back to the same id. */
  lemma ObjectIdOfHexText(id: ObjectId)
    requires id < Pow16(24)
    ensures ObjectIdOf(HexText(id, 24)) == Some(id)
  {
    HexValueHexText(id, 24);
  }

  /** No two asset classes share an id. */
  predicate AssetClassIdsUnique(docs: seq<AssetClassDoc>) {
    forall i, j | 0 <= i < |docs| && 0 <= j < |docs| && docs[i].id == docs[j].id :: i == j
  }

  /** The names of the AMFI categories. */
  function Names(docs: seq<AmfiCategoryDoc>): set<string> {
    set i | 0 <= i < |docs| :: docs[i].name
  }

  /** No two AMFI categories share a name. */
  predicate NamesUnique(docs: seq<AmfiCategoryDoc>) {
    forall i, j | 0 <= i < j < |docs| :: docs[i].name != docs[j].name
  }

  lemma NamesSnoc(docs: seq<AmfiCategoryDoc>, d: AmfiCategoryDoc)
    ensures Names(docs + [d]) == Names(docs) + {d.name}
  {
    var s := docs + [d];
    assert s[|docs|] == d;
    assert forall i | 0 <= i < |docs| :: s[i] == docs[i];
  }

  // ---------------------------------------------------------------------------
  // The store

  /** The four category collections and the id counter. */
  class CategoryStore {
    var assetClasses: seq<AssetClassDoc>
    var routes: seq<RouteDoc>
    var instrumentCategories: seq<InstrumentCategoryDoc>
    var amfiCategories: seq<AmfiCategoryDoc>
    var nextId: ObjectId

    /** Every collection's ids come from the counter, in order. */
    ghost predicate Valid()
      reads this
    {
      IdsOrdered(assetClasses, (d: AssetClassDoc) => d.id, nextId)
      && IdsOrdered(routes, (d: RouteDoc) => d.id, nextId)
      && IdsOrdered(instrumentCategories, (d: InstrumentCategoryDoc) => d.id, nextId)
      && IdsOrdered(amfiCategories, (d: AmfiCategoryDoc) => d.id, nextId)
    }

    /** Ids from the counter never repeat. */
    lemma AssetClassIdsDistinct()
      requires Valid()
      ensures AssetClassIdsUnique(assetClasses)
    {
      assert forall i, j | 0 <= i < j < |assetClasses| :: assetClasses[i].id < assetClasses[j].id;
    }

    constructor ()
      ensures Valid()
      ensures assetClasses == [] && routes == [] && instrumentCategories == [] && amfiCategories == []
    {
      assetClasses, routes, instrumentCategories, amfiCategories := [], [], [], [];
      nextId := 0;
    }

    /** `new AssetClass({name}).save()`. */
    method InsertAssetClass(name: string) returns (doc: AssetClassDoc)
      requires Valid()
      modifies this
      ensures Valid()
      ensures doc == AssetClassDoc(old(nextId), name) && nextId == old(nextId) + 1
      ensures assetClasses == old(assetClasses) + [doc]
      ensures routes == old(routes) && instrumentCategories == old(instrumentCategories)
      ensures amfiCategories == old(amfiCategories)
    {
      doc := AssetClassDoc(nextId, name);
      IdsOrderedAppend(assetClasses, (d: AssetClassDoc) => d.id, nextId, doc);
      assetClasses := assetClasses + [doc];
      nextId := nextId + 1;
    }

    /** `new Route({name, assetClassID}).save()`. */
    method InsertRoute(name: string, assetClassId: ObjectId) returns (doc: RouteDoc)
      requires Valid()
      modifies this
      ensures Valid()
      ensures doc == RouteDoc(old(nextId), name, assetClassId) && nextId == old(nextId) + 1
      ensures routes == old(routes) + [doc]
      ensures assetClasses == old(assetClasses) && instrumentCategories == old(instrumentCategories)
      ensures amfiCategories == old(amfiCategories)
    {
      doc := RouteDoc(nextId, name, assetClassId);
      IdsOrderedAppend(routes, (d: RouteDoc) => d.id, nextId, doc);
      routes := routes + [doc];
      nextId := nextId + 1;
    }

    /** `new InstrumentCategory({...}).save()`. */
    method InsertInstrumentCategory(name: string, assetClass: string, route: string, routeId: ObjectId, range: Option<Range>)
      returns (doc: InstrumentCategoryDoc)
      requires Valid()
      modifies this
      ensures Valid()
      ensures doc == InstrumentCategoryDoc(old(nextId), name, assetClass, route, routeId, range)
      ensures nextId == old(nextId) + 1
      ensures instrumentCategories == old(instrumentCategories) + [doc]
      ensures assetClasses == old(assetClasses) && routes == old(routes)
      ensures amfiCategories == old(amfiCategories)
    {
      doc := InstrumentCategoryDoc(nextId, name, assetClass, route, routeId, range);
      IdsOrderedAppend(instrumentCategories, (d: InstrumentCategoryDoc) => d.id, nextId, doc);
      instrumentCategories := instrumentCategories + [doc];
      nextId := nextId + 1;
    }

    /** `new AmfiCategory({name, status: 'unset'}).save()`: a new category is
        unset and linked to nothing. */
    method InsertAmfiCategory(name: string) returns (doc: AmfiCategoryDoc)
      requires Valid()
      modifies this
      ensures Valid()
      ensures doc == AmfiCategoryDoc(old(nextId), name, Unset, None) && nextId == old(nextId) + 1
      ensures amfiCategories == old(amfiCategories) + [doc]
      ensures assetClasses == old(assetClasses) && routes == old(routes)
      ensures instrumentCategories == old(instrumentCategories)
    {
      doc := AmfiCategoryDoc(nextId, name, Unset, None);
      IdsOrderedAppend(amfiCategories, (d: AmfiCategoryDoc) => d.id, nextId, doc);
      amfiCategories := amfiCategories + [doc];
      nextId := nextId + 1;
    }

    /** Writes back the AMFI category at index `i` with new field values; its
        id is kept. */
    method ReplaceAmfiCategory(i: nat, doc: AmfiCategoryDoc)
      requires Valid() && i < |amfiCategories| && doc.id == amfiCategories[i].id
      modifies this
      ensures Valid()
      ensures amfiCategories == old(amfiCategories)[i := doc]
      ensures assetClasses == old(assetClasses) && routes == old(routes)
      ensures instrumentCategories == old(instrumentCategories) && nextId == old(nextId)
    {
      amfiCategories := amfiCategories[i := doc];
    }
  }
}
