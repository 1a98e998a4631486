/** `populateCategories`: seeds the asset classes, the routes under them and
    the instrument categories under the routes from three constant tables,
    finding each record before creating it. */
module CategorySeed {
  import opened Wrappers
  import opened CategoryModel

  // ---------------------------------------------------------------------------
  // The seed tables

  datatype AssetClassSeed = AssetClassSeed(name: string)
  datatype RouteSeed = RouteSeed(name: string, assetClassName: string)
  datatype InstrumentSeed = InstrumentSeed(name: string, routeName: string, assetClassName: string, range: Option<Range>)

  /** The summary returned on success. */
  datatype Summary = Summary(assetClasses: nat, routes: nat, instrumentCategories: nat)

  const AssetClassSeeds: seq<AssetClassSeed> := [
    AssetClassSeed("Equity"),
    AssetClassSeed("Debt"),
    AssetClassSeed("Commodity")
  ]

  const RouteSeeds: seq<RouteSeed> := [
    RouteSeed("Mutual Funds", "Equity"),
    RouteSeed("Core Direct", "Equity"),
    RouteSeed("Tactical", "Equity"),
    RouteSeed("Mutual Funds", "Debt"),
    RouteSeed("Direct Debt", "Debt"),
    RouteSeed("Venture Debt", "Debt"),
    RouteSeed("Mutual Funds", "Commodity")
  ]

  const InstrumentSeeds: seq<InstrumentSeed> := [
    InstrumentSeed("MF International", "Mutual Funds", "Equity", None),
    InstrumentSeed("ETF Large Cap", "Mutual Funds", "Equity", None),
    InstrumentSeed("MF Blue Chip", "Mutual Funds", "Equity", None),
    InstrumentSeed("MF Mid Cap", "Mutual Funds", "Equity", None),
    InstrumentSeed("MF Small Cap", "Mutual Funds", "Equity", None),
    InstrumentSeed("MF Sectoral", "Mutual Funds", "Equity", None),
    InstrumentSeed("MF Thematic", "Mutual Funds", "Equity", None),
    InstrumentSeed("MF Flexicap", "Mutual Funds", "Equity", None),
    InstrumentSeed("Large Cap", "Core Direct", "Equity", Some(Range(300, 1000))),
    InstrumentSeed("Mid Cap", "Core Direct", "Equity", Some(Range(200, 300))),
    InstrumentSeed("Small Cap", "Core Direct", "Equity", Some(Range(100, 200))),
    InstrumentSeed("Micro Cap", "Core Direct", "Equity", Some(Range(0, 100))),
    InstrumentSeed("Tactical Direct", "Tactical", "Equity", None),
    InstrumentSeed("Tactical F&O", "Tactical", "Equity", None),
    InstrumentSeed("MF Short Term", "Mutual Funds", "Debt", None),
    InstrumentSeed("MF Mid Term", "Mutual Funds", "Debt", None),
    InstrumentSeed("MF Long Term", "Mutual Funds", "Debt", None),
    InstrumentSeed("MF Dynamic", "Mutual Funds", "Debt", None),
    InstrumentSeed("MF Credit Risk", "Mutual Funds", "Debt", None),
    InstrumentSeed("Direct Short Term", "Direct Debt", "Debt", None),
    InstrumentSeed("Direct Mid Term", "Direct Debt", "Debt", None),
    InstrumentSeed("Venture Debt", "Venture Debt", "Debt", None),
    InstrumentSeed("Gold", "Mutual Funds", "Commodity", None)
  ]

  // ---------------------------------------------------------------------------
  // Queries

  /** `AssetClass.findOne({name})`. */
  function FindAssetClass(docs: seq<AssetClassDoc>, name: string): (r: Option<nat>)
    ensures r.Some? ==> r.value < |docs| && docs[r.value].name == name
    ensures r.Some? ==> forall j | 0 <= j < r.value :: docs[j].name != name
    ensures r.None? ==> forall j | 0 <= j < |docs| :: docs[j].name != name
  {
    FirstWhere(docs, (d: AssetClassDoc) => d.name == name)
  }

  /** `Route.findOne({name, assetClassID})`. */
  function FindRoute(docs: seq<RouteDoc>, name: string, assetClassId: ObjectId): (r: Option<nat>)
    ensures r.Some? ==> r.value < |docs| && docs[r.value].name == name && docs[r.value].assetClassId == assetClassId
    ensures r.Some? ==> forall j | 0 <= j < r.value :: !(docs[j].name == name && docs[j].assetClassId == assetClassId)
    ensures r.None? ==> forall j | 0 <= j < |docs| :: !(docs[j].name == name && docs[j].assetClassId == assetClassId)
  {
    FirstWhere(docs, (d: RouteDoc) => d.name == name && d.assetClassId == assetClassId)
  }

  /** `InstrumentCategory.findOne({name, routeID})`. */
  function FindInstrument(docs: seq<InstrumentCategoryDoc>, name: string, routeId: ObjectId): (r: Option<nat>)
    ensures r.Some? ==> r.value < |docs| && docs[r.value].name == name && docs[r.value].routeId == routeId
    ensures r.Some? ==> forall j | 0 <= j < r.value :: !(docs[j].name == name && docs[j].routeId == routeId)
    ensures r.None? ==> forall j | 0 <= j < |docs| :: !(docs[j].name == name && docs[j].routeId == routeId)
  {
    FirstWhere(docs, (d: InstrumentCategoryDoc) => d.name == name && d.routeId == routeId)
  }

  /** A query that found a document keeps finding it when documents are
      appended; one that found none finds the appended document if it
      matches. */
  lemma FindAssetClassAppend(docs: seq<AssetClassDoc>, d: AssetClassDoc, name: string)
    ensures FindAssetClass(docs + [d], name)
            == if FindAssetClass(docs, name).Some? then FindAssetClass(docs, name)
               else if d.name == name then Some(|docs|) else None
  {
    var s := docs + [d];
    assert forall j | 0 <= j < |docs| :: s[j] == docs[j];
    assert s[|docs|] == d;
  }

  lemma FindRouteAppend(docs: seq<RouteDoc>, d: RouteDoc, name: string, assetClassId: ObjectId)
    ensures FindRoute(docs + [d], name, assetClassId)
            == if FindRoute(docs, name, assetClassId).Some? then FindRoute(docs, name, assetClassId)
               else if d.name == name && d.assetClassId == assetClassId then Some(|docs|) else None
  {
    var s := docs + [d];
    assert forall j | 0 <= j < |docs| :: s[j] == docs[j];
    assert s[|docs|] == d;
  }

  lemma FindInstrumentAppend(docs: seq<InstrumentCategoryDoc>, d: InstrumentCategoryDoc, name: string, routeId: ObjectId)
    ensures FindInstrument(docs + [d], name, routeId)
            == if FindInstrument(docs, name, routeId).Some? then FindInstrument(docs, name, routeId)
               else if d.name == name && d.routeId == routeId then Some(|docs|) else None
  {
    var s := docs + [d];
    assert forall j | 0 <= j < |docs| :: s[j] == docs[j];
    assert s[|docs|] == d;
  }

  // ---------------------------------------------------------------------------
  // Step 1: asset classes

  /** After `i` seeds, `created` holds, seed by seed, the asset class
      `findOne` returns for the seed's name. */
  ghost predicate AssetClassesResolved(docs: seq<AssetClassDoc>, seeds: seq<AssetClassSeed>, created: seq<AssetClassDoc>)
  {
    |created| <= |seeds|
    && forall j | 0 <= j < |created| ::
         created[j].name == seeds[j].name && FindAssetClass(docs, seeds[j].name).Some?
         && docs[FindAssetClass(docs, seeds[j].name).value] == created[j]
  }

  lemma AssetClassesResolvedAppend(docs: seq<AssetClassDoc>, seeds: seq<AssetClassSeed>, created: seq<AssetClassDoc>, d: AssetClassDoc)
    requires AssetClassesResolved(docs, seeds, created)
    requires FindAssetClass(docs, d.name).None?
    ensures AssetClassesResolved(docs + [d], seeds, created)
  {
    forall j | 0 <= j < |created|
      ensures FindAssetClass(docs + [d], seeds[j].name) == FindAssetClass(docs, seeds[j].name)
    {
      FindAssetClassAppend(docs, d, seeds[j].name);
    }
    var s := docs + [d];
    assert forall j | 0 <= j < |docs| :: s[j] == docs[j];
  }

  /** Every seed's name has an asset class. */
  ghost predicate AssetClassesPresent(docs: seq<AssetClassDoc>, seeds: seq<AssetClassSeed>) {
    forall i | 0 <= i < |seeds| :: FindAssetClass(docs, seeds[i].name).Some?
  }

  predicate SeedName(seeds: seq<AssetClassSeed>, name: string) {
    exists i | 0 <= i < |seeds| :: seeds[i].name == name
  }

  /** One round of step 1's loop, for the seed at `|created|`: it keeps what
      the loop promises about the asset classes created since `before`, and
      resolves one more seed. */
  method PopulateAssetClass(store: CategoryStore, seeds: seq<AssetClassSeed>, created: seq<AssetClassDoc>,
                            ghost before: seq<AssetClassDoc>, ghost nextIdBefore: nat)
    returns (doc: AssetClassDoc)
    requires store.Valid() && |created| < |seeds|
    requires before <= store.assetClasses && AssetClassesResolved(store.assetClasses, seeds, created)
    requires forall j | |before| <= j < |store.assetClasses| :: SeedName(seeds, store.assetClasses[j].name)
    requires AssetClassesPresent(before, seeds) ==> store.assetClasses == before && store.nextId == nextIdBefore
    modifies store
    ensures store.Valid()
    ensures store.routes == old(store.routes) && store.instrumentCategories == old(store.instrumentCategories)
    ensures store.amfiCategories == old(store.amfiCategories)
    ensures before <= store.assetClasses && AssetClassesResolved(store.assetClasses, seeds, created + [doc])
    ensures forall j | |before| <= j < |store.assetClasses| :: SeedName(seeds, store.assetClasses[j].name)
    ensures AssetClassesPresent(before, seeds) ==> store.assetClasses == before && store.nextId == nextIdBefore
  {
    var name := seeds[|created|].name;
    var existing := FindAssetClass(store.assetClasses, name);
    if existing.None? {
      ghost var docs := store.assetClasses;
      doc := store.InsertAssetClass(name);
      AssetClassesResolvedAppend(docs, seeds, created, doc);
      FindAssetClassAppend(docs, doc, name);
      assert SeedName(seeds, doc.name) by { assert seeds[|created|].name == doc.name; }
    } else {
      doc := store.assetClasses[existing.value];
    }
  }

  /** Step 1 of `populateCategories`: find or create each asset class by
      name. `created` lines up with the seeds; only seed names are created,
      and nothing is created when every name is present. */
  method PopulateAssetClasses(store: CategoryStore, seeds: seq<AssetClassSeed>) returns (created: seq<AssetClassDoc>)
    requires store.Valid()
    modifies store
    ensures store.Valid()
    ensures store.routes == old(store.routes) && store.instrumentCategories == old(store.instrumentCategories)
    ensures store.amfiCategories == old(store.amfiCategories)
    ensures old(store.assetClasses) <= store.assetClasses
    ensures |created| == |seeds| && AssetClassesResolved(store.assetClasses, seeds, created)
    ensures forall j | |old(store.assetClasses)| <= j < |store.assetClasses| :: SeedName(seeds, store.assetClasses[j].name)
    ensures AssetClassesPresent(old(store.assetClasses), seeds) ==>
              store.assetClasses == old(store.assetClasses) && store.nextId == old(store.nextId)
  {
    created := [];
    for i := 0 to |seeds|
      invariant store.Valid()
      invariant store.routes == old(store.routes) && store.instrumentCategories == old(store.instrumentCategories)
      invariant store.amfiCategories == old(store.amfiCategories)
      invariant old(store.assetClasses) <= store.assetClasses
      invariant |created| == i && AssetClassesResolved(store.assetClasses, seeds, created)
      invariant forall j | |old(store.assetClasses)| <= j < |store.assetClasses| :: SeedName(seeds, store.assetClasses[j].name)
      invariant AssetClassesPresent(old(store.assetClasses), seeds) ==>
                  store.assetClasses == old(store.assetClasses) && store.nextId == old(store.nextId)
    {
      var doc := PopulateAssetClass(store, seeds, created, old(store.assetClasses), old(store.nextId));
      created := created + [doc];
    }
  }

  /** The id of the asset class `findOne` returns for a name. */
  function AcIdFor(docs: seq<AssetClassDoc>, name: string): Option<ObjectId> {
    match FindAssetClass(docs, name)
    case None => None
    case Some(k) => Some(docs[k].id)
  }

  /** `new Map(createdAssetClasses.map((ac) => [ac.name, ac._id]))`: a later
      pair overwrites an earlier one with the same name. */
  function AssetClassMap(created: seq<AssetClassDoc>): map<string, ObjectId>
    decreases |created|
  {
    if created == [] then map[]
    else
      var ac := created[|created| - 1];
      AssetClassMap(created[..|created| - 1])[ac.name := ac.id]
  }

  /** The name map of step 1 holds exactly the seed names, each with the id
      of the asset class `findOne` returns for it. */
  lemma {:induction false} AssetClassMapOf(docs: seq<AssetClassDoc>, seeds: seq<AssetClassSeed>, created: seq<AssetClassDoc>)
    requires AssetClassesResolved(docs, seeds, created)
    ensures forall n :: n in AssetClassMap(created) <==> exists j | 0 <= j < |created| :: seeds[j].name == n
    ensures forall n | n in AssetClassMap(created) :: AcIdFor(docs, n) == Some(AssetClassMap(created)[n])
    decreases |created|
  {
    if created != [] {
      var pre := created[..|created| - 1];
      assert AssetClassesResolved(docs, seeds, pre);
      AssetClassMapOf(docs, seeds, pre);
    }
  }

  // ---------------------------------------------------------------------------
  // Step 2: routes

  /** After some seeds, `created` holds, seed by seed, the route `findOne`
      returns for the seed's name under its asset class's id. */
  ghost predicate RoutesResolved(docs: seq<RouteDoc>, seeds: seq<RouteSeed>, acMap: map<string, ObjectId>, created: seq<RouteDoc>)
  {
    |created| <= |seeds|
    && forall j | 0 <= j < |created| ::
         seeds[j].assetClassName in acMap
         && FindRoute(docs, seeds[j].name, acMap[seeds[j].assetClassName]).Some?
         && docs[FindRoute(docs, seeds[j].name, acMap[seeds[j].assetClassName]).value] == created[j]
  }

  lemma RoutesResolvedAppend(docs: seq<RouteDoc>, seeds: seq<RouteSeed>, acMap: map<string, ObjectId>, created: seq<RouteDoc>, d: RouteDoc)
    requires RoutesResolved(docs, seeds, acMap, created)
    requires FindRoute(docs, d.name, d.assetClassId).None?
    ensures RoutesResolved(docs + [d], seeds, acMap, created)
  {
    forall j | 0 <= j < |created|
      ensures FindRoute(docs + [d], seeds[j].name, acMap[seeds[j].assetClassName])
              == FindRoute(docs, seeds[j].name, acMap[seeds[j].assetClassName])
    {
      FindRouteAppend(docs, d, seeds[j].name, acMap[seeds[j].assetClassName]);
    }
    var s := docs + [d];
    assert forall j | 0 <= j < |docs| :: s[j] == docs[j];
  }

  /** Every seed route whose asset class is known already exists. */
  ghost predicate RoutesPresent(docs: seq<RouteDoc>, seeds: seq<RouteSeed>, acMap: map<string, ObjectId>) {
    forall i | 0 <= i < |seeds| && seeds[i].assetClassName in acMap ::
      FindRoute(docs, seeds[i].name, acMap[seeds[i].assetClassName]).Some?
  }

  /** A route some seed asks for. */
  predicate SeedRoute(seeds: seq<RouteSeed>, acMap: map<string, ObjectId>, d: RouteDoc) {
    exists i | 0 <= i < |seeds| ::
      seeds[i].assetClassName in acMap && d.name == seeds[i].name && d.assetClassId == acMap[seeds[i].assetClassName]
  }

  /** `Route.findOne({name, assetClassID})`, then `new Route(...).save()`
      when there is none: the route returned is the one the query finds
      afterwards. */
  method FindOrCreateRoute(store: CategoryStore, name: string, assetClassId: ObjectId) returns (doc: RouteDoc)
    requires store.Valid()
    modifies store
    ensures store.Valid()
    ensures store.assetClasses == old(store.assetClasses) && store.instrumentCategories == old(store.instrumentCategories)
    ensures store.amfiCategories == old(store.amfiCategories)
    ensures FindRoute(old(store.routes), name, assetClassId).Some? ==>
              store.routes == old(store.routes) && store.nextId == old(store.nextId)
              && doc == store.routes[FindRoute(old(store.routes), name, assetClassId).value]
    ensures FindRoute(old(store.routes), name, assetClassId).None? ==>
              store.routes == old(store.routes) + [doc] && doc.name == name && doc.assetClassId == assetClassId
    ensures FindRoute(store.routes, name, assetClassId).Some?
    ensures doc == store.routes[FindRoute(store.routes, name, assetClassId).value]
  {
    var existing := FindRoute(store.routes, name, assetClassId);
    if existing.None? {
      ghost var docs := store.routes;
      doc := store.InsertRoute(name, assetClassId);
      FindRouteAppend(docs, doc, name, assetClassId);
    } else {
      doc := store.routes[existing.value];
    }
  }

  /** One round of step 2's loop, for the seed at `i` whose asset class is
      in the map: it keeps what the loop promises about the routes created
      since `before`, and resolves one more seed. */
  method PopulateRoute(store: CategoryStore, seeds: seq<RouteSeed>, acMap: map<string, ObjectId>, created: seq<RouteDoc>,
                       ghost before: seq<RouteDoc>, ghost nextIdBefore: nat)
    returns (doc: RouteDoc)
    requires store.Valid() && |created| < |seeds| && seeds[|created|].assetClassName in acMap
    requires before <= store.routes && RoutesResolved(store.routes, seeds, acMap, created)
    requires forall j | |before| <= j < |store.routes| :: SeedRoute(seeds, acMap, store.routes[j])
    requires RoutesPresent(before, seeds, acMap) ==> store.routes == before && store.nextId == nextIdBefore
    modifies store
    ensures store.Valid()
    ensures store.assetClasses == old(store.assetClasses) && store.instrumentCategories == old(store.instrumentCategories)
    ensures store.amfiCategories == old(store.amfiCategories)
    ensures before <= store.routes && RoutesResolved(store.routes, seeds, acMap, created + [doc])
    ensures forall j | |before| <= j < |store.routes| :: SeedRoute(seeds, acMap, store.routes[j])
    ensures RoutesPresent(before, seeds, acMap) ==> store.routes == before && store.nextId == nextIdBefore
  {
    var route := seeds[|created|];
    ghost var docs := store.routes;
    doc := FindOrCreateRoute(store, route.name, acMap[route.assetClassName]);
    if store.routes != docs {
      RoutesResolvedAppend(docs, seeds, acMap, created, doc);
    }
  }

  /** Step 2 of `populateCategories`: for each route, look its asset class up
      by name, throwing when it is missing, then find or create the route by
      name and asset class id. */
  method PopulateRoutes(store: CategoryStore, seeds: seq<RouteSeed>, acMap: map<string, ObjectId>)
    returns (r: Result<seq<RouteDoc>>)
    requires store.Valid()
    modifies store
    ensures store.Valid()
    ensures store.assetClasses == old(store.assetClasses) && store.instrumentCategories == old(store.instrumentCategories)
    ensures store.amfiCategories == old(store.amfiCategories)
    ensures old(store.routes) <= store.routes
    ensures r.Err? <==> exists i | 0 <= i < |seeds| :: seeds[i].assetClassName !in acMap
    ensures r.Ok? ==> |r.value| == |seeds| && RoutesResolved(store.routes, seeds, acMap, r.value)
    ensures forall j | |old(store.routes)| <= j < |store.routes| :: SeedRoute(seeds, acMap, store.routes[j])
    ensures RoutesPresent(old(store.routes), seeds, acMap) ==>
              store.routes == old(store.routes) && store.nextId == old(store.nextId)
  {
    var created: seq<RouteDoc> := [];
    for i := 0 to |seeds|
      invariant store.Valid()
      invariant store.assetClasses == old(store.assetClasses) && store.instrumentCategories == old(store.instrumentCategories)
      invariant store.amfiCategories == old(store.amfiCategories)
      invariant forall j | 0 <= j < i :: seeds[j].assetClassName in acMap
      invariant old(store.routes) <= store.routes
      invariant |created| == i && RoutesResolved(store.routes, seeds, acMap, created)
      invariant forall j | |old(store.routes)| <= j < |store.routes| :: SeedRoute(seeds, acMap, store.routes[j])
      invariant RoutesPresent(old(store.routes), seeds, acMap) ==>
                  store.routes == old(store.routes) && store.nextId == old(store.nextId)
    {
      var route := seeds[i];
      if route.assetClassName !in acMap {
        return Err("Asset Class not found: " + route.assetClassName);
      }
      var doc := PopulateRoute(store, seeds, acMap, created, old(store.routes), old(store.nextId));
      created := created + [doc];
    }
    return Ok(created);
  }

  // ---------------------------------------------------------------------------
  // The route map

  /** The composite key `${routeName}|${assetClassName}`. */
  function CompositeKey(routeName: string, assetClassName: string): string {
    routeName + "|" + assetClassName
  }

  /** Some asset class of `created` has the id. */
  predicate HasId(created: seq<AssetClassDoc>, id: ObjectId) {
    exists k | 0 <= k < |created| :: created[k].id == id
  }

  /** `createdAssetClasses.find((ac) => ac._id.equals(id)).name`. */
  function AssetClassNameOf(created: seq<AssetClassDoc>, id: ObjectId): (r: string)
    requires HasId(created, id)
    ensures exists k | 0 <= k < |created| :: created[k].id == id && created[k].name == r
  {
    var k := FirstWhere(created, (ac: AssetClassDoc) => ac.id == id);
    created[k.value].name
  }

  /** The route map after `createdRoutes.forEach(...)`: a later route with
      the same composite key overwrites an earlier one. */
  function RouteMapOf(created: seq<AssetClassDoc>, routes: seq<RouteDoc>): map<string, ObjectId>
    requires forall j | 0 <= j < |routes| :: HasId(created, routes[j].assetClassId)
    decreases |routes|
  {
    if routes == [] then map[]
    else
      var route := routes[|routes| - 1];
      RouteMapOf(created, routes[..|routes| - 1])[CompositeKey(route.name, AssetClassNameOf(created, route.assetClassId)) := route.id]
  }

  lemma RouteMapStep(created: seq<AssetClassDoc>, routes: seq<RouteDoc>, i: nat)
    requires i < |routes|
    requires forall j | 0 <= j < |routes| :: HasId(created, routes[j].assetClassId)
    ensures RouteMapOf(created, routes[..i + 1])
            == RouteMapOf(created, routes[..i])[CompositeKey(routes[i].name, AssetClassNameOf(created, routes[i].assetClassId)) := routes[i].id]
  {
    assert routes[..i + 1][..i] == routes[..i];
  }

  /** `routeMap`, filled by `createdRoutes.forEach(...)`. */
  method BuildRouteMap(created: seq<AssetClassDoc>, routes: seq<RouteDoc>) returns (routeMap: map<string, ObjectId>)
    requires forall j | 0 <= j < |routes| :: HasId(created, routes[j].assetClassId)
    ensures routeMap == RouteMapOf(created, routes)
  {
    routeMap := map[];
    for i := 0 to |routes|
      invariant routeMap == RouteMapOf(created, routes[..i])
    {
      RouteMapStep(created, routes, i);
      var route := routes[i];
      var assetClassName := AssetClassNameOf(created, route.assetClassId);
      routeMap := routeMap[CompositeKey(route.name, assetClassName) := route.id];
    }
    assert routes[..|routes|] == routes;
  }

  /** Every route of step 2 hangs on an asset class of step 1, and the name
      found for it by id is the asset class name its seed gave: the ids of
      the collection never repeat. */
  lemma {:induction false} RouteAssetClassNames(
    acDocs: seq<AssetClassDoc>, acSeeds: seq<AssetClassSeed>, created: seq<AssetClassDoc>,
    routeDocs: seq<RouteDoc>, routeSeeds: seq<RouteSeed>, routes: seq<RouteDoc>)
    requires AssetClassIdsUnique(acDocs)
    requires |created| == |acSeeds| && AssetClassesResolved(acDocs, acSeeds, created)
    requires |routes| == |routeSeeds| && RoutesResolved(routeDocs, routeSeeds, AssetClassMap(created), routes)
    ensures forall j | 0 <= j < |routes| :: HasId(created, routes[j].assetClassId)
    ensures RoutesMatchSeeds(created, routes, routeSeeds)
  {
    var acMap := AssetClassMap(created);
    AssetClassMapOf(acDocs, acSeeds, created);
    forall j | 0 <= j < |routes|
      ensures routes[j].name == routeSeeds[j].name && HasId(created, routes[j].assetClassId)
              && AssetClassNameOf(created, routes[j].assetClassId) == routeSeeds[j].assetClassName
    {
      var name := routeSeeds[j].assetClassName;
      var id := routes[j].assetClassId;
      assert id == acMap[name];
      var p := FindAssetClass(acDocs, name).value;
      assert acDocs[p].id == id;
      var k0 :| 0 <= k0 < |created| && acSeeds[k0].name == name;
      assert created[k0] == acDocs[p];
      assert HasId(created, id);
      var found := AssetClassNameOf(created, id);
      var k :| 0 <= k < |created| && created[k].id == id && created[k].name == found;
      var q := FindAssetClass(acDocs, acSeeds[k].name).value;
      assert acDocs[q] == created[k];
      assert q == p;
    }
  }

  /** No two seed routes share a composite key. */
  predicate RouteKeysDistinct(seeds: seq<RouteSeed>) {
    forall i, j | 0 <= i < j < |seeds| ::
      CompositeKey(seeds[i].name, seeds[i].assetClassName) != CompositeKey(seeds[j].name, seeds[j].assetClassName)
  }

  /** The routes of step 2, seed by seed: each has its seed's name and
      hangs on the asset class its seed names. */
  predicate RoutesMatchSeeds(created: seq<AssetClassDoc>, routes: seq<RouteDoc>, seeds: seq<RouteSeed>) {
    |routes| <= |seeds|
    && forall j | 0 <= j < |routes| ::
         routes[j].name == seeds[j].name && HasId(created, routes[j].assetClassId)
         && AssetClassNameOf(created, routes[j].assetClassId) == seeds[j].assetClassName
  }

  lemma RoutesMatchSeedsPrefix(created: seq<AssetClassDoc>, routes: seq<RouteDoc>, seeds: seq<RouteSeed>, n: nat)
    requires RoutesMatchSeeds(created, routes, seeds) && n <= |routes|
    ensures RoutesMatchSeeds(created, routes[..n], seeds)
  {
    var pre := routes[..n];
    assert forall j | 0 <= j < n :: pre[j] == routes[j];
  }

  /** The route map sends a seed's composite key to the route step 2 found
      or created for it, when no later seed has the same key. */
  lemma {:induction false} RouteMapEntry(created: seq<AssetClassDoc>, routes: seq<RouteDoc>, seeds: seq<RouteSeed>, j: nat)
    requires RoutesMatchSeeds(created, routes, seeds) && RouteKeysDistinct(seeds) && j < |routes|
    ensures CompositeKey(seeds[j].name, seeds[j].assetClassName) in RouteMapOf(created, routes)
    ensures RouteMapOf(created, routes)[CompositeKey(seeds[j].name, seeds[j].assetClassName)] == routes[j].id
    decreases |routes|
  {
    var n := |routes| - 1;
    var pre := routes[..n];
    RoutesMatchSeedsPrefix(created, routes, seeds, n);
    var key := CompositeKey(seeds[n].name, seeds[n].assetClassName);
    assert RouteMapOf(created, routes) == RouteMapOf(created, pre)[key := routes[n].id];
    if j < n {
      RouteMapEntry(created, pre, seeds, j);
      assert pre[j] == routes[j];
      assert CompositeKey(seeds[j].name, seeds[j].assetClassName) != key by {
        assert RouteKeysDistinct(seeds);
      }
    }
  }

  /** A key that is seed `j`'s but not seed `n`'s comes from an earlier
      seed. */
  lemma EarlierKey(seeds: seq<RouteSeed>, n: nat, j: nat, k: string)
    requires j <= n < |seeds|
    requires k == CompositeKey(seeds[j].name, seeds[j].assetClassName)
    requires k != CompositeKey(seeds[n].name, seeds[n].assetClassName)
    ensures j < n
  {
  }

  /** The route map has the seeds' composite keys and no other. */
  lemma {:induction false} RouteMapKeys(created: seq<AssetClassDoc>, routes: seq<RouteDoc>, seeds: seq<RouteSeed>)
    requires RoutesMatchSeeds(created, routes, seeds)
    ensures forall k :: k in RouteMapOf(created, routes) <==>
              exists j | 0 <= j < |routes| :: k == CompositeKey(seeds[j].name, seeds[j].assetClassName)
    decreases |routes|
  {
    if routes != [] {
      var n := |routes| - 1;
      var pre := routes[..n];
      RoutesMatchSeedsPrefix(created, routes, seeds, n);
      RouteMapKeys(created, pre, seeds);
      var key := CompositeKey(seeds[n].name, seeds[n].assetClassName);
      assert RouteMapOf(created, routes) == RouteMapOf(created, pre)[key := routes[n].id];
      forall k ensures k in RouteMapOf(created, routes) <==>
                       exists j | 0 <= j < |routes| :: k == CompositeKey(seeds[j].name, seeds[j].assetClassName)
      {
        if k != key && exists j | 0 <= j < |routes| :: k == CompositeKey(seeds[j].name, seeds[j].assetClassName) {
          var j :| 0 <= j < |routes| && k == CompositeKey(seeds[j].name, seeds[j].assetClassName);
          EarlierKey(seeds, n, j, k);
        }
      }
    }
  }

  /** With distinct composite keys, the route map sends each seed's key to
      the route step 2 found or created for it, and has no other key. */
  lemma RouteMapOfSeeds(created: seq<AssetClassDoc>, routes: seq<RouteDoc>, seeds: seq<RouteSeed>)
    requires RoutesMatchSeeds(created, routes, seeds) && RouteKeysDistinct(seeds)
    ensures forall k :: k in RouteMapOf(created, routes) <==>
              exists j | 0 <= j < |routes| :: k == CompositeKey(seeds[j].name, seeds[j].assetClassName)
    ensures forall j | 0 <= j < |routes| ::
              CompositeKey(seeds[j].name, seeds[j].assetClassName) in RouteMapOf(created, routes)
              && RouteMapOf(created, routes)[CompositeKey(seeds[j].name, seeds[j].assetClassName)] == routes[j].id
  {
    RouteMapKeys(created, routes, seeds);
    forall j | 0 <= j < |routes|
      ensures CompositeKey(seeds[j].name, seeds[j].assetClassName) in RouteMapOf(created, routes)
              && RouteMapOf(created, routes)[CompositeKey(seeds[j].name, seeds[j].assetClassName)] == routes[j].id
    {
      RouteMapEntry(created, routes, seeds, j);
    }
  }

  /** `a|b` determines `a` and `b` when `a` has no `|`. */
  lemma CompositeKeyInjective(a: string, b: string, c: string, d: string)
    requires '|' !in a && '|' !in c
    ensures CompositeKey(a, b) == CompositeKey(c, d) ==> a == c && b == d
  {
    var k1, k2 := CompositeKey(a, b), CompositeKey(c, d);
    if k1 == k2 {
      assert |a| == |c| by {
        assert k1[|a|] == '|' && k2[|c|] == '|';
        assert forall i | 0 <= i < |a| :: k1[i] == a[i];
        assert forall i | 0 <= i < |c| :: k2[i] == c[i];
      }
      assert a == k1[..|a|] && c == k2[..|c|];
      assert b == k1[|a| + 1..] && d == k2[|c| + 1..];
    }
  }

  // ---------------------------------------------------------------------------
  // Step 3: instrument categories

  function InstrumentKey(seed: InstrumentSeed): string {
    CompositeKey(seed.routeName, seed.assetClassName)
  }

  /** The first `count` seeds have their route and an instrument category
      under it. */
  ghost predicate InstrumentsResolved(docs: seq<InstrumentCategoryDoc>, seeds: seq<InstrumentSeed>, routeMap: map<string, ObjectId>, count: nat)
  {
    count <= |seeds|
    && forall j | 0 <= j < count ::
         InstrumentKey(seeds[j]) in routeMap && FindInstrument(docs, seeds[j].name, routeMap[InstrumentKey(seeds[j])]).Some?
  }

  lemma InstrumentsResolvedAppend(docs: seq<InstrumentCategoryDoc>, seeds: seq<InstrumentSeed>, routeMap: map<string, ObjectId>, count: nat, d: InstrumentCategoryDoc)
    requires InstrumentsResolved(docs, seeds, routeMap, count)
    ensures InstrumentsResolved(docs + [d], seeds, routeMap, count)
  {
    forall j | 0 <= j < count
      ensures FindInstrument(docs + [d], seeds[j].name, routeMap[InstrumentKey(seeds[j])]).Some?
    {
      FindInstrumentAppend(docs, d, seeds[j].name, routeMap[InstrumentKey(seeds[j])]);
    }
  }

  lemma InstrumentsResolvedStep(docs: seq<InstrumentCategoryDoc>, seeds: seq<InstrumentSeed>, routeMap: map<string, ObjectId>, i: nat)
    requires InstrumentsResolved(docs, seeds, routeMap, i) && i < |seeds|
    requires InstrumentKey(seeds[i]) in routeMap && FindInstrument(docs, seeds[i].name, routeMap[InstrumentKey(seeds[i])]).Some?
    ensures InstrumentsResolved(docs, seeds, routeMap, i + 1)
  {
  }

  /** Every seed whose route is known already has its instrument category. */
  ghost predicate InstrumentsPresent(docs: seq<InstrumentCategoryDoc>, seeds: seq<InstrumentSeed>, routeMap: map<string, ObjectId>) {
    forall i | 0 <= i < |seeds| && InstrumentKey(seeds[i]) in routeMap ::
      FindInstrument(docs, seeds[i].name, routeMap[InstrumentKey(seeds[i])]).Some?
  }

  /** An instrument category built from a seed entry: its name, asset class,
      route and range are the entry's, its route id the one the map gives. */
  predicate SeedInstrument(seeds: seq<InstrumentSeed>, routeMap: map<string, ObjectId>, d: InstrumentCategoryDoc) {
    exists i | 0 <= i < |seeds| ::
      InstrumentKey(seeds[i]) in routeMap
      && d == InstrumentCategoryDoc(d.id, seeds[i].name, seeds[i].assetClassName, seeds[i].routeName,
                                    routeMap[InstrumentKey(seeds[i])], seeds[i].range)
  }

  /** `InstrumentCategory.findOne({name, routeID})`, then a new category
      built from the seed entry when there is none. */
  method FindOrCreateInstrument(store: CategoryStore, seed: InstrumentSeed, routeId: ObjectId)
    requires store.Valid()
    modifies store
    ensures store.Valid()
    ensures store.assetClasses == old(store.assetClasses) && store.routes == old(store.routes)
    ensures store.amfiCategories == old(store.amfiCategories)
    ensures FindInstrument(old(store.instrumentCategories), seed.name, routeId).Some? ==>
              store.instrumentCategories == old(store.instrumentCategories) && store.nextId == old(store.nextId)
    ensures FindInstrument(old(store.instrumentCategories), seed.name, routeId).None? ==>
              exists d: InstrumentCategoryDoc ::
                d == InstrumentCategoryDoc(d.id, seed.name, seed.assetClassName, seed.routeName, routeId, seed.range)
                && store.instrumentCategories == old(store.instrumentCategories) + [d]
    ensures FindInstrument(store.instrumentCategories, seed.name, routeId).Some?
  {
    var existing := FindInstrument(store.instrumentCategories, seed.name, routeId);
    if existing.None? {
      ghost var docs := store.instrumentCategories;
      var doc := store.InsertInstrumentCategory(seed.name, seed.assetClassName, seed.routeName, routeId, seed.range);
      FindInstrumentAppend(docs, doc, seed.name, routeId);
    }
  }

  /** One round of step 3's loop, for the seed at `i` whose route is in the
      map: it keeps what the loop promises about the categories created
      since `before`, and resolves one more seed. */
  method PopulateInstrument(store: CategoryStore, seeds: seq<InstrumentSeed>, routeMap: map<string, ObjectId>, i: nat,
                            ghost before: seq<InstrumentCategoryDoc>, ghost nextIdBefore: nat)
    requires store.Valid() && i < |seeds| && InstrumentKey(seeds[i]) in routeMap
    requires before <= store.instrumentCategories && InstrumentsResolved(store.instrumentCategories, seeds, routeMap, i)
    requires forall j | |before| <= j < |store.instrumentCategories| ::
               SeedInstrument(seeds, routeMap, store.instrumentCategories[j])
    requires InstrumentsPresent(before, seeds, routeMap) ==>
               store.instrumentCategories == before && store.nextId == nextIdBefore
    modifies store
    ensures store.Valid()
    ensures store.assetClasses == old(store.assetClasses) && store.routes == old(store.routes)
    ensures store.amfiCategories == old(store.amfiCategories)
    ensures before <= store.instrumentCategories && InstrumentsResolved(store.instrumentCategories, seeds, routeMap, i + 1)
    ensures forall j | |before| <= j < |store.instrumentCategories| ::
              SeedInstrument(seeds, routeMap, store.instrumentCategories[j])
    ensures InstrumentsPresent(before, seeds, routeMap) ==>
              store.instrumentCategories == before && store.nextId == nextIdBefore
  {
    var category := seeds[i];
    var routeId := routeMap[InstrumentKey(category)];
    ghost var docs := store.instrumentCategories;
    FindOrCreateInstrument(store, category, routeId);
    if store.instrumentCategories != docs {
      ghost var d: InstrumentCategoryDoc :| d == InstrumentCategoryDoc(d.id, category.name, category.assetClassName, category.routeName, routeId, category.range)
               && store.instrumentCategories == docs + [d];
      InstrumentsResolvedAppend(docs, seeds, routeMap, i, d);
    }
    InstrumentsResolvedStep(store.instrumentCategories, seeds, routeMap, i);
  }

  /** Step 3 of `populateCategories`: for each instrument category, look its
      route up by composite key, throwing when it is missing, then find or
      create the category by name and route id. */
  method PopulateInstruments(store: CategoryStore, seeds: seq<InstrumentSeed>, routeMap: map<string, ObjectId>)
    returns (r: Result<nat>)
    requires store.Valid()
    modifies store
    ensures store.Valid()
    ensures store.assetClasses == old(store.assetClasses) && store.routes == old(store.routes)
    ensures store.amfiCategories == old(store.amfiCategories)
    ensures old(store.instrumentCategories) <= store.instrumentCategories
    ensures r.Err? <==> exists i | 0 <= i < |seeds| :: InstrumentKey(seeds[i]) !in routeMap
    ensures r.Ok? ==> r.value == |seeds| && InstrumentsResolved(store.instrumentCategories, seeds, routeMap, |seeds|)
    ensures forall j | |old(store.instrumentCategories)| <= j < |store.instrumentCategories| ::
              SeedInstrument(seeds, routeMap, store.instrumentCategories[j])
    ensures InstrumentsPresent(old(store.instrumentCategories), seeds, routeMap) ==>
              store.instrumentCategories == old(store.instrumentCategories) && store.nextId == old(store.nextId)
  {
    for i := 0 to |seeds|
      invariant store.Valid()
      invariant store.assetClasses == old(store.assetClasses) && store.routes == old(store.routes)
      invariant store.amfiCategories == old(store.amfiCategories)
      invariant forall j | 0 <= j < i :: InstrumentKey(seeds[j]) in routeMap
      invariant old(store.instrumentCategories) <= store.instrumentCategories
      invariant InstrumentsResolved(store.instrumentCategories, seeds, routeMap, i)
      invariant forall j | |old(store.instrumentCategories)| <= j < |store.instrumentCategories| ::
                  SeedInstrument(seeds, routeMap, store.instrumentCategories[j])
      invariant InstrumentsPresent(old(store.instrumentCategories), seeds, routeMap) ==>
                  store.instrumentCategories == old(store.instrumentCategories) && store.nextId == old(store.nextId)
    {
      var category := seeds[i];
      var routeCompositeKey := CompositeKey(category.routeName, category.assetClassName);
      if routeCompositeKey !in routeMap {
        return Err("Route not found: " + category.routeName + " for asset class " + category.assetClassName);
      }
      PopulateInstrument(store, seeds, routeMap, i, old(store.instrumentCategories), old(store.nextId));
    }
    return Ok(|seeds|);
  }

  // ---------------------------------------------------------------------------
  // The seed tables are consistent

  /** Every route names an asset class of the table, so "Asset Class not
      found" is never thrown. */
  lemma RouteAssetClassesExist()
    ensures forall i | 0 <= i < |RouteSeeds| :: SeedName(AssetClassSeeds, RouteSeeds[i].assetClassName)
  {
    assert SeedName(AssetClassSeeds, "Equity") by { assert AssetClassSeeds[0].name == "Equity"; }
    assert SeedName(AssetClassSeeds, "Debt") by { assert AssetClassSeeds[1].name == "Debt"; }
    assert SeedName(AssetClassSeeds, "Commodity") by { assert AssetClassSeeds[2].name == "Commodity"; }
  }

  /** The seven (route, asset class) pairs are distinct, though "Mutual
      Funds" appears three times. */
  lemma RoutePairsDistinct()
    ensures forall i, j | 0 <= i < j < |RouteSeeds| :: RouteSeeds[i] != RouteSeeds[j]
  {
  }

  lemma RouteNamesHaveNoBar()
    ensures forall i | 0 <= i < |RouteSeeds| :: '|' !in RouteSeeds[i].name
  {
    assert '|' !in "Mutual Funds" && '|' !in "Core Direct" && '|' !in "Tactical";
    assert '|' !in "Direct Debt" && '|' !in "Venture Debt";
  }

  /** The composite keys of the seven routes are distinct too, so the route
      map gets seven keys. */
  lemma RouteKeysAreDistinct()
    ensures RouteKeysDistinct(RouteSeeds)
  {
    RoutePairsDistinct();
    RouteNamesHaveNoBar();
    forall i, j | 0 <= i < j < |RouteSeeds|
      ensures CompositeKey(RouteSeeds[i].name, RouteSeeds[i].assetClassName) != CompositeKey(RouteSeeds[j].name, RouteSeeds[j].assetClassName)
    {
      CompositeKeyInjective(RouteSeeds[i].name, RouteSeeds[i].assetClassName, RouteSeeds[j].name, RouteSeeds[j].assetClassName);
    }
  }

  /** Every instrument category's route and asset class form a pair of the
      route table, so "Route not found" is never thrown. */
  lemma InstrumentRoutesExist()
    ensures forall i | 0 <= i < |InstrumentSeeds| :: exists j | 0 <= j < |RouteSeeds| ::
              RouteSeeds[j].name == InstrumentSeeds[i].routeName && RouteSeeds[j].assetClassName == InstrumentSeeds[i].assetClassName
  {
    var route: seq<nat> := [0, 0, 0, 0, 0, 0, 0, 0, 1, 1, 1, 1, 2, 2, 3, 3, 3, 3, 3, 4, 4, 5, 6];
    forall i | 0 <= i < |InstrumentSeeds|
      ensures exists j | 0 <= j < |RouteSeeds| ::
                RouteSeeds[j].name == InstrumentSeeds[i].routeName && RouteSeeds[j].assetClassName == InstrumentSeeds[i].assetClassName
    {
      assert RouteSeeds[route[i]].name == InstrumentSeeds[i].routeName;
      assert RouteSeeds[route[i]].assetClassName == InstrumentSeeds[i].assetClassName;
    }
  }

  /** Only the four Core Direct categories carry a range, and their ranges
      are the contiguous bands [0, 100], [100, 200], [200, 300] and
      [300, 1000], each with min < max. */
  lemma CoreDirectBands()
    ensures forall i | 0 <= i < |InstrumentSeeds| :: InstrumentSeeds[i].range.Some? <==> InstrumentSeeds[i].routeName == "Core Direct"
    ensures forall i | 0 <= i < |InstrumentSeeds| && InstrumentSeeds[i].range.Some? ::
              InstrumentSeeds[i].range.value.min < InstrumentSeeds[i].range.value.max
    ensures InstrumentSeeds[11].range.value.min == 0
    ensures InstrumentSeeds[11].range.value.max == InstrumentSeeds[10].range.value.min
    ensures InstrumentSeeds[10].range.value.max == InstrumentSeeds[9].range.value.min
    ensures InstrumentSeeds[9].range.value.max == InstrumentSeeds[8].range.value.min
    ensures InstrumentSeeds[8].range.value.max == 1000
  {
  }

  // ---------------------------------------------------------------------------
  // populateCategories

  /** The three tables the seeding reads. */
  datatype Seeds = Seeds(assetClasses: seq<AssetClassSeed>, routes: seq<RouteSeed>, instruments: seq<InstrumentSeed>)

  /** The tables of `helper/categoryInDB.helper.js`. */
  const SeedTables := Seeds(AssetClassSeeds, RouteSeeds, InstrumentSeeds)

  /** Tables on which no lookup of `populateCategories` throws: every route
      names an asset class of the table, the routes' composite keys are
      distinct, and every instrument category's route and asset class form a
      pair of the route table. */
  predicate TablesConsistent(t: Seeds) {
    (forall i | 0 <= i < |t.routes| :: SeedName(t.assetClasses, t.routes[i].assetClassName))
    && RouteKeysDistinct(t.routes)
    && (forall i | 0 <= i < |t.instruments| :: exists j | 0 <= j < |t.routes| ::
          t.routes[j].name == t.instruments[i].routeName && t.routes[j].assetClassName == t.instruments[i].assetClassName)
  }

  /** The seed tables are consistent. */
  lemma SeedTablesConsistent()
    ensures TablesConsistent(SeedTables)
  {
    var t := SeedTables;
    assert t.assetClasses == AssetClassSeeds && t.routes == RouteSeeds && t.instruments == InstrumentSeeds;
    RouteAssetClassesExist();
    RouteKeysAreDistinct();
    InstrumentRoutesExist();
    forall i | 0 <= i < |t.instruments|
      ensures exists j | 0 <= j < |t.routes| ::
                t.routes[j].name == t.instruments[i].routeName && t.routes[j].assetClassName == t.instruments[i].assetClassName
    {
      var j :| 0 <= j < |RouteSeeds| && RouteSeeds[j].name == InstrumentSeeds[i].routeName
               && RouteSeeds[j].assetClassName == InstrumentSeeds[i].assetClassName;
      assert t.routes[j] == RouteSeeds[j];
    }
    assert forall i | 0 <= i < |t.routes| :: SeedName(t.assetClasses, t.routes[i].assetClassName);
    assert RouteKeysDistinct(t.routes);
  }

  /** The id of the route `findOne` returns for a route name under the asset
      class `findOne` returns for a name. */
  function RouteIdFor(acDocs: seq<AssetClassDoc>, routeDocs: seq<RouteDoc>, routeName: string, assetClassName: string): Option<ObjectId> {
    match AcIdFor(acDocs, assetClassName)
    case None => None
    case Some(acId) =>
      match FindRoute(routeDocs, routeName, acId)
      case None => None
      case Some(k) => Some(routeDocs[k].id)
  }

  predicate InstrumentFound(acDocs: seq<AssetClassDoc>, routeDocs: seq<RouteDoc>, docs: seq<InstrumentCategoryDoc>, seed: InstrumentSeed) {
    match RouteIdFor(acDocs, routeDocs, seed.routeName, seed.assetClassName)
    case None => false
    case Some(routeId) => FindInstrument(docs, seed.name, routeId).Some?
  }

  /** Every route of the table is in the store, under its asset class. */
  predicate RoutesFound(t: Seeds, acDocs: seq<AssetClassDoc>, routeDocs: seq<RouteDoc>) {
    forall i | 0 <= i < |t.routes| :: RouteIdFor(acDocs, routeDocs, t.routes[i].name, t.routes[i].assetClassName).Some?
  }

  /** The route map sends each instrument category's composite key to the id
      of its route in the store. */
  predicate RouteMapSound(t: Seeds, acDocs: seq<AssetClassDoc>, routeDocs: seq<RouteDoc>, routeMap: map<string, ObjectId>) {
    forall i | 0 <= i < |t.instruments| ::
      InstrumentKey(t.instruments[i]) in routeMap
      && RouteIdFor(acDocs, routeDocs, t.instruments[i].routeName, t.instruments[i].assetClassName)
         == Some(routeMap[InstrumentKey(t.instruments[i])])
  }

  /** Every entry of the three tables is in the store: the asset classes by
      name, the routes by name under their asset class, the instrument
      categories by name under their route. */
  ghost predicate SeedPresent(t: Seeds, acDocs: seq<AssetClassDoc>, routeDocs: seq<RouteDoc>, docs: seq<InstrumentCategoryDoc>) {
    AssetClassesPresent(acDocs, t.assetClasses)
    && RoutesFound(t, acDocs, routeDocs)
    && (forall i | 0 <= i < |t.instruments| :: InstrumentFound(acDocs, routeDocs, docs, t.instruments[i]))
  }

  /** The route map sends each instrument category's key to the id of its
      route in the store. */
  lemma {:induction false} InstrumentRouteIds(
    t: Seeds, acDocs: seq<AssetClassDoc>, created: seq<AssetClassDoc>, routeDocs: seq<RouteDoc>, routes: seq<RouteDoc>,
    routeMap: map<string, ObjectId>)
    requires TablesConsistent(t)
    requires |created| == |t.assetClasses| && AssetClassesResolved(acDocs, t.assetClasses, created)
    requires |routes| == |t.routes| && RoutesResolved(routeDocs, t.routes, AssetClassMap(created), routes)
    requires forall j | 0 <= j < |routes| ::
               CompositeKey(t.routes[j].name, t.routes[j].assetClassName) in routeMap
               && routeMap[CompositeKey(t.routes[j].name, t.routes[j].assetClassName)] == routes[j].id
    ensures forall i | 0 <= i < |t.routes| ::
              RouteIdFor(acDocs, routeDocs, t.routes[i].name, t.routes[i].assetClassName) == Some(routes[i].id)
    ensures RoutesFound(t, acDocs, routeDocs)
    ensures RouteMapSound(t, acDocs, routeDocs, routeMap)
  {
    var acMap := AssetClassMap(created);
    AssetClassMapOf(acDocs, t.assetClasses, created);
    forall i | 0 <= i < |t.routes|
      ensures RouteIdFor(acDocs, routeDocs, t.routes[i].name, t.routes[i].assetClassName) == Some(routes[i].id)
    {
      assert AcIdFor(acDocs, t.routes[i].assetClassName) == Some(acMap[t.routes[i].assetClassName]);
    }
    forall i | 0 <= i < |t.instruments|
      ensures InstrumentKey(t.instruments[i]) in routeMap
              && RouteIdFor(acDocs, routeDocs, t.instruments[i].routeName, t.instruments[i].assetClassName)
                 == Some(routeMap[InstrumentKey(t.instruments[i])])
    {
      var j :| 0 <= j < |t.routes| && t.routes[j].name == t.instruments[i].routeName
               && t.routes[j].assetClassName == t.instruments[i].assetClassName;
      assert InstrumentKey(t.instruments[i]) == CompositeKey(t.routes[j].name, t.routes[j].assetClassName);
    }
  }

  /** After a successful run the tables are present. */
  lemma FinalSeedPresent(t: Seeds, acDocs: seq<AssetClassDoc>, routeDocs: seq<RouteDoc>, docs: seq<InstrumentCategoryDoc>, routeMap: map<string, ObjectId>)
    requires AssetClassesPresent(acDocs, t.assetClasses)
    requires RoutesFound(t, acDocs, routeDocs)
    requires RouteMapSound(t, acDocs, routeDocs, routeMap)
    requires InstrumentsResolved(docs, t.instruments, routeMap, |t.instruments|)
    ensures SeedPresent(t, acDocs, routeDocs, docs)
  {
  }

  /** When the tables are present, no step finds anything missing. */
  lemma PresentRoutesFound(t: Seeds, acDocs: seq<AssetClassDoc>, routeDocs: seq<RouteDoc>, docs: seq<InstrumentCategoryDoc>, created: seq<AssetClassDoc>)
    requires SeedPresent(t, acDocs, routeDocs, docs)
    requires |created| == |t.assetClasses| && AssetClassesResolved(acDocs, t.assetClasses, created)
    ensures RoutesPresent(routeDocs, t.routes, AssetClassMap(created))
  {
    AssetClassMapOf(acDocs, t.assetClasses, created);
    forall i | 0 <= i < |t.routes| && t.routes[i].assetClassName in AssetClassMap(created)
      ensures FindRoute(routeDocs, t.routes[i].name, AssetClassMap(created)[t.routes[i].assetClassName]).Some?
    {
      assert RouteIdFor(acDocs, routeDocs, t.routes[i].name, t.routes[i].assetClassName).Some?;
    }
  }

  lemma PresentInstrumentsFound(t: Seeds, acDocs: seq<AssetClassDoc>, routeDocs: seq<RouteDoc>, docs: seq<InstrumentCategoryDoc>, routeMap: map<string, ObjectId>)
    requires SeedPresent(t, acDocs, routeDocs, docs)
    requires RouteMapSound(t, acDocs, routeDocs, routeMap)
    ensures InstrumentsPresent(docs, t.instruments, routeMap)
  {
    forall i | 0 <= i < |t.instruments| && InstrumentKey(t.instruments[i]) in routeMap
      ensures FindInstrument(docs, t.instruments[i].name, routeMap[InstrumentKey(t.instruments[i])]).Some?
    {
      assert InstrumentFound(acDocs, routeDocs, docs, t.instruments[i]);
    }
  }

  /** An instrument category built from an entry of the table: its name,
      asset class, route and range are the entry's, and it hangs on the
      entry's route. */
  predicate TableInstrument(t: Seeds, acDocs: seq<AssetClassDoc>, routeDocs: seq<RouteDoc>, d: InstrumentCategoryDoc) {
    exists i | 0 <= i < |t.instruments| ::
      var seed := t.instruments[i];
      d.name == seed.name && d.assetClass == seed.assetClassName && d.route == seed.routeName
      && d.range == seed.range
      && RouteIdFor(acDocs, routeDocs, seed.routeName, seed.assetClassName) == Some(d.routeId)
  }

  /** The categories step 3 creates hang on their entry's route. */
  lemma NewInstrumentsOnRoutes(t: Seeds, acDocs: seq<AssetClassDoc>, routeDocs: seq<RouteDoc>, routeMap: map<string, ObjectId>,
                               docs: seq<InstrumentCategoryDoc>, from: nat)
    requires RouteMapSound(t, acDocs, routeDocs, routeMap)
    requires forall j | from <= j < |docs| :: SeedInstrument(t.instruments, routeMap, docs[j])
    ensures forall j | from <= j < |docs| :: TableInstrument(t, acDocs, routeDocs, docs[j])
  {
    forall j | from <= j < |docs| ensures TableInstrument(t, acDocs, routeDocs, docs[j]) {
      assert SeedInstrument(t.instruments, routeMap, docs[j]);
      var i :| 0 <= i < |t.instruments| && InstrumentKey(t.instruments[i]) in routeMap
               && docs[j] == InstrumentCategoryDoc(docs[j].id, t.instruments[i].name, t.instruments[i].assetClassName,
                                                   t.instruments[i].routeName, routeMap[InstrumentKey(t.instruments[i])],
                                                   t.instruments[i].range);
      assert RouteIdFor(acDocs, routeDocs, t.instruments[i].routeName, t.instruments[i].assetClassName) == Some(docs[j].routeId);
    }
  }

  /** Step 1 of `populateCategories` with what step 2 needs of it: every
      asset class of the table is in the store, ids never repeat, and on a
      store that already holds every entry nothing is created and every
      route of the table is found. */
  method AssetClassStep(store: CategoryStore, t: Seeds) returns (created: seq<AssetClassDoc>)
    requires store.Valid()
    modifies store
    ensures store.Valid() && store.amfiCategories == old(store.amfiCategories)
    ensures store.routes == old(store.routes) && store.instrumentCategories == old(store.instrumentCategories)
    ensures old(store.assetClasses) <= store.assetClasses
    ensures |created| == |t.assetClasses| && AssetClassesResolved(store.assetClasses, t.assetClasses, created)
    ensures AssetClassesPresent(store.assetClasses, t.assetClasses) && AssetClassIdsUnique(store.assetClasses)
    ensures SeedPresent(t, old(store.assetClasses), old(store.routes), old(store.instrumentCategories)) ==>
              store.assetClasses == old(store.assetClasses) && store.nextId == old(store.nextId)
              && RoutesPresent(store.routes, t.routes, AssetClassMap(created))
  {
    ghost var present := SeedPresent(t, store.assetClasses, store.routes, store.instrumentCategories);
    created := PopulateAssetClasses(store, t.assetClasses);
    store.AssetClassIdsDistinct();
    if present {
      PresentRoutesFound(t, store.assetClasses, store.routes, store.instrumentCategories, created);
    }
  }

  /** Step 2 of `populateCategories` and the composite-key route map, after
      step 1: every route of the table is in the store under its asset class
      and the map is sound; when every route was already there nothing is
      created. */
  method RouteStep(store: CategoryStore, t: Seeds, created: seq<AssetClassDoc>)
    returns (routeCount: nat, routeMap: map<string, ObjectId>)
    requires store.Valid() && TablesConsistent(t)
    requires |created| == |t.assetClasses| && AssetClassesResolved(store.assetClasses, t.assetClasses, created)
    requires AssetClassIdsUnique(store.assetClasses)
    modifies store
    ensures store.Valid() && store.amfiCategories == old(store.amfiCategories)
    ensures store.assetClasses == old(store.assetClasses) && store.instrumentCategories == old(store.instrumentCategories)
    ensures old(store.routes) <= store.routes && routeCount == |t.routes|
    ensures RoutesFound(t, store.assetClasses, store.routes)
    ensures RouteMapSound(t, store.assetClasses, store.routes, routeMap)
    ensures RoutesPresent(old(store.routes), t.routes, AssetClassMap(created)) ==>
              store.routes == old(store.routes) && store.nextId == old(store.nextId)
  {
    var assetClassMap := AssetClassMap(created);
    AssetClassMapOf(store.assetClasses, t.assetClasses, created);
    var routeResult := PopulateRoutes(store, t.routes, assetClassMap);
    var createdRoutes := routeResult.value;
    RouteAssetClassNames(store.assetClasses, t.assetClasses, created, store.routes, t.routes, createdRoutes);
    routeMap := BuildRouteMap(created, createdRoutes);
    RouteMapOfSeeds(created, createdRoutes, t.routes);
    InstrumentRouteIds(t, store.assetClasses, created, store.routes, createdRoutes, routeMap);
    routeCount := |createdRoutes|;
  }

  /** Steps 1 and 2 of `populateCategories`, and the composite-key route
      map: afterwards every asset class and route of the tables is in the
      store and the map is sound; on a store that already holds every entry
      nothing is created. */
  method PopulateRouteMap(store: CategoryStore, t: Seeds)
    returns (assetClassCount: nat, routeCount: nat, routeMap: map<string, ObjectId>)
    requires store.Valid() && TablesConsistent(t)
    modifies store
    ensures store.Valid() && store.amfiCategories == old(store.amfiCategories)
    ensures store.instrumentCategories == old(store.instrumentCategories)
    ensures assetClassCount == |t.assetClasses| && routeCount == |t.routes|
    ensures old(store.assetClasses) <= store.assetClasses && old(store.routes) <= store.routes
    ensures AssetClassesPresent(store.assetClasses, t.assetClasses) && RoutesFound(t, store.assetClasses, store.routes)
    ensures RouteMapSound(t, store.assetClasses, store.routes, routeMap)
    ensures SeedPresent(t, old(store.assetClasses), old(store.routes), old(store.instrumentCategories)) ==>
              store.assetClasses == old(store.assetClasses) && store.routes == old(store.routes)
              && store.nextId == old(store.nextId)
              && InstrumentsPresent(store.instrumentCategories, t.instruments, routeMap)
  {
    ghost var present := SeedPresent(t, store.assetClasses, store.routes, store.instrumentCategories);
    var created := AssetClassStep(store, t);
    routeCount, routeMap := RouteStep(store, t, created);
    if present {
      PresentInstrumentsFound(t, store.assetClasses, store.routes, store.instrumentCategories, routeMap);
    }
    assetClassCount := |created|;
  }

  /** `populateCategories()` on tables where no lookup throws: it returns the
      sizes of the three tables. Afterwards every table entry is in the
      store; only the AMFI categories are untouched; every instrument
      category it creates copies its table entry and hangs on the entry's
      route; and on a store that already holds every entry it creates
      nothing, so a second run changes nothing. */
  method PopulateCategoriesFrom(store: CategoryStore, t: Seeds) returns (summary: Summary)
    requires store.Valid() && TablesConsistent(t)
    modifies store
    ensures store.Valid() && store.amfiCategories == old(store.amfiCategories)
    ensures summary == Summary(|t.assetClasses|, |t.routes|, |t.instruments|)
    ensures old(store.assetClasses) <= store.assetClasses && old(store.routes) <= store.routes
    ensures old(store.instrumentCategories) <= store.instrumentCategories
    ensures SeedPresent(t, store.assetClasses, store.routes, store.instrumentCategories)
    ensures forall j | |old(store.instrumentCategories)| <= j < |store.instrumentCategories| ::
              TableInstrument(t, store.assetClasses, store.routes, store.instrumentCategories[j])
    ensures SeedPresent(t, old(store.assetClasses), old(store.routes), old(store.instrumentCategories)) ==>
              store.assetClasses == old(store.assetClasses) && store.routes == old(store.routes)
              && store.instrumentCategories == old(store.instrumentCategories) && store.nextId == old(store.nextId)
  {
    ghost var instrumentsBefore := store.instrumentCategories;
    var assetClassCount, routeCount, routeMap := PopulateRouteMap(store, t);

    // 3. instrument categories
    var instrumentResult := PopulateInstruments(store, t.instruments, routeMap);
    var count := instrumentResult.value;
    FinalSeedPresent(t, store.assetClasses, store.routes, store.instrumentCategories, routeMap);
    NewInstrumentsOnRoutes(t, store.assetClasses, store.routes, routeMap, store.instrumentCategories, |instrumentsBefore|);

    summary := Summary(assetClassCount, routeCount, count);
  }

  /** `populateCategories()`: on the seed tables it always returns the
      summary 3, 7, 23, with the guarantees above. */
  method PopulateCategories(store: CategoryStore) returns (summary: Summary)
    requires store.Valid()
    modifies store
    ensures store.Valid() && store.amfiCategories == old(store.amfiCategories)
    ensures summary == Summary(3, 7, 23)
    ensures old(store.assetClasses) <= store.assetClasses && old(store.routes) <= store.routes
    ensures old(store.instrumentCategories) <= store.instrumentCategories
    ensures SeedPresent(SeedTables, store.assetClasses, store.routes, store.instrumentCategories)
    ensures SeedPresent(SeedTables, old(store.assetClasses), old(store.routes), old(store.instrumentCategories)) ==>
              store.assetClasses == old(store.assetClasses) && store.routes == old(store.routes)
              && store.instrumentCategories == old(store.instrumentCategories) && store.nextId == old(store.nextId)
  {
    SeedTablesConsistent();
    summary := PopulateCategoriesFrom(store, SeedTables);
  }
}
