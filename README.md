# osmogon in Dafny

osmogon is an OpenStreetMap server and map client. The server stores OSM nodes, ways and
relations in MongoDB and answers tag and area queries with GeoJSON. The browser client
loads that GeoJSON per layer and draws it with d3.

This project models five parts of it:

- the geometry helpers (`GeoMath`, `geomath.dfy`):
  - the clamped great-circle distance and the length of a way;
  - the local Mercator transform and its inverse;
  - the way simplification (`scarceWay`) with its forward and backward triplet passes;
  - the ray-casting point-in-polygon test;
- the mutable `Way` object (`OsmWay`, `entities.dfy`):
  - node ids, coordinates and bounding box, tags and relation memberships;
  - the closedness test;
  - the cached simplified sketch;
- the GeoJSON feature writer (`GeoJson`, `geojson.dfy`): nodes become Points, ways
  become Polygons, and relations become a MultiPoint, a MultiPolygon of outer rings with
  their inner rings, and a MultiLineString;
- the MongoDB access object (`MongoDao`, `mongo_dao.dfy`):
  - the `tags.` key rewrite of user queries;
  - the table holding one DAO per `host + port` key (see Findings);
  - the queue of calls that wait for the connection;
- the client bookkeeping (`Osmogon`, `osmogon.dfy`):
  - layer names;
  - data sets and their outstanding-load counters;
  - the ten microlayer buckets filled from each feature's `layer` tag;
  - the shared id counter;
  - the gate that starts rendering once every data set has loaded.

`wrappers.dfy` holds the `Option`/`Result` types and the JavaScript exceptions the model
raises. `seqs.dfy` holds in-order subsequences, counting and decimal rendering.

**Numerics.** The transcendental functions (`sin`, `cos`, `acos`, `tan`, `log`) and the
two geometric primitives of the vector library are fields of a `Numerics` value. Every
geometric operation takes that value as a parameter.
- A lemma that needs a fact about them names it as a predicate on that value: `acos`
  lies in [0, π], `cos` is even, or sin² + cos² = 1.
- Reals are exact, so the model proves the program's logic, not its floating-point
  accuracy.

**JavaScript behaviour.** The model keeps the following, each as a `Result` failure or as
the exact value it produces:
- a read of a field that is `undefined` raises `TypeError`;
- `assert` failures raise `AssertionError`;
- an empty array is truthy;
- a method reference tested in an `if` is always true;
- `pop` takes from the end.

## Model

| member | source | states |
|---|---|---|
| GeoMath.ClampUnit | mongo-osm/geometry/geomath.js:39-44 | the cosine argument ends in [-1, 1]; it is unchanged inside, and −1 or 1 below or above |
| GeoMath.PointDistanceClamped | mongo-osm/geometry/geomath.js:29-46 | the distance is `acos(a)·R` for some `a` in [-1, 1] |
| GeoMath.PointDistanceBounds | mongo-osm/geometry/geomath.js:29-46 | if `acos` maps [-1, 1] into [0, π], every distance is in [0, π·R] |
| GeoMath.PointDistanceSymmetric | mongo-osm/geometry/geomath.js:29-46 | if `cos` is even, the distance is symmetric in its two points |
| GeoMath.PointDistanceSelf | mongo-osm/geometry/geomath.js:29-46 | if sin² + cos² = 1, `cos 0 = 1` and `acos 1 = 0`, a point is at distance 0 from itself |
| GeoMath.WayLength | mongo-osm/geometry/geomath.js:51-59 | the way length is the sum of `pointDistance` over consecutive points, which is 0 for at most one point |
| GeoMath.SumOfSteps | mongo-osm/geometry/geomath.js:52-58 | the loop adds, for every point after the first, its distance to the point before it: the result is the path length under the given distance function |
| GeoMath.PathLengthAppend | mongo-osm/geometry/geomath.js:51-59 | appending a point adds exactly its distance to the previous last point, for any distance function (the way length is this sum for `pointDistance`) |
| GeoMath.PathLengthConcat | mongo-osm/geometry/geomath.js:51-59 | the length of two joined ways is the sum of their lengths plus the joining distance |
| GeoMath.PathLengthNonNegative | mongo-osm/geometry/geomath.js:51-59 | with non-negative distances the length is non-negative |
| GeoMath.WayLengthNonNegative | mongo-osm/geometry/geomath.js:51-59 | if `acos` is non-negative on [-1, 1], the length is non-negative |
| GeoMath.Transform.GetLatLon | mongo-osm/geometry/geomath.js:225-230 | the inverse transform is defined exactly when the base latitude's scale factor is non-zero |
| GeoMath.GetXYBase | mongo-osm/geometry/geomath.js:211-222 | the base point maps to the origin `[0, 0]` |
| GeoMath.GetLatLonOfGetXY | mongo-osm/geometry/geomath.js:211-230 | with a non-zero scale factor, `getLatLon(getXY(p)) = p` |
| GeoMath.GetXYOfGetLatLon | mongo-osm/geometry/geomath.js:211-230 | with a non-zero scale factor, `getXY(getLatLon(xy)) = xy` |
| GeoMath.DropTheMiddleman | mongo-osm/geometry/geomath.js:94-114 | the result is `[p0, p2]` exactly when the middle deviation is below `deviation` and `p0` to `p2` is at most `7·deviation`; otherwise it is `[p0, p1, p2]` |
| GeoMath.MiddlemanWellFormed | mongo-osm/geometry/geomath.js:94-114 | as a triplet processor, `dropTheMiddleman` keeps both ends and returns two or three points |
| GeoMath.ProcessForwardInTriplets | mongo-osm/geometry/geomath.js:116-130 | the stride-2 loop with its final push computes the forward-pass specification |
| GeoMath.ProcessBackwardInTriplets | mongo-osm/geometry/geomath.js:132-147 | the stride-2 loop with its `unshift`s computes the backward-pass specification |
| GeoMath.ForwardPassShape | mongo-osm/geometry/geomath.js:116-130 | starts with the first point and ends with the last; is an in-order subsequence; is the input iff every middle point at an odd index is kept |
| GeoMath.BackwardPassShape | mongo-osm/geometry/geomath.js:132-147 | starts with the first point and ends with the last; is an in-order subsequence; is the input iff every middle point an even number of places before the end is kept |
| GeoMath.ScarceWay | mongo-osm/geometry/geomath.js:63-90 | terminates and returns between 1 point and as many points as it was given |
| GeoMath.ScarceWayChecked | mongo-osm/geometry/geomath.js:63-65 | an empty way fails the entry assertion with `AssertionError`, and only an empty one does; otherwise the result is the simplified way, of 1 to `n` points, keeping the ends |
| GeoMath.ScarceWayShortInputs | mongo-osm/geometry/geomath.js:66-78 | one point is returned unchanged; two points collapse to their midpoint iff their distance is at most `deviation`, else they are returned unchanged |
| GeoMath.ScarceWayLongInputs | mongo-osm/geometry/geomath.js:80-89 | from three points on only the backward pass counts; the function recurses on it while it is shorter and returns the input once nothing is removed |
| GeoMath.ScarceWayKeepsEnds | mongo-osm/geometry/geomath.js:63-90 | a result of two or more points is an in-order subsequence with the same first and last point |
| GeoMath.ScarceWayIdempotent | mongo-osm/geometry/geomath.js:63-90 | simplifying a simplified way changes nothing |
| GeoMath.MapCoordinatePairs | mongo-osm/geometry/geomath.js:150-158 | the counter is the number of wrap-around pairs `(c[i], c[(i+1) mod n])` that pass the test, hence at most `n` |
| GeoMath.IsPointInPolygon | mongo-osm/geometry/geomath.js:192-206 | true iff an odd number of the wrap-around pairs of `poly.slice(1)` cross the ray |
| GeoMath.PointInPolygonRotate | mongo-osm/geometry/geomath.js:192-206 | for a closed ring, starting the ring at its second point gives the same answer |
| OsmWay.WayView.IsPolygon | mongo-osm/geometry/way.js:22-38 | with a non-empty id list: closed iff at least 4 ids and first = last. Otherwise: closed iff at least 4 coordinates and first and last differ by less than 1e-9 in both components; `TypeError` without coordinates |
| OsmWay.IsPolygonModesAgree | mongo-osm/geometry/way.js:22-38 | a way closed by its ids is also closed by the coordinates of those ids |
| OsmWay.Way.constructor | mongo-osm/geometry/way.js:12-20 | a new way has id, version and visibility set, and ids, tags, coordinates, box, memberships and sketch undefined |
| OsmWay.Way.AddNodeId | mongo-osm/geometry/way.js:40-46 | creates the id list if absent and appends the id; nothing else changes |
| OsmWay.Way.SetCoordinates | mongo-osm/geometry/way.js:48-55 | fails iff an id list is present with a different length, changing nothing; otherwise it replaces the coordinates and recomputes the box from them |
| OsmWay.Way.AddTags | mongo-osm/geometry/way.js:57-67 | creates the tags if absent; every given key takes its new value, other keys keep theirs, and no key is lost |
| OsmWay.Way.SetRel | mongo-osm/geometry/way.js:71-74 | stores the memberships and changes nothing else |
| OsmWay.Way.GetLengthMeters | mongo-osm/geometry/way.js:77-82 | `AssertionError` without coordinates or with at most one point; otherwise the way's length |
| OsmWay.Way.GetScarceWay | mongo-osm/geometry/way.js:85-93 | the first successful call stores `scarceWay(coordinates, 300)`, and later calls return the stored sketch; without coordinates it raises `AssertionError` |
| OsmWay.StaleSketch | mongo-osm/geometry/way.js:85-93 | after new coordinates the cached sketch of the old ones is still returned |
| GeoJson.GeoJsonPoint | lib/writer/geojson.js:28-32 | a Point feature with the given id, tags and coordinates |
| GeoJson.GeoJsonMultiPoint | lib/writer/geojson.js:36-40 | a MultiPoint feature with the given id, tags and coordinate list |
| GeoJson.GeoJsonPolygon | lib/writer/geojson.js:53-58 | a Polygon feature with the given id and tags whose ring list is the given coordinates wrapped once: exactly one ring |
| GeoJson.GeoJsonMultiPolygon | lib/writer/geojson.js:62-67 | a MultiPolygon feature with the given id and tags whose polygon list is the given list wrapped once more: exactly one element |
| GeoJson.GeoJsonMultiLineString | lib/writer/geojson.js:71-76 | always raises `ReferenceError`, because its first statement names an undeclared function |
| GeoJson.NodeFeatures | lib/writer/geojson.js:90-92 | one Point per node, in order, with `id = osm_id`, `properties = attrs` and `coordinates = loc` |
| GeoJson.WayFeatures | lib/writer/geojson.js:93-99 | one Polygon per way, in order, with coordinates `[way.coordinates]`, whether or not the way is closed |
| GeoJson.OpenTriangleBecomesPolygon | lib/writer/geojson.js:93-99 | the open three-point way of the writer's tests is not closed, and is still written as a Polygon |
| GeoJson.Locations | lib/writer/geojson.js:102-107 | the MultiPoint coordinates are the member nodes' locations in membership order |
| GeoJson.ClosedLinesSnoc | lib/writer/geojson.js:114-120 | the outer pass keeps exactly the closed outer ways, in member order |
| GeoJson.AddOutersGroups | lib/writer/geojson.js:114-120 | succeeds iff every outer way's closedness is defined; each closed outer starts a new group and each open one adds one warning |
| GeoJson.FirstContainingIsFirst | lib/writer/geojson.js:124-134 | the search stops at the first group whose outer ring contains the inner ring's first point, and its "not found" value is the group count |
| GeoJson.FindOuter | lib/writer/geojson.js:124-134 | the index loop with `break` computes that search |
| GeoJson.AddInnerEffect | lib/writer/geojson.js:121-138 | an open inner way only warns; a closed one joins the first containing group and no other group; with no containing group it warns and is dropped |
| GeoJson.AddInnersAccounting | lib/writer/geojson.js:121-138 | groups and their outer rings stay as they are; every inner way ends as either one warning or one ring added |
| GeoJson.CollectOuters | lib/writer/geojson.js:114-120 | the outer loop computes the outer-pass specification |
| GeoJson.AttachInners | lib/writer/geojson.js:121-138 | the inner loop computes the inner-pass specification |
| GeoJson.MultiPolygonWritten | lib/writer/geojson.js:112-140 | a MultiPolygon is written iff the outer or inner list is non-empty, with its polygons wrapped once more |
| GeoJson.OpenOuterStillWritten | lib/writer/geojson.js:112-140 | a relation whose only outer way is open still yields a MultiPolygon `[[]]` and one warning |
| GeoJson.InnerJoinsContainingOuter | lib/writer/geojson.js:112-140 | a closed inner ring starting inside the only outer ring gives `[[[outer, inner]]]` |
| GeoJson.CountOtherRoles | lib/writer/geojson.js:142-147 | the key loop counts the roles other than `outer` and `inner` |
| GeoJson.RelationOutcome | lib/writer/geojson.js:100-151 | `TypeError` without an "outer" or "inner" list; `ReferenceError` when other roles exist; on success: the MultiPoint, present iff nodes exist, then the MultiPolygon part |
| GeoJson.ConvertRelation | lib/writer/geojson.js:100-151 | the relation body computes the relation specification, including which error comes first |
| GeoJson.RelationsSucceed | lib/writer/geojson.js:100-151 | the writer succeeds on the relations iff it succeeds on each one |
| GeoJson.RelationsFirstError | lib/writer/geojson.js:100-151 | the error raised is that of the first failing relation |
| GeoJson.AssembleOrder | lib/writer/geojson.js:86-151 | the stream fails exactly when a relation fails; otherwise the features are the node Points in order, then the way Polygons in order, then exactly the relation features in order |
| GeoJson.WriteNodes | lib/writer/geojson.js:90-92 | the node loop yields one Point per node, in order, with the node's id, tags and location |
| GeoJson.WriteWays | lib/writer/geojson.js:93-99 | the way loop yields one Polygon per way, in order, whether or not the way is closed |
| GeoJson.WriteRelations | lib/writer/geojson.js:100-151 | the relation loop yields each relation's features in turn, or the error of the first relation that fails |
| GeoJson.GeoJsonStream | lib/writer/geojson.js:86-151 | the three loops compute the assembled feature collection, or its first error |
| MongoDao.PrefixKeyInjective | mongo-osm/db/mongo-dao.js:136-141 | distinct query keys are stored under distinct names |
| MongoDao.UnprefixPrefix | mongo-osm/db/mongo-dao.js:136-141 | the rewrite of a key can be undone |
| MongoDao.TagsPrefix | mongo-osm/db/mongo-dao.js:134-144 | a key without `$` appears as `tags.key` and a `$` key appears unchanged, each with its value; nothing else appears, and the number of keys is the same |
| MongoDao.Dao.constructor | mongo-osm/db/mongo-dao.js:35-39 | a new DAO is unconnected, with an empty queue |
| MongoDao.DaoTable.constructor | mongo-osm/db/mongo-dao.js:14 | the DAO table starts empty, and is valid |
| MongoDao.Dao.CallEnqueued | mongo-osm/db/mongo-dao.js:114-118 | every queued call runs once, last queued first, and the queue ends empty |
| MongoDao.LifoOrderIsReversal | mongo-osm/db/mongo-dao.js:114-118 | the i-th call run is the i-th call counted from the end of the queue |
| MongoDao.Dao.CallWhenReady | mongo-osm/db/mongo-dao.js:106-111 | the call is queued; if connected, it runs at once and the queue is empty afterwards |
| MongoDao.Dao.OnConnected | mongo-osm/db/mongo-dao.js:42-48 | an error is rethrown with nothing changed; otherwise the collection is stored and the waiting calls run, last first |
| MongoDao.DaoTable.Get | mongo-osm/db/mongo-dao.js:21-26 | a DAO is created only when the concatenated key `host+port` is absent; otherwise the stored one is returned |
| MongoDao.AddressKeyCollides | mongo-osm/db/mongo-dao.js:22-25 | two different addresses can have the same concatenated key |
| MongoDao.SharedDaoForTwoAddresses | mongo-osm/db/mongo-dao.js:21-26 | so a request for the second address gets the DAO of the first |
| MongoDao.AddressTable.Get | mongo-osm/db/mongo-dao.js:21-26 | keyed by the address pair, the returned DAO always has the requested host and port |
| MongoDao.SeparateDaosForTwoAddresses | mongo-osm/db/mongo-dao.js:21-26 | keyed by the pair, the two colliding addresses get two DAOs |
| Seqs.DecimalStringInjective | mongo-osm/db/mongo-dao.js:22-25 | the decimal rendering of a port or counter is injective |
| Osmogon.Osmogon.AddLayer | public/javascripts/osmogon.js:72-76 | appends a layer only if absent, and the layer list stays free of duplicates |
| Osmogon.Osmogon.Osmdata | public/javascripts/osmogon.js:96-102 | adds the layer as `addLayer` does, and appends a fresh data set with no load outstanding, empty buckets and the next shared id |
| Osmogon.Osmogon.constructor | public/javascripts/osmogon.js:21-22 | the map starts with no layers and no data sets, and is valid |
| Osmogon.IdSource.constructor | public/javascripts/osmogon.js:138 | the shared counter starts at 0 |
| Osmogon.IdSource.CreateId | public/javascripts/osmogon.js:138-141 | returns the shared counter and increments it, so ids run 0, 1, 2, … |
| Osmogon.DataIdInjective | public/javascripts/osmogon.js:132 | different counter values give different `OD` identifiers |
| Osmogon.Osmdata.constructor | public/javascripts/osmogon.js:128-137 | a new data set has no load outstanding, ten empty buckets and the id `OD` + the counter |
| Osmogon.Osmdata.LoadRequest | public/javascripts/osmogon.js:153-165 | the outstanding-load counter goes up by one, so a data set whose counter was not negative is no longer loaded |
| Osmogon.Osmdata.IsLoaded | public/javascripts/osmogon.js:166-168 | a data set is loaded exactly when no request is outstanding |
| Osmogon.BucketOf | public/javascripts/osmogon.js:179-189 | no `layer` tag goes to bucket 5; a parsed layer L with −5 ≤ L < 5 goes to bucket L + 5; anything else is dropped |
| Osmogon.DistributeBuckets | public/javascripts/osmogon.js:179-189 | each bucket receives exactly the features that belong in it, in input order, after what it held |
| Osmogon.Osmdata.FillBuckets | public/javascripts/osmogon.js:178-189 | the feature loop leaves the buckets holding the distribution of the features before the first one without properties, and fails with `TypeError` iff such a feature exists |
| Osmogon.Osmdata.LoadCbHandler | public/javascripts/osmogon.js:173-195 | null data adds nothing. Otherwise the features are bucketed until one lacks properties (`TypeError`, counter unchanged). On success the counter drops by one and `readyToRender` runs iff it reaches 0 |
| Osmogon.Osmogon.Plan | public/javascripts/osmogon.js:104-126 | rendering is refused iff some data set still has a load outstanding |
| Osmogon.Osmogon.AllLoaded | public/javascripts/osmogon.js:105-111 | the gate loop answers whether every data set has finished loading |
| Osmogon.Osmogon.DataSetsOf | public/javascripts/osmogon.js:118-124 | the inner loop yields the indices of the data sets of one layer, in list order |
| Osmogon.Osmogon.ReadyToRender | public/javascripts/osmogon.js:104-126 | the gate loop and the nested layer/data-set loops compute that plan |
| Osmogon.RenderOrderMembers | public/javascripts/osmogon.js:117-125 | a data set is rendered iff its layer is a layer of the map |
| Osmogon.IndicesOfIncreasing | public/javascripts/osmogon.js:119-124 | within a layer, data sets render in list order |
| Osmogon.RenderOrderOnce | public/javascripts/osmogon.js:117-125 | with distinct layer names, each data set of a listed layer renders exactly once |
| Osmogon.PlanRendersEveryDataSet | public/javascripts/osmogon.js:96-126 | under the map's invariant, every data set renders exactly once |
| Osmogon.TwoLoads | public/javascripts/osmogon.js:153-195 | with two requests, the first answer leaves the data set waiting and the second, even a null one, starts rendering |

## Left out

- Floating-point arithmetic and the transcendental functions. They are parameters, see
  above; `rayIntersectsBetweenPoints` and `Line.distanceFrom` are parameters too.
- GeoMath.ProcessForwardInTriplets and GeoMath.ProcessBackwardInTriplets: require at
  least one point. With none, the source returns `[undefined]`.
- GeoMath.ProcessBackwardInTriplets: also requires every processor result to be
  non-empty. With an empty result the source unshifts `undefined`. `dropTheMiddleman`,
  the only processor the source passes, always returns two or three points.
- GeoMath.ScarceWay: requires at least one point. The entry assertion of `scarceWay`
  is modelled by GeoMath.ScarceWayChecked, which `Way.GetScarceWay` calls.
- GeoMath.Transform.GetLatLon: returns `None` when the scale factor is 0, where the source
  divides by zero and yields `Infinity` or `NaN`.
- GeoJson: the `GeoJsonLine` constructor is not modelled, because the branch that would
  call it is unreachable.
- GeoJson: the MultiLineString feature's coordinates are not modelled, because its
  constructor always raises `ReferenceError` first.
- GeoJson.GeoJsonStream: logged warnings are a ghost output. The asynchronous `emit` of
  the result (lib/writer/geojson.js:153-155) is replaced by returning it.
- GeoJson.GeoJsonStream: the warnings of a run that raises are not modelled. The
  source has already logged the outer-ring warnings when the `inner` TypeError or the
  MultiLineString ReferenceError is raised; the model promises warnings only on success.
- GeoJson.MultiPointPart: `relation.nodes` is read as an array of member nodes, as the
  writer's text does. The writer's relation test adds a node member and expects no
  MultiPoint, which depends on how `relation.js` stores nodes; that file is not part of
  this model.
- OsmWay.WayView.IsPolygon: modelled on a value snapshot of the way, which is what the
  writer reads.
- The bounding-box layout and `bbox.js` are not part of this model. A box only records
  the coordinates it came from.
- `relation.js` is not part of this model. A relation is a value with nodes and ways by
  role.
- Database I/O is not modelled: `MongoFactory.connect`, `find`, the `findOsm*` queries,
  `geoNear` and the converter. A queued call is an opaque value; running it is recorded
  with the collection it receives.
- MongoDao.Dao.CallEnqueued: assumes a call does not queue further calls while it runs.
  The database calls of the source are asynchronous, so this holds there.
- The d3 and DOM parts of the client are not modelled:
  - the constructor's viewport and projection, `initViewport`, `backdrop` and `render`;
  - the request itself (`d3.json`).
  `ReadyToRender` returns the order in which `render` would be called.
- `Osmdata.load` is not modelled. public/javascripts/osmogon.js:149 is missing a `+`
  before `viewport[1][1]`. That is a syntax error, so as written none of osmogon.js
  loads in a browser, not only `load`. The model is of the script as intended once
  it parses. The request `load` would make is `loadRequest`, which is modelled.
- `Osmdata.marker`, `label` and `text_label` return `this`, `draw` records a drawing
  callback, and `slice` is an empty stub that returns `undefined`, so none of them is
  modelled.
- Osmogon.Osmdata.LoadCbHandler: `data` is the feature list or null; a response object
  without a `features` field is not modelled. Property values are strings, and
  `parseInt` is a parameter.
- The logger, the settings and the server bootstrap are not modelled.

## Findings

| source | as written | input that shows it | evidently intended | confidence | as-written member | corrected member |
|---|---|---|---|---|---|---|
| mongo-osm/db/mongo-dao.js:22-25 | the DAO table is keyed by the string `host + port` | host "db1" on port 2 and host "db" on port 12 both give the key "db12", so the second request gets the DAO of the first | one DAO per host and port | not executed | MongoDao.SharedDaoForTwoAddresses | MongoDao.AddressTable.Get |
