/** The GeoJSON feature writer: turns the nodes, ways and relations of an OSM query
    result into a feature collection.

    Nodes become Points and ways become Polygons. Each relation becomes a MultiPoint of
    its member nodes, a MultiPolygon pairing its inner rings with the first outer ring
    that contains them, and a MultiLineString of the ways under any other role. The
    model follows the writer's control flow and error cases, including four quirks:
    - every way becomes a Polygon, because the closedness test is never called;
    - MultiPolygon coordinates carry one extra level of nesting;
    - a MultiPolygon is written even when no group formed;
    - the MultiLineString constructor names an undeclared function, so building one
      raises a `ReferenceError`.
    Warnings the writer logs are collected as a list on successful runs; the warnings
    of a run that raises, and the coordinates of the MultiLineString that is never
    built, are not modelled. */
module GeoJson {
  import opened Wrappers
  import opened GeoMath
  import opened OsmWay

  /** A way's coordinate list as the writer passes it on: `undefined` until set. */
  type Line = Option<seq<Point>>

  datatype Geometry =
    | PointGeometry(point: Point)
    | MultiPointGeometry(points: seq<Point>)
    | PolygonGeometry(rings: seq<Line>)
    | MultiPolygonGeometry(polygons: seq<seq<seq<Line>>>)

  datatype Feature = Feature(id: OsmId, properties: Option<Tags>, geometry: Geometry)

  datatype FeatureCollection = FeatureCollection(features: seq<Feature>)

  /** A relation: its members grouped as nodes and as ways by role. */
  datatype Relation = Relation(osm_id: OsmId, attrs: Option<Tags>, nodes: seq<Node>, ways: map<string, seq<WayView>>)

  /** The query result handed to the writer. */
  datatype OsmResult = OsmResult(nodes: seq<Node>, ways: seq<WayView>, relations: seq<Relation>)

  datatype Warning =
    | UnconnectedOuter(relation: OsmId)
    | NoOuterPolygon(relation: OsmId, inner: WayView)
    | UnconnectedInner(relation: OsmId)

  /** What the writer has produced so far. */
  datatype Output = Output(features: seq<Feature>, warnings: seq<Warning>)

  // ---------------------------------------------------------------------------
  // Feature constructors

  /** Every constructor passes the id and the tags through unchanged. */
  function GeoJsonPoint(osm_id: OsmId, tags: Option<Tags>, coords: Point): (r: Feature)
    ensures r.id == osm_id && r.properties == tags
    ensures r.geometry.PointGeometry? && r.geometry.point == coords
  {
    Feature(osm_id, tags, PointGeometry(coords))
  }

  function GeoJsonMultiPoint(osm_id: OsmId, tags: Option<Tags>, coords: seq<Point>): (r: Feature)
    ensures r.id == osm_id && r.properties == tags
    ensures r.geometry.MultiPointGeometry? && r.geometry.points == coords
  {
    Feature(osm_id, tags, MultiPointGeometry(coords))
  }

  /** The ring list is the given coordinate list wrapped once: a single ring. */
  function GeoJsonPolygon(osm_id: OsmId, tags: Option<Tags>, coords: Line): (r: Feature)
    ensures r.id == osm_id && r.properties == tags
    ensures r.geometry.PolygonGeometry? && |r.geometry.rings| == 1 && r.geometry.rings[0] == coords
  {
    Feature(osm_id, tags, PolygonGeometry([coords]))
  }

  /** The polygon list is the given list wrapped once more: a single element that holds
      every polygon. */
  function GeoJsonMultiPolygon(osm_id: OsmId, tags: Option<Tags>, polys: seq<seq<Line>>): (r: Feature)
    ensures r.id == osm_id && r.properties == tags
    ensures r.geometry.MultiPolygonGeometry? && |r.geometry.polygons| == 1 && r.geometry.polygons[0] == polys
  {
    Feature(osm_id, tags, MultiPolygonGeometry([polys]))
  }

  /** The constructor's first statement names an undeclared function, so it raises
      whatever it is given. */
  function GeoJsonMultiLineString(osm_id: OsmId, tags: Option<Tags>, count: nat): (r: Result<Feature, JsError>)
    ensures r == Failure(ReferenceError)
  {
    Failure(ReferenceError)
  }

  // ---------------------------------------------------------------------------
  // Nodes and ways

  function PointOf(node: Node): Feature {
    GeoJsonPoint(node.osm_id, node.attrs, node.loc)
  }

  /** One Point per node, in order. */
  function NodeFeatures(nodes: seq<Node>): (r: seq<Feature>)
    ensures |r| == |nodes|
    ensures forall i | 0 <= i < |nodes| ::
      r[i].id == nodes[i].osm_id && r[i].properties == nodes[i].attrs && r[i].geometry == PointGeometry(nodes[i].loc)
    decreases |nodes|
  {
    if nodes == [] then [] else NodeFeatures(nodes[..|nodes| - 1]) + [PointOf(nodes[|nodes| - 1])]
  }

  /** The test `if (way.isPolygon)` reads the method without calling it, and a function
      object is truthy, so every way takes the Polygon branch. */
  function WayFeature(way: WayView): Feature {
    GeoJsonPolygon(way.osm_id, way.attrs, way.coordinates)
  }

  /** One Polygon per way, in order, whatever the way's closedness. */
  function WayFeatures(ways: seq<WayView>): (r: seq<Feature>)
    ensures |r| == |ways|
    ensures forall i | 0 <= i < |ways| ::
      r[i].id == ways[i].osm_id && r[i].properties == ways[i].attrs && r[i].geometry == PolygonGeometry([ways[i].coordinates])
    decreases |ways|
  {
    if ways == [] then [] else WayFeatures(ways[..|ways| - 1]) + [WayFeature(ways[|ways| - 1])]
  }

  /** The open three-point way of the writer's own tests still becomes a Polygon. */
  lemma OpenTriangleBecomesPolygon()
    ensures var triangle := WayView(44, Some(map["name" := "triangle"]), None,
        Some([Point(3.0, 2.0), Point(4.0, 5.0), Point(5.0, 2.0)]));
      && triangle.IsPolygon() == Success(false)
      && WayFeatures([triangle]) == [Feature(44, Some(map["name" := "triangle"]),
          PolygonGeometry([Some([Point(3.0, 2.0), Point(4.0, 5.0), Point(5.0, 2.0)])]))]
  {
    var triangle := WayView(44, Some(map["name" := "triangle"]), None,
        Some([Point(3.0, 2.0), Point(4.0, 5.0), Point(5.0, 2.0)]));
    assert [triangle][..0] == [];
  }

  // ---------------------------------------------------------------------------
  // Relations: MultiPoint

  /** The member nodes' locations, in membership order. */
  function Locations(nodes: seq<Node>): (r: seq<Point>)
    ensures |r| == |nodes|
    ensures forall i | 0 <= i < |nodes| :: r[i] == nodes[i].loc
    decreases |nodes|
  {
    if nodes == [] then [] else Locations(nodes[..|nodes| - 1]) + [nodes[|nodes| - 1].loc]
  }

  function MultiPointPart(rel: Relation): seq<Feature> {
    if |rel.nodes| > 0 then [GeoJsonMultiPoint(rel.osm_id, rel.attrs, Locations(rel.nodes))] else []
  }

  // ---------------------------------------------------------------------------
  // Relations: MultiPolygon

  /** An outer ring and the inner rings assigned to it. */
  datatype Group = Group(outer: Line, inners: seq<Line>) {
    /** The GeoJSON polygon: element 0 is the outer ring. */
    function Rings(): seq<Line> {
      [outer] + inners
    }
  }

  datatype Polys = Polys(groups: seq<Group>, warnings: seq<Warning>)

  /** The writer's call `isPointInPolygon(outer, inner.coordinates[0])`: indexing missing
      coordinates, building the transform at the missing first point of an empty ring and
      slicing a missing outer ring each raise a `TypeError`. */
  function ContainsStartOf(m: Numerics, outer: Line, inner: Line): Result<bool, JsError> {
    if inner.None? || |inner.value| == 0 || outer.None? then Failure(TypeError)
    else Success(PointInPolygon(m, outer.value, inner.value[0]))
  }

  function AddOuter(rid: OsmId, acc: Polys, way: WayView): Result<Polys, JsError> {
    var closed :- way.IsPolygon();
    if closed then Success(acc.(groups := acc.groups + [Group(way.coordinates, [])]))
    else Success(acc.(warnings := acc.warnings + [UnconnectedOuter(rid)]))
  }

  function AddOuters(rid: OsmId, acc: Polys, ways: seq<WayView>): Result<Polys, JsError>
    decreases |ways|
  {
    if ways == [] then Success(acc)
    else
      var prev :- AddOuters(rid, acc, ways[..|ways| - 1]);
      AddOuter(rid, prev, ways[|ways| - 1])
  }

  /** The index of the first group from `k` on whose outer ring contains the start of
      `inner`, or the number of groups when there is none. */
  function FirstContaining(m: Numerics, groups: seq<Group>, inner: Line, k: nat): (r: Result<nat, JsError>)
    requires k <= |groups|
    ensures r.Success? ==> k <= r.value <= |groups|
    decreases |groups| - k
  {
    if k == |groups| then Success(k)
    else
      var inside :- ContainsStartOf(m, groups[k].outer, inner);
      if inside then Success(k) else FirstContaining(m, groups, inner, k + 1)
  }

  function AddInner(m: Numerics, rid: OsmId, acc: Polys, way: WayView): Result<Polys, JsError> {
    var closed :- way.IsPolygon();
    if !closed then Success(acc.(warnings := acc.warnings + [UnconnectedInner(rid)]))
    else
      var k :- FirstContaining(m, acc.groups, way.coordinates, 0);
      if k == |acc.groups| then Success(acc.(warnings := acc.warnings + [NoOuterPolygon(rid, way)]))
      else Success(acc.(groups := acc.groups[k := acc.groups[k].(inners := acc.groups[k].inners + [way.coordinates])]))
  }

  function AddInners(m: Numerics, rid: OsmId, acc: Polys, ways: seq<WayView>): Result<Polys, JsError>
    decreases |ways|
  {
    if ways == [] then Success(acc)
    else
      var prev :- AddInners(m, rid, acc, ways[..|ways| - 1]);
      AddInner(m, rid, prev, ways[|ways| - 1])
  }

  function PolysCoordinates(groups: seq<Group>): (r: seq<seq<Line>>)
    ensures |r| == |groups|
  {
    seq(|groups|, i requires 0 <= i < |groups| => groups[i].Rings())
  }

  /** The MultiPolygon written for a relation. Reading the length of a missing "outer"
      or "inner" list is a `TypeError`. */
  function MultiPolygonPart(m: Numerics, rel: Relation): Result<Output, JsError> {
    if "outer" !in rel.ways || "inner" !in rel.ways then Failure(TypeError)
    else if |rel.ways["outer"]| == 0 && |rel.ways["inner"]| == 0 then Success(Output([], []))
    else
      var outers :- AddOuters(rel.osm_id, Polys([], []), rel.ways["outer"]);
      var polys :- AddInners(m, rel.osm_id, outers, rel.ways["inner"]);
      Success(Output([GeoJsonMultiPolygon(rel.osm_id, rel.attrs, PolysCoordinates(polys.groups))], polys.warnings))
  }

  // ---------------------------------------------------------------------------
  // Relations: MultiLineString, and the whole relation

  /** The two roles a multipolygon is built from. */
  const POLYGON_ROLES: set<string> := {"outer", "inner"}

  function OtherRoles(ways: map<string, seq<WayView>>): set<string> {
    ways.Keys - POLYGON_ROLES
  }

  function RelationOutput(m: Numerics, rel: Relation): Result<Output, JsError> {
    var polygons :- MultiPolygonPart(m, rel);
    var others := |OtherRoles(rel.ways)|;
    if others > 0 then
      var line := GeoJsonMultiLineString(rel.osm_id, rel.attrs, others);
      Failure(line.error)
    else
      Success(Output(MultiPointPart(rel) + polygons.features, polygons.warnings))
  }

  /** How one relation is converted; the writer's is `RelationConverter`. */
  type Converter = Relation -> Result<Output, JsError>

  function RelationConverter(m: Numerics): Converter {
    rel => RelationOutput(m, rel)
  }

  /** The relations' features in order; the first relation that fails stops the run. */
  function RelationsOutput(convert: Converter, rels: seq<Relation>): Result<Output, JsError>
    decreases |rels|
  {
    if rels == [] then Success(Output([], []))
    else
      var prev :- RelationsOutput(convert, rels[..|rels| - 1]);
      var last :- convert(rels[|rels| - 1]);
      Success(Output(prev.features + last.features, prev.warnings + last.warnings))
  }

  /** The whole feature collection: node features, then way features, then relation
      features; the first relation that raises aborts the writer. */
  function Assemble(m: Numerics, osm: OsmResult): Result<Output, JsError> {
    var rels :- RelationsOutput(RelationConverter(m), osm.relations);
    Success(Output(NodeFeatures(osm.nodes) + WayFeatures(osm.ways) + rels.features, rels.warnings))
  }

  // ---------------------------------------------------------------------------
  // Outer rings

  /** Reference definition: the coordinates of the closed ways, in order. */
  function ClosedLines(ways: seq<WayView>): (r: seq<Line>)
    ensures |r| <= |ways|
    decreases |ways|
  {
    if ways == [] then []
    else (if ways[0].IsPolygon() == Success(true) then [ways[0].coordinates] else []) + ClosedLines(ways[1..])
  }

  lemma {:induction false} ClosedLinesSnoc(ways: seq<WayView>, way: WayView)
    ensures ClosedLines(ways + [way]) == ClosedLines(ways) + (if way.IsPolygon() == Success(true) then [way.coordinates] else [])
    decreases |ways|
  {
    var last := if way.IsPolygon() == Success(true) then [way.coordinates] else [];
    if ways == [] {
      assert ([] + [way])[1..] == [];
      assert ClosedLines([way]) == last + ClosedLines([]);
    } else {
      var longer := ways + [way];
      var head := if ways[0].IsPolygon() == Success(true) then [ways[0].coordinates] else [];
      assert longer[0] == ways[0] && longer[1..] == ways[1..] + [way];
      assert ClosedLines(longer) == head + ClosedLines(ways[1..] + [way]);
      ClosedLinesSnoc(ways[1..], way);
      assert ClosedLines(ways) == head + ClosedLines(ways[1..]);
    }
  }

  /** A fresh group per outer ring. */
  function NewGroups(lines: seq<Line>): (r: seq<Group>)
    ensures |r| == |lines|
  {
    seq(|lines|, i requires 0 <= i < |lines| => Group(lines[i], []))
  }

  /** The outer pass succeeds exactly when every outer way can be tested; it then
      appends one group `[coordinates]` per closed outer way, in member order, and one
      warning per open one. */
  lemma {:induction false} AddOutersGroups(rid: OsmId, acc: Polys, ways: seq<WayView>)
    ensures var r := AddOuters(rid, acc, ways);
      && (r.Success? <==> forall i | 0 <= i < |ways| :: ways[i].IsPolygon().Success?)
      && (r.Failure? ==> r.error == TypeError)
      && (r.Success? ==>
        && r.value.groups == acc.groups + NewGroups(ClosedLines(ways))
        && |r.value.warnings| == |acc.warnings| + |ways| - |ClosedLines(ways)|
        && r.value.warnings[..|acc.warnings|] == acc.warnings
        && forall i | |acc.warnings| <= i < |r.value.warnings| :: r.value.warnings[i] == UnconnectedOuter(rid))
    decreases |ways|
  {
    if ways != [] {
      var front := ways[..|ways| - 1];
      var last := ways[|ways| - 1];
      assert ways == front + [last];
      AddOutersGroups(rid, acc, front);
      ClosedLinesSnoc(front, last);
      var prev := AddOuters(rid, acc, front);
      if prev.Success? {
        var ws := prev.value.warnings;
        if last.IsPolygon() == Success(true) {
          assert NewGroups(ClosedLines(ways)) == NewGroups(ClosedLines(front)) + [Group(last.coordinates, [])];
        } else if last.IsPolygon().Success? {
          assert ClosedLines(ways) == ClosedLines(front);
          assert (ws + [UnconnectedOuter(rid)])[..|acc.warnings|] == ws[..|acc.warnings|];
        }
      } else {
        assert !(forall i | 0 <= i < |front| :: front[i].IsPolygon().Success?);
      }
    }
  }

  // ---------------------------------------------------------------------------
  // Inner rings

  /** The search stops at the first group whose outer ring contains the inner ring's
      start, reports the number of groups when none does, and fails at the first group
      whose test raises. */
  lemma FirstContainingIsFirst(m: Numerics, groups: seq<Group>, inner: Line, k: nat)
    requires k <= |groups|
    ensures var r := FirstContaining(m, groups, inner, k);
      && (r.Success? ==>
        && (forall j | k <= j < r.value :: ContainsStartOf(m, groups[j].outer, inner) == Success(false))
        && (r.value < |groups| ==> ContainsStartOf(m, groups[r.value].outer, inner) == Success(true)))
      && (r.Failure? ==> r.error == TypeError && exists j | k <= j < |groups| ::
        && ContainsStartOf(m, groups[j].outer, inner).Failure?
        && forall i | k <= i < j :: ContainsStartOf(m, groups[i].outer, inner) == Success(false))
  {
    FirstContainingFound(m, groups, inner, k);
    FirstContainingFails(m, groups, inner, k);
  }

  /** The success half of `FirstContainingIsFirst`. */
  lemma {:induction false} FirstContainingFound(m: Numerics, groups: seq<Group>, inner: Line, k: nat)
    requires k <= |groups|
    ensures var r := FirstContaining(m, groups, inner, k);
      r.Success? ==>
        && (forall j | k <= j < r.value :: ContainsStartOf(m, groups[j].outer, inner) == Success(false))
        && (r.value < |groups| ==> ContainsStartOf(m, groups[r.value].outer, inner) == Success(true))
    decreases |groups| - k
  {
    if k < |groups| && ContainsStartOf(m, groups[k].outer, inner) == Success(false) {
      FirstContainingFound(m, groups, inner, k + 1);
    }
  }

  /** The failure half of `FirstContainingIsFirst`. */
  lemma {:induction false} FirstContainingFails(m: Numerics, groups: seq<Group>, inner: Line, k: nat)
    requires k <= |groups|
    ensures var r := FirstContaining(m, groups, inner, k);
      r.Failure? ==> r.error == TypeError && exists j | k <= j < |groups| ::
        && ContainsStartOf(m, groups[j].outer, inner).Failure?
        && forall i | k <= i < j :: ContainsStartOf(m, groups[i].outer, inner) == Success(false)
    decreases |groups| - k
  {
    if k < |groups| {
      var c := ContainsStartOf(m, groups[k].outer, inner);
      if c == Success(false) {
        FirstContainingFails(m, groups, inner, k + 1);
        var r := FirstContaining(m, groups, inner, k + 1);
        if r.Failure? {
          var j :| k + 1 <= j < |groups| && ContainsStartOf(m, groups[j].outer, inner).Failure?
            && forall i | k + 1 <= i < j :: ContainsStartOf(m, groups[i].outer, inner) == Success(false);
          assert forall i | k <= i < j :: ContainsStartOf(m, groups[i].outer, inner) == Success(false);
        }
      } else if c.Failure? {
        assert ContainsStartOf(m, groups[k].outer, inner).Failure?;
      }
    }
  }

  /** An inner way: raises when its closedness cannot be tested; warns and changes no
      group when open; when closed, joins the first group whose outer ring contains its
      start and no other group, or warns when no group does. */
  lemma AddInnerEffect(m: Numerics, rid: OsmId, acc: Polys, way: WayView)
    ensures way.IsPolygon().Failure? ==> AddInner(m, rid, acc, way) == Failure(TypeError)
    ensures way.IsPolygon() == Success(false) ==>
      AddInner(m, rid, acc, way) == Success(acc.(warnings := acc.warnings + [UnconnectedInner(rid)]))
    ensures way.IsPolygon() == Success(true) ==>
      forall k | 0 <= k < |acc.groups|
        && ContainsStartOf(m, acc.groups[k].outer, way.coordinates) == Success(true)
        && (forall j | 0 <= j < k :: ContainsStartOf(m, acc.groups[j].outer, way.coordinates) == Success(false)) ::
        AddInner(m, rid, acc, way) ==
          Success(acc.(groups := acc.groups[k := Group(acc.groups[k].outer, acc.groups[k].inners + [way.coordinates])]))
    ensures (way.IsPolygon() == Success(true)
      && forall j | 0 <= j < |acc.groups| :: ContainsStartOf(m, acc.groups[j].outer, way.coordinates) == Success(false)) ==>
      AddInner(m, rid, acc, way) == Success(acc.(warnings := acc.warnings + [NoOuterPolygon(rid, way)]))
  {
    FirstContainingIsFirst(m, acc.groups, way.coordinates, 0);
  }

  /** Number of inner rings over all groups. */
  function TotalInners(groups: seq<Group>): nat
    decreases |groups|
  {
    if groups == [] then 0 else |groups[0].inners| + TotalInners(groups[1..])
  }

  lemma {:induction false} TotalInnersAppend(groups: seq<Group>, k: nat, ring: Line)
    requires k < |groups|
    ensures TotalInners(groups[k := groups[k].(inners := groups[k].inners + [ring])]) == TotalInners(groups) + 1
    decreases |groups|
  {
    var updated := groups[k := groups[k].(inners := groups[k].inners + [ring])];
    if k > 0 {
      assert updated[1..] == groups[1..][k - 1 := groups[1..][k - 1].(inners := groups[1..][k - 1].inners + [ring])];
      TotalInnersAppend(groups[1..], k - 1, ring);
    } else {
      assert updated[1..] == groups[1..];
    }
  }

  /** The inner pass keeps every group and its outer ring, and accounts for each inner
      way exactly once: it either joins a single group or adds a single warning. */
  lemma {:induction false} AddInnersAccounting(m: Numerics, rid: OsmId, acc: Polys, ways: seq<WayView>)
    ensures var r := AddInners(m, rid, acc, ways);
      r.Success? ==>
        && |r.value.groups| == |acc.groups|
        && (forall j | 0 <= j < |acc.groups| :: r.value.groups[j].outer == acc.groups[j].outer)
        && |r.value.warnings| + TotalInners(r.value.groups) == |acc.warnings| + TotalInners(acc.groups) + |ways|
    decreases |ways|
  {
    if ways != [] {
      var front := ways[..|ways| - 1];
      var last := ways[|ways| - 1];
      AddInnersAccounting(m, rid, acc, front);
      var prev := AddInners(m, rid, acc, front);
      if prev.Success? && last.IsPolygon() == Success(true) {
        var p := prev.value;
        var k := FirstContaining(m, p.groups, last.coordinates, 0);
        if k.Success? && k.value < |p.groups| {
          TotalInnersAppend(p.groups, k.value, last.coordinates);
        }
      }
    }
  }

  // ---------------------------------------------------------------------------
  // MultiPolygon and the relation as a whole

  /** With both role lists present, a MultiPolygon is written exactly when one of them is
      non-empty, with the group list wrapped once more, even when no group formed. */
  lemma MultiPolygonWritten(m: Numerics, rel: Relation)
    requires "outer" in rel.ways && "inner" in rel.ways
    ensures var r := MultiPolygonPart(m, rel);
      r.Success? ==>
        && (|r.value.features| == 1 <==> |rel.ways["outer"]| > 0 || |rel.ways["inner"]| > 0)
        && (|r.value.features| != 1 ==> r.value == Output([], []))
        && (|r.value.features| == 1 ==> exists polys: seq<seq<Line>> ::
             r.value.features[0] == Feature(rel.osm_id, rel.attrs, MultiPolygonGeometry([polys])))
  {
    var r := MultiPolygonPart(m, rel);
    if r.Success? && (|rel.ways["outer"]| > 0 || |rel.ways["inner"]| > 0) {
      var outers := AddOuters(rel.osm_id, Polys([], []), rel.ways["outer"]).value;
      var polys := AddInners(m, rel.osm_id, outers, rel.ways["inner"]).value;
      assert r.value.features[0] == Feature(rel.osm_id, rel.attrs, MultiPolygonGeometry([PolysCoordinates(polys.groups)]));
    }
  }

  /** A relation whose only outer way is open still yields a MultiPolygon, with an empty
      group list inside the extra nesting, and one warning. */
  lemma OpenOuterStillWritten(m: Numerics, rid: OsmId, attrs: Option<Tags>, outer: seq<Point>)
    requires |outer| < 4
    ensures var way := WayView(33, None, None, Some(outer));
      RelationOutput(m, Relation(rid, attrs, [], map["outer" := [way], "inner" := []])) ==
        Success(Output([Feature(rid, attrs, MultiPolygonGeometry([[]]))], [UnconnectedOuter(rid)]))
  {
    var way := WayView(33, None, None, Some(outer));
    var rel := Relation(rid, attrs, [], map["outer" := [way], "inner" := []]);
    var empty := Polys([], []);
    var warned := Polys([], [UnconnectedOuter(rid)]);
    assert [way][..0] == [];
    assert way.IsPolygon() == Success(false);
    var x := AddOuter(rid, empty, way);
    assert x.value.warnings == [UnconnectedOuter(rid)] && x.value.groups == [];
    assert x == Success(warned);
    assert AddOuters(rid, empty, [way]) == Success(warned);
    assert AddInners(m, rid, warned, []) == Success(warned);
    assert PolysCoordinates(warned.groups) == [];
    assert rel.ways["outer"] == [way] && rel.ways["inner"] == [];
    var part := Output([Feature(rid, attrs, MultiPolygonGeometry([[]]))], [UnconnectedOuter(rid)]);
    assert MultiPolygonPart(m, rel) == Success(part);
    assert OtherRoles(rel.ways) == {};
    assert MultiPointPart(rel) == [];
    assert MultiPointPart(rel) + part.features == part.features;
  }

  /** One closed outer ring and one closed inner ring starting inside it form a single
      polygon `[outer, inner]`, written as `[[[outer, inner]]]`. */
  lemma InnerJoinsContainingOuter(m: Numerics, rid: OsmId, outer: WayView, inner: WayView)
    requires outer.IsPolygon() == Success(true) && inner.IsPolygon() == Success(true)
    requires outer.coordinates.Some? && inner.coordinates.Some? && |inner.coordinates.value| > 0
    requires PointInPolygon(m, outer.coordinates.value, inner.coordinates.value[0])
    ensures RelationOutput(m, Relation(rid, None, [], map["outer" := [outer], "inner" := [inner]])) ==
      Success(Output([Feature(rid, None, MultiPolygonGeometry([[[outer.coordinates, inner.coordinates]]]))], []))
  {
    var rel := Relation(rid, None, [], map["outer" := [outer], "inner" := [inner]]);
    var g := Group(outer.coordinates, []);
    var groups := [g.(inners := g.inners + [inner.coordinates])];
    InnerJoinsPasses(m, rid, outer, inner);
    assert groups[0].Rings() == [outer.coordinates, inner.coordinates];
    assert PolysCoordinates(groups) == [[outer.coordinates, inner.coordinates]];
    assert rel.ways["outer"] == [outer] && rel.ways["inner"] == [inner];
    var part := Output([Feature(rid, None, MultiPolygonGeometry([[[outer.coordinates, inner.coordinates]]]))], []);
    assert MultiPolygonPart(m, rel) == Success(part);
    assert OtherRoles(rel.ways) == {};
    assert MultiPointPart(rel) == [];
    assert MultiPointPart(rel) + part.features == part.features;
  }

  /** The two passes of that relation: the outer way opens one group, and the inner
      ring joins it. */
  lemma InnerJoinsPasses(m: Numerics, rid: OsmId, outer: WayView, inner: WayView)
    requires outer.IsPolygon() == Success(true) && inner.IsPolygon() == Success(true)
    requires outer.coordinates.Some? && inner.coordinates.Some? && |inner.coordinates.value| > 0
    requires PointInPolygon(m, outer.coordinates.value, inner.coordinates.value[0])
    ensures var g := Group(outer.coordinates, []);
      && AddOuters(rid, Polys([], []), [outer]) == Success(Polys([g], []))
      && AddInners(m, rid, Polys([g], []), [inner]) == Success(Polys([g.(inners := g.inners + [inner.coordinates])], []))
  {
    OuterPassOfOne(rid, outer);
    InnerPassOfOne(m, rid, Group(outer.coordinates, []), inner);
  }

  /** A single closed outer way opens a single group. */
  lemma OuterPassOfOne(rid: OsmId, outer: WayView)
    requires outer.IsPolygon() == Success(true)
    ensures AddOuters(rid, Polys([], []), [outer]) == Success(Polys([Group(outer.coordinates, [])], []))
  {
    assert [outer][..0] == [];
    var x := AddOuter(rid, Polys([], []), outer);
    assert x.value.groups == [Group(outer.coordinates, [])] && x.value.warnings == [];
  }

  /** A single closed inner ring whose start lies in the one group's outer ring joins it. */
  lemma InnerPassOfOne(m: Numerics, rid: OsmId, g: Group, inner: WayView)
    requires inner.IsPolygon() == Success(true)
    requires g.outer.Some? && inner.coordinates.Some? && |inner.coordinates.value| > 0
    requires PointInPolygon(m, g.outer.value, inner.coordinates.value[0])
    ensures AddInners(m, rid, Polys([g], []), [inner]) == Success(Polys([g.(inners := g.inners + [inner.coordinates])], []))
  {
    assert [inner][..0] == [];
    var start := Polys([g], []);
    assert ContainsStartOf(m, g.outer, inner.coordinates) == Success(true);
    assert FirstContaining(m, start.groups, inner.coordinates, 0) == Success(0);
    var joined := g.(inners := g.inners + [inner.coordinates]);
    assert start.groups[0 := joined] == [joined];
    assert AddInner(m, rid, start, inner) == Success(Polys([joined], []));
  }

  /** A relation raises a `TypeError` when its "outer" or "inner" list is missing, and a
      `ReferenceError` when, its polygons written, it has ways under any other role; it
      succeeds exactly when neither happens and its polygons can be written. On success
      its features are the MultiPoint, present exactly when it has member nodes, then the
      MultiPolygon part. */
  lemma RelationOutcome(m: Numerics, rel: Relation)
    ensures "outer" !in rel.ways || "inner" !in rel.ways ==> RelationOutput(m, rel) == Failure(TypeError)
    ensures MultiPolygonPart(m, rel).Success? && |OtherRoles(rel.ways)| > 0 ==>
      RelationOutput(m, rel) == Failure(ReferenceError)
    ensures RelationOutput(m, rel).Success? <==>
      MultiPolygonPart(m, rel).Success? && rel.ways.Keys <= {"outer", "inner"}
    ensures RelationOutput(m, rel).Success? ==>
      var f := RelationOutput(m, rel).value.features;
      && (|rel.nodes| > 0 <==> |f| > 0 && f[0].geometry.MultiPointGeometry?)
      && (|rel.nodes| > 0 ==> f[0] == Feature(rel.osm_id, rel.attrs, MultiPointGeometry(Locations(rel.nodes))))
      && f[|MultiPointPart(rel)|..] == MultiPolygonPart(m, rel).value.features
  {
    if MultiPolygonPart(m, rel).Success? {
      assert rel.ways.Keys <= {"outer", "inner"} <==> |OtherRoles(rel.ways)| == 0;
      var p := MultiPolygonPart(m, rel).value;
      assert forall f | f in p.features :: f.geometry.MultiPolygonGeometry?;
    }
  }

  // ---------------------------------------------------------------------------
  // The whole writer

  /** The relations succeed exactly when each one does. */
  lemma {:induction false} RelationsSucceed(convert: Converter, rels: seq<Relation>)
    ensures RelationsOutput(convert, rels).Success? <==> forall i | 0 <= i < |rels| :: convert(rels[i]).Success?
    decreases |rels|
  {
    if rels != [] {
      var front := rels[..|rels| - 1];
      var last := rels[|rels| - 1];
      RelationsSucceed(convert, front);
      assert RelationsOutput(convert, rels).Success? <==>
        RelationsOutput(convert, front).Success? && convert(last).Success?;
      assert forall i | 0 <= i < |front| :: front[i] == rels[i];
    }
  }

  /** Otherwise the writer raises the error of the first relation that fails. */
  lemma {:induction false} RelationsFirstError(convert: Converter, rels: seq<Relation>, k: nat)
    requires k < |rels| && convert(rels[k]).Failure?
    requires forall i | 0 <= i < k :: convert(rels[i]).Success?
    ensures RelationsOutput(convert, rels) == Failure(convert(rels[k]).error)
    decreases |rels|
  {
    var front := rels[..|rels| - 1];
    var e := convert(rels[k]).error;
    if k < |front| {
      assert front[k] == rels[k];
      assert forall i | 0 <= i < k :: convert(front[i]).Success? by {
        assert forall i | 0 <= i < k :: front[i] == rels[i];
      }
      RelationsFirstError(convert, front, k);
      assert RelationsOutput(convert, front) == Failure(e);
    } else {
      assert forall i | 0 <= i < |front| :: convert(front[i]).Success? by {
        assert forall i | 0 <= i < |front| :: front[i] == rels[i];
      }
      RelationsSucceed(convert, front);
      assert RelationsOutput(convert, front).Success?;
      assert rels[|rels| - 1] == rels[k];
    }
  }

  /** The collection lists one Point per node, then one Polygon per way, then exactly
      the relations' features in order; it fails exactly when a relation does. */
  lemma AssembleOrder(m: Numerics, osm: OsmResult)
    ensures Assemble(m, osm).Success? <==> RelationsOutput(RelationConverter(m), osm.relations).Success?
    ensures var r := Assemble(m, osm);
      r.Success? ==>
        var f := r.value.features;
        && |f| >= |osm.nodes| + |osm.ways|
        && (forall i | 0 <= i < |osm.nodes| :: f[i] == Feature(osm.nodes[i].osm_id, osm.nodes[i].attrs, PointGeometry(osm.nodes[i].loc)))
        && (forall i | 0 <= i < |osm.ways| ::
          f[|osm.nodes| + i] == Feature(osm.ways[i].osm_id, osm.ways[i].attrs, PolygonGeometry([osm.ways[i].coordinates])))
        && f[|osm.nodes| + |osm.ways|..] == RelationsOutput(RelationConverter(m), osm.relations).value.features
  {
    var r := Assemble(m, osm);
    if r.Success? {
      var f := r.value.features;
      var nf := NodeFeatures(osm.nodes);
      var wf := WayFeatures(osm.ways);
      var rf := RelationsOutput(RelationConverter(m), osm.relations).value.features;
      assert f == nf + wf + rf;
      assert f[|nf| + |wf|..] == rf;
      forall i | 0 <= i < |osm.ways|
        ensures f[|osm.nodes| + i] == Feature(osm.ways[i].osm_id, osm.ways[i].attrs, PolygonGeometry([osm.ways[i].coordinates]))
      {
        assert f[|osm.nodes| + i] == wf[i];
      }
    }
  }

  // ---------------------------------------------------------------------------
  // A failure part-way through a fold is the fold's result

  lemma {:induction false} AddOutersFailurePersists(rid: OsmId, acc: Polys, ways: seq<WayView>, i: nat)
    requires i <= |ways| && AddOuters(rid, acc, ways[..i]).Failure?
    ensures AddOuters(rid, acc, ways) == AddOuters(rid, acc, ways[..i])
    decreases |ways|
  {
    if i < |ways| {
      var front := ways[..|ways| - 1];
      assert front[..i] == ways[..i];
      AddOutersFailurePersists(rid, acc, front, i);
    } else {
      assert ways[..i] == ways;
    }
  }

  lemma {:induction false} AddInnersFailurePersists(m: Numerics, rid: OsmId, acc: Polys, ways: seq<WayView>, i: nat)
    requires i <= |ways| && AddInners(m, rid, acc, ways[..i]).Failure?
    ensures AddInners(m, rid, acc, ways) == AddInners(m, rid, acc, ways[..i])
    decreases |ways|
  {
    if i < |ways| {
      var front := ways[..|ways| - 1];
      assert front[..i] == ways[..i];
      AddInnersFailurePersists(m, rid, acc, front, i);
    } else {
      assert ways[..i] == ways;
    }
  }

  lemma {:induction false} RelationsFailurePersists(convert: Converter, rels: seq<Relation>, i: nat)
    requires i <= |rels| && RelationsOutput(convert, rels[..i]).Failure?
    ensures RelationsOutput(convert, rels) == RelationsOutput(convert, rels[..i])
    decreases |rels|
  {
    if i < |rels| {
      var front := rels[..|rels| - 1];
      assert front[..i] == rels[..i];
      RelationsFailurePersists(convert, front, i);
    } else {
      assert rels[..i] == rels;
    }
  }

  // ---------------------------------------------------------------------------
  // The writer's loops

  /** The inner-ring search: an index loop that stops at the first containing group and
      otherwise runs to the group count. */
  method FindOuter(m: Numerics, groups: seq<Group>, inner: Line) returns (r: Result<nat, JsError>)
    ensures r == FirstContaining(m, groups, inner, 0)
  {
    var i := 0;
    while i < |groups|
      invariant 0 <= i <= |groups|
      invariant FirstContaining(m, groups, inner, 0) == FirstContaining(m, groups, inner, i)
    {
      var inside := ContainsStartOf(m, groups[i].outer, inner);
      if inside.Failure? {
        return Failure(inside.error);
      }
      if inside.value {
        break;
      }
      i := i + 1;
    }
    r := Success(i);
  }

  /** The outer-ring loop: one group per closed way, a warning per open one. */
  method CollectOuters(rid: OsmId, outers: seq<WayView>) returns (r: Result<seq<Group>, JsError>, ghost warnings: seq<Warning>)
    ensures var spec := AddOuters(rid, Polys([], []), outers);
      && (r.Success? <==> spec.Success?)
      && (r.Success? ==> r.value == spec.value.groups)
      && (r.Failure? ==> r.error == spec.error)
    ensures r.Success? ==> warnings == AddOuters(rid, Polys([], []), outers).value.warnings
  {
    var groups: seq<Group> := [];
    warnings := [];
    for i := 0 to |outers|
      invariant AddOuters(rid, Polys([], []), outers[..i]) == Success(Polys(groups, warnings))
    {
      assert outers[..i + 1][..i] == outers[..i];
      var closed := outers[i].IsPolygon();
      if closed.Failure? {
        AddOutersFailurePersists(rid, Polys([], []), outers, i + 1);
        return Failure(closed.error), warnings;
      }
      if closed.value {
        groups := groups + [Group(outers[i].coordinates, [])];
      } else {
        warnings := warnings + [UnconnectedOuter(rid)];
      }
    }
    assert outers[..|outers|] == outers;
    r := Success(groups);
  }

  /** The inner-ring loop: each closed inner way joins the first group containing its
      start; open ways and unmatched rings warn. */
  method AttachInners(m: Numerics, rid: OsmId, start: seq<Group>, ghost startWarnings: seq<Warning>, inners: seq<WayView>)
    returns (r: Result<seq<Group>, JsError>, ghost warnings: seq<Warning>)
    ensures var spec := AddInners(m, rid, Polys(start, startWarnings), inners);
      && (r.Success? <==> spec.Success?)
      && (r.Success? ==> r.value == spec.value.groups)
      && (r.Failure? ==> r.error == spec.error)
    ensures r.Success? ==> warnings == AddInners(m, rid, Polys(start, startWarnings), inners).value.warnings
  {
    var groups := start;
    warnings := startWarnings;
    for i := 0 to |inners|
      invariant AddInners(m, rid, Polys(start, startWarnings), inners[..i]) == Success(Polys(groups, warnings))
    {
      assert inners[..i + 1][..i] == inners[..i];
      var inner := inners[i];
      var closed := inner.IsPolygon();
      if closed.Failure? {
        AddInnersFailurePersists(m, rid, Polys(start, startWarnings), inners, i + 1);
        return Failure(closed.error), warnings;
      }
      if closed.value {
        var k := FindOuter(m, groups, inner.coordinates);
        if k.Failure? {
          AddInnersFailurePersists(m, rid, Polys(start, startWarnings), inners, i + 1);
          return Failure(k.error), warnings;
        }
        if k.value < |groups| {
          groups := groups[k.value := groups[k.value].(inners := groups[k.value].inners + [inner.coordinates])];
        } else {
          warnings := warnings + [NoOuterPolygon(rid, inner)];
        }
      } else {
        warnings := warnings + [UnconnectedInner(rid)];
      }
    }
    assert inners[..|inners|] == inners;
    r := Success(groups);
  }

  /** Counts the roles other than "outer" and "inner", one entry per key. */
  method CountOtherRoles(ways: map<string, seq<WayView>>) returns (count: nat)
    ensures count == |OtherRoles(ways)|
  {
    count := 0;
    var keys := ways.Keys;
    while keys != {}
      invariant count + |keys - POLYGON_ROLES| == |OtherRoles(ways)|
      decreases keys
    {
      var key :| key in keys;
      OtherRolesStep(keys, key);
      if key !in POLYGON_ROLES {
        count := count + 1;
      }
      keys := keys - {key};
    }
  }

  /** Taking one key out of the unvisited ones removes one other role unless it is
      `outer` or `inner`. */
  lemma OtherRolesStep(keys: set<string>, key: string)
    requires key in keys
    ensures |keys - POLYGON_ROLES| == |(keys - {key}) - POLYGON_ROLES| + (if key in POLYGON_ROLES then 0 else 1)
  {
    var after := (keys - {key}) - POLYGON_ROLES;
    if key in POLYGON_ROLES {
      assert keys - POLYGON_ROLES == after;
    } else {
      assert keys - POLYGON_ROLES == after + {key};
    }
  }

  /** The features of one relation. */
  method ConvertRelation(m: Numerics, rel: Relation) returns (r: Result<seq<Feature>, JsError>, ghost warnings: seq<Warning>)
    ensures var spec := RelationOutput(m, rel);
      && (r.Success? <==> spec.Success?)
      && (r.Success? ==> r.value == spec.value.features)
      && (r.Failure? ==> r.error == spec.error)
    ensures r.Success? ==> warnings == RelationOutput(m, rel).value.warnings
  {
    warnings := [];
    var nodeCoords: seq<Point> := [];
    for i := 0 to |rel.nodes|
      invariant nodeCoords == Locations(rel.nodes[..i])
    {
      assert rel.nodes[..i + 1][..i] == rel.nodes[..i];
      nodeCoords := nodeCoords + [rel.nodes[i].loc];
    }
    assert rel.nodes[..|rel.nodes|] == rel.nodes;
    var features: seq<Feature> := [];
    if |nodeCoords| > 0 {
      features := features + [GeoJsonMultiPoint(rel.osm_id, rel.attrs, nodeCoords)];
    }
    assert features == MultiPointPart(rel);

    if "outer" !in rel.ways || (|rel.ways["outer"]| == 0 && "inner" !in rel.ways) {
      return Failure(TypeError), warnings;
    }
    if |rel.ways["outer"]| > 0 || |rel.ways["inner"]| > 0 {
      var outers, outerWarnings := CollectOuters(rel.osm_id, rel.ways["outer"]);
      if outers.Failure? {
        AddOutersGroups(rel.osm_id, Polys([], []), rel.ways["outer"]);
        return Failure(outers.error), warnings;
      }
      if "inner" !in rel.ways {
        return Failure(TypeError), warnings;
      }
      var polys, polyWarnings := AttachInners(m, rel.osm_id, outers.value, outerWarnings, rel.ways["inner"]);
      if polys.Failure? {
        return Failure(polys.error), warnings;
      }
      features := features + [GeoJsonMultiPolygon(rel.osm_id, rel.attrs, PolysCoordinates(polys.value))];
      warnings := polyWarnings;
    }

    var others := CountOtherRoles(rel.ways);
    if others > 0 {
      var line := GeoJsonMultiLineString(rel.osm_id, rel.attrs, others);
      return Failure(line.error), warnings;
    }
    r := Success(features);
  }

  /** The node loop: one Point per node. */
  method WriteNodes(nodes: seq<Node>) returns (features: seq<Feature>)
    ensures features == NodeFeatures(nodes)
  {
    features := [];
    for i := 0 to |nodes|
      invariant features == NodeFeatures(nodes[..i])
    {
      assert nodes[..i + 1][..i] == nodes[..i];
      var node := nodes[i];
      features := features + [GeoJsonPoint(node.osm_id, node.attrs, node.loc)];
    }
    assert nodes[..|nodes|] == nodes;
  }

  /** The way loop: one Polygon per way. */
  method WriteWays(ways: seq<WayView>) returns (features: seq<Feature>)
    ensures features == WayFeatures(ways)
  {
    features := [];
    for i := 0 to |ways|
      invariant features == WayFeatures(ways[..i])
    {
      assert ways[..i + 1][..i] == ways[..i];
      var way := ways[i];
      // `way.isPolygon` is a method and therefore truthy: always the Polygon branch.
      features := features + [GeoJsonPolygon(way.osm_id, way.attrs, way.coordinates)];
    }
    assert ways[..|ways|] == ways;
  }

  /** The relation loop: each relation's features in turn, up to the first error. */
  method WriteRelations(m: Numerics, rels: seq<Relation>) returns (r: Result<seq<Feature>, JsError>, ghost warnings: seq<Warning>)
    ensures var spec := RelationsOutput(RelationConverter(m), rels);
      && (r.Success? <==> spec.Success?)
      && (r.Success? ==> r.value == spec.value.features)
      && (r.Failure? ==> r.error == spec.error)
    ensures r.Success? ==> warnings == RelationsOutput(RelationConverter(m), rels).value.warnings
  {
    var features: seq<Feature> := [];
    warnings := [];
    for i := 0 to |rels|
      invariant RelationsOutput(RelationConverter(m), rels[..i]) == Success(Output(features, warnings))
    {
      assert rels[..i + 1][..i] == rels[..i];
      var converted, relWarnings := ConvertRelation(m, rels[i]);
      assert RelationConverter(m)(rels[i]) == RelationOutput(m, rels[i]);
      if converted.Failure? {
        RelationsFailurePersists(RelationConverter(m), rels, i + 1);
        return Failure(converted.error), warnings;
      }
      features := features + converted.value;
      warnings := warnings + relWarnings;
    }
    assert rels[..|rels|] == rels;
    r := Success(features);
  }

  /** The writer: node features, then way features, then each relation's features. */
  method GeoJsonStream(m: Numerics, osm: OsmResult) returns (r: Result<FeatureCollection, JsError>, ghost warnings: seq<Warning>)
    ensures var spec := Assemble(m, osm);
      && (r.Success? <==> spec.Success?)
      && (r.Success? ==> r.value == FeatureCollection(spec.value.features))
      && (r.Failure? ==> r.error == spec.error)
    ensures r.Success? ==> warnings == Assemble(m, osm).value.warnings
  {
    var points := WriteNodes(osm.nodes);
    var polygons := WriteWays(osm.ways);
    var relations;
    relations, warnings := WriteRelations(m, osm.relations);
    if relations.Failure? {
      return Failure(relations.error), warnings;
    }
    r := Success(FeatureCollection(points + polygons + relations.value));
  }
}
