/** The OSM node record and the mutable way object of the backend's geometry layer.

    A way collects node ids, is given its coordinates (checked against the ids), merges
    tags and keeps a lazily computed simplified copy of its coordinates that is never
    invalidated. Every JavaScript field that starts out `undefined` is an `Option`. */
module OsmWay {
  import opened Wrappers
  import opened GeoMath

  type OsmId = int

  /** An OSM tag dictionary. */
  type Tags = map<string, string>

  /** A node: an id, a location `[lon, lat]`, a visibility flag and optional tags. */
  datatype Node = Node(osm_id: OsmId, loc: Point, visible: bool, attrs: Option<Tags>)

  /** The bounding box of a coordinate list. Its layout is defined outside this model,
      so the box only records the coordinates it was computed from. */
  datatype BBox = BBox(points: seq<Point>)

  /** A relation membership of a way: the relation's id and the way's role in it. */
  datatype Membership = Membership(id: OsmId, role: string)

  /** The fields of a way that the feature writer reads, as a value. */
  datatype WayView = WayView(osm_id: OsmId, attrs: Option<Tags>, nodes: Option<seq<OsmId>>, coordinates: Option<seq<Point>>) {

    /** Closedness. With a non-empty id list the ids decide; otherwise the coordinates
        do, and reading the length of missing coordinates is a `TypeError`. */
    function IsPolygon(): (r: Result<bool, JsError>)
      ensures nodes.Some? && |nodes.value| > 0 ==>
        (r == Success(true) <==> |nodes.value| >= 4 && nodes.value[0] == nodes.value[|nodes.value| - 1])
      ensures nodes.Some? && |nodes.value| > 0 ==> r.Success?
      ensures !(nodes.Some? && |nodes.value| > 0) ==> (r.Failure? <==> coordinates.None?)
      ensures !(nodes.Some? && |nodes.value| > 0) && coordinates.Some? ==>
        var c := coordinates.value;
        (r == Success(true) <==>
          |c| >= 4 && -SAME_TOLERANCE < c[0].lon - c[|c| - 1].lon < SAME_TOLERANCE
          && -SAME_TOLERANCE < c[0].lat - c[|c| - 1].lat < SAME_TOLERANCE)
      ensures r.Failure? ==> r.error == TypeError
    {
      if nodes.Some? && |nodes.value| > 0 then
        var ids := nodes.value;
        Success(if |ids| < 4 then false else ids[0] == ids[|ids| - 1])
      else if coordinates.None? then
        Failure(TypeError)
      else
        var c := coordinates.value;
        Success(if |c| < 4 then false else Same(c[0], c[|c| - 1]))
    }
  }

  /** When the coordinates are the locations of the node ids, a way closed by its ids is
      also closed by its coordinates: the two modes of `IsPolygon` agree on it. */
  lemma IsPolygonModesAgree(ids: seq<OsmId>, locOf: OsmId -> Point, osm_id: OsmId, attrs: Option<Tags>)
    requires |ids| > 0
    ensures var byIds := WayView(osm_id, attrs, Some(ids), None);
      var byCoords := WayView(osm_id, attrs, None, Some(seq(|ids|, i requires 0 <= i < |ids| => locOf(ids[i]))));
      byIds.IsPolygon() == Success(true) ==> byCoords.IsPolygon() == Success(true)
  {
    var c := seq(|ids|, i requires 0 <= i < |ids| => locOf(ids[i]));
    if |ids| >= 4 && ids[0] == ids[|ids| - 1] {
      assert c[0] == c[|c| - 1];
      assert Abs(c[0].lon - c[|c| - 1].lon) == 0.0;
      assert Abs(c[0].lat - c[|c| - 1].lat) == 0.0;
    }
  }

  /** All fields of a way, as a value. */
  datatype WayState = WayState(
    visible: bool,
    nodes: Option<seq<OsmId>>,
    osm_id: OsmId,
    version: int,
    attrs: Option<Tags>,
    coordinates: Option<seq<Point>>,
    bbox: Option<BBox>,
    rel: Option<seq<Membership>>,
    sketch: Option<seq<Point>>)

  class Way {
    var visible: bool
    var nodes: Option<seq<OsmId>>
    var osm_id: OsmId
    var version: int
    var attrs: Option<Tags>
    var coordinates: Option<seq<Point>>
    var bbox: Option<BBox>
    var rel: Option<seq<Membership>>
    var sketch: Option<seq<Point>>

    /** The box always belongs to the current coordinates, and a sketch exists only once
        coordinates do. */
    ghost predicate Valid()
      reads this
    {
      && (bbox.Some? <==> coordinates.Some?)
      && (coordinates.Some? ==> bbox.value == BBox(coordinates.value))
      && (sketch.Some? ==> coordinates.Some? && |sketch.value| >= 1)
    }

    function State(): WayState
      reads this
    {
      WayState(visible, nodes, osm_id, version, attrs, coordinates, bbox, rel, sketch)
    }

    function View(): (v: WayView)
      reads this
      ensures v.osm_id == osm_id && v.attrs == attrs && v.nodes == nodes && v.coordinates == coordinates
    {
      WayView(osm_id, attrs, nodes, coordinates)
    }

    /** A fresh way: only id, version and visibility are set. */
    constructor(osm_id: OsmId, version: int, visible: bool)
      ensures Valid()
      ensures State() == WayState(visible, None, osm_id, version, None, None, None, None, None)
    {
      this.visible := visible;
      this.nodes := None;
      this.osm_id := osm_id;
      this.version := version;
      this.attrs := None;
      this.coordinates := None;
      this.bbox := None;
      this.rel := None;
      this.sketch := None;
    }

    /** Appends an id, creating the id list when there is none. */
    method AddNodeId(id: OsmId)
      requires Valid()
      modifies this
      ensures Valid()
      ensures nodes.Some? && nodes.value == old(nodes.GetOr([])) + [id]
      ensures State() == old(State()).(nodes := Some(old(nodes.GetOr([])) + [id]))
    {
      if nodes.None? {
        nodes := Some([]);
      }
      nodes := Some(nodes.value + [id]);
    }

    /** Replaces the coordinates and their box. An id list that is present, even an
        empty one, must have the same length. */
    method SetCoordinates(coord: seq<Point>) returns (r: Result<(), JsError>)
      requires Valid()
      modifies this
      ensures Valid()
      ensures r.Failure? <==> old(nodes).Some? && |coord| != |old(nodes).value|
      ensures r.Failure? ==> r.error == LengthMismatch(|coord|, |old(nodes).value|) && State() == old(State())
      ensures r.Success? ==> State() == old(State()).(coordinates := Some(coord), bbox := Some(BBox(coord)))
    {
      if nodes.Some? && |coord| != |nodes.value| {
        return Failure(LengthMismatch(|coord|, |nodes.value|));
      }
      coordinates := Some(coord);
      bbox := Some(BBox(coord));
      r := Success(());
    }

    /** Copies every entry of `tags` into the tag dictionary, creating it when there is
        none; keys not in `tags` keep their values. */
    method AddTags(tags: Tags)
      requires Valid()
      modifies this
      ensures Valid()
      ensures attrs.Some?
      ensures attrs.value.Keys == old(attrs.GetOr(map[])).Keys + tags.Keys
      ensures forall k | k in tags :: attrs.value[k] == tags[k]
      ensures forall k | k in old(attrs.GetOr(map[])) && k !in tags :: attrs.value[k] == old(attrs.GetOr(map[]))[k]
      ensures State() == old(State()).(attrs := Some(old(attrs.GetOr(map[])) + tags))
    {
      if attrs.None? {
        attrs := Some(map[]);
      }
      ghost var base := attrs.value;
      var remaining := tags.Keys;
      ghost var done: set<string> := {};
      while remaining != {}
        invariant attrs.Some? && remaining <= tags.Keys && done == tags.Keys - remaining
        invariant attrs.value.Keys == base.Keys + done
        invariant forall k | k in done :: attrs.value[k] == tags[k]
        invariant forall k | k in base && k !in done :: attrs.value[k] == base[k]
        invariant State() == old(State()).(attrs := attrs)
        decreases remaining
      {
        var key :| key in remaining;
        attrs := Some(attrs.value[key := tags[key]]);
        remaining := remaining - {key};
        done := done + {key};
      }
      assert attrs.value == base + tags;
    }

    /** Records the relations that use this way. */
    method SetRel(memberships: seq<Membership>)
      requires Valid()
      modifies this
      ensures Valid()
      ensures State() == old(State()).(rel := Some(memberships))
    {
      rel := Some(memberships);
    }

    /** The length of the way in metres; asserts coordinates with at least two points. */
    method GetLengthMeters(m: Numerics) returns (r: Result<real, JsError>)
      ensures coordinates.None? || |coordinates.value| <= 1 ==> r == Failure(AssertionError)
      ensures coordinates.Some? && |coordinates.value| > 1 ==>
        r == Success(WayLengthOf(m, coordinates.value))
      ensures AcosRange(m) && r.Success? ==> r.value >= 0.0
    {
      if coordinates.None? || |coordinates.value| <= 1 {
        return Failure(AssertionError);
      }
      var len := WayLength(m, coordinates.value);
      if AcosRange(m) {
        WayLengthNonNegative(m, coordinates.value);
      }
      r := Success(len);
    }

    /** The way simplified with a deviation of 300 metres. The first successful call
        computes and caches it; every later call returns the cached sketch, whatever the
        coordinates are by then. */
    method GetScarceWay(m: Numerics) returns (r: Result<seq<Point>, JsError>)
      requires Valid()
      modifies this
      ensures Valid()
      ensures old(coordinates).None? ==> r == Failure(AssertionError) && State() == old(State())
      ensures old(coordinates).Some? && old(sketch).Some? ==> r == Success(old(sketch).value) && State() == old(State())
      ensures old(coordinates).Some? && old(sketch).None? && |old(coordinates).value| == 0 ==>
        r == Failure(AssertionError) && State() == old(State())
      ensures old(coordinates).Some? && old(sketch).None? && |old(coordinates).value| > 0 ==>
        && r == Success(ScarceWay(m, old(coordinates).value, SCARCE_DEVIATION))
        && State() == old(State()).(sketch := Some(r.value))
      ensures r.Success? ==> |r.value| >= 1
    {
      if coordinates.None? {
        return Failure(AssertionError);
      }
      if sketch.None? {
        var simplified := ScarceWayChecked(m, coordinates.value, SCARCE_DEVIATION);
        if simplified.Failure? {
          return Failure(simplified.error);
        }
        sketch := Some(simplified.value);
      }
      r := Success(sketch.value);
    }
  }

  /** The simplification cache is not invalidated by new coordinates: a fresh way given
      `first`, simplified, then given `second` returns the sketch of `first` again. */
  method StaleSketch(m: Numerics, first: seq<Point>, second: seq<Point>) returns (before: Result<seq<Point>, JsError>, after: Result<seq<Point>, JsError>)
    requires |first| >= 1
    ensures before == Success(ScarceWay(m, first, SCARCE_DEVIATION))
    ensures after == before
  {
    var w := new Way(1, 1, true);
    var ok := w.SetCoordinates(first);
    before := w.GetScarceWay(m);
    ok := w.SetCoordinates(second);
    after := w.GetScarceWay(m);
  }
}
