/** The non-rendering state of the browser map client: the list of layer names, the
    data sets that load features for a layer, their outstanding-request counters, the
    ten "microlayer" buckets a data set sorts its features into by their `layer` tag,
    and the gate that lets rendering start only once every data set has loaded.

    The drawing itself is outside the model: `ReadyToRender` returns the order in which
    it would ask the data sets to render, as indices into the list of data sets. */
module Osmogon {
  import opened Wrappers
  import opened Seqs

  /** A feature as it arrives from the server; `properties` may be missing. */
  datatype ClientFeature = ClientFeature(id: int, properties: Option<map<string, string>>)

  /** The browser's `parseInt`: `None` stands for `NaN`. */
  type ParseInt = string -> Option<int>

  /** Number of microlayer buckets: the layer tag runs from -5 to 4. */
  const BUCKETS: nat := 10

  /** The bucket of a feature with these properties, or `None` when it is dropped. */
  function BucketOf(props: map<string, string>, parseInt: ParseInt): (r: Option<nat>)
    ensures "layer" !in props ==> r == Some(5)
    ensures "layer" in props ==>
      (r.Some? <==> parseInt(props["layer"]).Some? && -5 <= parseInt(props["layer"]).value < 5)
    ensures "layer" in props && r.Some? ==> r.value as int == parseInt(props["layer"]).value + 5
    ensures r.Some? ==> r.value < BUCKETS
  {
    if "layer" in props then
      var layer := parseInt(props["layer"]);
      if layer.Some? && -5 <= layer.value < 5 then Some((layer.value + 5) as nat) else None
    else Some(5)
  }

  /** Every feature has properties. */
  predicate AllDefined(features: seq<ClientFeature>) {
    forall i | 0 <= i < |features| :: features[i].properties.Some?
  }

  /** The buckets after pushing one feature. */
  function Place(buckets: seq<seq<ClientFeature>>, f: ClientFeature, parseInt: ParseInt): seq<seq<ClientFeature>>
    requires |buckets| == BUCKETS && f.properties.Some?
  {
    match BucketOf(f.properties.value, parseInt)
    case None => buckets
    case Some(k) => buckets[k := buckets[k] + [f]]
  }

  /** The buckets after pushing the features one after the other. */
  function Distribute(buckets: seq<seq<ClientFeature>>, features: seq<ClientFeature>, parseInt: ParseInt): (r: seq<seq<ClientFeature>>)
    requires |buckets| == BUCKETS && AllDefined(features)
    ensures |r| == BUCKETS
    decreases |features|
  {
    if features == [] then buckets
    else Place(Distribute(buckets, features[..|features| - 1], parseInt), features[|features| - 1], parseInt)
  }

  /** The features that belong in bucket `k`, in their order. */
  function InBucket(features: seq<ClientFeature>, k: nat, parseInt: ParseInt): seq<ClientFeature>
    requires AllDefined(features)
    decreases |features|
  {
    if features == [] then []
    else
      var last := features[|features| - 1];
      InBucket(features[..|features| - 1], k, parseInt)
        + (if BucketOf(last.properties.value, parseInt) == Some(k) then [last] else [])
  }

  /** Bucket `k` ends up holding what it held, followed by exactly the features whose
      bucket is `k`, in input order; a dropped feature is in no bucket. */
  lemma {:induction false} DistributeBuckets(buckets: seq<seq<ClientFeature>>, features: seq<ClientFeature>, parseInt: ParseInt)
    requires |buckets| == BUCKETS && AllDefined(features)
    ensures forall k | 0 <= k < BUCKETS :: Distribute(buckets, features, parseInt)[k] == buckets[k] + InBucket(features, k, parseInt)
    decreases |features|
  {
    if features != [] {
      var front := features[..|features| - 1];
      assert AllDefined(front);
      DistributeBuckets(buckets, front, parseInt);
    }
  }

  /** Every feature before the first undefined one is defined. */
  lemma AllDefinedUpTo(features: seq<ClientFeature>, i: nat)
    requires i <= FirstUndefined(features)
    ensures AllDefined(features[..i])
  {
    var k := FirstUndefined(features);
    forall j | 0 <= j < i
      ensures features[..i][j].properties.Some?
    {
      assert features[..i][j] == features[..k][j];
    }
  }

  /** A feature without properties at `i` bounds the first such index. */
  lemma {:induction false} FirstUndefinedAtMost(features: seq<ClientFeature>, i: nat)
    requires i < |features| && features[i].properties.None?
    ensures FirstUndefined(features) <= i
    decreases |features|
  {
    if features[0].properties.Some? {
      assert features[1..][i - 1] == features[i];
      FirstUndefinedAtMost(features[1..], i - 1);
    }
  }

  /** The index of the first feature without properties, or the length when there is
      none: the features before it are the ones sorted before the error. */
  function FirstUndefined(features: seq<ClientFeature>): (k: nat)
    ensures k <= |features|
    ensures AllDefined(features[..k])
    ensures k < |features| ==> features[k].properties.None?
    decreases |features|
  {
    if features == [] then 0
    else if features[0].properties.None? then 0
    else
      var k := 1 + FirstUndefined(features[1..]);
      assert features[..k] == [features[0]] + features[1..][..k - 1];
      k
  }

  /** The shared id counter of all data sets. */
  class IdSource {
    var next: nat

    constructor()
      ensures next == 0
    {
      next := 0;
    }

    /** Returns the counter and increments it. */
    method CreateId() returns (id: nat)
      modifies this
      ensures id == old(next) && next == old(next) + 1
    {
      id := next;
      next := next + 1;
    }
  }

  /** The identifier a data set is given for the counter value `n`. */
  function DataId(n: nat): (s: string)
    ensures |s| >= 3 && s[..2] == "OD"
  {
    "OD" + DecimalString(n)
  }

  /** Different counter values give different identifiers. */
  lemma DataIdInjective(a: nat, b: nat)
    ensures DataId(a) == DataId(b) ==> a == b
  {
    if DataId(a) == DataId(b) {
      assert DataId(a)[2..] == DecimalString(a);
      assert DataId(b)[2..] == DecimalString(b);
      DecimalStringInjective(a, b);
    }
  }

  /** Whether a load callback called `readyToRender`, and what that call decided. */
  datatype Trigger = Waiting | Triggered(plan: Option<seq<nat>>)

  /** The data loaded for one layer. */
  class Osmdata {
    const osmogon: Osmogon
    const layer: string
    const id: string
    var num_loads: int
    const microlayer: array<seq<ClientFeature>>

    ghost predicate Valid()
      reads this
    {
      microlayer.Length == BUCKETS
    }

    /** A data set with no request outstanding and empty buckets; its id is taken from
        the shared counter. */
    constructor(osmogon: Osmogon, layer: string, ids: IdSource)
      modifies ids
      ensures Valid() && fresh(microlayer)
      ensures this.osmogon == osmogon && this.layer == layer
      ensures id == DataId(old(ids.next)) && ids.next == old(ids.next) + 1
      ensures num_loads == 0
      ensures microlayer[..] == seq(BUCKETS, _ => [])
    {
      this.osmogon := osmogon;
      this.layer := layer;
      num_loads := 0;
      var n := ids.CreateId();
      id := DataId(n);
      microlayer := new seq<ClientFeature>[BUCKETS](_ => []);
    }

    /** Loaded exactly when no request is outstanding. */
    function IsLoaded(): (r: bool)
      reads this
      ensures r <==> num_loads == 0
    {
      num_loads == 0
    }

    /** Counts a new outstanding request; the request itself is outside the model. */
    method LoadRequest()
      modifies this
      ensures num_loads == old(num_loads) + 1
      ensures old(num_loads) >= 0 ==> !IsLoaded()
    {
      num_loads := num_loads + 1;
    }

    /** Files the features into their buckets in list order; the first feature without
        properties stops the loop with a `TypeError`, the earlier ones staying filed. */
    method FillBuckets(features: seq<ClientFeature>, parseInt: ParseInt) returns (r: Result<(), JsError>)
      requires microlayer.Length == BUCKETS
      modifies microlayer
      ensures microlayer[..] == Distribute(old(microlayer[..]), features[..FirstUndefined(features)], parseInt)
      ensures r.Failure? <==> FirstUndefined(features) < |features|
      ensures r.Failure? ==> r.error == TypeError
    {
      ghost var start := microlayer[..];
      var i := 0;
      while i < |features|
        invariant 0 <= i <= |features| && i <= FirstUndefined(features)
        invariant AllDefined(features[..i])
        invariant microlayer[..] == Distribute(start, features[..i], parseInt)
      {
        var feature := features[i];
        if feature.properties.None? {
          FirstUndefinedAtMost(features, i);
          return Failure(TypeError);
        }
        var before := microlayer[..];
        assert features[..i + 1][..i] == features[..i];
        var bucket := BucketOf(feature.properties.value, parseInt);
        if bucket.Some? {
          microlayer[bucket.value] := microlayer[bucket.value] + [feature];
        }
        assert microlayer[..] == Place(before, feature, parseInt);
        assert i + 1 <= FirstUndefined(features);
        i := i + 1;
        AllDefinedUpTo(features, i);
      }
      assert features[..i] == features;
      r := Success(());
    }

    /** The load callback. Missing `data` (a failed request) adds nothing. Otherwise the
        features go into their buckets in order; a feature without properties makes the
        `in` test throw, leaving the features before it sorted and the counter as it
        was. Then the counter goes down by one, and reaching zero calls `readyToRender`. */
    method LoadCbHandler(data: Option<seq<ClientFeature>>, parseInt: ParseInt) returns (r: Result<Trigger, JsError>)
      requires Valid() && osmogon.Valid()
      modifies this, microlayer
      ensures Valid()
      ensures data.None? ==> microlayer[..] == old(microlayer[..])
      ensures data.Some? ==>
        var k := FirstUndefined(data.value);
        microlayer[..] == Distribute(old(microlayer[..]), data.value[..k], parseInt)
      ensures r.Failure? <==> data.Some? && FirstUndefined(data.value) < |data.value|
      ensures r.Failure? ==> r.error == TypeError && num_loads == old(num_loads)
      ensures r.Success? ==> num_loads == old(num_loads) - 1
      ensures r.Success? ==> (r.value.Triggered? <==> num_loads == 0)
      ensures r.Success? && r.value.Triggered? ==> r.value.plan == osmogon.Plan()
    {
      if data.Some? {
        var filled := FillBuckets(data.value, parseInt);
        if filled.Failure? {
          return Failure(filled.error);
        }
      }
      num_loads := num_loads - 1;
      if num_loads == 0 {
        var plan := osmogon.ReadyToRender();
        r := Success(Triggered(plan));
      } else {
        r := Success(Waiting);
      }
    }
  }

  /** The indices of the data sets of layer `name`, in list order. */
  function IndicesOf(layers: seq<string>, name: string): (r: seq<nat>)
    ensures forall j | 0 <= j < |r| :: r[j] < |layers| && layers[r[j]] == name
    ensures forall i | 0 <= i < |layers| && layers[i] == name :: i in r
    decreases |layers|
  {
    if layers == [] then []
    else IndicesOf(layers[..|layers| - 1], name) + (if layers[|layers| - 1] == name then [|layers| - 1] else [])
  }

  /** Each data set's index once per layer name equal to its own, layer by layer. */
  function RenderOrder(names: seq<string>, layers: seq<string>): seq<nat>
    decreases |names|
  {
    if names == [] then []
    else RenderOrder(names[..|names| - 1], layers) + IndicesOf(layers, names[|names| - 1])
  }

  /** A data set is asked to render iff its layer is among the layer names. */
  lemma {:induction false} RenderOrderMembers(names: seq<string>, layers: seq<string>)
    ensures forall i: nat :: i in RenderOrder(names, layers) <==> i < |layers| && layers[i] in names
    decreases |names|
  {
    if names != [] {
      var front := names[..|names| - 1];
      var last := names[|names| - 1];
      RenderOrderMembers(front, layers);
      assert names == front + [last];
      var tail := IndicesOf(layers, last);
      assert RenderOrder(names, layers) == RenderOrder(front, layers) + tail;
      forall i: nat | i in RenderOrder(names, layers)
        ensures i < |layers| && layers[i] in names
      {
        if i !in RenderOrder(front, layers) {
          var j :| 0 <= j < |tail| && tail[j] == i;
        }
      }
      forall i: nat | i < |layers| && layers[i] in names
        ensures i in RenderOrder(names, layers)
      {
        if layers[i] != last {
          assert layers[i] in front;
        }
      }
    }
  }

  predicate Increasing(s: seq<nat>) {
    forall a, b | 0 <= a < b < |s| :: s[a] < s[b]
  }

  /** The indices of one layer come in increasing order. */
  lemma {:induction false} IndicesOfIncreasing(layers: seq<string>, name: string)
    ensures Increasing(IndicesOf(layers, name))
    decreases |layers|
  {
    if layers != [] {
      var front := layers[..|layers| - 1];
      IndicesOfIncreasing(front, name);
      var p := IndicesOf(front, name);
      var r := IndicesOf(layers, name);
      assert r == p + (if layers[|layers| - 1] == name then [|layers| - 1] else []);
      forall a, b | 0 <= a < b < |r|
        ensures r[a] < r[b]
      {
        if b < |p| {
          assert r[a] == p[a] && r[b] == p[b];
          assert p[a] < p[b];
        } else {
          assert r[b] == |layers| - 1 && r[a] == p[a];
          assert p[a] < |front|;
        }
      }
    }
  }

  /** No name occurs twice. */
  predicate Distinct(names: seq<string>) {
    forall i, j | 0 <= i < j < |names| :: names[i] != names[j]
  }

  function LayersOf(data: seq<Osmdata>): (r: seq<string>)
    ensures |r| == |data| && forall i | 0 <= i < |data| :: r[i] == data[i].layer
  {
    seq(|data|, i requires 0 <= i < |data| => data[i].layer)
  }

  /** The map: its layer names and its data sets. Size, projection and drawing surface
      are outside the model. */
  class Osmogon {
    var layers: seq<string>
    var osm: seq<Osmdata>

    /** Layer names are distinct, and every data set belongs to this map and to one of
        its layers. */
    ghost predicate Valid()
      reads this
    {
      && Distinct(layers)
      && forall i | 0 <= i < |osm| :: osm[i].osmogon == this && osm[i].layer in layers
    }

    constructor()
      ensures Valid() && layers == [] && osm == []
    {
      layers := [];
      osm := [];
    }

    /** Appends a layer name that is not there yet. */
    method AddLayer(layer: string)
      requires Valid()
      modifies this
      ensures Valid()
      ensures old(layer in layers) ==> layers == old(layers)
      ensures old(layer !in layers) ==> layers == old(layers) + [layer]
      ensures osm == old(osm)
    {
      if layer !in layers {
        layers := layers + [layer];
      }
    }

    /** A new data set for `layer`, which becomes a layer of the map if it is not one. */
    method Osmdata(layer: string, ids: IdSource) returns (od: Osmdata)
      requires Valid()
      modifies this, ids
      ensures Valid() && od.Valid() && fresh(od) && fresh(od.microlayer)
      ensures old(layer in layers) ==> layers == old(layers)
      ensures old(layer !in layers) ==> layers == old(layers) + [layer]
      ensures osm == old(osm) + [od]
      ensures od.osmogon == this && od.layer == layer && od.num_loads == 0
      ensures od.id == DataId(old(ids.next)) && ids.next == old(ids.next) + 1
      ensures od.microlayer[..] == seq(BUCKETS, _ => [])
    {
      AddLayer(layer);
      od := new Osmdata(this, layer, ids);
      osm := osm + [od];
    }

    /** What `readyToRender` does: nothing while a data set still waits for a load,
        otherwise render every data set, layer by layer. */
    function Plan(): (r: Option<seq<nat>>)
      reads this, osm
      ensures r.None? <==> exists i | 0 <= i < |osm| :: osm[i].num_loads != 0
    {
      if forall i | 0 <= i < |osm| :: osm[i].IsLoaded() then Some(RenderOrder(layers, LayersOf(osm)))
      else None
    }

    /** The gate loop: whether every data set has finished loading. */
    method AllLoaded() returns (loaded: bool)
      ensures loaded <==> forall i | 0 <= i < |osm| :: osm[i].IsLoaded()
    {
      var i := 0;
      while i < |osm|
        invariant 0 <= i <= |osm|
        invariant forall j | 0 <= j < i :: osm[j].IsLoaded()
      {
        if !osm[i].IsLoaded() {
          return false;
        }
        i := i + 1;
      }
      loaded := true;
    }

    /** The inner loop: the indices of the data sets of layer `name`, in list order. */
    method DataSetsOf(name: string) returns (indices: seq<nat>)
      ensures indices == IndicesOf(LayersOf(osm), name)
    {
      indices := [];
      var k := 0;
      while k < |osm|
        invariant 0 <= k <= |osm|
        invariant indices == IndicesOf(LayersOf(osm)[..k], name)
      {
        if osm[k].layer == name {
          indices := indices + [k];
        }
        assert LayersOf(osm)[..k + 1][..k] == LayersOf(osm)[..k];
        k := k + 1;
      }
      assert LayersOf(osm)[..k] == LayersOf(osm);
    }

    method ReadyToRender() returns (plan: Option<seq<nat>>)
      ensures plan == Plan()
    {
      var loaded := AllLoaded();
      if !loaded {
        return None;
      }
      var order := [];
      var l := 0;
      while l < |layers|
        invariant 0 <= l <= |layers|
        invariant order == RenderOrder(layers[..l], LayersOf(osm))
      {
        var indices := DataSetsOf(layers[l]);
        order := order + indices;
        assert layers[..l + 1][..l] == layers[..l];
        l := l + 1;
      }
      assert layers[..l] == layers;
      plan := Some(order);
    }
  }

  /** Each position of the layer list occurs once among the indices of its own name. */
  lemma {:induction false} IndicesOfOnce(layers: seq<string>, name: string)
    ensures forall i: nat :: multiset(IndicesOf(layers, name))[i] == if i < |layers| && layers[i] == name then 1 else 0
    decreases |layers|
  {
    if layers != [] {
      var front := layers[..|layers| - 1];
      IndicesOfOnce(front, name);
      var tail: seq<nat> := if layers[|layers| - 1] == name then [|layers| - 1] else [];
      assert IndicesOf(layers, name) == IndicesOf(front, name) + tail;
      assert multiset(IndicesOf(layers, name)) == multiset(IndicesOf(front, name)) + multiset(tail);
    }
  }

  /** With distinct layer names, a data set is asked to render exactly once if its
      layer is among them and never otherwise. */
  lemma {:induction false} RenderOrderOnce(names: seq<string>, layers: seq<string>)
    requires Distinct(names)
    ensures forall i: nat :: multiset(RenderOrder(names, layers))[i] == if i < |layers| && layers[i] in names then 1 else 0
    decreases |names|
  {
    if names != [] {
      var front := names[..|names| - 1];
      var last := names[|names| - 1];
      assert Distinct(front);
      RenderOrderOnce(front, layers);
      IndicesOfOnce(layers, last);
      assert names == front + [last];
      assert last !in front;
      assert multiset(RenderOrder(names, layers)) == multiset(RenderOrder(front, layers)) + multiset(IndicesOf(layers, last));
    }
  }

  /** So once loading has finished, a valid map renders every data set exactly once. */
  lemma PlanRendersEveryDataSet(names: seq<string>, data: seq<Osmdata>)
    requires Distinct(names)
    requires forall i | 0 <= i < |data| :: data[i].layer in names
    ensures forall i: nat :: multiset(RenderOrder(names, LayersOf(data)))[i] == if i < |data| then 1 else 0
  {
    RenderOrderOnce(names, LayersOf(data));
  }

  /** A feature without a `layer` tag lands in bucket 5 of empty buckets. */
  lemma UntaggedFeature(parseInt: ParseInt, f: ClientFeature)
    requires f.properties == Some(map[])
    ensures FirstUndefined([f]) == 1
    ensures Distribute(seq(BUCKETS, _ => []), [f][..1], parseInt)[5] == [f]
  {
    assert [f][..1] == [f] && [f][..0] == [];
    assert FirstUndefined([f][1..]) == 0;
  }

  /** A map with one layer and one loaded data set of that layer renders that data set. */
  lemma SingleDataSetPlan(client: Osmogon, od: Osmdata)
    requires client.osm == [od] && client.layers == [od.layer] && od.num_loads == 0
    ensures client.Plan() == Some([0])
  {
    assert LayersOf(client.osm) == [od.layer];
    assert [od.layer][..0] == [];
    assert IndicesOf([od.layer], od.layer) == IndicesOf([], od.layer) + [0];
    assert RenderOrder([od.layer], [od.layer]) == RenderOrder([], [od.layer]) + IndicesOf([od.layer], od.layer);
    assert forall i | 0 <= i < |client.osm| :: client.osm[i].IsLoaded();
    assert RenderOrder(client.layers, LayersOf(client.osm)) == [0];
  }

  /** Two requests: the first answer leaves the data set waiting, the second, even a
      failed one, fires `readyToRender`, which renders the only data set. */
  method TwoLoads(parseInt: ParseInt, f: ClientFeature) returns (first: Result<Trigger, JsError>, second: Result<Trigger, JsError>, od: Osmdata)
    requires f.properties == Some(map[])
    ensures first == Success(Waiting)
    ensures second == Success(Triggered(Some([0])))
    ensures od.microlayer.Length == BUCKETS && od.microlayer[5] == [f] && od.IsLoaded()
  {
    var client := new Osmogon();
    var ids := new IdSource();
    od := client.Osmdata("roads", ids);
    assert client.osm == [od] && client.layers == ["roads"];
    od.LoadRequest();
    od.LoadRequest();
    UntaggedFeature(parseInt, f);
    first := od.LoadCbHandler(Some([f]), parseInt);
    assert od.microlayer[5] == [f];
    second := od.LoadCbHandler(None, parseInt);
    SingleDataSetPlan(client, od);
  }
}
