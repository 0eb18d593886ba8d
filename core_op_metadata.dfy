/** A compiled program ("core op"): one preliminary context and the ordered
    dynamic contexts, plus the queries the runtime makes over them (boundary
    layers per network, stream and virtual-stream views, stream/vstream
    name resolution, the network table and the transfer-size total). */
module CoreOps {
  import opened Outcomes
  import opened Sequences
  import opened Layers
  import opened Contexts

  /** A count of at least one. */
  type PositiveCount = n: nat | 0 < n witness 1

  /** Contexts the device runs besides the dynamic ones (at least the
      preliminary context). The value is set by the firmware protocol
      headers, which are not part of this model, so it is left unspecified. */
  const NON_DYNAMIC_CONTEXTS_COUNT: PositiveCount

  /** Capacity of the fixed name field of a network-info record, including
      its terminating zero byte. */
  const MAX_NETWORK_NAME_SIZE: nat := 257

  /** The name a single-network program's network goes by. */
  function DefaultNetworkName(coreOpName: string): string
  {
    coreOpName + "/" + coreOpName
  }

  /** The feature flags the core consults. */
  datatype SupportedFeatures = SupportedFeatures(hailoNetFlow: bool)

  /** One config DMA channel. */
  datatype ConfigChannelInfo = ConfigChannelInfo(engineIndex: nat)

  /** One row of the network table. */
  datatype NetworkInfo = NetworkInfo(name: string)

  /* ---------- Boundary layers of the dynamic contexts ---------- */

  /** The boundary layers of `direction` of every context, context by
      context and in insertion order within a context. */
  function BoundaryLayers(states: seq<ContextState>, direction: Direction): seq<LayerInfo>
    decreases |states|
  {
    if states == [] then []
    else BoundaryLayers(states[..|states| - 1], direction) + EdgeLayersOf(states[|states| - 1], Boundary, direction)
  }

  /** A layer is listed exactly when some context holds it as a boundary
      layer of that direction. */
  lemma {:induction false} BoundaryLayersMember(states: seq<ContextState>, direction: Direction, layer: LayerInfo)
    ensures layer in BoundaryLayers(states, direction)
        <==> exists i :: 0 <= i < |states| && layer in EdgeLayersOf(states[i], Boundary, direction)
    decreases |states|
  {
    if states != [] {
      var init := states[..|states| - 1];
      BoundaryLayersMember(init, direction, layer);
      if exists i :: 0 <= i < |init| && layer in EdgeLayersOf(init[i], Boundary, direction) {
        var i :| 0 <= i < |init| && layer in EdgeLayersOf(init[i], Boundary, direction);
        assert states[i] == init[i];
      }
      if exists i :: 0 <= i < |states| && layer in EdgeLayersOf(states[i], Boundary, direction) {
        var i :| 0 <= i < |states| && layer in EdgeLayersOf(states[i], Boundary, direction);
        if i < |init| {
          assert init[i] == states[i];
        }
      }
    }
  }

  /** `acc` followed by the layers of `layers` that `keep` accepts. */
  method AppendKept(acc: seq<LayerInfo>, layers: seq<LayerInfo>, keep: LayerInfo -> bool) returns (res: seq<LayerInfo>)
    ensures res == acc + Filter(layers, keep)
  {
    res := acc;
    for j := 0 to |layers|
      invariant res == acc + Filter(layers[..j], keep)
    {
      assert layers[..j + 1][..j] == layers[..j];
      if keep(layers[j]) {
        res := res + [layers[j]];
      }
    }
    assert layers[..|layers|] == layers;
  }

  lemma {:induction false} BoundaryLayersStep(states: seq<ContextState>, i: nat, direction: Direction)
    requires i < |states|
    ensures BoundaryLayers(states[..i + 1], direction)
      == BoundaryLayers(states[..i], direction) + EdgeLayersOf(states[i], Boundary, direction)
  {
    assert states[..i + 1][..i] == states[..i];
  }

  /** Whether `layer` belongs to the requested network: its own network, or
      any network when the request is empty or the default name. */
  predicate MatchesNetwork(layer: LayerInfo, networkName: string, defaultName: string)
  {
    layer.networkName == networkName || networkName == "" || networkName == defaultName
  }

  function NetworkFilter(networkName: string, defaultName: string): LayerInfo -> bool
  {
    (l: LayerInfo) => MatchesNetwork(l, networkName, defaultName)
  }

  /** The layers of the requested network, in order; NotFound when none. */
  function FilterByNetwork(layers: seq<LayerInfo>, networkName: string, defaultName: string): Result<seq<LayerInfo>>
  {
    var kept := Filter(layers, NetworkFilter(networkName, defaultName));
    if kept == [] then Err(NotFound) else Ok(kept)
  }

  /** The empty request and the default name select every layer; any other
      name selects exactly the layers of that network, and fails with
      NotFound when there is none. */
  lemma {:induction false} FilterByNetworkSelects(layers: seq<LayerInfo>, networkName: string, defaultName: string)
    ensures networkName == "" || networkName == defaultName ==>
      FilterByNetwork(layers, networkName, defaultName) == if layers == [] then Err(NotFound) else Ok(layers)
    ensures networkName != "" && networkName != defaultName ==>
      (FilterByNetwork(layers, networkName, defaultName).Err? <==>
        forall i :: 0 <= i < |layers| ==> layers[i].networkName != networkName)
    ensures networkName != "" && networkName != defaultName && FilterByNetwork(layers, networkName, defaultName).Ok? ==>
      var r := FilterByNetwork(layers, networkName, defaultName).value;
      forall i :: 0 <= i < |r| ==> r[i].networkName == networkName
    ensures FilterByNetwork(layers, networkName, defaultName).Err? ==>
      FilterByNetwork(layers, networkName, defaultName).status == NotFound
  {
    var keep := NetworkFilter(networkName, defaultName);
    var kept := Filter(layers, keep);
    if networkName == "" || networkName == defaultName {
      FilterKeepsAll(layers, keep);
    } else {
      forall i | 0 <= i < |kept|
        ensures kept[i].networkName == networkName
      {
        assert keep(kept[i]);
      }
      if exists i :: 0 <= i < |layers| && layers[i].networkName == networkName {
        var i :| 0 <= i < |layers| && layers[i].networkName == networkName;
        assert keep(layers[i]);
        assert layers[i] in kept;
      }
      if kept != [] {
        var k :| 0 <= k < |layers| && layers[k] == kept[0];
        assert layers[k].networkName == networkName;
      }
    }
  }

  /** The first layer called `name`, or NotFound. */
  function FindByName(layers: seq<LayerInfo>, name: string): (r: Result<LayerInfo>)
    ensures r.Ok? ==>
      exists k :: 0 <= k < |layers| && layers[k] == r.value && r.value.name == name &&
        forall j :: 0 <= j < k ==> layers[j].name != name
    ensures r.Err? <==> forall k :: 0 <= k < |layers| ==> layers[k].name != name
    ensures r.Err? ==> r.status == NotFound
  {
    var k := IndexOf(Map(LayerName, layers), name);
    if k == |layers| then Err(NotFound) else Ok(layers[k])
  }

  /* ---------- Virtual-stream conversion ---------- */

  /** Whether a descriptor with that name is already present. */
  predicate NameIn(infos: seq<VStreamInfo>, name: string)
  {
    exists i :: 0 <= i < |infos| && infos[i].name == name
  }

  /** `acc` extended with those of `infos` whose name is not present yet. */
  function AppendUnseen(acc: seq<VStreamInfo>, infos: seq<VStreamInfo>): seq<VStreamInfo>
    decreases |infos|
  {
    if infos == [] then acc
    else
      var r := AppendUnseen(acc, infos[..|infos| - 1]);
      var v := infos[|infos| - 1];
      if NameIn(r, v.name) then r else r + [v]
  }

  /** The descriptors of every layer, keeping only the first one of each
      name (the defused fragments of one fused layer all describe it). */
  function ConvertedVStreamInfos(layers: seq<LayerInfo>, vstreamInfos: LayerInfo -> seq<VStreamInfo>): seq<VStreamInfo>
    decreases |layers|
  {
    if layers == [] then []
    else AppendUnseen(ConvertedVStreamInfos(layers[..|layers| - 1], vstreamInfos), vstreamInfos(layers[|layers| - 1]))
  }

  predicate DistinctNames(infos: seq<VStreamInfo>)
  {
    forall i, j :: 0 <= i < j < |infos| ==> infos[i].name != infos[j].name
  }

  /** Appending unseen descriptors keeps names distinct, keeps what was
      there, covers every offered name, and adds only offered descriptors. */
  lemma {:induction false} AppendUnseenProperties(acc: seq<VStreamInfo>, infos: seq<VStreamInfo>)
    requires DistinctNames(acc)
    ensures DistinctNames(AppendUnseen(acc, infos))
    ensures var r := AppendUnseen(acc, infos); |acc| <= |r| && r[..|acc|] == acc
    ensures forall v :: v in infos ==> NameIn(AppendUnseen(acc, infos), v.name)
    ensures forall v :: v in AppendUnseen(acc, infos) ==> v in acc || v in infos
    decreases |infos|
  {
    if infos != [] {
      var init := infos[..|infos| - 1];
      AppendUnseenProperties(acc, init);
      var r := AppendUnseen(acc, init);
      var v := infos[|infos| - 1];
      if !NameIn(r, v.name) {
        var r' := r + [v];
        assert r'[..|acc|] == r[..|acc|];
        forall w | w in infos
          ensures NameIn(r', w.name)
        {
          if w != v {
            assert w in init;
            var i :| 0 <= i < |r| && r[i].name == w.name;
            assert r'[i] == r[i];
          } else {
            assert r'[|r|] == v;
          }
        }
      } else {
        forall w | w in infos
          ensures NameIn(r, w.name)
        {
          if w != v {
            assert w in init;
          }
        }
      }
    }
  }

  /** The converted list has one descriptor per name, contains a descriptor
      of every name any layer yields, and holds only yielded descriptors. */
  lemma {:induction false} ConvertedVStreamInfosProperties(layers: seq<LayerInfo>, vstreamInfos: LayerInfo -> seq<VStreamInfo>)
    ensures DistinctNames(ConvertedVStreamInfos(layers, vstreamInfos))
    ensures forall i, v :: 0 <= i < |layers| && v in vstreamInfos(layers[i]) ==>
      NameIn(ConvertedVStreamInfos(layers, vstreamInfos), v.name)
    ensures forall v :: v in ConvertedVStreamInfos(layers, vstreamInfos) ==>
      exists i :: 0 <= i < |layers| && v in vstreamInfos(layers[i])
    decreases |layers|
  {
    if layers != [] {
      var init := layers[..|layers| - 1];
      var last := layers[|layers| - 1];
      ConvertedVStreamInfosProperties(init, vstreamInfos);
      var acc := ConvertedVStreamInfos(init, vstreamInfos);
      AppendUnseenProperties(acc, vstreamInfos(last));
      var r := ConvertedVStreamInfos(layers, vstreamInfos);
      forall i, v | 0 <= i < |layers| && v in vstreamInfos(layers[i])
        ensures NameIn(r, v.name)
      {
        if i < |init| {
          assert layers[i] == init[i];
          assert v in vstreamInfos(init[i]);
          assert NameIn(acc, v.name);
          var k :| 0 <= k < |acc| && acc[k].name == v.name;
          assert r[k] == acc[k];
        }
      }
      forall v | v in r
        ensures exists i :: 0 <= i < |layers| && v in vstreamInfos(layers[i])
      {
        if v in acc {
          var i :| 0 <= i < |init| && v in vstreamInfos(init[i]);
          assert layers[i] == init[i];
        } else {
          assert v in vstreamInfos(layers[|layers| - 1]);
        }
      }
    }
  }

  /** Fragments that all describe one fused layer yield one descriptor. */
  lemma {:induction false} OneDescriptorPerName(layers: seq<LayerInfo>, vstreamInfos: LayerInfo -> seq<VStreamInfo>, name: string)
    returns (k: nat)
    requires exists i, v :: 0 <= i < |layers| && v in vstreamInfos(layers[i]) && v.name == name
    ensures var r := ConvertedVStreamInfos(layers, vstreamInfos);
      k < |r| && r[k].name == name && forall j :: 0 <= j < |r| && r[j].name == name ==> j == k
  {
    ConvertedVStreamInfosProperties(layers, vstreamInfos);
    var r := ConvertedVStreamInfos(layers, vstreamInfos);
    var i, v :| 0 <= i < |layers| && v in vstreamInfos(layers[i]) && v.name == name;
    assert NameIn(r, v.name);
    k :| 0 <= k < |r| && r[k].name == name;
  }

  /** Every descriptor the layers yield, layer by layer, before any name is
      skipped. */
  function YieldedVStreamInfos(layers: seq<LayerInfo>, vstreamInfos: LayerInfo -> seq<VStreamInfo>): seq<VStreamInfo>
    decreases |layers|
  {
    if layers == [] then []
    else YieldedVStreamInfos(layers[..|layers| - 1], vstreamInfos) + vstreamInfos(layers[|layers| - 1])
  }

  function VStreamName(v: VStreamInfo): string
  {
    v.name
  }

  /** The position of the first descriptor called `name` (`|infos|` when
      there is none). */
  function FirstNamePos(infos: seq<VStreamInfo>, name: string): nat
  {
    IndexOf(Map(VStreamName, infos), name)
  }

  /** Extending a run leaves the first positions of its names unchanged and
      puts a new name at the extension. */
  lemma FirstNamePosAppend(infos: seq<VStreamInfo>, v: VStreamInfo, name: string)
    ensures FirstNamePos(infos, name) < |infos| ==> FirstNamePos(infos + [v], name) == FirstNamePos(infos, name)
    ensures FirstNamePos(infos, name) == |infos| && v.name == name ==> FirstNamePos(infos + [v], name) == |infos|
  {
    var names, names' := Map(VStreamName, infos), Map(VStreamName, infos + [v]);
    var p, p' := FirstNamePos(infos, name), FirstNamePos(infos + [v], name);
    assert forall j :: 0 <= j < |infos| ==> names'[j] == names[j];
    if p < |infos| {
      assert names'[p] == name;
    } else if v.name == name {
      assert names'[|infos|] == name;
    }
  }

  /** Skipping seen names is associative over the offered runs. */
  lemma {:induction false} AppendUnseenAppend(acc: seq<VStreamInfo>, a: seq<VStreamInfo>, b: seq<VStreamInfo>)
    ensures AppendUnseen(acc, a + b) == AppendUnseen(AppendUnseen(acc, a), b)
    decreases |b|
  {
    if b == [] {
      assert a + b == a;
    } else {
      var b' := b[..|b| - 1];
      assert (a + b)[..|a + b| - 1] == a + b';
      AppendUnseenAppend(acc, a, b');
    }
  }

  /** The conversion skips repeated names over all yielded descriptors at
      once. */
  lemma {:induction false} ConvertedSkipsOverYielded(layers: seq<LayerInfo>, vstreamInfos: LayerInfo -> seq<VStreamInfo>)
    ensures ConvertedVStreamInfos(layers, vstreamInfos) == AppendUnseen([], YieldedVStreamInfos(layers, vstreamInfos))
    decreases |layers|
  {
    if layers != [] {
      var init := layers[..|layers| - 1];
      ConvertedSkipsOverYielded(init, vstreamInfos);
      AppendUnseenAppend([], YieldedVStreamInfos(init, vstreamInfos), vstreamInfos(layers[|layers| - 1]));
    }
  }

  /** Skipping seen names keeps, for each name, its first descriptor, and
      keeps them in the order the names first appear. */
  lemma {:induction false} AppendUnseenKeepsFirst(infos: seq<VStreamInfo>)
    ensures forall k :: 0 <= k < |AppendUnseen([], infos)| ==>
      var name := AppendUnseen([], infos)[k].name;
      FirstNamePos(infos, name) < |infos| && infos[FirstNamePos(infos, name)] == AppendUnseen([], infos)[k]
    ensures forall k1, k2 :: 0 <= k1 < k2 < |AppendUnseen([], infos)| ==>
      FirstNamePos(infos, AppendUnseen([], infos)[k1].name) < FirstNamePos(infos, AppendUnseen([], infos)[k2].name)
    decreases |infos|
  {
    if infos != [] {
      var init, v := infos[..|infos| - 1], infos[|infos| - 1];
      assert infos == init + [v];
      AppendUnseenKeepsFirst(init);
      var r0 := AppendUnseen([], init);
      forall k | 0 <= k < |r0|
        ensures FirstNamePos(infos, r0[k].name) == FirstNamePos(init, r0[k].name)
      {
        assert FirstNamePos(init, r0[k].name) < |init|;
        FirstNamePosAppend(init, v, r0[k].name);
      }
      if !NameIn(r0, v.name) {
        AppendUnseenProperties([], init);
        FirstNamePosAppend(init, v, v.name);
        var r := r0 + [v];
        assert r[|r0|] == v;
        assert forall k :: 0 <= k < |r0| ==> r[k] == r0[k];
      }
    }
  }

  /** The converted descriptors are the first descriptor yielded under each
      name, in the order the names are first yielded. */
  lemma ConvertedKeepsFirstInOrder(layers: seq<LayerInfo>, vstreamInfos: LayerInfo -> seq<VStreamInfo>)
    ensures var r, yielded := ConvertedVStreamInfos(layers, vstreamInfos), YieldedVStreamInfos(layers, vstreamInfos);
      forall k :: 0 <= k < |r| ==>
        FirstNamePos(yielded, r[k].name) < |yielded| && yielded[FirstNamePos(yielded, r[k].name)] == r[k]
    ensures var r, yielded := ConvertedVStreamInfos(layers, vstreamInfos), YieldedVStreamInfos(layers, vstreamInfos);
      forall k1, k2 :: 0 <= k1 < k2 < |r| ==> FirstNamePos(yielded, r[k1].name) < FirstNamePos(yielded, r[k2].name)
  {
    ConvertedSkipsOverYielded(layers, vstreamInfos);
    AppendUnseenKeepsFirst(YieldedVStreamInfos(layers, vstreamInfos));
  }

  /* ---------- Output ordering against the canonical output names ---------- */

  /** Position of a descriptor's name in the canonical output order
      (`|names|` when absent). */
  function OutputRank(names: seq<string>, v: VStreamInfo): nat
  {
    IndexOf(names, v.name)
  }

  predicate SortedByRank(infos: seq<VStreamInfo>, names: seq<string>)
  {
    forall i, j :: 0 <= i < j < |infos| ==> OutputRank(names, infos[i]) <= OutputRank(names, infos[j])
  }

  /** `v` inserted into sorted `sorted` before the first higher-ranked one. */
  function InsertByRank(v: VStreamInfo, sorted: seq<VStreamInfo>, names: seq<string>): seq<VStreamInfo>
    decreases |sorted|
  {
    if sorted == [] then [v]
    else if OutputRank(names, v) <= OutputRank(names, sorted[0]) then [v] + sorted
    else [sorted[0]] + InsertByRank(v, sorted[1..], names)
  }

  function SortByRank(infos: seq<VStreamInfo>, names: seq<string>): seq<VStreamInfo>
    decreases |infos|
  {
    if infos == [] then []
    else InsertByRank(infos[|infos| - 1], SortByRank(infos[..|infos| - 1], names), names)
  }

  lemma {:induction false} InsertByRankPermutes(v: VStreamInfo, sorted: seq<VStreamInfo>, names: seq<string>)
    ensures multiset(InsertByRank(v, sorted, names)) == multiset(sorted) + multiset{v}
    decreases |sorted|
  {
    if sorted != [] && OutputRank(names, v) > OutputRank(names, sorted[0]) {
      InsertByRankPermutes(v, sorted[1..], names);
      assert sorted == [sorted[0]] + sorted[1..];
    }
  }

  /** A sorted run stays sorted behind an element ranked no higher than any
      of its elements. */
  lemma ConsSorted(x: VStreamInfo, s: seq<VStreamInfo>, names: seq<string>)
    requires SortedByRank(s, names)
    requires forall k :: 0 <= k < |s| ==> OutputRank(names, x) <= OutputRank(names, s[k])
    ensures SortedByRank([x] + s, names)
  {
    var r := [x] + s;
    forall i, j | 0 <= i < j < |r|
      ensures OutputRank(names, r[i]) <= OutputRank(names, r[j])
    {
      assert r[j] == s[j - 1];
      if i > 0 {
        assert r[i] == s[i - 1];
      }
    }
  }

  lemma {:induction false} InsertByRankSorted(v: VStreamInfo, sorted: seq<VStreamInfo>, names: seq<string>)
    requires SortedByRank(sorted, names)
    ensures SortedByRank(InsertByRank(v, sorted, names), names)
    decreases |sorted|
  {
    if sorted != [] {
      var head, tail := sorted[0], sorted[1..];
      if OutputRank(names, v) <= OutputRank(names, head) {
        ConsSorted(v, sorted, names);
      } else {
        InsertByRankSorted(v, tail, names);
        InsertByRankPermutes(v, tail, names);
        var ins := InsertByRank(v, tail, names);
        forall k | 0 <= k < |ins|
          ensures OutputRank(names, head) <= OutputRank(names, ins[k])
        {
          var w := ins[k];
          assert w in multiset(ins);
          if w != v {
            assert w in multiset(tail);
            var m :| 0 <= m < |tail| && tail[m] == w;
            assert sorted[m + 1] == w;
          }
        }
        ConsSorted(head, ins, names);
      }
    }
  }

  /** The sort orders by canonical rank and is a permutation of its input. */
  lemma {:induction false} SortByRankProperties(infos: seq<VStreamInfo>, names: seq<string>)
    ensures SortedByRank(SortByRank(infos, names), names)
    ensures multiset(SortByRank(infos, names)) == multiset(infos)
    decreases |infos|
  {
    if infos != [] {
      var init := infos[..|infos| - 1];
      SortByRankProperties(init, names);
      InsertByRankSorted(infos[|infos| - 1], SortByRank(init, names), names);
      InsertByRankPermutes(infos[|infos| - 1], SortByRank(init, names), names);
      assert infos == init + [infos[|infos| - 1]];
    }
  }

  /** The output descriptors ordered by the canonical output names; an
      InternalFailure when any name is missing from that list. */
  function SortByOutputNames(infos: seq<VStreamInfo>, names: seq<string>): Result<seq<VStreamInfo>>
  {
    if exists i :: 0 <= i < |infos| && OutputRank(names, infos[i]) == |names| then Err(InternalFailure)
    else Ok(SortByRank(infos, names))
  }

  /** The ordering as the library writes it: the missing-name status is only
      raised inside the sort comparator, which the sort never calls for
      fewer than two elements. */
  function SortByOutputNamesAsWritten(infos: seq<VStreamInfo>, names: seq<string>): Result<seq<VStreamInfo>>
  {
    if |infos| < 2 then Ok(infos) else SortByOutputNames(infos, names)
  }

  /** Either the result is ordered by canonical rank, is a permutation of the
      input and every name is listed, or it is an InternalFailure because
      some name is not listed. */
  lemma {:induction false} SortByOutputNamesSpec(infos: seq<VStreamInfo>, names: seq<string>)
    ensures SortByOutputNames(infos, names).Err? <==> exists i :: 0 <= i < |infos| && infos[i].name !in names
    ensures SortByOutputNames(infos, names).Err? ==> SortByOutputNames(infos, names).status == InternalFailure
    ensures SortByOutputNames(infos, names).Ok? ==>
      var r := SortByOutputNames(infos, names).value;
      SortedByRank(r, names) && multiset(r) == multiset(infos)
  {
    SortByRankProperties(infos, names);
    forall i | 0 <= i < |infos|
      ensures OutputRank(names, infos[i]) == |names| <==> infos[i].name !in names
    {
    }
  }

  /** A single output descriptor whose name is not in the canonical list
      escapes the check as the library writes it, where the intended
      ordering reports an InternalFailure. */
  lemma {:induction false} UnlistedSingleOutputEscapes(v: VStreamInfo, names: seq<string>)
    requires v.name !in names
    ensures SortByOutputNamesAsWritten([v], names) == Ok([v])
    ensures SortByOutputNames([v], names) == Err(InternalFailure)
  {
    assert OutputRank(names, [v][0]) == |names|;
  }

  /** From two descriptors on, the library's ordering is the intended one. */
  lemma {:induction false} AsWrittenAgreesFromTwo(infos: seq<VStreamInfo>, names: seq<string>)
    requires |infos| >= 2
    ensures SortByOutputNamesAsWritten(infos, names) == SortByOutputNames(infos, names)
  {
  }

  /* ---------- Stream-name and vstream-name resolution ---------- */

  /** The vstream names behind stream `streamName`: the fused layer of a
      defused NMS fragment, the demuxed leaves of a mux, or the stream itself. */
  function VStreamNamesOf(layers: seq<LayerInfo>, streamName: string): Result<seq<string>>
  {
    var layer :- FindByName(layers, streamName);
    if layer.isDefusedNms then Ok([layer.fusedNmsName])
    else if layer.isMux then Ok(DemuxNames(layer))
    else Ok([layer.name])
  }

  /** Whether `layer` carries (part of) vstream `vstreamName`. In net-flow
      mode every plain output layer counts. */
  predicate CarriesVStream(layer: LayerInfo, vstreamName: string, netFlow: bool)
  {
    if layer.isMux then IsEdgeUnderMux(layer, vstreamName)
    else if layer.isDefusedNms then vstreamName == layer.fusedNmsName
    else if netFlow && layer.direction == DeviceToHost then true
    else vstreamName == layer.name
  }

  function CarriesFilter(vstreamName: string, netFlow: bool): LayerInfo -> bool
  {
    (l: LayerInfo) => CarriesVStream(l, vstreamName, netFlow)
  }

  /** The names of the layers carrying vstream `vstreamName`, in layer
      order; NotFound when none does. */
  function StreamNamesOf(layers: seq<LayerInfo>, vstreamName: string, netFlow: bool): Result<seq<string>>
  {
    var names := Map(LayerName, Filter(layers, CarriesFilter(vstreamName, netFlow)));
    if names == [] then Err(NotFound) else Ok(names)
  }

  /** The names of the layers carrying vstream `vstreamName`, in layer order. */
  method CollectCarriers(layers: seq<LayerInfo>, vstreamName: string, netFlow: bool) returns (names: seq<string>)
    ensures names == Map(LayerName, Filter(layers, CarriesFilter(vstreamName, netFlow)))
  {
    ghost var keep := CarriesFilter(vstreamName, netFlow);
    names := [];
    for i := 0 to |layers|
      invariant names == Map(LayerName, Filter(layers[..i], keep))
    {
      var layer := layers[i];
      assert layers[..i + 1][..i] == layers[..i];
      assert Filter(layers[..i + 1], keep) == Filter(layers[..i], keep) + (if keep(layer) then [layer] else []);
      MapAppend(LayerName, Filter(layers[..i], keep), if keep(layer) then [layer] else []);
      // A mux layer carries the vstreams of its tree, a defused fragment
      // its fused layer, and in net-flow mode every plain output layer
      // carries every vstream.
      if CarriesVStream(layer, vstreamName, netFlow) {
        names := names + [layer.name];
      }
    }
    assert layers[..|layers|] == layers;
  }

  /** A layer that is not both a mux and a defused NMS fragment. */
  predicate SingleKind(layer: LayerInfo)
  {
    !(layer.isMux && layer.isDefusedNms)
  }

  /** Resolving a stream to its vstreams and each of those back yields the
      stream again. */
  lemma {:induction false} StreamToVStreamAndBack(layers: seq<LayerInfo>, streamName: string, netFlow: bool)
    requires FindByName(layers, streamName).Ok? ==> SingleKind(FindByName(layers, streamName).value)
    ensures VStreamNamesOf(layers, streamName).Ok? ==>
      forall v :: v in VStreamNamesOf(layers, streamName).value ==>
        StreamNamesOf(layers, v, netFlow).Ok? && streamName in StreamNamesOf(layers, v, netFlow).value
  {
    if FindByName(layers, streamName).Ok? {
      var layer := FindByName(layers, streamName).value;
      forall v | v in VStreamNamesOf(layers, streamName).value
        ensures StreamNamesOf(layers, v, netFlow).Ok? && streamName in StreamNamesOf(layers, v, netFlow).value
      {
        var keep := CarriesFilter(v, netFlow);
        EdgeUnderMuxIffDemuxName(layer, v);
        assert CarriesVStream(layer, v, netFlow);
        var k :| 0 <= k < |layers| && layers[k] == layer;
        var kept := Filter(layers, keep);
        assert layer in kept;
        var i :| 0 <= i < |kept| && kept[i] == layer;
        assert Map(LayerName, kept)[i] == streamName;
      }
    }
  }

  /** With distinct stream names and outside net-flow mode, every stream a
      vstream resolves to resolves back to that vstream. */
  lemma {:induction false} VStreamToStreamAndBack(layers: seq<LayerInfo>, vstreamName: string)
    requires forall i, j :: 0 <= i < j < |layers| ==> layers[i].name != layers[j].name
    requires forall i :: 0 <= i < |layers| ==> SingleKind(layers[i])
    ensures StreamNamesOf(layers, vstreamName, false).Ok? ==>
      forall s :: s in StreamNamesOf(layers, vstreamName, false).value ==>
        VStreamNamesOf(layers, s).Ok? && vstreamName in VStreamNamesOf(layers, s).value
  {
    var keep := CarriesFilter(vstreamName, false);
    var kept := Filter(layers, keep);
    forall s | s in Map(LayerName, kept)
      ensures VStreamNamesOf(layers, s).Ok? && vstreamName in VStreamNamesOf(layers, s).value
    {
      var i :| 0 <= i < |kept| && Map(LayerName, kept)[i] == s;
      var layer := kept[i];
      var k :| 0 <= k < |layers| && layers[k] == layer;
      var found := FindByName(layers, s);
      var k' :| 0 <= k' < |layers| && layers[k'] == found.value && found.value.name == s
        && forall j :: 0 <= j < k' ==> layers[j].name != s;
      assert k' == k;
      EdgeUnderMuxIffDemuxName(layer, vstreamName);
    }
  }

  /* ---------- Transfer size over the dynamic contexts ---------- */

  /** The transfer size of each context, in context order. */
  function ContextSizes(states: seq<ContextState>, transferSize: LayerInfo -> Result<nat>): (sizes: seq<Result<nat>>)
    ensures |sizes| == |states|
    ensures forall i :: 0 <= i < |states| ==> sizes[i] == ContextTransferSize(states[i], transferSize)
  {
    seq(|states|, i requires 0 <= i < |states| => ContextTransferSize(states[i], transferSize))
  }

  /** The sum of a run of sizes, or the first failure among them. */
  function SumOfSizes(sizes: seq<Result<nat>>): Result<nat>
    decreases |sizes|
  {
    if sizes == [] then Ok(0) else Combine(SumOfSizes(sizes[..|sizes| - 1]), sizes[|sizes| - 1])
  }

  /** The sum of the dynamic contexts' transfer sizes, or the first failure. */
  function TotalTransferSize(states: seq<ContextState>, transferSize: LayerInfo -> Result<nat>): Result<nat>
  {
    SumOfSizes(ContextSizes(states, transferSize))
  }

  lemma {:induction false} SumOfSizesAppend(a: seq<Result<nat>>, b: seq<Result<nat>>)
    ensures SumOfSizes(a + b) == Combine(SumOfSizes(a), SumOfSizes(b))
    decreases |b|
  {
    if b == [] {
      assert a + b == a;
    } else {
      var b' := b[..|b| - 1];
      assert (a + b)[..|a + b| - 1] == a + b';
      SumOfSizesAppend(a, b');
    }
  }

  /** The total fails exactly when some context's size fails, and then with
      the failure of the first such context; otherwise every context
      succeeds. */
  lemma {:induction false} SumOfSizesFails(sizes: seq<Result<nat>>)
    ensures SumOfSizes(sizes).Err? <==> exists i :: 0 <= i < |sizes| && sizes[i].Err?
    ensures SumOfSizes(sizes).Err? ==>
      exists i :: 0 <= i < |sizes| && sizes[i] == SumOfSizes(sizes) && forall j :: 0 <= j < i ==> sizes[j].Ok?
    decreases |sizes|
  {
    if sizes != [] {
      var init := sizes[..|sizes| - 1];
      SumOfSizesFails(init);
      assert forall j :: 0 <= j < |init| ==> sizes[j] == init[j];
      if exists i :: 0 <= i < |sizes| && sizes[i].Err? {
        var i :| 0 <= i < |sizes| && sizes[i].Err?;
        if i < |init| {
          assert init[i].Err?;
        }
      }
    }
  }

  /** One step of a running sum: a failing size is the sum of the whole
      run, a successful one adds its value to the prefix sum. */
  lemma {:induction false} SumOfSizesStep(sizes: seq<Result<nat>>, i: nat, total: nat)
    requires i < |sizes| && SumOfSizes(sizes[..i]) == Ok(total)
    ensures sizes[i].Err? ==> SumOfSizes(sizes) == sizes[i]
    ensures sizes[i].Ok? ==> SumOfSizes(sizes[..i + 1]) == Ok(total + sizes[i].value)
  {
    assert sizes[..i + 1][..i] == sizes[..i];
    if sizes[i].Err? {
      SumOfSizesAppend(sizes[..i + 1], sizes[i + 1..]);
      assert sizes[..i + 1] + sizes[i + 1..] == sizes;
    }
  }

  /** A sum splits around any one size. */
  lemma {:induction false} SumOfSizesAround(front: seq<Result<nat>>, x: Result<nat>, back: seq<Result<nat>>)
    ensures SumOfSizes(front + [x] + back) == Combine(Combine(SumOfSizes(front), x), SumOfSizes(back))
  {
    assert [x][..0] == [];
    SumOfSizesAppend(front + [x], back);
    SumOfSizesAppend(front, [x]);
  }

  /** Every size in a successful sum succeeds. */
  lemma {:induction false} SumOfSizesOkAt(sizes: seq<Result<nat>>, i: nat)
    requires i < |sizes| && SumOfSizes(sizes).Ok?
    ensures sizes[i].Ok?
  {
    SplitAt(sizes, i, sizes[i]);
    SumOfSizesAround(sizes[..i], sizes[i], sizes[i + 1..]);
  }

  /** Growing one size by `delta` grows a successful sum by `delta`. */
  lemma {:induction false} GrowOneSize(sizes: seq<Result<nat>>, i: nat, delta: nat)
    requires i < |sizes| && SumOfSizes(sizes).Ok?
    requires sizes[i].Ok?
    ensures SumOfSizes(sizes[i := Ok(sizes[i].value + delta)]) == Ok(SumOfSizes(sizes).value + delta)
  {
    var x, y := sizes[i], Ok(sizes[i].value + delta);
    var front, back := sizes[..i], sizes[i + 1..];
    SplitAt(sizes, i, y);
    SumOfSizesAround(front, x, back);
    SumOfSizesAround(front, y, back);
  }

  /** A run is its prefix, one size and its suffix, and so is the run with
      that size replaced. */
  lemma SplitAt(sizes: seq<Result<nat>>, i: nat, y: Result<nat>)
    requires i < |sizes|
    ensures sizes == sizes[..i] + [sizes[i]] + sizes[i + 1..]
    ensures sizes[i := y] == sizes[..i] + [y] + sizes[i + 1..]
  {
  }

  /** Replacing one context replaces its size and no other. */
  lemma ContextSizesUpdate(states: seq<ContextState>, i: nat, s: ContextState,
                           transferSize: LayerInfo -> Result<nat>)
    requires i < |states|
    ensures ContextSizes(states[i := s], transferSize)
      == ContextSizes(states, transferSize)[i := ContextTransferSize(s, transferSize)]
  {
  }

  /** Adding an edge layer to one dynamic context grows the total by that
      layer's size. */
  lemma {:induction false} AddLayerGrowsTotal(states: seq<ContextState>, i: nat, category: EdgeCategory,
                                              layer: LayerInfo, transferSize: LayerInfo -> Result<nat>)
    requires i < |states|
    requires TotalTransferSize(states, transferSize).Ok? && transferSize(layer).Ok?
    ensures TotalTransferSize(states[i := AddLayer(states[i], category, layer)], transferSize)
      == Ok(TotalTransferSize(states, transferSize).value + transferSize(layer).value)
  {
    SumOfSizesOkAt(ContextSizes(states, transferSize), i);
    AddLayerGrowsTransferSize(states[i], category, layer, transferSize);
    GrowOneContext(states, i, AddLayer(states[i], category, layer), transferSize(layer).value, transferSize);
  }

  /** Replacing one context by one whose size is `delta` larger grows a
      successful total by `delta`. */
  lemma {:induction false} GrowOneContext(states: seq<ContextState>, i: nat, s: ContextState, delta: nat,
                                          transferSize: LayerInfo -> Result<nat>)
    requires i < |states| && TotalTransferSize(states, transferSize).Ok?
    requires ContextTransferSize(states[i], transferSize).Ok?
    requires ContextTransferSize(s, transferSize) == Ok(ContextTransferSize(states[i], transferSize).value + delta)
    ensures TotalTransferSize(states[i := s], transferSize) == Ok(TotalTransferSize(states, transferSize).value + delta)
  {
    ContextSizesUpdate(states, i, s, transferSize);
    GrowOneSize(ContextSizes(states, transferSize), i, delta);
  }

  /** A compiled program. It is built once from its contexts; only the
      net-flow output list is set afterwards. */
  class CoreOpMetadata {
    const coreOpName: string
    const preliminaryContext: ContextMetadata
    const dynamicContexts: seq<ContextMetadata>
    const configChannelsInfo: seq<ConfigChannelInfo>
    const sortedOutputNames: seq<string>
    const supportedFeatures: SupportedFeatures
    const sortedNetworkNames: seq<string>
    /** The output descriptors reported in net-flow mode. The constructor
        leaves the list empty; it is filled in by code outside this model. */
    var outputVStreamsInfos: seq<VStreamInfo>

    constructor (coreOpName: string, preliminaryContext: ContextMetadata, dynamicContexts: seq<ContextMetadata>,
                 configChannelsInfo: seq<ConfigChannelInfo>, sortedOutputNames: seq<string>,
                 supportedFeatures: SupportedFeatures, sortedNetworkNames: seq<string>)
      ensures this.coreOpName == coreOpName && this.preliminaryContext == preliminaryContext
      ensures this.dynamicContexts == dynamicContexts && this.configChannelsInfo == configChannelsInfo
      ensures this.sortedOutputNames == sortedOutputNames && this.supportedFeatures == supportedFeatures
      ensures this.sortedNetworkNames == sortedNetworkNames && outputVStreamsInfos == []
    {
      this.coreOpName := coreOpName;
      this.preliminaryContext := preliminaryContext;
      this.dynamicContexts := dynamicContexts;
      this.configChannelsInfo := configChannelsInfo;
      this.sortedOutputNames := sortedOutputNames;
      this.supportedFeatures := supportedFeatures;
      this.sortedNetworkNames := sortedNetworkNames;
      outputVStreamsInfos := [];
    }

    /** The values of the dynamic contexts, in context-switch order. */
    ghost function DynamicStates(): (states: seq<ContextState>)
      reads dynamicContexts
      ensures |states| == |dynamicContexts|
      ensures forall i :: 0 <= i < |states| ==> states[i] == dynamicContexts[i].State()
    {
      seq(|dynamicContexts|, i requires 0 <= i < |dynamicContexts| reads dynamicContexts => dynamicContexts[i].State())
    }

    ghost function InputLayers(): seq<LayerInfo>
      reads dynamicContexts
    {
      BoundaryLayers(DynamicStates(), HostToDevice)
    }

    ghost function OutputLayers(): seq<LayerInfo>
      reads dynamicContexts
    {
      BoundaryLayers(DynamicStates(), DeviceToHost)
    }

    ghost function AllLayers(): seq<LayerInfo>
      reads dynamicContexts
    {
      InputLayers() + OutputLayers()
    }

    /** The boundary layers of `direction` over all dynamic contexts that
        `keep` accepts, in order (edge layers exist only in dynamic
        contexts, so the preliminary context is not visited). */
    method CollectBoundaryLayers(direction: Direction, keep: LayerInfo -> bool) returns (res: seq<LayerInfo>)
      ensures res == Filter(BoundaryLayers(DynamicStates(), direction), keep)
    {
      ghost var states := DynamicStates();
      res := [];
      for i := 0 to |dynamicContexts|
        invariant res == Filter(BoundaryLayers(states[..i], direction), keep)
      {
        var layers := if direction == HostToDevice then dynamicContexts[i].boundaryInputLayers
                      else dynamicContexts[i].boundaryOutputLayers;
        res := AppendKept(res, layers, keep);
        BoundaryLayersStep(states, i, direction);
        assert layers == EdgeLayersOf(states[i], Boundary, direction);
        FilterAppend(BoundaryLayers(states[..i], direction), layers, keep);
      }
      assert states[..|dynamicContexts|] == states;
    }

    method GetInputLayerInfos() returns (res: seq<LayerInfo>)
      ensures res == InputLayers()
    {
      res := CollectBoundaryLayers(HostToDevice, (l: LayerInfo) => true);
      FilterKeepsAll(InputLayers(), (l: LayerInfo) => true);
    }

    method GetOutputLayerInfos() returns (res: seq<LayerInfo>)
      ensures res == OutputLayers()
    {
      res := CollectBoundaryLayers(DeviceToHost, (l: LayerInfo) => true);
      FilterKeepsAll(OutputLayers(), (l: LayerInfo) => true);
    }

    method GetAllLayerInfos() returns (res: seq<LayerInfo>)
      ensures res == AllLayers()
    {
      var inputs := GetInputLayerInfos();
      var outputs := GetOutputLayerInfos();
      res := inputs + outputs;
    }

    method GetNetworkInputLayerInfos(networkName: string) returns (r: Result<seq<LayerInfo>>)
      ensures r == FilterByNetwork(InputLayers(), networkName, DefaultNetworkName(coreOpName))
    {
      var defaultName := DefaultNetworkName(coreOpName);
      var res := CollectBoundaryLayers(HostToDevice, NetworkFilter(networkName, defaultName));
      if |res| == 0 {
        return Err(NotFound);
      }
      r := Ok(res);
    }

    method GetNetworkOutputLayerInfos(networkName: string) returns (r: Result<seq<LayerInfo>>)
      ensures r == FilterByNetwork(OutputLayers(), networkName, DefaultNetworkName(coreOpName))
    {
      var defaultName := DefaultNetworkName(coreOpName);
      var res := CollectBoundaryLayers(DeviceToHost, NetworkFilter(networkName, defaultName));
      if |res| == 0 {
        return Err(NotFound);
      }
      r := Ok(res);
    }

    /** Inputs then outputs of the requested network; fails when either
        direction has no layer of that network. */
    method GetNetworkAllLayerInfos(networkName: string) returns (r: Result<seq<LayerInfo>>)
      ensures var defaultName := DefaultNetworkName(coreOpName);
        var inputs := FilterByNetwork(InputLayers(), networkName, defaultName);
        var outputs := FilterByNetwork(OutputLayers(), networkName, defaultName);
        r == if inputs.Err? then inputs else if outputs.Err? then outputs
             else Ok(inputs.value + outputs.value)
    {
      var inputs := GetNetworkInputLayerInfos(networkName);
      if inputs.Err? {
        return inputs;
      }
      var outputs := GetNetworkOutputLayerInfos(networkName);
      if outputs.Err? {
        return outputs;
      }
      r := Ok(inputs.value + outputs.value);
    }

    /** The first boundary layer (inputs before outputs) called `streamName`. */
    method GetLayerInfoByStreamName(streamName: string) returns (r: Result<LayerInfo>)
      ensures r == FindByName(AllLayers(), streamName)
      ensures r.Ok? ==> r.value in AllLayers() && r.value.name == streamName
      ensures r.Err? <==> forall l :: l in AllLayers() ==> l.name != streamName
    {
      var all := GetAllLayerInfos();
      for i := 0 to |all|
        invariant forall j :: 0 <= j < i ==> all[j].name != streamName
      {
        if all[i].name == streamName {
          assert Map(LayerName, all)[i] == streamName;
          return Ok(all[i]);
        }
      }
      r := Err(NotFound);
    }

    method ConvertLayerInfosToStreamInfos(layers: seq<LayerInfo>, streamInfo: LayerInfo -> StreamInfo)
      returns (res: seq<StreamInfo>)
      ensures |res| == |layers|
      ensures forall i :: 0 <= i < |layers| ==> res[i] == streamInfo(layers[i])
    {
      res := [];
      for i := 0 to |layers|
        invariant |res| == i
        invariant forall k :: 0 <= k < i ==> res[k] == streamInfo(layers[k])
      {
        res := res + [streamInfo(layers[i])];
      }
    }

    method GetInputStreamInfos(networkName: string, streamInfo: LayerInfo -> StreamInfo)
      returns (r: Result<seq<StreamInfo>>)
      ensures var layers := FilterByNetwork(InputLayers(), networkName, DefaultNetworkName(coreOpName));
        r == if layers.Err? then Err(layers.status) else Ok(Map(streamInfo, layers.value))
    {
      var layers := GetNetworkInputLayerInfos(networkName);
      if layers.Err? {
        return Err(layers.status);
      }
      var infos := ConvertLayerInfosToStreamInfos(layers.value, streamInfo);
      assert infos == Map(streamInfo, layers.value);
      r := Ok(infos);
    }

    method GetOutputStreamInfos(networkName: string, streamInfo: LayerInfo -> StreamInfo)
      returns (r: Result<seq<StreamInfo>>)
      ensures var layers := FilterByNetwork(OutputLayers(), networkName, DefaultNetworkName(coreOpName));
        r == if layers.Err? then Err(layers.status) else Ok(Map(streamInfo, layers.value))
    {
      var layers := GetNetworkOutputLayerInfos(networkName);
      if layers.Err? {
        return Err(layers.status);
      }
      var infos := ConvertLayerInfosToStreamInfos(layers.value, streamInfo);
      assert infos == Map(streamInfo, layers.value);
      r := Ok(infos);
    }

    method GetAllStreamInfos(networkName: string, streamInfo: LayerInfo -> StreamInfo)
      returns (r: Result<seq<StreamInfo>>)
      ensures var defaultName := DefaultNetworkName(coreOpName);
        var inputs := FilterByNetwork(InputLayers(), networkName, defaultName);
        var outputs := FilterByNetwork(OutputLayers(), networkName, defaultName);
        r == if inputs.Err? then Err(inputs.status) else if outputs.Err? then Err(outputs.status)
             else Ok(Map(streamInfo, inputs.value) + Map(streamInfo, outputs.value))
    {
      var inputs := GetInputStreamInfos(networkName, streamInfo);
      if inputs.Err? {
        return inputs;
      }
      var outputs := GetOutputStreamInfos(networkName, streamInfo);
      if outputs.Err? {
        return outputs;
      }
      r := Ok(inputs.value + outputs.value);
    }

    /** Every layer's vstream descriptors, skipping a descriptor whose name
        is already present. */
    method ConvertLayerInfosToVStreamInfos(layers: seq<LayerInfo>, vstreamInfos: LayerInfo -> seq<VStreamInfo>)
      returns (res: seq<VStreamInfo>)
      ensures res == ConvertedVStreamInfos(layers, vstreamInfos)
    {
      res := [];
      for i := 0 to |layers|
        invariant res == ConvertedVStreamInfos(layers[..i], vstreamInfos)
      {
        var infos := vstreamInfos(layers[i]);
        ghost var before := res;
        for j := 0 to |infos|
          invariant res == AppendUnseen(before, infos[..j])
        {
          assert infos[..j + 1][..j] == infos[..j];
          if !NameIn(res, infos[j].name) {
            res := res + [infos[j]];
          }
        }
        assert infos[..|infos|] == infos;
        assert layers[..i + 1][..i] == layers[..i];
      }
      assert layers[..|layers|] == layers;
    }

    method GetInputVStreamInfos(networkName: string, vstreamInfos: LayerInfo -> seq<VStreamInfo>)
      returns (r: Result<seq<VStreamInfo>>)
      ensures var layers := FilterByNetwork(InputLayers(), networkName, DefaultNetworkName(coreOpName));
        r == if layers.Err? then Err(layers.status) else Ok(ConvertedVStreamInfos(layers.value, vstreamInfos))
    {
      var layers := GetNetworkInputLayerInfos(networkName);
      if layers.Err? {
        return Err(layers.status);
      }
      var infos := ConvertLayerInfosToVStreamInfos(layers.value, vstreamInfos);
      r := Ok(infos);
    }

    /** The output vstream descriptors. In net-flow mode, the stored list as
        it is. Otherwise the converted descriptors of the network's output
        layers, ordered by the canonical output names, or an InternalFailure
        when a name is missing from them. */
    method GetOutputVStreamInfos(networkName: string, vstreamInfos: LayerInfo -> seq<VStreamInfo>)
      returns (r: Result<seq<VStreamInfo>>)
      ensures supportedFeatures.hailoNetFlow ==> r == Ok(outputVStreamsInfos)
      ensures !supportedFeatures.hailoNetFlow ==>
        var layers := FilterByNetwork(OutputLayers(), networkName, DefaultNetworkName(coreOpName));
        r == if layers.Err? then Err(layers.status)
             else SortByOutputNames(ConvertedVStreamInfos(layers.value, vstreamInfos), sortedOutputNames)
    {
      if supportedFeatures.hailoNetFlow {
        return Ok(outputVStreamsInfos);
      }
      var layers := GetNetworkOutputLayerInfos(networkName);
      if layers.Err? {
        return Err(layers.status);
      }
      var infos := ConvertLayerInfosToVStreamInfos(layers.value, vstreamInfos);
      // Resolve every rank first; a name missing from the canonical list
      // fails the whole query.
      for i := 0 to |infos|
        invariant forall k :: 0 <= k < i ==> OutputRank(sortedOutputNames, infos[k]) < |sortedOutputNames|
      {
        if IndexOf(sortedOutputNames, infos[i].name) == |sortedOutputNames| {
          return Err(InternalFailure);
        }
      }
      r := Ok(SortByRank(infos, sortedOutputNames));
    }

    /** Input descriptors followed by output descriptors. */
    method GetAllVStreamInfos(networkName: string, vstreamInfos: LayerInfo -> seq<VStreamInfo>)
      returns (r: Result<seq<VStreamInfo>>)
      ensures var defaultName := DefaultNetworkName(coreOpName);
        var inputs := FilterByNetwork(InputLayers(), networkName, defaultName);
        var outputs := FilterByNetwork(OutputLayers(), networkName, defaultName);
        var sortedOutputs := if outputs.Err? then Err(outputs.status)
          else SortByOutputNames(ConvertedVStreamInfos(outputs.value, vstreamInfos), sortedOutputNames);
        r == if inputs.Err? then Err(inputs.status)
             else if supportedFeatures.hailoNetFlow then
               Ok(ConvertedVStreamInfos(inputs.value, vstreamInfos) + outputVStreamsInfos)
             else if sortedOutputs.Err? then Err(sortedOutputs.status)
             else Ok(ConvertedVStreamInfos(inputs.value, vstreamInfos) + sortedOutputs.value)
    {
      var inputs := GetInputVStreamInfos(networkName, vstreamInfos);
      if inputs.Err? {
        return inputs;
      }
      var outputs := GetOutputVStreamInfos(networkName, vstreamInfos);
      if outputs.Err? {
        return outputs;
      }
      r := Ok(inputs.value + outputs.value);
    }

    /** The vstream names a stream carries. */
    method GetVStreamNamesFromStreamName(streamName: string) returns (r: Result<seq<string>>)
      ensures r == VStreamNamesOf(AllLayers(), streamName)
    {
      var all := GetAllLayerInfos();
      for i := 0 to |all|
        invariant forall j :: 0 <= j < i ==> all[j].name != streamName
      {
        var layer := all[i];
        if streamName == layer.name {
          assert Map(LayerName, all)[i] == streamName;
          if layer.isDefusedNms {
            return Ok([layer.fusedNmsName]);
          } else if layer.isMux {
            var names := GetDemuxesNames(layer);
            return Ok(names);
          } else {
            return Ok([layer.name]);
          }
        }
      }
      r := Err(NotFound);
    }

    /** The streams that carry a vstream, in layer order. */
    method GetStreamNamesFromVStreamName(vstreamName: string) returns (r: Result<seq<string>>)
      ensures r == StreamNamesOf(AllLayers(), vstreamName, supportedFeatures.hailoNetFlow)
    {
      var all := GetAllLayerInfos();
      var results := CollectCarriers(all, vstreamName, supportedFeatures.hailoNetFlow);
      if |results| == 0 {
        return Err(NotFound);
      }
      r := Ok(results);
    }

    /** One network-info record per canonical network name, in order; an
        InternalFailure when a name does not fit the record's name field
        with its terminating zero. */
    method GetNetworkInfos() returns (r: Result<seq<NetworkInfo>>)
      ensures r.Ok? <==> forall i :: 0 <= i < |sortedNetworkNames| ==>
        |sortedNetworkNames[i]| + 1 <= MAX_NETWORK_NAME_SIZE
      ensures r.Ok? ==> |r.value| == |sortedNetworkNames|
      ensures r.Ok? ==> forall i :: 0 <= i < |r.value| ==> r.value[i].name == sortedNetworkNames[i]
      ensures r.Err? ==> r.status == InternalFailure
    {
      var infos: seq<NetworkInfo> := [];
      for i := 0 to |sortedNetworkNames|
        invariant |infos| == i
        invariant forall k :: 0 <= k < i ==> |sortedNetworkNames[k]| + 1 <= MAX_NETWORK_NAME_SIZE
        invariant forall k :: 0 <= k < i ==> infos[k].name == sortedNetworkNames[k]
      {
        var networkName := sortedNetworkNames[i];
        if MAX_NETWORK_NAME_SIZE < |networkName| + 1 {
          return Err(InternalFailure);
        }
        infos := infos + [NetworkInfo(networkName)];
      }
      r := Ok(infos);
    }

    /** The number of contexts the device runs: the dynamic ones and the
        fixed non-dynamic ones. */
    function GetContextsCount(): (count: nat)
      ensures count == |dynamicContexts| + NON_DYNAMIC_CONTEXTS_COUNT
      ensures count > |dynamicContexts|
    {
      |dynamicContexts| + NON_DYNAMIC_CONTEXTS_COUNT
    }

    /** The bytes all dynamic contexts transfer (the preliminary context is
        not counted); the first context whose size fails aborts. */
    method GetTotalTransferSize(transferSize: LayerInfo -> Result<nat>) returns (r: Result<nat>)
      ensures r == TotalTransferSize(DynamicStates(), transferSize)
    {
      ghost var states := DynamicStates();
      ghost var sizes := ContextSizes(states, transferSize);
      var total := 0;
      for i := 0 to |dynamicContexts|
        invariant SumOfSizes(sizes[..i]) == Ok(total)
        invariant DynamicStates() == states
      {
        var size := dynamicContexts[i].GetContextTransferSize(transferSize);
        assert size == sizes[i];
        SumOfSizesStep(sizes, i, total);
        if size.Err? {
          return Err(size.status);
        }
        total := total + size.value;
      }
      assert sizes[..|dynamicContexts|] == sizes;
      r := Ok(total);
    }
  }
}
