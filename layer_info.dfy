/** Layer descriptors and the algorithms over a layer's multiplexing tree:
    the enumeration of the physical (demuxed) leaf names below a mux layer
    and the test whether a leaf belongs to that tree. */
module Layers {
  import opened Sequences

  /** Host-to-device layers are inputs; device-to-host layers are outputs. */
  datatype Direction = HostToDevice | DeviceToHost

  /** One logical data stream. A mux layer is virtual: its `predecessor`
      list holds the sub-layers it multiplexes, in stream order, and the
      leaves of that tree are the physical layers. A defused NMS layer is one
      fragment of a detection-output layer that was split; `fusedNmsName` is
      the name of the fused layer it belongs to (the first element of the
      library's `fused_nms_layer` list, the only part of it the core reads). */
  datatype LayerInfo = LayerInfo(
    name: string,
    direction: Direction,
    networkName: string,
    isMux: bool,
    predecessor: seq<LayerInfo>,
    isDefusedNms: bool,
    fusedNmsName: string)

  /** The stream descriptor derived from one layer. The core only passes it
      on; its fields are carried for the callers. */
  datatype StreamInfo = StreamInfo(name: string, direction: Direction)

  /** The virtual-stream descriptor derived from one layer. The core reads
      only its name; the other fields are carried for the callers. */
  datatype VStreamInfo = VStreamInfo(name: string, networkName: string, direction: Direction)

  function LayerName(layer: LayerInfo): string
  {
    layer.name
  }

  /** The names of the physical layers below `info`, depth-first and in
      predecessor order; a non-mux layer stands for itself. */
  function DemuxNames(info: LayerInfo): seq<string>
    decreases info
  {
    if !info.isMux then [info.name] else PredecessorsDemuxNames(info.predecessor)
  }

  /** The demux names of each layer of `ps`, concatenated in order. */
  function PredecessorsDemuxNames(ps: seq<LayerInfo>): seq<string>
    decreases ps
  {
    if ps == [] then []
    else PredecessorsDemuxNames(ps[..|ps| - 1]) + DemuxNames(ps[|ps| - 1])
  }

  /** The non-mux layers of the tree rooted at `info`, depth-first and in
      predecessor order. */
  function Leaves(info: LayerInfo): seq<LayerInfo>
    decreases info
  {
    if !info.isMux then [info] else PredecessorsLeaves(info.predecessor)
  }

  function PredecessorsLeaves(ps: seq<LayerInfo>): seq<LayerInfo>
    decreases ps
  {
    if ps == [] then []
    else PredecessorsLeaves(ps[..|ps| - 1]) + Leaves(ps[|ps| - 1])
  }

  /** The demux names are exactly the names of the leaves, one per leaf and
      in the same order, and every leaf is a physical (non-mux) layer. */
  lemma {:induction false} DemuxNamesAreLeafNames(info: LayerInfo)
    ensures DemuxNames(info) == Map(LayerName, Leaves(info))
    ensures |DemuxNames(info)| == |Leaves(info)|
    ensures forall l :: l in Leaves(info) ==> !l.isMux
    decreases info
  {
    if info.isMux {
      PredecessorsDemuxNamesAreLeafNames(info.predecessor);
    }
  }

  lemma {:induction false} PredecessorsDemuxNamesAreLeafNames(ps: seq<LayerInfo>)
    ensures PredecessorsDemuxNames(ps) == Map(LayerName, PredecessorsLeaves(ps))
    ensures forall l :: l in PredecessorsLeaves(ps) ==> !l.isMux
    decreases ps
  {
    if ps != [] {
      var init, last := ps[..|ps| - 1], ps[|ps| - 1];
      PredecessorsDemuxNamesAreLeafNames(init);
      DemuxNamesAreLeafNames(last);
      MapAppend(LayerName, PredecessorsLeaves(init), Leaves(last));
    }
  }

  /** Whether the physical layer `edgeName` lies in the tree of `info`. The
      library re-tests `info.is_mux` inside the loop over predecessors, which
      always holds there, so every predecessor is tested recursively. */
  function IsEdgeUnderMux(info: LayerInfo, edgeName: string): bool
    decreases info
  {
    if !info.isMux then edgeName == info.name
    else
      exists i :: 0 <= i < |info.predecessor| && IsEdgeUnderMux(info.predecessor[i], edgeName)
  }

  /** The membership test agrees with the enumeration: a name is under the
      tree exactly when it is one of its demux names. */
  lemma {:induction false} EdgeUnderMuxIffDemuxName(info: LayerInfo, edgeName: string)
    ensures IsEdgeUnderMux(info, edgeName) <==> edgeName in DemuxNames(info)
    decreases info
  {
    if info.isMux {
      EdgeUnderSomePredecessorIffDemuxName(info.predecessor, edgeName);
    }
  }

  lemma {:induction false} EdgeUnderSomePredecessorIffDemuxName(ps: seq<LayerInfo>, edgeName: string)
    ensures (exists i :: 0 <= i < |ps| && IsEdgeUnderMux(ps[i], edgeName))
        <==> edgeName in PredecessorsDemuxNames(ps)
    decreases ps
  {
    if ps != [] {
      var init, last := ps[..|ps| - 1], ps[|ps| - 1];
      EdgeUnderSomePredecessorIffDemuxName(init, edgeName);
      EdgeUnderMuxIffDemuxName(last, edgeName);
      if exists i :: 0 <= i < |ps| && IsEdgeUnderMux(ps[i], edgeName) {
        var i :| 0 <= i < |ps| && IsEdgeUnderMux(ps[i], edgeName);
        if i < |init| {
          assert init[i] == ps[i];
        }
      }
      if exists i :: 0 <= i < |init| && IsEdgeUnderMux(init[i], edgeName) {
        var i :| 0 <= i < |init| && IsEdgeUnderMux(init[i], edgeName);
        assert ps[i] == init[i];
      }
    }
  }

  /** A mux `m` over a leaf "a" and a mux over a leaf "c". */
  lemma DemuxExample()
    ensures
      var a := LayerInfo("a", DeviceToHost, "net", false, [], false, "");
      var c := LayerInfo("c", DeviceToHost, "net", false, [], false, "");
      var b := LayerInfo("b", DeviceToHost, "net", true, [c], false, "");
      var m := LayerInfo("m", DeviceToHost, "net", true, [a, b], false, "");
      DemuxNames(m) == ["a", "c"] && IsEdgeUnderMux(m, "c") && !IsEdgeUnderMux(m, "z")
  {
    var a := LayerInfo("a", DeviceToHost, "net", false, [], false, "");
    var c := LayerInfo("c", DeviceToHost, "net", false, [], false, "");
    var b := LayerInfo("b", DeviceToHost, "net", true, [c], false, "");
    var m := LayerInfo("m", DeviceToHost, "net", true, [a, b], false, "");
    assert [a, b][..1] == [a] && [a][..0] == [] && [c][..0] == [];
    assert PredecessorsDemuxNames([a]) == ["a"];
    assert DemuxNames(b) == PredecessorsDemuxNames([c]) == ["c"];
    assert DemuxNames(m) == PredecessorsDemuxNames([a]) + DemuxNames(b);
    EdgeUnderMuxIffDemuxName(m, "c");
    EdgeUnderMuxIffDemuxName(m, "z");
  }

  /** Appends the demux names of `info` to `res`, recursing into each
      predecessor in order. */
  method GetDemuxesNamesImpl(info: LayerInfo, res: seq<string>) returns (out: seq<string>)
    ensures out == res + DemuxNames(info)
    decreases info
  {
    if !info.isMux {
      out := res + [info.name];
      return;
    }
    var ps := info.predecessor;
    out := res;
    for i := 0 to |ps|
      invariant out == res + PredecessorsDemuxNames(ps[..i])
    {
      out := GetDemuxesNamesImpl(ps[i], out);
      assert ps[..i + 1][..i] == ps[..i];
    }
    assert ps[..|ps|] == ps;
  }

  method GetDemuxesNames(info: LayerInfo) returns (res: seq<string>)
    ensures res == DemuxNames(info)
  {
    res := GetDemuxesNamesImpl(info, []);
  }
}
