/** One hardware execution context: its action list, its config-buffer sizes
    and its edge layers, filed into six lists by category (boundary,
    inter-context, DDR) and direction (input, output). */
module Contexts {
  import opened Outcomes
  import opened Sequences
  import opened Layers

  /** The type tag of a context-switch action (an enumerator of the
      library's closed action-type enumeration, by ordinal). */
  type ActionType = nat

  /** A context-switch action: its type tag and its opaque parameters. */
  datatype Action = Action(actionType: ActionType, params: seq<nat>)

  /** Config stream index to the sizes of the successive writes on it. */
  type ConfigBufferInfoMap = map<nat, seq<nat>>

  /** The category an edge layer is added under. */
  datatype EdgeCategory = Boundary | InterContext | Ddr

  /** The value of a context: what a `ContextMetadata` holds. */
  datatype ContextState = ContextState(
    actions: seq<Action>,
    configBuffersInfo: ConfigBufferInfoMap,
    boundaryInputLayers: seq<LayerInfo>,
    boundaryOutputLayers: seq<LayerInfo>,
    interContextInputLayers: seq<LayerInfo>,
    interContextOutputLayers: seq<LayerInfo>,
    ddrInputLayers: seq<LayerInfo>,
    ddrOutputLayers: seq<LayerInfo>)

  /** The edge-layer list of a category and direction (host-to-device layers
      are the inputs). */
  function EdgeLayersOf(s: ContextState, category: EdgeCategory, direction: Direction): seq<LayerInfo>
  {
    match (category, direction)
    case (Boundary, HostToDevice) => s.boundaryInputLayers
    case (Boundary, DeviceToHost) => s.boundaryOutputLayers
    case (InterContext, HostToDevice) => s.interContextInputLayers
    case (InterContext, DeviceToHost) => s.interContextOutputLayers
    case (Ddr, HostToDevice) => s.ddrInputLayers
    case (Ddr, DeviceToHost) => s.ddrOutputLayers
  }

  /** The context after adding `layer` under `category`: the layer goes to
      the input list of that category when it is host-to-device and to the
      output list otherwise. */
  function AddLayer(s: ContextState, category: EdgeCategory, layer: LayerInfo): ContextState
  {
    var input := layer.direction == HostToDevice;
    match category
    case Boundary =>
      if input then s.(boundaryInputLayers := s.boundaryInputLayers + [layer])
      else s.(boundaryOutputLayers := s.boundaryOutputLayers + [layer])
    case InterContext =>
      if input then s.(interContextInputLayers := s.interContextInputLayers + [layer])
      else s.(interContextOutputLayers := s.interContextOutputLayers + [layer])
    case Ddr =>
      if input then s.(ddrInputLayers := s.ddrInputLayers + [layer])
      else s.(ddrOutputLayers := s.ddrOutputLayers + [layer])
  }

  /** Adding a layer appends it to exactly the list of its category and
      direction; the other five lists, the actions and the config buffers
      are unchanged. */
  lemma {:induction false} AddLayerFilesByDirection(s: ContextState, category: EdgeCategory, layer: LayerInfo)
    ensures AddLayer(s, category, layer).actions == s.actions
    ensures AddLayer(s, category, layer).configBuffersInfo == s.configBuffersInfo
    ensures forall c, d ::
      EdgeLayersOf(AddLayer(s, category, layer), c, d)
        == EdgeLayersOf(s, c, d) + (if c == category && d == layer.direction then [layer] else [])
  {
  }

  /** All six edge-layer lists, in the order the transfer size visits them. */
  function SizedEdgeLayers(s: ContextState): seq<LayerInfo>
  {
    s.boundaryInputLayers + s.boundaryOutputLayers
      + s.ddrInputLayers + s.ddrOutputLayers
      + s.interContextInputLayers + s.interContextOutputLayers
  }

  /** Two sizes added, or the first failure (the left one first). */
  function Combine(a: Result<nat>, b: Result<nat>): Result<nat>
  {
    if a.Err? then a else if b.Err? then b else Ok(a.value + b.value)
  }

  /** The sum of the transfer sizes of `layers`, or the failure of the first
      layer (from the left) whose size cannot be computed. */
  function LayersTransferSize(layers: seq<LayerInfo>, transferSize: LayerInfo -> Result<nat>): Result<nat>
    decreases |layers|
  {
    if layers == [] then Ok(0)
    else
      var total :- LayersTransferSize(layers[..|layers| - 1], transferSize);
      var size :- transferSize(layers[|layers| - 1]);
      Ok(total + size)
  }

  /** The size of a concatenation combines the sizes of its parts: the
      left part's failure first, then the right part's, else the sum. */
  lemma {:induction false} LayersTransferSizeAppend(a: seq<LayerInfo>, b: seq<LayerInfo>, transferSize: LayerInfo -> Result<nat>)
    ensures LayersTransferSize(a + b, transferSize)
      == Combine(LayersTransferSize(a, transferSize), LayersTransferSize(b, transferSize))
    decreases |b|
  {
    if b == [] {
      assert a + b == a;
    } else {
      var b' := b[..|b| - 1];
      assert (a + b)[..|a + b| - 1] == a + b';
      LayersTransferSizeAppend(a, b', transferSize);
    }
  }

  /** The sum fails exactly when some layer's size fails, and then with the
      status of the first such layer. */
  lemma {:induction false} LayersTransferSizeFails(layers: seq<LayerInfo>, transferSize: LayerInfo -> Result<nat>)
    ensures LayersTransferSize(layers, transferSize).Err?
        <==> exists i :: 0 <= i < |layers| && transferSize(layers[i]).Err?
    ensures LayersTransferSize(layers, transferSize).Err? ==>
      exists i :: 0 <= i < |layers| && transferSize(layers[i]) == LayersTransferSize(layers, transferSize)
        && forall j :: 0 <= j < i ==> transferSize(layers[j]).Ok?
    decreases |layers|
  {
    if layers != [] {
      var init := layers[..|layers| - 1];
      LayersTransferSizeFails(init, transferSize);
      if exists i :: 0 <= i < |init| && transferSize(init[i]).Err? {
        var i :| 0 <= i < |init| && transferSize(init[i]).Err?;
        assert layers[i] == init[i];
      }
      if exists i :: 0 <= i < |layers| && transferSize(layers[i]).Err? {
        var i :| 0 <= i < |layers| && transferSize(layers[i]).Err?;
        if i < |init| {
          assert init[i] == layers[i];
        }
      }
      if LayersTransferSize(init, transferSize).Err? {
        var i :| 0 <= i < |init| && transferSize(init[i]) == LayersTransferSize(init, transferSize)
          && forall j :: 0 <= j < i ==> transferSize(init[j]).Ok?;
        assert layers[i] == init[i];
        assert forall j :: 0 <= j < i ==> layers[j] == init[j];
      } else {
        assert forall j :: 0 <= j < |init| ==> layers[j] == init[j];
      }
    }
  }

  /** The total size of all config-buffer writes, over every config stream
      (visited here in ascending stream order; ConfigBuffersTotalRemove shows
      that the order does not matter). */
  function ConfigBuffersTotal(m: ConfigBufferInfoMap): nat
    decreases |m.Keys|
  {
    if m.Keys == {} then 0
    else
      var k := MinOf(m.Keys);
      assert (m - {k}).Keys < m.Keys;
      Sum(m[k]) + ConfigBuffersTotal(m - {k})
  }

  /** The total does not depend on the order streams are visited in: any
      stream can be taken out first. */
  lemma {:induction false} ConfigBuffersTotalRemove(m: ConfigBufferInfoMap, k: nat)
    requires k in m
    ensures ConfigBuffersTotal(m) == Sum(m[k]) + ConfigBuffersTotal(m - {k})
    decreases |m.Keys|
  {
    var j := MinOf(m.Keys);
    if j != k {
      var mj, mk := m - {j}, m - {k};
      assert mj.Keys == m.Keys - {j} && mk.Keys == m.Keys - {k};
      assert ConfigBuffersTotal(m) == Sum(m[j]) + ConfigBuffersTotal(mj);
      ConfigBuffersTotalRemove(mj, k);
      assert j in mk.Keys && MinOf(mk.Keys) in m.Keys;
      assert MinOf(mk.Keys) == j;
      assert ConfigBuffersTotal(mk) == Sum(m[j]) + ConfigBuffersTotal(mk - {j});
      assert mj - {k} == mk - {j};
    }
  }

  /** One more write of `size` bytes on config stream `k` adds exactly
      `size` to the config total. */
  lemma {:induction false} ConfigWriteAddsItsSize(m: ConfigBufferInfoMap, k: nat, size: nat)
    ensures var writes := if k in m then m[k] else [];
      ConfigBuffersTotal(m[k := writes + [size]]) == ConfigBuffersTotal(m) + size
  {
    var writes := if k in m then m[k] else [];
    var m' := m[k := writes + [size]];
    ConfigBuffersTotalRemove(m', k);
    SumAppend(writes, [size]);
    assert [size][..0] == [];
    if k in m {
      ConfigBuffersTotalRemove(m, k);
      assert m' - {k} == m - {k};
    } else {
      assert m' - {k} == m;
    }
  }

  /** The bytes a context transfers: every config-buffer write plus the
      transfer size of every edge layer, or the failure of the first layer
      whose size fails. */
  function ContextTransferSize(s: ContextState, transferSize: LayerInfo -> Result<nat>): Result<nat>
  {
    Combine(Ok(ConfigBuffersTotal(s.configBuffersInfo)), LayersTransferSize(SizedEdgeLayers(s), transferSize))
  }

  /** Summing the six lists one after the other, in the order boundary
      input, boundary output, DDR input, DDR output, inter-context input,
      inter-context output, and stopping at the first list that fails,
      gives the context size. */
  lemma {:induction false} ContextTransferSizeInSourceOrder(s: ContextState, transferSize: LayerInfo -> Result<nat>)
    ensures ContextTransferSize(s, transferSize) ==
      Combine(Ok(ConfigBuffersTotal(s.configBuffersInfo)),
        Combine(Combine(Combine(Combine(Combine(
          LayersTransferSize(s.boundaryInputLayers, transferSize),
          LayersTransferSize(s.boundaryOutputLayers, transferSize)),
          LayersTransferSize(s.ddrInputLayers, transferSize)),
          LayersTransferSize(s.ddrOutputLayers, transferSize)),
          LayersTransferSize(s.interContextInputLayers, transferSize)),
          LayersTransferSize(s.interContextOutputLayers, transferSize)))
  {
    var bi, bo := s.boundaryInputLayers, s.boundaryOutputLayers;
    var di, dout := s.ddrInputLayers, s.ddrOutputLayers;
    var ii, io := s.interContextInputLayers, s.interContextOutputLayers;
    LayersTransferSizeAppend(bi, bo, transferSize);
    LayersTransferSizeAppend(bi + bo, di, transferSize);
    LayersTransferSizeAppend(bi + bo + di, dout, transferSize);
    LayersTransferSizeAppend(bi + bo + di + dout, ii, transferSize);
    LayersTransferSizeAppend(bi + bo + di + dout + ii, io, transferSize);
  }

  /** Inserting one layer anywhere in a list adds its size to the list's
      size, or makes the size fail when the layer's size fails. */
  lemma {:induction false} InsertedLayerSize(front: seq<LayerInfo>, back: seq<LayerInfo>, layer: LayerInfo,
                          transferSize: LayerInfo -> Result<nat>)
    ensures LayersTransferSize(front + back, transferSize).Ok? && transferSize(layer).Ok? ==>
      LayersTransferSize(front + [layer] + back, transferSize)
        == Ok(LayersTransferSize(front + back, transferSize).value + transferSize(layer).value)
    ensures LayersTransferSize(front + back, transferSize).Err? || transferSize(layer).Err? ==>
      LayersTransferSize(front + [layer] + back, transferSize).Err?
  {
    assert [layer][..0] == [];
    LayersTransferSizeAppend(front, back, transferSize);
    LayersTransferSizeAppend(front, [layer], transferSize);
    LayersTransferSizeAppend(front + [layer], back, transferSize);
  }

  /** A six-part concatenation regrouped after its first `k` parts. */
  lemma Regroup(a: seq<LayerInfo>, b: seq<LayerInfo>, c: seq<LayerInfo>,
                d: seq<LayerInfo>, e: seq<LayerInfo>, f: seq<LayerInfo>)
    ensures a + b + c + d + e + f == a + (b + c + d + e + f)
    ensures a + b + c + d + e + f == a + b + (c + d + e + f)
    ensures a + b + c + d + e + f == a + b + c + (d + e + f)
    ensures a + b + c + d + e + f == a + b + c + d + (e + f)
  {
  }

  /** Where an added layer lands in the flat list of all six lists. */
  lemma {:induction false} AddLayerInsertsOnce(s: ContextState, category: EdgeCategory, layer: LayerInfo)
    returns (front: seq<LayerInfo>, back: seq<LayerInfo>)
    ensures SizedEdgeLayers(s) == front + back
    ensures SizedEdgeLayers(AddLayer(s, category, layer)) == front + [layer] + back
  {
    var bi, bo := s.boundaryInputLayers, s.boundaryOutputLayers;
    var di, dout := s.ddrInputLayers, s.ddrOutputLayers;
    var ii, io := s.interContextInputLayers, s.interContextOutputLayers;
    var l := [layer];
    Regroup(bi, bo, di, dout, ii, io);
    if category == Boundary && layer.direction == HostToDevice {
      front, back := bi, bo + di + dout + ii + io;
      Regroup(bi + l, bo, di, dout, ii, io);
    } else if category == Boundary {
      front, back := bi + bo, di + dout + ii + io;
      Regroup(bi, bo + l, di, dout, ii, io);
      assert bi + (bo + l) == bi + bo + l;
    } else if category == Ddr && layer.direction == HostToDevice {
      front, back := bi + bo + di, dout + ii + io;
      Regroup(bi, bo, di + l, dout, ii, io);
      assert bi + bo + (di + l) == bi + bo + di + l;
    } else if category == Ddr {
      front, back := bi + bo + di + dout, ii + io;
      Regroup(bi, bo, di, dout + l, ii, io);
      assert bi + bo + di + (dout + l) == bi + bo + di + dout + l;
    } else if layer.direction == HostToDevice {
      front, back := bi + bo + di + dout + ii, io;
      assert bi + bo + di + dout + (ii + l) == bi + bo + di + dout + ii + l;
    } else {
      front, back := bi + bo + di + dout + ii + io, [];
      assert front + back == front;
      assert front + l + back == front + l;
    }
  }

  /** Adding an edge layer grows the context's transfer size by exactly
      that layer's size, and a layer whose size fails makes it fail. */
  lemma {:induction false} AddLayerGrowsTransferSize(s: ContextState, category: EdgeCategory, layer: LayerInfo,
                                  transferSize: LayerInfo -> Result<nat>)
    ensures ContextTransferSize(s, transferSize).Ok? && transferSize(layer).Ok? ==>
      ContextTransferSize(AddLayer(s, category, layer), transferSize)
        == Ok(ContextTransferSize(s, transferSize).value + transferSize(layer).value)
    ensures ContextTransferSize(s, transferSize).Err? || transferSize(layer).Err? ==>
      ContextTransferSize(AddLayer(s, category, layer), transferSize).Err?
  {
    var front, back := AddLayerInsertsOnce(s, category, layer);
    InsertedLayerSize(front, back, layer, transferSize);
  }

  /** Adds up every config-buffer write, one stream at a time (here in
      ascending stream order). */
  method SumConfigBuffers(configBuffersInfo: ConfigBufferInfoMap) returns (sum: nat)
    ensures sum == ConfigBuffersTotal(configBuffersInfo)
  {
    sum := 0;
    var remaining := configBuffersInfo;
    while remaining.Keys != {}
      invariant sum + ConfigBuffersTotal(remaining) == ConfigBuffersTotal(configBuffersInfo)
      decreases |remaining.Keys|
    {
      var k := MinOf(remaining.Keys);
      assert (remaining - {k}).Keys < remaining.Keys;
      sum := sum + Sum(remaining[k]);
      remaining := remaining - {k};
    }
  }

  /** A context under construction. The action list and the config-buffer
      map are fixed when it is built; the edge-layer lists grow as the
      loader adds layers. */
  class ContextMetadata {
    const actions: seq<Action>
    const configBuffersInfo: ConfigBufferInfoMap
    var boundaryInputLayers: seq<LayerInfo>
    var boundaryOutputLayers: seq<LayerInfo>
    var interContextInputLayers: seq<LayerInfo>
    var interContextOutputLayers: seq<LayerInfo>
    var ddrInputLayers: seq<LayerInfo>
    var ddrOutputLayers: seq<LayerInfo>

    /** The value this context currently holds. */
    function State(): ContextState
      reads this
    {
      ContextState(actions, configBuffersInfo,
        boundaryInputLayers, boundaryOutputLayers,
        interContextInputLayers, interContextOutputLayers,
        ddrInputLayers, ddrOutputLayers)
    }

    constructor (actions: seq<Action>, configBuffersInfo: ConfigBufferInfoMap)
      ensures State() == ContextState(actions, configBuffersInfo, [], [], [], [], [], [])
    {
      this.actions := actions;
      this.configBuffersInfo := configBuffersInfo;
      boundaryInputLayers, boundaryOutputLayers := [], [];
      interContextInputLayers, interContextOutputLayers := [], [];
      ddrInputLayers, ddrOutputLayers := [], [];
    }

    /** The actions whose type is one of `actionTypes`, in execution order. */
    method GetActionsOfType(actionTypes: set<ActionType>) returns (filtered: seq<Action>)
      ensures filtered == Filter(actions, (a: Action) => a.actionType in actionTypes)
      ensures forall a :: a in filtered <==> a in actions && a.actionType in actionTypes
    {
      ghost var keep := (a: Action) => a.actionType in actionTypes;
      filtered := [];
      for i := 0 to |actions|
        invariant filtered == Filter(actions[..i], keep)
      {
        assert actions[..i + 1][..i] == actions[..i];
        if actions[i].actionType in actionTypes {
          filtered := filtered + [actions[i]];
        }
      }
      assert actions[..|actions|] == actions;
    }

    method AddBoundaryLayer(layer: LayerInfo)
      modifies this
      ensures State() == AddLayer(old(State()), Boundary, layer)
    {
      if layer.direction == HostToDevice {
        boundaryInputLayers := boundaryInputLayers + [layer];
      } else {
        boundaryOutputLayers := boundaryOutputLayers + [layer];
      }
    }

    method AddInterContextLayer(layer: LayerInfo)
      modifies this
      ensures State() == AddLayer(old(State()), InterContext, layer)
    {
      if layer.direction == HostToDevice {
        interContextInputLayers := interContextInputLayers + [layer];
      } else {
        interContextOutputLayers := interContextOutputLayers + [layer];
      }
    }

    method AddDdrLayer(layer: LayerInfo)
      modifies this
      ensures State() == AddLayer(old(State()), Ddr, layer)
    {
      if layer.direction == HostToDevice {
        ddrInputLayers := ddrInputLayers + [layer];
      } else {
        ddrOutputLayers := ddrOutputLayers + [layer];
      }
    }

    /** Sums the transfer sizes of `layers`, stopping at the first failure. */
    method GetLayersTransferSize(layers: seq<LayerInfo>, transferSize: LayerInfo -> Result<nat>)
      returns (total: Result<nat>)
      ensures total == LayersTransferSize(layers, transferSize)
    {
      var sum := 0;
      for i := 0 to |layers|
        invariant LayersTransferSize(layers[..i], transferSize) == Ok(sum)
      {
        assert layers[..i + 1][..i] == layers[..i];
        var size := transferSize(layers[i]);
        if size.Err? {
          LayersTransferSizeAppend(layers[..i + 1], layers[i + 1..], transferSize);
          assert layers[..i + 1] + layers[i + 1..] == layers;
          return Err(size.status);
        }
        sum := sum + size.value;
      }
      assert layers[..|layers|] == layers;
      total := Ok(sum);
    }

    /** The bytes this context transfers: all config-buffer writes plus the
        transfer size of every edge layer. */
    method GetContextTransferSize(transferSize: LayerInfo -> Result<nat>) returns (total: Result<nat>)
      ensures total == ContextTransferSize(State(), transferSize)
    {
      var sum := SumConfigBuffers(configBuffersInfo);
      ContextTransferSizeInSourceOrder(State(), transferSize);
      var boundaryInput := GetLayersTransferSize(boundaryInputLayers, transferSize);
      if boundaryInput.Err? {
        return Err(boundaryInput.status);
      }
      var boundaryOutput := GetLayersTransferSize(boundaryOutputLayers, transferSize);
      if boundaryOutput.Err? {
        return Err(boundaryOutput.status);
      }
      var ddrInput := GetLayersTransferSize(ddrInputLayers, transferSize);
      if ddrInput.Err? {
        return Err(ddrInput.status);
      }
      var ddrOutput := GetLayersTransferSize(ddrOutputLayers, transferSize);
      if ddrOutput.Err? {
        return Err(ddrOutput.status);
      }
      var interContextInput := GetLayersTransferSize(interContextInputLayers, transferSize);
      if interContextInput.Err? {
        return Err(interContextInput.status);
      }
      var interContextOutput := GetLayersTransferSize(interContextOutputLayers, transferSize);
      if interContextOutput.Err? {
        return Err(interContextOutput.status);
      }
      total := Ok(sum + boundaryInput.value + boundaryOutput.value + ddrInput.value + ddrOutput.value
        + interContextInput.value + interContextOutput.value);
    }
  }
}
