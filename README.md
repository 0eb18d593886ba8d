# Compiled-program metadata of HailoRT, in Dafny

This project models the metadata that HailoRT keeps for one compiled program
("core op") read from a HEF file, and proves properties of it.

- **Layer trees.** A boundary layer may be a *mux*: a virtual layer whose
  predecessors form a tree. The physical (demuxed) layers are the leaves of
  that tree. `Layers` enumerates the leaf names and tests whether a name is a
  leaf.
- **Contexts.** A context holds an action list, a map of config-buffer write
  sizes and six edge-layer lists: boundary, inter-context and DDR, each split
  into inputs and outputs. `Contexts.ContextMetadata` files layers into those
  lists by direction, filters actions by type and computes the bytes the
  context transfers. Any failing per-layer size aborts that sum.
- **The program.** A program has one preliminary context and an ordered list
  of dynamic contexts. `CoreOps.CoreOpMetadata` answers these queries:
  - boundary layers, overall or for one network (which can fail with
    NotFound);
  - stream and vstream descriptors, with vstream descriptors deduplicated by
    name;
  - output vstreams ordered by the canonical output-name list, which fails
    when a name is missing from it;
  - stream-name to vstream-name resolution, in both directions;
  - the network table, with its name-length check;
  - the context count and the total transfer size.
- **Variants.** `PerArch.CoreOpMetadataPerArch` maps a 32-bit
  partial-clusters layout bitmap to a program variant. A sentinel bitmap
  returns the entry with the least key.

The per-layer functions of `LayerInfoUtils` are passed in as function
parameters. Their bodies are not part of this model:
- the transfer size of a layer, which can fail;
- the stream descriptor of a layer;
- the vstream descriptors of a layer.

Points where the model takes a position on the code:
- **Output ordering.** The code has a defect here (see "## Findings"). The
  model keeps the code as written as a separate member.
  `GetOutputVStreamInfos` and `GetAllVStreamInfos` follow the corrected
  behaviour.
- **Sentinel on an empty table.** The sentinel path only asserts that the
  table is not empty. The model makes that a precondition.
- **Which variant the sentinel returns.** The sentinel returns `begin()` of
  the `std::map`, which is the entry with the least key.

Constants come from headers that are not part of this model. Their values are
assumed:
- `HAILO_MAX_NETWORK_NAME_SIZE` = 257;
- `PARTIAL_CLUSTERS_LAYOUT_IGNORE` = 0xFFFFFFFF;
- the number of non-dynamic contexts is left unspecified: any count of at
  least one (the preliminary context);
- the default network name is `<core op name>/<core op name>`.

## Model

| member | source | states |
|---|---|---|
| Layers.DemuxNamesAreLeafNames | hailort/libhailort/src/hef/core_op_metadata.cpp:16-32 | the demux names are exactly the names of the tree's leaves, one per leaf, in depth-first predecessor order, and every leaf is a non-mux layer |
| Layers.GetDemuxesNamesImpl | hailort/libhailort/src/hef/core_op_metadata.cpp:16-25 | the recursive append leaves the earlier contents and appends the demux names of the layer: its own name for a non-mux layer, else its predecessors' names in order |
| Layers.GetDemuxesNames | hailort/libhailort/src/hef/core_op_metadata.cpp:27-32 | returns exactly the demux names of the layer |
| Layers.EdgeUnderMuxIffDemuxName | hailort/libhailort/src/hef/core_op_metadata.cpp:34-51 | the membership test holds exactly when the name is one of the demux names (plain name equality on a leaf) |
| Layers.DemuxExample | hailort/libhailort/src/hef/core_op_metadata.cpp:16-51 | a mux over leaf "a" and a mux over leaf "c" has demux names ["a","c"]; "c" is under it and "z" is not |
| Contexts.ContextMetadata.constructor | hailort/libhailort/src/hef/core_op_metadata.cpp:53-57 | a new context holds the given actions and config buffers and six empty layer lists |
| Contexts.ContextMetadata.GetActionsOfType | hailort/libhailort/src/hef/core_op_metadata.cpp:69-79 | returns the actions whose type is in the set, in their original order; an action is returned exactly when it is in the list and its type is in the set |
| Contexts.AddLayerFilesByDirection | hailort/libhailort/src/hef/core_op_metadata.cpp:81-106 | adding a layer appends it to the list of its category and direction (inputs for host-to-device, outputs otherwise); the other five lists, the actions and the config buffers are unchanged |
| Contexts.ContextMetadata.AddBoundaryLayer | hailort/libhailort/src/hef/core_op_metadata.cpp:81-88 | the new state is the old state with the layer filed as a boundary layer |
| Contexts.ContextMetadata.AddInterContextLayer | hailort/libhailort/src/hef/core_op_metadata.cpp:90-97 | the new state is the old state with the layer filed as an inter-context layer |
| Contexts.ContextMetadata.AddDdrLayer | hailort/libhailort/src/hef/core_op_metadata.cpp:99-106 | the new state is the old state with the layer filed as a DDR layer |
| Contexts.LayersTransferSizeAppend | hailort/libhailort/src/hef/core_op_metadata.cpp:138-147 | the size of two lists together is the sum of their sizes, or the first list's failure, or else the second's |
| Contexts.LayersTransferSizeFails | hailort/libhailort/src/hef/core_op_metadata.cpp:138-147 | the sum fails exactly when some layer's size fails, and then with the status of the first failing layer |
| Contexts.ContextMetadata.GetLayersTransferSize | hailort/libhailort/src/hef/core_op_metadata.cpp:138-147 | the loop returns the specified sum of per-layer sizes, stopping at the first failure |
| Contexts.ConfigBuffersTotalRemove | hailort/libhailort/src/hef/core_op_metadata.cpp:153-156 | the config-buffer total is independent of visiting order: any stream's writes can be taken out first |
| Contexts.ConfigWriteAddsItsSize | hailort/libhailort/src/hef/core_op_metadata.cpp:153-156 | appending one write of `size` to a stream grows the config-buffer total by `size` |
| Contexts.SumConfigBuffers | hailort/libhailort/src/hef/core_op_metadata.cpp:153-156 | the loop, visiting the config streams one at a time, returns the total size of all config-buffer writes |
| Contexts.ContextTransferSizeInSourceOrder | hailort/libhailort/src/hef/core_op_metadata.cpp:149-178 | the context size (the config-buffer total plus the size of all six edge lists taken as one list) is what the source's step-by-step sum gives: config buffers, then boundary inputs and outputs, DDR inputs and outputs, inter-context inputs and outputs, the first failure aborting |
| Contexts.AddLayerGrowsTransferSize | hailort/libhailort/src/hef/core_op_metadata.cpp:149-178 | adding an edge layer grows the context size by that layer's size, and the size fails if the old size or the layer's size failed |
| Contexts.ContextMetadata.GetContextTransferSize | hailort/libhailort/src/hef/core_op_metadata.cpp:149-178 | returns the specified context size: config buffers in key order, then the six lists in the source's order, aborting on the first failure |
| CoreOps.CoreOpMetadata.constructor | hailort/libhailort/src/hef/core_op_metadata.cpp:180-191 | a new program holds the given name, preliminary context, dynamic contexts, config channels, sorted output names, supported features and sorted network names, and an empty stored output-vstream list |
| CoreOps.BoundaryLayersMember | hailort/libhailort/src/hef/core_op_metadata.cpp:204-226 | a layer is listed exactly when some dynamic context holds it as a boundary layer of that direction |
| CoreOps.CoreOpMetadata.CollectBoundaryLayers | hailort/libhailort/src/hef/core_op_metadata.cpp:204-269 | the nested loop returns the accepted boundary layers of all dynamic contexts, context by context, in insertion order |
| CoreOps.CoreOpMetadata.GetInputLayerInfos | hailort/libhailort/src/hef/core_op_metadata.cpp:204-214 | returns every boundary input layer of the dynamic contexts in order |
| CoreOps.CoreOpMetadata.GetOutputLayerInfos | hailort/libhailort/src/hef/core_op_metadata.cpp:216-226 | returns every boundary output layer of the dynamic contexts in order |
| CoreOps.CoreOpMetadata.GetAllLayerInfos | hailort/libhailort/src/hef/core_op_metadata.cpp:228-239 | returns the input layers followed by the output layers |
| CoreOps.FilterByNetworkSelects | hailort/libhailort/src/hef/core_op_metadata.cpp:241-269 | the empty name and the default name select every layer; any other name selects exactly the layers of that network; the result is NotFound exactly when nothing is selected |
| CoreOps.CoreOpMetadata.GetNetworkInputLayerInfos | hailort/libhailort/src/hef/core_op_metadata.cpp:241-254 | returns the input layers of the requested network, or NotFound when there are none |
| CoreOps.CoreOpMetadata.GetNetworkOutputLayerInfos | hailort/libhailort/src/hef/core_op_metadata.cpp:256-269 | returns the output layers of the requested network, or NotFound when there are none |
| CoreOps.CoreOpMetadata.GetNetworkAllLayerInfos | hailort/libhailort/src/hef/core_op_metadata.cpp:286-300 | returns the network's inputs followed by its outputs, or the failure of the first direction that has none |
| CoreOps.FindByName | hailort/libhailort/src/hef/core_op_metadata.cpp:193-202 | finds the first layer with the name; NotFound exactly when no layer has it |
| CoreOps.CoreOpMetadata.GetLayerInfoByStreamName | hailort/libhailort/src/hef/core_op_metadata.cpp:193-202 | returns the first boundary layer (inputs before outputs) with that name, or NotFound exactly when there is none |
| CoreOps.CoreOpMetadata.ConvertLayerInfosToStreamInfos | hailort/libhailort/src/hef/core_op_metadata.cpp:439-446 | returns one stream descriptor per layer, in layer order |
| CoreOps.CoreOpMetadata.GetInputStreamInfos | hailort/libhailort/src/hef/core_op_metadata.cpp:302-308 | returns the stream descriptors of the network's input layers, or the layer query's failure |
| CoreOps.CoreOpMetadata.GetOutputStreamInfos | hailort/libhailort/src/hef/core_op_metadata.cpp:310-316 | returns the stream descriptors of the network's output layers, or the layer query's failure |
| CoreOps.CoreOpMetadata.GetAllStreamInfos | hailort/libhailort/src/hef/core_op_metadata.cpp:318-332 | returns the stream descriptors of the network's input layers followed by those of its output layers, or the failure of the first direction that has none |
| CoreOps.AppendUnseenProperties | hailort/libhailort/src/hef/core_op_metadata.cpp:448-461 | skipping already-present names keeps names distinct, keeps the earlier entries, covers every offered name and adds only offered descriptors |
| CoreOps.ConvertedVStreamInfosProperties | hailort/libhailort/src/hef/core_op_metadata.cpp:448-461 | the converted list has pairwise distinct names, holds a descriptor for every name any layer yields, and holds only yielded descriptors |
| CoreOps.ConvertedSkipsOverYielded | hailort/libhailort/src/hef/core_op_metadata.cpp:448-461 | converting layer by layer is the same as skipping repeated names over all yielded descriptors in one run |
| CoreOps.AppendUnseenKeepsFirst | hailort/libhailort/src/hef/core_op_metadata.cpp:451-457 | skipping seen names keeps, for each name, the first descriptor offered under it, in the order the names first appear |
| CoreOps.ConvertedKeepsFirstInOrder | hailort/libhailort/src/hef/core_op_metadata.cpp:448-461 | each converted descriptor is the first one any layer yields under its name, and the converted list follows the order in which the names are first yielded |
| CoreOps.OneDescriptorPerName | hailort/libhailort/src/hef/core_op_metadata.cpp:448-461 | a name yielded by several layers (the fragments of one fused layer) appears exactly once |
| CoreOps.CoreOpMetadata.ConvertLayerInfosToVStreamInfos | hailort/libhailort/src/hef/core_op_metadata.cpp:448-461 | the nested loop returns the specified deduplicated conversion |
| CoreOps.CoreOpMetadata.GetInputVStreamInfos | hailort/libhailort/src/hef/core_op_metadata.cpp:334-340 | returns the deduplicated vstream descriptors of the network's input layers, or the layer query's failure |
| CoreOps.SortByRankProperties | hailort/libhailort/src/hef/core_op_metadata.cpp:353-375 | the ordering sorts by position in the canonical output-name list and is a permutation of its input |
| CoreOps.SortByOutputNamesSpec | hailort/libhailort/src/hef/core_op_metadata.cpp:353-378 | the ordering fails with InternalFailure exactly when some name is missing from the canonical list; otherwise it is sorted by canonical position and a permutation |
| CoreOps.CoreOpMetadata.GetOutputVStreamInfos | hailort/libhailort/src/hef/core_op_metadata.cpp:342-379 | in net-flow mode returns the stored list verbatim; otherwise returns the network's converted output descriptors ordered by the canonical names, the layer query's failure, or InternalFailure for a missing name; a single output whose name is missing also fails, following the corrected ordering of the finding below rather than the code as written |
| CoreOps.CoreOpMetadata.GetAllVStreamInfos | hailort/libhailort/src/hef/core_op_metadata.cpp:381-395 | returns input descriptors followed by output descriptors (ordered as in GetOutputVStreamInfos, with the corrected ordering), or the first failure |
| CoreOps.CoreOpMetadata.GetVStreamNamesFromStreamName | hailort/libhailort/src/hef/core_op_metadata.cpp:397-412 | for the first layer with that name: the fused layer's name if it is a defused NMS fragment, else its demux names if it is a mux, else its own name; NotFound when there is no such layer |
| CoreOps.CoreOpMetadata.GetStreamNamesFromVStreamName | hailort/libhailort/src/hef/core_op_metadata.cpp:414-437 | returns, in layer order, the names of the layers that carry the vstream (a mux through its tree, a defused fragment through its fused layer, every plain output in net-flow mode, else by equal name); NotFound when none does |
| CoreOps.StreamToVStreamAndBack | hailort/libhailort/src/hef/core_op_metadata.cpp:397-437 | every vstream a stream resolves to resolves back to a list containing that stream (when the stream's layer is not both a mux and a defused fragment) |
| CoreOps.VStreamToStreamAndBack | hailort/libhailort/src/hef/core_op_metadata.cpp:397-437 | with distinct layer names and outside net-flow mode, every stream a vstream resolves to resolves back to a list containing that vstream |
| CoreOps.CoreOpMetadata.GetNetworkInfos | hailort/libhailort/src/hef/core_op_metadata.cpp:463-477 | succeeds exactly when every network name plus its terminating zero fits the name field; then returns one record per name, in order; otherwise InternalFailure |
| CoreOps.CoreOpMetadata.GetContextsCount | hailort/libhailort/src/hef/core_op_metadata.cpp:479-482 | the count is the number of dynamic contexts plus the non-dynamic ones, so it always exceeds the dynamic count |
| CoreOps.SumOfSizesAppend | hailort/libhailort/src/hef/core_op_metadata.cpp:484-493 | the total over two runs of contexts is the sum of their totals, or the first run's failure, or else the second's |
| CoreOps.SumOfSizesFails | hailort/libhailort/src/hef/core_op_metadata.cpp:484-493 | the total fails exactly when some context's size fails, and then with the failure of the first such context |
| CoreOps.AddLayerGrowsTotal | hailort/libhailort/src/hef/core_op_metadata.cpp:484-493 | adding an edge layer to any one dynamic context grows the total transfer size by that layer's size |
| CoreOps.CoreOpMetadata.GetTotalTransferSize | hailort/libhailort/src/hef/core_op_metadata.cpp:484-493 | returns the specified total over the dynamic contexts only, aborting on the first failing context |
| PerArch.FirstLayout | hailort/libhailort/src/hef/core_op_metadata.cpp:497-501 | the first entry of the ordered table is the one with the least layout |
| PerArch.Lookup | hailort/libhailort/src/hef/core_op_metadata.cpp:495-509 | the sentinel yields the entry with the least layout; any other bitmap yields its entry exactly when it is present, and InternalFailure otherwise |
| PerArch.LookupAfterAdd | hailort/libhailort/src/hef/core_op_metadata.cpp:495-514 | after storing a variant under a layout, that layout yields it (a later store overwrites an earlier one) and every other layout is unaffected |
| PerArch.IgnoreYieldsLeastLayout | hailort/libhailort/src/hef/core_op_metadata.cpp:495-514 | storing a variant under a layout below every other makes the sentinel yield it |
| PerArch.CoreOpMetadataPerArch.GetMetadata | hailort/libhailort/src/hef/core_op_metadata.cpp:495-509 | returns the specified lookup |
| PerArch.CoreOpMetadataPerArch.AddMetadata | hailort/libhailort/src/hef/core_op_metadata.cpp:511-514 | the table gains or replaces the entry of that layout, and that layout then yields the variant |

## Left out

- Size arithmetic is over unbounded naturals. `size_t` wrap-around is not modelled. Neither is the `int` accumulator that `std::accumulate` uses for config-buffer sizes.
- Logging calls are left out.
- The `memcpy` into the fixed name array of a network-info record is left out. Only the length check is kept. Name lengths are counted in characters, not bytes.
- `std::sort` is modelled by an insertion sort that satisfies the same contract (sorted and a permutation). Its exact element order among equal ranks, and its comparator-call pattern, are not modelled, except where the finding below needs them.
- The list of fused NMS layers of a defused fragment is represented by the name of its first element. That name is the only part the code reads.
- Actions are represented by their type and an opaque parameter list. Config channels are represented by their engine index. Both are only stored or filtered here.
- Only the `hailo_net_flow` flag of the supported features is modelled. It is the only flag these functions read.
- The accessors that only return a member (`get_actions`, `config_buffers_info`, the six list getters, `preliminary_context`, `dynamic_contexts`, `config_channels_info`) are not separate members. They are the fields of the Dafny classes.
- How the stored net-flow output descriptors get filled in is not part of this model. The header that declares that setter is not part of this model either. The field starts empty.
- The `CoreOpMetadata` objects are held by reference in the table. The library copies them by value. Aliasing between variants is not modelled.
- CoreOps.CoreOpMetadata.constructor: keeps references to the `ContextMetadata` objects, where the library moves the contexts in by value. A context added to later through its own reference changes what the program's queries see. The query contracts are stated over the contexts' current states, so they stay true, but the program's independence from its former contexts is not modelled.
- PerArch.Lookup: requires a non-empty table for the sentinel, where the library only asserts it.
- The bodies of `LayerInfoUtils::get_transfer_size`, `get_stream_info_from_layer_info` and `get_vstream_infos_from_layer_info` are not part of this model. They are function parameters.

## Findings

| source | as written | input that shows it | evidently intended | confidence | as-written member | corrected member |
|---|---|---|---|---|---|---|
| hailort/libhailort/src/hef/core_op_metadata.cpp:353-378 | the missing-name status is set only inside the comparator given to `std::sort`; the sort never calls the comparator for fewer than two elements, so a single output vstream whose name is absent from the canonical list is returned as success | one converted output vstream whose name is not in the sorted output names (CoreOps.UnlistedSingleOutputEscapes) | InternalFailure whenever any output name is missing from the canonical list, whatever the number of outputs; GetOutputVStreamInfos and GetAllVStreamInfos follow this corrected ordering | medium, not executed | CoreOps.SortByOutputNamesAsWritten | CoreOps.SortByOutputNames |
