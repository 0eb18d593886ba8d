/** The compiled variants of one program, one per partial-clusters layout
    (the bitmap of the device clusters the variant was compiled for). */
module PerArch {
  import opened Outcomes
  import opened Sequences
  import opened CoreOps

  type uint32 = x: nat | x < 0x1_0000_0000

  /** The bitmap value that asks for any one variant instead of a specific
      layout. */
  const PARTIAL_CLUSTERS_LAYOUT_IGNORE: uint32 := 0xFFFF_FFFF

  /** The least layout of a non-empty table: the first entry of the ordered
      map the library keeps. */
  function FirstLayout(table: map<uint32, CoreOpMetadata>): (k: uint32)
    requires table != map[]
    ensures k in table && forall k' :: k' in table ==> k <= k'
  {
    var keys: set<nat> := set k | k in table :: k as nat;
    var some :| some in table;
    assert some as nat in keys;
    var least := MinOf(keys);
    var first :| first in table && first as nat == least;
    assert forall k' :: k' in table ==> k' as nat in keys;
    first
  }

  /** The variant for `bitmap`: the first variant for the ignore value, the
      entry of that layout otherwise, or an InternalFailure when there is
      none. The library only asserts that the table is not empty when asked
      for the ignore value. */
  function Lookup(table: map<uint32, CoreOpMetadata>, bitmap: uint32): (r: Result<CoreOpMetadata>)
    requires bitmap == PARTIAL_CLUSTERS_LAYOUT_IGNORE ==> table != map[]
    ensures bitmap == PARTIAL_CLUSTERS_LAYOUT_IGNORE ==>
      r.Ok? && exists k :: k in table && table[k] == r.value && forall k' :: k' in table ==> k <= k'
    ensures bitmap != PARTIAL_CLUSTERS_LAYOUT_IGNORE ==> (r.Ok? <==> bitmap in table)
    ensures bitmap != PARTIAL_CLUSTERS_LAYOUT_IGNORE && r.Ok? ==> r.value == table[bitmap]
    ensures r.Err? ==> r.status == InternalFailure
  {
    if bitmap == PARTIAL_CLUSTERS_LAYOUT_IGNORE then Ok(table[FirstLayout(table)])
    else if bitmap in table then Ok(table[bitmap])
    else Err(InternalFailure)
  }

  /** After storing a variant under a specific layout, asking for that layout
      yields it and every other specific layout is unaffected. */
  lemma {:induction false} LookupAfterAdd(table: map<uint32, CoreOpMetadata>, metadata: CoreOpMetadata, bitmap: uint32, query: uint32)
    requires query != PARTIAL_CLUSTERS_LAYOUT_IGNORE
    ensures Lookup(table[bitmap := metadata], query)
      == if query == bitmap then Ok(metadata) else Lookup(table, query)
  {
  }

  /** Once a variant is stored under a layout below every other, the ignore
      value yields it. */
  lemma {:induction false} IgnoreYieldsLeastLayout(table: map<uint32, CoreOpMetadata>, metadata: CoreOpMetadata,
                                                   bitmap: uint32)
    requires forall k :: k in table ==> bitmap < k
    ensures var t := table[bitmap := metadata];
      bitmap in t && Lookup(t, PARTIAL_CLUSTERS_LAYOUT_IGNORE) == Ok(metadata)
  {
    var t := table[bitmap := metadata];
    assert bitmap in t;
    var first := FirstLayout(t);
  }

  class CoreOpMetadataPerArch {
    var metadataPerArch: map<uint32, CoreOpMetadata>

    constructor ()
      ensures metadataPerArch == map[]
    {
      metadataPerArch := map[];
    }

    method GetMetadata(bitmap: uint32) returns (r: Result<CoreOpMetadata>)
      requires bitmap == PARTIAL_CLUSTERS_LAYOUT_IGNORE ==> metadataPerArch != map[]
      ensures r == Lookup(metadataPerArch, bitmap)
    {
      if bitmap == PARTIAL_CLUSTERS_LAYOUT_IGNORE {
        return Ok(metadataPerArch[FirstLayout(metadataPerArch)]);
      }
      if bitmap in metadataPerArch {
        return Ok(metadataPerArch[bitmap]);
      }
      r := Err(InternalFailure);
    }

    /** Stores (or replaces) the variant of one layout. */
    method AddMetadata(metadata: CoreOpMetadata, bitmap: uint32)
      modifies this
      ensures metadataPerArch == old(metadataPerArch)[bitmap := metadata]
      ensures bitmap != PARTIAL_CLUSTERS_LAYOUT_IGNORE ==> Lookup(metadataPerArch, bitmap) == Ok(metadata)
    {
      metadataPerArch := metadataPerArch[bitmap := metadata];
    }
  }
}
