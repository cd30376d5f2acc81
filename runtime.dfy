/**
 * What both pallets share with the runtime around them: the collectible identifier and
 * the ways a call can fail to complete at all.
 */
module Runtime {

  /** `[u8; 16]`: the collectible's unique identifier. */
  type CollectibleId = s: seq<bv8> | |s| == 16 witness seq(16, _ => 0)

  /**
   * Ways a call can fail to complete: an `unwrap` on a missing value, or the bucket probe
   * looping forever. Either way the block cannot be produced, so no storage change of the
   * call survives.
   */
  datatype Halt = Panic | Diverge
}
