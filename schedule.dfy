/**
 * The due-date index shared by both pallets: a map from block number to a bounded
 * bucket of obligations (`PendingRentals` in the rent pallet, `RentalPeriods` in the
 * earlier pallet), read with `ValueQuery` semantics, and the probe that picks the bucket
 * a new obligation is appended to.
 */
module Schedule {

  import opened Wrappers

  type BlockNumber = nat

  type Buckets<T> = map<BlockNumber, seq<T>>

  /** Reading a bucket: a block with no entry reads as the empty vector. */
  function Bucket<T>(b: Buckets<T>, t: BlockNumber): seq<T>
  {
    if t in b then b[t] else []
  }

  /** `try_append` of one element to the bucket at `t` succeeds. */
  predicate HasRoom<T>(b: Buckets<T>, t: BlockNumber, cap: nat)
  {
    |Bucket(b, t)| < cap
  }

  /**
   * The block the probe loop reads on its k-th attempt: the target first, and on every
   * later attempt the current block plus one. The loop never moves past that block.
   */
  function ProbedBlock(target: BlockNumber, now: BlockNumber, k: nat): BlockNumber
  {
    if k == 0 then target else now + 1
  }

  /**
   * The bucket the probe loop settles on, or `None` when the loop never exits (both the
   * target and the bucket after the current block are full).
   */
  function Probe<T>(b: Buckets<T>, now: BlockNumber, target: BlockNumber, cap: nat): Option<BlockNumber>
  {
    if HasRoom(b, target, cap) then Some(target)
    else if HasRoom(b, now + 1, cap) then Some(now + 1)
    else None
  }

  /** The probe finds no bucket exactly when every attempt of the loop hits a full bucket. */
  lemma ProbeDivergesIffAllFull<T>(b: Buckets<T>, now: BlockNumber, target: BlockNumber, cap: nat)
    ensures Probe(b, now, target, cap).None? <==>
            forall k: nat :: !HasRoom(b, ProbedBlock(target, now, k), cap)
  {
    if Probe(b, now, target, cap).Some? {
      if HasRoom(b, target, cap) {
        assert HasRoom(b, ProbedBlock(target, now, 0), cap);
      } else {
        assert HasRoom(b, ProbedBlock(target, now, 1), cap);
      }
    }
  }

  /** When the probe finds a bucket, it is the first attempt of the loop that has room. */
  lemma ProbeIsFirstFit<T>(b: Buckets<T>, now: BlockNumber, target: BlockNumber, cap: nat)
    requires Probe(b, now, target, cap).Some?
    ensures exists k: nat ::
              ProbedBlock(target, now, k) == Probe(b, now, target, cap).value
              && HasRoom(b, ProbedBlock(target, now, k), cap)
              && forall j: nat :: j < k ==> !HasRoom(b, ProbedBlock(target, now, j), cap)
  {
    if HasRoom(b, target, cap) {
      assert ProbedBlock(target, now, 0) == target;
    } else {
      assert ProbedBlock(target, now, 1) == now + 1;
      assert forall j: nat :: j < 1 ==> ProbedBlock(target, now, j) == target;
    }
  }

  /** The probe settles on a bucket with room, which is the target or the block after the current one. */
  lemma ProbeLands<T>(b: Buckets<T>, now: BlockNumber, target: BlockNumber, cap: nat)
    requires Probe(b, now, target, cap).Some?
    ensures var t := Probe(b, now, target, cap).value;
            HasRoom(b, t, cap) && (t == target || t == now + 1)
  {
  }

  /** Appending `x` to the bucket at `t` and writing it back. */
  function Append<T>(b: Buckets<T>, t: BlockNumber, x: T): (r: Buckets<T>)
    ensures Bucket(r, t) == Bucket(b, t) + [x]
    ensures forall u :: u != t ==> Bucket(r, u) == Bucket(b, u)
    ensures r.Keys == b.Keys + {t}
  {
    b[t := Bucket(b, t) + [x]]
  }
}
