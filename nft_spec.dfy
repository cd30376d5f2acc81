/**
 * The calls and internal functions of the earlier rental pallet
 * (pallets/nft-on-rent/src/lib.rs) as functions from the storage before a call to the
 * call's outcome and the storage after. A call that returns an error leaves storage as it
 * was (the calls are transactional); one that halts produces no block, so its storage
 * changes are dropped too.
 */
module NftSpec {

  import opened Wrappers
  import opened Runtime
  import opened Ledger
  import opened Schedule
  import opened NftTypes

  function Accept(s: State): Transition { Transition(Ok, s) }

  function Reject(s: State, e: Error): Transition { Transition(Err(e), s) }

  function Halt(s: State, h: Halt): Transition { Transition(Halted(h), s) }

  /** The record `do_mint` creates: owned by `lessor`, not rented, not rentable, no price. */
  function NewCollectible(id: CollectibleId, lessor: AccountId): Collectible
  {
    Collectible(id, None, lessor, None, false)
  }

  /** `do_mint`: insert a fresh record under a new id. */
  function Mint(s: State, lessor: AccountId, id: CollectibleId): Transition
  {
    if id in s.collectibleMap then Reject(s, DuplicateCollectible)
    else Accept(s.(collectibleMap := s.collectibleMap[id := NewCollectible(id, lessor)]))
  }

  /** `set_rentable`: the lessor sets a price and offers the collectible. */
  function SetRentable(s: State, sender: AccountId, id: CollectibleId, price: Balance): Transition
  {
    if id !in s.collectibleMap then Reject(s, NoCollectible)
    else
      var c := s.collectibleMap[id];
      if c.lessor != sender then Reject(s, NotLessor)
      else Accept(s.(collectibleMap := s.collectibleMap[id := c.(pricePerBlock := Some(price), rentable := true)]))
  }

  /** `set_unrentable`: the lessor withdraws the offer. */
  function SetUnrentable(s: State, sender: AccountId, id: CollectibleId): Transition
  {
    if id !in s.collectibleMap then Reject(s, NoCollectible)
    else
      var c := s.collectibleMap[id];
      if c.lessor != sender then Reject(s, NotLessor)
      else Accept(s.(collectibleMap := s.collectibleMap[id := c.(rentable := false)]))
  }

  /** `rent`: the period bounds first, then the checks on the collectible, in the source's order. */
  function Rent(s: State, lessee: AccountId, id: CollectibleId, blocks: nat, recurring: bool): Transition
  {
    if blocks < MinimumRentalPeriod then Reject(s, RentalPeriodTooShort)
    else if blocks > MaximumRentalPeriod then Reject(s, RentalPeriodTooLong)
    else if id !in s.collectibleMap then Reject(s, NoCollectible)
    else
      var c := s.collectibleMap[id];
      if c.lessor == lessee then Reject(s, CannotRentOwnCollectible)
      else if c.currentLessee.Some? then Reject(s, RentNotAvailable)
      else if !c.rentable then Reject(s, RentNotAvailable)
      else DoRentCollectible(s, id, lessee, blocks, recurring)
  }

  /** The bucket `insert_rental_period` settles on: `now + interval`, else `now + 1`, else none (the loop never ends). */
  function InsertionBlock(s: State, cfg: RentalPeriodConfig): Option<BlockNumber>
  {
    Probe(s.rentalPeriods, s.blockNumber, cfg.rentalPeriodicInterval + s.blockNumber, s.maximumRentablesPerBlock)
  }

  /** `insert_rental_period` once the bucket is chosen: append the configuration to it. */
  function Insert(s: State, t: BlockNumber, cfg: RentalPeriodConfig): State
  {
    s.(rentalPeriods := Append(s.rentalPeriods, t, cfg))
  }

  /**
   * `do_rent_collectible`: charge `price * interval` to the lessee, record the lessee and
   * schedule the rental. The price is unwrapped; a failed transfer is the call's error.
   */
  function DoRentCollectible(s: State, id: CollectibleId, lessee: AccountId, interval: nat, recurring: bool): Transition
  {
    if id !in s.collectibleMap then Reject(s, NoCollectible)
    else
      var c := s.collectibleMap[id];
      if c.pricePerBlock.None? then Halt(s, Panic)
      else
        var total := c.pricePerBlock.value * interval;
        if !CanTransfer(s.balances, lessee, total) then Reject(s, InsufficientBalance)
        else
          var s1 := s.(balances := Transfer(s.balances, lessee, c.lessor, total));
          var cfg := RentalPeriodConfig(id, interval, recurring);
          match InsertionBlock(s1, cfg)
          case None => Halt(s, Diverge)
          case Some(t) =>
            var s2 := Insert(s1, t, cfg);
            Accept(s2.(collectibleMap := s2.collectibleMap[id := c.(currentLessee := Some(lessee))]))
  }

  /**
   * One iteration of the loop in `process_rental_periods`: the record and its lessee are
   * unwrapped; a withdrawn or non-recurring rental ends; otherwise the lessee pays one
   * block's price (a failed transfer is unwrapped too) and the same configuration is
   * scheduled again.
   */
  function ProcessRental(s: State, cfg: RentalPeriodConfig): SweepStep
  {
    var id := cfg.collectible;
    if id !in s.collectibleMap then Stopped(Panic)
    else
      var c := s.collectibleMap[id];
      if c.currentLessee.None? then Stopped(Panic)
      else if !c.rentable || !cfg.recurring then
        Swept(s.(collectibleMap := s.collectibleMap[id := c.(currentLessee := None)]), RentalEnded)
      else if c.pricePerBlock.None? then Stopped(Panic)
      else
        var lessee := c.currentLessee.value;
        var price := c.pricePerBlock.value;
        if !CanTransfer(s.balances, lessee, price) then Stopped(Panic)
        else
          var s1 := s.(balances := Transfer(s.balances, lessee, c.lessor, price));
          match InsertionBlock(s1, cfg)
          case None => Stopped(Diverge)
          case Some(t) => Swept(Insert(s1, t, cfg), Renewed(t))
  }

  /** The loop over a snapshot of the bucket, rental by rental in order. */
  function ProcessRentals(s: State, rentals: seq<RentalPeriodConfig>): (r: SweepRun)
    ensures r.Completed? ==> |r.outcomes| == |rentals|
    decreases |rentals|
  {
    if rentals == [] then Completed(s, [])
    else
      match ProcessRentals(s, rentals[..|rentals| - 1])
      case Aborted(h) => Aborted(h)
      case Completed(s1, outcomes) =>
        match ProcessRental(s1, rentals[|rentals| - 1])
        case Stopped(h) => Aborted(h)
        case Swept(s2, o) => Completed(s2, outcomes + [o])
  }

  /** `process_rental_periods(n)`, run by `on_initialize(n)`: process the snapshot of bucket `n`, then remove the bucket. */
  function ProcessRentalPeriods(s: State, n: BlockNumber): (r: SweepRun)
    ensures r.Completed? ==> |r.outcomes| == |Bucket(s.rentalPeriods, n)| && n !in r.state.rentalPeriods
  {
    match ProcessRentals(s, Bucket(s.rentalPeriods, n))
    case Aborted(h) => Aborted(h)
    case Completed(s1, outcomes) => Completed(s1.(rentalPeriods := s1.rentalPeriods - {n}), outcomes)
  }
}
