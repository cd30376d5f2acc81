/**
 * The calls and internal functions of the rent pallet (pallets/rent/src/lib.rs) as
 * functions from the storage before a call to the call's outcome and the storage after.
 * A call that returns an error leaves storage as it was (the calls are transactional).
 */
module RentSpec {

  import opened Wrappers
  import opened Runtime
  import opened Ledger
  import opened Bounded
  import opened Schedule
  import opened RentTypes

  function Accept(s: State): Transition { Transition(Ok, s) }

  function Reject(s: State, e: Error): Transition { Transition(Err(e), s) }

  function Halt(s: State, h: Halt): Transition { Transition(Halted(h), s) }

  // ---------------------------------------------------------------------------
  // Internal helpers

  /** The record `do_mint` creates: owned by `lessor`, not rented, not rentable, no prices. */
  function NewCollectible(id: CollectibleId, lessor: AccountId): Collectible
  {
    Collectible(id, None, lessor, None, false, None, None)
  }

  /** `retain(|(id, _)| *id != collectible)` on a bucket: drop the collectible's entries whatever their lessee. */
  function RemoveCollectible(bucket: seq<PendingRental>, id: CollectibleId): (r: seq<PendingRental>)
    ensures forall e :: e in r <==> e in bucket && e.0 != id
    ensures |r| <= |bucket|
  {
    if bucket == [] then []
    else if bucket[0].0 == id then RemoveCollectible(bucket[1..], id)
    else [bucket[0]] + RemoveCollectible(bucket[1..], id)
  }

  /** `_unequip_collectible_from_account`: the account's equip list without `id`, written back. */
  function Unequip(s: State, account: AccountId, id: CollectibleId): State
  {
    s.(accountEquips := s.accountEquips[account := RemoveAll(GetOrEmpty(s.accountEquips, account), id)])
  }

  /** `_remove_lessee_from_collectible`: delete the agreement, clear the lessee, unequip the lessee. */
  function RemoveLessee(s: State, lessee: AccountId, c: Collectible): State
  {
    var s1 := s.(lesseeCollectibles := s.lesseeCollectibles - {(lessee, c.uniqueId)},
                 collectibles := s.collectibles[c.uniqueId := c.(lessee := None)]);
    Unequip(s1, lessee, c.uniqueId)
  }

  /** The block the probe of `_append_pending_rental_to_available_block` starts from. */
  function StartBlock(start: Option<BlockNumber>, now: BlockNumber): BlockNumber
  {
    match start
    case Some(b) => b
    case None => now
  }

  /**
   * The bucket `_append_pending_rental_to_available_block` appends to: `start + interval`
   * when it has room, else the block after the current one; `None` when the loop never exits.
   */
  function ProbeFor(s: State, start: Option<BlockNumber>, interval: nat): Option<BlockNumber>
  {
    Probe(s.pendingRentals, s.blockNumber, StartBlock(start, s.blockNumber) + interval, s.maximumRentablesPerBlock)
  }

  /** Append the obligation to the bucket at `t`. */
  function Enqueue(s: State, t: BlockNumber, e: PendingRental): State
  {
    s.(pendingRentals := Append(s.pendingRentals, t, e))
  }

  // ---------------------------------------------------------------------------
  // Calls

  /** `do_mint`. */
  function Mint(s: State, lessor: AccountId, id: CollectibleId): Transition
  {
    if id in s.collectibles then Reject(s, DuplicateCollectible)
    else
      var owned := GetOrEmpty(s.lessorCollectibles, lessor);
      if !CanPush(owned, s.maximumOwned) then Reject(s, TooManyCollectiblesOwned)
      else
        Accept(s.(collectibles := s.collectibles[id := NewCollectible(id, lessor)],
                  lessorCollectibles := s.lessorCollectibles[lessor := owned + [id]]))
  }

  /** `burn`. */
  function Burn(s: State, sender: AccountId, id: CollectibleId): Transition
  {
    if id !in s.collectibles then Reject(s, NoCollectible)
    else
      var c := s.collectibles[id];
      if c.lessor != sender then Reject(s, NotLessor)
      else if c.lessee != None then Reject(s, NotAllowedWhileRented)
      else
        var owned := RemoveAll(GetOrEmpty(s.lessorCollectibles, sender), id);
        var s1 := s.(collectibles := s.collectibles - {id},
                     lessorCollectibles := s.lessorCollectibles[sender := owned]);
        Accept(Unequip(s1, sender, c.uniqueId))
  }

  /** `set_rentable`; a full `RentableCollectibles` fails the call after the record was written, which rolls it back. */
  function SetRentable(s: State, sender: AccountId, id: CollectibleId, price: Balance, minimum: nat, maximum: nat): Transition
  {
    if id !in s.collectibles then Reject(s, NoCollectible)
    else
      var c := s.collectibles[id];
      if c.lessor != sender then Reject(s, NotLessor)
      else if minimum > maximum then Reject(s, MinimumMustBeLessThanMaximum)
      else if c.lessee != None then Reject(s, NotAllowedWhileRented)
      else if !CanPush(s.rentableCollectibles, s.maximumOwned) then Reject(s, TooManyCollectibles)
      else
        var c' := c.(pricePerBlock := Some(price), rentable := true,
                     minimumRentalPeriod := Some(minimum), maximumRentalPeriod := Some(maximum));
        var s1 := s.(collectibles := s.collectibles[id := c'],
                     rentableCollectibles := s.rentableCollectibles + [id]);
        Accept(Unequip(s1, sender, c'.uniqueId))
  }

  /** `rent`: the period bounds, self-rental and availability checks, then `do_rent_collectible`. */
  function Rent(s: State, lessee: AccountId, id: CollectibleId, blocks: nat, recurring: bool): Transition
  {
    if id !in s.collectibles then Reject(s, NoCollectible)
    else
      var c := s.collectibles[id];
      if c.minimumRentalPeriod.Some? && blocks < c.minimumRentalPeriod.value then Reject(s, RentalPeriodTooShort)
      else if c.maximumRentalPeriod.Some? && blocks > c.maximumRentalPeriod.value then Reject(s, RentalPeriodTooLong)
      else if c.lessor == lessee then Reject(s, CannotRentOwnCollectible)
      else if c.lessee.Some? then Reject(s, RentNotAvailable)
      else if c.lessee == Some(lessee) then Reject(s, AlreadyRented)
      else DoRentCollectible(s, id, lessee, blocks, recurring)
  }

  /**
   * `do_rent_collectible`: charge `price * interval` up front, mark the lessee, schedule the
   * obligation from the current block and store the agreement with the block it landed in.
   * Does not look at `rentable`; an asset that never had a price panics at the `unwrap`.
   */
  function DoRentCollectible(s: State, id: CollectibleId, lessee: AccountId, interval: nat, recurring: bool): Transition
  {
    if id !in s.collectibles then Reject(s, NoCollectible)
    else
      var c := s.collectibles[id];
      if c.pricePerBlock.None? then Halt(s, Panic)
      else
        var total := c.pricePerBlock.value * interval;
        if !CanTransfer(s.balances, lessee, total) then Reject(s, NotEnoughBalance)
        else
          var s1 := s.(balances := Transfer(s.balances, lessee, c.lessor, total));
          match ProbeFor(s1, None, interval)
          case None => Halt(s, Diverge)
          case Some(next) =>
            var s2 := Enqueue(s1, next, (id, lessee));
            Accept(s2.(lesseeCollectibles := s2.lesseeCollectibles[(lessee, id) := RentalPeriodConfig(interval, next, recurring)],
                       collectibles := s2.collectibles[id := c.(lessee := Some(lessee))]))
  }

  /** `set_unrentable`: clear `rentable` and drop the id from `RentableCollectibles`; an active lessee stays. */
  function SetUnrentable(s: State, sender: AccountId, id: CollectibleId): Transition
  {
    if id !in s.collectibles then Reject(s, NoCollectible)
    else
      var c := s.collectibles[id];
      if c.lessor != sender then Reject(s, NotLessor)
      else
        Accept(s.(collectibles := s.collectibles[id := c.(rentable := false)],
                  rentableCollectibles := RemoveAll(s.rentableCollectibles, id)))
  }

  /** `set_recurring`: only the current lessee, only with a stored agreement; flips `recurring`. */
  function SetRecurring(s: State, sender: AccountId, id: CollectibleId, recurring: bool): Transition
  {
    if id !in s.collectibles then Reject(s, NoCollectible)
    else
      var c := s.collectibles[id];
      if c.lessee != Some(sender) then Reject(s, NotLessor)
      else if (sender, id) !in s.lesseeCollectibles then Reject(s, NoCollectible)
      else
        var cfg := s.lesseeCollectibles[(sender, id)];
        Accept(s.(lesseeCollectibles := s.lesseeCollectibles[(sender, id) := cfg.(recurring := recurring)],
                  collectibles := s.collectibles[id := c]))
  }

  /** `extend_rent`: only the current lessee, then `do_extend_rent`. */
  function ExtendRent(s: State, sender: AccountId, id: CollectibleId, blocks: nat): Transition
  {
    if id !in s.collectibles then Reject(s, NoCollectible)
    else
      var c := s.collectibles[id];
      if c.lessee != Some(sender) then Reject(s, NotLessor)
      else DoExtendRent(s, c, blocks)
  }

  /**
   * `do_extend_rent`: the bound is `blocks + next_rent_block <= maximum_rental_period`
   * (measured from block 0); both factors of the price are narrowed to `u32`; the
   * collectible's entries are removed from the old bucket by id alone and the obligation is
   * re-inserted probing from the old due block plus `blocks`; only `next_rent_block` changes.
   */
  function DoExtendRent(s: State, c: Collectible, blocks: nat): Transition
  {
    if c.lessee.None? then Halt(s, Panic)
    else
      var lessee := c.lessee.value;
      var id := c.uniqueId;
      if (lessee, id) !in s.lesseeCollectibles then Reject(s, NoCollectible)
      else
        var cfg := s.lesseeCollectibles[(lessee, id)];
        if c.maximumRentalPeriod.None? then Halt(s, Panic)
        else if blocks + cfg.nextRentBlock > c.maximumRentalPeriod.value then Reject(s, RentalPeriodTooLong)
        else if blocks > U32_MAX || c.pricePerBlock.None? || c.pricePerBlock.value > U32_MAX then Halt(s, Panic)
        else
          var total := blocks * c.pricePerBlock.value;
          if !CanTransfer(s.balances, lessee, total) then Reject(s, NotEnoughBalance)
          else
            var s1 := s.(balances := Transfer(s.balances, lessee, c.lessor, total));
            var due := cfg.nextRentBlock;
            var s2 := s1.(pendingRentals := s1.pendingRentals[due := RemoveCollectible(Bucket(s1.pendingRentals, due), id)]);
            match ProbeFor(s2, Some(due), blocks)
            case None => Halt(s, Diverge)
            case Some(next) =>
              var s3 := Enqueue(s2, next, (id, lessee));
              Accept(s3.(lesseeCollectibles := s3.lesseeCollectibles[(lessee, id) := cfg.(nextRentBlock := next)]))
  }

  /**
   * `equip_collectible`: the lessor may equip only a collectible that is not rentable; anyone
   * else only as its current lessee; the id is appended to that account's bounded list.
   */
  function Equip(s: State, sender: AccountId, id: CollectibleId): Transition
  {
    if id !in s.collectibles then Reject(s, NoCollectible)
    else
      var c := s.collectibles[id];
      if c.lessor == sender then
        if c.rentable then Reject(s, NotAllowedWhileRented) else PushEquip(s, c.lessor, id)
      else if c.lessee.Some? then
        if c.lessee.value != sender then Reject(s, NotLessee) else PushEquip(s, c.lessee.value, id)
      else Reject(s, NoAccountFoundForCollectible)
  }

  /** The `try_push` on the account's equip list at the end of `equip_collectible`. */
  function PushEquip(s: State, account: AccountId, id: CollectibleId): Transition
  {
    var equipped := GetOrEmpty(s.accountEquips, account);
    if !CanPush(equipped, s.maximumOwned) then Reject(s, TooManyCollectiblesEquiped)
    else Accept(s.(accountEquips := s.accountEquips[account := equipped + [id]]))
  }

  /** `unequip_collectible`: any caller, for an existing collectible, from the caller's own list. */
  function UnequipCollectible(s: State, sender: AccountId, id: CollectibleId): Transition
  {
    if id !in s.collectibles then Reject(s, NoCollectible)
    else Accept(Unequip(s, sender, s.collectibles[id].uniqueId))
  }

  /** The call the runtime dispatches. */
  function Dispatch(s: State, call: Call): Transition
  {
    match call
    case MintCall(lessor, id) => Mint(s, lessor, id)
    case BurnCall(sender, id) => Burn(s, sender, id)
    case SetRentableCall(sender, id, price, minimum, maximum) => SetRentable(s, sender, id, price, minimum, maximum)
    case SetUnrentableCall(sender, id) => SetUnrentable(s, sender, id)
    case SetRecurringCall(sender, id, recurring) => SetRecurring(s, sender, id, recurring)
    case RentCall(sender, id, blocks, recurring) => Rent(s, sender, id, blocks, recurring)
    case ExtendRentCall(sender, id, blocks) => ExtendRent(s, sender, id, blocks)
    case EquipCall(sender, id) => Equip(s, sender, id)
    case UnequipCall(sender, id) => UnequipCollectible(s, sender, id)
  }

  /** Calls dispatched one after another within a block, each on the storage the previous one left. */
  function DispatchAll(s: State, calls: seq<Call>): State
    decreases |calls|
  {
    if calls == [] then s else DispatchAll(Dispatch(s, calls[0]).state, calls[1..])
  }

  // ---------------------------------------------------------------------------
  // The per-block sweep

  /**
   * One iteration of the loop in `do_process_rental_periods`: end the rental when the
   * collectible is not rentable, has no lessee or the agreement is not recurring; otherwise
   * charge `price * interval` and end it when that fails, or reschedule it from the current
   * block when it succeeds. (The source tests `recurring` once more before rescheduling;
   * it always holds there.)
   */
  function ProcessRental(s: State, e: PendingRental): (r: SweepStep)
    ensures r.Swept? ==> r.state.blockNumber == s.blockNumber
  {
    var (id, lessee) := e;
    if (lessee, id) !in s.lesseeCollectibles then Stopped(Panic)
    else
      var cfg := s.lesseeCollectibles[(lessee, id)];
      if id !in s.collectibles then Stopped(Panic)
      else
        var c := s.collectibles[id];
        if !c.rentable || c.lessee.None? || !cfg.recurring then Swept(RemoveLessee(s, lessee, c), RentalEnded)
        else if c.pricePerBlock.None? then Stopped(Panic)
        else
          var total := c.pricePerBlock.value * cfg.rentalPeriodicInterval;
          if !CanTransfer(s.balances, lessee, total) then Swept(RemoveLessee(s, lessee, c), PaymentFailed)
          else
            var s1 := s.(balances := Transfer(s.balances, lessee, c.lessor, total));
            match ProbeFor(s1, None, cfg.rentalPeriodicInterval)
            case None => Stopped(Diverge)
            case Some(next) =>
              var s2 := Enqueue(s1, next, e);
              Swept(s2.(lesseeCollectibles := s2.lesseeCollectibles[(lessee, id) := cfg.(nextRentBlock := next)]), Renewed(next))
  }

  /** The loop over a snapshot of the bucket, entry by entry in order. */
  function ProcessRentals(s: State, rentals: seq<PendingRental>): (r: SweepRun)
    ensures r.Completed? ==> r.state.blockNumber == s.blockNumber && |r.outcomes| == |rentals|
    decreases |rentals|
  {
    if rentals == [] then Completed(s, [])
    else
      match ProcessRentals(s, rentals[..|rentals| - 1])
      case Aborted(h) => Aborted(h)
      case Completed(s1, outcomes) =>
        match ProcessRental(s1, rentals[|rentals| - 1])
        case Stopped(h) => Aborted(h)
        case Swept(s2, o) => Completed(s2, outcomes + [o])
  }

  /** `do_process_rental_periods(n)`: process the snapshot of bucket `n`, then remove the bucket. */
  function ProcessRentalPeriods(s: State, n: BlockNumber): (r: SweepRun)
    ensures r.Completed? ==> r.state.blockNumber == s.blockNumber
    ensures r.Completed? ==> |r.outcomes| == |Bucket(s.pendingRentals, n)| && n !in r.state.pendingRentals
  {
    match ProcessRentals(s, Bucket(s.pendingRentals, n))
    case Aborted(h) => Aborted(h)
    case Completed(s1, outcomes) => Completed(s1.(pendingRentals := s1.pendingRentals - {n}), outcomes)
  }

  /**
   * The test driver `run_to_block`: for every block after the current one up to `n`, set
   * the block number and run that block's sweep.
   */
  function RunToBlock(s: State, n: BlockNumber): SweepRun
    decreases n - s.blockNumber
  {
    if n <= s.blockNumber then Completed(s, [])
    else
      var b := s.blockNumber + 1;
      match ProcessRentalPeriods(s.(blockNumber := b), b)
      case Aborted(h) => Aborted(h)
      case Completed(s1, outcomes) =>
        match RunToBlock(s1, n)
        case Aborted(h) => Aborted(h)
        case Completed(s2, later) => Completed(s2, outcomes + later)
  }
}
