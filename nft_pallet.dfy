/**
 * The earlier rental pallet as the source runs it: the two storage items are fields that
 * each call reads, updates and writes back step by step. Every method is proved to produce
 * the outcome and the storage of the matching function of NftSpec, and the calls to keep
 * NftInvariant.Consistent.
 */
module NftPallet {

  import opened Wrappers
  import opened Runtime
  import opened Ledger
  import opened Schedule
  import opened NftTypes
  import NftSpec
  import NftInvariant
  import NftProperties

  class Pallet {
    var collectibleMap: map<CollectibleId, Collectible>
    var rentalPeriods: Buckets<RentalPeriodConfig>
    var balances: Balances
    var blockNumber: BlockNumber
    const maximumRentablesPerBlock: nat

    /** The storage as a value. */
    function St(): State
      reads this
    {
      State(collectibleMap, rentalPeriods, balances, blockNumber, maximumRentablesPerBlock)
    }

    ghost predicate Valid()
      reads this
    {
      NftInvariant.Consistent(St())
    }

    /** Genesis: the given balances, no collectibles, the chain at block `now`. */
    constructor (genesis: Balances, now: BlockNumber, maximumRentablesPerBlock: nat)
      ensures St() == State(map[], map[], genesis, now, maximumRentablesPerBlock)
      ensures Valid()
    {
      collectibleMap, rentalPeriods := map[], map[];
      balances, blockNumber := genesis, now;
      this.maximumRentablesPerBlock := maximumRentablesPerBlock;
    }

    /** Write a whole storage value back: the rollback of a call that did not complete. */
    method Restore(s: State)
      requires s.maximumRentablesPerBlock == maximumRentablesPerBlock
      modifies this
      ensures St() == s
    {
      collectibleMap, rentalPeriods := s.collectibleMap, s.rentalPeriods;
      balances, blockNumber := s.balances, s.blockNumber;
    }

    // -------------------------------------------------------------------------
    // Calls

    /** `mint` with the generated id as a parameter, which is `do_mint`. */
    method Mint(lessor: AccountId, id: CollectibleId) returns (r: Outcome)
      requires Valid()
      modifies this
      ensures var t := NftSpec.Mint(old(St()), lessor, id); r == t.outcome && St() == t.state
      ensures Valid()
    {
      NftInvariant.MintKeepsConsistent(St(), lessor, id);
      var collectible := NftSpec.NewCollectible(id, lessor);
      if collectible.uniqueId in collectibleMap {
        return Err(DuplicateCollectible);
      }
      collectibleMap := collectibleMap[collectible.uniqueId := collectible];
      return Ok;
    }

    method SetRentable(sender: AccountId, id: CollectibleId, price: Balance) returns (r: Outcome)
      requires Valid()
      modifies this
      ensures var t := NftSpec.SetRentable(old(St()), sender, id, price); r == t.outcome && St() == t.state
      ensures Valid()
    {
      NftInvariant.SetRentableKeepsConsistent(St(), sender, id, price);
      if id !in collectibleMap {
        return Err(NoCollectible);
      }
      var c := collectibleMap[id];
      if c.lessor != sender {
        return Err(NotLessor);
      }
      c := c.(pricePerBlock := Some(price));
      c := c.(rentable := true);
      collectibleMap := collectibleMap[id := c];
      return Ok;
    }

    method Rent(lessee: AccountId, id: CollectibleId, blocks: nat, recurring: bool) returns (r: Outcome)
      requires Valid()
      modifies this
      ensures var t := NftSpec.Rent(old(St()), lessee, id, blocks, recurring); r == t.outcome && St() == t.state
      ensures Valid()
    {
      NftInvariant.RentKeepsConsistent(St(), lessee, id, blocks, recurring);
      if blocks < MinimumRentalPeriod {
        return Err(RentalPeriodTooShort);
      }
      if blocks > MaximumRentalPeriod {
        return Err(RentalPeriodTooLong);
      }
      if id !in collectibleMap {
        return Err(NoCollectible);
      }
      var c := collectibleMap[id];
      if c.lessor == lessee {
        return Err(CannotRentOwnCollectible);
      }
      if c.currentLessee.Some? {
        return Err(RentNotAvailable);
      }
      if !c.rentable {
        return Err(RentNotAvailable);
      }
      r := DoRentCollectible(id, lessee, blocks, recurring);
    }

    method SetUnrentable(sender: AccountId, id: CollectibleId) returns (r: Outcome)
      requires Valid()
      modifies this
      ensures var t := NftSpec.SetUnrentable(old(St()), sender, id); r == t.outcome && St() == t.state
      ensures Valid()
    {
      NftInvariant.SetUnrentableKeepsConsistent(St(), sender, id);
      if id !in collectibleMap {
        return Err(NoCollectible);
      }
      var c := collectibleMap[id];
      if c.lessor != sender {
        return Err(NotLessor);
      }
      c := c.(rentable := false);
      collectibleMap := collectibleMap[id := c];
      return Ok;
    }

    // -------------------------------------------------------------------------
    // Internal functions

    /**
     * `do_rent_collectible`. The transfer is the first write; when the schedule probe would
     * loop forever afterwards the block is never produced, so the transfer is put back.
     */
    method DoRentCollectible(id: CollectibleId, lessee: AccountId, interval: nat, recurring: bool) returns (r: Outcome)
      modifies this
      ensures var t := NftSpec.DoRentCollectible(old(St()), id, lessee, interval, recurring); r == t.outcome && St() == t.state
    {
      if id !in collectibleMap {
        return Err(NoCollectible);
      }
      var c := collectibleMap[id];
      if c.pricePerBlock.None? {
        return Halted(Panic);
      }
      var total := c.pricePerBlock.value * interval;
      if !CanTransfer(balances, lessee, total) {
        return Err(InsufficientBalance);
      }
      var saved := St();
      balances := Transfer(balances, lessee, c.lessor, total);
      c := c.(currentLessee := Some(lessee));
      var next := InsertRentalPeriod(RentalPeriodConfig(id, interval, recurring));
      if next.None? {
        Restore(saved);
        return Halted(Diverge);
      }
      collectibleMap := collectibleMap[id := c];
      return Ok;
    }

    /**
     * `insert_rental_period`: try the bucket at `now + interval`; while it is full, move to
     * the block after the current one. The source keeps re-reading that same block, so once
     * it too is full the loop never ends: the method reports `None` there.
     */
    method InsertRentalPeriod(cfg: RentalPeriodConfig) returns (r: Option<BlockNumber>)
      modifies this
      ensures r == NftSpec.InsertionBlock(old(St()), cfg)
      ensures r.Some? ==> St() == NftSpec.Insert(old(St()), r.value, cfg)
      ensures r.Some? ==> Bucket(rentalPeriods, r.value) == Bucket(old(rentalPeriods), r.value) + [cfg]
      ensures r.None? ==> St() == old(St())
    {
      var target: BlockNumber := cfg.rentalPeriodicInterval + blockNumber;
      var block: BlockNumber := target;
      var periods := Bucket(rentalPeriods, block);
      var retried := false;
      while |periods| >= maximumRentablesPerBlock && !retried
        invariant periods == Bucket(rentalPeriods, block)
        invariant !retried ==> block == target
        invariant retried ==> block == blockNumber + 1 && !HasRoom(rentalPeriods, target, maximumRentablesPerBlock)
        decreases if retried then 0 else 1
      {
        block := blockNumber + 1;
        periods := Bucket(rentalPeriods, block);
        retried := true;
      }
      if |periods| >= maximumRentablesPerBlock {
        // Every further iteration would read this same full bucket again.
        return None;
      }
      rentalPeriods := rentalPeriods[block := periods + [cfg]];
      return Some(block);
    }

    // -------------------------------------------------------------------------
    // The per-block sweep

    /**
     * One iteration of the loop in `process_rental_periods`. When it halts, the storage it
     * leaves is not specified: the sweep puts back what it started from.
     */
    method ProcessRental(cfg: RentalPeriodConfig) returns (o: RentalOutcome, halt: Option<Halt>)
      modifies this
      ensures var step := NftSpec.ProcessRental(old(St()), cfg);
              && (halt.None? <==> step.Swept?)
              && (step.Swept? ==> o == step.outcome && St() == step.state)
              && (step.Stopped? ==> halt == Some(step.halt))
    {
      var id := cfg.collectible;
      if id !in collectibleMap {
        return RentalEnded, Some(Panic);
      }
      var c := collectibleMap[id];
      if c.currentLessee.None? {
        return RentalEnded, Some(Panic);
      }
      var lessor := c.lessor;
      var lessee := c.currentLessee.value;
      if !c.rentable || !cfg.recurring {
        c := c.(currentLessee := None);
        collectibleMap := collectibleMap[id := c];
        return RentalEnded, None;
      }
      if c.pricePerBlock.None? {
        return RentalEnded, Some(Panic);
      }
      var total := c.pricePerBlock.value;
      if !CanTransfer(balances, lessee, total) {
        return RentalEnded, Some(Panic);
      }
      balances := Transfer(balances, lessee, lessor, total);
      // `recurring` is tested again here in the source; it holds on this path.
      var next := InsertRentalPeriod(cfg);
      if next.None? {
        return RentalEnded, Some(Diverge);
      }
      return Renewed(next.value), None;
    }

    /**
     * `process_rental_periods(n)`, which `on_initialize(n)` runs: settle every rental of a
     * snapshot of bucket `n` in order, then remove the bucket. On consistent storage it
     * panics only at a renewing lessee who cannot pay; when it halts the block cannot be
     * produced and the storage is left as it was.
     */
    method ProcessRentalPeriods(n: BlockNumber) returns (outcomes: seq<RentalOutcome>, halt: Option<Halt>)
      requires Valid()
      modifies this
      ensures var sweep := NftSpec.ProcessRentalPeriods(old(St()), n);
              && (halt.None? <==> sweep.Completed?)
              && (sweep.Completed? ==> outcomes == sweep.outcomes && St() == sweep.state)
              && (sweep.Aborted? ==> halt == Some(sweep.halt) && St() == old(St()))
      ensures var rentals := Bucket(old(rentalPeriods), n);
              halt == Some(Panic) ==> exists k :: 0 <= k < |rentals| && NftInvariant.CannotPay(old(St()), rentals, k)
      ensures Valid()
    {
      var saved := St();
      NftInvariant.SweepKeepsConsistent(saved, n);
      var rentals := Bucket(rentalPeriods, n);
      outcomes := [];
      var i := 0;
      assert rentals[..0] == [];
      while i < |rentals|
        invariant i <= |rentals|
        invariant NftSpec.ProcessRentals(saved, rentals[..i]) == Completed(St(), outcomes)
      {
        ghost var step := NftSpec.ProcessRental(St(), rentals[i]);
        NftProperties.ProcessRentalsSnoc(saved, rentals, i);
        var o, h := ProcessRental(rentals[i]);
        if h.Some? {
          assert NftSpec.ProcessRentals(saved, rentals[..i + 1]) == Aborted(step.halt);
          NftProperties.ProcessRentalsHaltStops(saved, rentals, i + 1);
          Restore(saved);
          return outcomes, h;
        }
        assert step == Swept(St(), o);
        outcomes := outcomes + [o];
        i := i + 1;
      }
      assert rentals[..i] == rentals;
      ghost var done := St();
      rentalPeriods := rentalPeriods - {n};
      assert St() == done.(rentalPeriods := done.rentalPeriods - {n});
      return outcomes, None;
    }
  }
}
