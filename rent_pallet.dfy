/**
 * The rent pallet as the source runs it: storage items are fields that each call reads,
 * updates and writes back step by step. Every method is proved to produce the outcome and
 * the storage of the matching function of RentSpec, and to keep RentInvariant.Consistent.
 */
module RentPallet {

  import opened Wrappers
  import opened Runtime
  import opened Ledger
  import opened Bounded
  import opened Schedule
  import opened RentTypes
  import RentSpec
  import RentInvariant
  import RentProperties

  /** A run preceded by outcomes already produced. */
  function Prepend(earlier: seq<RentalOutcome>, run: SweepRun): SweepRun
  {
    match run
    case Aborted(h) => Aborted(h)
    case Completed(s, later) => Completed(s, earlier + later)
  }

  lemma PrependTwice(a: seq<RentalOutcome>, b: seq<RentalOutcome>, run: SweepRun)
    ensures Prepend(a, Prepend(b, run)) == Prepend(a + b, run)
  {
    if run.Completed? {
      assert a + (b + run.outcomes) == (a + b) + run.outcomes;
    }
  }

  /**
   * One round of `run_to_block`: a run that so far produced `outcomes` and stands at `s`
   * continues with the next block's sweep, and the whole run halts with that sweep or goes on
   * from its new storage.
   */
  lemma RunToBlockRound(s0: State, outcomes: seq<RentalOutcome>, s: State, n: BlockNumber)
    requires s.blockNumber < n
    requires RentSpec.RunToBlock(s0, n) == Prepend(outcomes, RentSpec.RunToBlock(s, n))
    ensures var b := s.blockNumber + 1;
            var sweep := RentSpec.ProcessRentalPeriods(s.(blockNumber := b), b);
            && (sweep.Aborted? ==> RentSpec.RunToBlock(s0, n) == Aborted(sweep.halt))
            && (sweep.Completed? ==>
                  RentSpec.RunToBlock(s0, n) == Prepend(outcomes + sweep.outcomes, RentSpec.RunToBlock(sweep.state, n)))
  {
    var b := s.blockNumber + 1;
    var sweep := RentSpec.ProcessRentalPeriods(s.(blockNumber := b), b);
    if sweep.Completed? {
      assert RentSpec.RunToBlock(s, n) == Prepend(sweep.outcomes, RentSpec.RunToBlock(sweep.state, n));
      PrependTwice(outcomes, sweep.outcomes, RentSpec.RunToBlock(sweep.state, n));
    }
  }

  /** Once the block number has reached `n` the run has nothing left to do. */
  lemma RunToBlockDone(s0: State, outcomes: seq<RentalOutcome>, s: State, n: BlockNumber)
    requires n <= s.blockNumber
    requires RentSpec.RunToBlock(s0, n) == Prepend(outcomes, RentSpec.RunToBlock(s, n))
    ensures RentSpec.RunToBlock(s0, n) == Completed(s, outcomes)
  {
    assert outcomes + [] == outcomes;
  }

  class Pallet {
    var collectibles: map<CollectibleId, Collectible>
    var lessorCollectibles: map<AccountId, seq<CollectibleId>>
    var lesseeCollectibles: Agreements
    var rentableCollectibles: seq<CollectibleId>
    var pendingRentals: Buckets<PendingRental>
    var accountEquips: map<AccountId, seq<CollectibleId>>
    var balances: Balances
    var blockNumber: BlockNumber
    const maximumOwned: nat
    const maximumRentablesPerBlock: nat

    /** The storage as a value. */
    function St(): State
      reads this
    {
      State(collectibles, lessorCollectibles, lesseeCollectibles, rentableCollectibles,
            pendingRentals, accountEquips, balances, blockNumber, maximumOwned, maximumRentablesPerBlock)
    }

    ghost predicate Valid()
      reads this
    {
      RentInvariant.Consistent(St())
    }

    /** Genesis: the given balances, no collectibles, the chain at block `now`. */
    constructor (genesis: Balances, now: BlockNumber, maximumOwned: nat, maximumRentablesPerBlock: nat)
      ensures St() == State(map[], map[], map[], [], map[], map[], genesis, now, maximumOwned, maximumRentablesPerBlock)
      ensures Valid()
    {
      collectibles, lessorCollectibles, lesseeCollectibles := map[], map[], map[];
      rentableCollectibles, pendingRentals, accountEquips := [], map[], map[];
      balances, blockNumber := genesis, now;
      this.maximumOwned, this.maximumRentablesPerBlock := maximumOwned, maximumRentablesPerBlock;
    }

    /** Write a whole storage value back: the rollback of a call that failed after writing. */
    method Restore(s: State)
      requires s.maximumOwned == maximumOwned && s.maximumRentablesPerBlock == maximumRentablesPerBlock
      modifies this
      ensures St() == s
    {
      collectibles, lessorCollectibles, lesseeCollectibles := s.collectibles, s.lessorCollectibles, s.lesseeCollectibles;
      rentableCollectibles, pendingRentals, accountEquips := s.rentableCollectibles, s.pendingRentals, s.accountEquips;
      balances, blockNumber := s.balances, s.blockNumber;
    }

    // -------------------------------------------------------------------------
    // Internal functions

    /**
     * `_append_pending_rental_to_available_block`: try the bucket at `start + interval`; while
     * it is full, move to the block after the current one. The source keeps re-reading that
     * same block, so once it too is full the loop never ends: the method reports `None` there.
     */
    method AppendPendingRental(start: Option<BlockNumber>, interval: nat, id: CollectibleId, lessee: AccountId)
      returns (r: Option<BlockNumber>)
      modifies this
      ensures r == RentSpec.ProbeFor(old(St()), start, interval)
      ensures r.Some? ==> St() == RentSpec.Enqueue(old(St()), r.value, (id, lessee))
      ensures r.Some? ==> Bucket(pendingRentals, r.value) == Bucket(old(pendingRentals), r.value) + [(id, lessee)]
      ensures r.None? ==> St() == old(St())
    {
      var target: BlockNumber := RentSpec.StartBlock(start, blockNumber) + interval;
      var block: BlockNumber := target;
      var rentalPeriods := Bucket(pendingRentals, block);
      var retried := false;
      while |rentalPeriods| >= maximumRentablesPerBlock && !retried
        invariant rentalPeriods == Bucket(pendingRentals, block)
        invariant !retried ==> block == target
        invariant retried ==> block == blockNumber + 1 && !HasRoom(pendingRentals, target, maximumRentablesPerBlock)
        decreases if retried then 0 else 1
      {
        block := blockNumber + 1;
        rentalPeriods := Bucket(pendingRentals, block);
        retried := true;
      }
      if |rentalPeriods| >= maximumRentablesPerBlock {
        // Every further iteration would read this same full bucket again.
        return None;
      }
      pendingRentals := pendingRentals[block := rentalPeriods + [(id, lessee)]];
      return Some(block);
    }

    /** `_unequip_collectible_from_account`. */
    method UnequipFromAccount(account: AccountId, id: CollectibleId)
      modifies this
      ensures St() == RentSpec.Unequip(old(St()), account, id)
    {
      var equiped := GetOrEmpty(accountEquips, account);
      equiped := RemoveAll(equiped, id);
      accountEquips := accountEquips[account := equiped];
    }

    /** `_remove_lessee_from_collectible`. */
    method RemoveLesseeFromCollectible(lessee: AccountId, c: Collectible)
      modifies this
      ensures St() == RentSpec.RemoveLessee(old(St()), lessee, c)
    {
      var id := c.uniqueId;
      lesseeCollectibles := lesseeCollectibles - {(lessee, id)};
      collectibles := collectibles[id := c.(lessee := None)];
      UnequipFromAccount(lessee, id);
    }

    // -------------------------------------------------------------------------
    // Calls

    /** `mint` with the generated id as a parameter, which is `do_mint`. */
    method Mint(lessor: AccountId, id: CollectibleId) returns (r: Outcome)
      requires Valid()
      modifies this
      ensures var t := RentSpec.Mint(old(St()), lessor, id); r == t.outcome && St() == t.state
      ensures Valid()
    {
      RentInvariant.MintKeepsConsistent(St(), lessor, id);
      if id in collectibles {
        return Err(DuplicateCollectible);
      }
      var lessorOwned := GetOrEmpty(lessorCollectibles, lessor);
      if !CanPush(lessorOwned, maximumOwned) {
        return Err(TooManyCollectiblesOwned);
      }
      collectibles := collectibles[id := RentSpec.NewCollectible(id, lessor)];
      lessorCollectibles := lessorCollectibles[lessor := lessorOwned + [id]];
      return Ok;
    }

    method Burn(sender: AccountId, id: CollectibleId) returns (r: Outcome)
      requires Valid()
      modifies this
      ensures var t := RentSpec.Burn(old(St()), sender, id); r == t.outcome && St() == t.state
      ensures Valid()
    {
      RentInvariant.BurnKeepsConsistent(St(), sender, id);
      if id !in collectibles {
        return Err(NoCollectible);
      }
      var c := collectibles[id];
      if c.lessor != sender {
        return Err(NotLessor);
      }
      if c.lessee != None {
        return Err(NotAllowedWhileRented);
      }
      collectibles := collectibles - {id};
      var lessorOwned := GetOrEmpty(lessorCollectibles, sender);
      lessorOwned := RemoveAll(lessorOwned, id);
      lessorCollectibles := lessorCollectibles[sender := lessorOwned];
      UnequipFromAccount(sender, c.uniqueId);
      return Ok;
    }

    method SetRentable(sender: AccountId, id: CollectibleId, price: Balance, minimum: nat, maximum: nat) returns (r: Outcome)
      requires Valid()
      modifies this
      ensures var t := RentSpec.SetRentable(old(St()), sender, id, price, minimum, maximum); r == t.outcome && St() == t.state
      ensures Valid()
    {
      RentInvariant.SetRentableKeepsConsistent(St(), sender, id, price, minimum, maximum);
      if id !in collectibles {
        return Err(NoCollectible);
      }
      var c := collectibles[id];
      if c.lessor != sender {
        return Err(NotLessor);
      }
      if minimum > maximum {
        return Err(MinimumMustBeLessThanMaximum);
      }
      if c.lessee != None {
        return Err(NotAllowedWhileRented);
      }
      if !CanPush(rentableCollectibles, maximumOwned) {
        // The record write below happens before this check in the source and is rolled back.
        return Err(TooManyCollectibles);
      }
      c := c.(pricePerBlock := Some(price), rentable := true,
              minimumRentalPeriod := Some(minimum), maximumRentalPeriod := Some(maximum));
      collectibles := collectibles[id := c];
      rentableCollectibles := rentableCollectibles + [id];
      UnequipFromAccount(sender, c.uniqueId);
      return Ok;
    }

    method Rent(lessee: AccountId, id: CollectibleId, blocks: nat, recurring: bool) returns (r: Outcome)
      requires Valid()
      modifies this
      ensures var t := RentSpec.Rent(old(St()), lessee, id, blocks, recurring); r == t.outcome && St() == t.state
      ensures Valid()
    {
      RentInvariant.RentKeepsConsistent(St(), lessee, id, blocks, recurring);
      if id !in collectibles {
        return Err(NoCollectible);
      }
      var c := collectibles[id];
      if c.minimumRentalPeriod.Some? && blocks < c.minimumRentalPeriod.value {
        return Err(RentalPeriodTooShort);
      }
      if c.maximumRentalPeriod.Some? && blocks > c.maximumRentalPeriod.value {
        return Err(RentalPeriodTooLong);
      }
      if c.lessor == lessee {
        return Err(CannotRentOwnCollectible);
      }
      if c.lessee.Some? {
        return Err(RentNotAvailable);
      }
      if c.lessee == Some(lessee) {
        return Err(AlreadyRented);
      }
      r := DoRentCollectible(id, lessee, blocks, recurring);
    }

    method DoRentCollectible(id: CollectibleId, lessee: AccountId, interval: nat, recurring: bool) returns (r: Outcome)
      modifies this
      ensures var t := RentSpec.DoRentCollectible(old(St()), id, lessee, interval, recurring); r == t.outcome && St() == t.state
    {
      if id !in collectibles {
        return Err(NoCollectible);
      }
      var c := collectibles[id];
      if c.pricePerBlock.None? {
        return Halted(Panic);
      }
      var total := c.pricePerBlock.value * interval;
      if !CanTransfer(balances, lessee, total) {
        return Err(NotEnoughBalance);
      }
      var saved := St();
      balances := Transfer(balances, lessee, c.lessor, total);
      c := c.(lessee := Some(lessee));
      var next := AppendPendingRental(None, interval, id, lessee);
      if next.None? {
        Restore(saved);
        return Halted(Diverge);
      }
      lesseeCollectibles := lesseeCollectibles[(lessee, id) := RentalPeriodConfig(interval, next.value, recurring)];
      collectibles := collectibles[id := c];
      return Ok;
    }

    method SetUnrentable(sender: AccountId, id: CollectibleId) returns (r: Outcome)
      requires Valid()
      modifies this
      ensures var t := RentSpec.SetUnrentable(old(St()), sender, id); r == t.outcome && St() == t.state
      ensures Valid()
    {
      RentInvariant.SetUnrentableKeepsConsistent(St(), sender, id);
      if id !in collectibles {
        return Err(NoCollectible);
      }
      var c := collectibles[id];
      if c.lessor != sender {
        return Err(NotLessor);
      }
      c := c.(rentable := false);
      collectibles := collectibles[id := c];
      rentableCollectibles := RemoveAll(rentableCollectibles, id);
      return Ok;
    }

    method SetRecurring(sender: AccountId, id: CollectibleId, recurring: bool) returns (r: Outcome)
      requires Valid()
      modifies this
      ensures var t := RentSpec.SetRecurring(old(St()), sender, id, recurring); r == t.outcome && St() == t.state
      ensures Valid()
    {
      RentInvariant.SetRecurringKeepsConsistent(St(), sender, id, recurring);
      if id !in collectibles {
        return Err(NoCollectible);
      }
      var c := collectibles[id];
      if c.lessee != Some(sender) {
        return Err(NotLessor);
      }
      if (sender, id) !in lesseeCollectibles {
        return Err(NoCollectible);
      }
      var rental := lesseeCollectibles[(sender, id)];
      rental := rental.(recurring := recurring);
      lesseeCollectibles := lesseeCollectibles[(sender, id) := rental];
      collectibles := collectibles[id := c];
      return Ok;
    }

    method ExtendRent(sender: AccountId, id: CollectibleId, blocks: nat) returns (r: Outcome)
      requires Valid()
      modifies this
      ensures var t := RentSpec.ExtendRent(old(St()), sender, id, blocks); r == t.outcome && St() == t.state
      ensures Valid()
    {
      RentInvariant.ExtendRentKeepsConsistent(St(), sender, id, blocks);
      if id !in collectibles {
        return Err(NoCollectible);
      }
      var c := collectibles[id];
      if c.lessee != Some(sender) {
        return Err(NotLessor);
      }
      r := DoExtendRent(c, blocks);
    }

    method DoExtendRent(c: Collectible, blocks: nat) returns (r: Outcome)
      modifies this
      ensures var t := RentSpec.DoExtendRent(old(St()), c, blocks); r == t.outcome && St() == t.state
    {
      if c.lessee.None? {
        return Halted(Panic);
      }
      var lessee := c.lessee.value;
      if (lessee, c.uniqueId) !in lesseeCollectibles {
        return Err(NoCollectible);
      }
      var rental := lesseeCollectibles[(lessee, c.uniqueId)];
      if c.maximumRentalPeriod.None? {
        return Halted(Panic);
      }
      if blocks + rental.nextRentBlock > c.maximumRentalPeriod.value {
        return Err(RentalPeriodTooLong);
      }
      if blocks > U32_MAX || c.pricePerBlock.None? || c.pricePerBlock.value > U32_MAX {
        return Halted(Panic);
      }
      var total := blocks * c.pricePerBlock.value;
      if !CanTransfer(balances, lessee, total) {
        return Err(NotEnoughBalance);
      }
      var saved := St();
      balances := Transfer(balances, lessee, c.lessor, total);
      var due := rental.nextRentBlock;
      var pending := Bucket(pendingRentals, due);
      pending := RentSpec.RemoveCollectible(pending, c.uniqueId);
      pendingRentals := pendingRentals[due := pending];
      var next := AppendPendingRental(Some(due), blocks, c.uniqueId, lessee);
      if next.None? {
        Restore(saved);
        return Halted(Diverge);
      }
      lesseeCollectibles := lesseeCollectibles[(lessee, c.uniqueId) := rental.(nextRentBlock := next.value)];
      return Ok;
    }

    method EquipCollectible(sender: AccountId, id: CollectibleId) returns (r: Outcome)
      requires Valid()
      modifies this
      ensures var t := RentSpec.Equip(old(St()), sender, id); r == t.outcome && St() == t.state
      ensures Valid()
    {
      RentInvariant.EquipKeepsConsistent(St(), sender, id);
      if id !in collectibles {
        return Err(NoCollectible);
      }
      var c := collectibles[id];
      var account: AccountId;
      if c.lessor == sender {
        if c.rentable {
          return Err(NotAllowedWhileRented);
        }
        account := c.lessor;
      } else if c.lessee.Some? {
        if c.lessee.value != sender {
          return Err(NotLessee);
        }
        account := c.lessee.value;
      } else {
        return Err(NoAccountFoundForCollectible);
      }
      var equipped := GetOrEmpty(accountEquips, account);
      if !CanPush(equipped, maximumOwned) {
        return Err(TooManyCollectiblesEquiped);
      }
      accountEquips := accountEquips[account := equipped + [id]];
      return Ok;
    }

    method UnequipCollectible(sender: AccountId, id: CollectibleId) returns (r: Outcome)
      requires Valid()
      modifies this
      ensures var t := RentSpec.UnequipCollectible(old(St()), sender, id); r == t.outcome && St() == t.state
      ensures Valid()
    {
      RentInvariant.UnequipKeepsConsistent(St(), sender, id);
      if id !in collectibles {
        return Err(NoCollectible);
      }
      UnequipFromAccount(sender, collectibles[id].uniqueId);
      return Ok;
    }
  
    // -------------------------------------------------------------------------
    // The per-block sweep

    /**
     * One iteration of the loop in `do_process_rental_periods`. When it halts, the storage
     * it leaves is not specified: the sweep puts back what it started from.
     */
    method ProcessRental(e: PendingRental) returns (o: RentalOutcome, halt: Option<Halt>)
      modifies this
      ensures var step := RentSpec.ProcessRental(old(St()), e);
              && (halt.None? <==> step.Swept?)
              && (step.Swept? ==> o == step.outcome && St() == step.state)
              && (step.Stopped? ==> halt == Some(step.halt))
    {
      var (id, lessee) := e;
      if (lessee, id) !in lesseeCollectibles {
        return RentalEnded, Some(Panic);
      }
      var rental := lesseeCollectibles[(lessee, id)];
      if id !in collectibles {
        return RentalEnded, Some(Panic);
      }
      var c := collectibles[id];
      if !c.rentable || c.lessee.None? || !rental.recurring {
        RemoveLesseeFromCollectible(lessee, c);
        return RentalEnded, None;
      }
      if c.pricePerBlock.None? {
        return RentalEnded, Some(Panic);
      }
      var total := c.pricePerBlock.value * rental.rentalPeriodicInterval;
      if !CanTransfer(balances, lessee, total) {
        RemoveLesseeFromCollectible(lessee, c);
        return PaymentFailed, None;
      }
      balances := Transfer(balances, lessee, c.lessor, total);
      // `recurring` is tested again here in the source; it holds on this path.
      var next := AppendPendingRental(None, rental.rentalPeriodicInterval, id, lessee);
      if next.None? {
        return RentalEnded, Some(Diverge);
      }
      lesseeCollectibles := lesseeCollectibles[(lessee, id) := rental.(nextRentBlock := next.value)];
      return Renewed(next.value), None;
    }

    /**
     * `do_process_rental_periods(n)`: settle every obligation of a snapshot of bucket `n` in
     * order, then remove the bucket. On consistent storage it never panics; when the probe
     * would loop forever the block cannot be produced and the storage is left as it was.
     */
    method DoProcessRentalPeriods(n: BlockNumber) returns (outcomes: seq<RentalOutcome>, halt: Option<Halt>)
      requires Valid()
      modifies this
      ensures var sweep := RentSpec.ProcessRentalPeriods(old(St()), n);
              && (halt.None? <==> sweep.Completed?)
              && (sweep.Completed? ==> outcomes == sweep.outcomes && St() == sweep.state)
              && (sweep.Aborted? ==> halt == Some(sweep.halt) && St() == old(St()))
      ensures halt != Some(Panic)
      ensures Valid()
    {
      var saved := St();
      RentInvariant.SweepKeepsConsistent(saved, n);
      var rentals := Bucket(pendingRentals, n);
      outcomes := [];
      var i := 0;
      assert rentals[..0] == [];
      while i < |rentals|
        invariant i <= |rentals|
        invariant RentSpec.ProcessRentals(saved, rentals[..i]) == Completed(St(), outcomes)
      {
        ghost var step := RentSpec.ProcessRental(St(), rentals[i]);
        RentProperties.ProcessRentalsSnoc(saved, rentals, i);
        var o, h := ProcessRental(rentals[i]);
        if h.Some? {
          assert RentSpec.ProcessRentals(saved, rentals[..i + 1]) == Aborted(step.halt);
          RentProperties.ProcessRentalsHaltStops(saved, rentals, i + 1);
          Restore(saved);
          return outcomes, h;
        }
        assert step == Swept(St(), o);
        outcomes := outcomes + [o];
        i := i + 1;
      }
      assert rentals[..i] == rentals;
      ghost var done := St();
      pendingRentals := pendingRentals - {n};
      assert St() == done.(pendingRentals := done.pendingRentals - {n});
      return outcomes, None;
    }

    /**
     * The test driver `run_to_block(n)`: for each block after the current one up to `n`,
     * set the block number and run that block's sweep.
     */
    method RunToBlock(n: BlockNumber) returns (outcomes: seq<RentalOutcome>, halt: Option<Halt>)
      requires Valid()
      modifies this
      ensures var run := RentSpec.RunToBlock(old(St()), n);
              && (halt.None? <==> run.Completed?)
              && (run.Completed? ==> outcomes == run.outcomes && St() == run.state)
              && (run.Aborted? ==> halt == Some(run.halt))
      ensures halt != Some(Panic)
      ensures halt.None? ==> Valid()
    {
      ghost var s0 := St();
      outcomes := [];
      while blockNumber < n
        invariant Valid()
        invariant RentSpec.RunToBlock(s0, n) == Prepend(outcomes, RentSpec.RunToBlock(St(), n))
        decreases n - blockNumber
      {
        ghost var before := St();
        RunToBlockRound(s0, outcomes, before, n);
        blockNumber := blockNumber + 1;
        assert St() == before.(blockNumber := before.blockNumber + 1);
        ghost var sweep := RentSpec.ProcessRentalPeriods(St(), blockNumber);
        var more, h := DoProcessRentalPeriods(blockNumber);
        if h.Some? {
          return outcomes, h;
        }
        outcomes := outcomes + more;
      }
      RunToBlockDone(s0, outcomes, St(), n);
      return outcomes, None;
    }
  }
}
