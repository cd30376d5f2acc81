/**
 * Concrete runs of the earlier rental pallet: a collectible minted, offered and rented,
 * then the sweep of its due block renewing it for one block's price, or panicking when
 * the lessee cannot pay.
 */
module NftScenarios {

  import opened Wrappers
  import opened Runtime
  import opened Ledger
  import opened Schedule
  import opened NftTypes
  import opened NftSpec

  function TestId(): CollectibleId
  {
    seq(16, _ => 7 as bv8)
  }

  /** Accounts 1 and 2 hold 1000 each; the chain is at block 1; two rentals fit in a bucket. */
  function Genesis(): State
  {
    State(map[], map[], map[1 := 1000, 2 := 1000], 1, 2)
  }

  /** Account 1 mints and offers at 5 per block; account 2 rents for ten blocks, recurring: due at block 11. */
  lemma MintOfferRentScenario()
    ensures var m := Mint(Genesis(), 1, TestId());
            var o := SetRentable(m.state, 1, TestId(), 5);
            var r := Rent(o.state, 2, TestId(), 10, true);
            && m.outcome.Ok? && o.outcome.Ok? && r.outcome.Ok?
            && Bucket(r.state.rentalPeriods, 11) == [RentalPeriodConfig(TestId(), 10, true)]
            && r.state.collectibleMap[TestId()].currentLessee == Some(2)
            && FreeBalance(r.state.balances, 1) == 1050
            && FreeBalance(r.state.balances, 2) == 950
  {
  }

  /** The lessor cannot rent its own collectible, and two blocks or ninety-one are out of bounds. */
  lemma RentRejectedScenario()
    ensures var m := Mint(Genesis(), 1, TestId());
            var o := SetRentable(m.state, 1, TestId(), 5);
            && Rent(o.state, 1, TestId(), 10, true).outcome == Err(CannotRentOwnCollectible)
            && Rent(o.state, 2, TestId(), 2, true).outcome == Err(RentalPeriodTooShort)
            && Rent(o.state, 2, TestId(), 91, true).outcome == Err(RentalPeriodTooLong)
            && Rent(m.state, 2, TestId(), 10, true).outcome == Err(RentNotAvailable)
  {
  }

  /** A storage where the only rental due at block `n` is a recurring one of a collectible still offered. */
  ghost predicate RenewalDue(s: State, n: BlockNumber, cfg: RentalPeriodConfig, lessee: AccountId, price: Balance)
  {
    && Bucket(s.rentalPeriods, n) == [cfg]
    && cfg.recurring
    && cfg.collectible in s.collectibleMap
    && var c := s.collectibleMap[cfg.collectible];
    && c.rentable && c.currentLessee == Some(lessee) && c.pricePerBlock == Some(price) && c.lessor != lessee
  }

  /** The sweep of a bucket holding one rental is that rental's step, then the bucket's removal. */
  lemma SweepOfOne(s: State, n: BlockNumber, cfg: RentalPeriodConfig)
    requires Bucket(s.rentalPeriods, n) == [cfg]
    ensures ProcessRentalPeriods(s, n) ==
              match ProcessRental(s, cfg)
              case Stopped(h) => Aborted(h)
              case Swept(s1, o) => Completed(s1.(rentalPeriods := s1.rentalPeriods - {n}), [o])
  {
    assert [cfg][..0] == [];
    assert ProcessRentals(s, [cfg]) ==
             match ProcessRental(s, cfg)
             case Stopped(h) => Aborted(h)
             case Swept(s1, o) => Completed(s1, [] + [o]);
  }

  /**
   * The sweep renews a recurring rental for one block's price, whatever the interval, and
   * schedules it again `interval` blocks after the current one.
   */
  lemma RenewalChargesOneBlockScenario(s: State, n: BlockNumber, cfg: RentalPeriodConfig, lessee: AccountId, price: Balance)
    requires RenewalDue(s, n, cfg, lessee, price)
    requires FreeBalance(s.balances, lessee) >= price
    requires HasRoom(s.rentalPeriods, s.blockNumber + cfg.rentalPeriodicInterval, s.maximumRentablesPerBlock)
    requires n != s.blockNumber + cfg.rentalPeriodicInterval
    ensures var next := s.blockNumber + cfg.rentalPeriodicInterval;
            var r := ProcessRentalPeriods(s, n);
            && r.Completed? && r.outcomes == [Renewed(next)]
            && FreeBalance(r.state.balances, lessee) == FreeBalance(s.balances, lessee) - price
            && Bucket(r.state.rentalPeriods, next) == Bucket(s.rentalPeriods, next) + [cfg]
            && n !in r.state.rentalPeriods
            && r.state.collectibleMap == s.collectibleMap
  {
    SweepOfOne(s, n, cfg);
    var c := s.collectibleMap[cfg.collectible];
    var s1 := s.(balances := Transfer(s.balances, lessee, c.lessor, price));
    assert InsertionBlock(s1, cfg) == Some(s.blockNumber + cfg.rentalPeriodicInterval);
  }

  /** A renewing lessee who cannot pay one block's price makes the sweep panic: the block cannot be produced. */
  lemma UnpaidRenewalPanicsScenario(s: State, n: BlockNumber, cfg: RentalPeriodConfig, lessee: AccountId, price: Balance)
    requires RenewalDue(s, n, cfg, lessee, price)
    requires FreeBalance(s.balances, lessee) < price
    ensures ProcessRentalPeriods(s, n) == Aborted(Panic)
  {
    SweepOfOne(s, n, cfg);
  }

  /** After the lessor withdraws the offer, the sweep ends the rental: the lessee is cleared and nothing is charged. */
  lemma WithdrawnRentalEndsScenario(s: State, n: BlockNumber, cfg: RentalPeriodConfig, lessee: AccountId, price: Balance)
    requires RenewalDue(s, n, cfg, lessee, price)
    ensures var c := s.collectibleMap[cfg.collectible];
            var w := SetUnrentable(s, c.lessor, cfg.collectible);
            var r := ProcessRentalPeriods(w.state, n);
            && w.outcome.Ok?
            && r.Completed? && r.outcomes == [RentalEnded]
            && r.state.collectibleMap[cfg.collectible].currentLessee.None?
            && r.state.balances == s.balances
            && n !in r.state.rentalPeriods
  {
    var c := s.collectibleMap[cfg.collectible];
    var w := SetUnrentable(s, c.lessor, cfg.collectible);
    SweepOfOne(w.state, n, cfg);
  }
}
