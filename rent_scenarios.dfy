/**
 * The scenarios of the rent pallet's tests (pallets/rent/src/tests.rs) on the genesis of its
 * mock runtime: accounts 1, 2 and 3 hold 1_000_000_000, both bounds are 100 and the chain
 * starts at block 1. Also the one scenario in which an obligation is lost.
 */
module RentScenarios {

  import opened Wrappers
  import opened Runtime
  import opened Ledger
  import opened Bounded
  import opened Schedule
  import opened RentTypes
  import opened RentSpec
  import opened RentInvariant
  import RentProperties

  /** `COLLECTIBLE_ID` of the tests: sixteen bytes of 1. */
  function TestId(): CollectibleId { seq(16, _ => 1 as bv8) }

  function Genesis(): State
  {
    State(map[], map[], map[], [], map[], map[],
          map[1 := 1_000_000_000, 2 := 1_000_000_000, 3 := 1_000_000_000], 1, 100, 100)
  }

  /** `add_collectible` of the mock: write the record and append it to the lessor's owned list. */
  function WithCollectible(s: State, c: Collectible): State
  {
    s.(collectibles := s.collectibles[c.uniqueId := c],
       lessorCollectibles := s.lessorCollectibles[c.lessor := [c.uniqueId]])
  }

  /** The collectible most tests use: lessor 1, price 100 per block, periods 10 to 30. */
  function Offered(lessee: Option<AccountId>): Collectible
  {
    Collectible(TestId(), Some(100), 1, lessee, true, Some(10), Some(30))
  }

  /** The tests' set-up of an ongoing rental by account 2 due at block 11. */
  function RentedUntil11(recurring: bool): State
  {
    var s := WithCollectible(Genesis(), Offered(Some(2)));
    s.(lesseeCollectibles := map[(2, TestId()) := RentalPeriodConfig(10, 11, recurring)],
       pendingRentals := map[11 := [(TestId(), 2)]])
  }

  /** Blocks whose bucket is empty pass without effect. */
  lemma {:induction false} IdleBlocks(s: State, m: BlockNumber, n: BlockNumber)
    requires s.blockNumber <= m <= n
    requires forall t :: s.blockNumber < t <= m ==> t !in s.pendingRentals
    ensures RunToBlock(s, n) == RunToBlock(s.(blockNumber := m), n)
    decreases m - s.blockNumber
  {
    if s.blockNumber < m {
      var b := s.blockNumber + 1;
      var s0 := s.(blockNumber := b);
      assert Bucket(s0.pendingRentals, b) == [];
      assert ProcessRentals(s0, []) == Completed(s0, []);
      assert s0.pendingRentals - {b} == s0.pendingRentals;
      assert ProcessRentalPeriods(s0, b) == Completed(s0, []);
      IdleBlocks(s0, m, n);
      assert s0.(blockNumber := m) == s.(blockNumber := m);
      match RunToBlock(s0, n)
      case Aborted(h) =>
      case Completed(s2, later) =>
        assert [] + later == later;
    }
  }

  /** test_set_rentable: the record gets the price and periods and the id is listed as rentable. */
  lemma SetRentableScenario()
    ensures var s := WithCollectible(Genesis(), Collectible(TestId(), None, 1, None, false, None, None));
            var r := SetRentable(s, 1, TestId(), 100, 10, 30);
            && r.outcome == Ok
            && TestId() in r.state.collectibles && r.state.collectibles[TestId()] == Offered(None)
            && r.state.rentableCollectibles == [TestId()]
  {
  }

  /** test_rent_should_fail_if_rental_period_is_too_short / _too_long. */
  lemma RentPeriodScenarios()
    ensures var s := WithCollectible(Genesis(), Offered(None));
            && Rent(s, 2, TestId(), 5, false) == Transition(Err(RentalPeriodTooShort), s)
            && Rent(s, 2, TestId(), 40, false) == Transition(Err(RentalPeriodTooLong), s)
  {
  }

  /** test_rent_non_recurring: renting at block 1 for 10 blocks pays 1000 and is due at block 11. */
  lemma RentNonRecurringScenario()
    ensures var s := WithCollectible(Genesis(), Offered(None));
            var r := Rent(s, 2, TestId(), 10, false);
            && r.outcome == Ok
            && TestId() in r.state.collectibles && r.state.collectibles[TestId()] == Offered(Some(2))
            && r.state.lesseeCollectibles == map[(2, TestId()) := RentalPeriodConfig(10, 11, false)]
            && Bucket(r.state.pendingRentals, 11) == [(TestId(), 2)]
            && FreeBalance(r.state.balances, 1) == 1_000_000_000 + 1000
            && FreeBalance(r.state.balances, 2) == 1_000_000_000 - 1000
  {
    var s := WithCollectible(Genesis(), Offered(None));
    var s1 := s.(balances := Transfer(s.balances, 2, 1, 1000));
    assert ProbeFor(s1, None, 10) == Some(11);
  }

  /** Running to the block after the current one is that block's sweep. */
  lemma NextBlock(s: State, n: BlockNumber)
    requires s.blockNumber + 1 == n
    ensures RunToBlock(s, n) == ProcessRentalPeriods(s.(blockNumber := n), n)
  {
    match ProcessRentalPeriods(s.(blockNumber := n), n)
    case Aborted(h) =>
    case Completed(s1, outcomes) =>
      assert RunToBlock(s1, n) == Completed(s1, []);
      assert outcomes + [] == outcomes;
  }

  /** A sweep of a bucket holding one obligation is that obligation's step, then the bucket's removal. */
  lemma SweepOfOne(s: State, n: BlockNumber, e: PendingRental)
    requires Bucket(s.pendingRentals, n) == [e]
    ensures ProcessRentalPeriods(s, n) ==
            match ProcessRental(s, e)
            case Stopped(h) => Aborted(h)
            case Swept(s1, o) => Completed(s1.(pendingRentals := s1.pendingRentals - {n}), [o])
  {
    assert [e][..0] == [];
    assert ProcessRentals(s, []) == Completed(s, []);
  }

  /**
   * The set-up of the sweep tests, stated of any storage: at block `now` before 11, account
   * 2 rents the test collectible until block 11 and no bucket before 11 holds anything.
   */
  predicate RentedUntil11At(s: State, now: BlockNumber, recurring: bool)
  {
    && s.blockNumber == now && now < 11
    && TestId() in s.collectibles && s.collectibles[TestId()] == Offered(Some(2))
    && (2, TestId()) in s.lesseeCollectibles
    && s.lesseeCollectibles[(2, TestId())] == RentalPeriodConfig(10, 11, recurring)
    && Bucket(s.pendingRentals, 11) == [(TestId(), 2)]
    && (forall t :: now < t < 11 ==> t !in s.pendingRentals)
    && FreeBalance(s.balances, 2) >= 1000
    && |Bucket(s.pendingRentals, 21)| < s.maximumRentablesPerBlock
  }

  /** test_pending_rental_process_ending: at block 11 the non-recurring rental ends. */
  lemma ProcessEndingScenario(s: State, now: BlockNumber)
    requires RentedUntil11At(s, now, false)
    ensures var r := RunToBlock(s, 11);
            && r.Completed? && r.outcomes == [RentalEnded]
            && TestId() in r.state.collectibles && r.state.collectibles[TestId()] == Offered(None)
            && (2, TestId()) !in r.state.lesseeCollectibles
            && TestId() !in GetOrEmpty(r.state.accountEquips, 2)
  {
    IdleBlocks(s, 10, 11);
    var s10 := s.(blockNumber := 10);
    NextBlock(s10, 11);
    var s11 := s10.(blockNumber := 11);
    SweepOfOne(s11, 11, (TestId(), 2));
    assert ProcessRental(s11, (TestId(), 2)) == Swept(RemoveLessee(s11, 2, Offered(Some(2))), RentalEnded);
  }

  /** test_pending_rental_process_recurring: at block 11 the recurring rental pays 1000 and is due at 21. */
  lemma ProcessRecurringScenario(s: State, now: BlockNumber)
    requires RentedUntil11At(s, now, true)
    ensures var r := RunToBlock(s, 11);
            && r.Completed? && r.outcomes == [Renewed(21)]
            && TestId() in r.state.collectibles && r.state.collectibles[TestId()] == Offered(Some(2))
            && r.state.lesseeCollectibles == s.lesseeCollectibles[(2, TestId()) := RentalPeriodConfig(10, 21, true)]
            && Bucket(r.state.pendingRentals, 21) == Bucket(s.pendingRentals, 21) + [(TestId(), 2)]
            && Bucket(r.state.pendingRentals, 11) == []
            && FreeBalance(r.state.balances, 1) == FreeBalance(s.balances, 1) + 1000
            && FreeBalance(r.state.balances, 2) == FreeBalance(s.balances, 2) - 1000
  {
    IdleBlocks(s, 10, 11);
    var s10 := s.(blockNumber := 10);
    NextBlock(s10, 11);
    var s11 := s10.(blockNumber := 11);
    SweepOfOne(s11, 11, (TestId(), 2));
    var s1 := s11.(balances := Transfer(s11.balances, 2, 1, 1000));
    assert ProbeFor(s1, None, 10) == Some(21);
    var renewed := Enqueue(s1, 21, (TestId(), 2)).(lesseeCollectibles := s.lesseeCollectibles[(2, TestId()) := RentalPeriodConfig(10, 21, true)]);
    assert ProcessRental(s11, (TestId(), 2)) == Swept(renewed, Renewed(21));
  }

  /** After test_set_recurring_during_ongoing_rental_should_renew_rent's call at block 5, the rental renews at 11. */
  lemma SetRecurringThenRenewScenario(s: State)
    requires RentedUntil11At(s, 5, false)
    ensures var r := SetRecurring(s, 2, TestId(), true);
            r.outcome == Ok && RentedUntil11At(r.state, 5, true)
  {
  }

  /** After test_set_recurring_during_ongoing_rental_should_not_renew_rent's calls at block 5, the rental ends at 11. */
  lemma EquipThenStopRecurringScenario(s: State)
    requires RentedUntil11At(s, 5, true)
    requires |GetOrEmpty(s.accountEquips, 2)| < s.maximumOwned
    ensures var r1 := Equip(s, 2, TestId());
            var r2 := SetRecurring(r1.state, 2, TestId(), false);
            && r1.outcome == Ok && TestId() in GetOrEmpty(r1.state.accountEquips, 2)
            && r2.outcome == Ok && RentedUntil11At(r2.state, 5, false)
  {
  }

  /** test_extend_rent: at block 5, extending the rental due at 11 by 3 moves it to bucket 14. */
  lemma ExtendRentScenario()
    ensures var s := RentedUntil11(false).(blockNumber := 5);
            var r := ExtendRent(s, 2, TestId(), 3);
            && r.outcome == Ok
            && Bucket(r.state.pendingRentals, 11) == []
            && Bucket(r.state.pendingRentals, 14) == [(TestId(), 2)]
            && r.state.lesseeCollectibles == map[(2, TestId()) := RentalPeriodConfig(10, 14, false)]
  {
    var s := RentedUntil11(false).(blockNumber := 5);
    var s1 := s.(balances := Transfer(s.balances, 2, 1, 300));
    assert RemoveCollectible([(TestId(), 2)], TestId()) == [];
    var s2 := s1.(pendingRentals := map[11 := []]);
    assert ProbeFor(s2, Some(11), 3) == Some(14);
  }

  /** test_extend_rent_should_fail_if_exceeds_maximum_rental_period: 20 + 11 exceeds 30. */
  lemma ExtendRentTooLongScenario()
    ensures var s := RentedUntil11(false).(blockNumber := 5);
            ExtendRent(s, 2, TestId(), 20) == Transition(Err(RentalPeriodTooLong), s)
  {
  }

  /** The equip tests: the lessee equips; the lessor of a rentable collectible and a stranger cannot. */
  lemma EquipScenarios()
    ensures var s := WithCollectible(Genesis(), Offered(Some(2)));
            && Equip(s, 2, TestId()).outcome == Ok
            && GetOrEmpty(Equip(s, 2, TestId()).state.accountEquips, 2) == [TestId()]
            && UnequipCollectible(Equip(s, 2, TestId()).state, 2, TestId()).outcome == Ok
            && GetOrEmpty(UnequipCollectible(Equip(s, 2, TestId()).state, 2, TestId()).state.accountEquips, 2) == []
            && Equip(s, 1, TestId()).outcome == Err(NotAllowedWhileRented)
    ensures var s := WithCollectible(Genesis(), Offered(None));
            && Equip(s, 1, TestId()).outcome == Err(NotAllowedWhileRented)
            && Equip(s, 2, TestId()).outcome == Err(NoAccountFoundForCollectible)
  {
  }

  /**
   * A recurring rental with a zero period -- admitted when the minimum period is 0 -- is
   * rescheduled into the bucket being swept, which is removed at the end of the sweep:
   * storage stays consistent, but the agreement is left with no obligation and is never
   * charged or ended again.
   */
  lemma ZeroPeriodLosesObligation()
    ensures var s := WithCollectible(Genesis(), Collectible(TestId(), Some(100), 1, Some(2), true, Some(0), Some(30)))
                       .(lesseeCollectibles := map[(2, TestId()) := RentalPeriodConfig(0, 1, true)],
                         pendingRentals := map[1 := [(TestId(), 2)]]);
            var r := ProcessRentalPeriods(s, 1);
            && Consistent(s) && Scheduled(s)
            && r.Completed? && r.outcomes == [Renewed(1)]
            && Consistent(r.state) && !Scheduled(r.state)
  {
    var s := WithCollectible(Genesis(), Collectible(TestId(), Some(100), 1, Some(2), true, Some(0), Some(30)))
               .(lesseeCollectibles := map[(2, TestId()) := RentalPeriodConfig(0, 1, true)],
                 pendingRentals := map[1 := [(TestId(), 2)]]);
    forall t ensures SoundBucket(s.lesseeCollectibles, t, Bucket(s.pendingRentals, t)) {
      if t == 1 {
        assert Bucket(s.pendingRentals, t) == [(TestId(), 2)];
      }
    }
    assert Consistent(s);
    assert [(TestId(), 2)][..0] == [];
    SweepKeepsConsistent(s, 1);
    var r := ProcessRentalPeriods(s, 1);
    assert r.state.lesseeCollectibles[(2, TestId())].nextRentBlock == 1;
    assert Bucket(r.state.pendingRentals, 1) == [];
  }

  /**
   * A zero-block `rent`, admitted once the minimum period is 0, books its obligation into
   * the bucket of the current block, whose sweep has already run: no later `run_to_block`
   * reaches it, so the rental is never charged again and never ends.
   */
  lemma ZeroPeriodRentIsNeverSwept(s: State, lessee: AccountId, id: CollectibleId, recurring: bool, n: BlockNumber)
    requires id in s.collectibles
    requires var c := s.collectibles[id];
             && c.minimumRentalPeriod == Some(0) && c.pricePerBlock.Some?
             && c.lessor != lessee && c.lessee.None?
    requires HasRoom(s.pendingRentals, s.blockNumber, s.maximumRentablesPerBlock)
    ensures var r := Rent(s, lessee, id, 0, recurring);
            && r.outcome.Ok?
            && r.state.lesseeCollectibles[(lessee, id)].nextRentBlock == s.blockNumber
            && Bucket(r.state.pendingRentals, s.blockNumber) == Bucket(s.pendingRentals, s.blockNumber) + [(id, lessee)]
            && var run := RunToBlock(r.state, n);
               run.Completed? ==> (id, lessee) in Bucket(run.state.pendingRentals, s.blockNumber)
  {
    var r := Rent(s, lessee, id, 0, recurring);
    assert s.collectibles[id].pricePerBlock.value * 0 == 0;
    assert r.state.blockNumber == s.blockNumber;
    RentProperties.RunToBlockKeepsPastBucket(r.state, n, s.blockNumber);
  }
}
