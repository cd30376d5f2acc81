/**
 * Properties of the calls of the earlier rental pallet (pallets/nft-on-rent/src/lib.rs)
 * stated over the functions of NftSpec: what each call checks and in which order, what
 * it changes, and how the sweep settles a scheduled rental.
 */
module NftProperties {

  import opened Wrappers
  import opened Runtime
  import opened Ledger
  import opened Schedule
  import opened NftTypes
  import opened NftSpec
  import opened NftInvariant

  /** `do_mint` fails only on an existing id; otherwise it adds an unrented, unpriced, unoffered record owned by the caller. */
  lemma MintBehaviour(s: State, lessor: AccountId, id: CollectibleId)
    ensures var r := Mint(s, lessor, id);
            && (r.outcome == Err(DuplicateCollectible) <==> id in s.collectibleMap)
            && (r.outcome.Ok? || r.outcome == Err(DuplicateCollectible))
            && (r.outcome.Ok? || r.state == s)
            && (r.outcome.Ok? ==>
                  && id in r.state.collectibleMap
                  && var c := r.state.collectibleMap[id];
                  && c.uniqueId == id && c.lessor == lessor && c.currentLessee.None?
                  && !c.rentable && c.pricePerBlock.None?
                  && r.state.collectibleMap.Keys == s.collectibleMap.Keys + {id}
                  && (forall other :: other in s.collectibleMap ==> r.state.collectibleMap[other] == s.collectibleMap[other])
                  && r.state.rentalPeriods == s.rentalPeriods && r.state.balances == s.balances)
  {
  }

  /**
   * `set_rentable` checks existence, then the lessor; on success it sets the price and
   * `rentable` and nothing else. It never looks at the lessee.
   */
  lemma SetRentableBehaviour(s: State, sender: AccountId, id: CollectibleId, price: Balance)
    ensures var r := SetRentable(s, sender, id, price);
            && (r.outcome == Err(NoCollectible) <==> id !in s.collectibleMap)
            && (r.outcome == Err(NotLessor) <==> id in s.collectibleMap && s.collectibleMap[id].lessor != sender)
            && (r.outcome.Ok? <==> id in s.collectibleMap && s.collectibleMap[id].lessor == sender)
            && (r.outcome.Ok? || r.state == s)
            && (r.outcome.Ok? ==>
                  var c := s.collectibleMap[id];
                  var c' := r.state.collectibleMap[id];
                  && c'.pricePerBlock == Some(price) && c'.rentable
                  && c'.uniqueId == c.uniqueId && c'.lessor == c.lessor && c'.currentLessee == c.currentLessee
                  && r.state.collectibleMap.Keys == s.collectibleMap.Keys
                  && (forall other :: other in s.collectibleMap && other != id ==> r.state.collectibleMap[other] == s.collectibleMap[other])
                  && r.state.rentalPeriods == s.rentalPeriods && r.state.balances == s.balances)
  {
  }

  /** `set_rentable` succeeds on a rented collectible too: there is no rented check. */
  lemma SetRentableWhileRented(s: State, id: CollectibleId, price: Balance)
    requires id in s.collectibleMap && s.collectibleMap[id].currentLessee.Some?
    ensures var r := SetRentable(s, s.collectibleMap[id].lessor, id, price);
            r.outcome.Ok? && r.state.collectibleMap[id].currentLessee == s.collectibleMap[id].currentLessee
  {
  }

  /** `set_unrentable` checks existence, then the lessor; on success it clears `rentable` and nothing else. */
  lemma SetUnrentableBehaviour(s: State, sender: AccountId, id: CollectibleId)
    ensures var r := SetUnrentable(s, sender, id);
            && (r.outcome == Err(NoCollectible) <==> id !in s.collectibleMap)
            && (r.outcome == Err(NotLessor) <==> id in s.collectibleMap && s.collectibleMap[id].lessor != sender)
            && (r.outcome.Ok? <==> id in s.collectibleMap && s.collectibleMap[id].lessor == sender)
            && (r.outcome.Ok? || r.state == s)
            && (r.outcome.Ok? ==>
                  var c := s.collectibleMap[id];
                  var c' := r.state.collectibleMap[id];
                  && !c'.rentable
                  && c'.uniqueId == c.uniqueId && c'.lessor == c.lessor && c'.currentLessee == c.currentLessee
                  && c'.pricePerBlock == c.pricePerBlock
                  && r.state.collectibleMap.Keys == s.collectibleMap.Keys
                  && (forall other :: other in s.collectibleMap && other != id ==> r.state.collectibleMap[other] == s.collectibleMap[other])
                  && r.state.rentalPeriods == s.rentalPeriods && r.state.balances == s.balances)
  {
  }

  /**
   * `rent` checks, in order: at least three blocks, at most ninety, the collectible exists,
   * the caller is not its lessor, it is not rented, it is rentable. Each check's error is
   * returned exactly when the earlier checks pass and it fails; when all pass the call is
   * `do_rent_collectible`.
   */
  lemma RentChecks(s: State, lessee: AccountId, id: CollectibleId, blocks: nat, recurring: bool)
    ensures var r := Rent(s, lessee, id, blocks, recurring);
            var inRange := MinimumRentalPeriod <= blocks <= MaximumRentalPeriod;
            var exists_ := inRange && id in s.collectibleMap;
            && (r.outcome == Err(RentalPeriodTooShort) <==> blocks < 3)
            && (r.outcome == Err(RentalPeriodTooLong) <==> 3 <= blocks && blocks > 90)
            && (r.outcome == Err(NoCollectible) <==> inRange && id !in s.collectibleMap)
            && (r.outcome == Err(CannotRentOwnCollectible) <==> exists_ && s.collectibleMap[id].lessor == lessee)
            && (exists_ && s.collectibleMap[id].lessor != lessee ==>
                  var c := s.collectibleMap[id];
                  && (c.currentLessee.Some? || !c.rentable ==> r == Reject(s, RentNotAvailable))
                  && (c.currentLessee.None? && c.rentable ==> r == DoRentCollectible(s, id, lessee, blocks, recurring)))
            && r.outcome != Err(AlreadyRented)
  {
    if MinimumRentalPeriod <= blocks <= MaximumRentalPeriod && id in s.collectibleMap {
      var c := s.collectibleMap[id];
      if c.lessor != lessee && c.currentLessee.None? && c.rentable {
        DoRentErrors(s, id, lessee, blocks, recurring);
      }
    }
  }

  /** The only errors `do_rent_collectible` returns: a missing collectible, or a failed transfer. */
  lemma DoRentErrors(s: State, id: CollectibleId, lessee: AccountId, interval: nat, recurring: bool)
    ensures var o := DoRentCollectible(s, id, lessee, interval, recurring).outcome;
            o.Err? ==> (o == Err(NoCollectible) && id !in s.collectibleMap) || o == Err(InsufficientBalance)
  {
  }

  /**
   * `do_rent_collectible` on an existing collectible: it panics exactly when there is no
   * price; the transfer of `price * interval` fails exactly when the lessee holds less; on
   * success the lessor is paid, the lessee recorded, and the rental's configuration appended
   * at the end of the bucket the probe picks, every other bucket unchanged.
   */
  lemma DoRentBehaviour(s: State, id: CollectibleId, lessee: AccountId, interval: nat, recurring: bool)
    requires id in s.collectibleMap
    ensures var r := DoRentCollectible(s, id, lessee, interval, recurring);
            var c := s.collectibleMap[id];
            var cfg := RentalPeriodConfig(id, interval, recurring);
            var target := s.blockNumber + interval;
            && (r.outcome == Halted(Panic) <==> c.pricePerBlock.None?)
            && (r.outcome == Err(InsufficientBalance) <==>
                  c.pricePerBlock.Some? && FreeBalance(s.balances, lessee) < c.pricePerBlock.value * interval)
            && (r.outcome == Halted(Diverge) <==>
                  && c.pricePerBlock.Some? && FreeBalance(s.balances, lessee) >= c.pricePerBlock.value * interval
                  && !HasRoom(s.rentalPeriods, target, s.maximumRentablesPerBlock)
                  && !HasRoom(s.rentalPeriods, s.blockNumber + 1, s.maximumRentablesPerBlock))
            && (r.outcome.Ok? || r.state == s)
            && (r.outcome.Ok? ==>
                  var total := c.pricePerBlock.value * interval;
                  var t := if HasRoom(s.rentalPeriods, target, s.maximumRentablesPerBlock) then target else s.blockNumber + 1;
                  && (lessee != c.lessor ==>
                        && FreeBalance(r.state.balances, lessee) == FreeBalance(s.balances, lessee) - total
                        && FreeBalance(r.state.balances, c.lessor) == FreeBalance(s.balances, c.lessor) + total)
                  && (forall a :: a != lessee && a != c.lessor ==> FreeBalance(r.state.balances, a) == FreeBalance(s.balances, a))
                  && r.state.collectibleMap == s.collectibleMap[id := c.(currentLessee := Some(lessee))]
                  && Bucket(r.state.rentalPeriods, t) == Bucket(s.rentalPeriods, t) + [cfg]
                  && (forall u :: u != t ==> Bucket(r.state.rentalPeriods, u) == Bucket(s.rentalPeriods, u))
                  && r.state.blockNumber == s.blockNumber)
  {
  }

  /** In consistent storage `rent` never panics: a rentable collectible always has a price. */
  lemma RentNeverPanics(s: State, lessee: AccountId, id: CollectibleId, blocks: nat, recurring: bool)
    requires PricedWhenRentable(s.collectibleMap)
    ensures Rent(s, lessee, id, blocks, recurring).outcome != Halted(Panic)
  {
  }

  /** `insert_rental_period` appends at the bucket `now + interval` when it has room, else at `now + 1`, and nowhere else. */
  lemma InsertRentalPeriodBehaviour(s: State, cfg: RentalPeriodConfig)
    ensures var now := s.blockNumber;
            var target := now + cfg.rentalPeriodicInterval;
            var cap := s.maximumRentablesPerBlock;
            && (InsertionBlock(s, cfg) == Some(target) <==> HasRoom(s.rentalPeriods, target, cap))
            && (InsertionBlock(s, cfg) == Some(now + 1) <==>
                  HasRoom(s.rentalPeriods, now + 1, cap) && (target == now + 1 || !HasRoom(s.rentalPeriods, target, cap)))
            && (InsertionBlock(s, cfg).Some? ==>
                  var t := InsertionBlock(s, cfg).value;
                  && Bucket(Insert(s, t, cfg).rentalPeriods, t) == Bucket(s.rentalPeriods, t) + [cfg]
                  && (forall u :: u != t ==> Bucket(Insert(s, t, cfg).rentalPeriods, u) == Bucket(s.rentalPeriods, u)))
  {
  }

  /**
   * One iteration of the sweep, completely classified: it panics when the record or its
   * lessee is missing, or on a renewal with no price or a lessee who cannot pay one block's
   * price; it ends a withdrawn or non-recurring rental by clearing the lessee and nothing
   * else; otherwise the lessee pays one block's price, not the interval's, and the same
   * configuration is scheduled again at the end of the bucket the probe picks.
   */
  lemma ProcessRentalBehaviour(s: State, cfg: RentalPeriodConfig)
    ensures var r := ProcessRental(s, cfg);
            var id := cfg.collectible;
            var found := id in s.collectibleMap && s.collectibleMap[id].currentLessee.Some?;
            var ends := found && (!s.collectibleMap[id].rentable || !cfg.recurring);
            var renews := found && !ends;
            && (r.Swept? && r.outcome == RentalEnded <==> ends)
            && (ends ==> r.state == s.(collectibleMap := s.collectibleMap[id := s.collectibleMap[id].(currentLessee := None)]))
            && (r == Stopped(Panic) <==>
                  !found ||
                  (renews && (s.collectibleMap[id].pricePerBlock.None? ||
                              FreeBalance(s.balances, s.collectibleMap[id].currentLessee.value) < s.collectibleMap[id].pricePerBlock.value)))
            && (r == Stopped(Diverge) <==>
                  && renews && s.collectibleMap[id].pricePerBlock.Some?
                  && FreeBalance(s.balances, s.collectibleMap[id].currentLessee.value) >= s.collectibleMap[id].pricePerBlock.value
                  && !HasRoom(s.rentalPeriods, s.blockNumber + cfg.rentalPeriodicInterval, s.maximumRentablesPerBlock)
                  && !HasRoom(s.rentalPeriods, s.blockNumber + 1, s.maximumRentablesPerBlock))
            && (r.Swept? && r.outcome.Renewed? ==>
                  var c := s.collectibleMap[id];
                  var l := c.currentLessee.value;
                  var price := c.pricePerBlock.value;
                  var t := r.outcome.nextRentBlock;
                  && renews && c.pricePerBlock.Some? && FreeBalance(s.balances, l) >= price
                  && (t == s.blockNumber + cfg.rentalPeriodicInterval || t == s.blockNumber + 1)
                  && (l != c.lessor ==>
                        && FreeBalance(r.state.balances, l) == FreeBalance(s.balances, l) - price
                        && FreeBalance(r.state.balances, c.lessor) == FreeBalance(s.balances, c.lessor) + price)
                  && (forall a :: a != l && a != c.lessor ==> FreeBalance(r.state.balances, a) == FreeBalance(s.balances, a))
                  && Bucket(r.state.rentalPeriods, t) == Bucket(s.rentalPeriods, t) + [cfg]
                  && (forall u :: u != t ==> Bucket(r.state.rentalPeriods, u) == Bucket(s.rentalPeriods, u))
                  && r.state.collectibleMap == s.collectibleMap
                  && r.state.blockNumber == s.blockNumber)
            && (r.Stopped? ==> r == Stopped(Panic) || r == Stopped(Diverge))
  {
    var id := cfg.collectible;
    if id in s.collectibleMap {
      var c := s.collectibleMap[id];
      if c.currentLessee.Some? && c.rentable && cfg.recurring && c.pricePerBlock.Some? {
        var l := c.currentLessee.value;
        if FreeBalance(s.balances, l) >= c.pricePerBlock.value {
          var s1 := s.(balances := Transfer(s.balances, l, c.lessor, c.pricePerBlock.value));
          if InsertionBlock(s1, cfg).Some? {
            ProbeLands(s1.rentalPeriods, s1.blockNumber, cfg.rentalPeriodicInterval + s1.blockNumber, s1.maximumRentablesPerBlock);
          }
        }
      }
    }
  }

  /** The loop over one more rental is the loop so far, then that rental's step. */
  lemma ProcessRentalsSnoc(s: State, rentals: seq<RentalPeriodConfig>, i: nat)
    requires i < |rentals|
    ensures ProcessRentals(s, rentals[..i + 1]) ==
              match ProcessRentals(s, rentals[..i])
              case Aborted(h) => Aborted(h)
              case Completed(s1, outcomes) =>
                match ProcessRental(s1, rentals[i])
                case Stopped(h) => Aborted(h)
                case Swept(s2, o) => Completed(s2, outcomes + [o])
  {
    assert rentals[..i + 1][..i] == rentals[..i];
    assert rentals[..i + 1][i] == rentals[i];
  }

  /** Once a rental halts the loop, the whole sweep halts the same way: no later rental is settled. */
  lemma {:induction false} ProcessRentalsHaltStops(s: State, rentals: seq<RentalPeriodConfig>, j: nat)
    requires j <= |rentals| && ProcessRentals(s, rentals[..j]).Aborted?
    ensures ProcessRentals(s, rentals) == ProcessRentals(s, rentals[..j])
    decreases |rentals|
  {
    if j == |rentals| {
      assert rentals[..j] == rentals;
    } else {
      var front := rentals[..|rentals| - 1];
      assert front[..j] == rentals[..j];
      ProcessRentalsHaltStops(s, front, j);
    }
  }

  /**
   * On consistent storage the sweep of block `n` panics exactly when, in order, it reaches a
   * renewal whose lessee cannot pay one block's price.
   */
  lemma SweepPanicsIffCannotPay(s: State, n: BlockNumber)
    requires Consistent(s)
    ensures var rentals := Bucket(s.rentalPeriods, n);
            ProcessRentalPeriods(s, n) == Aborted(Panic) <==> exists k :: 0 <= k < |rentals| && CannotPay(s, rentals, k)
  {
    var rentals := Bucket(s.rentalPeriods, n);
    SweepKeepsConsistent(s, n);
    if k :| 0 <= k < |rentals| && CannotPay(s, rentals, k) {
      assert rentals[..k + 1][..k] == rentals[..k];
      assert rentals[..k + 1][k] == rentals[k];
      assert ProcessRentals(s, rentals[..k + 1]) == Aborted(Panic);
      ProcessRentalsHaltStops(s, rentals, k + 1);
    }
  }
}
