/**
 * What each call of the rent pallet does: the order of its error checks, the storage it
 * writes on success and the storage it leaves alone, and the scenarios of the pallet's tests.
 */
module RentProperties {

  import opened Wrappers
  import opened Runtime
  import opened Ledger
  import opened Bounded
  import opened Schedule
  import opened RentTypes
  import opened RentSpec
  import opened RentInvariant

  /** The two states agree on everything but the collectibles, the owned lists and the equip lists. */
  predicate SameRentalState(s: State, s': State)
  {
    && s'.lesseeCollectibles == s.lesseeCollectibles
    && s'.pendingRentals == s.pendingRentals
    && s'.balances == s.balances
    && s'.blockNumber == s.blockNumber
    && s'.maximumOwned == s.maximumOwned
    && s'.maximumRentablesPerBlock == s.maximumRentablesPerBlock
  }

  // ---------------------------------------------------------------------------
  // mint

  lemma MintBehaviour(s: State, lessor: AccountId, id: CollectibleId)
    ensures var r := Mint(s, lessor, id);
            && (r.outcome == Err(DuplicateCollectible) <==> id in s.collectibles)
            && (r.outcome == Err(TooManyCollectiblesOwned) <==>
                  id !in s.collectibles && |GetOrEmpty(s.lessorCollectibles, lessor)| >= s.maximumOwned)
            && (r.outcome.Ok? || r.state == s)
            && (r.outcome.Ok? ==>
                  && r.state.collectibles == s.collectibles[id := r.state.collectibles[id]]
                  && var c := r.state.collectibles[id];
                  && c.uniqueId == id && c.lessor == lessor && c.lessee.None? && !c.rentable
                  && c.pricePerBlock.None? && c.minimumRentalPeriod.None? && c.maximumRentalPeriod.None?
                  && GetOrEmpty(r.state.lessorCollectibles, lessor) == GetOrEmpty(s.lessorCollectibles, lessor) + [id]
                  && (forall a :: a != lessor ==> GetOrEmpty(r.state.lessorCollectibles, a) == GetOrEmpty(s.lessorCollectibles, a))
                  && r.state.accountEquips == s.accountEquips
                  && r.state.rentableCollectibles == s.rentableCollectibles
                  && SameRentalState(s, r.state))
  {
  }

  // ---------------------------------------------------------------------------
  // burn

  lemma BurnBehaviour(s: State, sender: AccountId, id: CollectibleId)
    requires KeysMatch(s)
    ensures var r := Burn(s, sender, id);
            && (r.outcome == Err(NoCollectible) <==> id !in s.collectibles)
            && (r.outcome == Err(NotLessor) <==> id in s.collectibles && s.collectibles[id].lessor != sender)
            && (r.outcome == Err(NotAllowedWhileRented) <==>
                  id in s.collectibles && s.collectibles[id].lessor == sender && s.collectibles[id].lessee.Some?)
            && (r.outcome.Ok? || r.state == s)
            && (r.outcome.Ok? ==>
                  && r.state.collectibles == s.collectibles - {id}
                  && id !in GetOrEmpty(r.state.lessorCollectibles, sender)
                  && GetOrEmpty(r.state.lessorCollectibles, sender) == RemoveAll(GetOrEmpty(s.lessorCollectibles, sender), id)
                  && (forall a :: a != sender ==> GetOrEmpty(r.state.lessorCollectibles, a) == GetOrEmpty(s.lessorCollectibles, a))
                  && id !in GetOrEmpty(r.state.accountEquips, sender)
                  && GetOrEmpty(r.state.accountEquips, sender) == RemoveAll(GetOrEmpty(s.accountEquips, sender), id)
                  && (forall a :: a != sender ==> GetOrEmpty(r.state.accountEquips, a) == GetOrEmpty(s.accountEquips, a))
                  && r.state.rentableCollectibles == s.rentableCollectibles
                  && SameRentalState(s, r.state))
  {
    if id in s.collectibles {
      assert s.collectibles[id].uniqueId == id;
    }
  }

  // ---------------------------------------------------------------------------
  // set_rentable, set_unrentable, set_recurring

  lemma SetRentableBehaviour(s: State, sender: AccountId, id: CollectibleId, price: Balance, minimum: nat, maximum: nat)
    requires KeysMatch(s)
    ensures var r := SetRentable(s, sender, id, price, minimum, maximum);
            && (r.outcome == Err(NoCollectible) <==> id !in s.collectibles)
            && (r.outcome == Err(NotLessor) <==> id in s.collectibles && s.collectibles[id].lessor != sender)
            && (r.outcome == Err(MinimumMustBeLessThanMaximum) <==>
                  id in s.collectibles && s.collectibles[id].lessor == sender && minimum > maximum)
            && (r.outcome == Err(NotAllowedWhileRented) <==>
                  id in s.collectibles && s.collectibles[id].lessor == sender && minimum <= maximum
                  && s.collectibles[id].lessee.Some?)
            && (r.outcome == Err(TooManyCollectibles) <==>
                  id in s.collectibles && s.collectibles[id].lessor == sender && minimum <= maximum
                  && s.collectibles[id].lessee.None? && |s.rentableCollectibles| >= s.maximumOwned)
            && (r.outcome.Ok? || r.state == s)
            && (r.outcome.Ok? ==>
                  && r.state.collectibles == s.collectibles[id := s.collectibles[id].(
                       pricePerBlock := Some(price), rentable := true,
                       minimumRentalPeriod := Some(minimum), maximumRentalPeriod := Some(maximum))]
                  && r.state.rentableCollectibles == s.rentableCollectibles + [id]
                  && GetOrEmpty(r.state.accountEquips, sender) == RemoveAll(GetOrEmpty(s.accountEquips, sender), id)
                  && id !in GetOrEmpty(r.state.accountEquips, sender)
                  && (forall a :: a != sender ==> GetOrEmpty(r.state.accountEquips, a) == GetOrEmpty(s.accountEquips, a))
                  && r.state.lessorCollectibles == s.lessorCollectibles
                  && SameRentalState(s, r.state))
  {
    if id in s.collectibles {
      assert s.collectibles[id].uniqueId == id;
    }
  }

  lemma SetUnrentableBehaviour(s: State, sender: AccountId, id: CollectibleId)
    ensures var r := SetUnrentable(s, sender, id);
            && (r.outcome == Err(NoCollectible) <==> id !in s.collectibles)
            && (r.outcome == Err(NotLessor) <==> id in s.collectibles && s.collectibles[id].lessor != sender)
            && (r.outcome.Ok? || r.state == s)
            && (r.outcome.Ok? ==>
                  && r.state.collectibles == s.collectibles[id := s.collectibles[id].(rentable := false)]
                  && id !in r.state.rentableCollectibles
                  && r.state.rentableCollectibles == RemoveAll(s.rentableCollectibles, id)
                  && r.state.accountEquips == s.accountEquips
                  && r.state.lessorCollectibles == s.lessorCollectibles
                  && SameRentalState(s, r.state))
  {
  }

  /** An active rental survives `set_unrentable`: it ends at its next due block instead. */
  lemma SetUnrentableKeepsLessee(s: State, sender: AccountId, id: CollectibleId)
    requires SetUnrentable(s, sender, id).outcome.Ok?
    ensures SetUnrentable(s, sender, id).state.collectibles[id].lessee == s.collectibles[id].lessee
    ensures !SetUnrentable(s, sender, id).state.collectibles[id].rentable
  {
  }

  lemma SetRecurringBehaviour(s: State, sender: AccountId, id: CollectibleId, recurring: bool)
    ensures var r := SetRecurring(s, sender, id, recurring);
            && (r.outcome == Err(NoCollectible) <==>
                  id !in s.collectibles ||
                  (s.collectibles[id].lessee == Some(sender) && (sender, id) !in s.lesseeCollectibles))
            && (r.outcome == Err(NotLessor) <==> id in s.collectibles && s.collectibles[id].lessee != Some(sender))
            && (r.outcome.Ok? || r.state == s)
            && (r.outcome.Ok? ==>
                  && var cfg := s.lesseeCollectibles[(sender, id)];
                  && r.state.lesseeCollectibles == s.lesseeCollectibles[(sender, id) := cfg.(recurring := recurring)]
                  && r.state == s.(lesseeCollectibles := r.state.lesseeCollectibles))
  {
  }

  // ---------------------------------------------------------------------------
  // rent

  /** The checks of `rent`, in the order the source makes them. */
  lemma RentChecks(s: State, lessee: AccountId, id: CollectibleId, blocks: nat, recurring: bool)
    ensures var r := Rent(s, lessee, id, blocks, recurring);
            && (r.outcome == Err(NoCollectible) <==> id !in s.collectibles)
            && (id in s.collectibles ==>
                  var c := s.collectibles[id];
                  var short := c.minimumRentalPeriod.Some? && blocks < c.minimumRentalPeriod.value;
                  var long := c.maximumRentalPeriod.Some? && blocks > c.maximumRentalPeriod.value;
                  && (r.outcome == Err(RentalPeriodTooShort) <==> short)
                  && (r.outcome == Err(RentalPeriodTooLong) <==> !short && long)
                  && (r.outcome == Err(CannotRentOwnCollectible) <==> !short && !long && c.lessor == lessee)
                  && (r.outcome == Err(RentNotAvailable) <==> !short && !long && c.lessor != lessee && c.lessee.Some?)
                  && r.outcome != Err(AlreadyRented)
                  && (!short && !long && c.lessor != lessee && c.lessee.None? ==>
                        r == DoRentCollectible(s, id, lessee, blocks, recurring)))
            && (r.outcome.Ok? || r.outcome.Halted? || r.state == s)
  {
  }

  /**
   * `do_rent_collectible` charges `price * blocks` up front, or leaves storage alone when the
   * lessee cannot pay; on success the collectible is rented by the caller and the agreement
   * records the bucket the obligation was appended to.
   */
  lemma DoRentBehaviour(s: State, id: CollectibleId, lessee: AccountId, blocks: nat, recurring: bool)
    requires id in s.collectibles
    ensures var r := DoRentCollectible(s, id, lessee, blocks, recurring);
            var c := s.collectibles[id];
            && (r.outcome == Halted(Panic) <==> c.pricePerBlock.None?)
            && (r.outcome == Err(NotEnoughBalance) <==>
                  c.pricePerBlock.Some? && FreeBalance(s.balances, lessee) < c.pricePerBlock.value * blocks)
            && (r.outcome == Halted(Diverge) <==>
                  && c.pricePerBlock.Some? && FreeBalance(s.balances, lessee) >= c.pricePerBlock.value * blocks
                  && !HasRoom(s.pendingRentals, s.blockNumber + blocks, s.maximumRentablesPerBlock)
                  && !HasRoom(s.pendingRentals, s.blockNumber + 1, s.maximumRentablesPerBlock))
            && (r.outcome.Ok? || r.state == s)
            && (r.outcome.Ok? ==>
                  var total := c.pricePerBlock.value * blocks;
                  var cfg := r.state.lesseeCollectibles[(lessee, id)];
                  && (lessee != c.lessor ==>
                        && FreeBalance(r.state.balances, lessee) == FreeBalance(s.balances, lessee) - total
                        && FreeBalance(r.state.balances, c.lessor) == FreeBalance(s.balances, c.lessor) + total)
                  && (forall a :: a != lessee && a != c.lessor ==> FreeBalance(r.state.balances, a) == FreeBalance(s.balances, a))
                  && r.state.lessorCollectibles == s.lessorCollectibles
                  && r.state.rentableCollectibles == s.rentableCollectibles
                  && r.state.collectibles == s.collectibles[id := c.(lessee := Some(lessee))]
                  && r.state.lesseeCollectibles == s.lesseeCollectibles[(lessee, id) := cfg]
                  && cfg.rentalPeriodicInterval == blocks && cfg.recurring == recurring
                  && cfg == RentalPeriodConfig(blocks, Probe(s.pendingRentals, s.blockNumber, s.blockNumber + blocks, s.maximumRentablesPerBlock).value, recurring)
                  && Bucket(r.state.pendingRentals, cfg.nextRentBlock) == Bucket(s.pendingRentals, cfg.nextRentBlock) + [(id, lessee)]
                  && (forall t :: t != cfg.nextRentBlock ==> Bucket(r.state.pendingRentals, t) == Bucket(s.pendingRentals, t))
                  && r.state.accountEquips == s.accountEquips
                  && r.state.blockNumber == s.blockNumber)
  {
  }

  /** `rent` does not look at `rentable`: a collectible that is not for rent but has a price can be rented. */
  lemma RentIgnoresRentable(s: State, lessee: AccountId, id: CollectibleId, blocks: nat, recurring: bool, rentable: bool)
    requires id in s.collectibles
    ensures var s' := s.(collectibles := s.collectibles[id := s.collectibles[id].(rentable := rentable)]);
            Rent(s', lessee, id, blocks, recurring).outcome == Rent(s, lessee, id, blocks, recurring).outcome
  {
  }

  /** In consistent storage `rent` panics only on a collectible that was never given a price. */
  lemma RentPanicsOnlyWithoutPrice(s: State, lessee: AccountId, id: CollectibleId, blocks: nat, recurring: bool)
    requires AllWellPriced(s) && Rent(s, lessee, id, blocks, recurring).outcome == Halted(Panic)
    ensures id in s.collectibles && s.collectibles[id].pricePerBlock.None? && !s.collectibles[id].rentable
  {
  }

  // ---------------------------------------------------------------------------
  // extend_rent

  /**
   * The checks of `do_extend_rent` for a rented collectible with its agreement, a price and
   * a maximum period: the bound is measured from block 0; both factors of the price must fit
   * `u32`; the lessee must hold the price; and the call halts only when the probe finds both
   * of its buckets full once the old obligation has left its bucket.
   */
  lemma DoExtendRentChecks(s: State, c: Collectible, blocks: nat)
    requires c.lessee.Some? && (c.lessee.value, c.uniqueId) in s.lesseeCollectibles
    requires c.pricePerBlock.Some? && c.maximumRentalPeriod.Some?
    ensures var r := DoExtendRent(s, c, blocks);
            var lessee := c.lessee.value;
            var id := c.uniqueId;
            var due := s.lesseeCollectibles[(lessee, id)].nextRentBlock;
            var price := c.pricePerBlock.value;
            var within := blocks + due <= c.maximumRentalPeriod.value;
            var fits := blocks <= U32_MAX && price <= U32_MAX;
            var pays := FreeBalance(s.balances, lessee) >= blocks * price;
            var p := s.pendingRentals[due := RemoveCollectible(Bucket(s.pendingRentals, due), id)];
            var room := HasRoom(p, due + blocks, s.maximumRentablesPerBlock) ||
                        HasRoom(p, s.blockNumber + 1, s.maximumRentablesPerBlock);
            && (r.outcome == Err(RentalPeriodTooLong) <==> !within)
            && (r.outcome == Halted(Panic) <==> within && !fits)
            && (r.outcome == Err(NotEnoughBalance) <==> within && fits && !pays)
            && (r.outcome == Halted(Diverge) <==> within && fits && pays && !room)
            && (r.outcome.Ok? <==> within && fits && pays && room)
            && (r.outcome.Ok? || r.state == s)
  {
  }

  /**
   * The checks of `extend_rent` on consistent storage, where a rented collectible always has
   * its agreement, a price and a maximum period, so `do_extend_rent`'s checks follow.
   */
  lemma ExtendRentChecks(s: State, sender: AccountId, id: CollectibleId, blocks: nat)
    requires Consistent(s)
    ensures var r := ExtendRent(s, sender, id, blocks);
            && (r.outcome == Err(NoCollectible) <==> id !in s.collectibles)
            && (r.outcome == Err(NotLessor) <==> id in s.collectibles && s.collectibles[id].lessee != Some(sender))
            && (r.outcome.Ok? || r.state == s)
    ensures id in s.collectibles && s.collectibles[id].lessee == Some(sender) ==>
              var c := s.collectibles[id];
              && c.uniqueId == id && (sender, id) in s.lesseeCollectibles
              && c.pricePerBlock.Some? && c.maximumRentalPeriod.Some?
              && ExtendRent(s, sender, id, blocks) == DoExtendRent(s, c, blocks)
  {
    if id in s.collectibles {
      var c := s.collectibles[id];
      assert c.uniqueId == id;
      assert WellPriced(c);
      if c.lessee == Some(sender) {
        DoExtendRentChecks(s, c, blocks);
      }
    }
  }

  /** Removing a collectible's entries from a concatenation removes them from each part: the rest keep their order. */
  lemma {:induction false} RemoveCollectibleAppend(a: seq<PendingRental>, b: seq<PendingRental>, id: CollectibleId)
    ensures RemoveCollectible(a + b, id) == RemoveCollectible(a, id) + RemoveCollectible(b, id)
  {
    if a == [] {
      assert a + b == b;
    } else {
      assert (a + b)[0] == a[0];
      assert (a + b)[1..] == a[1..] + b;
      RemoveCollectibleAppend(a[1..], b, id);
    }
  }

  /** Every other entry stays in the bucket as often as it was there: only this collectible's entries are dropped. */
  lemma {:induction false} RemoveCollectibleKeepsOthers(bucket: seq<PendingRental>, id: CollectibleId)
    ensures forall e: PendingRental :: e.0 != id ==> multiset(RemoveCollectible(bucket, id))[e] == multiset(bucket)[e]
    ensures forall e: PendingRental :: e.0 == id ==> multiset(RemoveCollectible(bucket, id))[e] == 0
  {
    if bucket != [] {
      RemoveCollectibleKeepsOthers(bucket[1..], id);
      assert bucket == [bucket[0]] + bucket[1..];
      assert multiset(bucket) == multiset([bucket[0]]) + multiset(bucket[1..]);
    }
  }

  /** A bucket without the collectible is written back as it was. */
  lemma {:induction false} RemoveCollectibleAbsent(bucket: seq<PendingRental>, id: CollectibleId)
    requires forall e :: e in bucket ==> e.0 != id
    ensures RemoveCollectible(bucket, id) == bucket
  {
    if bucket != [] {
      RemoveCollectibleAbsent(bucket[1..], id);
      assert bucket == [bucket[0]] + bucket[1..];
    }
  }

  /** What a successful `do_extend_rent` pays and records: the agreement moves its due block only. */
  lemma DoExtendRentCharges(s: State, c: Collectible, blocks: nat)
    requires DoExtendRent(s, c, blocks).outcome.Ok?
    ensures var r := DoExtendRent(s, c, blocks).state;
            var l := c.lessee.value;
            var old_cfg := s.lesseeCollectibles[(l, c.uniqueId)];
            var cfg := r.lesseeCollectibles[(l, c.uniqueId)];
            var total := blocks * c.pricePerBlock.value;
            && blocks + old_cfg.nextRentBlock <= c.maximumRentalPeriod.value
            && blocks <= U32_MAX && c.pricePerBlock.value <= U32_MAX
            && (l != c.lessor ==>
                  && FreeBalance(r.balances, l) == FreeBalance(s.balances, l) - total
                  && FreeBalance(r.balances, c.lessor) == FreeBalance(s.balances, c.lessor) + total)
            && r.lesseeCollectibles == s.lesseeCollectibles[(l, c.uniqueId) := old_cfg.(nextRentBlock := cfg.nextRentBlock)]
            && cfg.rentalPeriodicInterval == old_cfg.rentalPeriodicInterval && cfg.recurring == old_cfg.recurring
            && (cfg.nextRentBlock == old_cfg.nextRentBlock + blocks || cfg.nextRentBlock == s.blockNumber + 1)
            && (forall a :: a != l && a != c.lessor ==> FreeBalance(r.balances, a) == FreeBalance(s.balances, a))
            && r.collectibles == s.collectibles && r.accountEquips == s.accountEquips && r.blockNumber == s.blockNumber
            && r.lessorCollectibles == s.lessorCollectibles && r.rentableCollectibles == s.rentableCollectibles
  {
    var l := c.lessee.value;
    var cfg := s.lesseeCollectibles[(l, c.uniqueId)];
    var next := DoExtendRentShape(s, c, blocks);
    ProbeLands(AfterDetach(s, c, blocks).pendingRentals, s.blockNumber, cfg.nextRentBlock + blocks, s.maximumRentablesPerBlock);
  }

  /** The storage a successful `do_extend_rent` probes: the payment made and the old obligation removed. */
  ghost function AfterDetach(s: State, c: Collectible, blocks: nat): State
    requires c.lessee.Some? && (c.lessee.value, c.uniqueId) in s.lesseeCollectibles && c.pricePerBlock.Some?
    requires CanTransfer(s.balances, c.lessee.value, blocks * c.pricePerBlock.value)
  {
    var l := c.lessee.value;
    var due := s.lesseeCollectibles[(l, c.uniqueId)].nextRentBlock;
    var s1 := s.(balances := Transfer(s.balances, l, c.lessor, blocks * c.pricePerBlock.value));
    s1.(pendingRentals := s1.pendingRentals[due := RemoveCollectible(Bucket(s1.pendingRentals, due), c.uniqueId)])
  }

  /** A successful `do_extend_rent` passed every guard and enqueued at the block its probe found. */
  lemma DoExtendRentShape(s: State, c: Collectible, blocks: nat) returns (next: BlockNumber)
    requires DoExtendRent(s, c, blocks).outcome.Ok?
    ensures c.lessee.Some? && (c.lessee.value, c.uniqueId) in s.lesseeCollectibles
    ensures c.maximumRentalPeriod.Some? && c.pricePerBlock.Some?
    ensures blocks + s.lesseeCollectibles[(c.lessee.value, c.uniqueId)].nextRentBlock <= c.maximumRentalPeriod.value
    ensures blocks <= U32_MAX && c.pricePerBlock.value <= U32_MAX
    ensures CanTransfer(s.balances, c.lessee.value, blocks * c.pricePerBlock.value)
    ensures var s2 := AfterDetach(s, c, blocks);
            var key := (c.lessee.value, c.uniqueId);
            && ProbeFor(s2, Some(s.lesseeCollectibles[key].nextRentBlock), blocks) == Some(next)
            && DoExtendRent(s, c, blocks).state ==
                 Enqueue(s2, next, (c.uniqueId, c.lessee.value)).(lesseeCollectibles := s.lesseeCollectibles[key := s.lesseeCollectibles[key].(nextRentBlock := next)])
  {
    var l := c.lessee.value;
    var due := s.lesseeCollectibles[(l, c.uniqueId)].nextRentBlock;
    next := ProbeFor(AfterDetach(s, c, blocks), Some(due), blocks).value;
  }

  /**
   * Where a successful `do_extend_rent` leaves the obligation: every entry of the collectible
   * is gone from the old due bucket, whoever its lessee, and one entry is appended to the new
   * due bucket; no other bucket changes.
   */
  lemma DoExtendRentMoves(s: State, c: Collectible, blocks: nat)
    requires DoExtendRent(s, c, blocks).outcome.Ok?
    ensures var r := DoExtendRent(s, c, blocks).state;
            var l := c.lessee.value;
            var id := c.uniqueId;
            var due := s.lesseeCollectibles[(l, id)].nextRentBlock;
            var next := r.lesseeCollectibles[(l, id)].nextRentBlock;
            && (next != due ==>
                  && Bucket(r.pendingRentals, due) == RemoveCollectible(Bucket(s.pendingRentals, due), id)
                  && (forall x :: x in Bucket(r.pendingRentals, due) ==> x.0 != id)
                  && Bucket(r.pendingRentals, next) == Bucket(s.pendingRentals, next) + [(id, l)])
            && (next == due ==>
                  Bucket(r.pendingRentals, due) == RemoveCollectible(Bucket(s.pendingRentals, due), id) + [(id, l)])
            && (forall t :: t != due && t != next ==> Bucket(r.pendingRentals, t) == Bucket(s.pendingRentals, t))
  {
    var l := c.lessee.value;
    var id := c.uniqueId;
    var cfg := s.lesseeCollectibles[(l, id)];
    var due := cfg.nextRentBlock;
    var s1 := s.(balances := Transfer(s.balances, l, c.lessor, blocks * c.pricePerBlock.value));
    var p2 := s1.pendingRentals[due := RemoveCollectible(Bucket(s1.pendingRentals, due), id)];
    var s2 := s1.(pendingRentals := p2);
    var next := ProbeFor(s2, Some(due), blocks).value;
    var r := DoExtendRent(s, c, blocks).state;
    assert r.pendingRentals == Append(p2, next, (id, l));
    assert r.lesseeCollectibles[(l, id)].nextRentBlock == next;
    assert Bucket(p2, due) == RemoveCollectible(Bucket(s.pendingRentals, due), id);
    assert forall t :: t != due ==> Bucket(p2, t) == Bucket(s.pendingRentals, t);
  }

  /** `extend_rent` succeeds only for the current lessee, through `do_extend_rent`. */
  lemma ExtendRentIsDoExtendRent(s: State, sender: AccountId, id: CollectibleId, blocks: nat)
    requires KeysMatch(s)
    requires ExtendRent(s, sender, id, blocks).outcome.Ok?
    ensures id in s.collectibles && s.collectibles[id].lessee == Some(sender) && s.collectibles[id].uniqueId == id
    ensures ExtendRent(s, sender, id, blocks) == DoExtendRent(s, s.collectibles[id], blocks)
  {
  }

  // ---------------------------------------------------------------------------
  // equip_collectible, unequip_collectible

  lemma EquipBehaviour(s: State, sender: AccountId, id: CollectibleId)
    ensures var r := Equip(s, sender, id);
            && (r.outcome.Ok? || r.state == s)
            && (id !in s.collectibles <==> r.outcome == Err(NoCollectible))
            && (id in s.collectibles ==>
                  var c := s.collectibles[id];
                  var holder := if c.lessor == sender then Some(sender) else c.lessee;
                  && (r.outcome == Err(NotAllowedWhileRented) <==> c.lessor == sender && c.rentable)
                  && (r.outcome == Err(NotLessee) <==> c.lessor != sender && c.lessee.Some? && c.lessee != Some(sender))
                  && (r.outcome == Err(NoAccountFoundForCollectible) <==> c.lessor != sender && c.lessee.None?)
                  && (r.outcome == Err(TooManyCollectiblesEquiped) <==>
                        (c.lessor == sender ==> !c.rentable) && holder == Some(sender)
                        && |GetOrEmpty(s.accountEquips, sender)| >= s.maximumOwned)
                  && (r.outcome.Ok? ==>
                        && holder == Some(sender)
                        && r.state == s.(accountEquips := s.accountEquips[sender := GetOrEmpty(s.accountEquips, sender) + [id]])))
  {
  }

  /** The lessor of a collectible that is rented out but no longer rentable may equip it too. */
  lemma LessorEquipsRentedAfterUnrentable(s: State, lessor: AccountId, id: CollectibleId)
    requires id in s.collectibles && s.collectibles[id].lessor == lessor && s.collectibles[id].lessee.Some?
    requires SetUnrentable(s, lessor, id).outcome.Ok?
    requires |GetOrEmpty(s.accountEquips, lessor)| < s.maximumOwned
    ensures Equip(SetUnrentable(s, lessor, id).state, lessor, id).outcome.Ok?
  {
  }

  /** Any caller may unequip any existing collectible from its own list; doing it twice is doing it once. */
  lemma UnequipBehaviour(s: State, sender: AccountId, id: CollectibleId)
    requires KeysMatch(s)
    ensures var r := UnequipCollectible(s, sender, id);
            && (r.outcome == Err(NoCollectible) <==> id !in s.collectibles)
            && (r.outcome.Ok? || r.state == s)
            && (r.outcome.Ok? ==>
                  && r.state == s.(accountEquips := s.accountEquips[sender := RemoveAll(GetOrEmpty(s.accountEquips, sender), id)])
                  && id !in GetOrEmpty(r.state.accountEquips, sender)
                  && UnequipCollectible(r.state, sender, id) == r)
  {
    if id in s.collectibles {
      assert s.collectibles[id].uniqueId == id;
      var once := RemoveAll(GetOrEmpty(s.accountEquips, sender), id);
      RemoveAllIdempotent(GetOrEmpty(s.accountEquips, sender), id);
      var s1 := UnequipCollectible(s, sender, id).state;
      assert GetOrEmpty(s1.accountEquips, sender) == once;
      assert s1.accountEquips[sender := RemoveAll(once, id)] == s1.accountEquips;
    }
  }

  // ---------------------------------------------------------------------------
  // The per-block sweep

  /**
   * The three ways one obligation is settled: the rental ends when the collectible is not
   * rentable, has no lessee or is not recurring; it ends with a failed payment when the
   * lessee cannot pay `price * interval`; otherwise it is paid and rescheduled.
   */
  lemma ProcessRentalBehaviour(s: State, e: PendingRental)
    requires (e.1, e.0) in s.lesseeCollectibles && e.0 in s.collectibles
    ensures var r := ProcessRental(s, e);
            var (id, l) := e;
            var c := s.collectibles[id];
            var cfg := s.lesseeCollectibles[(l, id)];
            var ends := !c.rentable || c.lessee.None? || !cfg.recurring;
            var total := (if c.pricePerBlock.Some? then c.pricePerBlock.value else 0) * cfg.rentalPeriodicInterval;
            && (r == Swept(RemoveLessee(s, l, c), RentalEnded) <==> ends)
            && (r == Stopped(Panic) <==> !ends && c.pricePerBlock.None?)
            && (r == Swept(RemoveLessee(s, l, c), PaymentFailed) <==>
                  !ends && c.pricePerBlock.Some? && FreeBalance(s.balances, l) < total)
            && (r == Stopped(Diverge) <==>
                  && !ends && c.pricePerBlock.Some? && FreeBalance(s.balances, l) >= total
                  && !HasRoom(s.pendingRentals, s.blockNumber + cfg.rentalPeriodicInterval, s.maximumRentablesPerBlock)
                  && !HasRoom(s.pendingRentals, s.blockNumber + 1, s.maximumRentablesPerBlock))
            && (r.Swept? && r.outcome.Renewed? ==>
                  && !ends && c.pricePerBlock.Some? && FreeBalance(s.balances, l) >= total
                  && var next := r.outcome.nextRentBlock;
                  && (next == s.blockNumber + cfg.rentalPeriodicInterval || next == s.blockNumber + 1)
                  && r.state.lesseeCollectibles == s.lesseeCollectibles[(l, id) := cfg.(nextRentBlock := next)]
                  && Bucket(r.state.pendingRentals, next) == Bucket(s.pendingRentals, next) + [e]
                  && (forall t :: t != next ==> Bucket(r.state.pendingRentals, t) == Bucket(s.pendingRentals, t))
                  && (l != c.lessor ==>
                        && FreeBalance(r.state.balances, l) == FreeBalance(s.balances, l) - total
                        && FreeBalance(r.state.balances, c.lessor) == FreeBalance(s.balances, c.lessor) + total)
                  && (forall a :: a != l && a != c.lessor ==> FreeBalance(r.state.balances, a) == FreeBalance(s.balances, a))
                  && r.state.collectibles == s.collectibles
                  && r.state.accountEquips == s.accountEquips
                  && r.state.lessorCollectibles == s.lessorCollectibles
                  && r.state.rentableCollectibles == s.rentableCollectibles
                  && r.state.blockNumber == s.blockNumber)
            && (r.Stopped? ==> r == Stopped(Panic) || r == Stopped(Diverge))
  {
    var (id, l) := e;
    var c := s.collectibles[id];
    var cfg := s.lesseeCollectibles[(l, id)];
    if c.rentable && c.lessee.Some? && cfg.recurring && c.pricePerBlock.Some? {
      var total := c.pricePerBlock.value * cfg.rentalPeriodicInterval;
      if FreeBalance(s.balances, l) >= total {
        var s1 := s.(balances := Transfer(s.balances, l, c.lessor, total));
        if ProbeFor(s1, None, cfg.rentalPeriodicInterval).Some? {
          ProbeLands(s1.pendingRentals, s1.blockNumber, s1.blockNumber + cfg.rentalPeriodicInterval, s1.maximumRentablesPerBlock);
        }
      }
    }
  }

  /** Ending a rental clears the lessee, deletes the agreement, unequips the lessee and touches nothing else. */
  lemma RemoveLesseeBehaviour(s: State, lessee: AccountId, c: Collectible)
    ensures var r := RemoveLessee(s, lessee, c);
            && r.collectibles == s.collectibles[c.uniqueId := c.(lessee := None)]
            && r.lesseeCollectibles == s.lesseeCollectibles - {(lessee, c.uniqueId)}
            && GetOrEmpty(r.accountEquips, lessee) == RemoveAll(GetOrEmpty(s.accountEquips, lessee), c.uniqueId)
            && c.uniqueId !in GetOrEmpty(r.accountEquips, lessee)
            && (forall a :: a != lessee ==> GetOrEmpty(r.accountEquips, a) == GetOrEmpty(s.accountEquips, a))
            && r.pendingRentals == s.pendingRentals && r.balances == s.balances
            && r.lessorCollectibles == s.lessorCollectibles && r.rentableCollectibles == s.rentableCollectibles
  {
  }

  /** The last obligation of a completed loop is settled on the storage the others left. */
  lemma ProcessRentalsLast(s: State, rentals: seq<PendingRental>)
    requires rentals != [] && ProcessRentals(s, rentals).Completed?
    ensures var front := ProcessRentals(s, rentals[..|rentals| - 1]);
            var whole := ProcessRentals(s, rentals);
            && front.Completed?
            && whole.outcomes[..|rentals| - 1] == front.outcomes
            && ProcessRental(front.state, rentals[|rentals| - 1]) == Swept(whole.state, whole.outcomes[|rentals| - 1])
  {
  }

  /** Every prefix of a completed loop completed, with a prefix of its outcomes. */
  lemma {:induction false} ProcessRentalsPrefix(s: State, rentals: seq<PendingRental>, i: nat)
    requires ProcessRentals(s, rentals).Completed? && i <= |rentals|
    ensures ProcessRentals(s, rentals[..i]).Completed?
    ensures ProcessRentals(s, rentals[..i]).outcomes == ProcessRentals(s, rentals).outcomes[..i]
    decreases |rentals|
  {
    var n := |rentals|;
    if i == n {
      assert rentals[..i] == rentals;
    } else {
      var front := rentals[..n - 1];
      ProcessRentalsLast(s, rentals);
      ProcessRentalsPrefix(s, front, i);
      assert front[..i] == rentals[..i];
    }
  }

  /**
   * The loop visits the snapshot in order: when it completes, the i-th outcome is what the
   * i-th obligation produced on the storage the earlier ones left. A failed payment is an
   * outcome like any other, so it never stops the entries after it.
   */
  lemma ProcessRentalsInOrder(s: State, rentals: seq<PendingRental>, i: nat)
    requires ProcessRentals(s, rentals).Completed? && i < |rentals|
    ensures ProcessRentals(s, rentals[..i]).Completed?
    ensures ProcessRentals(s, rentals[..i + 1]).Completed?
    ensures ProcessRental(ProcessRentals(s, rentals[..i]).state, rentals[i]) ==
            Swept(ProcessRentals(s, rentals[..i + 1]).state, ProcessRentals(s, rentals).outcomes[i])
  {
    var prefix := rentals[..i + 1];
    assert |prefix| - 1 == i;
    assert prefix[..i] == rentals[..i];
    assert prefix[i] == rentals[i];
    ProcessRentalsPrefix(s, rentals, i + 1);
    var whole := ProcessRentals(s, rentals);
    var run := ProcessRentals(s, prefix);
    assert run.outcomes[i] == whole.outcomes[i];
    ProcessRentalsLast(s, prefix);
  }

  /** The loop over one more obligation is the loop so far, then that obligation's step. */
  lemma ProcessRentalsSnoc(s: State, rentals: seq<PendingRental>, i: nat)
    requires i < |rentals|
    ensures ProcessRentals(s, rentals[..i + 1]) ==
              match ProcessRentals(s, rentals[..i])
              case Aborted(h) => Aborted(h)
              case Completed(s1, outcomes) =>
                match ProcessRental(s1, rentals[i])
                case Stopped(h) => Aborted(h)
                case Swept(s2, o) => Completed(s2, outcomes + [o])
  {
    assert rentals[..i + 1][..i] == rentals[..i];
    assert rentals[..i + 1][i] == rentals[i];
  }

  /** Once an obligation halts the loop, the whole sweep halts the same way: no later obligation is settled. */
  lemma {:induction false} ProcessRentalsHaltStops(s: State, rentals: seq<PendingRental>, j: nat)
    requires j <= |rentals| && ProcessRentals(s, rentals[..j]).Aborted?
    ensures ProcessRentals(s, rentals) == ProcessRentals(s, rentals[..j])
    decreases |rentals|
  {
    if j == |rentals| {
      assert rentals[..j] == rentals;
    } else {
      var front := rentals[..|rentals| - 1];
      assert front[..j] == rentals[..j];
      ProcessRentalsHaltStops(s, front, j);
    }
  }

  /** A sweep step writes only buckets from the current block on: bucket `t` before it is left alone. */
  lemma ProcessRentalKeepsPastBucket(s: State, e: PendingRental, t: BlockNumber)
    requires t < s.blockNumber
    ensures var r := ProcessRental(s, e);
            r.Swept? ==> Bucket(r.state.pendingRentals, t) == Bucket(s.pendingRentals, t)
  {
    var (id, lessee) := e;
    if (lessee, id) in s.lesseeCollectibles && id in s.collectibles {
      var c := s.collectibles[id];
      var cfg := s.lesseeCollectibles[(lessee, id)];
      if c.rentable && c.lessee.Some? && cfg.recurring && c.pricePerBlock.Some? {
        var total := c.pricePerBlock.value * cfg.rentalPeriodicInterval;
        if CanTransfer(s.balances, lessee, total) {
          var s1 := s.(balances := Transfer(s.balances, lessee, c.lessor, total));
          var next := ProbeFor(s1, None, cfg.rentalPeriodicInterval);
          if next.Some? {
            ProbeLands(s1.pendingRentals, s1.blockNumber, s1.blockNumber + cfg.rentalPeriodicInterval, s1.maximumRentablesPerBlock);
          }
        }
      }
    }
  }

  /** The loop over a bucket leaves every bucket before the current block alone. */
  lemma {:induction false} ProcessRentalsKeepPastBucket(s: State, rentals: seq<PendingRental>, t: BlockNumber)
    requires t < s.blockNumber
    ensures var r := ProcessRentals(s, rentals);
            r.Completed? ==> Bucket(r.state.pendingRentals, t) == Bucket(s.pendingRentals, t)
    decreases |rentals|
  {
    if rentals != [] {
      var front := rentals[..|rentals| - 1];
      ProcessRentalsKeepPastBucket(s, front, t);
      var r := ProcessRentals(s, front);
      if r.Completed? {
        ProcessRentalKeepsPastBucket(r.state, rentals[|rentals| - 1], t);
      }
    }
  }

  /**
   * `run_to_block` sweeps only blocks after the current one, and nothing it does writes a
   * bucket at or before the current block: an obligation booked there is never settled.
   */
  lemma {:induction false} RunToBlockKeepsPastBucket(s: State, n: BlockNumber, t: BlockNumber)
    requires t <= s.blockNumber
    ensures var r := RunToBlock(s, n);
            r.Completed? ==> Bucket(r.state.pendingRentals, t) == Bucket(s.pendingRentals, t)
    decreases n - s.blockNumber
  {
    if n > s.blockNumber {
      var b := s.blockNumber + 1;
      var s0 := s.(blockNumber := b);
      ProcessRentalsKeepPastBucket(s0, Bucket(s0.pendingRentals, b), t);
      var sweep := ProcessRentalPeriods(s0, b);
      if sweep.Completed? {
        assert Bucket(sweep.state.pendingRentals, t) == Bucket(s.pendingRentals, t);
        RunToBlockKeepsPastBucket(sweep.state, n, t);
      }
    }
  }
}
