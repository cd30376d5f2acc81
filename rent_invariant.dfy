/**
 * The consistency of the rent pallet's storage, and proofs that every call and the
 * per-block sweep keep it. Under it the sweep never panics: the agreement lookup, the
 * collectible lookup and the price `unwrap` in `do_process_rental_periods` always succeed.
 */
module RentInvariant {

  import opened Wrappers
  import opened Runtime
  import opened Ledger
  import opened Bounded
  import opened Schedule
  import opened RentTypes
  import opened RentSpec

  /** Every collectible is stored under its own id. */
  ghost predicate KeysMatch(s: State)
  {
    forall id :: id in s.collectibles ==> s.collectibles[id].uniqueId == id
  }

  /**
   * Prices and periods are set together, and a collectible that is rentable or rented has a
   * price; these are the `unwrap`s of `do_extend_rent` and of the sweep.
   */
  ghost predicate WellPriced(c: Collectible)
  {
    && (c.pricePerBlock.Some? <==> c.maximumRentalPeriod.Some?)
    && (c.rentable ==> c.pricePerBlock.Some?)
    && (c.lessee.Some? ==> c.pricePerBlock.Some?)
  }

  ghost predicate AllWellPriced(s: State)
  {
    forall id :: id in s.collectibles ==> WellPriced(s.collectibles[id])
  }

  /** An agreement is stored under (l, id) exactly when collectible id is rented by l. */
  ghost predicate AgreementsMatchLessees(s: State)
  {
    && (forall k :: k in s.lesseeCollectibles ==> k.1 in s.collectibles && s.collectibles[k.1].lessee == Some(k.0))
    && (forall id :: id in s.collectibles && s.collectibles[id].lessee.Some? ==>
          (s.collectibles[id].lessee.value, id) in s.lesseeCollectibles)
  }

  /** The obligation `e` sits in bucket `t` because its agreement is due at `t`. */
  ghost predicate Booked(ag: Agreements, e: PendingRental, t: BlockNumber)
  {
    (e.1, e.0) in ag && ag[(e.1, e.0)].nextRentBlock == t
  }

  /** No collectible appears twice in a bucket. */
  ghost predicate DistinctIds(b: seq<PendingRental>)
  {
    forall j, k :: 0 <= j < k < |b| ==> b[j].0 != b[k].0
  }

  ghost predicate SoundBucket(ag: Agreements, t: BlockNumber, b: seq<PendingRental>)
  {
    (forall e :: e in b ==> Booked(ag, e, t)) && DistinctIds(b)
  }

  /** Every scheduled obligation belongs to an agreement due at that block, once per bucket. */
  ghost predicate ScheduleSound(ag: Agreements, p: Buckets<PendingRental>)
  {
    forall t :: SoundBucket(ag, t, Bucket(p, t))
  }

  ghost predicate Consistent(s: State)
  {
    && KeysMatch(s)
    && AllWellPriced(s)
    && AgreementsMatchLessees(s)
    && ScheduleSound(s.lesseeCollectibles, s.pendingRentals)
  }

  /** Storage with bucket `n` read as `b`: the part of bucket `n` the sweep has not reached yet. */
  function View(s: State, n: BlockNumber, b: seq<PendingRental>): State
  {
    s.(pendingRentals := s.pendingRentals[n := b])
  }

  // ---------------------------------------------------------------------------
  // Facts about buckets

  lemma SoundBucketOtherKey(ag: Agreements, t: BlockNumber, b: seq<PendingRental>, key: (AccountId, CollectibleId), cfg: RentalPeriodConfig)
    requires SoundBucket(ag, t, b)
    requires forall e :: e in b ==> (e.1, e.0) != key
    ensures SoundBucket(ag - {key}, t, b)
    ensures SoundBucket(ag[key := cfg], t, b)
  {
  }

  lemma SoundBucketAppend(ag: Agreements, t: BlockNumber, b: seq<PendingRental>, e: PendingRental)
    requires SoundBucket(ag, t, b) && Booked(ag, e, t)
    requires forall x :: x in b ==> x.0 != e.0
    ensures SoundBucket(ag, t, b + [e])
  {
    var b' := b + [e];
    forall j, k | 0 <= j < k < |b'| ensures b'[j].0 != b'[k].0 {
      if k == |b| {
        assert b'[j] in b;
      }
    }
  }

  lemma {:induction false} DistinctRemoveCollectible(b: seq<PendingRental>, id: CollectibleId)
    requires DistinctIds(b)
    ensures DistinctIds(RemoveCollectible(b, id))
  {
    if b != [] {
      DistinctRemoveCollectible(b[1..], id);
      if b[0].0 != id {
        var r := RemoveCollectible(b, id);
        assert r == [b[0]] + RemoveCollectible(b[1..], id);
        forall j, k | 0 <= j < k < |r| ensures r[j].0 != r[k].0 {
          if j == 0 {
            assert r[k] in RemoveCollectible(b[1..], id);
            assert r[k] in b[1..];
            var m :| 0 <= m < |b[1..]| && b[1..][m] == r[k];
            assert b[m + 1] == r[k];
          }
        }
      }
    }
  }

  /** The tail of a bucket after its head, with the head's id gone. */
  lemma SoundTail(ag: Agreements, t: BlockNumber, e: PendingRental, rest: seq<PendingRental>)
    requires SoundBucket(ag, t, [e] + rest)
    ensures SoundBucket(ag, t, rest) && Booked(ag, e, t)
    ensures forall x :: x in rest ==> x.0 != e.0
  {
    var b := [e] + rest;
    assert b[0] == e;
    forall x | x in rest ensures x.0 != e.0 && Booked(ag, x, t) {
      var k :| 0 <= k < |rest| && rest[k] == x;
      assert b[k + 1] == x;
    }
    forall j, k | 0 <= j < k < |rest| ensures rest[j].0 != rest[k].0 {
      assert b[j + 1] == rest[j] && b[k + 1] == rest[k];
    }
  }

  lemma BucketOfView(p: Buckets<PendingRental>, n: BlockNumber, b: seq<PendingRental>)
    ensures Bucket(p[n := b], n) == b
    ensures forall t :: t != n ==> Bucket(p[n := b], t) == Bucket(p, t)
  {
  }

  /** Consistency depends on the buckets only through what they read as. */
  lemma ConsistentSameBuckets(s: State, p: Buckets<PendingRental>)
    requires Consistent(s)
    requires forall t :: Bucket(p, t) == Bucket(s.pendingRentals, t)
    ensures Consistent(s.(pendingRentals := p))
  {
    forall t ensures SoundBucket(s.lesseeCollectibles, t, Bucket(p, t)) {
      assert Bucket(p, t) == Bucket(s.pendingRentals, t);
    }
  }

  /** Within consistent storage an obligation for a collectible is the only one for it in any bucket. */
  lemma OnlyObligation(s: State, n: BlockNumber, e: PendingRental, t: BlockNumber, x: PendingRental)
    requires Consistent(s)
    requires e in Bucket(s.pendingRentals, n) && x in Bucket(s.pendingRentals, t) && x.0 == e.0
    ensures x == e && t == n
  {
    assert SoundBucket(s.lesseeCollectibles, n, Bucket(s.pendingRentals, n));
    assert SoundBucket(s.lesseeCollectibles, t, Bucket(s.pendingRentals, t));
  }

  /** A collectible nobody rents has no agreement and no obligation. */
  lemma UnrentedIsUnscheduled(s: State, id: CollectibleId)
    requires Consistent(s) && id in s.collectibles && s.collectibles[id].lessee.None?
    ensures forall k :: k in s.lesseeCollectibles ==> k.1 != id
    ensures forall t, x :: x in Bucket(s.pendingRentals, t) ==> x.0 != id
  {
    forall t, x | x in Bucket(s.pendingRentals, t) ensures x.0 != id {
      assert SoundBucket(s.lesseeCollectibles, t, Bucket(s.pendingRentals, t));
    }
  }

  // ---------------------------------------------------------------------------
  // The calls keep consistency

  lemma MintKeepsConsistent(s: State, lessor: AccountId, id: CollectibleId)
    requires Consistent(s)
    ensures Consistent(Mint(s, lessor, id).state)
  {
    var s' := Mint(s, lessor, id).state;
    if s' != s {
      assert forall t :: SoundBucket(s'.lesseeCollectibles, t, Bucket(s'.pendingRentals, t)) by {
        assert s'.lesseeCollectibles == s.lesseeCollectibles && s'.pendingRentals == s.pendingRentals;
      }
    }
  }

  lemma BurnKeepsConsistent(s: State, sender: AccountId, id: CollectibleId)
    requires Consistent(s)
    ensures Consistent(Burn(s, sender, id).state)
  {
    if Burn(s, sender, id).outcome.Ok? {
      UnrentedIsUnscheduled(s, id);
      var s' := Burn(s, sender, id).state;
      assert s'.lesseeCollectibles == s.lesseeCollectibles && s'.pendingRentals == s.pendingRentals;
    }
  }

  lemma SetRentableKeepsConsistent(s: State, sender: AccountId, id: CollectibleId, price: Balance, minimum: nat, maximum: nat)
    requires Consistent(s)
    ensures Consistent(SetRentable(s, sender, id, price, minimum, maximum).state)
  {
    var s' := SetRentable(s, sender, id, price, minimum, maximum).state;
    assert s'.lesseeCollectibles == s.lesseeCollectibles && s'.pendingRentals == s.pendingRentals;
  }

  lemma SetUnrentableKeepsConsistent(s: State, sender: AccountId, id: CollectibleId)
    requires Consistent(s)
    ensures Consistent(SetUnrentable(s, sender, id).state)
  {
    var s' := SetUnrentable(s, sender, id).state;
    assert s'.lesseeCollectibles == s.lesseeCollectibles && s'.pendingRentals == s.pendingRentals;
  }

  lemma SetRecurringKeepsConsistent(s: State, sender: AccountId, id: CollectibleId, recurring: bool)
    requires Consistent(s)
    ensures Consistent(SetRecurring(s, sender, id, recurring).state)
  {
    var t := SetRecurring(s, sender, id, recurring);
    if t.outcome.Ok? {
      var s' := t.state;
      var cfg := s.lesseeCollectibles[(sender, id)];
      assert s'.lesseeCollectibles == s.lesseeCollectibles[(sender, id) := cfg.(recurring := recurring)];
      forall u ensures SoundBucket(s'.lesseeCollectibles, u, Bucket(s'.pendingRentals, u)) {
        assert SoundBucket(s.lesseeCollectibles, u, Bucket(s.pendingRentals, u));
      }
    }
  }

  lemma EquipKeepsConsistent(s: State, sender: AccountId, id: CollectibleId)
    requires Consistent(s)
    ensures Consistent(Equip(s, sender, id).state)
  {
    var s' := Equip(s, sender, id).state;
    assert s'.lesseeCollectibles == s.lesseeCollectibles && s'.pendingRentals == s.pendingRentals;
  }

  lemma UnequipKeepsConsistent(s: State, sender: AccountId, id: CollectibleId)
    requires Consistent(s)
    ensures Consistent(UnequipCollectible(s, sender, id).state)
  {
  }

  /** Recording a new rental of an unrented, priced collectible, due at `next`. */
  lemma BookKeepsConsistent(s: State, s1: State, id: CollectibleId, lessee: AccountId,
                            next: BlockNumber, cfg: RentalPeriodConfig)
    requires Consistent(s) && id in s.collectibles
    requires s.collectibles[id].lessee.None? && s.collectibles[id].pricePerBlock.Some?
    requires s1 == s.(balances := s1.balances) && cfg.nextRentBlock == next
    ensures var s2 := Enqueue(s1, next, (id, lessee));
            Consistent(s2.(lesseeCollectibles := s2.lesseeCollectibles[(lessee, id) := cfg],
                           collectibles := s2.collectibles[id := s.collectibles[id].(lessee := Some(lessee))]))
  {
    var c := s.collectibles[id];
    UnrentedIsUnscheduled(s, id);
    var e: PendingRental := (id, lessee);
    var ag' := s.lesseeCollectibles[(lessee, id) := cfg];
    var p' := Append(s.pendingRentals, next, e);
    forall t ensures SoundBucket(ag', t, Bucket(p', t)) {
      var b := Bucket(s.pendingRentals, t);
      assert SoundBucket(s.lesseeCollectibles, t, b);
      SoundBucketOtherKey(s.lesseeCollectibles, t, b, (lessee, id), cfg);
      if t == next {
        SoundBucketAppend(ag', t, b, e);
      }
    }
  }

  lemma DoRentKeepsConsistent(s: State, id: CollectibleId, lessee: AccountId, interval: nat, recurring: bool)
    requires Consistent(s)
    requires id in s.collectibles ==> s.collectibles[id].lessee.None?
    ensures Consistent(DoRentCollectible(s, id, lessee, interval, recurring).state)
  {
    var tr := DoRentCollectible(s, id, lessee, interval, recurring);
    if tr.outcome.Ok? {
      var c := s.collectibles[id];
      var total := c.pricePerBlock.value * interval;
      var s1 := s.(balances := Transfer(s.balances, lessee, c.lessor, total));
      var next := ProbeFor(s1, None, interval).value;
      BookKeepsConsistent(s, s1, id, lessee, next, RentalPeriodConfig(interval, next, recurring));
    }
  }

  lemma RentKeepsConsistent(s: State, lessee: AccountId, id: CollectibleId, blocks: nat, recurring: bool)
    requires Consistent(s)
    ensures Consistent(Rent(s, lessee, id, blocks, recurring).state)
  {
    if id in s.collectibles && s.collectibles[id].lessee.None? {
      DoRentKeepsConsistent(s, id, lessee, blocks, recurring);
    }
  }

  lemma ExtendRentKeepsConsistent(s: State, sender: AccountId, id: CollectibleId, blocks: nat)
    requires Consistent(s)
    ensures Consistent(ExtendRent(s, sender, id, blocks).state)
  {
    var tr := ExtendRent(s, sender, id, blocks);
    if tr.outcome.Ok? {
      var c := s.collectibles[id];
      var ag := s.lesseeCollectibles;
      assert c.uniqueId == id && c.lessee == Some(sender);
      var cfg := ag[(sender, id)];
      var total := blocks * c.pricePerBlock.value;
      var s1 := s.(balances := Transfer(s.balances, sender, c.lessor, total));
      var due := cfg.nextRentBlock;
      var p2 := s.pendingRentals[due := RemoveCollectible(Bucket(s.pendingRentals, due), id)];
      var s2 := s1.(pendingRentals := p2);
      var next := ProbeFor(s2, Some(due), blocks).value;
      var e: PendingRental := (id, sender);
      var cfg' := cfg.(nextRentBlock := next);
      var ag' := ag[(sender, id) := cfg'];
      var p3 := Append(p2, next, e);
      assert tr.state == s2.(pendingRentals := p3, lesseeCollectibles := ag');
      forall t ensures SoundBucket(ag', t, Bucket(p3, t)) {
        var b := Bucket(s.pendingRentals, t);
        assert SoundBucket(ag, t, b);
        var b2 := Bucket(p2, t);
        if t == due {
          DistinctRemoveCollectible(b, id);
          assert b2 == RemoveCollectible(b, id);
        } else {
          assert b2 == b;
          forall x | x in b ensures x.0 != id {
            assert Booked(ag, x, t);
          }
        }
        assert SoundBucket(ag, t, b2);
        SoundBucketOtherKey(ag, t, b2, (sender, id), cfg');
        if t == next {
          SoundBucketAppend(ag', t, b2, e);
        }
      }
    }
  }

  // ---------------------------------------------------------------------------
  // The sweep keeps consistency and never panics

  /** Ending the rental at the head of the unswept part of bucket `n`. */
  lemma EndRentalKeepsConsistent(s: State, n: BlockNumber, e: PendingRental, rest: seq<PendingRental>)
    requires Consistent(View(s, n, [e] + rest))
    requires e.0 in s.collectibles
    ensures Consistent(View(RemoveLessee(s, e.1, s.collectibles[e.0]), n, rest))
  {
    var (id, l) := e;
    var ag := s.lesseeCollectibles;
    var V := View(s, n, [e] + rest);
    BucketOfView(s.pendingRentals, n, [e] + rest);
    assert SoundBucket(ag, n, [e] + rest);
    SoundTail(ag, n, e, rest);
    var c := s.collectibles[id];
    assert c.uniqueId == id;
    var s' := RemoveLessee(s, l, c);
    var ag' := ag - {(l, id)};
    assert s'.lesseeCollectibles == ag';
    var V' := View(s', n, rest);
    BucketOfView(s.pendingRentals, n, rest);
    forall t ensures SoundBucket(ag', t, Bucket(V'.pendingRentals, t)) {
      if t == n {
        SoundBucketOtherKey(ag, n, rest, (l, id), ag[(l, id)]);
      } else {
        var b := Bucket(s.pendingRentals, t);
        assert Bucket(V.pendingRentals, t) == b;
        assert SoundBucket(ag, t, b);
        SoundBucketOtherKey(ag, t, b, (l, id), ag[(l, id)]);
      }
    }
  }

  /** Rescheduling the rental at the head of the unswept part of bucket `n` into bucket `next`. */
  lemma RenewKeepsConsistent(s: State, n: BlockNumber, e: PendingRental, rest: seq<PendingRental>,
                             s1: State, next: BlockNumber)
    requires Consistent(View(s, n, [e] + rest))
    requires s1 == s.(balances := s1.balances)
    requires (e.1, e.0) in s.lesseeCollectibles
    ensures Consistent(View(Enqueue(s1, next, e).(lesseeCollectibles :=
              s.lesseeCollectibles[(e.1, e.0) := s.lesseeCollectibles[(e.1, e.0)].(nextRentBlock := next)]), n, rest))
  {
    var (id, l) := e;
    var ag := s.lesseeCollectibles;
    var V := View(s, n, [e] + rest);
    BucketOfView(s.pendingRentals, n, [e] + rest);
    assert SoundBucket(ag, n, [e] + rest);
    SoundTail(ag, n, e, rest);
    var cfg' := ag[(l, id)].(nextRentBlock := next);
    var ag' := ag[(l, id) := cfg'];
    var p' := Append(s.pendingRentals, next, e)[n := rest];
    var V' := View(Enqueue(s1, next, e).(lesseeCollectibles := ag'), n, rest);
    assert V'.pendingRentals == p';
    assert V'.collectibles == s.collectibles;
    forall t ensures SoundBucket(ag', t, Bucket(p', t)) {
      if t == n {
        SoundBucketOtherKey(ag, n, rest, (l, id), cfg');
      } else {
        var b := Bucket(s.pendingRentals, t);
        assert Bucket(V.pendingRentals, t) == b;
        assert SoundBucket(ag, t, b);
        SoundBucketOtherKey(ag, t, b, (l, id), cfg');
        if t == next {
          forall x | x in b ensures x.0 != id {
            assert Booked(ag, x, t);
          }
          SoundBucketAppend(ag', t, b, e);
        }
      }
    }
  }

  /** One iteration of the sweep on consistent storage never panics and keeps consistency of the rest. */
  lemma ProcessRentalKeepsConsistent(s: State, n: BlockNumber, e: PendingRental, rest: seq<PendingRental>)
    requires Consistent(View(s, n, [e] + rest))
    ensures ProcessRental(s, e) != Stopped(Panic)
    ensures ProcessRental(s, e).Swept? ==> Consistent(View(ProcessRental(s, e).state, n, rest))
  {
    var (id, l) := e;
    var ag := s.lesseeCollectibles;
    BucketOfView(s.pendingRentals, n, [e] + rest);
    assert SoundBucket(ag, n, [e] + rest);
    SoundTail(ag, n, e, rest);
    assert (l, id) in ag;
    var cfg := ag[(l, id)];
    var c := s.collectibles[id];
    assert c.lessee == Some(l);
    if !c.rentable || !cfg.recurring {
      EndRentalKeepsConsistent(s, n, e, rest);
    } else {
      assert WellPriced(c);
      var total := c.pricePerBlock.value * cfg.rentalPeriodicInterval;
      if !CanTransfer(s.balances, l, total) {
        EndRentalKeepsConsistent(s, n, e, rest);
      } else {
        var s1 := s.(balances := Transfer(s.balances, l, c.lessor, total));
        match ProbeFor(s1, None, cfg.rentalPeriodicInterval)
        case None =>
        case Some(next) =>
          RenewKeepsConsistent(s, n, e, rest, s1, next);
      }
    }
  }

  /** After the first i obligations of the snapshot, the storage with the rest of the snapshot as bucket `n` is consistent. */
  lemma {:induction false} ProcessRentalsKeepsConsistent(s: State, n: BlockNumber, rentals: seq<PendingRental>, i: nat)
    requires Consistent(View(s, n, rentals))
    requires i <= |rentals|
    ensures ProcessRentals(s, rentals[..i]) != Aborted(Panic)
    ensures ProcessRentals(s, rentals[..i]).Completed? ==>
              Consistent(View(ProcessRentals(s, rentals[..i]).state, n, rentals[i..]))
  {
    if i == 0 {
      assert rentals[..0] == [];
      assert rentals[0..] == rentals;
    } else {
      ProcessRentalsKeepsConsistent(s, n, rentals, i - 1);
      assert rentals[..i][..i - 1] == rentals[..i - 1];
      assert rentals[..i][i - 1] == rentals[i - 1];
      match ProcessRentals(s, rentals[..i - 1])
      case Aborted(h) =>
      case Completed(s1, _) =>
        assert rentals[i - 1..] == [rentals[i - 1]] + rentals[i..];
        ProcessRentalKeepsConsistent(s1, n, rentals[i - 1], rentals[i..]);
    }
  }

  /**
   * The sweep of block `n` on consistent storage never panics (it can only fail to finish by
   * the probe looping) and leaves the storage consistent.
   */
  lemma SweepKeepsConsistent(s: State, n: BlockNumber)
    requires Consistent(s)
    ensures ProcessRentalPeriods(s, n) != Aborted(Panic)
    ensures ProcessRentalPeriods(s, n).Completed? ==> Consistent(ProcessRentalPeriods(s, n).state)
  {
    var rentals := Bucket(s.pendingRentals, n);
    BucketOfView(s.pendingRentals, n, rentals);
    ConsistentSameBuckets(s, s.pendingRentals[n := rentals]);
    assert View(s, n, rentals) == s.(pendingRentals := s.pendingRentals[n := rentals]);
    ProcessRentalsKeepsConsistent(s, n, rentals, |rentals|);
    assert rentals[..|rentals|] == rentals;
    match ProcessRentals(s, rentals)
    case Aborted(h) =>
    case Completed(s1, _) =>
      var V := View(s1, n, []);
      assert rentals[|rentals|..] == [];
      BucketOfView(s1.pendingRentals, n, []);
      forall t ensures Bucket(s1.pendingRentals - {n}, t) == Bucket(V.pendingRentals, t) {
      }
      ConsistentSameBuckets(V, s1.pendingRentals - {n});
      assert V.(pendingRentals := s1.pendingRentals - {n}) == s1.(pendingRentals := s1.pendingRentals - {n});
  }

  /** The test driver `run_to_block` keeps consistency and never panics. */
  lemma {:induction false} RunToBlockKeepsConsistent(s: State, n: BlockNumber)
    requires Consistent(s)
    ensures RunToBlock(s, n) != Aborted(Panic)
    ensures RunToBlock(s, n).Completed? ==> Consistent(RunToBlock(s, n).state)
    decreases n - s.blockNumber
  {
    if n > s.blockNumber {
      var b := s.blockNumber + 1;
      var s0 := s.(blockNumber := b);
      SweepKeepsConsistent(s0, b);
      match ProcessRentalPeriods(s0, b)
      case Aborted(h) =>
      case Completed(s1, _) =>
        RunToBlockKeepsConsistent(s1, n);
    }
  }

  // ---------------------------------------------------------------------------
  // No obligation is lost

  /** Every agreement's obligation sits in the bucket of the block it is due at. */
  ghost predicate Scheduled(s: State)
  {
    forall k :: k in s.lesseeCollectibles ==>
      (k.1, k.0) in Bucket(s.pendingRentals, s.lesseeCollectibles[k].nextRentBlock)
  }

  /** Every agreement renews after a positive number of blocks. */
  ghost predicate PositiveIntervals(s: State)
  {
    forall k :: k in s.lesseeCollectibles ==> s.lesseeCollectibles[k].rentalPeriodicInterval > 0
  }

  /**
   * In consistent, scheduled storage a rented collectible has its agreement and exactly one
   * obligation, in the bucket of its due block, and an unrented one has none.
   */
  lemma ExactlyOneObligation(s: State, id: CollectibleId)
    requires Consistent(s) && Scheduled(s) && id in s.collectibles
    ensures s.collectibles[id].lessee.None? ==>
              forall t, x :: x in Bucket(s.pendingRentals, t) ==> x.0 != id
    ensures s.collectibles[id].lessee.Some? ==>
              var l := s.collectibles[id].lessee.value;
              && (l, id) in s.lesseeCollectibles
              && var due := s.lesseeCollectibles[(l, id)].nextRentBlock;
              && (id, l) in Bucket(s.pendingRentals, due)
              && forall t, x :: x in Bucket(s.pendingRentals, t) && x.0 == id ==> x == (id, l) && t == due
  {
    var c := s.collectibles[id];
    if c.lessee.None? {
      UnrentedIsUnscheduled(s, id);
    } else {
      var l := c.lessee.value;
      var due := s.lesseeCollectibles[(l, id)].nextRentBlock;
      forall t, x | x in Bucket(s.pendingRentals, t) && x.0 == id ensures x == (id, l) && t == due {
        OnlyObligation(s, due, (id, l), t, x);
      }
    }
  }

  lemma RentKeepsScheduled(s: State, lessee: AccountId, id: CollectibleId, blocks: nat, recurring: bool)
    requires Scheduled(s)
    ensures Scheduled(Rent(s, lessee, id, blocks, recurring).state)
  {
  }

  lemma ExtendRentKeepsScheduled(s: State, sender: AccountId, id: CollectibleId, blocks: nat)
    requires Consistent(s) && Scheduled(s)
    ensures Scheduled(ExtendRent(s, sender, id, blocks).state)
  {
    var tr := ExtendRent(s, sender, id, blocks);
    if tr.outcome.Ok? {
      var ag := s.lesseeCollectibles;
      var cfg := ag[(sender, id)];
      var due := cfg.nextRentBlock;
      var p2 := s.pendingRentals[due := RemoveCollectible(Bucket(s.pendingRentals, due), id)];
      forall k | k in ag && k != (sender, id)
        ensures (k.1, k.0) in Bucket(p2, ag[k].nextRentBlock)
      {
        assert s.collectibles[k.1].lessee == Some(k.0);
      }
    }
  }

  /** Storage whose agreements and buckets are those of scheduled storage is scheduled. */
  lemma SameScheduleKeepsScheduled(s: State, s': State)
    requires Scheduled(s)
    requires s'.lesseeCollectibles == s.lesseeCollectibles && s'.pendingRentals == s.pendingRentals
    ensures Scheduled(s')
  {
  }

  // The calls that leave agreements and buckets alone keep the schedule.

  lemma MintKeepsScheduled(s: State, sender: AccountId, id: CollectibleId)
    requires Scheduled(s)
    ensures Scheduled(Mint(s, sender, id).state)
  {
    var s' := Mint(s, sender, id).state;
    assert s'.lesseeCollectibles == s.lesseeCollectibles && s'.pendingRentals == s.pendingRentals;
    SameScheduleKeepsScheduled(s, s');
  }

  lemma BurnKeepsScheduled(s: State, sender: AccountId, id: CollectibleId)
    requires Scheduled(s)
    ensures Scheduled(Burn(s, sender, id).state)
  {
    var s' := Burn(s, sender, id).state;
    assert s'.lesseeCollectibles == s.lesseeCollectibles && s'.pendingRentals == s.pendingRentals;
    SameScheduleKeepsScheduled(s, s');
  }

  lemma SetRentableKeepsScheduled(s: State, sender: AccountId, id: CollectibleId, price: Balance, minimum: nat, maximum: nat)
    requires Scheduled(s)
    ensures Scheduled(SetRentable(s, sender, id, price, minimum, maximum).state)
  {
    var s' := SetRentable(s, sender, id, price, minimum, maximum).state;
    assert s'.lesseeCollectibles == s.lesseeCollectibles && s'.pendingRentals == s.pendingRentals;
    SameScheduleKeepsScheduled(s, s');
  }

  lemma SetUnrentableKeepsScheduled(s: State, sender: AccountId, id: CollectibleId)
    requires Scheduled(s)
    ensures Scheduled(SetUnrentable(s, sender, id).state)
  {
    var s' := SetUnrentable(s, sender, id).state;
    assert s'.lesseeCollectibles == s.lesseeCollectibles && s'.pendingRentals == s.pendingRentals;
    SameScheduleKeepsScheduled(s, s');
  }

  lemma EquipKeepsScheduled(s: State, sender: AccountId, id: CollectibleId)
    requires Scheduled(s)
    ensures Scheduled(Equip(s, sender, id).state)
  {
    var s' := Equip(s, sender, id).state;
    assert s'.lesseeCollectibles == s.lesseeCollectibles && s'.pendingRentals == s.pendingRentals;
    SameScheduleKeepsScheduled(s, s');
  }

  lemma UnequipKeepsScheduled(s: State, sender: AccountId, id: CollectibleId)
    requires Scheduled(s)
    ensures Scheduled(UnequipCollectible(s, sender, id).state)
  {
    var s' := UnequipCollectible(s, sender, id).state;
    assert s'.lesseeCollectibles == s.lesseeCollectibles && s'.pendingRentals == s.pendingRentals;
    SameScheduleKeepsScheduled(s, s');
  }

  /** `set_recurring` leaves every due block where it was. */
  lemma SetRecurringKeepsScheduled(s: State, sender: AccountId, id: CollectibleId, recurring: bool)
    requires Scheduled(s)
    ensures Scheduled(SetRecurring(s, sender, id, recurring).state)
  {
    var s' := SetRecurring(s, sender, id, recurring).state;
    forall k | k in s'.lesseeCollectibles
      ensures (k.1, k.0) in Bucket(s'.pendingRentals, s'.lesseeCollectibles[k].nextRentBlock)
    {
      assert k in s.lesseeCollectibles;
    }
  }

  /** Every call keeps storage consistent. */
  lemma DispatchKeepsConsistent(s: State, call: Call)
    requires Consistent(s)
    ensures Consistent(Dispatch(s, call).state)
  {
    match call
    case MintCall(lessor, id) => MintKeepsConsistent(s, lessor, id);
    case BurnCall(sender, id) => BurnKeepsConsistent(s, sender, id);
    case SetRentableCall(sender, id, price, minimum, maximum) =>
      SetRentableKeepsConsistent(s, sender, id, price, minimum, maximum);
    case SetUnrentableCall(sender, id) => SetUnrentableKeepsConsistent(s, sender, id);
    case SetRecurringCall(sender, id, recurring) => SetRecurringKeepsConsistent(s, sender, id, recurring);
    case RentCall(sender, id, blocks, recurring) => RentKeepsConsistent(s, sender, id, blocks, recurring);
    case ExtendRentCall(sender, id, blocks) => ExtendRentKeepsConsistent(s, sender, id, blocks);
    case EquipCall(sender, id) => EquipKeepsConsistent(s, sender, id);
    case UnequipCall(sender, id) => UnequipKeepsConsistent(s, sender, id);
  }

  /**
   * Every call keeps every agreement's obligation in its due bucket: mint, burn,
   * `set_rentable`, `set_unrentable`, equip and unequip write neither an agreement nor a
   * bucket, and the other three move an obligation together with its due block.
   */
  lemma DispatchKeepsScheduled(s: State, call: Call)
    requires Consistent(s) && Scheduled(s)
    ensures Scheduled(Dispatch(s, call).state)
  {
    match call
    case MintCall(lessor, id) => MintKeepsScheduled(s, lessor, id);
    case BurnCall(sender, id) => BurnKeepsScheduled(s, sender, id);
    case SetRentableCall(sender, id, price, minimum, maximum) =>
      SetRentableKeepsScheduled(s, sender, id, price, minimum, maximum);
    case SetUnrentableCall(sender, id) => SetUnrentableKeepsScheduled(s, sender, id);
    case SetRecurringCall(sender, id, recurring) => SetRecurringKeepsScheduled(s, sender, id, recurring);
    case RentCall(sender, id, blocks, recurring) => RentKeepsScheduled(s, sender, id, blocks, recurring);
    case ExtendRentCall(sender, id, blocks) => ExtendRentKeepsScheduled(s, sender, id, blocks);
    case EquipCall(sender, id) => EquipKeepsScheduled(s, sender, id);
    case UnequipCall(sender, id) => UnequipKeepsScheduled(s, sender, id);
  }

  /** Any sequence of calls keeps storage consistent and every obligation scheduled. */
  lemma {:induction false} DispatchAllKeepsScheduled(s: State, calls: seq<Call>)
    requires Consistent(s) && Scheduled(s)
    ensures Consistent(DispatchAll(s, calls)) && Scheduled(DispatchAll(s, calls))
    decreases |calls|
  {
    if calls != [] {
      DispatchKeepsConsistent(s, calls[0]);
      DispatchKeepsScheduled(s, calls[0]);
      DispatchAllKeepsScheduled(Dispatch(s, calls[0]).state, calls[1..]);
    }
  }

  // The sweep of the current block, with positive intervals, keeps the schedule.

  /** Obligations other than the head of the unswept part of bucket `n` stay where they were. */
  lemma OthersStayScheduled(s: State, n: BlockNumber, e: PendingRental, rest: seq<PendingRental>, k: (AccountId, CollectibleId))
    requires Scheduled(View(s, n, [e] + rest))
    requires k in s.lesseeCollectibles && k != (e.1, e.0)
    ensures (k.1, k.0) in Bucket(s.pendingRentals[n := rest], s.lesseeCollectibles[k].nextRentBlock)
  {
    BucketOfView(s.pendingRentals, n, [e] + rest);
    BucketOfView(s.pendingRentals, n, rest);
    var due := s.lesseeCollectibles[k].nextRentBlock;
    assert (k.1, k.0) in Bucket(s.pendingRentals[n := [e] + rest], due);
    if due == n {
      assert (k.1, k.0) != e;
    }
  }

  lemma EndRentalKeepsScheduled(s: State, n: BlockNumber, e: PendingRental, rest: seq<PendingRental>)
    requires Scheduled(View(s, n, [e] + rest)) && PositiveIntervals(s)
    requires e.0 in s.collectibles && s.collectibles[e.0].uniqueId == e.0
    ensures var s' := RemoveLessee(s, e.1, s.collectibles[e.0]);
            Scheduled(View(s', n, rest)) && PositiveIntervals(s')
  {
    var (id, l) := e;
    var c := s.collectibles[id];
    var ended := RemoveLessee(s, l, c);
    assert ended.lesseeCollectibles == s.lesseeCollectibles - {(l, id)} && ended.pendingRentals == s.pendingRentals;
    forall k | k in ended.lesseeCollectibles
      ensures (k.1, k.0) in Bucket(s.pendingRentals[n := rest], ended.lesseeCollectibles[k].nextRentBlock)
    {
      OthersStayScheduled(s, n, e, rest, k);
    }
  }

  lemma RenewKeepsScheduled(s: State, n: BlockNumber, e: PendingRental, rest: seq<PendingRental>,
                            s1: State, next: BlockNumber)
    requires Scheduled(View(s, n, [e] + rest)) && PositiveIntervals(s)
    requires s1 == s.(balances := s1.balances)
    requires (e.1, e.0) in s.lesseeCollectibles && next != n
    ensures var ag := s.lesseeCollectibles;
            var s' := Enqueue(s1, next, e).(lesseeCollectibles := ag[(e.1, e.0) := ag[(e.1, e.0)].(nextRentBlock := next)]);
            Scheduled(View(s', n, rest)) && PositiveIntervals(s')
  {
    var (id, l) := e;
    var ag := s.lesseeCollectibles;
    var ag' := ag[(l, id) := ag[(l, id)].(nextRentBlock := next)];
    var p' := Append(s.pendingRentals, next, e)[n := rest];
    forall k | k in ag' ensures (k.1, k.0) in Bucket(p', ag'[k].nextRentBlock) {
      if k != (l, id) {
        OthersStayScheduled(s, n, e, rest, k);
      }
    }
  }

  lemma ProcessRentalKeepsScheduled(s: State, n: BlockNumber, e: PendingRental, rest: seq<PendingRental>)
    requires Scheduled(View(s, n, [e] + rest)) && PositiveIntervals(s) && s.blockNumber == n
    requires (e.1, e.0) in s.lesseeCollectibles && e.0 in s.collectibles && s.collectibles[e.0].uniqueId == e.0
    ensures ProcessRental(s, e).Swept? ==>
              Scheduled(View(ProcessRental(s, e).state, n, rest)) && PositiveIntervals(ProcessRental(s, e).state)
  {
    var (id, l) := e;
    var cfg := s.lesseeCollectibles[(l, id)];
    var c := s.collectibles[id];
    if !c.rentable || c.lessee.None? || !cfg.recurring {
      EndRentalKeepsScheduled(s, n, e, rest);
    } else if c.pricePerBlock.Some? {
      var total := c.pricePerBlock.value * cfg.rentalPeriodicInterval;
      if !CanTransfer(s.balances, l, total) {
        EndRentalKeepsScheduled(s, n, e, rest);
      } else {
        var s1 := s.(balances := Transfer(s.balances, l, c.lessor, total));
        if ProbeFor(s1, None, cfg.rentalPeriodicInterval).Some? {
          var next := ProbeFor(s1, None, cfg.rentalPeriodicInterval).value;
          ProbeLands(s1.pendingRentals, n, n + cfg.rentalPeriodicInterval, s.maximumRentablesPerBlock);
          RenewKeepsScheduled(s, n, e, rest, s1, next);
        }
      }
    }
  }

  /** What consistency says about the head of the unswept part of bucket `n`. */
  lemma HeadIsBooked(s: State, n: BlockNumber, e: PendingRental, rest: seq<PendingRental>)
    requires Consistent(View(s, n, [e] + rest))
    ensures (e.1, e.0) in s.lesseeCollectibles && e.0 in s.collectibles && s.collectibles[e.0].uniqueId == e.0
  {
    BucketOfView(s.pendingRentals, n, [e] + rest);
    assert SoundBucket(s.lesseeCollectibles, n, [e] + rest);
    SoundTail(s.lesseeCollectibles, n, e, rest);
  }

  lemma {:induction false} ProcessRentalsKeepsScheduled(s: State, n: BlockNumber, rentals: seq<PendingRental>, i: nat)
    requires Consistent(View(s, n, rentals)) && Scheduled(View(s, n, rentals))
    requires PositiveIntervals(s) && s.blockNumber == n
    requires i <= |rentals|
    ensures ProcessRentals(s, rentals[..i]).Completed? ==>
              && Scheduled(View(ProcessRentals(s, rentals[..i]).state, n, rentals[i..]))
              && PositiveIntervals(ProcessRentals(s, rentals[..i]).state)
  {
    if i == 0 {
      assert rentals[..0] == [];
      assert rentals[0..] == rentals;
    } else {
      ProcessRentalsKeepsScheduled(s, n, rentals, i - 1);
      ProcessRentalsKeepsConsistent(s, n, rentals, i - 1);
      assert rentals[..i][..i - 1] == rentals[..i - 1];
      assert rentals[..i][i - 1] == rentals[i - 1];
      match ProcessRentals(s, rentals[..i - 1])
      case Aborted(h) =>
      case Completed(s1, _) =>
        assert rentals[i - 1..] == [rentals[i - 1]] + rentals[i..];
        HeadIsBooked(s1, n, rentals[i - 1], rentals[i..]);
        ProcessRentalKeepsScheduled(s1, n, rentals[i - 1], rentals[i..]);
    }
  }

  /**
   * The sweep of the current block loses no obligation when every agreement renews after at
   * least one block: each renewed rental is rescheduled into a later bucket before bucket `n`
   * is removed.
   */
  lemma SweepKeepsScheduled(s: State)
    requires Consistent(s) && Scheduled(s) && PositiveIntervals(s)
    ensures var r := ProcessRentalPeriods(s, s.blockNumber);
            r.Completed? ==> Scheduled(r.state) && PositiveIntervals(r.state)
  {
    var n := s.blockNumber;
    var rentals := Bucket(s.pendingRentals, n);
    BucketOfView(s.pendingRentals, n, rentals);
    ConsistentSameBuckets(s, s.pendingRentals[n := rentals]);
    assert Scheduled(View(s, n, rentals));
    ProcessRentalsKeepsScheduled(s, n, rentals, |rentals|);
    assert rentals[..|rentals|] == rentals;
    match ProcessRentals(s, rentals)
    case Aborted(h) =>
    case Completed(s1, _) =>
      assert rentals[|rentals|..] == [];
      BucketOfView(s1.pendingRentals, n, []);
      var p := s1.pendingRentals - {n};
      forall k | k in s1.lesseeCollectibles
        ensures (k.1, k.0) in Bucket(p, s1.lesseeCollectibles[k].nextRentBlock)
      {
        assert (k.1, k.0) in Bucket(s1.pendingRentals[n := []], s1.lesseeCollectibles[k].nextRentBlock);
      }
  }

  /** Running block by block with positive intervals keeps every obligation in its due bucket. */
  lemma {:induction false} RunToBlockKeepsScheduled(s: State, n: BlockNumber)
    requires Consistent(s) && Scheduled(s) && PositiveIntervals(s)
    ensures var r := RunToBlock(s, n);
            r.Completed? ==> Consistent(r.state) && Scheduled(r.state) && PositiveIntervals(r.state)
    decreases n - s.blockNumber
  {
    if n > s.blockNumber {
      var b := s.blockNumber + 1;
      var s0 := s.(blockNumber := b);
      SweepKeepsConsistent(s0, b);
      SweepKeepsScheduled(s0);
      match ProcessRentalPeriods(s0, b)
      case Aborted(h) =>
      case Completed(s1, _) =>
        RunToBlockKeepsScheduled(s1, n);
    }
  }
}
