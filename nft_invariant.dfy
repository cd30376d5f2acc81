/**
 * What every call of the earlier rental pallet keeps true of its storage, and what that
 * buys: the sweep's unwraps of the record, of its lessee and of its price never fail, so
 * the only panic left is a renewing lessee who cannot pay.
 */
module NftInvariant {

  import opened Wrappers
  import opened Runtime
  import opened Ledger
  import opened Schedule
  import opened NftTypes
  import opened NftSpec

  type Collectibles = map<CollectibleId, Collectible>

  /** Every record is stored under its own unique id. */
  ghost predicate KeysMatch(cm: Collectibles)
  {
    forall id :: id in cm ==> cm[id].uniqueId == id
  }

  /** A collectible offered for rent has a price (so `rent` and the sweep can unwrap it). */
  ghost predicate PricedWhenRentable(cm: Collectibles)
  {
    forall id :: id in cm && cm[id].rentable ==> cm[id].pricePerBlock.Some?
  }

  /** A scheduled rental is of an existing, rented collectible, for a period `rent` allows. */
  ghost predicate Live(cm: Collectibles, cfg: RentalPeriodConfig)
  {
    && cfg.collectible in cm
    && cm[cfg.collectible].currentLessee.Some?
    && MinimumRentalPeriod <= cfg.rentalPeriodicInterval <= MaximumRentalPeriod
  }

  ghost predicate AllLive(cm: Collectibles, p: Buckets<RentalPeriodConfig>)
  {
    forall t, cfg :: cfg in Bucket(p, t) ==> Live(cm, cfg)
  }

  /** No collectible is scheduled twice, in one bucket or across two. */
  ghost predicate Unique(p: Buckets<RentalPeriodConfig>)
  {
    forall t1, t2, i, j ::
      (0 <= i < |Bucket(p, t1)| && 0 <= j < |Bucket(p, t2)| &&
       Bucket(p, t1)[i].collectible == Bucket(p, t2)[j].collectible) ==> t1 == t2 && i == j
  }

  /** The collectible has no scheduled rental. */
  ghost predicate Unscheduled(p: Buckets<RentalPeriodConfig>, id: CollectibleId)
  {
    forall t, cfg :: cfg in Bucket(p, t) ==> cfg.collectible != id
  }

  ghost predicate Consistent(s: State)
  {
    && KeysMatch(s.collectibleMap)
    && PricedWhenRentable(s.collectibleMap)
    && AllLive(s.collectibleMap, s.rentalPeriods)
    && Unique(s.rentalPeriods)
  }

  /** The storage as the sweep of bucket `n` sees it part-way: bucket `n` holds only the rentals not yet settled. */
  function View(s: State, n: BlockNumber, b: seq<RentalPeriodConfig>): State
  {
    s.(rentalPeriods := s.rentalPeriods[n := b])
  }

  // ---------------------------------------------------------------------------
  // The schedule part

  /** A rented collectible's record may change as long as it stays rented and in place. */
  lemma AllLiveUpdate(cm: Collectibles, p: Buckets<RentalPeriodConfig>, id: CollectibleId, c: Collectible)
    requires AllLive(cm, p)
    requires id in cm && (cm[id].currentLessee.Some? ==> c.currentLessee.Some?)
    ensures AllLive(cm[id := c], p)
  {
    forall t, cfg | cfg in Bucket(p, t) ensures Live(cm[id := c], cfg) {
      assert Live(cm, cfg);
    }
  }

  /** An unscheduled collectible's record may change in any way, and a new one may be added. */
  lemma AllLiveUnscheduled(cm: Collectibles, p: Buckets<RentalPeriodConfig>, id: CollectibleId, c: Collectible)
    requires AllLive(cm, p) && Unscheduled(p, id)
    ensures AllLive(cm[id := c], p)
  {
    forall t, cfg | cfg in Bucket(p, t) ensures Live(cm[id := c], cfg) {
      assert Live(cm, cfg);
    }
  }

  /** A new collectible is scheduled nowhere. */
  lemma AbsentIsUnscheduled(cm: Collectibles, p: Buckets<RentalPeriodConfig>, id: CollectibleId)
    requires AllLive(cm, p) && (id !in cm || cm[id].currentLessee.None?)
    ensures Unscheduled(p, id)
  {
    forall t, cfg | cfg in Bucket(p, t) ensures cfg.collectible != id {
      assert Live(cm, cfg);
    }
  }

  /** Scheduling a collectible scheduled nowhere keeps every collectible scheduled at most once. */
  lemma UniqueAppend(p: Buckets<RentalPeriodConfig>, t: BlockNumber, x: RentalPeriodConfig)
    requires Unique(p) && Unscheduled(p, x.collectible)
    ensures Unique(Append(p, t, x))
  {
    var p' := Append(p, t, x);
    forall t1, t2, i, j |
      0 <= i < |Bucket(p', t1)| && 0 <= j < |Bucket(p', t2)| &&
      Bucket(p', t1)[i].collectible == Bucket(p', t2)[j].collectible
      ensures t1 == t2 && i == j
    {
      var old1 := t1 != t || i < |Bucket(p, t)|;
      var old2 := t2 != t || j < |Bucket(p, t)|;
      if old1 {
        assert Bucket(p', t1)[i] == Bucket(p, t1)[i];
        assert Bucket(p, t1)[i] in Bucket(p, t1);
      }
      if old2 {
        assert Bucket(p', t2)[j] == Bucket(p, t2)[j];
        assert Bucket(p, t2)[j] in Bucket(p, t2);
      }
    }
  }

  /**
   * Taking the head off bucket `n` leaves it scheduled nowhere (it was scheduled only there)
   * and keeps the rest unique.
   */
  lemma UniqueTail(p: Buckets<RentalPeriodConfig>, n: BlockNumber, e: RentalPeriodConfig, rest: seq<RentalPeriodConfig>)
    requires Unique(p[n := [e] + rest])
    ensures Unique(p[n := rest])
    ensures Unscheduled(p[n := rest], e.collectible)
  {
    var q := p[n := [e] + rest];
    var q' := p[n := rest];
    assert Bucket(q, n)[0] == e;
    forall t, i | 0 <= i < |Bucket(q', t)| ensures Bucket(q', t)[i] == Bucket(q, t)[if t == n then i + 1 else i] {
    }
    forall t, cfg | cfg in Bucket(q', t) ensures cfg.collectible != e.collectible {
      var i :| 0 <= i < |Bucket(q', t)| && Bucket(q', t)[i] == cfg;
      assert Bucket(q', t)[i] == Bucket(q, t)[if t == n then i + 1 else i];
    }
    forall t1, t2, i, j |
      0 <= i < |Bucket(q', t1)| && 0 <= j < |Bucket(q', t2)| &&
      Bucket(q', t1)[i].collectible == Bucket(q', t2)[j].collectible
      ensures t1 == t2 && i == j
    {
      assert Bucket(q', t1)[i] == Bucket(q, t1)[if t1 == n then i + 1 else i];
      assert Bucket(q', t2)[j] == Bucket(q, t2)[if t2 == n then j + 1 else j];
    }
  }

  /** The head of bucket `n` in consistent storage is live; the rest of the bucket stays live. */
  lemma HeadIsLive(cm: Collectibles, p: Buckets<RentalPeriodConfig>, n: BlockNumber, e: RentalPeriodConfig, rest: seq<RentalPeriodConfig>)
    requires AllLive(cm, p[n := [e] + rest])
    ensures Live(cm, e)
    ensures AllLive(cm, p[n := rest])
  {
    var q := p[n := [e] + rest];
    var q' := p[n := rest];
    assert e in Bucket(q, n);
    forall t, cfg | cfg in Bucket(q', t) ensures Live(cm, cfg) {
      assert cfg in Bucket(q, t);
    }
  }

  /** Consistency depends on the schedule only through what its buckets read. */
  lemma ConsistentSameBuckets(s: State, p: Buckets<RentalPeriodConfig>)
    requires Consistent(s)
    requires forall t :: Bucket(p, t) == Bucket(s.rentalPeriods, t)
    ensures Consistent(s.(rentalPeriods := p))
  {
    forall t, cfg | cfg in Bucket(p, t) ensures Live(s.collectibleMap, cfg) {
      assert cfg in Bucket(s.rentalPeriods, t);
    }
  }

  // ---------------------------------------------------------------------------
  // The calls keep the storage consistent

  lemma MintKeepsConsistent(s: State, lessor: AccountId, id: CollectibleId)
    requires Consistent(s)
    ensures Consistent(Mint(s, lessor, id).state)
  {
    if id !in s.collectibleMap {
      AbsentIsUnscheduled(s.collectibleMap, s.rentalPeriods, id);
      AllLiveUnscheduled(s.collectibleMap, s.rentalPeriods, id, NewCollectible(id, lessor));
    }
  }

  lemma SetRentableKeepsConsistent(s: State, sender: AccountId, id: CollectibleId, price: Balance)
    requires Consistent(s)
    ensures Consistent(SetRentable(s, sender, id, price).state)
  {
    if id in s.collectibleMap {
      var c := s.collectibleMap[id];
      AllLiveUpdate(s.collectibleMap, s.rentalPeriods, id, c.(pricePerBlock := Some(price), rentable := true));
    }
  }

  lemma SetUnrentableKeepsConsistent(s: State, sender: AccountId, id: CollectibleId)
    requires Consistent(s)
    ensures Consistent(SetUnrentable(s, sender, id).state)
  {
    if id in s.collectibleMap {
      AllLiveUpdate(s.collectibleMap, s.rentalPeriods, id, s.collectibleMap[id].(rentable := false));
    }
  }

  /** Renting an unrented collectible for an allowed period schedules it exactly once. */
  lemma DoRentKeepsConsistent(s: State, id: CollectibleId, lessee: AccountId, interval: nat, recurring: bool)
    requires Consistent(s)
    requires id in s.collectibleMap ==> s.collectibleMap[id].currentLessee.None?
    requires MinimumRentalPeriod <= interval <= MaximumRentalPeriod
    ensures Consistent(DoRentCollectible(s, id, lessee, interval, recurring).state)
  {
    var r := DoRentCollectible(s, id, lessee, interval, recurring);
    if r.outcome == Ok {
      var cm := s.collectibleMap;
      var p := s.rentalPeriods;
      var c := cm[id];
      var cfg := RentalPeriodConfig(id, interval, recurring);
      var t := InsertionBlock(s, cfg).value;
      var p' := Append(p, t, cfg);
      var cm' := cm[id := c.(currentLessee := Some(lessee))];
      assert r.state.rentalPeriods == p' && r.state.collectibleMap == cm';
      AbsentIsUnscheduled(cm, p, id);
      UniqueAppend(p, t, cfg);
      AllLiveUnscheduled(cm, p, id, c.(currentLessee := Some(lessee)));
      forall u, x | x in Bucket(p', u) ensures Live(cm', x) {
        if x != cfg {
          assert x in Bucket(p, u);
        }
      }
    }
  }

  lemma RentKeepsConsistent(s: State, lessee: AccountId, id: CollectibleId, blocks: nat, recurring: bool)
    requires Consistent(s)
    ensures Consistent(Rent(s, lessee, id, blocks, recurring).state)
  {
    if MinimumRentalPeriod <= blocks <= MaximumRentalPeriod && id in s.collectibleMap
       && s.collectibleMap[id].currentLessee.None? {
      DoRentKeepsConsistent(s, id, lessee, blocks, recurring);
    }
  }

  // ---------------------------------------------------------------------------
  // The sweep keeps the storage consistent

  /** Ending the rental at the head of the unsettled part of bucket `n`. */
  lemma EndRentalKeepsConsistent(s: State, n: BlockNumber, e: RentalPeriodConfig, rest: seq<RentalPeriodConfig>)
    requires Consistent(View(s, n, [e] + rest))
    requires e.collectible in s.collectibleMap
    ensures var c := s.collectibleMap[e.collectible];
            Consistent(View(s.(collectibleMap := s.collectibleMap[e.collectible := c.(currentLessee := None)]), n, rest))
  {
    var p := s.rentalPeriods;
    UniqueTail(p, n, e, rest);
    HeadIsLive(s.collectibleMap, p, n, e, rest);
    var c := s.collectibleMap[e.collectible];
    AllLiveUnscheduled(s.collectibleMap, p[n := rest], e.collectible, c.(currentLessee := None));
  }

  /** Rescheduling the rental at the head of the unsettled part of bucket `n` into bucket `t`. */
  lemma RenewKeepsConsistent(s: State, n: BlockNumber, e: RentalPeriodConfig, rest: seq<RentalPeriodConfig>,
                             s1: State, t: BlockNumber)
    requires Consistent(View(s, n, [e] + rest))
    requires s1 == s.(balances := s1.balances)
    ensures Consistent(View(Insert(s1, t, e), n, rest))
  {
    var p := s.rentalPeriods;
    UniqueTail(p, n, e, rest);
    HeadIsLive(s.collectibleMap, p, n, e, rest);
    var q := p[n := rest];
    var p' := View(Insert(s1, t, e), n, rest).rentalPeriods;
    if t == n {
      assert p' == q;
    } else {
      assert p' == Append(q, t, e);
      UniqueAppend(q, t, e);
      forall u, x | x in Bucket(p', u) ensures Live(s.collectibleMap, x) {
        if x != e {
          assert x in Bucket(q, u);
        }
      }
    }
  }

  /**
   * One iteration of the sweep on consistent storage panics only when a renewing lessee
   * cannot pay one block's price, and keeps the rest consistent.
   */
  lemma ProcessRentalKeepsConsistent(s: State, n: BlockNumber, e: RentalPeriodConfig, rest: seq<RentalPeriodConfig>)
    requires Consistent(View(s, n, [e] + rest))
    ensures Live(s.collectibleMap, e)
    ensures ProcessRental(s, e) == Stopped(Panic) ==>
              var c := s.collectibleMap[e.collectible];
              && c.rentable && e.recurring
              && !CanTransfer(s.balances, c.currentLessee.value, c.pricePerBlock.value)
    ensures ProcessRental(s, e).Swept? ==> Consistent(View(ProcessRental(s, e).state, n, rest))
  {
    HeadIsLive(s.collectibleMap, s.rentalPeriods, n, e, rest);
    var c := s.collectibleMap[e.collectible];
    if !c.rentable || !e.recurring {
      EndRentalKeepsConsistent(s, n, e, rest);
    } else {
      var lessee := c.currentLessee.value;
      var price := c.pricePerBlock.value;
      if CanTransfer(s.balances, lessee, price) {
        var s1 := s.(balances := Transfer(s.balances, lessee, c.lessor, price));
        match InsertionBlock(s1, e)
        case None =>
        case Some(t) =>
          RenewKeepsConsistent(s, n, e, rest, s1, t);
      }
    }
  }

  /**
   * The k-th rental of the snapshot is reached (the ones before it completed) and it is a
   * renewal whose lessee cannot pay one block's price.
   */
  ghost predicate CannotPay(s: State, rentals: seq<RentalPeriodConfig>, k: nat)
    requires k < |rentals|
  {
    match ProcessRentals(s, rentals[..k])
    case Aborted(_) => false
    case Completed(st, _) =>
      var cfg := rentals[k];
      && cfg.collectible in st.collectibleMap
      && var c := st.collectibleMap[cfg.collectible];
      && c.rentable && cfg.recurring && c.currentLessee.Some? && c.pricePerBlock.Some?
      && !CanTransfer(st.balances, c.currentLessee.value, c.pricePerBlock.value)
  }

  /** After the first i rentals of the snapshot, the storage with the rest of the snapshot as bucket `n` is consistent. */
  lemma {:induction false} ProcessRentalsKeepsConsistent(s: State, n: BlockNumber, rentals: seq<RentalPeriodConfig>, i: nat)
    requires Consistent(View(s, n, rentals))
    requires i <= |rentals|
    ensures ProcessRentals(s, rentals[..i]) == Aborted(Panic) ==> exists k :: 0 <= k < i && CannotPay(s, rentals, k)
    ensures ProcessRentals(s, rentals[..i]).Completed? ==>
              Consistent(View(ProcessRentals(s, rentals[..i]).state, n, rentals[i..]))
  {
    if i == 0 {
      assert rentals[..0] == [];
      assert rentals[0..] == rentals;
    } else {
      ProcessRentalsKeepsConsistent(s, n, rentals, i - 1);
      assert rentals[..i][..i - 1] == rentals[..i - 1];
      assert rentals[..i][i - 1] == rentals[i - 1];
      match ProcessRentals(s, rentals[..i - 1])
      case Aborted(h) =>
      case Completed(s1, _) =>
        assert rentals[i - 1..] == [rentals[i - 1]] + rentals[i..];
        ProcessRentalKeepsConsistent(s1, n, rentals[i - 1], rentals[i..]);
        if ProcessRental(s1, rentals[i - 1]) == Stopped(Panic) {
          assert CannotPay(s, rentals, i - 1);
        }
    }
  }

  /**
   * The sweep of block `n` on consistent storage panics only when a renewing lessee cannot
   * pay, and when it completes it leaves the storage consistent.
   */
  lemma SweepKeepsConsistent(s: State, n: BlockNumber)
    requires Consistent(s)
    ensures var rentals := Bucket(s.rentalPeriods, n);
            ProcessRentalPeriods(s, n) == Aborted(Panic) ==> exists k :: 0 <= k < |rentals| && CannotPay(s, rentals, k)
    ensures ProcessRentalPeriods(s, n).Completed? ==> Consistent(ProcessRentalPeriods(s, n).state)
  {
    var rentals := Bucket(s.rentalPeriods, n);
    forall t ensures Bucket(s.rentalPeriods[n := rentals], t) == Bucket(s.rentalPeriods, t) {
    }
    ConsistentSameBuckets(s, s.rentalPeriods[n := rentals]);
    assert View(s, n, rentals) == s.(rentalPeriods := s.rentalPeriods[n := rentals]);
    ProcessRentalsKeepsConsistent(s, n, rentals, |rentals|);
    assert rentals[..|rentals|] == rentals;
    match ProcessRentals(s, rentals)
    case Aborted(h) =>
    case Completed(s1, _) =>
      assert rentals[|rentals|..] == [];
      var q := s1.rentalPeriods - {n};
      var V := View(s1, n, []);
      forall t ensures Bucket(q, t) == Bucket(V.rentalPeriods, t) {
      }
      ConsistentSameBuckets(V, q);
      assert V.(rentalPeriods := q) == s1.(rentalPeriods := q);
  }
}
