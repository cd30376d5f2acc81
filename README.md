# Collectible rental pallets, modelled in Dafny

This project models the two rental pallets of the repository:

- **`pallets/rent`** is the full pallet. It lets a lessor:
  - mint a collectible;
  - offer it for rent at a price per block, within a minimum and maximum period;
  - have a lessee rent it for a number of blocks, paid up front.

  Due rentals are kept in a per-block index of bounded buckets (`PendingRentals`). The hook that starts each block sweeps that block's bucket. Each due obligation is settled one of three ways:
  - the rental ends;
  - the payment fails and the rental ends;
  - the lessee pays again and the obligation is rescheduled.

  Lessees can also extend a rental, toggle recurrence, and equip or unequip collectibles.
- **`pallets/nft-on-rent`** is the earlier, smaller version. It has one collectible map, a schedule of rental configurations (`RentalPeriods`), fixed period bounds (3 to 90 blocks), and a sweep that charges one block's price per renewal.

## Model structure

Each pallet is modelled twice:

- **Functional specification.** A `State` datatype holds every storage item, the ledger, the current block and the capacity constants. Each call and internal function is a function from the state before to an outcome and the state after: `RentSpec` and `NftSpec`.
- **Imperative model.** A class whose fields are the storage items: `RentPallet.Pallet` and `NftPallet.Pallet`.
  - Each method reads, updates and writes back its fields step by step.
  - The bucket probe is a `while` loop. The sweep is a loop over a snapshot of the bucket.
  - Each method is proved to return the outcome and leave the storage of the matching specification function.
  - Each call method is also proved to keep the consistency invariant: `RentInvariant.Consistent` and `NftInvariant.Consistent` respectively.

### Modules

- **Shared modules:**
  - `Wrappers`: `Option`.
  - `Runtime`: the 16-byte collectible id, and the two ways a call can fail to complete.
  - `Ledger`: `T::Currency` as a balance map with an all-or-nothing transfer.
  - `Bounded`: `retain` / `try_push` on bounded vectors.
  - `Schedule`: buckets read with `ValueQuery` semantics, the probe of the insertion loop, and append.
- **Rent pallet:** `RentTypes`, `RentSpec`, `RentInvariant`, `RentProperties`, `RentScenarios` (the scenarios of `pallets/rent/src/tests.rs`), `RentPallet`.
- **Earlier pallet:** `NftTypes`, `NftSpec`, `NftInvariant`, `NftProperties`, `NftScenarios`, `NftPallet`.

### Modelling conventions

- **Errors are transactional.** A call that returns an error leaves storage unchanged.
- **Halts instead of preconditions.** An `unwrap` that fails, or a probe loop that never ends, is the outcome `Halted(Panic)` or `Halted(Diverge)`, and the storage is unchanged because the block cannot be produced. The callers' obligations are therefore not stated as preconditions; the invariant lemmas show when a halt can occur:
  - On consistent rent storage, the sweep never panics, and `rent` panics only on a collectible that never had a price.
  - On consistent nft-on-rent storage, the sweep panics exactly when it reaches a renewing lessee who cannot pay.
- **The probe.** It tries `start + interval`, then the block after the current one. It never moves further: the source keeps re-reading that same block, so when both buckets are full it returns `None`, which is the loop never ending.

### Where the specification and the code disagree

The model follows the code in each case:

- **Probe on overflow.** On a full bucket the retry does not advance past `now + 1` (pallets/rent/src/lib.rs:712-718, pallets/nft-on-rent/src/lib.rs:313-317). When both buckets are full the loop never ends, rather than moving one block further on each failure.
- **Rent and `rentable`.** `rent` in the rent pallet does not check `rentable`. It unwraps the price instead (pallets/rent/src/lib.rs:279-304, 478-479). See `RentProperties.RentIgnoresRentable`.
- **Missing records in the rent sweep.** The sweep unwraps both the agreement and the collectible (pallets/rent/src/lib.rs:610-614): a missing record panics rather than ending the rental.
- **Bucket removal.** The sweep removes bucket `n` after the loop, not when processing begins. A renewal rescheduled into bucket `n` itself is therefore dropped. `RentScenarios.ZeroPeriodLosesObligation` shows this for a recurring rental with a zero period, which `set_rentable` admits when the minimum is 0.
- **Zero-block `rent`.** `rent` checks only `blocks >= minimum` (pallets/rent/src/lib.rs:289-291), so a 0-block rental is accepted once `set_rentable`'s minimum is 0. The probe then books it into bucket `now + 0` (pallets/rent/src/lib.rs:503-510), the bucket of the current block, whose sweep has already run. `run_to_block` sweeps only later blocks and never writes an earlier bucket (`RentProperties.RunToBlockKeepsPastBucket`), so that rental is never charged again and never ends (`RentScenarios.ZeroPeriodRentIsNeverSwept`). `RentInvariant.Scheduled` still holds: the obligation does sit in its due bucket, a past one.
- **Lessee without `rentable`.** `set_unrentable` is allowed while rented (pallets/rent/src/lib.rs:308-325), so a lessee can coexist with `rentable == false`. The invariant used here is the weaker `lessee.Some? ==> price.Some?`. While rented and unrentable, the lessor can also equip the collectible (`RentProperties.LessorEquipsRentedAfterUnrentable`).
- **Unequip has no holder check.** `unequip_collectible` only removes the id from the caller's own list (pallets/rent/src/lib.rs:410-424).
- **Sweep crashes in the earlier pallet.** Its sweep can crash the block: it panics when a renewing lessee cannot pay (pallets/nft-on-rent/src/lib.rs:361-367).

## Model

| member | source | states |
|---|---|---|
| Ledger.Transfer | pallets/rent/src/lib.rs:488-493 | A transfer debits the payer and credits the payee by the amount. A self-transfer changes nothing. No other balance changes. |
| Ledger.TransferConserves | pallets/rent/src/lib.rs:550-555 | A transfer between two accounts preserves their total. |
| Bounded.RemoveAll | pallets/rent/src/lib.rs:745-757 | `retain(x != v)` keeps exactly the elements other than `v`, and keeps each remaining element's multiplicity. |
| Bounded.RemoveAllAppend | pallets/rent/src/lib.rs:225 | Retaining over a concatenation retains each part, so relative order is kept. |
| Bounded.RemoveAllAbsent | pallets/rent/src/lib.rs:748 | Retaining an absent value leaves the vector unchanged. |
| Bounded.RemoveAllIdempotent | pallets/rent/src/lib.rs:745-757 | Unequipping twice is the same as unequipping once. |
| Schedule.Probe | pallets/rent/src/lib.rs:712-718 | The bucket search: the target if it has room, else the block after the current one, else none. Its contract is stated by `Schedule.ProbeDivergesIffAllFull`, `Schedule.ProbeIsFirstFit` and `Schedule.ProbeLands`. |
| Schedule.ProbeDivergesIffAllFull | pallets/rent/src/lib.rs:712-718 | The probe finds no bucket exactly when every block the loop reads is full. |
| Schedule.ProbeIsFirstFit | pallets/rent/src/lib.rs:706-718 | When the probe finds a bucket, it is the first attempt of the loop that has room. |
| Schedule.ProbeLands | pallets/nft-on-rent/src/lib.rs:304-319 | The chosen bucket has room and is either the target or the block after the current one. |
| Schedule.Append | pallets/rent/src/lib.rs:719-722 | The chosen bucket gets the element at its end. Every other bucket is unchanged. |
| RentSpec.Mint | pallets/rent/src/lib.rs:430-464 | `do_mint` as a transition. Its contract is stated by `RentProperties.MintBehaviour`, `RentInvariant.MintKeepsConsistent` and `RentInvariant.MintKeepsScheduled`. |
| RentSpec.Burn | pallets/rent/src/lib.rs:213-231 | `burn` as a transition. Its contract is stated by `RentProperties.BurnBehaviour`, `RentInvariant.BurnKeepsConsistent` and `RentInvariant.BurnKeepsScheduled`. |
| RentSpec.SetRentable | pallets/rent/src/lib.rs:235-275 | `set_rentable` as a transition. Its contract is stated by `RentProperties.SetRentableBehaviour` and `RentInvariant.DispatchKeepsScheduled`. |
| RentSpec.SetUnrentable | pallets/rent/src/lib.rs:308-325 | `set_unrentable` as a transition. Its contract is stated by `RentProperties.SetUnrentableBehaviour`, `RentProperties.SetUnrentableKeepsLessee` and `RentInvariant.SetUnrentableKeepsConsistent`. |
| RentSpec.SetRecurring | pallets/rent/src/lib.rs:329-355 | `set_recurring` as a transition. Its contract is stated by `RentProperties.SetRecurringBehaviour`, `RentInvariant.SetRecurringKeepsConsistent` and `RentInvariant.SetRecurringKeepsScheduled`. |
| RentSpec.Rent | pallets/rent/src/lib.rs:279-304 | `rent` as a transition. Its contract is stated by `RentProperties.RentChecks`, `RentProperties.RentIgnoresRentable`, `RentProperties.RentPanicsOnlyWithoutPrice`, `RentInvariant.RentKeepsConsistent` and `RentInvariant.RentKeepsScheduled`. |
| RentSpec.DoRentCollectible | pallets/rent/src/lib.rs:466-524 | `do_rent_collectible` as a transition. Its contract is stated by `RentProperties.DoRentBehaviour`. |
| RentSpec.ExtendRent | pallets/rent/src/lib.rs:359-373 | `extend_rent` as a transition. Its contract is stated by `RentProperties.ExtendRentChecks` and `RentInvariant.DispatchKeepsScheduled`. |
| RentSpec.DoExtendRent | pallets/rent/src/lib.rs:526-601 | `do_extend_rent` as a transition. Its contract is stated by `RentProperties.DoExtendRentChecks` and `RentProperties.DoExtendRentCharges`. |
| RentSpec.Equip | pallets/rent/src/lib.rs:377-406 | `equip_collectible` as a transition. Its contract is stated by `RentProperties.EquipBehaviour`, `RentInvariant.EquipKeepsConsistent` and `RentInvariant.EquipKeepsScheduled`. |
| RentSpec.UnequipCollectible | pallets/rent/src/lib.rs:410-424 | `unequip_collectible` as a transition. Its contract is stated by `RentProperties.UnequipBehaviour`, `RentInvariant.UnequipKeepsConsistent` and `RentInvariant.UnequipKeepsScheduled`. |
| RentSpec.Unequip | pallets/rent/src/lib.rs:745-757 | `_unequip_collectible_from_account` on the state. Its contract is stated by `Bounded.RemoveAll`, `Bounded.RemoveAllIdempotent` and, where it is used, `RentProperties.RemoveLesseeBehaviour`. |
| RentSpec.RemoveLessee | pallets/rent/src/lib.rs:730-743 | `_remove_lessee_from_collectible` on the state. Its contract is stated by `RentProperties.RemoveLesseeBehaviour`. |
| RentSpec.ProbeFor | pallets/rent/src/lib.rs:694-728 | The probe of `_append_pending_rental_to_available_block`, from the given start block or the current one. Its contract is stated by `Schedule.ProbeLands`, applied in `RentProperties.DoExtendRentCharges` and `RentProperties.ProcessRentalBehaviour`. |
| RentSpec.ProcessRental | pallets/rent/src/lib.rs:606-673 | One iteration of the sweep loop. Its contract is stated by `RentProperties.ProcessRentalBehaviour`, `RentProperties.ProcessRentalKeepsPastBucket`, `RentInvariant.ProcessRentalKeepsConsistent` and `RentInvariant.ProcessRentalKeepsScheduled`. |
| RentSpec.RunToBlock | pallets/rent/src/mock.rs:177-187 | The test helper that sweeps each block up to `n`. Its contract is stated by `RentInvariant.RunToBlockKeepsConsistent`, `RentInvariant.RunToBlockKeepsScheduled` and `RentProperties.RunToBlockKeepsPastBucket`. |
| RentSpec.Dispatch | pallets/rent/src/lib.rs:199-425 | Any one dispatchable call. Its contract is stated by `RentInvariant.DispatchKeepsConsistent` and `RentInvariant.DispatchKeepsScheduled`. |
| RentSpec.DispatchAll | pallets/rent/src/lib.rs:199-425 | A sequence of calls, each on the storage the previous one left. Its contract is stated by `RentInvariant.DispatchAllKeepsScheduled`. |
| RentSpec.RemoveCollectible | pallets/rent/src/lib.rs:568 | The retained bucket holds exactly the entries whose id differs, whatever their lessee. |
| RentProperties.RemoveCollectibleKeepsOthers | pallets/rent/src/lib.rs:568 | Every entry of another collectible stays in the bucket as often as it was there; no entry of this collectible is left. |
| RentProperties.RemoveCollectibleAppend | pallets/rent/src/lib.rs:568 | Removing a collectible's entries from a concatenation removes them from each part, so the remaining entries keep their order. |
| RentProperties.RemoveCollectibleAbsent | pallets/rent/src/lib.rs:568 | A bucket without the collectible is written back unchanged. |
| RentSpec.ProcessRentals | pallets/rent/src/lib.rs:606-673 | A completed loop produces one outcome per snapshot entry and keeps the block number. |
| RentSpec.ProcessRentalPeriods | pallets/rent/src/lib.rs:603-676 | A completed sweep has one outcome per entry of bucket `n`, and bucket `n` is removed. |
| RentInvariant.MintKeepsConsistent | pallets/rent/src/lib.rs:430-464 | `do_mint` keeps the consistency invariant. |
| RentInvariant.BurnKeepsConsistent | pallets/rent/src/lib.rs:213-231 | `burn` keeps consistency. |
| RentInvariant.SetRentableKeepsConsistent | pallets/rent/src/lib.rs:235-275 | `set_rentable` keeps consistency. |
| RentInvariant.SetUnrentableKeepsConsistent | pallets/rent/src/lib.rs:308-325 | `set_unrentable` keeps consistency. |
| RentInvariant.SetRecurringKeepsConsistent | pallets/rent/src/lib.rs:329-355 | `set_recurring` keeps consistency. |
| RentInvariant.EquipKeepsConsistent | pallets/rent/src/lib.rs:377-406 | Equip keeps consistency. |
| RentInvariant.UnequipKeepsConsistent | pallets/rent/src/lib.rs:410-424 | Unequip keeps consistency. |
| RentInvariant.DoRentKeepsConsistent | pallets/rent/src/lib.rs:466-524 | `do_rent_collectible` on an unrented collectible creates one agreement and one obligation in its due bucket, keeping consistency. |
| RentInvariant.RentKeepsConsistent | pallets/rent/src/lib.rs:279-304 | `rent` keeps consistency. |
| RentInvariant.ExtendRentKeepsConsistent | pallets/rent/src/lib.rs:526-601 | Extend's remove-then-reinsert keeps every bucket entry booked at its agreement's due block, with distinct ids per bucket. |
| RentInvariant.ProcessRentalKeepsConsistent | pallets/rent/src/lib.rs:606-672 | One sweep step on consistent storage never panics, and keeps the rest of the bucket consistent. |
| RentInvariant.ProcessRentalsKeepsConsistent | pallets/rent/src/lib.rs:606-673 | After any prefix of the snapshot, the loop has not panicked and the storage is consistent. |
| RentInvariant.SweepKeepsConsistent | pallets/rent/src/lib.rs:603-676 | The sweep on consistent storage never panics (only the probe can stop it), and it leaves consistent storage. |
| RentInvariant.RunToBlockKeepsConsistent | pallets/rent/src/mock.rs:177-187 | Running block by block never panics and keeps consistency. |
| RentInvariant.RunToBlockKeepsScheduled | pallets/rent/src/mock.rs:177-187 | When every agreement has a positive interval, a completed `run_to_block` keeps consistency, keeps every agreement's obligation in the bucket of its due block, and keeps the intervals positive. |
| RentInvariant.UnrentedIsUnscheduled | pallets/rent/src/lib.rs:616-617 | An unrented collectible has no agreement and no obligation in any bucket. |
| RentInvariant.ExactlyOneObligation | pallets/rent/src/lib.rs:500-521 | In scheduled storage, a rented collectible has its agreement and an obligation in the bucket of its due block. An unrented one has none. |
| RentInvariant.RentKeepsScheduled | pallets/rent/src/lib.rs:500-521 | After `rent`, every agreement's obligation sits in its due bucket. |
| RentInvariant.ExtendRentKeepsScheduled | pallets/rent/src/lib.rs:566-590 | After extend, every agreement's obligation sits in its due bucket. |
| RentInvariant.DispatchKeepsConsistent | pallets/rent/src/lib.rs:199-425 | Every signed call of the pallet, whatever its arguments and outcome, keeps storage consistent. |
| RentInvariant.DispatchKeepsScheduled | pallets/rent/src/lib.rs:199-425 | Every signed call keeps each agreement's obligation in the bucket of its due block. |
| RentInvariant.DispatchAllKeepsScheduled | pallets/rent/src/lib.rs:199-425 | Any sequence of signed calls keeps storage consistent and every obligation scheduled. |
| RentInvariant.MintKeepsScheduled | pallets/rent/src/lib.rs:430-464 | Mint keeps every agreement scheduled. |
| RentInvariant.BurnKeepsScheduled | pallets/rent/src/lib.rs:213-231 | Burn keeps every agreement scheduled. |
| RentInvariant.SetRentableKeepsScheduled | pallets/rent/src/lib.rs:235-275 | `set_rentable` keeps every agreement scheduled. |
| RentInvariant.SetUnrentableKeepsScheduled | pallets/rent/src/lib.rs:308-325 | `set_unrentable` keeps every agreement scheduled. |
| RentInvariant.SetRecurringKeepsScheduled | pallets/rent/src/lib.rs:329-355 | `set_recurring` keeps every agreement scheduled. |
| RentInvariant.EquipKeepsScheduled | pallets/rent/src/lib.rs:377-406 | Equip keeps every agreement scheduled. |
| RentInvariant.UnequipKeepsScheduled | pallets/rent/src/lib.rs:410-424 | Unequip keeps every agreement scheduled. |
| RentInvariant.ProcessRentalKeepsScheduled | pallets/rent/src/lib.rs:606-672 | With positive intervals, at the current block, a sweep step keeps every remaining agreement scheduled. |
| RentInvariant.ProcessRentalsKeepsScheduled | pallets/rent/src/lib.rs:606-673 | With positive intervals, every prefix of the loop keeps every agreement scheduled. |
| RentInvariant.SweepKeepsScheduled | pallets/rent/src/lib.rs:603-676 | The sweep of the current block with positive intervals loses no obligation. |
| RentProperties.MintBehaviour | pallets/rent/src/lib.rs:430-464 | Minting an existing id fails with `DuplicateCollectible`, and a full owned list with `TooManyCollectiblesOwned`. On success the record is the caller's, with no lessee, not rentable and no prices, and the id is appended to the owned list. |
| RentProperties.BurnBehaviour | pallets/rent/src/lib.rs:213-231 | The errors `NoCollectible`, then `NotLessor`, then `NotAllowedWhileRented`. On success the record is deleted, removed from the owned list and the equips, and nothing else changes. |
| RentProperties.SetRentableBehaviour | pallets/rent/src/lib.rs:235-275 | The checks in order: existence, lessor, minimum ≤ maximum, not rented, rentable list full. On success it sets the price, `rentable` and both periods, and pushes the id onto the rentable list. The lessor's equip list becomes that list with every copy of the id removed, and no other storage changes. |
| RentProperties.SetUnrentableBehaviour | pallets/rent/src/lib.rs:308-325 | Existence and lessor checks. On success it clears `rentable` and removes the id from the rentable list. |
| RentProperties.SetUnrentableKeepsLessee | pallets/rent/src/lib.rs:308-325 | An ongoing rental survives `set_unrentable`. |
| RentProperties.SetRecurringBehaviour | pallets/rent/src/lib.rs:329-355 | Only the current lessee may toggle recurrence. Only the agreement's flag changes. |
| RentProperties.RentChecks | pallets/rent/src/lib.rs:279-304 | The errors of `rent` in the source's order. Each error is returned exactly when the earlier checks pass and it fails. `AlreadyRented` is never returned. When all checks pass, the call is `do_rent_collectible`. |
| RentProperties.DoRentBehaviour | pallets/rent/src/lib.rs:466-524 | Panics exactly without a price. Returns `NotEnoughBalance` exactly when the lessee holds less than `price * blocks`. Diverges exactly when the lessee can pay and both probed buckets are full. Any non-`Ok` outcome leaves storage unchanged. On success:<br>- the lessor gains that amount from the lessee, and no other balance changes;<br>- the caller is the lessee;<br>- the agreement holds `interval = blocks`, `recurring`, and the probed bucket;<br>- the obligation is appended to that bucket, and every other bucket is unchanged;<br>- the lessor and rentable lists, the equip lists and the block number are unchanged. |
| RentProperties.RentIgnoresRentable | pallets/rent/src/lib.rs:279-304 | The outcome of `rent` does not depend on `rentable`. |
| RentProperties.RentPanicsOnlyWithoutPrice | pallets/rent/src/lib.rs:478-479 | On well-priced storage, `rent` panics only on a collectible that has no price and is not rentable. |
| RentProperties.ExtendRentChecks | pallets/rent/src/lib.rs:359-373 | On consistent storage: `NoCollectible` exactly when the id is absent, `NotLessor` exactly when the caller is not the lessee. Otherwise the collectible has its agreement, a price and a maximum, so the `unwrap`s at 528-534 never fail and the call is `do_extend_rent` (whose outcomes are `DoExtendRentChecks`). Every non-`Ok` outcome leaves storage unchanged. |
| RentProperties.DoExtendRentChecks | pallets/rent/src/lib.rs:526-590 | For a rented collectible with agreement, price and maximum, each outcome holds exactly when its condition does. `RentalPeriodTooLong`: `blocks + next_rent_block > maximum`, an absolute bound. `Halted(Panic)`: within the bound, but `blocks` or the price does not fit `u32`. `NotEnoughBalance`: both fit and the free balance is below `blocks * price`. `Halted(Diverge)`: the lessee can pay, but both probed buckets are full once the old entry is removed. `Ok`: there is room in one of them. Every non-`Ok` outcome leaves storage unchanged. |
| RentProperties.DoExtendRentCharges | pallets/rent/src/lib.rs:526-601 | A successful extend is within the maximum and both values fit in `u32`. It charges `blocks * price` from the lessee to the lessor, and no other balance changes. The agreement's interval and `recurring` flag are kept, and only its next block changes, to `due + blocks` or `now + 1`. The collectibles, the lessor and rentable lists, the equip lists and the block number are unchanged. |
| RentProperties.DoExtendRentShape | pallets/rent/src/lib.rs:526-601 | A successful extend passed every guard: rented, with its agreement, a maximum and a price, within the maximum, both values within `u32`, and the lessee able to pay. Its storage is the payment made, the old obligation removed, the obligation appended at the probed block, and the agreement's next block set to that block. |
| RentProperties.DoExtendRentMoves | pallets/rent/src/lib.rs:562-586 | Every entry with this id leaves the old due bucket, whatever its lessee. One entry is appended to the bucket probed from `old_next + blocks`. Other buckets are unchanged. |
| RentProperties.ExtendRentIsDoExtendRent | pallets/rent/src/lib.rs:359-373 | `extend_rent` succeeds only for the current lessee, through `do_extend_rent`. |
| RentProperties.EquipBehaviour | pallets/rent/src/lib.rs:377-406 | The lessor may equip only when not rentable and the lessee only when renting. With no lessee the error is `NoAccountFoundForCollectible`, and a full list gives `TooManyCollectiblesEquiped`. |
| RentProperties.LessorEquipsRentedAfterUnrentable | pallets/rent/src/lib.rs:382-386 | After `set_unrentable`, the lessor can equip a collectible that is rented out. |
| RentProperties.UnequipBehaviour | pallets/rent/src/lib.rs:410-424 | Removes every occurrence of the id from the caller's list only. It is idempotent. |
| RentProperties.ProcessRentalBehaviour | pallets/rent/src/lib.rs:606-672 | A sweep step ends the rental exactly when not rentable, not rented or not recurring. It panics exactly when it should renew and there is no price. It fails the payment exactly when the lessee cannot pay `price * interval`. It diverges exactly when the lessee can pay and both probed buckets are full. On renewal:<br>- it transfers that amount from the lessee to the lessor, and no other balance changes;<br>- it reschedules from now, to `now + interval` or `now + 1`, appending to that bucket only;<br>- the agreement's next block is updated;<br>- the collectibles, the lessor and rentable lists, the equip lists and the block number are unchanged. |
| RentProperties.RemoveLesseeBehaviour | pallets/rent/src/lib.rs:730-743 | Ending a rental clears the lessee and deletes the agreement. The lessee's equip list becomes that list with every copy of the id removed. Every other equip list, the buckets, the balances and the lessor and rentable lists are unchanged. |
| RentProperties.ProcessRentalsPrefix | pallets/rent/src/lib.rs:606 | Every prefix of a completed loop completed, with a prefix of its outcomes. |
| RentProperties.ProcessRentalsInOrder | pallets/rent/src/lib.rs:606-673 | The i-th outcome is the i-th entry's step on the storage the earlier entries left. A failed payment never stops later entries. |
| RentProperties.ProcessRentalsHaltStops | pallets/rent/src/lib.rs:659-665 | A halted step halts the whole sweep the same way. |
| RentProperties.ProcessRentalKeepsPastBucket | pallets/rent/src/lib.rs:651-668 | A sweep step reschedules only into the current block plus the interval, or the block after; it leaves every earlier bucket alone. |
| RentProperties.ProcessRentalsKeepPastBucket | pallets/rent/src/lib.rs:606-673 | The whole loop over a bucket leaves every bucket before the current block alone. |
| RentProperties.RunToBlockKeepsPastBucket | pallets/rent/src/mock.rs:177-187 | `run_to_block` leaves every bucket at or before the starting block alone. |
| RentScenarios.SetRentableScenario | pallets/rent/src/tests.rs:97-118 | The record gets the price and periods, and the id is listed as rentable. |
| RentScenarios.RentPeriodScenarios | pallets/rent/src/tests.rs:143-169 | With periods bounded to 10..30, 5 blocks is rejected as too short and 40 as too long. |
| RentScenarios.RentNonRecurringScenario | pallets/rent/src/tests.rs:171-213 | Renting at block 1 for 10 pays 1000 and is due at block 11. |
| RentScenarios.ProcessEndingScenario | pallets/rent/src/tests.rs:216-270 | At block 11 the non-recurring rental ends. |
| RentScenarios.ProcessRecurringScenario | pallets/rent/src/tests.rs:273-345 | At block 11 the recurring rental pays 1000 again and is due at 21. |
| RentScenarios.SetRecurringThenRenewScenario | pallets/rent/src/tests.rs:348-412 | Turning recurrence on at block 5 makes the rental renew at 11. |
| RentScenarios.EquipThenStopRecurringScenario | pallets/rent/src/tests.rs:415-482 | Equipping and turning recurrence off makes the rental end at 11. |
| RentScenarios.ExtendRentScenario | pallets/rent/src/tests.rs:485-543 | Extending the rental due at 11 by 3 empties bucket 11 and moves the entry to bucket 14. |
| RentScenarios.ExtendRentTooLongScenario | pallets/rent/src/tests.rs:546-585 | `20 + 11 > 30` is rejected as too long. |
| RentScenarios.EquipScenarios | pallets/rent/src/tests.rs:588-712 | The lessee equips. The lessor of a rentable collectible and a stranger cannot. |
| RentScenarios.ZeroPeriodLosesObligation | pallets/rent/src/lib.rs:657-675 | A recurring zero-period rental renews into bucket `n` itself, which is then removed: the agreement remains with no obligation. |
| RentScenarios.ZeroPeriodRentIsNeverSwept | pallets/rent/src/lib.rs:279-304 | A 0-block `rent` with minimum 0 and room in the current bucket succeeds and books the obligation into the current block's bucket. That entry is still there after any completed `run_to_block`. |
| RentPallet.Pallet.AppendPendingRental | pallets/rent/src/lib.rs:694-728 | The probe loop returns the probed bucket and appends `(id, lessee)` at its end. It reports `None` when the loop never ends. |
| RentPallet.Pallet.UnequipFromAccount | pallets/rent/src/lib.rs:745-757 | The storage after is the specification's `Unequip`. |
| RentPallet.Pallet.RemoveLesseeFromCollectible | pallets/rent/src/lib.rs:730-743 | The storage after is the specification's `RemoveLessee`. |
| RentPallet.Pallet.Mint | pallets/rent/src/lib.rs:430-464 | Outcome and storage are `RentSpec.Mint`'s. Consistency is kept. |
| RentPallet.Pallet.Burn | pallets/rent/src/lib.rs:213-231 | Outcome and storage are `RentSpec.Burn`'s. Consistency is kept. |
| RentPallet.Pallet.SetRentable | pallets/rent/src/lib.rs:235-275 | Outcome and storage are `RentSpec.SetRentable`'s. Consistency is kept. |
| RentPallet.Pallet.Rent | pallets/rent/src/lib.rs:279-304 | Outcome and storage are `RentSpec.Rent`'s. Consistency is kept. |
| RentPallet.Pallet.DoRentCollectible | pallets/rent/src/lib.rs:466-524 | Outcome and storage are `RentSpec.DoRentCollectible`'s. The transfer is undone when the probe diverges. |
| RentPallet.Pallet.SetUnrentable | pallets/rent/src/lib.rs:308-325 | Outcome and storage are `RentSpec.SetUnrentable`'s. Consistency is kept. |
| RentPallet.Pallet.SetRecurring | pallets/rent/src/lib.rs:329-355 | Outcome and storage are `RentSpec.SetRecurring`'s. Consistency is kept. |
| RentPallet.Pallet.ExtendRent | pallets/rent/src/lib.rs:359-373 | Outcome and storage are `RentSpec.ExtendRent`'s. Consistency is kept. |
| RentPallet.Pallet.DoExtendRent | pallets/rent/src/lib.rs:526-601 | Outcome and storage are `RentSpec.DoExtendRent`'s. |
| RentPallet.Pallet.EquipCollectible | pallets/rent/src/lib.rs:377-406 | Outcome and storage are `RentSpec.Equip`'s. Consistency is kept. |
| RentPallet.Pallet.UnequipCollectible | pallets/rent/src/lib.rs:410-424 | Outcome and storage are `RentSpec.UnequipCollectible`'s. Consistency is kept. |
| RentPallet.Pallet.ProcessRental | pallets/rent/src/lib.rs:606-672 | One loop iteration produces `RentSpec.ProcessRental`'s outcome and storage, or its halt. |
| RentPallet.Pallet.DoProcessRentalPeriods | pallets/rent/src/lib.rs:603-676 | The sweep produces `RentSpec.ProcessRentalPeriods`'s outcomes and storage. It never panics, and on divergence it leaves storage as it was. Consistency is kept. |
| RentPallet.Pallet.RunToBlock | pallets/rent/src/mock.rs:177-187 | Sweeping each block in increasing order is `RentSpec.RunToBlock`. It never panics. |
| NftSpec.Mint | pallets/nft-on-rent/src/lib.rs:215-241 | `do_mint` as a transition. Its contract is stated by `NftProperties.MintBehaviour` and `NftInvariant.MintKeepsConsistent`. |
| NftSpec.SetRentable | pallets/nft-on-rent/src/lib.rs:148-169 | `set_rentable` as a transition. Its contract is stated by `NftProperties.SetRentableBehaviour`, `NftProperties.SetRentableWhileRented` and `NftInvariant.SetRentableKeepsConsistent`. |
| NftSpec.SetUnrentable | pallets/nft-on-rent/src/lib.rs:196-209 | `set_unrentable` as a transition. Its contract is stated by `NftProperties.SetUnrentableBehaviour` and `NftInvariant.SetUnrentableKeepsConsistent`. |
| NftSpec.Rent | pallets/nft-on-rent/src/lib.rs:173-192 | `rent` as a transition. Its contract is stated by `NftProperties.RentChecks`, `NftProperties.RentNeverPanics` and `NftInvariant.RentKeepsConsistent`. |
| NftSpec.DoRentCollectible | pallets/nft-on-rent/src/lib.rs:243-286 | `do_rent_collectible` as a transition. Its contract is stated by `NftProperties.DoRentErrors` and `NftProperties.DoRentBehaviour`. |
| NftSpec.InsertionBlock | pallets/nft-on-rent/src/lib.rs:304-317 | The bucket search of `insert_rental_period`. Its contract is stated by `Schedule.ProbeLands` and `NftProperties.InsertRentalPeriodBehaviour`. |
| NftSpec.Insert | pallets/nft-on-rent/src/lib.rs:313-319 | The append of `insert_rental_period`. Its contract is stated by `Schedule.Append` and `NftProperties.InsertRentalPeriodBehaviour`. |
| NftSpec.ProcessRental | pallets/nft-on-rent/src/lib.rs:333-381 | One iteration of the sweep loop. Its contract is stated by `NftProperties.ProcessRentalBehaviour` and `NftInvariant.ProcessRentalKeepsConsistent`. |
| NftSpec.ProcessRentals | pallets/nft-on-rent/src/lib.rs:333-381 | A completed loop produces one outcome per snapshot entry. |
| NftSpec.ProcessRentalPeriods | pallets/nft-on-rent/src/lib.rs:330-384 | A completed sweep has one outcome per entry of bucket `n`, and bucket `n` is removed. |
| NftInvariant.MintKeepsConsistent | pallets/nft-on-rent/src/lib.rs:215-241 | `do_mint` keeps the invariant, which is:<br>- keys match;<br>- rentable implies priced;<br>- every scheduled rental is of an existing rented collectible with a period of 3 to 90 blocks;<br>- no collectible is scheduled twice. |
| NftInvariant.SetRentableKeepsConsistent | pallets/nft-on-rent/src/lib.rs:148-169 | `set_rentable` keeps consistency. |
| NftInvariant.SetUnrentableKeepsConsistent | pallets/nft-on-rent/src/lib.rs:196-209 | `set_unrentable` keeps consistency. |
| NftInvariant.DoRentKeepsConsistent | pallets/nft-on-rent/src/lib.rs:243-286 | Renting an unrented collectible for an allowed period schedules it exactly once. |
| NftInvariant.RentKeepsConsistent | pallets/nft-on-rent/src/lib.rs:173-192 | `rent` keeps consistency. |
| NftInvariant.ProcessRentalKeepsConsistent | pallets/nft-on-rent/src/lib.rs:333-381 | On consistent storage, a sweep step panics only when a renewing lessee cannot pay one block's price. It keeps consistency. |
| NftInvariant.ProcessRentalsKeepsConsistent | pallets/nft-on-rent/src/lib.rs:333-381 | A prefix of the loop that panics has reached a lessee who cannot pay. A completed prefix leaves consistent storage. |
| NftInvariant.SweepKeepsConsistent | pallets/nft-on-rent/src/lib.rs:330-384 | The sweep panics only at a renewing lessee who cannot pay. A completed sweep leaves consistent storage. |
| NftProperties.MintBehaviour | pallets/nft-on-rent/src/lib.rs:215-241 | Fails exactly on an existing id, with `DuplicateCollectible`. On success it adds only the record `{lessor = caller, no lessee, not rentable, no price}`. |
| NftProperties.SetRentableBehaviour | pallets/nft-on-rent/src/lib.rs:148-169 | Existence check, then lessor check. On success it sets the price and `rentable` and changes nothing else. |
| NftProperties.SetRentableWhileRented | pallets/nft-on-rent/src/lib.rs:155-162 | `set_rentable` has no rented check: it succeeds on a rented collectible and keeps its lessee. |
| NftProperties.SetUnrentableBehaviour | pallets/nft-on-rent/src/lib.rs:196-209 | Existence check, then lessor check. On success it clears `rentable` and changes nothing else. |
| NftProperties.RentChecks | pallets/nft-on-rent/src/lib.rs:173-192 | The checks in order: `blocks < 3`, `> 90`, missing, own, rented, not rentable. Each error is returned exactly when the earlier checks pass. When all pass, the call is `do_rent_collectible`. |
| NftProperties.DoRentErrors | pallets/nft-on-rent/src/lib.rs:243-286 | `do_rent_collectible` errs only on a missing collectible or a failed transfer. |
| NftProperties.DoRentBehaviour | pallets/nft-on-rent/src/lib.rs:243-286 | Panics exactly without a price. Fails the transfer exactly when the lessee holds less than `price * interval`. Diverges exactly when the lessee can pay and both probed buckets are full. Any non-`Ok` outcome leaves storage unchanged. On success the lessor is paid by the lessee, no other balance changes, and the lessee is recorded. The configuration is appended at the end of bucket `now + interval`, or `now + 1` when that is full. Other buckets and the block number are unchanged. |
| NftProperties.RentNeverPanics | pallets/nft-on-rent/src/lib.rs:184-190 | When rentable implies priced, `rent` never panics. |
| NftProperties.InsertRentalPeriodBehaviour | pallets/nft-on-rent/src/lib.rs:304-328 | Targets `now + interval` and falls back to `now + 1`. It appends there and leaves other buckets unchanged. |
| NftProperties.ProcessRentalBehaviour | pallets/nft-on-rent/src/lib.rs:333-381 | A missing record or lessee panics. When not rentable or not recurring, only the lessee is cleared. Otherwise the lessee pays one block's price, not the interval's, and a lessee who cannot pay panics. It diverges exactly when the lessee can pay and both probed buckets are full. On renewal no other balance changes, the same configuration is appended to `now + interval` or `now + 1` only, and the collectibles and block number are unchanged. |
| NftProperties.ProcessRentalsHaltStops | pallets/nft-on-rent/src/lib.rs:361-367 | A halted step halts the whole sweep the same way. |
| NftProperties.SweepPanicsIffCannotPay | pallets/nft-on-rent/src/lib.rs:330-384 | On consistent storage, the sweep panics exactly when it reaches, in order, a renewing lessee who cannot pay. |
| NftScenarios.MintOfferRentScenario | pallets/nft-on-rent/src/lib.rs:215-286 | Mint, offer at 5 and rent for 10 at block 1: due at block 11, and the lessor has 1050 while the lessee has 950. |
| NftScenarios.RentRejectedScenario | pallets/nft-on-rent/src/lib.rs:181-188 | Rejections: own collectible, 2 blocks, 91 blocks, and a collectible that is not offered. |
| NftScenarios.RenewalChargesOneBlockScenario | pallets/nft-on-rent/src/lib.rs:357-380 | A renewal charges exactly one block's price and schedules the same configuration `interval` blocks later. |
| NftScenarios.UnpaidRenewalPanicsScenario | pallets/nft-on-rent/src/lib.rs:361-367 | A lessee who cannot pay makes the sweep panic. |
| NftScenarios.WithdrawnRentalEndsScenario | pallets/nft-on-rent/src/lib.rs:343-355 | After `set_unrentable`, the sweep clears the lessee and charges nothing. |
| NftPallet.Pallet.Mint | pallets/nft-on-rent/src/lib.rs:215-241 | Outcome and storage are `NftSpec.Mint`'s. Consistency is kept. |
| NftPallet.Pallet.SetRentable | pallets/nft-on-rent/src/lib.rs:148-169 | Outcome and storage are `NftSpec.SetRentable`'s. Consistency is kept. |
| NftPallet.Pallet.Rent | pallets/nft-on-rent/src/lib.rs:173-192 | Outcome and storage are `NftSpec.Rent`'s. Consistency is kept. |
| NftPallet.Pallet.SetUnrentable | pallets/nft-on-rent/src/lib.rs:196-209 | Outcome and storage are `NftSpec.SetUnrentable`'s. Consistency is kept. |
| NftPallet.Pallet.DoRentCollectible | pallets/nft-on-rent/src/lib.rs:243-286 | Outcome and storage are `NftSpec.DoRentCollectible`'s. The transfer is undone when the probe diverges. |
| NftPallet.Pallet.InsertRentalPeriod | pallets/nft-on-rent/src/lib.rs:304-328 | The retry loop returns the probed bucket and appends the configuration at its end. It reports `None` when the loop never ends. |
| NftPallet.Pallet.ProcessRental | pallets/nft-on-rent/src/lib.rs:333-381 | One iteration produces `NftSpec.ProcessRental`'s outcome and storage, or its halt. |
| NftPallet.Pallet.ProcessRentalPeriods | pallets/nft-on-rent/src/lib.rs:330-395 | The sweep produces `NftSpec.ProcessRentalPeriods`'s outcomes and storage. It panics only at a lessee who cannot pay, and a halt leaves storage as it was. Consistency is kept. |

## Left out

- Events: `deposit_event` calls are not modelled. The sweep's per-obligation outcome stands in for the events that distinguish its branches.
- Id generation (`_gen_unique_id`: randomness, SCALE encoding, blake2): the id is a parameter of `Mint`.
- Origins (`ensure_signed`), weights, storage hashers and the pallet macros: callers are plain account numbers.
- The `on_initialize` wiring: the sweep methods take the block number directly.
- The existential deposit and `KeepAlive`: a transfer succeeds exactly when the payer's free balance covers the amount.
- Integer widths: balances, blocks and periods are unbounded naturals, so the `u32`/`u64`/balance overflows of the source are not modelled.
- RentSpec.DoExtendRent: narrows `blocks` and the price to `u32` and panics when either does not fit, as `convert_to_primitive` does; the wrap-around of their `u32` product is not modelled.
- RentSpec.ExtendRent: `blocks + next_rent_block` does not wrap.
- The earlier pallet's `MaximumOwned` constant: it is declared but never read (pallets/nft-on-rent/src/lib.rs:26-27).
- The test harnesses (`mock.rs`) beyond `run_to_block`: runtime construction and genesis balances are given as the initial state of the scenario lemmas.
- `pallets/nft-on-rent/src/tests.rs`: it only checks mint, through fields the struct does not have. `NftProperties.MintBehaviour` states what it means to check.
- In the rent pallet's tests the struct is read through a field name it does not have (pallets/rent/src/tests.rs:106). The scenarios take those tests as the intended behaviour.
