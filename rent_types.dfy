/**
 * Storage records, errors and outcomes of the rent pallet (pallets/rent/src/lib.rs).
 */
module RentTypes {

  import opened Wrappers
  import opened Runtime
  import opened Ledger
  import opened Schedule

  /** A collectible (the `Collectible` struct). */
  datatype Collectible = Collectible(
    uniqueId: CollectibleId,
    pricePerBlock: Option<Balance>,
    lessor: AccountId,
    lessee: Option<AccountId>,
    rentable: bool,
    minimumRentalPeriod: Option<nat>,
    maximumRentalPeriod: Option<nat>)

  /** A rental agreement (`RentalPeriodConfig`), stored under (lessee, collectible). */
  datatype RentalPeriodConfig = RentalPeriodConfig(
    rentalPeriodicInterval: nat,
    nextRentBlock: BlockNumber,
    recurring: bool)

  /** One due obligation in a `PendingRentals` bucket: (collectible, lessee). */
  type PendingRental = (CollectibleId, AccountId)

  type Agreements = map<(AccountId, CollectibleId), RentalPeriodConfig>

  /** The pallet's `Error` enum. */
  datatype Error =
    | DuplicateCollectible
    | NoCollectible
    | NotLessor
    | NotLessee
    | AlreadyRented
    | TooManyCollectibles
    | RentNotAvailable
    | CannotRentOwnCollectible
    | RentalPeriodTooShort
    | RentalPeriodTooLong
    | NotAllowedWhileRented
    | TooManyCollectiblesEquiped
    | TooManyCollectiblesOwned
    | NotEnoughBalance
    | MinimumMustBeLessThanMaximum
    | NoAccountFoundForCollectible

  /** What a call returns to its caller. */
  datatype Outcome = Ok | Err(error: Error) | Halted(halt: Halt)

  /** Every storage item of the pallet, the ledger, the current block and the two capacity constants. */
  datatype State = State(
    collectibles: map<CollectibleId, Collectible>,
    lessorCollectibles: map<AccountId, seq<CollectibleId>>,
    lesseeCollectibles: Agreements,
    rentableCollectibles: seq<CollectibleId>,
    pendingRentals: Buckets<PendingRental>,
    accountEquips: map<AccountId, seq<CollectibleId>>,
    balances: Balances,
    blockNumber: BlockNumber,
    maximumOwned: nat,
    maximumRentablesPerBlock: nat)

  /** The result of one call: what it returns and the storage afterwards. */
  datatype Transition = Transition(outcome: Outcome, state: State)

  /** A signed call of the pallet with its arguments; `Mint` carries the id it would generate. */
  datatype Call =
    | MintCall(lessor: AccountId, id: CollectibleId)
    | BurnCall(sender: AccountId, id: CollectibleId)
    | SetRentableCall(sender: AccountId, id: CollectibleId, price: Balance, minimum: nat, maximum: nat)
    | SetUnrentableCall(sender: AccountId, id: CollectibleId)
    | SetRecurringCall(sender: AccountId, id: CollectibleId, recurring: bool)
    | RentCall(sender: AccountId, id: CollectibleId, blocks: nat, recurring: bool)
    | ExtendRentCall(sender: AccountId, id: CollectibleId, blocks: nat)
    | EquipCall(sender: AccountId, id: CollectibleId)
    | UnequipCall(sender: AccountId, id: CollectibleId)

  /** How the sweep settled one due obligation (the `RentalEnded`, `ErrorTransferingRent` and `RentPayed` events). */
  datatype RentalOutcome = RentalEnded | PaymentFailed | Renewed(nextRentBlock: BlockNumber)

  /** One step of the sweep: the storage after one obligation, or the reason the sweep stopped. */
  datatype SweepStep = Swept(state: State, outcome: RentalOutcome) | Stopped(halt: Halt)

  /** A whole sweep: the storage and the outcome of every obligation in order, or the reason it stopped. */
  datatype SweepRun = Completed(state: State, outcomes: seq<RentalOutcome>) | Aborted(halt: Halt)

  /** The largest `u32`, for `convert_to_primitive::<_, u32>`. */
  const U32_MAX: nat := 0xFFFF_FFFF
}
