/**
 * Storage records, errors and outcomes of the earlier, smaller rental pallet
 * (pallets/nft-on-rent/src/lib.rs): one map of collectibles and one schedule of
 * rental configurations, with no owner, equip or agreement indexes.
 */
module NftTypes {

  import opened Wrappers
  import opened Runtime
  import opened Ledger
  import opened Schedule

  /** A collectible (the `Collectible` struct). */
  datatype Collectible = Collectible(
    uniqueId: CollectibleId,
    pricePerBlock: Option<Balance>,
    lessor: AccountId,
    currentLessee: Option<AccountId>,
    rentable: bool)

  /** A scheduled rental (`RentalPeriodConfig`): it names the collectible but not the lessee. */
  datatype RentalPeriodConfig = RentalPeriodConfig(
    collectible: CollectibleId,
    rentalPeriodicInterval: nat,
    recurring: bool)

  /**
   * The pallet's `Error` enum, plus `InsufficientBalance`, which stands for the error the
   * currency's `transfer` returns when the payer cannot pay (it is not one of the pallet's own).
   */
  datatype Error =
    | DuplicateCollectible
    | NoCollectible
    | NotLessor
    | AlreadyRented
    | TooManyCollectibles
    | RentNotAvailable
    | CannotRentOwnCollectible
    | RentalPeriodTooShort
    | RentalPeriodTooLong
    | InsufficientBalance

  /** What a call returns to its caller. */
  datatype Outcome = Ok | Err(error: Error) | Halted(halt: Halt)

  /** The two storage items, the ledger, the current block and the bucket capacity. */
  datatype State = State(
    collectibleMap: map<CollectibleId, Collectible>,
    rentalPeriods: Buckets<RentalPeriodConfig>,
    balances: Balances,
    blockNumber: BlockNumber,
    maximumRentablesPerBlock: nat)

  /** The result of one call: what it returns and the storage afterwards. */
  datatype Transition = Transition(outcome: Outcome, state: State)

  /** How the sweep settled one scheduled rental (the `RentalPeriodEnded` and `RentPayed` events). */
  datatype RentalOutcome = RentalEnded | Renewed(nextRentBlock: BlockNumber)

  /** One step of the sweep: the storage after one rental, or the reason the sweep stopped. */
  datatype SweepStep = Swept(state: State, outcome: RentalOutcome) | Stopped(halt: Halt)

  /** A whole sweep: the storage and the outcome of every rental in order, or the reason it stopped. */
  datatype SweepRun = Completed(state: State, outcomes: seq<RentalOutcome>) | Aborted(halt: Halt)

  /** The bounds `rent` puts on the number of blocks rented. */
  const MinimumRentalPeriod: nat := 3
  const MaximumRentalPeriod: nat := 90
}
