/**
 * The currency collaborator (`T::Currency`) reduced to what the pallets use of it:
 * a free balance per account and an all-or-nothing transfer.
 * Existential deposits and the `KeepAlive` requirement are not modelled.
 */
module Ledger {

  /** Accounts are `u64` in the test runtime; here any natural number. */
  type AccountId = nat

  type Balance = nat

  /** Free balance of every account; an account missing from the map holds nothing. */
  type Balances = map<AccountId, Balance>

  /** `T::Currency::free_balance`. */
  function FreeBalance(b: Balances, who: AccountId): Balance
  {
    if who in b then b[who] else 0
  }

  /** A transfer of `amount` out of `from` succeeds exactly when `from` holds at least that much. */
  predicate CanTransfer(b: Balances, from: AccountId, amount: Balance)
  {
    FreeBalance(b, from) >= amount
  }

  /** `T::Currency::transfer` when it succeeds: debit `from`, then credit `to`. */
  function Transfer(b: Balances, from: AccountId, to: AccountId, amount: Balance): (r: Balances)
    requires CanTransfer(b, from, amount)
    ensures from != to ==> FreeBalance(r, from) == FreeBalance(b, from) - amount
    ensures from != to ==> FreeBalance(r, to) == FreeBalance(b, to) + amount
    ensures from == to ==> FreeBalance(r, from) == FreeBalance(b, from)
    ensures forall who :: who != from && who != to ==> FreeBalance(r, who) == FreeBalance(b, who)
  {
    var debited := b[from := FreeBalance(b, from) - amount];
    debited[to := FreeBalance(debited, to) + amount]
  }

  /** A transfer between two distinct accounts moves value and creates none. */
  lemma TransferConserves(b: Balances, from: AccountId, to: AccountId, amount: Balance)
    requires CanTransfer(b, from, amount)
    ensures FreeBalance(Transfer(b, from, to, amount), from) + FreeBalance(Transfer(b, from, to, amount), to)
         == FreeBalance(b, from) + FreeBalance(b, to)
  {
  }
}
