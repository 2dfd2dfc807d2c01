/** The currency the kitties pallet reserves and moves funds with: free and
    reserved balances per account, with `reserve`, `unreserve` and a transfer
    that keeps the sender alive.  An abstraction of the runtime's balances
    pallet, reduced to the checks the kitties pallet can observe. */
module Currency {
  import opened Runtime

  datatype CurrencyError = InsufficientBalance | ExistentialDeposit | KeepAlive

  datatype Balances = Balances(
    free: map<AccountId, Balance>,
    reserved: map<AccountId, Balance>,
    existentialDeposit: Balance)

  /** An account absent from the map holds nothing. */
  function Free(b: Balances, who: AccountId): Balance
  {
    if who in b.free then b.free[who] else 0
  }

  function ReservedOf(b: Balances, who: AccountId): Balance {
    if who in b.reserved then b.reserved[who] else 0
  }

  function Total(b: Balances, who: AccountId): Balance {
    Free(b, who) + ReservedOf(b, who)
  }

  /** Every account outside `touched` has the same free and reserved balance in `b` and `b'`. */
  ghost predicate SameExcept(b: Balances, b': Balances, touched: set<AccountId>) {
    && b'.existentialDeposit == b.existentialDeposit
    && forall a :: a !in touched ==> Free(b', a) == Free(b, a) && ReservedOf(b', a) == ReservedOf(b, a)
  }

  /** Moves `amount` from the free to the reserved balance of `who`; refused
      when the free balance does not cover it. */
  function Reserve(b: Balances, who: AccountId, amount: Balance): (r: Result<Balances, CurrencyError>)
    ensures r.Success? <==> amount <= Free(b, who)
    ensures r.Failure? ==> r.error == InsufficientBalance
    ensures r.Success? ==>
      && Free(r.value, who) + amount == Free(b, who)
      && ReservedOf(r.value, who) == ReservedOf(b, who) + amount
      && SameExcept(b, r.value, {who})
  {
    if Free(b, who) < amount then Failure(InsufficientBalance)
    else
      Success(b.(free := b.free[who := Free(b, who) - amount],
                 reserved := b.reserved[who := ReservedOf(b, who) + amount]))
  }

  /** Moves back to the free balance as much of `amount` as `who` has reserved. */
  function Unreserve(b: Balances, who: AccountId, amount: Balance): (r: Balances)
    ensures Total(r, who) == Total(b, who)
    ensures ReservedOf(r, who) == if amount <= ReservedOf(b, who) then ReservedOf(b, who) - amount else 0
    ensures SameExcept(b, r, {who})
  {
    var actual := if amount <= ReservedOf(b, who) then amount else ReservedOf(b, who);
    b.(free := b.free[who := Free(b, who) + actual],
       reserved := b.reserved[who := ReservedOf(b, who) - actual])
  }

  /** Transfer of `value` from the free balance of `source` to `dest`, which must
      leave `source` with at least the existential deposit (KeepAlive) and give
      `dest` at least that much.  A zero amount or a transfer to oneself does nothing. */
  function Transfer(b: Balances, source: AccountId, dest: AccountId, value: Balance): (r: Result<Balances, CurrencyError>)
    ensures value == 0 || source == dest ==> r == Success(b)
    ensures r.Success? <==>
      || value == 0 || source == dest
      || (&& value <= Free(b, source)
          && Total(b, dest) + value >= b.existentialDeposit
          && Total(b, source) - value >= b.existentialDeposit)
    ensures value != 0 && source != dest ==>
      && (Free(b, source) < value ==> r == Failure(InsufficientBalance))
      && (Free(b, source) >= value && Total(b, dest) + value < b.existentialDeposit ==>
            r == Failure(ExistentialDeposit))
      && ((Free(b, source) >= value && Total(b, dest) + value >= b.existentialDeposit
           && Total(b, source) - value < b.existentialDeposit) ==> r == Failure(KeepAlive))
    ensures r.Success? && value != 0 && source != dest ==>
      && Free(r.value, source) + value == Free(b, source)
      && Free(r.value, dest) == Free(b, dest) + value
      && ReservedOf(r.value, source) == ReservedOf(b, source)
      && ReservedOf(r.value, dest) == ReservedOf(b, dest)
      && Total(b, source) - value >= b.existentialDeposit
      && SameExcept(b, r.value, {source, dest})
  {
    if value == 0 || source == dest then Success(b)
    else if Free(b, source) < value then Failure(InsufficientBalance)
    else if Total(b, dest) + value < b.existentialDeposit then Failure(ExistentialDeposit)
    else if Total(b, source) - value < b.existentialDeposit then Failure(KeepAlive)
    else
      Success(b.(free := b.free[source := Free(b, source) - value][dest := Free(b, dest) + value]))
  }
}
