/** The coin keeper the purchase handler pays through (`SendCoins`). It is
    the host's bank module, modelled here only as far as the handler can
    observe it: a transfer either moves the amount or fails and moves
    nothing. */
module Bank {
  import opened Wrappers
  import opened Sdk

  function Balance(balances: map<Address, Coins>, a: Address): Coins {
    if a in balances then balances[a] else map[]
  }

  /** Debit `from`, then credit `to`. Exactly `amt` leaves `from` and
      reaches `to`, every other account keeps its coins, and a transfer to
      oneself changes no amount. */
  function Transfer(balances: map<Address, Coins>, from: Address, to: Address, amt: Coins): (r: map<Address, Coins>)
    requires Covers(Balance(balances, from), amt)
    ensures forall a :: a != from && a != to ==> Balance(r, a) == Balance(balances, a)
    ensures from != to ==> forall d ::
      AmountOf(Balance(r, from), d) + AmountOf(Balance(r, to), d)
      == AmountOf(Balance(balances, from), d) + AmountOf(Balance(balances, to), d)
    ensures forall d :: AmountOf(Balance(r, to), d) >= AmountOf(amt, d)
    ensures from != to ==> forall d ::
      AmountOf(Balance(r, from), d) + AmountOf(amt, d) == AmountOf(Balance(balances, from), d)
      && AmountOf(Balance(r, to), d) == AmountOf(Balance(balances, to), d) + AmountOf(amt, d)
    ensures from == to ==> forall a, d :: AmountOf(Balance(r, a), d) == AmountOf(Balance(balances, a), d)
  {
    var debited := balances[from := Sub(Balance(balances, from), amt)];
    debited[to := Add(Balance(debited, to), amt)]
  }

  class CoinKeeper {
    var balances: map<Address, Coins>

    constructor (initial: map<Address, Coins>)
      ensures balances == initial
    {
      balances := initial;
    }

    /** `SendCoins`: fails, changing nothing, when `from` does not hold `amt`. */
    method SendCoins(from: Address, to: Address, amt: Coins) returns (r: Outcome<Error>)
      modifies this
      ensures r.Pass? <==> Covers(Balance(old(balances), from), amt)
      ensures r.Pass? ==> balances == Transfer(old(balances), from, to, amt)
      ensures r.Fail? ==> balances == old(balances) && r == Fail(ErrInsufficientFunds("insufficient account funds"))
    {
      if !Covers(Balance(balances, from), amt) {
        return Fail(ErrInsufficientFunds("insufficient account funds"));
      }
      balances := Transfer(balances, from, to, amt);
      return Pass;
    }
  }
}
