/** The parts of the host SDK that the module touches: account addresses,
    coin amounts and the error values the handlers return. */
module Sdk {

  type Byte = b: int | 0 <= b < 256

  /** `sdk.AccAddress`: a byte string. */
  type Address = seq<Byte>

  /** `AccAddress.Empty()`: an address with no bytes. */
  predicate EmptyAddress(a: Address): (r: bool)
    ensures r <==> a == []
  {
    |a| == 0
  }

  /** `sdk.Coins`, one amount per coin denomination. */
  type Coins = map<string, nat>

  function AmountOf(c: Coins, denom: string): nat {
    if denom in c then c[denom] else 0
  }

  /** `Coins.IsZero`: no coins, or every amount is zero. */
  predicate IsZero(c: Coins): (r: bool)
    ensures r <==> forall d :: AmountOf(c, d) == 0
  {
    forall d :: d in c ==> AmountOf(c, d) == 0
  }

  /** `Coins.IsAllPositive`: at least one coin and every amount is positive. */
  predicate IsAllPositive(c: Coins): (r: bool)
    ensures r ==> !IsZero(c)
  {
    |c| > 0 && forall d :: d in c ==> c[d] > 0
  }

  /** `Coins.IsAllGT(b)`: `a` is non-empty and, when `b` is non-empty, every
      denomination of `b` occurs in `a` with a strictly larger amount. */
  predicate IsAllGT(a: Coins, b: Coins): (r: bool)
    ensures r ==> |a| > 0 && Covers(a, b)
    ensures |b| > 0 && !(b.Keys <= a.Keys) ==> !r
  {
    |a| > 0 && (|b| == 0 || (b.Keys <= a.Keys && forall d :: d in b ==> a[d] > b[d]))
  }

  /** `have` holds at least `amt` in every denomination of `amt`. */
  predicate Covers(have: Coins, amt: Coins) {
    forall d :: d in amt ==> AmountOf(have, d) >= amt[d]
  }

  function Add(a: Coins, b: Coins): (r: Coins)
    ensures forall d :: AmountOf(r, d) == AmountOf(a, d) + AmountOf(b, d)
  {
    map d | d in a.Keys + b.Keys :: AmountOf(a, d) + AmountOf(b, d)
  }

  function Sub(a: Coins, b: Coins): (r: Coins)
    requires Covers(a, b)
    ensures forall d :: AmountOf(r, d) + AmountOf(b, d) == AmountOf(a, d)
  {
    map d | d in a.Keys + b.Keys :: AmountOf(a, d) - AmountOf(b, d)
  }

  /** Error values. The first four are the module's own (declared in a file
      that is not part of this model); the others are the SDK's, wrapped with
      the message the source attaches. */
  datatype Error =
    | ErrInvalidCollection
    | ErrInvalidNFT
    | ErrUnknownNFT
    | ErrNFTAlreadyExists
    | ErrInvalidAddress(reason: string)
    | ErrInsufficientFunds(reason: string)
    | ErrUnknownRequest(reason: string)
    | ErrSyntax(input: string)
    | ErrRange(input: string)
}
