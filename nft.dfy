/** The token record (`BaseNFT`) and its in-place setters. */
module Nft {
  import opened Text
  import opened Sdk

  /** A token as stored by the keeper: an immutable value. */
  datatype BaseNFT = BaseNFT(
    id: string,
    owner: Address,
    hash: string,     // digest of the proof, committed at mint time
    proof: string,    // the revealed preimage
    name: string,
    wins: nat,
    losses: nat,
    price: Coins)

  /** `NewBaseNFT`: hash, proof and name are trimmed; id, owner, the counters
      and the price are taken as given. */
  function NewBaseNFT(id: string, owner: Address, hash: string, proof: string, name: string,
                      wins: nat, losses: nat, price: Coins): (r: BaseNFT)
    ensures r.id == id && r.owner == owner && r.wins == wins && r.losses == losses && r.price == price
    ensures Unpadded(r.hash) && TrimmedFrom(r.hash, hash)
    ensures Unpadded(r.proof) && TrimmedFrom(r.proof, proof)
    ensures Unpadded(r.name) && TrimmedFrom(r.name, name)
  {
    BaseNFT(id, owner, TrimSpace(hash), TrimSpace(proof), TrimSpace(name), wins, losses, price)
  }

  /** A `*BaseNFT`: a token held by reference, so that the pointer-receiver
      setters update it in place. The getters of the source are the field
      reads of this class. */
  class Token {
    var id: string
    var owner: Address
    var hash: string
    var proof: string
    var name: string
    var wins: nat
    var losses: nat
    var price: Coins

    /** The record this token currently holds. */
    function Value(): BaseNFT
      reads this
    {
      BaseNFT(id, owner, hash, proof, name, wins, losses, price)
    }

    constructor (v: BaseNFT)
      ensures Value() == v
    {
      id, owner, hash, proof, name := v.id, v.owner, v.hash, v.proof, v.name;
      wins, losses, price := v.wins, v.losses, v.price;
    }

    method SetOwner(address: Address)
      modifies this
      ensures Value() == old(Value()).(owner := address)
    {
      owner := address;
    }

    method EditPrice(p: Coins)
      modifies this
      ensures Value() == old(Value()).(price := p)
    {
      price := p;
    }

    method EditMetadata(n: string)
      modifies this
      ensures Value() == old(Value()).(name := n)
    {
      name := n;
    }

    method IncreaseWins()
      modifies this
      ensures Value() == old(Value()).(wins := old(wins) + 1)
    {
      wins := wins + 1;
    }

    /** As written: stores `losses + 1` into `wins` and leaves `losses` alone. */
    method IncreaseLosses()
      modifies this
      ensures Value() == old(Value()).(wins := old(losses) + 1)
      ensures losses == old(losses)
    {
      wins := losses + 1;
    }

    /** What the name and the comment of `IncreaseLosses` call for. */
    method IncreaseLossesCorrected()
      modifies this
      ensures Value() == old(Value()).(losses := old(losses) + 1)
    {
      losses := losses + 1;
    }
  }

  /** A concrete run of `IncreaseLosses`: a token with 7 wins and 3 losses
      ends with 4 wins and still 3 losses. */
  method IncreaseLossesCounterexample() returns (before: BaseNFT, after: BaseNFT)
    ensures before.wins == 7 && before.losses == 3
    ensures after.wins == 4 && after.losses == 3
  {
    var t := new Token(BaseNFT("t1", [1], "", "", "", 7, 3, map[]));
    before := t.Value();
    t.IncreaseLosses();
    after := t.Value();
  }
}
