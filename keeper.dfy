/** The ledger keeper: the token store, keyed by collection (denom) and token
    id, and the owner index, which must always list for each account exactly
    the tokens whose owner field names it. The keeper's own source is not part
    of this model; its four operations are modelled by what the handlers rely
    on. */
module Keeper {
  import opened Wrappers
  import opened Sdk
  import opened Nft
  import opened Bank

  datatype TokenKey = TokenKey(denom: string, id: string)

  type Store = map<TokenKey, BaseNFT>
  type OwnerIndex = map<Address, set<TokenKey>>

  /** The tokens the index lists under `a`. */
  function Owned(owners: OwnerIndex, a: Address): set<TokenKey> {
    if a in owners then owners[a] else {}
  }

  /** The tokens whose owner field is `a`. */
  ghost function OwnedIn(nfts: Store, a: Address): set<TokenKey> {
    set k | k in nfts && nfts[k].owner == a
  }

  /** The owner index is the projection of the owner fields. */
  ghost predicate IndexMatches(nfts: Store, owners: OwnerIndex) {
    forall a :: Owned(owners, a) == OwnedIn(nfts, a)
  }

  /** Every token is stored under its own id. */
  ghost predicate KeysMatchIds(nfts: Store) {
    forall k :: k in nfts ==> nfts[k].id == k.id
  }

  function AddOwner(owners: OwnerIndex, a: Address, k: TokenKey): OwnerIndex {
    owners[a := Owned(owners, a) + {k}]
  }

  function RemoveOwner(owners: OwnerIndex, a: Address, k: TokenKey): OwnerIndex {
    owners[a := Owned(owners, a) - {k}]
  }

  /** Moves `k` from `from`'s entry to `to`'s; nothing to do when they agree. */
  function SwapOwners(owners: OwnerIndex, k: TokenKey, from: Address, to: Address): OwnerIndex {
    if from == to then owners else AddOwner(RemoveOwner(owners, from, k), to, k)
  }

  lemma IndexAfterInsert(nfts: Store, owners: OwnerIndex, k: TokenKey, v: BaseNFT)
    requires IndexMatches(nfts, owners) && k !in nfts
    ensures IndexMatches(nfts[k := v], AddOwner(owners, v.owner, k))
  {
    var nfts', owners' := nfts[k := v], AddOwner(owners, v.owner, k);
    forall a ensures Owned(owners', a) == OwnedIn(nfts', a) {
      assert Owned(owners, a) == OwnedIn(nfts, a);
      if a == v.owner {
        assert OwnedIn(nfts', a) == OwnedIn(nfts, a) + {k};
      } else {
        assert OwnedIn(nfts', a) == OwnedIn(nfts, a);
      }
    }
  }

  lemma IndexAfterRemove(nfts: Store, owners: OwnerIndex, k: TokenKey)
    requires IndexMatches(nfts, owners) && k in nfts
    ensures IndexMatches(nfts - {k}, RemoveOwner(owners, nfts[k].owner, k))
  {
    var nfts', owners' := nfts - {k}, RemoveOwner(owners, nfts[k].owner, k);
    forall a ensures Owned(owners', a) == OwnedIn(nfts', a) {
      assert Owned(owners, a) == OwnedIn(nfts, a);
      if a == nfts[k].owner {
        assert OwnedIn(nfts', a) == OwnedIn(nfts, a) - {k};
      } else {
        assert OwnedIn(nfts', a) == OwnedIn(nfts, a);
      }
    }
  }

  lemma IndexAfterReplace(nfts: Store, owners: OwnerIndex, k: TokenKey, v: BaseNFT)
    requires IndexMatches(nfts, owners) && k in nfts
    ensures IndexMatches(nfts[k := v], SwapOwners(owners, k, nfts[k].owner, v.owner))
  {
    var from := nfts[k].owner;
    IndexAfterRemove(nfts, owners, k);
    var removed := RemoveOwner(owners, from, k);
    IndexAfterInsert(nfts - {k}, removed, k, v);
    assert (nfts - {k})[k := v] == nfts[k := v];
    if from == v.owner {
      forall a ensures Owned(owners, a) == Owned(AddOwner(removed, v.owner, k), a) {
        assert Owned(owners, a) == OwnedIn(nfts, a);
      }
    }
  }

  /** The number of live tokens of a collection. */
  ghost function Supply(nfts: Store, denom: string): nat {
    |set k | k in nfts && k.denom == denom|
  }

  lemma SupplyAfterInsert(nfts: Store, k: TokenKey, v: BaseNFT, denom: string)
    requires k !in nfts
    ensures Supply(nfts[k := v], denom) == Supply(nfts, denom) + (if k.denom == denom then 1 else 0)
  {
    var before := set x | x in nfts && x.denom == denom;
    var after := set x | x in nfts[k := v] && x.denom == denom;
    if k.denom == denom {
      assert after == before + {k};
    } else {
      assert after == before;
    }
  }

  lemma SupplyAfterRemove(nfts: Store, k: TokenKey, denom: string)
    requires k in nfts
    ensures Supply(nfts - {k}, denom) == Supply(nfts, denom) - (if k.denom == denom then 1 else 0)
  {
    var before := set x | x in nfts && x.denom == denom;
    var after := set x | x in nfts - {k} && x.denom == denom;
    if k.denom == denom {
      assert after == before - {k};
    } else {
      assert after == before;
    }
  }

  /** The tokens of a collection as counted through the owner index: the
      keys of that collection in the union of all owners' key sets. This is
      the sum of the per-owner counts a supply invariant adds up whenever
      no key is indexed under two owners, which `IndexMatches` ensures. */
  ghost function IndexedSupply(owners: OwnerIndex, denom: string): nat {
    |set a, k | a in owners && k in owners[a] && k.denom == denom :: k|
  }

  /** The supply invariant: for every collection, the store and the owner
      index count the same tokens. */
  lemma SupplyInvariant(nfts: Store, owners: OwnerIndex, denom: string)
    requires IndexMatches(nfts, owners)
    ensures Supply(nfts, denom) == IndexedSupply(owners, denom)
  {
    var stored := set k | k in nfts && k.denom == denom;
    var indexed := set a, k | a in owners && k in owners[a] && k.denom == denom :: k;
    forall k | k in stored ensures k in indexed {
      var a := nfts[k].owner;
      assert k in OwnedIn(nfts, a);
      assert Owned(owners, a) == OwnedIn(nfts, a);
    }
    forall k | k in indexed ensures k in stored {
      var a :| a in owners && k in owners[a] && k.denom == denom;
      assert Owned(owners, a) == OwnedIn(nfts, a);
    }
    assert stored == indexed;
  }

  class Keeper {
    var nfts: Store
    var owners: OwnerIndex
    const coinKeeper: CoinKeeper

    ghost predicate Valid()
      reads this
    {
      KeysMatchIds(nfts) && IndexMatches(nfts, owners)
    }

    constructor (bank: CoinKeeper)
      ensures Valid() && nfts == map[] && owners == map[] && coinKeeper == bank
    {
      nfts, owners := map[], map[];
      coinKeeper := bank;
    }

    /** `GetNFT`: the stored token, or `ErrUnknownNFT`. */
    function GetNFT(denom: string, id: string): (r: Result<BaseNFT, Error>)
      reads this
      requires Valid()
      ensures r.Ok? <==> TokenKey(denom, id) in nfts
      ensures r.Ok? ==> r.value == nfts[TokenKey(denom, id)] && r.value.id == id
      ensures r.Err? ==> r.error == ErrUnknownNFT
    {
      var key := TokenKey(denom, id);
      if key in nfts then Ok(nfts[key]) else Err(ErrUnknownNFT)
    }

    /** The tokens an account owns, read from the index: exactly those whose
        owner field names it. */
    function OwnedBy(a: Address): (r: set<TokenKey>)
      reads this
      requires Valid()
      ensures forall k :: k in r <==> k in nfts && nfts[k].owner == a
    {
      assert Owned(owners, a) == OwnedIn(nfts, a);
      Owned(owners, a)
    }

    /** `UpdateNFT`: overwrite a stored token, moving its owner-index entry
        when the owner changed. */
    method UpdateNFT(denom: string, nft: BaseNFT) returns (r: Outcome<Error>)
      requires Valid()
      modifies this
      ensures Valid()
      ensures var key := TokenKey(denom, nft.id);
        if key in old(nfts) then r == Pass && nfts == old(nfts)[key := nft]
        else r == Fail(ErrUnknownNFT) && nfts == old(nfts) && owners == old(owners)
    {
      var key := TokenKey(denom, nft.id);
      if key !in nfts {
        return Fail(ErrUnknownNFT);
      }
      var oldOwner := nfts[key].owner;
      IndexAfterReplace(nfts, owners, key, nft);
      owners := SwapOwners(owners, key, oldOwner, nft.owner);
      nfts := nfts[key := nft];
      return Pass;
    }

    /** `MintNFT`: store a new token and index it under its owner. */
    method MintNFT(denom: string, nft: BaseNFT) returns (r: Outcome<Error>)
      requires Valid()
      modifies this
      ensures Valid()
      ensures var key := TokenKey(denom, nft.id);
        if key in old(nfts) then r == Fail(ErrNFTAlreadyExists) && nfts == old(nfts) && owners == old(owners)
        else r == Pass && nfts == old(nfts)[key := nft]
      ensures forall d :: Supply(nfts, d) == Supply(old(nfts), d) + (if r.Pass? && d == denom then 1 else 0)
    {
      var key := TokenKey(denom, nft.id);
      if key in nfts {
        return Fail(ErrNFTAlreadyExists);
      }
      IndexAfterInsert(nfts, owners, key, nft);
      forall d ensures Supply(nfts[key := nft], d) == Supply(nfts, d) + (if d == denom then 1 else 0) {
        SupplyAfterInsert(nfts, key, nft, d);
      }
      owners := AddOwner(owners, nft.owner, key);
      nfts := nfts[key := nft];
      return Pass;
    }

    /** `DeleteNFT`: remove a token from the store and from the index. */
    method DeleteNFT(denom: string, id: string) returns (r: Outcome<Error>)
      requires Valid()
      modifies this
      ensures Valid()
      ensures var key := TokenKey(denom, id);
        if key !in old(nfts) then r == Fail(ErrUnknownNFT) && nfts == old(nfts) && owners == old(owners)
        else r == Pass && nfts == old(nfts) - {key}
      ensures forall d :: Supply(nfts, d) == Supply(old(nfts), d) - (if r.Pass? && d == denom then 1 else 0)
    {
      var key := TokenKey(denom, id);
      if key !in nfts {
        return Fail(ErrUnknownNFT);
      }
      IndexAfterRemove(nfts, owners, key);
      forall d ensures Supply(nfts - {key}, d) == Supply(nfts, d) - (if d == denom then 1 else 0) {
        SupplyAfterRemove(nfts, key, d);
      }
      owners := RemoveOwner(owners, nfts[key].owner, key);
      nfts := nfts - {key};
      return Pass;
    }
  }
}
