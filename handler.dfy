/** The message handlers: each is one read-modify-write against the keeper
    (and, for Buy, the bank). `GenericHandler` dispatches on the kind of
    message and `DeliverMsg` is the host around it: stateless checks first,
    and every write discarded when the handler fails. Events are not
    modelled. */
module Handler {
  import opened Wrappers
  import opened Sdk
  import opened Nft
  import opened Msgs
  import opened Keeper
  import opened Bank
  import opened Fight

  /** The digest `blakeHash` computes (blake3, hex encoded), taken as given. */
  type Digest = string -> string

  const HashMismatch: Error := ErrInsufficientFunds("Hash is not the blake3 hash of the Proof")
  const NotForSale: Error := ErrInsufficientFunds("Token is not for sale.")
  const NotEnoughCoins: Error := ErrInsufficientFunds("Not enough coins provided.")
  const BankRefused: Error := ErrInsufficientFunds("insufficient account funds")

  /** The label the challenge handler compares the winner against. */
  const ContestantLabel: string := "contestant"

  const UnknownTypePrefix: string := "unrecognized nft message type: "

  // ---------------------------------------------------------------------
  // Effects, as relations between the state before and after a handler.

  twostate predicate Unchanged(k: Keeper)
    reads k, k.coinKeeper
  {
    k.nfts == old(k.nfts) && k.owners == old(k.owners)
    && k.coinKeeper.balances == old(k.coinKeeper.balances)
  }

  /** The store becomes `nfts`; the bank is untouched. */
  twostate predicate StoreBecomes(k: Keeper, nfts: Store)
    reads k, k.coinKeeper
  {
    k.nfts == nfts && k.coinKeeper.balances == old(k.coinKeeper.balances)
  }

  /** Fail with ErrUnknownNFT on a missing token, otherwise replace the
      token by `edit` of itself. */
  twostate predicate Edited(k: Keeper, key: TokenKey, edit: BaseNFT -> BaseNFT, new r: Outcome<Error>)
    reads k, k.coinKeeper
  {
    if key !in old(k.nfts) then r == Fail(ErrUnknownNFT) && Unchanged(k)
    else r == Pass && StoreBecomes(k, old(k.nfts)[key := edit(old(k.nfts)[key])])
  }

  twostate predicate SendEffect(k: Keeper, msg: MsgSendNFT, new r: Outcome<Error>)
    reads k, k.coinKeeper
  {
    Edited(k, TokenKey(msg.denom, msg.id), (n: BaseNFT) => n.(owner := msg.recipient), r)
  }

  twostate predicate EditMetadataEffect(k: Keeper, msg: MsgEditNFTMetadata, new r: Outcome<Error>)
    reads k, k.coinKeeper
  {
    Edited(k, TokenKey(msg.denom, msg.id), (n: BaseNFT) => n.(name := msg.name), r)
  }

  twostate predicate EditPriceEffect(k: Keeper, msg: MsgEditNFTPrice, new r: Outcome<Error>)
    reads k, k.coinKeeper
  {
    Edited(k, TokenKey(msg.denom, msg.id), (n: BaseNFT) => n.(price := msg.price), r)
  }

  /** Mint stores the new token before it checks the digest, so the store
      holds it even when the handler then fails. */
  twostate predicate MintEffect(k: Keeper, msg: MsgMintNFT, digest: Digest, new r: Outcome<Error>)
    reads k, k.coinKeeper
  {
    var key := TokenKey(msg.denom, msg.id);
    if key in old(k.nfts) then r == Fail(ErrNFTAlreadyExists) && Unchanged(k)
    else
      StoreBecomes(k, old(k.nfts)[key := NewBaseNFT(msg.id, msg.recipient, msg.hash, msg.proof, msg.name, 0, 0, msg.price)])
      && r == (if msg.hash == digest(msg.proof) then Pass else Fail(HashMismatch))
  }

  twostate predicate BurnEffect(k: Keeper, msg: MsgBurnNFT, new r: Outcome<Error>)
    reads k, k.coinKeeper
  {
    var key := TokenKey(msg.denom, msg.id);
    if key !in old(k.nfts) then r == Fail(ErrUnknownNFT) && Unchanged(k)
    else r == Pass && StoreBecomes(k, old(k.nfts) - {key})
  }

  /** The purchase: `refused(price, offer)` is the handler's test of the
      offer against the asking price. */
  twostate predicate BuyEffectWith(k: Keeper, msg: MsgBuyNFT, refused: (Coins, Coins) -> bool, new r: Outcome<Error>)
    reads k, k.coinKeeper
  {
    var key := TokenKey(msg.denom, msg.id);
    if key !in old(k.nfts) then r == Fail(ErrUnknownNFT) && Unchanged(k)
    else
      var nft := old(k.nfts)[key];
      if IsZero(nft.price) then r == Fail(NotForSale) && Unchanged(k)
      else if refused(nft.price, msg.price) then r == Fail(NotEnoughCoins) && Unchanged(k)
      else if !Covers(Balance(old(k.coinKeeper.balances), msg.sender), msg.price) then
        r == Fail(BankRefused) && Unchanged(k)
      else
        r == Pass
        && k.coinKeeper.balances == Transfer(old(k.coinKeeper.balances), msg.sender, nft.owner, msg.price)
        && k.nfts == old(k.nfts)[key := nft.(owner := msg.sender)]
  }

  twostate predicate BuyEffect(k: Keeper, msg: MsgBuyNFT, new r: Outcome<Error>)
    reads k, k.coinKeeper
  {
    BuyEffectWith(k, msg, IsAllGT, r)
  }

  /** A challenge between two stored tokens: fail if either is missing,
      otherwise store the pair `outcome` computes from the contender, the
      defiant token, the sender and whether the contender scored higher. */
  twostate predicate ChallengeEffectWith(k: Keeper, msg: MsgChallengeNFT,
      outcome: (BaseNFT, BaseNFT, Address, bool) -> (BaseNFT, BaseNFT), new r: Outcome<Error>)
    reads k, k.coinKeeper
  {
    var ck := TokenKey(msg.contenderDenom, msg.contenderId);
    var dk := TokenKey(msg.defiantDenom, msg.defiantId);
    if ck !in old(k.nfts) || dk !in old(k.nfts) then r == Fail(ErrUnknownNFT) && Unchanged(k)
    else
      var c, d := old(k.nfts)[ck], old(k.nfts)[dk];
      var after := outcome(c, d, msg.sender, Score(c.hash, c.wins) > Score(d.hash, d.wins));
      r == Pass && StoreBecomes(k, old(k.nfts)[ck := after.0][dk := after.1])
  }

  /** As written: a contender who wins changes nothing, because the winner
      label never equals the one the handler tests; a contender who loses
      gets `wins := losses + 1` and the defiant token one more win. */
  function ChallengeAsWritten(c: BaseNFT, d: BaseNFT, sender: Address, contenderWon: bool): (r: (BaseNFT, BaseNFT))
    ensures contenderWon ==> r == (c, d)
    ensures !contenderWon ==> r.0.losses == c.losses && r.0.wins == c.losses + 1 && r.1.wins == d.wins + 1
    ensures r.0.owner == c.owner && r.1.owner == d.owner
    ensures r.0.(wins := c.wins) == c && r.1.(wins := d.wins) == d
  {
    if contenderWon then (c, d) else (c.(wins := c.losses + 1), d.(wins := d.wins + 1))
  }

  /** As intended: the winner gains a win and the loser a loss, and a
      winning challenge hands the defiant token to the sender. */
  function ChallengeIntended(c: BaseNFT, d: BaseNFT, sender: Address, contenderWon: bool): (r: (BaseNFT, BaseNFT))
    ensures r.0.wins + r.0.losses == c.wins + c.losses + 1
    ensures r.1.wins + r.1.losses == d.wins + d.losses + 1
    ensures r.0.wins == c.wins + (if contenderWon then 1 else 0)
    ensures r.1.wins == d.wins + (if contenderWon then 0 else 1)
    ensures r.0.owner == c.owner && r.1.owner == (if contenderWon then sender else d.owner)
    ensures r.0.(wins := c.wins, losses := c.losses) == c
    ensures r.1.(wins := d.wins, losses := d.losses, owner := d.owner) == d
  {
    if contenderWon then (c.(wins := c.wins + 1), d.(owner := sender, losses := d.losses + 1))
    else (c.(losses := c.losses + 1), d.(wins := d.wins + 1))
  }

  twostate predicate ChallengeEffect(k: Keeper, msg: MsgChallengeNFT, new r: Outcome<Error>)
    reads k, k.coinKeeper
  {
    ChallengeEffectWith(k, msg, ChallengeAsWritten, r)
  }

  twostate predicate ChallengeCorrectedEffect(k: Keeper, msg: MsgChallengeNFT, new r: Outcome<Error>)
    reads k, k.coinKeeper
  {
    ChallengeEffectWith(k, msg, ChallengeIntended, r)
  }

  twostate predicate BuyCorrectedEffect(k: Keeper, msg: MsgBuyNFT, new r: Outcome<Error>)
    reads k, k.coinKeeper
  {
    BuyEffectWith(k, msg, (price: Coins, offer: Coins) => !Covers(offer, price), r)
  }

  // ---------------------------------------------------------------------
  // Handlers.

  method HandleMsgSendNFT(k: Keeper, msg: MsgSendNFT) returns (r: Outcome<Error>)
    requires k.Valid()
    modifies k
    ensures k.Valid() && SendEffect(k, msg, r)
    ensures r.Pass? ==> TokenKey(msg.denom, msg.id) in k.OwnedBy(msg.recipient)
  {
    var got := k.GetNFT(msg.denom, msg.id);
    match got
    case Err(e) =>
      return Fail(e);
    case Ok(v) =>
      var nft := new Token(v);
      nft.SetOwner(msg.recipient);
      r := k.UpdateNFT(msg.denom, nft.Value());
  }

  method HandleMsgEditNFTMetadata(k: Keeper, msg: MsgEditNFTMetadata) returns (r: Outcome<Error>)
    requires k.Valid()
    modifies k
    ensures k.Valid() && EditMetadataEffect(k, msg, r)
  {
    var got := k.GetNFT(msg.denom, msg.id);
    match got
    case Err(e) =>
      return Fail(e);
    case Ok(v) =>
      var nft := new Token(v);
      nft.EditMetadata(msg.name);
      r := k.UpdateNFT(msg.denom, nft.Value());
  }

  method HandleMsgEditNFTPrice(k: Keeper, msg: MsgEditNFTPrice) returns (r: Outcome<Error>)
    requires k.Valid()
    modifies k
    ensures k.Valid() && EditPriceEffect(k, msg, r)
  {
    var got := k.GetNFT(msg.denom, msg.id);
    match got
    case Err(e) =>
      return Fail(e);
    case Ok(v) =>
      var nft := new Token(v);
      nft.EditPrice(msg.price);
      r := k.UpdateNFT(msg.denom, nft.Value());
  }

  method HandleMsgMintNFT(k: Keeper, msg: MsgMintNFT, digest: Digest) returns (r: Outcome<Error>)
    requires k.Valid()
    modifies k
    ensures k.Valid() && MintEffect(k, msg, digest, r)
    ensures r.Pass? ==> TokenKey(msg.denom, msg.id) in k.OwnedBy(msg.recipient)
    ensures forall denom ::
      Supply(k.nfts, denom) == Supply(old(k.nfts), denom)
        + (if (r.Pass? || r == Fail(HashMismatch)) && denom == msg.denom then 1 else 0)
  {
    var nft := NewBaseNFT(msg.id, msg.recipient, msg.hash, msg.proof, msg.name, 0, 0, msg.price);
    r := k.MintNFT(msg.denom, nft);
    if r.Fail? {
      return;
    }
    if msg.hash != digest(msg.proof) {
      return Fail(HashMismatch);
    }
  }

  method HandleMsgBurnNFT(k: Keeper, msg: MsgBurnNFT) returns (r: Outcome<Error>)
    requires k.Valid()
    modifies k
    ensures k.Valid() && BurnEffect(k, msg, r)
    ensures k.GetNFT(msg.denom, msg.id) == Err(ErrUnknownNFT)
    ensures forall denom ::
      Supply(k.nfts, denom) == Supply(old(k.nfts), denom) - (if r.Pass? && denom == msg.denom then 1 else 0)
  {
    var got := k.GetNFT(msg.denom, msg.id);
    match got
    case Err(e) =>
      return Fail(e);
    case Ok(v) =>
      r := k.DeleteNFT(msg.denom, msg.id);
  }

  method HandleMsgBuyNFT(k: Keeper, msg: MsgBuyNFT) returns (r: Outcome<Error>)
    requires k.Valid()
    modifies k, k.coinKeeper
    ensures k.Valid() && BuyEffect(k, msg, r)
  {
    var got := k.GetNFT(msg.denom, msg.id);
    match got
    case Err(e) =>
      return Fail(e);
    case Ok(v) =>
      var nft := new Token(v);
      if IsZero(nft.price) {
        return Fail(NotForSale);
      }
      if IsAllGT(nft.price, msg.price) {
        return Fail(NotEnoughCoins);
      }
      var paid := k.coinKeeper.SendCoins(msg.sender, nft.owner, msg.price);
      if paid.Fail? {
        return paid;
      }
      nft.SetOwner(msg.sender);
      r := k.UpdateNFT(msg.denom, nft.Value());
  }

  /** The match and the streak updates of the challenge handler, on copies
      of the two stored tokens. The handler tests the winner against
      `contenderLabel`; the contract shows that its updates for a winning
      contender happen only when that label is the one `Fight` reports. */
  method PlayChallenge(c: BaseNFT, d: BaseNFT, sender: Address, contenderLabel: string)
    returns (r: Result<(BaseNFT, BaseNFT), Error>)
    requires contenderLabel != DefiantLabel
    ensures var won := Score(c.hash, c.wins) > Score(d.hash, d.wins);
      r == Ok(if won && contenderLabel == ContestorLabel
              then (c.(wins := c.wins + 1), d.(owner := sender, wins := d.losses + 1))
              else ChallengeAsWritten(c, d, sender, won))
  {
    var fight := Fight.Fight(c.hash, c.wins, d.hash, d.wins);
    match fight
    case Err(e) =>
      return Err(e);
    case Ok(result) =>
      var contender := new Token(c);
      var defiant := new Token(d);
      if result.winner == contenderLabel {
        defiant.SetOwner(sender);
        defiant.IncreaseLosses();
        contender.IncreaseWins();
      }
      if result.winner == DefiantLabel {
        contender.IncreaseLosses();
        defiant.IncreaseWins();
      }
      return Ok((contender.Value(), defiant.Value()));
  }

  /** `PlayChallenge` with the streak updates the handler's comments
      describe and the winner label `Fight` produces. */
  method PlayChallengeCorrected(c: BaseNFT, d: BaseNFT, sender: Address) returns (r: Result<(BaseNFT, BaseNFT), Error>)
    ensures r == Ok(ChallengeIntended(c, d, sender, Score(c.hash, c.wins) > Score(d.hash, d.wins)))
  {
    var fight := Fight.Fight(c.hash, c.wins, d.hash, d.wins);
    match fight
    case Err(e) =>
      return Err(e);
    case Ok(result) =>
      var contender := new Token(c);
      var defiant := new Token(d);
      if result.winner == ContestorLabel {
        defiant.SetOwner(sender);
        defiant.IncreaseLossesCorrected();
        contender.IncreaseWins();
      }
      if result.winner == DefiantLabel {
        contender.IncreaseLossesCorrected();
        defiant.IncreaseWins();
      }
      return Ok((contender.Value(), defiant.Value()));
  }

  /** Fetches both tokens, plays the challenge and stores both results,
      the contender first. */
  method HandleMsgChallengeNFT(k: Keeper, msg: MsgChallengeNFT) returns (r: Outcome<Error>)
    requires k.Valid()
    modifies k
    ensures k.Valid() && ChallengeEffect(k, msg, r)
  {
    var gotC := k.GetNFT(msg.contenderDenom, msg.contenderId);
    match gotC
    case Err(e) =>
      return Fail(e);
    case Ok(c) =>
      var gotD := k.GetNFT(msg.defiantDenom, msg.defiantId);
      match gotD
      case Err(e) =>
        return Fail(e);
      case Ok(d) =>
        var played := PlayChallenge(c, d, msg.sender, ContestantLabel);
        match played
        case Err(e) =>
          return Fail(e);
        case Ok(after) =>
          r := StoreChallenge(k, msg, after);
  }

  method HandleMsgChallengeNFTCorrected(k: Keeper, msg: MsgChallengeNFT) returns (r: Outcome<Error>)
    requires k.Valid()
    modifies k
    ensures k.Valid() && ChallengeCorrectedEffect(k, msg, r)
  {
    var gotC := k.GetNFT(msg.contenderDenom, msg.contenderId);
    match gotC
    case Err(e) =>
      return Fail(e);
    case Ok(c) =>
      var gotD := k.GetNFT(msg.defiantDenom, msg.defiantId);
      match gotD
      case Err(e) =>
        return Fail(e);
      case Ok(d) =>
        var played := PlayChallengeCorrected(c, d, msg.sender);
        match played
        case Err(e) =>
          return Fail(e);
        case Ok(after) =>
          r := StoreChallenge(k, msg, after);
  }

  /** The two `UpdateNFT` calls that end a challenge. */
  method StoreChallenge(k: Keeper, msg: MsgChallengeNFT, after: (BaseNFT, BaseNFT)) returns (r: Outcome<Error>)
    requires k.Valid()
    requires after.0.id == msg.contenderId && after.1.id == msg.defiantId
    requires TokenKey(msg.contenderDenom, msg.contenderId) in k.nfts
    requires TokenKey(msg.defiantDenom, msg.defiantId) in k.nfts
    modifies k
    ensures k.Valid() && r == Pass
    ensures k.nfts == old(k.nfts)[TokenKey(msg.contenderDenom, msg.contenderId) := after.0]
                                 [TokenKey(msg.defiantDenom, msg.defiantId) := after.1]
  {
    r := k.UpdateNFT(msg.contenderDenom, after.0);
    r := k.UpdateNFT(msg.defiantDenom, after.1);
  }

  /** `HandleMsgBuyNFT` with the offer checked to cover the asking price in
      every denomination. */
  method HandleMsgBuyNFTCorrected(k: Keeper, msg: MsgBuyNFT) returns (r: Outcome<Error>)
    requires k.Valid()
    modifies k, k.coinKeeper
    ensures k.Valid() && BuyCorrectedEffect(k, msg, r)
  {
    var got := k.GetNFT(msg.denom, msg.id);
    match got
    case Err(e) =>
      return Fail(e);
    case Ok(v) =>
      var nft := new Token(v);
      if IsZero(nft.price) {
        return Fail(NotForSale);
      }
      if !Covers(msg.price, nft.price) {
        return Fail(NotEnoughCoins);
      }
      var paid := k.coinKeeper.SendCoins(msg.sender, nft.owner, msg.price);
      if paid.Fail? {
        return paid;
      }
      nft.SetOwner(msg.sender);
      r := k.UpdateNFT(msg.denom, nft.Value());
  }

  /** Any offer that covers a non-zero asking price also passes the test the
      Buy handler applies: the corrected handler accepts no offer that the
      handler as written refuses... */
  lemma CoveringOfferPassesAsWritten(price: Coins, offer: Coins)
    requires !IsZero(price) && Covers(offer, price)
    ensures !IsAllGT(price, offer)
  {
    var d0 :| d0 in price && price[d0] != 0;
    assert AmountOf(offer, d0) >= price[d0] > 0;
    assert d0 in offer;
  }

  /** ...but not the other way round: an offer in a denomination the token
      is not priced in passes the test as written. */
  lemma UnderpayingOfferPassesAsWritten()
    ensures var price, offer := map["stake" := 10], map["atom" := 1];
      !IsZero(price) && !IsAllGT(price, offer) && !Covers(offer, price)
  {
    var price, offer := map["stake" := 10], map["atom" := 1];
    assert "stake" in price && price["stake"] != 0;
    assert "atom" in offer && "atom" !in price;
    assert AmountOf(offer, "stake") == 0;
  }

  /** A contender who scores higher than the defiant token is left as it
      was, and so is the defiant token. */
  lemma ChallengeWinIgnored(c: BaseNFT, d: BaseNFT, sender: Address)
    requires c.hash == "62" && c.wins == 0 && d.hash == "61" && d.wins == 0
    ensures Score(c.hash, c.wins) > Score(d.hash, d.wins)
    ensures ChallengeAsWritten(c, d, sender, true) == (c, d)
    ensures ChallengeIntended(c, d, sender, true).0.wins == 1
    ensures ChallengeIntended(c, d, sender, true).1.owner == sender
  {
    assert "62"[..1] == "6" && "61"[..1] == "6" && "6"[..0] == "";
  }

  // ---------------------------------------------------------------------
  // Dispatch and delivery.

  twostate predicate HandlerEffect(k: Keeper, msg: Msg, digest: Digest, new r: Outcome<Error>)
    reads k, k.coinKeeper
  {
    match msg
    case Send(m) => SendEffect(k, m, r)
    case EditMetadata(m) => EditMetadataEffect(k, m, r)
    case EditPrice(m) => EditPriceEffect(k, m, r)
    case Mint(m) => MintEffect(k, m, digest, r)
    case Burn(m) => BurnEffect(k, m, r)
    case Buy(m) => BuyEffect(k, m, r)
    case Challenge(m) => ChallengeEffect(k, m, r)
    case Unrecognized(t) => r == Fail(ErrUnknownRequest(UnknownTypePrefix + t)) && Unchanged(k)
  }

  /** The outcome a handler reports, from the store and the balances it
      starts from: the refusals in each handler's order, otherwise Pass. */
  function HandlerResult(nfts: Store, balances: map<Address, Coins>, msg: Msg, digest: Digest): (r: Outcome<Error>)
    ensures r.Pass? ==> msg.Known()
  {
    match msg
    case Send(m) => if TokenKey(m.denom, m.id) in nfts then Pass else Fail(ErrUnknownNFT)
    case EditMetadata(m) => if TokenKey(m.denom, m.id) in nfts then Pass else Fail(ErrUnknownNFT)
    case EditPrice(m) => if TokenKey(m.denom, m.id) in nfts then Pass else Fail(ErrUnknownNFT)
    case Mint(m) =>
      if TokenKey(m.denom, m.id) in nfts then Fail(ErrNFTAlreadyExists)
      else if m.hash != digest(m.proof) then Fail(HashMismatch)
      else Pass
    case Burn(m) => if TokenKey(m.denom, m.id) in nfts then Pass else Fail(ErrUnknownNFT)
    case Buy(m) =>
      var key := TokenKey(m.denom, m.id);
      if key !in nfts then Fail(ErrUnknownNFT)
      else if IsZero(nfts[key].price) then Fail(NotForSale)
      else if IsAllGT(nfts[key].price, m.price) then Fail(NotEnoughCoins)
      else if !Covers(Balance(balances, m.sender), m.price) then Fail(BankRefused)
      else Pass
    case Challenge(m) =>
      if TokenKey(m.contenderDenom, m.contenderId) !in nfts || TokenKey(m.defiantDenom, m.defiantId) !in nfts
      then Fail(ErrUnknownNFT)
      else Pass
    case Unrecognized(t) => Fail(ErrUnknownRequest(UnknownTypePrefix + t))
  }

  /** Routes a message to its handler. */
  method GenericHandler(k: Keeper, msg: Msg, digest: Digest) returns (r: Outcome<Error>)
    requires k.Valid()
    modifies k, k.coinKeeper
    ensures k.Valid() && HandlerEffect(k, msg, digest, r)
    ensures r == HandlerResult(old(k.nfts), old(k.coinKeeper.balances), msg, digest)
  {
    match msg
    case Send(m) => r := HandleMsgSendNFT(k, m);
    case EditMetadata(m) => r := HandleMsgEditNFTMetadata(k, m);
    case EditPrice(m) => r := HandleMsgEditNFTPrice(k, m);
    case Mint(m) => r := HandleMsgMintNFT(k, m, digest);
    case Burn(m) => r := HandleMsgBurnNFT(k, m);
    case Buy(m) => r := HandleMsgBuyNFT(k, m);
    case Challenge(m) => r := HandleMsgChallengeNFT(k, m);
    case Unrecognized(t) => r := Fail(ErrUnknownRequest(UnknownTypePrefix + t));
  }

  /** The host around the handler: the message's stateless checks first,
      then the handler, whose writes are all discarded when it fails. */
  method DeliverMsg(k: Keeper, msg: Msg, digest: Digest) returns (r: Outcome<Error>)
    requires k.Valid()
    modifies k, k.coinKeeper
    ensures k.Valid()
    ensures msg.ValidateBasic().Some? ==> r == Fail(msg.ValidateBasic().value) && Unchanged(k)
    ensures r.Fail? ==> Unchanged(k)
    ensures r.Pass? ==> msg.ValidateBasic().None? && HandlerEffect(k, msg, digest, r)
    ensures msg.ValidateBasic().None? ==> r == HandlerResult(old(k.nfts), old(k.coinKeeper.balances), msg, digest)
    ensures msg.Mint? && msg.mint.hash != digest(msg.mint.proof) ==> r.Fail? && Unchanged(k)
  {
    var invalid := msg.ValidateBasic();
    match invalid
    case Some(e) =>
      return Fail(e);
    case None =>
      var nfts, owners, balances := k.nfts, k.owners, k.coinKeeper.balances;
      r := GenericHandler(k, msg, digest);
      if r.Fail? {
        k.nfts, k.owners := nfts, owners;
        k.coinKeeper.balances := balances;
      }
  }
}
