/** The seven request messages: constructors that trim their string fields,
    and `ValidateBasic`, a chain of checks in which the first failing check
    picks the error. */
module Msgs {
  import opened Wrappers
  import opened Text
  import opened Sdk

  /** The module's router key. Its declaration is not part of this model;
      nothing below depends on its value. */
  const RouterKey: string := "collectables"

  const InvalidSender: Error := ErrInvalidAddress("invalid sender address")
  const InvalidRecipient: Error := ErrInvalidAddress("invalid recipient address")

  datatype MsgSendNFT = MsgSendNFT(sender: Address, recipient: Address, denom: string, id: string)
  {
    function Route(): string { RouterKey }
    function Type(): string { "send_nft" }
    function GetSigners(): seq<Address> { [sender] }

    function ValidateBasic(): (r: Option<Error>)
      ensures r == if AllSpace(denom) then Some(ErrInvalidCollection)
                   else if EmptyAddress(sender) then Some(InvalidSender)
                   else if EmptyAddress(recipient) then Some(InvalidRecipient)
                   else if AllSpace(id) then Some(ErrInvalidCollection)
                   else None
    {
      BlankIffAllSpace(denom);
      BlankIffAllSpace(id);
      if Blank(denom) then Some(ErrInvalidCollection)
      else if EmptyAddress(sender) then Some(InvalidSender)
      else if EmptyAddress(recipient) then Some(InvalidRecipient)
      else if Blank(id) then Some(ErrInvalidCollection)
      else None
    }
  }

  function NewMsgSendNFT(sender: Address, recipient: Address, denom: string, id: string): (m: MsgSendNFT)
    ensures m.sender == sender && m.recipient == recipient
    ensures Unpadded(m.denom) && TrimmedFrom(m.denom, denom)
    ensures Unpadded(m.id) && TrimmedFrom(m.id, id)
  {
    MsgSendNFT(sender, recipient, TrimSpace(denom), TrimSpace(id))
  }

  datatype MsgEditNFTMetadata = MsgEditNFTMetadata(sender: Address, id: string, denom: string, name: string)
  {
    function Route(): string { RouterKey }
    function Type(): string { "edit_nft_metadata" }
    function GetSigners(): seq<Address> { [sender] }

    /** The name is never inspected. */
    function ValidateBasic(): (r: Option<Error>)
      ensures r == if EmptyAddress(sender) then Some(InvalidSender)
                   else if AllSpace(id) then Some(ErrInvalidNFT)
                   else if AllSpace(denom) then Some(ErrInvalidNFT)
                   else None
    {
      BlankIffAllSpace(id);
      BlankIffAllSpace(denom);
      if EmptyAddress(sender) then Some(InvalidSender)
      else if Blank(id) then Some(ErrInvalidNFT)
      else if Blank(denom) then Some(ErrInvalidNFT)
      else None
    }
  }

  function NewMsgEditNFTMetadata(sender: Address, id: string, denom: string, name: string): (m: MsgEditNFTMetadata)
    ensures m.sender == sender
    ensures Unpadded(m.id) && TrimmedFrom(m.id, id)
    ensures Unpadded(m.denom) && TrimmedFrom(m.denom, denom)
    ensures Unpadded(m.name) && TrimmedFrom(m.name, name)
  {
    MsgEditNFTMetadata(sender, TrimSpace(id), TrimSpace(denom), TrimSpace(name))
  }

  datatype MsgMintNFT = MsgMintNFT(sender: Address, recipient: Address, id: string, denom: string,
                                   hash: string, proof: string, name: string, price: Coins)
  {
    function Route(): string { RouterKey }
    function Type(): string { "mint_nft" }
    function GetSigners(): seq<Address> { [sender] }

    /** Hash, proof, name and price are never inspected: in particular no
        length bound applies to the proof. */
    function ValidateBasic(): (r: Option<Error>)
      ensures r == if AllSpace(denom) || AllSpace(id) then Some(ErrInvalidNFT)
                   else if EmptyAddress(sender) then Some(InvalidSender)
                   else if EmptyAddress(recipient) then Some(InvalidRecipient)
                   else None
    {
      BlankIffAllSpace(denom);
      BlankIffAllSpace(id);
      if Blank(denom) then Some(ErrInvalidNFT)
      else if Blank(id) then Some(ErrInvalidNFT)
      else if EmptyAddress(sender) then Some(InvalidSender)
      else if EmptyAddress(recipient) then Some(InvalidRecipient)
      else None
    }
  }

  function NewMsgMintNFT(sender: Address, recipient: Address, id: string, denom: string,
                         hash: string, proof: string, name: string, price: Coins): (m: MsgMintNFT)
    ensures m.sender == sender && m.recipient == recipient && m.price == price
    ensures Unpadded(m.id) && TrimmedFrom(m.id, id)
    ensures Unpadded(m.denom) && TrimmedFrom(m.denom, denom)
    ensures Unpadded(m.hash) && TrimmedFrom(m.hash, hash)
    ensures Unpadded(m.proof) && TrimmedFrom(m.proof, proof)
    ensures Unpadded(m.name) && TrimmedFrom(m.name, name)
  {
    MsgMintNFT(sender, recipient, TrimSpace(id), TrimSpace(denom), TrimSpace(hash),
               TrimSpace(proof), TrimSpace(name), price)
  }

  datatype MsgBurnNFT = MsgBurnNFT(sender: Address, id: string, denom: string)
  {
    function Route(): string { RouterKey }
    function Type(): string { "burn_nft" }
    function GetSigners(): seq<Address> { [sender] }

    function ValidateBasic(): (r: Option<Error>)
      ensures r == if AllSpace(id) || AllSpace(denom) then Some(ErrInvalidNFT)
                   else if EmptyAddress(sender) then Some(InvalidSender)
                   else None
    {
      BlankIffAllSpace(id);
      BlankIffAllSpace(denom);
      if Blank(id) then Some(ErrInvalidNFT)
      else if Blank(denom) then Some(ErrInvalidNFT)
      else if EmptyAddress(sender) then Some(InvalidSender)
      else None
    }
  }

  function NewMsgBurnNFT(sender: Address, id: string, denom: string): (m: MsgBurnNFT)
    ensures m.sender == sender
    ensures Unpadded(m.id) && TrimmedFrom(m.id, id)
    ensures Unpadded(m.denom) && TrimmedFrom(m.denom, denom)
  {
    MsgBurnNFT(sender, TrimSpace(id), TrimSpace(denom))
  }

  /** The shared check of `MsgBuyNFT` and `MsgEditNFTPrice`. */
  function ValidatePriced(sender: Address, id: string, denom: string, price: Coins): (r: Option<Error>)
    ensures r == if AllSpace(denom) || AllSpace(id) then Some(ErrInvalidNFT)
                 else if EmptyAddress(sender) then Some(InvalidSender)
                 else if |price| == 0 || exists d :: d in price && price[d] == 0 then Some(ErrInsufficientFunds(""))
                 else None
  {
    BlankIffAllSpace(denom);
    BlankIffAllSpace(id);
    if Blank(denom) then Some(ErrInvalidNFT)
    else if Blank(id) then Some(ErrInvalidNFT)
    else if EmptyAddress(sender) then Some(InvalidSender)
    else if !IsAllPositive(price) then Some(ErrInsufficientFunds(""))
    else None
  }

  datatype MsgBuyNFT = MsgBuyNFT(sender: Address, id: string, denom: string, price: Coins)
  {
    function Route(): string { RouterKey }
    function Type(): string { "buy_nft" }
    function GetSigners(): seq<Address> { [sender] }
    function ValidateBasic(): Option<Error> { ValidatePriced(sender, id, denom, price) }
  }

  function NewMsgBuyNFT(sender: Address, id: string, denom: string, price: Coins): (m: MsgBuyNFT)
    ensures m.sender == sender && m.price == price
    ensures Unpadded(m.id) && TrimmedFrom(m.id, id)
    ensures Unpadded(m.denom) && TrimmedFrom(m.denom, denom)
  {
    MsgBuyNFT(sender, TrimSpace(id), TrimSpace(denom), price)
  }

  datatype MsgEditNFTPrice = MsgEditNFTPrice(sender: Address, id: string, denom: string, price: Coins)
  {
    function Route(): string { RouterKey }
    function Type(): string { "edit_nft_price" }
    function GetSigners(): seq<Address> { [sender] }
    function ValidateBasic(): Option<Error> { ValidatePriced(sender, id, denom, price) }
  }

  function NewMsgEditNFTPrice(sender: Address, id: string, denom: string, price: Coins): (m: MsgEditNFTPrice)
    ensures m.sender == sender && m.price == price
    ensures Unpadded(m.id) && TrimmedFrom(m.id, id)
    ensures Unpadded(m.denom) && TrimmedFrom(m.denom, denom)
  {
    MsgEditNFTPrice(sender, TrimSpace(id), TrimSpace(denom), price)
  }

  datatype MsgChallengeNFT = MsgChallengeNFT(sender: Address, contenderId: string, contenderDenom: string,
                                             defiantId: string, defiantDenom: string, winner: string)
  {
    function Route(): string { RouterKey }
    function Type(): string { "challenge_nft" }
    function GetSigners(): seq<Address> { [sender] }

    /** Only the four token coordinates are checked; sender and winner never are. */
    function ValidateBasic(): (r: Option<Error>)
      ensures r == if AllSpace(contenderDenom) || AllSpace(contenderId)
                      || AllSpace(defiantDenom) || AllSpace(defiantId) then Some(ErrInvalidNFT)
                   else None
    {
      BlankIffAllSpace(contenderDenom);
      BlankIffAllSpace(contenderId);
      BlankIffAllSpace(defiantDenom);
      BlankIffAllSpace(defiantId);
      if Blank(contenderDenom) then Some(ErrInvalidNFT)
      else if Blank(contenderId) then Some(ErrInvalidNFT)
      else if Blank(defiantDenom) then Some(ErrInvalidNFT)
      else if Blank(defiantId) then Some(ErrInvalidNFT)
      else None
    }
  }

  function NewMsgChallengeNFT(sender: Address, contenderId: string, contenderDenom: string,
                              defiantId: string, defiantDenom: string, winner: string): (m: MsgChallengeNFT)
    ensures m.sender == sender
    ensures Unpadded(m.contenderId) && TrimmedFrom(m.contenderId, contenderId)
    ensures Unpadded(m.contenderDenom) && TrimmedFrom(m.contenderDenom, contenderDenom)
    ensures Unpadded(m.defiantId) && TrimmedFrom(m.defiantId, defiantId)
    ensures Unpadded(m.defiantDenom) && TrimmedFrom(m.defiantDenom, defiantDenom)
    ensures Unpadded(m.winner) && TrimmedFrom(m.winner, winner)
  {
    MsgChallengeNFT(sender, TrimSpace(contenderId), TrimSpace(contenderDenom),
                    TrimSpace(defiantId), TrimSpace(defiantDenom), TrimSpace(winner))
  }

  /** A request as the router sees it: one of the seven kinds, or a message
      of some other module, known only by its Go type name. */
  datatype Msg =
    | Send(send: MsgSendNFT)
    | EditMetadata(editMetadata: MsgEditNFTMetadata)
    | EditPrice(editPrice: MsgEditNFTPrice)
    | Mint(mint: MsgMintNFT)
    | Burn(burn: MsgBurnNFT)
    | Buy(buy: MsgBuyNFT)
    | Challenge(challenge: MsgChallengeNFT)
    | Unrecognized(typeName: string)
  {
    predicate Known() { !Unrecognized? }

    /** The kind of a message, as a number. */
    function Tag(): nat {
      match this
      case Send(_) => 0
      case EditMetadata(_) => 1
      case EditPrice(_) => 2
      case Mint(_) => 3
      case Burn(_) => 4
      case Buy(_) => 5
      case Challenge(_) => 6
      case Unrecognized(_) => 7
    }

    function Sender(): Address
      requires Known()
    {
      match this
      case Send(m) => m.sender
      case EditMetadata(m) => m.sender
      case EditPrice(m) => m.sender
      case Mint(m) => m.sender
      case Burn(m) => m.sender
      case Buy(m) => m.sender
      case Challenge(m) => m.sender
    }

    function Route(): string
      requires Known()
    {
      match this
      case Send(m) => m.Route()
      case EditMetadata(m) => m.Route()
      case EditPrice(m) => m.Route()
      case Mint(m) => m.Route()
      case Burn(m) => m.Route()
      case Buy(m) => m.Route()
      case Challenge(m) => m.Route()
    }

    function Type(): string
      requires Known()
    {
      match this
      case Send(m) => m.Type()
      case EditMetadata(m) => m.Type()
      case EditPrice(m) => m.Type()
      case Mint(m) => m.Type()
      case Burn(m) => m.Type()
      case Buy(m) => m.Type()
      case Challenge(m) => m.Type()
    }

    function GetSigners(): seq<Address>
      requires Known()
    {
      match this
      case Send(m) => m.GetSigners()
      case EditMetadata(m) => m.GetSigners()
      case EditPrice(m) => m.GetSigners()
      case Mint(m) => m.GetSigners()
      case Burn(m) => m.GetSigners()
      case Buy(m) => m.GetSigners()
      case Challenge(m) => m.GetSigners()
    }

    /** The shape check the host runs before any handler; messages of other
        modules carry their own check, which is not part of this model. */
    function ValidateBasic(): Option<Error> {
      match this
      case Send(m) => m.ValidateBasic()
      case EditMetadata(m) => m.ValidateBasic()
      case EditPrice(m) => m.ValidateBasic()
      case Mint(m) => m.ValidateBasic()
      case Burn(m) => m.ValidateBasic()
      case Buy(m) => m.ValidateBasic()
      case Challenge(m) => m.ValidateBasic()
      case Unrecognized(_) => None
    }
  }

  /** Every message routes to this module, is signed by its sender alone, and
      its `Type` names its kind: two messages of different kinds never share
      a type string. */
  lemma MsgMetadata(m: Msg, n: Msg)
    requires m.Known() && n.Known()
    ensures m.Route() == RouterKey
    ensures m.GetSigners() == [m.Sender()]
    ensures m.Type() == n.Type() <==> m.Tag() == n.Tag()
  {
  }
}
