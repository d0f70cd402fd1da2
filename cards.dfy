/**
 * The card registry (the FutballCards ERC-721 contract) as the Head-to-Head
 * game sees it: who owns each card, which owners have approved the game to
 * move their cards, and the four attribute values of each card.
 */
module Cards {

  type Address = nat

  /** The zero address, which the game uses for "nobody". */
  const ZeroAddress: Address := 0

  type TokenId = nat

  /** The four numeric attributes a card carries. */
  type Attributes = s: seq<nat> | |s| == 4 witness [0, 0, 0, 0]

  /** An index into a card's attributes. */
  type AttributeIndex = i: nat | i < 4

  /** The attributes a token without a record reads as (a Solidity mapping's default). */
  const NoAttributes: Attributes := [0, 0, 0, 0]

  datatype Option<T> = None | Some(value: T)

  datatype Card = Card(owner: Address, attributes: Attributes)

  /**
   * The registry state: every minted card, and the set of owners who have
   * called setApprovalForAll(game, true) for the Head-to-Head game.
   */
  datatype Registry = Registry(cards: map<TokenId, Card>, approvedOwners: set<Address>) {

    /** ownerOf: None stands for the registry's revert on a token never minted. */
    function OwnerOf(tokenId: TokenId): Option<Address>
    {
      if tokenId in cards then Some(cards[tokenId].owner) else None
    }

    /** isApprovedForAll(owner, game) */
    predicate IsApprovedForAll(owner: Address)
    {
      owner in approvedOwners
    }

    /** The attribute lookup: an unknown token reads as all zeros. */
    function AttributesOf(tokenId: TokenId): (a: Attributes)
      ensures tokenId in cards ==> a == cards[tokenId].attributes
    {
      if tokenId in cards then cards[tokenId].attributes else NoAttributes
    }

    /** setApprovalForAll(game, approved) called by `owner`. */
    function SetApprovalForAll(owner: Address, approved: bool): (r: Registry)
      ensures r.cards == cards
      ensures r.IsApprovedForAll(owner) == approved
      ensures forall a :: a != owner ==> (r.IsApprovedForAll(a) <==> IsApprovedForAll(a))
    {
      if approved then this.(approvedOwners := approvedOwners + {owner})
      else this.(approvedOwners := approvedOwners - {owner})
    }

    /**
     * transferFrom(from, to, tokenId) issued by the game: it goes through
     * only when `from` owns the card and has approved the game; None stands
     * for the registry's revert.
     */
    function TransferFrom(from: Address, to: Address, tokenId: TokenId): (r: Option<Registry>)
      ensures r.Some? <==> OwnerOf(tokenId) == Some(from) && IsApprovedForAll(from)
      ensures r.Some? ==> r.value.OwnerOf(tokenId) == Some(to)
      ensures r.Some? ==> forall t :: t != tokenId ==> r.value.OwnerOf(t) == OwnerOf(t)
      ensures r.Some? ==> forall t :: r.value.AttributesOf(t) == AttributesOf(t)
      ensures r.Some? ==> r.value.cards.Keys == cards.Keys && r.value.approvedOwners == approvedOwners
    {
      if tokenId in cards && cards[tokenId].owner == from && from in approvedOwners then
        Some(this.(cards := cards[tokenId := cards[tokenId].(owner := to)]))
      else
        None
    }
  }
}
