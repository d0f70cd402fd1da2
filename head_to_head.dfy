/**
 * The HeadToHead contract as an object whose entry points update its
 * fields in place. Every entry point keeps the ledger invariant and is
 * proved to do exactly what the matching transition of module Ledger says.
 */
module HeadToHeadContract {
  import opened Cards
  import L = Ledger
  import P = Properties

  class HeadToHead {
    var games: map<L.GameId, L.Game>
    var nextGameId: L.GameId
    var inPlay: set<TokenId>
    var paused: bool
    var registry: Registry

    /** The contract's state as a value. */
    function State(): L.ContractState
      reads this
    {
      L.ContractState(games, nextGameId, inPlay, paused, registry)
    }

    ghost predicate Valid()
      reads this
    {
      L.Valid(State())
    }

    /** Deployment over a card registry: no games, the first game will get id 1. */
    constructor (cards: Registry)
      ensures Valid()
      ensures State() == L.Init(cards)
    {
      games := map[];
      nextGameId := 1;
      inPlay := {};
      paused := false;
      registry := cards;
      new;
      assert L.OpenTokens(map[]) == {};
    }

    method Pause()
      requires Valid()
      modifies this
      ensures Valid()
      ensures State() == old(State()).(paused := true)
    {
      paused := true;
    }

    method Unpause()
      requires Valid()
      modifies this
      ensures Valid()
      ensures State() == old(State()).(paused := false)
    {
      paused := false;
    }

    /** setApprovalForAll(game, approved) sent to the registry by `owner`. */
    method SetApprovalForAll(owner: Address, approved: bool)
      requires Valid()
      modifies this
      ensures Valid()
      ensures State() == L.Next(old(State()), L.SetApprovalForAllCall(owner, approved))
      ensures registry.IsApprovedForAll(owner) == approved
    {
      ghost var s0 := State();
      registry := registry.SetApprovalForAll(owner, approved);
      P.NextPreservesValid(s0, L.SetApprovalForAllCall(owner, approved));
    }

    /** getGame: the game's record, or the zero record for an id never created. */
    method GetGame(gameId: L.GameId) returns (g: L.Game)
      ensures gameId in games ==> g == games[gameId]
      ensures gameId !in games ==> g == L.EmptyGame
    {
      g := L.GetGame(State(), gameId);
    }

    /**
     * The checks both createGame and resultGame make of the entered card,
     * in order; None when the card may play.
     */
    method CheckEntry(tokenId: TokenId, caller: Address) returns (e: Option<L.Error>)
      ensures e == L.EntryError(State(), tokenId, caller)
      ensures e == None <==> !paused && registry.OwnerOf(tokenId) == Some(caller)
                             && registry.IsApprovedForAll(caller) && tokenId !in inPlay
    {
      e := L.EntryError(State(), tokenId, caller);
    }

    /** createGame(tokenId) sent by `caller`. */
    method CreateGame(tokenId: TokenId, caller: Address) returns (r: L.Result<L.Event>)
      requires Valid()
      modifies this
      ensures Valid()
      ensures L.Step(r, State()) == L.CreateGame(old(State()), tokenId, caller)
    {
      ghost var s0 := State();
      P.CreateGamePreservesValid(s0, tokenId, caller);
      var e := CheckEntry(tokenId, caller);
      if e.Some? {
        return L.Err(e.value);
      }
      var id := nextGameId;
      games := games[id := L.Game(tokenId, caller, 0, ZeroAddress, L.Open)];
      nextGameId := id + 1;
      inPlay := inPlay + {tokenId};
      r := L.Ok(L.GameCreated(id, caller, tokenId));
    }

    /**
     * resultGame(gameId, tokenId) sent by `caller`; `index` is the attribute
     * the result oracle picks for this call.
     */
    method ResultGame(gameId: L.GameId, tokenId: TokenId, caller: Address, index: AttributeIndex)
      returns (r: L.Result<L.Event>)
      requires Valid()
      modifies this
      ensures Valid()
      ensures L.Step(r, State()) == L.ResultGame(old(State()), gameId, tokenId, caller, index)
    {
      ghost var s0 := State();
      P.ResultGamePreservesValid(s0, gameId, tokenId, caller, index);
      var e := CheckEntry(tokenId, caller);
      if e.Some? {
        return L.Err(e.value);
      }
      if gameId !in games || games[gameId].state != L.Open {
        return L.Err(L.GameNotSetup);
      }
      var g := games[gameId];
      var homeValue := registry.AttributesOf(g.homeTokenId)[index];
      var awayValue := registry.AttributesOf(tokenId)[index];
      var outcome := L.Disposition(homeValue, awayValue);
      // the loser's card goes to the winner; on a draw nothing moves
      if outcome == L.HomeWin {
        var moved := registry.TransferFrom(caller, g.homeOwner, tokenId);
        if moved.None? {
          return L.Err(L.TransferRejected);
        }
        registry := moved.value;
      } else if outcome == L.AwayWin {
        var moved := registry.TransferFrom(g.homeOwner, caller, g.homeTokenId);
        if moved.None? {
          return L.Err(L.TransferRejected);
        }
        registry := moved.value;
      }
      games := games[gameId := g.(awayTokenId := tokenId, awayOwner := caller, state := outcome)];
      inPlay := inPlay - {g.homeTokenId};
      if outcome == L.Draw {
        r := L.Ok(L.GameDraw(g.homeOwner, caller, gameId, homeValue, awayValue, index));
      } else {
        r := L.Ok(L.GameResulted(g.homeOwner, caller, gameId, homeValue, awayValue, index));
      }
    }

    /** withdrawFromGame(gameId) sent by `caller`. */
    method WithdrawFromGame(gameId: L.GameId, caller: Address) returns (r: L.Result<()>)
      requires Valid()
      modifies this
      ensures Valid()
      ensures L.Step(r, State()) == L.WithdrawFromGame(old(State()), gameId, caller)
    {
      ghost var s0 := State();
      P.WithdrawFromGamePreservesValid(s0, gameId, caller);
      if paused {
        return L.Err(L.Paused);
      }
      if gameId !in games || games[gameId].state != L.Open {
        return L.Err(L.GameNotSetup);
      }
      var g := games[gameId];
      if g.homeOwner != caller {
        return L.Err(L.NotOwner);
      }
      games := games[gameId := g.(state := L.Closed)];
      inPlay := inPlay - {g.homeTokenId};
      r := L.Ok(());
    }

    /** reMatch(gameId) sent by `caller`. */
    method ReMatch(gameId: L.GameId, caller: Address) returns (r: L.Result<L.Event>)
      requires Valid()
      modifies this
      ensures Valid()
      ensures L.Step(r, State()) == L.ReMatch(old(State()), gameId, caller)
    {
      if paused {
        return L.Err(L.Paused);
      }
      if gameId !in games || games[gameId].state != L.Draw {
        return L.Err(L.NotDrawn);
      }
      var g := games[gameId];
      if caller != g.homeOwner && caller != g.awayOwner {
        return L.Err(L.NotOwner);
      }
      r := CreateGame(g.homeTokenId, g.homeOwner);
    }
  }

  /**
   * The home-win test run against the object: card 0 opens game 1, card 1
   * joins it and loses on attribute 0, and its owner changes to the home owner.
   */
  method HomeWinRun(owner1: Address, owner2: Address, anyone: Address) returns (h: HeadToHead)
    requires owner1 != owner2
    ensures fresh(h) && h.Valid()
    ensures L.GetGame(h.State(), 1) == L.Game(0, owner1, 1, owner2, L.HomeWin)
    ensures h.registry.OwnerOf(0) == Some(owner1) && h.registry.OwnerOf(1) == Some(owner1)
  {
    h := new HeadToHead(P.TestRegistry(owner1, owner2, anyone));
    var created := h.CreateGame(0, owner1);
    assert created == L.Ok(L.GameCreated(1, owner1, 0));
    var g := h.GetGame(1);
    assert g == L.Game(0, owner1, 0, ZeroAddress, L.Open);
    var resulted := h.ResultGame(1, 1, owner2, 0);
    P.ScenarioHomeWin(owner1, owner2, anyone);
    assert resulted == L.Ok(L.GameResulted(owner1, owner2, 1, 10, 5, 0));
  }
}
