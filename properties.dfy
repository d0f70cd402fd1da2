/**
 * Properties of the Head-to-Head ledger: the invariant every entry point
 * preserves, what any sequence of calls keeps, the order in which the entry
 * points check their conditions, and the three settlement scenarios.
 */
module Properties {
  import opened Cards
  import opened Ledger

  // ---------------------------------------------------------------------
  // The committed-card set under the two kinds of game-table update
  // ---------------------------------------------------------------------

  /** Adding a new open game commits its home card. */
  lemma OpenTokensAdd(games: map<GameId, Game>, id: GameId, g: Game)
    requires id !in games && g.state == Open
    ensures OpenTokens(games[id := g]) == OpenTokens(games) + {g.homeTokenId}
  {
    var games' := games[id := g];
    forall t | t in OpenTokens(games) ensures t in OpenTokens(games') {
      var j :| j in games && games[j].state == Open && games[j].homeTokenId == t;
      assert games'[j] == games[j];
    }
    assert g.homeTokenId in OpenTokens(games') by { assert games'[id] == g; }
  }

  /** Taking an open game out of state Open releases its home card and no other. */
  lemma OpenTokensSettle(games: map<GameId, Game>, id: GameId, g': Game)
    requires id in games && games[id].state == Open && g'.state != Open
    requires OneOpenGamePerToken(games)
    ensures OpenTokens(games[id := g']) == OpenTokens(games) - {games[id].homeTokenId}
  {
    var games' := games[id := g'];
    forall t | t in OpenTokens(games) - {games[id].homeTokenId} ensures t in OpenTokens(games') {
      var j :| j in games && games[j].state == Open && games[j].homeTokenId == t;
      assert j != id;
      assert games'[j] == games[j];
    }
    forall t | t in OpenTokens(games') ensures t in OpenTokens(games) - {games[id].homeTokenId} {
      var j :| j in games' && games'[j].state == Open && games'[j].homeTokenId == t;
      assert j != id && games[j] == games'[j];
    }
  }

  /** A card of an open game is committed. */
  lemma OpenGameTokenInPlay(s: ContractState, id: GameId)
    requires Valid(s) && id in s.games && s.games[id].state == Open
    ensures s.games[id].homeTokenId in s.inPlay
  {
  }

  // ---------------------------------------------------------------------
  // Each entry point preserves the invariant
  // ---------------------------------------------------------------------

  lemma CreateGamePreservesValid(s: ContractState, tokenId: TokenId, caller: Address)
    requires Valid(s)
    ensures Valid(CreateGame(s, tokenId, caller).post)
  {
    var r := CreateGame(s, tokenId, caller);
    if r.out.Ok? {
      var n := s.nextGameId;
      var g := Game(tokenId, caller, 0, ZeroAddress, Open);
      assert r.post.games == s.games[n := g];
      OpenTokensAdd(s.games, n, g);
      assert forall j :: j in s.games && s.games[j].state == Open ==> s.games[j].homeTokenId != tokenId;
    }
  }

  lemma ResultGamePreservesValid(s: ContractState, gameId: GameId, tokenId: TokenId, caller: Address,
                                 index: AttributeIndex)
    requires Valid(s)
    ensures Valid(ResultGame(s, gameId, tokenId, caller, index).post)
  {
    var r := ResultGame(s, gameId, tokenId, caller, index);
    if r.out.Ok? {
      var g := s.games[gameId];
      var g' := r.post.games[gameId];
      assert r.post.games == s.games[gameId := g'];
      OpenTokensSettle(s.games, gameId, g');
      var loser := if g'.state == AwayWin then g.homeTokenId else tokenId;
      forall id | id in r.post.games ensures OpenGameWellFormed(r.post, r.post.games[id]) {
        if id != gameId && s.games[id].state == Open {
          assert s.games[id].homeTokenId in OpenTokens(s.games);
          assert s.games[id].homeTokenId != loser;
        }
      }
    }
  }

  lemma WithdrawFromGamePreservesValid(s: ContractState, gameId: GameId, caller: Address)
    requires Valid(s)
    ensures Valid(WithdrawFromGame(s, gameId, caller).post)
  {
    var r := WithdrawFromGame(s, gameId, caller);
    if r.out.Ok? {
      OpenTokensSettle(s.games, gameId, s.games[gameId].(state := Closed));
    }
  }

  lemma ReMatchPreservesValid(s: ContractState, gameId: GameId, caller: Address)
    requires Valid(s)
    ensures Valid(ReMatch(s, gameId, caller).post)
  {
    if !s.paused && gameId in s.games && s.games[gameId].state == Draw {
      CreateGamePreservesValid(s, s.games[gameId].homeTokenId, s.games[gameId].homeOwner);
    }
  }

  lemma NextPreservesValid(s: ContractState, c: Call)
    requires Valid(s)
    ensures Valid(Next(s, c))
  {
    match c
    case CreateGameCall(t, a) => CreateGamePreservesValid(s, t, a);
    case ResultGameCall(id, t, a, i) => ResultGamePreservesValid(s, id, t, a, i);
    case WithdrawFromGameCall(id, a) => WithdrawFromGamePreservesValid(s, id, a);
    case ReMatchCall(id, a) => ReMatchPreservesValid(s, id, a);
    case PauseCall =>
    case UnpauseCall =>
    case SetApprovalForAllCall(o, b) =>
      assert forall t :: Next(s, c).registry.OwnerOf(t) == s.registry.OwnerOf(t);
  }

  /** The invariant holds after any sequence of calls. */
  lemma {:induction false} RunPreservesValid(s: ContractState, calls: seq<Call>)
    requires Valid(s)
    ensures Valid(Run(s, calls))
    decreases |calls|
  {
    if calls != [] {
      NextPreservesValid(s, calls[0]);
      RunPreservesValid(Next(s, calls[0]), calls[1..]);
    }
  }

  /**
   * In every state the contract can reach from deployment, game ids are
   * 1 .. nextGameId - 1 and no card is in two open games.
   */
  lemma ReachableStatesValid(registry: Registry, calls: seq<Call>)
    ensures Valid(Run(Init(registry), calls))
    ensures OneOpenGamePerToken(Run(Init(registry), calls).games)
    ensures forall id :: id in Run(Init(registry), calls).games <==> 1 <= id < Run(Init(registry), calls).nextGameId
  {
    assert OpenTokens(map[]) == {};
    RunPreservesValid(Init(registry), calls);
  }

  // ---------------------------------------------------------------------
  // Game ids are never reused and a settled game never changes again
  // ---------------------------------------------------------------------

  /** One call never removes a game, never lowers the id counter and never touches a settled game. */
  lemma NextKeepsGames(s: ContractState, c: Call)
    requires Valid(s)
    ensures s.nextGameId <= Next(s, c).nextGameId
    ensures forall id :: id in s.games ==> id in Next(s, c).games
    ensures forall id :: id in s.games && s.games[id].state != Open ==> Next(s, c).games[id] == s.games[id]
  {
    match c
    case CreateGameCall(t, a) =>
      assert s.nextGameId !in s.games;
    case ReMatchCall(id, a) =>
      assert s.nextGameId !in s.games;
    case _ =>
  }

  /**
   * Along any sequence of calls the id counter only grows, no game
   * disappears, and a game once in HOME_WIN, AWAY_WIN, DRAW or CLOSED keeps
   * its record unchanged.
   */
  lemma {:induction false} RunKeepsSettledGames(s: ContractState, calls: seq<Call>)
    requires Valid(s)
    ensures s.nextGameId <= Run(s, calls).nextGameId
    ensures forall id :: id in s.games ==> id in Run(s, calls).games
    ensures forall id :: id in s.games && s.games[id].state != Open ==> Run(s, calls).games[id] == s.games[id]
    decreases |calls|
  {
    if calls != [] {
      var s' := Next(s, calls[0]);
      NextKeepsGames(s, calls[0]);
      NextPreservesValid(s, calls[0]);
      RunKeepsSettledGames(s', calls[1..]);
    }
  }

  /** A created game gets an id that no game had before. */
  lemma CreateGameFreshId(s: ContractState, tokenId: TokenId, caller: Address)
    requires Valid(s)
    requires CreateGame(s, tokenId, caller).out.Ok?
    ensures CreateGame(s, tokenId, caller).out.value.gameId !in s.games
    ensures CreateGame(s, tokenId, caller).out.value.gameId == s.nextGameId
  {
  }

  // ---------------------------------------------------------------------
  // The order of the checks
  // ---------------------------------------------------------------------

  /** While paused, every entry point rejects with Paused and changes nothing. */
  lemma PausedRejectsAll(s: ContractState, gameId: GameId, tokenId: TokenId, caller: Address,
                         index: AttributeIndex)
    requires s.paused
    ensures CreateGame(s, tokenId, caller) == Step(Err(Paused), s)
    ensures ResultGame(s, gameId, tokenId, caller, index) == Step(Err(Paused), s)
    ensures ReMatch(s, gameId, caller) == Step(Err(Paused), s)
    ensures WithdrawFromGame(s, gameId, caller) == Step(Err(Paused), s)
  {
  }

  /**
   * When the card's owner has not approved the game, both createGame and
   * resultGame reject as not approved, whoever the caller is.
   */
  lemma ApprovalCheckedBeforeOwnership(s: ContractState, gameId: GameId, tokenId: TokenId, caller: Address,
                                       index: AttributeIndex)
    requires !s.paused && tokenId in s.registry.cards
    requires !s.registry.IsApprovedForAll(s.registry.cards[tokenId].owner)
    ensures CreateGame(s, tokenId, caller) == Step(Err(NotApproved), s)
    ensures ResultGame(s, gameId, tokenId, caller, index) == Step(Err(NotApproved), s)
  {
  }

  /**
   * With approval, a caller who does not own the card is rejected by both
   * createGame and resultGame, whether or not the game exists.
   */
  lemma OwnershipCheckedBeforeGame(s: ContractState, gameId: GameId, tokenId: TokenId, caller: Address,
                                   index: AttributeIndex)
    requires !s.paused && tokenId in s.registry.cards
    requires s.registry.IsApprovedForAll(s.registry.cards[tokenId].owner)
    requires s.registry.cards[tokenId].owner != caller
    ensures CreateGame(s, tokenId, caller) == Step(Err(NotOwner), s)
    ensures ResultGame(s, gameId, tokenId, caller, index) == Step(Err(NotOwner), s)
  {
  }

  /**
   * The owner of a free card cannot result a game never created ("Game not
   * setup"), and cannot ask for a rematch of it ("Game not in drawn state").
   */
  lemma UnknownGameRejected(s: ContractState, gameId: GameId, tokenId: TokenId, caller: Address,
                            index: AttributeIndex)
    requires !s.paused && gameId !in s.games
    requires s.registry.OwnerOf(tokenId) == Some(caller) && s.registry.IsApprovedForAll(caller)
    requires tokenId !in s.inPlay
    ensures ResultGame(s, gameId, tokenId, caller, index) == Step(Err(GameNotSetup), s)
    ensures ReMatch(s, gameId, caller) == Step(Err(NotDrawn), s)
  {
  }

  /**
   * The home card of an open game can neither open a second game nor join
   * another one.
   */
  lemma AlreadyPlayingRejected(s: ContractState, openId: GameId, gameId: GameId, caller: Address,
                               index: AttributeIndex)
    requires Valid(s) && !s.paused
    requires openId in s.games && s.games[openId].state == Open
    requires s.registry.OwnerOf(s.games[openId].homeTokenId) == Some(caller)
    requires s.registry.IsApprovedForAll(caller)
    ensures CreateGame(s, s.games[openId].homeTokenId, caller) == Step(Err(AlreadyPlaying), s)
    ensures ResultGame(s, gameId, s.games[openId].homeTokenId, caller, index) == Step(Err(AlreadyPlaying), s)
  {
    OpenGameTokenInPlay(s, openId);
  }

  /** In a valid state an away win is settled unless the home owner has withdrawn approval. */
  lemma TransferRejectedOnlyWithoutApproval(s: ContractState, gameId: GameId, tokenId: TokenId, caller: Address,
                                            index: AttributeIndex)
    requires Valid(s)
    requires ResultGame(s, gameId, tokenId, caller, index).out == Err(TransferRejected)
    ensures !s.registry.IsApprovedForAll(s.games[gameId].homeOwner)
  {
  }

  // ---------------------------------------------------------------------
  // The three settlement scenarios
  // ---------------------------------------------------------------------

  /**
   * Three cards: 0 owned by `owner1` with attributes 10, 10, 10, 10; 1 owned
   * by `owner2` with 5, 10, 20, 20; 2 owned by `anyone` with 30, 30, 30, 30.
   * The two first owners have approved the game.
   */
  function TestRegistry(owner1: Address, owner2: Address, anyone: Address): Registry
  {
    Registry(map[0 := Card(owner1, [10, 10, 10, 10]),
                 1 := Card(owner2, [5, 10, 20, 20]),
                 2 := Card(anyone, [30, 30, 30, 30])],
             {owner1, owner2})
  }

  /** Card 0 opens game 1 as home: the record and the event. */
  lemma ScenarioCreate(owner1: Address, owner2: Address, anyone: Address)
    ensures var c := CreateGame(Init(TestRegistry(owner1, owner2, anyone)), 0, owner1);
            && c.out == Ok(GameCreated(1, owner1, 0))
            && GetGame(c.post, 1) == Game(0, owner1, 0, ZeroAddress, Open)
            && GetGame(c.post, 1).state.Code() == 0
  {
  }

  /** Compared on attribute 0, 10 beats 5: the home owner owns both cards. */
  lemma ScenarioHomeWin(owner1: Address, owner2: Address, anyone: Address)
    requires owner1 != owner2
    ensures var c := CreateGame(Init(TestRegistry(owner1, owner2, anyone)), 0, owner1);
            var r := ResultGame(c.post, 1, 1, owner2, 0);
            && r.out == Ok(GameResulted(owner1, owner2, 1, 10, 5, 0))
            && r.post.registry.OwnerOf(0) == Some(owner1)
            && r.post.registry.OwnerOf(1) == Some(owner1)
            && GetGame(r.post, 1) == Game(0, owner1, 1, owner2, HomeWin)
            && GetGame(r.post, 1).state.Code() == 1
  {
    var c := CreateGame(Init(TestRegistry(owner1, owner2, anyone)), 0, owner1);
    assert c.post.registry.AttributesOf(1)[0] == 5;
  }

  /** Compared on attribute 2, 20 beats 10: the away owner owns both cards. */
  lemma ScenarioAwayWin(owner1: Address, owner2: Address, anyone: Address)
    requires owner1 != owner2
    ensures var c := CreateGame(Init(TestRegistry(owner1, owner2, anyone)), 0, owner1);
            var r := ResultGame(c.post, 1, 1, owner2, 2);
            && r.out == Ok(GameResulted(owner1, owner2, 1, 10, 20, 2))
            && r.post.registry.OwnerOf(0) == Some(owner2)
            && r.post.registry.OwnerOf(1) == Some(owner2)
            && GetGame(r.post, 1) == Game(0, owner1, 1, owner2, AwayWin)
            && GetGame(r.post, 1).state.Code() == 2
  {
    var c := CreateGame(Init(TestRegistry(owner1, owner2, anyone)), 0, owner1);
    assert c.post.registry.AttributesOf(1)[2] == 20;
  }

  /**
   * Compared on attribute 1, 10 equals 10: a GameDraw, no card moves, and
   * both cards are free again.
   */
  lemma ScenarioDraw(owner1: Address, owner2: Address, anyone: Address)
    requires owner1 != owner2
    ensures var c := CreateGame(Init(TestRegistry(owner1, owner2, anyone)), 0, owner1);
            var r := ResultGame(c.post, 1, 1, owner2, 1);
            && r.out == Ok(GameDraw(owner1, owner2, 1, 10, 10, 1))
            && r.post.registry.OwnerOf(0) == Some(owner1)
            && r.post.registry.OwnerOf(1) == Some(owner2)
            && GetGame(r.post, 1) == Game(0, owner1, 1, owner2, Draw)
            && GetGame(r.post, 1).state.Code() == 3
            && r.post.inPlay == {}
  {
    var c := CreateGame(Init(TestRegistry(owner1, owner2, anyone)), 0, owner1);
    assert c.post.registry.AttributesOf(1)[1] == 10;
  }

  /**
   * Card 0 opens game 1 and card 2 opens game 2; card 0 can then neither
   * open another game nor join game 1 ("Token already playing a game").
   */
  lemma ScenarioAlreadyPlaying(owner1: Address, owner2: Address, anyone: Address, index: AttributeIndex)
    requires owner1 != owner2 && anyone != owner1 && anyone != owner2
    ensures var s := Init(TestRegistry(owner1, owner2, anyone).SetApprovalForAll(anyone, true));
            var c1 := CreateGame(s, 0, owner1);
            var c2 := CreateGame(c1.post, 2, anyone);
            && c1.out == Ok(GameCreated(1, owner1, 0))
            && c2.out == Ok(GameCreated(2, anyone, 2))
            && CreateGame(c1.post, 0, owner1).out == Err(AlreadyPlaying)
            && ResultGame(c2.post, 1, 0, owner1, index).out == Err(AlreadyPlaying)
  {
  }
}
