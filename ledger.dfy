/**
 * The Head-to-Head game ledger and its settlement, as pure transitions over
 * the contract's whole state: the game table, the game id counter, the set of
 * cards committed to open games, the pause flag and the card registry.
 * Each entry point checks its conditions in order and either rejects,
 * leaving the state as it was, or applies its transition.
 */
module Ledger {
  import opened Cards

  type GameId = nat

  /** The game states, with the numeric codes getGame reports for them. */
  datatype GameState = Open | HomeWin | AwayWin | Draw | Closed {
    function Code(): nat
    {
      match this
      case Open => 0
      case HomeWin => 1
      case AwayWin => 2
      case Draw => 3
      case Closed => 4
    }
  }

  /** The state a numeric code stands for, if any. */
  function StateOfCode(code: nat): (st: Option<GameState>)
    ensures st.Some? <==> code < 5
    ensures st.Some? ==> st.value.Code() == code
  {
    if code == 0 then Some(Open)
    else if code == 1 then Some(HomeWin)
    else if code == 2 then Some(AwayWin)
    else if code == 3 then Some(Draw)
    else if code == 4 then Some(Closed)
    else None
  }

  /** Every state reads back from its own code. */
  lemma StateCodeRoundTrip(st: GameState)
    ensures StateOfCode(st.Code()) == Some(st)
  {
  }

  datatype Game = Game(homeTokenId: TokenId, homeOwner: Address,
                       awayTokenId: TokenId, awayOwner: Address,
                       state: GameState)

  /** What getGame reports for an id never created. */
  const EmptyGame: Game := Game(0, ZeroAddress, 0, ZeroAddress, Open)

  datatype Error =
    | Paused            // the pause flag is set
    | NonexistentToken  // the registry's ownerOf reverts: no such card
    | NotApproved       // "NFT not approved to play"
    | NotOwner          // "You cannot enter if you dont own the card"
    | AlreadyPlaying    // "Token already playing a game"
    | GameNotSetup      // "Game not setup": no open game with that id
    | NotDrawn          // "Game not in drawn state"
    | TransferRejected  // the registry's transferFrom reverts

  datatype Event =
    | GameCreated(gameId: GameId, home: Address, homeTokenId: TokenId)
    | GameResulted(home: Address, away: Address, gameId: GameId,
                   homeValue: nat, awayValue: nat, result: AttributeIndex)
    | GameDraw(home: Address, away: Address, gameId: GameId,
               homeValue: nat, awayValue: nat, result: AttributeIndex)

  datatype Result<T> = Ok(value: T) | Err(error: Error)

  /** The contract's state. `nextGameId` is the id the next game receives. */
  datatype ContractState = ContractState(games: map<GameId, Game>, nextGameId: GameId,
                                         inPlay: set<TokenId>, paused: bool, registry: Registry)

  /** What a call returns, and the state after it. */
  datatype Step<T> = Step(out: Result<T>, post: ContractState)

  /** A freshly deployed contract over a given registry. */
  function Init(registry: Registry): (s: ContractState)
    ensures s.games == map[] && s.inPlay == {} && !s.paused && s.registry == registry
    ensures s.nextGameId == 1
  {
    ContractState(map[], 1, {}, false, registry)
  }

  /** getGame: the record, or the zero record for an id never created. */
  function GetGame(s: ContractState, gameId: GameId): (g: Game)
    ensures gameId in s.games ==> g == s.games[gameId]
    ensures gameId !in s.games ==> g == EmptyGame
  {
    if gameId in s.games then s.games[gameId] else EmptyGame
  }

  /** The cards committed to open games: the home cards of games in state Open. */
  function OpenTokens(games: map<GameId, Game>): set<TokenId>
  {
    set id | id in games && games[id].state == Open :: games[id].homeTokenId
  }

  /**
   * The checks createGame and resultGame make of the card a caller enters,
   * in order: not paused, the card exists, its owner has approved the game,
   * the caller owns it, it is not already in an open game.
   */
  function EntryError(s: ContractState, tokenId: TokenId, caller: Address): (e: Option<Error>)
    ensures e == None <==>
              && !s.paused
              && s.registry.OwnerOf(tokenId) == Some(caller)
              && s.registry.IsApprovedForAll(caller)
              && tokenId !in s.inPlay
    ensures s.paused ==> e == Some(Paused)
  {
    if s.paused then Some(Paused)
    else if s.registry.OwnerOf(tokenId).None? then Some(NonexistentToken)
    else if !s.registry.IsApprovedForAll(s.registry.OwnerOf(tokenId).value) then Some(NotApproved)
    else if s.registry.OwnerOf(tokenId).value != caller then Some(NotOwner)
    else if tokenId in s.inPlay then Some(AlreadyPlaying)
    else None
  }

  /**
   * createGame(tokenId) called by `caller`: opens game `nextGameId` with the
   * caller's card as home and an empty away slot, and commits the card.
   */
  function CreateGame(s: ContractState, tokenId: TokenId, caller: Address): (r: Step<Event>)
    ensures r.out.Err? ==> r.post == s && Some(r.out.error) == EntryError(s, tokenId, caller)
    ensures r.out.Ok? <==> EntryError(s, tokenId, caller) == None
    ensures r.out.Ok? ==>
              && r.out.value == GameCreated(s.nextGameId, caller, tokenId)
              && GetGame(r.post, s.nextGameId) == Game(tokenId, caller, 0, ZeroAddress, Open)
              && (forall id :: id != s.nextGameId ==> GetGame(r.post, id) == GetGame(s, id))
              && r.post.games.Keys == s.games.Keys + {s.nextGameId}
              && r.post.nextGameId == s.nextGameId + 1
              && r.post.inPlay == s.inPlay + {tokenId}
              && r.post.registry == s.registry && r.post.paused == s.paused
  {
    match EntryError(s, tokenId, caller)
    case Some(e) => Step(Err(e), s)
    case None =>
      var id := s.nextGameId;
      Step(Ok(GameCreated(id, caller, tokenId)),
           s.(games := s.games[id := Game(tokenId, caller, 0, ZeroAddress, Open)],
              nextGameId := id + 1,
              inPlay := s.inPlay + {tokenId}))
  }

  /** The disposition of a match from the two compared values. */
  function Disposition(homeValue: nat, awayValue: nat): GameState
  {
    if homeValue > awayValue then HomeWin
    else if awayValue > homeValue then AwayWin
    else Draw
  }

  /**
   * The registry after settling a game with the given disposition: the
   * loser's card goes to the winner; on a draw nothing moves.
   */
  function Settle(registry: Registry, g: Game, awayTokenId: TokenId, away: Address,
                  outcome: GameState): Option<Registry>
  {
    match outcome
    case HomeWin => registry.TransferFrom(away, g.homeOwner, awayTokenId)
    case AwayWin => registry.TransferFrom(g.homeOwner, away, g.homeTokenId)
    case _ => Some(registry)
  }

  /**
   * resultGame(gameId, tokenId) called by `caller`, where `index` is the
   * attribute the result oracle picked for this call: the caller's card joins
   * open game `gameId` as away, attribute `index` of both cards is compared,
   * the higher wins the other card, equal values draw.
   */
  function ResultGame(s: ContractState, gameId: GameId, tokenId: TokenId, caller: Address,
                      index: AttributeIndex): (r: Step<Event>)
    ensures r.out.Err? ==> r.post == s
    ensures EntryError(s, tokenId, caller).Some? ==> r.out == Err(EntryError(s, tokenId, caller).value)
    ensures (EntryError(s, tokenId, caller) == None && (gameId !in s.games || s.games[gameId].state != Open))
              ==> r.out == Err(GameNotSetup)
    ensures r.out.Ok? <==>
              && EntryError(s, tokenId, caller) == None
              && gameId in s.games && s.games[gameId].state == Open
              // an away win also needs the registry to let the home card go
              && (s.registry.AttributesOf(tokenId)[index] > s.registry.AttributesOf(s.games[gameId].homeTokenId)[index]
                  ==> s.registry.OwnerOf(s.games[gameId].homeTokenId) == Some(s.games[gameId].homeOwner)
                      && s.registry.IsApprovedForAll(s.games[gameId].homeOwner))
    ensures r.out.Ok? ==>
              var g := s.games[gameId];
              var hv := s.registry.AttributesOf(g.homeTokenId)[index];
              var av := s.registry.AttributesOf(tokenId)[index];
              var st := GetGame(r.post, gameId).state;
              && r.post.games == s.games[gameId := g.(awayTokenId := tokenId, awayOwner := caller, state := st)]
              && (st == HomeWin <==> hv > av)
              && (st == AwayWin <==> av > hv)
              && (st == Draw <==> hv == av)
              && r.out.value == (if st == Draw then GameDraw(g.homeOwner, caller, gameId, hv, av, index)
                                 else GameResulted(g.homeOwner, caller, gameId, hv, av, index))
              // ownership: the loser's card goes to the winner, nothing else moves
              && (st == HomeWin ==> r.post.registry.OwnerOf(tokenId) == Some(g.homeOwner))
              && (st == AwayWin ==> r.post.registry.OwnerOf(g.homeTokenId) == Some(caller))
              && (st == Draw ==> r.post.registry == s.registry)
              && r.post.registry.cards.Keys == s.registry.cards.Keys
              && r.post.registry.approvedOwners == s.registry.approvedOwners
              && (forall t :: r.post.registry.AttributesOf(t) == s.registry.AttributesOf(t))
              && (forall t :: t != (if st == AwayWin then g.homeTokenId else tokenId) ==>
                                r.post.registry.OwnerOf(t) == s.registry.OwnerOf(t))
              && r.post.inPlay == s.inPlay - {g.homeTokenId}
              && r.post.nextGameId == s.nextGameId && r.post.paused == s.paused
    ensures r.out == Err(TransferRejected) ==>
              var g := s.games[gameId];
              Disposition(s.registry.AttributesOf(g.homeTokenId)[index],
                          s.registry.AttributesOf(tokenId)[index]) == AwayWin
              && !(s.registry.OwnerOf(g.homeTokenId) == Some(g.homeOwner) && s.registry.IsApprovedForAll(g.homeOwner))
  {
    match EntryError(s, tokenId, caller)
    case Some(e) => Step(Err(e), s)
    case None =>
      if gameId !in s.games || s.games[gameId].state != Open then Step(Err(GameNotSetup), s)
      else
        var g := s.games[gameId];
        var hv := s.registry.AttributesOf(g.homeTokenId)[index];
        var av := s.registry.AttributesOf(tokenId)[index];
        var outcome := Disposition(hv, av);
        match Settle(s.registry, g, tokenId, caller, outcome)
        case None => Step(Err(TransferRejected), s)
        case Some(registry') =>
          var event := if outcome == Draw then GameDraw(g.homeOwner, caller, gameId, hv, av, index)
                       else GameResulted(g.homeOwner, caller, gameId, hv, av, index);
          Step(Ok(event),
               s.(games := s.games[gameId := g.(awayTokenId := tokenId, awayOwner := caller, state := outcome)],
                  inPlay := s.inPlay - {g.homeTokenId},
                  registry := registry'))
  }

  /**
   * withdrawFromGame(gameId) called by `caller`: the home owner of an open
   * game closes it and gets the card released.
   */
  function WithdrawFromGame(s: ContractState, gameId: GameId, caller: Address): (r: Step<()>)
    ensures r.out.Err? ==> r.post == s
    ensures r.out.Ok? <==> !s.paused && gameId in s.games && s.games[gameId].state == Open
                           && s.games[gameId].homeOwner == caller
    ensures s.paused ==> r.out == Err(Paused)
    ensures r.out.Ok? ==>
              && r.post.games == s.games[gameId := s.games[gameId].(state := Closed)]
              && r.post.inPlay == s.inPlay - {s.games[gameId].homeTokenId}
              && r.post.registry == s.registry && r.post.nextGameId == s.nextGameId
              && r.post.paused == s.paused
  {
    if s.paused then Step(Err(Paused), s)
    else if gameId !in s.games || s.games[gameId].state != Open then Step(Err(GameNotSetup), s)
    else if s.games[gameId].homeOwner != caller then Step(Err(NotOwner), s)
    else
      var g := s.games[gameId];
      Step(Ok(()), s.(games := s.games[gameId := g.(state := Closed)],
                      inPlay := s.inPlay - {g.homeTokenId}))
  }

  /**
   * reMatch(gameId) called by `caller`: a drawn game is replayed as a new
   * game. One of the two players asks for it; the drawn game's home card
   * re-enters for its home owner, under createGame's checks, and the drawn game
   * itself is left as it is.
   */
  function ReMatch(s: ContractState, gameId: GameId, caller: Address): (r: Step<Event>)
    ensures r.out.Err? ==> r.post == s
    ensures s.paused ==> r.out == Err(Paused)
    ensures !s.paused && (gameId !in s.games || s.games[gameId].state != Draw) ==> r.out == Err(NotDrawn)
    ensures r.out.Ok? ==>
              && gameId in s.games && s.games[gameId].state == Draw
              && caller in {s.games[gameId].homeOwner, s.games[gameId].awayOwner}
              && r == CreateGame(s, s.games[gameId].homeTokenId, s.games[gameId].homeOwner)
  {
    if s.paused then Step(Err(Paused), s)
    else if gameId !in s.games || s.games[gameId].state != Draw then Step(Err(NotDrawn), s)
    else
      var g := s.games[gameId];
      if caller != g.homeOwner && caller != g.awayOwner then Step(Err(NotOwner), s)
      else CreateGame(s, g.homeTokenId, g.homeOwner)
  }

  /** The external calls that change the contract's state. */
  datatype Call =
    | CreateGameCall(tokenId: TokenId, caller: Address)
    | ResultGameCall(gameId: GameId, tokenId: TokenId, caller: Address, index: AttributeIndex)
    | WithdrawFromGameCall(gameId: GameId, caller: Address)
    | ReMatchCall(gameId: GameId, caller: Address)
    | PauseCall
    | UnpauseCall
    | SetApprovalForAllCall(owner: Address, approved: bool)

  /** The state after one call (a rejected call leaves it unchanged). */
  function Next(s: ContractState, c: Call): ContractState
  {
    match c
    case CreateGameCall(t, a) => CreateGame(s, t, a).post
    case ResultGameCall(id, t, a, i) => ResultGame(s, id, t, a, i).post
    case WithdrawFromGameCall(id, a) => WithdrawFromGame(s, id, a).post
    case ReMatchCall(id, a) => ReMatch(s, id, a).post
    case PauseCall => s.(paused := true)
    case UnpauseCall => s.(paused := false)
    case SetApprovalForAllCall(o, b) => s.(registry := s.registry.SetApprovalForAll(o, b))
  }

  /** The state after a sequence of calls. */
  function Run(s: ContractState, calls: seq<Call>): ContractState
    decreases |calls|
  {
    if calls == [] then s else Run(Next(s, calls[0]), calls[1..])
  }

  /** Two open games never share a home card. */
  ghost predicate OneOpenGamePerToken(games: map<GameId, Game>)
  {
    forall i, j ::
      (i in games && j in games && games[i].state == Open && games[j].state == Open
       && games[i].homeTokenId == games[j].homeTokenId) ==> i == j
  }

  /** An open game has an empty away slot, and its home owner still owns its card. */
  ghost predicate OpenGameWellFormed(s: ContractState, g: Game)
  {
    g.state == Open ==>
      && g.awayTokenId == 0 && g.awayOwner == ZeroAddress
      && s.registry.OwnerOf(g.homeTokenId) == Some(g.homeOwner)
  }

  /**
   * The ledger's invariant: game ids are exactly 1 .. nextGameId - 1, the
   * committed cards are exactly the home cards of open games, no card is in
   * two open games, and open games are well formed.
   */
  ghost predicate Valid(s: ContractState)
  {
    && 1 <= s.nextGameId
    && (forall id :: id in s.games ==> 1 <= id < s.nextGameId)
    && (forall id :: 1 <= id < s.nextGameId ==> id in s.games)
    && s.inPlay == OpenTokens(s.games)
    && OneOpenGamePerToken(s.games)
    && (forall id :: id in s.games ==> OpenGameWellFormed(s, s.games[id]))
  }
}
