# Head-to-Head game ledger and settlement

This project models the HeadToHead game of the nifty-football contracts. Two
owners of football cards (ERC-721 tokens of the FutballCards registry) play
one match, and the loser's card becomes the winner's. The behaviour modelled
is the one the repository's test suite `test/games/HeadToHead.test.js` pins down.

- The game table maps each game id to its home card and owner, its away card
  and owner, and its state. The states are `OPEN=0, HOME_WIN=1, AWAY_WIN=2,
  DRAW=3, CLOSED=4`.
- Game ids come from a counter, and the first game gets id 1.
- The in-play set holds the cards committed to open games.
- The pause flag blocks every game entry point.
- The card registry is kept abstract. It has an owner per card, the set of
  owners who approved the game to move their cards, and four attribute values
  per card.
- `createGame`, `resultGame`, `withdrawFromGame` and `reMatch` check their
  conditions in order. A call either rejects with an error and changes nothing,
  or applies its transition and returns the event the contract emits.
- `resultGame` settles the match. The result oracle picks an attribute index
  from 0 to 3. Attribute `index` of the home card is compared with the same
  attribute of the away card. The higher value wins and gets the other card.
  Equal values draw, and a draw emits `GameDraw` instead of `GameResulted`.

Files:

- `cards.dfy`, module `Cards`: the registry as a value, with `ownerOf`,
  `isApprovedForAll`, `setApprovalForAll`, `transferFrom` and the attribute lookup.
- `ledger.dfy`, module `Ledger`: the contract's state as a datatype, and each
  entry point as a pure transition that returns the call's outcome and the new
  state. Also holds the invariant `Valid`.
- `properties.dfy`, module `Properties`: lemmas. Every entry point keeps
  `Valid`, and so does any sequence of calls. Game ids are never reused.
  Settled games never change. The lemmas also state the order of the checks
  that the tests reveal, and the tests' three settlement scenarios.
- `head_to_head.dfy`, module `HeadToHeadContract`: the class `HeadToHead`.
  Its fields are the game table, the counter, the in-play set, the pause flag
  and the registry. Its imperative methods update those fields. Each one is
  proved to keep `Valid` and to do exactly what the matching `Ledger`
  transition says.

Modelling decisions the tests leave open:

- Approval means the card owner's `isApprovedForAll` for the game. This fits
  line 81, where approval is checked before ownership.
- `ownerOf` on a card the registry does not hold reverts. This is the error
  `NonexistentToken`, checked right after the pause flag.
- `createGame` and `resultGame` check in this order: paused, card exists,
  approved, caller owns the card, card not already playing. `resultGame` then
  checks that the game is open. The tests fix only two things here: approval
  comes before ownership (line 81), and ownership comes before the game check
  (line 103). The rest of the order is a modelling choice. At lines 135 and
  146 both approval and ownership pass, so the tests do not fix where "already
  playing" stands relative to them. They also do not fix whether "already
  playing" comes before "game not setup".
- The pause tests (lines 50-62) only check that the call reverts, not the
  message. Reporting the error `Paused`, and checking the pause flag first,
  are modelling choices.
- "Game not setup" covers an id never created and a game that is no longer open.
- `getGame` on an id never created returns the zero record, as a Solidity
  mapping does.
- The outcome comes from comparing the selected attribute values (lines
  194-196, 244-246, 297-299). The model has no table from oracle codes to
  outcomes. The mock's `setResult` argument is internal to the oracle.
- On an away win, the home card moves through the registry's `transferFrom`.
  That call needs the home owner's approval at that moment, and approval can
  be withdrawn after the game was created. Without it the call rejects with
  `TransferRejected`.
- `reMatch` on a drawn game, requested by one of its two players, opens a new
  game. The drawn game's home card re-enters for its home owner under
  `createGame`'s checks. The away slot is open and is not kept for the old
  away card. The drawn game itself does not change.
- `withdrawFromGame` checks, in order: paused, game open, caller is the home
  owner. The game then becomes `CLOSED` and its card is released.

## Model

| member | source | states |
|---|---|---|
| `Ledger.StateOfCode` | test/games/HeadToHead.test.js:12 | the codes 0 to 4, and only they, stand for a state, each reading back to its own code |
| `Ledger.StateCodeRoundTrip` | test/games/HeadToHead.test.js:12 | every state is recovered from its numeric code |
| `Cards.Registry.AttributesOf` | test/games/HeadToHead.test.js:30-38 | a card in the registry reads as the attributes stored for it |
| `Cards.Registry.SetApprovalForAll` | test/games/HeadToHead.test.js:67-70 | sets one owner's approval of the game, leaves every other owner's approval and all cards unchanged |
| `Cards.Registry.TransferFrom` | test/games/HeadToHead.test.js:200-202 | succeeds exactly when `from` owns the card and approved the game; then only that card's owner changes, to `to` |
| `Ledger.Init` | test/games/HeadToHead.test.js:18-26 | a deployed contract has no games, nothing in play, is not paused, and its next game id is 1 |
| `Ledger.GetGame` | test/games/HeadToHead.test.js:177-182 | returns the stored record, or the zero record for an id never created |
| `Ledger.EntryError` | test/games/HeadToHead.test.js:65-149 | a card may enter exactly when not paused, the caller owns it, the caller approved the game and it is not in play; paused always reports Paused |
| `Ledger.CreateGame` | test/games/HeadToHead.test.js:161-182 | accepted exactly when the entry checks pass; a rejection changes nothing; on success emits GameCreated with id nextGameId, stores an open record with the caller's card as home and a zero away slot, leaves every other game alone and commits the card |
| `Ledger.ResultGame` | test/games/HeadToHead.test.js:185-322 | rejections change nothing and follow the entry checks, then "game not setup"; a join is accepted exactly when the entry checks pass, the game is open, and, if the away value is higher, the home owner still owns the home card and approves the game; on success the game records the joiner as away; the state is HOME_WIN, AWAY_WIN or DRAW exactly when the home value is greater, smaller or equal; the loser's card goes to the winner and no other card changes owner; a draw moves nothing and emits GameDraw; the set of cards, the attributes and the approvals stay as they were; the home card is released |
| `Ledger.WithdrawFromGame` | test/games/HeadToHead.test.js:60-62 | accepted exactly when not paused, the game is open and the caller is its home owner; the game becomes CLOSED and its card is released; a rejection changes nothing |
| `Ledger.ReMatch` | test/games/HeadToHead.test.js:115-120 | paused, then "not in drawn state" for any id that is not a drawn game; a rejection changes nothing; success needs a drawn game and one of its players, and is createGame of the home card for its home owner |
| `Properties.PausedRejectsAll` | test/games/HeadToHead.test.js:45-62 | while paused, all four entry points reject and change nothing; the error reported is `Paused`, a modelling choice since the tests check no message |
| `Properties.ApprovalCheckedBeforeOwnership` | test/games/HeadToHead.test.js:65-84 | without the owner's approval, createGame and resultGame reject as not approved, whoever calls |
| `Properties.OwnershipCheckedBeforeGame` | test/games/HeadToHead.test.js:94-106 | with approval, a non-owner is rejected as not owner by createGame and by resultGame, whatever the game id |
| `Properties.UnknownGameRejected` | test/games/HeadToHead.test.js:108-120 | the owner of a free card gets "game not setup" from resultGame on an unknown game, and "not in drawn state" from reMatch |
| `Properties.AlreadyPlayingRejected` | test/games/HeadToHead.test.js:132-149 | a card already in an open game can neither create another game nor join one |
| `Properties.CreateGamePreservesValid` | test/games/HeadToHead.test.js:132-138 | createGame keeps the invariant: ids are 1 to nextGameId - 1, in-play cards are exactly the open games' home cards, no card is in two open games, open games have an empty away slot and an owning home owner |
| `Properties.ResultGamePreservesValid` | test/games/HeadToHead.test.js:140-149 | resultGame keeps the invariant |
| `Properties.WithdrawFromGamePreservesValid` | test/games/HeadToHead.test.js:60-62 | withdrawFromGame keeps the invariant |
| `Properties.ReMatchPreservesValid` | test/games/HeadToHead.test.js:115-120 | reMatch keeps the invariant |
| `Properties.NextPreservesValid` | test/games/HeadToHead.test.js:45-149 | every call, pause and approval changes included, keeps the invariant |
| `Properties.RunPreservesValid` | test/games/HeadToHead.test.js:124-149 | any sequence of calls keeps the invariant |
| `Properties.ReachableStatesValid` | test/games/HeadToHead.test.js:132-149 | in every state reachable from deployment no card is in two open games, and the game ids are exactly 1 to nextGameId - 1 |
| `Properties.NextKeepsGames` | test/games/HeadToHead.test.js:204-208 | one call never removes a game, never lowers the id counter and never changes a settled game |
| `Properties.RunKeepsSettledGames` | test/games/HeadToHead.test.js:254-269 | along any sequence of calls, the counter only grows, no game disappears, and a game that is HOME_WIN, AWAY_WIN, DRAW or CLOSED keeps its record |
| `Properties.CreateGameFreshId` | test/games/HeadToHead.test.js:162-175 | a created game's id is nextGameId and no game had it before |
| `Properties.TransferRejectedOnlyWithoutApproval` | test/games/HeadToHead.test.js:250-252 | in a valid state, settlement fails only when the home owner has withdrawn approval |
| `Properties.ScenarioCreate` | test/games/HeadToHead.test.js:161-182 | the first createGame emits GameCreated(1, owner, 0) and stores an open record with a zero away slot |
| `Properties.ScenarioHomeWin` | test/games/HeadToHead.test.js:161-209 | on attribute 0, 10 beats 5: GameResulted with values 10 and 5 and result 0; the home owner owns both cards; the game is HOME_WIN with the joiner recorded as away |
| `Properties.ScenarioAwayWin` | test/games/HeadToHead.test.js:211-270 | on attribute 2, 20 beats 10: GameResulted with values 10 and 20 and result 2; the away owner owns both cards; home and away fields keep the players |
| `Properties.ScenarioDraw` | test/games/HeadToHead.test.js:272-322 | on attribute 1, 10 equals 10: GameDraw with result 1; no card changes owner; the game is DRAW; nothing stays in play |
| `Properties.ScenarioAlreadyPlaying` | test/games/HeadToHead.test.js:124-149 | after games 1 and 2 are opened, card 0 can neither open another game nor join game 1 |
| `HeadToHeadContract.HeadToHead.constructor` | test/games/HeadToHead.test.js:18-26 | deployment yields the initial ledger over the given registry, which satisfies the invariant |
| `HeadToHeadContract.HeadToHead.Pause` | test/games/HeadToHead.test.js:45-49 | sets the pause flag and changes nothing else |
| `HeadToHeadContract.HeadToHead.Unpause` | test/games/HeadToHead.test.js:45-48 | clears the pause flag and changes nothing else |
| `HeadToHeadContract.HeadToHead.SetApprovalForAll` | test/games/HeadToHead.test.js:67-70 | sets the owner's approval in the registry and keeps the invariant |
| `HeadToHeadContract.HeadToHead.GetGame` | test/games/HeadToHead.test.js:177-182 | returns the stored record, or the zero record for an id never created |
| `HeadToHeadContract.HeadToHead.CheckEntry` | test/games/HeadToHead.test.js:65-149 | returns the first failing entry check of the card, None exactly when the card may play |
| `HeadToHeadContract.HeadToHead.CreateGame` | test/games/HeadToHead.test.js:132-182 | updates the fields in place exactly as `Ledger.CreateGame`, keeping the invariant |
| `HeadToHeadContract.HeadToHead.ResultGame` | test/games/HeadToHead.test.js:185-322 | updates the fields in place exactly as `Ledger.ResultGame`, keeping the invariant |
| `HeadToHeadContract.HeadToHead.WithdrawFromGame` | test/games/HeadToHead.test.js:60-62 | updates the fields in place exactly as `Ledger.WithdrawFromGame`, keeping the invariant |
| `HeadToHeadContract.HeadToHead.ReMatch` | test/games/HeadToHead.test.js:115-120 | updates the fields in place exactly as `Ledger.ReMatch`, keeping the invariant |
| `HeadToHeadContract.HomeWinRun` | test/games/HeadToHead.test.js:161-209 | the home-win test run on the object: game 1 ends HOME_WIN with the home owner owning both cards |

## Left out

- The Solidity source of the HeadToHead contract, the FutballCards registry
  and the result oracle is not available. The behaviour modelled here comes
  from the test file.
- The test harness, `async`/`await`, big-number wrappers and revert strings.
  Each revert message is a value of the `Error` datatype.
- Minting, token URIs, `setAttributes` and `totalCards` are left out. The
  registry starts from a given value.
- The oracle's choice of attribute index is a parameter of `resultGame`. How
  the real oracle chooses it, including its randomness and the mock's
  `setResult` encoding, is left out.
- The pauser role is left out, and so is OpenZeppelin's revert on pausing a
  paused contract. `Pause` and `Unpause` only set the flag.
- Events are return values, not a log.
- Per-token approvals (`approve`/`getApproved`) and transfers made directly on
  the registry outside the game are left out. Without them, a home owner keeps
  the card while its game is open.
- `Ledger.WithdrawFromGame`: the test suite checks only that it rejects while
  paused. The success path and the order of the other checks are a modelling
  choice, not tested behaviour.
- `Ledger.ReMatch`: the test suite checks only its rejections while paused
  and on an unknown game. The check that the caller is a player and the
  success path are a modelling choice, not tested behaviour.
- Solidity's 256-bit integers are unbounded here. The game counter and the
  attribute values never come close to 2^256.
- Atomic revert, reentrancy and the order of effects inside a call are not
  modelled separately. A rejected call returns the state unchanged, and one
  that succeeds applies all of its effects.
