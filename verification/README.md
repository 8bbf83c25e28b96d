# Two-Faced Poker server: a verified model

Two players sit in a room. Each holds a card with two different numbers; the front is open, the back is known
only to its owner. They bet chips on one face or on both, raise until somebody calls, folds (DIE) or asks for an
immediate showdown (SPECIAL), and play rounds until one of them is out of chips. The server keeps rooms, turns,
chips and cards, and tells each client what it may know. This project models that server and proves what it keeps.

## How the model is built

- **Rules** (`BettingRules`, `RoundResolver`, `SettlementRules`): the three pure modules of the game.
- **Sections and flows** (`Sections`, `GameFlow`): what each roomMutex section and each game event does to the two
  players, their pot and the messages sent to them, as functions from the calling player's chair.
- **Classes** (`RoomManager`, `GameManager`, `GameSession`, `Deck`, `RoomRegistry`, `ClientHandle`,
  `ClientConnection`, `Packet`): the objects and loops of the server, with their fields updated in place. The room
  and game classes are proved to do exactly what the section and flow functions say, messages included.
  `GameManager.HandleGameEvent` ties them to the operations of `Table`.
- **Rounds** (`RoundInvariant`, `Showdown`, `Views`, `Screens`): what holds in every betting position, who wins a
  round and is told so, and what the two clients show if they apply their messages in order.
- **Runs** (`Table`, `Match`, `Secrecy`): what holds in every run of complete operations, and between two runs.
- **Threads** (`Interleaving`, `Lifecycle`, and the second half of `ClientConnection`): the same code cut at every
  lock and interleaved in any order. Interleaved game events are shown to behave like complete operations.
- **Text** (`BetCommandParser`, `ClientCommandParser`): the two layers of command parsing.

A connection is an identifier with the list of messages handed to it. The cards of a deal are an input of the flow
functions; the classes take them from the deck. A socket or user number is a value of its own type in which the
invalid socket and the missing number are distinguished values.

## What the code does that its comments do not say

- The cap on raises counts the opponent's chips on one side only (TwofacedPoker/Game/BettingRules.cpp:64), so a
  player on both faces can be left without any bet (`RaiseCanLockOutBothSides`, `BothSidesCanGoOn`).
- A draw suppresses the first end check (TwofacedPoker/Game/GameManager.cpp:298-302) but not the one after the deal
  (line 397), so a draw can end a match; the caller is checked first
  (`DrawEndsMatchIff`, `DrawCanEndMatch`).
- The suppressed check still takes back both ready flags when somebody is out of chips
  (TwofacedPoker/Room/RoomManager.cpp:527-542).
- DIE settles as a plain loss even against a player on both faces (TwofacedPoker/Game/GameManager.cpp:261); the
  folded branch of the resolver (TwofacedPoker/Game/RoundResolver.cpp:17-26) is never reached.
- SPECIAL replaces both players' sides whatever they bet on (TwofacedPoker/Room/RoomManager.cpp:547-568), so it can
  show a back card nobody bet on (`SpecialIsSecretIff`, `SpecialCanTell`).
- A bet out of turn is refused before it is read (TwofacedPoker/Game/GameManager.cpp:130-138).

## Model

| member | source | states |
|---|---|---|
| RoundResolver.ResolveIsByFaces | TwofacedPoker/Game/RoundResolver.cpp:28-96 | Every decided showdown follows the reference rule on the faces that were bet on: whoever bets on both faces wins exactly if both are higher than the other's face; two single faces go to the higher one, equal ones are a draw. |
| RoundResolver.ResolveDecides | TwofacedPoker/Game/RoundResolver.cpp:28-38 | A showdown is impossible exactly if somebody has no face chosen or both claim both; it is drawn exactly on two equal single faces. |
| RoundResolver.ResolveMirrors | TwofacedPoker/Game/RoundResolver.cpp:28-96 | Swapping the players mirrors the result. |
| Showdown.ShowdownIsByFaces | TwofacedPoker/Room/RoomManager.cpp:473-512 | The comparison is about the cards on the faces the two players bet on, front, back or both, by the reference rule; it is impossible exactly if somebody bet on none or both bet on both. |
| Showdown.CalledShowdown | TwofacedPoker/Game/GameManager.cpp:273-292 | A call in a legal position ends in the verdict on the cards the two players hold, on the face of the calling bet and of the bet it answers. |
| Showdown.SpecialShowdown | TwofacedPoker/Game/GameManager.cpp:243-249 | SPECIAL in a legal position is won by the higher of the two higher faces, and drawn if they are equal. |
| SettlementRules.WinnerTakesTheRest | TwofacedPoker/Game/SettlementRules.cpp:17-62 | The loser pays nothing more, or after a win on both faces the most it can up to 10, and the winner has all the rest; after a draw all but the players' chips lies with the dealer. |
| SettlementRules.SettleConserves | TwofacedPoker/Game/SettlementRules.cpp:8-70 | A settlement mints and loses nothing and takes nobody below zero. |
| SettlementRules.SettleMirrors | TwofacedPoker/Game/SettlementRules.cpp:8-70 | Settling the mirrored round from the other chair pays everybody the same. |
| RoundInvariant.BetIsLegalIff | TwofacedPoker/Game/BettingRules.cpp:8-88 | A chip bet is accepted exactly if the position after it is legal, and it is a call exactly if the levels are then equal. |
| RoundInvariant.BetKeepsInvariant | TwofacedPoker/Room/RoomManager.cpp:383-471 | An accepted bet is always deducted; a raise leads to a legal position of the other player with a strictly higher level, a call to equal levels. |
| RoundInvariant.SettlementConserves | TwofacedPoker/Room/RoomManager.cpp:663-737 | Settling conserves all chips and clears all bets; a draw moves exactly the pot to the dealer. |
| RoundInvariant.ShowdownPaysTheSame | TwofacedPoker/Room/RoomManager.cpp:473-512 | Whichever player triggers the comparison and settlement, both end with the same chips, bets and pot. |
| RoundInvariant.NextRoundKeepsInvariant | TwofacedPoker/Game/GameManager.cpp:383-410 | The next round starts from a legal position, the ante is never skipped, and the match ends here exactly if somebody cannot stay above zero. |
| RoundInvariant.SettlementLeadsOn | TwofacedPoker/Game/GameManager.cpp:256-317 | From the settlement on: exact final position, or a legal position of the other player, or for a draw a pot grown by exactly what was bet. |
| RoundInvariant.FoldLeadsOn | TwofacedPoker/Game/GameManager.cpp:256-281 | A fold is a plain loss of the folding player, never ends the match at the settlement, and ends it through the next ante exactly if that player had one chip. |
| RoundInvariant.ShowdownIsDecided | TwofacedPoker/Game/GameManager.cpp:273-292 | Every call and every SPECIAL in a legal position reaches a decided comparison. |
| RoundInvariant.ActKeepsInvariant | TwofacedPoker/Game/GameManager.cpp:211-317 | The main step: every command in a legal position is refused without effect, passes a legal position to the other player, or finishes the match in an exact final position; no defensive branch is taken. |
| RoundInvariant.StartEstablishesInvariant | TwofacedPoker/Game/GameManager.cpp:150-187 | A started match begins in a legal position with 29, 29 and 2 chips. |
| RoundInvariant.DrawEndsMatchIff | TwofacedPoker/Game/GameManager.cpp:298-302 | A drawn showdown ends the match, against the comment at that place, exactly if a player had bet everything; the caller wins exactly if it has a chip. |
| RoundInvariant.DrawCanEndMatch | TwofacedPoker/Game/GameManager.cpp:396-400 | It happens: equal fronts, all chips on the front and a call in the first round leave 0, 0 and 60, and the caller has lost. |
| RoundInvariant.DecidedShowdownEndsMatchIff | TwofacedPoker/Game/GameManager.cpp:294-316 | A decided showdown ends the match at the settlement exactly if the loser cannot keep a chip, and at the next ante exactly if it keeps one; the winner of the showdown wins the match. |
| RoundInvariant.DrawMovesPot | TwofacedPoker/Game/GameManager.cpp:298-316 | A drawn round moves the bets, and nothing else, to the dealer. |
| RoundInvariant.CalledDrawPot | TwofacedPoker/Room/RoomManager.cpp:473-512 | A draw reached by a chip call matches two one-sided bets of one level, at least 1. |
| RoundInvariant.RaiseClimbs | TwofacedPoker/Game/BettingRules.cpp:45-87 | A raise strictly lifts the maximum level and never above what the poorer player brought into the round, also when one side pays double. |
| RoundInvariant.RaisesAreBounded | TwofacedPoker/Game/BettingRules.cpp:45-87 | The raises still possible in a round are at most the poorer stack minus the current level, for every sequence of commands. |
| RoundInvariant.RoundIsShort | TwofacedPoker/Game/BettingRules.cpp:45-87 | A round has at most as many raises as the poorer player has chips at its start, and at most 29. |
| RoundInvariant.SingleSideCanCall | TwofacedPoker/Game/BettingRules.cpp:28-87 | Facing a raise and not locked on both faces, exactly one count on the own side is a call. |
| RoundInvariant.BothSidesCanGoOn | TwofacedPoker/Game/BettingRules.cpp:41-87 | Locked on both faces, some bet is accepted if and only if twice the gap is affordable. |
| RoundInvariant.OpeningBetIsRaise | TwofacedPoker/Game/BettingRules.cpp:45-87 | At the start of a round one chip on one side is always a raise. |
| RoundInvariant.RaiseCanLockOutBothSides | TwofacedPoker/Game/BettingRules.cpp:63-70 | The cap on raises does not protect a player on both faces: a reachable position in which no chip bet is accepted. |
| Showdown.PotGoesTo | TwofacedPoker/Room/RoomManager.cpp:663-737 | A settlement gives the pot to the caller exactly on a win or a win with both faces, to the other exactly on the matching losses, and to neither on a draw. |
| Showdown.OutcomeIsTold | TwofacedPoker/Game/GameManager.cpp:335-380 | Every command that ends a round appends exactly one result to what each player hears, and no other command does. Who takes the pot hears of a win, of a win with both faces exactly if it bet on both, or of the fold; the other hears of the matching loss; both hear of a draw if nobody takes it. |
| Showdown.BattleIsHeard | TwofacedPoker/Game/GameManager.cpp:273-292 | The messages of a showdown in order: battle, the back card of whoever bet on it or a wait, the result. |
| Showdown.StartIsHeard | TwofacedPoker/Game/GameManager.cpp:150-187 | The complete messages of a game start to both players, with turn, ante and cards, literally. |
| Showdown.NextRoundIsHeard | TwofacedPoker/Game/GameManager.cpp:383-410 | The complete messages between two rounds: ante unless the round was drawn, cards, then the new turn or the end of the match. |
| Showdown.BetIsHeard | TwofacedPoker/Room/RoomManager.cpp:441-471 | The complete messages of an accepted bet: the chips left, then what lies on the faces of the bet, from either perspective. |
| Showdown.ActShows | TwofacedPoker/Game/GameManager.cpp:211-410 | After every command both clients still show their own two faces, the other's front face, all bets, and whose turn it is. |
| Screens.DealShows | TwofacedPoker/Room/RoomManager.cpp:343-382 | After the messages of a deal each client shows its own two faces and the other's front face. |
| Screens.BetShows | TwofacedPoker/Room/RoomManager.cpp:441-471 | After the messages of a bet both clients show what lies on its faces, and nothing else has changed. |
| Views.ActReports | TwofacedPoker/Game/GameManager.cpp:211-410 | One command keeps both clients' chip displays exact, and announces a won and a lost match, once each, exactly if it ends the match. |
| Views.StartReports | TwofacedPoker/Game/GameManager.cpp:150-187 | The messages of a game start make both displays exact from any earlier contents. |
| Views.SettleFollows | TwofacedPoker/Room/RoomManager.cpp:704-732 | Announcing only the amounts that changed keeps both displays exact. |
| Views.BetFollows | TwofacedPoker/Room/RoomManager.cpp:739-759 | The messages of a bet keep both displays exact. |
| Views.CollectShowsAll | TwofacedPoker/Room/RoomManager.cpp:643-657 | The ante announces every amount. |
| Table.OpponentIsMutual | TwofacedPoker/Room/RoomManager.cpp:39-56 | In a room of two the opponent of the opponent is the player itself. |
| Table.StepKeepsTable | TwofacedPoker/Game/GameManager.cpp:31-147 | Every complete operation (join, exit, start, bet) keeps the room safe: a match is on only between two members in a legal position, and no defensive branch was taken. |
| Table.RunKeepsTable | TwofacedPoker/Game/GameManager.cpp:31-317 | The same for every run of operations. |
| Table.RunKeepsScreens | TwofacedPoker/Room/RoomManager.cpp:704-732 | In every run, whenever a match is on, a client that applies its chip messages in order shows the server's amounts. |
| Table.MatchEnds | TwofacedPoker/Game/GameManager.cpp:70-98 | A command that ends a match leaves an exact final position and tells one player of the win and the other of the loss, once each. |
| Table.MatchIsQuietUntilItEnds | TwofacedPoker/Game/GameManager.cpp:70-98 | While a match is on, nobody is told of a won or lost match. |
| Table.MatchIsAnnouncedOnce | TwofacedPoker/Game/GameManager.cpp:70-98 | From the start of a match to the command that ends it, one player is told once of the win, the other once of the loss, and neither anything else of the kind. |
| Table.TurnPasses | TwofacedPoker/Game/GameManager.cpp:50-67 | An accepted action passes the turn to the other player; nothing else moves the turn of a running match. |
| Table.ActionsAlternate | TwofacedPoker/Game/GameManager.cpp:211-235 | The accepted actions of one match come from the two players in strict alternation, across rounds. |
| Table.StarterActsFirst | TwofacedPoker/Game/GameManager.cpp:150-175 | The first of them comes from the player whose start succeeded. |
| Table.DrawnRoundCosts | TwofacedPoker/Game/GameManager.cpp:298-316 | A drawn round adds its pot to the dealer, twice the level if it was reached by a call, and costs the poorer player a chip. |
| Table.RunExplainsDealer | TwofacedPoker/Game/SettlementRules.cpp:40-42 | In every run the dealer holds 2 plus the pots of the draws since the last decided round, of which at most 29 were reached by a call. |
| Table.EveryRunIsSafe | TwofacedPoker/Game/GameManager.cpp:31-410 | All run properties together, from the empty room. |
| Match.JoinSeats | TwofacedPoker/Room/RoomManager.cpp:117-164 | A join seats the client, without chips, bets and cards, exactly if there is a free seat and it is no member yet; the other member, the pot and the phase stay. Otherwise nothing changes. |
| Match.LeaveUnseats | TwofacedPoker/Room/RoomManager.cpp:165-231 | An exit removes exactly the member; whoever stays has 30 chips and nothing else, hears of a match that is cut short, and no match is on. |
| Match.OnlyTheTurnHolderBets | TwofacedPoker/Game/GameManager.cpp:121-143 | A bet without a match or from outside does nothing; out of turn it is answered with a refusal and nothing else. |
| Match.CommandOnTable | TwofacedPoker/Game/GameManager.cpp:211-235 | A bet of the turn holder does to the two players what the command does, and passes or ends the turn as it says. |
| Match.StartBeginsMatch | TwofacedPoker/Game/GameManager.cpp:150-175 | A start takes effect exactly if no match is on, the room is full and the caller is a member; then the caller has the turn. |
| Match.TwoCanPlay | TwofacedPoker/Game/GameManager.cpp:150-187 | Two joins and a start from the empty room lead to a match with the starter's turn, a legal position and the dealt cards. |
| Match.RunKeepsHands | TwofacedPoker/Room/RoomManager.cpp:343-382 | In every run, while a match is on, both players hold their cards of the last deal, and their clients show these cards as far as each may see them, the bets, and whose turn it is. |
| Match.HandsFollow | TwofacedPoker/Room/RoomManager.cpp:343-382 | Over every operation the two players of a match hold the last two cards that were dealt, which are two different cards. |
| Interleaving.SectionsRunOut | TwofacedPoker/Game/GameManager.cpp:101-410 | A game event enters boundedly many roomMutex sections. |
| Interleaving.CommandFinishes | TwofacedPoker/Game/GameManager.cpp:211-410 | Section by section and undisturbed, a betting command does what the whole command does. |
| Interleaving.StartFinishes | TwofacedPoker/Game/GameManager.cpp:150-187 | The same for a game start. |
| Interleaving.RunsItsSection | TwofacedPoker/Game/GameManager.cpp:50-67 | No section of an operation under way lacks its second player or its match: both branches of passTurnToOpponent that reset the game count as faults and are never taken. |
| Interleaving.EveryActionIsAtomic | TwofacedPoker/Game/GameManager.cpp:101-147 | Every step of an interleaved room either is one complete operation or is invisible. |
| Interleaving.InterleavedRunsAreSerial | TwofacedPoker/Game/GameManager.cpp:101-147 | Every interleaving of roomMutex sections, with joins and ready changes between them, is a run of complete operations. |
| Interleaving.FreeRoomIsSafe | TwofacedPoker/Game/GameManager.cpp:31-47 | Whenever gameMutex is free: legal position of two members with 60 chips, exact displays, explained dealer pot, no defensive branch taken. |
| Interleaving.InterleavedActionsAlternate | TwofacedPoker/Game/GameManager.cpp:50-67 | However the threads of one match interleave, its accepted actions alternate. |
| Interleaving.InterleavedMatchIsAnnouncedOnce | TwofacedPoker/Game/GameManager.cpp:70-98 | The announcement of a whole match, for any interleaving of threads. |
| Interleaving.SectionConserves | TwofacedPoker/Room/RoomManager.cpp:383-758 | Every single section conserves the chips. |
| Interleaving.EveryMomentIsSafe | TwofacedPoker/Room/RoomManager.cpp:383-758 | Also in the middle of an operation all 60 chips are accounted for and every amount is between 0 and 60, so int arithmetic cannot overflow. |
| Match.OwnFlagOnly | TwofacedPoker/Room/RoomManager.cpp:264-306 | A member of a full room sets its own ready flag and no other; nobody else can. |
| Match.BothMustBeReady | TwofacedPoker/Game/GameManager.cpp:150-165 | The ready check begins the match of the asking player exactly if the room is full and both flags are set; otherwise only the answer follows. |
| Match.BetGetsIn | TwofacedPoker/Game/GameManager.cpp:101-143 | A member's bet that finds gameMutex free takes effect, whatever happens between its sections. |
| Match.ExitGetsIn | TwofacedPoker/Game/GameManager.cpp:31-47 | So does an exit; after it nobody is ready. |
| Match.TwoThreadsCanPlay | TwofacedPoker/Game/GameManager.cpp:101-187 | A run of single sections from the empty room, with joins, ready flags and a start request, leads to a match with the starter's turn and the dealt cards. |
| Match.FreeRoomShows | TwofacedPoker/Room/RoomManager.cpp:343-382 | In every interleaving, whenever gameMutex is free, hands and screens are as RunKeepsHands says. |
| Secrecy.ShowdownAlike | TwofacedPoker/Room/RoomManager.cpp:852-899 | Two positions that differ only in a back card its owner did not bet on print the same and compare the same. |
| Secrecy.ActAlike | TwofacedPoker/Game/GameManager.cpp:211-410 | No command tells two such positions apart. |
| Secrecy.SpecialIsSecretIff | TwofacedPoker/Room/RoomManager.cpp:547-568 | SPECIAL keeps such a card secret from the other player if and only if it is no higher than the front card in both positions, or equal. |
| Secrecy.SpecialCanTell | TwofacedPoker/Room/RoomManager.cpp:547-568 | It happens: in the first round SPECIAL tells the starting player whether 2 or 3 is behind the other's 1. |
| Secrecy.RunsAlike | TwofacedPoker/Game/GameManager.cpp:211-410 | No run tells them apart, over dealing, betting, showdown, settlement and later rounds. |
| Secrecy.UnshownBackCardIsSecret | TwofacedPoker/Room/RoomManager.cpp:343-382 | Every other member receives the same messages in the same order in both runs. |
| Secrecy.SectionAlike | TwofacedPoker/Room/RoomManager.cpp:343-382 | No single section tells two positions apart that differ in such a back card, unless it is SPECIAL or a showdown that uses it. |
| Secrecy.InterleavedRunsKeepTheSecret | TwofacedPoker/Room/RoomManager.cpp:343-382 | For two executions with the same actions in any interleaving, at every moment, also in the middle of an operation: every other member has received the same messages in the same order. |
| Deck.Deck.ResupplyCard | TwofacedPoker/Game/Deck.cpp:23-45 | The new deck holds every card with two different numbers from 1 to 10 exactly once, and nothing else. |
| Deck.Deck.ShuffleCard | TwofacedPoker/Game/Deck.cpp:15-20 | Shuffling permutes the deck. |
| Deck.Deck.DealCard | TwofacedPoker/Game/Deck.cpp:48-67 | The next card comes from the front; when the deck runs out a full one replaces it. |
| Deck.Deck.constructor | TwofacedPoker/Game/Deck.cpp:9-12 | A new deck is full. |
| Deck.EveryCardOnce | TwofacedPoker/Game/Deck.cpp:23-45 | Every card is at exactly one place of a full deck. |
| Deck.BlocksAreConsecutive | TwofacedPoker/Game/Deck.cpp:48-67 | Each block of 90 dealt cards is one full deck. |
| Deck.NextDiffers | TwofacedPoker/Game/GameSession.cpp:60-67 | After an odd number of cards of a deck there is a next card and it differs from the last one. |
| Deck.Deck.BlockHoldsEveryCard | TwofacedPoker/Game/GameSession.cpp:60-67 | Over any sequence of deals, every complete block of 45 deals hands out every card exactly once. |
| GameSession.GameSession.DealCards | TwofacedPoker/Game/GameSession.cpp:60-67 | A deal takes the next two cards of the deck, which differ. |
| GameSession.GameSession.Start | TwofacedPoker/Game/GameSession.cpp:9-20 | Starts only from waiting and for a valid socket. |
| GameSession.GameSession.Reset | TwofacedPoker/Game/GameSession.cpp:23-27 | Back to waiting. |
| GameSession.GameSession.PassTurnTo | TwofacedPoker/Game/GameSession.cpp:48-57 | Passes the turn only during a match and to a valid socket. |
| GameSession.GameSession.constructor | TwofacedPoker/Game/GameSession.cpp:4-6 | A new session waits and has a full deck. |
| RoomManager.AddKeepsIndexes | TwofacedPoker/Room/RoomManager.cpp:136-163 | Adding a member keeps the three indexes one bijection of at most two members. |
| RoomManager.RemoveKeepsIndexes | TwofacedPoker/Room/RoomManager.cpp:174-194 | So does removing one. |
| RoomManager.User.constructor | TwofacedPoker/Room/RoomManager.cpp:159-159 | A new user has nothing and is not ready. |
| RoomManager.RoomManager.constructor | TwofacedPoker/Room/RoomManager.cpp:16-18 | A new room is empty. |
| RoomManager.RoomManager.FindOpponentSocket | TwofacedPoker/Room/RoomManager.cpp:39-56 | The other member's socket, if the room has two members and this is one of them. |
| RoomManager.RoomManager.FindUserBySocket | TwofacedPoker/Room/RoomManager.cpp:57-74 | The user behind a socket, if it is a member. |
| RoomManager.RoomManager.FindOpponentUser | TwofacedPoker/Room/RoomManager.cpp:75-100 | The user behind the socket that FindOpponentSocket finds: both lookups name the same player. |
| RoomManager.RoomManager.GetOpponentSocket | TwofacedPoker/Room/RoomManager.cpp:607-613 | The same under the lock. |
| RoomManager.RoomManager.BroadcastMessage | TwofacedPoker/Room/RoomManager.cpp:101-116 | Exactly the targeted members receive the message. |
| RoomManager.RoomManager.CollectBroadcast | TwofacedPoker/Room/RoomManager.cpp:811-851 | Exactly the targeted members get the message appended to what is pending for them. |
| RoomManager.RoomManager.SendPending | TwofacedPoker/Room/RoomManager.cpp:760-772 | Every connection receives what is pending for it, in order. |
| RoomManager.RoomManager.CollectMyCardUpdate | TwofacedPoker/Room/RoomManager.cpp:791-796 | Both faces go to their owner only. |
| RoomManager.RoomManager.CollectBetUpdate | TwofacedPoker/Room/RoomManager.cpp:797-804 | A bet is announced to each member from its own perspective. |
| RoomManager.RoomManager.CollectChipUpdate | TwofacedPoker/Room/RoomManager.cpp:805-810 | So are chips. |
| RoomManager.RoomManager.AddUser | TwofacedPoker/Room/RoomManager.cpp:117-164 | Succeeds exactly for a valid connection, a free seat and a new user and socket; then the three indexes gain this member, nothing else changes, and the room is the one the join operation leads to, in every phase of its game; a refusal for want of a seat is a join without effect. |
| RoomManager.RoomManager.RemoveUser | TwofacedPoker/Room/RoomManager.cpp:165-231 | Succeeds exactly for a matching user and socket; the rest of the room starts over and everybody is told. |
| RoomManager.RoomManager.UserUpdate | TwofacedPoker/Room/RoomManager.cpp:232-263 | Both players learn each other's ID and readiness, and nothing changes. |
| RoomManager.RoomManager.HandleUserReady | TwofacedPoker/Room/RoomManager.cpp:264-306 | Only a member of a full room changes its own flag, the other is told, and no chips, bets or cards change. |
| RoomManager.RoomManager.AllUserStartReadyState | TwofacedPoker/Room/RoomManager.cpp:570-589 | True exactly for two members who are both ready. |
| RoomManager.RoomManager.ResetAllUsers | TwofacedPoker/Room/RoomManager.cpp:308-341 | A new game gives both players 30 chips and clears bets, cards and pot; ready flags stay. |
| RoomManager.RoomManager.UpdateCards | TwofacedPoker/Room/RoomManager.cpp:343-382 | Front and back of the caller's card are stored with the caller, those of the other card with the other player; each player is sent its own two faces and the other's front face only. |
| RoomManager.RoomManager.BetChips | TwofacedPoker/Room/RoomManager.cpp:383-440 | The bet, its result and all messages, as the section function says. |
| RoomManager.RoomManager.UpdateBetInfo | TwofacedPoker/Room/RoomManager.cpp:441-471 | The bet is added on the chosen faces and announced from both perspectives. |
| RoomManager.RoomManager.DeductBet | TwofacedPoker/Room/RoomManager.cpp:739-759 | Deducts a positive affordable amount and announces it, or does nothing. |
| RoomManager.RoomManager.CompareCard | TwofacedPoker/Room/RoomManager.cpp:473-512 | The verdict of the reference rule on the faces both users bet on, or none exactly if somebody bet on none or both on both; the sides are cleared exactly if there is one. |
| RoomManager.RoomManager.EndCheck | TwofacedPoker/Room/RoomManager.cpp:514-545 | Who is out of chips, the caller first; only then are the ready flags taken back. |
| RoomManager.RoomManager.SpecialCase | TwofacedPoker/Room/RoomManager.cpp:547-568 | Both players are put on their higher face. |
| RoomManager.RoomManager.CollectBasicBet | TwofacedPoker/Room/RoomManager.cpp:615-662 | Both pay the ante or neither does. |
| RoomManager.RoomManager.SettleRound | TwofacedPoker/Room/RoomManager.cpp:663-737 | Chips, pot and bets after the settlement, and messages for exactly the amounts that changed. |
| RoomManager.RoomManager.PrintCard | TwofacedPoker/Room/RoomManager.cpp:852-899 | A back card is shown to the other player exactly if its owner bet on it. |
| GameManager.GameManager.constructor | TwofacedPoker/Game/GameManager.cpp:13-15 | A new game waits, and its room is sound. |
| GameManager.GameManager.ResetGame | TwofacedPoker/Game/GameManager.cpp:18-28 | Back to waiting. |
| GameManager.GameManager.HandlePlayerExit | TwofacedPoker/Game/GameManager.cpp:31-47 | An exit does to room and session what the complete operation does, resets nothing if the player was no member, and keeps the room sound. |
| GameManager.GameManager.PassTurnToOpponent | TwofacedPoker/Game/GameManager.cpp:50-67 | The other member gets the turn, or the game is reset. |
| GameManager.GameManager.FinishGame | TwofacedPoker/Game/GameManager.cpp:70-98 | Both players are told, and the game waits again. |
| GameManager.GameManager.HandleGameEvent | TwofacedPoker/Game/GameManager.cpp:101-147 | Every message of a member is exactly one complete operation of the room, with exactly the cards it draws from the deck, or the answer that not everybody is ready. It keeps the room sound: the players of a match hold the last two cards the deck gave out. |
| GameManager.GameManager.HandleStartRequest | TwofacedPoker/Game/GameManager.cpp:106-116 | A request to start is the complete start, or is answered to everybody, or ignored during a match. |
| GameManager.GameManager.HandleBetMessage | TwofacedPoker/Game/GameManager.cpp:121-143 | A betting message is the complete bet of the turn holder, or refused unread. |
| GameManager.GameManager.HandleGameStart | TwofacedPoker/Game/GameManager.cpp:150-175 | With both ready a match starts with the caller's turn; otherwise everybody is told. |
| GameManager.GameManager.GiveBasicBetting | TwofacedPoker/Game/GameManager.cpp:178-187 | Ante, then two different cards of the deck. |
| GameManager.GameManager.GiveCards | TwofacedPoker/Game/GameManager.cpp:190-193 | The next two cards of the deck, which differ. |
| GameManager.GameManager.BetUser | TwofacedPoker/Game/GameManager.cpp:196-208 | A text that is no bet changes nothing. |
| GameManager.GameManager.BetChip | TwofacedPoker/Game/GameManager.cpp:211-235 | Players, turn, deck and ready flags after a betting command, as the flow function says. |
| GameManager.GameManager.ResolveBet | TwofacedPoker/Game/GameManager.cpp:238-253 | DIE changes nothing, SPECIAL picks the faces, anything else is a chip bet. |
| GameManager.GameManager.ProcessRoundEnd | TwofacedPoker/Game/GameManager.cpp:256-317 | Players, turn, deck and ready flags after the end of a round. |
| GameManager.GameManager.ResolveRound | TwofacedPoker/Game/GameManager.cpp:320-332 | A decided comparison is announced. |
| GameManager.GameManager.BroadcastRoundResult | TwofacedPoker/Game/GameManager.cpp:335-380 | Each player hears its own result; after a fold the other hears of the fold. |
| GameManager.GameManager.PrepareNextRound | TwofacedPoker/Game/GameManager.cpp:383-410 | New cards, with an ante except after a draw, then the end check, then the other player's turn. |
| GameManager.GameManager.FinishIfNeeded | TwofacedPoker/Game/GameManager.cpp:413-422 | Finishes exactly on a final result. |
| GameManager.GameManager.NotifyTurnChanged | TwofacedPoker/Game/GameManager.cpp:425-429 | Both players hear whose turn it is. |
| GameManager.BetArrives | TwofacedPoker/Game/GameManager.cpp:119-141 | A bet sent as text by the player who holds the turn arrives as exactly that bet. |
| GameManager.StartArrives | TwofacedPoker/Game/GameManager.cpp:101-116 | While no match is on, the text of a start request becomes a start exactly if everybody is ready. |
| RoomRegistry.RoomRegistry.Find | TwofacedPoker/Room/RoomRegistry.cpp:7-39 | The context registered under a number. |
| RoomRegistry.RoomRegistry.CreateAndJoin | TwofacedPoker/Room/RoomRegistry.cpp:42-68 | A new number is used up in any case; the new room has exactly this member and is registered under it. |
| RoomRegistry.RoomRegistry.TryJoin | TwofacedPoker/Room/RoomRegistry.cpp:71-92 | Succeeds exactly if the room is registered and accepts the user; no other room changes. |
| RoomRegistry.RoomRegistry.ListAvailable | TwofacedPoker/Room/RoomRegistry.cpp:95-125 | All rooms with a free seat, each once, by ascending number. |
| RoomRegistry.RoomRegistry.EraseIfEmpty | TwofacedPoker/Room/RoomRegistry.cpp:128-150 | Erases exactly a registered, unchanged and empty room. |
| ClientHandle.ClientEventHandler.constructor | TwofacedPoker/Network/ClientHandle.cpp:25-27 | A new handler has no user and no room. |
| ClientHandle.ClientEventHandler.HandleLogin | TwofacedPoker/Network/ClientHandle.cpp:339-353 | The first login takes the next number; a repeated one changes nothing. |
| ClientHandle.ClientEventHandler.HandleCreateChattingRoom | TwofacedPoker/Network/ClientHandle.cpp:211-243 | A logged-in client without a room gets a fresh one of that name, and every reply; its own room number keeps agreeing with its membership. |
| ClientHandle.ClientEventHandler.HandleJoinChattingRoom | TwofacedPoker/Network/ClientHandle.cpp:245-316 | Joins exactly if the room has a seat for a logged-in client without one; every reply, and the message to the others in the room. |
| ClientHandle.ClientEventHandler.HandleExitRoom | TwofacedPoker/Network/ClientHandle.cpp:155-209 | The client leaves exactly its room, which is closed exactly if it was alone; whoever stays is told, and a match is over. |
| ClientHandle.ClientEventHandler.Disconnect | TwofacedPoker/Network/ClientHandle.cpp:410-417 | A disconnected client is in no room. |
| Lifecycle.StepKeepsInv | TwofacedPoker/Network/ClientHandle.cpp:155-316 | Every section of a create, join or exit keeps membership, room numbers and registration in agreement. |
| Lifecycle.EveryMomentIsSafe | TwofacedPoker/Room/RoomRegistry.cpp:42-150 | In every interleaving, when the registry mutex is free: no member in an unregistered room, at most two members, idle clients have a room number exactly if they are members, a registered empty room has somebody who will look after it. |
| Lifecycle.ExitFindsRoom | TwofacedPoker/Network/ClientHandle.cpp:155-176 | An exit of a client that has a room always finds it. |
| Lifecycle.ExitSucceeds | TwofacedPoker/Network/ClientHandle.cpp:178-199 | Whatever others do meanwhile, it then removes the client from that room. |
| Lifecycle.ErasedForGood | TwofacedPoker/Room/RoomRegistry.cpp:128-150 | An erased room never comes back and never has a member again. |
| Lifecycle.NewRoomIsNew | TwofacedPoker/Room/RoomRegistry.cpp:47-61 | A new room gets a number no room ever had. |
| Lifecycle.JoinTakesSeat | TwofacedPoker/Room/RoomRegistry.cpp:71-92 | A join that found its room takes a seat exactly if there still is one. |
| Lifecycle.JoinGetsThrough | TwofacedPoker/Network/ClientHandle.cpp:245-316 | Undisturbed, a join of a registered room with a free seat makes the client a member and sets its room number. |
| Lifecycle.CreateGetsThrough | TwofacedPoker/Room/RoomRegistry.cpp:42-68 | A create that has its number ends with the client as the only member of a registered room, whose number it has. |
| Lifecycle.EmptyRoomIsErased | TwofacedPoker/Room/RoomRegistry.cpp:128-150 | After the last member has left, its thread erases the room, unless somebody came in again. |
| Packet.Wire.Recv | TwofacedPoker/Protocol/Packet.cpp:16-31 | At most the requested bytes from the front of the stream, or a failure. |
| Packet.Wire.Send | TwofacedPoker/Protocol/Packet.cpp:45-56 | Some of the data from its front, or a failure. |
| Packet.SendAll | TwofacedPoker/Protocol/Packet.cpp:39-60 | All bytes reach the stream, or a proper beginning of them. |
| Packet.RecvAll | TwofacedPoker/Protocol/Packet.cpp:10-35 | The next bytes of the stream fill the buffer, or a failure. |
| Packet.SendPacket | TwofacedPoker/Protocol/Packet.cpp:98-120 | Refuses exactly impossible sizes; otherwise two zero bytes, the length as two bytes with the higher one first, and the message, or a proper beginning of that. |
| Packet.ReceivePacket | TwofacedPoker/Protocol/Packet.cpp:65-95 | Exactly the first packet of the stream; fails on a working stream only if there is none. From 0, 0, hi, lo it takes the next hi * 256 + lo bytes, if they are 1 to 1024. |
| Packet.ReceiveUntilEnd | TwofacedPoker/Network/ClientHandle.cpp:375-390 | The receive loop hands on what the stream decodes to, however it is cut into pieces, up to the first message at which the handler gives up. |
| Packet.HeaderIsNetworkOrder | TwofacedPoker/Protocol/Packet.cpp:76-110 | The header bytes are the digits of the length in base 256, the most significant first, and the length is read as what the digits stand for. |
| Packet.HeaderRoundTrip | TwofacedPoker/Protocol/Packet.cpp:76-110 | The four header bytes and the length determine each other. |
| Packet.LiteralIsRead | TwofacedPoker/Protocol/Packet.cpp:65-95 | The bytes 0, 0, hi, lo and hi * 256 + lo more are the packet of these, whatever follows. |
| Packet.FrontIsFrame | TwofacedPoker/Protocol/Packet.cpp:65-95 | A stream begins with the frame of a message exactly if that message is read from it. |
| Packet.ArrivedIsPrefix | TwofacedPoker/Protocol/Packet.cpp:65-120 | However many bytes have arrived, what is read is a beginning of the messages sent, and all of them at the end. |
| Packet.EncodeConcat | TwofacedPoker/Protocol/Packet.cpp:98-120 | The stream of two lists is one stream after the other. |
| Packet.SendMessages | TwofacedPoker/Protocol/Packet.cpp:98-120 | Consecutive sends put the encoding of the list on the wire, or of its beginning with a part of the next frame. |
| Packet.Exchange | TwofacedPoker/Protocol/Packet.cpp:10-120 | Any list of messages, sent and received in any pieces, is received as a beginning of that list, and completely if nothing fails. |
| Packet.EncodeIsInjective | TwofacedPoker/Protocol/Packet.cpp:98-120 | Different lists of messages give different streams. |
| ClientConnection.ClientConnection.constructor | TwofacedPoker/Network/ClientConnection.cpp:9-12 | A new connection has an empty queue and is not stopping. |
| ClientConnection.ClientConnection.EnqueueLocked | TwofacedPoker/Network/ClientConnection.cpp:38-58 | Refuses when stopping, stops on a full queue, appends otherwise. |
| ClientConnection.ClientConnection.TakeLocked | TwofacedPoker/Network/ClientConnection.cpp:83-102 | Ends when stopping, waits on an empty queue, takes the first message otherwise. |
| ClientConnection.ClientConnection.FailLocked | TwofacedPoker/Network/ClientConnection.cpp:107-110 | A failed send stops the connection. |
| ClientConnection.ClientConnection.StopLocked | TwofacedPoker/Network/ClientConnection.cpp:122-132 | Only the first caller goes on. |
| ClientConnection.EveryRunIsSafe | TwofacedPoker/Network/ClientConnection.cpp:25-145 | Invariant of every interleaving of enqueuers, sender and stoppers. |
| ClientConnection.EveryHistory | TwofacedPoker/Network/ClientConnection.cpp:25-145 | Accepted messages are the sent ones, then the one in flight, then the queue; at most 256 wait; the socket is closed at most once, after it was shut down and the sender has ended. |
| ClientConnection.StoppingIsFinal | TwofacedPoker/Network/ClientConnection.cpp:42-51 | Once stopping, nothing is accepted or taken any more; only the message in flight may still go out. |
| ClientConnection.EnqueueRefusal | TwofacedPoker/Network/ClientConnection.cpp:25-73 | An enqueue is refused exactly for an impossible size, when stopping, or on a full queue, which stops the connection. |
| ClientConnection.EverythingGoesOut | TwofacedPoker/Network/ClientConnection.cpp:76-117 | As long as nobody stops and no send fails, the sender sends everything that was accepted, in that order. |
| ClientConnection.OnlyFirstStops | TwofacedPoker/Network/ClientConnection.cpp:120-132 | The first call of Stop begins stopping; later calls change nothing. |
| ClientConnection.StopMakesProgress | TwofacedPoker/Network/ClientConnection.cpp:120-145 | After Stop has begun no action adds work, and every step of the thread it waits for reduces it. |
| ClientConnection.StopCompletes | TwofacedPoker/Network/ClientConnection.cpp:120-145 | In any schedule the socket is closed once the threads that Stop waits for have taken at most 8 steps. |
| BetCommandParser.CountIsNumeral | TwofacedPoker/Protocol/BetCommandParser.cpp:19-41 | A count is accepted exactly if the whole text is an optional minus sign and digits of a 32-bit number, with that value by the places of its digits. |
| BetCommandParser.ParseIsSpelling | TwofacedPoker/Protocol/BetCommandParser.cpp:70-108 | Accepted are exactly Die, SPECIAL with its blank, and Front, Both or Back with a blank and a 32-bit numeral, each as that command. |
| BetCommandParser.CommandRoundTrip | TwofacedPoker/Protocol/BetCommandParser.cpp:70-108 | Every printed command parses back, for every 32-bit count. |
| BetCommandParser.SpellingIsUnique | TwofacedPoker/Protocol/BetCommandParser.cpp:70-108 | No text spells two commands. |
| BetCommandParser.PrintDenotes | TwofacedPoker/Protocol/BetCommandParser.cpp:19-41 | A printed number is a numeral of it. |
| ClientCommandParser.NothingIsLost | TwofacedPoker/Protocol/ClientCommandParser.cpp:19-109 | Command word and payload together are the message. |
| ClientCommandParser.OnlyOneWord | TwofacedPoker/Protocol/ClientCommandParser.cpp:67-101 | No message begins with two command words. |
| ClientCommandParser.CommandRoundTrip | TwofacedPoker/Protocol/ClientCommandParser.cpp:19-109 | Every command is recognised with any payload it may carry. |
| ClientCommandParser.BetRoundTrip | TwofacedPoker/Protocol/ClientCommandParser.cpp:94-101 | Classification, prefix removal and bet parser together give back every bet. |
| ClientCommandParser.BetIsText | TwofacedPoker/Protocol/ClientCommandParser.cpp:94-101 | The texts of the five bets on the wire, literally. |
| ClientCommandParser.RequestsAreRead | TwofacedPoker/Protocol/ClientCommandParser.cpp:19-109 | The texts of all other requests, literally, with any payload. |

## Left out

- Winsock start-up, the accept loop and the console handler: foreign calls without an algorithm.
- Thread ownership in TwofacedPoker/Network/ClientWorkerManager.cpp: only moves workers between lists.
- Logging, exceptions and allocation failure: none of the modelled calls throws.
- The message dispatch of `handleMessage`, chat text and the serialisation of the room list: string building.
- Reading the room number with `std::stoi`: `HandleJoinChattingRoom` takes its result, or none, as an input.
- The quality of the shuffle: any permutation of the deck is allowed.
- Real `send`, `recv` and `shutdown`: `Packet.Wire` moves any non-empty part of the bytes or fails, and nothing is
  assumed of a connection after a failure.
- Waiting on mutexes and on the condition variable: a thread that cannot go on takes no step.
- Delivery after `Enqueue`: the room model records what is handed to a connection; a connection that refuses a
  message is stopping and is modelled in `ClientConnection` only.
- The order of messages from concurrent senders: chat, ready changes and profile updates may fall anywhere between
  the messages of a game event, and are not in the logs of `Table`.
- Table.StepKeepsTable: a command of a turn holder without a rival counts as a fault that ends the operation; the
  lemma shows that it never happens.
- GameManager.GameManager.HandlePlayerExit: equates rooms up to the message logs and states the messages apart,
  because the logs of `Table` do not carry the farewell texts.
- GameManager.GameManager.HandleGameEvent: for a caller that is no member only the session and index invariants are
  stated, because a client passes game events to its own room only.
- RoomManager.RoomManager.SendPending: a connection that refuses a message is not distinguished, because the code
  goes on all the same.
- ClientConnection.EveryRunIsSafe: the sender loop is a state machine over its sections, because it shares the
  queue with other threads between any two of them.
- Lifecycle.EveryMomentIsSafe: rooms and clients are values here; their in-place form is in `RoomRegistry` and
  `ClientHandle`, one operation at a time.
