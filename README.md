# Dominion card game engine — a Dafny model

The engine runs a game of Dominion (base set) for two to four players.
Each player owns four card lists: deck, hand, discard pile and cards in
play. Each list is a sequence whose last element is the top card. A player
also has three turn counters: actions, gold and buys.

The game owns 17 supply piles:

- Copper, Silver and Gold;
- Estate, Duchy and Province;
- ten kingdom cards drawn from 25 randomizers;
- Curses.

It also owns a trash pile and a message log. The turn loop reads messages
of the form `sender:command:argument`:

- play a card;
- play all treasures;
- buy a card;
- end the turn.

An action card can stop halfway and wait for an answer from a player. The
engine runs such a card as a generator that is resumed with the player's
answer. A Throne Room runs the card it doubles as an inner generator.

In this model, a waiting effect is a frame on a stack (module `Frames`). The
top frame receives the next answer. Throne Room frames below it resume when
the effect above them finishes. The game ends when the Province pile is
empty or three supply piles are empty. At that point every player's cards
are scored.

## How the model is built

- **`Cards`.** A card is its name; its type and cost come from a fixed
  catalogue. The card-list class is `Cards.Pile`, a class whose field is a
  sequence. Python's list indexing and `pop` are modelled exactly,
  including negative positions, by `PyIndex` and `RemoveAt`.
- **`Players`.** `Players.Player` is a class with four sequence fields and
  three counters. Each method's `modifies` clause and
  postconditions state what the player.py method of the same name does,
  in terms of the lists before and after.
  `Owned()` is the multiset of everything the player owns.
- **`Supply`.** Setup counts, the randomizers and the kingdom choice, the
  count of non-empty piles, the end-of-game test, and the buy and gain
  guards.
- **`Tokens`.** Message text: Python's `split`, `[::-1]`, `int()`, `join`,
  the turn loop's decoder, and the readings of a card-effect answer.
- **`Events`.** The log. A message is an event that keeps who it is about
  and what it reports. The wording is left out.
- **`Dominion`.** The game as a class `Game`, with:
  - the players (fixed at construction);
  - the supply piles as a `seq<seq<Card>>` field;
  - the trash, the log and the frame stack;
  - the seat whose turn it is;
  - a phase: `Running`, `Halted` when the engine would raise, or `Over`.

  Every state-changing method keeps `Valid()`. Every method also proves it
  keeps `Total()`, the multiset of all cards in the game: the players' own
  cards, the supply, the trash, and the cards a waiting effect holds
  aside. No operation creates or destroys a card.

Randomness (`shuffle`, the kingdom choice) is a nondeterministic choice
(`:|`), constrained only to be a permutation. Anything a shuffle may do is
therefore covered.

## Model

| member | source | states |
|---|---|---|
| Cards.Catalog | dominion.py:59-127 | every card's type and cost as the game creates it; no card costs more than a Province (8) |
| Cards.TreasureNamesAreTreasures | dominion.py:224-231 | the name test {Copper, Silver, Gold} used by "play all treasures" holds exactly for cards of type Treasure |
| Cards.RemoveAt | cards.py:69-74 | `list.pop(k)`: one element shorter, the elements before k unchanged and those after it shifted down, and the removed element accounted for in the multiset |
| Cards.PyIndex | cards.py:31-36 | a Python index into a list of n elements is valid exactly when -n <= i < n, and then names element i or n + i |
| Cards.CountOf | cards.py:54-56 | the loop counting a card returns its multiplicity in the list |
| Cards.Member | cards.py:42-44 | the membership loop answers true exactly when the card occurs in the list |
| Cards.Pile.constructor | cards.py:13-15 | a new card list is empty |
| Cards.Pile.Length | cards.py:46-48 | the length is the number of cards, counted with multiplicity |
| Cards.Pile.At | cards.py:31-36 | indexing gives a card exactly for a valid Python index, that card being the one at the position (negative from the top), and nothing (the logged IndexError) otherwise |
| Cards.Pile.IsEmpty | cards.py:50-52 | true exactly when the list holds no card |
| Cards.Pile.Contains | cards.py:42-44 | true exactly when the card occurs in the list |
| Cards.Pile.CardCount | cards.py:54-56 | the multiplicity of the card, never more than the length |
| Cards.Pile.Shuffle | cards.py:58-60 | the list afterwards is a permutation of the list before |
| Cards.Pile.AddCards | cards.py:62-67 | one card is appended; a list of cards is appended in order and the list handed in is emptied |
| Cards.Pile.RemoveCard | cards.py:69-74 | pops at a Python position: an invalid position leaves the list unchanged and returns nothing; otherwise the card at the position is returned and removed, the default being the top card |
| Cards.Pile.RemoveAllCards | cards.py:76-80 | returns the whole list and leaves it empty |
| Players.StartingScore | player.py:187-197 | a new player owns ten cards worth 3 points |
| Players.ScoreOfNeutralGain | player.py:187-197 | gaining a Treasure or Action changes the score only through Gardens, by one point per Gardens when the card count reaches a new multiple of ten |
| Players.ScoreOfCurse | player.py:192-197 | gaining a Curse costs one point, apart from the Gardens effect of the extra card |
| Players.Tally | player.py:184-197 | the score computed over the gathered deck equals the scoring function of its cards (Estate 1, Duchy 3, Province 6, Curse -1, Gardens one per ten cards) |
| Players.Player.constructor | player.py:8-31 | a new player has zero counters, owns exactly three Estates and seven Coppers, and holds five of them in hand and five in the deck |
| Players.Player.Holds | player.py:73-75 | true exactly when the card is in the hand |
| Players.Player.At | player.py:81-89 | indexing a named list gives a card exactly for a valid Python index: the card at that position, counted from the end for a negative index |
| Players.Player.IsEmpty | player.py:131-138 | true exactly when the named list is empty |
| Players.Player.Length | player.py:167-174 | the number of cards in the named list |
| Players.Player.AddCards | player.py:140-147 | the cards are appended to the named list; nothing else changes and the player owns exactly those cards more |
| Players.Player.RemoveCard | player.py:149-156 | pops the named list at a Python position (the top card by default); an invalid position changes nothing; the removed card leaves the player's holdings |
| Players.Player.RemoveAllCards | player.py:158-165 | returns the named list and empties it; nothing else changes |
| Players.Player.MoveCard | dominion.py:196-197 | removing a card from one list and adding it to another: the card lands on top of the target and the player owns the same cards |
| Players.Player.TransferCards | player.py:121-129 | the source list is appended to the target and emptied; a list moved onto itself is unchanged; the player owns the same cards |
| Players.Player.Shuffle | player.py:117-119 | the deck is permuted and nothing else changes |
| Players.Player.DrawCard | player.py:91-101 | with a deck, its top card goes to the hand; with neither deck nor discard, nothing changes; otherwise the discard pile becomes the deck, is shuffled, and one of its cards reaches the hand while the rest stay in the deck |
| Players.Player.DrawReshuffled | player.py:95-101 | the reshuffling branch of a draw: the old discard pile is split between the deck and the one new hand card, and the hand keeps its earlier cards |
| Players.Player.DrawTop | player.py:93-94 | the top card of the deck goes on top of the hand |
| Players.Player.DrawHand | player.py:103-108 | the hand grows by five cards, or by all the deck and discard hold if fewer; earlier hand cards stay; the player owns the same cards; with five cards in the deck, the deck loses exactly its top five, they become the new hand cards top card first, and the discard pile is untouched |
| Players.Player.DrawCards | dominion.py:442-443 | drawing k cards one at a time adds min(k, deck + discard) cards to the hand on top of the earlier ones; when the deck holds k or more, the new cards are the deck's top k in drawing order, the deck loses exactly them and the discard pile is untouched |
| Players.Player.DrawTurn | player.py:91-101 | one draw of the loop: the hand grows by one while cards are left, and with enough deck the new card is the next card from the top of the deck |
| Players.Player.Reveal | dominion.py:481-485 | takes the top card of the deck, leaving the rest of the deck and the discard pile as they were; with an empty deck the discard pile is shuffled in first, which leaves it empty; nothing is revealed exactly when deck and discard are both empty |
| Players.Player.RevealTwo | dominion.py:479-485 | reveals up to two cards, fewer only when deck and discard are exhausted; the revealed cards leave the player's holdings |
| Players.Player.RevealToHand | dominion.py:745-757 | one Adventurer reveal: the deck's top card, or after a reshuffle of a non-empty discard pile into an empty deck some card of it; a Treasure goes on top of the hand, any other card is set aside; an empty deck and discard reveal nothing |
| Players.Player.Adventure | dominion.py:741-760 | at most two cards reach the hand, all Treasures, on top of the earlier hand; fewer than two only when the deck ran out; every other revealed card is returned as set aside, none of them a Treasure; the discard pile is the cards set aside on top of the old discard pile, or alone exactly when the old deck held fewer than two Treasures and the old discard pile was not empty, the one case in which it is shuffled into the deck; the player owns the same cards |
| Players.Player.RevealTreasures | dominion.py:742-758 | the Adventurer loop: at most two Treasures reach the hand, fewer only when deck and discard are exhausted; every revealed card is either one of them or one of the cards returned as set aside; the discard pile is emptied by a reshuffle exactly when the old deck held fewer than two Treasures and the old discard pile was not empty, and is otherwise kept |
| Players.Player.RevealStep | dominion.py:745-757 | one turn of the Adventurer loop keeps the loop invariant, including that the cards revealed so far are the top of the old deck with `found` Treasures among them unless a reshuffle has happened, and either reveals one card, which goes to the hand or is set aside, shrinking deck plus discard, or finds both empty |
| Players.Player.StartTurn | dominion.py:147-149 | at the start of a turn the player has one action, no gold and one buy, and no list changes |
| Players.Player.EndTurn | player.py:110-115 | hand and cards in play go to the discard pile and a new hand of min(5, cards owned) is drawn; with five cards in the deck, the new hand is the deck's top five, top card first, the deck loses exactly them, and the discard pile is the old one plus the old hand and cards in play |
| Players.Player.DiscardHandAndPlay | player.py:113-114 | the hand and then the cards in play are appended to the discard pile and emptied; the deck, the counters and the cards owned stay |
| Players.Player.CalcScore | player.py:176-197 | all four lists are gathered into the deck in the source's order and the score is the scoring function of everything the player owned |
| Supply.RandomizersDistinct | dominion.py:101-127 | the randomizer list holds 25 different kingdom cards |
| Supply.ShuffledKingdom | dominion.py:130-131 | the first ten of any shuffle of the randomizers are ten different kingdom cards |
| Supply.ChooseKingdom | dominion.py:101-131 | the chosen kingdom is ten different kingdom cards |
| Supply.BasePiles | dominion.py:59-95 | the treasure and victory supply is six piles |
| Supply.KingdomPiles | dominion.py:131-141 | each kingdom pile holds only its own card: 10 copies, except Gardens with 8 for two players and 12 otherwise |
| Supply.SetupPiles | dominion.py:24-36 | the supply has 17 piles |
| Supply.SetupContents | dominion.py:59-141 | pile sizes at setup: Copper 46, 39 or 32 for 2, 3 or 4 players, Silver 40, Gold 30, Estate, Duchy and Province 8 for two players and 12 otherwise, Curses 10, 20 or 30, kingdom piles their counts, and no pile empty |
| Supply.NonEmptyCount | dominion.py:47-57 | the count of non-empty piles never exceeds the number of piles |
| Supply.CountSplit | dominion.py:47-57 | non-empty piles plus empty piles make up all piles |
| Supply.NonEmptyCountShrinks | dominion.py:47-57 | shrinking one pile never raises the count of non-empty piles |
| Supply.GameOverIff | dominion.py:177-179 | the game is over exactly when the Province pile is empty or at least three supply piles are empty |
| Supply.SetupNotOver | dominion.py:178 | the game is not over at setup: all 17 piles are non-empty |
| Supply.SetUp | dominion.py:24-36 | setup yields a valid kingdom, the supply built from it and a game that is not over |
| Supply.BuyWithoutBuysAsWritten | dominion.py:235-253 | as written, a player with no buys left can still buy an affordable card, where the intended guard refuses |
| Supply.BuyKeepsCountersNatural | dominion.py:235-247 | an accepted purchase leaves gold and buys non-negative, and every purchase the intended guard accepts the written one accepts too |
| Tokens.Reverse | dominion.py:271 | `[::-1]`: same length, element i is element n-1-i of the input |
| Tokens.Split | dominion.py:157-158 | `split(sep)` gives at least one piece and no piece holds the separator |
| Tokens.JoinSplit | dominion.py:157-158 | joining the pieces of a split gives back the text |
| Tokens.SplitJoin | dominion.py:157-158 | splitting a join of separator-free pieces gives back the pieces |
| Tokens.SplitOnce | dominion.py:157 | `split(sep, 1)`: the text alone exactly when it has no separator, else a separator-free prefix and the rest, which rebuild the text |
| Tokens.ParseInt | dominion.py:165 | `int()` in base 10 succeeds exactly when, after ASCII white space is stripped from both ends, what is left is an optional sign and digits in groups joined by single underscores |
| Tokens.ParseNumber | dominion.py:165 | a number without surrounding white space is accepted exactly when it is an optional sign followed by digits in groups |
| Tokens.ParsePadded | dominion.py:165 | white space before and after the text does not change what `int()` reads |
| Tokens.ParseDigits | dominion.py:165 | a run of plain decimal digits reads as its decimal value, leading zeros allowed |
| Tokens.ParseGrouped | dominion.py:165 | digits in groups read as the value of their digits, and after a minus sign as its negation |
| Tokens.ParseNegated | dominion.py:165 | a minus sign before digits in groups reads as the negated value |
| Tokens.AllDigitsGrouped | dominion.py:165 | a non-empty run of plain digits is a valid group of digits |
| Tokens.TrimLeftPadded | dominion.py:165 | white space put in front of a text makes no difference to its left trim |
| Tokens.TrimRightPadded | dominion.py:165 | white space put after a text makes no difference to its right trim |
| Tokens.TrimLeftThenPad | dominion.py:165 | trailing white space survives the left trim unless the text is all white space |
| Tokens.StripBare | dominion.py:165 | text that neither starts nor ends with white space is left as it is by stripping |
| Tokens.ParseShow | dominion.py:165 | a number printed as text reads back as the same number |
| Tokens.IndexFieldsAsWritten | dominion.py:271-272 | the reversed-then-split reading of an answer has at least one field |
| Tokens.IndexFields | dominion.py:271-272 | the intended reading has at least one field |
| Tokens.IndexFieldsSpec | dominion.py:271-272 | the intended reading returns exactly the positions given, last first |
| Tokens.IndexFieldsAsWrittenMisreads | dominion.py:271-272 | the written reading turns "10 2" into positions 2 and 1, where the intended one gives 2 and 10 |
| Tokens.IndexFieldsAgreeOnSingleDigits | dominion.py:271-272 | the two readings agree whenever every position is a single character |
| Tokens.FirstField | dominion.py:432 | the first field of an answer holds no space |
| Tokens.Decode | dominion.py:157-174 | a message is rejected as malformed (the IndexError) exactly when it holds no ':' |
| Tokens.DecodeEncode | dominion.py:157-174 | a well-formed "Play Card" or "Buy Card" message decodes to that command with its argument |
| Tokens.DecodeEncodeBare | dominion.py:157-162 | "Play All Treasures" and "End Turn" are recognised whatever argument follows |
| Tokens.DecodeCommand | dominion.py:157-174 | any message built from a sender, a command and an argument, none holding a colon, decodes to that command (with its argument for Play Card and Buy Card), and to an unknown command for any other text |
| Tokens.PyJoin | dominion.py:38 | `join` succeeds exactly when every item is a string, and one string joins to itself |
| Tokens.StartBannerAsWritten | dominion.py:38 | as written, building the start message always raises |
| Tokens.StartBanner | dominion.py:38 | the intended start message always exists and is framed by "-- Starting game between " and " --" |
| Tokens.StartBannerOne | dominion.py:38 | with one name the intended message names exactly that player |
| Dominion.OthersOf | dominion.py:257 | the other players are every seat but the player's own |
| Dominion.AllSeats | dominion.py:448 | the Spy visits every seat in seating order |
| Dominion.FindFirst | dominion.py:409-410 | finds the first hand position whose card has one of the names, or reports that none does |
| Dominion.AnyAction | dominion.py:543-547 | true exactly when the hand holds an Action card |
| Dominion.Refusal | dominion.py:183-194 | a card may be played exactly when it is a Treasure, or an Action while actions remain |
| Dominion.PlayedLog | dominion.py:222 | one "played" event per card, in order |
| Dominion.AfterTreasure | dominion.py:196-222 | playing a treasure moves it from hand to play, adds its coins to gold and ends the action phase |
| Dominion.TreasureSplit | dominion.py:224-231 | the treasures played and the cards left in hand together are exactly the old hand |
| Dominion.TreasureKinds | dominion.py:224-231 | what stays in hand has no treasure and what is played is all treasure |
| Dominion.CoinsOfTreasures | dominion.py:211-231 | the gold a hand yields comes only from its treasures |
| Dominion.BuyRefusal | dominion.py:242-253 | a buy is refused exactly when the pile is empty or its top card costs more than the gold, the empty pile being reported as such |
| Dominion.GainRefusal | dominion.py:766-781 | a gain is refused exactly when the pile is empty, the type is not allowed, or the cost is too high, each reported as such |
| Dominion.Reveals | dominion.py:753 | one "revealed" event per card, in order |
| Dominion.SeatPlayers | dominion.py:20-22 | one fresh player per name in order, each dealt the starting cards; the first seat starts its turn with 1 action, 0 gold, 1 buy |
| Dominion.Game.constructor | dominion.py:11-38 | two to four players, a valid kingdom, the supply built from it and not yet over, an empty trash, the first player's turn |
| Dominion.Game.Length | dominion.py:47-57 | the number of non-empty supply piles is 17 less the empty ones |
| Dominion.Game.PlayTreasure | dominion.py:211-222 | ends the action phase, adds the treasure's coins (Copper 1, Silver 2, Gold 3) to gold and logs the play |
| Dominion.Game.HandCard | dominion.py:183 | the card at a Python index of the hand, if the index is valid |
| Dominion.Game.MoveToPlay | dominion.py:196-197 | the card leaves the hand and goes on top of the cards in play |
| Dominion.Game.PlayTreasureAt | dominion.py:196-200 | playing the treasure at position k gives the state the treasure function describes |
| Dominion.Game.PlayCard | dominion.py:181-209 | an invalid index raises; a Victory or Curse card, or an Action without actions, is refused with the matching message and nothing else changes; a treasure is played; an Action is started and its effect runs |
| Dominion.Game.StartAction | dominion.py:196-202 | the Action leaves the hand, goes on top of the cards in play, and one action is spent; deck, discard, gold and buys are untouched |
| Dominion.Game.PlayAction | dominion.py:201-209 | starting an action keeps the game valid and the cards in the game the same |
| Dominion.Game.BuyCard | dominion.py:233-253 | no buys: refused; invalid pile index: raises; otherwise a buy the intended guard accepts pops the pile onto the discard pile and pays cost and one buy, and anything else is refused with its message |
| Dominion.Game.Purchase | dominion.py:242-249 | the top card of the pile goes to the discard pile; gold falls by its cost, buys by one, actions end |
| Dominion.Game.GainCard | dominion.py:762-781 | gains the pile's top card exactly when it is allowed and affordable; otherwise nothing changes but the refusal message; an invalid index raises |
| Dominion.Game.PlayEffect | dominion.py:255-261 | announces the card and runs its effect, leaving at most one frame waiting on top of the stack |
| Dominion.Game.OthersEffect | dominion.py:263-760 | the effects that reach other players keep the cards in the game the same |
| Dominion.Game.OwnEffect | dominion.py:263-760 | the effects confined to the player keep the cards in the game the same |
| Dominion.Game.PlainEffect | dominion.py:310-689 | Moat, Village, Woodcutter, Smithy, Festival, Laboratory, Market: the card's draws, as far as deck and discard allow, on top of the earlier hand, the drawn cards being the deck's top cards in drawing order when the deck suffices; and its action, gold and buy bonuses |
| Dominion.Game.Draw | dominion.py:442-443 | a player draws k cards: min(k, deck + discard) of them on top of the earlier hand, the deck's top k in drawing order when the deck holds enough |
| Dominion.Game.PlayMoneylender | dominion.py:408-417 | with a Copper in hand: the first Copper leaves the hand, the rest of which keeps its order, goes to the trash, and gold rises by 3, with deck, discard pile, cards in play, actions and buys unchanged; without one: nothing changes but the message |
| Dominion.Game.PlayThroneRoom | dominion.py:539-549 | empty hand, or no Action in it: only a message; otherwise the player is asked to choose an Action |
| Dominion.Game.PlayMine | dominion.py:691-703 | empty hand, or no treasure in it: only a message; otherwise the player is asked to choose a treasure |
| Dominion.Game.PlayAdventurer | dominion.py:741-760 | up to two cards join the hand, all Treasures, on top of the earlier hand; fewer than two only when the deck is empty and the discard pile holds no Treasure, which is announced; the revealed non-Treasures go on top of the old discard pile, which is emptied first exactly when the old deck held fewer than two Treasures and the old discard pile was not empty; the player owns the same cards |
| Dominion.Game.PlayBureaucrat | dominion.py:338-359 | a Silver (if left) goes on the player's deck and the attack follows; no frame, same cards in the game |
| Dominion.Game.BureaucratAttack | dominion.py:346-359 | each opponent in turn suffers the Bureaucrat; the supply and trash are untouched |
| Dominion.Game.BureaucratVictim | dominion.py:347-359 | a Moat blocks and nothing changes; otherwise the first Victory card in hand leaves the hand at its position, goes on top of the deck and is announced; with none the hand is revealed and nothing changes |
| Dominion.Game.BureaucratTake | dominion.py:351-354 | the chosen Victory card leaves the hand at its position, goes on top of the deck, and the move is announced; nothing else in the game changes |
| Dominion.Game.MilitiaAttack | dominion.py:370-406 | the frame pushed waits on exactly the first opponent holding more than 3 cards and no Moat, with the opponents after it still to come; with no such opponent nothing is pushed and the player is told play resumes |
| Dominion.Game.MilitiaTarget | dominion.py:371-378 | the first opponent in order the Militia makes discard: more than three cards and no Moat, every earlier one passed over, and none when nobody qualifies |
| Dominion.Game.MilitiaSkip | dominion.py:371-377 | an opponent passed over leaves the target to the opponents after it |
| Dominion.Game.MilitiaPass | dominion.py:372-377 | passing over the first opponent (too few cards or a Moat) gives the same outcome as the attack on the rest |
| Dominion.Game.MilitiaChosen | dominion.py:392-400 | positions that leave three cards: the game goes on exactly when every position is valid, and then the cards `Pick` gives go to the discard pile, the opponent keeps three cards and the discard is announced as the next log entry |
| Dominion.Game.MilitiaDiscarded | dominion.py:393-400 | the discard is announced as the next log entry and the attack moves on |
| Dominion.Game.DrawEach | dominion.py:647-648 | each opponent draws a card |
| Dominion.Game.WitchAttack | dominion.py:730-739 | the opponents cursed are exactly those `Cursed` picks from the hands and the curses left; the i-th of them gets the i-th curse from the top on the discard pile, the Curse pile loses exactly those, and every other player and pile is unchanged |
| Dominion.Game.WitchLoop | dominion.py:730-739 | the loop over the other seats in order: the seats `Cursed` picks receive the curses from the top of the pile, in turn, and every other player is unchanged |
| Dominion.Cursed | dominion.py:730-739 | the opponents cursed: no more than the curses left or the opponents attacked, all of them seats |
| Dominion.CursedMeaning | dominion.py:730-739 | every opponent cursed was attacked and holds no Moat, and while curses remain every attacked opponent without a Moat is cursed |
| Dominion.CursedAppend | dominion.py:730-739 | attacking two runs of opponents in turn curses those of the first, then those of the second with the curses the first left |
| Dominion.CursedNone | dominion.py:734-739 | with no curses left nobody is cursed |
| Dominion.CursedStep | dominion.py:730-739 | the next opponent is cursed exactly when it has no Moat and a curse is left, was not cursed before, and once curses are gone nobody after it is |
| Dominion.Game.WitchStep | dominion.py:731-739 | one opponent: with a Moat in hand nothing is dealt and the loop goes on; otherwise an empty Curse pile stops the attack with nothing dealt, and a curse left goes, top first, onto this opponent's discard pile; every player not cursed is unchanged |
| Dominion.Game.WitchTurn | dominion.py:730-739 | one pass of the loop: the curses dealt so far grow to those `Cursed` picks one seat further, or to the whole attack when the curses ran out, by at most this seat |
| Dominion.Game.CurseNext | dominion.py:734-736 | the top curse goes to the opponent's discard pile and the curse pile loses it; no other player changes |
| Dominion.Game.Hands | dominion.py:730-731 | every player's hand, by seat |
| Dominion.Game.SpyNext | dominion.py:448-464 | the Spy visits the remaining seats and stops at the first with a card to reveal |
| Dominion.Game.SpyReveal | dominion.py:453-464 | the player is asked about a seat exactly when it has a card to reveal |
| Dominion.Game.ThiefNext | dominion.py:474-537 | the Thief visits the remaining opponents and stops where a decision is needed |
| Dominion.Game.ThiefVictim | dominion.py:476-499 | one opponent: blocked, nothing revealed, no treasure, or a treasure to trash |
| Dominion.Game.NoTreasureRevealed | dominion.py:495-499 | revealed cards with no treasure all go to the opponent's discard pile |
| Dominion.Game.ThiefSettle | dominion.py:501-530 | one revealed treasure is trashed at once; with two the player is asked which |
| Dominion.Game.ThiefTrash | dominion.py:515-530 | the chosen revealed card goes to the trash |
| Dominion.Game.PlaceRevealed | dominion.py:507-527 | the revealed card at position i goes to the trash and the other to the discard pile |
| Dominion.Game.LibraryNext | dominion.py:660-683 | the hand only grows; the Library stops at seven cards or an exhausted deck, and then the cards set aside end the discard pile; or it waits on a drawn Action, carrying the cards set aside so far; in both cases the discard pile below them is the old one, or empty exactly when the old deck held no Action and fewer cards than the hand lacked and the old discard pile was not empty (LibraryBase) |
| Dominion.Game.LibraryReveal | dominion.py:663-681 | one draw below seven cards: a drawn non-Action joins the hand, on top of the earlier hand, and what LibraryBase says of the discard pile stays the same; an Action waits on the decision, carrying the cards set aside; with deck and discard empty the Library stops and the cards set aside become the discard pile |
| Dominion.Game.LibraryDrawn | dominion.py:669-681 | a drawn non-Action joins the hand; a drawn Action asks whether to set it aside |
| Dominion.Game.SetAsideToDiscard | dominion.py:682-683 | the set-aside cards are appended to the discard pile in order; hand, deck and cards in play are untouched |
| Dominion.Game.Settle | dominion.py:566-641 | Throne Rooms whose inner play finished run their second play, until an effect waits or none is left |
| Dominion.Game.ThroneReplay | dominion.py:579-641 | the second play either finishes or waits above a second-play frame |
| Dominion.Game.ThroneRestore | dominion.py:579-611 | a Feast comes back from the trash, a Throne Room from below the top of play; a missing card raises |
| Dominion.Game.Feed | dominion.py:167-171 | an answer goes to the waiting effect; the game stays valid and the cards in it the same |
| Dominion.Game.Resume | dominion.py:167-171 | resuming a frame returns the cards it held aside to the game |
| Dominion.Game.ResumeEmpty | dominion.py:167-171 | resuming a frame that holds no cards keeps the cards in the game the same |
| Dominion.Game.DiscardFields | dominion.py:277-283 | the discards succeed exactly when `Pick` succeeds; then the names logged, the hand left and the discard pile (old one plus the cards taken, in order) are those `Pick` gives; a failure raises |
| Dominion.Game.DiscardField | dominion.py:278-283 | fails exactly when the field is not a number or names no position; otherwise the named card leaves the hand and goes on top of the discard pile |
| Dominion.Game.TrashFields | dominion.py:302-308 | the trashing succeeds exactly when `Pick` succeeds; then the names, the hand left and the trash (old one plus the cards taken, in order) are those `Pick` gives; a failure raises |
| Dominion.Game.TrashField | dominion.py:303-308 | fails exactly when the field is not a number or names no position; otherwise the named card leaves the hand and goes on top of the trash |
| Dominion.Pick | dominion.py:277-283 | removing the cards at the positions one after the other: it succeeds only if every field is a number naming a position of what is left; the cards taken and the cards left make up the hand |
| Dominion.PickHead | dominion.py:277-278 | a first field that is not a number or names no position makes the whole removal fail |
| Dominion.PickNext | dominion.py:277-278 | a valid first position takes that card and the removal goes on in the rest of the hand |
| Dominion.PickNames | dominion.py:277-283 | taking the card at the first position puts its name first and its card first among those moved |
| Dominion.PickDescending | dominion.py:271-283 | positions given in falling order all succeed and each takes the card that stood there in the original hand |
| Dominion.Game.ResumeCellar | dominion.py:270-287 | an empty answer discards nothing; otherwise the game goes on exactly when every position is valid, and then the cards `Pick` gives are announced as discarded, the rest of the hand stays at the bottom, and as many cards are drawn as were discarded; the positions are read with the corrected reading of the first Findings row |
| Dominion.Game.ResumeChapel | dominion.py:295-308 | an empty answer trashes nothing; otherwise at most the last four positions given are used (the positions are taken last first and the list is cut to four, so earlier ones are ignored), the game goes on exactly when they are all valid, and then the cards `Pick` gives go to the trash and are announced; the positions are read with the corrected reading of the first Findings row |
| Tokens.IndexFieldsKeepLast | dominion.py:296-297 | the first `n` fields of the reading are the last `n` positions given, last first, so Chapel's cut to four drops the positions given before the last four |
| Dominion.Game.ResumeChancellor | dominion.py:316-321 | the answer "0" puts the deck into the discard pile; any other leaves the player unchanged |
| Dominion.Game.ResumeGain | dominion.py:333-336 | a gain (Workshop, Feast, Remodel) that is allowed and affordable takes the pile's top card; otherwise the question is repeated; a non-number, or a number naming no supply pile, raises |
| Dominion.Game.ResumeMilitia | dominion.py:383-405 | an empty answer, or one not leaving exactly three cards, repeats the question; otherwise the game goes on exactly when every position is valid, and then the cards `Pick` gives go to the discard pile and are announced; the positions are read with the corrected reading of the first Findings row |
| Dominion.Game.ResumeRemodel | dominion.py:425-436 | an empty answer repeats the question; a non-number or invalid position raises; otherwise exactly that card leaves the hand for the trash and a gain of its cost + 2 is asked |
| Dominion.Game.RemodelChoose | dominion.py:432-436 | a number naming no hand position raises; otherwise exactly the card there goes from hand to trash and a gain of its cost + 2 is asked |
| Dominion.Game.RemodelTrash | dominion.py:432-436 | the chosen card goes from hand to trash, is announced, and a gain of its cost + 2 is asked |
| Dominion.Game.ResumeMine | dominion.py:704-719 | an empty answer or a non-treasure repeats the question; a non-number or invalid position raises; a treasure at the position goes from hand to trash and a treasure gain of its cost + 3 is asked |
| Dominion.Game.MineChoose | dominion.py:709-717 | a number naming no hand position raises; a treasure there goes from hand to trash and a treasure gain of its cost + 3 is asked; any other card leaves everything as it was and the question is repeated |
| Dominion.Game.MineTrash | dominion.py:710-719 | the chosen treasure goes from hand to trash and a treasure gain of its cost + 3 is asked |
| Dominion.Game.ResumeMineGain | dominion.py:720-726 | an allowed treasure is taken from the pile straight into the hand; otherwise the question is repeated; a non-number, or a number naming no supply pile, raises |
| Dominion.Game.ResumeSpy | dominion.py:465-471 | after the decision about one seat, the Spy moves on; the supply and trash are untouched |
| Dominion.Game.ResumeThiefGain | dominion.py:531-537 | after deciding whether to take the trashed treasure, the Thief moves on; the supply is untouched |
| Dominion.Game.ResumeThroneRoom | dominion.py:550-561 | an empty answer repeats the question; a non-number raises; otherwise the outcome is ThroneChoose's for the number read |
| Dominion.Game.ThroneChoose | dominion.py:555-627 | an invalid position raises; a card that is not an Action repeats the question; an Action starts its first play with the Throne Room waiting directly above the earlier stack |
| Dominion.Game.ThroneStart | dominion.py:562-627 | the chosen Action leaves the hand, goes on top of the cards in play, and a frame for its first play is pushed |
| Dominion.Game.ResumeLibrary | dominion.py:673-679 | an answer other than "0" keeps the drawn Action as the next hand card, "0" adds it to the cards set aside; after the decision the Library draws on, with the same stopping rule, and the discard pile ends with the cards set aside above the pile LibraryBase gives for the state after the decision |
| Dominion.Game.LibraryKeep | dominion.py:677-681 | the drawn Action becomes the next hand card above the earlier hand and the Library draws on, ending with the cards set aside on top of the pile LibraryBase gives for the hand with the Action |
| Dominion.Game.PlayAllTreasures | dominion.py:224-231 | the hand keeps exactly its non-treasures, in order; the treasures go into play in order; gold rises by their coins; each is logged; deck, discard and buys are untouched |
| Dominion.Game.WalkHand | dominion.py:226-231 | the index loop gives the state the treasure-by-treasure function describes at the end of the hand |
| Dominion.Game.WalkStep | dominion.py:227-231 | one turn of the loop either plays the treasure at the index or steps past the card |
| Dominion.Game.FinishTurn | dominion.py:176-179 | the player's turn ends; if the game is over, one entry holding every player's score, that of all the cards they own, is logged; else the ending player has drawn a new hand as `end_turn` does and the next seat starts with 1 action, 0 gold and 1 buy |
| Dominion.Game.EndTurnOf | dominion.py:176 | the current player's `end_turn`: nothing in play, a hand of min(5, cards owned), with five cards in the deck exactly its top five, top card first, and the old hand and cards in play on the discard pile |
| Dominion.Game.EndGame | dominion.py:783-788 | every player's score, in seating order, is that of all the cards they own, and it is logged |
| Dominion.Game.ScoreAll | dominion.py:786-787 | the scores of all players, in seating order |
| Dominion.Game.Advance | dominion.py:146-149 | the turn passes to the next seat with 1 action, 0 gold and 1 buy; no player's cards move |
| Dominion.Game.Handle | dominion.py:143-174 | a message without ':' raises; an unknown command changes nothing; "End Turn" ends the turn or the game; "Play All Treasures", "Play Card" and "Buy Card" have the outcomes of the three members below; after the game nothing changes |
| Dominion.Game.TreasuresCommand | dominion.py:159-160 | the current player keeps exactly the non-treasures in hand, the treasures go into play, gold rises by their coins and each play is logged |
| Dominion.Game.PlayCommand | dominion.py:163-171 | with no effect waiting: a missing or non-number argument or a position outside the hand raises; an unplayable card is refused with its note and nothing else changes; a Treasure is played into play for its coins |
| Dominion.Game.BuyCommand | dominion.py:151-179 | a missing or non-number argument, or a position naming no supply pile, raises; a refused buy only tells the player why; an accepted buy moves the top card to the buyer's discard pile, pays its cost, spends a buy, ends the actions and is announced; when that was the last buy the turn ends: the game is over and each seat's final score is that of the cards it owned, the buyer's counting the card bought, or the buyer has nothing in play and owns the card bought besides the old cards, and the next seat's turn is announced with 1 action, 0 gold and 1 buy |
| Dominion.Game.AfterCommand | dominion.py:151-179 | a turn whose player has buys left goes on unchanged; one whose player has none ends as TurnEnded states: the final scores, each the score of all the cards a player owns, and the game over, or the next seat with 1 action, 0 gold and 1 buy, the ending player having nothing in play and the same cards |
| Dominion.Game.PlayMessage | dominion.py:163-171 | a missing argument, or a non-number with no effect waiting, raises; with no effect waiting, a position outside the hand raises, an unplayable card is refused with its note, and a Treasure is played |
| Dominion.Game.BuyLast | dominion.py:151-179 | a purchase accepted with the last buy pops the pile and is announced, then the turn ends: on game over the final scores follow, one per seat, each the score of the cards that seat owned, the buyer's counting the card bought; otherwise the buyer has nothing in play and owns the card bought besides the old cards, and the next seat's turn is announced with 1 action, 0 gold and 1 buy |
| Dominion.Game.BuyEndsGame | dominion.py:151-179 | a last buy that empties a pile ending the game: the pile is popped, the purchase is announced, the game is over and the final entry gives each seat the score of the cards it owned, the buyer's counting the card bought |
| Dominion.Game.BuyEndsTurn | dominion.py:151-179 | a last buy that leaves the game running: the pile is popped, the purchase is announced, the buyer has nothing in play and owns the card bought besides the old cards, and the next seat's turn is announced with 1 action, 0 gold and 1 buy |
| Dominion.Game.BuyMessage | dominion.py:172-174 | a missing or non-number argument raises, as does a position naming no pile; else BuyCard's outcome: a refusal with its reason, or the top card to the discard pile with the cost, a buy and the actions spent |

## Left out

- Message wording: each message is an event that keeps its kind, its card names and the player it concerns.
- The `__repr__`, `__str__` and `__iter__` methods of the card list and the player, and the game's `*_string` accessors: they only format text.
- The text part of `calc_score`: the score value is modelled; the score string is not.
- `Player.__len__`: it takes an extra parameter, so `len(player)` cannot call it. `Owned()` gives the total it was meant to compute.
- `Dominion.__getitem__`: it refers to `sys`, which dominion.py never imports. It is the players' sequence here.
- The web server, the client script and the older copy of the engine are not part of this model.
- Randomness: the shuffle and the kingdom choice are nondeterministic permutations; no random-number generator is modelled.
- Iteration order of the other players: the source takes them from a Python set, whose order is unspecified. The model visits them in seating order.
- Exceptions and logged IndexErrors that would end the generator: the game moves to phase `Halted` and stops. A `None` returned by a logged IndexError and then used also becomes `Halted`.
- What a halt leaves behind: on an invalid position the source has already opened the "discarded" or "trashed" log entry and filled in the cards before it (dominion.py:272-283, 298-307), and Remodel puts the `None` of a failed `remove_card` into the trash before using it (dominion.py:432-433). The model leaves the log and the trash as they were on those halts (DiscardField, TrashField, RemodelTrash); the game stops either way.
- After the final scores the source keeps cycling turns. The model moves to phase `Over` and ignores further messages.
- A Spy that cannot reveal prints to the console rather than the game log (dominion.py:455). The model records nothing in that case.
- Pile aliasing: the supply piles are a sequence of card sequences, not shared `Cards` objects. No pile is reached by two names.
- Players.Player.DrawHand: when the deck holds fewer than five cards the discard pile is shuffled in; the cards drawn after that are stated by count only, since the shuffle is a nondeterministic permutation.
- Players.Player.Adventure: the cards revealed are stated by kind only (Treasures to the hand, the others set aside), not by their place in the deck; after a reshuffle that place is a nondeterministic permutation. Whether the reshuffle happens is stated exactly.
- Dominion.Game.PlayAdventurer: as for Adventure, the revealed cards are stated by kind only.
- Players.Player.RevealTreasures: as for Adventure, the revealed names are not related to the deck's order.
- Players.Player.RevealTwo: which two cards are revealed is not stated, only how many and that they leave the player.
- Dominion.Game.PlayEffect: states validity, the card total and the frame discipline; each card's outcome is stated on the member that plays it.
- Dominion.Game.OthersEffect: states validity, the card total and the frame discipline only.
- Dominion.Game.OwnEffect: states validity, the card total and the frame discipline only.
- Dominion.Game.PlayAction: states validity and the card total only.
- Dominion.Game.PlayBureaucrat: the Silver gain is not stated, only that no frame is left and the cards in the game are the same.
- Dominion.Game.BureaucratAttack: the victims' outcomes are stated per victim in BureaucratVictim, not over the whole sequence.
- Dominion.Game.DrawEach: states only that the cards in the game are the same, not the one card each opponent draws.
- Dominion.Game.SpyNext: which seat it stops at is not stated.
- Dominion.Game.SpyReveal: the revealed card and the question are not stated beyond when it asks.
- Dominion.Game.ThiefNext: which opponent it stops at is not stated.
- Dominion.Game.ThiefVictim: the case split is not stated, only that a finished visit leaves the stack unchanged.
- Dominion.Game.ThiefSettle: which card is trashed is not stated.
- Dominion.Game.ThiefTrash: the card going to the discard pile is not stated.
- Dominion.Game.PlaceRevealed: the other card going to the discard pile is not stated.
- Dominion.Game.NoTreasureRevealed: the log entries are not stated.
- Dominion.Game.ResumeSpy: the discard decision is not stated.
- Dominion.Game.ResumeThiefGain: the gain from the trash is not stated.
- Dominion.Game.ResumeEmpty: states the card total only; each resume method states its own outcome.
- Dominion.Game.Resume: states the card total only.
- Dominion.Game.Feed: states the card total only.
- Dominion.Game.Settle: states the card total only; termination is proved through the pending count.
- Dominion.Game.ThroneReplay: the replayed effect's outcome is not stated.
- Dominion.Game.ThroneRestore: the position the card returns to is not stated.
- Dominion.Game.PlayMessage: playing an Action and feeding an answer to a waiting effect are stated in PlayCard and Feed, not repeated here.
- Dominion.Game.PlayCommand: as for PlayMessage, the Action and waiting-effect cases are stated in PlayCard and Feed.
- Dominion.Game.Handle: the three commands' outcomes are stated on TreasuresCommand, PlayCommand and BuyCommand; the state after an Action or a fed answer is stated in PlayCard and Feed.
- Tokens.ParseInt: digits and white space outside ASCII, which `int()` also accepts, are not modelled; the answers come from a text field in a browser.
- Players.Player.DrawCards: when the deck runs out part-way, the discard pile is shuffled in; the cards drawn after that are stated by count only, since the shuffle is a nondeterministic permutation.
- Dominion.Game.Draw: as for DrawCards, the cards drawn after a reshuffle are stated by count only.
- Dominion.Game.PlainEffect: as for DrawCards, the cards drawn after a reshuffle are stated by count only.
- Dominion.Game.PlayCard: for an Action, the move into play and the spent action are stated on StartAction; the state after the card's effect is stated on the member for that effect.
- Dominion.Game.ResumeCellar: the discard pile afterwards is not stated, because the draws that follow may shuffle it into the deck; the discard itself is stated on DiscardFields.
- Dominion.Game.ThroneChoose: the state after the first play's effect is stated on the member for that effect, not here.
- Dominion.Game.ResumeCellar: the answer is read the intended way, split at spaces first and the positions then taken last first (Tokens.IndexFields), not as dominion.py:271-272 reads it; see the first Findings row, whose as-written reading is Tokens.IndexFieldsAsWritten.
- Dominion.Game.ResumeChapel: reads the answer the intended way (Tokens.IndexFields), not with the reversal of dominion.py:296-297; see the first Findings row.
- Dominion.Game.ResumeMilitia: reads the answer the intended way (Tokens.IndexFields), not with the reversal of dominion.py:385-386; see the first Findings row.
- Dominion.Game.BuyCard: a buy with no buys left is refused, the intended guard of the Findings row for dominion.py:235-236 (Supply.BuyAccepted); as written, buy_card logs that no buys are left and buys anyway, though the turn loop's guard (dominion.py:151) keeps that case from arising.
- Dominion.Game.constructor: the start message is the intended banner (Tokens.StartBanner) of the Findings row for dominion.py:38; as written, that line raises TypeError and no game starts.

## Findings

| source | as written | input that shows it | evidently intended | confidence | as-written member | corrected member |
|---|---|---|---|---|---|---|
| dominion.py:271-272 | the answer text is reversed before it is split, so each position's digits are reversed; the Chapel (dominion.py:296-297) and the Militia (dominion.py:385-386) read their answers the same way | Cellar answer "10 2" is read as positions 2 and 1 (field "01") | split the answer first, then take the positions last first | high, not executed | Tokens.IndexFieldsAsWritten | Tokens.IndexFields |
| dominion.py:235-236 | "no more buys" is logged but the purchase goes ahead; the turn loop's guard `while current_player.buys > 0` (dominion.py:151) keeps a buy with no buys left from reaching it, so in the game as a whole the case does not arise | a call of `buy_card` by itself with 0 buys and 0 gold buys a Copper | refuse the buy and return | medium (latent), not executed | Supply.BuyAcceptedAsWritten | Supply.BuyAccepted |
| dominion.py:38 | the players list is wrapped in another list before `join`, which then raises TypeError | any two names | join the player names | high, not executed | Tokens.StartBannerAsWritten | Tokens.StartBanner |
