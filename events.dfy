/**
 * The game's messages (dominion.py, `info_list`). The text of each message
 * is presentation; an event keeps who it is about or addressed to and what
 * it reports.
 */
module Events {
  import opened Cards

  datatype Note =
    // playing, buying and gaining
    | Played(card: Name)
    | Bought(card: Name)
    | Gained(card: Name)
    | NoActions
    | CannotPlayVictory
    | CannotPlayCurse
    | NoBuys
    | CannotAfford
    | SupplyPileEmpty
    | TooCostly(budget: int)
    | WrongType
    | GainPileEmpty
    // questions a card asks, and their repetition after a bad answer
    | Prompt(card: Name)
    | Reprompt(card: Name)
    | NoSelection(card: Name)
    | WrongSelection(card: Name)
    // a card that has nothing to act on
    | EmptyHand(card: Name)
    | NoneSuitable(card: Name)
    // card effects
    | Discarded(cards: seq<Name>)
    | Trashed(cards: seq<Name>)
    | Revealed(cards: seq<Name>)
    | Drew(count: nat)
    | DrewCard(card: Name)
    | DeckDiscarded(done: bool)
    | ToDeckTop(card: Name)
    | Blocked
    | Exhausted(card: Name)
    | FewCards
    | WaitingFor(victim: nat)
    | Resumed
    | Kept(card: Name)
    | SetAside(card: Name)
    | NoTreasures
    | NothingRevealed
    | CannotDraw
    | GainedTrashed(card: Name, taken: bool)

  datatype Event =
    | Started(names: seq<string>)
    | Turn(seat: nat)
    | Public(about: nat, note: Note)
    | Private(to: nat, note: Note)
    | Final(scores: seq<int>)
}
