/**
 * Cards and the card list (cards.py).
 *
 * A card is a (name, type, cost) record whose type and cost are fixed by
 * its name.
 */
module Cards {
  import opened Optional

  datatype CardType = Treasure | Victory | Action | Curse

  datatype Name =
    | Copper | Silver | Gold
    | Estate | Duchy | Province | Curse
    | Cellar | Chapel | Moat | Chancellor | Village | Woodcutter | Workshop
    | Bureaucrat | Feast | Gardens | Militia | Moneylender | Remodel | Smithy
    | Spy | Thief | ThroneRoom | CouncilRoom | Festival | Laboratory | Library
    | Market | Mine | Witch | Adventurer

  /** A card's type and cost. */
  datatype Entry = Entry(kind: CardType, cost: nat)

  /** The type and cost the game gives each card name (dominion.py, player.py). */
  function Catalog(n: Name): (e: Entry)
    ensures e.cost <= 8
  {
    match n
    case Copper => Entry(Treasure, 0)
    case Silver => Entry(Treasure, 3)
    case Gold => Entry(Treasure, 6)
    case Estate => Entry(Victory, 2)
    case Duchy => Entry(Victory, 5)
    case Province => Entry(Victory, 8)
    case Curse => Entry(CardType.Curse, 0)
    case Cellar => Entry(Action, 2)
    case Chapel => Entry(Action, 2)
    case Moat => Entry(Action, 2)
    case Chancellor => Entry(Action, 3)
    case Village => Entry(Action, 3)
    case Woodcutter => Entry(Action, 3)
    case Workshop => Entry(Action, 3)
    case Bureaucrat => Entry(Action, 4)
    case Feast => Entry(Action, 4)
    case Gardens => Entry(Victory, 4)
    case Militia => Entry(Action, 4)
    case Moneylender => Entry(Action, 4)
    case Remodel => Entry(Action, 4)
    case Smithy => Entry(Action, 4)
    case Spy => Entry(Action, 4)
    case Thief => Entry(Action, 4)
    case ThroneRoom => Entry(Action, 4)
    case CouncilRoom => Entry(Action, 5)
    case Festival => Entry(Action, 5)
    case Laboratory => Entry(Action, 5)
    case Library => Entry(Action, 5)
    case Market => Entry(Action, 5)
    case Mine => Entry(Action, 5)
    case Witch => Entry(Action, 5)
    case Adventurer => Entry(Action, 6)
  }

  /**
   * A card. The source builds (name, type, cost) records, always with the
   * type and cost listed for the name, so a card is determined by its name
   * and the other two fields are read from the catalogue.
   */
  datatype Card = Card(name: Name)
  {
    const kind: CardType := Catalog(name).kind
    const cost: nat := Catalog(name).cost
  }

  /** The names the engine treats as money (dominion.py, play_treasure). */
  predicate IsTreasureName(n: Name)
  {
    n == Copper || n == Silver || n == Gold
  }

  lemma {:induction false} TreasureNamesAreTreasures(c: Card)
    ensures IsTreasureName(c.name) <==> c.kind == Treasure
  {
    match c.name
    case Copper =>
    case Silver =>
    case Gold =>
    case _ =>
  }

  /** `n` copies of card `c`. */
  function Repeat(c: Card, n: nat): (r: seq<Card>)
    ensures |r| == n
    ensures forall i :: 0 <= i < n ==> r[i] == c
    ensures multiset(r) == multiset{}[c := n]
  {
    RepeatCount(c, n);
    seq(n, _ => c)
  }

  lemma {:induction false} RepeatCount(c: Card, n: nat)
    ensures multiset(seq(n, _ => c)) == multiset{}[c := n]
  {
    if n > 0 {
      RepeatCount(c, n - 1);
      assert seq(n, _ => c) == seq(n - 1, _ => c) + [c];
    }
  }

  /** The last card of a non-empty list: the one `pop()` returns. */
  function Top(s: seq<Card>): Card
    requires s != []
  {
    s[|s| - 1]
  }

  /** The list without its last card. */
  function Pop(s: seq<Card>): seq<Card>
    requires s != []
  {
    s[..|s| - 1]
  }

  /** The list without position `k`, the others in their order. */
  function RemoveAt<T>(s: seq<T>, k: nat): (r: seq<T>)
    requires k < |s|
    ensures |r| == |s| - 1
    ensures forall i :: 0 <= i < k ==> r[i] == s[i]
    ensures forall i :: k <= i < |r| ==> r[i] == s[i + 1]
    ensures multiset(r) + multiset{s[k]} == multiset(s)
  {
    assert s == s[..k] + [s[k]] + s[k + 1..];
    s[..k] + s[k + 1..]
  }

  /**
   * Python's indexing rule for a list of length `n`: an index in
   * [-n, n) names a position, counting from the end when it is
   * negative; any other index raises IndexError, here None.
   */
  function PyIndex(n: nat, i: int): (r: Option<nat>)
    ensures r.Some? <==> -(n as int) <= i < n
    ensures r.Some? ==> r.value < n && (r.value == i || r.value == n + i)
  {
    if 0 <= i < n then Some(i)
    else if -(n as int) <= i < 0 then Some(n + i)
    else None
  }

  /** `list.count(c)`: the number of cards equal to `c`, counted by a scan. */
  method CountOf(s: seq<Card>, c: Card) returns (n: nat)
    ensures n == multiset(s)[c]
  {
    n := 0;
    var i := 0;
    while i < |s|
      invariant 0 <= i <= |s|
      invariant n == multiset(s[..i])[c]
    {
      assert s[..i + 1] == s[..i] + [s[i]];
      if s[i] == c {
        n := n + 1;
      }
      i := i + 1;
    }
    assert s[..i] == s;
  }

  /** `c in list`: a scan for a card equal to `c`. */
  method Member(s: seq<Card>, c: Card) returns (found: bool)
    ensures found <==> c in s
    ensures found <==> multiset(s)[c] > 0
  {
    found := false;
    var i := 0;
    while i < |s| && !found
      invariant 0 <= i <= |s|
      invariant found <==> c in s[..i]
    {
      assert s[..i + 1] == s[..i] + [s[i]];
      found := s[i] == c;
      i := i + 1;
    }
    assert !found ==> s[..i] == s;
  }

  /** A Python list of cards handed to `add_cards`, which empties it. */
  class CardList {
    var items: seq<Card>

    constructor (items: seq<Card>)
      ensures this.items == items
    {
      this.items := items;
    }
  }

  /** What `add_cards` accepts: one card, or a list of cards. */
  datatype Batch = One(card: Card) | Many(list: CardList)

  /**
   * The card list class: a player's deck, hand, discard pile or cards in
   * play, a supply pile, or the trash. The top of a pile is its last card.
   */
  class Pile {
    var cards: seq<Card>

    constructor ()
      ensures cards == []
    {
      cards := [];
    }

    /** `__len__`. */
    function Length(): (n: nat)
      reads this
      ensures n == |multiset(cards)|
    {
      |cards|
    }

    /** `__getitem__`: the card at a Python index, None when out of range. */
    function At(index: int): (r: Option<Card>)
      reads this
      ensures r.Some? <==> -|cards| <= index < |cards|
      ensures r.Some? ==> r.value in cards
      ensures 0 <= index < |cards| ==> r == Some(cards[index])
      ensures -|cards| <= index < 0 ==> r == Some(cards[|cards| + index])
    {
      match PyIndex(|cards|, index)
      case None => None
      case Some(k) => Some(cards[k])
    }

    method IsEmpty() returns (empty: bool)
      ensures empty <==> |cards| == 0
      ensures empty <==> multiset(cards) == multiset{}
    {
      empty := cards == [];
    }

    /** `__contains__`: membership holds exactly when the count is positive. */
    method Contains(c: Card) returns (found: bool)
      ensures found <==> c in cards
      ensures found <==> multiset(cards)[c] > 0
    {
      found := Member(cards, c);
    }

    method CardCount(c: Card) returns (n: nat)
      ensures n == multiset(cards)[c]
      ensures n <= |cards|
    {
      n := CountOf(cards, c);
    }

    /** Shuffling keeps exactly the same cards; the new order is arbitrary. */
    method Shuffle()
      modifies this
      ensures multiset(cards) == multiset(old(cards))
      ensures |cards| == |old(cards)|
    {
      var shuffled :| multiset(shuffled) == multiset(cards);
      cards := shuffled;
    }

    /**
     * Appends a single card, or the cards of a list in their order; a list
     * handed in is emptied.
     */
    method AddCards(batch: Batch)
      modifies this, if batch.Many? then {batch.list} else {}
      ensures batch.One? ==> cards == old(cards) + [batch.card]
      ensures batch.Many? ==> cards == old(cards) + old(batch.list.items)
      ensures batch.Many? ==> batch.list.items == []
    {
      match batch
      case One(c) =>
        cards := cards + [c];
      case Many(list) =>
        cards := cards + list.items;
        list.items := [];
    }

    /**
     * `pop(position)`: removes and returns the card at a Python index (the
     * top card by default). Out of range, the list is unchanged and None
     * comes back.
     */
    method RemoveCard(position: int := -1) returns (removed: Option<Card>)
      modifies this
      ensures removed.Some? <==> -|old(cards)| <= position < |old(cards)|
      ensures removed.None? ==> cards == old(cards)
      ensures removed.Some? ==>
        var k := PyIndex(|old(cards)|, position).value;
        removed.value == old(cards)[k] &&
        cards == old(cards)[..k] + old(cards)[k + 1..]
      ensures removed.Some? ==> multiset(cards) + multiset{removed.value} == multiset(old(cards))
      ensures position == -1 && old(cards) != [] ==>
        removed == Some(Top(old(cards))) && cards == Pop(old(cards))
    {
      match PyIndex(|cards|, position)
      case None =>
        removed := None;
      case Some(k) =>
        removed := Some(cards[k]);
        assert cards == cards[..k] + [cards[k]] + cards[k + 1..];
        cards := cards[..k] + cards[k + 1..];
    }

    /** Empties the list and returns its former contents, in order. */
    method RemoveAllCards() returns (removed: seq<Card>)
      modifies this
      ensures removed == old(cards)
      ensures cards == []
    {
      removed := cards;
      cards := [];
    }
  }
}
