/**
 * A player (player.py): name, turn counters and four card lists — deck,
 * hand, discard pile and cards in play. Each list is a sequence whose last
 * element is its top card.
 */
module Players {
  import opened Optional
  import opened Cards

  /** The four lists a player owns, addressed by the keys 'deck', 'hand', 'discard' and 'in play'. */
  datatype PileId = Deck | Hand | Discard | InPlay

  /** A player's four lists and three counters at one moment. */
  datatype Holding = Holding(deck: seq<Card>, hand: seq<Card>, discard: seq<Card>, inPlay: seq<Card>,
                             actions: int, gold: int, buys: int)

  /** How many Treasure cards `cards` holds. */
  function TreasureCount(cards: seq<Card>): (n: nat)
    ensures n <= |cards|
  {
    if cards == [] then 0 else (if cards[0].kind == Treasure then 1 else 0) + TreasureCount(cards[1..])
  }

  /** A run of top cards holds no more Treasures than the whole list. */
  lemma {:induction false} TreasureCountSuffix(cards: seq<Card>, i: nat)
    requires i <= |cards|
    ensures TreasureCount(cards[i..]) <= TreasureCount(cards)
    decreases i
  {
    if i > 0 {
      assert cards[1..][i - 1..] == cards[i..];
      TreasureCountSuffix(cards[1..], i - 1);
    }
  }

  /**
   * The discard pile the Adventurer leaves below the cards it sets aside:
   * the deck is shuffled in, emptying the pile, exactly when the deck holds
   * fewer than two Treasures and the pile is not empty.
   */
  function AdventureBase(deck: seq<Card>, discard: seq<Card>): seq<Card>
  {
    if TreasureCount(deck) < 2 && discard != [] then [] else discard
  }

  /**
   * Where the Adventurer's reveals stand, with deck `deck` and discard pile
   * `discard`, against the deck `deck0` and discard pile `discard0` it
   * started from: either the cards revealed are the top of `deck0`,
   * holding `found` Treasures, or `deck0` held fewer than two Treasures and
   * the non-empty discard pile has been shuffled in.
   */
  ghost predicate RevealOrder(deck: seq<Card>, discard: seq<Card>, deck0: seq<Card>, discard0: seq<Card>, found: nat)
  {
    (|deck| <= |deck0| && deck == deck0[..|deck|] && discard == discard0 && found == TreasureCount(deck0[|deck|..])) ||
    (discard == [] && discard0 != [] && TreasureCount(deck0) < 2)
  }

  /** One reveal, from deck `deck` and pile `discard` to `deck'` and `discard'`, keeps RevealOrder. */
  lemma RevealOrderStep(deck: seq<Card>, discard: seq<Card>, deck': seq<Card>, discard': seq<Card>,
                        deck0: seq<Card>, discard0: seq<Card>, c: Option<Card>, found: nat)
    requires RevealOrder(deck, discard, deck0, discard0, found) && found < 2
    requires c.None? <==> deck == [] && discard == []
    requires c.None? ==> deck' == deck && discard' == discard
    requires deck != [] ==> c == Some(Top(deck)) && deck' == Pop(deck) && discard' == discard
    requires deck == [] && discard != [] ==> discard' == []
    requires discard' == discard || discard' == []
    ensures RevealOrder(deck', discard', deck0, discard0, found + if c.Some? && c.value.kind == Treasure then 1 else 0)
  {
    if deck != [] && discard == discard0 {
      assert deck == deck0[..|deck|];
      assert deck' == deck0[..|deck'|];
      assert deck0[|deck'|..][1..] == deck0[|deck|..];
    } else if deck == [] && discard == discard0 {
      assert deck0[|deck|..] == deck0;
    }
  }

  /** The ten cards every player starts with: three Estates and seven Coppers. */
  function StartingCards(): multiset<Card>
  {
    multiset{}[Card(Estate) := 3][Card(Copper) := 7]
  }

  /** Three Estates and seven Coppers, added one kind after the other. */
  lemma StartingCardsAre()
    ensures multiset{} + multiset{}[Card(Estate) := 3] + multiset{}[Card(Copper) := 7] == StartingCards()
  {
    forall c: Card
      ensures (multiset{} + multiset{}[Card(Estate) := 3] + multiset{}[Card(Copper) := 7])[c] == StartingCards()[c]
    {
    }
  }

  /**
   * The final score of a collection of cards: Estate 1, Duchy 3, Province 6,
   * Curse -1, and each Gardens one point per full ten cards owned.
   */
  function Score(m: multiset<Card>): int
  {
    m[Card(Estate)] + 3 * m[Card(Duchy)] + 6 * m[Card(Province)] - m[Card(Name.Curse)]
    + (|m| / 10) * m[Card(Gardens)]
  }

  /** The starting cards are worth 3 points (the three Estates). */
  lemma StartingScore()
    ensures Score(StartingCards()) == 3
    ensures |StartingCards()| == 10
  {
  }

  /** Gaining a card that scores nothing keeps the score, unless it lifts the Gardens bonus. */
  lemma {:induction false} ScoreOfNeutralGain(m: multiset<Card>, c: Card)
    requires c.kind == Treasure || c.kind == Action
    ensures Score(m + multiset{c}) == Score(m) + ((|m| + 1) / 10 - |m| / 10) * m[Card(Gardens)]
  {
    assert c != Card(Estate) && c != Card(Duchy) && c != Card(Province) && c != Card(Name.Curse) && c != Card(Gardens);
    var m' := m + multiset{c};
    assert m'[Card(Estate)] == m[Card(Estate)];
    assert m'[Card(Duchy)] == m[Card(Duchy)];
    assert m'[Card(Province)] == m[Card(Province)];
    assert m'[Card(Name.Curse)] == m[Card(Name.Curse)];
    assert m'[Card(Gardens)] == m[Card(Gardens)];
    assert |m'| == |m| + 1;
    var g := m[Card(Gardens)];
    assert ((|m| + 1) / 10) * g == (|m| / 10) * g + ((|m| + 1) / 10 - |m| / 10) * g;
  }

  /** A Curse costs its owner exactly one point, with the Gardens bonus adjusted as for any card. */
  lemma {:induction false} ScoreOfCurse(m: multiset<Card>)
    ensures Score(m + multiset{Card(Name.Curse)}) ==
      Score(m) - 1 + ((|m| + 1) / 10 - |m| / 10) * m[Card(Gardens)]
  {
    var c := Card(Name.Curse);
    var m' := m + multiset{c};
    assert m'[Card(Estate)] == m[Card(Estate)];
    assert m'[Card(Duchy)] == m[Card(Duchy)];
    assert m'[Card(Province)] == m[Card(Province)];
    assert m'[c] == m[c] + 1;
    assert m'[Card(Gardens)] == m[Card(Gardens)];
    assert |m'| == |m| + 1;
    var g := m[Card(Gardens)];
    assert ((|m| + 1) / 10) * g == (|m| / 10) * g + ((|m| + 1) / 10 - |m| / 10) * g;
  }

  /**
   * Counts the scoring cards of a deck one kind at a time and adds up
   * their points.
   */
  method Tally(deck: seq<Card>) returns (score: int)
    ensures score == Score(multiset(deck))
  {
    var estates := CountOf(deck, Card(Estate));
    var duchies := CountOf(deck, Card(Duchy));
    var provinces := CountOf(deck, Card(Province));
    var curses := CountOf(deck, Card(Name.Curse));
    var gardens := CountOf(deck, Card(Gardens));
    score := 0;
    score := score + 1 * estates;
    score := score + 3 * duchies;
    score := score + 6 * provinces;
    score := score + -1 * (curses as int);
    score := score + (|deck| / 10) * gardens;
  }

  /** A card taken out of what a player owns joins the cards set aside. */
  lemma SetAside(now: multiset<Card>, before: multiset<Card>, start: multiset<Card>, kept: seq<Card>, c: Card)
    requires now + multiset{c} == before && before + multiset(kept) == start
    ensures now + multiset(kept + [c]) == start
  {
    assert multiset(kept + [c]) == multiset(kept) + multiset{c};
  }

  /** A treasure put on a hand that holds `h0` topped by treasures keeps it so. */
  lemma TreasureOnTop(h0: seq<Card>, h: seq<Card>, c: Card)
    requires |h0| <= |h| && h[..|h0|] == h0 && c.kind == Treasure
    requires forall i :: |h0| <= i < |h| ==> h[i].kind == Treasure
    ensures (h + [c])[..|h0|] == h0
    ensures forall i :: |h0| <= i < |h + [c]| ==> (h + [c])[i].kind == Treasure
  {
    assert (h + [c])[..|h0|] == h[..|h0|];
  }

  function Min(a: int, b: int): int
  {
    if a <= b then a else b
  }

  class Player {
    const name: string
    var actions: int
    var gold: int
    var buys: int
    var deck: seq<Card>
    var hand: seq<Card>
    var discard: seq<Card>
    var inPlay: seq<Card>

    /** The list behind a key. */
    function Pile(id: PileId): seq<Card>
      reads this
    {
      match id
      case Deck => deck
      case Hand => hand
      case Discard => discard
      case InPlay => inPlay
    }

    /** Every card the player owns, wherever it lies. */
    ghost function Owned(): multiset<Card>
      reads this
    {
      multiset(deck) + multiset(hand) + multiset(discard) + multiset(inPlay)
    }

    /** The lists and counters, as a value. */
    ghost function State(): Holding
      reads this
    {
      Holding(deck, hand, discard, inPlay, actions, gold, buys)
    }

    /** Only the lists `a` and `b` may have changed. */
    twostate predicate Kept(a: PileId, b: PileId)
      reads this
    {
      (a == Deck || b == Deck || deck == old(deck)) && (a == Hand || b == Hand || hand == old(hand)) &&
      (a == Discard || b == Discard || discard == old(discard)) && (a == InPlay || b == InPlay || inPlay == old(inPlay))
    }

    /** The counters did not change. */
    twostate predicate SameCounters()
      reads this
    {
      actions == old(actions) && gold == old(gold) && buys == old(buys)
    }

    /**
     * A new player: counters at zero, three Estates and seven Coppers
     * shuffled into the deck, and five of them drawn into the hand.
     */
    constructor (name: string)
      ensures this.name == name
      ensures actions == 0 && gold == 0 && buys == 0
      ensures Owned() == StartingCards()
      ensures |hand| == 5 && |deck| == 5 && discard == [] && inPlay == []
    {
      this.name := name;
      actions, gold, buys := 0, 0, 0;
      deck, hand, discard, inPlay := [], [], [], [];
      new;
      AddCards(Deck, Repeat(Card(Estate), 3));
      AddCards(Deck, Repeat(Card(Copper), 7));
      StartingCardsAre();
      Shuffle();
      DrawHand();
    }

    /** Replaces one list; the others and the counters stay as they are. */
    method Put(id: PileId, s: seq<Card>)
      modifies this
      ensures Pile(id) == s
      ensures Kept(id, id)
      ensures SameCounters()
      ensures Owned() + multiset(old(Pile(id))) == old(Owned()) + multiset(s)
    {
      match id
      case Deck => deck := s;
      case Hand => hand := s;
      case Discard => discard := s;
      case InPlay => inPlay := s;
    }

    /** `__contains__`: whether a card equal to `c` is in the hand. */
    method Holds(c: Card) returns (found: bool)
      ensures found <==> c in hand
    {
      found := Member(hand, c);
    }

    /** `__getitem__`: the card at a Python index in one list, None when out of range. */
    function At(id: PileId, idx: int): (r: Option<Card>)
      reads this
      ensures r.Some? <==> -|Pile(id)| <= idx < |Pile(id)|
      ensures r.Some? ==> r.value in Pile(id)
      ensures 0 <= idx < |Pile(id)| ==> r == Some(Pile(id)[idx])
      ensures -|Pile(id)| <= idx < 0 ==> r == Some(Pile(id)[|Pile(id)| + idx])
    {
      match PyIndex(|Pile(id)|, idx)
      case None => None
      case Some(k) => Some(Pile(id)[k])
    }

    method IsEmpty(id: PileId) returns (empty: bool)
      ensures empty <==> Pile(id) == []
    {
      empty := Pile(id) == [];
    }

    /** `length`: the number of cards in one list. */
    function Length(id: PileId): (n: nat)
      reads this
      ensures n == |multiset(Pile(id))|
    {
      |Pile(id)|
    }

    /** Appends cards to one list, in their order. */
    method AddCards(id: PileId, cs: seq<Card>)
      modifies this
      ensures Pile(id) == old(Pile(id)) + cs
      ensures Kept(id, id)
      ensures SameCounters()
      ensures Owned() == old(Owned()) + multiset(cs)
    {
      Put(id, Pile(id) + cs);
    }

    /** Pops the card at a Python index of one list (its top by default); None when out of range. */
    method RemoveCard(id: PileId, idx: int := -1) returns (removed: Option<Card>)
      modifies this
      ensures removed.Some? <==> -|old(Pile(id))| <= idx < |old(Pile(id))|
      ensures removed.None? ==> Pile(id) == old(Pile(id))
      ensures removed.Some? ==>
        var k := PyIndex(|old(Pile(id))|, idx).value;
        removed.value == old(Pile(id))[k] && Pile(id) == RemoveAt(old(Pile(id)), k)
      ensures idx == -1 && old(Pile(id)) != [] ==>
        removed == Some(Top(old(Pile(id)))) && Pile(id) == Pop(old(Pile(id)))
      ensures Kept(id, id)
      ensures SameCounters()
      ensures removed.Some? ==> Owned() + multiset{removed.value} == old(Owned())
      ensures removed.None? ==> Owned() == old(Owned())
    {
      var s := Pile(id);
      match PyIndex(|s|, idx)
      case None =>
        removed := None;
      case Some(k) =>
        removed := Some(s[k]);
        Put(id, RemoveAt(s, k));
    }

    /** Empties one list and returns what it held. */
    method RemoveAllCards(id: PileId) returns (removed: seq<Card>)
      modifies this
      ensures removed == old(Pile(id))
      ensures Pile(id) == []
      ensures Kept(id, id)
      ensures SameCounters()
      ensures Owned() + multiset(removed) == old(Owned())
    {
      removed := Pile(id);
      Put(id, []);
    }

    /** Moves the card at a Python index of one list to the top of another; None (and no move) when out of range. */
    method MoveCard(from: PileId, idx: int, to: PileId) returns (c: Option<Card>)
      requires from != to
      modifies this
      ensures c.Some? <==> PyIndex(|old(Pile(from))|, idx).Some?
      ensures c.Some? ==>
        var k := PyIndex(|old(Pile(from))|, idx).value;
        c.value == old(Pile(from))[k] && Pile(from) == RemoveAt(old(Pile(from)), k) &&
        Pile(to) == old(Pile(to)) + [c.value]
      ensures c.None? ==> Pile(from) == old(Pile(from)) && Pile(to) == old(Pile(to))
      ensures Kept(from, to) && SameCounters()
      ensures Owned() == old(Owned())
    {
      c := RemoveCard(from, idx);
      if c.Some? {
        ghost var mid := Pile(from);
        AddCards(to, [c.value]);
        assert Pile(from) == mid;
      }
    }

    /** Moves every card of one list onto the top of another, keeping their order. */
    method TransferCards(from: PileId, to: PileId)
      modifies this
      ensures from != to ==> Pile(to) == old(Pile(to)) + old(Pile(from)) && Pile(from) == []
      ensures from == to ==> Pile(to) == old(Pile(to))
      ensures Kept(from, to)
      ensures SameCounters()
      ensures Owned() == old(Owned())
    {
      var moved := RemoveAllCards(from);
      label emptied:
      AddCards(to, moved);
      assert from != to ==> old@emptied(Pile(to)) == old(Pile(to));
      assert Owned() == old@emptied(Owned()) + multiset(moved);
    }

    /** Shuffles the deck: the same cards in an arbitrary order. */
    method Shuffle()
      modifies this
      ensures multiset(deck) == multiset(old(deck))
      ensures hand == old(hand) && discard == old(discard) && inPlay == old(inPlay)
      ensures SameCounters()
      ensures Owned() == old(Owned())
    {
      var shuffled :| multiset(shuffled) == multiset(deck);
      deck := shuffled;
    }

    /**
     * Draws one card into the hand. With an empty deck the discard pile is
     * first shuffled into the deck; with both empty nothing happens.
     */
    method DrawCard()
      modifies this
      ensures SameCounters() && inPlay == old(inPlay)
      ensures Owned() == old(Owned())
      ensures old(deck) != [] ==>
        hand == old(hand) + [Top(old(deck))] && deck == Pop(old(deck)) && discard == old(discard)
      ensures old(deck) == [] && old(discard) == [] ==>
        hand == old(hand) && deck == [] && discard == []
      ensures old(deck) == [] && old(discard) != [] ==>
        |hand| == |old(hand)| + 1 && hand[..|old(hand)|] == old(hand) && discard == [] &&
        multiset(deck) + multiset{hand[|old(hand)|]} == multiset(old(discard))
    {
      if deck != [] {
        DrawTop();
      } else {
        if discard == [] {
          return;
        }
        DrawReshuffled();
      }
    }

    /** `draw_card` on an empty deck: the discard pile is shuffled into the deck, then its top card is drawn. */
    method DrawReshuffled()
      requires deck == [] && discard != []
      modifies this
      ensures SameCounters() && inPlay == old(inPlay)
      ensures Owned() == old(Owned())
      ensures |hand| == |old(hand)| + 1 && hand[..|old(hand)|] == old(hand) && discard == [] &&
        multiset(deck) + multiset{hand[|old(hand)|]} == multiset(old(discard))
    {
      TransferCards(Discard, Deck);
      Shuffle();
      assert |deck| == |multiset(deck)| == |old(discard)|;
      ghost var full := deck;
      DrawTop();
      assert full == deck + [hand[|old(hand)|]];
    }

    /** `draw_card` on a deck that holds a card: its top card goes to the top of the hand. */
    method DrawTop()
      requires deck != []
      modifies this
      ensures hand == old(hand) + [Top(old(deck))] && deck == Pop(old(deck))
      ensures discard == old(discard) && inPlay == old(inPlay) && SameCounters()
      ensures Owned() == old(Owned())
    {
      var c := Top(deck);
      deck := Pop(deck);
      hand := hand + [c];
      assert old(deck) == deck + [c];
    }

    /**
     * Draws up to five cards, stopping early only when deck and discard
     * pile are both empty. When the deck holds five cards or more, the
     * hand gains exactly its top five, the top card first.
     */
    method DrawHand()
      modifies this
      ensures SameCounters() && inPlay == old(inPlay)
      ensures Owned() == old(Owned())
      ensures |hand| == |old(hand)| + Min(5, |old(deck)| + |old(discard)|)
      ensures hand[..|old(hand)|] == old(hand)
      ensures |deck| + |discard| == |old(deck)| + |old(discard)| - (|hand| - |old(hand)|)
      ensures 5 <= |old(deck)| ==>
        deck == old(deck)[..|old(deck)| - 5] && discard == old(discard) &&
        forall j :: |old(hand)| <= j < |old(hand)| + 5 ==> hand[j] == old(deck)[|old(deck)| + |old(hand)| - 1 - j]
    {
      var amount := 0;
      while amount < 5
        invariant 0 <= amount <= 5
        invariant SameCounters() && inPlay == old(inPlay)
        invariant Owned() == old(Owned())
        invariant DrawnSoFar(5, amount, old(hand), old(deck), old(discard))
      {
        if deck == [] && discard == [] { return; }
        DrawTurn(5, amount, old(hand), old(deck), old(discard));
        amount := amount + 1;
      }
    }

    /** `draw_card` called `k` times, as the card effects do. */
    method DrawCards(k: nat)
      modifies this
      ensures SameCounters() && inPlay == old(inPlay)
      ensures Owned() == old(Owned())
      ensures |hand| == |old(hand)| + Min(k, |old(deck)| + |old(discard)|)
      ensures hand[..|old(hand)|] == old(hand)
      ensures k <= |old(deck)| ==>
        deck == old(deck)[..|old(deck)| - k] && discard == old(discard) &&
        forall j :: |old(hand)| <= j < |old(hand)| + k ==> hand[j] == old(deck)[|old(deck)| + |old(hand)| - 1 - j]
    {
      var i := 0;
      while i < k
        invariant 0 <= i <= k
        invariant SameCounters() && inPlay == old(inPlay)
        invariant Owned() == old(Owned())
        invariant DrawnSoFar(k, i, old(hand), old(deck), old(discard))
      {
        DrawTurn(k, i, old(hand), old(deck), old(discard));
        i := i + 1;
      }
    }

    /**
     * The state after `i` of `k` draws that started from the hand `hand0`,
     * deck `deck0` and discard pile `discard0`: the hand grew by one card
     * per draw while cards were left, keeping its earlier cards; when the
     * deck alone covers all `k` draws, the cards drawn are the deck's top
     * cards, in drawing order, and the discard pile is untouched.
     */
    ghost predicate DrawnSoFar(k: nat, i: nat, hand0: seq<Card>, deck0: seq<Card>, discard0: seq<Card>)
      reads this
    {
      var h0, n0 := |hand0|, |deck0| + |discard0|;
      |hand| == h0 + Min(i, n0) && |deck| + |discard| == n0 - Min(i, n0) && hand[..h0] == hand0 &&
      (k <= |deck0| ==>
        i <= |deck0| && deck == deck0[..|deck0| - i] && discard == discard0 &&
        forall j :: h0 <= j < h0 + i ==> hand[j] == deck0[|deck0| + h0 - 1 - j])
    }

    /** The `i`-th of `k` draws. */
    method DrawTurn(ghost k: nat, ghost i: nat, ghost hand0: seq<Card>, ghost deck0: seq<Card>, ghost discard0: seq<Card>)
      requires i < k && DrawnSoFar(k, i, hand0, deck0, discard0)
      modifies this
      ensures DrawnSoFar(k, i + 1, hand0, deck0, discard0)
      ensures SameCounters() && inPlay == old(inPlay) && Owned() == old(Owned())
    {
      ghost var before, top, h0, n0 := hand, deck, |hand0|, |deck0| + |discard0|;
      DrawCard();
      assert hand[..h0] == before[..h0];
      assert |hand| == h0 + Min(i + 1, n0) && |deck| + |discard| == n0 - Min(i + 1, n0);
      if k <= |deck0| {
        assert top != [] && Top(top) == deck0[|deck0| - 1 - i];
        DrawnInTurn(before, hand, deck0, h0, i);
        assert deck == deck0[..|deck0| - (i + 1)] && discard == discard0;
      }
    }

    /** One more card from the top of `deck0` keeps the hand's new cards in drawing order. */
    static lemma DrawnInTurn(before: seq<Card>, after: seq<Card>, deck0: seq<Card>, h0: nat, i: nat)
      requires |before| == h0 + i && i < |deck0| && after == before + [deck0[|deck0| - 1 - i]]
      requires forall j :: h0 <= j < h0 + i ==> before[j] == deck0[|deck0| + h0 - 1 - j]
      ensures forall j :: h0 <= j < h0 + i + 1 ==> after[j] == deck0[|deck0| + h0 - 1 - j]
    {
    }

    /**
     * Takes the top card off the deck, first shuffling the discard pile
     * into an empty deck; None when both are empty. This is the reveal
     * step the Library, Thief and Adventurer effects repeat.
     */
    method Reveal() returns (c: Option<Card>)
      modifies this
      ensures c.None? <==> old(deck) == [] && old(discard) == []
      ensures c.None? ==> deck == [] && discard == [] && Owned() == old(Owned())
      ensures c.Some? ==> Owned() + multiset{c.value} == old(Owned())
      ensures old(deck) != [] ==> c == Some(Top(old(deck))) && deck == Pop(old(deck)) && discard == old(discard)
      ensures old(deck) == [] && old(discard) != [] ==> discard == []
      ensures |deck| + |discard| == |old(deck)| + |old(discard)| - (if c.Some? then 1 else 0)
      ensures discard == old(discard) || discard == []
      ensures hand == old(hand) && inPlay == old(inPlay) && SameCounters()
    {
      if deck == [] {
        if discard == [] {
          return None;
        }
        TransferCards(Discard, Deck);
        Shuffle();
      }
      c := RemoveCard(Deck);
    }

    /**
     * The Thief's reveal: up to two cards off the deck, fewer only when
     * deck and discard pile run out.
     */
    method RevealTwo() returns (revealed: seq<Card>)
      modifies this
      ensures |revealed| <= 2
      ensures |revealed| < 2 ==> deck == [] && discard == []
      ensures Owned() + multiset(revealed) == old(Owned())
      ensures hand == old(hand) && inPlay == old(inPlay) && SameCounters()
    {
      revealed := [];
      var amount := 0;
      while amount < 2
        invariant amount <= 2 && |revealed| == amount
        invariant Owned() + multiset(revealed) == old(Owned())
        invariant hand == old(hand) && inPlay == old(inPlay) && SameCounters()
      {
        var c := Reveal();
        if c.None? {
          return;
        }
        revealed := revealed + [c.value];
        amount := amount + 1;
      }
    }

    /** One reveal of the Adventurer: a treasure goes to the hand, any other card is returned. */
    method RevealToHand() returns (c: Option<Card>)
      modifies this
      ensures c.None? <==> old(deck) == [] && old(discard) == []
      ensures c.None? ==> deck == [] && discard == [] && hand == old(hand) && Owned() == old(Owned())
      ensures c.Some? ==> |deck| + |discard| < |old(deck)| + |old(discard)|
      ensures c.Some? && c.value.kind == Treasure ==> hand == old(hand) + [c.value] && Owned() == old(Owned())
      ensures c.Some? && c.value.kind != Treasure ==> hand == old(hand) && Owned() + multiset{c.value} == old(Owned())
      ensures old(deck) != [] ==> c == Some(Top(old(deck))) && deck == Pop(old(deck)) && discard == old(discard)
      ensures old(deck) == [] && old(discard) != [] ==> discard == []
      ensures discard == old(discard) || discard == []
      ensures inPlay == old(inPlay) && SameCounters()
    {
      c := Reveal();
      if c.Some? && c.value.kind == Treasure {
        AddCards(Hand, [c.value]);
      }
    }

    /**
     * The Adventurer's effect: reveals cards until two treasures have gone
     * to the hand or deck and discard pile are both empty; the other
     * revealed cards then go to the discard pile. Returns the names
     * revealed, in order, and how many treasures were drawn.
     */
    method Adventure() returns (revealed: seq<Name>, found: nat, setAside: seq<Card>)
      modifies this
      ensures found <= 2 && |revealed| == found + |setAside|
      ensures forall i :: 0 <= i < |setAside| ==> setAside[i].kind != Treasure
      ensures discard == AdventureBase(old(deck), old(discard)) + setAside
      ensures found < 2 ==> deck == [] && forall i :: 0 <= i < |discard| ==> discard[i].kind != Treasure
      ensures |hand| == |old(hand)| + found && hand[..|old(hand)|] == old(hand)
      ensures forall i :: |old(hand)| <= i < |hand| ==> hand[i].kind == Treasure
      ensures Owned() == old(Owned())
      ensures inPlay == old(inPlay) && SameCounters()
    {
      revealed, found, setAside := RevealTreasures();
      if setAside != [] {
        AddCards(Discard, setAside);
      }
    }

    /** The loop of the Adventurer: the revealed names, the treasures drawn and the other cards set aside. */
    method RevealTreasures() returns (revealed: seq<Name>, found: nat, kept: seq<Card>)
      modifies this
      ensures found <= 2 && |revealed| == found + |kept|
      ensures found < 2 ==> deck == [] && discard == []
      ensures discard == AdventureBase(old(deck), old(discard))
      ensures forall i :: 0 <= i < |kept| ==> kept[i].kind != Treasure
      ensures |hand| == |old(hand)| + found && hand[..|old(hand)|] == old(hand)
      ensures forall i :: |old(hand)| <= i < |hand| ==> hand[i].kind == Treasure
      ensures Owned() + multiset(kept) == old(Owned())
      ensures inPlay == old(inPlay) && SameCounters()
    {
      kept := [];
      revealed, found := [], 0;
      while found < 2
        invariant found <= 2 && |revealed| == found + |kept|
        invariant RevealOrder(deck, discard, old(deck), old(discard), found)
        invariant RevealedSoFar(old(hand), old(Owned()), found, kept)
        invariant inPlay == old(inPlay) && SameCounters()
        decreases |deck| + |discard|
      {
        var c;
        c, found, kept := RevealStep(old(hand), old(Owned()), old(deck), old(discard), found, kept);
        if c.None? {
          break;
        }
        revealed := revealed + [c.value.name];
      }
      if found == 2 && discard == old(discard) {
        TreasureCountSuffix(old(deck), |deck|);
      }
    }

    /**
     * What Adventurer's reveals have done so far: `found` treasures were put
     * on top of hand `h0`, and the cards in `kept` were set aside out of the
     * player's holding `o0`.
     */
    ghost predicate RevealedSoFar(h0: seq<Card>, o0: multiset<Card>, found: nat, kept: seq<Card>)
      reads this
    {
      |hand| == |h0| + found && hand[..|h0|] == h0 &&
      (forall i :: |h0| <= i < |hand| ==> hand[i].kind == Treasure) &&
      (forall i :: 0 <= i < |kept| ==> kept[i].kind != Treasure) &&
      Owned() + multiset(kept) == o0
    }

    /** One reveal of Adventurer's loop: a treasure is counted, any other card is set aside. */
    method RevealStep(ghost h0: seq<Card>, ghost o0: multiset<Card>, ghost deck0: seq<Card>, ghost discard0: seq<Card>,
                      found: nat, kept: seq<Card>)
      returns (c: Option<Card>, found': nat, kept': seq<Card>)
      requires RevealedSoFar(h0, o0, found, kept)
      requires RevealOrder(deck, discard, deck0, discard0, found) && found < 2
      modifies this
      ensures RevealedSoFar(h0, o0, found', kept')
      ensures RevealOrder(deck, discard, deck0, discard0, found')
      ensures c.None? ==> deck == [] && discard == [] && found' == found && kept' == kept
      ensures c.Some? ==> |deck| + |discard| < |old(deck)| + |old(discard)| && found' <= found + 1
      ensures c.Some? ==> found' + |kept'| == found + |kept| + 1
      ensures discard == old(discard) || discard == []
      ensures inPlay == old(inPlay) && SameCounters()
    {
      ghost var before, owned := hand, Owned();
      c := RevealToHand();
      RevealOrderStep(old(deck), old(discard), deck, discard, deck0, discard0, c, found);
      found', kept' := found, kept;
      if c.Some? {
        if c.value.kind == Treasure {
          TreasureOnTop(h0, before, c.value);
          found' := found + 1;
        } else {
          SetAside(Owned(), owned, o0, kept, c.value);
          kept' := kept + [c.value];
        }
      }
    }

    /** The start of a turn in `game_loop`: one action, no gold, one buy. */
    method StartTurn()
      modifies this
      ensures actions == 1 && gold == 0 && buys == 1
      ensures deck == old(deck) && hand == old(hand) && discard == old(discard) && inPlay == old(inPlay)
      ensures Owned() == old(Owned())
    {
      actions, gold, buys := 1, 0, 1;
    }

    /**
     * Ends the turn: hand and cards in play go to the discard pile, then a
     * new hand is drawn.
     */
    method EndTurn()
      modifies this
      ensures SameCounters()
      ensures inPlay == []
      ensures Owned() == old(Owned())
      ensures |hand| == Min(5, |old(deck)| + |old(discard)| + |old(hand)| + |old(inPlay)|)
      ensures |old(deck)| >= 5 ==>
        deck == old(deck)[..|old(deck)| - 5] && discard == old(discard) + old(hand) + old(inPlay) &&
        forall j :: 0 <= j < 5 ==> hand[j] == old(deck)[|old(deck)| - 1 - j]
    {
      DiscardHandAndPlay();
      DrawHand();
    }

    /** The first half of `end_turn`: hand and cards in play go, in that order, onto the discard pile. */
    method DiscardHandAndPlay()
      modifies this
      ensures hand == [] && inPlay == [] && deck == old(deck)
      ensures discard == old(discard) + old(hand) + old(inPlay)
      ensures SameCounters() && Owned() == old(Owned())
    {
      TransferCards(Hand, Discard);
      TransferCards(InPlay, Discard);
    }

    /**
     * Final scoring: every card is gathered into the deck (hand, then
     * discard pile, then cards in play on top), and the deck is scored.
     */
    method CalcScore() returns (score: int)
      modifies this
      ensures deck == old(deck) + old(hand) + old(discard) + old(inPlay)
      ensures hand == [] && discard == [] && inPlay == []
      ensures SameCounters()
      ensures Owned() == old(Owned())
      ensures score == Score(old(Owned()))
    {
      TransferCards(Hand, Deck);
      TransferCards(Discard, Deck);
      TransferCards(InPlay, Deck);
      assert multiset(deck) == old(Owned());
      score := Tally(deck);
    }
  }
}
