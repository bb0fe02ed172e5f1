/**
 * The supply (dominion.py): seventeen piles laid out as three treasure
 * piles, three victory piles, ten kingdom piles and the curses, filled from
 * tables indexed by the number of players; the count of non-empty piles;
 * the end-of-game test; and what it takes to buy or gain from a pile.
 */
module Supply {
  import opened Cards

  const SlotCount: nat := 17
  const CopperSlot: nat := 0
  const SilverSlot: nat := 1
  const GoldSlot: nat := 2
  const EstateSlot: nat := 3
  const DuchySlot: nat := 4
  const ProvinceSlot: nat := 5
  const FirstKingdomSlot: nat := 6
  const CurseSlot: nat := 16
  /** Slots a card can be gained from: every pile but the curses. */
  const GainSlots: nat := 16
  /** The game ends once at most this many piles are non-empty. */
  const OpenPilesAtEnd: nat := 14

  predicate PlayerCount(n: int)
  {
    2 <= n <= 4
  }

  /** Coppers left in the supply: 46, 39 or 32 for 2, 3 or 4 players. */
  function CopperCount(n: int): nat
    requires PlayerCount(n)
  {
    if n == 2 then 46 else if n == 3 then 39 else 32
  }

  const SilverCount: nat := 40
  const GoldCount: nat := 30

  /** Estates, Duchies and Provinces: 8 each for 2 players, 12 each otherwise. */
  function VictoryCount(n: int): nat
    requires PlayerCount(n)
  {
    if n == 2 then 8 else if n == 3 then 12 else 12
  }

  /** Curses: 10, 20 or 30 for 2, 3 or 4 players. */
  function CurseCount(n: int): nat
    requires PlayerCount(n)
  {
    if n == 2 then 10 else if n == 3 then 20 else 30
  }

  /** Copies in a kingdom pile: 10, except Gardens with 8 for 2 players and 12 otherwise. */
  function KingdomCount(c: Card, n: int): nat
  {
    if c.name == Gardens then (if n == 2 then 8 else 12) else 10
  }

  /** The 25 kingdom randomizers, in the order the source lists them. */
  const Randomizers: seq<Card> := [
    Card(Cellar), Card(Chapel), Card(Moat), Card(Chancellor), Card(Village),
    Card(Woodcutter), Card(Workshop), Card(Bureaucrat), Card(Feast), Card(Gardens),
    Card(Militia), Card(Moneylender), Card(Remodel), Card(Smithy), Card(Spy),
    Card(Thief), Card(ThroneRoom), Card(CouncilRoom), Card(Festival), Card(Laboratory),
    Card(Library), Card(Market), Card(Mine), Card(Witch), Card(Adventurer)
  ]

  predicate Distinct(s: seq<Card>)
  {
    forall i, j :: 0 <= i < j < |s| ==> s[i] != s[j]
  }

  /** Ten different randomizers. */
  predicate IsKingdom(k: seq<Card>)
  {
    |k| == 10 && Distinct(k) && forall i :: 0 <= i < |k| ==> k[i] in Randomizers
  }

  lemma RandomizersDistinct()
    ensures |Randomizers| == 25 && Distinct(Randomizers)
  {
    var front := [
      Card(Cellar), Card(Chapel), Card(Moat), Card(Chancellor), Card(Village),
      Card(Woodcutter), Card(Workshop), Card(Bureaucrat), Card(Feast), Card(Gardens),
      Card(Militia), Card(Moneylender), Card(Remodel)];
    var back := [
      Card(Smithy), Card(Spy), Card(Thief), Card(ThroneRoom), Card(CouncilRoom),
      Card(Festival), Card(Laboratory), Card(Library), Card(Market), Card(Mine),
      Card(Witch), Card(Adventurer)];
    assert Distinct(front);
    assert Distinct(back);
    forall i, j | 0 <= i < |front| && 0 <= j < |back|
      ensures front[i] != back[j]
    {
    }
    DistinctJoin(front, back);
    assert front + back == Randomizers;
  }

  /** Two lists without repeats and without a common card join into one without repeats. */
  lemma DistinctJoin(a: seq<Card>, b: seq<Card>)
    requires Distinct(a) && Distinct(b)
    requires forall i, j :: 0 <= i < |a| && 0 <= j < |b| ==> a[i] != b[j]
    ensures Distinct(a + b)
  {
  }

  /** In a list without repeats every card occurs at most once. */
  lemma {:induction false} DistinctOnce(s: seq<Card>, c: Card)
    requires Distinct(s)
    ensures multiset(s)[c] <= 1
  {
    if s != [] {
      DistinctOnce(Pop(s), c);
      assert s == Pop(s) + [Top(s)];
      assert Top(s) !in Pop(s);
    }
  }

  /** A card at two positions occurs at least twice. */
  lemma {:induction false} Twice(s: seq<Card>, i: nat, j: nat)
    requires i < j < |s| && s[i] == s[j]
    ensures multiset(s)[s[i]] >= 2
  {
    assert s == s[..j] + [s[j]] + s[j + 1..];
    assert s[i] in s[..j];
  }

  /**
   * The first `n` cards of a reordering of a list without repeats are
   * different cards of that list.
   */
  lemma {:induction false} PermutedPrefix(order: seq<Card>, source: seq<Card>, n: nat)
    requires multiset(order) == multiset(source) && Distinct(source) && n <= |source|
    ensures |order| == |source| && Distinct(order[..n])
    ensures forall i :: 0 <= i < n ==> order[..n][i] in source
  {
    assert |order| == |multiset(order)| == |multiset(source)| == |source|;
    var k := order[..n];
    forall i, j | 0 <= i < j < n
      ensures k[i] != k[j]
    {
      if k[i] == k[j] {
        Twice(order, i, j);
        DistinctOnce(source, order[i]);
      }
    }
    forall i | 0 <= i < n
      ensures k[i] in source
    {
      assert order[i] in multiset(order);
    }
  }

  /**
   * Shuffling the randomizers and taking the first ten, as the setup does,
   * always yields a kingdom: ten different randomizers.
   */
  lemma {:induction false} ShuffledKingdom(order: seq<Card>)
    requires multiset(order) == multiset(Randomizers)
    ensures |order| >= 10 && IsKingdom(order[..10])
  {
    RandomizersDistinct();
    PermutedPrefix(order, Randomizers, 10);
  }

  /** `init_kingdom_cards`' choice: the randomizers shuffled, the first ten kept. */
  method ChooseKingdom() returns (kingdom: seq<Card>)
    ensures IsKingdom(kingdom)
  {
    var order :| multiset(order) == multiset(Randomizers);
    ShuffledKingdom(order);
    kingdom := order[..10];
  }

  /** The six base piles, filled for `n` players. */
  function BasePiles(n: int): (piles: seq<seq<Card>>)
    requires PlayerCount(n)
    ensures |piles| == 6
  {
    [ Repeat(Card(Copper), CopperCount(n)), Repeat(Card(Silver), SilverCount),
      Repeat(Card(Gold), GoldCount), Repeat(Card(Estate), VictoryCount(n)),
      Repeat(Card(Duchy), VictoryCount(n)), Repeat(Card(Province), VictoryCount(n)) ]
  }

  /** The ten kingdom piles for a chosen kingdom. */
  function KingdomPiles(kingdom: seq<Card>, n: int): (piles: seq<seq<Card>>)
    ensures |piles| == |kingdom|
    ensures forall i :: 0 <= i < |kingdom| ==> piles[i] == Repeat(kingdom[i], KingdomCount(kingdom[i], n))
  {
    if kingdom == [] then []
    else
      var last := kingdom[|kingdom| - 1];
      KingdomPiles(kingdom[..|kingdom| - 1], n) + [Repeat(last, KingdomCount(last, n))]
  }

  /** The whole supply at the start of a game for `n` players. */
  function SetupPiles(n: int, kingdom: seq<Card>): (piles: seq<seq<Card>>)
    requires PlayerCount(n) && |kingdom| == 10
    ensures |piles| == SlotCount
  {
    BasePiles(n) + KingdomPiles(kingdom, n) + [Repeat(Card(Name.Curse), CurseCount(n))]
  }

  /** The supply piles hold the counts of the setup tables, each pile a single card. */
  lemma {:induction false} SetupContents(n: int, kingdom: seq<Card>)
    requires PlayerCount(n) && |kingdom| == 10
    ensures var piles := SetupPiles(n, kingdom);
      && |piles[CopperSlot]| == CopperCount(n) && |piles[SilverSlot]| == 40 && |piles[GoldSlot]| == 30
      && |piles[EstateSlot]| == VictoryCount(n) && |piles[DuchySlot]| == VictoryCount(n)
      && |piles[ProvinceSlot]| == VictoryCount(n) && |piles[CurseSlot]| == CurseCount(n)
      && (forall i :: FirstKingdomSlot <= i < CurseSlot ==>
            |piles[i]| == KingdomCount(kingdom[i - FirstKingdomSlot], n))
      && (forall i :: 0 <= i < SlotCount ==> |piles[i]| > 0)
  {
    var piles := SetupPiles(n, kingdom);
    var base, ks := BasePiles(n), KingdomPiles(kingdom, n);
    assert forall i :: 0 <= i < 6 ==> piles[i] == base[i];
    assert forall i :: FirstKingdomSlot <= i < CurseSlot ==> piles[i] == ks[i - FirstKingdomSlot];
  }

  /** `__len__`: how many piles still hold a card. */
  function NonEmptyCount(piles: seq<seq<Card>>): (r: nat)
    ensures r <= |piles|
  {
    if piles == [] then 0
    else NonEmptyCount(piles[..|piles| - 1]) + (if piles[|piles| - 1] != [] then 1 else 0)
  }

  /** The positions of the empty piles. */
  function EmptySlots(piles: seq<seq<Card>>): set<nat>
  {
    set i: nat | i < |piles| && piles[i] == []
  }

  /** Every pile is either counted by `__len__` or empty. */
  lemma {:induction false} CountSplit(piles: seq<seq<Card>>)
    ensures NonEmptyCount(piles) + |EmptySlots(piles)| == |piles|
  {
    if piles != [] {
      var n := |piles| - 1;
      var front := piles[..n];
      CountSplit(front);
      if piles[n] == [] {
        assert EmptySlots(piles) == EmptySlots(front) + {n};
      } else {
        assert EmptySlots(piles) == EmptySlots(front);
      }
    }
  }

  /** A full supply: no pile is empty. */
  lemma {:induction false} AllNonEmpty(piles: seq<seq<Card>>)
    requires forall i :: 0 <= i < |piles| ==> piles[i] != []
    ensures NonEmptyCount(piles) == |piles|
  {
    CountSplit(piles);
    assert EmptySlots(piles) == {};
  }

  /** The game-over test run after every turn. */
  predicate GameOver(piles: seq<seq<Card>>)
    requires |piles| == SlotCount
  {
    piles[ProvinceSlot] == [] || NonEmptyCount(piles) <= OpenPilesAtEnd
  }

  /** The game ends exactly when the Provinces or any three piles have run out. */
  lemma GameOverIff(piles: seq<seq<Card>>)
    requires |piles| == SlotCount
    ensures GameOver(piles) <==> piles[ProvinceSlot] == [] || |EmptySlots(piles)| >= 3
  {
    CountSplit(piles);
  }

  /** A fresh supply does not end the game. */
  lemma {:induction false} SetupNotOver(n: int, kingdom: seq<Card>)
    requires PlayerCount(n) && |kingdom| == 10
    ensures NonEmptyCount(SetupPiles(n, kingdom)) == SlotCount
    ensures !GameOver(SetupPiles(n, kingdom))
  {
    SetupContents(n, kingdom);
    AllNonEmpty(SetupPiles(n, kingdom));
  }

  /** The supply `__init__` lays out for `n` players: ten kingdom cards drawn at random and all seventeen piles full. */
  method SetUp(n: int) returns (kingdom: seq<Card>, piles: seq<seq<Card>>)
    requires PlayerCount(n)
    ensures IsKingdom(kingdom) && piles == SetupPiles(n, kingdom) && !GameOver(piles)
  {
    kingdom := ChooseKingdom();
    SetupNotOver(n, kingdom);
    piles := SetupPiles(n, kingdom);
  }

  /** Every card lying in the supply. */
  function InPiles(piles: seq<seq<Card>>): multiset<Card>
  {
    if piles == [] then multiset{}
    else InPiles(piles[..|piles| - 1]) + multiset(piles[|piles| - 1])
  }

  /** Replacing one pile changes the supply's cards by exactly the difference. */
  lemma {:induction false} InPilesUpdate(piles: seq<seq<Card>>, k: nat, s: seq<Card>)
    requires k < |piles|
    ensures InPiles(piles[k := s]) + multiset(piles[k]) == InPiles(piles) + multiset(s)
  {
    var n := |piles| - 1;
    var updated := piles[k := s];
    assert InPiles(updated) == InPiles(updated[..n]) + multiset(updated[n]);
    assert InPiles(piles) == InPiles(piles[..n]) + multiset(piles[n]);
    if k == n {
      assert updated[..n] == piles[..n];
    } else {
      var front := piles[..n];
      InPilesUpdate(front, k, s);
      assert updated[..n] == front[k := s];
      assert updated[n] == piles[n] && front[k] == piles[k];
      calc {
        InPiles(updated) + multiset(piles[k]);
        InPiles(front[k := s]) + multiset(piles[k]) + multiset(piles[n]);
        InPiles(front) + multiset(s) + multiset(piles[n]);
        InPiles(piles) + multiset(s);
      }
    }
  }

  /** Taking the top card of a pile takes exactly that card out of the supply. */
  lemma {:induction false} InPilesPop(piles: seq<seq<Card>>, k: nat)
    requires k < |piles| && piles[k] != []
    ensures InPiles(piles[k := Pop(piles[k])]) + multiset{Top(piles[k])} == InPiles(piles)
  {
    var rest, top := Pop(piles[k]), Top(piles[k]);
    InPilesUpdate(piles, k, rest);
    assert piles[k] == rest + [top];
    assert multiset(piles[k]) == multiset(rest) + multiset{top};
    var after := InPiles(piles[k := rest]);
    forall x: Card
      ensures (after + multiset{top})[x] == InPiles(piles)[x]
    {
      assert (after + multiset(piles[k]))[x] == (InPiles(piles) + multiset(rest))[x];
    }
    assert after + multiset{top} == InPiles(piles);
  }

  /** Taking from a pile never raises the count of non-empty piles. */
  lemma {:induction false} NonEmptyCountShrinks(piles: seq<seq<Card>>, k: nat, s: seq<Card>)
    requires k < |piles| && |s| <= |piles[k]|
    ensures NonEmptyCount(piles[k := s]) <= NonEmptyCount(piles)
  {
    var n := |piles| - 1;
    if k == n {
      assert piles[k := s][..n] == piles[..n];
    } else {
      NonEmptyCountShrinks(piles[..n], k, s);
      assert piles[k := s][..n] == piles[..n][k := s];
    }
  }

  /** A buy goes through when the pile has a card costing at most the gold on hand. */
  predicate CanBuy(pile: seq<Card>, gold: int)
  {
    pile != [] && Top(pile).cost <= gold
  }

  /** A gain goes through when the pile has a card of an allowed type within the budget. */
  predicate CanGain(pile: seq<Card>, allowed: set<CardType>, budget: int)
  {
    pile != [] && Top(pile).kind in allowed && Top(pile).cost <= budget
  }

  /** Types Workshop, Feast and Remodel may gain. */
  const GainTypes: set<CardType> := {Treasure, Victory, Action}
  /** Types Mine may gain. */
  const TreasureOnly: set<CardType> := {Treasure}

  /** `buy_card` as written: the buys counter is reported but not checked. */
  predicate BuyAcceptedAsWritten(pile: seq<Card>, gold: int, buys: int)
  {
    CanBuy(pile, gold)
  }

  /** `buy_card` as intended: a buy needs a buy left as well. */
  predicate BuyAccepted(pile: seq<Card>, gold: int, buys: int)
  {
    buys > 0 && CanBuy(pile, gold)
  }

  /** As written, `buy_card` on its own accepts a purchase from a player with no buys left. */
  lemma BuyWithoutBuysAsWritten()
    ensures BuyAcceptedAsWritten([Card(Copper)], 0, 0)
    ensures !BuyAccepted([Card(Copper)], 0, 0)
  {
  }

  /** As intended, an accepted buy never drives the buys counter or the gold below zero. */
  lemma BuyKeepsCountersNatural(pile: seq<Card>, gold: int, buys: int)
    requires gold >= 0
    requires BuyAccepted(pile, gold, buys)
    ensures buys - 1 >= 0 && gold - Top(pile).cost >= 0
    ensures BuyAcceptedAsWritten(pile, gold, buys)
  {
  }
}
