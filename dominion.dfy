/**
 * The game (dominion.py): the players, the seventeen supply piles, the
 * trash, the messages, the suspended card effects and whose turn it is.
 * One message from a client is one step of the turn loop.
 */
module Dominion {
  import opened Optional
  import opened Cards
  import opened Players
  import opened Supply
  import opened Tokens
  import opened Events
  import opened Frames

  /**
   * Running, over after the final scores, or halted: the source raises a
   * Python exception (a malformed number, a position outside a list, a
   * missing field) and the game's generator dies.
   */
  datatype Phase = Running | Over | Halted

  /** No player object is seated twice. */
  ghost predicate Seated(ps: seq<Player>)
  {
    forall i, j :: 0 <= i < j < |ps| ==> ps[i] != ps[j]
  }

  /** The cards of each player, in seat order. */
  ghost function Holdings(ps: seq<Player>): (ms: seq<multiset<Card>>)
    reads ps
    ensures |ms| == |ps|
    ensures forall i :: 0 <= i < |ps| ==> ms[i] == ps[i].Owned()
  {
    if ps == [] then [] else Holdings(ps[..|ps| - 1]) + [ps[|ps| - 1].Owned()]
  }

  function Sum(ms: seq<multiset<Card>>): multiset<Card>
  {
    if ms == [] then multiset{} else Sum(ms[..|ms| - 1]) + ms[|ms| - 1]
  }

  /** Every card the players own. */
  ghost function OwnedBy(ps: seq<Player>): multiset<Card>
    reads ps
  {
    Sum(Holdings(ps))
  }

  /** Replacing one part changes the sum by that part's difference. */
  lemma {:induction false} SumReplace(ms: seq<multiset<Card>>, ns: seq<multiset<Card>>, k: nat)
    requires |ms| == |ns| && k < |ms|
    requires forall i :: 0 <= i < |ms| && i != k ==> ms[i] == ns[i]
    ensures Sum(ns) + ms[k] == Sum(ms) + ns[k]
  {
    var n := |ms| - 1;
    if k < n {
      SumReplace(ms[..n], ns[..n], k);
      Rebalance(Sum(ns[..n]), Sum(ms[..n]), ns[k], ms[k], ns[n]);
    } else {
      assert ms[..n] == ns[..n];
    }
  }

  twostate lemma OwnedByUnchanged(ps: seq<Player>)
    requires forall i :: 0 <= i < |ps| ==> unchanged(ps[i])
    ensures OwnedBy(ps) == old(OwnedBy(ps))
  {
    assert Holdings(ps) == old(Holdings(ps));
  }

  lemma Shrunk(t: multiset<Card>, t0: multiset<Card>, k: multiset<Card>, k0: multiset<Card>, d: multiset<Card>)
    requires t + k0 == t0 + k && k + d == k0
    ensures t + d == t0
  {
    forall x: Card
      ensures (t + d)[x] == t0[x]
    {
      assert (t + k0)[x] == (t0 + k)[x];
    }
  }

  lemma Grown(t: multiset<Card>, t0: multiset<Card>, k: multiset<Card>, k0: multiset<Card>, d: multiset<Card>)
    requires t + k0 == t0 + k && k == k0 + d
    ensures t == t0 + d
  {
    forall x: Card
      ensures t[x] == (t0 + d)[x]
    {
      assert (t + k0)[x] == (t0 + k)[x];
    }
  }

  lemma Lift(x: multiset<Card>, y: multiset<Card>, d: multiset<Card>, r1: multiset<Card>, r2: multiset<Card>)
    requires x + d == y
    ensures ((x + r1) + r2) + d == (y + r1) + r2
  {
    forall e: Card
      ensures (((x + r1) + r2) + d)[e] == ((y + r1) + r2)[e]
    {
      assert (x + d)[e] == y[e];
    }
  }

  lemma LiftMid(a: multiset<Card>, x: multiset<Card>, y: multiset<Card>, d: multiset<Card>, c: multiset<Card>)
    requires x + d == y
    ensures ((a + x) + c) + d == (a + y) + c
  {
    forall e: Card
      ensures (((a + x) + c) + d)[e] == ((a + y) + c)[e]
    {
      assert (x + d)[e] == y[e];
    }
  }

  lemma LiftLeft(r: multiset<Card>, x: multiset<Card>, y: multiset<Card>, d: multiset<Card>)
    requires x + d == y
    ensures (r + x) + d == r + y
  {
    forall e: Card
      ensures ((r + x) + d)[e] == (r + y)[e]
    {
      assert (x + d)[e] == y[e];
    }
  }

  /** Taking the top card off the middle list of three. */
  lemma PopMiddle(a: multiset<Card>, t: seq<Card>, c: multiset<Card>)
    requires t != []
    ensures (a + multiset(Pop(t)) + c) + multiset{Top(t)} == a + multiset(t) + c
  {
    assert t == Pop(t) + [Top(t)];
    LiftMid(a, multiset(Pop(t)), multiset(t), multiset{Top(t)}, c);
  }

  lemma Rebalance(a: multiset<Card>, a0: multiset<Card>, b: multiset<Card>, b0: multiset<Card>, c: multiset<Card>)
    requires a + b0 == a0 + b
    ensures (a + c) + b0 == (a0 + c) + b
  {
    forall x: Card
      ensures ((a + c) + b0)[x] == ((a0 + c) + b)[x]
    {
      assert (a + b0)[x] == (a0 + b)[x];
    }
  }

  /** Seats in strictly increasing order, so no seat is listed twice. */
  predicate Rising(seats: seq<nat>)
  {
    forall i, j :: 0 <= i < j < |seats| ==> seats[i] < seats[j]
  }

  /**
   * The opponents among `seats`, in order, that the Witch curses when
   * `left` curses remain and `hands` are the players' hands: one with a
   * Moat in hand is passed over, and once the curses have run out nobody
   * else gains one.
   */
  function Cursed(hands: seq<seq<Card>>, seats: seq<nat>, left: nat): (r: seq<nat>)
    requires SeatsBelow(seats, |hands|)
    ensures |r| <= left && |r| <= |seats|
    decreases |seats|
  {
    if seats == [] then []
    else if Card(Moat) in hands[seats[0]] then Cursed(hands, seats[1..], left)
    else if left == 0 then []
    else [seats[0]] + Cursed(hands, seats[1..], left - 1)
  }

  /**
   * Who the Witch curses: only opponents from `seats` without a Moat, and
   * every such opponent unless the curses ran out.
   */
  lemma {:induction false} CursedMeaning(hands: seq<seq<Card>>, seats: seq<nat>, left: nat)
    requires SeatsBelow(seats, |hands|)
    ensures forall i :: 0 <= i < |Cursed(hands, seats, left)| ==>
      Cursed(hands, seats, left)[i] in seats && Card(Moat) !in hands[Cursed(hands, seats, left)[i]]
    ensures |Cursed(hands, seats, left)| < left ==>
      forall i :: 0 <= i < |seats| && Card(Moat) !in hands[seats[i]] ==> seats[i] in Cursed(hands, seats, left)
    decreases |seats|
  {
    if seats != [] {
      var r := Cursed(hands, seats, left);
      if Card(Moat) in hands[seats[0]] {
        CursedMeaning(hands, seats[1..], left);
      } else if left > 0 {
        CursedMeaning(hands, seats[1..], left - 1);
        assert r == [seats[0]] + Cursed(hands, seats[1..], left - 1);
      }
    }
  }

  /** A seat put in front of two runs joined is put in front of the first. */
  lemma ConsJoin(v: nat, x: seq<nat>, y: seq<nat>)
    ensures [v] + (x + y) == ([v] + x) + y
  {
  }

  /** Cursing two runs of seats one after the other: the second run gets what the first left over. */
  lemma {:induction false} CursedAppend(hands: seq<seq<Card>>, a: seq<nat>, b: seq<nat>, left: nat)
    requires SeatsBelow(a, |hands|) && SeatsBelow(b, |hands|)
    ensures SeatsBelow(a + b, |hands|)
    ensures Cursed(hands, a + b, left) == Cursed(hands, a, left) + Cursed(hands, b, left - |Cursed(hands, a, left)|)
    decreases |a|, 1
  {
    if a == [] {
      assert a + b == b;
    } else if Card(Moat) in hands[a[0]] {
      CursedAppendShielded(hands, a, b, left);
    } else if left > 0 {
      CursedAppendCursed(hands, a, b, left);
    } else {
      assert (a + b)[0] == a[0];
      CursedNone(hands, b);
    }
  }

  /** CursedAppend when the first seat has a Moat: it is skipped in both. */
  lemma {:induction false} CursedAppendShielded(hands: seq<seq<Card>>, a: seq<nat>, b: seq<nat>, left: nat)
    requires SeatsBelow(a, |hands|) && SeatsBelow(b, |hands|) && a != [] && Card(Moat) in hands[a[0]]
    ensures SeatsBelow(a + b, |hands|)
    ensures Cursed(hands, a + b, left) == Cursed(hands, a, left) + Cursed(hands, b, left - |Cursed(hands, a, left)|)
    decreases |a|, 0
  {
    assert (a + b)[0] == a[0] && (a + b)[1..] == a[1..] + b;
    CursedAppend(hands, a[1..], b, left);
  }

  /** CursedAppend when the first seat is cursed: it heads both, and one curse fewer is left for the rest. */
  lemma {:induction false} CursedAppendCursed(hands: seq<seq<Card>>, a: seq<nat>, b: seq<nat>, left: nat)
    requires SeatsBelow(a, |hands|) && SeatsBelow(b, |hands|) && a != [] && Card(Moat) !in hands[a[0]] && left > 0
    ensures SeatsBelow(a + b, |hands|)
    ensures Cursed(hands, a + b, left) == Cursed(hands, a, left) + Cursed(hands, b, left - |Cursed(hands, a, left)|)
    decreases |a|, 0
  {
    assert (a + b)[0] == a[0] && (a + b)[1..] == a[1..] + b;
    CursedAppend(hands, a[1..], b, left - 1);
    var x := Cursed(hands, a[1..], left - 1);
    var y := Cursed(hands, b, left - 1 - |x|);
    ConsJoin(a[0], x, y);
  }

  /**
   * The Witch's attack on the next opponent `seats[j]`: it is cursed
   * exactly when it has no Moat and a curse is left, it was not cursed
   * before, and once the curses are gone the rest of the seats gain none.
   */
  lemma CursedStep(hands: seq<seq<Card>>, seats: seq<nat>, j: nat, left: nat)
    requires SeatsBelow(seats, |hands|) && Rising(seats) && j < |seats|
    ensures
      var before, v := Cursed(hands, seats[..j], left), seats[j];
      v !in before &&
      Cursed(hands, seats[..j + 1], left) ==
        (if Card(Moat) in hands[v] || |before| == left then before else before + [v]) &&
      (|before| == left ==> Cursed(hands, seats, left) == before)
  {
    var before, v := Cursed(hands, seats[..j], left), seats[j];
    CursedAppend(hands, seats[..j], [v], left);
    assert seats[..j + 1] == seats[..j] + [v];
    assert [v][1..] == [];
    CursedMeaning(hands, seats[..j], left);
    forall i | 0 <= i < |before|
      ensures before[i] != v
    {
      assert before[i] in seats[..j];
    }
    if |before| == left {
      CursedAppend(hands, seats[..j], seats[j..], left);
      CursedNone(hands, seats[j..]);
      assert seats == seats[..j] + seats[j..];
    }
  }

  /** With no curses left nobody is cursed. */
  lemma {:induction false} CursedNone(hands: seq<seq<Card>>, seats: seq<nat>)
    requires SeatsBelow(seats, |hands|)
    ensures Cursed(hands, seats, 0) == []
    decreases |seats|
  {
    if seats != [] {
      CursedNone(hands, seats[1..]);
    }
  }

  /** The seats of `n` players other than `a`, in seating order. */
  function OthersOf(n: nat, a: nat): (r: seq<nat>)
    ensures forall i :: 0 <= i < |r| ==> r[i] < n && r[i] != a
    ensures forall s :: 0 <= s < n && s != a ==> s in r
    ensures Rising(r)
  {
    if n == 0 then [] else OthersOf(n - 1, a) + (if n - 1 == a then [] else [n - 1])
  }

  /** All seats, in seating order. */
  function AllSeats(n: nat): (r: seq<nat>)
    ensures |r| == n
    ensures forall i :: 0 <= i < n ==> r[i] == i
  {
    if n == 0 then [] else AllSeats(n - 1) + [n - 1]
  }

  /** The gold a treasure adds when played: Copper 1, Silver 2, Gold 3. */
  function Coins(c: Card): nat
  {
    match c.name
    case Copper => 1
    case Silver => 2
    case Gold => 3
    case _ => 0
  }

  /** What a card adds when played: cards drawn, and actions, gold and buys. */
  datatype Bonus = Bonus(cards: nat, actions: nat, gold: nat, buys: nat)

  /** The actions whose whole effect is a bonus: no question, no other player involved. */
  const PlainNames: set<Name> := {Moat, Village, Woodcutter, Smithy, Festival, Laboratory, Market}

  /** The bonus of each plain action; any other card has none of its own. */
  function BonusOf(n: Name): Bonus
  {
    match n
    case Moat => Bonus(2, 0, 0, 0)
    case Village => Bonus(1, 2, 0, 0)
    case Woodcutter => Bonus(0, 0, 2, 1)
    case Smithy => Bonus(3, 0, 0, 0)
    case Festival => Bonus(0, 2, 2, 1)
    case Laboratory => Bonus(2, 1, 0, 0)
    case Market => Bonus(1, 1, 1, 1)
    case _ => Bonus(0, 0, 0, 0)
  }

  /** The names Bureaucrat makes an opponent put back on the deck. */
  const VictoryNames: set<Name> := {Estate, Duchy, Province, Gardens}
  /** The names Moneylender looks for. */
  const CopperOnly: set<Name> := {Copper}
  /** The names Mine, Thief and `play_all_treasures` count as treasures. */
  const TreasureNames: set<Name> := {Copper, Silver, Gold}

  /**
   * The discard pile the Library leaves below the cards it sets aside,
   * drawing from `deck` into `hand`: the pile is shuffled into the deck,
   * which empties it, exactly when it is not empty and the deck runs out
   * before the hand holds seven cards and before an action is drawn.
   */
  function LibraryBase(deck: seq<Card>, hand: seq<Card>, discard: seq<Card>): seq<Card>
  {
    if |deck| + |hand| < 7 && discard != [] && (forall i :: 0 <= i < |deck| ==> deck[i].kind != Action) then []
    else discard
  }

  /** Drawing a non-action top card into the hand leaves the Library's discard pile as it was. */
  lemma LibraryBaseDraw(deck: seq<Card>, hand: seq<Card>, discard: seq<Card>)
    requires deck != [] && Top(deck).kind != Action
    ensures LibraryBase(Pop(deck), hand + [Top(deck)], discard) == LibraryBase(deck, hand, discard)
  {
    if forall i :: 0 <= i < |Pop(deck)| ==> Pop(deck)[i].kind != Action {
      assert forall i :: 0 <= i < |deck| ==> deck[i].kind != Action by {
        forall i | 0 <= i < |deck| ensures deck[i].kind != Action {
          if i < |deck| - 1 { assert deck[i] == Pop(deck)[i]; }
        }
      }
    }
  }

  /** The names of a list of cards, in order. */
  function NamesOf(s: seq<Card>): (r: seq<Name>)
    ensures |r| == |s| && forall i :: 0 <= i < |s| ==> r[i] == s[i].name
  {
    if s == [] then [] else NamesOf(s[..|s| - 1]) + [s[|s| - 1].name]
  }

  /**
   * Removing the hand cards at the Python indices in `fields`, one after
   * the other, each index read against what is left of the hand: the
   * removed cards in order and the rest of the hand, or None as soon as a
   * field is not a number or names no position (where the source raises).
   */
  function Pick(hand: seq<Card>, fields: seq<string>): (r: Option<(seq<Card>, seq<Card>)>)
    ensures r.Some? ==> |r.value.0| == |fields| && |r.value.1| + |fields| == |hand|
    ensures r.Some? ==> multiset(r.value.0) + multiset(r.value.1) == multiset(hand)
    decreases |fields|
  {
    if fields == [] then Some(([], hand))
    else
      match ParseInt(fields[0])
      case None => None
      case Some(i) =>
        match PyIndex(|hand|, i)
        case None => None
        case Some(k) =>
          match Pick(RemoveAt(hand, k), fields[1..])
          case None => None
          case Some(rest) => Some(([hand[k]] + rest.0, rest.1))
  }

  /** Pick's first step: a first field that is not a number or names no position fails the whole pick. */
  lemma PickHead(hand: seq<Card>, fields: seq<string>)
    requires fields != []
    requires ParseInt(fields[0]).None? || PyIndex(|hand|, ParseInt(fields[0]).value).None?
    ensures Pick(hand, fields).None?
  {
  }

  /** Pick's first step: after a first field naming position `k`, the pick goes on in what is left. */
  lemma PickNext(hand: seq<Card>, fields: seq<string>, k: nat)
    requires fields != [] && ParseInt(fields[0]).Some? && PyIndex(|hand|, ParseInt(fields[0]).value) == Some(k)
    ensures Pick(hand, fields).Some? <==> Pick(RemoveAt(hand, k), fields[1..]).Some?
    ensures Pick(hand, fields).Some? ==>
      var r := Pick(RemoveAt(hand, k), fields[1..]).value;
      Pick(hand, fields).value == ([hand[k]] + r.0, r.1)
  {
  }

  /** What Pick's first step means for the names and for the list the picked cards go to. */
  lemma PickNames(hand: seq<Card>, fields: seq<string>, k: nat, dest: seq<Card>)
    requires fields != [] && ParseInt(fields[0]).Some? && PyIndex(|hand|, ParseInt(fields[0]).value) == Some(k)
    requires Pick(RemoveAt(hand, k), fields[1..]).Some?
    ensures Pick(hand, fields).Some?
    ensures
      var r := Pick(RemoveAt(hand, k), fields[1..]).value;
      var q := Pick(hand, fields).value;
      q.1 == r.1 && NamesOf(q.0) == [hand[k].name] + NamesOf(r.0) && dest + q.0 == dest + [hand[k]] + r.0
  {
    var r := Pick(RemoveAt(hand, k), fields[1..]).value;
    PickNext(hand, fields, k);
    NamesOfFront(hand[k], r.0);
  }

  /** The names of a list with a card in front. */
  lemma NamesOfFront(c: Card, s: seq<Card>)
    ensures NamesOf([c] + s) == [c.name] + NamesOf(s)
  {
    var lhs, rhs := NamesOf([c] + s), [c.name] + NamesOf(s);
    forall i | 0 <= i < |lhs|
      ensures lhs[i] == rhs[i]
    {
      if i > 0 {
        assert ([c] + s)[i] == s[i - 1];
      }
    }
  }

  /**
   * Fields naming strictly decreasing positions of the hand, as a reversed
   * ascending answer does, are all accepted, and each picks the card that
   * stood at its position in the original hand.
   */
  lemma {:induction false} PickDescending(hand: seq<Card>, fields: seq<string>, ks: seq<nat>)
    requires |ks| == |fields|
    requires forall j :: 0 <= j < |fields| ==> ParseInt(fields[j]) == Some(ks[j] as int) && ks[j] < |hand|
    requires forall j, j' :: 0 <= j < j' < |ks| ==> ks[j] > ks[j']
    ensures Pick(hand, fields).Some?
    ensures forall j :: 0 <= j < |fields| ==> Pick(hand, fields).value.0[j] == hand[ks[j]]
    decreases |fields|
  {
    if fields != [] {
      var k := ks[0];
      var h := RemoveAt(hand, k);
      forall j | 0 <= j < |fields| - 1
        ensures ParseInt(fields[1..][j]) == Some(ks[1..][j] as int) && ks[1..][j] < |h|
      {
        assert ks[j + 1] < k;
      }
      PickDescending(h, fields[1..], ks[1..]);
      PickNext(hand, fields, k);
      var r := Pick(h, fields[1..]).value.0;
      var q := Pick(hand, fields).value.0;
      assert q == [hand[k]] + r;
      forall j | 1 <= j < |fields|
        ensures q[j] == hand[ks[j]]
      {
        assert q[j] == r[j - 1] == h[ks[1..][j - 1]];
        assert ks[1..][j - 1] == ks[j] < k;
      }
    }
  }

  /** Position `k` holds the first card of `s` whose name is in `names`. */
  predicate FirstNamed(s: seq<Card>, names: set<Name>, k: nat)
  {
    k < |s| && s[k].name in names && forall i :: 0 <= i < k ==> s[i].name !in names
  }

  /** There is at most one first card with a name in `names`. */
  lemma FirstNamedUnique(s: seq<Card>, names: set<Name>, j: nat, k: nat)
    requires FirstNamed(s, names, j) && FirstNamed(s, names, k)
    ensures j == k
  {
  }

  /** The position of the first card whose name is in `names`, scanning from the bottom. */
  method FindFirst(s: seq<Card>, names: set<Name>) returns (k: Option<nat>)
    ensures k.Some? ==> k.value < |s| && s[k.value].name in names
    ensures k.Some? ==> forall i :: 0 <= i < k.value ==> s[i].name !in names
    ensures k.None? ==> forall i :: 0 <= i < |s| ==> s[i].name !in names
  {
    var i := 0;
    while i < |s|
      invariant 0 <= i <= |s|
      invariant forall j :: 0 <= j < i ==> s[j].name !in names
    {
      if s[i].name in names {
        return Some(i);
      }
      i := i + 1;
    }
    return None;
  }

  /** Whether some card of the list is an action (Throne Room's check). */
  method AnyAction(s: seq<Card>) returns (found: bool)
    ensures found <==> exists i :: 0 <= i < |s| && s[i].kind == Action
  {
    found := false;
    var i := 0;
    while i < |s|
      invariant 0 <= i <= |s|
      invariant !found
      invariant forall j :: 0 <= j < i ==> s[j].kind != Action
    {
      if s[i].kind == Action {
        return true;
      }
      i := i + 1;
    }
  }

  /**
   * `play_card`'s checks, in their order: an action with no actions left,
   * a victory card and a curse are refused with a message.
   */
  function Refusal(c: Card, actions: int): (r: Option<Note>)
    ensures r.None? <==> c.kind == Treasure || (c.kind == Action && actions != 0)
  {
    if c.kind == Action && actions == 0 then Some(NoActions)
    else if c.kind == Victory then Some(CannotPlayVictory)
    else if c.kind == CardType.Curse then Some(CannotPlayCurse)
    else None
  }

  /** The treasures of a hand, in hand order: what `play_all_treasures` plays. */
  function Treasures(s: seq<Card>): seq<Card>
  {
    if s == [] then []
    else Treasures(s[..|s| - 1]) + (if IsTreasureName(s[|s| - 1].name) then [s[|s| - 1]] else [])
  }

  /** The rest of a hand, in hand order: what `play_all_treasures` leaves. */
  function NonTreasures(s: seq<Card>): seq<Card>
  {
    if s == [] then []
    else NonTreasures(s[..|s| - 1]) + (if IsTreasureName(s[|s| - 1].name) then [] else [s[|s| - 1]])
  }

  /** The gold the treasures of a hand add. */
  function CoinsOf(s: seq<Card>): nat
  {
    if s == [] then 0 else CoinsOf(s[..|s| - 1]) + Coins(s[|s| - 1])
  }

  /** The messages announcing that player `a` played the cards of `s`, in order. */
  function PlayedLog(a: nat, s: seq<Card>): (r: seq<Event>)
    ensures |r| == |s| && forall i :: 0 <= i < |s| ==> r[i] == Public(a, Played(s[i].name))
  {
    if s == [] then [] else PlayedLog(a, s[..|s| - 1]) + [Public(a, Played(s[|s| - 1].name))]
  }

  /** The holding after the treasure at position `k` of the hand was played: it moved to the top of the cards in play, the action phase ended and its gold was added. */
  function AfterTreasure(s: Holding, k: nat): (r: Holding)
    requires k < |s.hand|
    ensures multiset(r.hand) + multiset(r.inPlay) == multiset(s.hand) + multiset(s.inPlay)
    ensures r.gold == s.gold + Coins(s.hand[k]) && r.actions == 0
  {
    var c := s.hand[k];
    s.(hand := RemoveAt(s.hand, k), inPlay := s.inPlay + [c], actions := 0, gold := s.gold + Coins(c))
  }

  /**
   * The holding `play_all_treasures` has reached from `s` once it looked at
   * the first `j` cards of the hand: their treasures are in play, in order,
   * the rest of them and the unread cards are the hand.
   */
  ghost function TreasuresSoFar(s: Holding, j: nat): Holding
    requires j <= |s.hand|
  {
    var done := s.hand[..j];
    s.(hand := NonTreasures(done) + s.hand[j..], inPlay := s.inPlay + Treasures(done),
       gold := s.gold + CoinsOf(done), actions := if Treasures(done) == [] then s.actions else 0)
  }

  /** Playing the next card, a treasure, of `play_all_treasures`' walk moves it one card on. */
  lemma TreasureTurn(a: nat, s: Holding, j: nat)
    requires j < |s.hand| && IsTreasureName(s.hand[j].name)
    ensures NonTreasures(s.hand[..j + 1]) == NonTreasures(s.hand[..j]) && |NonTreasures(s.hand[..j])| < |TreasuresSoFar(s, j).hand|
    ensures TreasuresSoFar(s, j).hand[|NonTreasures(s.hand[..j])|] == s.hand[j]
    ensures AfterTreasure(TreasuresSoFar(s, j), |NonTreasures(s.hand[..j])|) == TreasuresSoFar(s, j + 1)
    ensures PlayedLog(a, Treasures(s.hand[..j + 1])) ==
      PlayedLog(a, Treasures(s.hand[..j])) + [Public(a, Played(s.hand[j].name))]
  {
    var h := s.hand;
    SplitStep(h, j);
    assert h[j..] == [h[j]] + h[j + 1..];
    RemoveAfter(NonTreasures(h[..j]), h[j..]);
    var t := Treasures(h[..j]) + [h[j]];
    assert t[..|t| - 1] == Treasures(h[..j]);
    assert (s.inPlay + Treasures(h[..j])) + [h[j]] == s.inPlay + t;
  }

  /** Playing the next treasure of the walk moves from the holding after `j` cards to the one after `j + 1`. */
  lemma TreasureAdvance(a: nat, s: Holding, j: nat, before: Holding, after: Holding,
                        log0: seq<Event>, log1: seq<Event>, log2: seq<Event>)
    requires j < |s.hand| && IsTreasureName(s.hand[j].name) && before == TreasuresSoFar(s, j)
    requires |NonTreasures(s.hand[..j])| < |before.hand|
    requires after == AfterTreasure(before, |NonTreasures(s.hand[..j])|)
    requires log2 == log1 + [Public(a, Played(before.hand[|NonTreasures(s.hand[..j])|].name))]
    ensures after == TreasuresSoFar(s, j + 1)
    ensures |NonTreasures(s.hand[..j])| == |NonTreasures(s.hand[..j + 1])| && Treasures(s.hand[..j + 1]) != []
    ensures log1 == log0 + PlayedLog(a, Treasures(s.hand[..j])) ==>
      log2 == log0 + PlayedLog(a, Treasures(s.hand[..j + 1]))
  {
    TreasureTurn(a, s, j);
    AppendAssoc(log0, PlayedLog(a, Treasures(s.hand[..j])), [Public(a, Played(s.hand[j].name))]);
  }

  lemma AppendAssoc(x: seq<Event>, y: seq<Event>, z: seq<Event>)
    ensures (x + y) + z == x + (y + z)
  {
  }

  /** Once `play_all_treasures` has looked at the whole hand, the treasures are in play and the rest is the hand; no card was lost. */
  lemma WalkDone(s: Holding)
    ensures var r := TreasuresSoFar(s, |s.hand|);
      r.hand == NonTreasures(s.hand) && r.inPlay == s.inPlay + Treasures(s.hand) &&
      r.gold == s.gold + CoinsOf(s.hand) && r.actions == (if Treasures(s.hand) == [] then s.actions else 0) &&
      r.deck == s.deck && r.discard == s.discard && r.buys == s.buys &&
      multiset(r.deck) + multiset(r.hand) + multiset(r.discard) + multiset(r.inPlay) ==
      multiset(s.deck) + multiset(s.hand) + multiset(s.discard) + multiset(s.inPlay)
  {
    var h := s.hand;
    assert h[..|h|] == h;
    assert h[|h|..] == [];
    TreasureSplit(h);
  }

  /** The card the walk looks at after `j` cards of the hand is the hand's card `j`. */
  lemma SplitAt(s: Holding, j: nat)
    requires j < |s.hand|
    ensures |NonTreasures(s.hand[..j])| < |TreasuresSoFar(s, j).hand|
    ensures TreasuresSoFar(s, j).hand[|NonTreasures(s.hand[..j])|] == s.hand[j]
  {
    assert s.hand[j..][0] == s.hand[j];
  }

  /** Skipping the next card, not a treasure, of `play_all_treasures`' walk moves it one card on. */
  lemma PassTurn(s: Holding, j: nat)
    requires j < |s.hand| && !IsTreasureName(s.hand[j].name)
    ensures |NonTreasures(s.hand[..j + 1])| == |NonTreasures(s.hand[..j])| + 1
    ensures TreasuresSoFar(s, j + 1) == TreasuresSoFar(s, j)
    ensures Treasures(s.hand[..j + 1]) == Treasures(s.hand[..j])
  {
    SkipStep(s.hand, j);
  }

  /** Taking one more card of a hand into account extends the treasures or the rest by that card. */
  lemma SplitStep(h: seq<Card>, j: nat)
    requires j < |h|
    ensures IsTreasureName(h[j].name) ==>
      Treasures(h[..j + 1]) == Treasures(h[..j]) + [h[j]] && NonTreasures(h[..j + 1]) == NonTreasures(h[..j])
    ensures !IsTreasureName(h[j].name) ==>
      Treasures(h[..j + 1]) == Treasures(h[..j]) && NonTreasures(h[..j + 1]) == NonTreasures(h[..j]) + [h[j]]
    ensures CoinsOf(h[..j + 1]) == CoinsOf(h[..j]) + Coins(h[j])
  {
    assert h[..j + 1][..j] == h[..j];
  }

  /** A card that is not a treasure stays in the hand and adds nothing to what was played. */
  lemma SkipStep(h: seq<Card>, j: nat)
    requires j < |h| && !IsTreasureName(h[j].name)
    ensures NonTreasures(h[..j + 1]) + h[j + 1..] == NonTreasures(h[..j]) + h[j..]
    ensures |NonTreasures(h[..j + 1])| == |NonTreasures(h[..j])| + 1
    ensures Treasures(h[..j + 1]) == Treasures(h[..j]) && CoinsOf(h[..j + 1]) == CoinsOf(h[..j])
  {
    SplitStep(h, j);
    assert h[j..] == [h[j]] + h[j + 1..];
  }

  /** Removing the first card after a prefix leaves the prefix and the rest. */
  lemma RemoveAfter(x: seq<Card>, y: seq<Card>)
    requires y != []
    ensures RemoveAt(x + y, |x|) == x + y[1..]
  {
  }

  /** Splitting a hand into its treasures and the rest loses no card. */
  lemma {:induction false} TreasureSplit(s: seq<Card>)
    ensures multiset(Treasures(s)) + multiset(NonTreasures(s)) == multiset(s)
  {
    if s != [] {
      var n := |s| - 1;
      TreasureSplit(s[..n]);
      assert s == s[..n] + [s[n]];
      var t, r := multiset(Treasures(s[..n])), multiset(NonTreasures(s[..n]));
      if IsTreasureName(s[n].name) {
        assert multiset(Treasures(s)) == t + multiset{s[n]} && multiset(NonTreasures(s)) == r;
      } else {
        assert multiset(NonTreasures(s)) == r + multiset{s[n]} && multiset(Treasures(s)) == t;
      }
    }
  }

  /** The treasures of a hand are treasures, and the rest holds none. */
  lemma {:induction false} TreasureKinds(s: seq<Card>)
    ensures forall i :: 0 <= i < |NonTreasures(s)| ==> !IsTreasureName(NonTreasures(s)[i].name)
    ensures forall i :: 0 <= i < |Treasures(s)| ==> IsTreasureName(Treasures(s)[i].name)
  {
    if s != [] {
      TreasureKinds(s[..|s| - 1]);
    }
  }

  /** Only treasures add gold: the rest of a hand is worth nothing. */
  lemma {:induction false} CoinsOfTreasures(s: seq<Card>)
    ensures CoinsOf(s) == CoinsOf(Treasures(s))
    ensures CoinsOf(NonTreasures(s)) == 0
  {
    if s != [] {
      var n := |s| - 1;
      CoinsOfTreasures(s[..n]);
      CoinsAppend(Treasures(s[..n]), if IsTreasureName(s[n].name) then [s[n]] else []);
      CoinsAppend(NonTreasures(s[..n]), if IsTreasureName(s[n].name) then [] else [s[n]]);
    }
  }

  lemma {:induction false} CoinsAppend(s: seq<Card>, t: seq<Card>)
    ensures CoinsOf(s + t) == CoinsOf(s) + CoinsOf(t)
  {
    if t != [] {
      var n := |t| - 1;
      assert (s + t)[..|s| + n] == s + t[..n];
      CoinsAppend(s, t[..n]);
    } else {
      assert s + t == s;
    }
  }

  /**
   * `buy_card`'s checks after the pile is found, in their order: an empty
   * pile, then a card the player cannot afford.
   */
  function BuyRefusal(pile: seq<Card>, gold: int): (r: Option<Note>)
    ensures r.None? <==> CanBuy(pile, gold)
    ensures r == Some(SupplyPileEmpty) <==> pile == []
  {
    if pile == [] then Some(SupplyPileEmpty)
    else if Top(pile).cost > gold then Some(CannotAfford)
    else None
  }

  /**
   * `gain_card`'s checks, in their order: an empty pile, a type the effect
   * may not gain, then a card above the budget.
   */
  function GainRefusal(pile: seq<Card>, allowed: set<CardType>, budget: int): (r: Option<Note>)
    ensures r.None? <==> CanGain(pile, allowed, budget)
    ensures r == Some(GainPileEmpty) <==> pile == []
    ensures r == Some(WrongType) <==> pile != [] && Top(pile).kind !in allowed
  {
    if pile == [] then Some(GainPileEmpty)
    else if Top(pile).kind !in allowed then Some(WrongType)
    else if Top(pile).cost > budget then Some(TooCostly(budget))
    else None
  }

  /** One message per card a player revealed, in order. */
  function Reveals(p: nat, names: seq<Name>): (r: seq<Event>)
    ensures |r| == |names| && forall i :: 0 <= i < |names| ==> r[i] == Public(p, Revealed([names[i]]))
  {
    if names == [] then [] else Reveals(p, names[..|names| - 1]) + [Public(p, Revealed([names[|names| - 1]]))]
  }

  /** Player `p` is called `name` and holds the starting cards: five in the hand, five in the deck. */
  ghost predicate Dealt(p: Player, name: string)
    reads p
  {
    p.name == name && p.Owned() == StartingCards() &&
    |p.hand| == 5 && |p.deck| == 5 && p.discard == [] && p.inPlay == []
  }

  /**
   * A new player per name, in order: the players `__init__` seats; the
   * first of them then starts the first turn.
   */
  method SeatPlayers(names: seq<string>) returns (ps: seq<Player>)
    requires names != []
    ensures |ps| == |names| && Seated(ps)
    ensures forall k :: 0 <= k < |ps| ==> fresh(ps[k]) && Dealt(ps[k], names[k])
    ensures forall k :: 1 <= k < |ps| ==> ps[k].actions == 0 && ps[k].gold == 0 && ps[k].buys == 0
    ensures ps[0].actions == 1 && ps[0].gold == 0 && ps[0].buys == 1
  {
    ps := [];
    var i := 0;
    while i < |names|
      invariant 0 <= i <= |names| && |ps| == i && Seated(ps)
      invariant forall k :: 0 <= k < i ==>
        fresh(ps[k]) && Dealt(ps[k], names[k]) && ps[k].actions == 0 && ps[k].gold == 0 && ps[k].buys == 0
    {
      var p := new Player(names[i]);
      ps := ps + [p];
      i := i + 1;
    }
    ps[0].StartTurn();
  }

  class Game {
    const players: seq<Player>
    /** The ten kingdom cards chosen at setup. */
    ghost const kingdom: seq<Card>
    /** Slots 0-2 treasures, 3-5 victory cards, 6-15 the kingdom, 16 curses. */
    var piles: seq<seq<Card>>
    var trash: seq<Card>
    var log: seq<Event>
    /** The suspended card effects, innermost last. */
    var stack: seq<Frame>
    var current: nat
    var phase: Phase

    /**
     * `__init__` with the start of `game_loop`: a player per name, in
     * seating order, each with the starting cards shuffled and five of them
     * drawn; the supply for that many players with ten kingdom cards drawn
     * at random; an empty trash; and the first player's turn begun.
     */
    constructor (names: seq<string>)
      requires PlayerCount(|names|)
      ensures Valid() && Ready() && Turning()
      ensures |players| == |names|
      ensures forall i :: 0 <= i < |names| ==> Dealt(players[i], names[i])
      ensures forall i :: 1 <= i < |names| ==> players[i].actions == 0 && players[i].gold == 0 && players[i].buys == 0
      ensures players[0].actions == 1 && players[0].gold == 0 && players[0].buys == 1
      ensures IsKingdom(kingdom) && piles == SetupPiles(|names|, kingdom) && !GameOver(piles)
      ensures trash == [] && stack == [] && current == 0 && phase == Running
      ensures log == [Started(names), Turn(0)]
    {
      var ps := SeatPlayers(names);
      var chosen, supply := SetUp(|names|);
      players := ps;
      kingdom := chosen;
      piles := supply;
      trash, stack, current, phase := [], [], 0, Running;
      log := [Started(names), Turn(0)];
    }

    ghost predicate Valid()
      reads this
    {
      2 <= |players| <= 4 && Seated(players) &&
      |piles| == SlotCount && current < |players| &&
      StackOk(stack, |players|)
    }

    /** Between messages nothing waits on a Throne Room alone. */
    predicate Ready()
      reads this
    {
      phase != Running || Settled(stack)
    }

    /** The stack can take a new effect: it is empty or its top waits on an inner effect. */
    predicate Open()
      reads this
    {
      stack == [] || Waiting(stack[|stack| - 1])
    }

    /** Every card in the game: owned by a player, in the supply, in the trash or held by an effect. */
    ghost function Total(): multiset<Card>
      reads this, players
    {
      Stock(|players|)
    }

    /**
     * `OwnedBy(players) + Outside()`, reached by counting `k` down to zero.
     * The count is a device for the verifier, not part of the game: it
     * keeps the total from being expanded except where a proof asks for it
     * (StockIs, OldStockIs) rather than at every step of every method.
     */
    ghost function Stock(k: nat): multiset<Card>
      reads this, players
    {
      if k == 0 then OwnedBy(players) + Outside() else Stock(k - 1)
    }

    lemma {:induction false} StockIs(k: nat)
      ensures Stock(k) == OwnedBy(players) + Outside()
    {
      if k > 0 {
        StockIs(k - 1);
      }
    }

    twostate lemma {:induction false} OldStockIs(k: nat)
      ensures old(Stock(k)) == old(OwnedBy(players) + Outside())
    {
      if k > 0 {
        OldStockIs(k - 1);
      }
    }

    /** The cards no player owns: the supply, the trash and the cards effects hold. */
    ghost function Outside(): multiset<Card>
      reads this
    {
      InPiles(piles) + multiset(trash) + HeldBy(stack)
    }

    /** When only player `k` changed, the cards of all players change by that player's difference. */
    twostate lemma OwnedByStep(k: nat)
      requires k < |players|
      requires forall i :: 0 <= i < |players| && i != k ==> unchanged(players[i])
      ensures OwnedBy(players) + old(players[k].Owned()) == old(OwnedBy(players)) + players[k].Owned()
    {
      SumReplace(old(Holdings(players)), Holdings(players), k);
    }

    /** When only player `p` changed, the game's cards change by that player's difference. */
    twostate lemma PlayerStep(p: nat)
      requires old(Valid()) && p < |players| && unchanged(this)
      requires forall i :: 0 <= i < |players| && i != p ==> unchanged(players[i])
      ensures Total() + old(players[p].Owned()) == old(Total()) + players[p].Owned()
    {
      StockIs(|players|);
      OldStockIs(|players|);
      OwnedByStep(p);
      Rebalance(OwnedBy(players), old(OwnedBy(players)), players[p].Owned(), old(players[p].Owned()), Outside());
    }

    /** When no player changed, the game's cards change by what changed outside the players. */
    twostate lemma OutsideGrew(d: multiset<Card>)
      requires forall i :: 0 <= i < |players| ==> unchanged(players[i])
      requires old(Outside()) + d == Outside()
      ensures Total() == old(Total()) + d
    {
      StockIs(|players|);
      OldStockIs(|players|);
      OwnedByUnchanged(players);
      LiftLeft(OwnedBy(players), old(Outside()), Outside(), d);
    }

    twostate lemma OutsideShrank(d: multiset<Card>)
      requires forall i :: 0 <= i < |players| ==> unchanged(players[i])
      requires Outside() + d == old(Outside())
      ensures Total() + d == old(Total())
    {
      StockIs(|players|);
      OldStockIs(|players|);
      OwnedByUnchanged(players);
      LiftLeft(OwnedBy(players), Outside(), old(Outside()), d);
    }

    /** When only player `p` changed and kept the same cards, the game has the same cards. */
    twostate lemma PlayerKept(p: nat)
      requires old(Valid()) && p < |players| && unchanged(this)
      requires forall i :: 0 <= i < |players| && i != p ==> unchanged(players[i])
      requires players[p].Owned() == old(players[p].Owned())
      ensures Total() == old(Total())
    {
      PlayerStep(p);
      Grown(Total(), old(Total()), players[p].Owned(), old(players[p].Owned()), multiset{});
    }

    /** When only player `p` changed, the same cards, and nothing outside the players changed, the game has the same cards. */
    twostate lemma SameCards(p: nat)
      requires old(Valid()) && p < |players| && Outside() == old(Outside())
      requires forall i :: 0 <= i < |players| && i != p ==> unchanged(players[i])
      requires players[p].Owned() == old(players[p].Owned())
      ensures Total() == old(Total())
    {
      StockIs(|players|);
      OldStockIs(|players|);
      OwnedByStep(p);
      Grown(OwnedBy(players), old(OwnedBy(players)), players[p].Owned(), old(players[p].Owned()), multiset{});
      assert OwnedBy(players) == old(OwnedBy(players));
    }

    /** Either the stack is as it was, or one frame that waits for an answer was pushed on it. */
    twostate predicate Pushed()
      reads this
    {
      stack == old(stack) ||
      (|stack| == |old(stack)| + 1 && stack[..|old(stack)|] == old(stack) &&
       !Waiting(stack[|stack| - 1]))
    }

    /** No player other than `a` changed. */
    twostate predicate Others(a: nat)
      reads this, players
    {
      forall i :: 0 <= i < |players| && i != a ==> unchanged(players[i])
    }

    /** No player other than `a` changed, so every other player owns the same cards. */
    twostate lemma OthersOwned(a: nat)
      requires Others(a)
      ensures forall i :: 0 <= i < |players| && i != a ==> players[i].Owned() == old(players[i].Owned())
    {
    }

    /** Every player's hand, by seat. */
    function Hands(): (r: seq<seq<Card>>)
      reads players
      ensures |r| == |players| && forall p :: 0 <= p < |players| ==> r[p] == players[p].hand
    {
      seq(|players|, p requires 0 <= p < |players| reads players => players[p].hand)
    }

    /** `__len__`: the number of non-empty supply piles. */
    function Length(): (n: nat)
      requires Valid()
      reads this
      ensures n + |EmptySlots(piles)| == SlotCount
    {
      CountSplit(piles);
      NonEmptyCount(piles)
    }

    /** A Python exception ends the game's generator; what was done before stays done. */
    method Halt()
      requires Valid()
      modifies this
      ensures phase == Halted
      ensures piles == old(piles) && trash == old(trash) && log == old(log)
      ensures stack == old(stack) && current == old(current)
      ensures Valid() && Total() == old(Total())
    {
      phase := Halted;
      OutsideGrew(multiset{});
    }

    /** Appends a message. */
    method Say(e: Event)
      requires Valid()
      modifies this
      ensures log == old(log) + [e]
      ensures piles == old(piles) && trash == old(trash) && stack == old(stack)
      ensures current == old(current) && phase == old(phase)
      ensures Valid() && Total() == old(Total())
    {
      log := log + [e];
      OutsideGrew(multiset{});
    }

    /** Suspends the running effect: at a point that waits for an answer, or a Throne Room around an inner effect. */
    method Push(f: Frame)
      requires Valid() && Open() && FrameOk(f, |players|)
      modifies this
      ensures stack == old(stack) + [f]
      ensures piles == old(piles) && trash == old(trash) && log == old(log)
      ensures current == old(current) && phase == old(phase)
      ensures Valid() && Total() == old(Total()) + Held(f)
    {
      ghost var out, h0 := Outside(), HeldBy(stack);
      PushOk(stack, f, |players|);
      PushHeld(stack, f);
      stack := stack + [f];
      assert Outside() == out + Held(f) by {
        LiftLeft(InPiles(piles) + multiset(trash), h0, HeldBy(stack), Held(f));
      }
      OutsideGrew(Held(f));
    }

    /** Resumes the innermost suspended effect: its frame leaves the stack with the cards it holds. */
    method PopFrame() returns (f: Frame)
      requires Valid() && stack != []
      modifies this
      ensures f == old(stack)[|old(stack)| - 1] && stack == old(stack)[..|old(stack)| - 1]
      ensures piles == old(piles) && trash == old(trash) && log == old(log)
      ensures current == old(current) && phase == old(phase)
      ensures Valid() && Open() && Total() + Held(f) == old(Total())
    {
      ghost var out, h0 := Outside(), HeldBy(stack);
      f := stack[|stack| - 1];
      PopOk(stack, |players|);
      stack := stack[..|stack| - 1];
      assert Outside() + Held(f) == out by {
        LiftLeft(InPiles(piles) + multiset(trash), HeldBy(stack), h0, Held(f));
      }
      OutsideShrank(Held(f));
    }

    /** `remove_card`: pops one card of a player's list (the top by default). */
    method Take(p: nat, id: PileId, idx: int := -1) returns (c: Option<Card>)
      requires Valid() && p < |players|
      modifies players[p]
      ensures c.Some? <==> PyIndex(|old(players[p].Pile(id))|, idx).Some?
      ensures c.Some? ==>
        var k := PyIndex(|old(players[p].Pile(id))|, idx).value;
        c.value == old(players[p].Pile(id))[k] && players[p].Pile(id) == RemoveAt(old(players[p].Pile(id)), k)
      ensures idx == -1 && old(players[p].Pile(id)) != [] ==>
        c == Some(Top(old(players[p].Pile(id)))) && players[p].Pile(id) == Pop(old(players[p].Pile(id)))
      ensures c.None? ==> players[p].Pile(id) == old(players[p].Pile(id))
      ensures players[p].Kept(id, id) && players[p].SameCounters()
      ensures c.Some? ==> Total() + multiset{c.value} == old(Total())
      ensures c.Some? ==> players[p].Owned() + multiset{c.value} == old(players[p].Owned())
      ensures c.None? ==> Total() == old(Total())
    {
      c := players[p].RemoveCard(id, idx);
      PlayerStep(p);
      Shrunk(Total(), old(Total()), players[p].Owned(), old(players[p].Owned()),
        if c.Some? then multiset{c.value} else multiset{});
    }

    /** `add_cards`: puts cards on top of a player's list, in order. */
    method Give(p: nat, id: PileId, cs: seq<Card>)
      requires Valid() && p < |players|
      modifies players[p]
      ensures players[p].Pile(id) == old(players[p].Pile(id)) + cs
      ensures players[p].Kept(id, id) && players[p].SameCounters()
      ensures Total() == old(Total()) + multiset(cs)
      ensures players[p].Owned() == old(players[p].Owned()) + multiset(cs)
    {
      players[p].AddCards(id, cs);
      PlayerStep(p);
      Grown(Total(), old(Total()), players[p].Owned(), old(players[p].Owned()), multiset(cs));
    }

    /** `transfer_cards`: moves a whole list of a player onto another. */
    method Transfer(p: nat, from: PileId, to: PileId)
      requires Valid() && p < |players| && from != to
      modifies players[p]
      ensures players[p].Pile(to) == old(players[p].Pile(to)) + old(players[p].Pile(from))
      ensures players[p].Pile(from) == []
      ensures players[p].Kept(from, to) && players[p].SameCounters()
      ensures Total() == old(Total())
    {
      players[p].TransferCards(from, to);
      PlayerKept(p);
    }

    /** A deck that ran out is refilled from the discard pile and shuffled. */
    method Refill(p: nat)
      requires Valid() && p < |players|
      requires players[p].deck == [] && players[p].discard != []
      modifies players[p]
      ensures multiset(players[p].deck) == multiset(old(players[p].discard))
      ensures players[p].deck != [] && players[p].discard == []
      ensures players[p].hand == old(players[p].hand) && players[p].inPlay == old(players[p].inPlay)
      ensures players[p].SameCounters()
      ensures Total() == old(Total())
    {
      players[p].TransferCards(Discard, Deck);
      players[p].Shuffle();
      PlayerKept(p);
    }

    /** `draw_card` called `k` times. */
    method Draw(p: nat, k: nat)
      requires Valid() && p < |players|
      modifies players[p]
      ensures |players[p].hand| ==
        |old(players[p].hand)| + Min(k, |old(players[p].deck)| + |old(players[p].discard)|)
      ensures players[p].hand[..|old(players[p].hand)|] == old(players[p].hand)
      ensures k <= |old(players[p].deck)| ==>
        var h0, d := |old(players[p].hand)|, old(players[p].deck);
        players[p].deck == d[..|d| - k] && players[p].discard == old(players[p].discard) &&
        forall j :: h0 <= j < h0 + k ==> players[p].hand[j] == d[|d| + h0 - 1 - j]
      ensures players[p].inPlay == old(players[p].inPlay) && players[p].SameCounters()
      ensures players[p].Owned() == old(players[p].Owned())
      ensures Total() == old(Total())
    {
      players[p].DrawCards(k);
      PlayerKept(p);
    }

    /** Adds to a player's action, gold and buy counters. */
    method Bump(p: nat, actions: int, gold: int, buys: int)
      requires Valid() && p < |players|
      modifies players[p]
      ensures players[p].actions == old(players[p].actions) + actions
      ensures players[p].gold == old(players[p].gold) + gold
      ensures players[p].buys == old(players[p].buys) + buys
      ensures players[p].Kept(Deck, Deck) && players[p].deck == old(players[p].deck)
      ensures Total() == old(Total())
    {
      var pl := players[p];
      pl.actions, pl.gold, pl.buys := pl.actions + actions, pl.gold + gold, pl.buys + buys;
      PlayerKept(p);
    }

    /** Sets a player's action, gold and buy counters. */
    method SetCounters(p: nat, actions: int, gold: int, buys: int)
      requires Valid() && p < |players|
      modifies players[p]
      ensures players[p].actions == actions && players[p].gold == gold && players[p].buys == buys
      ensures players[p].Kept(Deck, Deck) && players[p].deck == old(players[p].deck)
      ensures Total() == old(Total())
    {
      var pl := players[p];
      pl.actions, pl.gold, pl.buys := actions, gold, buys;
      PlayerKept(p);
    }

    /** Puts a card on top of the trash. */
    method PutTrash(v: Card)
      requires Valid()
      modifies this
      ensures trash == old(trash) + [v]
      ensures piles == old(piles) && log == old(log) && stack == old(stack)
      ensures current == old(current) && phase == old(phase)
      ensures Valid() && Total() == old(Total()) + multiset{v}
    {
      ghost var out, t0 := Outside(), multiset(trash);
      trash := trash + [v];
      assert Outside() == out + multiset{v} by {
        LiftMid(InPiles(piles), t0, multiset(trash), multiset{v}, HeldBy(stack));
      }
      OutsideGrew(multiset{v});
    }

    /** Takes the top card off the trash. */
    method PopTrash() returns (v: Card)
      requires Valid() && trash != []
      modifies this
      ensures v == Top(old(trash)) && trash == Pop(old(trash))
      ensures piles == old(piles) && log == old(log) && stack == old(stack)
      ensures current == old(current) && phase == old(phase)
      ensures Valid() && Total() + multiset{v} == old(Total())
    {
      v := Top(trash);
      PopMiddle(InPiles(piles), trash, HeldBy(stack));
      trash := Pop(trash);
      OutsideShrank(multiset{v});
    }

    /** Takes the top card off a supply pile. */
    method PopSupply(slot: nat) returns (v: Card)
      requires Valid() && slot < SlotCount && piles[slot] != []
      modifies this
      ensures v == Top(old(piles[slot])) && piles == old(piles)[slot := Pop(old(piles[slot]))]
      ensures trash == old(trash) && log == old(log) && stack == old(stack)
      ensures current == old(current) && phase == old(phase)
      ensures Valid() && Total() + multiset{v} == old(Total())
    {
      v := Top(piles[slot]);
      ghost var out, p0 := Outside(), piles;
      piles := piles[slot := Pop(piles[slot])];
      assert Outside() + multiset{v} == out by {
        InPilesPop(p0, slot);
        Lift(InPiles(piles), InPiles(p0), multiset{v}, multiset(trash), HeldBy(stack));
      }
      OutsideShrank(multiset{v});
    }

    /** Moves the top card of a supply pile onto a player's list. */
    method FromSupply(p: nat, slot: nat, id: PileId) returns (c: Card)
      requires Valid() && p < |players| && slot < SlotCount && piles[slot] != []
      modifies this, players[p]
      ensures c == Top(old(piles[slot]))
      ensures piles == old(piles)[slot := Pop(old(piles[slot]))]
      ensures players[p].Pile(id) == old(players[p].Pile(id)) + [c]
      ensures players[p].Kept(id, id) && players[p].SameCounters()
      ensures trash == old(trash) && log == old(log) && stack == old(stack)
      ensures current == old(current) && phase == old(phase)
      ensures Valid() && Total() == old(Total())
    {
      c := PopSupply(slot);
      Give(p, id, [c]);
    }

    /** Moves a card of a player's list to the top of the trash; None (and no move) when out of range. */
    method ToTrash(p: nat, id: PileId, idx: int := -1) returns (c: Option<Card>)
      requires Valid() && p < |players|
      modifies this, players[p]
      ensures c.Some? <==> PyIndex(|old(players[p].Pile(id))|, idx).Some?
      ensures c.Some? ==>
        var k := PyIndex(|old(players[p].Pile(id))|, idx).value;
        c.value == old(players[p].Pile(id))[k] && players[p].Pile(id) == RemoveAt(old(players[p].Pile(id)), k) &&
        trash == old(trash) + [c.value]
      ensures c.None? ==> players[p].Pile(id) == old(players[p].Pile(id)) && trash == old(trash)
      ensures players[p].Kept(id, id) && players[p].SameCounters()
      ensures piles == old(piles) && log == old(log) && stack == old(stack)
      ensures current == old(current) && phase == old(phase)
      ensures Valid() && Total() == old(Total())
    {
      c := Take(p, id, idx);
      if c.Some? {
        PutTrash(c.value);
      }
    }

    /** Moves the top card of the trash onto a player's list; None (and no move) when the trash is empty. */
    method FromTrash(p: nat, id: PileId) returns (c: Option<Card>)
      requires Valid() && p < |players|
      modifies this, players[p]
      ensures c.Some? <==> old(trash) != []
      ensures c.Some? ==>
        c.value == Top(old(trash)) && trash == Pop(old(trash)) &&
        players[p].Pile(id) == old(players[p].Pile(id)) + [c.value]
      ensures c.None? ==> players[p].Pile(id) == old(players[p].Pile(id)) && trash == old(trash)
      ensures players[p].Kept(id, id) && players[p].SameCounters()
      ensures piles == old(piles) && log == old(log) && stack == old(stack)
      ensures current == old(current) && phase == old(phase)
      ensures Valid() && Total() == old(Total())
    {
      if trash == [] {
        return None;
      }
      var v := PopTrash();
      Give(p, id, [v]);
      c := Some(v);
    }

    /** `play_treasure`: the treasure just put in play ends the action phase and adds its gold. */
    method PlayTreasure(a: nat)
      requires Valid() && a < |players| && players[a].inPlay != []
      modifies this, players[a]
      ensures players[a].actions == 0 && players[a].buys == old(players[a].buys)
      ensures players[a].gold == old(players[a].gold) + Coins(Top(old(players[a].inPlay)))
      ensures log == old(log) + [Public(a, Played(Top(old(players[a].inPlay)).name))]
      ensures players[a].Kept(Deck, Deck) && players[a].deck == old(players[a].deck)
      ensures piles == old(piles) && trash == old(trash) && stack == old(stack)
      ensures current == old(current) && phase == old(phase)
      ensures Valid() && Total() == old(Total())
    {
      var c := Top(players[a].inPlay);
      SetCounters(a, 0, players[a].gold + Coins(c), players[a].buys);
      Say(Public(a, Played(c.name)));
    }

    /** The card at a Python index of player `a`'s hand, if there is one. */
    function HandCard(a: nat, idx: int): (r: Option<Card>)
      requires a < |players|
      reads this, players[a]
      ensures r.Some? <==> PyIndex(|players[a].hand|, idx).Some?
      ensures r.Some? ==> r.value in players[a].hand
    {
      match PyIndex(|players[a].hand|, idx)
      case None => None
      case Some(k) => Some(players[a].hand[k])
    }

    /** Moves the card at position `k` of player `a`'s hand to the top of the cards in play. */
    method MoveToPlay(a: nat, k: nat)
      requires Valid() && a < |players| && k < |players[a].hand|
      modifies players[a]
      ensures players[a].hand == RemoveAt(old(players[a].hand), k)
      ensures players[a].inPlay == old(players[a].inPlay) + [old(players[a].hand)[k]]
      ensures players[a].Kept(Hand, InPlay) && players[a].SameCounters()
      ensures Total() == old(Total()) && players[a].Owned() == old(players[a].Owned())
    {
      var c := Take(a, Hand, k);
      Give(a, InPlay, [c.value]);
    }

    /**
     * Player `a` played the treasure at position `k` of the hand: it moved
     * to the top of the cards in play, the action phase ended, its gold was
     * added and the play was announced.
     */
    twostate predicate TreasurePlayed(a: nat, k: nat)
      requires a < |players| && k < |old(players[a].hand)|
      reads this, players[a]
    {
      var c := old(players[a].hand)[k];
      players[a].hand == RemoveAt(old(players[a].hand), k) &&
      players[a].inPlay == old(players[a].inPlay) + [c] &&
      players[a].deck == old(players[a].deck) && players[a].discard == old(players[a].discard) &&
      players[a].actions == 0 && players[a].gold == old(players[a].gold) + Coins(c) &&
      players[a].buys == old(players[a].buys) &&
      log == old(log) + [Public(a, Played(c.name))]
    }

    /** Plays the treasure at position `k` of player `a`'s hand. */
    method PlayTreasureAt(a: nat, k: nat)
      requires Valid() && a < |players| && k < |players[a].hand|
      modifies this, players[a]
      ensures TreasurePlayed(a, k)
      ensures players[a].State() == AfterTreasure(old(players[a].State()), k)
      ensures piles == old(piles) && trash == old(trash) && stack == old(stack)
      ensures current == old(current) && phase == old(phase)
      ensures Valid() && Total() == old(Total())
    {
      MoveToPlay(a, k);
      PlayTreasure(a);
    }

    /**
     * `play_card`: plays the card at a Python index of player `a`'s hand.
     * A position outside the hand raises; an action without actions left, a
     * victory card or a curse is refused with a private error and nothing
     * else changes; a treasure moves to the cards in play and adds its gold;
     * an action moves there, uses up an action and runs its effect.
     */
    method PlayCard(a: nat, idx: int)
      requires Valid() && Ready() && a < |players| && phase == Running
      requires stack == [] || TreasureAt(a, idx)
      modifies this, players
      ensures Valid() && Ready() && Total() == old(Total()) && current == old(current)
      ensures old(stack) != [] ==> stack == old(stack)
      ensures old(HandCard(a, idx)).None? ==>
        phase == Halted && unchanged(players) && log == old(log) && piles == old(piles) && trash == old(trash)
      ensures old(HandCard(a, idx)).Some? && Refusal(old(HandCard(a, idx)).value, old(players[a].actions)).Some? ==>
        phase == Running && unchanged(players) && piles == old(piles) && trash == old(trash) &&
        log == old(log) + [Private(a, Refusal(old(HandCard(a, idx)).value, old(players[a].actions)).value)]
      ensures old(HandCard(a, idx)).Some? && old(HandCard(a, idx)).value.kind == Treasure ==>
        phase == Running && Others(a) && piles == old(piles) && trash == old(trash) &&
        TreasurePlayed(a, PyIndex(|old(players[a].hand)|, idx).value)
    {
      var k := PyIndex(|players[a].hand|, idx);
      if k.None? {
        Halt();
        return;
      }
      var c := players[a].hand[k.value];
      var refused := Refusal(c, players[a].actions);
      if refused.Some? {
        Say(Private(a, refused.value));
        return;
      }
      if c.kind == Treasure {
        PlayTreasureAt(a, k.value);
      } else {
        StartAction(a, k.value);
        PlayAction(a);
      }
    }

    /** The card at a Python index of player `a`'s hand exists and is a treasure. */
    predicate TreasureAt(a: nat, idx: int)
      requires a < |players|
      reads this, players[a]
    {
      var k := PyIndex(|players[a].hand|, idx);
      k.Some? && IsTreasureName(players[a].hand[k.value].name)
    }

    /** An action leaves position `k` of the hand for the top of the cards in play and uses up one action. */
    method StartAction(a: nat, k: nat)
      requires Valid() && a < |players| && k < |players[a].hand|
      modifies players[a]
      ensures players[a].hand == RemoveAt(old(players[a].hand), k)
      ensures players[a].inPlay == old(players[a].inPlay) + [old(players[a].hand)[k]]
      ensures players[a].deck == old(players[a].deck) && players[a].discard == old(players[a].discard)
      ensures players[a].actions == old(players[a].actions) - 1
      ensures players[a].gold == old(players[a].gold) && players[a].buys == old(players[a].buys)
      ensures players[a].Owned() == old(players[a].Owned()) && Total() == old(Total())
    {
      MoveToPlay(a, k);
      Bump(a, -1, 0, 0);
    }

    /** An action just put in play: its effect runs, and any Throne Room it finishes resumes. */
    method PlayAction(a: nat)
      requires Valid() && a < |players| && phase == Running && stack == []
      modifies this, players
      ensures Valid() && Ready() && Total() == old(Total()) && current == old(current)
    {
      PlayEffect(a);
      Settle();
    }

    /** Appends several messages, in order. */
    method SayAll(es: seq<Event>)
      requires Valid()
      modifies this
      ensures log == old(log) + es
      ensures piles == old(piles) && trash == old(trash) && stack == old(stack)
      ensures current == old(current) && phase == old(phase)
      ensures Valid() && Total() == old(Total())
    {
      log := log + es;
      OutsideGrew(multiset{});
    }

    /** Asks player `to` the question of card `n`; the effect suspends at `f` until the answer. */
    method Ask(to: nat, n: Name, f: Frame)
      requires Valid() && Open() && FrameOk(f, |players|) && !Waiting(f) && Held(f) == multiset{}
      modifies this
      ensures stack == old(stack) + [f] && Pushed()
      ensures log == old(log) + [Private(to, Prompt(n))]
      ensures piles == old(piles) && trash == old(trash)
      ensures current == old(current) && phase == old(phase)
      ensures Valid() && Total() == old(Total())
    {
      Say(Private(to, Prompt(n)));
      Push(f);
      assert stack[..|old(stack)|] == old(stack);
    }

    /** After an answer the effect rejects: the error, if any, then the question again, and the effect stays at `f`. */
    method Retry(to: nat, n: Name, error: Option<Note>, f: Frame)
      requires Valid() && Open() && FrameOk(f, |players|) && !Waiting(f) && Held(f) == multiset{}
      modifies this
      ensures stack == old(stack) + [f] && Pushed()
      ensures log == old(log) + (if error.Some? then [Private(to, error.value)] else []) + [Private(to, Reprompt(n))]
      ensures piles == old(piles) && trash == old(trash)
      ensures current == old(current) && phase == old(phase)
      ensures Valid() && Total() == old(Total())
    {
      if error.Some? {
        Say(Private(to, error.value));
      }
      Say(Private(to, Reprompt(n)));
      Push(f);
      assert stack[..|old(stack)|] == old(stack);
    }

    /** Cellar, Chapel and Remodel: an empty hand leaves nothing to choose; otherwise the player is asked. */
    method AskForHand(a: nat, n: Name, pt: Point)
      requires Valid() && a < |players| && Open()
      requires FrameOk(Frame(a, pt), |players|) && !Waiting(Frame(a, pt)) && Held(Frame(a, pt)) == multiset{}
      modifies this
      ensures players[a].hand == [] ==> stack == old(stack) && log == old(log) + [Public(a, EmptyHand(n))]
      ensures players[a].hand != [] ==> stack == old(stack) + [Frame(a, pt)] && log == old(log) + [Private(a, Prompt(n))]
      ensures Pushed()
      ensures piles == old(piles) && trash == old(trash)
      ensures current == old(current) && phase == old(phase)
      ensures Valid() && Total() == old(Total())
    {
      if players[a].hand == [] {
        Say(Public(a, EmptyHand(n)));
      } else {
        Ask(a, n, Frame(a, pt));
      }
    }

    /** Moves a card of one of player `p`'s lists, at a Python index, onto another of its lists. */
    method Move(p: nat, from: PileId, idx: int, to: PileId) returns (c: Option<Card>)
      requires Valid() && p < |players| && from != to
      modifies players[p]
      ensures c.Some? <==> PyIndex(|old(players[p].Pile(from))|, idx).Some?
      ensures c.Some? ==>
        var k := PyIndex(|old(players[p].Pile(from))|, idx).value;
        c.value == old(players[p].Pile(from))[k] &&
        players[p].Pile(from) == RemoveAt(old(players[p].Pile(from)), k) &&
        players[p].Pile(to) == old(players[p].Pile(to)) + [c.value]
      ensures c.None? ==> players[p].Pile(from) == old(players[p].Pile(from)) && players[p].Pile(to) == old(players[p].Pile(to))
      ensures players[p].Kept(from, to) && players[p].SameCounters()
      ensures players[p].Owned() == old(players[p].Owned())
      ensures Total() == old(Total())
    {
      c := players[p].MoveCard(from, idx, to);
      PlayerKept(p);
    }

    /** Reveals the top card of player `p`'s deck, shuffling the discard pile in when the deck is empty. */
    method RevealFrom(p: nat) returns (c: Option<Card>)
      requires Valid() && p < |players|
      modifies players[p]
      ensures c.None? <==> old(players[p].deck) == [] && old(players[p].discard) == []
      ensures c.None? ==> players[p].deck == [] && players[p].discard == []
      ensures old(players[p].deck) != [] ==>
        c == Some(Top(old(players[p].deck))) && players[p].deck == Pop(old(players[p].deck)) &&
        players[p].discard == old(players[p].discard)
      ensures old(players[p].deck) == [] && old(players[p].discard) != [] ==> players[p].discard == []
      ensures players[p].discard == old(players[p].discard) || players[p].discard == []
      ensures players[p].hand == old(players[p].hand) && players[p].inPlay == old(players[p].inPlay)
      ensures players[p].SameCounters()
      ensures c.Some? ==> Total() + multiset{c.value} == old(Total())
      ensures c.None? ==> Total() == old(Total())
    {
      c := players[p].Reveal();
      PlayerStep(p);
      Shrunk(Total(), old(Total()), players[p].Owned(), old(players[p].Owned()),
        if c.Some? then multiset{c.value} else multiset{});
    }

    /** The Thief's reveal of up to two cards off player `p`'s deck. */
    method RevealTwoFrom(p: nat) returns (revealed: seq<Card>)
      requires Valid() && p < |players|
      modifies players[p]
      ensures |revealed| <= 2
      ensures |revealed| < 2 ==> players[p].deck == [] && players[p].discard == []
      ensures players[p].hand == old(players[p].hand) && players[p].inPlay == old(players[p].inPlay)
      ensures players[p].SameCounters()
      ensures Total() + multiset(revealed) == old(Total())
    {
      revealed := players[p].RevealTwo();
      PlayerStep(p);
      Shrunk(Total(), old(Total()), players[p].Owned(), old(players[p].Owned()), multiset(revealed));
    }

    /** The Adventurer's reveals for player `a`. */
    method AdventureOf(a: nat) returns (revealed: seq<Name>, found: nat, setAside: seq<Card>)
      requires Valid() && a < |players|
      modifies players[a]
      ensures found <= 2 && |revealed| == found + |setAside|
      ensures forall i :: 0 <= i < |setAside| ==> setAside[i].kind != Treasure
      ensures players[a].discard == AdventureBase(old(players[a].deck), old(players[a].discard)) + setAside
      ensures players[a].Owned() == old(players[a].Owned())
      ensures found < 2 ==>
        players[a].deck == [] && forall i :: 0 <= i < |players[a].discard| ==> players[a].discard[i].kind != Treasure
      ensures |players[a].hand| == |old(players[a].hand)| + found
      ensures players[a].hand[..|old(players[a].hand)|] == old(players[a].hand)
      ensures forall i :: |old(players[a].hand)| <= i < |players[a].hand| ==> players[a].hand[i].kind == Treasure
      ensures players[a].inPlay == old(players[a].inPlay) && players[a].SameCounters()
      ensures Total() == old(Total())
    {
      revealed, found, setAside := players[a].Adventure();
      PlayerKept(p := a);
    }

    /** `end_turn` for player `p`. */
    method EndTurnOf(p: nat)
      requires Valid() && p < |players|
      modifies players[p]
      ensures players[p].inPlay == [] && players[p].SameCounters()
      ensures players[p].Owned() == old(players[p].Owned())
      ensures |players[p].hand| == Min(5, |old(players[p].Owned())|)
      ensures |old(players[p].deck)| >= 5 ==>
        players[p].deck == old(players[p].deck)[..|old(players[p].deck)| - 5] &&
        players[p].discard == old(players[p].discard) + old(players[p].hand) + old(players[p].inPlay) &&
        forall j :: 0 <= j < 5 ==> players[p].hand[j] == old(players[p].deck)[|old(players[p].deck)| - 1 - j]
      ensures Total() == old(Total())
    {
      players[p].EndTurn();
      PlayerKept(p);
    }

    /**
     * `buy_card`. With no buys left the player is told so and nothing else
     * happens; an index outside the seventeen piles raises; an empty pile or
     * a card above the player's gold is refused with a message; a buy moves
     * the pile's top card to the discard pile, pays its cost, uses a buy
     * and ends the action phase.
     */
    method BuyCard(a: nat, idx: int)
      requires Valid() && a < |players| && phase == Running
      modifies this, players[a]
      ensures Valid() && Total() == old(Total())
      ensures stack == old(stack) && trash == old(trash) && current == old(current)
      ensures old(players[a].buys) <= 0 ==>
        phase == Running && unchanged(players[a]) && piles == old(piles) && log == old(log) + [Private(a, NoBuys)]
      ensures old(players[a].buys) > 0 && PyIndex(SlotCount, idx).None? ==>
        phase == Halted && unchanged(players[a]) && piles == old(piles) && log == old(log)
      ensures old(players[a].buys) > 0 && PyIndex(SlotCount, idx).Some? ==>
        var s := PyIndex(SlotCount, idx).value;
        phase == Running &&
        (!BuyAccepted(old(piles[s]), old(players[a].gold), old(players[a].buys)) ==>
           unchanged(players[a]) && piles == old(piles) &&
           log == old(log) + [Private(a, BuyRefusal(old(piles[s]), old(players[a].gold)).value)]) &&
        (BuyAccepted(old(piles[s]), old(players[a].gold), old(players[a].buys)) ==>
           var c := Top(old(piles[s]));
           piles == old(piles)[s := Pop(old(piles[s]))] &&
           players[a].discard == old(players[a].discard) + [c] &&
           players[a].Kept(Discard, Discard) &&
           players[a].gold == old(players[a].gold) - c.cost && players[a].buys == old(players[a].buys) - 1 &&
           players[a].actions == 0 &&
           log == old(log) + [Public(a, Bought(c.name))])
    {
      if players[a].buys <= 0 {
        Say(Private(a, NoBuys));
        return;
      }
      var s := PyIndex(SlotCount, idx);
      if s.None? {
        Halt();
        return;
      }
      var refused := BuyRefusal(piles[s.value], players[a].gold);
      if refused.Some? {
        Say(Private(a, refused.value));
        return;
      }
      Purchase(a, s.value);
    }

    /** A buy that passed its checks. */
    method Purchase(a: nat, s: nat)
      requires Valid() && a < |players| && s < SlotCount && piles[s] != []
      modifies this, players[a]
      ensures var c := Top(old(piles[s]));
        piles == old(piles)[s := Pop(old(piles[s]))] &&
        players[a].discard == old(players[a].discard) + [c] &&
        players[a].Kept(Discard, Discard) &&
        players[a].gold == old(players[a].gold) - c.cost && players[a].buys == old(players[a].buys) - 1 &&
        players[a].actions == 0 &&
        log == old(log) + [Public(a, Bought(c.name))]
      ensures stack == old(stack) && trash == old(trash) && current == old(current) && phase == old(phase)
      ensures Valid() && Total() == old(Total())
    {
      var c := FromSupply(a, s, Discard);
      SetCounters(a, 0, players[a].gold - c.cost, players[a].buys - 1);
      Say(Public(a, Bought(c.name)));
    }

    /**
     * `gain_card`: an index outside the sixteen piles that exclude the
     * curses raises; otherwise the gain goes through exactly when the pile
     * has a card of an allowed type within the budget, and the card then
     * goes to the discard pile. A refused gain changes nothing but the
     * messages.
     */
    method GainCard(a: nat, budget: int, idx: int, allowed: set<CardType>) returns (ok: bool)
      requires Valid() && a < |players| && phase == Running
      modifies this, players[a]
      ensures Valid() && Total() == old(Total())
      ensures stack == old(stack) && trash == old(trash) && current == old(current)
      ensures PyIndex(GainSlots, idx).None? ==>
        !ok && phase == Halted && unchanged(players[a]) && piles == old(piles) && log == old(log)
      ensures PyIndex(GainSlots, idx).Some? ==>
        var s := PyIndex(GainSlots, idx).value;
        phase == Running && (ok <==> CanGain(old(piles[s]), allowed, budget)) &&
        (!ok ==>
           unchanged(players[a]) && piles == old(piles) &&
           log == old(log) + [Private(a, GainRefusal(old(piles[s]), allowed, budget).value)]) &&
        (ok ==>
           var c := Top(old(piles[s]));
           piles == old(piles)[s := Pop(old(piles[s]))] &&
           players[a].discard == old(players[a].discard) + [c] &&
           players[a].Kept(Discard, Discard) && players[a].SameCounters() &&
           log == old(log) + [Public(a, Gained(c.name))])
    {
      var s := PyIndex(GainSlots, idx);
      if s.None? {
        Halt();
        return false;
      }
      var refused := GainRefusal(piles[s.value], allowed, budget);
      if refused.Some? {
        Say(Private(a, refused.value));
        return false;
      }
      var c := FromSupply(a, s.value, Discard);
      Say(Public(a, Gained(c.name)));
      return true;
    }

    /**
     * `play_action` up to its first `yield`: the top card in play is
     * announced and its effect runs. It either finishes or leaves one
     * frame, waiting for an answer, on top of the stack.
     */
    method PlayEffect(a: nat)
      requires Valid() && a < |players| && phase == Running && Open()
      modifies this, players
      ensures Valid() && Total() == old(Total()) && current == old(current) && Pushed()
    {
      if players[a].inPlay == [] {
        Halt();
        return;
      }
      var c := Top(players[a].inPlay);
      Say(Public(a, Played(c.name)));
      if c.name in {Bureaucrat, Militia, Spy, Thief, CouncilRoom, Witch} {
        OthersEffect(a, c.name);
      } else {
        OwnEffect(a, c.name);
      }
    }

    /** The effects that reach the other players (or, for the Spy, every player). */
    method OthersEffect(a: nat, n: Name)
      requires Valid() && a < |players| && phase == Running && Open()
      modifies this, players
      ensures Valid() && Total() == old(Total()) && current == old(current) && Pushed()
    {
      match n
      case Bureaucrat => PlayBureaucrat(a);
      case Militia =>
        Bump(a, 0, 2, 0);
        MilitiaAttack(a, OthersOf(|players|, a));
      case Spy =>
        Draw(a, 1);
        Bump(a, 1, 0, 0);
        SpyNext(a, AllSeats(|players|));
      case Thief => ThiefNext(a, OthersOf(|players|, a));
      case CouncilRoom =>
        Draw(a, 4);
        Bump(a, 0, 0, 1);
        DrawEach(OthersOf(|players|, a));
      case Witch =>
        Draw(a, 2);
        WitchAttack(OthersOf(|players|, a));
      case _ =>
    }

    /** The effects that involve only the player who plays the card. */
    method OwnEffect(a: nat, n: Name)
      requires Valid() && a < |players| && phase == Running && Open()
      modifies this, players[a]
      ensures Valid() && Total() == old(Total()) && current == old(current) && Pushed()
    {
      if n in PlainNames {
        PlainEffect(a, n);
        return;
      }
      match n
      case Cellar =>
        Bump(a, 1, 0, 0);
        AskForHand(a, Cellar, CellarDiscard);
      case Chapel => AskForHand(a, Chapel, ChapelTrash);
      case Chancellor =>
        Bump(a, 0, 2, 0);
        Ask(a, Chancellor, Frame(a, ChancellorChoice));
      case Workshop => Ask(a, Workshop, Frame(a, WorkshopGain));
      case Feast =>
        var _ := ToTrash(a, InPlay);
        Ask(a, Feast, Frame(a, FeastGain));
      case Moneylender => PlayMoneylender(a);
      case Remodel => AskForHand(a, Remodel, RemodelPick);
      case ThroneRoom => PlayThroneRoom(a);
      case Library => LibraryNext(a, []);
      case Mine => PlayMine(a);
      case Adventurer => PlayAdventurer(a);
      case _ =>
    }

    /**
     * Moat, Village, Woodcutter, Smithy, Festival, Laboratory and Market:
     * the player draws the card's number of cards (as many as the deck and
     * discard pile hold, if fewer) and gains its actions, gold and buys.
     */
    method PlainEffect(a: nat, n: Name)
      requires Valid() && a < |players| && n in PlainNames
      modifies players[a]
      ensures |players[a].hand| ==
        |old(players[a].hand)| + Min(BonusOf(n).cards, |old(players[a].deck)| + |old(players[a].discard)|)
      ensures players[a].hand[..|old(players[a].hand)|] == old(players[a].hand)
      ensures BonusOf(n).cards <= |old(players[a].deck)| ==>
        var h0, d, k := |old(players[a].hand)|, old(players[a].deck), BonusOf(n).cards;
        players[a].deck == d[..|d| - k] && players[a].discard == old(players[a].discard) &&
        forall j :: h0 <= j < h0 + k ==> players[a].hand[j] == d[|d| + h0 - 1 - j]
      ensures players[a].actions == old(players[a].actions) + BonusOf(n).actions
      ensures players[a].gold == old(players[a].gold) + BonusOf(n).gold
      ensures players[a].buys == old(players[a].buys) + BonusOf(n).buys
      ensures players[a].inPlay == old(players[a].inPlay) && players[a].Owned() == old(players[a].Owned())
      ensures Total() == old(Total())
    {
      var b := BonusOf(n);
      Draw(a, b.cards);
      Bump(a, b.actions, b.gold, b.buys);
    }

    /** Moneylender: the first Copper in hand is trashed for three gold. */
    method PlayMoneylender(a: nat)
      requires Valid() && a < |players|
      modifies this, players[a]
      ensures (exists i :: 0 <= i < |old(players[a].hand)| && old(players[a].hand)[i] == Card(Copper)) ==>
        trash == old(trash) + [Card(Copper)] && players[a].gold == old(players[a].gold) + 3 &&
        |players[a].hand| == |old(players[a].hand)| - 1 &&
        log == old(log) + [Public(a, Trashed([Copper]))]
      ensures (forall i :: 0 <= i < |old(players[a].hand)| ==> old(players[a].hand)[i] != Card(Copper)) ==>
        unchanged(players[a]) && trash == old(trash) && log == old(log) + [Public(a, NoneSuitable(Moneylender))]
      ensures forall k: nat :: FirstNamed(old(players[a].hand), CopperOnly, k) ==>
        players[a].hand == RemoveAt(old(players[a].hand), k) && players[a].deck == old(players[a].deck) &&
        players[a].discard == old(players[a].discard) && players[a].inPlay == old(players[a].inPlay) &&
        players[a].actions == old(players[a].actions) && players[a].buys == old(players[a].buys)
      ensures piles == old(piles) && stack == old(stack) && current == old(current) && phase == old(phase)
      ensures Valid() && Total() == old(Total())
    {
      var k := FindFirst(players[a].hand, CopperOnly);
      if k.None? {
        Say(Public(a, NoneSuitable(Moneylender)));
        return;
      }
      ghost var hand0 := players[a].hand;
      var _ := ToTrash(a, Hand, k.value);
      Say(Public(a, Trashed([Copper])));
      Bump(a, 0, 3, 0);
      forall j: nat | FirstNamed(hand0, CopperOnly, j) ensures j == k.value {
        FirstNamedUnique(hand0, CopperOnly, j, k.value);
      }
    }

    /** Throne Room: with no action card in hand there is nothing to choose; otherwise the player picks one. */
    method PlayThroneRoom(a: nat)
      requires Valid() && a < |players| && Open()
      modifies this
      ensures players[a].hand == [] ==> stack == old(stack) && log == old(log) + [Public(a, EmptyHand(ThroneRoom))]
      ensures players[a].hand != [] && (forall i :: 0 <= i < |players[a].hand| ==> players[a].hand[i].kind != Action) ==>
        stack == old(stack) && log == old(log) + [Public(a, NoneSuitable(ThroneRoom))]
      ensures (exists i :: 0 <= i < |players[a].hand| && players[a].hand[i].kind == Action) ==>
        stack == old(stack) + [Frame(a, ThroneSelect)] && log == old(log) + [Private(a, Prompt(ThroneRoom))]
      ensures Valid() && Total() == old(Total()) && Pushed()
      ensures piles == old(piles) && trash == old(trash) && current == old(current) && phase == old(phase)
    {
      if players[a].hand == [] {
        Say(Public(a, EmptyHand(ThroneRoom)));
        return;
      }
      var any := AnyAction(players[a].hand);
      if !any {
        Say(Public(a, NoneSuitable(ThroneRoom)));
        return;
      }
      Ask(a, ThroneRoom, Frame(a, ThroneSelect));
    }

    /** Mine: with no treasure in hand there is nothing to choose; otherwise the player picks one. */
    method PlayMine(a: nat)
      requires Valid() && a < |players| && Open()
      modifies this
      ensures players[a].hand == [] ==> stack == old(stack) && log == old(log) + [Public(a, EmptyHand(Mine))]
      ensures players[a].hand != [] && (forall i :: 0 <= i < |players[a].hand| ==> players[a].hand[i].name !in TreasureNames) ==>
        stack == old(stack) && log == old(log) + [Public(a, NoneSuitable(Mine))]
      ensures (exists i :: 0 <= i < |players[a].hand| && players[a].hand[i].name in TreasureNames) ==>
        stack == old(stack) + [Frame(a, MinePick)] && log == old(log) + [Private(a, Prompt(Mine))]
      ensures Valid() && Total() == old(Total()) && Pushed()
      ensures piles == old(piles) && trash == old(trash) && current == old(current) && phase == old(phase)
    {
      if players[a].hand == [] {
        Say(Public(a, EmptyHand(Mine)));
        return;
      }
      var k := FindFirst(players[a].hand, TreasureNames);
      if k.None? {
        Say(Public(a, NoneSuitable(Mine)));
        return;
      }
      Ask(a, Mine, Frame(a, MinePick));
    }

    /** Adventurer: reveals until two treasures reach the hand, announcing each card revealed. */
    method PlayAdventurer(a: nat)
      requires Valid() && a < |players|
      modifies this, players[a]
      ensures |old(players[a].hand)| <= |players[a].hand| <= |old(players[a].hand)| + 2
      ensures players[a].hand[..|old(players[a].hand)|] == old(players[a].hand)
      ensures forall i :: |old(players[a].hand)| <= i < |players[a].hand| ==> players[a].hand[i].kind == Treasure
      ensures |players[a].hand| < |old(players[a].hand)| + 2 ==>
        players[a].deck == [] && (forall i :: 0 <= i < |players[a].discard| ==> players[a].discard[i].kind != Treasure) &&
        |log| > |old(log)| && log[|log| - 1] == Public(a, CannotDraw)
      ensures players[a].Owned() == old(players[a].Owned())
      ensures var d0, d := AdventureBase(old(players[a].deck), old(players[a].discard)), players[a].discard;
        |d0| <= |d| && d[..|d0|] == d0 && forall i :: |d0| <= i < |d| ==> d[i].kind != Treasure
      ensures piles == old(piles) && trash == old(trash) && stack == old(stack)
      ensures current == old(current) && phase == old(phase)
      ensures Valid() && Total() == old(Total())
    {
      var names, found, setAside := AdventureOf(a);
      SayAll(Reveals(a, names));
      if found < 2 {
        Say(Public(a, CannotDraw));
      }
    }

    /** Bureaucrat: a Silver onto the player's deck, if any is left, then the attack on each opponent. */
    method PlayBureaucrat(a: nat)
      requires Valid() && a < |players|
      modifies this, players
      ensures stack == old(stack) && trash == old(trash) && current == old(current) && phase == old(phase)
      ensures Valid() && Total() == old(Total())
    {
      if piles[SilverSlot] != [] {
        var _ := FromSupply(a, SilverSlot, Deck);
        Say(Public(a, Gained(Silver)));
      } else {
        Say(Public(a, Exhausted(Silver)));
      }
      BureaucratAttack(OthersOf(|players|, a));
    }

    /** The Bureaucrat's attack on the opponents in `seats`, in order. */
    method BureaucratAttack(seats: seq<nat>)
      requires Valid() && SeatsBelow(seats, |players|)
      modifies this, players
      ensures stack == old(stack) && piles == old(piles) && trash == old(trash)
      ensures current == old(current) && phase == old(phase)
      ensures Valid() && Total() == old(Total())
      decreases |seats|
    {
      if seats != [] {
        BureaucratVictim(seats[0]);
        BureaucratAttack(seats[1..]);
      }
    }

    /**
     * One opponent of the Bureaucrat: a Moat in hand blocks the attack;
     * otherwise the first victory card in hand goes on top of the deck, or
     * the hand is revealed when it holds none.
     */
    method BureaucratVictim(v: nat)
      requires Valid() && v < |players|
      modifies this, players[v]
      ensures Card(Moat) in old(players[v].hand) ==> unchanged(players[v]) && log == old(log) + [Public(v, Blocked)]
      ensures players[v].Owned() == old(players[v].Owned()) && players[v].SameCounters()
      ensures Card(Moat) !in old(players[v].hand) && (exists i :: 0 <= i < |old(players[v].hand)| && old(players[v].hand)[i].name in VictoryNames) ==>
        |players[v].hand| == |old(players[v].hand)| - 1 &&
        players[v].deck != [] && Pop(players[v].deck) == old(players[v].deck) && Top(players[v].deck).name in VictoryNames
      ensures Card(Moat) !in old(players[v].hand) ==>
        forall k: nat :: FirstNamed(old(players[v].hand), VictoryNames, k) ==>
          players[v].hand == RemoveAt(old(players[v].hand), k) &&
          players[v].deck == old(players[v].deck) + [old(players[v].hand)[k]] &&
          log == old(log) + [Public(v, ToDeckTop(old(players[v].hand)[k].name))]
      ensures Card(Moat) !in old(players[v].hand) && (forall i :: 0 <= i < |old(players[v].hand)| ==> old(players[v].hand)[i].name !in VictoryNames) ==>
        unchanged(players[v]) && log == old(log) + [Public(v, Revealed(NamesOf(old(players[v].hand))))]
      ensures stack == old(stack) && piles == old(piles) && trash == old(trash)
      ensures current == old(current) && phase == old(phase)
      ensures Valid() && Total() == old(Total())
    {
      var blocked := players[v].Holds(Card(Moat));
      if blocked {
        Say(Public(v, Blocked));
        return;
      }
      var k := FindFirst(players[v].hand, VictoryNames);
      if k.None? {
        Say(Public(v, Revealed(NamesOf(players[v].hand))));
        return;
      }
      BureaucratTake(v, k.value);
      forall j | FirstNamed(old(players[v].hand), VictoryNames, j)
        ensures j == k.value
      {
        FirstNamedUnique(old(players[v].hand), VictoryNames, j, k.value);
      }
    }

    /** The victory card at position `k` of `v`'s hand goes on top of `v`'s deck, and everyone is told. */
    method BureaucratTake(v: nat, k: nat)
      requires Valid() && v < |players| && k < |players[v].hand| && players[v].hand[k].name in VictoryNames
      modifies this, players[v]
      ensures players[v].hand == RemoveAt(old(players[v].hand), k)
      ensures players[v].deck == old(players[v].deck) + [old(players[v].hand)[k]]
      ensures log == old(log) + [Public(v, ToDeckTop(old(players[v].hand)[k].name))]
      ensures players[v].Owned() == old(players[v].Owned()) && players[v].SameCounters()
      ensures stack == old(stack) && piles == old(piles) && trash == old(trash)
      ensures current == old(current) && phase == old(phase)
      ensures Valid() && Total() == old(Total())
    {
      var c := Move(v, Hand, k, Deck);
      Say(Public(v, ToDeckTop(c.value.name)));
    }

    /** Player `v` is open to the Militia: more than three cards in hand and no Moat among them. */
    predicate Exposed(v: nat)
      requires v < |players|
      reads players[v]
    {
      |players[v].hand| > 3 && Card(Moat) !in players[v].hand
    }

    /** The position in `seats` of the first opponent the Militia makes discard, if any. */
    function MilitiaTarget(seats: seq<nat>): (r: Option<nat>)
      requires SeatsBelow(seats, |players|)
      reads players
      ensures r.Some? ==> r.value < |seats| && Exposed(seats[r.value])
      ensures r.Some? ==> forall i :: 0 <= i < r.value ==> !Exposed(seats[i])
      ensures r.None? ==> forall i :: 0 <= i < |seats| ==> !Exposed(seats[i])
      decreases |seats|
    {
      if seats == [] then None
      else if Exposed(seats[0]) then Some(0)
      else
        match MilitiaTarget(seats[1..])
        case None => None
        case Some(j) => Some(j + 1)
    }

    /** A first opponent the Militia passes over leaves the target to the rest of the seats. */
    lemma MilitiaSkip(seats: seq<nat>, later: Option<nat>)
      requires seats != [] && SeatsBelow(seats, |players|) && !Exposed(seats[0])
      requires later == MilitiaTarget(seats[1..])
      ensures MilitiaTarget(seats).None? <==> later.None?
      ensures later.Some? ==>
        MilitiaTarget(seats) == Some(later.value + 1) &&
        seats[1..][later.value] == seats[later.value + 1] && seats[1..][later.value + 1..] == seats[later.value + 2..]
    {
    }

    /**
     * The Militia's attack on the opponents in `seats`, in order: one with
     * three cards or fewer, or with a Moat, is passed over; the first other
     * is asked to discard down to three, and the rest wait in the frame.
     * When nobody is left the player resumes.
     */
    method MilitiaAttack(a: nat, seats: seq<nat>)
      requires Valid() && a < |players| && SeatsBelow(seats, |players|) && Open()
      modifies this
      ensures MilitiaTarget(seats).None? ==> stack == old(stack)
      ensures MilitiaTarget(seats).Some? ==>
        var j := MilitiaTarget(seats).value;
        stack == old(stack) + [Frame(a, MilitiaDiscard(seats[j], seats[j + 1..]))]
      ensures Pushed()
      ensures stack == old(stack) ==> |log| > |old(log)| && log[|log| - 1] == Private(a, Resumed)
      ensures stack != old(stack) ==>
        var f := stack[|stack| - 1];
        f.actor == a && f.point.MilitiaDiscard? && f.point.victim in seats &&
        |players[f.point.victim].hand| > 3 && Card(Moat) !in players[f.point.victim].hand
      ensures |log| > |old(log)| && log[..|old(log)|] == old(log)
      ensures piles == old(piles) && trash == old(trash) && current == old(current) && phase == old(phase)
      ensures Valid() && Total() == old(Total())
      decreases |seats|, 1
    {
      if seats == [] {
        Say(Private(a, Resumed));
        return;
      }
      var v := seats[0];
      var blocked := players[v].Holds(Card(Moat));
      if |players[v].hand| <= 3 || blocked {
        MilitiaPass(a, seats);
        return;
      }
      MilitiaAsk(a, seats);
      assert MilitiaTarget(seats) == Some(0);
    }

    /** The first of `seats` must discard: the player waits on it, it is asked, and the rest wait in the frame. */
    method MilitiaAsk(a: nat, seats: seq<nat>)
      requires Valid() && a < |players| && SeatsBelow(seats, |players|) && Open()
      requires seats != [] && Exposed(seats[0])
      modifies this
      ensures stack == old(stack) + [Frame(a, MilitiaDiscard(seats[0], seats[1..]))] && Pushed()
      ensures log == old(log) + [Private(a, WaitingFor(seats[0])), Private(seats[0], Prompt(Militia))]
      ensures piles == old(piles) && trash == old(trash) && current == old(current) && phase == old(phase)
      ensures Valid() && Total() == old(Total())
    {
      var v := seats[0];
      Say(Private(a, WaitingFor(v)));
      Ask(v, Militia, Frame(a, MilitiaDiscard(v, seats[1..])));
    }

    /** The Militia passes over the first of `seats`, saying why, and goes on with the rest. */
    method MilitiaPass(a: nat, seats: seq<nat>)
      requires Valid() && a < |players| && SeatsBelow(seats, |players|) && Open()
      requires seats != [] && !Exposed(seats[0])
      modifies this
      ensures MilitiaTarget(seats).None? ==> stack == old(stack)
      ensures MilitiaTarget(seats).Some? ==>
        var j := MilitiaTarget(seats).value;
        stack == old(stack) + [Frame(a, MilitiaDiscard(seats[j], seats[j + 1..]))]
      ensures Pushed()
      ensures stack == old(stack) ==> |log| > |old(log)| && log[|log| - 1] == Private(a, Resumed)
      ensures stack != old(stack) ==>
        var f := stack[|stack| - 1];
        f.actor == a && f.point.MilitiaDiscard? && f.point.victim in seats &&
        |players[f.point.victim].hand| > 3 && Card(Moat) !in players[f.point.victim].hand
      ensures |log| > |old(log)| && log[..|old(log)|] == old(log)
      ensures piles == old(piles) && trash == old(trash) && current == old(current) && phase == old(phase)
      ensures Valid() && Total() == old(Total())
      decreases |seats|, 0
    {
      var v := seats[0];
      Say(Public(v, if |players[v].hand| <= 3 then FewCards else Blocked));
      MilitiaAttack(a, seats[1..]);
      MilitiaSkip(seats, MilitiaTarget(seats[1..]));
      assert forall x :: x in seats[1..] ==> x in seats;
    }

    /** Council Room: each opponent in `seats` draws a card. */
    method DrawEach(seats: seq<nat>)
      requires Valid() && SeatsBelow(seats, |players|)
      modifies players
      ensures Total() == old(Total())
      decreases |seats|
    {
      if seats != [] {
        Draw(seats[0], 1);
        DrawEach(seats[1..]);
      }
    }

    /**
     * The curses dealt so far: `cursed[i]`, the i-th opponent cursed, has
     * the i-th curse from the top of `pile` on the discard pile it had
     * (in `d0`), those curses are gone from the supply, and every other
     * player's discard pile is as it was.
     */
    ghost predicate CursesDealt(cursed: seq<nat>, pile: seq<Card>, d0: seq<seq<Card>>)
      reads this, players
      requires Valid()
    {
      |d0| == |players| && SeatsBelow(cursed, |players|) && |cursed| <= |pile| &&
      piles[CurseSlot] == pile[..|pile| - |cursed|] &&
      (forall i :: 0 <= i < |cursed| ==> players[cursed[i]].discard == d0[cursed[i]] + [pile[|pile| - 1 - i]]) &&
      forall p :: 0 <= p < |players| && p !in cursed ==> players[p].discard == d0[p]
    }

    /** One Witch curse: opponent `v`, not cursed before, gains the top curse. */
    method CurseNext(v: nat, ghost cursed: seq<nat>, ghost pile: seq<Card>, ghost d0: seq<seq<Card>>)
      requires Valid() && v < |players| && v !in cursed && piles[CurseSlot] != []
      requires CursesDealt(cursed, pile, d0)
      modifies this, players[v]
      ensures Valid() && Total() == old(Total()) && CursesDealt(cursed + [v], pile, d0)
      ensures stack == old(stack) && trash == old(trash) && current == old(current) && phase == old(phase)
      ensures forall i :: 0 <= i < SlotCount && i != CurseSlot ==> piles[i] == old(piles[i])
      ensures players[v].hand == old(players[v].hand) && players[v].deck == old(players[v].deck) &&
        players[v].inPlay == old(players[v].inPlay) && players[v].SameCounters()
      ensures forall p :: 0 <= p < |players| && p != v ==> unchanged(players[p])
    {
      var _ := FromSupply(v, CurseSlot, Discard);
      Say(Public(v, Gained(Name.Curse)));
      var n := |cursed|;
      forall i | 0 <= i < n + 1
        ensures players[(cursed + [v])[i]].discard == d0[(cursed + [v])[i]] + [pile[|pile| - 1 - i]]
      {
        if i < n {
          assert cursed[i] != v && players[cursed[i]] != players[v];
        }
      }
      forall p | 0 <= p < |players| && p != v
        ensures unchanged(players[p])
      {
        assert players[p] != players[v];
      }
    }

    /** A message during the Witch's attack deals no curse. */
    method WitchSay(e: Event, ghost cursed: seq<nat>, ghost pile: seq<Card>, ghost d0: seq<seq<Card>>)
      requires Valid() && CursesDealt(cursed, pile, d0)
      modifies this
      ensures Valid() && Total() == old(Total()) && CursesDealt(cursed, pile, d0)
      ensures log == old(log) + [e] && piles == old(piles)
      ensures stack == old(stack) && trash == old(trash) && current == old(current) && phase == old(phase)
    {
      Say(e);
    }

    /**
     * The Witch's attack on the opponent `v`, the seats in `before`
     * having been cursed already: a Moat blocks it, an empty curse pile ends
     * the attack (`stop`), and otherwise the opponent is cursed.
     */
    method WitchStep(v: nat, ghost before: seq<nat>, ghost hands: seq<seq<Card>>, ghost pile: seq<Card>, ghost d0: seq<seq<Card>>)
      returns (stop: bool, ghost after: seq<nat>)
      requires Valid() && v < |players| && v !in before
      requires Hands() == hands && CursesDealt(before, pile, d0)
      modifies this, players
      ensures Valid() && Total() == old(Total()) && Hands() == hands
      ensures CursesDealt(after, pile, d0)
      ensures Card(Moat) in hands[v] ==> !stop && after == before
      ensures Card(Moat) !in hands[v] ==>
        (stop <==> |before| == |pile|) && after == if stop then before else before + [v]
      ensures forall p :: 0 <= p < |players| && p !in after ==> unchanged(players[p])
      ensures stack == old(stack) && trash == old(trash) && current == old(current) && phase == old(phase)
      ensures forall i :: 0 <= i < SlotCount && i != CurseSlot ==> piles[i] == old(piles[i])
      ensures forall p :: 0 <= p < |players| ==>
        players[p].hand == old(players[p].hand) && players[p].deck == old(players[p].deck) &&
        players[p].inPlay == old(players[p].inPlay) && players[p].SameCounters()
    {
      assert hands[v] == players[v].hand;
      stop := false;
      after := before;
      if Card(Moat) in players[v].hand {
        WitchSay(Public(v, Blocked), before, pile, d0);
      } else if piles[CurseSlot] == [] {
        WitchSay(Public(v, Exhausted(Name.Curse)), before, pile, d0);
        stop := true;
      } else {
        after := before + [v];
        CurseNext(v, before, pile, d0);
      }
    }

    /**
     * The Witch's attack on the opponents in `seats`, in order: a Moat
     * blocks it; otherwise the opponent gains the top curse, and once the
     * curses run out the attack stops. The opponents cursed are the seats
     * `Cursed` picks, the i-th of them taking the i-th curse from the top.
     */
    method WitchAttack(seats: seq<nat>)
      requires Valid() && SeatsBelow(seats, |players|) && Rising(seats)
      modifies this, players
      ensures Valid() && Total() == old(Total())
      ensures stack == old(stack) && trash == old(trash) && current == old(current) && phase == old(phase)
      ensures forall i :: 0 <= i < SlotCount && i != CurseSlot ==> piles[i] == old(piles[i])
      ensures |piles[CurseSlot]| <= |old(piles[CurseSlot])| <= |piles[CurseSlot]| + |seats|
      ensures
        var cursed, pile := old(Cursed(Hands(), seats, |piles[CurseSlot]|)), old(piles[CurseSlot]);
        piles[CurseSlot] == pile[..|pile| - |cursed|] &&
        forall i :: 0 <= i < |cursed| ==>
          cursed[i] < |players| && players[cursed[i]].discard == old(players[cursed[i]].discard) + [pile[|pile| - 1 - i]]
      ensures forall p :: 0 <= p < |players| && p !in old(Cursed(Hands(), seats, |piles[CurseSlot]|)) ==>
        unchanged(players[p])
      ensures forall p :: 0 <= p < |players| ==>
        players[p].hand == old(players[p].hand) && players[p].deck == old(players[p].deck) &&
        players[p].inPlay == old(players[p].inPlay) && players[p].SameCounters()
    {
      ghost var hands, pile := Hands(), piles[CurseSlot];
      ghost var d0 := seq(|players|, p requires 0 <= p < |players| reads players => players[p].discard);
      assert pile[..|pile| - 0] == pile;
      ghost var cursed := WitchLoop(seats, hands, pile, d0);
      assert forall p :: 0 <= p < |players| ==> d0[p] == old(players[p].discard);
    }

    /** One seat of the Witch's loop: `cursed` grows as `Cursed` says it does one seat further. */
    method WitchTurn(seats: seq<nat>, j: nat, ghost cursed: seq<nat>, ghost hands: seq<seq<Card>>, ghost pile: seq<Card>, ghost d0: seq<seq<Card>>)
      returns (stop: bool, ghost cursed': seq<nat>)
      requires Valid() && SeatsBelow(seats, |players|) && Rising(seats) && j < |seats|
      requires Hands() == hands && |hands| == |players|
      requires cursed == Cursed(hands, seats[..j], |pile|) && CursesDealt(cursed, pile, d0)
      modifies this, players
      ensures Valid() && Total() == old(Total()) && Hands() == hands
      ensures stack == old(stack) && trash == old(trash) && current == old(current) && phase == old(phase)
      ensures forall i :: 0 <= i < SlotCount && i != CurseSlot ==> piles[i] == old(piles[i])
      ensures forall p :: 0 <= p < |players| ==>
        players[p].hand == old(players[p].hand) && players[p].deck == old(players[p].deck) &&
        players[p].inPlay == old(players[p].inPlay) && players[p].SameCounters()
      ensures cursed' == (if stop then Cursed(hands, seats, |pile|) else Cursed(hands, seats[..j + 1], |pile|))
      ensures CursesDealt(cursed', pile, d0) && (cursed' == cursed || cursed' == cursed + [seats[j]])
      ensures forall p :: 0 <= p < |players| && p !in cursed' ==> unchanged(players[p])
    {
      CursedStep(hands, seats, j, |pile|);
      stop, cursed' := WitchStep(seats[j], cursed, hands, pile, d0);
    }

    /** The Witch's loop over `seats`: the curses go, top first, to the seats `Cursed` picks. */
    method WitchLoop(seats: seq<nat>, ghost hands: seq<seq<Card>>, ghost pile: seq<Card>, ghost d0: seq<seq<Card>>)
      returns (ghost cursed: seq<nat>)
      requires Valid() && SeatsBelow(seats, |players|) && Rising(seats)
      requires Hands() == hands && CursesDealt([], pile, d0)
      modifies this, players
      ensures Valid() && Total() == old(Total()) && Hands() == hands
      ensures stack == old(stack) && trash == old(trash) && current == old(current) && phase == old(phase)
      ensures forall i :: 0 <= i < SlotCount && i != CurseSlot ==> piles[i] == old(piles[i])
      ensures forall p :: 0 <= p < |players| ==>
        players[p].hand == old(players[p].hand) && players[p].deck == old(players[p].deck) &&
        players[p].inPlay == old(players[p].inPlay) && players[p].SameCounters()
      ensures cursed == Cursed(hands, seats, |pile|) && CursesDealt(cursed, pile, d0)
      ensures forall p :: 0 <= p < |players| && p !in cursed ==> unchanged(players[p])
    {
      var j := 0;
      cursed := [];
      while j < |seats|
        invariant j <= |seats| && Valid() && Total() == old(Total()) && Hands() == hands
        invariant stack == old(stack) && trash == old(trash) && current == old(current) && phase == old(phase)
        invariant forall i :: 0 <= i < SlotCount && i != CurseSlot ==> piles[i] == old(piles[i])
        invariant forall p :: 0 <= p < |players| ==>
          players[p].hand == old(players[p].hand) && players[p].deck == old(players[p].deck) &&
          players[p].inPlay == old(players[p].inPlay) && players[p].SameCounters()
        invariant cursed == Cursed(hands, seats[..j], |pile|) && CursesDealt(cursed, pile, d0)
        invariant forall p :: 0 <= p < |players| && p !in cursed ==> unchanged(players[p])
      {
        var stop;
        stop, cursed := WitchTurn(seats, j, cursed, hands, pile, d0);
        if stop {
          return;
        }
        j := j + 1;
      }
      assert seats[..|seats|] == seats;
    }

    /**
     * The Spy's reveal for the players in `seats`, in order: an opponent
     * with a Moat is passed over, and so is a player with no card to
     * reveal; the first other reveals the top of the deck and the player
     * decides whether it is discarded.
     */
    method SpyNext(a: nat, seats: seq<nat>)
      requires Valid() && a < |players| && SeatsBelow(seats, |players|) && Open()
      modifies this, players
      ensures Pushed()
      ensures piles == old(piles) && trash == old(trash) && current == old(current) && phase == old(phase)
      ensures Valid() && Total() == old(Total())
      decreases |seats|
    {
      if seats == [] {
        return;
      }
      var p := seats[0];
      if p != a {
        var blocked := players[p].Holds(Card(Moat));
        if blocked {
          Say(Public(p, Blocked));
          SpyNext(a, seats[1..]);
          return;
        }
      }
      var asked := SpyReveal(a, p, seats[1..]);
      if !asked {
        SpyNext(a, seats[1..]);
      }
    }

    /**
     * Player `p` reveals the top card of the deck, shuffling the discard
     * pile in first when the deck is empty, and player `a` is asked about
     * it; with no card to reveal nothing happens.
     */
    method SpyReveal(a: nat, p: nat, rest: seq<nat>) returns (asked: bool)
      requires Valid() && a < |players| && p < |players| && SeatsBelow(rest, |players|) && Open()
      modifies this, players[p]
      ensures asked <==> old(players[p].deck) != [] || old(players[p].discard) != []
      ensures !asked ==> stack == old(stack)
      ensures Pushed()
      ensures piles == old(piles) && trash == old(trash) && current == old(current) && phase == old(phase)
      ensures Valid() && Total() == old(Total())
    {
      if players[p].deck == [] {
        if players[p].discard == [] {
          return false;
        }
        Refill(p);
      }
      var seen := Top(players[p].deck);
      Say(Public(p, Revealed([seen.name])));
      Ask(a, Spy, Frame(a, SpyChoice(p, rest, seen.name)));
      asked := true;
    }

    /**
     * The Thief's attack on the opponents in `seats`, in order: a Moat
     * blocks it; otherwise the opponent is robbed, and the attack moves on
     * unless the player must answer first.
     */
    method ThiefNext(a: nat, seats: seq<nat>)
      requires Valid() && a < |players| && SeatsBelow(seats, |players|) && Open()
      modifies this, players
      ensures Pushed()
      ensures piles == old(piles) && current == old(current) && phase == old(phase)
      ensures Valid() && Total() == old(Total())
      decreases |seats|
    {
      if seats == [] {
        return;
      }
      var v := seats[0];
      var blocked := players[v].Holds(Card(Moat));
      if blocked {
        Say(Public(v, Blocked));
      } else {
        var done := ThiefVictim(a, v, seats[1..]);
        if !done {
          return;
        }
      }
      ThiefNext(a, seats[1..]);
    }

    /**
     * Opponent `v` reveals two cards: nothing revealed, or no treasure
     * among them, and the attack moves on (`done`); one treasure is
     * trashed; between two treasures the player chooses.
     */
    method ThiefVictim(a: nat, v: nat, rest: seq<nat>) returns (done: bool)
      requires Valid() && a < |players| && v < |players| && SeatsBelow(rest, |players|) && Open()
      modifies this, players[v]
      ensures done ==> stack == old(stack)
      ensures Pushed()
      ensures piles == old(piles) && current == old(current) && phase == old(phase)
      ensures Valid() && Total() == old(Total())
    {
      var revealed := RevealTwoFrom(v);
      if revealed == [] {
        Say(Public(v, NothingRevealed));
        return true;
      }
      Say(Public(v, Revealed(NamesOf(revealed))));
      done := ThiefSettle(a, v, rest, revealed);
    }

    /** No treasure among the cards opponent `v` revealed: they go to `v`'s discard pile. */
    method NoTreasureRevealed(v: nat, revealed: seq<Card>)
      requires Valid() && v < |players|
      modifies this, players[v]
      ensures players[v].discard == old(players[v].discard) + revealed
      ensures stack == old(stack) && trash == old(trash)
      ensures piles == old(piles) && current == old(current) && phase == old(phase)
      ensures Valid() && Total() == old(Total()) + multiset(revealed)
    {
      Say(Public(v, NoTreasures));
      Give(v, Discard, revealed);
      Say(Public(v, Discarded(NamesOf(revealed))));
    }

    /** What becomes of the one or two cards opponent `v` revealed to the Thief. */
    method ThiefSettle(a: nat, v: nat, rest: seq<nat>, revealed: seq<Card>) returns (done: bool)
      requires Valid() && a < |players| && v < |players| && SeatsBelow(rest, |players|) && Open()
      requires 0 < |revealed| <= 2
      modifies this, players[v]
      ensures done ==> stack == old(stack)
      ensures Pushed()
      ensures piles == old(piles) && current == old(current) && phase == old(phase)
      ensures Valid() && Total() == old(Total()) + multiset(revealed)
    {
      var first := IsTreasureName(revealed[0].name);
      var second := |revealed| == 2 && IsTreasureName(revealed[1].name);
      if !first && !second {
        NoTreasureRevealed(v, revealed);
        return true;
      }
      done := false;
      if first && second {
        Say(Private(a, Prompt(Thief)));
        Push(Frame(a, ThiefPick(v, rest, revealed)));
        assert stack[..|old(stack)|] == old(stack);
      } else {
        ThiefTrash(a, v, rest, revealed, if first then 0 else 1);
      }
    }

    /**
     * The Thief trashes the revealed card `i` of opponent `v`, the other
     * revealed card goes to `v`'s discard pile, and the player is asked
     * whether to gain the trashed card.
     */
    method ThiefTrash(a: nat, v: nat, rest: seq<nat>, revealed: seq<Card>, i: nat)
      requires Valid() && a < |players| && v < |players| && SeatsBelow(rest, |players|) && Open()
      requires i < |revealed| <= 2
      modifies this, players[v]
      ensures Pushed()
      ensures trash == old(trash) + [revealed[i]]
      ensures piles == old(piles) && current == old(current) && phase == old(phase)
      ensures Valid() && Total() == old(Total()) + multiset(revealed)
    {
      PlaceRevealed(v, revealed, i);
      Ask(a, Thief, Frame(a, ThiefGain(rest, revealed[i].name)));
    }

    /** The revealed card `i` of opponent `v` goes to the trash and the other one, if any, to `v`'s discard pile. */
    method PlaceRevealed(v: nat, revealed: seq<Card>, i: nat)
      requires Valid() && v < |players| && i < |revealed| <= 2
      modifies this, players[v]
      ensures trash == old(trash) + [revealed[i]] && stack == old(stack)
      ensures piles == old(piles) && current == old(current) && phase == old(phase)
      ensures Valid() && Total() == old(Total()) + multiset(revealed)
    {
      var trashed := revealed[i];
      var others := RemoveAt(revealed, i);
      PutTrash(trashed);
      Say(Public(v, Trashed([trashed.name])));
      if others != [] {
        Say(Public(v, Discarded([others[0].name])));
        Give(v, Discard, others);
      }
    }

    /**
     * The Library draws into player `a`'s hand until it holds seven cards;
     * an action card drawn waits for the player to decide whether to set it
     * aside, and the cards set aside go to the discard pile at the end.
     * The cards already set aside are held here until then.
     */
    method LibraryNext(a: nat, setAside: seq<Card>)
      requires Valid() && a < |players| && Open()
      modifies this, players[a]
      ensures |players[a].hand| >= |old(players[a].hand)| && players[a].hand[..|old(players[a].hand)|] == old(players[a].hand)
      ensures stack == old(stack) ==> |players[a].hand| >= 7 || players[a].deck == []
      ensures var base := LibraryBase(old(players[a].deck), old(players[a].hand), old(players[a].discard));
        players[a].discard == if stack == old(stack) then base + setAside else base
      ensures Pushed()
      ensures stack != old(stack) ==>
        var f := stack[|stack| - 1];
        |players[a].hand| < 7 && f.actor == a && f.point.LibraryChoice? && f.point.drawn.kind == Action &&
        f.point.setAside == setAside
      ensures piles == old(piles) && trash == old(trash) && current == old(current) && phase == old(phase)
      ensures Valid() && Total() == old(Total()) + multiset(setAside)
      decreases if |players[a].hand| < 7 then 7 - |players[a].hand| else 0
    {
      if |players[a].hand| >= 7 {
        SetAsideToDiscard(a, setAside);
        return;
      }
      var more := LibraryReveal(a, setAside);
      if more {
        LibraryNext(a, setAside);
      }
    }

    /**
     * One draw of the Library below seven cards: the card drawn joins the
     * hand (`more`), or waits on the player's decision, or there is none
     * left and the cards set aside go to the discard pile.
     */
    method LibraryReveal(a: nat, setAside: seq<Card>) returns (more: bool)
      requires Valid() && a < |players| && Open() && |players[a].hand| < 7
      modifies this, players[a]
      ensures more ==>
        stack == old(stack) && |players[a].hand| == |old(players[a].hand)| + 1 &&
        players[a].hand[..|old(players[a].hand)|] == old(players[a].hand) &&
        players[a].hand[|old(players[a].hand)|].kind != Action && Total() == old(Total())
      ensures !more ==> players[a].hand == old(players[a].hand) && Total() == old(Total()) + multiset(setAside)
      ensures !more && stack == old(stack) ==> players[a].deck == [] && players[a].discard == setAside
      ensures var base := LibraryBase(old(players[a].deck), old(players[a].hand), old(players[a].discard));
        (more ==> LibraryBase(players[a].deck, players[a].hand, players[a].discard) == base) &&
        (!more ==> players[a].discard == if stack == old(stack) then base + setAside else base)
      ensures Pushed()
      ensures stack != old(stack) ==>
        var f := stack[|stack| - 1];
        f.actor == a && f.point.LibraryChoice? && f.point.drawn.kind == Action && f.point.setAside == setAside
      ensures piles == old(piles) && trash == old(trash) && current == old(current) && phase == old(phase)
      ensures Valid()
    {
      ghost var deck0, hand0, discard0 := players[a].deck, players[a].hand, players[a].discard;
      var c := RevealFrom(a);
      if c.None? {
        Say(Public(a, CannotDraw));
        SetAsideToDiscard(a, setAside);
        return false;
      }
      more := LibraryDrawn(a, setAside, c.value);
      if more && deck0 != [] {
        LibraryBaseDraw(deck0, hand0, discard0);
      }
    }

    /**
     * The Library drew `c`: an action waits for the player to decide
     * whether to set it aside, any other card joins the hand and drawing
     * goes on (`more`).
     */
    method LibraryDrawn(a: nat, setAside: seq<Card>, c: Card) returns (more: bool)
      requires Valid() && a < |players| && Open()
      modifies this, players[a]
      ensures more <==> c.kind != Action
      ensures more ==> stack == old(stack) && players[a].hand == old(players[a].hand) + [c]
      ensures more ==> Total() == old(Total()) + multiset{c}
      ensures !more ==> stack == old(stack) + [Frame(a, LibraryChoice(setAside, c))] && players[a].hand == old(players[a].hand)
      ensures !more ==> Total() == old(Total()) + multiset(setAside) + multiset{c}
      ensures players[a].discard == old(players[a].discard) && players[a].deck == old(players[a].deck)
      ensures piles == old(piles) && trash == old(trash) && current == old(current) && phase == old(phase)
      ensures Valid()
    {
      Say(Public(a, DrewCard(c.name)));
      if c.kind == Action {
        Say(Private(a, Prompt(Library)));
        Push(Frame(a, LibraryChoice(setAside, c)));
        return false;
      }
      Give(a, Hand, [c]);
      return true;
    }

    /** The Library's cards set aside go to the discard pile. */
    method SetAsideToDiscard(a: nat, setAside: seq<Card>)
      requires Valid() && a < |players|
      modifies players[a]
      ensures players[a].hand == old(players[a].hand) && players[a].deck == old(players[a].deck)
      ensures players[a].discard == old(players[a].discard) + setAside && players[a].inPlay == old(players[a].inPlay)
      ensures Total() == old(Total()) + multiset(setAside)
    {
      if setAside != [] {
        Give(a, Discard, setAside);
      }
    }

    /**
     * Runs the Throne Rooms that wait on a finished effect: a first play
     * that finished starts the second, and a second play that finished
     * ends its Throne Room, until the top of the stack waits for an answer,
     * the stack is empty or the game halts.
     */
    method Settle()
      requires Valid()
      modifies this, players
      ensures Valid() && Ready() && Total() == old(Total()) && current == old(current)
    {
      while phase == Running && !Settled(stack)
        invariant Valid() && Total() == old(Total()) && current == old(current)
        decreases if phase == Running then Pending(stack) + 1 else 0
      {
        ghost var s0 := stack;
        var f := PopFrame();
        match f.point
        case ThroneFirst(replay) =>
          ThroneProgress(s0, f.actor);
          ThroneReplay(f.actor, replay);
        case _ =>
          ThroneDone(s0);
      }
    }

    /**
     * The second play of the card a Throne Room chose. A Feast trashed
     * itself, so the top card of the trash comes back into play; a Throne
     * Room puts the card below the top of the cards in play back on top;
     * any other card is still on top.
     */
    method ThroneReplay(a: nat, replay: Name)
      requires Valid() && a < |players| && phase == Running && Open()
      modifies this, players
      ensures Valid() && Total() == old(Total()) && current == old(current)
      ensures phase == Running ==> Settled(stack) || stack == old(stack) + [Frame(a, ThroneSecond)]
    {
      var ok := ThroneRestore(a, replay);
      if !ok {
        return;
      }
      Push(Frame(a, ThroneSecond));
      PlayEffect(a);
    }

    /** Puts the card a Throne Room replays back on top of the cards in play; an empty trash or too few cards in play raise. */
    method ThroneRestore(a: nat, replay: Name) returns (ok: bool)
      requires Valid() && a < |players| && phase == Running
      modifies this, players[a]
      ensures ok <==> phase == Running
      ensures ok ==> phase == old(phase)
      ensures !ok ==> phase == Halted
      ensures stack == old(stack) && current == old(current)
      ensures Valid() && Total() == old(Total())
    {
      if replay == Feast {
        var c := FromTrash(a, InPlay);
        if c.None? {
          Halt();
          return false;
        }
      } else if replay == ThroneRoom {
        var c := Take(a, InPlay, -2);
        if c.None? {
          Halt();
          return false;
        }
        Give(a, InPlay, [c.value]);
      }
      return true;
    }

    /** The answer a suspended effect was waiting for: its frame is taken off the stack, the effect resumes, and the Throne Rooms it finishes resume after it. */
    method Feed(answer: string)
      requires Valid() && Ready() && phase == Running && stack != []
      modifies this, players
      ensures Valid() && Ready() && Total() == old(Total()) && current == old(current)
    {
      var f := PopFrame();
      Resume(f, answer);
      Settle();
    }

    /** Resumes the effect suspended at `f` with the answer. */
    method Resume(f: Frame, answer: string)
      requires Valid() && phase == Running && Open() && FrameOk(f, |players|) && !Waiting(f)
      modifies this, players
      ensures Valid() && Total() == old(Total()) + Held(f) && current == old(current)
    {
      if f.point.ThiefPick? {
        var p := f.point;
        ThiefTrash(f.actor, p.victim, p.rest, p.revealed, if answer == "0" then 0 else 1);
      } else if f.point.LibraryChoice? {
        ResumeLibrary(f.actor, f.point.setAside, f.point.drawn, answer);
      } else {
        ResumeEmpty(f, answer);
      }
    }

    /** Resumes an effect that holds no cards of its own at `f`. */
    method ResumeEmpty(f: Frame, answer: string)
      requires Valid() && phase == Running && Open() && FrameOk(f, |players|) && !Waiting(f)
      requires !f.point.ThiefPick? && !f.point.LibraryChoice?
      modifies this, players
      ensures Valid() && Total() == old(Total()) && current == old(current)
    {
      var a := f.actor;
      match f.point
      case CellarDiscard => ResumeCellar(a, answer);
      case ChapelTrash => ResumeChapel(a, answer);
      case ChancellorChoice => ResumeChancellor(a, answer);
      case WorkshopGain => ResumeGain(a, Workshop, 4, GainTypes, WorkshopGain, answer);
      case FeastGain => ResumeGain(a, Feast, 5, GainTypes, FeastGain, answer);
      case MilitiaDiscard(v, rest) => ResumeMilitia(a, v, rest, answer);
      case RemodelPick => ResumeRemodel(a, answer);
      case RemodelGain(budget) => ResumeGain(a, Remodel, budget, GainTypes, RemodelGain(budget), answer);
      case SpyChoice(target, rest, seen) => ResumeSpy(a, target, rest, seen, answer);
      case ThiefGain(rest, taken) => ResumeThiefGain(a, rest, taken, answer);
      case ThroneSelect => ResumeThroneRoom(a, answer);
      case MinePick => ResumeMine(a, answer);
      case MineGain(budget) => ResumeMineGain(a, budget, answer);
    }

    /**
     * Moves the hand cards at the given Python indices, one after the
     * other, to player `p`'s discard pile, and returns their names. A field
     * that is not a number, or a position outside the hand, raises.
     */
    method DiscardFields(p: nat, fields: seq<string>) returns (names: seq<Name>)
      requires Valid() && p < |players| && phase == Running
      modifies this, players[p]
      ensures phase == Running ==> |names| == |fields| && |players[p].hand| == |old(players[p].hand)| - |fields|
      ensures phase == Running <==> Pick(old(players[p].hand), fields).Some?
      ensures Pick(old(players[p].hand), fields).Some? ==>
        var r := Pick(old(players[p].hand), fields).value;
        names == NamesOf(r.0) && players[p].hand == r.1 && players[p].discard == old(players[p].discard) + r.0
      ensures phase == Running || phase == Halted
      ensures players[p].Owned() == old(players[p].Owned()) && players[p].SameCounters()
      ensures players[p].deck == old(players[p].deck) && players[p].inPlay == old(players[p].inPlay)
      ensures stack == old(stack) && piles == old(piles) && trash == old(trash) && log == old(log)
      ensures current == old(current)
      ensures Valid() && Total() == old(Total())
      decreases |fields|
    {
      names := [];
      if fields == [] {
        return;
      }
      ghost var h0, d0 := players[p].hand, players[p].discard;
      var c := DiscardField(p, fields[0]);
      if c.None? {
        PickHead(h0, fields);
        return;
      }
      ghost var k := PyIndex(|h0|, ParseInt(fields[0]).value).value;
      PickNext(h0, fields, k);
      var rest := DiscardFields(p, fields[1..]);
      names := [c.value] + rest;
      if phase == Running {
        PickNames(h0, fields, k, d0);
      }
    }

    /** Moves the hand card at the Python index `field` to player `p`'s discard pile; raises as `DiscardFields` does. */
    method DiscardField(p: nat, field: string) returns (c: Option<Name>)
      requires Valid() && p < |players| && phase == Running
      modifies this, players[p]
      ensures c.Some? <==> phase == Running
      ensures c.None? <==> ParseInt(field).None? || PyIndex(|old(players[p].hand)|, ParseInt(field).value).None?
      ensures c.Some? ==>
        var k := PyIndex(|old(players[p].hand)|, ParseInt(field).value).value;
        c.value == old(players[p].hand)[k].name && players[p].hand == RemoveAt(old(players[p].hand), k) &&
        players[p].discard == old(players[p].discard) + [old(players[p].hand)[k]]
      ensures c.Some? ==> |players[p].hand| == |old(players[p].hand)| - 1
      ensures phase == Running || phase == Halted
      ensures players[p].Owned() == old(players[p].Owned()) && players[p].SameCounters()
      ensures players[p].deck == old(players[p].deck) && players[p].inPlay == old(players[p].inPlay)
      ensures stack == old(stack) && piles == old(piles) && trash == old(trash) && log == old(log)
      ensures current == old(current)
      ensures Valid() && Total() == old(Total())
    {
      var k := ParseInt(field);
      if k.None? {
        Halt();
        return None;
      }
      var moved := Move(p, Hand, k.value, Discard);
      if moved.None? {
        Halt();
        return None;
      }
      c := Some(moved.value.name);
    }

    /**
     * Moves the hand cards at the given Python indices, one after the
     * other, to the trash, and returns their names. A field that is not a
     * number, or a position outside the hand, raises.
     */
    method TrashFields(p: nat, fields: seq<string>) returns (names: seq<Name>)
      requires Valid() && p < |players| && phase == Running
      modifies this, players[p]
      ensures phase == Running ==>
        |names| == |fields| && |players[p].hand| == |old(players[p].hand)| - |fields| &&
        |trash| == |old(trash)| + |fields|
      ensures phase == Running <==> Pick(old(players[p].hand), fields).Some?
      ensures Pick(old(players[p].hand), fields).Some? ==>
        var r := Pick(old(players[p].hand), fields).value;
        names == NamesOf(r.0) && players[p].hand == r.1 && trash == old(trash) + r.0
      ensures |trash| <= |old(trash)| + |fields|
      ensures phase == Running || phase == Halted
      ensures players[p].SameCounters()
      ensures stack == old(stack) && piles == old(piles) && log == old(log) && current == old(current)
      ensures Valid() && Total() == old(Total())
      decreases |fields|
    {
      names := [];
      if fields == [] {
        return;
      }
      ghost var h0, t0 := players[p].hand, trash;
      var c := TrashField(p, fields[0]);
      if c.None? {
        PickHead(h0, fields);
        return;
      }
      ghost var k := PyIndex(|h0|, ParseInt(fields[0]).value).value;
      PickNext(h0, fields, k);
      var rest := TrashFields(p, fields[1..]);
      names := [c.value] + rest;
      if phase == Running {
        PickNames(h0, fields, k, t0);
      }
    }

    /** Moves the hand card at the Python index `field` to the trash; raises as `TrashFields` does. */
    method TrashField(p: nat, field: string) returns (c: Option<Name>)
      requires Valid() && p < |players| && phase == Running
      modifies this, players[p]
      ensures c.Some? <==> phase == Running
      ensures c.None? <==> ParseInt(field).None? || PyIndex(|old(players[p].hand)|, ParseInt(field).value).None?
      ensures c.Some? ==>
        var k := PyIndex(|old(players[p].hand)|, ParseInt(field).value).value;
        c.value == old(players[p].hand)[k].name && players[p].hand == RemoveAt(old(players[p].hand), k) &&
        trash == old(trash) + [old(players[p].hand)[k]]
      ensures c.Some? ==> |players[p].hand| == |old(players[p].hand)| - 1 && |trash| == |old(trash)| + 1
      ensures c.None? ==> trash == old(trash)
      ensures phase == Running || phase == Halted
      ensures players[p].SameCounters()
      ensures stack == old(stack) && piles == old(piles) && log == old(log) && current == old(current)
      ensures Valid() && Total() == old(Total())
    {
      var k := ParseInt(field);
      if k.None? {
        Halt();
        return None;
      }
      var trashed := ToTrash(p, Hand, k.value);
      if trashed.None? {
        Halt();
        return None;
      }
      c := Some(trashed.value.name);
    }

    /** Cellar's answer: the chosen cards are discarded and as many are drawn. */
    method ResumeCellar(a: nat, answer: string)
      requires Valid() && a < |players| && phase == Running
      modifies this, players[a]
      ensures IndexFields(answer) == [""] ==>
        phase == Running && unchanged(players[a]) && log == old(log) + [Public(a, Discarded([]))]
      ensures IndexFields(answer) != [""] ==> (phase == Running <==> Pick(old(players[a].hand), IndexFields(answer)).Some?)
      ensures IndexFields(answer) != [""] && Pick(old(players[a].hand), IndexFields(answer)).Some? ==>
        var r := Pick(old(players[a].hand), IndexFields(answer)).value;
        |players[a].hand| >= |r.1| && players[a].hand[..|r.1|] == r.1 &&
        log == old(log) + [Public(a, Discarded(NamesOf(r.0))), Public(a, Drew(|IndexFields(answer)|))]
      ensures phase == Running ==> |players[a].hand| == |old(players[a].hand)|
      ensures phase == Running || phase == Halted
      ensures players[a].inPlay == old(players[a].inPlay) && players[a].SameCounters()
      ensures stack == old(stack) && piles == old(piles) && trash == old(trash) && current == old(current)
      ensures players[a].Owned() == old(players[a].Owned())
      ensures Valid() && Total() == old(Total())
    {
      var fields := IndexFields(answer);
      if fields == [""] {
        Say(Public(a, Discarded([])));
        return;
      }
      var names := DiscardFields(a, fields);
      if phase != Running {
        return;
      }
      Say(Public(a, Discarded(names)));
      ghost var p := players[a];
      assert |p.deck| + |p.hand| + |p.discard| + |p.inPlay| == |old(p.Owned())|;
      Draw(a, |fields|);
      Say(Public(a, Drew(|fields|)));
    }

    /** Chapel's answer: the last four positions given, at most, are trashed; earlier ones are ignored. */
    method ResumeChapel(a: nat, answer: string)
      requires Valid() && a < |players| && phase == Running
      modifies this, players[a]
      ensures IndexFields(answer) == [""] ==>
        phase == Running && unchanged(players[a]) && trash == old(trash) && log == old(log) + [Public(a, Trashed([]))]
      ensures phase == Running && IndexFields(answer) != [""] ==>
        var k := Min(4, |IndexFields(answer)|);
        |trash| == |old(trash)| + k && |players[a].hand| == |old(players[a].hand)| - k
      ensures IndexFields(answer) != [""] ==>
        var fields := IndexFields(answer)[..Min(4, |IndexFields(answer)|)];
        (phase == Running <==> Pick(old(players[a].hand), fields).Some?) &&
        (Pick(old(players[a].hand), fields).Some? ==>
          var r := Pick(old(players[a].hand), fields).value;
          players[a].hand == r.1 && trash == old(trash) + r.0 && log == old(log) + [Public(a, Trashed(NamesOf(r.0)))])
      ensures phase == Running || phase == Halted
      ensures players[a].SameCounters()
      ensures stack == old(stack) && piles == old(piles) && current == old(current)
      ensures |trash| <= |old(trash)| + 4
      ensures Valid() && Total() == old(Total())
    {
      var all := IndexFields(answer);
      var fields := all[..Min(4, |all|)];
      if fields == [""] {
        Say(Public(a, Trashed([])));
        return;
      }
      var names := TrashFields(a, fields);
      if phase == Running {
        Say(Public(a, Trashed(names)));
      }
    }

    /** Chancellor's answer: "0" puts the whole deck into the discard pile. */
    method ResumeChancellor(a: nat, answer: string)
      requires Valid() && a < |players|
      modifies this, players[a]
      ensures answer == "0" ==>
        players[a].deck == [] && players[a].discard == old(players[a].discard) + old(players[a].deck) &&
        log == old(log) + [Public(a, DeckDiscarded(true))]
      ensures answer != "0" ==> unchanged(players[a]) && log == old(log) + [Public(a, DeckDiscarded(false))]
      ensures players[a].hand == old(players[a].hand) && players[a].inPlay == old(players[a].inPlay)
      ensures stack == old(stack) && piles == old(piles) && trash == old(trash)
      ensures current == old(current) && phase == old(phase)
      ensures Valid() && Total() == old(Total())
    {
      if answer == "0" {
        Transfer(a, Deck, Discard);
        Say(Public(a, DeckDiscarded(true)));
      } else {
        Say(Public(a, DeckDiscarded(false)));
      }
    }

    /**
     * The answer to a gain of Workshop, Feast or Remodel: the gain is
     * tried, and a refused gain asks again.
     */
    method ResumeGain(a: nat, n: Name, budget: int, allowed: set<CardType>, pt: Point, answer: string)
      requires Valid() && a < |players| && phase == Running && Open()
      requires FrameOk(Frame(a, pt), |players|) && !Waiting(Frame(a, pt)) && Held(Frame(a, pt)) == multiset{}
      modifies this, players[a]
      ensures ParseInt(answer).None? ==> phase == Halted && stack == old(stack) && unchanged(players[a])
      ensures ParseInt(answer).Some? && PyIndex(GainSlots, ParseInt(answer).value).None? ==>
        phase == Halted && stack == old(stack) && unchanged(players[a]) && piles == old(piles)
      ensures ParseInt(answer).Some? && PyIndex(GainSlots, ParseInt(answer).value).Some? ==>
        var s := PyIndex(GainSlots, ParseInt(answer).value).value;
        phase == Running &&
        (CanGain(old(piles[s]), allowed, budget) ==>
          stack == old(stack) && piles == old(piles)[s := Pop(old(piles[s]))] &&
          players[a].discard == old(players[a].discard) + [Top(old(piles[s]))]) &&
        (!CanGain(old(piles[s]), allowed, budget) ==>
          stack == old(stack) + [Frame(a, pt)] && unchanged(players[a]) && piles == old(piles))
      ensures Pushed() && trash == old(trash) && current == old(current)
      ensures Valid() && Total() == old(Total())
    {
      var k := ParseInt(answer);
      if k.None? {
        Halt();
        return;
      }
      var ok := GainCard(a, budget, k.value, allowed);
      if !ok && phase == Running {
        Retry(a, n, None, Frame(a, pt));
      }
    }

    /**
     * Militia's answer from opponent `v`: nothing chosen, or a choice that
     * would not leave exactly three cards, is refused and asked again;
     * otherwise the cards are discarded and the attack moves on.
     */
    method ResumeMilitia(a: nat, v: nat, rest: seq<nat>, answer: string)
      requires Valid() && a < |players| && v < |players| && SeatsBelow(rest, |players|)
      requires phase == Running && Open()
      modifies this, players[v]
      ensures IndexFields(answer) == [""] || |old(players[v].hand)| - |IndexFields(answer)| != 3 ==>
        phase == Running && unchanged(players[v]) && stack == old(stack) + [Frame(a, MilitiaDiscard(v, rest))]
      ensures phase == Running && IndexFields(answer) != [""] && |old(players[v].hand)| - |IndexFields(answer)| == 3 ==>
        |players[v].hand| == 3
      ensures IndexFields(answer) != [""] && |old(players[v].hand)| - |IndexFields(answer)| == 3 ==>
        (phase == Running <==> Pick(old(players[v].hand), IndexFields(answer)).Some?) &&
        (Pick(old(players[v].hand), IndexFields(answer)).Some? ==>
          var r := Pick(old(players[v].hand), IndexFields(answer)).value;
          players[v].hand == r.1 && players[v].discard == old(players[v].discard) + r.0 &&
          |log| > |old(log)| && log[|old(log)|] == Public(v, Discarded(NamesOf(r.0))))
      ensures phase == Running || phase == Halted
      ensures Pushed() && piles == old(piles) && trash == old(trash) && current == old(current)
      ensures players[v].Owned() == old(players[v].Owned())
      ensures Valid() && Total() == old(Total())
    {
      var fields := IndexFields(answer);
      if fields == [""] || |players[v].hand| - |fields| != 3 {
        Say(Private(v, if fields == [""] then NoSelection(Militia) else WrongSelection(Militia)));
        Say(Private(a, WaitingFor(v)));
        Retry(v, Militia, None, Frame(a, MilitiaDiscard(v, rest)));
        return;
      }
      MilitiaChosen(a, v, rest, fields);
    }

    /**
     * Opponent `v` chose positions `fields` that leave three cards: the
     * cards go to the discard pile and the attack moves on, or an invalid
     * position halts the game.
     */
    method MilitiaChosen(a: nat, v: nat, rest: seq<nat>, fields: seq<string>)
      requires Valid() && a < |players| && v < |players| && SeatsBelow(rest, |players|)
      requires phase == Running && Open() && |players[v].hand| - |fields| == 3
      modifies this, players[v]
      ensures phase == Running ==> |players[v].hand| == 3
      ensures phase == Running <==> Pick(old(players[v].hand), fields).Some?
      ensures Pick(old(players[v].hand), fields).Some? ==>
        var r := Pick(old(players[v].hand), fields).value;
        players[v].hand == r.1 && players[v].discard == old(players[v].discard) + r.0 &&
        |log| > |old(log)| && log[|old(log)|] == Public(v, Discarded(NamesOf(r.0)))
      ensures phase == Running || phase == Halted
      ensures Pushed() && piles == old(piles) && trash == old(trash) && current == old(current)
      ensures players[v].Owned() == old(players[v].Owned())
      ensures Valid() && Total() == old(Total())
    {
      var names := DiscardFields(v, fields);
      if phase != Running {
        return;
      }
      label discarded:
      MilitiaDiscarded(a, v, rest, names);
      assert unchanged@discarded(players[v]);
    }

    /** Opponent `v` discarded `names` to the Militia: the discard is announced and the attack moves on to `rest`. */
    method MilitiaDiscarded(a: nat, v: nat, rest: seq<nat>, names: seq<Name>)
      requires Valid() && a < |players| && v < |players| && SeatsBelow(rest, |players|) && Open()
      modifies this
      ensures |log| > |old(log)| && log[|old(log)|] == Public(v, Discarded(names))
      ensures Pushed() && piles == old(piles) && trash == old(trash) && current == old(current) && phase == old(phase)
      ensures Valid() && Total() == old(Total())
    {
      Say(Public(v, Discarded(names)));
      MilitiaAttack(a, rest);
    }

    /** Remodel's choice of a card to trash; the gain that follows may cost up to two more. */
    method ResumeRemodel(a: nat, answer: string)
      requires Valid() && a < |players| && phase == Running && Open()
      modifies this, players[a]
      ensures answer == "" ==>
        phase == Running && unchanged(players[a]) && trash == old(trash) && stack == old(stack) + [Frame(a, RemodelPick)]
      ensures answer != "" && phase == Running ==>
        |trash| == |old(trash)| + 1 && trash[..|old(trash)|] == old(trash) &&
        |players[a].hand| == |old(players[a].hand)| - 1 &&
        stack == old(stack) + [Frame(a, RemodelGain(trash[|trash| - 1].cost + 2))]
      ensures answer != "" ==>
        var i := ParseInt(FirstField(answer));
        (phase == Halted <==> i.None? || PyIndex(|old(players[a].hand)|, i.value).None?)
      ensures (answer != "" && ParseInt(FirstField(answer)).Some? &&
               PyIndex(|old(players[a].hand)|, ParseInt(FirstField(answer)).value).Some?) ==>
        var k := PyIndex(|old(players[a].hand)|, ParseInt(FirstField(answer)).value).value;
        var c := old(players[a].hand)[k];
        players[a].hand == RemoveAt(old(players[a].hand), k) && trash == old(trash) + [c] &&
        stack == old(stack) + [Frame(a, RemodelGain(c.cost + 2))]
      ensures phase == Running || phase == Halted
      ensures Pushed() && piles == old(piles) && current == old(current)
      ensures Valid() && Total() == old(Total())
    {
      if answer == "" {
        Retry(a, Remodel, Some(NoSelection(Remodel)), Frame(a, RemodelPick));
        return;
      }
      var k := ParseInt(FirstField(answer));
      if k.None? {
        Halt();
        return;
      }
      RemodelChoose(a, k.value);
    }

    /** Remodel's choice of hand position `idx`: an invalid position raises; otherwise the card is trashed. */
    method RemodelChoose(a: nat, idx: int)
      requires Valid() && a < |players| && phase == Running && Open()
      modifies this, players[a]
      ensures phase == Halted <==> PyIndex(|old(players[a].hand)|, idx).None?
      ensures PyIndex(|old(players[a].hand)|, idx).Some? ==>
        var k := PyIndex(|old(players[a].hand)|, idx).value;
        var c := old(players[a].hand)[k];
        players[a].hand == RemoveAt(old(players[a].hand), k) && trash == old(trash) + [c] &&
        stack == old(stack) + [Frame(a, RemodelGain(c.cost + 2))]
      ensures phase == Running || phase == Halted
      ensures Pushed() && piles == old(piles) && current == old(current)
      ensures Valid() && Total() == old(Total())
    {
      var c := players[a].At(Hand, idx);
      if c.None? {
        Halt();
        return;
      }
      RemodelTrash(a, idx, c.value);
    }

    /** Remodel, once the chosen card is known: trash it and ask for the gain. */
    method RemodelTrash(a: nat, idx: int, c: Card)
      requires Valid() && a < |players| && phase == Running && Open()
      requires players[a].At(Hand, idx) == Some(c)
      modifies this, players[a]
      ensures trash == old(trash) + [c] && |players[a].hand| == |old(players[a].hand)| - 1
      ensures players[a].hand == RemoveAt(old(players[a].hand), PyIndex(|old(players[a].hand)|, idx).value)
      ensures stack == old(stack) + [Frame(a, RemodelGain(c.cost + 2))]
      ensures log == old(log) + [Public(a, Trashed([c.name])), Private(a, Prompt(Remodel))]
      ensures phase == old(phase)
      ensures Pushed() && piles == old(piles) && current == old(current)
      ensures Valid() && Total() == old(Total())
    {
      var _ := ToTrash(a, Hand, idx);
      Say(Public(a, Trashed([c.name])));
      Ask(a, Remodel, Frame(a, RemodelGain(c.cost + 2)));
    }

    /** Mine's choice of a treasure to trash; the treasure gained may cost up to three more. */
    method ResumeMine(a: nat, answer: string)
      requires Valid() && a < |players| && phase == Running && Open()
      modifies this, players[a]
      ensures answer == "" ==>
        phase == Running && unchanged(players[a]) && trash == old(trash) && stack == old(stack) + [Frame(a, MinePick)]
      ensures phase == Running && trash == old(trash) ==>
        unchanged(players[a]) && stack == old(stack) + [Frame(a, MinePick)]
      ensures phase == Running && trash != old(trash) ==>
        |trash| == |old(trash)| + 1 && trash[..|old(trash)|] == old(trash) && trash[|trash| - 1].kind == Treasure &&
        |players[a].hand| == |old(players[a].hand)| - 1 &&
        stack == old(stack) + [Frame(a, MineGain(trash[|trash| - 1].cost + 3))]
      ensures answer != "" ==>
        var i := ParseInt(FirstField(answer));
        (phase == Halted <==> i.None? || PyIndex(|old(players[a].hand)|, i.value).None?)
      ensures (answer != "" && ParseInt(FirstField(answer)).Some? &&
               PyIndex(|old(players[a].hand)|, ParseInt(FirstField(answer)).value).Some?) ==>
        var k := PyIndex(|old(players[a].hand)|, ParseInt(FirstField(answer)).value).value;
        var c := old(players[a].hand)[k];
        (c.kind == Treasure ==>
          players[a].hand == RemoveAt(old(players[a].hand), k) && trash == old(trash) + [c] &&
          stack == old(stack) + [Frame(a, MineGain(c.cost + 3))]) &&
        (c.kind != Treasure ==> unchanged(players[a]) && trash == old(trash) && stack == old(stack) + [Frame(a, MinePick)])
      ensures phase == Running || phase == Halted
      ensures Pushed() && piles == old(piles) && current == old(current)
      ensures Valid() && Total() == old(Total())
    {
      if answer == "" {
        Retry(a, Mine, Some(NoSelection(Mine)), Frame(a, MinePick));
        return;
      }
      var k := ParseInt(FirstField(answer));
      if k.None? {
        Halt();
        return;
      }
      MineChoose(a, k.value);
    }

    /** Mine's choice of hand position `idx`: an invalid position raises; a treasure is trashed; anything else asks again. */
    method MineChoose(a: nat, idx: int)
      requires Valid() && a < |players| && phase == Running && Open()
      modifies this, players[a]
      ensures phase == Halted <==> PyIndex(|old(players[a].hand)|, idx).None?
      ensures PyIndex(|old(players[a].hand)|, idx).Some? ==>
        var c := old(players[a].hand)[PyIndex(|old(players[a].hand)|, idx).value];
        (c.kind == Treasure ==>
          players[a].hand == RemoveAt(old(players[a].hand), PyIndex(|old(players[a].hand)|, idx).value) &&
          trash == old(trash) + [c] && stack == old(stack) + [Frame(a, MineGain(c.cost + 3))]) &&
        (c.kind != Treasure ==> unchanged(players[a]) && trash == old(trash) && stack == old(stack) + [Frame(a, MinePick)])
      ensures phase == Running && trash == old(trash) ==>
        unchanged(players[a]) && stack == old(stack) + [Frame(a, MinePick)]
      ensures phase == Running && trash != old(trash) ==>
        |trash| == |old(trash)| + 1 && trash[..|old(trash)|] == old(trash) && trash[|trash| - 1].kind == Treasure &&
        |players[a].hand| == |old(players[a].hand)| - 1 &&
        stack == old(stack) + [Frame(a, MineGain(trash[|trash| - 1].cost + 3))]
      ensures phase == Running || phase == Halted
      ensures Pushed() && piles == old(piles) && current == old(current)
      ensures Valid() && Total() == old(Total())
    {
      var c := players[a].At(Hand, idx);
      if c.None? {
        Halt();
        return;
      }
      if c.value.kind != Treasure {
        Retry(a, Mine, Some(WrongSelection(Mine)), Frame(a, MinePick));
        return;
      }
      MineTrash(a, idx, c.value);
    }

    /** Mine, once the chosen card is known to be a treasure: trash it and ask for the gain. */
    method MineTrash(a: nat, idx: int, c: Card)
      requires Valid() && a < |players| && phase == Running && Open()
      requires players[a].At(Hand, idx) == Some(c)
      modifies this, players[a]
      ensures trash == old(trash) + [c] && |players[a].hand| == |old(players[a].hand)| - 1
      ensures players[a].hand == RemoveAt(old(players[a].hand), PyIndex(|old(players[a].hand)|, idx).value)
      ensures stack == old(stack) + [Frame(a, MineGain(c.cost + 3))]
      ensures log == old(log) + [Public(a, Trashed([c.name])), Private(a, Prompt(Mine))]
      ensures phase == old(phase)
      ensures Pushed() && piles == old(piles) && current == old(current)
      ensures Valid() && Total() == old(Total())
    {
      var _ := ToTrash(a, Hand, idx);
      Say(Public(a, Trashed([c.name])));
      Ask(a, Mine, Frame(a, MineGain(c.cost + 3)));
    }

    /** Mine's gain: a treasure within the budget, which then moves from the discard pile to the hand. */
    method ResumeMineGain(a: nat, budget: int, answer: string)
      requires Valid() && a < |players| && phase == Running && Open()
      modifies this, players[a]
      ensures ParseInt(answer).None? ==> phase == Halted && stack == old(stack) && unchanged(players[a])
      ensures ParseInt(answer).Some? && PyIndex(GainSlots, ParseInt(answer).value).None? ==>
        phase == Halted && stack == old(stack) && unchanged(players[a]) && piles == old(piles)
      ensures ParseInt(answer).Some? && PyIndex(GainSlots, ParseInt(answer).value).Some? ==>
        var s := PyIndex(GainSlots, ParseInt(answer).value).value;
        phase == Running &&
        (CanGain(old(piles[s]), TreasureOnly, budget) ==>
          stack == old(stack) && piles == old(piles)[s := Pop(old(piles[s]))] &&
          players[a].hand == old(players[a].hand) + [Top(old(piles[s]))] &&
          players[a].discard == old(players[a].discard)) &&
        (!CanGain(old(piles[s]), TreasureOnly, budget) ==>
          stack == old(stack) + [Frame(a, MineGain(budget))] && unchanged(players[a]) && piles == old(piles))
      ensures Pushed() && trash == old(trash) && current == old(current)
      ensures Valid() && Total() == old(Total())
    {
      var k := ParseInt(answer);
      if k.None? {
        Halt();
        return;
      }
      var ok := GainCard(a, budget, k.value, TreasureOnly);
      if phase != Running {
        return;
      }
      if ok {
        label gained:
        var _ := Move(a, Discard, -1, Hand);
        assert unchanged@gained(this);
      } else {
        Retry(a, Mine, None, Frame(a, MineGain(budget)));
      }
    }

    /** The Spy's decision about `target`'s revealed card: "0" discards it; then the next player reveals. */
    method ResumeSpy(a: nat, target: nat, rest: seq<nat>, seen: Name, answer: string)
      requires Valid() && a < |players| && target < |players| && SeatsBelow(rest, |players|)
      requires phase == Running && Open()
      modifies this, players
      ensures Pushed() && piles == old(piles) && trash == old(trash) && current == old(current)
      ensures Valid() && Total() == old(Total())
    {
      if answer == "0" {
        var c := Move(target, Deck, -1, Discard);
        if c.None? {
          Halt();
          return;
        }
        Say(Public(target, Discarded([c.value.name])));
      } else {
        Say(Public(target, Kept(seen)));
      }
      SpyNext(a, rest);
    }

    /** The Thief's decision about the trashed card: "0" takes the top of the trash; then the next opponent. */
    method ResumeThiefGain(a: nat, rest: seq<nat>, taken: Name, answer: string)
      requires Valid() && a < |players| && SeatsBelow(rest, |players|) && phase == Running && Open()
      modifies this, players
      ensures Pushed() && piles == old(piles) && current == old(current)
      ensures Valid() && Total() == old(Total())
    {
      if answer == "0" {
        var c := FromTrash(a, Discard);
        if c.None? {
          Halt();
          return;
        }
        Say(Public(a, GainedTrashed(c.value.name, true)));
      } else {
        Say(Public(a, GainedTrashed(taken, false)));
      }
      ThiefNext(a, rest);
    }

    /**
     * Throne Room's choice: nothing chosen, or a card that is not an
     * action, is refused and asked again; otherwise the card moves into
     * play and its first play starts, with the Throne Room waiting on it.
     */
    method ResumeThroneRoom(a: nat, answer: string)
      requires Valid() && a < |players| && phase == Running && Open()
      modifies this, players
      ensures answer == "" ==>
        phase == Running && unchanged(players) && stack == old(stack) + [Frame(a, ThroneSelect)]
      ensures answer != "" && ParseInt(FirstField(answer)).None? ==>
        phase == Halted && unchanged(players) && stack == old(stack)
      ensures answer != "" && ParseInt(FirstField(answer)).Some? ==>
        var c := old(players[a].At(Hand, ParseInt(FirstField(answer)).value));
        (c.None? ==> phase == Halted && unchanged(players) && stack == old(stack)) &&
        (c.Some? && c.value.kind != Action ==>
          phase == Running && unchanged(players) && stack == old(stack) + [Frame(a, ThroneSelect)]) &&
        (c.Some? && c.value.kind == Action ==>
          |stack| > |old(stack)| && stack[..|old(stack)| + 1] == old(stack) + [Frame(a, ThroneFirst(c.value.name))])
      ensures Valid() && Total() == old(Total()) && current == old(current)
    {
      if answer == "" {
        Retry(a, ThroneRoom, Some(NoSelection(ThroneRoom)), Frame(a, ThroneSelect));
        return;
      }
      var k := ParseInt(FirstField(answer));
      if k.None? {
        Halt();
        return;
      }
      ThroneChoose(a, k.value);
    }

    /** Throne Room's choice at a Python index of the hand: a position outside the hand raises, a card that is not an action is asked again. */
    method ThroneChoose(a: nat, idx: int)
      requires Valid() && a < |players| && phase == Running && Open()
      modifies this, players
      ensures old(players[a].At(Hand, idx)).None? ==> phase == Halted && unchanged(players) && stack == old(stack)
      ensures old(players[a].At(Hand, idx)).Some? && old(players[a].At(Hand, idx)).value.kind != Action ==>
        phase == Running && unchanged(players) && stack == old(stack) + [Frame(a, ThroneSelect)]
      ensures old(players[a].At(Hand, idx)).Some? && old(players[a].At(Hand, idx)).value.kind == Action ==>
        |stack| > |old(stack)| && stack[..|old(stack)| + 1] == old(stack) + [Frame(a, ThroneFirst(old(players[a].At(Hand, idx)).value.name))]
      ensures Valid() && Total() == old(Total()) && current == old(current)
    {
      var c := players[a].At(Hand, idx);
      if c.None? {
        Halt();
        return;
      }
      if c.value.kind != Action {
        Retry(a, ThroneRoom, Some(WrongSelection(ThroneRoom)), Frame(a, ThroneSelect));
        return;
      }
      ThroneStart(a, PyIndex(|players[a].hand|, idx).value);
      PlayEffect(a);
    }

    /**
     * Throne Room takes the action at position `k` of the hand: it moves to
     * the top of the cards in play and the Throne Room waits on its first play.
     */
    method ThroneStart(a: nat, k: nat)
      requires Valid() && a < |players| && k < |players[a].hand| && players[a].hand[k].kind == Action && Open()
      modifies this, players[a]
      ensures players[a].hand == RemoveAt(old(players[a].hand), k)
      ensures players[a].inPlay == old(players[a].inPlay) + [old(players[a].hand)[k]]
      ensures players[a].Kept(Hand, InPlay) && players[a].SameCounters()
      ensures stack == old(stack) + [Frame(a, ThroneFirst(old(players[a].hand)[k].name))]
      ensures piles == old(piles) && trash == old(trash) && log == old(log)
      ensures current == old(current) && phase == old(phase)
      ensures Valid() && Total() == old(Total())
    {
      var n := players[a].hand[k].name;
      MoveToPlay(a, k);
      Push(Frame(a, ThroneFirst(n)));
    }

    /** The Library's decision about a drawn action: "0" sets it aside, otherwise it joins the hand; then drawing goes on. */
    method ResumeLibrary(a: nat, setAside: seq<Card>, drawn: Card, answer: string)
      requires Valid() && a < |players| && Open()
      modifies this, players[a]
      ensures |players[a].hand| >= |old(players[a].hand)| && players[a].hand[..|old(players[a].hand)|] == old(players[a].hand)
      ensures answer != "0" ==> |players[a].hand| > |old(players[a].hand)| && players[a].hand[|old(players[a].hand)|] == drawn
      ensures stack == old(stack) ==> |players[a].hand| >= 7 || players[a].deck == []
      ensures answer == "0" ==>
        var base := LibraryBase(old(players[a].deck), old(players[a].hand), old(players[a].discard));
        players[a].discard == if stack == old(stack) then base + setAside + [drawn] else base
      ensures answer != "0" ==>
        var base := LibraryBase(old(players[a].deck), old(players[a].hand) + [drawn], old(players[a].discard));
        players[a].discard == if stack == old(stack) then base + setAside else base
      ensures Pushed()
      ensures stack != old(stack) ==>
        var f := stack[|stack| - 1];
        |players[a].hand| < 7 && f.actor == a && f.point.LibraryChoice? && f.point.drawn.kind == Action
      ensures piles == old(piles) && trash == old(trash) && current == old(current)
      ensures Valid() && Total() == old(Total()) + multiset(setAside) + multiset{drawn}
    {
      if answer == "0" {
        Say(Public(a, SetAside(drawn.name)));
        LibraryNext(a, setAside + [drawn]);
      } else {
        LibraryKeep(a, setAside, drawn);
      }
    }

    /** The Library keeps the drawn action in the hand and draws on. */
    method LibraryKeep(a: nat, setAside: seq<Card>, drawn: Card)
      requires Valid() && a < |players| && Open()
      modifies this, players[a]
      ensures |players[a].hand| > |old(players[a].hand)| && players[a].hand[..|old(players[a].hand)| + 1] == old(players[a].hand) + [drawn]
      ensures stack == old(stack) ==> |players[a].hand| >= 7 || players[a].deck == []
      ensures var base := LibraryBase(old(players[a].deck), old(players[a].hand) + [drawn], old(players[a].discard));
        players[a].discard == if stack == old(stack) then base + setAside else base
      ensures Pushed()
      ensures stack != old(stack) ==>
        var f := stack[|stack| - 1];
        |players[a].hand| < 7 && f.actor == a && f.point.LibraryChoice? && f.point.drawn.kind == Action
      ensures piles == old(piles) && trash == old(trash) && current == old(current)
      ensures Valid() && Total() == old(Total()) + multiset(setAside) + multiset{drawn}
    {
      Give(a, Hand, [drawn]);
      ghost var h1 := players[a].hand;
      Say(Public(a, Kept(drawn.name)));
      LibraryNext(a, setAside);
      assert players[a].hand[..|h1|] == h1;
    }

    /**
     * `play_all_treasures`: walks the hand from the bottom and plays every
     * Copper, Silver and Gold; the other cards stay in the hand in their
     * order. Each play is `play_card` on a treasure at a position inside
     * the hand, which PlayCard shows is exactly PlayTreasureAt.
     */
    method PlayAllTreasures(a: nat)
      requires Valid() && a < |players|
      modifies this, players[a]
      ensures players[a].hand == NonTreasures(old(players[a].hand))
      ensures forall i :: 0 <= i < |players[a].hand| ==> !IsTreasureName(players[a].hand[i].name)
      ensures players[a].inPlay == old(players[a].inPlay) + Treasures(old(players[a].hand))
      ensures players[a].gold == old(players[a].gold) + CoinsOf(old(players[a].hand))
      ensures players[a].actions == if Treasures(old(players[a].hand)) == [] then old(players[a].actions) else 0
      ensures players[a].buys == old(players[a].buys)
      ensures players[a].deck == old(players[a].deck) && players[a].discard == old(players[a].discard)
      ensures log == old(log) + PlayedLog(a, Treasures(old(players[a].hand)))
      ensures piles == old(piles) && trash == old(trash) && stack == old(stack)
      ensures current == old(current) && phase == old(phase)
      ensures Valid() && Total() == old(Total())
    {
      ghost var s0 := players[a].State();
      WalkHand(a);
      WalkDone(s0);
      TreasureKinds(s0.hand);
      assert players[a].Owned() == old(players[a].Owned());
      SameCards(a);
    }

    /** The loop of `play_all_treasures`: every card of the hand was looked at, and each treasure played. */
    method WalkHand(a: nat)
      requires Valid() && a < |players|
      modifies this, players[a]
      ensures players[a].State() == TreasuresSoFar(old(players[a].State()), |old(players[a].hand)|)
      ensures log == old(log) + PlayedLog(a, Treasures(old(players[a].hand)))
      ensures piles == old(piles) && trash == old(trash) && stack == old(stack)
      ensures current == old(current) && phase == old(phase)
      ensures Valid()
    {
      ghost var s0 := players[a].State();
      ghost var h := s0.hand;
      ghost var j := 0;
      var idx := 0;
      while idx < |players[a].hand|
        invariant 0 <= j <= |h| && idx == |NonTreasures(h[..j])|
        invariant players[a].State() == TreasuresSoFar(s0, j)
        invariant log == old(log) + PlayedLog(a, Treasures(h[..j]))
        invariant piles == old(piles) && trash == old(trash) && stack == old(stack)
        invariant current == old(current) && phase == old(phase)
        invariant Valid()
        decreases |h| - j
      {
        idx := WalkStep(a, idx, s0, j, old(log));
        j := j + 1;
      }
      assert h[..j] == h;
    }

    /**
     * Looks at the next card of `play_all_treasures`' walk over the hand
     * of holding `s0`: a treasure at `idx` is played, any other card is
     * passed over.
     */
    method WalkStep(a: nat, idx: nat, ghost s0: Holding, ghost j: nat, ghost log0: seq<Event>) returns (next: nat)
      requires Valid() && a < |players| && j < |s0.hand|
      requires idx == |NonTreasures(s0.hand[..j])| && players[a].State() == TreasuresSoFar(s0, j)
      requires log == log0 + PlayedLog(a, Treasures(s0.hand[..j]))
      modifies this, players[a]
      ensures next == |NonTreasures(s0.hand[..j + 1])| && players[a].State() == TreasuresSoFar(s0, j + 1)
      ensures log == log0 + PlayedLog(a, Treasures(s0.hand[..j + 1]))
      ensures piles == old(piles) && trash == old(trash) && stack == old(stack)
      ensures current == old(current) && phase == old(phase)
      ensures Valid()
    {
      SplitAt(s0, j);
      if IsTreasureName(players[a].hand[idx].name) {
        ghost var before, log1 := players[a].State(), log;
        PlayTreasureAt(a, idx);
        TreasureAdvance(a, s0, j, before, players[a].State(), log0, log1, log);
        next := idx;
      } else {
        PassTurn(s0, j);
        next := idx + 1;
      }
    }

    /** Between messages the player whose turn it is has a buy left: a turn ends when its buys run out. */
    predicate Turning()
      requires Valid()
      reads this, players[current]
    {
      phase == Running ==> players[current].buys > 0
    }

    /**
     * The end of player `current`'s turn: `end_turn`, then the game-over
     * test; either the game ends with the final scores, or the next seat's
     * turn starts with one action, no gold and one buy.
     */
    method FinishTurn()
      requires Valid() && phase == Running
      modifies this, players
      ensures Valid() && Total() == old(Total()) && stack == old(stack) && piles == old(piles)
      ensures GameOver(old(piles)) ==>
        phase == Over && current == old(current) &&
        |log| == |old(log)| + 1 && log[..|old(log)|] == old(log) && log[|old(log)|].Final?
      ensures GameOver(old(piles)) ==>
        var f := log[|old(log)|];
        |f.scores| == |players| && forall i :: 0 <= i < |players| ==> f.scores[i] == Score(old(players[i].Owned()))
      ensures !GameOver(old(piles)) ==>
        phase == Running && current == (old(current) + 1) % |players| &&
        players[current].actions == 1 && players[current].gold == 0 && players[current].buys == 1 &&
        log == old(log) + [Turn(current)]
      ensures !GameOver(old(piles)) ==>
        var e := old(current);
        players[e].inPlay == [] && players[e].Owned() == old(players[e].Owned()) &&
        |players[e].hand| == Min(5, |old(players[e].Owned())|) &&
        (|old(players[e].deck)| >= 5 ==>
          players[e].deck == old(players[e].deck)[..|old(players[e].deck)| - 5] &&
          players[e].discard == old(players[e].discard) + old(players[e].hand) + old(players[e].inPlay) &&
          forall j :: 0 <= j < 5 ==> players[e].hand[j] == old(players[e].deck)[|old(players[e].deck)| - 1 - j])
    {
      EndTurnOf(current);
      if GameOver(piles) {
        var scores := EndGame();
        assert log[..|old(log)|] == old(log);
        return;
      }
      Advance();
      Say(Turn(current));
    }

    /** `end_game`: every player's score, in seating order, then the game is over. */
    method EndGame() returns (scores: seq<int>)
      requires Valid()
      modifies this, players
      ensures |scores| == |players|
      ensures forall i :: 0 <= i < |players| ==> scores[i] == Score(old(players[i].Owned()))
      ensures phase == Over && log == old(log) + [Final(scores)]
      ensures piles == old(piles) && trash == old(trash) && stack == old(stack) && current == old(current)
      ensures Valid() && Total() == old(Total())
    {
      scores := ScoreAll();
      Say(Final(scores));
      Conclude();
    }

    /** Every player's score, in seating order. */
    method ScoreAll() returns (scores: seq<int>)
      requires Valid()
      modifies players
      ensures |scores| == |players|
      ensures forall i :: 0 <= i < |players| ==> scores[i] == Score(old(players[i].Owned()))
      ensures Total() == old(Total())
    {
      scores := [];
      var i := 0;
      while i < |players|
        invariant 0 <= i <= |players| && |scores| == i && Valid()
        invariant forall j :: 0 <= j < i ==>
          players[j].Owned() == old(players[j].Owned()) && scores[j] == Score(players[j].Owned())
        invariant forall j :: i <= j < |players| ==> unchanged(players[j])
      {
        scores := ScoreNext(i, scores);
        i := i + 1;
      }
      AllKept();
    }

    /** One step of the scoring loop: player `i`'s score is appended and only that player is touched. */
    method ScoreNext(i: nat, scores: seq<int>) returns (scores': seq<int>)
      requires Valid() && i < |players|
      modifies players[i]
      ensures scores' == scores + [Score(old(players[i].Owned()))]
      ensures players[i].Owned() == old(players[i].Owned())
      ensures forall j :: 0 <= j < |players| && j != i ==> unchanged(players[j])
    {
      var score := players[i].CalcScore();
      assert forall j :: 0 <= j < |players| && j != i ==> players[j] != players[i];
      scores' := scores + [score];
    }

    /** When every player keeps the same cards and nothing else changed, the game has the same cards. */
    twostate lemma AllKept()
      requires unchanged(this)
      requires forall i :: 0 <= i < |players| ==> players[i].Owned() == old(players[i].Owned())
      ensures Total() == old(Total())
    {
      StockIs(|players|);
      OldStockIs(|players|);
      assert Holdings(players) == old(Holdings(players));
    }

    /** The game is over. */
    method Conclude()
      requires Valid()
      modifies this
      ensures phase == Over
      ensures piles == old(piles) && trash == old(trash) && log == old(log)
      ensures stack == old(stack) && current == old(current)
      ensures Valid() && Total() == old(Total())
    {
      phase := Over;
      OutsideGrew(multiset{});
    }

    /** The turn passes to the next seat, which starts with one action, no gold and one buy. */
    method Advance()
      requires Valid()
      modifies this, players
      ensures current == (old(current) + 1) % |players|
      ensures players[current].actions == 1 && players[current].gold == 0 && players[current].buys == 1
      ensures piles == old(piles) && trash == old(trash) && log == old(log)
      ensures stack == old(stack) && phase == old(phase)
      ensures forall p :: 0 <= p < |players| ==>
        players[p].hand == old(players[p].hand) && players[p].deck == old(players[p].deck) &&
        players[p].discard == old(players[p].discard) && players[p].inPlay == old(players[p].inPlay)
      ensures Valid() && Total() == old(Total())
    {
      current := (current + 1) % |players|;
      OutsideGrew(multiset{});
      SetCounters(current, 1, 0, 1);
    }

    /**
     * One message sent into `game_loop`. A message without a ':' raises;
     * an unknown command does nothing; "End Turn" ends the turn; the other
     * commands act for the player whose turn it is, and the turn ends as
     * soon as that player has no buy left. Once the game is over or halted
     * nothing changes.
     */
    method Handle(msg: string)
      requires Valid() && Ready() && Turning()
      modifies this, players
      ensures Valid() && Ready() && Turning() && Total() == old(Total())
      ensures old(phase) != Running ==> unchanged(this) && unchanged(players)
      ensures old(phase) == Running && Decode(msg) == Malformed ==>
        phase == Halted && unchanged(players) && log == old(log) && piles == old(piles)
      ensures old(phase) == Running && Decode(msg) == Unknown ==> unchanged(this) && unchanged(players)
      ensures old(phase) == Running && Decode(msg) == EndTurn && !GameOver(old(piles)) ==>
        phase == Running && current == (old(current) + 1) % |players| && log == old(log) + [Turn(current)]
      ensures old(phase) == Running && Decode(msg) == EndTurn && GameOver(old(piles)) ==>
        phase == Over && |log| == |old(log)| + 1 && log[..|old(log)|] == old(log) && log[|log| - 1].Final?
      ensures old(phase) == Running && Decode(msg).PlayAllTreasures? ==>
        var a := old(current);
        players[a].hand == NonTreasures(old(players[a].hand)) &&
        players[a].inPlay == old(players[a].inPlay) + Treasures(old(players[a].hand)) &&
        players[a].gold == old(players[a].gold) + CoinsOf(old(players[a].hand)) &&
        log == old(log) + PlayedLog(a, Treasures(old(players[a].hand)))
      ensures old(phase) == Running && Decode(msg).PlayCard? ==> PlayStated(Decode(msg).arg)
      ensures old(phase) == Running && Decode(msg).BuyCard? ==> BuyStated(Decode(msg).arg)
    {
      if phase != Running {
        return;
      }
      var command := Decode(msg);
      match command
      case Malformed => Halt();
      case Unknown =>
      case EndTurn => FinishTurn();
      case PlayAllTreasures => TreasuresCommand();
      case PlayCard(arg) => PlayCommand(arg);
      case BuyCard(arg) => BuyCommand(arg);
    }

    /** "Play All Treasures": the current player's treasures go into play; the turn goes on while buys are left. */
    method TreasuresCommand()
      requires Valid() && Ready() && Turning() && phase == Running
      modifies this, players
      ensures Valid() && Ready() && Turning() && Total() == old(Total())
      ensures var a := old(current);
        players[a].hand == NonTreasures(old(players[a].hand)) &&
        players[a].inPlay == old(players[a].inPlay) + Treasures(old(players[a].hand)) &&
        players[a].gold == old(players[a].gold) + CoinsOf(old(players[a].hand)) &&
        log == old(log) + PlayedLog(a, Treasures(old(players[a].hand)))
    {
      PlayAllTreasures(current);
      AfterCommand();
    }

    /**
     * What "Play Card" with argument `arg` promises when no effect is
     * waiting: a missing or non-number argument or a position outside the
     * hand halts; a card that cannot be played is refused with a note; a
     * Treasure is played.
     */
    twostate predicate PlayStated(arg: Option<string>)
      requires old(Valid()) && Valid()
      reads this, players
    {
      var a := old(current);
      (arg.None? || (old(stack) == [] && ParseInt(arg.value).None?) ==>
        phase == Halted && unchanged(players) && log == old(log)) &&
      (arg.Some? && old(stack) == [] && ParseInt(arg.value).Some? ==>
        var k := ParseInt(arg.value).value;
        var c := old(HandCard(a, k));
        (c.None? ==> phase == Halted && unchanged(players) && log == old(log)) &&
        (c.Some? && Refusal(c.value, old(players[a].actions)).Some? ==>
          phase == Running && unchanged(players) &&
          log == old(log) + [Private(a, Refusal(c.value, old(players[a].actions)).value)]) &&
        (c.Some? && c.value.kind == Treasure ==>
          phase == Running && TreasurePlayed(a, PyIndex(|old(players[a].hand)|, k).value)))
    }

    /** "Play Card": the card is played, or the answer goes to the waiting effect; the turn goes on while buys are left. */
    method PlayCommand(arg: Option<string>)
      requires Valid() && Ready() && Turning() && phase == Running
      modifies this, players
      ensures Valid() && Ready() && Turning() && Total() == old(Total())
      ensures PlayStated(arg)
    {
      PlayMessage(arg);
      AfterCommand();
    }

    /**
     * What "Buy Card" with argument `arg` promises: a missing or non-number
     * argument, or a position naming no supply pile, halts; a refused buy
     * only tells the player why; an accepted buy moves the pile's top card
     * to the buyer's discard pile and pays for it, and when it spends the
     * last buy the turn ends as TurnEnded states.
     */
    twostate predicate BuyStated(arg: Option<string>)
      requires old(Valid()) && Valid()
      reads this, players
    {
      var a := old(current);
      (arg.None? || ParseInt(arg.value).None? || PyIndex(SlotCount, ParseInt(arg.value).value).None? ==>
        phase == Halted && unchanged(players) && log == old(log) && piles == old(piles)) &&
      (arg.Some? && ParseInt(arg.value).Some? && PyIndex(SlotCount, ParseInt(arg.value).value).Some? ==>
        var s := PyIndex(SlotCount, ParseInt(arg.value).value).value;
        (!BuyAccepted(old(piles[s]), old(players[a].gold), old(players[a].buys)) ==>
          phase == Running && current == a && unchanged(players) && piles == old(piles) &&
          BuyRefusal(old(piles[s]), old(players[a].gold)).Some? &&
          log == old(log) + [Private(a, BuyRefusal(old(piles[s]), old(players[a].gold)).value)]) &&
        (BuyAccepted(old(piles[s]), old(players[a].gold), old(players[a].buys)) ==>
          var c := Top(old(piles[s]));
          piles == old(piles)[s := Pop(old(piles[s]))] &&
          (old(players[a].buys) > 1 ==>
            phase == Running && current == a && Others(a) &&
            players[a].discard == old(players[a].discard) + [c] &&
            players[a].hand == old(players[a].hand) && players[a].deck == old(players[a].deck) &&
            players[a].inPlay == old(players[a].inPlay) &&
            players[a].gold == old(players[a].gold) - c.cost && players[a].buys == old(players[a].buys) - 1 &&
            players[a].actions == 0 && log == old(log) + [Public(a, Bought(c.name))]) &&
          (old(players[a].buys) == 1 ==>
            |log| > |old(log)| && log[|old(log)|] == Public(a, Bought(c.name)) &&
            (GameOver(piles) ==>
              phase == Over && |log| == |old(log)| + 2 && log[|old(log)| + 1].Final? &&
              |log[|old(log)| + 1].scores| == |players| &&
              forall i :: 0 <= i < |players| ==>
                log[|old(log)| + 1].scores[i] ==
                  if i == a then Score(old(players[i].Owned()) + multiset{c}) else Score(old(players[i].Owned()))) &&
            (!GameOver(piles) ==>
              phase == Running && current == (a + 1) % |players| &&
              players[a].inPlay == [] && players[a].Owned() == old(players[a].Owned()) + multiset{c} &&
              players[current].actions == 1 && players[current].gold == 0 && players[current].buys == 1 &&
              log == old(log) + [Public(a, Bought(c.name)), Turn(current)]))))
    }

    /** "Buy Card": the purchase is made or refused; once no buys are left the turn ends. */
    method BuyCommand(arg: Option<string>)
      requires Valid() && Ready() && Turning() && phase == Running
      modifies this, players
      ensures Valid() && Ready() && Turning() && Total() == old(Total())
      ensures BuyStated(arg)
    {
      var k := if arg.Some? then ParseInt(arg.value) else None;
      var s := if k.Some? then PyIndex(SlotCount, k.value) else None;
      if s.Some? && BuyAccepted(piles[s.value], players[current].gold, players[current].buys) && players[current].buys == 1 {
        BuyLast(arg, s.value);
      } else {
        BuyMessage(arg);
        AfterCommand();
      }
    }

    /** "Buy Card" accepted with the last buy: the purchase, then the end of the turn. */
    method BuyLast(arg: Option<string>, s: nat)
      requires Valid() && Ready() && phase == Running
      requires arg.Some? && ParseInt(arg.value).Some? && PyIndex(SlotCount, ParseInt(arg.value).value) == Some(s)
      requires BuyAccepted(piles[s], players[current].gold, players[current].buys) && players[current].buys == 1
      modifies this, players
      ensures Valid() && Ready() && Turning() && Total() == old(Total())
      ensures var a, c := old(current), Top(old(piles[s]));
        piles == old(piles)[s := Pop(old(piles[s]))] &&
        |log| > |old(log)| && log[|old(log)|] == Public(a, Bought(c.name)) &&
        (GameOver(piles) ==>
          phase == Over && |log| == |old(log)| + 2 && log[|old(log)| + 1].Final? &&
          |log[|old(log)| + 1].scores| == |players| &&
          forall i :: 0 <= i < |players| ==>
            log[|old(log)| + 1].scores[i] ==
              if i == a then Score(old(players[i].Owned()) + multiset{c}) else Score(old(players[i].Owned()))) &&
        (!GameOver(piles) ==>
          phase == Running && current == (a + 1) % |players| &&
          players[a].inPlay == [] && players[a].Owned() == old(players[a].Owned()) + multiset{c} &&
          players[current].actions == 1 && players[current].gold == 0 && players[current].buys == 1 &&
          log == old(log) + [Public(a, Bought(c.name)), Turn(current)])
    {
      if GameOver(piles[s := Pop(piles[s])]) {
        BuyEndsGame(arg, s);
      } else {
        BuyEndsTurn(arg, s);
      }
    }

    /** The last buy empties the pile that ends the game: the purchase, then the final scores. */
    method BuyEndsGame(arg: Option<string>, s: nat)
      requires Valid() && Ready() && phase == Running
      requires arg.Some? && ParseInt(arg.value).Some? && PyIndex(SlotCount, ParseInt(arg.value).value) == Some(s)
      requires BuyAccepted(piles[s], players[current].gold, players[current].buys) && players[current].buys == 1
      requires GameOver(piles[s := Pop(piles[s])])
      modifies this, players
      ensures Valid() && Ready() && Turning() && Total() == old(Total())
      ensures var a, c := old(current), Top(old(piles[s]));
        piles == old(piles)[s := Pop(old(piles[s]))] && phase == Over &&
        |log| == |old(log)| + 2 && log[|old(log)|] == Public(a, Bought(c.name)) &&
        log[|old(log)| + 1].Final? && |log[|old(log)| + 1].scores| == |players| &&
        forall i :: 0 <= i < |players| ==>
          log[|old(log)| + 1].scores[i] ==
            if i == a then Score(old(players[i].Owned()) + multiset{c}) else Score(old(players[i].Owned()))
    {
      ghost var a, c, log0 := current, Top(piles[s]), log;
      ghost var piles1 := piles[s := Pop(piles[s])];
      BuyMessage(arg);
      assert phase == Running && current == a && players[a].buys <= 0 && piles == piles1;
      assert log == log0 + [Public(a, Bought(c.name))];
      OthersOwned(a);
      ghost var log1 := log;
      AfterCommand();
      assert log[..|log1|] == log1 && log[|log0|] == log1[|log0|];
    }

    /** The last buy leaves the game running: the purchase, then the next seat's turn. */
    method BuyEndsTurn(arg: Option<string>, s: nat)
      requires Valid() && Ready() && phase == Running
      requires arg.Some? && ParseInt(arg.value).Some? && PyIndex(SlotCount, ParseInt(arg.value).value) == Some(s)
      requires BuyAccepted(piles[s], players[current].gold, players[current].buys) && players[current].buys == 1
      requires !GameOver(piles[s := Pop(piles[s])])
      modifies this, players
      ensures Valid() && Ready() && Turning() && Total() == old(Total())
      ensures var a, c := old(current), Top(old(piles[s]));
        piles == old(piles)[s := Pop(old(piles[s]))] &&
        phase == Running && current == (a + 1) % |players| &&
        players[a].inPlay == [] && players[a].Owned() == old(players[a].Owned()) + multiset{c} &&
        players[current].actions == 1 && players[current].gold == 0 && players[current].buys == 1 &&
        log == old(log) + [Public(a, Bought(c.name)), Turn(current)]
    {
      ghost var a, c, log0 := current, Top(piles[s]), log;
      ghost var piles1 := piles[s := Pop(piles[s])];
      BuyMessage(arg);
      assert phase == Running && current == a && players[a].buys <= 0 && piles == piles1;
      assert log == log0 + [Public(a, Bought(c.name))];
      AfterCommand();
    }

    /**
     * What ending player `e`'s turn promises, as FinishTurn states it:
     * either the final scores are logged and the game is over, or `e` has
     * nothing in play and owns the same cards and the next seat's turn,
     * with one action, no gold and one buy, is announced.
     */
    twostate predicate TurnEnded(e: nat)
      requires old(Valid()) && Valid() && e < |players|
      reads this, players
    {
      (GameOver(old(piles)) ==>
        phase == Over && |log| == |old(log)| + 1 && log[..|old(log)|] == old(log) &&
        log[|old(log)|].Final? && |log[|old(log)|].scores| == |players| &&
        forall i :: 0 <= i < |players| ==> log[|old(log)|].scores[i] == Score(old(players[i].Owned()))) &&
      (!GameOver(old(piles)) ==>
        players[e].inPlay == [] && players[e].Owned() == old(players[e].Owned()) &&
        phase == Running && current == (e + 1) % |players| &&
        players[current].actions == 1 && players[current].gold == 0 && players[current].buys == 1 &&
        log == old(log) + [Turn(current)])
    }

    /** The loop's guard: a turn whose player has no buy left ends. */
    method AfterCommand()
      requires Valid() && Ready()
      modifies this, players
      ensures Valid() && Ready() && Turning() && Total() == old(Total()) && piles == old(piles)
      ensures old(Turning()) ==> unchanged(this) && unchanged(players)
      ensures old(phase) == Running && old(players[current].buys) <= 0 ==> TurnEnded(old(current))
    {
      if phase == Running && players[current].buys <= 0 {
        FinishTurn();
      }
    }

    /**
     * "Play Card": with no effect waiting, the argument is a Python index
     * of the hand and that card is played; with an effect waiting, the
     * argument is the answer it waits for. A missing argument or one that
     * is not a number raises.
     */
    method PlayMessage(arg: Option<string>)
      requires Valid() && Ready() && phase == Running
      modifies this, players
      ensures Valid() && Ready() && Total() == old(Total()) && current == old(current)
      ensures arg.None? ==> phase == Halted && unchanged(players) && log == old(log)
      ensures arg.Some? && old(stack) == [] && ParseInt(arg.value).None? ==>
        phase == Halted && unchanged(players) && log == old(log)
      ensures arg.Some? && old(stack) == [] && ParseInt(arg.value).Some? ==>
        var k, a := ParseInt(arg.value).value, current;
        var c := old(HandCard(a, k));
        (c.None? ==> phase == Halted && unchanged(players) && log == old(log)) &&
        (c.Some? && Refusal(c.value, old(players[a].actions)).Some? ==>
          phase == Running && unchanged(players) &&
          log == old(log) + [Private(a, Refusal(c.value, old(players[a].actions)).value)]) &&
        (c.Some? && c.value.kind == Treasure ==>
          phase == Running && Others(a) && TreasurePlayed(a, PyIndex(|old(players[a].hand)|, k).value))
    {
      if arg.None? {
        Halt();
        return;
      }
      if stack == [] {
        var idx := ParseInt(arg.value);
        if idx.None? {
          Halt();
          return;
        }
        PlayCard(current, idx.value);
      } else {
        Feed(arg.value);
      }
    }

    /** "Buy Card": the argument is a Python index of the supply; a missing argument or one that is not a number raises. */
    method BuyMessage(arg: Option<string>)
      requires Valid() && Ready() && phase == Running
      modifies this, players
      ensures Valid() && Ready() && Total() == old(Total()) && current == old(current) && stack == old(stack)
      ensures arg.None? || ParseInt(arg.value).None? ==>
        phase == Halted && unchanged(players) && log == old(log) && piles == old(piles)
      ensures Others(current)
      ensures arg.Some? && ParseInt(arg.value).Some? && old(players[current].buys) > 0 &&
              PyIndex(SlotCount, ParseInt(arg.value).value).None? ==>
        phase == Halted && unchanged(players) && log == old(log) && piles == old(piles)
      ensures arg.Some? && ParseInt(arg.value).Some? && old(players[current].buys) > 0 &&
              PyIndex(SlotCount, ParseInt(arg.value).value).Some? ==>
        var s, a := PyIndex(SlotCount, ParseInt(arg.value).value).value, current;
        phase == Running &&
        (!BuyAccepted(old(piles[s]), old(players[a].gold), old(players[a].buys)) ==>
           unchanged(players[a]) && piles == old(piles) &&
           log == old(log) + [Private(a, BuyRefusal(old(piles[s]), old(players[a].gold)).value)]) &&
        (BuyAccepted(old(piles[s]), old(players[a].gold), old(players[a].buys)) ==>
           var c := Top(old(piles[s]));
           piles == old(piles)[s := Pop(old(piles[s]))] &&
           players[a].discard == old(players[a].discard) + [c] &&
           players[a].Kept(Discard, Discard) &&
           players[a].gold == old(players[a].gold) - c.cost && players[a].buys == old(players[a].buys) - 1 &&
           players[a].actions == 0 && players[a].Owned() == old(players[a].Owned()) + multiset{c} &&
           log == old(log) + [Public(a, Bought(c.name))])
    {
      if arg.None? {
        Halt();
        return;
      }
      var idx := ParseInt(arg.value);
      if idx.None? {
        Halt();
        return;
      }
      BuyCard(current, idx.value);
    }
  }
}
