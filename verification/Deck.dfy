/** TwofacedPoker/Game/Deck.cpp: 90 two-faced cards, shuffled when the deck runs out. */
module Deck {
  import opened Foundation

  const DECK_SIZE := 90

  // The cards that exist: two different numbers from 1 to 10.
  predicate IsCard(c: Card) {
    1 <= c.front <= 10 && 1 <= c.back <= 10 && c.front != c.back
  }

  // Two different cards.
  predicate IsDeal(deal: Deal) {
    deal.mine != deal.theirs && IsCard(deal.mine) && IsCard(deal.theirs)
  }

  // s holds every card exactly once, and nothing else.
  ghost predicate IsFullDeck(s: seq<Card>) {
    && |s| == DECK_SIZE
    && forall c: Card :: multiset(s)[c] == if IsCard(c) then 1 else 0
  }

  lemma Repeats(s: seq<Card>, i: int, j: int)
    requires 0 <= i < j < |s| && s[i] == s[j]
    ensures multiset(s)[s[i]] >= 2
  {
    assert s == s[..j] + s[j..];
    assert s[..j][i] in multiset(s[..j]) && s[j..][0] in multiset(s[j..]);
  }

  // In an order of the full deck no card comes twice.
  lemma FullDeckHasNoRepeats(s: seq<Card>, i: int, j: int)
    requires IsFullDeck(s) && 0 <= i < j < |s|
    ensures s[i] != s[j] && IsCard(s[i])
  {
    assert s[i] in multiset(s);
    if s[i] == s[j] { Repeats(s, i, j); }
  }

  // Every card exists at exactly one place of the full deck.
  lemma EveryCardOnce(s: seq<Card>, c: Card)
    requires IsFullDeck(s) && IsCard(c)
    ensures exists k :: 0 <= k < |s| && s[k] == c && forall j :: 0 <= j < |s| && s[j] == c ==> j == k
  {
    assert c in multiset(s);
    var k :| 0 <= k < |s| && s[k] == c;
    forall j | 0 <= j < |s| && s[j] == c ensures j == k {
      if j < k { FullDeckHasNoRepeats(s, j, k); } else if k < j { FullDeckHasNoRepeats(s, k, j); }
    }
  }

  // full: the completely dealt decks, one after the other; part: the cards dealt since; cards: those left.
  ghost predicate Blocks(full: seq<seq<Card>>, part: seq<Card>, cards: seq<Card>) {
    && (forall i :: 0 <= i < |full| ==> IsFullDeck(full[i]))
    && if cards == [] then part == [] else IsFullDeck(part + cards)
  }

  // After an odd number of cards of a deck, the next one exists and differs from the last.
  lemma NextDiffers(part: seq<Card>, cards: seq<Card>)
    requires IsFullDeck(part + cards) && |part| % 2 == 1
    ensures cards != [] && part[|part| - 1] != cards[0]
    ensures IsCard(part[|part| - 1]) && IsCard(cards[0])
  {
    var s, n := part + cards, |part|;
    FullDeckHasNoRepeats(s, n - 1, n);
    assert s[n] in multiset(s);
  }

  lemma DeckIsWhole(full: seq<seq<Card>>, part: seq<Card>, cards: seq<Card>)
    requires Blocks(full, part, cards)
    ensures |part| + |cards| == if cards == [] then 0 else DECK_SIZE
  {
  }

  ghost function Flat(full: seq<seq<Card>>): seq<Card> {
    if full == [] then [] else Flat(full[..|full| - 1]) + full[|full| - 1]
  }

  // The complete decks are the consecutive runs of 90 cards of the whole history.
  lemma {:induction false} BlocksAreConsecutive(full: seq<seq<Card>>, i: nat)
    requires i < |full| && forall j :: 0 <= j < |full| ==> |full[j]| == DECK_SIZE
    ensures |Flat(full)| == DECK_SIZE * |full|
    ensures Flat(full)[DECK_SIZE * i..DECK_SIZE * i + DECK_SIZE] == full[i]
    decreases |full|
  {
    var shorter := full[..|full| - 1];
    if shorter != [] { BlocksAreConsecutive(shorter, if i < |shorter| then i else 0); }
    assert full[i] == if i < |shorter| then shorter[i] else full[|full| - 1];
  }

  // The order in which resupplyCard makes the cards.
  predicate Before(c: Card, front: int, back: int) {
    c.front < front || (c.front == front && c.back < back)
  }

  class Deck {
    var cards: seq<Card>
    ghost var full: seq<seq<Card>>
    ghost var part: seq<Card>

    ghost predicate Valid()
      reads this
    {
      Blocks(full, part, cards)
    }

    // All cards dealt so far.
    ghost function Dealt(): seq<Card>
      reads this
    {
      Flat(full) + part
    }

    // Counted from the first card ever dealt, every complete block of 90 holds every card exactly once.
    lemma BlockHoldsEveryCard(i: nat)
      requires Valid() && DECK_SIZE * (i + 1) <= |Dealt()|
      ensures IsFullDeck(Dealt()[DECK_SIZE * i..DECK_SIZE * (i + 1)])
    {
      DeckIsWhole(full, part, cards);
      if full != [] { BlocksAreConsecutive(full, if i < |full| then i else 0); }
      assert i < |full|;
      assert Dealt()[DECK_SIZE * i..DECK_SIZE * (i + 1)] == Flat(full)[DECK_SIZE * i..DECK_SIZE * i + DECK_SIZE];
    }

    constructor ()
      ensures Valid() && full == [] && part == [] && Dealt() == []
    {
      full, part := [], [];
      cards := [];
      new;
      ResupplyCard();
      assert part + cards == cards;
    }

    // std::shuffle: swaps with arbitrary later positions, so any order can result.
    method ShuffleCard()
      modifies this`cards
      ensures multiset(cards) == old(multiset(cards)) && |cards| == old(|cards|)
    {
      var n := |cards|;
      for i := 0 to n
        invariant |cards| == n && multiset(cards) == old(multiset(cards))
      {
        var j :| i <= j < n;
        cards := cards[i := cards[j]][j := cards[i]];
      }
    }

    method ResupplyCard()
      modifies this`cards
      ensures IsFullDeck(cards)
    {
      cards := [];
      for front := 1 to 11
        invariant |cards| == 9 * (front - 1)
        invariant forall c: Card :: multiset(cards)[c] == if IsCard(c) && c.front < front then 1 else 0
      {
        for back := 1 to 11
          invariant |cards| == 9 * (front - 1) + (back - 1) - (if front < back then 1 else 0)
          invariant forall c: Card :: multiset(cards)[c] == if IsCard(c) && Before(c, front, back) then 1 else 0
        {
          if front == back {
            continue;
          }
          cards := cards + [Card(front, back)];
        }
      }
      ShuffleCard();
    }

    // The next card comes from the deck that is being dealt, or starts a new one.
    method DealCard() returns (card: Card)
      requires Valid()
      modifies this
      ensures Valid() && Dealt() == old(Dealt()) + [card]
      ensures old(cards) != [] ==> old(cards) == [card] + cards
      ensures old(cards) == [] ==> |cards| == DECK_SIZE - 1
      ensures if cards == [] then part == [] else part == old(part) + [card]
    {
      if cards == [] {
        ResupplyCard();
        assert part + cards == cards;
      }
      card := cards[0];
      assert part + cards == part + [card] + cards[1..];
      cards := cards[1..];
      part := part + [card];
      if cards == [] {
        assert part + cards == part;
        full := full + [part];
        assert full[..|full| - 1] == old(full);
        part := [];
      }
    }
  }
}
