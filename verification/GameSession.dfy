/** TwofacedPoker/Game/GameSession.cpp: waiting or betting, whose turn it is, and the deck. */
module GameSession {
  import opened Foundation
  import Deck
  import Table

  datatype State = WAITING | BETTING

  class GameSession {
    var state: State
    var currentTurnSocket: Socket
    const deck: Deck.Deck

    // Cards leave the deck in pairs.
    ghost predicate Valid()
      reads this, deck
    {
      && deck.Valid() && |deck.part| % 2 == 0
      && (state.BETTING? ==> currentTurnSocket != INVALID_SOCKET)
    }

    ghost function Phase(): Table.Phase
      reads this
    {
      if state.WAITING? then Table.Waiting else Table.Betting(currentTurnSocket)
    }

    constructor ()
      ensures Valid() && Phase() == Table.Waiting && fresh(deck)
    {
      state := WAITING;
      currentTurnSocket := INVALID_SOCKET;
      deck := new Deck.Deck();
    }

    method Start(firstTurnSocket: Socket) returns (ok: bool)
      requires Valid()
      modifies this
      ensures Valid()
      ensures ok <==> old(Phase()).Waiting? && firstTurnSocket != INVALID_SOCKET
      ensures Phase() == if ok then Table.Betting(firstTurnSocket) else old(Phase())
    {
      if state != WAITING || firstTurnSocket == INVALID_SOCKET {
        return false;
      }
      state := BETTING;
      currentTurnSocket := firstTurnSocket;
      return true;
    }

    method Reset()
      requires Valid()
      modifies this
      ensures Valid() && Phase() == Table.Waiting
    {
      state := WAITING;
      currentTurnSocket := INVALID_SOCKET;
    }

    predicate IsWaiting()
      reads this
    {
      state == WAITING
    }

    predicate IsBetting()
      reads this
    {
      state == BETTING
    }

    predicate IsCurrentTurn(socket: Socket)
      reads this
    {
      state == BETTING && currentTurnSocket == socket
    }

    method PassTurnTo(opponentSocket: Socket) returns (ok: bool)
      requires Valid()
      modifies this
      ensures Valid()
      ensures ok <==> old(Phase()).Betting? && opponentSocket != INVALID_SOCKET
      ensures Phase() == if ok then Table.Betting(opponentSocket) else old(Phase())
    {
      if state != BETTING || opponentSocket == INVALID_SOCKET {
        return false;
      }
      currentTurnSocket := opponentSocket;
      return true;
    }

    // Two different cards of one deck, the first for the caller.
    method DealCards() returns (deal: Deal)
      requires Valid()
      modifies deck
      ensures Valid()
      ensures deck.Dealt() == old(deck.Dealt()) + [deal.mine, deal.theirs]
      ensures Deck.IsDeal(deal)
    {
      hide Deck.Flat, Deck.Deck.Dealt, Deck.IsFullDeck;
      Deck.DeckIsWhole(deck.full, deck.part, deck.cards);
      var mine := deck.DealCard();
      Deck.NextDiffers(deck.part, deck.cards);
      var theirs := deck.DealCard();
      deal := Deal(mine, theirs);
    }
  }
}
