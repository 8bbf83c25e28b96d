/** TwofacedPoker/Game/GameManager.cpp: the object that runs the matches of one room. Every public method is one
    gameMutex section; undisturbed, it does to the two players exactly what GameFlow says. */
module GameManager {
  import opened Foundation
  import BetCommandParser
  import ClientCommandParser
  import S = Sections
  import G = GameFlow
  import Room = RoomManager
  import Session = GameSession
  import Deck
  import RoundResolver
  import Table
  import M = Match

  const GAME_START := "Game_Start"

  // What a betting message asks for while a match is on.
  function BetEvent(t: Table.Table, s: Socket, message: string, deal: Deal): Table.Event
    requires t.phase.Betting?
  {
    if t.phase.turn != s then Table.Bet(s, Command(Unset, 0), deal)
    else
      match BetCommandParser.Parse(message)
      case None => Table.Other
      case Some(c) => Table.Bet(s, c, deal)
  }

  // The complete operation that a message from a member asks for; a bet out of turn is refused unread.
  function EventOf(t: Table.Table, s: Socket, message: string, allReady: bool, deal: Deal): Table.Event {
    if message == GAME_START then
      if t.phase.Waiting? && allReady then Table.Start(s, deal) else Table.Other
    else if BetCommandParser.StartsWith(message, ClientCommandParser.BETTING) && t.phase.Betting? then
      BetEvent(t, s, message[|ClientCommandParser.BETTING|..], deal)
    else Table.Other
  }

  // A bet sent as text by the player who holds the turn arrives as that bet.
  lemma BetArrives(t: Table.Table, s: Socket, c: Command, allReady: bool, deal: Deal)
    requires BetCommandParser.Sendable(c) && t.phase == Table.Betting(s)
    ensures var received := ClientCommandParser.Parse(ClientCommandParser.BetMessage(c));
      received.kind.GameEvent? && EventOf(t, s, received.payload, allReady, deal) == Table.Bet(s, c, deal)
  {
    hide BetCommandParser.Parse, BetCommandParser.Render, ClientCommandParser.Parse;
    ClientCommandParser.BetRoundTrip(c);
    var payload := ClientCommandParser.Parse(ClientCommandParser.BetMessage(c)).payload;
    assert GAME_START[0] == 'G' && ClientCommandParser.BETTING[0] == ' ';
    assert payload[..|ClientCommandParser.BETTING|][0] == payload[0];
  }

  // Two seated players whose ready flags are set get their match when one of them asks for it.
  lemma StartArrives(t: Table.Table, s: Socket, deal: Deal)
    requires t.phase.Waiting?
    ensures EventOf(t, s, "Game_Start", true, deal) == Table.Start(s, deal)
    ensures EventOf(t, s, "Game_Start", false, deal) == Table.Other
  {
  }

  // Whatever a message leads to, the two players of a match hold the last two cards of the deck's history.
  lemma EventKeepsSound(t: Table.Table, s: Socket, message: string, allReady: bool, deal: Deal, dealt: seq<Card>)
    requires Table.TableInv(t) && M.HandsFrom(t, dealt)
    requires M.DrawnBy(t, EventOf(t, s, message, allReady, deal)) != [] ==> Deck.IsDeal(deal)
    ensures var e := EventOf(t, s, message, allReady, deal);
      Table.TableInv(Table.Step(t, e)) && M.HandsFrom(Table.Step(t, e), dealt + M.DrawnBy(t, e))
  {
    hide G.Act, Table.Step, Table.TableInv, M.HandsFrom, Table.Seated;
    Table.StepKeepsTable(t, EventOf(t, s, message, allReady, deal));
    M.HandsFollow(t, EventOf(t, s, message, allReady, deal), dealt);
  }

  lemma AnswerKeepsSound(t: Table.Table, m: Msg, dealt: seq<Card>)
    requires Table.TableInv(t) && t.phase.Waiting?
    ensures Table.TableInv(Table.TellAll(t, m)) && M.HandsFrom(Table.TellAll(t, m), dealt)
  {
    assert Table.TellAll(t, m).sides.Keys == t.sides.Keys;
    assert |Table.TellAll(t, m).sides| == |t.sides|;
  }

  lemma SameTable(t: Table.Table, t': Table.Table, s: Socket)
    requires Table.Seated(t, s) && t'.sides.Keys == t.sides.Keys
    ensures Table.Seated(t', s)
    ensures t' == Table.WithDuel(t, s, Table.DuelOf(t', s)).(phase := t'.phase, faults := t'.faults)
  {
    assert t'.sides == Table.WithDuel(t, s, Table.DuelOf(t', s)).sides;
  }

  lemma BetFollows(t: Table.Table, t': Table.Table, s: Socket, c: Command, deal: Deal)
    requires Table.TableInv(t) && t.phase == Table.Betting(s)
    requires t'.sides.Keys == t.sides.Keys && t'.faults == 0
    requires var p := G.Act(Table.DuelOf(t, s), c, deal);
      Table.DuelOf(t', s) == p.duel && t'.phase == Table.PhaseAfter(p.outcome, s, Table.Rival(t, s))
    ensures t' == Table.Step(t, Table.Bet(s, c, deal))
  {
    hide G.Act;
    Table.StepKeepsTable(t, Table.Bet(s, c, deal));
    SameTable(t, t', s);
  }

  // A bet as text, for the player who holds the turn.
  lemma BetMessageFollows(t: Table.Table, t': Table.Table, s: Socket, message: string, deal: Deal)
    requires Table.TableInv(t) && t.phase == Table.Betting(s)
    requires t'.sides.Keys == t.sides.Keys && t'.faults == 0
    requires
      match BetCommandParser.Parse(message)
      case None => Table.DuelOf(t', s) == Table.DuelOf(t, s) && t'.phase == t.phase
      case Some(c) =>
        var p := G.Act(Table.DuelOf(t, s), c, deal);
        Table.DuelOf(t', s) == p.duel && t'.phase == Table.PhaseAfter(p.outcome, s, Table.Rival(t, s))
    ensures t' ==
      match BetCommandParser.Parse(message)
      case None => t
      case Some(c) => Table.Step(t, Table.Bet(s, c, deal))
  {
    hide G.Act, BetCommandParser.Parse;
    match BetCommandParser.Parse(message)
    case None => NothingFollows(t, t', s);
    case Some(c) => BetFollows(t, t', s, c, deal);
  }

  lemma BetDraws(t: Table.Table, s: Socket, c: Command, deal: Deal)
    ensures M.DrawnBy(t, Table.Bet(s, c, deal)) ==
      if t.phase == Table.Betting(s) && Table.Seated(t, s) then
        M.Drawn(G.Act(Table.DuelOf(t, s), c, deal).outcome, deal)
      else []
  {
    hide G.Act;
  }

  lemma OtherChangesNothing(t: Table.Table)
    ensures Table.Step(t, Table.Other) == t && M.DrawnBy(t, Table.Other) == []
  {
  }

  // The table without what the members were told.
  function Muted(t: Table.Table): Table.Table {
    t.(sides := map s | s in t.sides :: t.sides[s].(log := []))
  }

  lemma LeaveFollows(t: Table.Table, t': Table.Table, s: Socket)
    requires s in t.sides && t'.sides.Keys == t.sides.Keys - {s} && t'.faults == t.faults
    requires t'.dealer == 0 && t'.phase.Waiting?
    requires forall x :: x in t'.sides ==> t'.sides[x].(log := []) == S.Fresh([])
    ensures Muted(t') == Muted(Table.Step(t, Table.Leave(s)))
  {
    var left := Table.Step(t, Table.Leave(s));
    assert forall x :: x in left.sides ==> left.sides[x].(log := []) == S.Fresh([]);
    assert Muted(t').sides == Muted(left).sides;
  }

  lemma StartFollows(t: Table.Table, t': Table.Table, s: Socket, deal: Deal)
    requires t.phase.Waiting? && t.faults == 0 && Table.Seated(t, s)
    requires t'.sides.Keys == t.sides.Keys && t'.faults == 0 && t'.phase == Table.Betting(s)
    requires Table.DuelOf(t', s) == G.StartMatch(Table.DuelOf(t, s), deal)
    ensures t' == Table.Step(t, Table.Start(s, deal))
  {
    hide G.StartMatch;
    SameTable(t, t', s);
  }

  lemma RefusalFollows(t: Table.Table, t': Table.Table, s: Socket, c: Command, deal: Deal)
    requires t.phase.Betting? && t.phase.turn != s && Table.Seated(t, s)
    requires t'.sides.Keys == t.sides.Keys && t'.faults == t.faults && t'.phase == t.phase
    requires Table.DuelOf(t', s) == S.Broadcast(Table.DuelOf(t, s), BettingRefused, ToSelf)
    ensures t' == Table.Step(t, Table.Bet(s, c, deal))
  {
    SameTable(t, t', s);
    assert t'.sides == Table.Step(t, Table.Bet(s, c, deal)).sides;
  }

  lemma NothingFollows(t: Table.Table, t': Table.Table, s: Socket)
    requires Table.Seated(t, s) && t'.sides.Keys == t.sides.Keys && t'.faults == t.faults && t'.phase == t.phase
    requires Table.DuelOf(t', s) == Table.DuelOf(t, s)
    ensures t' == t
  {
    SameTable(t, t', s);
    assert t'.sides == t.sides;
  }

  class GameManager {
    const roomManager: Room.RoomManager
    const gameSession: Session.GameSession

    ghost predicate Valid()
      reads roomManager, gameSession, gameSession.deck
    {
      roomManager.Valid() && gameSession.Valid()
    }

    ghost predicate Two(s: Socket)
      reads roomManager`connections
    {
      roomManager.Two(s)
    }

    ghost function Opponent(s: Socket): Socket
      reads roomManager`connections
      requires Two(s)
    {
      roomManager.Opponent(s)
    }

    ghost function Duel(s: Socket): S.Duel
      reads roomManager, roomManager.users.Values
      requires roomManager.Valid() && Two(s)
    {
      roomManager.Duel(s)
    }

    ghost function Dealt(): seq<Card>
      reads gameSession.deck
    {
      gameSession.deck.Dealt()
    }

    ghost function AsTable(): (t: Table.Table)
      reads roomManager, roomManager.users.Values, gameSession
      requires roomManager.Valid()
      ensures t.sides.Keys == roomManager.connections && t.phase == gameSession.Phase() && t.faults == 0
    {
      roomManager.AsTable(gameSession.Phase())
    }

    // The room keeps its invariant, and the players of a match hold the last two cards that were dealt.
    ghost predicate Sound()
      reads roomManager, roomManager.users.Values, gameSession, gameSession.deck
      requires roomManager.Valid()
    {
      Table.TableInv(AsTable()) && M.HandsFrom(AsTable(), Dealt())
    }

    lemma TableShowsDuel(s: Socket)
      requires roomManager.Valid() && Two(s)
      ensures Table.Seated(AsTable(), s) && Table.Rival(AsTable(), s) == Opponent(s)
      ensures Table.DuelOf(AsTable(), s) == Duel(s)
    {
    }

    lemma WaitingIsSound()
      requires Valid() && gameSession.Phase().Waiting?
      ensures Sound()
    {
      assert |AsTable().sides| == |AsTable().sides.Keys|;
    }

    twostate lemma UntouchedIsSound()
      requires old(Valid()) && roomManager.Untouched() && unchanged(gameSession) && unchanged(gameSession.deck)
      ensures roomManager.Valid() && Sound() == old(Sound())
    {
      hide Table.TableInv, M.HandsFrom, Room.RoomManager.Indexed, Deck.Deck.Dealt;
      assert roomManager.Sides() == old(roomManager.Sides());
    }

    // If cards left the deck, the deal consists of two different ones.
    twostate predicate RealCards(deal: Deal)
      reads gameSession.deck
    {
      Dealt() != old(Dealt()) ==> Deck.IsDeal(deal)
    }

    twostate predicate KeptOrCleared()
      reads roomManager, roomManager.users.Values
    {
      roomManager.ReadyKept() || roomManager.NobodyReady()
    }

    constructor (roomManager: Room.RoomManager)
      requires roomManager.Valid()
      ensures Valid() && this.roomManager == roomManager && fresh(gameSession) && fresh(gameSession.deck)
      ensures gameSession.Phase() == Table.Waiting && Sound()
    {
      this.roomManager := roomManager;
      gameSession := new Session.GameSession();
    }

    method ResetGame()
      requires Valid()
      modifies gameSession
      ensures Valid() && gameSession.Phase() == Table.Waiting
    {
      gameSession.Reset();
    }

    method PassTurnToOpponent(currentSocket: Socket) returns (ok: bool)
      requires Valid()
      modifies gameSession
      ensures Valid()
      ensures ok <==> old(gameSession.Phase()).Betting? && Two(currentSocket)
      ensures gameSession.Phase() == if ok then Table.Betting(Opponent(currentSocket)) else Table.Waiting
    {
      var opponentSocket := roomManager.GetOpponentSocket(currentSocket);
      if opponentSocket.None? {
        gameSession.Reset();
        return false;
      }
      assert opponentSocket.value != INVALID_SOCKET;
      ok := gameSession.PassTurnTo(opponentSocket.value);
      if !ok {
        gameSession.Reset();
      }
    }

    // Tells both players who won the match, and ends it.
    method FinishGame(socket: Socket, finalResult: MatchResult)
      requires Valid()
      modifies roomManager`outbox, gameSession
      ensures Valid()
      ensures gameSession.Phase() == if G.IsFinal(finalResult) then Table.Waiting else old(gameSession.Phase())
      ensures Two(socket) ==>
        Duel(socket) ==
          if G.IsFinal(finalResult) then G.FinishGame(old(Duel(socket)), finalResult) else old(Duel(socket))
    {
      hide S.Broadcast, Room.RoomManager.Indexed, Room.RoomManager.Valid, Room.RoomManager.Duel;
      hide Room.RoomManager.Two, Room.RoomManager.Opponent, Room.RoomManager.SideAt;
      hide Room.RoomManager.UserAt, Deck.Deck.Valid, Deck.Deck.Dealt;
      var won := false;
      if finalResult == FinalWin {
        won := true;
      } else if finalResult == FinalLose {
        won := false;
      } else {
        return;
      }
      roomManager.BroadcastMessage(FinalMsg(won), socket, ToSelf);
      roomManager.BroadcastMessage(FinalMsg(!won), socket, ToOthers);
      gameSession.Reset();
    }

    method FinishIfNeeded(socket: Socket, matchResult: MatchResult) returns (finished: bool)
      requires Valid()
      modifies roomManager`outbox, gameSession
      ensures Valid()
      ensures finished == G.IsFinal(matchResult)
      ensures gameSession.Phase() == if finished then Table.Waiting else old(gameSession.Phase())
      ensures Two(socket) ==>
        Duel(socket) == if finished then G.FinishGame(old(Duel(socket)), matchResult) else old(Duel(socket))
    {
      hide G.FinishGame;
      if matchResult != FinalWin && matchResult != FinalLose {
        return false;
      }
      FinishGame(socket, matchResult);
      return true;
    }

    method NotifyTurnChanged(previousTurnSocket: Socket)
      requires Valid()
      modifies roomManager`outbox
      ensures Valid()
      ensures Two(previousTurnSocket) ==> Duel(previousTurnSocket) == G.NotifyTurnChanged(old(Duel(previousTurnSocket)))
    {
      hide S.Broadcast;
      roomManager.BroadcastMessage(Turn(false), previousTurnSocket, ToSelf);
      roomManager.BroadcastMessage(Turn(true), previousTurnSocket, ToOthers);
    }

    method GiveCards(socket: Socket) returns (ghost deal: Deal)
      requires Valid()
      modifies roomManager`outbox, roomManager.users.Values, gameSession.deck
      ensures Valid() && roomManager.ReadyKept()
      ensures Dealt() == old(Dealt()) + [deal.mine, deal.theirs]
      ensures Deck.IsDeal(deal)
      ensures Two(socket) ==> Duel(socket) == S.UpdateCards(old(Duel(socket)), deal)
    {
      hide S.UpdateCards, Room.RoomManager.Indexed, Room.RoomManager.Valid, Room.RoomManager.Duel;
      hide Room.RoomManager.Two, Room.RoomManager.Opponent, Room.RoomManager.SideAt;
      hide Room.RoomManager.UserAt, Deck.Deck.Valid, Deck.Deck.Dealt;
      var cards := gameSession.DealCards();
      roomManager.UpdateCards(socket, cards);
      deal := cards;
    }

    method GiveBasicBetting(socket: Socket) returns (ghost deal: Deal)
      requires Valid()
      modifies roomManager`outbox, roomManager`dealerChips, roomManager.users.Values, gameSession.deck
      ensures Valid() && roomManager.ReadyKept()
      ensures Dealt() == old(Dealt()) + [deal.mine, deal.theirs] && Deck.IsDeal(deal)
      ensures Two(socket) ==> Duel(socket) == G.GiveBasicBetting(old(Duel(socket)), deal)
    {
      hide S.UpdateCards, S.Broadcast, S.CollectBasicBet, Room.RoomManager.Indexed;
      hide Room.RoomManager.Valid, Room.RoomManager.Duel, Room.RoomManager.Two, Room.RoomManager.Opponent;
      hide Room.RoomManager.SideAt, Room.RoomManager.UserAt, Deck.Deck.Valid, Deck.Deck.Dealt;
      roomManager.BroadcastMessage(BasicBetting, socket, ToAll);
      roomManager.CollectBasicBet(socket, 1);
      deal := GiveCards(socket);
    }

    method BroadcastRoundResult(socket: Socket, roundResult: RoundResult, actionType: BetType)
      requires Valid()
      modifies roomManager`outbox
      ensures Valid()
      ensures Two(socket) ==> Duel(socket) == G.BroadcastRoundResult(old(Duel(socket)), roundResult, actionType)
    {
      hide S.Broadcast, Room.RoomManager.Indexed, Room.RoomManager.Valid, Room.RoomManager.Duel;
      hide Room.RoomManager.Two, Room.RoomManager.Opponent, Room.RoomManager.SideAt;
      hide Room.RoomManager.UserAt, Deck.Deck.Valid, Deck.Deck.Dealt;
      var selfResult, opponentResult;
      match roundResult {
        case Win =>
          selfResult, opponentResult := SaysWin, SaysLose;
        case Lose =>
          selfResult := SaysLose;
          opponentResult := if actionType == Die then SaysDie else SaysWin;
        case Draw =>
          roomManager.BroadcastMessage(RoundMsg(SaysDraw), socket, ToAll);
          return;
        case BothWin =>
          selfResult, opponentResult := SaysBothWin, SaysBothLose;
        case BothLose =>
          selfResult, opponentResult := SaysBothLose, SaysBothWin;
        case RoundImpossible =>
          return;
      }
      roomManager.BroadcastMessage(RoundMsg(selfResult), socket, ToSelf);
      roomManager.BroadcastMessage(RoundMsg(opponentResult), socket, ToOthers);
    }

    // The ready flags are only ever touched by a check that somebody is out of chips.
    method PrepareNextRound(socket: Socket, roundResult: RoundResult) returns (ghost deal: Deal)
      requires Valid()
      modifies roomManager`outbox, roomManager`dealerChips, roomManager.users.Values, gameSession, gameSession.deck
      ensures Valid() && KeptOrCleared() && RealCards(deal)
      ensures Two(socket) && old(gameSession.Phase()).Betting? ==>
        var p := G.PrepareNextRound(old(Duel(socket)), roundResult, deal);
        && Duel(socket) == p.duel
        && gameSession.Phase() == Table.PhaseAfter(p.outcome, socket, Opponent(socket))
        && Dealt() == old(Dealt()) + M.Drawn(p.outcome, deal)
        && (p.outcome.Finished() ==> roomManager.NobodyReady())
    {
      hide S.Broadcast, S.UpdateCards, S.CollectBasicBet, S.SettleRound, S.EndCheck, S.CompareCard;
      hide S.PrintCard, S.BetChips, S.SpecialCase, S.CanCollect, G.FinishGame, G.NotifyTurnChanged;
      hide G.GiveBasicBetting, Room.RoomManager.Indexed, Room.RoomManager.Valid, Room.RoomManager.Duel;
      hide Room.RoomManager.Two, Room.RoomManager.Opponent, Room.RoomManager.SideAt;
      hide Room.RoomManager.UserAt, Deck.Deck.Valid, Deck.Deck.Dealt;
      if roundResult == Draw {
        deal := GiveCards(socket);
      } else {
        deal := GiveBasicBetting(socket);
      }
      FinishOrPassTurn(socket);
    }

    // The check after the deal; if the match goes on, the other player is next.
    method FinishOrPassTurn(socket: Socket)
      requires Valid()
      modifies roomManager`outbox, roomManager.users.Values, gameSession
      ensures Valid() && KeptOrCleared()
      ensures Two(socket) && old(gameSession.Phase()).Betting? ==>
        var m := S.EndCheck(old(Duel(socket)));
        if G.IsFinal(m) then
          && Duel(socket) == G.FinishGame(old(Duel(socket)), m)
          && gameSession.Phase().Waiting? && roomManager.NobodyReady()
        else
          && Duel(socket) == G.NotifyTurnChanged(S.Broadcast(old(Duel(socket)), GameInit, ToAll))
          && gameSession.Phase() == Table.Betting(Opponent(socket)) && roomManager.ReadyKept()
    {
      hide S.Broadcast, S.UpdateCards, S.CollectBasicBet, S.SettleRound, S.EndCheck, S.CompareCard;
      hide S.PrintCard, S.BetChips, S.SpecialCase, S.CanCollect, G.FinishGame, G.NotifyTurnChanged;
      hide G.GiveBasicBetting, Room.RoomManager.Indexed, Room.RoomManager.Valid, Room.RoomManager.Duel;
      hide Room.RoomManager.Two, Room.RoomManager.Opponent, Room.RoomManager.SideAt;
      hide Room.RoomManager.UserAt, Deck.Deck.Valid, Deck.Deck.Dealt;
      var matchResult := roomManager.EndCheck(socket);
      var finished := FinishIfNeeded(socket, matchResult);
      if finished {
        return;
      }
      var passed := PassTurnToOpponent(socket);
      if !passed {
        return;
      }
      roomManager.BroadcastMessage(GameInit, socket, ToAll);
      NotifyTurnChanged(socket);
    }

    method ResolveRound(socket: Socket, actionType: BetType) returns (roundResult: RoundResult)
      requires Valid()
      modifies roomManager`outbox, roomManager.users.Values
      ensures Valid() && roomManager.ReadyKept()
      ensures Two(socket) && !actionType.Die? ==>
        var (compared, r) := S.CompareCard(old(Duel(socket)));
        && roundResult == r
        && Duel(socket) == if r.RoundImpossible? then compared else G.BroadcastRoundResult(compared, r, actionType)
    {
      hide S.Broadcast, S.UpdateCards, S.CollectBasicBet, S.SettleRound, S.EndCheck, S.PrintCard;
      hide S.BetChips, S.SpecialCase, S.CanCollect, RoundResolver.Resolve, S.ClearSides;
      hide G.BroadcastRoundResult, Room.RoomManager.Indexed, Room.RoomManager.Valid;
      hide Room.RoomManager.Duel, Room.RoomManager.Two, Room.RoomManager.Opponent;
      hide Room.RoomManager.SideAt, Room.RoomManager.UserAt, Deck.Deck.Valid, Deck.Deck.Dealt;
      roundResult := roomManager.CompareCard(socket, actionType);
      if roundResult == RoundImpossible {
        return;
      }
      BroadcastRoundResult(socket, roundResult, actionType);
    }

    method SettleAndCheck(socket: Socket, roundResult: RoundResult) returns (matchResult: MatchResult)
      requires Valid()
      modifies roomManager`outbox, roomManager`dealerChips, roomManager.users.Values
      ensures Valid() && KeptOrCleared()
      ensures G.IsFinal(matchResult) ==> roomManager.NobodyReady()
      ensures Two(socket) ==>
        && Duel(socket) == S.SettleRound(old(Duel(socket)), roundResult)
        && matchResult == if roundResult.Draw? then Progress else S.EndCheck(Duel(socket))
    {
      hide S.Broadcast, S.UpdateCards, S.CollectBasicBet, S.SettleRound, S.EndCheck, S.CompareCard;
      hide S.PrintCard, S.BetChips, S.SpecialCase, S.CanCollect, Room.RoomManager.Indexed;
      hide Room.RoomManager.Valid, Room.RoomManager.Duel, Room.RoomManager.Two, Room.RoomManager.Opponent;
      hide Room.RoomManager.SideAt, Room.RoomManager.UserAt, Deck.Deck.Valid, Deck.Deck.Dealt;
      roomManager.SettleRound(socket, roundResult);
      matchResult := roomManager.EndCheck(socket);
      if roundResult == Draw {
        matchResult := Progress;
      }
    }

    // The end of a round from the settlement on; a draw is not the end of a match here.
    method SettleAndGoOn(socket: Socket, roundResult: RoundResult) returns (ghost deal: Deal)
      requires Valid()
      modifies roomManager`outbox, roomManager`dealerChips, roomManager.users.Values, gameSession, gameSession.deck
      ensures Valid() && KeptOrCleared() && RealCards(deal)
      ensures Two(socket) && old(gameSession.Phase()).Betting? ==>
        var p := G.SettleAndGoOn(old(Duel(socket)), roundResult, deal);
        && Duel(socket) == p.duel
        && gameSession.Phase() == Table.PhaseAfter(p.outcome, socket, Opponent(socket))
        && Dealt() == old(Dealt()) + M.Drawn(p.outcome, deal)
        && (p.outcome.Finished() ==> roomManager.NobodyReady())
    {
      hide S.Broadcast, S.UpdateCards, S.CollectBasicBet, S.SettleRound, S.EndCheck, S.CompareCard;
      hide S.PrintCard, S.BetChips, S.SpecialCase, S.CanCollect, G.FinishGame, G.PrepareNextRound;
      hide Room.RoomManager.Indexed, Room.RoomManager.Valid, Room.RoomManager.Duel, Room.RoomManager.Two;
      hide Room.RoomManager.Opponent, Room.RoomManager.SideAt, Room.RoomManager.UserAt, Deck.Deck.Valid;
      hide Deck.Deck.Dealt;
      deal := Deal(Card(0, 0), Card(0, 0));
      var matchResult := SettleAndCheck(socket, roundResult);
      var finished := FinishIfNeeded(socket, matchResult);
      if finished {
        return;
      }
      if matchResult != Progress {
        return;
      }
      deal := PrepareNextRound(socket, roundResult);
    }

    method ProcessRoundEnd(socket: Socket, actionType: BetType) returns (ghost deal: Deal)
      requires Valid()
      modifies roomManager`outbox, roomManager`dealerChips, roomManager.users.Values, gameSession, gameSession.deck
      ensures Valid() && KeptOrCleared() && RealCards(deal)
      ensures Two(socket) && old(gameSession.Phase()) == Table.Betting(socket) ==>
        var p := G.ProcessRoundEnd(old(Duel(socket)), actionType, deal);
        && Duel(socket) == p.duel
        && gameSession.Phase() == Table.PhaseAfter(p.outcome, socket, Opponent(socket))
        && Dealt() == old(Dealt()) + M.Drawn(p.outcome, deal)
        && (p.outcome.Finished() ==> roomManager.NobodyReady())
    {
      hide S.Broadcast, S.UpdateCards, S.CollectBasicBet, S.SettleRound, S.EndCheck, S.CompareCard;
      hide S.PrintCard, S.BetChips, S.SpecialCase, S.CanCollect, G.SettleAndGoOn, G.BroadcastRoundResult;
      hide Room.RoomManager.Indexed, Room.RoomManager.Valid, Room.RoomManager.Duel, Room.RoomManager.Two;
      hide Room.RoomManager.Opponent, Room.RoomManager.SideAt, Room.RoomManager.UserAt, Deck.Deck.Valid;
      hide Deck.Deck.Dealt;
      deal := Deal(Card(0, 0), Card(0, 0));
      if actionType == Die {
        BroadcastRoundResult(socket, Lose, actionType);
        deal := SettleAndGoOn(socket, Lose);
        return;
      }
      roomManager.BroadcastMessage(Battle, socket, ToAll);
      roomManager.PrintCard(socket);
      var roundResult := ResolveRound(socket, actionType);
      if roundResult == RoundImpossible {
        return;
      }
      deal := SettleAndGoOn(socket, roundResult);
    }

    method ResolveBet(socket: Socket, betCount: int, betType: BetType) returns (result: BetResult)
      requires Valid()
      modifies roomManager`outbox, roomManager.users.Values
      ensures Valid() && roomManager.ReadyKept()
      ensures Two(socket) ==>
        (Duel(socket), result) ==
          if betType.Die? then (old(Duel(socket)), Call)
          else if betType.Special? then (S.SpecialCase(old(Duel(socket))), Call)
          else S.BetChips(old(Duel(socket)), Command(betType, betCount))
    {
      hide S.Broadcast, S.UpdateCards, S.CollectBasicBet, S.SettleRound, S.EndCheck, S.CompareCard;
      hide S.PrintCard, S.BetChips, S.SpecialCase, S.CanCollect, Room.RoomManager.Indexed;
      hide Room.RoomManager.Valid, Room.RoomManager.Duel, Room.RoomManager.Two, Room.RoomManager.Opponent;
      hide Room.RoomManager.SideAt, Room.RoomManager.UserAt, Deck.Deck.Valid, Deck.Deck.Dealt;
      if betType == Die {
        return Call;
      }
      if betType == Special {
        roomManager.SpecialCase();
        return Call;
      }
      result := roomManager.BetChips(socket, betCount, betType);
    }

    method BetChip(socket: Socket, betCount: int, betType: BetType) returns (ghost deal: Deal)
      requires Valid()
      modifies roomManager`outbox, roomManager`dealerChips, roomManager.users.Values, gameSession, gameSession.deck
      ensures Valid() && KeptOrCleared() && RealCards(deal)
      ensures Two(socket) && old(gameSession.Phase()) == Table.Betting(socket) ==>
        var p := G.Act(old(Duel(socket)), Command(betType, betCount), deal);
        && Duel(socket) == p.duel
        && gameSession.Phase() == Table.PhaseAfter(p.outcome, socket, Opponent(socket))
        && Dealt() == old(Dealt()) + M.Drawn(p.outcome, deal)
        && (p.outcome.Finished() ==> roomManager.NobodyReady())
    {
      hide S.Broadcast, S.UpdateCards, S.CollectBasicBet, S.SettleRound, S.EndCheck, S.CompareCard;
      hide S.PrintCard, S.BetChips, S.SpecialCase, S.CanCollect, G.ProcessRoundEnd, G.NotifyTurnChanged;
      hide S.Decide, Room.RoomManager.Indexed, Room.RoomManager.Valid, Room.RoomManager.Duel;
      hide Room.RoomManager.Two, Room.RoomManager.Opponent, Room.RoomManager.SideAt;
      hide Room.RoomManager.UserAt, Deck.Deck.Valid, Deck.Deck.Dealt;
      deal := Deal(Card(0, 0), Card(0, 0));
      var betResult := ResolveBet(socket, betCount, betType);
      match betResult {
        case BetImpossible =>
        case Raise =>
          var passed := PassTurnToOpponent(socket);
          if passed {
            NotifyTurnChanged(socket);
          }
        case Call =>
          deal := ProcessRoundEnd(socket, betType);
      }
    }

    method BetUser(socket: Socket, message: string) returns (ghost deal: Deal)
      requires Valid()
      modifies roomManager`outbox, roomManager`dealerChips, roomManager.users.Values, gameSession, gameSession.deck
      ensures Valid() && KeptOrCleared() && RealCards(deal)
      ensures Two(socket) && old(gameSession.Phase()) == Table.Betting(socket) ==>
        match BetCommandParser.Parse(message)
        case None => Duel(socket) == old(Duel(socket)) && gameSession.Phase() == old(gameSession.Phase())
                     && Dealt() == old(Dealt())
        case Some(c) =>
          var p := G.Act(old(Duel(socket)), c, deal);
          && Duel(socket) == p.duel
          && gameSession.Phase() == Table.PhaseAfter(p.outcome, socket, Opponent(socket))
          && Dealt() == old(Dealt()) + M.Drawn(p.outcome, deal)
          && (p.outcome.Finished() ==> roomManager.NobodyReady())
    {
      hide S.Broadcast, S.UpdateCards, S.CollectBasicBet, S.SettleRound, S.EndCheck, S.CompareCard;
      hide S.PrintCard, S.BetChips, S.SpecialCase, S.CanCollect, G.Act, BetCommandParser.Parse;
      hide Room.RoomManager.Indexed, Room.RoomManager.Valid, Room.RoomManager.Duel, Room.RoomManager.Two;
      hide Room.RoomManager.Opponent, Room.RoomManager.SideAt, Room.RoomManager.UserAt, Deck.Deck.Valid;
      hide Deck.Deck.Dealt;
      deal := Deal(Card(0, 0), Card(0, 0));
      var command := BetCommandParser.Parse(message);
      if command.None? {
        return;
      }
      deal := BetChip(socket, command.value.count, command.value.kind);
    }

    ghost predicate AllReady()
      reads roomManager, roomManager.users.Values
    {
      |roomManager.users| == 2 && forall n :: n in roomManager.users ==> roomManager.users[n].isReady
    }

    method HandleGameStart(socket: Socket) returns (ghost deal: Deal)
      requires Valid() && gameSession.Phase().Waiting?
      modifies roomManager`outbox, roomManager`dealerChips, roomManager.users.Values, gameSession, gameSession.deck
      ensures Valid() && roomManager.ReadyKept() && RealCards(deal)
      ensures !old(AllReady()) ==>
        AsTable() == Table.TellAll(old(AsTable()), StartReady) && Dealt() == old(Dealt())
      ensures Two(socket) && old(AllReady()) ==>
        && Duel(socket) == G.StartMatch(old(Duel(socket)), deal)
        && gameSession.Phase() == Table.Betting(socket)
        && Dealt() == old(Dealt()) + [deal.mine, deal.theirs]
    {
      hide S.Broadcast, S.UpdateCards, S.CollectBasicBet, S.SettleRound, S.EndCheck, S.CompareCard;
      hide S.PrintCard, S.BetChips, S.SpecialCase, S.CanCollect, G.GiveBasicBetting, S.ResetAllUsers;
      hide Room.RoomManager.Indexed, Room.RoomManager.Valid, Room.RoomManager.Duel, Room.RoomManager.Two;
      hide Room.RoomManager.Opponent, Room.RoomManager.SideAt, Room.RoomManager.UserAt, Deck.Deck.Valid;
      hide Deck.Deck.Dealt, Room.RoomManager.Sides, Table.ToldAll;
      deal := Deal(Card(0, 0), Card(0, 0));
      var ready := roomManager.AllUserStartReadyState();
      if !ready {
        roomManager.BroadcastMessage(StartReady, socket, ToAll);
        return;
      }
      if Two(socket) {
        roomManager.MembersAreSockets(socket);
      }
      var started := gameSession.Start(socket);
      if !started {
        return;
      }
      roomManager.BroadcastMessage(StartDone, socket, ToAll);
      roomManager.ResetAllUsers(true);
      roomManager.BroadcastMessage(GameInit, socket, ToAll);
      roomManager.BroadcastMessage(Turn(true), socket, ToSelf);
      roomManager.BroadcastMessage(Turn(false), socket, ToOthers);
      deal := GiveBasicBetting(socket);
    }

    // A request to start. A member that is alone, or with a player who is not ready, is only answered.
    method HandleStartRequest(socket: Socket) returns (handled: bool, ghost deal: Deal)
      requires Valid()
      modifies roomManager`outbox, roomManager`dealerChips, roomManager.users.Values, gameSession, gameSession.deck
      ensures Valid() && roomManager.ReadyKept() && RealCards(deal)
      ensures handled <==> old(gameSession.Phase()).Waiting?
      ensures Two(socket) && handled && old(AllReady()) ==>
        && AsTable() == Table.Step(old(AsTable()), Table.Start(socket, deal))
        && gameSession.Phase().Betting?
        && Dealt() == old(Dealt()) + M.DrawnBy(old(AsTable()), Table.Start(socket, deal))
      ensures handled && !old(AllReady()) ==>
        AsTable() == Table.TellAll(old(AsTable()), StartReady) && Dealt() == old(Dealt())
      ensures !handled ==> AsTable() == old(AsTable()) && Dealt() == old(Dealt())
    {
      hide S.Broadcast, S.UpdateCards, S.CollectBasicBet, S.SettleRound, S.EndCheck, S.CompareCard;
      hide S.PrintCard, S.BetChips, S.SpecialCase, S.CanCollect, G.Act, G.StartMatch, Table.Step;
      hide Room.RoomManager.Indexed, Room.RoomManager.Valid, Room.RoomManager.Duel, Room.RoomManager.Two;
      hide Room.RoomManager.Opponent, Room.RoomManager.SideAt, Room.RoomManager.UserAt, Deck.Deck.Valid;
      hide Deck.Deck.Dealt;
      ghost var t := AsTable();
      deal := Deal(Card(0, 0), Card(0, 0));
      if Two(socket) {
        TableShowsDuel(socket);
      }
      if !gameSession.IsWaiting() {
        return false, deal;
      }
      deal := HandleGameStart(socket);
      if Two(socket) && old(AllReady()) {
        TableShowsDuel(socket);
        StartFollows(t, AsTable(), socket, deal);
      }
      return true, deal;
    }

    // A betting message; out of turn it is refused unread.
    method HandleBetMessage(socket: Socket, message: string) returns (handled: bool, ghost deal: Deal)
      requires Valid()
      modifies roomManager`outbox, roomManager`dealerChips, roomManager.users.Values, gameSession, gameSession.deck
      ensures Valid() && KeptOrCleared() && RealCards(deal)
      ensures handled <==> old(gameSession.Phase()) == Table.Betting(socket)
      ensures !old(gameSession.Phase()).Betting? ==> AsTable() == old(AsTable()) && Dealt() == old(Dealt())
      ensures Two(socket) && old(gameSession.Phase()).Betting? && gameSession.Phase().Waiting? ==>
        roomManager.NobodyReady()
      ensures Two(socket) && old(gameSession.Phase()).Betting? && Table.TableInv(old(AsTable())) ==>
        var e := BetEvent(old(AsTable()), socket, message, deal);
        && AsTable() == Table.Step(old(AsTable()), e)
        && Dealt() == old(Dealt()) + M.DrawnBy(old(AsTable()), e)
    {
      hide S.Broadcast, S.UpdateCards, S.CollectBasicBet, S.SettleRound, S.EndCheck, S.CompareCard;
      hide S.PrintCard, S.BetChips, S.SpecialCase, S.CanCollect, G.Act, G.StartMatch;
      hide BetCommandParser.Parse, Table.Step, Table.TableInv, Table.Seated, Table.Rival, M.Drawn, AsTable;
      hide Room.RoomManager.Indexed, Room.RoomManager.Valid, Room.RoomManager.Duel, Room.RoomManager.Two;
      hide Room.RoomManager.Opponent, Room.RoomManager.SideAt, Room.RoomManager.UserAt, Deck.Deck.Valid;
      hide Deck.Deck.Dealt;
      ghost var t := AsTable();
      OtherChangesNothing(t);
      deal := Deal(Card(0, 0), Card(0, 0));
      if Two(socket) {
        TableShowsDuel(socket);
      }
      if !gameSession.IsBetting() {
        return false, deal;
      }
      if !gameSession.IsCurrentTurn(socket) {
        roomManager.BroadcastMessage(BettingRefused, socket, ToSelf);
        if Two(socket) {
          TableShowsDuel(socket);
          RefusalFollows(t, AsTable(), socket, Command(Unset, 0), deal);
        }
        return false, deal;
      }
      deal := BetUser(socket, message);
      if Two(socket) && Table.TableInv(t) {
        TableShowsDuel(socket);
        BetMessageFollows(t, AsTable(), socket, message, deal);
        match BetCommandParser.Parse(message) {
          case None =>
          case Some(c) => BetDraws(t, socket, c, deal);
        }
      }
      return true, deal;
    }

    lemma LoneIsWaiting(s: Socket)
      requires Valid() && s in roomManager.connections && !Two(s) && Table.TableInv(AsTable())
      ensures gameSession.Phase().Waiting? && !AllReady() && AsTable().sides.Keys == {s}
    {
      roomManager.Alone(s);
      assert |AsTable().sides.Keys| == 1;
    }

    // Every message of a member is one complete operation on the room, with the cards it takes from the deck; only
    // the request to start before two members are ready is answered to everybody with a message of its own.
    method HandleGameEvent(socket: Socket, message: string) returns (handled: bool, ghost deal: Deal)
      requires Valid()
      modifies roomManager`outbox, roomManager`dealerChips, roomManager.users.Values, gameSession, gameSession.deck
      ensures Valid() && KeptOrCleared() && RealCards(deal)
      ensures handled <==>
        if message == GAME_START then old(gameSession.Phase()).Waiting?
        else BetCommandParser.StartsWith(message, ClientCommandParser.BETTING)
             && old(gameSession.Phase()) == Table.Betting(socket)
      ensures socket in roomManager.connections && Table.TableInv(old(AsTable())) ==>
        if message == GAME_START && handled && !old(AllReady()) then
          AsTable() == Table.TellAll(old(AsTable()), StartReady) && Dealt() == old(Dealt())
        else
          var e := EventOf(old(AsTable()), socket, message, old(AllReady()), deal);
          && AsTable() == Table.Step(old(AsTable()), e)
          && Dealt() == old(Dealt()) + M.DrawnBy(old(AsTable()), e)
      ensures socket in roomManager.connections && old(Sound()) ==> Sound()
      ensures Two(socket) && old(gameSession.Phase()).Betting? && gameSession.Phase().Waiting? ==>
        roomManager.NobodyReady()
    {
      hide S.Broadcast, S.UpdateCards, S.CollectBasicBet, S.SettleRound, S.EndCheck, S.CompareCard;
      hide S.PrintCard, S.BetChips, S.SpecialCase, S.CanCollect, G.Act, G.StartMatch, BetEvent, M.DrawnBy;
      hide M.HandsFrom;
      hide Table.Step, Table.TableInv, Table.TellAll, Room.RoomManager.Indexed, Room.RoomManager.Valid;
      hide Room.RoomManager.Duel, Room.RoomManager.Two, Room.RoomManager.Opponent;
      hide Room.RoomManager.SideAt, Room.RoomManager.UserAt, Deck.Deck.Valid, Deck.Deck.Dealt;
      ghost var t, dealt := AsTable(), Dealt();
      OtherChangesNothing(t);
      if socket in roomManager.connections && !Two(socket) && Table.TableInv(t) {
        LoneIsWaiting(socket);
      }
      deal := Deal(Card(0, 0), Card(0, 0));
      if message == GAME_START {
        handled, deal := HandleStartRequest(socket);
      } else {
        var isBettingMessage := BetCommandParser.StartsWith(message, ClientCommandParser.BETTING);
        if isBettingMessage {
          handled, deal := HandleBetMessage(socket, message[|ClientCommandParser.BETTING|..]);
        } else {
          handled := false;
        }
      }
      if socket in roomManager.connections && Table.TableInv(t) && M.HandsFrom(t, dealt) {
        if message == GAME_START && handled && !old(AllReady()) {
          AnswerKeepsSound(t, StartReady, dealt);
        } else {
          EventKeepsSound(t, socket, message, old(AllReady()), deal, dealt);
        }
      }
    }

    // An exit ends a running match, and the player who stays starts over.
    method HandlePlayerExit(userNumber: UserNumber, userID: string, socket: Socket) returns (removed: bool)
      requires Valid()
      modifies roomManager, roomManager.users.Values, gameSession
      ensures Valid()
      ensures removed <==> old(roomManager.IsMember(userNumber, socket))
      ensures old(Sound()) ==> Sound()
      ensures !removed ==> roomManager.Untouched() && gameSession.Phase() == old(gameSession.Phase())
      ensures removed ==>
        && Muted(AsTable()) == Muted(Table.Step(old(AsTable()), Table.Leave(socket)))
        && gameSession.Phase().Waiting? && roomManager.NobodyReady()
        && roomManager.connections == old(roomManager.connections) - {socket}
        && roomManager.users == old(roomManager.users) - {userNumber}
        && socket in roomManager.outbox && socket in old(roomManager.outbox)
        && roomManager.outbox[socket] == old(roomManager.outbox[socket]) + [ExitComplete]
        && forall s :: s in roomManager.connections ==>
             roomManager.outbox[s] == old(roomManager.outbox[s]) + [Exited(old(roomManager.users[userNumber]).ID)]
               + S.If(old(gameSession.Phase()).Betting?, GameAborted)
    {
      hide Room.RoomManager.Indexed, Room.RoomManager.Valid, Room.RoomManager.Duel, Room.RoomManager.Two;
      hide Room.RoomManager.Opponent, Room.RoomManager.SideAt, Room.RoomManager.UserAt;
      hide Room.RoomManager.Untouched, Deck.Deck.Valid, Deck.Deck.Dealt, Muted, Table.Step, Sound;
      ghost var t := AsTable();
      var gameWasRunning := gameSession.IsBetting();
      removed := roomManager.RemoveUser(userNumber, userID, socket, gameWasRunning);
      if !removed {
        UntouchedIsSound();
        return;
      }
      gameSession.Reset();
      WaitingIsSound();
      roomManager.AllFresh();
      LeaveFollows(t, AsTable(), socket);
    }
  }
}
