/** The event handling of TwofacedPoker/Game/GameManager.cpp as one function per method, from the chair of
    the player whose event is handled and without interference from other threads. */
module GameFlow {
  import opened Foundation
  import opened Sections

  // Where a match stands after a finished round.
  datatype MatchEnd = Continues | EndsAtSettlement(iWin: bool) | EndsAtDeal(iWin: bool)

  datatype Outcome =
    | Rejected
    | Raised
    | RoundOver(result: RoundResult, end: MatchEnd)
    | Stuck
  {
    predicate Continuing() { Raised? || (RoundOver? && end.Continues?) }

    predicate Finished() { RoundOver? && !end.Continues? }
  }

  // fault: some branch was taken that exists only as a defence
  datatype Play = Play(duel: Duel, outcome: Outcome, fault: bool)

  predicate IsFinal(m: MatchResult) { m.FinalWin? || m.FinalLose? }

  function FinishGame(d: Duel, m: MatchResult): Duel {
    Broadcast(Broadcast(d, FinalMsg(m.FinalWin?), ToSelf), FinalMsg(m.FinalLose?), ToOthers)
  }

  // The player who held the turn is told that it is now the other's.
  function NotifyTurnChanged(d: Duel): Duel {
    Broadcast(Broadcast(d, Turn(false), ToSelf), Turn(true), ToOthers)
  }

  function ResultFor(r: RoundResult, kind: BetType): (Result, Result) {
    match r
    case Win => (SaysWin, SaysLose)
    case Lose => (SaysLose, if kind.Die? then SaysDie else SaysWin)
    case BothWin => (SaysBothWin, SaysBothLose)
    case BothLose => (SaysBothLose, SaysBothWin)
    case _ => (SaysDraw, SaysDraw)
  }

  function BroadcastRoundResult(d: Duel, r: RoundResult, kind: BetType): Duel {
    if r.RoundImpossible? then d
    else if r.Draw? then Broadcast(d, RoundMsg(SaysDraw), ToAll)
    else
      var (mine, theirs) := ResultFor(r, kind);
      Broadcast(Broadcast(d, RoundMsg(mine), ToSelf), RoundMsg(theirs), ToOthers)
  }

  function GiveBasicBetting(d: Duel, deal: Deal): Duel {
    UpdateCards(CollectBasicBet(Broadcast(d, BasicBetting, ToAll), 1), deal)
  }

  function PrepareNextRound(d: Duel, r: RoundResult, deal: Deal): Play {
    var dealt := if r.Draw? then UpdateCards(d, deal) else GiveBasicBetting(d, deal);
    var fault := !r.Draw? && !CanCollect(d, 1);
    var m := EndCheck(dealt);
    if IsFinal(m) then Play(FinishGame(dealt, m), RoundOver(r, EndsAtDeal(m.FinalWin?)), fault)
    else Play(NotifyTurnChanged(Broadcast(dealt, GameInit, ToAll)), RoundOver(r, Continues), fault)
  }

  // From the settlement on, the same for a fold and for a showdown.
  function SettleAndGoOn(d: Duel, r: RoundResult, deal: Deal): Play {
    var settled := SettleRound(d, r);
    var m := if r.Draw? then Progress else EndCheck(settled);
    if IsFinal(m) then Play(FinishGame(settled, m), RoundOver(r, EndsAtSettlement(m.FinalWin?)), false)
    else PrepareNextRound(settled, r, deal)
  }

  function ProcessRoundEnd(d: Duel, kind: BetType, deal: Deal): Play {
    if kind.Die? then SettleAndGoOn(BroadcastRoundResult(d, Lose, kind), Lose, deal)
    else
      var (compared, r) := CompareCard(PrintCard(Broadcast(d, Battle, ToAll)));
      if r.RoundImpossible? then Play(compared, Stuck, true)
      else SettleAndGoOn(BroadcastRoundResult(compared, r, kind), r, deal)
  }

  // A betting command of the player holding the turn (betChip and resolveBet).
  function Act(d: Duel, c: Command, deal: Deal): Play {
    if c.kind.Die? then ProcessRoundEnd(d, c.kind, deal)
    else if c.kind.Special? then ProcessRoundEnd(SpecialCase(d), c.kind, deal)
    else
      var (bet, r) := BetChips(d, c);
      match r
      case BetImpossible => Play(bet, Rejected, !Decide(d, c).result.BetImpossible?)
      case Raise => Play(NotifyTurnChanged(bet), Raised, false)
      case Call => ProcessRoundEnd(bet, c.kind, deal)
  }

  // Handle_Game_Start with both players ready; the caller gets the first turn.
  function StartMatch(d: Duel, deal: Deal): Duel {
    var begun := Broadcast(ResetAllUsers(Broadcast(d, StartDone, ToAll)), GameInit, ToAll);
    GiveBasicBetting(Broadcast(Broadcast(begun, Turn(true), ToSelf), Turn(false), ToOthers), deal)
  }
}
