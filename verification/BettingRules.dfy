/** TwofacedPoker/Game/BettingRules.cpp: is a chip bet legal, what does it cost, is it a call or a raise? */
module BettingRules {
  import opened Foundation

  datatype BettingState = BettingState(chips: int, frontBet: int, backBet: int, betType: BetType)

  datatype BetDecision = BetDecision(result: BetResult, cost: int)

  function Level(s: BettingState): int {
    Max(s.frontBet, s.backBet)
  }

  function Evaluate(current: BettingState, opponent: BettingState, count: int, requested: BetType): BetDecision {
    var impossible := BetDecision(BetImpossible, 0);
    if !(requested.Front? || requested.Back? || requested.Both?) then impossible
    else if count <= 0 then impossible
    else if !current.betType.Unset? && current.betType != requested then impossible
    else if requested.Both? && opponent.betType.Both? then impossible
    else
      var newLevel := Level(current) + count;
      var cost := if requested.Both? then count * 2 else count;
      if cost > current.chips then impossible
      else if newLevel < Level(opponent) then impossible
      // the cap prices the opponent's chips on one side only
      else if newLevel > Level(opponent) + opponent.chips then impossible
      else if newLevel == Level(opponent) then BetDecision(Call, cost)
      else BetDecision(Raise, cost)
  }
}
