/** TwofacedPoker/Game/SettlementRules.cpp: how the pots are paid out. */
module SettlementRules {
  import opened Foundation
  import RoundResolver

  datatype SettlementState = SettlementState(
    currentChips: int, opponentChips: int,
    currentFrontBet: int, currentBackBet: int,
    opponentFrontBet: int, opponentBackBet: int,
    dealerChips: int)

  datatype SettlementResult = SettlementResult(currentChips: int, opponentChips: int, dealerChips: int)

  function Pot(s: SettlementState): int {
    s.currentFrontBet + s.currentBackBet + s.opponentFrontBet + s.opponentBackBet
  }

  function Settle(s: SettlementState, r: RoundResult): Option<SettlementResult> {
    match r
    case RoundImpossible => None
    case Win => Some(SettlementResult(s.currentChips + Pot(s) + s.dealerChips, s.opponentChips, 0))
    case Lose => Some(SettlementResult(s.currentChips, s.opponentChips + Pot(s) + s.dealerChips, 0))
    case Draw => Some(SettlementResult(s.currentChips, s.opponentChips, s.dealerChips + Pot(s)))
    case BothWin =>
      var bonus := Min(10, s.opponentChips);
      Some(SettlementResult(s.currentChips + Pot(s) + s.dealerChips + bonus, s.opponentChips - bonus, 0))
    case BothLose =>
      var penalty := Min(10, s.currentChips);
      Some(SettlementResult(s.currentChips - penalty, s.opponentChips + Pot(s) + s.dealerChips + penalty, 0))
  }

  function SwapState(s: SettlementState): SettlementState {
    SettlementState(s.opponentChips, s.currentChips, s.opponentFrontBet, s.opponentBackBet,
                    s.currentFrontBet, s.currentBackBet, s.dealerChips)
  }

  function SwapResult(o: Option<SettlementResult>): Option<SettlementResult> {
    match o
    case None => None
    case Some(r) => Some(SettlementResult(r.opponentChips, r.currentChips, r.dealerChips))
  }

  // Paying out the mirrored round from the other chair pays everybody the same.
  lemma SettleMirrors(s: SettlementState, r: RoundResult)
    ensures Settle(SwapState(s), RoundResolver.Mirror(r)) == SwapResult(Settle(s, r))
  {
  }

  // Nothing is minted or lost, and nobody who held a non-negative amount goes below zero.
  lemma SettleConserves(s: SettlementState, r: RoundResult)
    requires !r.RoundImpossible?
    ensures Settle(s, r).Some?
    ensures var o := Settle(s, r).value;
      && o.currentChips + o.opponentChips + o.dealerChips == s.currentChips + s.opponentChips + Pot(s) + s.dealerChips
      && (s.currentChips >= 0 && s.opponentChips >= 0 && Pot(s) >= 0 && s.dealerChips >= 0 ==>
            o.currentChips >= 0 && o.opponentChips >= 0 && o.dealerChips >= 0)
  {
  }

  predicate Payable(amount: int, limit: int, chips: int) { amount <= limit && amount <= chips }

  // paid is the most, up to limit, that somebody with these chips can pay.
  ghost predicate MostPayable(paid: int, limit: int, chips: int) {
    Payable(paid, limit, chips) && forall t :: Payable(t, limit, chips) ==> t <= paid
  }

  // All chips there are.
  function Total(s: SettlementState): int { s.currentChips + s.opponentChips + Pot(s) + s.dealerChips }

  // In a draw the players keep their chips and everything else lies with the dealer. Otherwise the loser pays
  // nothing more, or after a win on both faces as much of 10 chips as it has, and the winner has everything else.
  lemma WinnerTakesTheRest(s: SettlementState, r: RoundResult)
    requires !r.RoundImpossible?
    ensures var o := Settle(s, r).value;
      match r
      case Draw =>
        && o.currentChips == s.currentChips && o.opponentChips == s.opponentChips
        && o.dealerChips == Total(s) - s.currentChips - s.opponentChips
      case Win =>
        o.opponentChips == s.opponentChips && o.dealerChips == 0 && o.currentChips == Total(s) - o.opponentChips
      case Lose =>
        o.currentChips == s.currentChips && o.dealerChips == 0 && o.opponentChips == Total(s) - o.currentChips
      case BothWin =>
        && MostPayable(s.opponentChips - o.opponentChips, 10, s.opponentChips)
        && o.dealerChips == 0 && o.currentChips == Total(s) - o.opponentChips
      case BothLose =>
        && MostPayable(s.currentChips - o.currentChips, 10, s.currentChips)
        && o.dealerChips == 0 && o.opponentChips == Total(s) - o.currentChips
  {
    SettleConserves(s, r);
  }
}
