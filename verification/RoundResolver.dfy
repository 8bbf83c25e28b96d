/** TwofacedPoker/Game/RoundResolver.cpp: who wins a showdown. */
module RoundResolver {
  import opened Foundation

  datatype PlayerRoundState = PlayerRoundState(frontCard: int, backCard: int, betType: BetType)

  predicate IsPlayable(t: BetType) {
    t.Front? || t.Back? || t.Both?
  }

  function Selected(p: PlayerRoundState): int {
    if p.betType.Front? then p.frontCard else p.backCard
  }

  function Resolve(current: PlayerRoundState, opponent: PlayerRoundState, folded: bool): RoundResult {
    if folded then
      if !IsPlayable(opponent.betType) then RoundImpossible
      else if opponent.betType.Both? then BothLose else Lose
    else if !IsPlayable(current.betType) || !IsPlayable(opponent.betType) then RoundImpossible
    else if current.betType.Both? && opponent.betType.Both? then RoundImpossible
    else if !current.betType.Both? then
      if opponent.betType.Both? then
        if Selected(current) < opponent.frontCard && Selected(current) < opponent.backCard then BothLose else Win
      else if Selected(current) > Selected(opponent) then Win
      else if Selected(current) < Selected(opponent) then Lose
      else Draw
    else if current.frontCard > Selected(opponent) && current.backCard > Selected(opponent) then BothWin
    else Lose
  }

  // The same showdown as the other player reads it.
  function Mirror(r: RoundResult): RoundResult {
    match r
    case Win => Lose
    case Lose => Win
    case BothWin => BothLose
    case BothLose => BothWin
    case Draw => Draw
    case RoundImpossible => RoundImpossible
  }

  // A showdown does not depend on which of the two players triggered it.
  lemma ResolveMirrors(a: PlayerRoundState, b: PlayerRoundState)
    ensures Resolve(b, a, false) == Mirror(Resolve(a, b, false))
  {
  }

  // A showdown fails exactly when somebody has no side chosen or both claim both sides;
  // it is drawn exactly when two single-sided bets show equal cards.
  lemma ResolveDecides(a: PlayerRoundState, b: PlayerRoundState)
    ensures Resolve(a, b, false).RoundImpossible? <==>
              !IsPlayable(a.betType) || !IsPlayable(b.betType) || (a.betType.Both? && b.betType.Both?)
    ensures Resolve(a, b, false).Draw? <==>
              a.betType in {Front, Back} && b.betType in {Front, Back} && Selected(a) == Selected(b)
  {
  }

  // A fold loses to whoever bet, whatever the cards and the own bet; to a bet on both faces it loses double.
  lemma FoldLoses(a: PlayerRoundState, b: PlayerRoundState)
    ensures Resolve(a, b, true).Lose? <==> b.betType in {Front, Back}
    ensures Resolve(a, b, true).BothLose? <==> b.betType == Both
    ensures Resolve(a, b, true) in {Lose, BothLose, RoundImpossible}
  {
  }

  // Every card of a is higher than every card of b.
  ghost predicate AllAbove(a: set<int>, b: set<int>) {
    forall x, y :: x in a && y in b ==> x > y
  }

  // The rule of the game, on the faces two players bet on: whoever bets on both faces has to win with both of them,
  // or loses; otherwise the higher face wins and equal faces are a draw.
  ghost function Verdict(mine: set<int>, theirs: set<int>, iBetBoth: bool, theyBetBoth: bool): RoundResult {
    if iBetBoth then if AllAbove(mine, theirs) then BothWin else Lose
    else if theyBetBoth then if AllAbove(theirs, mine) then BothLose else Win
    else if AllAbove(mine, theirs) then Win
    else if AllAbove(theirs, mine) then Lose
    else Draw
  }

  // The faces a player bet on.
  function Shown(p: PlayerRoundState): set<int> {
    match p.betType
    case Front => {p.frontCard}
    case Back => {p.backCard}
    case Both => {p.frontCard, p.backCard}
    case _ => {}
  }

  // Every showdown that is decided is decided by that rule.
  lemma ResolveIsByFaces(a: PlayerRoundState, b: PlayerRoundState)
    requires !Resolve(a, b, false).RoundImpossible?
    ensures Resolve(a, b, false) == Verdict(Shown(a), Shown(b), a.betType.Both?, b.betType.Both?)
  {
    assert forall p: PlayerRoundState :: p.betType.Front? ==> p.frontCard in Shown(p);
    assert forall p: PlayerRoundState :: p.betType.Back? ==> p.backCard in Shown(p);
    assert forall p: PlayerRoundState :: p.betType.Both? ==> p.frontCard in Shown(p) && p.backCard in Shown(p);
  }
}
