/** The critical sections of TwofacedPoker/Room/RoomManager.cpp that a game uses, as functions of the two
    players seen from the calling player's chair. Each player carries the list of messages sent so far. */
module Sections {
  import opened Foundation
  import BettingRules
  import RoundResolver
  import SettlementRules

  datatype Side = Side(
    chips: int, frontBet: int, backBet: int,
    frontCard: int, backCard: int, bet: BetType,
    log: seq<Msg>)
  {
    function Level(): int { Max(frontBet, backBet) }

    // What the player would hold if the bets of this round were handed back.
    function Stack(): int { chips + frontBet + backBet }

    function Betting(): BettingRules.BettingState {
      BettingRules.BettingState(chips, frontBet, backBet, bet)
    }

    function Round(): RoundResolver.PlayerRoundState {
      RoundResolver.PlayerRoundState(frontCard, backCard, bet)
    }

    function Told(msgs: seq<Msg>): (s: Side)
      ensures s == this.(log := s.log)
    {
      this.(log := log + msgs)
    }

    predicate RevealsBack() { bet.Back? || bet.Both? }
  }

  datatype Duel = Duel(me: Side, opp: Side, dealer: int)
  {
    // The same two players from the other chair.
    function Swap(): Duel { Duel(opp, me, dealer) }

    function Total(): int { me.Stack() + opp.Stack() + dealer }

    function Pot(): int { me.frontBet + me.backBet + opp.frontBet + opp.backBet }

    function Say(mine: seq<Msg>, theirs: seq<Msg>): Duel {
      Duel(me.Told(mine), opp.Told(theirs), dealer)
    }

    function Settling(): SettlementRules.SettlementState {
      SettlementRules.SettlementState(me.chips, opp.chips, me.frontBet, me.backBet,
                                      opp.frontBet, opp.backBet, dealer)
    }
  }

  function Broadcast(d: Duel, m: Msg, target: TargetType): Duel {
    match target
    case ToSelf => d.(me := d.me.Told([m]))
    case ToOthers => d.(opp := d.opp.Told([m]))
    case ToAll => d.Say([m], [m])
  }

  function Decide(d: Duel, c: Command): BettingRules.BetDecision {
    BettingRules.Evaluate(d.me.Betting(), d.opp.Betting(), c.count, c.kind)
  }

  predicate CanDeduct(s: Side, amount: int) {
    amount > 0 && s.chips >= amount
  }

  // Messages of updateBetInfoUnlocked for one reader, after the bet was added.
  function BetNews(s: Side, whose: Whose): seq<Msg> {
    (if s.bet.Front? || s.bet.Both? then [BetUpdate(whose, FrontFace, s.frontBet)] else [])
    + (if s.bet.Back? || s.bet.Both? then [BetUpdate(whose, BackFace, s.backBet)] else [])
    + (if s.bet.Both? then [BothMark(whose)] else [])
  }

  function PlaceBet(s: Side, c: Command, cost: int): Side {
    s.(chips := s.chips - cost,
       bet := c.kind,
       frontBet := if c.kind.Front? || c.kind.Both? then s.frontBet + c.count else s.frontBet,
       backBet := if c.kind.Back? || c.kind.Both? then s.backBet + c.count else s.backBet)
  }

  function BetChips(d: Duel, c: Command): (Duel, BetResult) {
    var decision := Decide(d, c);
    if decision.result.BetImpossible? || !CanDeduct(d.me, decision.cost) then
      (d.Say([BettingRefused], []), BetImpossible)
    else
      var me := PlaceBet(d.me, c, decision.cost);
      (d.(me := me).Say([ChipUpdate(Mine, me.chips)] + BetNews(me, Mine),
                        [ChipUpdate(Others, me.chips)] + BetNews(me, Others)),
       decision.result)
  }

  function PickFace(s: Side): Side {
    s.(bet := if s.frontCard < s.backCard then Back else Front)
  }

  function SpecialCase(d: Duel): Duel {
    Duel(PickFace(d.me), PickFace(d.opp), d.dealer)
  }

  function PrintFor(reader: Side, shown: Side): seq<Msg> {
    if shown.RevealsBack() then [PrintBack(shown.backCard)]
    else if reader.RevealsBack() then [Wait]
    else []
  }

  function PrintCard(d: Duel): Duel {
    d.Say(PrintFor(d.me, d.opp), PrintFor(d.opp, d.me))
  }

  function ClearSides(d: Duel): Duel {
    d.(me := d.me.(bet := Unset), opp := d.opp.(bet := Unset))
  }

  // compareCard when nobody has folded
  function CompareCard(d: Duel): (Duel, RoundResult) {
    var r := RoundResolver.Resolve(d.me.Round(), d.opp.Round(), false);
    (if r.RoundImpossible? then d else ClearSides(d), r)
  }

  function ClearBets(s: Side): Side { s.(frontBet := 0, backBet := 0) }

  function If(b: bool, m: Msg): seq<Msg> { if b then [m] else [] }

  function SettleRound(d: Duel, r: RoundResult): Duel {
    match SettlementRules.Settle(d.Settling(), r)
    case None => d
    case Some(o) =>
      var dealerNews := If(d.dealer != o.dealerChips, ChipUpdate(Dealers, o.dealerChips));
      var mineChanged := d.me.chips != o.currentChips;
      var theirsChanged := d.opp.chips != o.opponentChips;
      Duel(ClearBets(d.me).(chips := o.currentChips), ClearBets(d.opp).(chips := o.opponentChips), o.dealerChips)
      .Say(dealerNews + If(mineChanged, ChipUpdate(Mine, o.currentChips))
             + If(theirsChanged, ChipUpdate(Others, o.opponentChips)),
           dealerNews + If(mineChanged, ChipUpdate(Others, o.currentChips))
             + If(theirsChanged, ChipUpdate(Mine, o.opponentChips)))
  }

  function EndCheck(d: Duel): (m: MatchResult)
    ensures !m.MatchImpossible?
  {
    if d.me.chips <= 0 then FinalLose
    else if d.opp.chips <= 0 then FinalWin
    else Progress
  }

  predicate CanCollect(d: Duel, amount: int) {
    amount > 0 && d.me.chips >= amount && d.opp.chips >= amount
  }

  function Pay(s: Side, amount: int): Side { s.(chips := s.chips - amount, bet := Unset) }

  function CollectBasicBet(d: Duel, amount: int): Duel {
    if !CanCollect(d, amount) then d
    else
      var me, opp, dealer := Pay(d.me, amount), Pay(d.opp, amount), d.dealer + amount * 2;
      Duel(me, opp, dealer).Say(
        [ChipUpdate(Mine, me.chips), ChipUpdate(Others, opp.chips), ChipUpdate(Dealers, dealer)],
        [ChipUpdate(Others, me.chips), ChipUpdate(Mine, opp.chips), ChipUpdate(Dealers, dealer)])
  }

  function CardNews(own: Card, other: Card): seq<Msg> {
    [MyCard(FrontFace, own.front), MyCard(BackFace, own.back), OtherFrontCard(other.front)]
  }

  function UpdateCards(d: Duel, deal: Deal): Duel {
    Duel(d.me.(frontCard := deal.mine.front, backCard := deal.mine.back),
         d.opp.(frontCard := deal.theirs.front, backCard := deal.theirs.back), d.dealer)
    .Say(CardNews(deal.mine, deal.theirs), CardNews(deal.theirs, deal.mine))
  }

  // A player before the first round of a match.
  function Fresh(log: seq<Msg>): Side {
    Side(DEFAULT_CHIPS, 0, 0, 0, 0, Unset, log)
  }

  // resetAllUsers(INIT)
  function ResetAllUsers(d: Duel): Duel {
    Duel(Fresh(d.me.log), Fresh(d.opp.log), 0)
  }
}
