/** What every betting position of a match keeps, and what follows for rounds and match ends. */
module RoundInvariant {
  import opened Foundation
  import opened Sections
  import opened GameFlow
  import BettingRules
  import SettlementRules
  import RoundResolver

  // ---- the invariant -------------------------------------------------------------------------

  // The chosen side and the amounts on the two faces of one player's card fit together.
  ghost predicate SideOk(s: Side) {
    && s.chips >= 0 && s.frontBet >= 0 && s.backBet >= 0
    && s.bet in {Front, Both, Back, Unset}
    && (s.bet.Unset? <==> s.Level() == 0)
    && (s.bet.Front? ==> s.backBet == 0)
    && (s.bet.Back? ==> s.frontBet == 0)
    && (s.bet.Both? ==> s.frontBet == s.backBet)
  }

  // Every amount is non-negative and all chips are accounted for; so every amount is at most 60.
  ghost predicate Conserved(d: Duel) {
    && d.me.chips >= 0 && d.me.frontBet >= 0 && d.me.backBet >= 0
    && d.opp.chips >= 0 && d.opp.frontBet >= 0 && d.opp.backBet >= 0
    && d.dealer >= 0
    && d.Total() == TOTAL_CHIPS
  }

  // The position of the player `me` who has to act: either nobody has bet in this round and both have a
  // chip, or `me` faces a raise that one-sided betting can follow.
  ghost predicate RoundInv(d: Duel) {
    && Conserved(d) && d.dealer >= 2
    && SideOk(d.me) && SideOk(d.opp)
    && !(d.me.bet.Both? && d.opp.bet.Both?)
    && (|| (d.me.Level() == 0 && d.opp.Level() == 0 && d.me.chips >= 1 && d.opp.chips >= 1)
        || d.me.Level() < d.opp.Level() <= d.me.Level() + d.me.chips)
  }

  // What holds when a round goes to settlement.
  ghost predicate Settleable(d: Duel, r: RoundResult) {
    && Conserved(d) && d.dealer >= 2
    && !r.RoundImpossible?
    && (r.Draw? ==> d.me.bet.Unset? && d.opp.bet.Unset?)
  }

  // ---- one section at a time -----------------------------------------------------------------

  lemma BetKeepsInvariant(d: Duel, c: Command)
    requires RoundInv(d)
    ensures var (after, r) := BetChips(d, c);
      && (r.BetImpossible? <==> Decide(d, c).result.BetImpossible?)
      && (r.BetImpossible? ==> after == d.Say([BettingRefused], []))
      && (r.Raise? ==> RoundInv(after.Swap()) && after.me.Level() > d.opp.Level())
      && (r.Call? ==>
            && Conserved(after) && after.dealer == d.dealer && SideOk(after.me) && SideOk(after.opp)
            && after.me.Level() == after.opp.Level() >= 1
            && !(after.me.bet.Both? && after.opp.bet.Both?))
      && after.me.Stack() == d.me.Stack() && after.opp.Stack() == d.opp.Stack()
  {
    hide Side.Told;
    var decision := Decide(d, c);
    if !decision.result.BetImpossible? {
      assert CanDeduct(d.me, decision.cost);
    }
  }

  // A chip bet is accepted exactly if it adds chips and the position after it is legal: it can be paid, it stays
  // on the chosen side, only one player is on both sides, and it neither falls short of the opponent's level nor
  // goes beyond what one-sided betting can follow. It is a call exactly if the levels are then equal.
  lemma BetIsLegalIff(d: Duel, c: Command)
    requires RoundInv(d) && c.kind in {Front, Back, Both}
    ensures var after := PlaceBet(d.me, c, if c.kind.Both? then c.count * 2 else c.count);
      var r := BetChips(d, c).1;
      && (!r.BetImpossible? <==>
            && c.count > 0 && SideOk(after) && !(after.bet.Both? && d.opp.bet.Both?)
            && d.opp.Level() <= after.Level() <= d.opp.Level() + d.opp.chips)
      && (r.Call? ==> after.Level() == d.opp.Level())
      && (r.Raise? ==> after.Level() > d.opp.Level())
      && (!r.BetImpossible? ==> BetChips(d, c).0.me.(log := []) == after.(log := []))
  {
    hide Side.Told;
  }

  lemma NextRoundKeepsInvariant(d: Duel, r: RoundResult, deal: Deal)
    requires Conserved(d) && d.Pot() == 0
    requires r.Draw? ==> d.me.bet.Unset? && d.opp.bet.Unset? && d.dealer >= 2
    requires !r.Draw? ==> d.dealer == 0 && d.me.chips >= 1 && d.opp.chips >= 1
    ensures var p := PrepareNextRound(d, r, deal);
      && !p.fault && p.outcome.RoundOver? && p.outcome.result == r && !p.outcome.end.EndsAtSettlement?
      && Conserved(p.duel)
      && (p.outcome.Continuing() ==> RoundInv(p.duel.Swap()) && p.duel.Pot() == 0)
      && (p.outcome.Finished() <==> Min(d.me.chips, d.opp.chips) == if r.Draw? then 0 else 1)
      && (p.outcome.Finished() ==>
            && (p.outcome.end.iWin <==> p.duel.me.chips > 0)
            && (p.outcome.end.iWin ==> p.duel.opp.chips == 0))
      && p.duel.me.chips == d.me.chips - (if r.Draw? then 0 else 1)
      && p.duel.opp.chips == d.opp.chips - (if r.Draw? then 0 else 1)
      && p.duel.dealer == d.dealer + (if r.Draw? then 0 else 2)
  {
    hide Side.Told, UpdateCards, GiveBasicBetting;
    DealKeepsAccount(d, r, deal);
  }

  function DealtAfter(d: Duel, r: RoundResult, deal: Deal): Duel {
    if r.Draw? then UpdateCards(d, deal) else GiveBasicBetting(d, deal)
  }

  lemma DealKeepsAccount(d: Duel, r: RoundResult, deal: Deal)
    requires Conserved(d) && d.Pot() == 0
    requires r.Draw? ==> d.me.bet.Unset? && d.opp.bet.Unset?
    requires !r.Draw? ==> d.me.chips >= 1 && d.opp.chips >= 1
    ensures var dealt, ante := DealtAfter(d, r, deal), if r.Draw? then 0 else 1;
      && Conserved(dealt) && dealt.Pot() == 0 && dealt.me.bet.Unset? && dealt.opp.bet.Unset?
      && dealt.me.chips == d.me.chips - ante && dealt.opp.chips == d.opp.chips - ante
      && dealt.dealer == d.dealer + 2 * ante
  {
    hide Side.Told;
  }

  // ---- a whole command -----------------------------------------------------------------------

  lemma SettlementConserves(d: Duel, r: RoundResult)
    requires Settleable(d, r)
    ensures Conserved(SettleRound(d, r)) && SettleRound(d, r).Pot() == 0
    ensures r.Draw? ==> SettleRound(d, r).dealer == d.dealer + d.Pot()
                        && SettleRound(d, r).me.chips == d.me.chips && SettleRound(d, r).opp.chips == d.opp.chips
    ensures !r.Draw? ==> SettleRound(d, r).dealer == 0
    ensures r.Lose? ==> SettleRound(d, r).me.chips == d.me.chips
  {
    hide Side.Told;
    SettlementRules.SettleConserves(d.Settling(), r);
  }

  // Who triggers a showdown makes no difference to anybody's chips.
  lemma ShowdownPaysTheSame(d: Duel)
    ensures var (mine, r) := CompareCard(d);
      var (theirs, r') := CompareCard(d.Swap());
      var a, b := SettleRound(mine, r), SettleRound(theirs, r').Swap();
      && r' == RoundResolver.Mirror(r)
      && a.me.(log := []) == b.me.(log := []) && a.opp.(log := []) == b.opp.(log := []) && a.dealer == b.dealer
  {
    hide RoundResolver.Resolve, SettlementRules.Settle, Side.Told;
    RoundResolver.ResolveMirrors(d.me.Round(), d.opp.Round());
    var (mine, r) := CompareCard(d);
    SettlementRules.SettleMirrors(mine.Settling(), r);
  }

  // Everything a round that went to settlement in position d can lead to.
  ghost predicate GoodRoundEnd(d: Duel, p: Play, r: RoundResult) {
    && !p.fault && p.outcome.RoundOver? && p.outcome.result == r
    && Conserved(p.duel)
    && (r.Draw? ==>
          && p.duel.dealer == d.dealer + d.Pot() && p.duel.Pot() == 0
          && p.duel.me.chips == d.me.chips && p.duel.opp.chips == d.opp.chips)
    && (!r.Draw? && p.outcome.Continuing() ==> p.duel.dealer == 2)
    && (p.outcome.Continuing() ==> RoundInv(p.duel.Swap()) && p.duel.Pot() == 0)
    && (r.Draw? ==> !p.outcome.end.EndsAtSettlement?)
    && (p.outcome.Finished() ==> FinalPosition(p.duel, r, p.outcome.end))
  }

  // A finished match: who wins, and where the 60 chips are.
  ghost predicate FinalPosition(d: Duel, r: RoundResult, end: MatchEnd) {
    match end
    case Continues => false
    case EndsAtSettlement(iWin) =>
      && !r.Draw? && d.dealer == 0
      && (if iWin then d.me.chips == TOTAL_CHIPS && d.opp.chips == 0 else d.me.chips == 0 && d.opp.chips == TOTAL_CHIPS)
    case EndsAtDeal(iWin) =>
      if r.Draw? then
        // a drawn match end: the caller wins exactly if it still has a chip
        (if iWin then d.me.chips > 0 && d.opp.chips == 0 else d.me.chips == 0) && d.dealer >= 2
      else
        && d.dealer == 2
        && (if iWin then d.me.chips == TOTAL_CHIPS - 2 && d.opp.chips == 0
            else d.me.chips == 0 && d.opp.chips == TOTAL_CHIPS - 2)
  }

  lemma SettlementLeadsOn(d: Duel, r: RoundResult, deal: Deal)
    requires Settleable(d, r)
    ensures GoodRoundEnd(d, SettleAndGoOn(d, r, deal), r)
  {
    hide Side.Told, PrepareNextRound;
    SettlementConserves(d, r);
    var s := SettleRound(d, r);
    assert Conserved(s) && s.Pot() == 0;
    assert r.Draw? || s.me.chips + s.opp.chips == TOTAL_CHIPS;
    var m := if r.Draw? then Progress else EndCheck(s);
    if !IsFinal(m) {
      NextRoundKeepsInvariant(s, r, deal);
    }
  }

  ghost predicate GoesToShowdown(d: Duel, c: Command) {
    c.kind.Special? || (!c.kind.Die? && BetChips(d, c).1.Call?)
  }

  // The position in which the cards are compared.
  function AtShowdown(d: Duel, c: Command): Duel {
    if c.kind.Special? then SpecialCase(d) else BetChips(d, c).0
  }

  function ShowdownResult(d: Duel, c: Command): RoundResult {
    RoundResolver.Resolve(AtShowdown(d, c).me.Round(), AtShowdown(d, c).opp.Round(), false)
  }

  // Every showdown is decided, on the bets that were placed.
  lemma ShowdownIsDecided(d: Duel, c: Command)
    requires RoundInv(d) && GoesToShowdown(d, c)
    ensures !ShowdownResult(d, c).RoundImpossible?
    ensures Conserved(AtShowdown(d, c)) && AtShowdown(d, c).dealer == d.dealer
    ensures AtShowdown(d, c).me.Stack() == d.me.Stack() && AtShowdown(d, c).opp.Stack() == d.opp.Stack()
  {
    hide Side.Told;
    BetKeepsInvariant(d, c);
  }

  lemma ShowdownLeadsOn(d: Duel, kind: BetType, deal: Deal)
    requires Conserved(d) && d.dealer >= 2 && !kind.Die?
    requires !RoundResolver.Resolve(d.me.Round(), d.opp.Round(), false).RoundImpossible?
    ensures GoodRoundEnd(d, ProcessRoundEnd(d, kind, deal), RoundResolver.Resolve(d.me.Round(), d.opp.Round(), false))
  {
    hide Side.Told;
    var printed := PrintCard(Broadcast(d, Battle, ToAll));
    var (compared, r) := CompareCard(printed);
    assert printed.me.Round() == d.me.Round() && printed.opp.Round() == d.opp.Round();
    SettlementLeadsOn(BroadcastRoundResult(compared, r, kind), r, deal);
  }

  // A fold always ends the round as a plain loss of the folding player. It can end the match only through
  // the next ante, exactly when the folding player is down to one chip.
  lemma FoldLeadsOn(d: Duel, c: Command, deal: Deal)
    requires RoundInv(d) && c.kind.Die?
    ensures var p := Act(d, c, deal);
      && GoodRoundEnd(d, p, Lose)
      && !p.outcome.end.EndsAtSettlement?
      && (p.outcome.Finished() <==> d.me.chips == 1)
      && (p.outcome.Finished() ==> !p.outcome.end.iWin)
  {
    hide Side.Told;
    var told := BroadcastRoundResult(d, Lose, c.kind);
    SettlementLeadsOn(told, Lose, deal);
    SettlementConserves(told, Lose);
    NextRoundKeepsInvariant(SettleRound(told, Lose), Lose, deal);
  }

  // The main step: every command in a betting position leads to a betting position of the other player, or
  // to a finished match, or is refused without effect; no defensive branch is taken.
  lemma ActKeepsInvariant(d: Duel, c: Command, deal: Deal)
    requires RoundInv(d)
    ensures var p := Act(d, c, deal);
      && !p.fault && !p.outcome.Stuck? && Conserved(p.duel)
      && (p.outcome.Rejected? ==> p.duel == d.Say([BettingRefused], []))
      && (p.outcome.Continuing() ==> RoundInv(p.duel.Swap()))
      && (p.outcome.RoundOver? ==>
            if c.kind.Die? then GoodRoundEnd(d, p, Lose) else GoodRoundEnd(AtShowdown(d, c), p, ShowdownResult(d, c)))
      && (p.outcome.RoundOver? <==> c.kind.Die? || GoesToShowdown(d, c))
  {
    if c.kind.Die? {
      FoldLeadsOn(d, c, deal);
    } else if GoesToShowdown(d, c) {
      ShowdownActKeepsInvariant(d, c, deal);
    } else {
      BettingActKeepsInvariant(d, c, deal);
    }
  }

  lemma ShowdownActKeepsInvariant(d: Duel, c: Command, deal: Deal)
    requires RoundInv(d) && GoesToShowdown(d, c)
    ensures GoodRoundEnd(AtShowdown(d, c), Act(d, c, deal), ShowdownResult(d, c))
  {
    hide ProcessRoundEnd;
    ShowdownIsDecided(d, c);
    ShowdownLeadsOn(AtShowdown(d, c), c.kind, deal);
  }

  lemma BettingActKeepsInvariant(d: Duel, c: Command, deal: Deal)
    requires RoundInv(d) && !c.kind.Die? && !GoesToShowdown(d, c)
    ensures var p := Act(d, c, deal);
      && !p.fault && (p.outcome.Rejected? || p.outcome.Raised?) && Conserved(p.duel)
      && (p.outcome.Rejected? ==> p.duel == d.Say([BettingRefused], []))
      && (p.outcome.Raised? ==> RoundInv(p.duel.Swap()))
  {
    hide BetChips, ProcessRoundEnd, Decide, Side.Told;
    BetKeepsInvariant(d, c);
    var (after, r) := BetChips(d, c);
    if r.Raise? {
      assert Conserved(after.Swap());
    }
  }

  lemma StartEstablishesInvariant(d: Duel, deal: Deal)
    ensures RoundInv(StartMatch(d, deal))
    ensures StartMatch(d, deal).me.chips == StartMatch(d, deal).opp.chips == DEFAULT_CHIPS - 1
    ensures StartMatch(d, deal).dealer == 2
  {
    hide Side.Told;
    assert Fresh(d.me.log).Stack() == DEFAULT_CHIPS;
  }

  // What a drawn round adds to the dealer's pot, and what it leaves to the players.
  lemma DrawMovesPot(d: Duel, c: Command, deal: Deal)
    requires RoundInv(d) && Act(d, c, deal).outcome.RoundOver? && Act(d, c, deal).outcome.result.Draw?
    ensures var p, shown := Act(d, c, deal).duel, AtShowdown(d, c);
      && p.dealer == d.dealer + shown.Pot() && shown.Pot() >= 0 && p.Pot() == 0
      && p.me.Stack() == d.me.Stack() - (shown.me.frontBet + shown.me.backBet)
      && p.opp.Stack() == d.opp.Stack() - (shown.opp.frontBet + shown.opp.backBet)
  {
    ActKeepsInvariant(d, c, deal);
    ShowdownIsDecided(d, c);
  }

  // A draw reached by a chip call matches two one-sided bets of the same height.
  lemma CalledDrawPot(d: Duel, c: Command)
    requires RoundInv(d) && GoesToShowdown(d, c) && !c.kind.Special? && ShowdownResult(d, c).Draw?
    ensures var shown := AtShowdown(d, c);
      && shown.me.Level() >= 1
      && shown.me.frontBet + shown.me.backBet == shown.opp.frontBet + shown.opp.backBet == shown.me.Level()
  {
    hide Side.Told;
    BetKeepsInvariant(d, c);
    var shown := AtShowdown(d, c);
    RoundResolver.ResolveDecides(shown.me.Round(), shown.opp.Round());
  }

  // ---- when a match ends ---------------------------------------------------------------------

  // The code takes care that a draw does not end a match at the settlement, but checks again after the deal: a
  // drawn showdown ends the match exactly if somebody had bet everything. The caller is looked at first.
  lemma DrawEndsMatchIff(d: Duel, c: Command, deal: Deal)
    requires RoundInv(d) && GoesToShowdown(d, c) && ShowdownResult(d, c).Draw?
    ensures var p, shown := Act(d, c, deal), AtShowdown(d, c);
      && (p.outcome.Finished() <==> shown.me.chips == 0 || shown.opp.chips == 0)
      && (p.outcome.Finished() ==> p.outcome.end == EndsAtDeal(shown.me.chips > 0))
  {
    hide Act, AtShowdown, ShowdownResult, BetChips;
    ActKeepsInvariant(d, c, deal);
    NextRoundHasChips(d, c, deal);
  }

  // After a drawn round that goes on, both players have a chip.
  lemma NextRoundHasChips(d: Duel, c: Command, deal: Deal)
    requires RoundInv(d) && GoesToShowdown(d, c)
    ensures Act(d, c, deal).outcome.RoundOver?
    ensures var p := Act(d, c, deal);
      p.outcome.Continuing() ==> p.duel.Pot() == 0 && p.duel.me.chips >= 1 && p.duel.opp.chips >= 1
  {
    hide Side.Told, ProcessRoundEnd, BetChips;
    ActKeepsInvariant(d, c, deal);
  }

  // It does happen, right after the start of a match: equal front cards, all chips on the front, and a call. Both
  // players are then out of chips, the dealer has all of them, and the caller is told that it lost.
  lemma DrawCanEndMatch(d: Duel, deal: Deal, next: Deal)
    requires deal.mine.front == deal.theirs.front
    ensures
      var bet := Act(StartMatch(d, deal), Command(Front, DEFAULT_CHIPS - 1), next);
      var call := Act(bet.duel.Swap(), Command(Front, DEFAULT_CHIPS - 1), next);
      && bet.outcome.Raised? && call.outcome == RoundOver(Draw, EndsAtDeal(false))
      && call.duel.me.chips == 0 && call.duel.opp.chips == 0 && call.duel.dealer == TOTAL_CHIPS
  {
    hide ProcessRoundEnd, Side.Told;
    var start, c := StartMatch(d, deal), Command(Front, DEFAULT_CHIPS - 1);
    StartEstablishesInvariant(d, deal);
    StartShowsCards(d, deal);
    ActKeepsInvariant(start, c, next);
    var d1 := Act(start, c, next).duel.Swap();
    assert d1.me.bet.Unset? && d1.opp.bet.Front? && d1.opp.frontBet == DEFAULT_CHIPS - 1;
    AllInIsDrawn(d1, next);
  }

  lemma StartShowsCards(d: Duel, deal: Deal)
    ensures var start := StartMatch(d, deal);
      && start.me.frontCard == deal.mine.front && start.opp.frontCard == deal.theirs.front
      && start.me.bet.Unset? && start.opp.bet.Unset? && start.Pot() == 0
  {
    hide Side.Told;
  }

  lemma AllInIsDrawn(d: Duel, next: Deal)
    requires RoundInv(d) && d.me.bet.Unset? && d.opp.bet.Front? && d.dealer == 2
    requires d.me.chips == d.opp.frontBet == DEFAULT_CHIPS - 1 && d.me.frontCard == d.opp.frontCard
    ensures var call := Act(d, Command(Front, DEFAULT_CHIPS - 1), next);
      && call.outcome == RoundOver(Draw, EndsAtDeal(false))
      && call.duel.me.chips == 0 && call.duel.opp.chips == 0 && call.duel.dealer == TOTAL_CHIPS
  {
    hide ProcessRoundEnd, Side.Told;
    var c := Command(Front, DEFAULT_CHIPS - 1);
    SingleSideCanCall(d, Front);
    assert GoesToShowdown(d, c) && ShowdownResult(d, c).Draw?;
    ActKeepsInvariant(d, c, next);
    DrawEndsMatchIff(d, c, next);
  }

  predicate CallerWins(r: RoundResult) { r.Win? || r.BothWin? }

  // The chips of the losing side of a decided showdown, less what a win on both faces costs it.
  function LoserKeeps(shown: Duel, r: RoundResult): int {
    (if CallerWins(r) then shown.opp.chips else shown.me.chips) - (if r.BothWin? || r.BothLose? then 10 else 0)
  }

  // A decided showdown ends the match at the settlement exactly if the loser cannot keep a chip, and through the
  // next ante exactly if it keeps a single one. The winner of the showdown wins the match.
  lemma DecidedShowdownEndsMatchIff(d: Duel, c: Command, deal: Deal)
    requires RoundInv(d) && GoesToShowdown(d, c) && !ShowdownResult(d, c).Draw?
    ensures var p, r := Act(d, c, deal), ShowdownResult(d, c);
      var keeps := LoserKeeps(AtShowdown(d, c), r);
      && p.outcome.RoundOver?
      && (keeps <= 0 <==> p.outcome.end == EndsAtSettlement(CallerWins(r)))
      && (keeps == 1 <==> p.outcome.end == EndsAtDeal(CallerWins(r)))
      && (keeps > 1 <==> p.outcome.end.Continues?)
  {
    hide ProcessRoundEnd, AtShowdown, GoesToShowdown, RoundResolver.Resolve;
    ShowdownIsDecided(d, c);
    ActIsProcessing(d, c, deal);
    DecidedRoundEnds(AtShowdown(d, c), c.kind, deal);
  }

  lemma ActIsProcessing(d: Duel, c: Command, deal: Deal)
    requires GoesToShowdown(d, c)
    ensures Act(d, c, deal) == ProcessRoundEnd(AtShowdown(d, c), c.kind, deal) && !c.kind.Die?
  {
    hide ProcessRoundEnd;
  }

  lemma DecidedRoundEnds(d: Duel, kind: BetType, deal: Deal)
    requires Conserved(d) && d.dealer >= 2 && !kind.Die?
    requires var r := RoundResolver.Resolve(d.me.Round(), d.opp.Round(), false); !r.RoundImpossible? && !r.Draw?
    ensures var p, r := ProcessRoundEnd(d, kind, deal), RoundResolver.Resolve(d.me.Round(), d.opp.Round(), false);
      && p.outcome.RoundOver?
      && (LoserKeeps(d, r) <= 0 <==> p.outcome.end == EndsAtSettlement(CallerWins(r)))
      && (LoserKeeps(d, r) == 1 <==> p.outcome.end == EndsAtDeal(CallerWins(r)))
      && (LoserKeeps(d, r) > 1 <==> p.outcome.end.Continues?)
  {
    hide Side.Told, SettleAndGoOn;
    var printed := PrintCard(Broadcast(d, Battle, ToAll));
    var (compared, r) := CompareCard(printed);
    assert printed.me.Round() == d.me.Round() && printed.opp.Round() == d.opp.Round();
    DecidedSettlementEnds(BroadcastRoundResult(compared, r, kind), r, deal);
  }

  lemma DecidedSettlementEnds(d: Duel, r: RoundResult, deal: Deal)
    requires Conserved(d) && d.dealer >= 2 && !r.RoundImpossible? && !r.Draw?
    ensures var p := SettleAndGoOn(d, r, deal);
      && p.outcome.RoundOver?
      && (LoserKeeps(d, r) <= 0 <==> p.outcome.end == EndsAtSettlement(CallerWins(r)))
      && (LoserKeeps(d, r) == 1 <==> p.outcome.end == EndsAtDeal(CallerWins(r)))
      && (LoserKeeps(d, r) > 1 <==> p.outcome.end.Continues?)
  {
    hide Side.Told, PrepareNextRound, SettlementRules.Settle;
    SettlementRules.WinnerTakesTheRest(d.Settling(), r);
    SettlementConserves(d, r);
    var s := SettleRound(d, r);
    var loser := if CallerWins(r) then s.opp.chips else s.me.chips;
    LoserIsLeft(d, r);
    assert loser == Max(LoserKeeps(d, r), 0) && s.me.chips + s.opp.chips == TOTAL_CHIPS;
    if loser > 0 {
      NextRoundKeepsInvariant(s, r, deal);
    }
  }

  lemma LoserIsLeft(d: Duel, r: RoundResult)
    requires Conserved(d) && !r.RoundImpossible? && !r.Draw?
    ensures var s := SettleRound(d, r);
      (if CallerWins(r) then s.opp.chips else s.me.chips) == Max(LoserKeeps(d, r), 0)
  {
    hide Side.Told;
  }

  // ---- how long a round can last -------------------------------------------------------------

  function MaxLevel(d: Duel): int { Max(d.me.Level(), d.opp.Level()) }

  function SmallerStack(d: Duel): int { Min(d.me.Stack(), d.opp.Stack()) }

  // A raise lifts the maximum level and never above what the poorer player brought into the round.
  lemma RaiseClimbs(d: Duel, c: Command, deal: Deal)
    requires RoundInv(d) && Act(d, c, deal).outcome.Raised?
    ensures var after := Act(d, c, deal).duel.Swap();
      && MaxLevel(d) < MaxLevel(after) <= SmallerStack(after)
      && SmallerStack(after) == SmallerStack(d)
  {
    hide ProcessRoundEnd, Side.Told;
    ActKeepsInvariant(d, c, deal);
    BetKeepsInvariant(d, c);
  }

  // The commands cs, each given by the player holding the turn, all leave the round open.
  ghost predicate WithinRound(d: Duel, cs: seq<Command>, deal: Deal)
    decreases |cs|
  {
    cs == [] ||
    var p := Act(d, cs[0], deal);
    if p.outcome.Raised? then WithinRound(p.duel.Swap(), cs[1..], deal)
    else p.outcome.Rejected? && WithinRound(p.duel, cs[1..], deal)
  }

  ghost function RaisesIn(d: Duel, cs: seq<Command>, deal: Deal): nat
    requires WithinRound(d, cs, deal)
    decreases |cs|
  {
    if cs == [] then 0
    else
      var p := Act(d, cs[0], deal);
      if p.outcome.Raised? then 1 + RaisesIn(p.duel.Swap(), cs[1..], deal) else RaisesIn(p.duel, cs[1..], deal)
  }

  lemma {:induction false} RaisesAreBounded(d: Duel, cs: seq<Command>, deal: Deal)
    requires RoundInv(d) && WithinRound(d, cs, deal)
    ensures RaisesIn(d, cs, deal) <= SmallerStack(d) - MaxLevel(d)
    decreases |cs|
  {
    if cs == [] {
      assert d.me.Stack() >= 0 && d.opp.Stack() >= 0;
    } else {
      ActKeepsInvariant(d, cs[0], deal);
      var p := Act(d, cs[0], deal);
      if p.outcome.Raised? {
        RaiseClimbs(d, cs[0], deal);
        RaisesAreBounded(p.duel.Swap(), cs[1..], deal);
      } else {
        RaisesAreBounded(p.duel, cs[1..], deal);
      }
    }
  }

  // From the first bet of a round on there are at most as many raises as the poorer player has chips, and
  // that is at most 29.
  lemma RoundIsShort(d: Duel, cs: seq<Command>, deal: Deal)
    requires RoundInv(d) && d.Pot() == 0 && WithinRound(d, cs, deal)
    ensures RaisesIn(d, cs, deal) <= Min(d.me.chips, d.opp.chips) <= DEFAULT_CHIPS - 1
  {
    RaisesAreBounded(d, cs, deal);
  }

  // ---- can the player who faces a raise go on? -----------------------------------------------

  ghost predicate FacesRaise(d: Duel) { d.me.Level() < d.opp.Level() }

  function Gap(d: Duel): int { d.opp.Level() - d.me.Level() }

  // A player who has not bet on both sides can always call: the gap on the own side (any single side if none
  // is chosen yet) is accepted, as exactly a call.
  lemma SingleSideCanCall(d: Duel, side: BetType)
    requires RoundInv(d) && FacesRaise(d) && side in {Front, Back}
    requires d.me.bet.Unset? || d.me.bet == side
    ensures BetChips(d, Command(side, Gap(d))).1.Call?
    ensures forall n :: BetChips(d, Command(side, n)).1.Call? <==> n == Gap(d)
  {
    hide Side.Told;
  }

  // A player locked on both sides pays double, and can go on with a bet if and only if the doubled gap is
  // affordable; then the gap is also a call.
  lemma BothSidesCanGoOn(d: Duel)
    requires RoundInv(d) && FacesRaise(d) && d.me.bet.Both?
    ensures (exists c: Command :: c.kind !in {Die, Special} && !BetChips(d, c).1.BetImpossible?)
              <==> 2 * Gap(d) <= d.me.chips
    ensures BetChips(d, Command(Both, Gap(d))).1.Call? <==> 2 * Gap(d) <= d.me.chips
  {
    hide Side.Told;
    if 2 * Gap(d) <= d.me.chips {
      assert !BetChips(d, Command(Both, Gap(d))).1.BetImpossible?;
    }
    forall c: Command | c.kind !in {Die, Special} && !BetChips(d, c).1.BetImpossible?
      ensures 2 * Gap(d) <= d.me.chips
    {
      assert c.kind.Both? && c.count >= Gap(d);
    }
  }

  // At the start of a round a single chip on one side is always a raise.
  lemma OpeningBetIsRaise(d: Duel, side: BetType)
    requires RoundInv(d) && !FacesRaise(d) && side in {Front, Back}
    ensures BetChips(d, Command(side, 1)).1.Raise?
  {
    hide Side.Told;
  }

  // The cap of a raise looks only at one-sided betting, so the player it is meant to protect can be left
  // without any bet: after BOTH 10 and a raise to 19, nothing but a fold or SPECIAL is accepted.
  lemma RaiseCanLockOutBothSides(d: Duel, deal: Deal)
    ensures
      var start := StartMatch(d, deal);
      var bet := Act(start, Command(Both, 10), deal);
      var answer := Act(bet.duel.Swap(), Command(Front, 19), deal);
      var locked := answer.duel.Swap();
      && bet.outcome.Raised? && answer.outcome.Raised? && RoundInv(locked)
      && forall c: Command :: c.kind !in {Die, Special} ==> BetChips(locked, c).1.BetImpossible?
  {
    hide ProcessRoundEnd, Side.Told;
    StartEstablishesInvariant(d, deal);
    var start := StartMatch(d, deal);
    var bet := Act(start, Command(Both, 10), deal);
    ActKeepsInvariant(start, Command(Both, 10), deal);
    var answer := Act(bet.duel.Swap(), Command(Front, 19), deal);
    ActKeepsInvariant(bet.duel.Swap(), Command(Front, 19), deal);
    var locked := answer.duel.Swap();
    assert locked.me.bet.Both? && locked.me.chips == 9 && Gap(locked) == 9;
    BothSidesCanGoOn(locked);
  }
}
