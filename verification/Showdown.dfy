/** What a round comes to for its players: which faces a showdown compares, who takes the pot, what both are told of
    it, and what they then show. */
module Showdown {
  import opened Foundation
  import opened Sections
  import opened GameFlow
  import opened RoundInvariant
  import opened Screens
  import RoundResolver
  import SettlementRules

  // ---- the faces that are compared -----------------------------------------------------------

  // The cards on the faces a player bet on.
  function Faces(s: Side): set<int> {
    match s.bet
    case Front => {s.frontCard}
    case Back => {s.backCard}
    case Both => {s.frontCard, s.backCard}
    case _ => {}
  }

  // A showdown compares the cards on the faces that were bet on. It fails exactly if somebody has none, or both
  // players claim both.
  lemma ShowdownIsByFaces(d: Duel)
    ensures CompareCard(d).1.RoundImpossible? <==>
      Faces(d.me) == {} || Faces(d.opp) == {} || (d.me.bet.Both? && d.opp.bet.Both?)
    ensures !CompareCard(d).1.RoundImpossible? ==>
      CompareCard(d).1 == RoundResolver.Verdict(Faces(d.me), Faces(d.opp), d.me.bet.Both?, d.opp.bet.Both?)
  {
    hide RoundResolver.Resolve, RoundResolver.Verdict;
    RoundResolver.ResolveDecides(d.me.Round(), d.opp.Round());
    FacesAreThere(d.me);
    FacesAreThere(d.opp);
    if !CompareCard(d).1.RoundImpossible? {
      RoundResolver.ResolveIsByFaces(d.me.Round(), d.opp.Round());
    }
  }

  lemma FacesAreThere(s: Side)
    ensures Faces(s) == {} <==> s.bet !in {Front, Back, Both}
    ensures RoundResolver.Shown(s.Round()) == Faces(s)
  {
    assert s.bet.Front? || s.bet.Both? ==> s.frontCard in Faces(s);
    assert s.bet.Back? ==> s.backCard in Faces(s);
  }

  // A called showdown is about the cards that were dealt and the faces the two players chose.
  lemma CalledShowdown(d: Duel, c: Command, deal: Deal)
    requires RoundInv(d) && GoesToShowdown(d, c) && !c.kind.Special?
    ensures Act(d, c, deal).outcome.RoundOver?
    ensures var mine := d.me.(bet := c.kind);
      Act(d, c, deal).outcome.result ==
        RoundResolver.Verdict(Faces(mine), Faces(d.opp), c.kind.Both?, d.opp.bet.Both?)
  {
    hide Act, RoundResolver.Resolve, RoundResolver.Verdict, BetChips;
    ActKeepsInvariant(d, c, deal);
    ShowdownIsDecided(d, c);
    BetKeepsCards(d, c);
    var at := AtShowdown(d, c);
    ShowdownIsByFaces(at);
    assert Faces(at.me) == Faces(d.me.(bet := c.kind)) && Faces(at.opp) == Faces(d.opp);
  }

  // SPECIAL compares the higher faces of both cards, whatever was bet on.
  lemma SpecialShowdown(d: Duel, c: Command, deal: Deal)
    requires RoundInv(d) && c.kind.Special?
    ensures Act(d, c, deal).outcome.RoundOver?
    ensures var mine, theirs := Max(d.me.frontCard, d.me.backCard), Max(d.opp.frontCard, d.opp.backCard);
      Act(d, c, deal).outcome.result == if mine > theirs then Win else if mine < theirs then Lose else Draw
  {
    hide Act, RoundResolver.Resolve;
    ActKeepsInvariant(d, c, deal);
    ShowdownIsDecided(d, c);
    var at := AtShowdown(d, c);
    ShowdownIsByFaces(at);
    assert Faces(at.me) == {Max(d.me.frontCard, d.me.backCard)};
    assert Faces(at.opp) == {Max(d.opp.frontCard, d.opp.backCard)};
    VerdictOfTwo(Max(d.me.frontCard, d.me.backCard), Max(d.opp.frontCard, d.opp.backCard));
  }

  lemma VerdictOfTwo(x: int, y: int)
    ensures RoundResolver.Verdict({x}, {y}, false, false) == if x > y then Win else if x < y then Lose else Draw
  {
    assert x in {x} && y in {y};
  }

  // ---- messages only add up ------------------------------------------------------------------

  ghost predicate Grows(d: Duel, d': Duel) { d.me.log <= d'.me.log && d.opp.log <= d'.opp.log }

  lemma SettleGrows(d: Duel, r: RoundResult)
    ensures Grows(d, SettleRound(d, r))
  {
  }

  lemma SettlementGrows(d: Duel, r: RoundResult, deal: Deal)
    ensures Grows(d, SettleAndGoOn(d, r, deal).duel)
  {
    hide SettleRound;
    var settled := SettleRound(d, r);
    SettleGrows(d, r);
    var dealt := if r.Draw? then UpdateCards(settled, deal) else GiveBasicBetting(settled, deal);
    assert Grows(settled, dealt);
  }

  // ---- who takes the pot, and what is told ---------------------------------------------------

  // The position in which a round that is over was settled, and the position after the settlement.
  function AtEnd(d: Duel, c: Command): Duel { if c.kind.Die? then d else AtShowdown(d, c) }

  function Paid(d: Duel, c: Command): Duel {
    if c.kind.Die? then SettleRound(d, Lose) else SettleRound(AtShowdown(d, c), ShowdownResult(d, c))
  }

  predicate TakesPot(before: Side, after: Side) { after.chips > before.chips }

  // Who takes the pot hears of a win, of a win with both faces exactly if it bet on both, or that the other folded;
  // the other hears of the matching loss. If nobody takes it, both hear of a draw.
  predicate ToldFairly(at: Duel, paid: Duel, fold: bool, mine: Result, theirs: Result) {
    if TakesPot(at.me, paid.me) then
      && !TakesPot(at.opp, paid.opp) && !fold
      && mine == (if at.me.bet.Both? then SaysBothWin else SaysWin)
      && theirs == (if at.me.bet.Both? then SaysBothLose else SaysLose)
    else if TakesPot(at.opp, paid.opp) then
      && theirs == (if fold then SaysDie else if at.opp.bet.Both? then SaysBothWin else SaysWin)
      && mine == (if !fold && at.opp.bet.Both? then SaysBothLose else SaysLose)
    else !fold && mine == SaysDraw && theirs == SaysDraw
  }

  // The pot goes to the winner of the result, and to the dealer after a draw.
  lemma PotGoesTo(d: Duel, r: RoundResult)
    requires Conserved(d) && d.dealer >= 2 && !r.RoundImpossible?
    ensures var s := SettleRound(d, r);
      && (TakesPot(d.me, s.me) <==> r.Win? || r.BothWin?)
      && (TakesPot(d.opp, s.opp) <==> r.Lose? || r.BothLose?)
  {
    hide Side.Told;
  }

  lemma ResultIsFair(d: Duel, c: Command)
    requires RoundInv(d) && (c.kind.Die? || GoesToShowdown(d, c))
    ensures var r := if c.kind.Die? then Lose else ShowdownResult(d, c);
      var (mine, theirs) := ResultFor(r, c.kind);
      ToldFairly(AtEnd(d, c), Paid(d, c), c.kind.Die?, mine, theirs) && !r.RoundImpossible?
  {
    hide Side.Told, SettleRound, BetChips, RoundResolver.Verdict;
    var at := AtEnd(d, c);
    var r := if c.kind.Die? then Lose else ShowdownResult(d, c);
    if !c.kind.Die? {
      ShowdownIsDecided(d, c);
      BothOnlyByBoth(at);
    }
    PotGoesTo(at, r);
  }

  lemma BothOnlyByBoth(d: Duel)
    ensures var r := RoundResolver.Resolve(d.me.Round(), d.opp.Round(), false);
      && (r.BothWin? ==> d.me.bet.Both?) && (r.BothLose? ==> d.opp.bet.Both?)
      && (r.Win? ==> !d.me.bet.Both?) && (r.Lose? ==> !d.opp.bet.Both?)
  {
  }

  lemma ResultShows(v: Pair, d: Duel, r: RoundResult, kind: BetType)
    requires !r.RoundImpossible?
    ensures var p, q := On(v, d), On(v, BroadcastRoundResult(d, r, kind));
      var (mine, theirs) := ResultFor(r, kind);
      && q.me == p.me.(results := p.me.results + [mine]) && q.opp == p.opp.(results := p.opp.results + [theirs])
  {
    hide Shown;
    var (mine, theirs) := ResultFor(r, kind);
    if r.Draw? {
      BroadcastShows(v, d, RoundMsg(SaysDraw), ToAll);
    } else {
      BroadcastShows(v, d, RoundMsg(mine), ToSelf);
      BroadcastShows(v, Broadcast(d, RoundMsg(mine), ToSelf), RoundMsg(theirs), ToOthers);
    }
  }

  lemma RoundEndShows(v: Pair, d: Duel, kind: BetType, deal: Deal)
    requires kind.Die? || !CompareCard(d).1.RoundImpossible?
    ensures var p := ProcessRoundEnd(d, kind, deal);
      var (mine, theirs) := ResultFor(if kind.Die? then Lose else CompareCard(d).1, kind);
      && On(v, p.duel).me.results == On(v, d).me.results + [mine]
      && On(v, p.duel).opp.results == On(v, d).opp.results + [theirs]
      && (p.outcome.Continuing() ==> Exact(On(v, p.duel).Swap(), p.duel.Swap()))
      && (p.outcome.RoundOver? && !p.outcome.end.EndsAtSettlement? ==> HoldsDeal(p.duel, deal))
  {
    hide Shown, SettleAndGoOn, BroadcastRoundResult, PrintCard;
    if kind.Die? {
      ResultShows(v, d, Lose, kind);
      SettlementShows(v, BroadcastRoundResult(d, Lose, kind), Lose, deal);
    } else {
      var d1 := Broadcast(d, Battle, ToAll);
      BroadcastShows(v, d, Battle, ToAll);
      PrintShows(v, d1);
      PrintShows(v, PrintCard(d1));
      PrintKeepsRound(d1);
      var (compared, r) := CompareCard(PrintCard(d1));
      ResultShows(v, compared, r, kind);
      SettlementShows(v, BroadcastRoundResult(compared, r, kind), r, deal);
    }
  }

  lemma PrintKeepsRound(d: Duel)
    ensures PrintCard(d).me.Round() == d.me.Round() && PrintCard(d).opp.Round() == d.opp.Round()
  {
  }

  // Whenever a command ends a round, each player hears exactly one result, and the two are true to what is paid.
  lemma OutcomeIsTold(v: Pair, d: Duel, c: Command, deal: Deal)
    requires RoundInv(d)
    ensures var p := Act(d, c, deal);
      var was, now := On(v, d), On(v, p.duel);
      if p.outcome.RoundOver? then
        && |now.me.results| == |was.me.results| + 1 && was.me.results <= now.me.results
        && |now.opp.results| == |was.opp.results| + 1 && was.opp.results <= now.opp.results
        && ToldFairly(AtEnd(d, c), Paid(d, c), c.kind.Die?,
                      now.me.results[|was.me.results|], now.opp.results[|was.opp.results|])
      else SameResults(now, was)
  {
    hide Shown, ProcessRoundEnd, BetChips, ResultFor, ToldFairly, Paid, RoundResolver.Resolve;
    ActKeepsInvariant(d, c, deal);
    if c.kind.Die? {
      RoundEndShows(v, d, c.kind, deal);
      ResultIsFair(d, c);
    } else if GoesToShowdown(d, c) {
      ShowdownIsDecided(d, c);
      ResultIsFair(d, c);
      PrintShows(v, d);
      BetShows(v, d, c);
      RoundEndShows(v, AtShowdown(d, c), c.kind, deal);
    } else {
      BetShows(v, d, c);
      NotifyShows(v, BetChips(d, c).0);
    }
  }

  // ---- the screens over a command ------------------------------------------------------------

  // Whatever a command leads to, the players hold the cards it deals, or keep theirs while the round lasts.
  lemma ActDeals(d: Duel, c: Command, deal: Deal)
    requires RoundInv(d)
    ensures var p := Act(d, c, deal);
      && (p.outcome.RoundOver? && !p.outcome.end.EndsAtSettlement? ==> HoldsDeal(p.duel, deal))
      && (p.outcome.Raised? || p.outcome.Rejected? ==> SameCards(d, p.duel))
  {
    hide Shown, ProcessRoundEnd, BetChips, RoundResolver.Resolve, Exact;
    var v := Pair(Screen(0, 0, 0, false, NO_BETS, NO_BETS, []), Screen(0, 0, 0, false, NO_BETS, NO_BETS, []));
    ActKeepsInvariant(d, c, deal);
    if c.kind.Die? {
      RoundEndShows(v, d, c.kind, deal);
    } else if GoesToShowdown(d, c) {
      ShowdownIsDecided(d, c);
      RoundEndShows(v, AtShowdown(d, c), c.kind, deal);
    } else if BetChips(d, c).1.Raise? {
      BetKeepsCards(d, c);
    }
  }

  // Both clients keep showing the cards they may see, the bets and the turn.
  lemma ActShows(v: Pair, d: Duel, c: Command, deal: Deal)
    requires RoundInv(d) && Exact(On(v, d), d)
    ensures var p := Act(d, c, deal);
      && (p.outcome.Rejected? ==> Exact(On(v, p.duel), p.duel))
      && (p.outcome.Continuing() ==> Exact(On(v, p.duel).Swap(), p.duel.Swap()))
  {
    hide Shown, ProcessRoundEnd, BetChips, RoundResolver.Resolve, Exact;
    ActKeepsInvariant(d, c, deal);
    if c.kind.Die? {
      RoundEndShows(v, d, c.kind, deal);
    } else if GoesToShowdown(d, c) {
      ShowdownIsDecided(d, c);
      RoundEndShows(v, AtShowdown(d, c), c.kind, deal);
    } else if BetChips(d, c).1.Raise? {
      RaiseShows(v, d, c);
    } else {
      BlankSayShows(v, d, [BettingRefused], []);
      SayKeepsExact(On(v, d), d, [BettingRefused], []);
    }
  }

  lemma SayKeepsExact(p: Pair, d: Duel, mine: seq<Msg>, theirs: seq<Msg>)
    requires Exact(p, d)
    ensures Exact(p, d.Say(mine, theirs))
  {
  }

  predicate SameCards(d: Duel, e: Duel) {
    && e.me.frontCard == d.me.frontCard && e.me.backCard == d.me.backCard
    && e.opp.frontCard == d.opp.frontCard && e.opp.backCard == d.opp.backCard
  }

  lemma StartShows(v: Pair, d: Duel, deal: Deal)
    ensures var start := StartMatch(d, deal);
      Exact(On(v, start), start) && SameResults(On(v, start), On(v, d)) && HoldsDeal(start, deal)
  {
    hide Shown, UpdateCards, CollectBasicBet;
    var d1 := Broadcast(d, StartDone, ToAll);
    BroadcastShows(v, d, StartDone, ToAll);
    var d2 := ResetAllUsers(d1);
    var d3 := Broadcast(d2, GameInit, ToAll);
    BroadcastShows(v, d2, GameInit, ToAll);
    var d4 := Broadcast(d3, Turn(true), ToSelf);
    BroadcastShows(v, d3, Turn(true), ToSelf);
    var d5 := Broadcast(d4, Turn(false), ToOthers);
    BroadcastShows(v, d4, Turn(false), ToOthers);
    var d6 := Broadcast(d5, BasicBetting, ToAll);
    BroadcastShows(v, d5, BasicBetting, ToAll);
    AnteShows(v, d6);
    AnteKeepsBets(d6);
    DealShows(v, CollectBasicBet(d6, 1), deal);
    DealIsHeld(CollectBasicBet(d6, 1), deal);
  }

  // ---- what both players hear, literally -----------------------------------------------------

  // What a showdown shows the reader of the other's back card.
  function Reveal(reader: Side, shown: Side): seq<Msg> {
    if shown.bet in {Back, Both} then [PrintBack(shown.backCard)]
    else if reader.bet in {Back, Both} then [Wait] else []
  }

  // A showdown begins with the battle cry, then whoever may see a back card sees it, then the result follows.
  lemma BattleIsHeard(d: Duel, kind: BetType, deal: Deal)
    requires !kind.Die? && !CompareCard(d).1.RoundImpossible?
    ensures var p := ProcessRoundEnd(d, kind, deal).duel;
      var (mine, theirs) := ResultFor(CompareCard(d).1, kind);
      && d.me.log + [Battle] + Reveal(d.me, d.opp) + [RoundMsg(mine)] <= p.me.log
      && d.opp.log + [Battle] + Reveal(d.opp, d.me) + [RoundMsg(theirs)] <= p.opp.log
  {
    hide SettleAndGoOn;
    var printed := PrintCard(Broadcast(d, Battle, ToAll));
    var (compared, r) := CompareCard(printed);
    assert r == CompareCard(d).1;
    var (mine, theirs) := ResultFor(r, kind);
    assert compared.me.log == d.me.log + [Battle] + Reveal(d.me, d.opp);
    assert compared.opp.log == d.opp.log + [Battle] + Reveal(d.opp, d.me);
    var told := BroadcastRoundResult(compared, r, kind);
    assert told.me.log == compared.me.log + [RoundMsg(mine)] && told.opp.log == compared.opp.log + [RoundMsg(theirs)];
    SettlementGrows(told, r, deal);
  }

  // The complete opening of a match, as each of the two players hears it.
  lemma StartIsHeard(d: Duel, deal: Deal)
    ensures var start, x, y := StartMatch(d, deal), deal.mine, deal.theirs;
      && start.me.log == d.me.log
        + [StartDone, GameInit, Turn(true), BasicBetting,
           ChipUpdate(Mine, 29), ChipUpdate(Others, 29), ChipUpdate(Dealers, 2),
           MyCard(FrontFace, x.front), MyCard(BackFace, x.back), OtherFrontCard(y.front)]
      && start.opp.log == d.opp.log
        + [StartDone, GameInit, Turn(false), BasicBetting,
           ChipUpdate(Others, 29), ChipUpdate(Mine, 29), ChipUpdate(Dealers, 2),
           MyCard(FrontFace, y.front), MyCard(BackFace, y.back), OtherFrontCard(x.front)]
  {
  }

  function CardsAndThen(own: Card, other: Card, rest: seq<Msg>): seq<Msg> {
    [MyCard(FrontFace, own.front), MyCard(BackFace, own.back), OtherFrontCard(other.front)] + rest
  }

  // Between a settled round and the next: the ante unless the round was drawn, the cards, and either the new turn or
  // the end of the match.
  lemma NextRoundIsHeard(d: Duel, r: RoundResult, deal: Deal)
    requires !r.Draw? ==> d.me.chips >= 1 && d.opp.chips >= 1
    ensures var p := PrepareNextRound(d, r, deal);
      var x, y, z := d.me.chips - 1, d.opp.chips - 1, d.dealer + 2;
      var ante := [BasicBetting, ChipUpdate(Mine, x), ChipUpdate(Others, y), ChipUpdate(Dealers, z)];
      var theirAnte := [BasicBetting, ChipUpdate(Others, x), ChipUpdate(Mine, y), ChipUpdate(Dealers, z)];
      && p.outcome.RoundOver? && !p.outcome.end.EndsAtSettlement?
      && p.duel.me.log == d.me.log + (if r.Draw? then [] else ante)
        + CardsAndThen(deal.mine, deal.theirs,
                       if p.outcome.end.Continues? then [GameInit, Turn(false)] else [FinalMsg(p.outcome.end.iWin)])
      && p.duel.opp.log == d.opp.log + (if r.Draw? then [] else theirAnte)
        + CardsAndThen(deal.theirs, deal.mine,
                       if p.outcome.end.Continues? then [GameInit, Turn(true)] else [FinalMsg(!p.outcome.end.iWin)])
  {
  }

  // An accepted bet, as the player and the other hear it.
  lemma BetIsHeard(d: Duel, c: Command)
    requires !BetChips(d, c).1.BetImpossible?
    ensures var after := BetChips(d, c).0;
      forall whose | whose == Mine || whose == Others ::
        var me := after.me;
        (if whose.Mine? then me.log else after.opp.log) == (if whose.Mine? then d.me.log else d.opp.log)
          + match c.kind
            case Front => [ChipUpdate(whose, me.chips), BetUpdate(whose, FrontFace, me.frontBet)]
            case Back => [ChipUpdate(whose, me.chips), BetUpdate(whose, BackFace, me.backBet)]
            case _ => [ChipUpdate(whose, me.chips), BetUpdate(whose, FrontFace, me.frontBet),
                       BetUpdate(whose, BackFace, me.backBet), BothMark(whose)]
  {
  }
}
