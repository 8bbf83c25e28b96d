/** What a client can show of a round from its messages alone: its own two faces, the other's front face, whose turn
    it is, the bets of the round on either side, and the results it was told. */
module Screens {
  import opened Foundation
  import opened Sections
  import opened GameFlow
  import opened RoundInvariant
  import BettingRules
  import SettlementRules

  datatype Bets = Bets(front: int, back: int)

  const NO_BETS := Bets(0, 0)

  datatype Screen = Screen(
    front: int, back: int, otherFront: int,
    myTurn: bool, mine: Bets, others: Bets, results: seq<Result>)

  function SetFace(b: Bets, face: Face, amount: int): Bets {
    match face
    case FrontFace => b.(front := amount)
    case BackFace => b.(back := amount)
  }

  // A new round begins with GameInit; a bet is announced with what now lies on that face.
  function Apply(v: Screen, m: Msg): Screen {
    match m
    case MyCard(FrontFace, n) => v.(front := n)
    case MyCard(BackFace, n) => v.(back := n)
    case OtherFrontCard(n) => v.(otherFront := n)
    case Turn(mine) => v.(myTurn := mine)
    case GameInit => v.(mine := NO_BETS, others := NO_BETS)
    case BetUpdate(Mine, face, amount) => v.(mine := SetFace(v.mine, face, amount))
    case BetUpdate(Others, face, amount) => v.(others := SetFace(v.others, face, amount))
    case RoundMsg(r) => v.(results := v.results + [r])
    case _ => v
  }

  // The screen of a client that started from v and applied the messages in order.
  function Shown(v: Screen, log: seq<Msg>): Screen
    decreases |log|
  {
    if log == [] then v else Apply(Shown(v, log[..|log| - 1]), log[|log| - 1])
  }

  lemma ShownNext(v: Screen, log: seq<Msg>, m: Msg)
    ensures Shown(v, log + [m]) == Apply(Shown(v, log), m)
  {
    assert (log + [m])[..|log|] == log;
  }

  lemma {:induction false} ShownConcat(v: Screen, a: seq<Msg>, b: seq<Msg>)
    ensures Shown(v, a + b) == Shown(Shown(v, a), b)
    decreases |b|
  {
    if b == [] {
      assert a + b == a;
    } else {
      var n := |b| - 1;
      assert (a + b)[|a + b| - 1] == b[n] && (a + b)[..|a + b| - 1] == a + b[..n];
      ShownConcat(v, a, b[..n]);
    }
  }

  lemma ShownOne(v: Screen, a: Msg)
    ensures Shown(v, [a]) == Apply(v, a)
  {
    assert [a] == [] + [a];
    ShownNext(v, [], a);
  }

  lemma ShownThree(v: Screen, a: Msg, b: Msg, c: Msg)
    ensures Shown(v, [a, b, c]) == Apply(Apply(Apply(v, a), b), c)
  {
    ShownOne(v, a);
    ShownNext(v, [a], b);
    ShownNext(v, [a, b], c);
    assert [a] + [b] == [a, b] && [a, b] + [c] == [a, b, c];
  }

  // Messages that such a screen does not show.
  predicate Blank(msgs: seq<Msg>) {
    forall i :: 0 <= i < |msgs| ==>
      !msgs[i].MyCard? && !msgs[i].OtherFrontCard? && !msgs[i].Turn? && !msgs[i].GameInit?
      && !msgs[i].BetUpdate? && !msgs[i].RoundMsg?
  }

  lemma {:induction false} BlankShowsNothing(v: Screen, msgs: seq<Msg>)
    requires Blank(msgs)
    ensures Shown(v, msgs) == v
    decreases |msgs|
  {
    if msgs != [] { BlankShowsNothing(v, msgs[..|msgs| - 1]); }
  }

  // ---- the two screens of a match ------------------------------------------------------------

  datatype Pair = Pair(me: Screen, opp: Screen)
  {
    function Swap(): Pair { Pair(opp, me) }
  }

  // What both clients show, if they started from v.
  function On(v: Pair, d: Duel): Pair {
    Pair(Shown(v.me, d.me.log), Shown(v.opp, d.opp.log))
  }

  function ApplyTo(v: Pair, m: Msg, target: TargetType): Pair {
    Pair(if target.ToOthers? then v.me else Apply(v.me, m), if target.ToSelf? then v.opp else Apply(v.opp, m))
  }

  lemma BroadcastShows(v: Pair, d: Duel, m: Msg, target: TargetType)
    ensures On(v, Broadcast(d, m, target)) == ApplyTo(On(v, d), m, target)
  {
    ShownNext(v.me, d.me.log, m);
    ShownNext(v.opp, d.opp.log, m);
  }

  lemma BlankSayShows(v: Pair, d: Duel, mine: seq<Msg>, theirs: seq<Msg>)
    requires Blank(mine) && Blank(theirs)
    ensures On(v, d.Say(mine, theirs)) == On(v, d)
  {
    ShownConcat(v.me, d.me.log, mine);
    ShownConcat(v.opp, d.opp.log, theirs);
    BlankShowsNothing(Shown(v.me, d.me.log), mine);
    BlankShowsNothing(Shown(v.opp, d.opp.log), theirs);
  }

  function WithCards(v: Screen, own: Card, other: Card): Screen {
    v.(front := own.front, back := own.back, otherFront := other.front)
  }

  // A deal tells both players their own two faces and the other's front face.
  lemma DealShows(v: Pair, d: Duel, deal: Deal)
    ensures On(v, UpdateCards(d, deal)) ==
      Pair(WithCards(On(v, d).me, deal.mine, deal.theirs), WithCards(On(v, d).opp, deal.theirs, deal.mine))
  {
    var (x, y) := (deal.mine, deal.theirs);
    ShownConcat(v.me, d.me.log, CardNews(x, y));
    ShownConcat(v.opp, d.opp.log, CardNews(y, x));
    ShownThree(Shown(v.me, d.me.log), MyCard(FrontFace, x.front), MyCard(BackFace, x.back), OtherFrontCard(y.front));
    ShownThree(Shown(v.opp, d.opp.log), MyCard(FrontFace, y.front), MyCard(BackFace, y.back), OtherFrontCard(x.front));
  }

  lemma SettleShows(v: Pair, d: Duel, r: RoundResult)
    ensures On(v, SettleRound(d, r)) == On(v, d)
  {
    hide SettlementRules.Settle, Shown;
    var settled := SettlementRules.Settle(d.Settling(), r);
    if settled.Some? {
      var o := settled.value;
      var x := If(d.dealer != o.dealerChips, ChipUpdate(Dealers, o.dealerChips));
      var y, z := d.me.chips != o.currentChips, d.opp.chips != o.opponentChips;
      BlankSayShows(v, d, x + If(y, ChipUpdate(Mine, o.currentChips)) + If(z, ChipUpdate(Others, o.opponentChips)),
                    x + If(y, ChipUpdate(Others, o.currentChips)) + If(z, ChipUpdate(Mine, o.opponentChips)));
    }
  }

  lemma AnteShows(v: Pair, d: Duel)
    ensures On(v, CollectBasicBet(d, 1)) == On(v, d)
  {
    hide Shown;
    if CanCollect(d, 1) {
      var m, o, e := d.me.chips - 1, d.opp.chips - 1, d.dealer + 2;
      BlankSayShows(v, d, [ChipUpdate(Mine, m), ChipUpdate(Others, o), ChipUpdate(Dealers, e)],
                    [ChipUpdate(Others, m), ChipUpdate(Mine, o), ChipUpdate(Dealers, e)]);
    }
  }

  lemma PrintShows(v: Pair, d: Duel)
    ensures On(v, PrintCard(d)) == On(v, d) && On(v, CompareCard(d).0) == On(v, d) && On(v, SpecialCase(d)) == On(v, d)
  {
    hide Shown;
    BlankSayShows(v, d, PrintFor(d.me, d.opp), PrintFor(d.opp, d.me));
  }

  // ---- bets ----------------------------------------------------------------------------------

  // What a reader shows after the news of a bet: on the faces of the bet the new amounts, on the other what it showed.
  function AfterBet(b: Bets, s: Side): Bets {
    Bets(if s.bet.Front? || s.bet.Both? then s.frontBet else b.front,
         if s.bet.Back? || s.bet.Both? then s.backBet else b.back)
  }

  lemma BetNewsShows(v: Screen, s: Side)
    ensures Shown(v, BetNews(s, Mine)) == v.(mine := AfterBet(v.mine, s))
    ensures Shown(v, BetNews(s, Others)) == v.(others := AfterBet(v.others, s))
  {
    forall whose | whose == Mine || whose == Others
      ensures Shown(v, BetNews(s, whose)) ==
        if whose.Mine? then v.(mine := AfterBet(v.mine, s)) else v.(others := AfterBet(v.others, s))
    {
      var f, b := BetUpdate(whose, FrontFace, s.frontBet), BetUpdate(whose, BackFace, s.backBet);
      if s.bet.Both? {
        ShownThree(v, f, b, BothMark(whose));
        assert BetNews(s, whose) == [f, b, BothMark(whose)];
      } else if s.bet.Front? {
        ShownOne(v, f);
        assert BetNews(s, whose) == [f];
      } else if s.bet.Back? {
        ShownOne(v, b);
        assert BetNews(s, whose) == [b];
      } else {
        assert BetNews(s, whose) == [];
      }
    }
  }

  lemma BetShows(v: Pair, d: Duel, c: Command)
    ensures var (after, r) := BetChips(d, c);
      On(v, after) ==
        if r.BetImpossible? then On(v, d)
        else Pair(On(v, d).me.(mine := AfterBet(On(v, d).me.mine, after.me)),
                  On(v, d).opp.(others := AfterBet(On(v, d).opp.others, after.me)))
  {
    hide BettingRules.Evaluate, Shown, BetNews;
    var decision := Decide(d, c);
    if decision.result.BetImpossible? || !CanDeduct(d.me, decision.cost) {
      BlankSayShows(v, d, [BettingRefused], []);
    } else {
      var me := PlaceBet(d.me, c, decision.cost);
      PlacedBetShows(v.me, d.me.log, ChipUpdate(Mine, me.chips), me, Mine);
      PlacedBetShows(v.opp, d.opp.log, ChipUpdate(Others, me.chips), me, Others);
    }
  }

  lemma PlacedBetShows(v: Screen, log: seq<Msg>, chips: Msg, s: Side, whose: Whose)
    requires chips.ChipUpdate?
    ensures Shown(v, log + ([chips] + BetNews(s, whose))) == Shown(Shown(v, log), BetNews(s, whose))
    ensures var w := Shown(v, log);
      && (whose.Mine? ==> Shown(v, log + ([chips] + BetNews(s, whose))) == w.(mine := AfterBet(w.mine, s)))
      && (whose.Others? ==> Shown(v, log + ([chips] + BetNews(s, whose))) == w.(others := AfterBet(w.others, s)))
  {
    hide Shown, BetNews;
    ShownConcat(v, log, [chips] + BetNews(s, whose));
    ShownConcat(Shown(v, log), [chips], BetNews(s, whose));
    ShownOne(Shown(v, log), chips);
    BetNewsShows(Shown(v, log), s);
  }

  // ---- exact screens -------------------------------------------------------------------------

  predicate ShowsCards(v: Screen, own: Side, other: Side) {
    v.front == own.frontCard && v.back == own.backCard && v.otherFront == other.frontCard
  }

  predicate ShowsBets(v: Screen, own: Side, other: Side) {
    v.mine == Bets(own.frontBet, own.backBet) && v.others == Bets(other.frontBet, other.backBet)
  }

  // Both clients show the server's cards and bets, and that it is `me` who has to act.
  predicate Exact(p: Pair, d: Duel) {
    && ShowsCards(p.me, d.me, d.opp) && ShowsCards(p.opp, d.opp, d.me)
    && ShowsBets(p.me, d.me, d.opp) && ShowsBets(p.opp, d.opp, d.me)
    && p.me.myTurn && !p.opp.myTurn
  }

  predicate SameResults(p: Pair, q: Pair) { p.me.results == q.me.results && p.opp.results == q.opp.results }

  // A raise: the new bets are shown, and it is the other's turn.
  lemma RaiseShows(v: Pair, d: Duel, c: Command)
    requires RoundInv(d) && BetChips(d, c).1.Raise? && Exact(On(v, d), d)
    ensures var d1 := NotifyTurnChanged(BetChips(d, c).0);
      Exact(On(v, d1).Swap(), d1.Swap()) && SameResults(On(v, d1), On(v, d))
  {
    hide Shown, BetChips;
    var bet := BetChips(d, c).0;
    BetShows(v, d, c);
    BetKeepsCards(d, c);
    NotifyShows(v, bet);
  }

  lemma NotifyShows(v: Pair, d: Duel)
    ensures var p, q := On(v, d), On(v, NotifyTurnChanged(d));
      q == Pair(p.me.(myTurn := false), p.opp.(myTurn := true))
  {
    hide Shown;
    BroadcastShows(v, d, Turn(false), ToSelf);
    BroadcastShows(v, Broadcast(d, Turn(false), ToSelf), Turn(true), ToOthers);
  }

  // A bet changes nothing but the bets of the player and the amounts; what does not lie on the chosen faces is 0.
  lemma BetKeepsCards(d: Duel, c: Command)
    requires RoundInv(d) && !BetChips(d, c).1.BetImpossible?
    ensures var after := BetChips(d, c).0;
      && after.me.frontCard == d.me.frontCard && after.me.backCard == d.me.backCard
      && after.opp.(log := []) == d.opp.(log := [])
      && after.me.bet == c.kind && c.kind in {Front, Back, Both}
      && (c.kind.Front? ==> after.me.backBet == d.me.backBet) && (c.kind.Back? ==> after.me.frontBet == d.me.frontBet)
  {
  }

  // The next round: its cards are shown, no bets, and the other player's turn.
  lemma NextRoundShows(v: Pair, d: Duel, r: RoundResult, deal: Deal)
    requires d.Pot() == 0 && d.me.frontBet == d.me.backBet == d.opp.frontBet == d.opp.backBet == 0
    ensures var p := PrepareNextRound(d, r, deal);
      && SameResults(On(v, p.duel), On(v, d))
      && (p.outcome.Continuing() ==> Exact(On(v, p.duel).Swap(), p.duel.Swap()))
      && HoldsDeal(p.duel, deal)
  {
    hide Shown, UpdateCards, CollectBasicBet;
    var d1 := Broadcast(d, BasicBetting, ToAll);
    BroadcastShows(v, d, BasicBetting, ToAll);
    AnteShows(v, d1);
    var d2 := if r.Draw? then d else CollectBasicBet(d1, 1);
    DealShows(v, d2, deal);
    DealIsHeld(d2, deal);
    AnteKeepsBets(d1);
    var dealt := UpdateCards(d2, deal);
    BroadcastShows(v, dealt, GameInit, ToAll);
    NotifyShows(v, Broadcast(dealt, GameInit, ToAll));
    var m := EndCheck(dealt);
    BroadcastShows(v, dealt, FinalMsg(m.FinalWin?), ToSelf);
    BroadcastShows(v, Broadcast(dealt, FinalMsg(m.FinalWin?), ToSelf), FinalMsg(m.FinalLose?), ToOthers);
  }

  predicate Holds(s: Side, card: Card) { s.frontCard == card.front && s.backCard == card.back }

  // Both players hold the cards of this deal.
  predicate HoldsDeal(d: Duel, deal: Deal) { Holds(d.me, deal.mine) && Holds(d.opp, deal.theirs) }

  lemma DealIsHeld(d: Duel, deal: Deal)
    ensures HoldsDeal(UpdateCards(d, deal), deal)
    ensures var e := UpdateCards(d, deal);
      && e.me.frontBet == d.me.frontBet && e.me.backBet == d.me.backBet
      && e.opp.frontBet == d.opp.frontBet && e.opp.backBet == d.opp.backBet
  {
  }

  lemma AnteKeepsBets(d: Duel)
    ensures var e := CollectBasicBet(d, 1);
      && e.me.frontBet == d.me.frontBet && e.me.backBet == d.me.backBet
      && e.opp.frontBet == d.opp.frontBet && e.opp.backBet == d.opp.backBet
  {
  }

  // From the settlement on: nobody hears of another result, and the next round is shown.
  lemma SettlementShows(v: Pair, d: Duel, r: RoundResult, deal: Deal)
    requires !r.RoundImpossible?
    ensures var p := SettleAndGoOn(d, r, deal);
      && SameResults(On(v, p.duel), On(v, d))
      && (p.outcome.Continuing() ==> Exact(On(v, p.duel).Swap(), p.duel.Swap()))
      && (p.outcome.RoundOver? && !p.outcome.end.EndsAtSettlement? ==> HoldsDeal(p.duel, deal))
  {
    hide Shown, PrepareNextRound, SettleRound;
    var s := SettleRound(d, r);
    SettleShows(v, d, r);
    SettleClearsBets(d, r);
    NextRoundShows(v, s, r, deal);
    var m := EndCheck(s);
    BroadcastShows(v, s, FinalMsg(m.FinalWin?), ToSelf);
    BroadcastShows(v, Broadcast(s, FinalMsg(m.FinalWin?), ToSelf), FinalMsg(m.FinalLose?), ToOthers);
  }

  lemma SettleClearsBets(d: Duel, r: RoundResult)
    requires !r.RoundImpossible?
    ensures var s := SettleRound(d, r);
      s.me.frontBet == s.me.backBet == s.opp.frontBet == s.opp.backBet == 0 && s.Pot() == 0
  {
  }
}
