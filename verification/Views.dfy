/** What a client knows from its messages alone: the three chip counts shown on its screen and how many matches
    it was told to have won and lost. */
module Views {
  import opened Foundation
  import opened Sections
  import opened GameFlow
  import opened RoundInvariant

  datatype View = View(mine: int, others: int, dealer: int, wins: nat, losses: nat)

  function Apply(v: View, m: Msg): View {
    match m
    case ChipUpdate(Mine, a) => v.(mine := a)
    case ChipUpdate(Others, a) => v.(others := a)
    case ChipUpdate(Dealers, a) => v.(dealer := a)
    case FinalMsg(won) => if won then v.(wins := v.wins + 1) else v.(losses := v.losses + 1)
    case _ => v
  }

  // The view of a client that started from v and applied the messages in order.
  function Shown(v: View, log: seq<Msg>): View
    decreases |log|
  {
    if log == [] then v else Shown(Apply(v, log[0]), log[1..])
  }

  lemma {:induction false} ShownConcat(v: View, a: seq<Msg>, b: seq<Msg>)
    ensures Shown(v, a + b) == Shown(Shown(v, a), b)
    decreases |a|
  {
    if a == [] {
      assert a + b == b;
    } else {
      assert (a + b)[0] == a[0] && (a + b)[1..] == a[1..] + b;
      ShownConcat(Apply(v, a[0]), a[1..], b);
    }
  }

  // Messages that say nothing about chips and match ends.
  predicate Quiet(msgs: seq<Msg>) {
    forall i :: 0 <= i < |msgs| ==> !msgs[i].ChipUpdate? && !msgs[i].FinalMsg?
  }

  lemma {:induction false} QuietShowsNothing(v: View, msgs: seq<Msg>)
    requires Quiet(msgs)
    ensures Shown(v, msgs) == v
    decreases |msgs|
  {
    if msgs != [] { QuietShowsNothing(v, msgs[1..]); }
  }

  lemma ShownFirst(v: View, m: Msg, rest: seq<Msg>)
    ensures Shown(v, [m] + rest) == Shown(Apply(v, m), rest)
  {
    assert ([m] + rest)[1..] == rest;
  }

  lemma ShownIf(v: View, b: bool, m: Msg, rest: seq<Msg>)
    ensures Shown(v, If(b, m) + rest) == Shown(if b then Apply(v, m) else v, rest)
  {
    if b { ShownFirst(v, m, rest); } else { assert If(b, m) + rest == rest; }
  }

  lemma ShownUpTo3(v: View, a: seq<Msg>, b: seq<Msg>, c: seq<Msg>)
    ensures Shown(v, a + b + c) == Shown(Shown(Shown(v, a), b), c)
  {
    ShownConcat(v, a + b, c);
    ShownConcat(v, a, b);
  }

  // The chips on both screens are the server's, whatever the clients showed at first (v and w).
  ghost predicate Tracks(v: View, w: View, d: Duel) {
    var me, opp := Shown(v, d.me.log), Shown(w, d.opp.log);
    && me.mine == opp.others == d.me.chips
    && me.others == opp.mine == d.opp.chips
    && me.dealer == opp.dealer == d.dealer
  }

  ghost predicate SameTallies(v: View, w: View, d: Duel, d': Duel) {
    && Shown(v, d'.me.log).wins == Shown(v, d.me.log).wins && Shown(v, d'.me.log).losses == Shown(v, d.me.log).losses
    && Shown(w, d'.opp.log).wins == Shown(w, d.opp.log).wins
    && Shown(w, d'.opp.log).losses == Shown(w, d.opp.log).losses
  }

  ghost predicate Follows(v: View, w: View, d: Duel, d': Duel) {
    (Tracks(v, w, d) ==> Tracks(v, w, d')) && SameTallies(v, w, d, d')
  }

  lemma QuietSayFollows(v: View, w: View, d: Duel, mine: seq<Msg>, theirs: seq<Msg>)
    requires Quiet(mine) && Quiet(theirs)
    ensures Shown(v, d.Say(mine, theirs).me.log) == Shown(v, d.me.log)
    ensures Shown(w, d.Say(mine, theirs).opp.log) == Shown(w, d.opp.log)
  {
    ShownConcat(v, d.me.log, mine);
    ShownConcat(w, d.opp.log, theirs);
    QuietShowsNothing(Shown(v, d.me.log), mine);
    QuietShowsNothing(Shown(w, d.opp.log), theirs);
  }

  lemma BroadcastFollows(v: View, w: View, d: Duel, m: Msg, target: TargetType)
    requires Quiet([m])
    ensures Follows(v, w, d, Broadcast(d, m, target))
  {
    QuietSayFollows(v, w, d, [m], [m]);
  }

  lemma BetFollows(v: View, w: View, d: Duel, c: Command)
    ensures Follows(v, w, d, BetChips(d, c).0)
  {
    var decision := Decide(d, c);
    if decision.result.BetImpossible? || !CanDeduct(d.me, decision.cost) {
      QuietSayFollows(v, w, d, [BettingRefused], []);
    } else {
      var me := PlaceBet(d.me, c, decision.cost);
      var a, b := Shown(v, d.me.log), Shown(w, d.opp.log);
      ShownConcat(v, d.me.log, [ChipUpdate(Mine, me.chips)] + BetNews(me, Mine));
      ShownConcat(w, d.opp.log, [ChipUpdate(Others, me.chips)] + BetNews(me, Others));
      ShownFirst(a, ChipUpdate(Mine, me.chips), BetNews(me, Mine));
      ShownFirst(b, ChipUpdate(Others, me.chips), BetNews(me, Others));
      QuietShowsNothing(Apply(a, ChipUpdate(Mine, me.chips)), BetNews(me, Mine));
      QuietShowsNothing(Apply(b, ChipUpdate(Others, me.chips)), BetNews(me, Others));
    }
  }

  // The order of the three updates does not matter, and an unchanged amount needs none.
  lemma SettleFollows(v: View, w: View, d: Duel, r: RoundResult)
    ensures Follows(v, w, d, SettleRound(d, r))
  {
    var after := SettleRound(d, r);
    var a, b := Shown(v, d.me.log), Shown(w, d.opp.log);
    if after != d {
      var x := If(d.dealer != after.dealer, ChipUpdate(Dealers, after.dealer));
      var y, z := d.me.chips != after.me.chips, d.opp.chips != after.opp.chips;
      var m := x + If(y, ChipUpdate(Mine, after.me.chips)) + If(z, ChipUpdate(Others, after.opp.chips));
      var o := x + If(y, ChipUpdate(Others, after.me.chips)) + If(z, ChipUpdate(Mine, after.opp.chips));
      ShownConcat(v, d.me.log, m);
      ShownConcat(w, d.opp.log, o);
      ShownUpTo3(a, x, If(y, ChipUpdate(Mine, after.me.chips)), If(z, ChipUpdate(Others, after.opp.chips)));
      ShownUpTo3(b, x, If(y, ChipUpdate(Others, after.me.chips)), If(z, ChipUpdate(Mine, after.opp.chips)));
      OneShown();
    }
  }

  lemma OneShown()
    ensures forall v: View, m: Msg, b: bool :: Shown(v, If(b, m)) == if b then Apply(v, m) else v
  {
    forall v: View, m: Msg, b: bool ensures Shown(v, If(b, m)) == if b then Apply(v, m) else v {
      ShownIf(v, b, m, []);
      assert If(b, m) + [] == If(b, m);
    }
  }

  // The ante is announced in full, so it makes both screens exact from any starting view.
  lemma CollectShowsAll(v: View, w: View, d: Duel)
    ensures SameTallies(v, w, d, CollectBasicBet(d, 1))
    ensures CanCollect(d, 1) ==> Tracks(v, w, CollectBasicBet(d, 1))
    ensures !CanCollect(d, 1) ==> CollectBasicBet(d, 1) == d
  {
    if CanCollect(d, 1) {
      var after := CollectBasicBet(d, 1);
      var a, b := Shown(v, d.me.log), Shown(w, d.opp.log);
      var m, o, e := after.me.chips, after.opp.chips, after.dealer;
      ShownConcat(v, d.me.log, [ChipUpdate(Mine, m), ChipUpdate(Others, o), ChipUpdate(Dealers, e)]);
      ShownConcat(w, d.opp.log, [ChipUpdate(Others, m), ChipUpdate(Mine, o), ChipUpdate(Dealers, e)]);
      OneShown();
      ShownUpTo3(a, If(true, ChipUpdate(Mine, m)), If(true, ChipUpdate(Others, o)), If(true, ChipUpdate(Dealers, e)));
      ShownUpTo3(b, If(true, ChipUpdate(Others, m)), If(true, ChipUpdate(Mine, o)), If(true, ChipUpdate(Dealers, e)));
      assert If(true, ChipUpdate(Mine, m)) + If(true, ChipUpdate(Others, o)) + If(true, ChipUpdate(Dealers, e))
          == [ChipUpdate(Mine, m), ChipUpdate(Others, o), ChipUpdate(Dealers, e)];
      assert If(true, ChipUpdate(Others, m)) + If(true, ChipUpdate(Mine, o)) + If(true, ChipUpdate(Dealers, e))
          == [ChipUpdate(Others, m), ChipUpdate(Mine, o), ChipUpdate(Dealers, e)];
    }
  }

  lemma NotifyFollows(v: View, w: View, d: Duel)
    ensures Follows(v, w, d, NotifyTurnChanged(d))
  {
    var d1 := Broadcast(d, Turn(false), ToSelf);
    BroadcastFollows(v, w, d, Turn(false), ToSelf);
    BroadcastFollows(v, w, d1, Turn(true), ToOthers);
  }

  lemma RoundResultFollows(v: View, w: View, d: Duel, r: RoundResult, kind: BetType)
    ensures Follows(v, w, d, BroadcastRoundResult(d, r, kind))
  {
    if r.Draw? {
      BroadcastFollows(v, w, d, RoundMsg(SaysDraw), ToAll);
    } else if !r.RoundImpossible? {
      var (m, o) := ResultFor(r, kind);
      BroadcastFollows(v, w, d, RoundMsg(m), ToSelf);
      BroadcastFollows(v, w, Broadcast(d, RoundMsg(m), ToSelf), RoundMsg(o), ToOthers);
    }
  }

  // The end of a match tells one player of a win and the other of a loss, once each.
  ghost predicate AnnouncesEnd(v: View, w: View, d: Duel, d': Duel, iWin: bool) {
    var a, a', b, b' := Shown(v, d.me.log), Shown(v, d'.me.log), Shown(w, d.opp.log), Shown(w, d'.opp.log);
    if iWin then a'.wins == a.wins + 1 && a'.losses == a.losses && b'.wins == b.wins && b'.losses == b.losses + 1
    else a'.wins == a.wins && a'.losses == a.losses + 1 && b'.wins == b.wins + 1 && b'.losses == b.losses
  }

  lemma FinishAnnounces(v: View, w: View, d: Duel, m: MatchResult)
    requires IsFinal(m)
    ensures AnnouncesEnd(v, w, d, FinishGame(d, m), m.FinalWin?)
    ensures Tracks(v, w, d) ==> Tracks(v, w, FinishGame(d, m))
  {
    ShownConcat(v, d.me.log, [FinalMsg(m.FinalWin?)]);
    ShownConcat(w, d.opp.log, [FinalMsg(m.FinalLose?)]);
    OneShown();
    assert If(true, FinalMsg(m.FinalWin?)) == [FinalMsg(m.FinalWin?)];
    assert If(true, FinalMsg(m.FinalLose?)) == [FinalMsg(m.FinalLose?)];
  }

  // Both screens follow the chips, and a final message goes out exactly when the match ends.
  ghost predicate Reports(v: View, w: View, d: Duel, p: Play) {
    && (Tracks(v, w, d) ==> Tracks(v, w, p.duel))
    && (if p.outcome.Finished() then AnnouncesEnd(v, w, d, p.duel, p.outcome.end.iWin)
        else SameTallies(v, w, d, p.duel))
  }

  lemma NextRoundReports(v: View, w: View, d: Duel, r: RoundResult, deal: Deal)
    ensures Reports(v, w, d, PrepareNextRound(d, r, deal))
  {
    var anted := if r.Draw? then d else CollectBasicBet(Broadcast(d, BasicBetting, ToAll), 1);
    BroadcastFollows(v, w, d, BasicBetting, ToAll);
    CollectShowsAll(v, w, Broadcast(d, BasicBetting, ToAll));
    var dealt := UpdateCards(anted, deal);
    QuietSayFollows(v, w, anted, CardNews(deal.mine, deal.theirs), CardNews(deal.theirs, deal.mine));
    assert Follows(v, w, d, dealt);
    var m := EndCheck(dealt);
    if IsFinal(m) {
      FinishAnnounces(v, w, dealt, m);
    } else {
      BroadcastFollows(v, w, dealt, GameInit, ToAll);
      NotifyFollows(v, w, Broadcast(dealt, GameInit, ToAll));
    }
  }

  lemma SettlementReports(v: View, w: View, d: Duel, r: RoundResult, deal: Deal)
    ensures Reports(v, w, d, SettleAndGoOn(d, r, deal))
  {
    var settled := SettleRound(d, r);
    SettleFollows(v, w, d, r);
    var m := if r.Draw? then Progress else EndCheck(settled);
    if IsFinal(m) {
      FinishAnnounces(v, w, settled, m);
    } else {
      NextRoundReports(v, w, settled, r, deal);
    }
  }

  lemma RoundEndReports(v: View, w: View, d: Duel, kind: BetType, deal: Deal)
    ensures Reports(v, w, d, ProcessRoundEnd(d, kind, deal))
  {
    if kind.Die? {
      RoundResultFollows(v, w, d, Lose, kind);
      SettlementReports(v, w, BroadcastRoundResult(d, Lose, kind), Lose, deal);
    } else {
      var d1 := Broadcast(d, Battle, ToAll);
      BroadcastFollows(v, w, d, Battle, ToAll);
      QuietSayFollows(v, w, d1, PrintFor(d1.me, d1.opp), PrintFor(d1.opp, d1.me));
      var (compared, r) := CompareCard(PrintCard(d1));
      assert Follows(v, w, d, compared);
      if !r.RoundImpossible? {
        RoundResultFollows(v, w, compared, r, kind);
        SettlementReports(v, w, BroadcastRoundResult(compared, r, kind), r, deal);
      }
    }
  }

  lemma ActReports(v: View, w: View, d: Duel, c: Command, deal: Deal)
    ensures Reports(v, w, d, Act(d, c, deal))
  {
    if c.kind.Die? {
      RoundEndReports(v, w, d, c.kind, deal);
    } else if c.kind.Special? {
      RoundEndReports(v, w, SpecialCase(d), c.kind, deal);
    } else {
      BetFollows(v, w, d, c);
      var (bet, r) := BetChips(d, c);
      NotifyFollows(v, w, bet);
      RoundEndReports(v, w, bet, c.kind, deal);
    }
  }

  // The first ante of a match already makes both screens exact.
  lemma StartReports(v: View, w: View, d: Duel, deal: Deal)
    ensures Tracks(v, w, StartMatch(d, deal)) && SameTallies(v, w, d, StartMatch(d, deal))
  {
    var d1 := Broadcast(d, StartDone, ToAll);
    BroadcastFollows(v, w, d, StartDone, ToAll);
    var d2 := ResetAllUsers(d1);
    var d3 := Broadcast(d2, GameInit, ToAll);
    BroadcastFollows(v, w, d2, GameInit, ToAll);
    var d4 := Broadcast(d3, Turn(true), ToSelf);
    BroadcastFollows(v, w, d3, Turn(true), ToSelf);
    var d5 := Broadcast(d4, Turn(false), ToOthers);
    BroadcastFollows(v, w, d4, Turn(false), ToOthers);
    var d6 := Broadcast(d5, BasicBetting, ToAll);
    BroadcastFollows(v, w, d5, BasicBetting, ToAll);
    CollectShowsAll(v, w, d6);
    QuietSayFollows(v, w, CollectBasicBet(d6, 1), CardNews(deal.mine, deal.theirs), CardNews(deal.theirs, deal.mine));
  }
}
