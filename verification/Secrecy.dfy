/** The unrevealed back card: two runs of a room that differ only in back cards of one player q which that
    player never has to show send exactly the same messages to everybody else. */
module Secrecy {
  import opened Foundation
  import opened Sections
  import opened GameFlow
  import opened RoundInvariant
  import Showdown
  import opened Table
  import I = Interleaving

  // ---- two positions that q's opponent cannot tell apart -------------------------------------

  ghost predicate SameButBack(a: Side, b: Side) {
    a.(backCard := b.backCard, log := b.log) == b
  }

  ghost predicate Alike(d1: Duel, d2: Duel, qIsMe: bool) {
    && d1.dealer == d2.dealer
    && (if qIsMe then SameButBack(d1.me, d2.me) && d1.opp == d2.opp
        else d1.me == d2.me && SameButBack(d1.opp, d2.opp))
  }

  ghost predicate DealsAlike(x: Deal, y: Deal, qIsMe: bool) {
    if qIsMe then x.mine.front == y.mine.front && x.theirs == y.theirs
    else x.mine == y.mine && x.theirs.front == y.theirs.front
  }

  function SideOfQ(d: Duel, qIsMe: bool): Side { if qIsMe then d.me else d.opp }

  // If q's back card takes part in a showdown, it is the same in both positions.
  ghost predicate ShowsSame(d1: Duel, d2: Duel, qIsMe: bool) {
    SideOfQ(d1, qIsMe).bet.Front? || SideOfQ(d1, qIsMe).backCard == SideOfQ(d2, qIsMe).backCard
  }

  // ---- section by section --------------------------------------------------------------------

  lemma BetAlike(d1: Duel, d2: Duel, c: Command, qIsMe: bool)
    requires Alike(d1, d2, qIsMe)
    ensures Alike(BetChips(d1, c).0, BetChips(d2, c).0, qIsMe)
    ensures BetChips(d1, c).1 == BetChips(d2, c).1 && Decide(d1, c) == Decide(d2, c)
    ensures SideOfQ(BetChips(d1, c).0, qIsMe).backCard == SideOfQ(d1, qIsMe).backCard
    ensures SideOfQ(BetChips(d2, c).0, qIsMe).backCard == SideOfQ(d2, qIsMe).backCard
  {
  }

  lemma SettleAlike(d1: Duel, d2: Duel, r: RoundResult, qIsMe: bool)
    requires Alike(d1, d2, qIsMe)
    ensures Alike(SettleRound(d1, r), SettleRound(d2, r), qIsMe)
  {
    assert d1.Settling() == d2.Settling();
  }

  lemma FinishAlike(d1: Duel, d2: Duel, m: MatchResult, qIsMe: bool)
    requires Alike(d1, d2, qIsMe)
    ensures Alike(FinishGame(d1, m), FinishGame(d2, m), qIsMe)
    ensures Alike(NotifyTurnChanged(d1), NotifyTurnChanged(d2), qIsMe)
  {
  }

  lemma ResultAlike(d1: Duel, d2: Duel, r: RoundResult, kind: BetType, qIsMe: bool)
    requires Alike(d1, d2, qIsMe)
    ensures Alike(BroadcastRoundResult(d1, r, kind), BroadcastRoundResult(d2, r, kind), qIsMe)
  {
  }

  lemma DealAlike(d1: Duel, d2: Duel, x: Deal, y: Deal, qIsMe: bool)
    requires Alike(d1, d2, qIsMe) && DealsAlike(x, y, qIsMe)
    ensures Alike(UpdateCards(d1, x), UpdateCards(d2, y), qIsMe)
    ensures Alike(GiveBasicBetting(d1, x), GiveBasicBetting(d2, y), qIsMe)
  {
  }

  // The one place where q's back card could show: the opponent is told it, and it decides the round, only if
  // q is not on the front side.
  lemma ShowdownAlike(d1: Duel, d2: Duel, qIsMe: bool)
    requires Alike(d1, d2, qIsMe) && ShowsSame(d1, d2, qIsMe)
    ensures Alike(PrintCard(d1), PrintCard(d2), qIsMe)
    ensures Alike(CompareCard(d1).0, CompareCard(d2).0, qIsMe) && CompareCard(d1).1 == CompareCard(d2).1
  {
  }

  // ---- flow by flow --------------------------------------------------------------------------

  ghost predicate PlaysAlike(p1: Play, p2: Play, qIsMe: bool) {
    Alike(p1.duel, p2.duel, qIsMe) && p1.outcome == p2.outcome && p1.fault == p2.fault
  }

  lemma NextRoundAlike(d1: Duel, d2: Duel, r: RoundResult, x: Deal, y: Deal, qIsMe: bool)
    requires Alike(d1, d2, qIsMe) && DealsAlike(x, y, qIsMe)
    ensures PlaysAlike(PrepareNextRound(d1, r, x), PrepareNextRound(d2, r, y), qIsMe)
  {
    DealAlike(d1, d2, x, y, qIsMe);
    var e1 := if r.Draw? then UpdateCards(d1, x) else GiveBasicBetting(d1, x);
    var e2 := if r.Draw? then UpdateCards(d2, y) else GiveBasicBetting(d2, y);
    FinishAlike(e1, e2, EndCheck(e1), qIsMe);
    FinishAlike(Broadcast(e1, GameInit, ToAll), Broadcast(e2, GameInit, ToAll), EndCheck(e1), qIsMe);
  }

  lemma SettlementAlike(d1: Duel, d2: Duel, r: RoundResult, x: Deal, y: Deal, qIsMe: bool)
    requires Alike(d1, d2, qIsMe) && DealsAlike(x, y, qIsMe)
    ensures PlaysAlike(SettleAndGoOn(d1, r, x), SettleAndGoOn(d2, r, y), qIsMe)
  {
    SettleAlike(d1, d2, r, qIsMe);
    var s1, s2 := SettleRound(d1, r), SettleRound(d2, r);
    FinishAlike(s1, s2, EndCheck(s1), qIsMe);
    NextRoundAlike(s1, s2, r, x, y, qIsMe);
  }

  lemma RoundEndAlike(d1: Duel, d2: Duel, kind: BetType, x: Deal, y: Deal, qIsMe: bool)
    requires Alike(d1, d2, qIsMe) && DealsAlike(x, y, qIsMe)
    requires !kind.Die? ==> ShowsSame(d1, d2, qIsMe)
    ensures PlaysAlike(ProcessRoundEnd(d1, kind, x), ProcessRoundEnd(d2, kind, y), qIsMe)
  {
    hide SettleAndGoOn, BroadcastRoundResult;
    if kind.Die? {
      ResultAlike(d1, d2, Lose, kind, qIsMe);
      SettlementAlike(BroadcastRoundResult(d1, Lose, kind), BroadcastRoundResult(d2, Lose, kind), Lose, x, y, qIsMe);
    } else {
      var b1, b2 := Broadcast(d1, Battle, ToAll), Broadcast(d2, Battle, ToAll);
      ShowdownAlike(b1, b2, qIsMe);
      ShowdownAlike(PrintCard(b1), PrintCard(b2), qIsMe);
      var (c1, r) := CompareCard(PrintCard(b1));
      var (c2, _) := CompareCard(PrintCard(b2));
      ResultAlike(c1, c2, r, kind, qIsMe);
      SettlementAlike(BroadcastRoundResult(c1, r, kind), BroadcastRoundResult(c2, r, kind), r, x, y, qIsMe);
    }
  }

  // SPECIAL picks the larger card, so it hides q's back card exactly if the front card is at least as large.
  ghost predicate SpecialHides(d1: Duel, d2: Duel, qIsMe: bool) {
    var q1, q2 := SideOfQ(d1, qIsMe), SideOfQ(d2, qIsMe);
    q1.backCard == q2.backCard || (q1.backCard <= q1.frontCard && q2.backCard <= q2.frontCard)
  }

  // The condition under which a showdown caused by c does not use q's back card, or finds it equal.
  ghost predicate Hides(d1: Duel, d2: Duel, c: Command, qIsMe: bool) {
    if c.kind.Special? then SpecialHides(d1, d2, qIsMe)
    else ShowsSame(AtShowdown(d1, c), AtShowdown(d2, c), qIsMe)
  }

  lemma ActAlike(d1: Duel, d2: Duel, c: Command, x: Deal, y: Deal, qIsMe: bool)
    requires Alike(d1, d2, qIsMe) && DealsAlike(x, y, qIsMe)
    requires GoesToShowdown(d1, c) ==> Hides(d1, d2, c, qIsMe)
    ensures PlaysAlike(Act(d1, c, x), Act(d2, c, y), qIsMe)
  {
    if c.kind.Die? {
      RoundEndAlike(d1, d2, c.kind, x, y, qIsMe);
    } else if c.kind.Special? {
      RoundEndAlike(SpecialCase(d1), SpecialCase(d2), c.kind, x, y, qIsMe);
    } else {
      BetAlike(d1, d2, c, qIsMe);
      var (b1, r) := BetChips(d1, c);
      var (b2, _) := BetChips(d2, c);
      if r.Call? {
        RoundEndAlike(b1, b2, c.kind, x, y, qIsMe);
      } else {
        FinishAlike(b1, b2, Progress, qIsMe);
      }
    }
  }

  // ---- and exactly then ----------------------------------------------------------------------

  // What a reader hears right after the battle cry.
  ghost predicate HearsBack(before: seq<Msg>, after: seq<Msg>, shown: Side) {
    && |after| > |before| + 1
    && (after[|before| + 1].PrintBack? <==> shown.bet in {Back, Both})
    && (shown.bet in {Back, Both} ==> after[|before| + 1] == PrintBack(shown.backCard))
  }

  lemma HeardAfterBattle(before: seq<Msg>, after: seq<Msg>, reader: Side, shown: Side, result: Result)
    requires before + [Battle] + Showdown.Reveal(reader, shown) + [RoundMsg(result)] <= after
    ensures HearsBack(before, after, shown)
  {
    var all := before + [Battle] + Showdown.Reveal(reader, shown) + [RoundMsg(result)];
    assert after[|before| + 1] == all[|before| + 1];
  }

  lemma BattleNews(d: Duel, kind: BetType, deal: Deal)
    requires !kind.Die? && !CompareCard(d).1.RoundImpossible?
    ensures var p := ProcessRoundEnd(d, kind, deal).duel;
      HearsBack(d.me.log, p.me.log, d.opp) && HearsBack(d.opp.log, p.opp.log, d.me)
  {
    hide ProcessRoundEnd, HearsBack, Showdown.Reveal, ResultFor;
    Showdown.BattleIsHeard(d, kind, deal);
    var p := ProcessRoundEnd(d, kind, deal).duel;
    var (mine, theirs) := ResultFor(CompareCard(d).1, kind);
    HeardAfterBattle(d.me.log, p.me.log, d.me, d.opp, mine);
    HeardAfterBattle(d.opp.log, p.opp.log, d.opp, d.me, theirs);
  }

  function LogOfOther(d: Duel, qIsMe: bool): seq<Msg> { if qIsMe then d.opp.log else d.me.log }

  // SPECIAL is the only command that can take a back card its owner did not bet on into a showdown. It keeps
  // the card secret from the other player if and only if the condition above holds.
  lemma SpecialIsSecretIff(d1: Duel, d2: Duel, c: Command, x: Deal, y: Deal, qIsMe: bool)
    requires Alike(d1, d2, qIsMe) && DealsAlike(x, y, qIsMe) && c.kind.Special?
    ensures SpecialHides(d1, d2, qIsMe) <==>
              LogOfOther(Act(d1, c, x).duel, qIsMe) == LogOfOther(Act(d2, c, y).duel, qIsMe)
  {
    if SpecialHides(d1, d2, qIsMe) {
      ActAlike(d1, d2, c, x, y, qIsMe);
    } else {
      BattleNews(SpecialCase(d1), c.kind, x);
      BattleNews(SpecialCase(d2), c.kind, y);
      var q1, q2 := SideOfQ(SpecialCase(d1), qIsMe), SideOfQ(SpecialCase(d2), qIsMe);
      assert q1.bet.Back? || q2.bet.Back?;
    }
  }

  // So a player can lose a secret its bets never touched: right after the start of a match, the starting player
  // learns whether the other holds 2 or 3 behind its 1 by asking for SPECIAL.
  lemma SpecialCanTell(d: Duel, next: Deal)
    ensures
      var d1 := StartMatch(d, Deal(Card(5, 6), Card(1, 2)));
      var d2 := StartMatch(d, Deal(Card(5, 6), Card(1, 3)));
      && RoundInv(d1) && RoundInv(d2)
      && d1.me.log == d2.me.log
      && Act(d1, Command(Special, 0), next).duel.me.log != Act(d2, Command(Special, 0), next).duel.me.log
  {
    hide Act;
    var x, y := Deal(Card(5, 6), Card(1, 2)), Deal(Card(5, 6), Card(1, 3));
    StartEstablishesInvariant(d, x);
    StartEstablishesInvariant(d, y);
    StartAlike(d, d, x, y, false);
    SpecialIsSecretIff(StartMatch(d, x), StartMatch(d, y), Command(Special, 0), next, next, false);
  }

  lemma StartAlike(d1: Duel, d2: Duel, x: Deal, y: Deal, qIsMe: bool)
    requires Alike(d1, d2, qIsMe) && DealsAlike(x, y, qIsMe)
    ensures Alike(StartMatch(d1, x), StartMatch(d2, y), qIsMe)
  {
  }

  // ---- whole runs ----------------------------------------------------------------------------

  ghost predicate RoomsAlike(t1: Table, t2: Table, q: Socket) {
    && t1.sides.Keys == t2.sides.Keys
    && t1.dealer == t2.dealer && t1.phase == t2.phase && t1.faults == t2.faults
    && forall s :: s in t1.sides ==>
         if s == q then SameButBack(t1.sides[s], t2.sides[s]) else t1.sides[s] == t2.sides[s]
  }

  // The cards dealt in the two runs differ at most in q's back card.
  ghost predicate RoomDealsAlike(t: Table, s: Socket, x: Deal, y: Deal, q: Socket) {
    if q in t.sides then DealsAlike(x, y, s == q) else x == y
  }

  // The same operation in both rooms; if it comes to a showdown, q's back card is hidden or equal.
  ghost predicate SameOperation(t1: Table, t2: Table, e1: Event, e2: Event, q: Socket) {
    match (e1, e2)
    case (Start(s, x), Start(s', y)) => s == s' && RoomDealsAlike(t1, s, x, y, q)
    case (Bet(s, c, x), Bet(s', c', y)) =>
      && s == s' && c == c' && RoomDealsAlike(t1, s, x, y, q)
      && (t1.phase == Betting(s) && Seated(t1, s) && Seated(t2, s) && q in t1.sides
          && GoesToShowdown(DuelOf(t1, s), c) ==>
            Hides(DuelOf(t1, s), DuelOf(t2, s), c, s == q))
    case _ => e1 == e2 && !e1.Bet? && !e1.Start?
  }

  lemma DuelsAlike(t1: Table, t2: Table, s: Socket, q: Socket)
    requires RoomsAlike(t1, t2, q) && Seated(t1, s)
    ensures Seated(t2, s)
    ensures Alike(DuelOf(t1, s), DuelOf(t2, s), s == q)
    ensures q !in t1.sides ==> DuelOf(t1, s) == DuelOf(t2, s)
  {
  }

  lemma ReplacedAlike(t1: Table, t2: Table, s: Socket, q: Socket, d1: Duel, d2: Duel)
    requires RoomsAlike(t1, t2, q) && Seated(t1, s) && Seated(t2, s)
    requires if q in t1.sides then Alike(d1, d2, s == q) else d1 == d2
    ensures RoomsAlike(WithDuel(t1, s, d1), WithDuel(t2, s, d2), q)
  {
    var t1', t2' := WithDuel(t1, s, d1), WithDuel(t2, s, d2);
    assert DuelOf(t1', s) == d1 && DuelOf(t2', s) == d2;
    assert Rival(t1', s) == Rival(t2', s);
    assert t1'.sides.Keys == {s, Rival(t1', s)};
  }

  lemma StartStepAlike(t1: Table, t2: Table, s: Socket, x: Deal, y: Deal, q: Socket)
    requires RoomsAlike(t1, t2, q) && RoomDealsAlike(t1, s, x, y, q)
    ensures RoomsAlike(StartGame(t1, s, x), StartGame(t2, s, y), q)
  {
    hide StartMatch;
    if t1.phase.Waiting? && Seated(t1, s) {
      DuelsAlike(t1, t2, s, q);
      if q in t1.sides { StartAlike(DuelOf(t1, s), DuelOf(t2, s), x, y, s == q); }
      ReplacedAlike(t1, t2, s, q, StartMatch(DuelOf(t1, s), x), StartMatch(DuelOf(t2, s), y));
    }
  }

  lemma CommandStepAlike(t1: Table, t2: Table, s: Socket, c: Command, x: Deal, y: Deal, q: Socket)
    requires RoomsAlike(t1, t2, q) && Seated(t1, s) && Seated(t2, s) && RoomDealsAlike(t1, s, x, y, q)
    requires q in t1.sides && GoesToShowdown(DuelOf(t1, s), c) ==> Hides(DuelOf(t1, s), DuelOf(t2, s), c, s == q)
    ensures RoomsAlike(PlaceCommand(t1, s, c, x), PlaceCommand(t2, s, c, y), q)
  {
    hide Act, GoesToShowdown, Hides;
    DuelsAlike(t1, t2, s, q);
    var d1, d2 := DuelOf(t1, s), DuelOf(t2, s);
    if q in t1.sides { ActAlike(d1, d2, c, x, y, s == q); }
    ReplacedAlike(t1, t2, s, q, Act(d1, c, x).duel, Act(d2, c, y).duel);
  }

  lemma StepAlike(t1: Table, t2: Table, e1: Event, e2: Event, q: Socket)
    requires RoomsAlike(t1, t2, q) && SameOperation(t1, t2, e1, e2, q)
    ensures RoomsAlike(Step(t1, e1), Step(t2, e2), q)
  {
    hide PlaceCommand, StartGame, Hides, GoesToShowdown;
    match e1
    case Join(s) =>
      assert |t1.sides| == |t1.sides.Keys| && |t2.sides| == |t2.sides.Keys|;
    case Leave(s) =>
    case Start(s, x) => StartStepAlike(t1, t2, s, x, e2.deal, q);
    case Bet(s, c, x) =>
      if t1.phase == Betting(s) && s in t1.sides && Seated(t1, s) {
        DuelsAlike(t1, t2, s, q);
        CommandStepAlike(t1, t2, s, c, x, e2.deal, q);
      }
    case Other =>
  }

  ghost predicate SameOperations(t1: Table, t2: Table, es1: seq<Event>, es2: seq<Event>, q: Socket)
    decreases |es1|
  {
    && |es1| == |es2|
    && (es1 == [] ||
        (SameOperation(t1, t2, es1[0], es2[0], q)
         && SameOperations(Step(t1, es1[0]), Step(t2, es2[0]), es1[1..], es2[1..], q)))
  }

  lemma {:induction false} RunsAlike(t1: Table, t2: Table, es1: seq<Event>, es2: seq<Event>, q: Socket)
    requires RoomsAlike(t1, t2, q) && SameOperations(t1, t2, es1, es2, q)
    ensures RoomsAlike(Run(t1, es1), Run(t2, es2), q)
    decreases |es1|
  {
    if es1 != [] {
      StepAlike(t1, t2, es1[0], es2[0], q);
      RunsAlike(Step(t1, es1[0]), Step(t2, es2[0]), es1[1..], es2[1..], q);
    }
  }

  // Nobody but q can tell the two runs apart: every other member has received the same messages in the same
  // order, over dealing, betting, showdown, settlement and all later rounds.
  lemma UnshownBackCardIsSecret(t: Table, es1: seq<Event>, es2: seq<Event>, q: Socket)
    requires SameOperations(t, t, es1, es2, q)
    ensures Run(t, es1).sides.Keys == Run(t, es2).sides.Keys && Run(t, es1).phase == Run(t, es2).phase
    ensures forall s :: s in Run(t, es1).sides && s != q ==> Run(t, es1).sides[s].log == Run(t, es2).sides[s].log
  {
    RunsAlike(t, t, es1, es2, q);
  }

  // ---- interleaved threads, section by section -----------------------------------------------

  // Two interleaved rooms that nobody but q can tell apart, with the same thread inside at the same section. The
  // cards that thread will deal may differ.
  ghost predicate ConfigsAlike(c1: I.Config, c2: I.Config, q: Socket) {
    && RoomsAlike(c1.t, c2.t, q) && c1.ready == c2.ready
    && match (c1.holder, c2.holder)
       case (Free, Free) => true
       case (Busy(s, _, p), Busy(s', _, p')) => s == s' && p == p'
       case _ => false
  }

  // The same action; a request that may lead to a deal can come with other cards.
  ghost predicate SameAction(a1: I.Action, a2: I.Action) {
    match (a1, a2)
    case (Acquire(s, request, _), Acquire(s', request', _)) => s == s' && request == request'
    case _ => a1 == a2
  }

  // What keeps q's back card out of the next section: cards are dealt that differ at most in it, SPECIAL and a
  // showdown do not use it or find it equal.
  ghost predicate SectionHides(d1: Duel, d2: Duel, x: Deal, y: Deal, p: I.Point, qIsMe: bool) {
    match p
    case Cards(_) => DealsAlike(x, y, qIsMe)
    case PickSpecial => SpecialHides(d1, d2, qIsMe)
    case Print(_) => ShowsSame(d1, d2, qIsMe)
    case Compare(_) => ShowsSame(d1, d2, qIsMe)
    case _ => true
  }

  ghost predicate NextHides(c1: I.Config, c2: I.Config, q: Socket) {
    c1.holder.Busy? && c2.holder.Busy? && Seated(c1.t, c1.holder.s) && Seated(c2.t, c1.holder.s) ==>
      var s := c1.holder.s;
      if q in c1.t.sides then
        SectionHides(DuelOf(c1.t, s), DuelOf(c2.t, s), c1.holder.deal, c2.holder.deal, c1.holder.at, s == q)
      else c1.holder.at.Cards? ==> c1.holder.deal == c2.holder.deal
  }

  lemma SectionAlike(d1: Duel, d2: Duel, x: Deal, y: Deal, p: I.Point, qIsMe: bool)
    requires !I.Undecided(p) && Alike(d1, d2, qIsMe) && SectionHides(d1, d2, x, y, p, qIsMe)
    ensures var a1, a2 := I.At(d1, x, p), I.At(d2, y, p);
      Alike(a1.duel, a2.duel, qIsMe) && a1.turn == a2.turn && a1.fault == a2.fault && a1.next == a2.next
  {
    hide BetChips, CompareCard, PrintCard, SettleRound, UpdateCards, CollectBasicBet, Decide, ResultFor;
    match p
    case Chip(c) => BetAlike(d1, d2, c, qIsMe);
    case Print(_) => ShowdownAlike(d1, d2, qIsMe);
    case Compare(_) => ShowdownAlike(d1, d2, qIsMe);
    case Settle(r) => SettleAlike(d1, d2, r, qIsMe);
    case Cards(_) => DealAlike(d1, d2, x, y, qIsMe);
    case Collect(_) => AnteAlike(d1, d2, qIsMe);
    case _ =>
  }

  lemma AnteAlike(d1: Duel, d2: Duel, qIsMe: bool)
    requires Alike(d1, d2, qIsMe)
    ensures Alike(CollectBasicBet(d1, 1), CollectBasicBet(d2, 1), qIsMe) && CanCollect(d1, 1) == CanCollect(d2, 1)
  {
  }

  lemma FlowAlike(t1: Table, t2: Table, s: Socket, q: Socket, f1: I.Flow, f2: I.Flow)
    requires RoomsAlike(t1, t2, q) && Seated(t1, s) && Seated(t2, s)
    requires if q in t1.sides then Alike(f1.duel, f2.duel, s == q) else f1.duel == f2.duel
    requires f1.turn == f2.turn && f1.faults == f2.faults
    ensures RoomsAlike(I.AfterFlow(t1, s, f1), I.AfterFlow(t2, s, f2), q)
  {
    hide WithDuel, Opponent;
    ReplacedAlike(t1, t2, s, q, f1.duel, f2.duel);
  }

  lemma ChecksAlike(d1: Duel, d2: Duel, p: I.Point, qIsMe: bool)
    requires Alike(d1, d2, qIsMe)
    ensures I.ClearsReady(d1, p) == I.ClearsReady(d2, p)
  {
  }

  lemma RunSectionAlike(c1: I.Config, c2: I.Config, q: Socket)
    requires ConfigsAlike(c1, c2, q) && NextHides(c1, c2, q)
    requires c1.holder.Busy? && !I.Undecided(c1.holder.at)
    requires Seated(c1.t, c1.holder.s) && Seated(c2.t, c2.holder.s)
    ensures ConfigsAlike(I.RunSection(c1), I.RunSection(c2), q)
  {
    hide I.At, SectionHides, I.AfterFlow, I.ClearsReady, Alike, RoomsAlike, Seated, Opponent;
    var s, p := c1.holder.s, c1.holder.at;
    var x, y := c1.holder.deal, c2.holder.deal;
    var d1, d2 := DuelOf(c1.t, s), DuelOf(c2.t, s);
    DuelsAlike(c1.t, c2.t, s, q);
    if q in c1.t.sides {
      SectionAlike(d1, d2, x, y, p, s == q);
    } else {
      OnlyTheDealCanDiffer(d1, x, y, p);
    }
    var a1, a2 := I.At(d1, x, p), I.At(d2, y, p);
    var f1 := I.Flow(a1.duel, a1.turn, if a1.fault then 1 else 0);
    FlowAlike(c1.t, c2.t, s, q, f1, I.Flow(a2.duel, a2.turn, if a2.fault then 1 else 0));
    ChecksAlike(d1, d2, p, s == q);
  }

  lemma OnlyTheDealCanDiffer(d: Duel, x: Deal, y: Deal, p: I.Point)
    requires !I.Undecided(p) && (p.Cards? ==> x == y)
    ensures I.At(d, x, p) == I.At(d, y, p)
  {
    hide BetChips, CompareCard, PrintCard, SettleRound, UpdateCards, CollectBasicBet, Decide, ResultFor, Broadcast;
  }

  lemma NextAlike(c1: I.Config, c2: I.Config, a1: I.Action, a2: I.Action, q: Socket)
    requires ConfigsAlike(c1, c2, q) && SameAction(a1, a2)
    requires a1.Advance? ==> NextHides(c1, c2, q)
    ensures ConfigsAlike(I.Next(c1, a1), I.Next(c2, a2), q)
  {
    hide I.RunSection, NextHides;
    if a1.Advance? && c1.holder.Busy? {
      AdvanceAlike(c1, c2, q);
    } else if a1.AddUser? {
      StepAlike(c1.t, c2.t, Join(a1.s), Join(a1.s), q);
    }
  }

  lemma RemoveAlike(c1: I.Config, c2: I.Config, q: Socket)
    requires ConfigsAlike(c1, c2, q) && c1.holder.Busy? && c1.holder.at.Remove?
    ensures ConfigsAlike(I.AdvanceHolder(c1), I.AdvanceHolder(c2), q)
  {
    hide LeaveRoom, RoomsAlike;
    StepAlike(c1.t, c2.t, Leave(c1.holder.s), Leave(c1.holder.s), q);
  }

  lemma CheckReadyAlike(c1: I.Config, c2: I.Config, q: Socket)
    requires ConfigsAlike(c1, c2, q) && c1.holder.Busy? && (c1.holder.at.CheckReady? || c1.holder.at.TellNotReady?)
    ensures ConfigsAlike(I.AdvanceHolder(c1), I.AdvanceHolder(c2), q)
  {
    assert |c1.t.sides| == |c1.t.sides.Keys| && |c2.t.sides| == |c2.t.sides.Keys|;
  }

  // A thread that finds no second player gives up in both.
  lemma AloneAlike(c1: I.Config, c2: I.Config, q: Socket)
    requires ConfigsAlike(c1, c2, q) && c1.holder.Busy? && !I.Undecided(c1.holder.at)
    requires !Seated(c1.t, c1.holder.s) || (c1.holder.at.PassTurn? && !c1.t.phase.Betting?)
    ensures ConfigsAlike(I.AdvanceHolder(c1), I.AdvanceHolder(c2), q)
  {
    hide I.RunSection;
    assert Seated(c1.t, c1.holder.s) <==> Seated(c2.t, c1.holder.s);
  }

  lemma AdvanceAlike(c1: I.Config, c2: I.Config, q: Socket)
    requires ConfigsAlike(c1, c2, q) && c1.holder.Busy? && NextHides(c1, c2, q)
    ensures ConfigsAlike(I.AdvanceHolder(c1), I.AdvanceHolder(c2), q)
  {
    hide I.RunSection, I.AdvanceHolder, NextHides, LeaveRoom, Opponent;
    var s, p := c1.holder.s, c1.holder.at;
    if p.Remove? {
      RemoveAlike(c1, c2, q);
    } else if I.Undecided(p) {
      CheckReadyAlike(c1, c2, q);
    } else if !Seated(c1.t, s) || (p.PassTurn? && !c1.t.phase.Betting?) {
      AloneAlike(c1, c2, q);
    } else {
      DuelsAlike(c1.t, c2.t, s, q);
      RunSectionAlike(c1, c2, q);
      SectionIsRun(c1);
      SectionIsRun(c2);
    }
  }

  lemma SectionIsRun(c: I.Config)
    requires c.holder.Busy? && !I.Undecided(c.holder.at) && Seated(c.t, c.holder.s)
    requires c.holder.at.PassTurn? ==> c.t.phase.Betting?
    ensures I.AdvanceHolder(c) == I.RunSection(c)
  {
    hide I.RunSection;
  }

  // The two executions take the same actions, and no section on the way makes use of q's back card where the two
  // differ in it.
  ghost predicate SameExecution(c1: I.Config, c2: I.Config, as1: seq<I.Action>, as2: seq<I.Action>, q: Socket)
    decreases |as1|
  {
    && |as1| == |as2|
    && (as1 == [] ||
        (&& SameAction(as1[0], as2[0])
         && (as1[0].Advance? ==> NextHides(c1, c2, q))
         && SameExecution(I.Next(c1, as1[0]), I.Next(c2, as2[0]), as1[1..], as2[1..], q)))
  }

  lemma {:induction false} ExecutionsAlike(c1: I.Config, c2: I.Config, as1: seq<I.Action>, as2: seq<I.Action>,
                                           q: Socket)
    requires ConfigsAlike(c1, c2, q) && SameExecution(c1, c2, as1, as2, q)
    ensures ConfigsAlike(I.RunOf(c1, as1), I.RunOf(c2, as2), q)
    decreases |as1|
  {
    hide I.Next, ConfigsAlike, SameAction, NextHides;
    if as1 != [] {
      NextAlike(c1, c2, as1[0], as2[0], q);
      ExecutionsAlike(I.Next(c1, as1[0]), I.Next(c2, as2[0]), as1[1..], as2[1..], q);
    }
  }

  // However the threads interleave, and at every moment, also in the middle of an operation: everybody but q has
  // received the same messages in the same order in both executions.
  lemma InterleavedRunsKeepTheSecret(as1: seq<I.Action>, as2: seq<I.Action>, q: Socket)
    requires SameExecution(I.EMPTY_CONFIG, I.EMPTY_CONFIG, as1, as2, q)
    ensures var t1, t2 := I.RunOf(I.EMPTY_CONFIG, as1).t, I.RunOf(I.EMPTY_CONFIG, as2).t;
      && t1.sides.Keys == t2.sides.Keys && t1.phase == t2.phase
      && forall s :: s in t1.sides && s != q ==> t1.sides[s].log == t2.sides[s].log
  {
    hide I.RunOf;
    ExecutionsAlike(I.EMPTY_CONFIG, I.EMPTY_CONFIG, as1, as2, q);
  }
}
