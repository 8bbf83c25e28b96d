/** Rooms over whole runs, continued from Table: what a join, an exit, a start and a refused bet do to the members,
    whose cards they hold, and what their screens show of the round. */
module Match {
  import opened Foundation
  import opened Sections
  import opened GameFlow
  import opened RoundInvariant
  import opened Screens
  import opened Showdown
  import opened Table
  import Deck
  import I = Interleaving

  // ---- members and the start of a match ------------------------------------------------------

  // A join seats the client exactly if there is a free seat and it is not a member yet. It then has no chips, bets
  // and cards, and nobody else notices.
  lemma JoinSeats(t: Table, s: Socket)
    ensures var t' := Step(t, Join(s));
      if |t.sides| < 2 && s !in t.sides then
        && t'.sides.Keys == t.sides.Keys + {s}
        && t'.sides[s] == Side(0, 0, 0, 0, 0, Unset, [])
        && (forall x :: x in t.sides ==> t'.sides[x] == t.sides[x])
        && t'.dealer == t.dealer && t'.phase == t.phase && t'.faults == t.faults
      else t' == t
  {
  }

  // An exit removes the member; whoever stays starts over with 30 chips and hears of a match that is cut short.
  lemma LeaveUnseats(t: Table, s: Socket)
    ensures var t' := Step(t, Leave(s));
      if s in t.sides then
        && t'.sides.Keys == t.sides.Keys - {s}
        && (forall x :: x in t'.sides ==>
              t'.sides[x] == Side(30, 0, 0, 0, 0, Unset,
                                  if t.phase.Betting? then t.sides[x].log + [GameAborted] else t.sides[x].log))
        && t'.dealer == 0 && t'.phase.Waiting? && t'.faults == t.faults
      else t' == t
  {
    if s in t.sides {
      forall x | x in Step(t, Leave(s)).sides
        ensures Step(t, Leave(s)).sides[x].log ==
          if t.phase.Betting? then t.sides[x].log + [GameAborted] else t.sides[x].log
      {
        assert t.sides[x].log + [] == t.sides[x].log;
      }
    }
  }

  // A bet without a match, or from outside, does nothing; a bet out of turn is refused, and that is all.
  lemma OnlyTheTurnHolderBets(t: Table, s: Socket, c: Command, deal: Deal)
    ensures var t' := Step(t, Bet(s, c, deal));
      && (t.phase.Waiting? || s !in t.sides ==> t' == t)
      && (t.phase.Betting? && s in t.sides && t.phase.turn != s ==>
            && t'.sides.Keys == t.sides.Keys
            && t'.sides[s] == t.sides[s].(log := t.sides[s].log + [BettingRefused])
            && (forall x :: x in t.sides && x != s ==> t'.sides[x] == t.sides[x])
            && t'.dealer == t.dealer && t'.phase == t.phase && t'.faults == t.faults)
  {
  }

  // A start of a member takes effect exactly if no match is on and somebody else is there; the starter begins.
  lemma StartBeginsMatch(t: Table, s: Socket, deal: Deal)
    ensures var t' := Step(t, Start(s, deal));
      if t.phase.Waiting? && |t.sides.Keys| == 2 && s in t.sides then
        && t'.sides.Keys == t.sides.Keys && t'.phase == Betting(s) && t'.faults == t.faults
        && Seated(t', s) && DuelOf(t', s) == StartMatch(DuelOf(t, s), deal)
      else t' == t
  {
    if t.phase.Waiting? && Seated(t, s) {
      var t1 := WithDuel(t, s, StartMatch(DuelOf(t, s), deal));
      assert DuelOf(Step(t, Start(s, deal)), s) == DuelOf(t1, s);
    }
  }

  // Two clients can come and play: there are runs with a match in them.
  lemma TwoCanPlay(a: Socket, b: Socket, deal: Deal)
    requires a != b
    ensures var t := Run(EMPTY_TABLE, [Join(a), Join(b), Start(a, deal)]);
      && t.sides.Keys == {a, b} && t.phase == Betting(a) && Seated(t, a)
      && RoundInv(DuelOf(t, a)) && HoldsDeal(DuelOf(t, a), deal)
  {
    hide Step, StartMatch;
    var es := [Join(a), Join(b), Start(a, deal)];
    var t1 := Step(EMPTY_TABLE, Join(a));
    var t2 := Step(t1, Join(b));
    JoinSeats(EMPTY_TABLE, a);
    assert t1.sides.Keys == {a} && |t1.sides| == |t1.sides.Keys|;
    JoinSeats(t1, b);
    assert t2.sides.Keys == {a, b};
    StartBeginsMatch(t2, a, deal);
    StartEstablishesInvariant(DuelOf(t2, a), deal);
    StartShows(Pair(BLANK, BLANK), DuelOf(t2, a), deal);
    assert es[1..] == [Join(b), Start(a, deal)] && es[1..][1..] == [Start(a, deal)] && es[1..][1..][1..] == [];
    assert Run(EMPTY_TABLE, es) == Run(t1, es[1..]) == Run(t2, es[1..][1..]) == Run(Step(t2, Start(a, deal)), []);
  }

  const BLANK := Screen(0, 0, 0, false, NO_BETS, NO_BETS, [])

  // ---- the cards that are held ---------------------------------------------------------------

  // The last deal: the player whose operation led to it, who holds the first card, and both cards.
  datatype Dealing = Dealing(to: Socket, deal: Deal)

  // The deal an operation makes, if it makes one.
  ghost function DealBy(t: Table, e: Event): Option<Dealing> {
    match e
    case Start(s, deal) => if t.phase.Waiting? && Seated(t, s) then Some(Dealing(s, deal)) else None
    case Bet(s, c, deal) =>
      if t.phase == Betting(s) && Seated(t, s) && Deals(Act(DuelOf(t, s), c, deal).outcome) then Some(Dealing(s, deal))
      else None
    case _ => None
  }

  // Every round that is over leads to new cards, unless the match ends before.
  predicate Deals(o: Outcome) { o.RoundOver? && !o.end.EndsAtSettlement? }

  // The cards a command with this outcome takes from the deck.
  function Drawn(o: Outcome, deal: Deal): seq<Card> {
    if Deals(o) then [deal.mine, deal.theirs] else []
  }

  // The cards an operation takes from the deck.
  ghost function DrawnBy(t: Table, e: Event): seq<Card> {
    match DealBy(t, e)
    case None => []
    case Some(d) => [d.deal.mine, d.deal.theirs]
  }

  function LastTwo(dealt: seq<Card>): Deal
    requires |dealt| >= 2
  {
    Deal(dealt[|dealt| - 2], dealt[|dealt| - 1])
  }

  // While a match is on, the two players hold the last two cards that were dealt, which are two different ones.
  ghost predicate HandsFrom(t: Table, dealt: seq<Card>) {
    t.phase.Betting? ==>
      && |dealt| >= 2 && Deck.IsDeal(LastTwo(dealt))
      && exists s :: Seated(t, s) && HoldsDeal(DuelOf(t, s), LastTwo(dealt))
  }

  lemma HandsFollow(t: Table, e: Event, dealt: seq<Card>)
    requires TableInv(t) && HandsFrom(t, dealt)
    requires DealBy(t, e).Some? ==> Deck.IsDeal(DealBy(t, e).value.deal)
    ensures HandsFrom(Step(t, e), dealt + DrawnBy(t, e))
  {
    hide Step, TableInv, HoldsDeal, DealBy, Seated;
    var t', all := Step(t, e), dealt + DrawnBy(t, e);
    var last := if t.phase.Betting? then HolderOf(t, dealt) else None;
    StepHolds(t, e, last);
    if t'.phase.Betting? {
      var now := if DealBy(t, e).Some? then DealBy(t, e) else last;
      assert LastTwo(all) == now.value.deal;
      assert HoldsDeal(DuelOf(t', now.value.to), LastTwo(all));
    }
  }

  ghost function HolderOf(t: Table, dealt: seq<Card>): (last: Option<Dealing>)
    requires t.phase.Betting? && HandsFrom(t, dealt)
    ensures last.Some? && last.value.deal == LastTwo(dealt) && HandsAre(t, last)
  {
    var s :| Seated(t, s) && HoldsDeal(DuelOf(t, s), LastTwo(dealt));
    Some(Dealing(s, LastTwo(dealt)))
  }

  ghost function LastDeal(t: Table, es: seq<Event>, last: Option<Dealing>): Option<Dealing>
    decreases |es|
  {
    if es == [] then last
    else LastDeal(Step(t, es[0]), es[1..], if DealBy(t, es[0]).Some? then DealBy(t, es[0]) else last)
  }

  // While a match is on, both players hold their cards of the last deal.
  ghost predicate HandsAre(t: Table, last: Option<Dealing>) {
    t.phase.Betting? ==>
      last.Some? && Seated(t, last.value.to) && HoldsDeal(DuelOf(t, last.value.to), last.value.deal)
  }

  lemma OtherChair(t: Table, s: Socket)
    requires Seated(t, s)
    ensures Seated(t, Rival(t, s)) && Rival(t, Rival(t, s)) == s
    ensures DuelOf(t, Rival(t, s)) == DuelOf(t, s).Swap()
  {
    OpponentIsMutual(t.sides.Keys, s);
  }

  // The members hold the same cards as before.
  ghost predicate CardsKept(t: Table, t': Table) {
    && t'.sides.Keys == t.sides.Keys
    && forall s :: s in t.sides ==>
         t'.sides[s].frontCard == t.sides[s].frontCard && t'.sides[s].backCard == t.sides[s].backCard
  }

  lemma KeptCardsAreHeld(t: Table, t': Table, last: Option<Dealing>)
    requires t.phase.Betting? && HandsAre(t, last) && CardsKept(t, t')
    ensures HandsAre(t', last)
  {
    var s := last.value.to;
    assert Rival(t', s) == Rival(t, s) && Rival(t, s) in t.sides.Keys;
  }

  // What a command that is carried out does to the table.
  lemma CommandOnTable(t: Table, s: Socket, c: Command, deal: Deal)
    requires t.phase == Betting(s) && Seated(t, s)
    ensures var t', p := Step(t, Bet(s, c, deal)), Act(DuelOf(t, s), c, deal);
      && t'.sides.Keys == t.sides.Keys && Seated(t', s) && Rival(t', s) == Rival(t, s) && DuelOf(t', s) == p.duel
      && t'.phase == PhaseAfter(p.outcome, s, Rival(t, s))
  {
    hide Act;
    var p := Act(DuelOf(t, s), c, deal);
    var t1 := WithDuel(t, s, p.duel);
    var t' := Step(t, Bet(s, c, deal));
    assert t'.sides == t1.sides && t'.dealer == t1.dealer;
    assert DuelOf(t', s) == DuelOf(t1, s);
  }

  // ---- the screens of both clients -----------------------------------------------------------

  // What both clients show, seen from the chair of s, if each member x started from start(x).
  ghost function ScreensOf(t: Table, s: Socket, start: Socket -> Screen): Pair
    requires Seated(t, s)
  {
    On(Pair(start(s), start(Rival(t, s))), DuelOf(t, s))
  }

  // While a match is on, both clients show their cards, the other's front card, the bets and the turn as they are.
  ghost predicate ScreensShow(t: Table, start: Socket -> Screen) {
    t.phase.Betting? && Seated(t, t.phase.turn) ==> Exact(ScreensOf(t, t.phase.turn, start), DuelOf(t, t.phase.turn))
  }

  lemma CommandKeepsScreens(t: Table, s: Socket, c: Command, deal: Deal, start: Socket -> Screen)
    requires TableInv(t) && t.phase == Betting(s) && ScreensShow(t, start)
    ensures ScreensShow(Step(t, Bet(s, c, deal)), start)
  {
    hide Act, RoundInv, Step, Shown, Exact;
    var d, o, t' := DuelOf(t, s), Rival(t, s), Step(t, Bet(s, c, deal));
    var p, v := Act(d, c, deal), Pair(start(s), start(o));
    CommandOnTable(t, s, c, deal);
    ActKeepsInvariant(d, c, deal);
    ActShows(v, d, c, deal);
    OtherChair(t', s);
    SwapShows(v, p.duel);
  }

  lemma CommandHolds(t: Table, s: Socket, c: Command, deal: Deal, last: Option<Dealing>)
    requires TableInv(t) && t.phase == Betting(s) && HandsAre(t, last)
    ensures var e := Bet(s, c, deal); HandsAre(Step(t, e), if DealBy(t, e).Some? then DealBy(t, e) else last)
  {
    hide Act, RoundInv, Step, HoldsDeal;
    var t', p := Step(t, Bet(s, c, deal)), Act(DuelOf(t, s), c, deal);
    CommandOnTable(t, s, c, deal);
    ActKeepsInvariant(DuelOf(t, s), c, deal);
    ActDeals(DuelOf(t, s), c, deal);
    if !Deals(p.outcome) && t'.phase.Betting? {
      SameCardsKept(t, t', s);
      KeptCardsAreHeld(t, t', last);
    }
  }

  lemma SwapShows(v: Pair, d: Duel)
    ensures On(v.Swap(), d.Swap()) == On(v, d).Swap()
  {
  }

  lemma SameCardsKept(t: Table, t': Table, s: Socket)
    requires Seated(t, s) && Seated(t', s) && t'.sides.Keys == t.sides.Keys
    requires SameCards(DuelOf(t, s), DuelOf(t', s))
    ensures CardsKept(t, t')
  {
    assert t.sides.Keys == {s, Rival(t, s)};
  }

  lemma RefusalKeepsScreens(t: Table, s: Socket, c: Command, deal: Deal, start: Socket -> Screen)
    requires TableInv(t) && t.phase.Betting? && s in t.sides && t.phase.turn != s && ScreensShow(t, start)
    ensures ScreensShow(Step(t, Bet(s, c, deal)), start)
  {
    hide RoundInv, Shown, Exact;
    var h := t.phase.turn;
    RefusalKeepsTable(t, s);
    var v := Pair(start(h), start(Rival(t, h)));
    BlankSayShows(v, DuelOf(t, h), [], [BettingRefused]);
    SayKeepsExact(On(v, DuelOf(t, h)), DuelOf(t, h), [], [BettingRefused]);
  }

  lemma StartDeals(t: Table, s: Socket, deal: Deal, start: Socket -> Screen)
    requires t.phase.Waiting? && Seated(t, s)
    ensures var t' := Step(t, Start(s, deal));
      HandsAre(t', Some(Dealing(s, deal))) && ScreensShow(t', start)
  {
    hide StartMatch, Step, Shown, Exact;
    StartBeginsMatch(t, s, deal);
    StartShows(Pair(start(s), start(Rival(t, s))), DuelOf(t, s), deal);
  }

  lemma StepShows(t: Table, e: Event, start: Socket -> Screen)
    requires TableInv(t) && ScreensShow(t, start)
    ensures ScreensShow(Step(t, e), start)
  {
    hide Act, RoundInv, StartMatch, Shown, Exact;
    match e
    case Join(s) =>
      if t.phase.Betting? { assert Step(t, e) == t; }
    case Leave(s) =>
    case Start(s, deal) =>
      if t.phase.Waiting? && Seated(t, s) { StartDeals(t, s, deal, start); }
    case Bet(s, c, deal) =>
      if t.phase.Betting? && s in t.sides {
        if t.phase.turn != s {
          RefusalKeepsScreens(t, s, c, deal, start);
        } else {
          CommandKeepsScreens(t, s, c, deal, start);
        }
      }
    case Other =>
  }

  lemma StepHolds(t: Table, e: Event, last: Option<Dealing>)
    requires TableInv(t) && HandsAre(t, last)
    ensures HandsAre(Step(t, e), if DealBy(t, e).Some? then DealBy(t, e) else last)
  {
    hide Act, RoundInv, StartMatch, HoldsDeal;
    match e
    case Join(s) =>
      if t.phase.Betting? { assert Step(t, e) == t; }
    case Leave(s) =>
    case Start(s, deal) =>
      if t.phase.Waiting? && Seated(t, s) { StartDeals(t, s, deal, _ => BLANK); }
    case Bet(s, c, deal) =>
      if t.phase.Betting? && s in t.sides {
        if t.phase.turn != s {
          RefusalKeepsTable(t, s);
          KeptCardsAreHeld(t, Step(t, e), last);
        } else {
          CommandHolds(t, s, c, deal, last);
        }
      }
    case Other =>
  }

  // In every run, whenever a match is on: both players hold their cards of the last deal, and whatever their clients
  // showed at first, they show those cards as far as each may see them, the bets, and whose turn it is.
  lemma {:induction false} RunKeepsHands(t: Table, es: seq<Event>, last: Option<Dealing>, start: Socket -> Screen)
    requires TableInv(t) && HandsAre(t, last) && ScreensShow(t, start)
    ensures HandsAre(Run(t, es), LastDeal(t, es, last)) && ScreensShow(Run(t, es), start)
    decreases |es|
  {
    hide Step, TableInv, HandsAre, ScreensShow, DealBy;
    if es != [] {
      StepKeepsTable(t, es[0]);
      StepHolds(t, es[0], last);
      StepShows(t, es[0], start);
      RunKeepsHands(Step(t, es[0]), es[1..], if DealBy(t, es[0]).Some? then DealBy(t, es[0]) else last, start);
    }
  }

  // The same for threads in any interleaving, whenever gameMutex is free.
  lemma FreeRoomShows(actions: seq<I.Action>, start: Socket -> Screen)
    requires I.RunOf(I.EMPTY_CONFIG, actions).holder.Free?
    ensures var t, es := I.RunOf(I.EMPTY_CONFIG, actions).t, I.Operations(I.EMPTY_CONFIG, actions);
      HandsAre(t, LastDeal(EMPTY_TABLE, es, None)) && ScreensShow(t, start)
  {
    hide Run, HandsAre, ScreensShow, LastDeal, I.RunOf, I.Operations;
    I.InterleavedRunsAreSerial(I.EMPTY_CONFIG, actions);
    NothingYet(start);
    RunKeepsHands(EMPTY_TABLE, I.Operations(I.EMPTY_CONFIG, actions), None, start);
  }

  lemma NothingYet(start: Socket -> Screen)
    ensures HandsAre(EMPTY_TABLE, None) && ScreensShow(EMPTY_TABLE, start)
  {
  }

  // ---- the ready rule, and threads that get to play ------------------------------------------

  // A member of a full room sets its own flag, and nothing else; nobody else can.
  lemma OwnFlagOnly(c: I.Config, s: Socket, ready: bool)
    ensures var c' := I.Next(c, I.SetReady(s, ready));
      && c'.t == c.t && c'.holder == c.holder
      && c'.ready == if |c.t.sides.Keys| == 2 && s in c.t.sides then c.ready[s := ready] else c.ready
  {
  }

  // The ready check lets a match begin exactly if the room is full and both flags are set; then it is the asking
  // player's turn. Otherwise nothing happens but the answer.
  lemma BothMustBeReady(c: I.Config)
    requires I.ConfigInv(c) && c.holder.Busy? && c.holder.at.CheckReady?
    ensures var s, c' := c.holder.s, I.AdvanceHolder(c);
      if |c.t.sides.Keys| == 2 && forall x :: x in c.t.sides ==> c.ready[x] then
        c'.t == c.t.(phase := Betting(s)) && c'.holder == I.Busy(s, c.holder.deal, I.TellDone)
      else
        c'.t == c.t && c'.holder == I.Busy(s, c.holder.deal, I.TellNotReady)
  {
    hide RoundInv, TableInv, I.Finish;
    assert |c.t.sides| == |c.t.sides.Keys|;
  }

  lemma RunOfTwo(c: I.Config, x: I.Action, y: I.Action)
    ensures I.RunOf(c, [x, y]) == I.Next(I.Next(c, x), y)
  {
    hide I.Next;
    assert [x, y][1..] == [y] && [y][1..] == [];
    assert I.RunOf(I.Next(c, x), [y]) == I.RunOf(I.Next(I.Next(c, x), y), []);
  }

  // A bet of a member that finds gameMutex free takes effect with that: once its sections are through, it is done.
  lemma BetGetsIn(c: I.Config, s: Socket, bet: Command, deal: Deal)
    requires I.ConfigInv(c) && c.holder.Free? && s in c.t.sides
    ensures var c' := I.Next(c, I.Acquire(s, I.BetRequest(bet), deal));
      I.ConfigInv(c') && I.Settled(c') == Step(c.t, Bet(s, bet, deal))
  {
    hide I.Next, Step, I.ConfigInv;
    I.EveryActionIsAtomic(c, I.Acquire(s, I.BetRequest(bet), deal));
  }

  // So does an exit with its one section, after which nobody is ready.
  lemma ExitGetsIn(c: I.Config, s: Socket, deal: Deal)
    requires I.ConfigInv(c) && c.holder.Free? && s in c.t.sides
    ensures var c' := I.RunOf(c, [I.Acquire(s, I.ExitRequest, deal), I.Advance]);
      && c'.holder.Free? && c'.t == Step(c.t, Leave(s))
      && c'.ready.Keys == c.ready.Keys - {s} && forall x :: x in c'.ready ==> !c'.ready[x]
  {
    hide I.RunOf, RoundInv, TableInv;
    RunOfTwo(c, I.Acquire(s, I.ExitRequest, deal), I.Advance);
  }

  lemma AdvanceGoesTo(c: I.Config, p: I.Point, next: Option<I.Point>)
    requires I.ConfigInv(c) && c.holder.Busy? && c.holder.at == p && !I.Undecided(p)
    requires forall d: Duel :: I.At(d, c.holder.deal, p).next == next
    ensures var c' := I.Next(c, I.Advance);
      && I.ConfigInv(c') && I.Settled(c') == I.Settled(c)
      && c'.holder == match next case None => I.Free case Some(q) => I.Busy(c.holder.s, c.holder.deal, q)
  {
    hide I.At, I.AfterFlow, I.Settled, RoundInv, TableInv;
    I.EveryActionIsAtomic(c, I.Advance);
    I.RunsItsSection(c);
    I.SectionIsInvisible(c);
  }

  // The sections of a game start from the moment it takes effect.
  const OPENING := [I.Advance, I.Advance, I.Advance, I.Advance, I.Advance, I.Advance, I.Advance, I.Advance]

  lemma TwoSections(c: I.Config, p: I.Point, q: I.Point, next: Option<I.Point>)
    requires I.ConfigInv(c) && c.holder.Busy? && c.holder.at == p && !I.Undecided(p) && !I.Undecided(q)
    requires forall d: Duel :: I.At(d, c.holder.deal, p).next == Some(q)
    requires forall d: Duel :: I.At(d, c.holder.deal, q).next == next
    ensures var c' := I.RunOf(c, [I.Advance, I.Advance]);
      && I.ConfigInv(c') && I.Settled(c') == I.Settled(c)
      && c'.holder == match next case None => I.Free case Some(r) => I.Busy(c.holder.s, c.holder.deal, r)
  {
    hide I.Next, I.ConfigInv, I.At, I.Settled, I.RunOf;
    var c1 := I.Next(c, I.Advance);
    AdvanceGoesTo(c, p, Some(q));
    AdvanceGoesTo(c1, q, next);
    RunOfTwo(c, I.Advance, I.Advance);
  }

  lemma OpeningRunsThrough(c: I.Config)
    requires I.ConfigInv(c) && c.holder.Busy? && c.holder.at.TellDone?
    ensures I.RunOf(c, OPENING).holder.Free? && I.Settled(I.RunOf(c, OPENING)) == I.Settled(c)
  {
    hide I.Next, I.ConfigInv, I.Settled, I.RunOf;
    var two := [I.Advance, I.Advance];
    var c2 := I.RunOf(c, two);
    TwoSections(c, I.TellDone, I.Reset, Some(I.TellInit));
    var c4 := I.RunOf(c2, two);
    TwoSections(c2, I.TellInit, I.TellMyTurn, Some(I.TellOtherTurn));
    var c6 := I.RunOf(c4, two);
    TwoSections(c4, I.TellOtherTurn, I.BasicMsg(I.First), Some(I.Collect(I.First)));
    TwoSections(c6, I.Collect(I.First), I.Cards(I.First), None);
    assert OPENING == two + (two + (two + two));
    I.RunOfConcat(c, two, two + (two + two));
    I.RunOfConcat(c2, two, two + two);
    I.RunOfConcat(c4, two, two);
  }

  // Two clients join and say that they are ready.
  function Seating(a: Socket, b: Socket): seq<I.Action> {
    [I.AddUser(a), I.AddUser(b), I.SetReady(a, true), I.SetReady(b, true)]
  }

  lemma SeatingRuns(a: Socket, b: Socket)
    requires a != b
    ensures var c := I.RunOf(I.EMPTY_CONFIG, Seating(a, b));
      && I.ConfigInv(c) && c.holder.Free? && c.t.phase.Waiting? && c.t.sides.Keys == {a, b}
      && c.ready == map[a := true, b := true]
  {
    hide I.ConfigInv, I.Next, I.RunOf;
    I.InterleavedRunsAreSerial(I.EMPTY_CONFIG, Seating(a, b)) by { EmptyIsFine(); }
    var c1 := I.Next(I.EMPTY_CONFIG, I.AddUser(a));
    var c2 := I.Next(c1, I.AddUser(b));
    RunOfTwo(I.EMPTY_CONFIG, I.AddUser(a), I.AddUser(b));
    UserIsAdded(I.EMPTY_CONFIG, a);
    UserIsAdded(c1, b);
    assert c1.t.sides.Keys == {a} && c2.t.sides.Keys == {a, b};
    RunOfTwo(c2, I.SetReady(a, true), I.SetReady(b, true));
    OwnFlagOnly(c2, a, true);
    OwnFlagOnly(I.Next(c2, I.SetReady(a, true)), b, true);
    assert Seating(a, b) == [I.AddUser(a), I.AddUser(b)] + [I.SetReady(a, true), I.SetReady(b, true)];
    I.RunOfConcat(I.EMPTY_CONFIG, [I.AddUser(a), I.AddUser(b)], [I.SetReady(a, true), I.SetReady(b, true)]);
  }

  lemma EmptyIsFine()
    ensures I.ConfigInv(I.EMPTY_CONFIG)
  {
  }

  lemma UserIsAdded(c: I.Config, s: Socket)
    requires |c.t.sides.Keys| < 2 && s !in c.t.sides
    ensures var c' := I.Next(c, I.AddUser(s));
      && c'.t.sides.Keys == c.t.sides.Keys + {s} && c'.t.phase == c.t.phase
      && c'.ready == c.ready[s := false] && c'.holder == c.holder
  {
    assert |c.t.sides| == |c.t.sides.Keys|;
    JoinSeats(c.t, s);
  }

  // Interleaved runs with a match in them exist, too.
  lemma TwoThreadsCanPlay(a: Socket, b: Socket, deal: Deal)
    requires a != b
    ensures var asked := [I.Acquire(a, I.StartRequest, deal), I.Advance];
      var c := I.RunOf(I.EMPTY_CONFIG, Seating(a, b) + (asked + OPENING));
      && c.holder.Free? && c.t.sides.Keys == {a, b} && c.t.phase == Betting(a) && Seated(c.t, a)
      && RoundInv(DuelOf(c.t, a)) && HoldsDeal(DuelOf(c.t, a), deal)
  {
    hide I.ConfigInv, I.RunOf, RoundInv;
    var asked := [I.Acquire(a, I.StartRequest, deal), I.Advance];
    SeatingRuns(a, b);
    var c4 := I.RunOf(I.EMPTY_CONFIG, Seating(a, b));
    StartTakesEffect(c4, a, b, deal);
    var c6 := I.RunOf(c4, asked);
    OpeningRunsThrough(c6);
    I.RunOfConcat(I.EMPTY_CONFIG, Seating(a, b), asked + OPENING);
    I.RunOfConcat(c4, asked, OPENING);
  }

  lemma StartTakesEffect(c: I.Config, a: Socket, b: Socket, deal: Deal)
    requires I.ConfigInv(c) && c.holder.Free? && c.t.phase.Waiting? && c.t.sides.Keys == {a, b} && a != b
    requires c.ready == map[a := true, b := true]
    ensures var c' := I.RunOf(c, [I.Acquire(a, I.StartRequest, deal), I.Advance]);
      var t := I.Settled(c');
      && I.ConfigInv(c') && c'.holder == I.Busy(a, deal, I.TellDone)
      && t.sides.Keys == {a, b} && t.phase == Betting(a) && Seated(t, a)
      && RoundInv(DuelOf(t, a)) && HoldsDeal(DuelOf(t, a), deal)
  {
    hide I.Settled, I.ConfigInv, I.Next, StartMatch, RoundInv, Step;
    var asked := I.Acquire(a, I.StartRequest, deal);
    var c1 := I.Next(c, asked);
    var c2 := I.Next(c1, I.Advance);
    I.EveryActionIsAtomic(c, asked);
    I.EveryActionIsAtomic(c1, I.Advance);
    AskedAndChecked(c, a, b, deal);
    OtherIsNothing(I.Settled(c));
    StartBeginsMatch(c.t, a, deal);
    StartEstablishesInvariant(DuelOf(c.t, a), deal);
    StartShows(Pair(BLANK, BLANK), DuelOf(c.t, a), deal);
    RunOfTwo(c, asked, I.Advance);
  }

  lemma OtherIsNothing(t: Table)
    ensures Step(t, Other) == t
  {
  }

  lemma AskedAndChecked(c: I.Config, a: Socket, b: Socket, deal: Deal)
    requires I.ConfigInv(c) && c.holder.Free? && c.t.phase.Waiting? && c.t.sides.Keys == {a, b} && a != b
    requires c.ready == map[a := true, b := true]
    ensures I.Settled(c) == c.t
    ensures var asked := I.Acquire(a, I.StartRequest, deal);
      var c1 := I.Next(c, asked);
      && I.Effective(c, asked) == Other && I.Effective(c1, I.Advance) == Start(a, deal)
      && I.Next(c1, I.Advance).holder == I.Busy(a, deal, I.TellDone)
  {
    hide RoundInv, TableInv;
    assert |c.t.sides| == |c.t.sides.Keys| == 2;
  }
}
