/** Game events cut into the critical sections they consist of. The thread that holds gameMutex runs one
    roomMutex section at a time; between any two of them other threads may add users, change ready flags or
    query the room. Every such interleaved run behaves like a run of complete operations. */
module Interleaving {
  import opened Foundation
  import opened Sections
  import opened GameFlow
  import opened RoundInvariant
  import SettlementRules
  import opened Views
  import opened Table

  // ---- the sections of a game event ----------------------------------------------------------

  // Is the ante the first of a match, or does a check for its end follow?
  datatype Ante = First | Further(result: RoundResult)

  // The section the holder of gameMutex enters next.
  datatype Point =
    // handlePlayerExit
    | Remove
    // Handle_Game_Start
    | CheckReady | TellNotReady
    | TellDone | Reset | TellInit | TellMyTurn | TellOtherTurn
    // a betting command
    | Refuse
    | Chip(c: Command) | PickSpecial
    | Clash(kind: BetType) | Print(kind: BetType) | Compare(kind: BetType)
    | ResultMine(r: RoundResult, kind: BetType) | ResultTheirs(r: RoundResult, kind: BetType) | ResultAll
    | Settle(r: RoundResult) | CheckAfterSettle(r: RoundResult)
    | BasicMsg(ante: Ante) | Collect(ante: Ante) | Cards(ante: Ante) | CheckAfterDeal(r: RoundResult)
    | FinalMine(m: MatchResult) | FinalTheirs(m: MatchResult)
    | PassTurn(afterRound: bool) | InitAll | TurnMine | TurnTheirs

  // The points before which the operation has had no effect and needs no second player.
  predicate Undecided(p: Point) { p.Remove? || p.CheckReady? || p.TellNotReady? }

  datatype TurnChange = Keep | Pass | End

  // The effect of one section, and where the holder goes from there.
  datatype After = After(duel: Duel, turn: TurnChange, fault: bool, next: Option<Point>)

  function Go(d: Duel, p: Point): After { After(d, Keep, false, Some(p)) }

  function Done(d: Duel): After { After(d, Keep, false, None) }

  function ResultPoint(r: RoundResult, kind: BetType): Point {
    if r.Draw? then ResultAll else ResultMine(r, kind)
  }

  function At(d: Duel, deal: Deal, p: Point): After
    requires !Undecided(p)
  {
    match p
    case TellDone => Go(Broadcast(d, StartDone, ToAll), Reset)
    case Reset => Go(ResetAllUsers(d), TellInit)
    case TellInit => Go(Broadcast(d, GameInit, ToAll), TellMyTurn)
    case TellMyTurn => Go(Broadcast(d, Turn(true), ToSelf), TellOtherTurn)
    case TellOtherTurn => Go(Broadcast(d, Turn(false), ToOthers), BasicMsg(First))
    case Refuse => Done(Broadcast(d, BettingRefused, ToSelf))
    case Chip(c) =>
      var (bet, r) := BetChips(d, c);
      if r.Raise? then Go(bet, PassTurn(false))
      else if r.Call? then Go(bet, Clash(c.kind))
      else After(bet, Keep, !Decide(d, c).result.BetImpossible?, None)
    case PickSpecial => Go(SpecialCase(d), Clash(Special))
    case Clash(kind) => Go(Broadcast(d, Battle, ToAll), Print(kind))
    case Print(kind) => Go(PrintCard(d), Compare(kind))
    case Compare(kind) =>
      var (compared, r) := CompareCard(d);
      if r.RoundImpossible? then After(compared, Keep, true, None) else Go(compared, ResultPoint(r, kind))
    case ResultMine(r, kind) => Go(Broadcast(d, RoundMsg(ResultFor(r, kind).0), ToSelf), ResultTheirs(r, kind))
    case ResultTheirs(r, kind) => Go(Broadcast(d, RoundMsg(ResultFor(r, kind).1), ToOthers), Settle(r))
    case ResultAll => Go(Broadcast(d, RoundMsg(SaysDraw), ToAll), Settle(Draw))
    case Settle(r) => Go(SettleRound(d, r), CheckAfterSettle(r))
    case CheckAfterSettle(r) =>
      var m := if r.Draw? then Progress else EndCheck(d);
      Go(d, if IsFinal(m) then FinalMine(m) else if r.Draw? then Cards(Further(r)) else BasicMsg(Further(r)))
    case BasicMsg(ante) => Go(Broadcast(d, BasicBetting, ToAll), Collect(ante))
    case Collect(ante) => After(CollectBasicBet(d, 1), Keep, !CanCollect(d, 1), Some(Cards(ante)))
    case Cards(ante) =>
      if ante.First? then Done(UpdateCards(d, deal)) else Go(UpdateCards(d, deal), CheckAfterDeal(ante.result))
    case CheckAfterDeal(r) => Go(d, if IsFinal(EndCheck(d)) then FinalMine(EndCheck(d)) else PassTurn(true))
    case FinalMine(m) => Go(Broadcast(d, FinalMsg(m.FinalWin?), ToSelf), FinalTheirs(m))
    case FinalTheirs(m) => After(Broadcast(d, FinalMsg(m.FinalLose?), ToOthers), End, false, None)
    case PassTurn(afterRound) => After(d, Pass, false, Some(if afterRound then InitAll else TurnMine))
    case InitAll => Go(Broadcast(d, GameInit, ToAll), TurnMine)
    case TurnMine => Go(Broadcast(d, Turn(false), ToSelf), TurnTheirs)
    case TurnTheirs => Done(Broadcast(d, Turn(true), ToOthers))
  }

  // Sections still to come at most.
  function Rank(p: Point): nat {
    match p
    case TellDone => 30 case Reset => 29 case TellInit => 28 case TellMyTurn => 27 case TellOtherTurn => 26
    case Chip(_) => 25 case PickSpecial => 25
    case Clash(_) => 24 case Print(_) => 23 case Compare(_) => 22
    case ResultMine(_, _) => 21 case ResultTheirs(_, _) => 20 case ResultAll => 20
    case Settle(_) => 19 case CheckAfterSettle(_) => 18
    case BasicMsg(_) => 17 case Collect(_) => 16 case Cards(_) => 15 case CheckAfterDeal(_) => 14
    case PassTurn(_) => 13 case InitAll => 12 case TurnMine => 11 case TurnTheirs => 10
    case FinalMine(_) => 2 case FinalTheirs(_) => 1
    case _ => 0
  }

  lemma SectionsRunOut(d: Duel, deal: Deal, p: Point)
    requires !Undecided(p)
    ensures var q := At(d, deal, p).next; q.Some? ==> !Undecided(q.value) && Rank(q.value) < Rank(p)
  {
    hide Broadcast, ResetAllUsers, BetChips, SpecialCase, PrintCard, CompareCard, SettleRound, EndCheck;
    hide UpdateCards, CollectBasicBet, ResultFor, CanCollect, Decide;
  }

  // ---- running an operation to its end -------------------------------------------------------

  datatype Flow = Flow(duel: Duel, turn: TurnChange, faults: nat)

  // The rest of the operation if nobody interferes any more.
  function Finish(d: Duel, deal: Deal, p: Point): Flow
    requires !Undecided(p)
    decreases Rank(p)
  {
    SectionsRunOut(d, deal, p);
    hide At;
    var a := At(d, deal, p);
    var fault := if a.fault then 1 else 0;
    match a.next
    case None => Flow(a.duel, a.turn, fault)
    case Some(q) =>
      var f := Finish(a.duel, deal, q);
      Flow(f.duel, if f.turn.Keep? then a.turn else f.turn, f.faults + fault)
  }

  function FirstPoint(c: Command): Point {
    if c.kind.Die? then ResultMine(Lose, c.kind) else if c.kind.Special? then PickSpecial else Chip(c)
  }

  function AsFlow(p: Play): Flow {
    Flow(p.duel,
         match p.outcome
         case Raised => Pass
         case RoundOver(_, end) => if end.Continues? then Pass else End
         case _ => Keep,
         if p.fault then 1 else 0)
  }

  // One section, then the rest.
  lemma Unfold(d: Duel, deal: Deal, p: Point)
    requires !Undecided(p)
    ensures var a := At(d, deal, p);
      match a.next
      case None => Finish(d, deal, p) == Flow(a.duel, a.turn, if a.fault then 1 else 0)
      case Some(q) =>
        && !Undecided(q)
        && var f := Finish(a.duel, deal, q);
           Finish(d, deal, p) ==
             Flow(f.duel, if f.turn.Keep? then a.turn else f.turn, f.faults + if a.fault then 1 else 0)
  {
    SectionsRunOut(d, deal, p);
    hide At;
  }

  lemma TurnNewsFinishes(d: Duel, deal: Deal)
    ensures Finish(d, deal, TurnMine) == Flow(NotifyTurnChanged(d), Keep, 0)
  {
    hide Finish, Broadcast, ResetAllUsers, BetChips, SpecialCase, PrintCard, CompareCard, SettleRound;
    hide EndCheck, UpdateCards, CollectBasicBet, ResultFor, CanCollect, Decide;
    Unfold(d, deal, TurnMine);
    Unfold(Broadcast(d, Turn(false), ToSelf), deal, TurnTheirs);
  }

  lemma FinalNewsFinishes(d: Duel, deal: Deal, m: MatchResult)
    ensures Finish(d, deal, FinalMine(m)) == Flow(FinishGame(d, m), End, 0)
  {
    hide Finish, Broadcast, ResetAllUsers, BetChips, SpecialCase, PrintCard, CompareCard, SettleRound;
    hide EndCheck, UpdateCards, CollectBasicBet, ResultFor, CanCollect, Decide;
    Unfold(d, deal, FinalMine(m));
    Unfold(Broadcast(d, FinalMsg(m.FinalWin?), ToSelf), deal, FinalTheirs(m));
  }

  lemma PassFinishes(d: Duel, deal: Deal)
    ensures Finish(d, deal, PassTurn(true)) == Flow(NotifyTurnChanged(Broadcast(d, GameInit, ToAll)), Pass, 0)
    ensures Finish(d, deal, PassTurn(false)) == Flow(NotifyTurnChanged(d), Pass, 0)
  {
    hide Finish, Broadcast, ResetAllUsers, BetChips, SpecialCase, PrintCard, CompareCard, SettleRound;
    hide EndCheck, UpdateCards, CollectBasicBet, ResultFor, CanCollect, Decide, NotifyTurnChanged;
    Unfold(d, deal, PassTurn(false));
    TurnNewsFinishes(d, deal);
    Unfold(d, deal, PassTurn(true));
    Unfold(d, deal, InitAll);
    TurnNewsFinishes(Broadcast(d, GameInit, ToAll), deal);
  }

  // The check after the deal, and what follows it.
  lemma CheckFinishes(d: Duel, deal: Deal, r: RoundResult)
    ensures Finish(d, deal, CheckAfterDeal(r)) ==
      if IsFinal(EndCheck(d)) then Flow(FinishGame(d, EndCheck(d)), End, 0)
      else Flow(NotifyTurnChanged(Broadcast(d, GameInit, ToAll)), Pass, 0)
  {
    hide Finish, Broadcast, ResetAllUsers, BetChips, SpecialCase, PrintCard, CompareCard, SettleRound;
    hide EndCheck, UpdateCards, CollectBasicBet, ResultFor, CanCollect, Decide, NotifyTurnChanged;
    hide FinishGame;
    Unfold(d, deal, CheckAfterDeal(r));
    FinalNewsFinishes(d, deal, EndCheck(d));
    PassFinishes(d, deal);
  }

  lemma NextRoundFinishes(d: Duel, deal: Deal, r: RoundResult)
    ensures Finish(d, deal, if r.Draw? then Cards(Further(r)) else BasicMsg(Further(r)))
              == AsFlow(PrepareNextRound(d, r, deal))
  {
    hide Finish, Broadcast, ResetAllUsers, BetChips, SpecialCase, PrintCard, CompareCard, SettleRound;
    hide EndCheck, UpdateCards, CollectBasicBet, ResultFor, CanCollect, Decide, NotifyTurnChanged;
    hide FinishGame;
    var d1 := Broadcast(d, BasicBetting, ToAll);
    NewsKeepsChips(d, BasicBetting);
    var d2 := if r.Draw? then d else CollectBasicBet(d1, 1);
    CheckFinishes(UpdateCards(d2, deal), deal, r);
    Unfold(d2, deal, Cards(Further(r)));
    if !r.Draw? {
      Unfold(d1, deal, Collect(Further(r)));
      Unfold(d, deal, BasicMsg(Further(r)));
    }
  }

  lemma SettlementFinishes(d: Duel, deal: Deal, r: RoundResult)
    ensures Finish(d, deal, Settle(r)) == AsFlow(SettleAndGoOn(d, r, deal))
  {
    hide Finish, Broadcast, ResetAllUsers, BetChips, SpecialCase, PrintCard, CompareCard, SettleRound;
    hide EndCheck, UpdateCards, CollectBasicBet, ResultFor, CanCollect, Decide, FinishGame;
    hide PrepareNextRound;
    var settled := SettleRound(d, r);
    FinalNewsFinishes(settled, deal, if r.Draw? then Progress else EndCheck(settled));
    NextRoundFinishes(settled, deal, r);
    Unfold(d, deal, Settle(r));
    Unfold(settled, deal, CheckAfterSettle(r));
  }

  lemma ResultFinishes(d: Duel, deal: Deal, r: RoundResult, kind: BetType)
    requires !r.RoundImpossible?
    ensures Finish(d, deal, ResultPoint(r, kind)) == AsFlow(SettleAndGoOn(BroadcastRoundResult(d, r, kind), r, deal))
  {
    hide Finish, Broadcast, ResetAllUsers, BetChips, SpecialCase, PrintCard, CompareCard, SettleRound;
    hide EndCheck, UpdateCards, CollectBasicBet, ResultFor, CanCollect, Decide, SettleAndGoOn;
    SettlementFinishes(BroadcastRoundResult(d, r, kind), deal, r);
    Unfold(d, deal, ResultPoint(r, kind));
    if !r.Draw? {
      Unfold(Broadcast(d, RoundMsg(ResultFor(r, kind).0), ToSelf), deal, ResultTheirs(r, kind));
    }
  }

  lemma ClashFinishes(d: Duel, deal: Deal, kind: BetType)
    requires !kind.Die?
    ensures Finish(d, deal, Clash(kind)) == AsFlow(ProcessRoundEnd(d, kind, deal))
  {
    hide Finish, Broadcast, ResetAllUsers, BetChips, SpecialCase, PrintCard, CompareCard, SettleRound;
    hide EndCheck, UpdateCards, CollectBasicBet, ResultFor, CanCollect, Decide, BroadcastRoundResult;
    hide SettleAndGoOn, ResultPoint;
    var d1 := Broadcast(d, Battle, ToAll);
    var d2 := PrintCard(d1);
    var (d3, r) := CompareCard(d2);
    if !r.RoundImpossible? {
      ResultFinishes(d3, deal, r, kind);
    }
    Unfold(d, deal, Clash(kind));
    Unfold(d1, deal, Print(kind));
    Unfold(d2, deal, Compare(kind));
  }

  // Section by section and undisturbed, a betting command does exactly what Act says.
  lemma CommandFinishes(d: Duel, deal: Deal, c: Command)
    ensures Finish(d, deal, FirstPoint(c)) == AsFlow(Act(d, c, deal))
  {
    if c.kind.Die? {
      ResultFinishes(d, deal, Lose, c.kind);
    } else {
      BetFinishes(d, deal, c);
    }
  }

  lemma BetFinishes(d: Duel, deal: Deal, c: Command)
    requires !c.kind.Die?
    ensures Finish(d, deal, FirstPoint(c)) == AsFlow(Act(d, c, deal))
  {
    hide Finish, Broadcast, ResetAllUsers, BetChips, SpecialCase, PrintCard, CompareCard, SettleRound;
    hide EndCheck, UpdateCards, CollectBasicBet, ResultFor, CanCollect, Decide, NotifyTurnChanged;
    hide ProcessRoundEnd;
    var bet := if c.kind.Special? then SpecialCase(d) else BetChips(d, c).0;
    Unfold(d, deal, FirstPoint(c));
    PassFinishes(bet, deal);
    ClashFinishes(bet, deal, c.kind);
  }

  lemma NewsKeepsChips(d: Duel, m: Msg)
    ensures CanCollect(Broadcast(d, m, ToAll), 1) <==> CanCollect(d, 1)
  {
  }

  // After the reset both players can pay the ante.
  lemma FirstAnteIsCovered(d: Duel)
    ensures var d1 := Broadcast(Broadcast(ResetAllUsers(d), GameInit, ToAll), Turn(true), ToSelf);
      CanCollect(Broadcast(Broadcast(d1, Turn(false), ToOthers), BasicBetting, ToAll), 1)
  {
  }

  lemma StartFinishes(d: Duel, deal: Deal)
    ensures Finish(d, deal, TellDone) == Flow(StartMatch(d, deal), Keep, 0)
  {
    hide Finish, Broadcast, ResetAllUsers, BetChips, SpecialCase, PrintCard, CompareCard, SettleRound;
    hide EndCheck, UpdateCards, CollectBasicBet, ResultFor, CanCollect, Decide, GiveBasicBetting;
    var d1 := Broadcast(d, StartDone, ToAll);
    var d2 := ResetAllUsers(d1);
    var d3 := Broadcast(d2, GameInit, ToAll);
    var d4 := Broadcast(d3, Turn(true), ToSelf);
    var d5 := Broadcast(d4, Turn(false), ToOthers);
    FirstAnteIsCovered(d1);
    Unfold(d, deal, TellDone);
    Unfold(d1, deal, Reset);
    Unfold(d2, deal, TellInit);
    Unfold(d3, deal, TellMyTurn);
    Unfold(d4, deal, TellOtherTurn);
    FirstAnteFinishes(d5, deal);
  }

  lemma FirstAnteFinishes(d: Duel, deal: Deal)
    requires CanCollect(Broadcast(d, BasicBetting, ToAll), 1)
    ensures Finish(d, deal, BasicMsg(First)) == Flow(GiveBasicBetting(d, deal), Keep, 0)
  {
    hide Finish, Broadcast, ResetAllUsers, BetChips, SpecialCase, PrintCard, CompareCard, SettleRound;
    hide EndCheck, UpdateCards, CollectBasicBet, ResultFor, CanCollect, Decide;
    var d1 := Broadcast(d, BasicBetting, ToAll);
    Unfold(d, deal, BasicMsg(First));
    Unfold(d1, deal, Collect(First));
    Unfold(CollectBasicBet(d1, 1), deal, Cards(First));
  }

  // ---- the interleaved room ------------------------------------------------------------------

  datatype Holder = Free | Busy(s: Socket, deal: Deal, at: Point)

  datatype Config = Config(t: Table, ready: map<Socket, bool>, holder: Holder)

  datatype Request = StartRequest | BetRequest(c: Command) | ExitRequest

  datatype Action =
    | AddUser(s: Socket)                               // roomMutex only
    | SetReady(s: Socket, ready: bool)                 // roomMutex only
    | Query                                            // userUpdate, chat, room counts: roomMutex only
    | Acquire(s: Socket, request: Request, deal: Deal) // a member's event gets gameMutex
    | Advance                                          // the holder runs its next section

  function NextPhase(phase: Phase, turn: TurnChange, rival: Socket): Phase {
    match turn
    case Keep => phase
    case Pass => Betting(rival)
    case End => Waiting
  }

  ghost function AfterFlow(t: Table, s: Socket, f: Flow): Table
    requires Seated(t, s)
  {
    WithDuel(t, s, f.duel).(phase := NextPhase(t.phase, f.turn, Rival(t, s)), faults := t.faults + f.faults)
  }

  function FirstOf(t: Table, s: Socket, request: Request): Option<Point> {
    match request
    case ExitRequest => Some(Remove)
    case StartRequest => if t.phase.Waiting? then Some(CheckReady) else None
    case BetRequest(c) =>
      if t.phase.Waiting? then None else if t.phase.turn != s then Some(Refuse) else Some(FirstPoint(c))
  }

  predicate AllReady(c: Config) {
    |c.t.sides| == 2 && forall s :: s in c.ready ==> c.ready[s]
  }

  function NobodyReady(ready: map<Socket, bool>): map<Socket, bool> {
    map s | s in ready :: false
  }

  // endCheck also takes back the ready flags when somebody is out of chips.
  predicate ClearsReady(d: Duel, p: Point) {
    (p.CheckAfterSettle? || p.CheckAfterDeal?) && IsFinal(EndCheck(d))
  }

  // One section of an operation under way, between two players.
  ghost function RunSection(c: Config): Config
    requires c.holder.Busy? && !Undecided(c.holder.at) && Seated(c.t, c.holder.s)
  {
    var s, deal, p := c.holder.s, c.holder.deal, c.holder.at;
    var d := DuelOf(c.t, s);
    var a := At(d, deal, p);
    Config(AfterFlow(c.t, s, Flow(a.duel, a.turn, if a.fault then 1 else 0)),
           if ClearsReady(d, p) then NobodyReady(c.ready) else c.ready,
           match a.next case None => Free case Some(q) => Busy(s, deal, q))
  }

  ghost function AdvanceHolder(c: Config): Config
    requires c.holder.Busy?
  {
    var s, deal, p := c.holder.s, c.holder.deal, c.holder.at;
    match p
    case Remove =>
      Config(LeaveRoom(c.t, s), NobodyReady(map x | x in c.ready && x != s :: c.ready[x]), Free)
    case CheckReady =>
      if AllReady(c) && Seated(c.t, s) then c.(t := c.t.(phase := Betting(s)), holder := Busy(s, deal, TellDone))
      else c.(holder := Busy(s, deal, TellNotReady))
    case TellNotReady => c.(holder := Free)
    case PassTurn(_) =>
      // passTurnToOpponent resets the game if there is no opponent or no match to pass the turn of
      if !Seated(c.t, s) || !c.t.phase.Betting? then
        c.(t := c.t.(phase := Waiting, faults := c.t.faults + 1), holder := Free)
      else RunSection(c)
    case _ => if !Seated(c.t, s) then c.(t := c.t.(faults := c.t.faults + 1), holder := Free) else RunSection(c)
  }

  ghost function Next(c: Config, a: Action): Config {
    match a
    case AddUser(s) =>
      if JoinRoom(c.t, s) == c.t then c else c.(t := JoinRoom(c.t, s), ready := c.ready[s := false])
    case SetReady(s, b) => if Seated(c.t, s) then c.(ready := c.ready[s := b]) else c
    case Query => c
    case Acquire(s, request, deal) =>
      if !c.holder.Free? || s !in c.t.sides then c
      else (match FirstOf(c.t, s, request) case None => c case Some(p) => c.(holder := Busy(s, deal, p)))
    case Advance => if c.holder.Free? then c else AdvanceHolder(c)
  }

  const EMPTY_CONFIG := Config(EMPTY_TABLE, map[], Free)

  // ---- what an interleaved room stands for ---------------------------------------------------

  // The room as it will be once the operation under way, if it has taken effect, is through.
  ghost function Settled(c: Config): Table {
    match c.holder
    case Free => c.t
    case Busy(s, deal, p) =>
      if Undecided(p) || !Seated(c.t, s) then c.t else AfterFlow(c.t, s, Finish(DuelOf(c.t, s), deal, p))
  }

  // The complete operation, if any, that takes effect with this action.
  ghost function Effective(c: Config, a: Action): Event {
    match a
    case AddUser(s) => Join(s)
    case Acquire(s, request, deal) =>
      if c.holder.Free? && s in c.t.sides && request.BetRequest? then Bet(s, request.c, deal) else Other
    case Advance =>
      if !c.holder.Busy? then Other
      else if c.holder.at.Remove? then Leave(c.holder.s)
      else if c.holder.at.CheckReady? && AllReady(c) then Start(c.holder.s, c.holder.deal)
      else Other
    case _ => Other
  }

  // A holder is a member; once its operation has taken effect it has a rival and a match is on; and it starts a
  // game only from Waiting.
  ghost predicate HolderOk(c: Config) {
    c.holder.Busy? ==>
      && c.holder.s in c.t.sides
      && (!Undecided(c.holder.at) ==> Seated(c.t, c.holder.s) && c.t.phase.Betting?)
      && (c.holder.at.CheckReady? ==> c.t.phase.Waiting?)
  }

  ghost predicate ConfigInv(c: Config) {
    && HolderOk(c)
    && TableInv(Settled(c))
    && c.ready.Keys == c.t.sides.Keys
  }

  lemma FlowKeepsSeats(t: Table, s: Socket, f: Flow)
    requires Seated(t, s)
    ensures AfterFlow(t, s, f).sides.Keys == t.sides.Keys && Seated(AfterFlow(t, s, f), s)
    ensures DuelOf(AfterFlow(t, s, f), s) == f.duel && Rival(AfterFlow(t, s, f), s) == Rival(t, s)
  {
    var t1 := WithDuel(t, s, f.duel);
    assert AfterFlow(t, s, f).sides == t1.sides;
    assert DuelOf(t1, s) == f.duel;
  }

  lemma FlowTwice(t: Table, s: Socket, f: Flow, g: Flow)
    requires Seated(t, s)
    ensures Seated(AfterFlow(t, s, f), s)
    ensures AfterFlow(AfterFlow(t, s, f), s, g)
      == AfterFlow(t, s, Flow(g.duel, if g.turn.Keep? then f.turn else g.turn, g.faults + f.faults))
  {
    FlowKeepsSeats(t, s, f);
  }

  // An own section of the holder does not change what the room stands for, once the operation took effect.
  lemma AdvanceIsInvisible(c: Config)
    requires HolderOk(c) && c.holder.Busy? && !Undecided(c.holder.at)
    ensures Settled(AdvanceHolder(c)) == Settled(c) && HolderOk(AdvanceHolder(c))
    ensures AdvanceHolder(c).t.sides.Keys == c.t.sides.Keys && AdvanceHolder(c).ready.Keys == c.ready.Keys
  {
    hide Settled, HolderOk, Seated, RunSection;
    RunsItsSection(c);
    SectionIsInvisible(c);
  }

  // The two branches of passTurnToOpponent that reset the game are never taken, nor is any section run alone.
  lemma RunsItsSection(c: Config)
    requires HolderOk(c) && c.holder.Busy? && !Undecided(c.holder.at)
    ensures Seated(c.t, c.holder.s) && c.holder.s in c.t.sides && c.t.phase.Betting?
    ensures AdvanceHolder(c) == RunSection(c)
  {
    hide RunSection, Seated, LeaveRoom;
  }

  lemma SectionIsInvisible(c: Config)
    requires c.holder.Busy? && !Undecided(c.holder.at) && Seated(c.t, c.holder.s) && c.t.phase.Betting?
    requires c.holder.s in c.t.sides
    ensures Settled(RunSection(c)) == Settled(c) && HolderOk(RunSection(c))
    ensures RunSection(c).t.sides.Keys == c.t.sides.Keys && RunSection(c).ready.Keys == c.ready.Keys
  {
    hide At, Finish, AfterFlow, Seated;
    var s, deal, p := c.holder.s, c.holder.deal, c.holder.at;
    var d := DuelOf(c.t, s);
    var a := At(d, deal, p);
    var f := Flow(a.duel, a.turn, if a.fault then 1 else 0);
    FlowKeepsSeats(c.t, s, f);
    Unfold(d, deal, p);
    if a.next.Some? {
      FlowTwice(c.t, s, f, Finish(a.duel, deal, a.next.value));
      MatchGoesOn(d, deal, p);
      PhaseAfterFlow(c.t, s, f);
    }
  }

  // Only the last section of an operation ends a match.
  lemma MatchGoesOn(d: Duel, deal: Deal, p: Point)
    requires !Undecided(p) && At(d, deal, p).next.Some?
    ensures !At(d, deal, p).turn.End?
  {
    hide Broadcast, ResetAllUsers, BetChips, SpecialCase, PrintCard, CompareCard, SettleRound, EndCheck;
    hide UpdateCards, CollectBasicBet, ResultFor, CanCollect, Decide;
  }

  lemma PhaseAfterFlow(t: Table, s: Socket, f: Flow)
    requires Seated(t, s) && t.phase.Betting? && !f.turn.End?
    ensures AfterFlow(t, s, f).phase.Betting?
  {
  }

  lemma CommandIsAtomic(t: Table, s: Socket, c: Command, deal: Deal)
    requires TableInv(t) && t.phase.Betting? && s in t.sides
    ensures Seated(t, s)
    ensures var p := FirstOf(t, s, BetRequest(c)).value;
      AfterFlow(t, s, Finish(DuelOf(t, s), deal, p)) == BetInRoom(t, s, c, deal)
  {
    hide Act, RoundInv;
    if t.phase.turn == s {
      CommandFinishes(DuelOf(t, s), deal, c);
      var p := Act(DuelOf(t, s), c, deal);
      assert AfterFlow(t, s, AsFlow(p)) == PlaceCommand(t, s, c, deal);
    } else {
      RefusalIsAtomic(t, s, c, deal);
    }
  }

  lemma RefusalIsAtomic(t: Table, s: Socket, c: Command, deal: Deal)
    requires Seated(t, s) && t.phase.Betting? && t.phase.turn != s
    ensures AfterFlow(t, s, Finish(DuelOf(t, s), deal, Refuse)) == BetInRoom(t, s, c, deal)
  {
    hide Act, BetChips, CompareCard, SettleRound, EndCheck, UpdateCards, CollectBasicBet, ResetAllUsers, PrintCard;
    var d := DuelOf(t, s);
    assert Finish(d, deal, Refuse) == Flow(Broadcast(d, BettingRefused, ToSelf), Keep, 0);
    assert t.sides.Keys == {s, Rival(t, s)};
    assert AfterFlow(t, s, Finish(d, deal, Refuse)).sides == BetInRoom(t, s, c, deal).sides;
  }

  lemma StartIsAtomic(t: Table, s: Socket, deal: Deal)
    requires t.phase.Waiting? && Seated(t, s)
    ensures Seated(t.(phase := Betting(s)), s)
    ensures AfterFlow(t.(phase := Betting(s)), s, Finish(DuelOf(t.(phase := Betting(s)), s), deal, TellDone))
      == StartGame(t, s, deal)
  {
    StartFinishes(DuelOf(t, s), deal);
  }

  lemma LeaveKeepsOthers(c: Config)
    requires ConfigInv(c) && c.holder.Busy? && c.holder.at.Remove?
    ensures Settled(AdvanceHolder(c)) == Step(Settled(c), Leave(c.holder.s)) && ConfigInv(AdvanceHolder(c))
  {
    StepKeepsTable(c.t, Leave(c.holder.s));
    assert AdvanceHolder(c).t.sides.Keys == c.t.sides.Keys - {c.holder.s};
  }

  lemma ReadyCheckIsAtomic(c: Config)
    requires ConfigInv(c) && c.holder.Busy? && c.holder.at.CheckReady?
    ensures Settled(AdvanceHolder(c)) == Step(Settled(c), Effective(c, Advance)) && ConfigInv(AdvanceHolder(c))
  {
    hide RoundInv, StartMatch, Finish;
    StepKeepsTable(c.t, Effective(c, Advance));
    if AllReady(c) && Seated(c.t, c.holder.s) {
      StartIsAtomic(c.t, c.holder.s, c.holder.deal);
    }
  }

  lemma RefusedStartIsInvisible(c: Config)
    requires ConfigInv(c) && c.holder.Busy? && c.holder.at.TellNotReady?
    ensures Settled(AdvanceHolder(c)) == Settled(c) && ConfigInv(AdvanceHolder(c))
  {
    hide RoundInv, Finish;
  }

  lemma AddUserIsAtomic(c: Config, s: Socket)
    requires ConfigInv(c)
    ensures Settled(Next(c, AddUser(s))) == Step(Settled(c), Join(s)) && ConfigInv(Next(c, AddUser(s)))
  {
    StepKeepsTable(Settled(c), Join(s));
    if c.holder.Busy? && !Undecided(c.holder.at) {
      FlowKeepsSeats(c.t, c.holder.s, Finish(DuelOf(c.t, c.holder.s), c.holder.deal, c.holder.at));
      assert |c.t.sides.Keys| == 2 && |Settled(c).sides.Keys| == 2;
      assert |c.t.sides| == 2 && |Settled(c).sides| == 2;
    }
  }

  lemma AcquireIsAtomic(c: Config, s: Socket, request: Request, deal: Deal)
    requires ConfigInv(c)
    ensures var a := Acquire(s, request, deal);
      Settled(Next(c, a)) == Step(Settled(c), Effective(c, a)) && ConfigInv(Next(c, a))
  {
    if c.holder.Free? && s in c.t.sides && request.BetRequest? {
      AcquireForBetIsAtomic(c, s, request, deal);
    } else {
      AcquireToAskIsInvisible(c, s, request, deal);
    }
  }

  lemma AcquireForBetIsAtomic(c: Config, s: Socket, request: Request, deal: Deal)
    requires ConfigInv(c) && c.holder.Free? && s in c.t.sides && request.BetRequest?
    ensures var a := Acquire(s, request, deal);
      Settled(Next(c, a)) == Step(Settled(c), Effective(c, a)) && ConfigInv(Next(c, a))
  {
    hide Act, RoundInv, Finish, AfterFlow, PlaceCommand, At;
    StepKeepsTable(c.t, Bet(s, request.c, deal));
    if c.t.phase.Betting? {
      CommandIsAtomic(c.t, s, request.c, deal);
    }
  }

  // A start or an exit has no effect before the ready check or the removal.
  lemma AcquireToAskIsInvisible(c: Config, s: Socket, request: Request, deal: Deal)
    requires ConfigInv(c) && (c.holder.Busy? || s !in c.t.sides || !request.BetRequest?)
    ensures var a := Acquire(s, request, deal);
      Settled(Next(c, a)) == Step(Settled(c), Effective(c, a)) && ConfigInv(Next(c, a))
  {
    hide RoundInv, Finish, AfterFlow, At, BetInRoom, StartGame, LeaveRoom, JoinRoom;
  }

  // Every action either is one complete operation on the room or is invisible.
  lemma EveryActionIsAtomic(c: Config, a: Action)
    requires ConfigInv(c)
    ensures Settled(Next(c, a)) == Step(Settled(c), Effective(c, a))
    ensures ConfigInv(Next(c, a))
  {
    hide RoundInv, StartMatch, Finish, Act, At, AdvanceHolder, AfterFlow;
    match a
    case AddUser(s) => AddUserIsAtomic(c, s);
    case SetReady(s, b) =>
    case Query =>
    case Acquire(s, request, deal) => AcquireIsAtomic(c, s, request, deal);
    case Advance =>
      if c.holder.Busy? {
        match c.holder.at
        case Remove => LeaveKeepsOthers(c);
        case CheckReady => ReadyCheckIsAtomic(c);
        case TellNotReady => RefusedStartIsInvisible(c);
        case _ => AdvanceIsInvisible(c);
      }
  }

  // ---- whole runs ----------------------------------------------------------------------------

  ghost function RunOf(c: Config, actions: seq<Action>): Config
    decreases |actions|
  {
    if actions == [] then c else RunOf(Next(c, actions[0]), actions[1..])
  }

  lemma {:induction false} RunOfConcat(c: Config, a: seq<Action>, b: seq<Action>)
    ensures RunOf(c, a + b) == RunOf(RunOf(c, a), b)
    decreases |a|
  {
    hide Next;
    if a == [] {
      assert a + b == b;
    } else {
      assert (a + b)[0] == a[0] && (a + b)[1..] == a[1..] + b;
      RunOfConcat(Next(c, a[0]), a[1..], b);
    }
  }

  // The complete operations of an interleaved run, in the order in which they take effect.
  ghost function Operations(c: Config, actions: seq<Action>): seq<Event>
    decreases |actions|
  {
    if actions == [] then [] else [Effective(c, actions[0])] + Operations(Next(c, actions[0]), actions[1..])
  }

  lemma {:induction false} InterleavedRunsAreSerial(c: Config, actions: seq<Action>)
    requires ConfigInv(c)
    ensures ConfigInv(RunOf(c, actions))
    ensures Settled(RunOf(c, actions)) == Run(Settled(c), Operations(c, actions))
    decreases |actions|
  {
    if actions != [] {
      EveryActionIsAtomic(c, actions[0]);
      InterleavedRunsAreSerial(Next(c, actions[0]), actions[1..]);
      var es := Operations(c, actions);
      assert es[0] == Effective(c, actions[0]) && es[1..] == Operations(Next(c, actions[0]), actions[1..]);
    }
  }

  // Whenever gameMutex is free: the room is what the complete operations so far make of it; if a match is on,
  // there are exactly two members, in a legal position with all 60 chips accounted for, both screens show the
  // server's amounts, and the dealer's pot is the ante plus the draws since the last decided round.
  lemma FreeRoomIsSafe(actions: seq<Action>, start: Socket -> View)
    requires RunOf(EMPTY_CONFIG, actions).holder.Free?
    ensures var t, es := RunOf(EMPTY_CONFIG, actions).t, Operations(EMPTY_CONFIG, actions);
      && t == Run(EMPTY_TABLE, es)
      && t.faults == 0
      && DealerExplained(t, DrawsOf(EMPTY_TABLE, es, []))
      && (t.phase.Betting? ==>
            && Seated(t, t.phase.turn) && RoundInv(DuelOf(t, t.phase.turn))
            && Tracks(start(t.phase.turn), start(Rival(t, t.phase.turn)), DuelOf(t, t.phase.turn)))
  {
    InterleavedRunsAreSerial(EMPTY_CONFIG, actions);
    EveryRunIsSafe(Operations(EMPTY_CONFIG, actions), start);
  }

  // However the threads of one match interleave, its accepted actions alternate.
  lemma InterleavedActionsAlternate(before: seq<Action>, actions: seq<Action>)
    requires var c := RunOf(EMPTY_CONFIG, before);
      c.holder.Free? && c.t.phase.Betting? && OneMatch(c.t, Operations(c, actions))
    ensures var c := RunOf(EMPTY_CONFIG, before);
      && Seated(c.t, c.t.phase.turn)
      && Alternates(AcceptedBy(c.t, Operations(c, actions)), c.t.phase.turn, Rival(c.t, c.t.phase.turn))
  {
    InterleavedRunsAreSerial(EMPTY_CONFIG, before);
    ActionsAlternate(RunOf(EMPTY_CONFIG, before).t, Operations(RunOf(EMPTY_CONFIG, before), actions));
  }

  lemma {:induction false} OthersChangeNothing(t: Table, es: seq<Event>)
    requires forall i :: 0 <= i < |es| ==> es[i] == Other
    ensures Run(t, es) == t
    decreases |es|
  {
    if es != [] {
      OthersChangeNothing(t, es[1..]);
    }
  }

  // The announcement of a whole match in any interleaving of threads: before leads to its ready check, actions to
  // the command that ends it, and after through the sections of that command, until gameMutex is free again.
  lemma InterleavedMatchIsAnnouncedOnce(before: seq<Action>, actions: seq<Action>, after: seq<Action>,
                                        start: Socket -> View)
    requires var c := RunOf(EMPTY_CONFIG, before);
      var d := RunOf(c, actions);
      && (c.holder.Free? || Undecided(c.holder.at))
      && WholeMatch(c.t, Operations(c, actions))
      && RunOf(d, after).holder.Free?
      && forall i :: 0 <= i < |Operations(d, after)| ==> Operations(d, after)[i] == Other
    ensures var c := RunOf(EMPTY_CONFIG, before);
      OneWinnerOneLoser(c.t, RunOf(RunOf(c, actions), after).t, start)
  {
    InterleavedRunsAreSerial(EMPTY_CONFIG, before);
    var c := RunOf(EMPTY_CONFIG, before);
    InterleavedRunsAreSerial(c, actions);
    var d := RunOf(c, actions);
    InterleavedRunsAreSerial(d, after);
    OthersChangeNothing(Settled(d), Operations(d, after));
    MatchIsAnnouncedOnce(c.t, Operations(c, actions), start);
  }

  // ---- in the middle of an operation ---------------------------------------------------------

  lemma SectionConserves(d: Duel, deal: Deal, p: Point)
    requires !Undecided(p) && !p.TellDone? && (p.Reset? || Conserved(d))
    ensures Conserved(At(d, deal, p).duel)
  {
    hide Side.Told;
    match p
    case Reset =>
      assert Fresh(d.me.log).Stack() == Fresh(d.opp.log).Stack() == DEFAULT_CHIPS;
    case Settle(r) =>
      if !r.RoundImpossible? { SettlementRules.SettleConserves(d.Settling(), r); }
    case _ =>
  }

  // Inside an operation on a running match, from the moment the chips were handed out.
  predicate InMatch(h: Holder) {
    h.Busy? && !Undecided(h.at) && !h.at.TellDone? && !h.at.Reset?
  }

  ghost predicate Accounted(c: Config) {
    InMatch(c.holder) && Seated(c.t, c.holder.s) ==> Conserved(DuelOf(c.t, c.holder.s))
  }

  lemma OtherChairConserves(t: Table, s: Socket)
    requires TableInv(t) && t.phase.Betting? && s in t.sides
    ensures Seated(t, s) && Conserved(DuelOf(t, s))
  {
    var h := t.phase.turn;
    OpponentIsMutual(t.sides.Keys, h);
    if s != h {
      assert t.sides.Keys == {h, Rival(t, h)};
      assert DuelOf(t, s) == DuelOf(t, h).Swap();
    }
  }

  lemma SectionKeepsAccount(c: Config)
    requires ConfigInv(c) && Accounted(c) && c.holder.Busy? && !Undecided(c.holder.at)
    ensures Accounted(AdvanceHolder(c))
  {
    var s, deal, p := c.holder.s, c.holder.deal, c.holder.at;
    var a := At(DuelOf(c.t, s), deal, p);
    FlowKeepsSeats(c.t, s, Flow(a.duel, a.turn, if a.fault then 1 else 0));
    if !p.TellDone? {
      SectionConserves(DuelOf(c.t, s), deal, p);
    }
  }

  lemma ActionKeepsAccount(c: Config, a: Action)
    requires ConfigInv(c) && Accounted(c)
    ensures Accounted(Next(c, a))
  {
    if a.Advance? && c.holder.Busy? && !Undecided(c.holder.at) {
      SectionKeepsAccount(c);
    } else if a.Acquire? && c.holder.Free? && a.s in c.t.sides && c.t.phase.Betting? {
      OtherChairConserves(c.t, a.s);
    }
  }

  lemma {:induction false} RunKeepsAccount(c: Config, actions: seq<Action>)
    requires ConfigInv(c) && Accounted(c)
    ensures ConfigInv(RunOf(c, actions)) && Accounted(RunOf(c, actions))
    decreases |actions|
  {
    if actions != [] {
      EveryActionIsAtomic(c, actions[0]);
      ActionKeepsAccount(c, actions[0]);
      RunKeepsAccount(Next(c, actions[0]), actions[1..]);
    }
  }

  predicate SmallAmounts(d: Duel) {
    && 0 <= d.me.chips <= TOTAL_CHIPS && 0 <= d.opp.chips <= TOTAL_CHIPS && 0 <= d.dealer <= TOTAL_CHIPS
    && 0 <= d.me.frontBet <= TOTAL_CHIPS && 0 <= d.me.backBet <= TOTAL_CHIPS
    && 0 <= d.opp.frontBet <= TOTAL_CHIPS && 0 <= d.opp.backBet <= TOTAL_CHIPS
    && 0 <= d.Pot() <= TOTAL_CHIPS
  }

  // Between any two sections of any interleaved run: no defensive branch was taken, and while a match is on all
  // 60 chips are accounted for; so no amount is negative or above 60, and int arithmetic cannot overflow.
  lemma EveryMomentIsSafe(actions: seq<Action>)
    ensures var c := RunOf(EMPTY_CONFIG, actions);
      && c.t.faults == 0
      && (InMatch(c.holder) ==>
            && Seated(c.t, c.holder.s)
            && DuelOf(c.t, c.holder.s).Total() == TOTAL_CHIPS && SmallAmounts(DuelOf(c.t, c.holder.s)))
      && (c.t.phase.Betting? && !InMatch(c.holder) && Seated(c.t, c.t.phase.turn)
          && !(c.holder.Busy? && (c.holder.at.TellDone? || c.holder.at.Reset?)) ==>
            && DuelOf(c.t, c.t.phase.turn).Total() == TOTAL_CHIPS && SmallAmounts(DuelOf(c.t, c.t.phase.turn)))
  {
    RunKeepsAccount(EMPTY_CONFIG, actions);
  }
}
