/** A whole room: who sits in it, what the game phase is, and what each complete operation (a join, an exit, a
    game start, a betting command) does to it. Runs are sequences of such operations. */
module Table {
  import opened Foundation
  import opened Sections
  import opened GameFlow
  import opened RoundInvariant
  import opened Views

  datatype Phase = Waiting | Betting(turn: Socket)

  // faults counts the defensive branches taken so far.
  datatype Table = Table(sides: map<Socket, Side>, dealer: int, phase: Phase, faults: nat)

  datatype Event =
    | Join(s: Socket)
    | Leave(s: Socket)
    | Start(s: Socket, deal: Deal)            // both players ready
    | Bet(s: Socket, c: Command, deal: Deal)
    | Other                                   // ready flags, chat, room queries

  const EMPTY_TABLE := Table(map[], 0, Waiting, 0)

  // A user that just joined, before any match.
  const NEWCOMER := Side(0, 0, 0, 0, 0, Unset, [])

  // ---- the other player ----------------------------------------------------------------------

  ghost predicate Pair(keys: set<Socket>, s: Socket) { |keys| == 2 && s in keys }

  ghost function Opponent(keys: set<Socket>, s: Socket): (t: Socket)
    requires Pair(keys, s)
    ensures t != s && keys == {s, t}
  {
    LargerSetHasMore(keys, {s});
    var t :| t in keys && t != s;
    PairIs(keys, s, t);
    t
  }

  lemma LargerSetHasMore(a: set<Socket>, b: set<Socket>)
    ensures |a| > |b| ==> exists t :: t in a && t !in b
  {
    if forall t :: t in a ==> t in b {
      assert a + (b - a) == b;
    }
  }

  lemma PairIs(keys: set<Socket>, s: Socket, t: Socket)
    requires Pair(keys, s) && t in keys && t != s
    ensures keys == {s, t}
  {
    assert |keys - {s} - {t}| == 0;
  }

  // The opponent of the opponent is the player itself.
  lemma OpponentIsMutual(keys: set<Socket>, s: Socket)
    requires Pair(keys, s)
    ensures Pair(keys, Opponent(keys, s)) && Opponent(keys, Opponent(keys, s)) == s
  {
    var t := Opponent(keys, s);
    assert keys == {s, t} == {t, Opponent(keys, t)};
    assert s in {t, Opponent(keys, t)};
  }

  ghost predicate Seated(t: Table, s: Socket) { Pair(t.sides.Keys, s) }

  ghost function Rival(t: Table, s: Socket): Socket
    requires Seated(t, s)
  {
    Opponent(t.sides.Keys, s)
  }

  // The room seen from the chair of s, and the room after the two players and the pot were replaced.
  ghost function DuelOf(t: Table, s: Socket): Duel
    requires Seated(t, s)
  {
    Duel(t.sides[s], t.sides[Rival(t, s)], t.dealer)
  }

  ghost function WithDuel(t: Table, s: Socket, d: Duel): (t': Table)
    requires Seated(t, s)
    ensures t'.sides.Keys == t.sides.Keys && Seated(t', s) && DuelOf(t', s) == d
    ensures Seated(t', Rival(t, s)) && Rival(t', Rival(t, s)) == s && DuelOf(t', Rival(t, s)) == d.Swap()
    ensures t'.phase == t.phase && t'.faults == t.faults
  {
    var o := Rival(t, s);
    OpponentIsMutual(t.sides.Keys, s);
    var t' := t.(sides := map[s := d.me, o := d.opp], dealer := d.dealer);
    assert t'.sides.Keys == {s, o};
    t'
  }

  ghost function Tell(t: Table, s: Socket, msgs: seq<Msg>): Table
    requires s in t.sides
  {
    t.(sides := t.sides[s := t.sides[s].Told(msgs)])
  }

  ghost function TellAll(t: Table, m: Msg): Table {
    t.(sides := ToldAll(t.sides, m))
  }

  function ToldAll(sides: map<Socket, Side>, m: Msg): map<Socket, Side> {
    map s | s in sides :: sides[s].Told([m])
  }

  // ---- operations ----------------------------------------------------------------------------

  ghost function JoinRoom(t: Table, s: Socket): Table {
    if |t.sides| >= 2 || s in t.sides then t else t.(sides := t.sides[s := NEWCOMER])
  }

  // removeUser and the reset that follows: the remaining player starts over.
  ghost function RemoveUser(t: Table, s: Socket, running: bool): Table {
    if s !in t.sides then t
    else t.(sides := map x | x in t.sides.Keys - {s} :: Fresh(t.sides[x].log + If(running, GameAborted)), dealer := 0)
  }

  ghost function LeaveRoom(t: Table, s: Socket): Table {
    if s !in t.sides then t else RemoveUser(t, s, t.phase.Betting?).(phase := Waiting)
  }

  ghost function StartGame(t: Table, s: Socket, deal: Deal): Table {
    if !t.phase.Waiting? || !Seated(t, s) then t
    else WithDuel(t, s, StartMatch(DuelOf(t, s), deal)).(phase := Betting(s))
  }

  function PhaseAfter(o: Outcome, s: Socket, rival: Socket): Phase {
    match o
    case Raised => Betting(rival)
    case RoundOver(_, end) => if end.Continues? then Betting(rival) else Waiting
    case _ => Betting(s)
  }

  ghost function PlaceCommand(t: Table, s: Socket, c: Command, deal: Deal): Table
    requires Seated(t, s)
  {
    var p := Act(DuelOf(t, s), c, deal);
    WithDuel(t, s, p.duel).(phase := PhaseAfter(p.outcome, s, Rival(t, s)),
                            faults := t.faults + if p.fault then 1 else 0)
  }

  ghost function BetInRoom(t: Table, s: Socket, c: Command, deal: Deal): Table {
    if !t.phase.Betting? || s !in t.sides then t
    else if t.phase.turn != s then Tell(t, s, [BettingRefused])
    else if !Seated(t, s) then t.(faults := t.faults + 1)
    else PlaceCommand(t, s, c, deal)
  }

  ghost function Step(t: Table, e: Event): Table {
    match e
    case Join(s) => JoinRoom(t, s)
    case Leave(s) => LeaveRoom(t, s)
    case Start(s, deal) => StartGame(t, s, deal)
    case Bet(s, c, deal) => BetInRoom(t, s, c, deal)
    case Other => t
  }

  ghost function Run(t: Table, es: seq<Event>): Table
    decreases |es|
  {
    if es == [] then t else Run(Step(t, es[0]), es[1..])
  }

  // The table in which the messages sent to a member so far are these.
  ghost function WithLog(t: Table, s: Socket, log: seq<Msg>): Table {
    if s in t.sides then t.(sides := t.sides[s := t.sides[s].(log := log)]) else t
  }

  lemma NotJoined(t: Table, s: Socket)
    requires |t.sides| >= 2 || s in t.sides
    ensures Step(t, Join(s)) == t
  {
  }

  // A table that gained a newcomer is the table after the join.
  lemma Joined(t: Table, s: Socket, log: seq<Msg>)
    requires |t.sides| < 2 && s !in t.sides
    ensures t.(sides := t.sides[s := NEWCOMER.(log := log)]) == WithLog(Step(t, Join(s)), s, log)
  {
    assert t.sides[s := NEWCOMER][s := NEWCOMER.(log := log)] == t.sides[s := NEWCOMER.(log := log)];
  }

  // ---- safety over all runs ------------------------------------------------------------------

  // No defensive branch was ever taken, and a match is only on between two seated players in a legal position.
  ghost predicate TableInv(t: Table) {
    && |t.sides| <= 2
    && t.faults == 0
    && (t.phase.Betting? ==> Seated(t, t.phase.turn) && RoundInv(DuelOf(t, t.phase.turn)))
  }

  lemma CommandKeepsTable(t: Table, s: Socket, c: Command, deal: Deal)
    requires TableInv(t) && t.phase == Betting(s)
    ensures TableInv(PlaceCommand(t, s, c, deal))
    ensures PlaceCommand(t, s, c, deal).sides.Keys == t.sides.Keys
  {
    var d, o := DuelOf(t, s), Rival(t, s);
    ActKeepsInvariant(d, c, deal);
    var p := Act(d, c, deal);
    var t1 := WithDuel(t, s, p.duel);
    var t2 := PlaceCommand(t, s, c, deal);
    assert t2.sides == t1.sides && t2.dealer == t1.dealer;
    if p.outcome.Continuing() {
      assert DuelOf(t2, o) == DuelOf(t1, o) == p.duel.Swap();
    } else if p.outcome.Rejected? {
      assert DuelOf(t2, s) == DuelOf(t1, s) == p.duel;
    }
  }

  lemma RefusalKeepsTable(t: Table, s: Socket)
    requires TableInv(t) && t.phase.Betting? && s in t.sides && t.phase.turn != s
    ensures var t' := t.(sides := t.sides[s := t.sides[s].Told([BettingRefused])]);
      TableInv(t') && Seated(t, t.phase.turn) && t'.sides.Keys == t.sides.Keys
      && DuelOf(t', t.phase.turn) == DuelOf(t, t.phase.turn).Say([], [BettingRefused])
  {
    var t' := t.(sides := t.sides[s := t.sides[s].Told([BettingRefused])]);
    assert t'.sides.Keys == t.sides.Keys;
    assert Rival(t, t.phase.turn) == s;
    assert DuelOf(t', t.phase.turn).me.log == DuelOf(t, t.phase.turn).me.log + [];
  }

  lemma StepKeepsTable(t: Table, e: Event)
    requires TableInv(t)
    ensures TableInv(Step(t, e))
  {
    match e
    case Join(s) =>
    case Leave(s) =>
      if s in t.sides {
        assert Step(t, e).sides.Keys == t.sides.Keys - {s};
      }
    case Start(s, deal) =>
      if t.phase.Waiting? && Seated(t, s) {
        StartEstablishesInvariant(DuelOf(t, s), deal);
        var t1 := WithDuel(t, s, StartMatch(DuelOf(t, s), deal));
        assert DuelOf(Step(t, e), s) == DuelOf(t1, s);
      }
    case Bet(s, c, deal) =>
      if t.phase.Betting? && s in t.sides {
        if t.phase.turn != s {
          RefusalKeepsTable(t, s);
        } else {
          CommandKeepsTable(t, s, c, deal);
        }
      }
    case Other =>
  }

  lemma {:induction false} RunKeepsTable(t: Table, es: seq<Event>)
    requires TableInv(t)
    ensures TableInv(Run(t, es))
    decreases |es|
  {
    if es != [] {
      StepKeepsTable(t, es[0]);
      RunKeepsTable(Step(t, es[0]), es[1..]);
    }
  }

  // ---- the screens of both clients -----------------------------------------------------------

  // Every client in a running match shows the server's chips, whatever view it had on joining.
  ghost predicate ScreensExact(t: Table, start: Socket -> View) {
    t.phase.Betting? && Seated(t, t.phase.turn) ==>
      Tracks(start(t.phase.turn), start(Rival(t, t.phase.turn)), DuelOf(t, t.phase.turn))
  }

  lemma StepKeepsScreens(t: Table, e: Event, start: Socket -> View)
    requires TableInv(t) && ScreensExact(t, start)
    ensures ScreensExact(Step(t, e), start)
  {
    hide Act, RoundInv, StartMatch;
    var t' := Step(t, e);
    match e
    case Join(s) =>
      if t.phase.Betting? { assert t' == t; }
    case Leave(s) =>
    case Start(s, deal) =>
      if t.phase.Waiting? && Seated(t, s) {
        StartReports(start(s), start(Rival(t, s)), DuelOf(t, s), deal);
        var t1 := WithDuel(t, s, StartMatch(DuelOf(t, s), deal));
        assert DuelOf(t', s) == DuelOf(t1, s);
      }
    case Bet(s, c, deal) =>
      if t.phase.Betting? && s in t.sides {
        if t.phase.turn != s {
          RefusalKeepsTable(t, s);
          QuietSayFollows(start(t.phase.turn), start(s), DuelOf(t, t.phase.turn), [], [BettingRefused]);
        } else {
          var o, p := Rival(t, s), Act(DuelOf(t, s), c, deal);
          ActReports(start(s), start(o), DuelOf(t, s), c, deal);
          var t1 := WithDuel(t, s, p.duel);
          assert t'.sides == t1.sides && t'.dealer == t1.dealer;
          if p.outcome.Continuing() {
            assert DuelOf(t', o) == DuelOf(t1, o) == p.duel.Swap();
          } else if t'.phase.Betting? {
            assert DuelOf(t', s) == DuelOf(t1, s) == p.duel;
          }
        }
      }
    case Other =>
  }

  lemma {:induction false} RunKeepsScreens(t: Table, es: seq<Event>, start: Socket -> View)
    requires TableInv(t) && ScreensExact(t, start)
    ensures ScreensExact(Run(t, es), start)
    decreases |es|
  {
    if es != [] {
      StepKeepsTable(t, es[0]);
      StepKeepsScreens(t, es[0], start);
      RunKeepsScreens(Step(t, es[0]), es[1..], start);
    }
  }

  // ---- how a match ends ----------------------------------------------------------------------

  // Any command that ends a match leaves the chips in one of the exact final positions, and tells one player
  // of the win and the other of the loss, once each.
  lemma MatchEnds(t: Table, s: Socket, c: Command, deal: Deal, v: View, w: View)
    requires TableInv(t) && t.phase == Betting(s) && Step(t, Bet(s, c, deal)).phase.Waiting?
    ensures Seated(t, s) && Seated(Step(t, Bet(s, c, deal)), s)
    ensures var o := Act(DuelOf(t, s), c, deal).outcome;
      && o.Finished()
      && FinalPosition(DuelOf(Step(t, Bet(s, c, deal)), s), o.result, o.end)
      && AnnouncesEnd(v, w, DuelOf(t, s), DuelOf(Step(t, Bet(s, c, deal)), s), o.end.iWin)
  {
    ActKeepsInvariant(DuelOf(t, s), c, deal);
    ActReports(v, w, DuelOf(t, s), c, deal);
    var t1 := WithDuel(t, s, Act(DuelOf(t, s), c, deal).duel);
    assert DuelOf(Step(t, Bet(s, c, deal)), s) == DuelOf(t1, s);
  }

  // No member was told of a won or lost match.
  ghost predicate TalliesKept(t: Table, t': Table, start: Socket -> View) {
    && t'.sides.Keys == t.sides.Keys
    && forall s :: s in t.sides ==>
         && Shown(start(s), t'.sides[s].log).wins == Shown(start(s), t.sides[s].log).wins
         && Shown(start(s), t'.sides[s].log).losses == Shown(start(s), t.sides[s].log).losses
  }

  lemma DuelKeepsTallies(t: Table, t': Table, s: Socket, start: Socket -> View)
    requires Seated(t, s) && t'.sides.Keys == t.sides.Keys
    requires SameTallies(start(s), start(Rival(t, s)), DuelOf(t, s), DuelOf(t', s))
    ensures TalliesKept(t, t', start)
  {
    assert t.sides.Keys == {s, Rival(t, s)};
  }

  lemma StepKeepsTallies(t: Table, e: Event, start: Socket -> View)
    requires TableInv(t) && t.phase.Betting? && Step(t, e).phase.Betting?
    ensures TalliesKept(t, Step(t, e), start)
  {
    hide Act, RoundInv, TalliesKept;
    var h, t' := t.phase.turn, Step(t, e);
    TurnPasses(t, e);
    if t' == t {
      DuelKeepsTallies(t, t, h, start);
    } else if e.Bet? && e.s != h {
      RefusalKeepsTable(t, e.s);
      QuietSayFollows(start(h), start(e.s), DuelOf(t, h), [], [BettingRefused]);
      DuelKeepsTallies(t, t', h, start);
    } else if e.Bet? {
      ActReports(start(h), start(Rival(t, h)), DuelOf(t, h), e.c, e.deal);
      var t1 := WithDuel(t, h, Act(DuelOf(t, h), e.c, e.deal).duel);
      assert t'.sides == t1.sides && t'.dealer == t1.dealer;
      assert DuelOf(t', h) == DuelOf(t1, h);
      DuelKeepsTallies(t, t', h, start);
    }
  }

  // As long as a match is on nobody is told of its end; so the messages of MatchEnds are the only ones.
  lemma {:induction false} MatchIsQuietUntilItEnds(t: Table, es: seq<Event>, start: Socket -> View)
    requires TableInv(t) && t.phase.Betting? && OneMatch(t, es) && Run(t, es).phase.Betting?
    ensures TalliesKept(t, Run(t, es), start)
    decreases |es|
  {
    hide Step;
    if es != [] {
      var t' := Step(t, es[0]);
      StepKeepsTable(t, es[0]);
      assert t'.phase.Betting?;
      StepKeepsTallies(t, es[0], start);
      MatchIsQuietUntilItEnds(t', es[1..], start);
    }
  }

  // A whole match: a start that succeeds, operations while the match is on, and the command that ends it.
  ghost predicate WholeMatch(t: Table, es: seq<Event>) {
    && t.phase.Waiting? && |es| >= 2 && es[0].Start? && Seated(t, es[0].s)
    && OneMatch(Step(t, es[0]), es[1..])
    && es[|es| - 1].Bet? && Run(t, es).phase.Waiting?
  }

  // Between t and t' the member s was told of so many won and lost matches.
  ghost predicate Hears(t: Table, t': Table, s: Socket, start: Socket -> View, wins: nat, losses: nat)
    requires s in t.sides && s in t'.sides
  {
    var was, now := Shown(start(s), t.sides[s].log), Shown(start(s), t'.sides[s].log);
    now.wins == was.wins + wins && now.losses == was.losses + losses
  }

  ghost predicate OneWinnerOneLoser(t: Table, t': Table, start: Socket -> View) {
    exists w, l ::
      && w != l && t.sides.Keys == {w, l} == t'.sides.Keys
      && Hears(t, t', w, start, 1, 0) && Hears(t, t', l, start, 0, 1)
  }

  lemma {:induction false} OneMatchSplits(t: Table, es: seq<Event>, e: Event)
    requires OneMatch(t, es + [e])
    ensures OneMatch(t, es) && Run(t, es).phase.Betting? && Run(t, es + [e]) == Step(Run(t, es), e)
    decreases |es|
  {
    hide Step;
    var all := es + [e];
    if es == [] {
      assert all[1..] == [];
    } else {
      assert all[0] == es[0] && all[1..] == es[1..] + [e];
      OneMatchSplits(Step(t, es[0]), es[1..], e);
    }
  }

  lemma StartIsQuiet(t: Table, s: Socket, deal: Deal, start: Socket -> View)
    requires t.phase.Waiting? && Seated(t, s)
    ensures TalliesKept(t, Step(t, Start(s, deal)), start)
  {
    hide StartMatch, TalliesKept;
    var t' := Step(t, Start(s, deal));
    StartReports(start(s), start(Rival(t, s)), DuelOf(t, s), deal);
    var t1 := WithDuel(t, s, StartMatch(DuelOf(t, s), deal));
    assert DuelOf(t', s) == DuelOf(t1, s);
    DuelKeepsTallies(t, t', s, start);
  }

  lemma EndIsAnnounced(t: Table, e: Event, start: Socket -> View)
    requires TableInv(t) && t.phase.Betting? && e.Bet? && Step(t, e).phase.Waiting?
    ensures OneWinnerOneLoser(t, Step(t, e), start)
  {
    hide Act, RoundInv, FinalPosition;
    var h, t' := t.phase.turn, Step(t, e);
    assert e.s == h;
    var o := Rival(t, h);
    MatchEnds(t, h, e.c, e.deal, start(h), start(o));
    assert t.sides.Keys == {h, o} == t'.sides.Keys;
    if Act(DuelOf(t, h), e.c, e.deal).outcome.end.iWin {
      assert Hears(t, t', h, start, 1, 0) && Hears(t, t', o, start, 0, 1);
    } else {
      assert Hears(t, t', o, start, 1, 0) && Hears(t, t', h, start, 0, 1);
    }
  }

  // What a whole match comes to before its last command.
  lemma MatchBeforeItsEnd(t: Table, es: seq<Event>, start: Socket -> View) returns (t1: Table)
    requires TableInv(t) && WholeMatch(t, es)
    ensures TableInv(t1) && t1.phase.Betting? && TalliesKept(t, t1, start)
    ensures Run(t, es) == Step(t1, es[|es| - 1])
  {
    hide Step, TableInv;
    var t0, n := Step(t, es[0]), |es| - 1;
    StartIsQuiet(t, es[0].s, es[0].deal, start);
    StartBegins(t, es[0].s, es[0].deal);
    StepKeepsTable(t, es[0]);
    assert es[1..] == es[1..n] + [es[n]];
    OneMatchSplits(t0, es[1..n], es[n]);
    RunKeepsTable(t0, es[1..n]);
    MatchIsQuietUntilItEnds(t0, es[1..n], start);
    t1 := Run(t0, es[1..n]);
  }

  // Over a whole match, one of its two players is told once that it won, the other once that it lost, and neither
  // anything else of the kind.
  lemma MatchIsAnnouncedOnce(t: Table, es: seq<Event>, start: Socket -> View)
    requires TableInv(t) && WholeMatch(t, es)
    ensures OneWinnerOneLoser(t, Run(t, es), start)
  {
    hide Step, TableInv, Run, OneMatch, Shown;
    var t1 := MatchBeforeItsEnd(t, es, start);
    var t' := Run(t, es);
    EndIsAnnounced(t1, es[|es| - 1], start);
    var w, l :| w != l && t1.sides.Keys == {w, l} == t'.sides.Keys
      && Hears(t1, t', w, start, 1, 0) && Hears(t1, t', l, start, 0, 1);
    assert Hears(t, t', w, start, 1, 0) && Hears(t, t', l, start, 0, 1);
  }

  lemma StartBegins(t: Table, s: Socket, deal: Deal)
    requires t.phase.Waiting? && Seated(t, s)
    ensures Step(t, Start(s, deal)).phase == Betting(s)
  {
  }

  // ---- strict alternation --------------------------------------------------------------------

  ghost predicate Accepted(t: Table, e: Event) {
    e.Bet? && t.phase == Betting(e.s) && Seated(t, e.s) && !Act(DuelOf(t, e.s), e.c, e.deal).outcome.Rejected?
  }

  ghost function AcceptedBy(t: Table, es: seq<Event>): seq<Socket>
    decreases |es|
  {
    if es == [] then []
    else (if Accepted(t, es[0]) then [es[0].s] else []) + AcceptedBy(Step(t, es[0]), es[1..])
  }

  // The match that is on in t is still on before each of the events.
  ghost predicate OneMatch(t: Table, es: seq<Event>)
    decreases |es|
  {
    es == [] || (t.phase.Betting? && OneMatch(Step(t, es[0]), es[1..]))
  }

  // An accepted action passes the turn to the other player or ends the match; anything else that does not end
  // the match leaves players and turn alone.
  lemma TurnPasses(t: Table, e: Event)
    requires TableInv(t) && t.phase.Betting? && Step(t, e).phase.Betting?
    ensures Step(t, e).sides.Keys == t.sides.Keys
    ensures Step(t, e).phase.turn == if Accepted(t, e) then Rival(t, t.phase.turn) else t.phase.turn
  {
    match e
    case Leave(s) =>
      assert s in t.sides ==> Step(t, e).phase.Waiting?;
    case Bet(s, c, deal) =>
      if s in t.sides && t.phase.turn != s {
        RefusalKeepsTable(t, s);
      } else if s in t.sides {
        ActKeepsInvariant(DuelOf(t, s), c, deal);
      }
    case _ =>
  }

  ghost predicate Alternates(acts: seq<Socket>, first: Socket, second: Socket) {
    forall i :: 0 <= i < |acts| ==> acts[i] == if i % 2 == 0 then first else second
  }

  lemma AlternatesFrom(acts: seq<Socket>, first: Socket, second: Socket)
    requires Alternates(acts, second, first)
    ensures Alternates([first] + acts, first, second)
  {
    var all := [first] + acts;
    forall i | 0 <= i < |all| ensures all[i] == if i % 2 == 0 then first else second {
      if i > 0 { assert all[i] == acts[i - 1]; }
    }
  }

  // The accepted actions of one match come from the two players in strict alternation, beginning with the
  // player who holds the turn.
  lemma {:induction false} ActionsAlternate(t: Table, es: seq<Event>)
    requires TableInv(t) && t.phase.Betting? && OneMatch(t, es)
    ensures Alternates(AcceptedBy(t, es), t.phase.turn, Rival(t, t.phase.turn))
    decreases |es|
  {
    hide Act, RoundInv;
    if es != [] {
      var t', h := Step(t, es[0]), t.phase.turn;
      StepKeepsTable(t, es[0]);
      if t'.phase.Betting? {
        TurnPasses(t, es[0]);
        OpponentIsMutual(t.sides.Keys, h);
        ActionsAlternate(t', es[1..]);
        if Accepted(t, es[0]) {
          AlternatesFrom(AcceptedBy(t', es[1..]), h, Rival(t, h));
        }
        assert [] + AcceptedBy(t', es[1..]) == AcceptedBy(t', es[1..]);
      } else {
        assert es[1..] == [];
      }
    }
  }

  // In particular the player whose start succeeded acts first.
  lemma StarterActsFirst(t: Table, s: Socket, deal: Deal, es: seq<Event>)
    requires TableInv(t) && t.phase.Waiting? && Seated(t, s) && OneMatch(StartGame(t, s, deal), es)
    ensures Alternates(AcceptedBy(StartGame(t, s, deal), es), s, Rival(t, s))
  {
    StepKeepsTable(t, Start(s, deal));
    ActionsAlternate(StartGame(t, s, deal), es);
  }

  // ---- where the dealer's pot comes from -----------------------------------------------------

  // One drawn round: the chips it moved to the dealer, whether it was reached by a chip call, and at what level.
  datatype DrawnRound = DrawnRound(pot: int, called: bool, level: int)

  // The drawn rounds since the last decided one, after one more command in position d.
  ghost function DrawsNext(d: Duel, c: Command, deal: Deal, draws: seq<DrawnRound>): seq<DrawnRound> {
    var o := Act(d, c, deal).outcome;
    if !o.RoundOver? then draws
    else if !o.result.Draw? then []
    else draws + [RecordOf(d, c)]
  }

  ghost function DrawsAfter(t: Table, e: Event, draws: seq<DrawnRound>): seq<DrawnRound> {
    match e
    case Start(s, _) => if t.phase.Waiting? && Seated(t, s) then [] else draws
    case Bet(s, c, deal) => if Accepted(t, e) then DrawsNext(DuelOf(t, s), c, deal, draws) else draws
    case _ => draws
  }

  ghost function DrawsOf(t: Table, es: seq<Event>, draws: seq<DrawnRound>): seq<DrawnRound>
    decreases |es|
  {
    if es == [] then draws else DrawsOf(Step(t, es[0]), es[1..], DrawsAfter(t, es[0], draws))
  }

  ghost function PotSum(draws: seq<DrawnRound>): int
    decreases |draws|
  {
    if draws == [] then 0 else PotSum(draws[..|draws| - 1]) + draws[|draws| - 1].pot
  }

  ghost function CalledDraws(draws: seq<DrawnRound>): nat
    decreases |draws|
  {
    if draws == [] then 0
    else CalledDraws(draws[..|draws| - 1]) + if draws[|draws| - 1].called then 1 else 0
  }

  // Each drawn round reached by a chip call moved exactly twice the matched level, and there are at most 29.
  ghost predicate DrawsSound(draws: seq<DrawnRound>) {
    && CalledDraws(draws) <= DEFAULT_CHIPS - 1
    && forall r :: r in draws && r.called ==> r.level >= 1 && r.pot == 2 * r.level
  }

  // The dealer holds the ante plus all pots of the draws since the last decided round, and each called draw
  // cost the poorer player a chip.
  ghost predicate PotExplained(d: Duel, draws: seq<DrawnRound>) {
    && d.dealer == 2 + PotSum(draws)
    && CalledDraws(draws) + SmallerStack(d) <= DEFAULT_CHIPS - 1
  }

  ghost predicate DealerExplained(t: Table, draws: seq<DrawnRound>) {
    && DrawsSound(draws)
    && (t.phase.Betting? && Seated(t, t.phase.turn) ==> PotExplained(DuelOf(t, t.phase.turn), draws))
  }

  lemma DrawExtends(draws: seq<DrawnRound>, r: DrawnRound)
    ensures PotSum(draws + [r]) == PotSum(draws) + r.pot
    ensures CalledDraws(draws + [r]) == CalledDraws(draws) + if r.called then 1 else 0
  {
    assert (draws + [r])[..|draws|] == draws;
  }

  lemma CommandExplainsPot(d: Duel, c: Command, deal: Deal, draws: seq<DrawnRound>)
    requires RoundInv(d) && DrawsSound(draws) && PotExplained(d, draws)
    ensures DrawsSound(DrawsNext(d, c, deal, draws))
    ensures var p := Act(d, c, deal);
      p.outcome.Continuing() || p.outcome.Rejected? ==> PotExplained(p.duel, DrawsNext(d, c, deal, draws))
  {
    hide Side.Told, ProcessRoundEnd, SettleAndGoOn;
    var p := Act(d, c, deal);
    ActKeepsInvariant(d, c, deal);
    if !p.outcome.RoundOver? {
      BetKeepsInvariant(d, c);
    } else if p.outcome.result.Draw? {
      DrawnRoundExplainsPot(d, c, deal, draws);
    }
  }

  ghost function RecordOf(d: Duel, c: Command): DrawnRound {
    DrawnRound(AtShowdown(d, c).Pot(), !c.kind.Special?, AtShowdown(d, c).me.Level())
  }

  lemma DrawnRoundCosts(d: Duel, c: Command, deal: Deal)
    requires RoundInv(d)
    requires Act(d, c, deal).outcome.RoundOver? && Act(d, c, deal).outcome.result.Draw?
    ensures var r, after := RecordOf(d, c), Act(d, c, deal).duel;
      && (r.called ==> r.level >= 1 && r.pot == 2 * r.level)
      && after.dealer == d.dealer + r.pot
      && 0 <= SmallerStack(after) <= SmallerStack(d) - if r.called then 1 else 0
  {
    hide Act, AtShowdown, GoesToShowdown, ShowdownResult, RoundInv;
    ActKeepsInvariant(d, c, deal);
    ShowdownIsDecided(d, c);
    DrawMovesPot(d, c, deal);
    if !c.kind.Special? { CalledDrawPot(d, c); }
  }

  lemma DrawnRoundExplainsPot(d: Duel, c: Command, deal: Deal, draws: seq<DrawnRound>)
    requires RoundInv(d) && DrawsSound(draws) && PotExplained(d, draws)
    requires Act(d, c, deal).outcome.RoundOver? && Act(d, c, deal).outcome.result.Draw?
    ensures DrawsSound(draws + [RecordOf(d, c)]) && PotExplained(Act(d, c, deal).duel, draws + [RecordOf(d, c)])
  {
    hide Act, RecordOf, SmallerStack, PotSum, CalledDraws;
    DrawnRoundCosts(d, c, deal);
    DrawExtends(draws, RecordOf(d, c));
  }

  lemma CommandExplainsDealer(t: Table, s: Socket, c: Command, deal: Deal, draws: seq<DrawnRound>)
    requires TableInv(t) && t.phase == Betting(s) && DealerExplained(t, draws)
    ensures DealerExplained(PlaceCommand(t, s, c, deal), DrawsAfter(t, Bet(s, c, deal), draws))
  {
    hide Act, RoundInv, DrawsSound;
    var d, o := DuelOf(t, s), Rival(t, s);
    var p := Act(d, c, deal);
    var t1, t' := WithDuel(t, s, p.duel), PlaceCommand(t, s, c, deal);
    CommandExplainsPot(d, c, deal, draws);
    ActKeepsInvariant(d, c, deal);
    assert t'.sides == t1.sides && t'.dealer == t1.dealer;
    if p.outcome.Continuing() {
      assert DuelOf(t', o) == DuelOf(t1, o) == p.duel.Swap();
    } else if p.outcome.Rejected? {
      assert DuelOf(t', s) == DuelOf(t1, s) == p.duel;
    }
  }

  lemma StepExplainsDealer(t: Table, e: Event, draws: seq<DrawnRound>)
    requires TableInv(t) && DealerExplained(t, draws)
    ensures DealerExplained(Step(t, e), DrawsAfter(t, e, draws))
  {
    match e
    case Join(s) =>
      if t.phase.Betting? { assert Step(t, e) == t; }
    case Leave(s) =>
    case Start(s, deal) =>
      if t.phase.Waiting? && Seated(t, s) {
        StartEstablishesInvariant(DuelOf(t, s), deal);
        var t1 := WithDuel(t, s, StartMatch(DuelOf(t, s), deal));
        assert DuelOf(Step(t, e), s) == DuelOf(t1, s);
      }
    case Bet(s, c, deal) =>
      if t.phase.Betting? && s in t.sides {
        if t.phase.turn != s {
          RefusalKeepsTable(t, s);
        } else {
          CommandExplainsDealer(t, s, c, deal, draws);
        }
      }
    case Other =>
  }

  lemma {:induction false} RunExplainsDealer(t: Table, es: seq<Event>, draws: seq<DrawnRound>)
    requires TableInv(t) && DealerExplained(t, draws)
    ensures DealerExplained(Run(t, es), DrawsOf(t, es, draws))
    decreases |es|
  {
    if es != [] {
      StepKeepsTable(t, es[0]);
      StepExplainsDealer(t, es[0], draws);
      RunExplainsDealer(Step(t, es[0]), es[1..], DrawsAfter(t, es[0], draws));
    }
  }

  // All of the above, for every run from the empty room.
  lemma EveryRunIsSafe(es: seq<Event>, start: Socket -> View)
    ensures TableInv(Run(EMPTY_TABLE, es))
    ensures ScreensExact(Run(EMPTY_TABLE, es), start)
    ensures DealerExplained(Run(EMPTY_TABLE, es), DrawsOf(EMPTY_TABLE, es, []))
  {
    RunKeepsTable(EMPTY_TABLE, es);
    RunKeepsScreens(EMPTY_TABLE, es, start);
    RunExplainsDealer(EMPTY_TABLE, es, []);
  }
}
