/** Rooms and the clients that come and go: the create, join and exit paths of
    TwofacedPoker/Network/ClientHandle.cpp cut at every lock of TwofacedPoker/Room/RoomRegistry.cpp and
    TwofacedPoker/Room/RoomManager.cpp, run by any number of client threads in any order. */
module Lifecycle {
  import opened Foundation

  const MAX_USERS := 2

  type Client = nat // a handler with its own connection and user number
  type RoomNumber = nat

  // Where a client thread is. At Creating, Added, Joining and Erasing it holds the registry mutex.
  datatype Point =
    | Idle
    | Creating(n: RoomNumber) // number taken, room made, user not yet added
    | Added(n: RoomNumber)    // user added, room not yet registered
    | Joining(n: RoomNumber)  // room found, user not yet added
    | Entered(n: RoomNumber)  // user added, own roomNumber not yet set
    | Leaving(n: RoomNumber)  // own roomNumber cleared, user not yet removed
    | Removed(n: RoomNumber)  // user removed, eraseIfEmpty not yet called
    | Erasing(n: RoomNumber)  // found empty, not yet erased

  datatype Handler = Handler(roomNumber: Option<RoomNumber>, at: Point)

  // members has an entry for every room ever made.
  datatype State = State(
    members: map<RoomNumber, set<Client>>, registered: set<RoomNumber>, nextRoomNumber: RoomNumber,
    handlers: map<Client, Handler>, holder: Option<Client>)

  datatype Request = Create | Join(n: RoomNumber) | Exit

  const START := State(map[], {}, 1, map[], None)

  function HandlerOf(s: State, c: Client): Handler {
    if c in s.handlers then s.handlers[c] else Handler(None, Idle)
  }

  function In(s: State, n: RoomNumber): set<Client> {
    if n in s.members then s.members[n] else {}
  }

  function Move(s: State, c: Client, p: Point): State {
    s.(handlers := s.handlers[c := HandlerOf(s, c).(at := p)])
  }

  function Enter(s: State, c: Client, roomNumber: Option<RoomNumber>): State {
    s.(handlers := s.handlers[c := Handler(roomNumber, Idle)])
  }

  // addUser of the room
  predicate CanAdd(s: State, c: Client, n: RoomNumber) {
    n in s.members && |s.members[n]| < MAX_USERS && c !in s.members[n]
  }

  function Add(s: State, c: Client, n: RoomNumber): State {
    s.(members := s.members[n := In(s, n) + {c}])
  }

  // What an idle client does with a request; every path needs the registry mutex.
  function Begin(s: State, c: Client, r: Request): State {
    var own := HandlerOf(s, c).roomNumber;
    if s.holder.Some? then s
    else
      match r
      case Create =>
        if own.Some? then s
        else
          var n := s.nextRoomNumber;
          Move(s.(nextRoomNumber := n + 1, members := s.members[n := {}], holder := Some(c)), c, Creating(n))
      case Join(n) =>
        if own == Some(n) then
          if n in s.registered then s else Enter(s, c, None)
        else if own.Some? || n !in s.registered then s
        else Move(s.(holder := Some(c)), c, Joining(n))
      case Exit =>
        if own.None? then s
        else if own.value !in s.registered then Enter(s, c, None)
        else Move(Enter(s, c, None), c, Leaving(own.value))
  }

  // The next critical section of a client.
  function Next(s: State, c: Client, r: Request): State {
    match HandlerOf(s, c).at
    case Idle => Begin(s, c, r)
    case Creating(n) =>
      if CanAdd(s, c, n) then Move(Add(s, c, n), c, Added(n)) else Move(s.(holder := None), c, Idle)
    case Added(n) => Move(s.(registered := s.registered + {n}, holder := None), c, Entered(n))
    case Joining(n) =>
      if CanAdd(s, c, n) then Move(Add(s, c, n).(holder := None), c, Entered(n)) else Move(s.(holder := None), c, Idle)
    case Entered(n) => Enter(s, c, Some(n))
    case Leaving(n) =>
      if c in In(s, n) then Move(s.(members := s.members[n := s.members[n] - {c}]), c, Removed(n))
      else Move(s, c, Idle)
    case Removed(n) =>
      if s.holder.Some? then s
      else if n in s.registered && In(s, n) == {} then Move(s.(holder := Some(c)), c, Erasing(n))
      else Move(s, c, Idle)
    case Erasing(n) => Move(s.(registered := s.registered - {n}, holder := None), c, Idle)
  }

  datatype Turn = Turn(c: Client, r: Request)

  function Run(s: State, turns: seq<Turn>): State
    decreases |turns|
  {
    if turns == [] then s else Run(Next(s, turns[0].c, turns[0].r), turns[1..])
  }

  // ---- the invariant -------------------------------------------------------------------------

  predicate Holds(p: Point) { p.Creating? || p.Added? || p.Joining? || p.Erasing? }

  // The room that has this client among its members, seen from the client's thread.
  function Whereabouts(h: Handler): Option<RoomNumber> {
    match h.at
    case Idle => h.roomNumber
    case Added(n) => Some(n)
    case Entered(n) => Some(n)
    case Leaving(n) => Some(n)
    case _ => None
  }

  // This client will look whether room n can be erased.
  predicate WillErase(h: Handler, n: RoomNumber) {
    h.at == Removed(n) || h.at == Erasing(n)
  }

  ghost predicate MutexOk(s: State) {
    forall c: Client :: Holds(HandlerOf(s, c).at) <==> s.holder == Some(c)
  }

  // Membership and the clients' own view agree, in both directions.
  ghost predicate ViewsAgree(s: State) {
    && (forall c: Client, n: RoomNumber :: c in In(s, n) <==> Whereabouts(HandlerOf(s, c)) == Some(n))
    && (forall c: Client :: !HandlerOf(s, c).at.Idle? ==> HandlerOf(s, c).roomNumber.None?)
  }

  ghost predicate NumbersOk(s: State) {
    && s.registered <= s.members.Keys
    && (forall n: RoomNumber :: n in s.members ==> n < s.nextRoomNumber)
    && (forall n: RoomNumber :: |In(s, n)| <= MAX_USERS)
  }

  // The room that the holder of the registry mutex is about to register.
  predicate UnderConstruction(s: State, n: RoomNumber) {
    s.holder.Some? && (HandlerOf(s, s.holder.value).at == Creating(n) || HandlerOf(s, s.holder.value).at == Added(n))
  }

  // Only the room under construction may have members without being registered.
  ghost predicate NoStrays(s: State) {
    && (forall n: RoomNumber :: n !in s.registered && In(s, n) != {} ==> UnderConstruction(s, n))
    && (forall n: RoomNumber :: UnderConstruction(s, n) ==> n in s.members && n !in s.registered)
  }

  // What a thread between two sections may rely on.
  ghost predicate PointsOk(s: State) {
    && (forall c: Client, n: RoomNumber :: HandlerOf(s, c).at == Creating(n) ==> In(s, n) == {})
    && (forall c: Client, n: RoomNumber :: HandlerOf(s, c).at == Joining(n) ==> n in s.registered)
    && (forall c: Client, n: RoomNumber :: HandlerOf(s, c).at == Erasing(n) ==> In(s, n) == {})
  }

  ghost predicate EmptyRoomsGo(s: State) {
    forall n: RoomNumber :: n in s.registered && In(s, n) == {} ==> exists c: Client :: WillErase(HandlerOf(s, c), n)
  }

  ghost predicate Inv(s: State) {
    MutexOk(s) && ViewsAgree(s) && NumbersOk(s) && NoStrays(s) && PointsOk(s) && EmptyRoomsGo(s)
  }

  // A step of one client leaves the other clients where they are.
  lemma OthersStay(s: State, c: Client, r: Request, d: Client)
    requires d != c
    ensures HandlerOf(Next(s, c, r), d) == HandlerOf(s, d)
  {
    hide In, CanAdd;
  }

  lemma OthersKeepSeats(s: State, c: Client, r: Request, d: Client, n: RoomNumber)
    requires d != c
    ensures d in In(Next(s, c, r), n) ==> d in In(s, n)
    ensures s.nextRoomNumber !in s.members ==> (d in In(s, n) ==> d in In(Next(s, c, r), n))
  {
    hide CanAdd;
  }

  // While nobody holds the registry mutex, no client is in a room that is not registered.
  lemma MembersAreRegistered(s: State, n: RoomNumber)
    requires NoStrays(s) && s.holder.None? && In(s, n) != {}
    ensures n in s.registered
  {
    assert !UnderConstruction(s, n);
  }

  lemma OwnView(s: State, c: Client, r: Request, n: RoomNumber)
    requires Inv(s)
    ensures c in In(Next(s, c, r), n) <==> Whereabouts(HandlerOf(Next(s, c, r), c)) == Some(n)
  {
    hide In, Whereabouts, Next, MutexOk, NoStrays, EmptyRoomsGo, NumbersOk;
    assert c in In(s, n) <==> Whereabouts(HandlerOf(s, c)) == Some(n);
    assert HandlerOf(s, c).at == Creating(n) ==> In(s, n) == {};
    assert !HandlerOf(s, c).at.Idle? ==> HandlerOf(s, c).roomNumber.None?;
    if HandlerOf(s, c).at.Idle? {
      if s.holder.None? && c in In(s, n) { MembersAreRegistered(s, n); }
      NextNumberIsNew(s);
      IdleView(s, c, r, n);
    } else if HandlerOf(s, c).at.Creating? || HandlerOf(s, c).at.Joining? {
      AdderView(s, c, r, n);
    } else if HandlerOf(s, c).at.Leaving? {
      LeaverView(s, c, r, n);
    } else {
      QuietView(s, c, r, n);
    }
  }

  lemma NextNumberIsNew(s: State)
    requires NumbersOk(s)
    ensures s.nextRoomNumber !in s.members && In(s, s.nextRoomNumber) == {}
  {
  }

  lemma IdleView(s: State, c: Client, r: Request, n: RoomNumber)
    requires HandlerOf(s, c).at.Idle? && s.nextRoomNumber !in s.members
    requires c in In(s, n) <==> Whereabouts(HandlerOf(s, c)) == Some(n)
    requires s.holder.None? && c in In(s, n) ==> n in s.registered
    ensures c in In(Next(s, c, r), n) <==> Whereabouts(HandlerOf(Next(s, c, r), c)) == Some(n)
  {
  }

  lemma AdderView(s: State, c: Client, r: Request, n: RoomNumber)
    requires HandlerOf(s, c).at.Creating? || HandlerOf(s, c).at.Joining?
    requires HandlerOf(s, c).at == Creating(n) ==> In(s, n) == {}
    requires HandlerOf(s, c).roomNumber.None?
    requires c in In(s, n) <==> Whereabouts(HandlerOf(s, c)) == Some(n)
    ensures c in In(Next(s, c, r), n) <==> Whereabouts(HandlerOf(Next(s, c, r), c)) == Some(n)
  {
    hide Begin;
  }

  lemma LeaverView(s: State, c: Client, r: Request, n: RoomNumber)
    requires HandlerOf(s, c).at.Leaving?
    requires HandlerOf(s, c).roomNumber.None?
    requires c in In(s, n) <==> Whereabouts(HandlerOf(s, c)) == Some(n)
    ensures c in In(Next(s, c, r), n) <==> Whereabouts(HandlerOf(Next(s, c, r), c)) == Some(n)
  {
    hide Begin, CanAdd;
  }

  lemma QuietView(s: State, c: Client, r: Request, n: RoomNumber)
    requires !HandlerOf(s, c).at.Idle? && !HandlerOf(s, c).at.Creating?
    requires !HandlerOf(s, c).at.Joining? && !HandlerOf(s, c).at.Leaving?
    requires HandlerOf(s, c).roomNumber.None?
    requires c in In(s, n) <==> Whereabouts(HandlerOf(s, c)) == Some(n)
    ensures c in In(Next(s, c, r), n) <==> Whereabouts(HandlerOf(Next(s, c, r), c)) == Some(n)
  {
    hide Begin, CanAdd;
  }

  lemma BusyHasNoNumber(s: State, c: Client, r: Request)
    requires ViewsAgree(s)
    ensures var h := HandlerOf(Next(s, c, r), c); !h.at.Idle? ==> h.roomNumber.None?
  {
    hide In, CanAdd, Whereabouts;
    var h := HandlerOf(s, c);
    assert !h.at.Idle? ==> h.roomNumber.None?;
  }

  lemma StepKeepsMutex(s: State, c: Client, r: Request)
    requires MutexOk(s)
    ensures MutexOk(Next(s, c, r))
  {
    hide In, CanAdd;
    var s' := Next(s, c, r);
    forall d: Client ensures Holds(HandlerOf(s', d).at) <==> s'.holder == Some(d) {
      assert d != c ==> HandlerOf(s', d) == HandlerOf(s, d);
      assert Holds(HandlerOf(s, d).at) <==> s.holder == Some(d);
      assert Holds(HandlerOf(s, c).at) <==> s.holder == Some(c);
    }
  }

  lemma StepKeepsViews(s: State, c: Client, r: Request)
    requires Inv(s)
    ensures ViewsAgree(Next(s, c, r))
  {
    hide Next, Whereabouts;
    var s' := Next(s, c, r);
    forall d: Client, n: RoomNumber
      ensures d in In(s', n) <==> Whereabouts(HandlerOf(s', d)) == Some(n)
      ensures !HandlerOf(s', d).at.Idle? ==> HandlerOf(s', d).roomNumber.None?
    {
      if d == c {
        OwnView(s, c, r, n);
        BusyHasNoNumber(s, c, r);
      } else {
        OthersStay(s, c, r, d);
        OthersKeepSeats(s, c, r, d, n);
      }
    }
  }

  // A client enters only where there is a seat.
  lemma NeedsASeat(s: State, c: Client, r: Request, n: RoomNumber)
    requires c in In(Next(s, c, r), n) && c !in In(s, n)
    ensures |In(s, n)| < MAX_USERS
  {
  }

  lemma SubsetIsSmaller(a: set<Client>, b: set<Client>)
    requires a <= b
    ensures |a| <= |b|
  {
    assert b == a + (b - a);
  }

  lemma StaysSmall(s: State, c: Client, r: Request, n: RoomNumber)
    requires |In(s, n)| <= MAX_USERS
    ensures |In(Next(s, c, r), n)| <= MAX_USERS
  {
    hide Next, In;
    var m, m' := In(s, n), In(Next(s, c, r), n);
    forall d: Client | d in m' && d != c ensures d in m {
      OthersKeepSeats(s, c, r, d, n);
    }
    if c in m' && c !in m {
      NeedsASeat(s, c, r, n);
      SubsetIsSmaller(m', m + {c});
    } else {
      SubsetIsSmaller(m', m);
    }
  }

  lemma StepKeepsNumbers(s: State, c: Client, r: Request)
    requires Inv(s)
    ensures NumbersOk(Next(s, c, r))
  {
    hide EmptyRoomsGo, WillErase, Whereabouts, ViewsAgree, PointsOk;
    assert Holds(HandlerOf(s, c).at) ==> s.holder == Some(c);
    assert HandlerOf(s, c).at.Added? ==> UnderConstruction(s, HandlerOf(s, c).at.n);
    forall n: RoomNumber ensures |In(Next(s, c, r), n)| <= MAX_USERS {
      StaysSmall(s, c, r, n);
    }
  }

  lemma StepKeepsSite(s: State, c: Client, r: Request, n: RoomNumber)
    requires Inv(s) && UnderConstruction(Next(s, c, r), n)
    ensures n in Next(s, c, r).members && n !in Next(s, c, r).registered
  {
    hide EmptyRoomsGo, WillErase, ViewsAgree, Whereabouts;
    StepKeepsMutex(s, c, r);
    assert UnderConstruction(s, n) ==> n in s.members && n !in s.registered;
  }

  lemma StepMakesNoStray(s: State, c: Client, r: Request, n: RoomNumber)
    requires Inv(s) && n !in Next(s, c, r).registered && In(Next(s, c, r), n) != {}
    ensures UnderConstruction(Next(s, c, r), n)
  {
    hide EmptyRoomsGo, WillErase, ViewsAgree, Whereabouts, NumbersOk;
    StepKeepsMutex(s, c, r);
    assert Holds(HandlerOf(s, c).at) <==> s.holder == Some(c);
    assert n !in s.registered && In(s, n) != {} ==> UnderConstruction(s, n);
  }

  lemma StepKeepsOut(s: State, c: Client, r: Request)
    requires Inv(s)
    ensures NoStrays(Next(s, c, r))
  {
    hide Next, Inv, UnderConstruction, In;
    forall n: RoomNumber | UnderConstruction(Next(s, c, r), n)
      ensures n in Next(s, c, r).members && n !in Next(s, c, r).registered
    {
      StepKeepsSite(s, c, r, n);
    }
    forall n: RoomNumber | n !in Next(s, c, r).registered && In(Next(s, c, r), n) != {}
      ensures UnderConstruction(Next(s, c, r), n)
    {
      StepMakesNoStray(s, c, r, n);
    }
  }

  lemma StepKeepsPoint(s: State, c: Client, r: Request, d: Client, n: RoomNumber)
    requires Inv(s)
    ensures HandlerOf(Next(s, c, r), d).at == Creating(n) ==> In(Next(s, c, r), n) == {}
    ensures HandlerOf(Next(s, c, r), d).at == Joining(n) ==> n in Next(s, c, r).registered
    ensures HandlerOf(Next(s, c, r), d).at == Erasing(n) ==> In(Next(s, c, r), n) == {}
  {
    hide EmptyRoomsGo, WillErase, ViewsAgree, Whereabouts, NumbersOk;
    assert Holds(HandlerOf(s, c).at) <==> s.holder == Some(c);
    assert Holds(HandlerOf(s, d).at) <==> s.holder == Some(d);
    if d != c { OthersStay(s, c, r, d); }
  }

  lemma StepKeepsPoints(s: State, c: Client, r: Request)
    requires Inv(s)
    ensures PointsOk(Next(s, c, r))
  {
    hide Next, Inv, In;
    forall d: Client, n: RoomNumber
      ensures HandlerOf(Next(s, c, r), d).at == Creating(n) ==> In(Next(s, c, r), n) == {}
      ensures HandlerOf(Next(s, c, r), d).at == Joining(n) ==> n in Next(s, c, r).registered
      ensures HandlerOf(Next(s, c, r), d).at == Erasing(n) ==> In(Next(s, c, r), n) == {}
    {
      StepKeepsPoint(s, c, r, d, n);
    }
  }

  // A step that leaves a registered room empty is the removal of its last member.
  lemma NewlyEmpty(s: State, c: Client, r: Request, n: RoomNumber)
    requires Inv(s)
    requires n in Next(s, c, r).registered && In(Next(s, c, r), n) == {} && !(n in s.registered && In(s, n) == {})
    ensures WillErase(HandlerOf(Next(s, c, r), c), n)
  {
    hide EmptyRoomsGo;
  }

  lemma EraserStays(s: State, c: Client, r: Request, n: RoomNumber)
    requires Inv(s) && WillErase(HandlerOf(s, c), n)
    requires n in Next(s, c, r).registered && n in s.registered && In(s, n) == {}
    ensures WillErase(HandlerOf(Next(s, c, r), c), n)
  {
    hide EmptyRoomsGo, NoStrays, ViewsAgree;
  }

  lemma StepKeepsErasers(s: State, c: Client, r: Request)
    requires Inv(s)
    ensures EmptyRoomsGo(Next(s, c, r))
  {
    hide Next, WillErase, NoStrays, PointsOk, ViewsAgree, MutexOk;
    var s' := Next(s, c, r);
    forall n: RoomNumber | n in s'.registered && In(s', n) == {}
      ensures exists d: Client :: WillErase(HandlerOf(s', d), n)
    {
      if n in s.registered && In(s, n) == {} {
        var d: Client :| WillErase(HandlerOf(s, d), n);
        if d == c { EraserStays(s, c, r, n); } else { OthersStay(s, c, r, d); }
        assert WillErase(HandlerOf(s', d), n);
      } else {
        NewlyEmpty(s, c, r, n);
      }
    }
  }

  lemma StepKeepsInv(s: State, c: Client, r: Request)
    requires Inv(s)
    ensures Inv(Next(s, c, r))
  {
    hide Next;
    StepKeepsMutex(s, c, r);
    StepKeepsViews(s, c, r);
    StepKeepsNumbers(s, c, r);
    StepKeepsOut(s, c, r);
    StepKeepsPoints(s, c, r);
    StepKeepsErasers(s, c, r);
  }

  lemma {:induction false} RunKeepsInv(s: State, turns: seq<Turn>)
    requires Inv(s)
    ensures Inv(Run(s, turns))
    decreases |turns|
  {
    hide Inv, Next;
    if turns != [] {
      StepKeepsInv(s, turns[0].c, turns[0].r);
      RunKeepsInv(Next(s, turns[0].c, turns[0].r), turns[1..]);
    }
  }

  lemma StartIsSafe()
    ensures Inv(START)
  {
  }

  // However the threads interleave, whenever the registry mutex is free: nobody is in an unregistered room, no
  // room is overfull, a client between requests has a room number exactly if it is in that room, and an empty
  // room that is still registered has a client that will look after it.
  lemma EveryMomentIsSafe(turns: seq<Turn>, c: Client, n: RoomNumber)
    requires Run(START, turns).holder.None?
    ensures var s := Run(START, turns);
      && (In(s, n) != {} ==> n in s.registered)
      && |In(s, n)| <= MAX_USERS
      && (HandlerOf(s, c).at.Idle? ==> (HandlerOf(s, c).roomNumber == Some(n) <==> c in In(s, n)))
      && (n in s.registered && In(s, n) == {} ==> exists d: Client :: HandlerOf(s, d).at == Removed(n))
  {
    hide Run;
    var s := Run(START, turns);
    StartIsSafe();
    RunKeepsInv(START, turns);
    if In(s, n) != {} { MembersAreRegistered(s, n); }
    assert |In(s, n)| <= MAX_USERS;
    assert c in In(s, n) <==> Whereabouts(HandlerOf(s, c)) == Some(n);
    if n in s.registered && In(s, n) == {} {
      var d: Client :| WillErase(HandlerOf(s, d), n);
      assert Holds(HandlerOf(s, d).at) <==> s.holder == Some(d);
    }
  }

  // An exit of a client that has a room always finds the room.
  lemma ExitFindsRoom(s: State, c: Client)
    requires Inv(s) && s.holder.None? && HandlerOf(s, c).at.Idle? && HandlerOf(s, c).roomNumber.Some?
    ensures var n := HandlerOf(s, c).roomNumber.value;
      n in s.registered && HandlerOf(Next(s, c, Exit), c) == Handler(None, Leaving(n))
  {
    hide MutexOk, PointsOk, EmptyRoomsGo, NumbersOk, UnderConstruction;
    var n := HandlerOf(s, c).roomNumber.value;
    assert c in In(s, n) <==> Whereabouts(HandlerOf(s, c)) == Some(n);
    MembersAreRegistered(s, n);
  }

  // And whatever the other clients do in between, it then removes the client from that room.
  lemma ExitSucceeds(s: State, c: Client, r: Request, n: RoomNumber)
    requires Inv(s) && HandlerOf(s, c).at == Leaving(n)
    ensures c in In(s, n) && In(Next(s, c, r), n) == In(s, n) - {c}
    ensures HandlerOf(Next(s, c, r), c) == Handler(None, Removed(n))
  {
    hide MutexOk, PointsOk, EmptyRoomsGo, NoStrays, UnderConstruction, Begin;
    assert c in In(s, n) <==> Whereabouts(HandlerOf(s, c)) == Some(n);
    assert HandlerOf(s, c).roomNumber.None?;
  }

  // A join that found the room takes the seat exactly if there still is one.
  lemma JoinTakesSeat(s: State, c: Client, r: Request, n: RoomNumber)
    requires Inv(s) && HandlerOf(s, c) == Handler(None, Joining(n))
    ensures var s' := Next(s, c, r);
      && s'.holder.None? && s'.registered == s.registered
      && if |In(s, n)| < 2 then In(s', n) == In(s, n) + {c} && HandlerOf(s', c) == Handler(None, Entered(n))
         else In(s', n) == In(s, n) && HandlerOf(s', c) == Handler(None, Idle)
  {
    hide MutexOk, EmptyRoomsGo, NoStrays, UnderConstruction, Begin;
    assert c in In(s, n) <==> Whereabouts(HandlerOf(s, c)) == Some(n);
    assert n in s.registered;
  }

  function Steps(c: Client, n: nat): seq<Turn> { if n == 0 then [] else [Turn.Turn(c, Exit)] + Steps(c, n - 1) }

  lemma RunSteps(s: State, c: Client, n: nat)
    requires n > 0
    ensures Run(s, Steps(c, n)) == Run(Next(s, c, Exit), Steps(c, n - 1))
  {
    assert Steps(c, n)[1..] == Steps(c, n - 1);
  }

  // Nobody in between, a join of a registered room with a free seat ends in that room.
  lemma JoinGetsThrough(s: State, c: Client, n: RoomNumber)
    requires Inv(s) && s.holder.None? && HandlerOf(s, c) == Handler(None, Idle)
    requires n in s.registered && |In(s, n)| < 2
    ensures var s' := Run(Next(s, c, Join(n)), Steps(c, 2));
      && In(s', n) == In(s, n) + {c} && HandlerOf(s', c) == Handler(Some(n), Idle) && s'.holder.None?
      && s'.registered == s.registered
  {
    hide Inv, In, CanAdd;
    var found := Next(s, c, Join(n));
    assert Inv(found) && In(found, n) == In(s, n) by {
      StepKeepsInv(s, c, Join(n));
      SeatsAreKept(s, c, Join(n), n);
    }
    JoinTakesSeat(found, c, Exit, n);
    SeatsAreKept(Next(found, c, Exit), c, Exit, n);
    RunSteps(found, c, 2);
    RunSteps(Next(found, c, Exit), c, 1);
  }

  lemma SeatsAreKept(s: State, c: Client, r: Request, n: RoomNumber)
    requires (HandlerOf(s, c).at.Idle? && !r.Create?) || HandlerOf(s, c).at.Entered?
    ensures In(Next(s, c, r), n) == In(s, n)
  {
  }

  // A create that has its number gets through: three sections later the client is the only member of a room that
  // others can find.
  lemma CreateGetsThrough(s: State, c: Client, n: RoomNumber)
    requires Inv(s) && HandlerOf(s, c) == Handler(None, Creating(n))
    ensures var s' := Run(s, Steps(c, 3));
      && In(s', n) == {c} && HandlerOf(s', c) == Handler(Some(n), Idle) && s'.holder.None?
      && s'.registered == s.registered + {n}
  {
    hide EmptyRoomsGo, ViewsAgree, Begin;
    assert Holds(HandlerOf(s, c).at) <==> s.holder == Some(c);
    assert UnderConstruction(s, n) && In(s, n) == {};
    RunSteps(s, c, 3);
    RunSteps(Next(s, c, Exit), c, 2);
    RunSteps(Next(Next(s, c, Exit), c, Exit), c, 1);
  }

  // The thread that took the last member out erases the room, unless somebody came in again.
  lemma EmptyRoomIsErased(s: State, c: Client, n: RoomNumber)
    requires Inv(s) && HandlerOf(s, c) == Handler(None, Removed(n)) && s.holder.None?
    ensures var s' := Run(s, Steps(c, 2));
      && s'.holder.None? && HandlerOf(s', c) == Handler(None, Idle)
      && s'.registered == if In(s, n) == {} then s.registered - {n} else s.registered
  {
    hide MutexOk, EmptyRoomsGo, ViewsAgree, CanAdd;
    RunSteps(s, c, 2);
    RunSteps(Next(s, c, Exit), c, 1);
  }

  // ---- erased rooms --------------------------------------------------------------------------

  // Room n existed and was erased.
  ghost predicate Erased(s: State, n: RoomNumber) {
    n in s.members && n !in s.registered && !UnderConstruction(s, n)
  }

  lemma ErasedStays(s: State, c: Client, r: Request, n: RoomNumber)
    requires Inv(s) && Erased(s, n)
    ensures Erased(Next(s, c, r), n) && s.nextRoomNumber <= Next(s, c, r).nextRoomNumber
  {
    hide EmptyRoomsGo, WillErase, ViewsAgree, Whereabouts, CanAdd;
    assert n < s.nextRoomNumber;
    assert Holds(HandlerOf(s, c).at) ==> s.holder == Some(c);
  }

  // An erased room never comes back and never has a member again; its number is below every number to come.
  lemma {:induction false} ErasedForGood(s: State, turns: seq<Turn>, n: RoomNumber)
    requires Inv(s) && Erased(s, n)
    ensures var s' := Run(s, turns);
      Erased(s', n) && In(s', n) == {} && n < s.nextRoomNumber <= s'.nextRoomNumber
    decreases |turns|
  {
    hide Next, MutexOk, ViewsAgree, PointsOk, EmptyRoomsGo;
    if turns != [] {
      StepKeepsInv(s, turns[0].c, turns[0].r);
      ErasedStays(s, turns[0].c, turns[0].r, n);
      ErasedForGood(Next(s, turns[0].c, turns[0].r), turns[1..], n);
    }
  }

  // A new room gets a number that no room had before.
  lemma NewRoomIsNew(s: State, c: Client)
    requires Inv(s) && s.holder.None? && HandlerOf(s, c) == Handler(None, Idle)
    ensures var s' := Next(s, c, Create);
      HandlerOf(s', c).at == Creating(s.nextRoomNumber) && s.nextRoomNumber !in s.members
      && s'.members.Keys == s.members.Keys + {s.nextRoomNumber} && s'.nextRoomNumber > s.nextRoomNumber
  {
    hide ViewsAgree, EmptyRoomsGo, PointsOk, NoStrays, MutexOk;
  }
}
