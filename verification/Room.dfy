/** One room: a lobby that becomes one session or is closed
    (server/game_runtime/_room.py:104-221, 279-311). Connecting is split at the await
    between freezing the roster and entering the active state. */
module Room {
  import opened Core
  import opened Roster

  datatype Lifecycle = Lobby | Active(session: nat) | Closed

  /** `starting` is the session whose start is awaited; `sessions` counts those created and
      `seated` is what the roster held when it froze. `faulted` marks the failed assertion
      in close. */
  datatype Room = Room(
    roster: State,
    lifecycle: Lifecycle,
    starting: Option<nat>,
    sessions: nat,
    seated: Option<map<Seat, Player>>,
    closing: set<nat>,
    faulted: bool)

  function Opened(): Room { Room(Empty(), Lobby, None, 0, None, {}, false) }

  datatype Step =
    | Occupy(seat: Seat, user: UserId)
    | Vacate(seat: Seat, user: UserId)
    | FillBots(factory: Factory, policy: Policy, user: UserId, after: State, result: Result<()>)
    | Connect(seat: Seat, user: UserId)
    | StartDone
    | StartFails
    | Close

  ghost predicate Enabled(r: Room, step: Step) {
    match step
    case FillBots(factory, policy, user, after, result) =>
      r.lifecycle.Lobby? ==> Filled(r.roster, factory, policy, user, after, result)
    case StartDone => r.starting.Some?
    case StartFails => r.starting.Some?
    case _ => true
  }

  /** connect_seat up to its first await: the closed room, the wrong user, the roster
      already frozen and the incomplete roster are refused. */
  function OnConnect(r: Room, seat: Seat, user: UserId): Room {
    if !r.lifecycle.Lobby? || !Owns(r.roster, seat, user) then r
    else if r.roster.frozen || r.roster.players.Keys != SEATS then r
    else
      r.(roster := r.roster.(frozen := true), starting := Some(r.sessions), sessions := r.sessions + 1,
         seated := Some(r.roster.players))
  }

  /** close(): in the lobby it asserts that the roster was never frozen. */
  function OnClose(r: Room): Room {
    match r.lifecycle
    case Closed => r
    case Lobby =>
      if r.roster.frozen then r.(lifecycle := Closed, faulted := true)
      else r.(lifecycle := Closed, roster := State(map[], map[], false, r.roster.made))
    case Active(session) => r.(lifecycle := Closed, closing := r.closing + {session})
  }

  function Next(r: Room, step: Step): Room
    requires Enabled(r, step)
  {
    match step
    case Occupy(seat, user) =>
      if r.lifecycle.Lobby? then r.(roster := OnOccupy(r.roster, seat, user).0) else r
    case Vacate(seat, user) =>
      if r.lifecycle.Lobby? then r.(roster := OnVacate(r.roster, seat, user).0) else r
    case FillBots(_, _, _, after, _) => if r.lifecycle.Lobby? then r.(roster := after) else r
    case Connect(seat, user) => OnConnect(r, seat, user)
    case StartDone => r.(lifecycle := Active(r.starting.value), starting := None)
    case StartFails => r.(starting := None)
    case Close => OnClose(r)
  }

  // ---------------------------------------------------------------------------------
  // The object whose fields change

  class GameRoom {
    const roster: SeatRoster
    var lifecycle: Lifecycle
    var starting: Option<nat>
    var sessions: nat
    var seated: Option<map<Seat, Player>>
    var closing: set<nat>
    var faulted: bool

    ghost function View(): Room
      reads this, roster
    {
      Room(roster.View(), lifecycle, starting, sessions, seated, closing, faulted)
    }

    constructor ()
      ensures fresh(roster) && View() == Opened()
    {
      roster := new SeatRoster();
      lifecycle, starting, sessions, seated := Lobby, None, 0, None;
      closing, faulted := {}, false;
    }

    method OccupySeat(seat: Seat, user: UserId) returns (r: Result<Seat>)
      requires Mirrored(roster.View())
      modifies roster
      ensures View() == Next(old(View()), Step.Occupy(seat, user))
      ensures r.Ok? <==> lifecycle.Lobby? && OnOccupy(old(roster.View()), seat, user).1.Ok?
      ensures r.Ok? ==> r.value == seat && Owns(roster.View(), seat, user)
      ensures r.Rejected? ==> View() == old(View())
    {
      if !lifecycle.Lobby? { return Rejected("game closed or started"); }
      var result := roster.Occupy(seat, user);
      if result.Rejected? { return Rejected(result.reason); }
      return Ok(seat);
    }

    method VacateSeat(seat: Seat, user: UserId) returns (r: Result<()>)
      requires Mirrored(roster.View())
      modifies roster
      ensures View() == Next(old(View()), Step.Vacate(seat, user))
      ensures r.Ok? <==> lifecycle.Lobby? && !old(roster.frozen) && Owns(old(roster.View()), seat, user)
      ensures r.Rejected? ==> View() == old(View())
    {
      if !lifecycle.Lobby? { return Rejected("game closed or started"); }
      r := roster.Vacate(seat, user);
    }

    /** connect_seat up to its first await. */
    method ConnectSeat(seat: Seat, user: UserId) returns (r: Result<Option<nat>>)
      requires Mirrored(roster.View())
      modifies this, roster
      ensures View() == OnConnect(old(View()), seat, user)
      ensures r.Ok? <==>
        && Owns(old(roster.View()), seat, user)
        && (old(lifecycle).Active?
            || (old(lifecycle).Lobby? && !old(roster.frozen) && old(roster.players).Keys == SEATS))
      ensures sessions == old(sessions) + if r.Ok? && old(lifecycle).Lobby? then 1 else 0
      ensures r.Ok? ==> r.value == if old(lifecycle).Active? then None else starting
      ensures r.Rejected? ==> View() == old(View())
    {
      if lifecycle.Closed? { return Rejected("game closed"); }
      var human := roster.HumanAt(seat, user);
      if human.Rejected? { return Rejected(human.reason); }
      if lifecycle.Lobby? {
        var players := roster.Freeze();
        if players.Rejected? { return Rejected(players.reason); }
        seated := Some(players.value);
        starting := Some(sessions);
        sessions := sessions + 1;
        return Ok(starting);
      }
      return Ok(None);
    }

    /** The rest of connect_seat, once the session has started. */
    method SessionStarted()
      requires starting.Some?
      modifies this
      ensures View() == Next(old(View()), Step.StartDone)
      ensures lifecycle == Active(old(starting).value) && starting == None && closing == old(closing)
    {
      lifecycle := Active(starting.value);
      starting := None;
    }

    method CloseRoom()
      requires Mirrored(roster.View())
      modifies this, roster
      ensures View() == OnClose(old(View()))
      ensures lifecycle.Closed? && starting == old(starting)
      ensures closing == old(closing) + if old(lifecycle).Active? then {old(lifecycle).session} else {}
      ensures old(lifecycle).Lobby? && !old(roster.frozen) ==> roster.players == map[] && roster.humans == map[]
      ensures !old(lifecycle).Lobby? || old(roster.frozen) ==> roster.View() == old(roster.View())
    {
      var before := lifecycle;
      if before.Closed? { return; }
      lifecycle := Closed;
      if before.Lobby? {
        if roster.frozen {
          faulted := true;
        } else {
          roster.CloseUnstarted();
        }
      } else {
        closing := closing + {before.session};
      }
    }
  }

  ghost predicate Feasible(r: Room, steps: seq<Step>)
    decreases |steps|
  {
    steps == [] || (Enabled(r, steps[0]) && Feasible(Next(r, steps[0]), steps[1..]))
  }

  ghost function Run(r: Room, steps: seq<Step>): Room
    requires Feasible(r, steps)
    decreases |steps|
  {
    if steps == [] then r else Run(Next(r, steps[0]), steps[1..])
  }

  ghost predicate Inv(r: Room) {
    && Mirrored(r.roster)
    && r.sessions == (if r.roster.frozen then 1 else 0)
    && (r.starting.Some? ==> r.roster.frozen && r.starting.value == 0)
    && (r.lifecycle.Active? ==> r.roster.frozen && r.starting.None? && r.lifecycle.session == 0)
    && r.closing <= (if r.roster.frozen then {0} else {})
    && (r.seated.Some? <==> r.roster.frozen)
    && (r.seated.Some? ==> r.seated.value == r.roster.players && r.roster.players.Keys == SEATS)
  }

  lemma StepKeeps(r: Room, step: Step)
    requires Inv(r) && Enabled(r, step)
    ensures Inv(Next(r, step))
  {
    hide Mirrored, OnOccupy, OnVacate, Filled;
    match step
    case Occupy(seat, user) =>
      OccupyKeeps(r.roster, seat, user);
      FrozenKeepsSeats(r.roster, seat, user);
    case Vacate(seat, user) =>
      VacateKeeps(r.roster, seat, user);
      FrozenKeepsSeats(r.roster, seat, user);
    case FillBots(factory, policy, user, after, result) =>
      if r.lifecycle.Lobby? {
        FilledOutcome(r.roster, factory, policy, user, after, result);
        if result.Ok? { FilledKeeps(r.roster, factory, policy, user, after); }
      }
    case Connect(seat, user) => FreezingKeepsMirrors(r.roster);
    case Close => NothingMirrors(r.roster.made);
    case _ =>
  }

  lemma FrozenKeepsSeats(s: State, seat: Seat, user: UserId)
    ensures s.frozen ==> OnOccupy(s, seat, user).0 == s && OnVacate(s, seat, user).0 == s
    ensures OnOccupy(s, seat, user).0.frozen == s.frozen && OnVacate(s, seat, user).0.frozen == s.frozen
  {
  }

  lemma FilledOutcome(s: State, factory: Factory, policy: Policy, user: UserId, after: State, result: Result<()>)
    requires Filled(s, factory, policy, user, after, result)
    ensures after.frozen == s.frozen
    ensures s.frozen ==> after == s
    ensures result.Rejected? ==> after == s
    ensures result.Ok? ==> Filled(s, factory, policy, user, after, Ok(()))
  {
  }

  lemma FreezingKeepsMirrors(s: State)
    requires Mirrored(s)
    ensures Mirrored(s.(frozen := true))
  {
  }

  lemma NothingMirrors(made: nat)
    ensures Mirrored(State(map[], map[], false, made))
  {
  }

  lemma {:induction false} RunKeeps(r: Room, steps: seq<Step>)
    requires Inv(r) && Feasible(r, steps)
    ensures Inv(Run(r, steps))
    decreases |steps|
  {
    hide Inv, Next, Enabled;
    if steps != [] {
      StepKeeps(r, steps[0]);
      RunKeeps(Next(r, steps[0]), steps[1..]);
    }
  }

  /** Over all interleavings of calls, a room creates at most one session, from a roster
      that was total when it froze and is never changed afterwards; and the two indexes of
      the roster always mirror each other, so each human seat has one user and each user
      one seat. */
  lemma AtMostOneSession(steps: seq<Step>)
    requires Feasible(Opened(), steps)
    ensures var r := Run(Opened(), steps);
      && r.sessions <= 1
      && (r.sessions == 1 <==> r.seated.Some?)
      && (r.seated.Some? ==> r.seated.value.Keys == SEATS && r.roster.players == r.seated.value)
      && (r.lifecycle.Active? ==> r.lifecycle.session == 0)
      && Mirrored(r.roster) && Paired(r.roster)
  {
    NothingMirrors(0);
    assert Inv(Opened());
    RunKeeps(Opened(), steps);
    MirroredPairs(Run(Opened(), steps).roster);
    hide Mirrored, Paired;
  }

  /** Connecting creates a session if and only if the room is in its lobby, the seat is the
      user's, and the roster is total and was never frozen; otherwise it changes nothing. */
  lemma ConnectStartsIff(r: Room, seat: Seat, user: UserId)
    ensures var r' := Next(r, Connect(seat, user));
      && (r'.sessions == r.sessions + 1 <==>
            r.lifecycle.Lobby? && Owns(r.roster, seat, user) && !r.roster.frozen && r.roster.players.Keys == SEATS)
      && (r'.sessions == r.sessions + 1 ==>
            && r'.starting == Some(r.sessions) && r'.seated == Some(r.roster.players)
            && r'.roster == r.roster.(frozen := true) && r'.lifecycle == r.lifecycle)
      && (r'.sessions != r.sessions + 1 ==> r' == r)
  {
  }

  /** The assertion in close fails exactly when the room is still in the lobby although its
      roster is frozen: a connect is waiting for its session, or its start failed. */
  lemma CloseFaultsIff(r: Room)
    ensures !r.faulted ==> (OnClose(r).faulted <==> r.lifecycle.Lobby? && r.roster.frozen)
  {
  }

  lemma {:induction false} ClosedUnlessStarting(r: Room, steps: seq<Step>)
    requires r.lifecycle.Closed? && r.starting.None? && Feasible(r, steps)
    ensures Run(r, steps).lifecycle.Closed?
    decreases |steps|
  {
    if steps != [] { ClosedUnlessStarting(Next(r, steps[0]), steps[1..]); }
  }

  /** A closed room stays closed exactly when no connect was waiting for its session. */
  lemma ClosedForGoodIff(r: Room)
    requires r.lifecycle.Closed?
    ensures (forall steps :: Feasible(r, steps) ==> Run(r, steps).lifecycle.Closed?) <==> r.starting.None?
  {
    if r.starting.None? {
      forall steps | Feasible(r, steps) ensures Run(r, steps).lifecycle.Closed? {
        ClosedUnlessStarting(r, steps);
      }
    } else {
      var steps := [StartDone];
      assert Feasible(Next(r, StartDone), []);
      assert Feasible(r, steps);
      assert Run(r, steps) == Run(Next(r, StartDone), []);
    }
  }

  /** Such a run: four people sit down, one connects, the room is closed while the session
      starts, and the room is active again with nothing left to close it. */
  lemma CloseDuringStartReopens(u: seq<UserId>)
    requires |u| == 4 && forall i, j :: 0 <= i < j < 4 ==> u[i] != u[j]
    ensures exists steps :: Feasible(Opened(), steps) && Run(Opened(), steps).lifecycle == Active(0)
                            && Run(Opened(), steps).faulted
  {
    var r0 := Opened();
    var r1 := Next(r0, Occupy(A, u[0]));
    var r2 := Next(r1, Occupy(B, u[1]));
    var r3 := Next(r2, Occupy(C, u[2]));
    var r4 := Next(r3, Occupy(D, u[3]));
    assert r4.roster.players.Keys == SEATS;
    var r5 := Next(r4, Connect(A, u[0]));
    var r6 := Next(r5, Close);
    var r7 := Next(r6, StartDone);
    assert r7.lifecycle == Active(0) && r7.faulted;
    var s7: seq<Step> := [];
    var s6 := [StartDone];
    var s5 := [Close] + s6;
    var s4 := [Connect(A, u[0])] + s5;
    var s3 := [Occupy(D, u[3])] + s4;
    var s2 := [Occupy(C, u[2])] + s3;
    var s1 := [Occupy(B, u[1])] + s2;
    var s0 := [Occupy(A, u[0])] + s1;
    hide Next, OnConnect, OnClose, OnOccupy;
    Prepend(r6, StartDone, s7);
    Prepend(r5, Close, s6);
    Prepend(r4, Connect(A, u[0]), s5);
    Prepend(r3, Occupy(D, u[3]), s4);
    Prepend(r2, Occupy(C, u[2]), s3);
    Prepend(r1, Occupy(B, u[1]), s2);
    Prepend(r0, Occupy(A, u[0]), s1);
  }

  lemma Prepend(r: Room, step: Step, steps: seq<Step>)
    requires Enabled(r, step) && Feasible(Next(r, step), steps)
    ensures Feasible(r, [step] + steps)
    ensures Run(r, [step] + steps) == Run(Next(r, step), steps)
  {
    assert ([step] + steps)[1..] == steps;
  }
}
