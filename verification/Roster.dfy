/** Pregame ownership of the four seats, in two indexes that mirror each other
    (server/game_runtime/_roster.py:66-191). */
module Roster {
  import opened Core

  type UserId(==, !new)
  type Policy(==, !new)

  /** Two HumanPlayer objects of one user differ in `serial`. */
  datatype Human = Human(user: UserId, serial: nat)

  datatype BotPlayer = BotPlayer(seat: Seat, policy: Policy)

  datatype Player = Person(human: Human) | Robot(bot: BotPlayer)

  datatype Binding = Binding(seat: Seat, player: Human)

  /** `made` counts the HumanPlayer objects made so far. */
  datatype State = State(players: map<Seat, Player>, humans: map<UserId, Binding>, frozen: bool, made: nat)

  function Empty(): State { State(map[], map[], false, 0) }

  const STARTED := "game already started"
  const INCOMPLETE := "not enough players"
  const OCCUPIED := "seat occupied"
  const NOT_YOURS := "user does not occupy seat"

  const ORDER: seq<Seat> := [A, B, C, D]

  /** The bot factory may refuse. */
  type Factory = (Seat, Policy) -> Result<BotPlayer>

  predicate Refuses(s: State, factory: Factory, policy: Policy, seat: Seat) {
    seat !in s.players && factory(seat, policy).Rejected?
  }

  /** Each binding is the human in its seat, and each human in a seat has its binding. */
  ghost predicate Mirrored(s: State) {
    && (forall u :: u in s.humans ==>
         && s.humans[u].player.user == u
         && s.humans[u].seat in s.players
         && s.players[s.humans[u].seat] == Person(s.humans[u].player))
    && (forall x :: x in s.players && s.players[x].Person? ==>
         var h := s.players[x].human;
         h.user in s.humans && s.humans[h.user] == Binding(x, h))
  }

  /** Occupying: the user's own seat again, a taken seat, or an empty one, left from where
      the user was. */
  function OnOccupy(s: State, seat: Seat, user: UserId): (State, Result<Human>) {
    if s.frozen then (s, Rejected(STARTED))
    else if user in s.humans && s.humans[user].seat == seat then (s, Ok(s.humans[user].player))
    else if seat in s.players then (s, Rejected(OCCUPIED))
    else
      var player := Human(user, s.made);
      var players := if user in s.humans then s.players - {s.humans[user].seat} else s.players;
      (State(players[seat := Person(player)], s.humans[user := Binding(seat, player)], s.frozen, s.made + 1),
       Ok(player))
  }

  predicate Owns(s: State, seat: Seat, user: UserId) { user in s.humans && s.humans[user].seat == seat }

  function OnVacate(s: State, seat: Seat, user: UserId): (State, Result<()>) {
    if s.frozen then (s, Rejected(STARTED))
    else if !Owns(s, seat, user) then (s, Rejected(NOT_YOURS))
    else (s.(players := s.players - {seat}, humans := s.humans - {user}), Ok(()))
  }

  /** Filling succeeds as a whole or changes nothing. */
  ghost predicate Filled(s: State, factory: Factory, policy: Policy, user: UserId, s': State, r: Result<()>) {
    && (r.Rejected? <==> s.frozen || user !in s.humans || exists x :: x in SEATS && Refuses(s, factory, policy, x))
    && (r.Rejected? ==> s' == s)
    && (r.Ok? ==>
         && s'.players.Keys == SEATS
         && s' == s.(players := s'.players)
         && (forall x :: x in SEATS ==>
              s'.players[x] == if x in s.players then s.players[x] else Robot(factory(x, policy).value)))
  }

  class SeatRoster {
    var players: map<Seat, Player>
    var humans: map<UserId, Binding>
    var frozen: bool
    var made: nat

    ghost function View(): State reads this { State(players, humans, frozen, made) }

    constructor ()
      ensures View() == Empty()
    {
      players, humans, frozen, made := map[], map[], false, 0;
    }

    method Occupy(seat: Seat, user: UserId) returns (r: Result<Human>)
      requires Mirrored(View())
      modifies this
      ensures Mirrored(View())
      ensures (View(), r) == OnOccupy(old(View()), seat, user)
    {
      OccupyKeeps(View(), seat, user);
      if frozen { return Rejected(STARTED); }
      if user in humans && humans[user].seat == seat { return Ok(humans[user].player); }
      if seat in players { return Rejected(OCCUPIED); }
      if user in humans {
        players := players - {humans[user].seat};
        humans := humans - {user};
      }
      var player := Human(user, made);
      made := made + 1;
      players := players[seat := Person(player)];
      humans := humans[user := Binding(seat, player)];
      r := Ok(player);
      assert View() == OnOccupy(old(View()), seat, user).0;
    }

    method Vacate(seat: Seat, user: UserId) returns (r: Result<()>)
      requires Mirrored(View())
      modifies this
      ensures Mirrored(View())
      ensures (View(), r) == OnVacate(old(View()), seat, user)
    {
      VacateKeeps(View(), seat, user);
      if frozen { return Rejected(STARTED); }
      if user !in humans || humans[user].seat != seat { return Rejected(NOT_YOURS); }
      humans := humans - {user};
      players := players - {seat};
      return Ok(());
    }

    method FillBots(factory: Factory, policy: Policy, user: UserId) returns (r: Result<()>)
      requires Mirrored(View())
      modifies this
      ensures Filled(old(View()), factory, policy, user, View(), r)
      ensures Mirrored(View())
    {
      ghost var before := View();
      if frozen { return Rejected(STARTED); }
      if user !in humans { return Rejected(NOT_YOURS); }
      var created: map<Seat, Player> := map[];
      for i := 0 to |ORDER|
        invariant View() == before
        invariant created.Keys == set x | x in ORDER[..i] && x !in players
        invariant forall x :: x in created ==>
          factory(x, policy).Ok? && created[x] == Robot(factory(x, policy).value)
      {
        var seat := ORDER[i];
        assert ORDER[..i + 1] == ORDER[..i] + [seat];
        if seat !in players {
          var result := factory(seat, policy);
          if result.Rejected? {
            EverySeat(seat);
            assert Refuses(before, factory, policy, seat);
            return Rejected(result.reason);
          }
          created := created[seat := Robot(result.value)];
        }
      }
      players := players + created;
      r := Ok(());
      OrderIsEverySeat();
      forall x | x in SEATS
        ensures !Refuses(before, factory, policy, x)
        ensures x in players
        ensures players[x] == if x in before.players then before.players[x] else Robot(factory(x, policy).value)
      {
        assert ORDER[..|ORDER|] == ORDER && x in ORDER;
      }
      forall x | x in players ensures x in SEATS { EverySeat(x); }
      FilledKeeps(before, factory, policy, user, View());
    }

    /** The matching human, through the ownership index. */
    method HumanAt(seat: Seat, user: UserId) returns (r: Result<Human>)
      requires Mirrored(View())
      ensures r.Ok? <==> Owns(View(), seat, user)
      ensures r.Ok? ==> seat in players && players[seat] == Person(r.value) && r.value.user == user
      ensures r.Rejected? ==> !(seat in players && players[seat].Person? && players[seat].human.user == user)
    {
      if user !in humans || humans[user].seat != seat { return Rejected(NOT_YOURS); }
      return Ok(humans[user].player);
    }

    /** Freezing succeeds once, on a total map, and returns it. */
    method Freeze() returns (r: Result<map<Seat, Player>>)
      modifies `frozen
      ensures r.Ok? <==> !old(frozen) && players.Keys == SEATS
      ensures r.Ok? ==> r.value == players
      ensures frozen == (old(frozen) || r.Ok?)
    {
      forall x | x in players ensures x in SEATS { EverySeat(x); }
      if frozen { return Rejected(STARTED); }
      if exists x :: x in SEATS && x !in players { return Rejected(INCOMPLETE); }
      frozen := true;
      return Ok(players);
    }

    method CloseUnstarted()
      requires !frozen
      modifies this
      ensures View() == State(map[], map[], false, old(made)) && Mirrored(View())
    {
      players := map[];
      humans := map[];
    }
  }

  lemma OrderIsEverySeat()
    ensures forall x: Seat :: x in ORDER
  {
    forall x: Seat ensures x in ORDER {
      match x
      case A => assert ORDER[0] == x;
      case B => assert ORDER[1] == x;
      case C => assert ORDER[2] == x;
      case D => assert ORDER[3] == x;
    }
  }

  // ---------------------------------------------------------------------------------

  /** The indexes stay mirrors, the user owns exactly the seat asked for, and everyone
      else and every bot keeps theirs. */
  lemma OccupyKeeps(s: State, seat: Seat, user: UserId)
    requires Mirrored(s)
    ensures var (s', r) := OnOccupy(s, seat, user);
      && Mirrored(s')
      && (r.Rejected? ==> s' == s)
      && (r.Ok? ==> Owns(s', seat, user) && s'.players[seat] == Person(r.value))
      && (r.Rejected? <==> s.frozen || (seat in s.players && !Owns(s, seat, user)))
      && (forall u :: u != user ==> (u in s'.humans <==> u in s.humans))
      && (forall u :: u != user && u in s.humans ==> s'.humans[u] == s.humans[u])
      && (forall x :: x in s.players && s.players[x].Robot? ==> x in s'.players && s'.players[x] == s.players[x])
      && s'.frozen == s.frozen
      && (s.frozen ==> r == Rejected(STARTED))
      && (!s.frozen && r.Rejected? ==> r == Rejected(OCCUPIED))
      && (!s.frozen && Owns(s, seat, user) ==> s' == s && r == Ok(s.humans[user].player))
      && (r.Ok? && !Owns(s, seat, user) ==> r == Ok(Human(user, s.made)) && s'.made == s.made + 1)
  {
  }

  lemma VacateKeeps(s: State, seat: Seat, user: UserId)
    requires Mirrored(s)
    ensures var (s', r) := OnVacate(s, seat, user);
      && Mirrored(s')
      && (r.Rejected? ==> s' == s)
      && (r.Ok? <==> !s.frozen && Owns(s, seat, user))
      && (r.Ok? ==> seat !in s'.players && user !in s'.humans)
      && (forall x :: x != seat ==> (x in s'.players <==> x in s.players))
      && (forall x :: x != seat && x in s.players ==> s'.players[x] == s.players[x])
      && s'.frozen == s.frozen && s'.made == s.made
      && (r.Rejected? ==> r == Rejected(if s.frozen then STARTED else NOT_YOURS))
  {
  }

  lemma FilledKeeps(s: State, factory: Factory, policy: Policy, user: UserId, s': State)
    requires Mirrored(s) && Filled(s, factory, policy, user, s', Ok(()))
    ensures Mirrored(s')
  {
    forall x | x in s'.players && s'.players[x].Person?
      ensures x in s.players && s.players[x] == s'.players[x]
    {
      EverySeat(x);
    }
    forall u | u in s.humans ensures s.humans[u].seat in s'.players { EverySeat(s.humans[u].seat); }
  }

  /** One user per human seat, and a seat for every user who owns one. */
  ghost predicate Paired(s: State) {
    && (forall x, u, v :: Owns(s, x, u) && Owns(s, x, v) ==> u == v)
    && (forall x, u :: Owns(s, x, u) ==> x in s.players && s.players[x].Person? && s.players[x].human.user == u)
    && (forall x :: x in s.players && s.players[x].Person? ==> Owns(s, x, s.players[x].human.user))
  }

  lemma MirroredPairs(s: State)
    requires Mirrored(s)
    ensures Paired(s)
  {
  }
}
