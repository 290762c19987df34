/** The engine's table of matches: creating, finding and ticking them. */
module DuelMatches {
  import opened Common
  import opened SortedSets
  import opened DuelModel
  import opened DuelInvariant
  import opened DuelEngine
  import opened DuelSafety
  import opened DuelLedger
  import opened DuelProgress
  import opened DuelRuns
  import opened DuelLaws
  import opened Passes

  datatype ModeChoice = NoChoice | Chosen(mode: Mode) | OtherMode
  datatype Options = Options(mode: ModeChoice, config: MatchConfig, picks: map<UserId, string>)
  datatype EngineError =
    | DuelNeedsTwo | PartySize | UnsupportedMode | ProviderRequired | NoFirstRound | AlreadyExists | NeedsBothTeams
    | MatchNotFound | PlayerNotInMatch | Refused(reason: GuessError)

  // ----- seating --------------------------------------------------------------

  function Pick(picks: map<UserId, string>, u: UserId): TeamId {
    if u in picks && picks[u] == "b" then B else A
  }

  function Seat(mode: Mode, picks: map<UserId, string>, u: UserId): Player {
    Player(STARTING_HP, 0, if mode == TeamDuel then Some(Pick(picks, u)) else None, false, false, Point(0.0, 0.0), false, 0)
  }

  function Seated(mode: Mode, picks: map<UserId, string>, users: seq<UserId>): map<UserId, Player> {
    map u | u in users :: Seat(mode, picks, u)
  }

  /** The members of one side, in the order the users were listed. */
  function Side(picks: map<UserId, string>, users: seq<UserId>, t: TeamId): (r: seq<UserId>)
    ensures forall u :: u in r <==> u in users && Pick(picks, u) == t
  {
    if users == [] then []
    else
      var last := users[|users| - 1];
      Side(picks, users[..|users| - 1], t) + if Pick(picks, last) == t then [last] else []
  }

  /** Whoever comes first on a side was listed first. */
  lemma {:induction false} SideInOrder(picks: map<UserId, string>, users: seq<UserId>, t: TeamId, i: nat, j: nat) returns (a: nat, b: nat)
    requires i < j < |Side(picks, users, t)|
    ensures a < b < |users| && users[a] == Side(picks, users, t)[i] && users[b] == Side(picks, users, t)[j]
  {
    var before := users[..|users| - 1];
    if j < |Side(picks, before, t)| {
      a, b := SideInOrder(picks, before, t, i, j);
    } else {
      assert Side(picks, before, t)[i] in before;
      a :| 0 <= a < |before| && before[a] == Side(picks, before, t)[i];
      b := |users| - 1;
    }
  }

  function BothSides(picks: map<UserId, string>, users: seq<UserId>): map<TeamId, Team> {
    map[A := Team(STARTING_HP, Side(picks, users, A)), B := Team(STARTING_HP, Side(picks, users, B))]
  }

  lemma NobodySided(picks: map<UserId, string>)
    ensures BothSides(picks, []) == map[A := Team(STARTING_HP, []), B := Team(STARTING_HP, [])]
  {
  }

  lemma OneMoreSided(picks: map<UserId, string>, users: seq<UserId>, i: nat)
    requires i < |users|
    ensures var teams, t := BothSides(picks, users[..i]), Pick(picks, users[i]);
            BothSides(picks, users[..i + 1]) == teams[t := teams[t].(players := teams[t].players + [users[i]])]
  {
    hide Pick, Side;
    var before, more := users[..i], users[..i + 1];
    assert more[..|more| - 1] == before && more[|more| - 1] == users[i];
    SideGrows(picks, more, A);
    SideGrows(picks, more, B);
    assert Side(picks, before, A) + [] == Side(picks, before, A);
    assert Side(picks, before, B) + [] == Side(picks, before, B);
    match Pick(picks, users[i])
    case A =>
    case B =>
  }

  lemma SideGrows(picks: map<UserId, string>, users: seq<UserId>, t: TeamId)
    requires users != []
    ensures var last := users[|users| - 1];
            Side(picks, users, t) == Side(picks, users[..|users| - 1], t) + if Pick(picks, last) == t then [last] else []
  {
  }

  /** The sides that have anyone on them. */
  function Sides(picks: map<UserId, string>, users: seq<UserId>): map<TeamId, Team> {
    var teams := BothSides(picks, users);
    map t | t in teams && teams[t].players != [] :: teams[t]
  }

  function Formed(mode: Mode, picks: map<UserId, string>, users: seq<UserId>): map<TeamId, Team> {
    if mode == TeamDuel then Sides(picks, users) else map[]
  }

  predicate BothPicked(picks: map<UserId, string>, users: seq<UserId>) {
    (exists u <- users :: Pick(picks, u) == A) && (exists u <- users :: Pick(picks, u) == B)
  }

  lemma TwoTeams<T>(m: map<TeamId, T>)
    requires A in m && B in m
    ensures BothTeams(m)
  {
    forall t: TeamId ensures t in m {
      if t != A { assert t == B; }
    }
  }

  lemma PairSize(s: set<TeamId>)
    ensures |s| == 2 <==> A in s && B in s
  {
    assert forall t <- s :: t == A || t == B;
    if A in s && B in s {
      assert s == {A, B};
    } else if A in s {
      assert s == {A};
    } else if B in s {
      assert s == {B};
    } else {
      assert s == {};
    }
  }

  lemma SideTaken(picks: map<UserId, string>, users: seq<UserId>, t: TeamId)
    ensures Side(picks, users, t) != [] <==> exists u <- users :: Pick(picks, u) == t
  {
    hide Pick;
    var side := Side(picks, users, t);
    if side != [] {
      assert side[0] in side && side[0] in users;
    }
    if u :| u in users && Pick(picks, u) == t {
      assert u in side;
    }
  }

  lemma SidesPartition(picks: map<UserId, string>, users: seq<UserId>)
    ensures |Sides(picks, users)| == 2 <==> BothPicked(picks, users)
    ensures |Sides(picks, users)| == 2 ==> TeamsPartition(Sides(picks, users), Seated(TeamDuel, picks, users).Keys)
  {
    hide Side, Pick;
    var teams := Sides(picks, users);
    SideTaken(picks, users, A);
    SideTaken(picks, users, B);
    PairSize(teams.Keys);
    assert |teams| == |teams.Keys|;
    if A in teams && B in teams {
      TwoTeams(teams);
      SidesSplit(picks, users);
      assert Seated(TeamDuel, picks, users).Keys == set u | u in users;
    }
  }

  /** Each user is on the side picked, and not on the other. */
  lemma SidesSplit(picks: map<UserId, string>, users: seq<UserId>)
    requires BothTeams(Sides(picks, users))
    ensures TeamsPartition(Sides(picks, users), set u | u in users)
  {
    hide Side, Pick;
    var teams := Sides(picks, users);
    forall t: TeamId ensures teams[t].players == Side(picks, users, t) && teams[t].players != [] {
      if t != A { assert t == B; }
    }
    forall u <- users ensures (u in teams[A].players) != (u in teams[B].players) {
      if Pick(picks, u) != A { assert Pick(picks, u) == B; }
    }
  }

  /** Why a match is refused, if it is. */
  function CreateRefusal(world: Option<World>, known: set<string>, id: string, users: seq<UserId>, opts: Options): Option<EngineError> {
    var mode := ModeOf(opts);
    if opts.mode.OtherMode? then Some(UnsupportedMode)
    else if mode == Duel && |users| != 2 then Some(DuelNeedsTwo)
    else if mode != Duel && (|users| < 2 || |users| > 8) then Some(PartySize)
    else if world.None? then Some(ProviderRequired)
    else if world.value.provider(id, 0).None? then Some(NoFirstRound)
    else if id in known then Some(AlreadyExists)
    else if mode == TeamDuel && !BothPicked(opts.picks, users) then Some(NeedsBothTeams)
    else None
  }

  /** A match is made exactly for two players, or for a party of two to eight with both sides picked if they matter, once the provider has a place and the id is free. */
  lemma AcceptedExactly(world: Option<World>, known: set<string>, id: string, users: seq<UserId>, opts: Options)
    ensures CreateRefusal(world, known, id, users, opts).None? <==>
              && !opts.mode.OtherMode?
              && (if opts.mode.Chosen? && opts.mode.mode != Duel then 2 <= |users| <= 8 else |users| == 2)
              && world.Some? && world.value.provider(id, 0).Some? && id !in known
              && (opts.mode == Chosen(TeamDuel) ==>
                    && (exists u <- users :: u in opts.picks && opts.picks[u] == "b")
                    && exists u <- users :: !(u in opts.picks && opts.picks[u] == "b"))
  {
    assert forall u: UserId :: Pick(opts.picks, u) == B <==> u in opts.picks && opts.picks[u] == "b";
    assert forall u: UserId :: Pick(opts.picks, u) == A <==> !(u in opts.picks && opts.picks[u] == "b");
  }

  function ModeOf(opts: Options): Mode {
    if opts.mode.Chosen? then opts.mode.mode else Duel
  }

  ghost function Created(world: World, id: string, users: seq<UserId>, opts: Options, now: int): MatchData {
    var mode := ModeOf(opts);
    Opened(id, mode, opts.config, world.provider(id, 0).GetOr(Point(0.0, 0.0)),
           Seated(mode, opts.picks, users), Formed(mode, opts.picks, users), now)
  }

  /** Every match the engine accepts starts out with all that runs rely on. */
  lemma CreatedSound(world: World, known: set<string>, id: string, users: seq<UserId>, opts: Options, now: int)
    requires CreateRefusal(Some(world), known, id, users, opts).None?
    ensures var m := Created(world, id, users, opts, now);
            && Valid(m) && Playable(m) && Ledger(m) && AllBalanced(m)
            && RoundsOnce(m) && Tidy(m) && DeadlineExact(m) && GraceKept(m) && m.guesses == map[] && m.state == Live && m.index == 0
  {
    hide Valid, Playable, Ledger, AllBalanced, RoundsOnce, DeadlineExact, NormalizeMatchConfig, TeamsPartition, Opened, Sides;
    var mode := ModeOf(opts);
    var players, teams := Seated(mode, opts.picks, users), Formed(mode, opts.picks, users);
    assert users[0] in players;
    SidesPartition(opts.picks, users);
    SidesFresh(opts.picks, users);
    assert players.Keys == Seated(TeamDuel, opts.picks, users).Keys;
    var first := world.provider(id, 0).GetOr(Point(0.0, 0.0));
    OpenedSound(id, mode, opts.config, first, players, teams, now);
    OpenedConnected(id, mode, opts.config, first, players, teams, now);
  }

  lemma CreatedKept(world: World, known: set<string>, id: string, users: seq<UserId>, opts: Options, t: Time)
    requires CreateRefusal(Some(world), known, id, users, opts).None? && (t.steady ==> t.clock >= 0)
    ensures Kept(Created(world, id, users, opts, t.clock), t)
  {
    hide CreateRefusal, Valid, Playable, Ledger, AllBalanced, GraceKept, RoundsOnce, Tidy, DeadlineExact;
    CreatedSound(world, known, id, users, opts, t.clock);
  }

  /** A new match is at the provider's first location, and its players are just those asked for, on the sides they picked. */
  lemma CreatedSeats(world: World, known: set<string>, id: string, users: seq<UserId>, opts: Options, now: int)
    requires CreateRefusal(Some(world), known, id, users, opts).None?
    ensures var m := Created(world, id, users, opts, now);
            && m.id == id && Placed(world, m) && m.results == [] && m.startedAt == now
            && (forall u :: u in m.players <==> u in users)
            && (forall u <- m.players :: m.players[u].hp == 6000 && m.players[u].totalScore == 0 && !m.players[u].disconnected)
            && (m.mode != TeamDuel ==> m.teams == map[])
            && (m.mode == TeamDuel ==>
                  A in m.teams && B in m.teams
                  && forall u <- users :: (u in m.teams[B].players <==> u in opts.picks && opts.picks[u] == "b")
                                          && (u in m.teams[A].players <==> !(u in opts.picks && opts.picks[u] == "b")))
  {
    hide NormalizeMatchConfig, FixedDeadline, RoundId;
    SidesPartition(opts.picks, users);
    var m := Created(world, id, users, opts, now);
    if m.mode == TeamDuel {
      assert |Sides(opts.picks, users)| == 2;
    }
  }

  /** From an accepted request on, whatever happens: the books balance, HP only falls, rounds are played where the provider puts them, and on a steady clock deadlines are exact. */
  lemma CreatedRun(world: World, known: set<string>, id: string, users: seq<UserId>, opts: Options, now: int, run: seq<Event>)
    requires CreateRefusal(Some(world), known, id, users, opts).None?
    ensures var m := Created(world, id, users, opts, now);
            && DuelInvariant.Valid(m)
            && var r := After(world, m, run);
               && Playable(r) && Ledger(r) && AllBalanced(r) && NeverRises(m, r) && Placed(world, r)
               && (Ordered(now, run) ==> DeadlineExact(r))
  {
    hide CreateRefusal, DuelInvariant.Valid, Playable, Ledger, AllBalanced, NeverRises, GraceKept, RoundsOnce, Tidy, DeadlineExact, Placed, Created, After, Ordered;
    var m := Created(world, id, users, opts, now);
    CreatedSound(world, known, id, users, opts, now);
    RunKeepsBooks(world, m, run);
    CreatedSeats(world, known, id, users, opts, now);
    RunKeepsPlaced(world, m, run);
    if Ordered(now, run) { RunKeepsDeadlines(world, m, now, run); }
  }

  lemma OpenedId(id: string, mode: Mode, config: MatchConfig, first: Point, players: map<UserId, Player>, teams: map<TeamId, Team>, now: int)
    ensures Opened(id, mode, config, first, players, teams, now).id == id
  {
  }

  lemma OpenedConnected(id: string, mode: Mode, config: MatchConfig, first: Point, players: map<UserId, Player>, teams: map<TeamId, Team>, now: int)
    requires Fresh(players)
    ensures var m := Opened(id, mode, config, first, players, teams, now); GraceKept(m) && m.guesses == map[]
  {
  }

  lemma SidesFresh(picks: map<UserId, string>, users: seq<UserId>)
    ensures FreshTeams(Sides(picks, users))
  {
  }

  /** What a Tick makes of the whole table. */
  ghost function TableTicked(w: Option<World>, table: map<string, MatchData>, now: int): (r: map<string, MatchData>)
    requires forall id <- table :: DuelInvariant.Valid(table[id])
    requires table == map[] || w.Some?
    ensures r.Keys == table.Keys
  {
    map id | id in table :: Apply(w.value, table[id], Op.Tick, now)
  }

  lemma TickedAt(w: Option<World>, table: map<string, MatchData>, now: int, id: string)
    ensures (forall i <- table :: DuelInvariant.Valid(table[i])) && id in table && w.Some? ==>
              TableTicked(w, table, now)[id] == Apply(w.value, table[id], Op.Tick, now)
  {
    hide DuelInvariant.Valid, Apply;
  }

  /** Listed so far: each changed entry outside `todo`, once. */
  ghost predicate PassChanged(table: map<string, MatchData>, target: map<string, MatchData>, todo: set<string>, changed: seq<string>)
    requires table.Keys == target.Keys
  {
    && (forall id :: id in changed <==> id in table && id !in todo && target[id] != table[id])
    && forall i, j | 0 <= i < j < |changed| :: changed[i] != changed[j]
  }

  lemma ChangedStart(table: map<string, MatchData>, target: map<string, MatchData>)
    requires table.Keys == target.Keys
    ensures PassChanged(table, target, table.Keys, [])
  {
  }

  lemma ChangedStep(table: map<string, MatchData>, target: map<string, MatchData>, todo: set<string>, changed: seq<string>, id: string)
    requires table.Keys == target.Keys && id in todo && id in table && PassChanged(table, target, todo, changed)
    ensures PassChanged(table, target, todo - {id}, if target[id] != table[id] then changed + [id] else changed)
  {
    assert id !in changed;
  }

  lemma ChangedDone(table: map<string, MatchData>, target: map<string, MatchData>, changed: seq<string>)
    requires table.Keys == target.Keys && PassChanged(table, target, {}, changed)
    ensures forall id :: id in changed <==> id in table && target[id] != table[id]
    ensures forall i, j | 0 <= i < j < |changed| :: changed[i] != changed[j]
  {
  }

  /** The latest clock reading, and whether the clock has never run backwards. */
  datatype Time = Time(steady: bool, clock: int)

  function Later(t: Time, now: int): Time {
    Time(t.steady && 0 <= t.clock <= now, now)
  }

  /** What every match in the table satisfies: the invariant and the books always, grace periods and exact deadlines on a steady clock. */
  ghost predicate Kept(m: MatchData, t: Time) {
    && DuelInvariant.Valid(m) && Playable(m) && Ledger(m) && AllBalanced(m)
    && (t.steady ==> GraceKept(m) && 0 <= m.lastActivity <= t.clock && DeadlineExact(m) && Past(m, t.clock))
  }

  lemma KeptLater(m: MatchData, t: Time, now: int)
    requires Kept(m, t)
    ensures Kept(m, Later(t, now))
  {
    hide DuelInvariant.Valid, Playable, Ledger, AllBalanced, GraceKept, DeadlineExact;
  }

  lemma OpKept(w: World, m: MatchData, op: Op, t: Time)
    requires Kept(m, t)
    ensures Kept(Apply(w, m, op, t.clock), t)
  {
    hide DuelInvariant.Valid, Playable, Ledger, AllBalanced, GraceKept, DeadlineExact, Past, Apply;
    OpKeepsValid(w, m, op, t.clock);
    OpKeepsLedger(w, m, op, t.clock);
    if t.steady {
      OpKeepsGrace(w, m, op, t.clock);
      OpKeepsDeadline(w, m, op, t.clock);
    }
  }

  /** A Tick shows in the sequence number exactly if it changed the match. */
  lemma TickKept(w: World, m: MatchData, t: Time)
    requires Kept(m, t)
    ensures Kept(Apply(w, m, Op.Tick, t.clock), t)
    ensures Playable(m) && Apply(w, m, Op.Tick, t.clock) == Ticked(w, m, t.clock)
    ensures Apply(w, m, Op.Tick, t.clock) == m <==> Apply(w, m, Op.Tick, t.clock).eventSeq == m.eventSeq
  {
    hide DuelInvariant.Valid, Playable, Ledger, AllBalanced, GraceKept, DeadlineExact, Past, Ticked;
    OpKept(w, m, Op.Tick, t);
    ChangeRaisesEventSeq(w, m, Op.Tick, t.clock);
  }

  class Engine {
    const world: Option<World>
    var matches: map<string, Match>
    ghost var time: Time

    /** Matches are filed under their own id, so no two entries share an object. */
    ghost predicate Valid()
      reads this, matches.Values
    {
      && (matches != map[] ==> world.Some?)
      && (time.steady ==> time.clock >= 0)
      && forall id <- matches :: matches[id].id == id && Kept(matches[id].Data(), time)
    }

    ghost method Advance(now: int)
      requires Valid()
      modifies `time
      ensures Valid() && time == Later(old(time), now)
    {
      hide Kept;
      forall id <- matches ensures Kept(matches[id].Data(), Later(time, now)) {
        KeptLater(matches[id].Data(), time, now);
      }
      time := Later(time, now);
    }

    ghost function States(): map<string, MatchData>
      reads `matches, matches.Values
    {
      map id | id in matches :: matches[id].Data()
    }

    constructor (world: Option<World>)
      ensures Valid() && States() == map[] && this.world == world && time == Time(true, 0)
    {
      this.world := world;
      matches := map[];
      time := Time(true, 0);
    }

    method SeatPlayers(mode: Mode, picks: map<UserId, string>, users: seq<UserId>) returns (players: map<UserId, Player>)
      ensures players == Seated(mode, picks, users)
    {
      players := map[];
      for i := 0 to |users|
        invariant players == Seated(mode, picks, users[..i])
      {
        assert users[..i + 1] == users[..i] + [users[i]];
        players := players[users[i] := Seat(mode, picks, users[i])];
      }
      assert users[..|users|] == users;
    }

    /** Fill both sides in listing order, then drop an empty one. */
    method BuildTeams(mode: Mode, picks: map<UserId, string>, users: seq<UserId>) returns (teams: map<TeamId, Team>)
      ensures teams == Formed(mode, picks, users)
    {
      if mode != TeamDuel {
        return map[];
      }
      hide Pick, Side;
      teams := map[A := Team(STARTING_HP, []), B := Team(STARTING_HP, [])];
      NobodySided(picks);
      for i := 0 to |users|
        invariant teams == BothSides(picks, users[..i])
      {
        OneMoreSided(picks, users, i);
        var t := Pick(picks, users[i]);
        teams := teams[t := teams[t].(players := teams[t].players + [users[i]])];
      }
      assert users[..|users|] == users;
      var todo := teams.Keys;
      ghost var full := teams;
      while todo != {}
        invariant todo <= full.Keys && teams.Keys <= full.Keys
        invariant forall t <- full :: t in teams <==> t in todo || full[t].players != []
        invariant forall t <- teams :: teams[t] == full[t]
        decreases todo
      {
        var t :| t in todo;
        if teams[t].players == [] {
          teams := teams - {t};
        }
        todo := todo - {t};
      }
    }

    method AddMatch(id: string, mode: Mode, config: MatchConfig, first: Point,
                    players: map<UserId, Player>, teams: map<TeamId, Team>, now: int) returns (m: Match)
      requires Valid() && world.Some? && id !in matches
      requires Kept(Opened(id, mode, config, first, players, teams, now), time)
      modifies `matches
      ensures Valid() && fresh(m) && matches == old(matches)[id := m]
      ensures States() == old(States())[id := Opened(id, mode, config, first, players, teams, now)]
    {
      hide Match.Data, Opened, Kept;
      m := new Match(id, mode, config, first, players, teams, now);
      assert m.id == id by { OpenedId(id, mode, config, first, players, teams, now); m.DataFields(); }
      matches := matches[id := m];
    }

    method CreateMatch(id: string, users: seq<UserId>, opts: Options, now: int) returns (r: Result<Match, EngineError>)
      requires Valid()
      modifies this
      ensures Valid() && time == Later(old(time), now)
      ensures r.Failure? == CreateRefusal(world, old(matches.Keys), id, users, opts).Some?
      ensures r.Failure? ==> matches == old(matches) && CreateRefusal(world, old(matches.Keys), id, users, opts).value == r.error
      ensures r.Success? ==> fresh(r.value) && matches == old(matches)[id := r.value] && world.Some?
      ensures r.Success? ==> States() == old(States())[id := Created(world.value, id, users, opts, now)]
    {
      hide Match.Data, Sides, Opened, Seated, Kept, BothPicked;
      Advance(now);
      if opts.mode.OtherMode? {
        return Failure(UnsupportedMode);
      }
      var mode := ModeOf(opts);
      if mode == Duel {
        if |users| != 2 {
          return Failure(DuelNeedsTwo);
        }
      } else if |users| < 2 || |users| > 8 {
        return Failure(PartySize);
      }
      if world.None? {
        return Failure(ProviderRequired);
      }
      var first := world.value.provider(id, 0);
      if first.None? {
        return Failure(NoFirstRound);
      }
      if id in matches {
        return Failure(AlreadyExists);
      }
      var players := SeatPlayers(mode, opts.picks, users);
      var teams := BuildTeams(mode, opts.picks, users);
      SidesPartition(opts.picks, users);
      if mode == TeamDuel && |teams| != 2 {
        return Failure(NeedsBothTeams);
      }
      CreatedKept(world.value, matches.Keys, id, users, opts, time);
      var m := AddMatch(id, mode, opts.config, first.value, players, teams, now);
      return Success(m);
    }

    /** A guess touches one match at most, and does to it what the model says. */
    method SubmitGuess(id: string, g: GuessRequest, now: int) returns (r: Result<(), EngineError>)
      requires Valid()
      modifies `time, if id in matches then {matches[id]} else {}
      ensures Valid() && time == Later(old(time), now)
      ensures id !in old(States()) ==> r == Failure(MatchNotFound) && States() == old(States())
      ensures id in old(States()) ==>
                var m := old(States())[id];
                && States() == old(States())[id := Apply(world.value, m, Op.SubmitGuess(g), now)]
                && r == match GuessVerdict(m, g, now) { case Success(_) => Success(()) case Failure(e) => Failure(Refused(e)) }
    {
      hide Guessed, Match.Data, GuessVerdict, DuelInvariant.Valid, Playable, Ledger, AllBalanced, GraceKept;
      Advance(now);
      if id !in matches {
        return Failure(MatchNotFound);
      }
      var m := matches[id];
      ghost var before := m.Data();
      OpKept(world.value, before, Op.SubmitGuess(g), time);
      var verdict := m.SubmitGuess(world.value, g, now);
      match verdict {
        case Success(_) => return Success(());
        case Failure(e) => return Failure(Refused(e));
      }
    }

    method MarkDisconnected(id: string, user: UserId, now: int) returns (r: Result<(), EngineError>)
      requires Valid()
      modifies `time, if id in matches then {matches[id]} else {}
      ensures Valid() && time == Later(old(time), now)
      ensures id !in old(States()) ==> r == Failure(MatchNotFound) && States() == old(States())
      ensures id in old(States()) ==>
                var m := old(States())[id];
                && States() == old(States())[id := Apply(world.value, m, Op.MarkDisconnected(user), now)]
                && r == if user in m.players then Success(()) else Failure(PlayerNotInMatch)
    {
      hide Match.Data, Guessed, Ticked, DuelInvariant.Valid, Playable, Ledger, AllBalanced, GraceKept;
      Advance(now);
      if id !in matches {
        return Failure(MatchNotFound);
      }
      var m := matches[id];
      OpKept(world.value, m.Data(), Op.MarkDisconnected(user), time);
      m.DataFields();
      var found := m.MarkDisconnected(user, now);
      return if found then Success(()) else Failure(PlayerNotInMatch);
    }

    method MarkResumed(id: string, user: UserId, now: int) returns (r: Result<(), EngineError>)
      requires Valid()
      modifies `time, if id in matches then {matches[id]} else {}
      ensures Valid() && time == Later(old(time), now)
      ensures id !in old(States()) ==> r == Failure(MatchNotFound) && States() == old(States())
      ensures id in old(States()) ==>
                var m := old(States())[id];
                && States() == old(States())[id := Apply(world.value, m, Op.MarkResumed(user), now)]
                && r == if user in m.players then Success(()) else Failure(PlayerNotInMatch)
    {
      hide Match.Data, Guessed, Ticked, DuelInvariant.Valid, Playable, Ledger, AllBalanced, GraceKept;
      Advance(now);
      if id !in matches {
        return Failure(MatchNotFound);
      }
      var m := matches[id];
      OpKept(world.value, m.Data(), Op.MarkResumed(user), time);
      m.DataFields();
      var found := m.MarkResumed(user, now);
      return if found then Success(()) else Failure(PlayerNotInMatch);
    }

    method Forfeit(id: string, user: UserId, now: int) returns (r: Result<(), EngineError>)
      requires Valid()
      modifies `time, if id in matches then {matches[id]} else {}
      ensures Valid() && time == Later(old(time), now)
      ensures id !in old(States()) ==> r == Failure(MatchNotFound) && States() == old(States())
      ensures id in old(States()) ==>
                var m := old(States())[id];
                && States() == old(States())[id := Apply(world.value, m, Op.Forfeit(user), now)]
                && r == if m.state == Live && user !in m.players then Failure(PlayerNotInMatch) else Success(())
    {
      hide Match.Data, Guessed, Ticked, DuelInvariant.Valid, Playable, Ledger, AllBalanced, GraceKept;
      Advance(now);
      if id !in matches {
        return Failure(MatchNotFound);
      }
      var m := matches[id];
      OpKept(world.value, m.Data(), Op.Forfeit(user), time);
      m.DataFields();
      if m.state == Live && user !in m.players {
        return Failure(PlayerNotInMatch);
      }
      m.Forfeit(user, now);
      return Success(());
    }

    /** One match's turn in the pass, if the table has it: the sequence number tells whether it changed. */
    method TickOne(id: string, now: int) returns (moved: bool)
      requires Valid() && time.clock == now
      modifies if id in matches then {matches[id]} else {}
      ensures Valid()
      ensures id !in matches ==> !moved && States() == old(States())
      ensures id in matches ==>
                && world.Some?
                && States() == old(States())[id := Apply(world.value, old(States())[id], Op.Tick, now)]
                && moved == (States()[id] != old(States())[id])
    {
      hide Match.Data, Ticked, DuelInvariant.Valid, Playable, Ledger, AllBalanced, GraceKept, DeadlineExact, Past;
      if id !in matches {
        return false;
      }
      var m := matches[id];
      TickKept(world.value, m.Data(), time);
      m.DataFields();
      var seen := m.eventSeq;
      m.Tick(world.value, now);
      m.DataFields();
      moved := m.eventSeq != seen;
    }

    /** Ticks every match, in whatever order, and returns exactly those it changed, each once. */
    method Tick(now: int) returns (changed: seq<string>)
      requires Valid()
      modifies `time, matches.Values
      ensures Valid() && time == Later(old(time), now)
      ensures States() == TableTicked(world, old(States()), now)
      ensures forall id :: id in changed <==> id in old(States()) && States()[id] != old(States())[id]
      ensures forall i, j | 0 <= i < j < |changed| :: changed[i] != changed[j]
    {
      hide Match.Data, DuelInvariant.Valid, Playable, Ledger, AllBalanced, GraceKept, DeadlineExact, Past, Apply, TableTicked, PassChanged, Mixed, States;
      Advance(now);
      StatesValid();
      ghost var table, target := States(), TableTicked(world, States(), now);
      var todo := matches.Keys;
      changed := [];
      PassStart(table, target);
      ChangedStart(table, target);
      while todo != {}
        invariant Valid() && time == Later(old(time), now) && todo <= matches.Keys == table.Keys
        invariant States() == Mixed(table, target, todo) && PassChanged(table, target, todo, changed)
        decreases todo
      {
        var id :| id in todo;
        PassStep(table, target, todo, id);
        ChangedStep(table, target, todo, changed, id);
        TickedAt(world, table, now, id);
        StatesValid();
        var moved := TickOne(id, now);
        if moved {
          changed := changed + [id];
        }
        todo := todo - {id};
      }
      PassDone(table, target);
      ChangedDone(table, target, changed);
    }

    lemma StatesValid()
      requires Valid()
      ensures States().Keys == matches.Keys
      ensures forall id <- States() :: DuelInvariant.Valid(States()[id])
      ensures matches == map[] || world.Some?
    {
    }
  }
}
