/**
 * The engine: matches whose fields the operations update in place. Go visits
 * maps in an arbitrary order, so every loop here takes its next key
 * nondeterministically; that each method still has one outcome, a function of
 * the state it started in, is what makes resolution independent of the order.
 */
module DuelEngine {
  import opened Common
  import opened SortedSets
  import opened Decimal
  import opened DuelModel
  import opened Passes
  import opened DuelInvariant

  class Match {
    const id: string
    const mode: Mode
    var config: MatchConfig
    var state: MatchState
    var players: map<UserId, Player>
    var teams: map<TeamId, Team>
    var location: Point
    var index: nat
    var startedAt: int
    var deadline: Option<int>
    var roundId: string
    var guesses: map<UserId, Guess>
    var results: seq<RoundResult>
    var intermissionUntil: Option<int>
    var pending: bool
    var eventSeq: int
    var announced: bool
    var lastActivity: int

    function Data(): MatchData
      reads this
    {
      MatchData(id, mode, config, state, players, teams, location, index, startedAt, deadline, roundId,
                guesses, results, intermissionUntil, pending, eventSeq, announced, lastActivity)
    }

    lemma DataFields()
      ensures Data().id == id && Data().eventSeq == eventSeq && Data().players == players && Data().state == state
    {
    }

    ghost predicate Sound()
      reads this
    {
      Valid(Data())
    }

    /** A new match, once the engine has accepted its players. */
    constructor (id: string, mode: Mode, config: MatchConfig, first: Point,
                 players: map<UserId, Player>, teams: map<TeamId, Team>, now: int)
      ensures Data() == Opened(id, mode, config, first, players, teams, now)
    {
      this.id, this.mode := id, mode;
      this.config := NormalizeMatchConfig(config);
      state, this.players, this.teams := Live, players, teams;
      location, index, startedAt, roundId := first, 0, now, RoundId(id, 1);
      guesses, results, intermissionUntil, pending := map[], [], None, false;
      eventSeq, announced, lastActivity := 1, false, now;
      deadline := FixedDeadline(NormalizeMatchConfig(config), now);
    }

    // ----- resolving a round -----------------------------------------------

    method ScoreGuess(w: World, u: UserId, ghost m: MatchData) returns (r: PlayerResult)
      requires m == Data() && u in players
      ensures r == Scored(w, m, u)
    {
      var guess := if u in guesses then Some(guesses[u].at) else None;
      var j := w.judge(location, guess);
      r := PlayerResult(guess.GetOr(Point(0.0, 0.0)), j.km, j.score, 0, 0, players[u].hp);
    }

    /** Score everybody; the users come out in whatever order the map gave them. */
    method ScoreGuesses(w: World, ghost m: MatchData) returns (scored: map<UserId, PlayerResult>, users: seq<UserId>)
      requires m == Data()
      modifies `players
      ensures scored == Scores(w, m)
      ensures players == Unfinalized(m.players, m.players.Keys)
      ensures Lists(users, m.players.Keys)
    {
      var todo := players.Keys;
      var after := players;
      scored, users := map[], [];
      ScoreStart(w, m);
      while todo != {}
        modifies {}
        invariant ScoredBut(w, m, todo, scored, after, users)
        decreases todo
      {
        var u :| u in todo;
        ScoreStep(w, m, todo, u, scored, after, users);
        var r := ScoreGuess(w, u, m);
        scored := scored[u := r];
        after := after[u := after[u].(finalized := false)];
        users := users + [u];
        todo := todo - {u};
      }
      ScoreDone(w, m, scored, after, users);
      players := after;
    }

    method RoundDamage(a: int, b: int, round: nat) returns (damage: nat)
      ensures damage == Damage(Abs(a - b), round)
    {
      damage := RoundHalfAway(Abs(a - b) as real * Multiplier(round));
      DamageExact(Abs(a - b), round);
    }

    method LoseHp(u: UserId, damage: nat)
      requires u in players
      modifies `players
      ensures players == Bleed(old(players), u, damage)
    {
      players := players[u := players[u].(hp := players[u].hp - damage)];
      if players[u].hp < 0 {
        players := players[u := players[u].(hp := 0)];
      }
    }

    /** One side of the duel loses HP; which user came first does not matter. */
    method DuelDamage(scored: map<UserId, PlayerResult>, users: seq<UserId>, round: nat)
      returns (outcome: map<UserId, PlayerResult>)
      requires scored.Keys == players.Keys && Lists(users, scored.Keys)
      requires forall u <- players :: players[u].hp >= 0
      modifies `players
      ensures outcome == DuelResults(scored, round, Hps(old(players)))
      ensures players == DuelPlayers(old(players), scored, round)
    {
      if |users| != 2 {
        return scored;
      }
      var u, v := users[0], users[1];
      DuelBleeds(players, scored, users, round);
      DuelStored(players, scored, users, round);
      var a, b := scored[u], scored[v];
      var damage := RoundDamage(a.score, b.score, round);
      var dealtA, dealtB := 0, 0;
      if a.score > b.score {
        dealtA := damage;
        LoseHp(v, damage);
      } else if b.score > a.score {
        dealtB := damage;
        LoseHp(u, damage);
      }
      a := a.(damageDealt := dealtA, damageTaken := dealtB, hpAfter := players[u].hp);
      b := b.(damageDealt := dealtB, damageTaken := dealtA, hpAfter := players[v].hp);
      outcome := scored[u := a][v := b];
    }

    /** The team's representative: the scan keeps the first of the best. */
    method BestOf(scored: map<UserId, PlayerResult>, members: seq<UserId>) returns (best: UserId)
      requires members != [] && forall v <- members :: v in scored
      ensures best == Best(scored, members)
    {
      best := members[0];
      for i := 1 to |members|
        invariant best == Best(scored, members[..i])
      {
        assert members[..i + 1][..i] == members[..i];
        if scored[members[i]].score > scored[best].score {
          best := members[i];
        }
      }
      assert members[..|members|] == members;
    }

    method ShareHp(members: seq<UserId>, hp: int)
      modifies `players
      ensures players == Shared(old(players), members, hp)
    {
      for i := 0 to |members|
        invariant players == Shared(old(players), members[..i], hp)
      {
        ShareStep(old(players), members, hp, i);
        if members[i] in players {
          players := players[members[i] := players[members[i]].(hp := hp)];
        }
      }
      assert members[..|members|] == members;
    }

    /** The two teams' best guesses, before damage. */
    method TeamBests(scored: map<UserId, PlayerResult>) returns (bests: map<TeamId, TeamResult>)
      requires TeamsReady(teams, scored.Keys)
      ensures bests == Bests(scored, teams)
    {
      var todo := teams.Keys;
      bests := map[];
      while todo != {}
        invariant todo <= teams.Keys
        invariant bests == map t | t in teams && t !in todo :: BestResult(scored, teams, t)
        decreases todo
      {
        var t :| t in todo;
        var u := BestOf(scored, teams[t].players);
        bests := bests[t := TeamResult(u, scored[u].at, scored[u].km, scored[u].score, 0, 0, teams[t].hp)];
        todo := todo - {t};
      }
    }

    /** Clamp each team at zero and give its members the team's HP. */
    method SpreadHp(ghost before: map<TeamId, Team>)
      requires TeamsPartition(before, players.Keys) && before.Keys == teams.Keys
      requires forall t <- teams :: teams[t].players == before[t].players
      modifies `players, `teams, `state
      ensures teams == Clamped(old(teams))
      ensures players == Spread(old(players), old(teams), {})
      ensures state == if exists t <- teams :: teams[t].hp <= 0 then Ended else old(state)
    {
      hide Spreading, Mixed, Spread, Shared;
      var todo := teams.Keys;
      ghost var t0, p0, s0 := teams, players, state;
      SpreadingStart(p0, t0, s0);
      while todo != {}
        modifies `players, `teams, `state
        invariant todo <= t0.Keys && Spreading(p0, t0, s0, todo, players, teams, state)
        decreases todo
      {
        var t :| t in todo;
        SpreadingStep(p0, t0, s0, todo, players, teams, state, t);
        if teams[t].hp < 0 {
          teams := teams[t := teams[t].(hp := 0)];
        }
        ShareHp(teams[t].players, teams[t].hp);
        if teams[t].hp <= 0 {
          state := Ended;
        }
        todo := todo - {t};
      }
      SpreadingDone(p0, t0, s0, players, teams, state);
    }

    /** The weaker team loses HP, shared by all its members. */
    method TeamDamage(scored: map<UserId, PlayerResult>, round: nat) returns (outcome: map<TeamId, TeamResult>)
      requires TeamsPartition(teams, players.Keys) && scored.Keys == players.Keys
      modifies `players, `teams, `state
      ensures outcome == TeamResults(Bests(scored, old(teams)), round, old(teams)) && BothTeams(outcome)
      ensures teams == TeamsHit(old(teams), outcome)
      ensures players == MembersHit(old(players), old(teams), outcome)
      ensures state == if TeamDown(outcome) then Ended else old(state)
    {
      hide Bests, TeamResults, TeamsHit, MembersHit, Cut, TeamTaken, TeamDown;
      ghost var t0 := teams;
      var bests := TeamBests(scored);
      var dealtA, dealtB := HitTeam(bests, round);
      FinishTeams(bests, round, t0);
      TeamStored(bests, round, t0, teams, dealtB, dealtA);
      outcome := map[A := bests[A].(damageDealt := dealtA, damageTaken := dealtB, hpAfter := teams[A].hp),
                     B := bests[B].(damageDealt := dealtB, damageTaken := dealtA, hpAfter := teams[B].hp)];
    }

    method HitTeam(bests: map<TeamId, TeamResult>, round: nat) returns (dealtA: nat, dealtB: nat)
      requires BothTeams(bests) && BothTeams(teams)
      modifies `teams
      ensures teams == Cut(bests, round, old(teams))
      ensures dealtB == TeamTaken(bests, round, A) && dealtA == TeamTaken(bests, round, B)
    {
      var a, b := bests[A], bests[B];
      var damage := RoundDamage(a.score, b.score, round);
      TeamLosses(bests, round, a.score, b.score, damage);
      dealtA, dealtB := 0, 0;
      ghost var t0 := teams;
      if a.score > b.score {
        dealtA := damage;
        teams := teams[B := teams[B].(hp := teams[B].hp - damage)];
      } else if b.score > a.score {
        dealtB := damage;
        teams := teams[A := teams[A].(hp := teams[A].hp - damage)];
      }
      CutCases(bests, round, t0, dealtB, dealtA);
    }

    method FinishTeams(ghost bests: map<TeamId, TeamResult>, ghost round: nat, ghost before: map<TeamId, Team>)
      requires TeamsPartition(before, players.Keys) && BothTeams(bests)
      requires teams == Cut(bests, round, before)
      modifies `players, `teams, `state
      ensures var outcome := TeamResults(bests, round, before);
              && BothTeams(outcome)
              && teams == TeamsHit(before, outcome)
              && players == MembersHit(old(players), before, outcome)
              && state == if TeamDown(outcome) then Ended else old(state)
    {
      ghost var outcome := TeamResults(bests, round, before);
      CutHp(bests, round, before);
      HitsAgree(players, before, teams, outcome);
      SpreadHp(before);
    }

    /** Free-for-all: the score counts, the HP column is blanked. */
    method AddScores(scored: map<UserId, PlayerResult>) returns (outcome: map<UserId, PlayerResult>)
      requires scored.Keys == players.Keys
      modifies `players
      ensures outcome == Blanked(scored)
      ensures players == Credited(old(players), scored)
    {
      hide Mixed;
      var todo := scored.Keys;
      ghost var p0 := players;
      outcome := scored;
      PassStart(scored, Blanked(scored));
      PassStart(p0, Credited(p0, scored));
      while todo != {}
        modifies `players
        invariant todo <= scored.Keys
        invariant outcome == Mixed(scored, Blanked(scored), todo)
        invariant players == Mixed(p0, Credited(p0, scored), todo)
        decreases todo
      {
        var u :| u in todo;
        PassStep(scored, Blanked(scored), todo, u);
        PassStep(p0, Credited(p0, scored), todo, u);
        players := players[u := players[u].(totalScore := players[u].totalScore + outcome[u].score)];
        outcome := outcome[u := outcome[u].(hpAfter := 0)];
        todo := todo - {u};
      }
      PassDone(scored, Blanked(scored));
      PassDone(p0, Credited(p0, scored));
    }

    /** Anyone at zero ends the match. */
    method CheckHp()
      modifies `players, `state
      ensures players == Floored(old(players))
      ensures state == if SomeoneDown(Hps(old(players))) then Ended else old(state)
    {
      var todo := players.Keys;
      ghost var p0 := players;
      PassStart(p0, Floored(p0));
      while todo != {}
        modifies `players, `state
        invariant todo <= p0.Keys && players == Mixed(p0, Floored(p0), todo)
        invariant state == if exists u <- p0 :: u !in todo && p0[u].hp <= 0 then Ended else old(state)
        decreases todo
      {
        var u :| u in todo;
        PassStep(p0, Floored(p0), todo, u);
        if players[u].hp <= 0 {
          players := players[u := players[u].(hp := 0)];
          state := Ended;
        }
        assert players == Mixed(p0, Floored(p0), todo - {u});
        todo := todo - {u};
      }
      PassDone(p0, Floored(p0));
    }

    /** The mode's own part of a resolution. */
    method Strike(w: World, scored: map<UserId, PlayerResult>, users: seq<UserId>, ghost m: MatchData)
      returns (outcome: map<UserId, PlayerResult>, teamOutcome: map<TeamId, TeamResult>)
      requires Valid(m) && m.mode == mode && m.teams == teams && m.index == index
      requires players == Unfinalized(m.players, m.players.Keys) && scored == Scores(w, m) && Lists(users, m.players.Keys)
      modifies `players, `teams, `state
      ensures outcome == TallyOf(w, m).results && teamOutcome == TallyOf(w, m).teams
      ensures players == Struck(m, TallyOf(w, m)) && teams == SettledTeams(m, TallyOf(w, m))
      ensures state == if m.mode == TeamDuel && TeamDown(TallyOf(w, m).teams) then Ended else old(state)
    {
      hide TallyOf, DuelResults, DuelHp, TeamTally, Struck, SettledTeams, Scores, Blanked, Unfinalized, Valid;
      ReadyToStrike(m);
      TallyCases(w, m);
      outcome, teamOutcome := scored, map[];
      match mode
      case Duel => outcome := StrikeDuel(scored, users, m);
      case TeamDuel => teamOutcome := StrikeTeams(scored, m);
      case FreeForAll =>
        FfaStruck(m, scored);
        outcome := AddScores(scored);
    }

    method StrikeDuel(scored: map<UserId, PlayerResult>, users: seq<UserId>, ghost m: MatchData)
      returns (outcome: map<UserId, PlayerResult>)
      requires Valid(m) && m.mode == Duel && m.index == index && scored.Keys == m.players.Keys && Lists(users, m.players.Keys)
      requires players == Unfinalized(m.players, m.players.Keys)
      modifies `players
      ensures var t := DuelTally(scored, m.index + 1, Hps(m.players)); outcome == t.results && players == Struck(m, t)
    {
      hide DuelResults, DuelPlayers, DuelHp, Struck, Unfinalized, Valid;
      ReadyToStrike(m);
      DuelStruck(m, scored);
      outcome := DuelDamage(scored, users, index + 1);
    }

    method StrikeTeams(scored: map<UserId, PlayerResult>, ghost m: MatchData) returns (outcome: map<TeamId, TeamResult>)
      requires Valid(m) && m.mode == TeamDuel && m.index == index && m.teams == teams && scored.Keys == m.players.Keys
      requires players == Unfinalized(m.players, m.players.Keys)
      modifies `players, `teams, `state
      ensures TeamsReady(m.teams, m.players.Keys)
      ensures var t := TeamTally(scored, m.index + 1, Hps(m.players), m.teams);
              && BothTeams(t.teams) && outcome == t.teams && t.results == scored
              && players == Struck(m, t) && teams == SettledTeams(m, t)
              && state == if TeamDown(t.teams) then Ended else old(state)
    {
      hide TeamResults, Bests, MembersHit, TeamsHit, SettledTeams, Struck, Unfinalized, Valid, TeamsPartition;
      ReadyToStrike(m);
      TeamStruck(m, scored);
      outcome := TeamDamage(scored, index + 1);
    }

    /** Score, strike, and decide whether the match is over. */
    method ApplyTally(w: World, ghost m: MatchData) returns (outcome: map<UserId, PlayerResult>, teamOutcome: map<TeamId, TeamResult>)
      requires m == Data() && Valid(m) && Playable(m) && state == Live
      modifies `players, `teams, `state
      ensures outcome == TallyOf(w, m).results && teamOutcome == TallyOf(w, m).teams
      ensures players == SettledPlayers(m, TallyOf(w, m)) && teams == SettledTeams(m, TallyOf(w, m))
      ensures state == if EndsMatch(m, TallyOf(w, m)) then Ended else Live
    {
      hide TallyOf, SettledPlayers, SettledTeams, Struck, Scores, Unfinalized, Valid, Playable, Floored;
      var scored, users := ScoreGuesses(w, m);
      outcome, teamOutcome := Strike(w, scored, users, m);
      StruckFloored(m, TallyOf(w, m));
      if mode != FreeForAll {
        CheckHp();
      }
      if mode == FreeForAll && index + 1 >= FFA_ROUNDS {
        state := Ended;
      }
      if index + 1 >= MAX_ROUNDS {
        state := Ended;
      }
    }

    /** Resolve the current round; a match that is not live is left alone. */
    method ResolveRound(w: World, now: int)
      requires Sound()
      modifies this
      ensures Data() == Resolved(w, old(Data()), now)
    {
      hide TallyOf, SettledPlayers, SettledTeams, Valid, Playable, EndsMatch, Filed;
      ghost var m := Data();
      ValidPlayable(m);
      if state == Live {
        var outcome, teamOutcome := ApplyTally(w, m);
        assert Data() == m.(players := players, teams := teams, state := state);
        File(outcome, teamOutcome, now);
      }
    }

    method File(outcome: map<UserId, PlayerResult>, teamOutcome: map<TeamId, TeamResult>, now: int)
      modifies this
      ensures Data() == Filed(old(Data()), outcome, teamOutcome, now)
    {
      hide Appended;
      Append(outcome, teamOutcome, now);
      if state != Ended {
        pending := true;
        intermissionUntil := Some(now + RESULT_DURATION);
        eventSeq := eventSeq + 1;
      }
    }

    method Append(outcome: map<UserId, PlayerResult>, teamOutcome: map<TeamId, TeamResult>, now: int)
      modifies this
      ensures Data() == Appended(old(Data()), outcome, teamOutcome, now)
      ensures state == old(state)
    {
      results := results + [RoundResult(roundId, index + 1, location, outcome, teamOutcome)];
      guesses := map[];
      lastActivity := now;
      eventSeq := eventSeq + 1;
    }

    // ----- moving to the next round ----------------------------------------

    method AdvanceRound(w: World, now: int)
      modifies this
      ensures Data() == Advanced(w, old(Data()), now)
    {
      hide Cleared, NormalizeMatchConfig, FixedDeadline, RoundId;
      if pending {
        var next := w.provider(id, index + 1);
        if next.None? {
          state := Ended;
        } else {
          NextRound(next.value, now);
        }
        Reopen(now);
      }
    }

    method Reopen(now: int)
      modifies `pending, `intermissionUntil, `lastActivity, `eventSeq
      ensures !pending && intermissionUntil == None && lastActivity == now && eventSeq == old(eventSeq) + 1
    {
      pending := false;
      intermissionUntil := None;
      lastActivity := now;
      eventSeq := eventSeq + 1;
    }

    method NextRound(next: Point, now: int)
      modifies `index, `location, `roundId, `startedAt, `announced, `config, `deadline, `players
      ensures index == old(index) + 1 && location == next && roundId == RoundId(id, index + 1)
      ensures startedAt == now && !announced
      ensures config == NormalizeMatchConfig(old(config)) && deadline == FixedDeadline(config, now)
      ensures players == Cleared(old(players))
    {
      index := index + 1;
      location := next;
      var n := PrintDecimal(index + 1);
      roundId := id + ":r" + n;
      startedAt := now;
      deadline := None;
      announced := false;
      StartRoundTimer();
      ClearPlayers();
    }

    method StartRoundTimer()
      requires deadline.None?
      modifies `config, `deadline
      ensures config == NormalizeMatchConfig(old(config))
      ensures deadline == FixedDeadline(config, startedAt)
    {
      config := NormalizeMatchConfig(config);
      if config.timer != Fixed {
        return;
      }
      deadline := Some(startedAt + ROUND_INTRO + config.limitMs * 1_000_000);
    }

    method ClearPlayers()
      modifies `players
      ensures players == Cleared(old(players))
    {
      var todo := players.Keys;
      ghost var p0 := players;
      PassStart(p0, Cleared(p0));
      while todo != {}
        modifies `players
        invariant todo <= p0.Keys && players == Mixed(p0, Cleared(p0), todo)
        decreases todo
      {
        var u :| u in todo;
        PassStep(p0, Cleared(p0), todo, u);
        players := players[u := players[u].(finalized := false, lastGuess := Point(0.0, 0.0), hasGuess := false)];
        todo := todo - {u};
      }
      PassDone(p0, Cleared(p0));
    }

    // ----- client requests -------------------------------------------------

    method EveryoneFinal() returns (all: bool)
      ensures all == AllFinal(players, guesses)
    {
      var todo := players.Keys;
      while todo != {}
        invariant todo <= players.Keys
        invariant forall u <- players :: u !in todo ==> u in guesses && guesses[u].finalized
        decreases todo
      {
        var u :| u in todo;
        if u !in guesses || !guesses[u].finalized {
          return false;
        }
        todo := todo - {u};
      }
      return true;
    }

    method StoreGuess(g: GuessRequest, now: int)
      requires g.user in players
      modifies this
      ensures Data() == WithGuess(old(Data()), g, now)
    {
      guesses := guesses[g.user := Guess(g.at, g.finalize, now)];
      players := players[g.user := players[g.user].(lastGuess := g.at, hasGuess := true, finalized := g.finalize,
                                                    disconnected := false, disconnectDue := 0)];
      lastActivity := now;
      eventSeq := eventSeq + 1;
      if g.finalize {
        var pressure := config.pressureMs;
        if config.timer == Pressure && pressure <= 0 {
          pressure := DEFAULT_PRESSURE_MS;
        }
        if pressure > 0 {
          var target := now + pressure * 1_000_000;
          if deadline.None? || target < deadline.value {
            deadline := Some(target);
          }
        }
      }
    }

    method SubmitGuess(w: World, g: GuessRequest, now: int) returns (r: Result<(), GuessError>)
      requires Sound()
      modifies this
      ensures Data() == Guessed(w, old(Data()), g, now)
      ensures r == GuessVerdict(old(Data()), g, now)
    {
      hide Resolved, WithGuess;
      if state != Live {
        return Failure(NotLive);
      }
      if g.roundId != roundId {
        return Failure(RoundMismatch);
      }
      if pending && now < intermissionUntil.GetOr(0) {
        return Success(());
      }
      if g.user !in players {
        return Failure(NotInMatch);
      }
      if Expired(Data(), now) {
        ResolveRound(w, now);
        return Success(());
      }
      if now < startedAt + ROUND_INTRO {
        return Success(());
      }
      if g.user in guesses && guesses[g.user].finalized {
        return Success(());
      }
      StoreGuess(g, now);
      GuessKeepsValid(old(Data()), g, now);
      var all := EveryoneFinal();
      if all {
        ResolveRound(w, now);
      }
      return Success(());
    }

    method MarkDisconnected(user: UserId, now: int) returns (found: bool)
      modifies this
      ensures Data() == Dropped(old(Data()), user, now) && found == (user in old(players))
    {
      if user !in players {
        return false;
      }
      players := players[user := players[user].(disconnected := true, disconnectDue := Milli(now + DISCONNECT_GRACE))];
      lastActivity := now;
      eventSeq := eventSeq + 1;
      return true;
    }

    method MarkResumed(user: UserId, now: int) returns (found: bool)
      modifies this
      ensures Data() == Resumed(old(Data()), user, now) && found == (user in old(players))
    {
      if user !in players {
        return false;
      }
      players := players[user := players[user].(disconnected := false, disconnectDue := 0)];
      lastActivity := now;
      eventSeq := eventSeq + 1;
      return true;
    }

    method Forfeit(user: UserId, now: int)
      modifies this
      ensures Data() == Forfeited(old(Data()), user, now)
    {
      if state != Live || user !in players {
        return;
      }
      players := players[user := players[user].(hp := 0, finalized := false, disconnected := false, disconnectDue := 0)];
      pending := false;
      intermissionUntil := None;
      state := Ended;
      lastActivity := now;
      eventSeq := eventSeq + 1;
    }

    // ----- the clock -------------------------------------------------------

    /** One pass over the players: zero the overdue, note whether anyone is left. */
    method ReapOverdue(now: int) returns (allDisconnected: bool, maxDue: int)
      modifies `players, `state, `lastActivity, `eventSeq
      ensures Data() == Reaped(old(Data()), now)
      ensures allDisconnected == AllDisconnected(old(players))
      ensures maxDue == 0 || exists u <- old(players) :: old(players)[u].disconnectDue == maxDue
    {
      hide ReapedBut, Reaped, Overdue;
      var todo := players.Keys;
      ghost var m := Data();
      allDisconnected, maxDue := true, 0;
      ReapStart(m, now);
      while todo != {}
        modifies `players, `state, `lastActivity, `eventSeq
        invariant todo <= m.players.Keys && ReapedBut(m, now, todo, players, state, lastActivity, eventSeq)
        invariant allDisconnected == forall u <- m.players :: u !in todo ==> m.players[u].disconnected
        invariant maxDue == 0 || exists u <- m.players :: m.players[u].disconnectDue == maxDue
        decreases todo
      {
        var u :| u in todo;
        ReapStep(m, now, todo, u, players, state, lastActivity, eventSeq);
        var p := players[u];
        if !p.disconnected {
          allDisconnected := false;
        }
        if p.disconnectDue > maxDue {
          maxDue := p.disconnectDue;
        }
        if Overdue(p, now) {
          Reap(u, now);
        }
        todo := todo - {u};
      }
      ReapDone(m, now, players, state, lastActivity, eventSeq);
    }

    method Reap(u: UserId, now: int)
      requires u in players
      modifies `players, `state, `lastActivity, `eventSeq
      ensures players == old(players)[u := old(players)[u].(hp := 0)]
      ensures state == Ended && lastActivity == now && eventSeq == old(eventSeq) + 1
    {
      players := players[u := players[u].(hp := 0)];
      state := Ended;
      lastActivity := now;
      eventSeq := eventSeq + 1;
    }

    /** One match's share of the engine's Tick. */
    method Tick(w: World, now: int)
      requires Sound()
      modifies this
      ensures Data() == Ticked(w, old(Data()), now)
    {
      hide Advanced, Resolved, Reaped, Abandoned;
      if state != Live {
        return;
      }
      if pending {
        if now > intermissionUntil.GetOr(0) {
          AdvanceRound(w, now);
        }
        return;
      }
      if !announced && now >= startedAt + ROUND_INTRO {
        announced := true;
        eventSeq := eventSeq + 1;
      }
      assert Data() == Announced(old(Data()), now);
      if Expired(Data(), now) {
        ResolveRound(w, now);
      }
      Clean(now);
    }

    /** The connection checks that close a Tick. */
    method Clean(now: int)
      modifies this
      ensures Data() == Abandoned(Reaped(old(Data()), now), now)
    {
      ghost var m := Data();
      var allDisconnected, maxDue := ReapOverdue(now);
      if state != Live {
        return;
      }
      LiveMeansNobodyOverdue(m, now);
      if allDisconnected && maxDue > 0 && Milli(now) > maxDue {
        assert false;
      } else if allDisconnected && now - lastActivity > STALE_GRACE {
        ZeroAll();
        state := Ended;
        eventSeq := eventSeq + 1;
      }
    }

    method ZeroAll()
      modifies `players
      ensures players == Zeroed(old(players), old(players.Keys))
    {
      var todo := players.Keys;
      ghost var p0 := players;
      ghost var target := Zeroed(p0, p0.Keys);
      PassStart(p0, target);
      while todo != {}
        modifies `players
        invariant todo <= p0.Keys && players == Mixed(p0, target, todo)
        decreases todo
      {
        var u :| u in todo;
        PassStep(p0, target, todo, u);
        players := players[u := players[u].(hp := 0)];
        todo := todo - {u};
      }
      PassDone(p0, target);
    }
  }
}
