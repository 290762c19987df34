/** HP is what the recorded damage leaves, and scores are what the recorded rounds add up to. */
module DuelLedger {
  import opened Common
  import opened SortedSets
  import opened DuelModel
  import opened DuelInvariant
  import opened DuelSafety

  function DamageSum(results: seq<RoundResult>, u: UserId): int {
    if results == [] then 0
    else
      var last := results[|results| - 1].players;
      DamageSum(results[..|results| - 1], u) + if u in last then last[u].damageTaken else 0
  }

  function ScoreSum(results: seq<RoundResult>, u: UserId): int {
    if results == [] then 0
    else
      var last := results[|results| - 1].players;
      ScoreSum(results[..|results| - 1], u) + if u in last then last[u].score else 0
  }

  function TeamDamageSum(results: seq<RoundResult>, t: TeamId): int {
    if results == [] then 0
    else
      var last := results[|results| - 1].teams;
      TeamDamageSum(results[..|results| - 1], t) + if t in last then last[t].damageTaken else 0
  }

  lemma SumsOfOneMore(results: seq<RoundResult>, r: RoundResult, u: UserId, t: TeamId)
    ensures DamageSum(results + [r], u) == DamageSum(results, u) + if u in r.players then r.players[u].damageTaken else 0
    ensures ScoreSum(results + [r], u) == ScoreSum(results, u) + if u in r.players then r.players[u].score else 0
    ensures TeamDamageSum(results + [r], t) == TeamDamageSum(results, t) + if t in r.teams then r.teams[t].damageTaken else 0
  {
    assert (results + [r])[..|results|] == results;
  }

  /** Damage dealt is damage taken, and at most one side takes any. */
  ghost predicate Balanced(mode: Mode, players: map<UserId, PlayerResult>, teams: map<TeamId, TeamResult>) {
    match mode
    case Duel =>
      && (|players.Keys| != 2 ==> forall u <- players :: players[u].damageDealt == players[u].damageTaken == 0)
      && forall u <- players, v <- players | u != v && |players.Keys| == 2 ::
           players[u].damageDealt == players[v].damageTaken && (players[u].damageTaken == 0 || players[v].damageTaken == 0)
    case TeamDuel =>
      && (forall u <- players :: players[u].damageDealt == players[u].damageTaken == 0)
      && BothTeams(teams)
      && (forall t: TeamId :: teams[t].damageDealt == teams[OtherTeam(t)].damageTaken)
      && (teams[A].damageTaken == 0 || teams[B].damageTaken == 0)
    case FreeForAll =>
      forall u <- players :: players[u].damageDealt == players[u].damageTaken == 0
  }

  ghost predicate AllBalanced(m: MatchData) {
    forall r <- m.results :: r.players.Keys == m.players.Keys && Balanced(m.mode, r.players, r.teams)
  }

  /** The books of a match: HP while it is live, scores always. */
  ghost predicate Ledger(m: MatchData)
    requires Playable(m)
  {
    match m.mode
    case Duel =>
      m.state == Live ==> forall u <- m.players :: m.players[u].hp == STARTING_HP - DamageSum(m.results, u)
    case TeamDuel =>
      m.state == Live ==> forall t: TeamId :: m.teams[t].hp == STARTING_HP - TeamDamageSum(m.results, t)
    case FreeForAll =>
      && (forall u <- m.players :: m.players[u].totalScore == ScoreSum(m.results, u))
      && (m.state == Live ==> forall u <- m.players :: m.players[u].hp == STARTING_HP)
  }

  // ----- one round -----------------------------------------------------------

  lemma RivalOfTwo(all: set<UserId>, u: UserId, v: UserId)
    requires |all| == 2 && u in all && v in all && u != v
    ensures Rival(all, u) == v
  {
    assert |all - {u}| == 1 && |all - {u} - {v}| == 0;
  }

  lemma DuelBalanced(scored: map<UserId, PlayerResult>, round: nat, hp: map<UserId, int>)
    requires hp.Keys == scored.Keys
    requires forall u <- scored :: scored[u].damageDealt == scored[u].damageTaken == 0
    ensures Balanced(Duel, DuelTally(scored, round, hp).results, map[])
  {
    hide Damage, Rival;
    var r := DuelTally(scored, round, hp).results;
    assert r.Keys == scored.Keys;
    forall u <- r, v <- r | u != v && |r.Keys| == 2
      ensures r[u].damageDealt == r[v].damageTaken && (r[u].damageTaken == 0 || r[v].damageTaken == 0)
    {
      RivalOfTwo(scored.Keys, u, v);
      RivalOfTwo(scored.Keys, v, u);
    }
  }

  lemma TeamBalanced(scored: map<UserId, PlayerResult>, round: nat, hp: map<UserId, int>, teams: map<TeamId, Team>)
    requires TeamsReady(teams, scored.Keys)
    requires forall u <- scored :: scored[u].damageDealt == scored[u].damageTaken == 0
    ensures var t := TeamTally(scored, round, hp, teams); Balanced(TeamDuel, t.results, t.teams)
  {
    hide TeamResults, Bests, MemberHp;
    OutcomeBalanced(Bests(scored, teams), round, teams);
  }

  lemma OutcomeBalanced(bests: map<TeamId, TeamResult>, round: nat, teams: map<TeamId, Team>)
    requires BothTeams(bests) && BothTeams(teams)
    ensures var r := TeamResults(bests, round, teams);
            && BothTeams(r) && (forall t: TeamId :: r[t].damageDealt == r[OtherTeam(t)].damageTaken)
            && (r[A].damageTaken == 0 || r[B].damageTaken == 0)
  {
    hide Damage;
    var r := TeamResults(bests, round, teams);
    forall t: TeamId ensures r[t].damageTaken == TeamTaken(bests, round, t) && r[t].damageDealt == TeamTaken(bests, round, OtherTeam(t)) {
    }
  }

  lemma TallyBalanced(w: World, m: MatchData)
    requires Playable(m)
    ensures Balanced(m.mode, TallyOf(w, m).results, TallyOf(w, m).teams)
  {
    hide DuelTally, TeamTally;
    TallyCases(w, m);
    var scored := Scores(w, m);
    match m.mode
    case Duel => DuelBalanced(scored, m.index + 1, Hps(m.players));
    case TeamDuel => TeamBalanced(scored, m.index + 1, Hps(m.players), m.teams);
    case FreeForAll =>
  }

  function Row(m: MatchData, t: Tally): RoundResult {
    RoundResult(m.roundId, m.index + 1, m.location, t.results, t.teams)
  }

  lemma SettledDuelLedger(m: MatchData, t: Tally, now: int)
    requires m.mode == Duel && m.state == Live && Fair(m, t) && Ledger(m)
    ensures Ledger(Settled(m, t, now))
  {
    hide EndsMatch;
    UpAfter(m, t);
    SettledPlayersHp(m, t);
    forall u <- m.players ensures DamageSum(m.results + [Row(m, t)], u) == DamageSum(m.results, u) + t.results[u].damageTaken {
      SumsOfOneMore(m.results, Row(m, t), u, A);
    }
  }

  lemma SettledTeamLedger(m: MatchData, t: Tally, now: int)
    requires m.mode == TeamDuel && m.state == Live && Fair(m, t) && Playable(m) && Ledger(m)
    ensures Playable(Settled(m, t, now)) && Ledger(Settled(m, t, now))
  {
    hide EndsMatch, SettledPlayers;
    UpAfter(m, t);
    forall i: TeamId ensures TeamDamageSum(m.results + [Row(m, t)], i) == TeamDamageSum(m.results, i) + t.teams[i].damageTaken {
      SumsOfOneMore(m.results, Row(m, t), "u", i);
    }
  }

  lemma SettledScores(m: MatchData, t: Tally)
    requires m.mode == FreeForAll && t.results.Keys == t.hp.Keys == m.players.Keys && t.hp == Hps(m.players)
    ensures forall u <- m.players :: SettledPlayers(m, t)[u].totalScore == m.players[u].totalScore + t.results[u].score
    ensures forall u <- m.players :: SettledPlayers(m, t)[u].hp == m.players[u].hp
  {
  }

  lemma SettledFfaLedger(m: MatchData, t: Tally, now: int)
    requires m.mode == FreeForAll && m.state == Live && Fair(m, t) && Ledger(m)
    ensures Ledger(Settled(m, t, now))
  {
    hide EndsMatch, SettledPlayers;
    SettledScores(m, t);
    forall u <- m.players ensures ScoreSum(m.results + [Row(m, t)], u) == ScoreSum(m.results, u) + t.results[u].score {
      SumsOfOneMore(m.results, Row(m, t), u, A);
    }
  }

  lemma SettledLedger(m: MatchData, t: Tally, now: int)
    requires Valid(m) && m.state == Live && Fair(m, t) && Playable(m) && Ledger(m)
    ensures t.results.Keys == t.hp.Keys == m.players.Keys && (m.mode == TeamDuel ==> BothTeams(t.teams))
    ensures Playable(Settled(m, t, now)) && Ledger(Settled(m, t, now))
  {
    hide Ledger, Settled, Fair;
    FairKeys(m, t);
    FairLowers(m, t);
    SettledValid(m, t, now);
    ValidPlayable(Settled(m, t, now));
    match m.mode
    case Duel => SettledDuelLedger(m, t, now);
    case TeamDuel => SettledTeamLedger(m, t, now);
    case FreeForAll => SettledFfaLedger(m, t, now);
  }

  /** If the match goes on, nobody and no team was brought to zero. */
  lemma UpAfter(m: MatchData, t: Tally)
    requires Fair(m, t)
    ensures !EndsMatch(m, t) && m.mode != FreeForAll ==> forall u <- m.players :: t.hp[u] > 0
    ensures !EndsMatch(m, t) && m.mode == TeamDuel ==> forall i: TeamId :: i in t.teams && t.teams[i].hpAfter > 0
  {
  }

  lemma ResolvedLedger(w: World, m: MatchData, now: int)
    requires Valid(m) && Playable(m) && Ledger(m) && AllBalanced(m)
    ensures Playable(Resolved(w, m, now)) && Ledger(Resolved(w, m, now)) && AllBalanced(Resolved(w, m, now))
  {
    hide TallyOf, Fair, Ledger, Valid, Playable, Balanced;
    ResolvedValid(w, m, now);
    ValidPlayable(Resolved(w, m, now));
    TallyFair(w, m);
    TallyBalanced(w, m);
    if m.state == Live {
      SettledLedger(m, TallyOf(w, m), now);
    }
  }

  // ----- the other operations -------------------------------------------------

  /** The books depend on state, teams, results, HP and scores only. */
  lemma LedgerCarries(m: MatchData, r: MatchData)
    requires Playable(m) && Ledger(m) && AllBalanced(m)
    requires r.mode == m.mode && r.teams == m.teams && r.results == m.results && r.players.Keys == m.players.Keys
    requires forall u <- m.players :: r.players[u].totalScore == m.players[u].totalScore
    requires r.state == Ended || (r.state == m.state && forall u <- m.players :: r.players[u].hp == m.players[u].hp)
    ensures Playable(r) && Ledger(r) && AllBalanced(r)
  {
  }

  lemma TickedLedger(w: World, m: MatchData, now: int)
    requires Valid(m) && Playable(m) && Ledger(m) && AllBalanced(m)
    ensures Playable(Ticked(w, m, now)) && Ledger(Ticked(w, m, now)) && AllBalanced(Ticked(w, m, now))
  {
    hide Ledger, AllBalanced, Valid, Playable, Resolved;
    if m.state == Live && m.pending {
      LedgerCarries(m, Advanced(w, m, now));
    } else if m.state == Live {
      var shown := Announced(m, now);
      AnnouncedValid(m, now);
      LedgerCarries(m, shown);
      ResolvedLedger(w, shown, now);
      var resolved := if Expired(shown, now) then Resolved(w, shown, now) else shown;
      CleanLedger(resolved, now);
    }
  }

  lemma CleanLedger(m: MatchData, now: int)
    requires Playable(m) && Ledger(m) && AllBalanced(m)
    ensures var r := Abandoned(Reaped(m, now), now); Playable(r) && Ledger(r) && AllBalanced(r)
  {
    hide Ledger, AllBalanced, Playable;
    LedgerCarries(m, Reaped(m, now));
    LedgerCarries(Reaped(m, now), Abandoned(Reaped(m, now), now));
  }

  lemma GuessedLedger(w: World, m: MatchData, g: GuessRequest, now: int)
    requires Valid(m) && Playable(m) && Ledger(m) && AllBalanced(m)
    ensures Playable(Guessed(w, m, g, now)) && Ledger(Guessed(w, m, g, now)) && AllBalanced(Guessed(w, m, g, now))
  {
    hide Ledger, AllBalanced, Valid, Playable, Resolved;
    ResolvedLedger(w, m, now);
    if g.user in m.players {
      var stored := WithGuess(m, g, now);
      GuessKeepsValid(m, g, now);
      LedgerCarries(m, stored);
      ResolvedLedger(w, stored, now);
    }
  }

  /** Every operation keeps the books. */
  lemma OpKeepsLedger(w: World, m: MatchData, op: Op, now: int)
    requires Valid(m) && Playable(m) && Ledger(m) && AllBalanced(m)
    ensures var r := Apply(w, m, op, now); Playable(r) && Ledger(r) && AllBalanced(r)
  {
    hide Ledger, AllBalanced, Valid, Playable, Guessed, Ticked;
    match op
    case SubmitGuess(g) => GuessedLedger(w, m, g, now);
    case Tick => TickedLedger(w, m, now);
    case _ => LedgerCarries(m, Apply(w, m, op, now));
  }

  // ----- who pays, and how much -----------------------------------------------

  /** The price of a deficit: itself in the first two rounds, then half its product with the round, rounded. */
  function Price(deficit: int, round: nat): int {
    if deficit <= 0 then 0 else if round <= 2 then deficit else RoundHalfAway(deficit as real * (round as real / 2.0))
  }

  lemma LossIsPrice(mine: int, theirs: int, round: nat)
    ensures Loss(mine, theirs, round) == Price(theirs - mine, round)
  {
    hide RoundHalfAway;
    if theirs > mine && round > 2 {
      hide Damage;
      DamageExact(theirs - mine, round);
      assert Multiplier(round) == round as real / 2.0;
    }
  }

  /** In a duel each player pays for scoring less than the other, and earns nothing by scoring more. */
  lemma DuelPays(w: World, m: MatchData, u: UserId, v: UserId)
    requires Playable(m) && m.mode == Duel && u != v && m.players.Keys == {u, v}
    ensures var r := TallyOf(w, m).results;
            && u in r && v in r && r[u].score == Score(w, m, u) && r[v].score == Score(w, m, v)
            && r[u].damageTaken == Price(Score(w, m, v) - Score(w, m, u), m.index + 1)
            && r[u].damageDealt == Price(Score(w, m, u) - Score(w, m, v), m.index + 1)
  {
    hide DuelTally, Damage, Multiplier, Price, Loss;
    TallyCases(w, m);
    DuelTallyPays(Scores(w, m), m.index + 1, Hps(m.players), u, v);
    LossIsPrice(Score(w, m, u), Score(w, m, v), m.index + 1);
    LossIsPrice(Score(w, m, v), Score(w, m, u), m.index + 1);
  }

  lemma DuelTallyPays(scored: map<UserId, PlayerResult>, round: nat, hp: map<UserId, int>, u: UserId, v: UserId)
    requires hp.Keys == scored.Keys == {u, v} && u != v
    ensures var r := DuelTally(scored, round, hp).results;
            && u in r && v in r && r[u].score == scored[u].score && r[v].score == scored[v].score
            && r[u].damageTaken == Loss(scored[u].score, scored[v].score, round)
            && r[u].damageDealt == Loss(scored[v].score, scored[u].score, round)
  {
    hide Rival, Loss;
    assert |scored.Keys| == 2;
    RivalOfTwo(scored.Keys, u, v);
  }

  /** `s` is the best score among the members, and one of them has it. */
  ghost predicate IsBestOf(w: World, m: MatchData, members: seq<UserId>, s: int) {
    && (forall u <- members :: Score(w, m, u) <= s)
    && exists u <- members :: Score(w, m, u) == s
  }

  lemma TeamScore(w: World, m: MatchData, t: TeamId)
    requires TeamsReady(m.teams, m.players.Keys)
    ensures IsBestOf(w, m, m.teams[t].players, Bests(Scores(w, m), m.teams)[t].score)
  {
    hide Score;
    var members := m.teams[t].players;
    var k := BestIsFirst(Scores(w, m), members);
    assert members[k] in members;
    forall u <- members ensures Score(w, m, u) <= Score(w, m, members[k]) {
      var i :| 0 <= i < |members| && members[i] == u;
    }
  }

  /** In a team duel each team scores its best member's score, and pays for scoring less than the other. */
  lemma TeamPays(w: World, m: MatchData, t: TeamId)
    requires Playable(m) && m.mode == TeamDuel
    ensures var r := TallyOf(w, m).teams; var o := OtherTeam(t);
            && t in r && o in r
            && IsBestOf(w, m, m.teams[t].players, r[t].score) && IsBestOf(w, m, m.teams[o].players, r[o].score)
            && r[t].damageTaken == Price(r[o].score - r[t].score, m.index + 1)
            && r[t].damageDealt == Price(r[t].score - r[o].score, m.index + 1)
  {
    hide IsBestOf, Scores, Bests, Price, Loss;
    var bests := Bests(Scores(w, m), m.teams);
    TeamScore(w, m, t);
    TeamScore(w, m, OtherTeam(t));
    LossIsPrice(bests[t].score, bests[OtherTeam(t)].score, m.index + 1);
    LossIsPrice(bests[OtherTeam(t)].score, bests[t].score, m.index + 1);
    assert OtherTeam(OtherTeam(t)) == t;
  }

  // ----- one winner -----------------------------------------------------------

  /** If a fair and balanced tally ends a two-player duel before the last round, one player is at zero and the other is not. */
  lemma OneDown(m: MatchData, t: Tally, u: UserId, v: UserId)
    requires m.mode == Duel && m.index + 1 < MAX_ROUNDS && u != v && m.players.Keys == {u, v}
    requires t.results.Keys == t.hp.Keys == {u, v} && Balanced(Duel, t.results, t.teams)
    requires forall x <- m.players :: m.players[x].hp > 0 && t.hp[x] == Max(0, m.players[x].hp - t.results[x].damageTaken)
    ensures EndsMatch(m, t) <==> t.hp[u] == 0 || t.hp[v] == 0
    ensures t.hp[u] > 0 || t.hp[v] > 0
  {
    hide EndsMatch;
    assert |t.results.Keys| == 2;
    assert t.results[u].damageTaken == 0 || t.results[v].damageTaken == 0;
    EndsByHp(m, t);
    assert SomeoneDown(t.hp) <==> t.hp[u] == 0 || t.hp[v] == 0 by {
      assert u in t.hp && v in t.hp;
    }
  }

  lemma EndsByHp(m: MatchData, t: Tally)
    requires m.mode == Duel && m.index + 1 < MAX_ROUNDS
    ensures EndsMatch(m, t) <==> SomeoneDown(t.hp)
  {
  }

  /** A two-player duel that a round ends early has exactly one player standing. */
  lemma OneStanding(w: World, m: MatchData, now: int, u: UserId, v: UserId)
    requires Valid(m) && Playable(m) && m.mode == Duel && m.state == Live && m.index + 1 < MAX_ROUNDS
    requires u != v && m.players.Keys == {u, v}
    ensures var r := Resolved(w, m, now);
            u in r.players && v in r.players && (r.state == Ended <==> r.players[u].hp == 0 || r.players[v].hp == 0)
    ensures var r := Resolved(w, m, now);
            u in r.players && v in r.players && (r.players[u].hp > 0 || r.players[v].hp > 0)
  {
    hide TallyOf, Balanced, EndsMatch, SettledTeams, SettledPlayers;
    var t := TallyOf(w, m);
    TallyFair(w, m);
    TallyBalanced(w, m);
    FairDuel(m, t);
    OneDown(m, t, u, v);
    SettledPlayersHp(m, t);
  }

  lemma FairDuel(m: MatchData, t: Tally)
    requires Valid(m) && m.mode == Duel && m.state == Live && Fair(m, t)
    ensures t.results.Keys == t.hp.Keys == m.players.Keys && t.teams == map[]
    ensures forall x <- m.players :: m.players[x].hp > 0 && t.hp[x] == Max(0, m.players[x].hp - t.results[x].damageTaken)
  {
  }
}
