/** What a match answers: whom a guess pays, where a round is played, when a match ends, and who stays in it. */
module DuelLaws {
  import opened Common
  import opened SortedSets
  import opened Scoring
  import opened DuelModel
  import opened DuelInvariant
  import opened DuelSafety
  import opened DuelLedger
  import opened DuelProgress
  import opened DuelRuns

  // ----- a round's results ------------------------------------------------------

  /** A result tells the player's guess and what it is worth at the round's location. */
  ghost predicate Tells(w: World, m: MatchData, u: UserId, p: PlayerResult) {
    if u in m.guesses
    then p.at == m.guesses[u].at && Judgement(p.km, p.score) == w.judge(m.location, Some(m.guesses[u].at))
    else p.at == Point(0.0, 0.0) && Judgement(p.km, p.score) == w.judge(m.location, None)
  }

  /** The row filed for a round: its number, id and location, and everybody's own result. */
  ghost predicate RowTells(w: World, m: MatchData, row: RoundResult) {
    && row.roundId == m.roundId && row.number == m.index + 1 && row.location == m.location
    && row.players.Keys == m.players.Keys
    && forall u <- m.players :: Tells(w, m, u, row.players[u])
  }

  lemma ScoresTell(w: World, m: MatchData)
    ensures forall u <- m.players :: Tells(w, m, u, Scores(w, m)[u])
  {
  }

  /** The same guess, distance and score, whatever the damage. */
  ghost predicate SameGuesses(r: map<UserId, PlayerResult>, s: map<UserId, PlayerResult>) {
    && r.Keys == s.Keys
    && forall u <- r :: r[u].at == s[u].at && r[u].km == s[u].km && r[u].score == s[u].score
  }

  lemma DuelSameGuesses(scored: map<UserId, PlayerResult>, round: nat, hp: map<UserId, int>)
    requires hp.Keys == scored.Keys
    ensures SameGuesses(DuelTally(scored, round, hp).results, scored)
  {
    hide DuelTaken, DuelDealt, DuelHp;
  }

  lemma TallySameGuesses(w: World, m: MatchData)
    requires Playable(m)
    ensures SameGuesses(TallyOf(w, m).results, Scores(w, m))
  {
    hide DuelTally, Scores;
    TallyCases(w, m);
    DuelSameGuesses(Scores(w, m), m.index + 1, Hps(m.players));
  }

  function LastRow(m: MatchData): RoundResult
    requires m.results != []
  {
    m.results[|m.results| - 1]
  }

  /** Every resolution files one row that tells each player's guess. */
  lemma ResolvedTells(w: World, m: MatchData, now: int)
    requires Playable(m) && m.state == Live
    ensures var r := Resolved(w, m, now); |r.results| == |m.results| + 1 && r.results[..|m.results|] == m.results && RowTells(w, m, LastRow(r))
  {
    hide TallyOf, SettledPlayers, SettledTeams, EndsMatch, Playable, Scores;
    ScoresTell(w, m);
    TallySameGuesses(w, m);
    assert Resolved(w, m, now).results[..|m.results|] == m.results;
  }

  lemma LastIsTally(w: World, m: MatchData, now: int)
    requires Playable(m) && m.state == Live
    ensures var r := Resolved(w, m, now); var t := TallyOf(w, m);
            && r.results != [] && LastRow(r).players == t.results && LastRow(r).teams == t.teams
            && r.players == SettledPlayers(m, t) && r.teams == SettledTeams(m, t)
            && (r.state == Ended <==> EndsMatch(m, t))
  {
    hide TallyOf, SettledPlayers, SettledTeams, EndsMatch, Playable;
  }

  // ----- who pays ------------------------------------------------------------------

  /** In a two-player duel the lower score pays the price of the deficit, and the result says what HP is left. */
  lemma DuelCharges(w: World, m: MatchData, now: int, u: UserId, v: UserId)
    requires Valid(m) && Playable(m) && m.mode == Duel && m.state == Live && u != v && m.players.Keys == {u, v}
    ensures var r := Resolved(w, m, now);
            && r.results != [] && u in r.players && u in LastRow(r).players && v in LastRow(r).players
            && var mine, theirs := LastRow(r).players[u], LastRow(r).players[v];
               && mine.damageTaken == Price(theirs.score - mine.score, m.index + 1)
               && mine.damageDealt == Price(mine.score - theirs.score, m.index + 1)
               && mine.hpAfter == r.players[u].hp == Max(0, m.players[u].hp - mine.damageTaken)
  {
    hide TallyOf, Price, SettledPlayers, SettledTeams, EndsMatch, Score;
    var t := TallyOf(w, m);
    LastIsTally(w, m, now);
    DuelPays(w, m, u, v);
    TallyFair(w, m);
    FairDuel(m, t);
    SettledPlayersHp(m, t);
    DuelHpAfter(w, m, u, v);
  }

  lemma DuelHpAfter(w: World, m: MatchData, u: UserId, v: UserId)
    requires Playable(m) && m.mode == Duel && u != v && m.players.Keys == {u, v}
    ensures var t := TallyOf(w, m); t.results[u].hpAfter == t.hp[u]
  {
    hide Scores, DuelTaken, DuelDealt, DuelHp;
    TallyCases(w, m);
    assert |m.players.Keys| == 2;
  }

  /** The engine's own judge. */
  ghost predicate OwnJudge(w: World, km: (Point, Point) -> real, decay: Decay) {
    forall l, g :: w.judge(l, g) == Judge(km, decay, l, g)
  }

  lemma NearerScoresMore(km: (Point, Point) -> real, decay: Decay, l: Point, near: Option<Point>, far: Option<Point>)
    requires near.Some? && (far.Some? ==> km(l, near.value) <= km(l, far.value))
    ensures Judge(km, decay, l, near).score >= Judge(km, decay, l, far).score
  {
    hide RoundScore;
    FartherScoresNoMore(decay, Judge(km, decay, l, near).km, Judge(km, decay, l, far).km);
  }

  /** In a duel a player whose guess is no farther than the other's, or who alone guessed, pays nothing. */
  lemma NearerNeverPays(w: World, m: MatchData, now: int, u: UserId, v: UserId, km: (Point, Point) -> real, decay: Decay)
    requires Valid(m) && Playable(m) && m.mode == Duel && m.state == Live && u != v && m.players.Keys == {u, v}
    requires OwnJudge(w, km, decay) && u in m.guesses
    requires v in m.guesses ==> km(m.location, m.guesses[u].at) <= km(m.location, m.guesses[v].at)
    ensures var r := Resolved(w, m, now);
            && r.results != [] && u in LastRow(r).players && LastRow(r).players[u].damageTaken == 0
            && u in r.players && r.players[u].hp == m.players[u].hp
  {
    hide Resolved, Judge, Valid, Playable;
    assert u in m.players && v in m.players;
    HpNotNegative(m);
    ResolvedTells(w, m, now);
    DuelCharges(w, m, now, u, v);
    var row := LastRow(Resolved(w, m, now));
    assert Tells(w, m, u, row.players[u]) && Tells(w, m, v, row.players[v]);
    NearerScoresMore(km, decay, m.location, Some(m.guesses[u].at), if v in m.guesses then Some(m.guesses[v].at) else None);
  }

  /** The member whose guess stands for the team: the first in team order to reach its best score. */
  ghost predicate Represents(row: RoundResult, members: seq<UserId>, b: TeamResult) {
    && (forall u <- members :: u in row.players && row.players[u].score <= b.score)
    && exists k: nat | k < |members| ::
         && members[k] == b.representative && b.representative in row.players
         && b.at == row.players[members[k]].at && b.km == row.players[members[k]].km && b.score == row.players[members[k]].score
         && forall i | 0 <= i < k :: members[i] in row.players && row.players[members[i]].score < b.score
  }

  lemma BestRepresents(w: World, m: MatchData, t: TeamId, row: RoundResult)
    requires TeamsReady(m.teams, m.players.Keys) && row.players == Scores(w, m)
    ensures Represents(row, m.teams[t].players, Bests(Scores(w, m), m.teams)[t])
  {
    hide Scores;
    var members := m.teams[t].players;
    var k := BestIsFirst(Scores(w, m), members);
    forall u <- members ensures u in row.players && row.players[u].score <= row.players[members[k]].score {
      var i :| 0 <= i < |members| && members[i] == u;
    }
  }

  lemma OutcomeSameBest(w: World, m: MatchData, t: TeamId)
    requires Playable(m) && m.mode == TeamDuel
    ensures var b, o := Bests(Scores(w, m), m.teams)[t], TallyOf(w, m).teams;
            t in o && o[t].representative == b.representative && o[t].at == b.at && o[t].km == b.km && o[t].score == b.score
    ensures TallyOf(w, m).results == Scores(w, m)
  {
    hide Scores, Bests, TeamTaken;
    TallyCases(w, m);
  }

  /** In a team duel each team's result is that of its representative. */
  lemma TeamRepresented(w: World, m: MatchData, now: int, t: TeamId)
    requires Valid(m) && Playable(m) && m.mode == TeamDuel && m.state == Live
    ensures var r := Resolved(w, m, now);
            r.results != [] && t in LastRow(r).teams && Represents(LastRow(r), m.teams[t].players, LastRow(r).teams[t])
  {
    hide TallyOf, SettledPlayers, SettledTeams, EndsMatch, Represents, Scores, Bests, Resolved;
    LastIsTally(w, m, now);
    OutcomeSameBest(w, m, t);
    BestRepresents(w, m, t, LastRow(Resolved(w, m, now)));
    SameRepresents(LastRow(Resolved(w, m, now)), m.teams[t].players, Bests(Scores(w, m), m.teams)[t], TallyOf(w, m).teams[t]);
  }

  /** Each team pays for scoring less than the other, and its members share the HP left. */
  lemma TeamCharges(w: World, m: MatchData, now: int, t: TeamId)
    requires Valid(m) && Playable(m) && m.mode == TeamDuel && m.state == Live
    ensures var r := Resolved(w, m, now); var o := OtherTeam(t);
            && r.results != [] && t in LastRow(r).teams && o in LastRow(r).teams && t in r.teams
            && var mine, theirs := LastRow(r).teams[t], LastRow(r).teams[o];
               && mine.damageTaken == Price(theirs.score - mine.score, m.index + 1)
               && mine.damageDealt == Price(mine.score - theirs.score, m.index + 1)
               && mine.hpAfter == r.teams[t].hp == Max(0, m.teams[t].hp - mine.damageTaken)
               && forall u <- m.teams[t].players :: u in r.players && r.players[u].hp == r.teams[t].hp
  {
    hide TallyOf, Price, SettledPlayers, SettledTeams, EndsMatch, Scores, Bests, Resolved, IsBestOf, Valid, Fair;
    var tally := TallyOf(w, m);
    LastIsTally(w, m, now);
    TeamPays(w, m, t);
    TallyFair(w, m);
    FairLowers(m, tally);
    FairTeams(m, tally);
    SettledPlayersHp(m, tally);
    SettledPartition(m, tally);
  }

  lemma SameRepresents(row: RoundResult, members: seq<UserId>, b: TeamResult, c: TeamResult)
    requires Represents(row, members, b) && c.representative == b.representative && c.at == b.at && c.km == b.km && c.score == b.score
    ensures Represents(row, members, c)
  {
  }

  lemma FairTeams(m: MatchData, t: Tally)
    requires Valid(m) && m.mode == TeamDuel && Fair(m, t)
    ensures t.results.Keys == t.hp.Keys == m.players.Keys && BothTeams(t.teams) && TeamsPartition(m.teams, m.players.Keys)
    ensures forall i: TeamId :: t.teams[i].hpAfter == Max(0, m.teams[i].hp - t.teams[i].damageTaken)
    ensures forall i: TeamId, u <- m.teams[i].players :: u in t.hp && t.hp[u] == t.teams[i].hpAfter
  {
  }

  // ----- when a round ends the match -------------------------------------------------

  /** A round ends a match exactly when it leaves a player or team at zero, or is the last. */
  lemma RoundEndsExactly(w: World, m: MatchData, now: int)
    requires Valid(m) && Playable(m) && m.state == Live
    ensures var r := Resolved(w, m, now);
            r.state == Ended <==>
              match m.mode
              case Duel => (exists u <- r.players :: r.players[u].hp == 0) || m.index + 1 >= 20
              case TeamDuel => (exists t <- r.teams :: r.teams[t].hp == 0) || m.index + 1 >= 20
              case FreeForAll => m.index + 1 >= 5
  {
    hide TallyOf, SettledPlayers, SettledTeams, EndsMatch, Fair;
    var t := TallyOf(w, m);
    LastIsTally(w, m, now);
    TallyFair(w, m);
    FairKeys(m, t);
    FairLowers(m, t);
    SettledPlayersHp(m, t);
    match m.mode
    case Duel => EndsByPlayer(m, t);
    case TeamDuel =>
      FairTeams(m, t);
      SettledPartition(m, t);
      EndsByTeam(m, t);
    case FreeForAll => EndsByCount(m, t);
  }

  lemma EndsByPlayer(m: MatchData, t: Tally)
    requires m.mode == Duel
    ensures EndsMatch(m, t) <==> (exists u <- t.hp :: t.hp[u] <= 0) || m.index + 1 >= 20
  {
  }

  lemma EndsByTeam(m: MatchData, t: Tally)
    requires m.mode == TeamDuel && BothTeams(m.teams) && BothTeams(t.teams) && TeamsPartition(m.teams, m.players.Keys)
    requires t.hp.Keys == m.players.Keys
    requires forall i: TeamId, u <- m.teams[i].players :: u in t.hp && t.hp[u] == t.teams[i].hpAfter
    ensures EndsMatch(m, t) <==> (exists i: TeamId :: t.teams[i].hpAfter <= 0) || m.index + 1 >= 20
  {
    if u :| u in t.hp && t.hp[u] <= 0 {
      if u in m.teams[A].players { assert t.teams[A].hpAfter <= 0; } else { assert t.teams[B].hpAfter <= 0; }
    }
  }

  lemma EndsByCount(m: MatchData, t: Tally)
    requires m.mode == FreeForAll
    ensures EndsMatch(m, t) <==> m.index + 1 >= 5
  {
  }

  // ----- where rounds are played --------------------------------------------------------

  /** The match is where the provider puts its round, and so was every round on file. */
  ghost predicate Placed(w: World, m: MatchData) {
    && w.provider(m.id, m.index) == Some(m.location)
    && forall i | 0 <= i < |m.results| :: RowPlaced(w, m.id, m.results[i])
  }

  ghost predicate RowPlaced(w: World, id: string, row: RoundResult) {
    row.number >= 1 && row.roundId == RoundId(id, row.number) && w.provider(id, row.number - 1) == Some(row.location)
  }

  lemma ResolvedPlaced(w: World, m: MatchData, now: int)
    requires Valid(m) && Playable(m) && Placed(w, m)
    ensures Placed(w, Resolved(w, m, now))
  {
    hide Resolved, Playable, Valid, RowTells, RowPlaced, Tells;
    if m.state == Live {
      ResolvedTells(w, m, now);
      ResolvedShape(w, m, now);
      ResolvedStays(w, m, now);
      var r := Resolved(w, m, now);
      RowTellsPlace(w, m, LastRow(r));
      forall i | 0 <= i < |r.results| ensures RowPlaced(w, r.id, r.results[i]) {
        if i < |m.results| { assert r.results[i] == r.results[..|m.results|][i] == m.results[i]; }
      }
    } else {
      EndedResolved(w, m, now);
    }
  }

  lemma RowTellsPlace(w: World, m: MatchData, row: RoundResult)
    requires Valid(m) && w.provider(m.id, m.index) == Some(m.location) && RowTells(w, m, row)
    ensures RowPlaced(w, m.id, row)
  {
  }

  lemma EndedResolved(w: World, m: MatchData, now: int)
    requires Playable(m) && m.state == Ended
    ensures Resolved(w, m, now) == m
  {
  }

  lemma ResolvedStays(w: World, m: MatchData, now: int)
    requires Playable(m)
    ensures Resolved(w, m, now).location == m.location
  {
    hide TallyOf, SettledPlayers, SettledTeams, EndsMatch, Playable;
  }

  lemma PlacedCarries(w: World, m: MatchData, r: MatchData)
    requires Placed(w, m) && r.id == m.id && r.index == m.index && r.location == m.location && r.results == m.results
    ensures Placed(w, r)
  {
  }

  lemma TickedPlaced(w: World, m: MatchData, now: int)
    requires Valid(m) && Playable(m) && Placed(w, m)
    ensures Placed(w, Ticked(w, m, now))
  {
    hide Valid, Playable, Resolved, Reaped, Abandoned, RowPlaced, Cleared, NormalizeMatchConfig;
    if m.state == Live && !m.pending {
      var shown := Announced(m, now);
      AnnouncedValid(m, now);
      ValidPlayable(shown);
      PlacedCarries(w, m, shown);
      ResolvedPlaced(w, shown, now);
      var resolved := if Expired(shown, now) then Resolved(w, shown, now) else shown;
      CleanOnly(resolved, now);
      PlacedCarries(w, resolved, Abandoned(Reaped(resolved, now), now));
    }
  }

  lemma GuessedPlaced(w: World, m: MatchData, g: GuessRequest, now: int)
    requires Valid(m) && Playable(m) && Placed(w, m)
    ensures Placed(w, Guessed(w, m, g, now))
  {
    hide Valid, Playable, Resolved, Placed, AllFinal;
    ResolvedPlaced(w, m, now);
    if g.user in m.players {
      var stored := WithGuess(m, g, now);
      GuessKeepsValid(m, g, now);
      ValidPlayable(stored);
      PlacedCarries(w, m, stored);
      ResolvedPlaced(w, stored, now);
    }
  }

  lemma OpKeepsPlaced(w: World, m: MatchData, op: Op, now: int)
    requires Valid(m) && Placed(w, m)
    ensures Placed(w, Apply(w, m, op, now))
  {
    hide Valid, Guessed, Ticked, Placed;
    ValidPlayable(m);
    match op
    case SubmitGuess(g) => GuessedPlaced(w, m, g, now);
    case Tick => TickedPlaced(w, m, now);
    case _ => PlacedCarries(w, m, Apply(w, m, op, now));
  }

  /** Over every run every round is played, and filed, where the provider puts it. */
  lemma {:induction false} RunKeepsPlaced(w: World, m: MatchData, run: seq<Event>)
    requires Valid(m) && Placed(w, m)
    ensures Placed(w, After(w, m, run))
  {
    hide Valid, Apply, Placed;
    if run != [] {
      var before, e := run[..|run| - 1], run[|run| - 1];
      RunKeepsPlaced(w, m, before);
      OpKeepsPlaced(w, After(w, m, before), e.op, e.now);
    }
  }

  /** Everything about a player but the guess of the round. */
  ghost predicate SamePlayer(p: Player, r: Player) {
    && r.hp == p.hp && r.totalScore == p.totalScore && r.team == p.team
    && r.disconnected == p.disconnected && r.disconnectDue == p.disconnectDue
  }

  /** A Tick after the intermission opens the next round where the provider puts it, with nobody's guess shown, or ends the match for want of a location. */
  lemma NextRoundOpens(w: World, m: MatchData, now: int)
    requires Valid(m) && Playable(m) && m.state == Live && m.pending && now > m.intermissionUntil.GetOr(0)
    ensures var r, next := Ticked(w, m, now), w.provider(m.id, m.index + 1);
            && r.id == m.id && r.mode == m.mode && r.teams == m.teams && r.results == m.results && !r.pending && r.intermissionUntil.None?
            && r.players.Keys == m.players.Keys && (forall u <- m.players :: SamePlayer(m.players[u], r.players[u]))
            && if next.None? then r.state == Ended && r.index == m.index && r.location == m.location
               else && r.state == Live && r.index == m.index + 1 && r.location == next.value && r.roundId == RoundId(m.id, m.index + 2)
                    && r.startedAt == now && !r.announced
                    && r.config == NormalizeMatchConfig(m.config)
                    && r.deadline == (if r.config.timer == Fixed then Some(now + 3_000_000_000 + r.config.limitMs * 1_000_000) else None)
                    && forall u <- m.players ::
                         !r.players[u].finalized && !r.players[u].hasGuess && r.players[u].lastGuess == Point(0.0, 0.0)
  {
    hide Valid, Playable, RoundId;
  }

  // ----- guesses -----------------------------------------------------------------------

  /** The last moment at which a round still takes guesses. */
  function GuessesUntil(m: MatchData): int {
    if m.deadline.Some? then m.deadline.value else m.startedAt + 3_000_000_000 + 480_000_000_000
  }

  /**
   * A guess in an open round by a player whose guess is not final yet replaces
   * what the player guessed before. It closes the round exactly if it is final
   * and everybody else's is; otherwise nothing else changes.
   */
  lemma GuessClosesExactly(w: World, m: MatchData, g: GuessRequest, now: int)
    requires Valid(m) && Playable(m) && m.state == Live && !m.pending && g.user in m.players && g.roundId == m.roundId
    requires m.startedAt + 3_000_000_000 <= now <= GuessesUntil(m) && (g.user in m.guesses ==> !m.guesses[g.user].finalized)
    ensures var r := Guessed(w, m, g, now);
            if Closes(m, g) then |r.results| == |m.results| + 1 && r.guesses == map[]
            else && r.state == Live && !r.pending && r.results == m.results && r.index == m.index
                 && r.guesses == m.guesses[g.user := Guess(g.at, g.finalize, now)]
                 && r.players == m.players[g.user := m.players[g.user].(lastGuess := g.at, hasGuess := true, finalized := g.finalize,
                                                                        disconnected := false, disconnectDue := 0)]
  {
    hide Resolved, Valid, Playable, AllFinal, Closes, RoundId;
    var stored := WithGuess(m, g, now);
    GuessKeepsValid(m, g, now);
    ValidPlayable(stored);
    ResolvedShape(w, stored, now);
    AllFinalExactly(m, g, now);
    assert !TooLate(m, g, now) && Accepted(m, g, now);
  }

  /** The guess is final, and so is everybody else's. */
  predicate Closes(m: MatchData, g: GuessRequest) {
    g.finalize && forall v <- m.players | v != g.user :: v in m.guesses && m.guesses[v].finalized
  }

  lemma AllFinalExactly(m: MatchData, g: GuessRequest, now: int)
    requires g.user in m.players
    ensures var s := WithGuess(m, g, now); AllFinal(s.players, s.guesses) <==> Closes(m, g)
  {
    var s := WithGuess(m, g, now);
    assert s.players.Keys == m.players.Keys;
    if AllFinal(s.players, s.guesses) {
      assert s.guesses[g.user].finalized;
      forall v <- m.players | v != g.user ensures v in m.guesses && m.guesses[v].finalized {
        assert v in s.players;
      }
    }
  }

  /** A final guess stands, and so does what anybody guessed before the round's intro is over or after its end. */
  lemma LateGuessIgnored(w: World, m: MatchData, g: GuessRequest, now: int)
    requires Valid(m) && Playable(m) && m.state == Live && !m.pending && g.user in m.players && g.roundId == m.roundId
    ensures now <= GuessesUntil(m) && (now < m.startedAt + 3_000_000_000 || (g.user in m.guesses && m.guesses[g.user].finalized)) ==>
              Guessed(w, m, g, now) == m
    ensures now > GuessesUntil(m) ==>
              var r := Guessed(w, m, g, now); r.results != [] && RowTells(w, m, LastRow(r)) && |r.results| == |m.results| + 1
  {
    hide Resolved, Valid, Playable, RowTells;
    ResolvedTells(w, m, now);
  }

  /** Which guesses are answered with an error, and which. */
  lemma RefusedExactly(m: MatchData, g: GuessRequest, now: int)
    ensures var v := GuessVerdict(m, g, now);
            && (v == Failure(NotLive) <==> m.state != Live)
            && (v == Failure(RoundMismatch) <==> m.state == Live && g.roundId != m.roundId)
            && (v == Failure(NotInMatch) <==> m.state == Live && g.roundId == m.roundId && g.user !in m.players
                                              && !(m.pending && now < m.intermissionUntil.GetOr(0)))
  {
  }

  /** A Tick inside a round with nobody overdue does nothing but announce, once, that the round is live. */
  lemma QuietTick(w: World, m: MatchData, now: int)
    requires Valid(m) && Playable(m) && GraceKept(m) && m.state == Live && !m.pending && now <= GuessesUntil(m)
    requires forall u <- m.players :: !Overdue(m.players[u], now)
    ensures Ticked(w, m, now) ==
              if !m.announced && now >= m.startedAt + 3_000_000_000 then m.(announced := true, eventSeq := m.eventSeq + 1) else m
  {
    hide Valid, Playable, Resolved, GraceKept, Abandoned, Overdue;
    InBounds(m);
    var shown := Announced(m, now);
    LinksCarry(m, shown);
    AbandonedNever(shown, now);
    assert OverdueSet(shown.players, now) == {};
  }

  // ----- leaving and staying -------------------------------------------------------------

  /** A forfeit ends a live match and costs the forfeiter, and nobody else, the HP. */
  lemma ForfeitCosts(w: World, m: MatchData, u: UserId, now: int)
    requires Valid(m) && m.state == Live && u in m.players
    ensures var r := Apply(w, m, Op.Forfeit(u), now);
            && r.state == Ended && u in r.players && r.players[u].hp == 0 && r.players == m.players[u := r.players[u]]
            && r.players[u].totalScore == m.players[u].totalScore
            && r.results == m.results && r.index == m.index && r.teams == m.teams
  {
    hide Valid;
  }

  /** The player is connected as far as the match knows. */
  ghost predicate Present(m: MatchData, u: UserId) {
    u in m.players && !m.players[u].disconnected
  }

  lemma OpKeepsPresent(w: World, m: MatchData, op: Op, now: int, u: UserId)
    requires Valid(m) && Present(m, u) && !(op.MarkDisconnected? && op.user == u)
    ensures Present(Apply(w, m, op, now), u)
  {
    hide Valid, Guessed, Ticked;
    ValidPlayable(m);
    match op
    case SubmitGuess(g) => GuessedPresent(w, m, g, now, u);
    case Tick => TickedSameLinks(w, m, now);
    case _ =>
  }

  lemma GuessedPresent(w: World, m: MatchData, g: GuessRequest, now: int, u: UserId)
    requires Valid(m) && Playable(m) && Present(m, u)
    ensures Present(Guessed(w, m, g, now), u)
  {
    hide Valid, Playable, Resolved, AllFinal;
    ResolvedSameLinks(w, m, now);
    if g.user in m.players {
      GuessKeepsValid(m, g, now);
      ValidPlayable(WithGuess(m, g, now));
      ResolvedSameLinks(w, WithGuess(m, g, now), now);
    }
  }

  /** Resuming makes a player present, and so does a guess that is taken. */
  lemma ComesBack(w: World, m: MatchData, u: UserId, g: GuessRequest, now: int)
    requires Valid(m) && Playable(m) && u in m.players && g.user == u
    ensures Present(Apply(w, m, Op.MarkResumed(u), now), u)
    ensures Accepted(m, g, now) ==> Present(Guessed(w, m, g, now), u)
  {
    hide Valid, Playable, Resolved, AllFinal;
    GuessKeepsValid(m, g, now);
    ValidPlayable(WithGuess(m, g, now));
    ResolvedSameLinks(w, WithGuess(m, g, now), now);
  }

  /** Who is present is never reaped: until the next disconnection no Tick's connection check costs that player HP. */
  lemma {:induction false} PresentNotReaped(w: World, m: MatchData, run: seq<Event>, u: UserId, now: int)
    requires Valid(m) && Present(m, u) && forall i | 0 <= i < |run| :: !(run[i].op.MarkDisconnected? && run[i].op.user == u)
    ensures var r := After(w, m, run);
            && Present(r, u)
            && u in Reaped(r, now).players && Reaped(r, now).players[u].hp == r.players[u].hp
            && Abandoned(r, now) == r
  {
    hide Valid, Apply;
    if run != [] {
      var before, e := run[..|run| - 1], run[|run| - 1];
      PresentNotReaped(w, m, before, u, now);
      OpKeepsPresent(w, After(w, m, before), e.op, e.now, u);
    }
  }
}
