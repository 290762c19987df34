/** What every engine operation keeps, from creation on. */
module DuelInvariant {
  import opened Common
  import opened SortedSets
  import opened DuelModel
  import opened Passes

  function Limit(mode: Mode): nat {
    if mode == FreeForAll then FFA_ROUNDS else MAX_ROUNDS
  }

  /** Two teams, each player on exactly one of them. */
  ghost predicate TeamsPartition(teams: map<TeamId, Team>, all: set<UserId>) {
    && TeamsReady(teams, all)
    && forall u <- all :: (u in teams[A].players) != (u in teams[B].players)
  }

  ghost predicate HpInRange(m: MatchData) {
    && (forall u <- m.players :: 0 <= m.players[u].hp <= STARTING_HP)
    && (m.state == Live ==> forall u <- m.players :: m.players[u].hp > 0)
  }

  ghost predicate TeamHpShared(m: MatchData)
    requires Playable(m)
  {
    m.mode == TeamDuel ==>
      && (forall t: TeamId :: 0 <= m.teams[t].hp <= STARTING_HP)
      && (m.state == Live ==> forall t: TeamId, u <- m.teams[t].players :: m.players[u].hp == m.teams[t].hp)
  }

  ghost predicate InProgress(m: MatchData) {
    && m.index < Limit(m.mode)
    && (m.state == Live && m.pending ==> m.index + 1 < Limit(m.mode) && m.intermissionUntil.Some?)
    && m.roundId == RoundId(m.id, m.index + 1)
  }

  ghost predicate Valid(m: MatchData) {
    && m.players != map[]
    && (m.mode == TeamDuel ==> TeamsPartition(m.teams, m.players.Keys))
    && HpInRange(m)
    && TeamHpShared(m)
    && InProgress(m)
  }

  lemma ValidPlayable(m: MatchData)
    requires Valid(m)
    ensures Playable(m)
  {
  }

  // ----- stages of a resolution, as the loops build it up -------------------

  function ScoresOf(w: World, m: MatchData, who: set<UserId>): map<UserId, PlayerResult> {
    map u | u in m.players && u in who :: Scored(w, m, u)
  }

  function Unfinalized(players: map<UserId, Player>, done: set<UserId>): (r: map<UserId, Player>)
    ensures r.Keys == players.Keys
  {
    map u | u in players :: if u in done then players[u].(finalized := false) else players[u]
  }

  /** The scoring loop has dealt with everyone but `todo`. */
  ghost predicate ScoredBut(w: World, m: MatchData, todo: set<UserId>, scored: map<UserId, PlayerResult>,
                            players: map<UserId, Player>, users: seq<UserId>)
  {
    && todo <= m.players.Keys
    && scored == ScoresOf(w, m, m.players.Keys - todo)
    && players == Unfinalized(m.players, m.players.Keys - todo)
    && Lists(users, m.players.Keys - todo)
  }

  lemma ScoreStart(w: World, m: MatchData)
    ensures ScoredBut(w, m, m.players.Keys, map[], m.players, [])
  {
  }

  lemma ScoreStep(w: World, m: MatchData, todo: set<UserId>, u: UserId, scored: map<UserId, PlayerResult>,
                  players: map<UserId, Player>, users: seq<UserId>)
    requires u in todo && ScoredBut(w, m, todo, scored, players, users)
    ensures u in players && u in m.players
    ensures ScoredBut(w, m, todo - {u}, scored[u := Scored(w, m, u)], players[u := players[u].(finalized := false)], users + [u])
  {
    hide Scored;
    assert m.players.Keys - (todo - {u}) == m.players.Keys - todo + {u};
  }

  lemma ScoreDone(w: World, m: MatchData, scored: map<UserId, PlayerResult>, players: map<UserId, Player>, users: seq<UserId>)
    requires ScoredBut(w, m, {}, scored, players, users)
    ensures scored == Scores(w, m)
    ensures players == Unfinalized(m.players, m.players.Keys)
    ensures Lists(users, m.players.Keys)
  {
    assert m.players.Keys - {} == m.players.Keys;
  }

  function Shared(players: map<UserId, Player>, members: seq<UserId>, hp: int): map<UserId, Player> {
    map u | u in players :: if u in members then players[u].(hp := hp) else players[u]
  }

  lemma ShareStep(players: map<UserId, Player>, members: seq<UserId>, hp: int, i: nat)
    requires i < |members|
    ensures var now := Shared(players, members[..i], hp); var u := members[i];
            Shared(players, members[..i + 1], hp) == if u in now then now[u := now[u].(hp := hp)] else now
  {
    assert members[..i + 1] == members[..i] + [members[i]];
  }

  function Clamped(teams: map<TeamId, Team>): map<TeamId, Team> {
    map t | t in teams :: teams[t].(hp := Max(0, teams[t].hp))
  }

  /** Members of every team outside `todo` carry its clamped HP. */
  function Spread(players: map<UserId, Player>, teams: map<TeamId, Team>, todo: set<TeamId>): map<UserId, Player>
    requires A in teams && B in teams
  {
    map u | u in players ::
      if A !in todo && u in teams[A].players then players[u].(hp := Max(0, teams[A].hp))
      else if B !in todo && u in teams[B].players then players[u].(hp := Max(0, teams[B].hp))
      else players[u]
  }

  lemma SpreadStart(players: map<UserId, Player>, teams: map<TeamId, Team>)
    requires A in teams && B in teams
    ensures Spread(players, teams, teams.Keys) == players
  {
  }

  lemma SpreadStep(players: map<UserId, Player>, teams: map<TeamId, Team>, todo: set<TeamId>, t: TeamId)
    requires TeamsPartition(teams, players.Keys) && t in todo
    ensures Shared(Spread(players, teams, todo), teams[t].players, Max(0, teams[t].hp)) == Spread(players, teams, todo - {t})
  {
    assert t == A || t == B;
  }

  /** The clamping pass has dealt with every team but `todo`. */
  ghost predicate Spreading(p0: map<UserId, Player>, t0: map<TeamId, Team>, s0: MatchState, todo: set<TeamId>,
                            players: map<UserId, Player>, teams: map<TeamId, Team>, state: MatchState)
  {
    && A in t0 && B in t0
    && teams == Mixed(t0, Clamped(t0), todo)
    && players == Spread(p0, t0, todo)
    && state == if exists t <- t0 :: t !in todo && t0[t].hp <= 0 then Ended else s0
  }

  lemma SpreadingStart(p0: map<UserId, Player>, t0: map<TeamId, Team>, s0: MatchState)
    requires A in t0 && B in t0
    ensures Spreading(p0, t0, s0, t0.Keys, p0, t0, s0)
  {
    PassStart(t0, Clamped(t0));
  }

  lemma SpreadingStep(p0: map<UserId, Player>, t0: map<TeamId, Team>, s0: MatchState, todo: set<TeamId>,
                      players: map<UserId, Player>, teams: map<TeamId, Team>, state: MatchState, t: TeamId)
    requires TeamsPartition(t0, p0.Keys) && t in todo && t in t0 && Spreading(p0, t0, s0, todo, players, teams, state)
    ensures t in teams && teams[t] == t0[t]
    ensures var clamped := if teams[t].hp < 0 then teams[t := teams[t].(hp := 0)] else teams;
            Spreading(p0, t0, s0, todo - {t}, Shared(players, clamped[t].players, clamped[t].hp), clamped,
                      if clamped[t].hp <= 0 then Ended else state)
  {
    hide Mixed, Spread, Shared;
    PassStep(t0, Clamped(t0), todo, t);
    SpreadStep(p0, t0, todo, t);
    var clamped := if teams[t].hp < 0 then teams[t := teams[t].(hp := 0)] else teams;
    assert clamped == teams[t := Clamped(t0)[t]];
  }

  lemma SpreadingDone(p0: map<UserId, Player>, t0: map<TeamId, Team>, s0: MatchState,
                      players: map<UserId, Player>, teams: map<TeamId, Team>, state: MatchState)
    requires Spreading(p0, t0, s0, {}, players, teams, state)
    ensures teams == Clamped(t0) && players == Spread(p0, t0, {})
    ensures state == if exists t <- t0 :: t0[t].hp <= 0 then Ended else s0
    ensures forall t <- t0 :: t in teams && (teams[t].hp <= 0 <==> t0[t].hp <= 0)
  {
    PassDone(t0, Clamped(t0));
  }

  function TeamsHit(teams: map<TeamId, Team>, outcome: map<TeamId, TeamResult>): map<TeamId, Team>
    requires forall t <- teams :: t in outcome
  {
    map t | t in teams :: teams[t].(hp := outcome[t].hpAfter)
  }

  ghost function MembersHit(players: map<UserId, Player>, teams: map<TeamId, Team>, outcome: map<TeamId, TeamResult>): map<UserId, Player>
    requires BothTeams(teams) && BothTeams(outcome)
  {
    map u | u in players :: players[u].(hp := MemberHp(teams, outcome, u, players[u].hp))
  }

  lemma LossCases(a: int, b: int, round: nat)
    ensures Loss(a, b, round) == if b > a then Damage(Abs(a - b), round) else 0
    ensures Loss(b, a, round) == if a > b then Damage(Abs(a - b), round) else 0
  {
  }

  /** Which team bleeds, in each case of the comparison. */
  lemma TeamLosses(bests: map<TeamId, TeamResult>, round: nat, a: int, b: int, d: nat)
    requires BothTeams(bests)
    requires a == bests[A].score && b == bests[B].score && d == Damage(Abs(a - b), round)
    ensures TeamTaken(bests, round, A) == (if b > a then d else 0)
    ensures TeamTaken(bests, round, B) == (if a > b then d else 0)
  {
    LossCases(a, b, round);
  }

  lemma CutCases(bests: map<TeamId, TeamResult>, round: nat, teams: map<TeamId, Team>, lossA: nat, lossB: nat)
    requires BothTeams(bests) && BothTeams(teams)
    requires lossA == TeamTaken(bests, round, A) && lossB == TeamTaken(bests, round, B)
    ensures lossA == 0 ==> Cut(bests, round, teams) == teams[B := teams[B].(hp := teams[B].hp - lossB)]
    ensures lossB == 0 ==> Cut(bests, round, teams) == teams[A := teams[A].(hp := teams[A].hp - lossA)]
  {
    assert forall t <- teams :: t == A || t == B;
  }

  lemma TeamStored(bests: map<TeamId, TeamResult>, round: nat, teams: map<TeamId, Team>, after: map<TeamId, Team>, lossA: nat, lossB: nat)
    requires BothTeams(bests) && BothTeams(teams) && after == TeamsHit(teams, TeamResults(bests, round, teams))
    requires lossA == TeamTaken(bests, round, A) && lossB == TeamTaken(bests, round, B)
    ensures A in after && B in after
    ensures map[A := bests[A].(damageDealt := lossB, damageTaken := lossA, hpAfter := after[A].hp),
                B := bests[B].(damageDealt := lossA, damageTaken := lossB, hpAfter := after[B].hp)]
            == TeamResults(bests, round, teams)
  {
    assert forall t <- teams :: t == A || t == B;
  }

  lemma CutHp(bests: map<TeamId, TeamResult>, round: nat, teams: map<TeamId, Team>)
    requires BothTeams(bests) && BothTeams(teams)
    ensures SameBut(teams, Cut(bests, round, teams), TeamResults(bests, round, teams))
  {
  }

  /** `cut` differs from `teams` in HP only, and `outcome` carries its clamped HP. */
  ghost predicate SameBut(teams: map<TeamId, Team>, cut: map<TeamId, Team>, outcome: map<TeamId, TeamResult>) {
    && BothTeams(teams) && cut.Keys == teams.Keys == outcome.Keys
    && forall t <- teams :: cut[t] == teams[t].(hp := cut[t].hp) && outcome[t].hpAfter == Max(0, cut[t].hp)
  }

  lemma HitsAgree(players: map<UserId, Player>, teams: map<TeamId, Team>, cut: map<TeamId, Team>, outcome: map<TeamId, TeamResult>)
    requires SameBut(teams, cut, outcome)
    ensures BothTeams(teams) && BothTeams(outcome)
    ensures Clamped(cut) == TeamsHit(teams, outcome)
    ensures Spread(players, cut, {}) == MembersHit(players, teams, outcome)
  {
  }

  function Credited(players: map<UserId, Player>, scored: map<UserId, PlayerResult>): map<UserId, Player>
    requires players.Keys == scored.Keys
  {
    map u | u in players :: players[u].(totalScore := players[u].totalScore + scored[u].score)
  }

  function Floored(players: map<UserId, Player>): map<UserId, Player> {
    map u | u in players :: players[u].(hp := Max(0, players[u].hp))
  }

  /** The players as a mode's damage step leaves them, before the common HP check. */
  function Struck(m: MatchData, t: Tally): map<UserId, Player>
    requires t.results.Keys == t.hp.Keys == m.players.Keys
  {
    map u | u in m.players ::
      m.players[u].(finalized := false, hp := t.hp[u],
                    totalScore := m.players[u].totalScore + if m.mode == FreeForAll then t.results[u].score else 0)
  }

  lemma StruckFloored(m: MatchData, t: Tally)
    requires t.results.Keys == t.hp.Keys == m.players.Keys
    ensures Hps(Struck(m, t)) == t.hp
    ensures m.mode != FreeForAll ==> Floored(Struck(m, t)) == SettledPlayers(m, t)
    ensures m.mode == FreeForAll ==> Struck(m, t) == SettledPlayers(m, t)
  {
  }

  lemma BareHps(players: map<UserId, Player>)
    ensures Hps(Unfinalized(players, players.Keys)) == Hps(players)
  {
  }

  /** A team is represented by the first member, in team order, to reach its highest score. */
  lemma {:induction false} BestIsFirst(scored: map<UserId, PlayerResult>, members: seq<UserId>) returns (k: nat)
    requires members != [] && forall v <- members :: v in scored
    ensures k < |members| && members[k] == Best(scored, members)
    ensures forall i | 0 <= i < |members| :: scored[members[i]].score <= scored[members[k]].score
    ensures forall i | 0 <= i < k :: scored[members[i]].score < scored[members[k]].score
  {
    k := 0;
    if |members| > 1 {
      var before, last := members[..|members| - 1], |members| - 1;
      k := BestIsFirst(scored, before);
      if scored[members[last]].score > scored[members[k]].score { k := last; }
    }
  }

  lemma ReadyToStrike(m: MatchData)
    requires Valid(m)
    ensures Playable(m) && (m.mode == TeamDuel ==> TeamsPartition(m.teams, m.players.Keys))
    ensures var bare := Unfinalized(m.players, m.players.Keys); forall u <- bare :: bare[u].hp >= 0
  {
  }

  lemma TallyCases(w: World, m: MatchData)
    requires Playable(m)
    ensures m.mode == Duel ==> TallyOf(w, m) == DuelTally(Scores(w, m), m.index + 1, Hps(m.players))
    ensures m.mode == TeamDuel ==> TallyOf(w, m) == TeamTally(Scores(w, m), m.index + 1, Hps(m.players), m.teams)
    ensures m.mode == FreeForAll ==> TallyOf(w, m) == Tally(Blanked(Scores(w, m)), map[], Hps(m.players))
    ensures m.mode != TeamDuel ==> SettledTeams(m, TallyOf(w, m)) == m.teams
  {
    hide DuelTally, TeamTally, Blanked, Scores;
  }

  lemma DuelStruck(m: MatchData, scored: map<UserId, PlayerResult>)
    requires m.mode == Duel && scored.Keys == m.players.Keys
    ensures var bare, t := Unfinalized(m.players, m.players.Keys), DuelTally(scored, m.index + 1, Hps(m.players));
            && DuelResults(scored, m.index + 1, Hps(bare)) == t.results
            && DuelPlayers(bare, scored, m.index + 1) == Struck(m, t)
  {
    hide DuelHp, DuelResult, DuelTaken, DuelDealt, DuelResults;
    BareHps(m.players);
  }

  lemma TeamStruck(m: MatchData, scored: map<UserId, PlayerResult>)
    requires m.mode == TeamDuel && scored.Keys == m.players.Keys && TeamsReady(m.teams, m.players.Keys)
    ensures var bare, t := Unfinalized(m.players, m.players.Keys), TeamTally(scored, m.index + 1, Hps(m.players), m.teams);
            && BothTeams(m.teams) && BothTeams(t.teams)
            && TeamsHit(m.teams, t.teams) == SettledTeams(m, t)
            && MembersHit(bare, m.teams, t.teams) == Struck(m, t)
  {
    hide TeamResults, Bests;
  }

  lemma FfaStruck(m: MatchData, scored: map<UserId, PlayerResult>)
    requires m.mode == FreeForAll && scored.Keys == m.players.Keys
    ensures Credited(Unfinalized(m.players, m.players.Keys), scored) == Struck(m, Tally(Blanked(scored), map[], Hps(m.players)))
  {
  }

  /** The reaping pass over everyone but `todo`. */
  ghost predicate ReapedBut(m: MatchData, now: int, todo: set<UserId>, players: map<UserId, Player>, state: MatchState, lastActivity: int, eventSeq: int) {
    var late := OverdueSet(m.players, now);
    && players == Mixed(m.players, Zeroed(m.players, late), todo)
    && eventSeq == m.eventSeq + |late - todo|
    && if late <= todo then state == m.state && lastActivity == m.lastActivity else state == Ended && lastActivity == now
  }

  lemma ReapStart(m: MatchData, now: int)
    ensures ReapedBut(m, now, m.players.Keys, m.players, m.state, m.lastActivity, m.eventSeq)
  {
    var late := OverdueSet(m.players, now);
    assert late - m.players.Keys == {};
    PassStart(m.players, Zeroed(m.players, late));
  }

  lemma ReapStep(m: MatchData, now: int, todo: set<UserId>, u: UserId, players: map<UserId, Player>, state: MatchState, lastActivity: int, eventSeq: int)
    requires u in todo && u in m.players && ReapedBut(m, now, todo, players, state, lastActivity, eventSeq)
    ensures u in players && players[u] == m.players[u]
    ensures Overdue(m.players[u], now) ==> ReapedBut(m, now, todo - {u}, players[u := players[u].(hp := 0)], Ended, now, eventSeq + 1)
    ensures !Overdue(m.players[u], now) ==> ReapedBut(m, now, todo - {u}, players, state, lastActivity, eventSeq)
  {
    hide Mixed, Overdue;
    var late := OverdueSet(m.players, now);
    PassStep(m.players, Zeroed(m.players, late), todo, u);
    if u in late {
      assert late - (todo - {u}) == late - todo + {u} && u !in late - todo;
    } else {
      assert late - (todo - {u}) == late - todo;
      assert players[u := players[u]] == players;
    }
  }

  lemma ReapDone(m: MatchData, now: int, players: map<UserId, Player>, state: MatchState, lastActivity: int, eventSeq: int)
    requires ReapedBut(m, now, {}, players, state, lastActivity, eventSeq)
    ensures m.(players := players, state := state, lastActivity := lastActivity, eventSeq := eventSeq) == Reaped(m, now)
  {
    var late := OverdueSet(m.players, now);
    PassDone(m.players, Zeroed(m.players, late));
    assert late - {} == late;
    assert late == {} ==> Zeroed(m.players, late) == m.players;
  }

  /** A match still live after the pass had nobody overdue, so it was not touched. */
  lemma LiveMeansNobodyOverdue(m: MatchData, now: int)
    requires Reaped(m, now).state == Live
    ensures Reaped(m, now) == m && forall u <- m.players :: !Overdue(m.players[u], now)
  {
    assert forall u <- m.players :: Overdue(m.players[u], now) ==> u in OverdueSet(m.players, now);
  }

  lemma GuessKeepsValid(m: MatchData, g: GuessRequest, now: int)
    requires Valid(m) && g.user in m.players
    ensures Valid(WithGuess(m, g, now))
  {
    var r := WithGuess(m, g, now);
    assert r.players.Keys == m.players.Keys;
  }

  function Opened(id: string, mode: Mode, config: MatchConfig, first: Point,
                  players: map<UserId, Player>, teams: map<TeamId, Team>, now: int): MatchData
  {
    var c := NormalizeMatchConfig(config);
    MatchData(id, mode, c, Live, players, teams, first, 0, now, FixedDeadline(c, now), RoundId(id, 1),
              map[], [], None, false, 1, false, now)
  }

  /** A two-user listing names a user and the rival, either way round. */
  lemma PairOf(all: set<UserId>, users: seq<UserId>)
    requires |users| == 2 && Lists(users, all)
    ensures users[0] != users[1] && all == {users[0], users[1]}
    ensures Rival(all, users[0]) == users[1] && Rival(all, users[1]) == users[0]
  {
    var u, v := users[0], users[1];
    assert u in users && v in users && users == [u, v];
    assert all == {u, v};
    assert |{u}| == 1;
  }

  ghost function DuelPlayers(players: map<UserId, Player>, scored: map<UserId, PlayerResult>, round: nat): map<UserId, Player>
    requires players.Keys == scored.Keys
  {
    map u | u in players :: players[u].(hp := DuelHp(scored, round, Hps(players), u))
  }

  function Bleed(players: map<UserId, Player>, u: UserId, damage: nat): map<UserId, Player>
    requires u in players
  {
    players[u := players[u].(hp := Max(0, players[u].hp - damage))]
  }

  /** The two players' losses, spelled out for the order in which they were listed. */
  lemma DuelLosses(scored: map<UserId, PlayerResult>, users: seq<UserId>, round: nat)
    requires |users| == 2 && Lists(users, scored.Keys)
    ensures scored.Keys == {users[0], users[1]} && users[0] != users[1]
    ensures var u, v := users[0], users[1]; var a, b := scored[u].score, scored[v].score; var d := Damage(Abs(a - b), round);
            && DuelTaken(scored, round, u) == DuelDealt(scored, round, v) == (if b > a then d else 0)
            && DuelTaken(scored, round, v) == DuelDealt(scored, round, u) == (if a > b then d else 0)
  {
    PairOf(scored.Keys, users);
  }

  /** Who bleeds, in each of the three cases of the comparison. */
  lemma DuelBleeds(players: map<UserId, Player>, scored: map<UserId, PlayerResult>, users: seq<UserId>, round: nat)
    requires |users| == 2 && Lists(users, scored.Keys) && players.Keys == scored.Keys
    requires forall u <- players :: players[u].hp >= 0
    ensures users[0] in players && users[1] in players
    ensures var u, v := users[0], users[1]; var a, b := scored[u].score, scored[v].score; var d := Damage(Abs(a - b), round);
            DuelPlayers(players, scored, round) ==
              if a > b then Bleed(players, v, d) else if b > a then Bleed(players, u, d) else players
  {
    hide Damage, DuelTaken, DuelDealt, Rival, Loss;
    DuelLosses(scored, users, round);
  }

  /** The stored results, given the HP left after bleeding. */
  lemma DuelStored(players: map<UserId, Player>, scored: map<UserId, PlayerResult>, users: seq<UserId>, round: nat)
    requires |users| == 2 && Lists(users, scored.Keys) && players.Keys == scored.Keys
    ensures users[0] in scored && users[1] in scored
    ensures var u, v := users[0], users[1]; var a, b := scored[u], scored[v]; var d := Damage(Abs(a.score - b.score), round);
            var after := DuelPlayers(players, scored, round);
            DuelResults(scored, round, Hps(players)) ==
              scored[u := a.(damageDealt := if a.score > b.score then d else 0, damageTaken := if b.score > a.score then d else 0, hpAfter := after[u].hp)]
                    [v := b.(damageDealt := if b.score > a.score then d else 0, damageTaken := if a.score > b.score then d else 0, hpAfter := after[v].hp)]
  {
    DuelLosses(scored, users, round);
  }
}
