/** What every operation keeps, what it never raises, and what it always moves. */
module DuelSafety {
  import opened Common
  import opened SortedSets
  import opened DuelModel
  import opened DuelInvariant

  datatype Op =
    | SubmitGuess(g: GuessRequest)
    | Tick
    | MarkDisconnected(user: UserId)
    | MarkResumed(user: UserId)
    | Forfeit(user: UserId)

  ghost function Apply(w: World, m: MatchData, op: Op, now: int): MatchData
    requires Valid(m)
  {
    ValidPlayable(m);
    match op
    case SubmitGuess(g) => Guessed(w, m, g, now)
    case Tick => Ticked(w, m, now)
    case MarkDisconnected(u) => Dropped(m, u, now)
    case MarkResumed(u) => Resumed(m, u, now)
    case Forfeit(u) => Forfeited(m, u, now)
  }

  // ----- what a tally is worth ----------------------------------------------

  /** The HP consequences of a round, in terms of the damage it records. */
  ghost predicate Fair(m: MatchData, t: Tally) {
    && t.results.Keys == t.hp.Keys == m.players.Keys
    && match m.mode
       case Duel =>
         && t.teams == map[]
         && forall u <- m.players :: t.results[u].damageTaken >= 0 && t.hp[u] == Max(0, m.players[u].hp - t.results[u].damageTaken)
       case TeamDuel =>
         && BothTeams(m.teams) && BothTeams(t.teams) && t.teams.Keys == m.teams.Keys
         && (forall i: TeamId :: t.teams[i].damageTaken >= 0 && t.teams[i].hpAfter == Max(0, m.teams[i].hp - t.teams[i].damageTaken))
         && (forall i: TeamId, u <- m.teams[i].players | u in m.players :: t.hp[u] == t.teams[i].hpAfter)
       case FreeForAll =>
         && t.teams == map[]
         && t.hp == Hps(m.players)
  }

  lemma DuelFair(m: MatchData, scored: map<UserId, PlayerResult>)
    requires m.mode == Duel && scored.Keys == m.players.Keys
    requires forall u <- scored :: scored[u].damageTaken == 0
    requires forall u <- m.players :: m.players[u].hp >= 0
    ensures Fair(m, DuelTally(scored, m.index + 1, Hps(m.players)))
  {
    hide Damage, Rival, Loss, DuelTaken, DuelDealt;
  }

  lemma TeamFair(m: MatchData, scored: map<UserId, PlayerResult>)
    requires m.mode == TeamDuel && scored.Keys == m.players.Keys && TeamsPartition(m.teams, m.players.Keys)
    ensures Fair(m, TeamTally(scored, m.index + 1, Hps(m.players), m.teams))
  {
    hide TeamResults, Bests, TeamsPartition, MemberHp;
    PartitionReady(m);
    var outcome := TeamResults(Bests(scored, m.teams), m.index + 1, m.teams);
    OutcomeFair(Bests(scored, m.teams), m.index + 1, m.teams);
    assert BothTeams(outcome);
    forall i: TeamId, u <- m.teams[i].players | u in m.players
      ensures MemberHp(m.teams, outcome, u, m.players[u].hp) == outcome[i].hpAfter
    {
      MembersShare(m, outcome, i, u);
    }
  }

  lemma PartitionReady(m: MatchData)
    requires TeamsPartition(m.teams, m.players.Keys)
    ensures TeamsReady(m.teams, m.players.Keys) && BothTeams(m.teams)
  {
  }

  lemma OutcomeFair(bests: map<TeamId, TeamResult>, round: nat, teams: map<TeamId, Team>)
    requires BothTeams(bests) && BothTeams(teams)
    ensures var r := TeamResults(bests, round, teams);
            forall i: TeamId :: i in r && r[i].damageTaken >= 0 && r[i].hpAfter == Max(0, teams[i].hp - r[i].damageTaken)
  {
    hide TeamTaken;
  }

  lemma MembersShare(m: MatchData, outcome: map<TeamId, TeamResult>, i: TeamId, u: UserId)
    requires TeamsPartition(m.teams, m.players.Keys) && BothTeams(outcome) && u in m.teams[i].players && u in m.players
    ensures MemberHp(m.teams, outcome, u, m.players[u].hp) == outcome[i].hpAfter
  {
    match i case A => case B =>
  }

  lemma TallyFair(w: World, m: MatchData)
    requires Valid(m)
    ensures Fair(m, TallyOf(w, m))
  {
    hide DuelTally, TeamTally;
    ValidPlayable(m);
    TallyCases(w, m);
    var scored := Scores(w, m);
    match m.mode
    case Duel => DuelFair(m, scored);
    case TeamDuel => TeamFair(m, scored);
    case FreeForAll =>
  }

  // ----- the invariant --------------------------------------------------------

  ghost predicate NeverRises(m: MatchData, r: MatchData) {
    && r.players.Keys == m.players.Keys
    && forall u <- m.players :: r.players[u].hp <= m.players[u].hp
  }

  /** Same teams, same round, HP lowered at most: an ended match stays valid. */
  lemma EndingKeepsValid(m: MatchData, r: MatchData)
    requires Valid(m) && r.mode == m.mode && r.teams == m.teams && r.index == m.index && r.id == m.id && r.roundId == m.roundId
    requires r.players.Keys == m.players.Keys && r.state == Ended
    requires forall u <- m.players :: 0 <= r.players[u].hp <= m.players[u].hp
    ensures Valid(r)
  {
  }

  /** Same teams, same round, same HP: validity does not depend on the rest. */
  lemma SameHpKeepsValid(m: MatchData, r: MatchData)
    requires Valid(m) && r.mode == m.mode && r.teams == m.teams && r.index == m.index && r.id == m.id && r.roundId == m.roundId
    requires r.state == m.state && r.pending == m.pending && r.intermissionUntil == m.intermissionUntil
    requires r.players.Keys == m.players.Keys && forall u <- m.players :: r.players[u].hp == m.players[u].hp
    ensures Valid(r)
  {
  }

  /** A fair tally only lowers HP, to zero at least, and to zero only by ending the match. */
  lemma FairLowers(m: MatchData, t: Tally)
    requires Valid(m) && Fair(m, t)
    ensures m.mode == TeamDuel ==> BothTeams(m.teams) && BothTeams(t.teams)
    ensures m.state == Live ==> forall u <- m.players :: 0 <= t.hp[u] <= m.players[u].hp <= STARTING_HP && m.players[u].hp > 0
    ensures m.mode == TeamDuel ==> forall i: TeamId :: 0 <= t.teams[i].hpAfter <= m.teams[i].hp <= STARTING_HP
    ensures m.mode == TeamDuel ==> forall i: TeamId, u <- m.teams[i].players :: t.hp[u] == t.teams[i].hpAfter
  {
  }

  lemma SettledPlayersHp(m: MatchData, t: Tally)
    requires t.results.Keys == t.hp.Keys == m.players.Keys
    requires forall u <- m.players :: 0 <= t.hp[u]
    ensures SettledPlayers(m, t).Keys == m.players.Keys
    ensures forall u <- m.players :: SettledPlayers(m, t)[u].hp == t.hp[u]
  {
  }

  lemma LiveAfterMeansUp(m: MatchData, t: Tally)
    requires !EndsMatch(m, t) && m.mode != FreeForAll
    ensures forall u <- t.hp :: t.hp[u] > 0
  {
    hide TeamDown;
  }

  lemma SettledHp(m: MatchData, t: Tally, now: int)
    requires t.results.Keys == t.hp.Keys == m.players.Keys && (m.mode == TeamDuel ==> BothTeams(t.teams))
    requires m.state == Live && forall u <- m.players :: 0 <= t.hp[u] <= m.players[u].hp <= STARTING_HP && m.players[u].hp > 0
    requires m.mode == FreeForAll ==> t.hp == Hps(m.players)
    ensures HpInRange(Settled(m, t, now)) && NeverRises(m, Settled(m, t, now))
    ensures forall u <- m.players :: Settled(m, t, now).players[u].hp == t.hp[u]
  {
    hide SettledPlayers, SettledTeams, EndsMatch;
    SettledPlayersHp(m, t);
    if !EndsMatch(m, t) && m.mode != FreeForAll {
      LiveAfterMeansUp(m, t);
    }
  }

  lemma SettledPartition(m: MatchData, t: Tally)
    requires m.mode == TeamDuel && BothTeams(t.teams) && TeamsPartition(m.teams, m.players.Keys)
    ensures TeamsPartition(SettledTeams(m, t), m.players.Keys)
    ensures forall i: TeamId :: SettledTeams(m, t)[i].players == m.teams[i].players && SettledTeams(m, t)[i].hp == t.teams[i].hpAfter
  {
    var after := SettledTeams(m, t);
    assert forall i: TeamId :: i in after && after[i].players == m.teams[i].players && after[i].hp == t.teams[i].hpAfter;
  }

  lemma SettledTeamsShared(m: MatchData, t: Tally, now: int)
    requires t.results.Keys == t.hp.Keys == m.players.Keys && m.mode == TeamDuel && BothTeams(t.teams)
    requires TeamsPartition(m.teams, m.players.Keys)
    requires forall i: TeamId :: 0 <= t.teams[i].hpAfter <= STARTING_HP
    requires forall i: TeamId, u <- m.teams[i].players :: t.hp[u] == t.teams[i].hpAfter
    requires forall u <- m.players :: Settled(m, t, now).players[u].hp == t.hp[u]
    ensures Playable(Settled(m, t, now)) && TeamHpShared(Settled(m, t, now))
    ensures TeamsPartition(Settled(m, t, now).teams, m.players.Keys)
  {
    hide SettledPlayers, SettledTeams, EndsMatch;
    SettledPartition(m, t);
  }

  lemma SettledValid(m: MatchData, t: Tally, now: int)
    requires Valid(m) && m.state == Live && Fair(m, t)
    ensures Valid(Settled(m, t, now)) && NeverRises(m, Settled(m, t, now))
  {
    hide Fair, SettledPlayers, SettledTeams, EndsMatch, HpInRange, TeamsPartition, InProgress;
    FairKeys(m, t);
    FairLowers(m, t);
    SettledHp(m, t, now);
    if m.mode == TeamDuel {
      SettledTeamsShared(m, t, now);
    }
    SettledInProgress(m, t, now);
    assert Settled(m, t, now).players.Keys == m.players.Keys;
  }

  lemma FairKeys(m: MatchData, t: Tally)
    requires Fair(m, t)
    ensures t.results.Keys == t.hp.Keys == m.players.Keys
    ensures m.mode == FreeForAll ==> t.hp == Hps(m.players)
  {
  }

  lemma SettledInProgress(m: MatchData, t: Tally, now: int)
    requires t.results.Keys == t.hp.Keys == m.players.Keys && (m.mode == TeamDuel ==> BothTeams(t.teams))
    requires InProgress(m) && m.state == Live
    ensures InProgress(Settled(m, t, now))
  {
    hide SettledPlayers, SettledTeams, SomeoneDown, TeamDown;
  }

  lemma ResolvedValid(w: World, m: MatchData, now: int)
    requires Valid(m)
    ensures Playable(m) && Valid(Resolved(w, m, now)) && NeverRises(m, Resolved(w, m, now))
  {
    hide TallyOf, Fair, Settled, Valid;
    ValidPlayable(m);
    TallyFair(w, m);
    if m.state == Live {
      SettledValid(m, TallyOf(w, m), now);
    }
  }

  /** The next round, with the same teams and HP. */
  lemma OpeningKeepsValid(m: MatchData, r: MatchData)
    requires Valid(m) && m.state == Live && r.mode == m.mode && r.teams == m.teams && r.state == Live && !r.pending
    requires r.players.Keys == m.players.Keys && forall u <- m.players :: r.players[u].hp == m.players[u].hp
    requires r.index < Limit(r.mode) && r.roundId == RoundId(r.id, r.index + 1)
    ensures Valid(r)
  {
  }

  lemma AdvancedValid(w: World, m: MatchData, now: int)
    requires Valid(m) && m.state == Live
    ensures Valid(Advanced(w, m, now)) && NeverRises(m, Advanced(w, m, now))
  {
    hide Valid, NormalizeMatchConfig, FixedDeadline, RoundId, Limit;
    var r := Advanced(w, m, now);
    HpNotNegative(m);
    RoundsLeft(m);
    assert r.players.Keys == m.players.Keys;
    if m.pending && r.state == Ended {
      EndingKeepsValid(m, r);
    } else if m.pending {
      OpeningKeepsValid(m, r);
    }
  }

  lemma RoundsLeft(m: MatchData)
    requires Valid(m) && m.state == Live
    ensures m.pending ==> m.index + 1 < Limit(m.mode)
  {
  }

  lemma ReapedValid(m: MatchData, now: int)
    requires Valid(m)
    ensures Valid(Reaped(m, now)) && NeverRises(m, Reaped(m, now))
    ensures Valid(Abandoned(m, now)) && NeverRises(m, Abandoned(m, now))
  {
    hide Valid;
    HpNotNegative(m);
    if OverdueSet(m.players, now) != {} { EndingKeepsValid(m, Reaped(m, now)); }
    if m.state == Live && Stale(m, now) { EndingKeepsValid(m, Abandoned(m, now)); }
  }

  lemma HpNotNegative(m: MatchData)
    requires Valid(m)
    ensures forall u <- m.players :: m.players[u].hp >= 0
  {
  }

  lemma AnnouncedValid(m: MatchData, now: int)
    requires Valid(m)
    ensures Valid(Announced(m, now)) && NeverRises(m, Announced(m, now))
  {
  }

  lemma TickedValid(w: World, m: MatchData, now: int)
    requires Valid(m) && Playable(m)
    ensures Valid(Ticked(w, m, now)) && NeverRises(m, Ticked(w, m, now))
  {
    hide Valid, Advanced, Resolved, Reaped, Abandoned, Announced;
    if m.state == Live {
      if m.pending {
        AdvancedValid(w, m, now);
      } else {
        var shown := Announced(m, now);
        AnnouncedValid(m, now);
        ResolvedValid(w, shown, now);
        var resolved := if Expired(shown, now) then Resolved(w, shown, now) else shown;
        ReapedValid(resolved, now);
        ReapedValid(Reaped(resolved, now), now);
      }
    }
  }

  lemma GuessedValid(w: World, m: MatchData, g: GuessRequest, now: int)
    requires Valid(m) && Playable(m)
    ensures Valid(Guessed(w, m, g, now)) && NeverRises(m, Guessed(w, m, g, now))
  {
    hide Valid, Resolved;
    ResolvedValid(w, m, now);
    if g.user in m.players {
      GuessKeepsValid(m, g, now);
      ResolvedValid(w, WithGuess(m, g, now), now);
    }
  }

  /** Every operation keeps the invariant, and no HP ever rises. */
  lemma OpKeepsValid(w: World, m: MatchData, op: Op, now: int)
    requires Valid(m)
    ensures Valid(Apply(w, m, op, now)) && NeverRises(m, Apply(w, m, op, now))
  {
    hide Guessed, Ticked, Valid;
    ValidPlayable(m);
    HpNotNegative(m);
    var r := Apply(w, m, op, now);
    match op
    case SubmitGuess(g) => GuessedValid(w, m, g, now);
    case Tick => TickedValid(w, m, now);
    case MarkDisconnected(u) => SameHpKeepsValid(m, r);
    case MarkResumed(u) => SameHpKeepsValid(m, r);
    case Forfeit(u) => if r != m { EndingKeepsValid(m, r); }
  }

  // ----- change and finality ----------------------------------------------------

  lemma ResolvedMoves(w: World, m: MatchData, now: int)
    requires Playable(m)
    ensures Resolved(w, m, now) == m || Resolved(w, m, now).eventSeq > m.eventSeq
  {
    hide TallyOf;
  }

  lemma CleanMoves(m: MatchData, now: int)
    ensures Reaped(m, now) == m || Reaped(m, now).eventSeq > m.eventSeq
    ensures Abandoned(m, now) == m || Abandoned(m, now).eventSeq > m.eventSeq
  {
  }

  /** The connection checks touch players, state, activity and sequence number only. */
  lemma CleanOnly(m: MatchData, now: int)
    ensures var r := Abandoned(Reaped(m, now), now);
            r == m.(players := r.players, state := r.state, lastActivity := r.lastActivity, eventSeq := r.eventSeq)
            && (r.state == Live ==> m.state == Live)
  {
    hide Overdue, Stale;
  }

  lemma TickedMoves(w: World, m: MatchData, now: int)
    requires Playable(m)
    ensures Ticked(w, m, now) == m || Ticked(w, m, now).eventSeq > m.eventSeq
  {
    hide Resolved, Reaped, Abandoned, Playable;
    if m.state == Live && !m.pending {
      var shown := Announced(m, now);
      ShownPlayable(m, now);
      ResolvedMoves(w, shown, now);
      var resolved := if Expired(shown, now) then Resolved(w, shown, now) else shown;
      CleanMoves(resolved, now);
      CleanMoves(Reaped(resolved, now), now);
    }
  }

  lemma ShownPlayable(m: MatchData, now: int)
    requires Playable(m)
    ensures Playable(Announced(m, now))
  {
  }

  lemma GuessedMoves(w: World, m: MatchData, g: GuessRequest, now: int)
    requires Valid(m) && Playable(m)
    ensures Guessed(w, m, g, now) == m || Guessed(w, m, g, now).eventSeq > m.eventSeq
  {
    hide Resolved, Valid, Playable;
    ResolvedMoves(w, m, now);
    if g.user in m.players {
      GuessKeepsValid(m, g, now);
      ValidPlayable(WithGuess(m, g, now));
      ResolvedMoves(w, WithGuess(m, g, now), now);
    }
  }

  /** Whatever an operation stores, it raises the event sequence. */
  lemma ChangeRaisesEventSeq(w: World, m: MatchData, op: Op, now: int)
    requires Valid(m)
    ensures Apply(w, m, op, now) == m || Apply(w, m, op, now).eventSeq > m.eventSeq
  {
    hide Guessed, Ticked;
    ValidPlayable(m);
    match op
    case SubmitGuess(g) => GuessedMoves(w, m, g, now);
    case Tick => TickedMoves(w, m, now);
    case _ =>
  }

  ghost predicate SameOutcome(m: MatchData, r: MatchData) {
    && r.state == m.state && r.results == m.results && r.index == m.index
    && r.players.Keys == m.players.Keys
    && forall u <- m.players :: r.players[u].hp == m.players[u].hp && r.players[u].totalScore == m.players[u].totalScore
  }

  /** An ended match keeps its state, HP, scores, results and index for ever. */
  lemma EndedIsFinal(w: World, m: MatchData, op: Op, now: int)
    requires Valid(m) && m.state == Ended
    ensures SameOutcome(m, Apply(w, m, op, now))
  {
    hide Resolved, Valid;
  }
}
