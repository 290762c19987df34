/** Whole runs: any interleaving of operations, from the creation of a match on. */
module DuelRuns {
  import opened Common
  import opened SortedSets
  import opened DuelModel
  import opened DuelInvariant
  import opened DuelSafety
  import opened DuelLedger
  import opened DuelProgress

  // ----- progress ---------------------------------------------------------------

  /** Two steps for every round still to play; one is behind us during an intermission. */
  ghost function StepsLeft(m: MatchData): int {
    if m.state == Ended then 0 else 2 * (Limit(m.mode) - m.index) - if m.pending then 1 else 0
  }

  /** A Tick that finds the match live and its current phase over. */
  predicate LateTick(m: MatchData, op: Op, now: int) {
    m.state == Live && op.Tick? && now > PhaseEnd(m)
  }

  lemma ResolvedSteps(w: World, m: MatchData, now: int)
    requires Playable(m) && m.state == Live && m.index < Limit(m.mode)
    ensures StepsLeft(Resolved(w, m, now)) <= StepsLeft(m)
    ensures !m.pending ==> StepsLeft(Resolved(w, m, now)) < StepsLeft(m)
  {
    hide TallyOf, SettledPlayers, SettledTeams, EndsMatch, Playable;
  }

  lemma GuessedSteps(w: World, m: MatchData, g: GuessRequest, now: int)
    requires Valid(m) && Playable(m)
    ensures StepsLeft(Guessed(w, m, g, now)) <= StepsLeft(m)
  {
    hide Resolved, Valid, Playable, Limit, AllFinal, RoundId;
    InBounds(m);
    if m.state == Live {
      ResolvedSteps(w, m, now);
      if g.user in m.players {
        GuessKeepsValid(m, g, now);
        ValidPlayable(WithGuess(m, g, now));
        ResolvedSteps(w, WithGuess(m, g, now), now);
      }
    }
  }

  lemma InBounds(m: MatchData)
    requires Valid(m)
    ensures m.index < Limit(m.mode) && m.players != map[]
    ensures m.state == Live && m.pending ==> m.intermissionUntil.Some?
  {
  }

  lemma TickedSteps(w: World, m: MatchData, now: int)
    requires Valid(m) && Playable(m)
    ensures StepsLeft(Ticked(w, m, now)) <= StepsLeft(m)
    ensures LateTick(m, Tick, now) ==> StepsLeft(Ticked(w, m, now)) < StepsLeft(m)
  {
    hide Resolved, Valid, Playable, Limit, RoundId;
    InBounds(m);
    if m.state == Live && !m.pending {
      ShownPlayable(m, now);
      ResolvedSteps(w, Announced(m, now), now);
    }
  }

  /** No operation adds steps, and a late Tick takes one away. */
  lemma OpTakesSteps(w: World, m: MatchData, op: Op, now: int)
    requires Valid(m)
    ensures StepsLeft(Apply(w, m, op, now)) <= StepsLeft(m)
    ensures LateTick(m, op, now) ==> StepsLeft(Apply(w, m, op, now)) < StepsLeft(m)
  {
    hide Guessed, Ticked, Valid;
    ValidPlayable(m);
    InBounds(m);
    match op
    case SubmitGuess(g) => GuessedSteps(w, m, g, now);
    case Tick => TickedSteps(w, m, now);
    case _ =>
  }

  // ----- runs ---------------------------------------------------------------------

  datatype Event = Event(op: Op, now: int)

  /** The match after a run of operations, in any order. */
  ghost function After(w: World, m: MatchData, run: seq<Event>): (r: MatchData)
    requires Valid(m)
    ensures Valid(r) && r.players.Keys == m.players.Keys
  {
    if run == [] then m
    else
      var prev, e := After(w, m, run[..|run| - 1]), run[|run| - 1];
      OpKeepsValid(w, prev, e.op, e.now);
      Apply(w, prev, e.op, e.now)
  }

  /** The match as the i-th operation of the run finds it. */
  ghost function At(w: World, m: MatchData, run: seq<Event>, i: nat): (r: MatchData)
    requires Valid(m) && i <= |run|
    ensures Valid(r)
  {
    After(w, m, run[..i])
  }

  ghost function LateTicks(w: World, m: MatchData, run: seq<Event>): nat
    requires Valid(m)
  {
    if run == [] then 0
    else
      var before, e := run[..|run| - 1], run[|run| - 1];
      LateTicks(w, m, before) + if LateTick(After(w, m, before), e.op, e.now) then 1 else 0
  }

  lemma {:induction false} RunTakesSteps(w: World, m: MatchData, run: seq<Event>)
    requires Valid(m)
    ensures StepsLeft(After(w, m, run)) + LateTicks(w, m, run) <= StepsLeft(m)
  {
    hide Apply, Valid, LateTick, StepsLeft;
    if run != [] {
      var before, e := run[..|run| - 1], run[|run| - 1];
      RunTakesSteps(w, m, before);
      OpTakesSteps(w, After(w, m, before), e.op, e.now);
    }
  }

  /** Whatever the players do, a match survives fewer than two late Ticks a round. */
  lemma LateTicksBounded(w: World, m: MatchData, run: seq<Event>)
    requires Valid(m) && m.state == Live
    ensures LateTicks(w, m, run) <= 2 * (Limit(m.mode) - m.index)
    ensures LateTicks(w, m, run) == 2 * (Limit(m.mode) - m.index) ==> After(w, m, run).state == Ended
  {
    hide Limit, Apply;
    RunTakesSteps(w, m, run);
    InBounds(After(w, m, run));
  }

  /** A run of Ticks, each later than the end of the phase it finds. */
  ghost predicate TicksOnly(w: World, m: MatchData, run: seq<Event>)
    requires Valid(m)
  {
    forall i | 0 <= i < |run| :: run[i].op.Tick? && run[i].now > PhaseEnd(At(w, m, run, i))
  }

  lemma {:induction false} TicksAreLate(w: World, m: MatchData, run: seq<Event>)
    requires Valid(m) && TicksOnly(w, m, run)
    ensures After(w, m, run).state == Live ==> LateTicks(w, m, run) == |run|
  {
    hide Apply, Valid, PhaseEnd, SameOutcome;
    if run != [] {
      var before, e := run[..|run| - 1], run[|run| - 1];
      assert At(w, m, run, |before|) == After(w, m, before);
      forall i | 0 <= i < |before| ensures At(w, m, before, i) == At(w, m, run, i) {
        assert before[..i] == run[..i];
      }
      TicksAreLate(w, m, before);
      if After(w, m, before).state == Ended { StaysEnded(w, After(w, m, before), e.op, e.now); }
    }
  }

  lemma StaysEnded(w: World, m: MatchData, op: Op, now: int)
    requires Valid(m) && m.state == Ended
    ensures Apply(w, m, op, now).state == Ended
  {
    hide Apply, Valid;
    EndedIsFinal(w, m, op, now);
  }

  /** Two late Ticks a round end any live match. */
  lemma TicksEndTheMatch(w: World, m: MatchData, run: seq<Event>)
    requires Valid(m) && m.state == Live && TicksOnly(w, m, run)
    requires |run| >= 2 * (Limit(m.mode) - m.index)
    ensures After(w, m, run).state == Ended
  {
    hide TicksOnly, LateTicks, After, Limit;
    TicksAreLate(w, m, run);
    LateTicksBounded(w, m, run);
  }

  // ----- safety over runs -------------------------------------------------------------

  lemma {:induction false} OutcomeCarries(w: World, m: MatchData, run: seq<Event>)
    requires Valid(m) && m.state == Ended
    ensures SameOutcome(m, After(w, m, run))
  {
    hide Apply, Valid;
    if run != [] {
      var before, e := run[..|run| - 1], run[|run| - 1];
      OutcomeCarries(w, m, before);
      EndedIsFinal(w, After(w, m, before), e.op, e.now);
    }
  }

  /** From creation on: HP never rises or leaves its range, and the books balance, whatever the run. */
  lemma {:induction false} RunKeepsBooks(w: World, m: MatchData, run: seq<Event>)
    requires Valid(m) && Playable(m) && Ledger(m) && AllBalanced(m)
    ensures var r := After(w, m, run); Playable(r) && Ledger(r) && AllBalanced(r) && NeverRises(m, r)
  {
    hide Apply, Valid, Ledger, AllBalanced, Playable;
    if run != [] {
      var before, e := run[..|run| - 1], run[|run| - 1];
      RunKeepsBooks(w, m, before);
      OpKeepsLedger(w, After(w, m, before), e.op, e.now);
      OpKeepsValid(w, After(w, m, before), e.op, e.now);
    }
  }

  /** No guess of the run resolves a round, or is stored, in the gap after an intermission. */
  ghost predicate GapFree(w: World, m: MatchData, run: seq<Event>)
    requires Valid(m)
  {
    forall i | 0 <= i < |run| ::
      !ResolvesInGap(At(w, m, run, i), run[i].op, run[i].now) && !StoresInGap(At(w, m, run, i), run[i].op, run[i].now)
  }

  lemma {:induction false} GapFreeRun(w: World, m: MatchData, run: seq<Event>)
    requires Valid(m) && RoundsOnce(m) && Tidy(m) && GapFree(w, m, run)
    ensures var r := After(w, m, run); RoundsOnce(r) && Tidy(r)
  {
    hide Apply, Valid, RoundsOnce, Tidy, ResolvesInGap, StoresInGap;
    if run != [] {
      var before, e := run[..|run| - 1], run[|run| - 1];
      assert At(w, m, run, |before|) == After(w, m, before);
      forall i | 0 <= i < |before| ensures At(w, m, before, i) == At(w, m, run, i) {
        assert before[..i] == run[..i];
      }
      GapFreeRun(w, m, before);
      RoundsOnceExactly(w, After(w, m, before), e.op, e.now);
      TidyExactly(w, After(w, m, before), e.op, e.now);
    }
  }

  function Clock(start: int, run: seq<Event>): int {
    if run == [] then start else run[|run| - 1].now
  }

  /** The clock never runs backwards. */
  predicate Ordered(start: int, run: seq<Event>) {
    run != [] ==>
      var before := run[..|run| - 1];
      Ordered(start, before) && Clock(start, before) <= run[|run| - 1].now
  }

  /** Over every run on such a clock, gap guesses included, open rounds have exact deadlines. */
  lemma {:induction false} RunKeepsDeadlines(w: World, m: MatchData, start: int, run: seq<Event>)
    requires Valid(m) && DeadlineExact(m) && Past(m, start) && Ordered(start, run)
    ensures var r := After(w, m, run); DeadlineExact(r) && Past(r, Clock(start, run))
  {
    hide Apply, Valid, DeadlineExact, Past;
    if run != [] {
      var before, e := run[..|run| - 1], run[|run| - 1];
      RunKeepsDeadlines(w, m, start, before);
      PastLater(After(w, m, before), Clock(start, before), e.now);
      OpKeepsDeadline(w, After(w, m, before), e.op, e.now);
    }
  }

  lemma PastLater(m: MatchData, now: int, later: int)
    requires Past(m, now) && now <= later
    ensures Past(m, later)
  {
  }

  // ----- creation ---------------------------------------------------------------------

  /** Everybody starts with full HP and nothing scored. */
  predicate Fresh(players: map<UserId, Player>) {
    forall u <- players :: players[u].hp == STARTING_HP && players[u].totalScore == 0 && !players[u].disconnected
  }

  predicate FreshTeams(teams: map<TeamId, Team>) {
    forall t <- teams :: teams[t].hp == STARTING_HP
  }

  /** A new match satisfies everything the runs above start from. */
  lemma OpenedSound(id: string, mode: Mode, config: MatchConfig, first: Point,
                    players: map<UserId, Player>, teams: map<TeamId, Team>, now: int)
    requires players != map[] && Fresh(players) && FreshTeams(teams)
    requires mode == TeamDuel ==> TeamsPartition(teams, players.Keys)
    ensures var m := Opened(id, mode, config, first, players, teams, now);
            && Valid(m) && Playable(m) && Ledger(m) && AllBalanced(m)
            && RoundsOnce(m) && Tidy(m) && DeadlineExact(m) && m.state == Live && m.index == 0
  {
    hide NormalizeMatchConfig, RoundId;
  }

  // ----- the stale branch ---------------------------------------------------------------

  /** A disconnected player's grace period was set no later than the last activity. */
  ghost predicate GraceKept(m: MatchData) {
    forall u <- m.players | m.players[u].disconnected :: 0 < m.players[u].disconnectDue <= Milli(m.lastActivity + DISCONNECT_GRACE)
  }

  ghost predicate SameLinks(m: MatchData, r: MatchData) {
    && r.players.Keys == m.players.Keys
    && forall u <- m.players :: r.players[u].disconnected == m.players[u].disconnected && r.players[u].disconnectDue == m.players[u].disconnectDue
  }

  lemma LinksCarry(m: MatchData, r: MatchData)
    requires GraceKept(m) && SameLinks(m, r) && r.lastActivity >= m.lastActivity
    ensures GraceKept(r)
  {
    MilliGrows(m.lastActivity + DISCONNECT_GRACE, r.lastActivity + DISCONNECT_GRACE);
  }

  lemma MilliGrows(s: int, t: int)
    requires s <= t
    ensures Milli(s) <= Milli(t)
  {
  }

  lemma ResolvedSameLinks(w: World, m: MatchData, now: int)
    requires Playable(m)
    ensures SameLinks(m, Resolved(w, m, now))
  {
    hide TallyOf, SettledTeams, EndsMatch, Playable;
  }

  lemma ResolvedLinks(w: World, m: MatchData, now: int)
    requires Playable(m) && GraceKept(m) && m.lastActivity <= now
    ensures GraceKept(Resolved(w, m, now)) && m.lastActivity <= Resolved(w, m, now).lastActivity <= now
    ensures m.state == Live ==> Resolved(w, m, now).lastActivity == now
  {
    hide TallyOf, SettledPlayers, SettledTeams, EndsMatch, Playable, SameLinks, GraceKept;
    ResolvedSameLinks(w, m, now);
    LinksCarry(m, Resolved(w, m, now));
  }

  /** With somebody disconnected that long, the grace period has run out as well. */
  lemma StaleMeansOverdue(m: MatchData, now: int)
    requires GraceKept(m) && m.players != map[] && Stale(m, now)
    ensures OverdueSet(m.players, now) != {}
  {
    var u :| u in m.players;
    assert m.lastActivity + DISCONNECT_GRACE + 1_000_000 <= now;
    assert Milli(m.lastActivity + DISCONNECT_GRACE) < Milli(now);
    assert u in OverdueSet(m.players, now);
  }

  /** So the stale check at the end of a Tick never fires. */
  lemma AbandonedNever(m: MatchData, now: int)
    requires GraceKept(m) && m.players != map[]
    ensures Abandoned(Reaped(m, now), now) == Reaped(m, now)
  {
    if Stale(m, now) { StaleMeansOverdue(m, now); }
  }

  lemma TickedLinks(w: World, m: MatchData, now: int)
    requires Valid(m) && Playable(m) && GraceKept(m) && m.lastActivity <= now
    ensures GraceKept(Ticked(w, m, now)) && m.lastActivity <= Ticked(w, m, now).lastActivity <= now
  {
    hide Valid, Playable, Resolved, GraceKept, Reaped, Abandoned;
    InBounds(m);
    if m.state == Live && m.pending {
      LinksCarry(m, Advanced(w, m, now));
    } else if m.state == Live {
      var shown := Announced(m, now);
      ShownPlayable(m, now);
      LinksCarry(m, shown);
      ResolvedLinks(w, shown, now);
      var resolved := if Expired(shown, now) then Resolved(w, shown, now) else shown;
      CleanLinks(resolved, now);
    }
  }

  lemma CleanLinks(m: MatchData, now: int)
    requires GraceKept(m) && m.lastActivity <= now
    ensures var r := Abandoned(Reaped(m, now), now); GraceKept(r) && m.lastActivity <= r.lastActivity <= now
  {
    hide GraceKept, Reaped, Abandoned, SameLinks;
    ReapedLinks(m, now);
    LinksCarry(m, Reaped(m, now));
    AbandonedLinks(Reaped(m, now), now);
    LinksCarry(Reaped(m, now), Abandoned(Reaped(m, now), now));
  }

  lemma ReapedLinks(m: MatchData, now: int)
    requires m.lastActivity <= now
    ensures SameLinks(m, Reaped(m, now)) && m.lastActivity <= Reaped(m, now).lastActivity <= now
  {
    hide Overdue;
  }

  lemma AbandonedLinks(m: MatchData, now: int)
    ensures SameLinks(m, Abandoned(m, now)) && Abandoned(m, now).lastActivity == m.lastActivity
  {
    hide Stale;
  }

  lemma StoredLinks(m: MatchData, g: GuessRequest, now: int)
    requires GraceKept(m) && m.lastActivity <= now && g.user in m.players
    ensures GraceKept(WithGuess(m, g, now))
  {
    MilliGrows(m.lastActivity + DISCONNECT_GRACE, now + DISCONNECT_GRACE);
  }

  lemma GuessedLinks(w: World, m: MatchData, g: GuessRequest, now: int)
    requires Valid(m) && Playable(m) && GraceKept(m) && m.lastActivity <= now
    ensures GraceKept(Guessed(w, m, g, now)) && m.lastActivity <= Guessed(w, m, g, now).lastActivity <= now
  {
    hide Valid, Playable, Resolved, GraceKept, AllFinal;
    ResolvedLinks(w, m, now);
    if g.user in m.players {
      GuessKeepsValid(m, g, now);
      ValidPlayable(WithGuess(m, g, now));
      StoredLinks(m, g, now);
      ResolvedLinks(w, WithGuess(m, g, now), now);
    }
  }

  lemma OpKeepsGrace(w: World, m: MatchData, op: Op, now: int)
    requires Valid(m) && GraceKept(m) && 0 <= m.lastActivity <= now
    ensures var r := Apply(w, m, op, now); GraceKept(r) && m.lastActivity <= r.lastActivity <= now
  {
    hide Guessed, Ticked, Valid;
    ValidPlayable(m);
    MilliGrows(m.lastActivity + DISCONNECT_GRACE, now + DISCONNECT_GRACE);
    match op
    case SubmitGuess(g) => GuessedLinks(w, m, g, now);
    case Tick => TickedLinks(w, m, now);
    case _ =>
  }

  lemma {:induction false} RunKeepsGrace(w: World, m: MatchData, run: seq<Event>)
    requires Valid(m) && GraceKept(m) && m.lastActivity >= 0 && Ordered(m.lastActivity, run)
    ensures var r := After(w, m, run);
            GraceKept(r) && 0 <= r.lastActivity <= Clock(m.lastActivity, run)
  {
    hide Apply, Valid, GraceKept;
    if run != [] {
      var before, e := run[..|run| - 1], run[|run| - 1];
      RunKeepsGrace(w, m, before);
      OpKeepsGrace(w, After(w, m, before), e.op, e.now);
    }
  }

  /** On a clock that never runs backwards, no Tick ends a match as stale: the grace period always comes first. */
  lemma StaleNeverFires(w: World, m: MatchData, run: seq<Event>, now: int)
    requires Valid(m) && GraceKept(m) && m.lastActivity >= 0 && Ordered(m.lastActivity, run) && Clock(m.lastActivity, run) <= now
    ensures var r := After(w, m, run);
            && Playable(r)
            && var shown := Announced(r, now);
               Playable(shown) && (r.state == Live && !r.pending ==>
                 Ticked(w, r, now) == Reaped(if Expired(shown, now) then Resolved(w, shown, now) else shown, now))
  {
    hide Valid, Apply, GraceKept, Resolved, Reaped, Abandoned, Playable;
    var r, shown := After(w, m, run), Announced(After(w, m, run), now);
    RunKeepsGrace(w, m, run);
    ValidPlayable(r);
    InBounds(r);
    ShownPlayable(r, now);
    LinksCarry(r, shown);
    ResolvedLinks(w, shown, now);
    AbandonedNever(shown, now);
    SomebodyLeft(w, shown, now);
    AbandonedNever(Resolved(w, shown, now), now);
  }

  lemma SomebodyLeft(w: World, m: MatchData, now: int)
    requires Playable(m) && m.players != map[]
    ensures Resolved(w, m, now).players != map[]
  {
    hide TallyOf, SettledTeams, EndsMatch, Playable;
    assert Resolved(w, m, now).players.Keys == m.players.Keys;
  }

  /** Inside a round a Tick ends the match exactly when somebody's grace has run out, and costs just them their HP. */
  lemma TickEndsExactly(w: World, m: MatchData, now: int)
    requires Valid(m) && Playable(m) && GraceKept(m) && m.state == Live && !m.pending && !Expired(m, now)
    ensures var r := Ticked(w, m, now);
            && (r.state == Ended <==> exists u <- m.players :: Overdue(m.players[u], now))
            && r.players.Keys == m.players.Keys
            && forall u <- m.players :: r.players[u].hp == if Overdue(m.players[u], now) then 0 else m.players[u].hp
  {
    hide Valid, Playable, Resolved, GraceKept, Abandoned, Overdue;
    InBounds(m);
    var shown := Announced(m, now);
    LinksCarry(m, shown);
    AbandonedNever(shown, now);
    var late := OverdueSet(m.players, now);
    assert shown.players == m.players && (late != {} <==> exists u <- m.players :: Overdue(m.players[u], now)) by {
      if u :| u in m.players && Overdue(m.players[u], now) { assert u in late; }
    }
  }

  lemma TickedSameLinks(w: World, m: MatchData, now: int)
    requires Playable(m)
    ensures SameLinks(m, Ticked(w, m, now))
  {
    hide Playable, Resolved, Reaped, Abandoned;
    if m.state == Live && !m.pending {
      var shown := Announced(m, now);
      ShownPlayable(m, now);
      ResolvedSameLinks(w, shown, now);
      var resolved := if Expired(shown, now) then Resolved(w, shown, now) else shown;
      CleanSameLinks(resolved, now);
    }
  }

  lemma CleanSameLinks(m: MatchData, now: int)
    ensures SameLinks(m, Abandoned(Reaped(m, now), now))
  {
    hide Overdue, Stale;
  }

  /** The player has been away since a disconnection whose grace ends at `due`, or the match is over. */
  ghost predicate Away(m: MatchData, u: UserId, due: int) {
    u in m.players && (m.state == Live ==> m.players[u].disconnected && m.players[u].disconnectDue == due)
  }

  /** The operation is not a sign of the player's: no guess, no resumption, no fresh disconnection. */
  predicate Quiet(op: Op, u: UserId) {
    && !(op.SubmitGuess? && op.g.user == u)
    && !(op.MarkResumed? && op.user == u)
    && !(op.MarkDisconnected? && op.user == u)
  }

  lemma GuessedKeepsAway(w: World, m: MatchData, g: GuessRequest, now: int, u: UserId, due: int)
    requires Valid(m) && Playable(m) && m.state == Live && Away(m, u, due) && g.user != u
    ensures Away(Guessed(w, m, g, now), u, due)
  {
    hide Valid, Playable, Resolved, AllFinal;
    ResolvedSameLinks(w, m, now);
    if g.user in m.players {
      GuessKeepsValid(m, g, now);
      ValidPlayable(WithGuess(m, g, now));
      ResolvedSameLinks(w, WithGuess(m, g, now), now);
    }
  }

  lemma OpKeepsAway(w: World, m: MatchData, op: Op, now: int, u: UserId, due: int)
    requires Valid(m) && Away(m, u, due) && Quiet(op, u)
    ensures Away(Apply(w, m, op, now), u, due)
  {
    hide Valid, Guessed, Ticked;
    ValidPlayable(m);
    if m.state == Ended {
      EndedIsFinal(w, m, op, now);
    } else {
      match op
      case SubmitGuess(g) => GuessedKeepsAway(w, m, g, now, u, due);
      case Tick => TickedSameLinks(w, m, now); StateStays(w, m, now);
      case _ =>
    }
  }

  lemma StateStays(w: World, m: MatchData, now: int)
    requires Playable(m)
    ensures m.state == Ended ==> Ticked(w, m, now).state == Ended
  {
  }

  lemma {:induction false} RunKeepsAway(w: World, m: MatchData, run: seq<Event>, u: UserId, due: int)
    requires Valid(m) && Away(m, u, due) && forall i | 0 <= i < |run| :: Quiet(run[i].op, u)
    ensures Away(After(w, m, run), u, due)
  {
    hide Valid, Apply, Away, Quiet;
    if run != [] {
      var before, e := run[..|run| - 1], run[|run| - 1];
      RunKeepsAway(w, m, before, u, due);
      OpKeepsAway(w, After(w, m, before), e.op, e.now, u, due);
    }
  }

  lemma AwayTick(w: World, m: MatchData, u: UserId, due: int, now: int)
    requires Valid(m) && Playable(m) && Away(m, u, due) && 0 < due < Milli(now)
    ensures m.state == Live && !m.pending ==>
              var r := Ticked(w, m, now); r.state == Ended && u in r.players && r.players[u].hp == 0
  {
    hide Valid, Playable, Resolved, Expired;
    if m.state == Live && !m.pending {
      var shown := Announced(m, now);
      ShownPlayable(m, now);
      ResolvedSameLinks(w, shown, now);
      var resolved := if Expired(shown, now) then Resolved(w, shown, now) else shown;
      assert resolved.players[u].disconnected && resolved.players[u].disconnectDue == due;
      assert u in OverdueSet(resolved.players, now);
    }
  }

  /**
   * A player who stays away past the grace period loses: whatever the others do
   * after the disconnection, a Tick inside a round past that time ends a match
   * still live, with that player at zero.
   */
  lemma AbsentLoses(w: World, m: MatchData, u: UserId, since: int, run: seq<Event>, now: int)
    requires Valid(m) && u in m.players && since >= 0 && Milli(now) > Milli(since + DISCONNECT_GRACE)
    requires forall i | 0 <= i < |run| :: Quiet(run[i].op, u)
    ensures var gone := Dropped(m, u, since);
            && Valid(gone)
            && var r := After(w, gone, run);
               && Playable(r)
               && (r.state == Live && !r.pending ==>
                     var s := Ticked(w, r, now); s.state == Ended && u in s.players && s.players[u].hp == 0)
  {
    hide Valid, Playable, Apply, Quiet, Ticked;
    var gone := Dropped(m, u, since);
    assert gone.players.Keys == m.players.Keys;
    SameHpKeepsValid(m, gone);
    MilliGrows(DISCONNECT_GRACE, since + DISCONNECT_GRACE);
    var due := Milli(since + DISCONNECT_GRACE);
    RunKeepsAway(w, gone, run, u, due);
    ValidPlayable(After(w, gone, run));
    AwayTick(w, After(w, gone, run), u, due, now);
  }
}
