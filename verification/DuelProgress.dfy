/** Rounds, deadlines and termination: how a match moves from creation to its end. */
module DuelProgress {
  import opened Common
  import opened SortedSets
  import opened Decimal
  import opened DuelModel
  import opened DuelInvariant
  import opened DuelSafety

  // ----- round identifiers ----------------------------------------------------

  lemma RoundIdInjective(id: string, a: nat, b: nat)
    requires RoundId(id, a) == RoundId(id, b)
    ensures a == b
  {
    var s, t := Dec(a), Dec(b);
    var prefix := id + ":r";
    assert s == (prefix + s)[|prefix|..] && t == (prefix + t)[|prefix|..];
    DecInjective(a, b);
  }

  /** A guess that names any other round changes nothing. */
  lemma OtherRoundRejected(w: World, m: MatchData, g: GuessRequest, now: int, round: nat)
    requires Valid(m) && Playable(m) && m.state == Live
    requires g.roundId == RoundId(m.id, round) && round != m.index + 1
    ensures GuessVerdict(m, g, now) == Failure(RoundMismatch) && Guessed(w, m, g, now) == m
  {
    hide Resolved;
    if g.roundId == m.roundId {
      RoundIdInjective(m.id, round, m.index + 1);
    }
  }

  // ----- each round once --------------------------------------------------------

  /** Result i is round i+1, and nothing else is on file. */
  ghost predicate RoundsOnce(m: MatchData) {
    && (forall i | 0 <= i < |m.results| :: m.results[i].number == i + 1)
    && (m.state == Live ==> |m.results| == m.index + if m.pending then 1 else 0)
    && m.index <= |m.results| <= m.index + 1
  }

  /**
   * A guess that reaches the round after the intermission has run out but
   * before a Tick has advanced the match, and that resolves the round again.
   */
  predicate ResolvesInGap(m: MatchData, op: Op, now: int) {
    m.pending && op.SubmitGuess? &&
    (TooLate(m, op.g, now)
     || (Accepted(m, op.g, now) && var s := WithGuess(m, op.g, now); AllFinal(s.players, s.guesses)))
  }

  lemma ResolvedRounds(w: World, m: MatchData, now: int)
    requires Playable(m) && m.state == Live && RoundsOnce(m)
    ensures RoundsOnce(Resolved(w, m, now)) <==> !m.pending
  {
    hide TallyOf, SettledPlayers, SettledTeams, EndsMatch, Playable;
    var r := Resolved(w, m, now);
    assert r.results[|m.results|].number == m.index + 1;
    assert forall i | 0 <= i < |m.results| :: r.results[i] == m.results[i];
  }

  lemma TickedRounds(w: World, m: MatchData, now: int)
    requires Valid(m) && Playable(m) && RoundsOnce(m)
    ensures RoundsOnce(Ticked(w, m, now))
  {
    hide Valid, Playable, Resolved, Reaped, Abandoned, Expired, RoundId;
    if m.state == Live && !m.pending {
      var shown := Announced(m, now);
      ShownPlayable(m, now);
      ResolvedRounds(w, shown, now);
      CleanOnly(if Expired(shown, now) then Resolved(w, shown, now) else shown, now);
    }
  }

  lemma GuessedRounds(w: World, m: MatchData, g: GuessRequest, now: int)
    requires Valid(m) && Playable(m) && RoundsOnce(m)
    ensures RoundsOnce(Guessed(w, m, g, now)) <==> !ResolvesInGap(m, SubmitGuess(g), now)
  {
    hide Valid, Playable, Resolved, AllFinal;
    if m.state == Live {
      ResolvedRounds(w, m, now);
      if g.user in m.players {
        GuessKeepsValid(m, g, now);
        ValidPlayable(WithGuess(m, g, now));
        ResolvedRounds(w, WithGuess(m, g, now), now);
      }
    }
  }

  /** Rounds stay resolved once each exactly as long as no guess resolves one in the gap. */
  lemma RoundsOnceExactly(w: World, m: MatchData, op: Op, now: int)
    requires Valid(m) && RoundsOnce(m)
    ensures RoundsOnce(Apply(w, m, op, now)) <==> !ResolvesInGap(m, op, now)
  {
    hide Valid, Guessed, Ticked, ResolvesInGap;
    ValidPlayable(m);
    match op
    case SubmitGuess(g) => GuessedRounds(w, m, g, now);
    case Tick => TickedRounds(w, m, now); NoGap(m, op, now);
    case _ => NoGap(m, op, now);
  }

  lemma NoGap(m: MatchData, op: Op, now: int)
    requires !op.SubmitGuess?
    ensures !ResolvesInGap(m, op, now)
  {
  }

  /** What a resolution leaves alone, and how a match that goes on enters its intermission. */
  lemma ResolvedShape(w: World, m: MatchData, now: int)
    requires Playable(m) && m.state == Live
    ensures var r := Resolved(w, m, now);
            && r.id == m.id && r.mode == m.mode && r.config == m.config && r.index == m.index && r.roundId == m.roundId
            && r.startedAt == m.startedAt && r.deadline == m.deadline && r.guesses == map[] && r.players.Keys == m.players.Keys
            && |r.results| == |m.results| + 1 && m.results <= r.results && r.results[|m.results|].number == m.index + 1
    ensures !EndsMatch(m, TallyOf(w, m)) ==>
              var r := Resolved(w, m, now); r.state == Live && r.pending && r.intermissionUntil == Some(now + RESULT_DURATION)
  {
    hide TallyOf, SettledPlayers, SettledTeams, EndsMatch, Playable;
  }

  /**
   * The gap is real: when nobody has guessed and the round has run out, one late
   * guess resolves it, and another after the intermission resolves it again.
   */
  lemma GapResolvesTwice(w: World, m: MatchData, g: GuessRequest, now: int, later: int)
    requires Valid(m) && Playable(m) && m.mode == Duel && m.state == Live && !m.pending && m.guesses == map[]
    requires m.index + 1 < MAX_ROUNDS && Expired(m, now) && later >= now + RESULT_DURATION
    requires g.roundId == m.roundId && g.user in m.players
    ensures var r := Guessed(w, m, g, now);
            && Valid(r) && Playable(r) && |r.results| == |m.results| + 1 && r.index == m.index
            && var s := Guessed(w, r, g, later);
               |s.results| == |m.results| + 2 && s.index == m.index
               && s.results[|m.results|].number == s.results[|m.results| + 1].number
  {
    hide Resolved, EndsMatch, TallyOf, Playable, Valid;
    EvenRound(w, m);
    ResolvedShape(w, m, now);
    ResolvedValid(w, m, now);
    var r := Resolved(w, m, now);
    assert Guessed(w, m, g, now) == r;
    ValidPlayable(r);
    assert TooLate(r, g, later);
    ResolvedShape(w, r, later);
  }

  /** When everybody guessed alike, or nobody guessed, nobody pays and the duel goes on. */
  lemma EvenRound(w: World, m: MatchData)
    requires Valid(m) && Playable(m) && m.mode == Duel && m.state == Live && m.index + 1 < MAX_ROUNDS
    requires forall u <- m.players, v <- m.players :: GuessOf(m, u) == GuessOf(m, v)
    ensures !EndsMatch(m, TallyOf(w, m))
  {
    hide Rival;
    var t := TallyOf(w, m);
    forall u <- m.players ensures t.hp[u] > 0 {
      assert forall v <- m.players :: Scores(w, m)[v].score == Scores(w, m)[u].score;
    }
  }

  // ----- what survives an intermission -------------------------------------------

  /** During an intermission no guess is on file. */
  ghost predicate Tidy(m: MatchData) {
    m.state == Live && m.pending ==> m.guesses == map[]
  }

  /** A guess stored in the gap, for a round that is already over. */
  predicate StoresInGap(m: MatchData, op: Op, now: int) {
    m.pending && op.SubmitGuess? && Accepted(m, op.g, now)
    && var s := WithGuess(m, op.g, now); !AllFinal(s.players, s.guesses)
  }

  lemma ResolvedTidy(w: World, m: MatchData, now: int)
    requires Playable(m) && m.state == Live
    ensures Resolved(w, m, now).guesses == map[]
  {
    hide TallyOf, SettledPlayers, SettledTeams, EndsMatch, Playable;
  }

  lemma TickedTidy(w: World, m: MatchData, now: int)
    requires Valid(m) && Playable(m) && Tidy(m)
    ensures Tidy(Ticked(w, m, now))
  {
    hide Valid, Playable, Resolved;
    if m.state == Live && !m.pending {
      ShownPlayable(m, now);
      ResolvedTidy(w, Announced(m, now), now);
    }
  }

  lemma GuessedTidy(w: World, m: MatchData, g: GuessRequest, now: int)
    requires Valid(m) && Playable(m) && Tidy(m)
    ensures Tidy(Guessed(w, m, g, now)) <==> !StoresInGap(m, SubmitGuess(g), now)
  {
    hide Valid, Playable, Resolved, AllFinal;
    if m.state == Live {
      ResolvedTidy(w, m, now);
      if g.user in m.players {
        GuessKeepsValid(m, g, now);
        ValidPlayable(WithGuess(m, g, now));
        ResolvedTidy(w, WithGuess(m, g, now), now);
        assert g.user in WithGuess(m, g, now).guesses;
      }
    }
  }

  /** The next round starts without guesses exactly as long as none is stored in the gap. */
  lemma TidyExactly(w: World, m: MatchData, op: Op, now: int)
    requires Valid(m) && Tidy(m)
    ensures Tidy(Apply(w, m, op, now)) <==> !StoresInGap(m, op, now)
  {
    hide Valid, Guessed, Ticked;
    ValidPlayable(m);
    match op
    case SubmitGuess(g) => GuessedTidy(w, m, g, now);
    case Tick => TickedTidy(w, m, now);
    case _ =>
  }

  /** A gap guess leaks: it is still on file, as the user's guess, in the next round. */
  lemma GapGuessLeaks(w: World, m: MatchData, g: GuessRequest, now: int, later: int)
    requires Valid(m) && Playable(m) && StoresInGap(m, SubmitGuess(g), now)
    requires later > m.intermissionUntil.GetOr(0) && w.provider(m.id, m.index + 1).Some?
    ensures var r := Guessed(w, m, g, now);
            && Playable(r)
            && var s := Ticked(w, r, later);
               s.index == m.index + 1 && !s.pending && g.user in s.guesses && s.guesses[g.user].at == g.at
  {
    hide Resolved, AllFinal, Valid, Playable;
    GuessKeepsValid(m, g, now);
    ValidPlayable(WithGuess(m, g, now));
  }

  /** The first of two final guesses leaves the round open, the second closes it; the duel goes on if they are alike. */
  lemma TwoGuessesResolve(w: World, m: MatchData, g: GuessRequest, h: GuessRequest, now: int)
    requires Valid(m) && Playable(m) && m.mode == Duel && m.state == Live && !m.pending && m.guesses == map[]
    requires m.index + 1 < MAX_ROUNDS && m.deadline.None? && PressureMs(m.config) == 0
    requires LiveAt(m) <= now <= LiveAt(m) + ROUND_IDLE_CAP
    requires g.user != h.user && m.players.Keys == {g.user, h.user} && g.at == h.at && g.finalize && h.finalize
    requires g.roundId == h.roundId == m.roundId
    ensures var first := Guessed(w, m, g, now);
            && Valid(first) && Playable(first)
            && var r := Guessed(w, first, h, now);
               && Valid(r) && Playable(r) && r.state == Live && r.pending && r.intermissionUntil == Some(now + RESULT_DURATION)
               && r.guesses == map[] && r.index == m.index && r.id == m.id && r.roundId == m.roundId && r.players.Keys == m.players.Keys
               && r.deadline.None? && r.startedAt == m.startedAt
  {
    hide Resolved, EndsMatch, TallyOf, Playable, Valid;
    assert h.user in m.players && g.user in m.players;
    var first := WithGuess(m, g, now);
    GuessKeepsValid(m, g, now);
    ValidPlayable(first);
    assert h.user !in first.guesses;
    assert Guessed(w, m, g, now) == first;
    assert first.players.Keys == m.players.Keys;
    var stored := WithGuess(first, h, now);
    GuessKeepsValid(first, h, now);
    ValidPlayable(stored);
    assert stored.players.Keys == m.players.Keys;
    assert AllFinal(stored.players, stored.guesses);
    assert Guessed(w, first, h, now) == Resolved(w, stored, now);
    EvenRound(w, stored);
    ResolvedShape(w, stored, now);
    ResolvedValid(w, stored, now);
    ValidPlayable(Resolved(w, stored, now));
  }

  /**
   * The leak happens: two players finalize the same point in an untimed round,
   * one of them guesses again once the intermission has run out, and the next
   * round opens with that guess on file.
   */
  lemma UntimedDuelLeaks(w: World, m: MatchData, g: GuessRequest, h: GuessRequest, late: GuessRequest, now: int)
    requires Valid(m) && Playable(m) && m.mode == Duel && m.state == Live && !m.pending && m.guesses == map[]
    requires m.index + 1 < MAX_ROUNDS && m.deadline.None? && PressureMs(m.config) == 0
    requires LiveAt(m) <= now && now + RESULT_DURATION <= LiveAt(m) + ROUND_IDLE_CAP
    requires g.user != h.user && m.players.Keys == {g.user, h.user} && g.at == h.at && g.finalize && h.finalize
    requires g.roundId == h.roundId == late.roundId == m.roundId && late.user == g.user
    requires w.provider(m.id, m.index + 1).Some?
    ensures var first := Guessed(w, m, g, now);
            && Playable(first)
            && var r := Guessed(w, first, h, now);
               && Playable(r) && r.pending && r.guesses == map[]
               && var leaked := Guessed(w, r, late, now + RESULT_DURATION);
                  && Playable(leaked)
                  && var s := Ticked(w, leaked, now + RESULT_DURATION + 1);
                     s.index == m.index + 1 && !s.pending && late.user in s.guesses && s.guesses[late.user].at == late.at
  {
    hide Guessed, Ticked, Valid, Playable;
    TwoGuessesResolve(w, m, g, h, now);
    var r := Guessed(w, Guessed(w, m, g, now), h, now);
    assert h.user in r.players && h.user !in WithGuess(r, late, now + RESULT_DURATION).guesses;
    GapGuessLeaks(w, r, late, now + RESULT_DURATION, now + RESULT_DURATION + 1);
  }

  // ----- deadlines ------------------------------------------------------------------

  lemma ResolvedTimer(w: World, m: MatchData, now: int)
    requires Playable(m)
    ensures Resolved(w, m, now).deadline == m.deadline && Resolved(w, m, now).index == m.index
  {
    hide TallyOf, SettledPlayers, SettledTeams, EndsMatch, Playable;
  }

  lemma TickedTimer(w: World, m: MatchData, now: int)
    requires Playable(m)
    ensures Ticked(w, m, now).index == m.index ==> Ticked(w, m, now).deadline == m.deadline
  {
    hide Resolved, Playable, Reaped, Abandoned, Expired, RoundId;
    var shown := Announced(m, now);
    ShownPlayable(m, now);
    ResolvedTimer(w, shown, now);
    CleanOnly(if Expired(shown, now) then Resolved(w, shown, now) else shown, now);
  }

  /** Within a round, a set deadline never moves later. */
  lemma DeadlineNeverLater(w: World, m: MatchData, op: Op, now: int)
    requires Valid(m) && m.deadline.Some?
    ensures var r := Apply(w, m, op, now);
            r.index == m.index ==> r.deadline.Some? && r.deadline.value <= m.deadline.value
  {
    hide Resolved, Ticked, Valid, Playable, AllFinal;
    ValidPlayable(m);
    if op.SubmitGuess? && op.g.user in m.players {
      GuessKeepsValid(m, op.g, now);
      ValidPlayable(WithGuess(m, op.g, now));
      ResolvedTimer(w, WithGuess(m, op.g, now), now);
    }
    ResolvedTimer(w, m, now);
    TickedTimer(w, m, now);
  }

  function PressureEnd(m: MatchData, u: UserId): int
    requires u in m.guesses
  {
    m.guesses[u].ts + PressureMs(m.config) * 1_000_000
  }

  /** A final guess of this round; one left over from the last round was made before this one went live. */
  predicate Presses(m: MatchData, u: UserId) {
    PressureMs(m.config) > 0 && u in m.guesses && m.guesses[u].finalized && m.guesses[u].ts >= LiveAt(m)
  }

  /** No guess on file lies in the future. */
  ghost predicate Past(m: MatchData, now: int) {
    forall u <- m.guesses :: m.guesses[u].ts <= now
  }

  /**
   * An open round's deadline is the least of the fixed deadline and, under
   * pressure, the time of every final guess of the round plus the pressure time.
   */
  ghost predicate DeadlineExact(m: MatchData) {
    m.state == Live && !m.pending ==>
      var fixed := FixedDeadline(m.config, m.startedAt);
      && (m.deadline.None? ==> fixed.None? && forall u <- m.guesses :: !Presses(m, u))
      && (m.deadline.Some? ==>
            && (fixed.Some? ==> m.deadline.value <= fixed.value)
            && (forall u <- m.guesses | Presses(m, u) :: m.deadline.value <= PressureEnd(m, u))
            && (m.deadline == fixed || exists u <- m.guesses :: Presses(m, u) && m.deadline.value == PressureEnd(m, u)))
  }

  lemma StoredDeadline(m: MatchData, g: GuessRequest, now: int)
    requires DeadlineExact(m) && Past(m, now) && now >= LiveAt(m)
    requires g.user in m.players && (g.user in m.guesses ==> !m.guesses[g.user].finalized)
    ensures DeadlineExact(WithGuess(m, g, now)) && Past(WithGuess(m, g, now), now)
  {
    var r := WithGuess(m, g, now);
    forall u <- r.guesses | u != g.user ensures u in m.guesses && r.guesses[u] == m.guesses[u] {
    }
    if m.state == Live && !m.pending && m.deadline.Some? && m.deadline != FixedDeadline(m.config, m.startedAt) {
      var v :| v in m.guesses && Presses(m, v) && m.deadline.value == PressureEnd(m, v);
      assert v != g.user && v in r.guesses && PressureEnd(r, v) == PressureEnd(m, v);
    }
    if r.deadline != m.deadline {
      assert g.user in r.guesses && Presses(r, g.user) && r.deadline.value == PressureEnd(r, g.user);
    }
  }

  lemma ResolvedClosed(w: World, m: MatchData, now: int)
    requires Playable(m) && m.state == Live
    ensures var r := Resolved(w, m, now); r.guesses == map[] && (r.state == Live ==> r.pending)
  {
    hide TallyOf, SettledPlayers, SettledTeams, EndsMatch, Playable;
  }

  lemma AdvancedDeadline(w: World, m: MatchData, now: int)
    requires m.pending && Past(m, now)
    ensures DeadlineExact(Advanced(w, m, now)) && Past(Advanced(w, m, now), now)
  {
    hide NormalizeMatchConfig, RoundId, Cleared;
  }

  lemma TickedDeadline(w: World, m: MatchData, now: int)
    requires Valid(m) && Playable(m) && DeadlineExact(m) && Past(m, now)
    ensures DeadlineExact(Ticked(w, m, now)) && Past(Ticked(w, m, now), now)
  {
    hide Valid, Playable, Resolved, Advanced, DeadlineExact, Past, Reaped, Abandoned;
    if m.state == Live && m.pending {
      AdvancedDeadline(w, m, now);
    } else if m.state == Live {
      var shown := Announced(m, now);
      ShownPlayable(m, now);
      SameClock(m, shown, now);
      ResolvedClosed(w, shown, now);
      var resolved := if Expired(shown, now) then Resolved(w, shown, now) else shown;
      if Expired(shown, now) { ClosedExact(resolved, now); }
      CleanDeadline(resolved, now);
    }
  }

  lemma ClosedExact(m: MatchData, now: int)
    requires m.guesses == map[] && (m.state == Live ==> m.pending)
    ensures DeadlineExact(m) && Past(m, now)
  {
  }

  lemma SameClock(m: MatchData, r: MatchData, now: int)
    requires DeadlineExact(m) && Past(m, now) && r.config == m.config && r.startedAt == m.startedAt && r.deadline == m.deadline && r.guesses == m.guesses
    requires r.state == Live ==> m.state == Live && r.pending == m.pending
    ensures DeadlineExact(r) && Past(r, now)
  {
  }

  lemma CleanDeadline(m: MatchData, now: int)
    requires DeadlineExact(m) && Past(m, now)
    ensures DeadlineExact(Abandoned(Reaped(m, now), now)) && Past(Abandoned(Reaped(m, now), now), now)
  {
    hide DeadlineExact, Past, Stale, Overdue;
    SameClock(m, Abandoned(Reaped(m, now), now), now);
  }

  lemma GuessedDeadline(w: World, m: MatchData, g: GuessRequest, now: int)
    requires Valid(m) && Playable(m) && DeadlineExact(m) && Past(m, now)
    ensures DeadlineExact(Guessed(w, m, g, now)) && Past(Guessed(w, m, g, now), now)
  {
    hide Valid, Playable, Resolved, DeadlineExact, Past, AllFinal;
    if TooLate(m, g, now) {
      ResolvedClosed(w, m, now);
      ClosedExact(Resolved(w, m, now), now);
    } else if Accepted(m, g, now) {
      var s := WithGuess(m, g, now);
      StoredDeadline(m, g, now);
      GuessKeepsValid(m, g, now);
      ValidPlayable(s);
      ResolvedClosed(w, s, now);
      ClosedExact(Resolved(w, s, now), now);
    }
  }

  /** Every operation keeps the deadline exact, even with guesses left over from the round before. */
  lemma OpKeepsDeadline(w: World, m: MatchData, op: Op, now: int)
    requires Valid(m) && DeadlineExact(m) && Past(m, now)
    ensures DeadlineExact(Apply(w, m, op, now)) && Past(Apply(w, m, op, now), now)
  {
    hide Valid, Guessed, Ticked, DeadlineExact, Past;
    ValidPlayable(m);
    match op
    case SubmitGuess(g) => GuessedDeadline(w, m, g, now);
    case Tick => TickedDeadline(w, m, now);
    case _ => SameClock(m, Apply(w, m, op, now), now);
  }
}
