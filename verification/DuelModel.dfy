/**
 * A duel, team duel or free-for-all as a value, and the effect of every engine
 * operation on it. Times are integers, in nanoseconds.
 */
module DuelModel {
  import opened Common
  import opened SortedSets
  import opened Decimal
  import opened Scoring

  const SECOND := 1_000_000_000
  const STARTING_HP := 6000
  const ROUND_INTRO := 3 * SECOND
  const ROUND_IDLE_CAP := 480 * SECOND
  const RESULT_DURATION := 6 * SECOND
  const DISCONNECT_GRACE := 30 * SECOND
  const STALE_GRACE := 180 * SECOND
  const MAX_ROUNDS := 20
  const FFA_ROUNDS := 5

  datatype Mode = Duel | TeamDuel | FreeForAll
  datatype MatchState = Live | Ended
  datatype TeamId = A | B
  datatype Point = Point(lat: real, lng: real)

  /** What a guess (or its absence) is worth at a location. */
  datatype Judgement = Judgement(km: real, score: int)

  /** The engine's surroundings: the judge of guesses, and the round provider. */
  datatype World = World(judge: (Point, Option<Point>) -> Judgement, provider: (string, nat) -> Option<Point>)

  /** The judge the engine uses, over a distance and a decay curve. */
  function Judge(km: (Point, Point) -> real, decay: Decay, location: Point, guess: Option<Point>): (j: Judgement)
    ensures 0 <= j.score <= MAX_SCORE && j.km <= MAX_DISTANCE_KM
  {
    var d := if guess.None? then MAX_DISTANCE_KM else km(location, guess.value);
    var capped := if d > MAX_DISTANCE_KM then MAX_DISTANCE_KM else d;
    Judgement(capped, RoundScore(decay, capped))
  }

  datatype Player = Player(
    hp: int, totalScore: int, team: Option<TeamId>, finalized: bool,
    hasGuess: bool, lastGuess: Point, disconnected: bool, disconnectDue: int)

  datatype Team = Team(hp: int, players: seq<UserId>)
  datatype Guess = Guess(at: Point, finalized: bool, ts: int)

  datatype PlayerResult = PlayerResult(at: Point, km: real, score: int, damageDealt: int, damageTaken: int, hpAfter: int)
  datatype TeamResult = TeamResult(representative: UserId, at: Point, km: real, score: int, damageDealt: int, damageTaken: int, hpAfter: int)
  datatype RoundResult = RoundResult(
    roundId: string, number: nat, location: Point,
    players: map<UserId, PlayerResult>, teams: map<TeamId, TeamResult>)

  datatype MatchData = MatchData(
    id: string, mode: Mode, config: MatchConfig, state: MatchState,
    players: map<UserId, Player>, teams: map<TeamId, Team>,
    location: Point, index: nat, startedAt: int, deadline: Option<int>, roundId: string,
    guesses: map<UserId, Guess>, results: seq<RoundResult>,
    intermissionUntil: Option<int>, pending: bool, eventSeq: int, announced: bool, lastActivity: int)

  function Milli(t: int): int { t / 1_000_000 }

  // ----- configuration -----------------------------------------------------

  const DEFAULT_FIXED_MS := 45_000
  const MINIMUM_FIXED_MS := 10_000
  const MAXIMUM_FIXED_MS := 120_000
  const DEFAULT_PRESSURE_MS := 15_000

  datatype TimerMode = Unset | NoTimer | Pressure | Fixed | Unknown
  datatype MatchConfig = MatchConfig(timer: TimerMode, limitMs: int, pressureMs: int)

  function NormalizeMatchConfig(c: MatchConfig): (r: MatchConfig)
    ensures r.timer == NoTimer || r.timer == Fixed
    ensures r.timer == Fixed <==> c.timer == Fixed
    ensures r.timer == Fixed ==> MINIMUM_FIXED_MS <= r.limitMs <= MAXIMUM_FIXED_MS
    ensures c.timer == Fixed && MINIMUM_FIXED_MS <= c.limitMs <= MAXIMUM_FIXED_MS ==> r.limitMs == c.limitMs
    ensures c.timer == Fixed && c.limitMs > MAXIMUM_FIXED_MS ==> r.limitMs == MAXIMUM_FIXED_MS
    ensures c.timer == Fixed && 0 < c.limitMs < MINIMUM_FIXED_MS ==> r.limitMs == MINIMUM_FIXED_MS
    ensures c.timer == Fixed && c.limitMs <= 0 ==> r.limitMs == DEFAULT_FIXED_MS
    ensures r.timer != Fixed ==> r.limitMs == 0
    ensures r.pressureMs == 0 || r.pressureMs == DEFAULT_PRESSURE_MS
    ensures r.pressureMs != 0 <==> c.pressureMs == DEFAULT_PRESSURE_MS || (c.pressureMs <= 0 && (c.timer == Unset || c.timer == Pressure))
  {
    var d := match c.timer
      case Unset | Pressure =>
        MatchConfig(NoTimer, 0, if c.pressureMs <= 0 then DEFAULT_PRESSURE_MS else c.pressureMs)
      case Fixed =>
        var limit := if c.limitMs <= 0 then DEFAULT_FIXED_MS else c.limitMs;
        MatchConfig(Fixed, Min(MAXIMUM_FIXED_MS, Max(MINIMUM_FIXED_MS, limit)), c.pressureMs)
      case NoTimer | Unknown =>
        MatchConfig(NoTimer, 0, c.pressureMs);
    if d.pressureMs != DEFAULT_PRESSURE_MS then d.(pressureMs := 0) else d
  }

  lemma NormalizeIdempotent(c: MatchConfig)
    ensures NormalizeMatchConfig(NormalizeMatchConfig(c)) == NormalizeMatchConfig(c)
  {
  }

  // ----- timers ------------------------------------------------------------

  function LiveAt(m: MatchData): int { m.startedAt + ROUND_INTRO }

  function FixedDeadline(c: MatchConfig, startedAt: int): Option<int> {
    if c.timer == Fixed then Some(startedAt + ROUND_INTRO + c.limitMs * 1_000_000) else None
  }

  /** The last instant of the current phase: a Tick after it moves the match on. */
  function PhaseEnd(m: MatchData): int {
    if m.pending then m.intermissionUntil.GetOr(0)
    else if m.deadline.Some? then m.deadline.value
    else LiveAt(m) + ROUND_IDLE_CAP
  }

  predicate Expired(m: MatchData, now: int) {
    now > if m.deadline.Some? then m.deadline.value else LiveAt(m) + ROUND_IDLE_CAP
  }

  function RoundId(id: string, round: nat): string { id + ":r" + Dec(round) }

  // ----- damage ------------------------------------------------------------

  function Multiplier(round: nat): real {
    if round <= 2 then 1.0 else 1.0 + 0.5 * (round - 2) as real
  }

  /** Damage in whole numbers: the difference, or half its product with the round, rounded up. */
  function Damage(diff: nat, round: nat): (d: nat) {
    if round <= 2 then diff else (diff * round + 1) / 2
  }

  lemma DamageExact(diff: nat, round: nat)
    ensures RoundHalfAway(diff as real * Multiplier(round)) == Damage(diff, round)
  {
    var x := diff as real * Multiplier(round);
    if round > 2 {
      assert Multiplier(round) == round as real / 2.0;
      assert x == (diff * round) as real / 2.0;
    }
  }

  lemma DamagePositive(diff: nat, round: nat)
    ensures Damage(diff, round) >= diff
    ensures Damage(diff, round) == 0 <==> diff == 0
  {
    if round > 2 {
      assert diff * round >= diff * 2;
      if diff == 0 { assert diff * round == 0; }
    }
  }

  // ----- resolving a round -------------------------------------------------

  function GuessOf(m: MatchData, u: UserId): Option<Point> {
    if u in m.guesses then Some(m.guesses[u].at) else None
  }

  function Judged(w: World, m: MatchData, u: UserId): Judgement {
    w.judge(m.location, GuessOf(m, u))
  }

  function Score(w: World, m: MatchData, u: UserId): int {
    Judged(w, m, u).score
  }

  function GuessAt(m: MatchData, u: UserId): Point {
    GuessOf(m, u).GetOr(Point(0.0, 0.0))
  }

  /** A player's result before any damage. */
  function Scored(w: World, m: MatchData, u: UserId): PlayerResult
    requires u in m.players
  {
    PlayerResult(GuessAt(m, u), Judged(w, m, u).km, Score(w, m, u), 0, 0, m.players[u].hp)
  }

  /** What a score difference costs the lower side. */
  function Loss(mine: int, theirs: int, round: nat): nat {
    if theirs > mine then Damage(theirs - mine, round) else 0
  }

  /** Everyone's result before any damage. */
  function Scores(w: World, m: MatchData): (r: map<UserId, PlayerResult>)
    ensures r.Keys == m.players.Keys
  {
    map u | u in m.players :: Scored(w, m, u)
  }

  lemma TwoHaveRivals(all: set<UserId>, u: UserId)
    requires |all| == 2
    ensures all - {u} != {}
  {
    if u in all {
      assert |all - {u}| == 1;
    } else {
      assert all - {u} == all;
    }
  }

  /** The other player of a two-player round. */
  ghost function Rival(all: set<UserId>, u: UserId): (v: UserId)
    requires |all| == 2
    ensures v in all && v != u
  {
    TwoHaveRivals(all, u);
    var v :| v in all - {u};
    v
  }

  ghost function DuelTaken(scored: map<UserId, PlayerResult>, round: nat, u: UserId): nat
    requires u in scored
  {
    if |scored.Keys| == 2 then Loss(scored[u].score, scored[Rival(scored.Keys, u)].score, round) else 0
  }

  ghost function DuelDealt(scored: map<UserId, PlayerResult>, round: nat, u: UserId): nat
    requires u in scored
  {
    if |scored.Keys| == 2 then Loss(scored[Rival(scored.Keys, u)].score, scored[u].score, round) else 0
  }

  ghost function DuelHp(scored: map<UserId, PlayerResult>, round: nat, hp: map<UserId, int>, u: UserId): int
    requires u in scored && u in hp
  {
    if |scored.Keys| == 2 then Max(0, hp[u] - DuelTaken(scored, round, u)) else hp[u]
  }

  ghost function DuelResult(scored: map<UserId, PlayerResult>, round: nat, hp: map<UserId, int>, u: UserId): PlayerResult
    requires u in scored && u in hp
  {
    scored[u].(damageDealt := DuelDealt(scored, round, u), damageTaken := DuelTaken(scored, round, u),
               hpAfter := DuelHp(scored, round, hp, u))
  }

  ghost function DuelResults(scored: map<UserId, PlayerResult>, round: nat, hp: map<UserId, int>): map<UserId, PlayerResult>
    requires hp.Keys == scored.Keys
  {
    if |scored.Keys| != 2 then scored else map u | u in scored :: DuelResult(scored, round, hp, u)
  }

  /** The first member, in team order, with the highest score. */
  function Best(scored: map<UserId, PlayerResult>, members: seq<UserId>): (u: UserId)
    requires members != [] && forall v <- members :: v in scored
    ensures u in members
  {
    var last := members[|members| - 1];
    if |members| == 1 then last
    else
      var b := Best(scored, members[..|members| - 1]);
      if scored[last].score > scored[b].score then last else b
  }

  function OtherTeam(t: TeamId): TeamId { if t == A then B else A }

  /** Both teams exist, and their members are among `all`. */
  predicate TeamsReady(teams: map<TeamId, Team>, all: set<UserId>) {
    forall t: TeamId :: t in teams && teams[t].players != [] && forall u <- teams[t].players :: u in all
  }

  /** The team's best guess, before damage. */
  function BestResult(scored: map<UserId, PlayerResult>, teams: map<TeamId, Team>, t: TeamId): TeamResult
    requires TeamsReady(teams, scored.Keys)
  {
    var u := Best(scored, teams[t].players);
    TeamResult(u, scored[u].at, scored[u].km, scored[u].score, 0, 0, teams[t].hp)
  }

  function Bests(scored: map<UserId, PlayerResult>, teams: map<TeamId, Team>): (bests: map<TeamId, TeamResult>)
    requires TeamsReady(teams, scored.Keys)
    ensures bests.Keys == teams.Keys && BothTeams(bests)
  {
    map t | t in teams :: BestResult(scored, teams, t)
  }

  ghost predicate BothTeams<T>(m: map<TeamId, T>) {
    forall t: TeamId :: t in m
  }

  ghost function TeamTaken(bests: map<TeamId, TeamResult>, round: nat, t: TeamId): nat
    requires BothTeams(bests)
  {
    Loss(bests[t].score, bests[OtherTeam(t)].score, round)
  }

  /** The teams once damage is subtracted, before clamping. */
  ghost function Cut(bests: map<TeamId, TeamResult>, round: nat, teams: map<TeamId, Team>): map<TeamId, Team>
    requires BothTeams(bests)
  {
    map t | t in teams :: teams[t].(hp := teams[t].hp - TeamTaken(bests, round, t))
  }

  ghost function TeamOutcome(bests: map<TeamId, TeamResult>, round: nat, teams: map<TeamId, Team>, t: TeamId): TeamResult
    requires BothTeams(bests) && t in teams
  {
    bests[t].(damageDealt := TeamTaken(bests, round, OtherTeam(t)), damageTaken := TeamTaken(bests, round, t),
              hpAfter := Max(0, teams[t].hp - TeamTaken(bests, round, t)))
  }

  ghost function TeamResults(bests: map<TeamId, TeamResult>, round: nat, teams: map<TeamId, Team>): (r: map<TeamId, TeamResult>)
    requires BothTeams(bests)
    ensures r.Keys == teams.Keys
  {
    map t | t in teams :: TeamOutcome(bests, round, teams, t)
  }

  /** Everything a round decides: results, team results, and HP. */
  datatype Tally = Tally(results: map<UserId, PlayerResult>, teams: map<TeamId, TeamResult>, hp: map<UserId, int>)

  function Hps(players: map<UserId, Player>): map<UserId, int> {
    map u | u in players :: players[u].hp
  }

  /** A team player ends with the team's HP. */
  ghost function MemberHp(teams: map<TeamId, Team>, results: map<TeamId, TeamResult>, u: UserId, hp: int): int
    requires BothTeams(teams) && BothTeams(results)
  {
    if u in teams[A].players then results[A].hpAfter
    else if u in teams[B].players then results[B].hpAfter
    else hp
  }

  ghost predicate Playable(m: MatchData) {
    m.mode == TeamDuel ==> TeamsReady(m.teams, m.players.Keys)
  }

  ghost function DuelTally(scored: map<UserId, PlayerResult>, round: nat, hp: map<UserId, int>): Tally
    requires hp.Keys == scored.Keys
  {
    Tally(DuelResults(scored, round, hp), map[], map u | u in hp :: DuelHp(scored, round, hp, u))
  }

  ghost function TeamTally(scored: map<UserId, PlayerResult>, round: nat, hp: map<UserId, int>, teams: map<TeamId, Team>): Tally
    requires TeamsReady(teams, scored.Keys)
  {
    var outcome := TeamResults(Bests(scored, teams), round, teams);
    Tally(scored, outcome, map u | u in hp :: MemberHp(teams, outcome, u, hp[u]))
  }

  function Blanked(scored: map<UserId, PlayerResult>): map<UserId, PlayerResult> {
    map u | u in scored :: scored[u].(hpAfter := 0)
  }

  ghost function TallyOf(w: World, m: MatchData): (t: Tally)
    requires Playable(m)
    ensures t.results.Keys == t.hp.Keys == m.players.Keys
    ensures m.mode == TeamDuel ==> BothTeams(t.teams)
  {
    var scored, hp := Scores(w, m), Hps(m.players);
    match m.mode
    case Duel => DuelTally(scored, m.index + 1, hp)
    case TeamDuel => TeamTally(scored, m.index + 1, hp, m.teams)
    case FreeForAll => Tally(Blanked(scored), map[], hp)
  }

  ghost predicate TeamDown(outcome: map<TeamId, TeamResult>) {
    exists t <- outcome :: outcome[t].hpAfter <= 0
  }

  ghost predicate SomeoneDown(hp: map<UserId, int>) {
    exists u <- hp :: hp[u] <= 0
  }

  ghost predicate EndsMatch(m: MatchData, t: Tally) {
    || (m.mode != FreeForAll && SomeoneDown(t.hp))
    || (m.mode == TeamDuel && TeamDown(t.teams))
    || (m.mode == FreeForAll && m.index + 1 >= FFA_ROUNDS)
    || m.index + 1 >= MAX_ROUNDS
  }

  function SettledPlayers(m: MatchData, t: Tally): (r: map<UserId, Player>)
    requires t.results.Keys == t.hp.Keys == m.players.Keys
    ensures r.Keys == m.players.Keys
  {
    map u | u in m.players ::
      m.players[u].(hp := if m.mode == FreeForAll then t.hp[u] else Max(0, t.hp[u]), finalized := false,
                    totalScore := m.players[u].totalScore + if m.mode == FreeForAll then t.results[u].score else 0)
  }

  ghost function SettledTeams(m: MatchData, t: Tally): map<TeamId, Team>
    requires m.mode == TeamDuel ==> BothTeams(t.teams)
  {
    if m.mode == TeamDuel then map i | i in m.teams :: m.teams[i].(hp := t.teams[i].hpAfter) else m.teams
  }

  function Appended(m: MatchData, outcome: map<UserId, PlayerResult>, teamOutcome: map<TeamId, TeamResult>, now: int): MatchData {
    m.(results := m.results + [RoundResult(m.roundId, m.index + 1, m.location, outcome, teamOutcome)],
       guesses := map[], lastActivity := now, eventSeq := m.eventSeq + 1)
  }

  /** The round is filed; a match still live goes into its intermission. */
  function Filed(m: MatchData, outcome: map<UserId, PlayerResult>, teamOutcome: map<TeamId, TeamResult>, now: int): MatchData {
    var done := Appended(m, outcome, teamOutcome, now);
    if m.state == Ended then done
    else done.(pending := true, intermissionUntil := Some(now + RESULT_DURATION), eventSeq := done.eventSeq + 1)
  }

  /** The match once a round's tally is entered. */
  ghost function Settled(m: MatchData, t: Tally, now: int): MatchData
    requires t.results.Keys == t.hp.Keys == m.players.Keys
    requires m.mode == TeamDuel ==> BothTeams(t.teams)
  {
    var hit := m.(players := SettledPlayers(m, t), teams := SettledTeams(m, t), state := if EndsMatch(m, t) then Ended else m.state);
    Filed(hit, t.results, t.teams, now)
  }

  ghost function Resolved(w: World, m: MatchData, now: int): MatchData
    requires Playable(m)
  {
    if m.state != Live then m else Settled(m, TallyOf(w, m), now)
  }

  // ----- the operations ----------------------------------------------------

  function Cleared(players: map<UserId, Player>): map<UserId, Player> {
    map u | u in players :: players[u].(finalized := false, hasGuess := false, lastGuess := Point(0.0, 0.0))
  }

  function Advanced(w: World, m: MatchData, now: int): MatchData {
    var next := w.provider(m.id, m.index + 1);
    var open := m.(pending := false, intermissionUntil := None, lastActivity := now, eventSeq := m.eventSeq + 1);
    if !m.pending then m
    else if next.None? then open.(state := Ended)
    else
      var config := NormalizeMatchConfig(m.config);
      open.(index := m.index + 1, location := next.value, roundId := RoundId(m.id, m.index + 2),
            startedAt := now, announced := false, config := config, deadline := FixedDeadline(config, now),
            players := Cleared(m.players))
  }

  datatype GuessRequest = GuessRequest(user: UserId, roundId: string, at: Point, finalize: bool)
  datatype GuessError = NotLive | RoundMismatch | NotInMatch

  function PressureMs(c: MatchConfig): int {
    if c.timer == Pressure && c.pressureMs <= 0 then DEFAULT_PRESSURE_MS else c.pressureMs
  }

  /** Finalizing may only pull the deadline closer. */
  function DeadlineAfter(m: MatchData, finalize: bool, now: int): Option<int> {
    var p := PressureMs(m.config);
    var target := now + p * 1_000_000;
    if finalize && p > 0 && (m.deadline.None? || target < m.deadline.value) then Some(target) else m.deadline
  }

  function WithGuess(m: MatchData, g: GuessRequest, now: int): MatchData
    requires g.user in m.players
  {
    m.(guesses := m.guesses[g.user := Guess(g.at, g.finalize, now)],
       players := m.players[g.user := m.players[g.user].(lastGuess := g.at, hasGuess := true, finalized := g.finalize,
                                                         disconnected := false, disconnectDue := 0)],
       lastActivity := now, eventSeq := m.eventSeq + 1,
       deadline := DeadlineAfter(m, g.finalize, now))
  }

  predicate AllFinal(players: map<UserId, Player>, guesses: map<UserId, Guess>) {
    forall u <- players :: u in guesses && guesses[u].finalized
  }

  function GuessVerdict(m: MatchData, g: GuessRequest, now: int): Result<(), GuessError> {
    if m.state != Live then Failure(NotLive)
    else if g.roundId != m.roundId then Failure(RoundMismatch)
    else if m.pending && now < m.intermissionUntil.GetOr(0) then Success(())
    else if g.user !in m.players then Failure(NotInMatch)
    else Success(())
  }

  /** The guess is stored, rather than refused, ignored, or overtaken by the clock. */
  predicate Accepted(m: MatchData, g: GuessRequest, now: int) {
    && m.state == Live && g.roundId == m.roundId
    && !(m.pending && now < m.intermissionUntil.GetOr(0))
    && g.user in m.players
    && !Expired(m, now) && now >= LiveAt(m)
    && !(g.user in m.guesses && m.guesses[g.user].finalized)
  }

  /** The request reaches the clock check and finds the round over. */
  predicate TooLate(m: MatchData, g: GuessRequest, now: int) {
    && m.state == Live && g.roundId == m.roundId
    && !(m.pending && now < m.intermissionUntil.GetOr(0))
    && g.user in m.players && Expired(m, now)
  }

  ghost function Guessed(w: World, m: MatchData, g: GuessRequest, now: int): MatchData
    requires Playable(m)
  {
    if TooLate(m, g, now) then Resolved(w, m, now)
    else if !Accepted(m, g, now) then m
    else
      var stored := WithGuess(m, g, now);
      if AllFinal(stored.players, stored.guesses) then Resolved(w, stored, now) else stored
  }

  function Dropped(m: MatchData, u: UserId, now: int): MatchData {
    if u !in m.players then m
    else m.(players := m.players[u := m.players[u].(disconnected := true, disconnectDue := Milli(now + DISCONNECT_GRACE))],
            lastActivity := now, eventSeq := m.eventSeq + 1)
  }

  function Resumed(m: MatchData, u: UserId, now: int): MatchData {
    if u !in m.players then m
    else m.(players := m.players[u := m.players[u].(disconnected := false, disconnectDue := 0)],
            lastActivity := now, eventSeq := m.eventSeq + 1)
  }

  function Forfeited(m: MatchData, u: UserId, now: int): MatchData {
    if m.state != Live || u !in m.players then m
    else m.(players := m.players[u := m.players[u].(hp := 0, finalized := false, disconnected := false, disconnectDue := 0)],
            pending := false, intermissionUntil := None, state := Ended, lastActivity := now, eventSeq := m.eventSeq + 1)
  }

  // ----- the clock ---------------------------------------------------------

  predicate Overdue(p: Player, now: int) {
    p.disconnected && p.disconnectDue > 0 && Milli(now) > p.disconnectDue
  }

  function OverdueSet(players: map<UserId, Player>, now: int): set<UserId> {
    set u | u in players && Overdue(players[u], now)
  }

  function Zeroed(players: map<UserId, Player>, who: set<UserId>): map<UserId, Player> {
    map u | u in players :: if u in who then players[u].(hp := 0) else players[u]
  }

  /** Every player whose grace ran out loses all HP, and the match ends. */
  function Reaped(m: MatchData, now: int): MatchData {
    var late := OverdueSet(m.players, now);
    if late == {} then m
    else m.(players := Zeroed(m.players, late), state := Ended, lastActivity := now, eventSeq := m.eventSeq + |late|)
  }

  predicate AllDisconnected(players: map<UserId, Player>) {
    forall u <- players :: players[u].disconnected
  }

  /** Nobody is connected and nothing has happened for the stale period. */
  predicate Stale(m: MatchData, now: int) {
    AllDisconnected(m.players) && now - m.lastActivity > STALE_GRACE
  }

  function Abandoned(m: MatchData, now: int): MatchData {
    if m.state == Live && Stale(m, now)
    then m.(players := Zeroed(m.players, m.players.Keys), state := Ended, eventSeq := m.eventSeq + 1)
    else m
  }

  function Announced(m: MatchData, now: int): MatchData {
    if !m.announced && now >= LiveAt(m) then m.(announced := true, eventSeq := m.eventSeq + 1) else m
  }

  ghost function Ticked(w: World, m: MatchData, now: int): MatchData
    requires Playable(m)
  {
    if m.state != Live then m
    else if m.pending then (if now > m.intermissionUntil.GetOr(0) then Advanced(w, m, now) else m)
    else
      var shown := Announced(m, now);
      var resolved := if Expired(shown, now) then Resolved(w, shown, now) else shown;
      Abandoned(Reaped(resolved, now), now)
  }
}
