/** A singleplayer session: five rounds, each resolved by the player's own final guess. */
module SinglePlayer {
  import opened Common
  import opened SortedSets
  import opened Scoring
  import opened DuelModel

  const ROUNDS := 5

  datatype SoloResult = SoloResult(roundId: string, number: nat, location: Point, at: Point, km: real, score: int)

  datatype SessionData = SessionData(
    id: string, user: UserId, totalScore: int, finalized: bool, hasGuess: bool, lastGuess: Point, disconnected: bool,
    location: Point, index: nat, roundId: string, guess: Option<Point>,
    results: seq<SoloResult>, awaiting: bool, state: MatchState, eventSeq: int, lastActivity: int)

  datatype SoloError = NoSuchPlayer | WrongRound | NoNextRound

  function ScoreTotal(results: seq<SoloResult>): int {
    if results == [] then 0 else ScoreTotal(results[..|results| - 1]) + results[|results| - 1].score
  }

  /** The judge's scores, as the engine's own judge gives them. */
  ghost predicate FairJudge(w: World) {
    forall l, g :: 0 <= w.judge(l, g).score <= MAX_SCORE
  }

  function Opening(id: string, user: UserId, first: Point, now: int): SessionData {
    SessionData(id, user, 0, false, false, Point(0.0, 0.0), false, first, 0, RoundId(id, 1), None, [], false, Live, 1, now)
  }

  /** The round is filed with the guess it was finalized by. */
  function Closed(w: World, s: SessionData, at: Point, now: int): SessionData {
    var j := w.judge(s.location, Some(at));
    s.(totalScore := s.totalScore + j.score, finalized := false, guess := None, awaiting := true,
       results := s.results + [SoloResult(s.roundId, s.index + 1, s.location, at, j.km, j.score)],
       lastActivity := now, eventSeq := s.eventSeq + 1)
  }

  function SoloGuessed(w: World, s: SessionData, g: GuessRequest, now: int): SessionData {
    if s.state != Live || g.user != s.user || g.roundId != s.roundId || s.awaiting then s
    else
      var held := s.(guess := Some(g.at), hasGuess := true, lastGuess := g.at, finalized := g.finalize, disconnected := false,
                     lastActivity := now, eventSeq := s.eventSeq + 1);
      if g.finalize then Closed(w, held, g.at, now) else held
  }

  function SoloAdvanced(w: World, s: SessionData, user: UserId, now: int): SessionData {
    var next := w.provider(s.id, s.index + 1);
    if user != s.user || s.state != Live || !s.awaiting then s
    else if s.index + 1 >= ROUNDS then s.(state := Ended, awaiting := false, lastActivity := now, eventSeq := s.eventSeq + 1)
    else if next.None? then s
    else s.(index := s.index + 1, location := next.value, roundId := RoundId(s.id, s.index + 2), guess := None, awaiting := false,
            finalized := false, hasGuess := false, lastGuess := Point(0.0, 0.0), lastActivity := now, eventSeq := s.eventSeq + 1)
  }

  function SoloForfeited(s: SessionData, user: UserId, now: int): SessionData {
    if user != s.user then s
    else s.(state := Ended, awaiting := false, finalized := false, lastActivity := now, eventSeq := s.eventSeq + 1)
  }

  /** A connection comes or goes. */
  function SoloLinked(s: SessionData, user: UserId, gone: bool, now: int): SessionData {
    if user != s.user then s else s.(disconnected := gone, lastActivity := now, eventSeq := s.eventSeq + 1)
  }

  datatype SoloOp =
    | Guess(g: GuessRequest)
    | Advance(user: UserId)
    | Forfeit(user: UserId)
    | Disconnect(user: UserId)
    | Resume(user: UserId)

  function SoloApply(w: World, s: SessionData, op: SoloOp, now: int): SessionData {
    match op
    case Guess(g) => SoloGuessed(w, s, g, now)
    case Advance(u) => SoloAdvanced(w, s, u, now)
    case Forfeit(u) => SoloForfeited(s, u, now)
    case Disconnect(u) => SoloLinked(s, u, true, now)
    case Resume(u) => SoloLinked(s, u, false, now)
  }

  datatype SoloEvent = SoloEvent(op: SoloOp, now: int)

  function SoloRun(w: World, s: SessionData, run: seq<SoloEvent>): SessionData {
    if run == [] then s
    else
      var e := run[|run| - 1];
      SoloApply(w, SoloRun(w, s, run[..|run| - 1]), e.op, e.now)
  }

  /** One result per round played, in order, and a total that is their sum. */
  ghost predicate Tallied(s: SessionData) {
    && s.index < ROUNDS && s.roundId == RoundId(s.id, s.index + 1)
    && s.index <= |s.results| <= s.index + 1
    && (s.state == Live ==> |s.results| == s.index + if s.awaiting then 1 else 0)
    && (forall i | 0 <= i < |s.results| ::
          s.results[i].number == i + 1 && s.results[i].roundId == RoundId(s.id, i + 1) && 0 <= s.results[i].score <= MAX_SCORE)
    && s.totalScore == ScoreTotal(s.results)
  }

  lemma OpeningTallied(id: string, user: UserId, first: Point, now: int)
    ensures Tallied(Opening(id, user, first, now))
  {
  }

  lemma ClosedTallied(w: World, s: SessionData, at: Point, now: int)
    requires FairJudge(w) && Tallied(s) && s.state == Live && !s.awaiting
    ensures Tallied(Closed(w, s, at, now))
  {
    hide RoundId;
    var r := Closed(w, s, at, now);
    assert r.results[..|s.results|] == s.results;
  }

  /** Every operation keeps one result per round, in order, and the total their sum. */
  lemma SoloKeepsTally(w: World, s: SessionData, op: SoloOp, now: int)
    requires FairJudge(w) && Tallied(s)
    ensures Tallied(SoloApply(w, s, op, now))
  {
    hide RoundId, Closed, ScoreTotal, FairJudge;
    if op.Guess? && s.state == Live && !s.awaiting {
      var held := s.(guess := Some(op.g.at), hasGuess := true, lastGuess := op.g.at, finalized := op.g.finalize, disconnected := false,
                     lastActivity := now, eventSeq := s.eventSeq + 1);
      ClosedTallied(w, held, op.g.at, now);
    }
  }

  /** No schedule resolves a singleplayer round twice, and no session scores more than five perfect rounds. */
  lemma {:induction false} SoloRunTallied(w: World, id: string, user: UserId, first: Point, start: int, run: seq<SoloEvent>)
    requires FairJudge(w)
    ensures var s := SoloRun(w, Opening(id, user, first, start), run); Tallied(s) && 0 <= s.totalScore <= ROUNDS * MAX_SCORE
  {
    hide Tallied, SoloApply, FairJudge;
    var opening := Opening(id, user, first, start);
    if run == [] {
      OpeningTallied(id, user, first, start);
    } else {
      var before, e := run[..|run| - 1], run[|run| - 1];
      SoloRunTallied(w, id, user, first, start, before);
      SoloKeepsTally(w, SoloRun(w, opening, before), e.op, e.now);
    }
    SoloScoreInRange(SoloRun(w, opening, run));
  }

  /** The engine's own judge is fair, over any distance, decay curve and provider. */
  lemma EngineJudgeFair(km: (Point, Point) -> real, decay: Decay, provider: (string, nat) -> Option<Point>)
    ensures FairJudge(World((l, g) => Judge(km, decay, l, g), provider))
  {
  }

  /** A final guess in an open round files what it is worth at the round's location, and nothing is filed otherwise. */
  lemma GuessIsFiled(w: World, s: SessionData, g: GuessRequest, now: int)
    ensures var r := SoloApply(w, s, SoloOp.Guess(g), now);
            if s.state == Live && !s.awaiting && g.user == s.user && g.roundId == s.roundId && g.finalize
            then && r.awaiting && |r.results| == |s.results| + 1 && r.results[..|s.results|] == s.results
                 && var row := r.results[|s.results|];
                    && row.at == g.at && row.location == s.location && row.number == s.index + 1 && row.roundId == s.roundId
                    && Judgement(row.km, row.score) == w.judge(s.location, Some(g.at))
                    && r.totalScore == s.totalScore + row.score
            else r.results == s.results && r.totalScore == s.totalScore && r.awaiting == s.awaiting
  {
  }

  /** The session is where the provider puts its round, and so was every round on file. */
  ghost predicate SoloPlaced(w: World, s: SessionData) {
    && w.provider(s.id, s.index) == Some(s.location)
    && forall i | 0 <= i < |s.results| :: s.results[i].number >= 1 && w.provider(s.id, s.results[i].number - 1) == Some(s.results[i].location)
  }

  lemma SoloKeepsPlaced(w: World, s: SessionData, op: SoloOp, now: int)
    requires SoloPlaced(w, s)
    ensures SoloPlaced(w, SoloApply(w, s, op, now))
  {
    hide RoundId;
  }

  /** Over every run every round is played where the provider puts it. */
  lemma {:induction false} SoloRunPlaced(w: World, s: SessionData, run: seq<SoloEvent>)
    requires SoloPlaced(w, s)
    ensures SoloPlaced(w, SoloRun(w, s, run))
  {
    hide SoloPlaced, SoloApply;
    if run != [] {
      SoloRunPlaced(w, s, run[..|run| - 1]);
      SoloKeepsPlaced(w, SoloRun(w, s, run[..|run| - 1]), run[|run| - 1].op, run[|run| - 1].now);
    }
  }

  /** A session starts at the provider's first location. */
  lemma OpeningPlaced(w: World, id: string, user: UserId, first: Point, now: int)
    requires w.provider(id, 0) == Some(first)
    ensures SoloPlaced(w, Opening(id, user, first, now))
  {
  }

  /** Advancing after a round opens the next one, or ends the session after the fifth; without a location it waits. */
  lemma SoloNextRound(w: World, s: SessionData, now: int)
    requires s.state == Live && s.awaiting
    ensures var r, next := SoloApply(w, s, Advance(s.user), now), w.provider(s.id, s.index + 1);
            && r.results == s.results && r.totalScore == s.totalScore
            && if s.index + 1 >= 5 then r.state == Ended && r.index == s.index
               else if next.None? then r == s
               else r.state == Live && !r.awaiting && r.index == s.index + 1 && r.location == next.value
                    && r.roundId == RoundId(s.id, s.index + 2) && r.guess.None? && !r.hasGuess && !r.finalized
  {
  }

  lemma {:induction false} TotalInRange(results: seq<SoloResult>)
    requires forall i | 0 <= i < |results| :: 0 <= results[i].score <= MAX_SCORE
    ensures 0 <= ScoreTotal(results) <= |results| * MAX_SCORE
  {
    if results != [] { TotalInRange(results[..|results| - 1]); }
  }

  /** So no session scores more than five perfect rounds. */
  lemma SoloScoreInRange(s: SessionData)
    requires Tallied(s)
    ensures 0 <= s.totalScore <= ROUNDS * MAX_SCORE
  {
    hide RoundId, ScoreTotal;
    TotalInRange(s.results);
  }

  class Session {
    const id: string
    const user: UserId
    var totalScore: int
    var finalized: bool
    var hasGuess: bool
    var lastGuess: Point
    var disconnected: bool
    var location: Point
    var index: nat
    var roundId: string
    var guess: Option<Point>
    var results: seq<SoloResult>
    var awaiting: bool
    var state: MatchState
    var eventSeq: int
    var lastActivity: int

    function Data(): SessionData
      reads this
    {
      SessionData(id, user, totalScore, finalized, hasGuess, lastGuess, disconnected, location, index, roundId, guess,
                  results, awaiting, state, eventSeq, lastActivity)
    }

    constructor (id: string, user: UserId, first: Point, now: int)
      ensures Data() == Opening(id, user, first, now)
    {
      this.id, this.user := id, user;
      totalScore, finalized, hasGuess, lastGuess, disconnected := 0, false, false, Point(0.0, 0.0), false;
      location, index, roundId, guess := first, 0, RoundId(id, 1), None;
      results, awaiting, state, eventSeq, lastActivity := [], false, Live, 1, now;
    }

    method SubmitGuess(w: World, g: GuessRequest, now: int) returns (e: Option<SoloError>)
      modifies this
      ensures Data() == SoloGuessed(w, old(Data()), g, now)
      ensures e == if old(state) != Live then None else if g.user != user then Some(NoSuchPlayer)
                   else if g.roundId != old(roundId) then Some(WrongRound) else None
    {
      if state != Live {
        return None;
      }
      if user != g.user {
        return Some(NoSuchPlayer);
      }
      if roundId != g.roundId {
        return Some(WrongRound);
      }
      if awaiting {
        return None;
      }
      guess := Some(g.at);
      lastGuess := g.at;
      hasGuess := true;
      finalized := g.finalize;
      disconnected := false;
      lastActivity := now;
      eventSeq := eventSeq + 1;
      if g.finalize {
        ResolveRound(w, now);
      }
      return None;
    }

    method ResolveRound(w: World, now: int)
      modifies this
      ensures Data() == if old(guess).None? then old(Data()) else Closed(w, old(Data()), old(guess).value, now)
    {
      if guess.None? {
        return;
      }
      var j := w.judge(location, guess);
      totalScore := totalScore + j.score;
      finalized := false;
      results := results + [SoloResult(roundId, index + 1, location, guess.value, j.km, j.score)];
      guess := None;
      awaiting := true;
      lastActivity := now;
      eventSeq := eventSeq + 1;
    }

    method AdvanceRound(w: World, who: UserId, now: int) returns (e: Option<SoloError>)
      modifies this
      ensures Data() == SoloAdvanced(w, old(Data()), who, now)
      ensures e == if who != user then Some(NoSuchPlayer)
                   else if old(state) == Live && old(awaiting) && old(index) + 1 < ROUNDS && w.provider(id, old(index) + 1).None?
                   then Some(NoNextRound) else None
    {
      hide RoundId;
      if user != who {
        return Some(NoSuchPlayer);
      }
      if state != Live || !awaiting {
        return None;
      }
      if index + 1 >= ROUNDS {
        state := Ended;
        awaiting := false;
        lastActivity := now;
        eventSeq := eventSeq + 1;
        return None;
      }
      var next := w.provider(id, index + 1);
      if next.None? {
        return Some(NoNextRound);
      }
      OpenRound(next.value);
      ClearPlayer();
      lastActivity := now;
      eventSeq := eventSeq + 1;
      return None;
    }

    method OpenRound(next: Point)
      modifies `index, `location, `roundId, `guess, `awaiting
      ensures index == old(index) + 1 && location == next && roundId == RoundId(id, index + 1) && guess == None && !awaiting
    {
      hide RoundId;
      index := index + 1;
      location := next;
      roundId := RoundId(id, index + 1);
      guess := None;
      awaiting := false;
    }

    method ClearPlayer()
      modifies `finalized, `lastGuess, `hasGuess
      ensures !finalized && !hasGuess && lastGuess == Point(0.0, 0.0)
    {
      finalized := false;
      lastGuess := Point(0.0, 0.0);
      hasGuess := false;
    }

    method Forfeit(who: UserId, now: int) returns (e: Option<SoloError>)
      modifies this
      ensures Data() == SoloForfeited(old(Data()), who, now)
      ensures e == if who != user then Some(NoSuchPlayer) else None
    {
      if user != who {
        return Some(NoSuchPlayer);
      }
      state := Ended;
      awaiting := false;
      finalized := false;
      lastActivity := now;
      eventSeq := eventSeq + 1;
      return None;
    }

    method MarkDisconnected(who: UserId, now: int) returns (e: Option<SoloError>)
      modifies this
      ensures Data() == SoloLinked(old(Data()), who, true, now)
      ensures e == if who != user then Some(NoSuchPlayer) else None
    {
      if user != who {
        return Some(NoSuchPlayer);
      }
      disconnected := true;
      lastActivity := now;
      eventSeq := eventSeq + 1;
      return None;
    }

    method MarkResumed(who: UserId, now: int) returns (e: Option<SoloError>)
      modifies this
      ensures Data() == SoloLinked(old(Data()), who, false, now)
      ensures e == if who != user then Some(NoSuchPlayer) else None
    {
      if user != who {
        return Some(NoSuchPlayer);
      }
      disconnected := false;
      lastActivity := now;
      eventSeq := eventSeq + 1;
      return None;
    }
  }
}
