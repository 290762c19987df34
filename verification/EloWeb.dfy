/** The web client's preview of a duel's rating changes, and where it departs from the server's. */
module EloWeb {
  import opened Common
  import opened Rating

  datatype Winner = Self | Opponent | Neither
  datatype Deltas = Deltas(self: int, opponent: int, selfRd: real, opponentRd: real)

  function WebForgive(current: int, next: int): int {
    var delta := next - current;
    if delta >= 0 || current >= FORGIVENESS_END then next
    else if current <= FLOOR then current
    else current + RoundHalfUp(Product(delta as real, Factor(current)))
  }

  /** The change of one side; the arithmetic is the server's but for the rounding. */
  function WebDelta(k: Glicko, mmr: int, rd: real, otherMmr: int, otherRd: real, score: real): int
    requires IsGlicko(k)
  {
    var raw := RoundHalfUp(NextRating(k, mmr, rd, otherMmr, otherRd, score));
    ClampMmr(WebForgive(mmr, CapDelta(mmr, raw))) - mmr
  }

  function CalculateDuelEloDeltas(k: Glicko, self: Standing, opponent: Standing, winner: Winner, now: int): Deltas
    requires IsGlicko(k)
  {
    var rd1, rd2 := InflateRD(k, self.rd, self.updatedAt, now), InflateRD(k, opponent.rd, opponent.updatedAt, now);
    var score1 := if winner == Self then 1.0 else if winner == Opponent then 0.0 else 0.5;
    var score2 := if winner == Opponent then 1.0 else if winner == Self then 0.0 else 0.5;
    Deltas(WebDelta(k, self.mmr, rd1, opponent.mmr, rd2, score1), WebDelta(k, opponent.mmr, rd2, self.mmr, rd1, score2),
           NextRD(k, self.mmr, rd1, opponent.mmr, rd2), NextRD(k, opponent.mmr, rd2, self.mmr, rd1))
  }

  /** A forgiven loss that falls exactly between two points. */
  predicate HalfLoss(current: int, next: int) {
    && FLOOR < current < FORGIVENESS_END && next < current
    && (2 * (current - next) * (current - FLOOR)) % 1000 == 500
  }

  /** Above zero both ways of rounding agree. */
  lemma RoundsAgree(x: real)
    requires x >= 0.0
    ensures RoundHalfUp(x) == RoundHalfAway(x)
  {
  }

  /** Below zero they part on exact halves only, and there by one. */
  lemma RoundsPart(x: real)
    requires x < 0.0
    ensures RoundHalfUp(x) == RoundHalfAway(x) + if (0.5 - x).Floor as real == 0.5 - x then 1 else 0
  {
    var a, b := (x + 0.5).Floor, (0.5 - x).Floor;
    assert b as real <= 0.5 - x < b as real + 1.0;
    assert a as real <= x + 0.5 < a as real + 1.0;
  }

  /** A scaled loss in whole thousandths. */
  lemma ShareInThousandths(current: int, loss: int)
    ensures 1000.0 * Product(-loss as real, Factor(current)) == (-2 * loss * (current - FLOOR)) as real
  {
    assert Factor(current) == (current - FLOOR) as real / 500.0;
    var c, l := (current - FLOOR) as real, loss as real;
    assert (-2 * loss * (current - FLOOR)) as real == -2.0 * (l * c) by {
      assert (loss * (current - FLOOR)) as real == l * c;
    }
    assert Product(-l, c / 500.0) == -(l * c) / 500.0;
  }

  lemma HalfOfThousandths(x: real, n: int)
    requires 1000.0 * x == -n as real
    ensures (0.5 - x).Floor as real == 0.5 - x <==> n % 1000 == 500
  {
    var f := (0.5 - x).Floor;
    var m, r := n / 1000, n % 1000;
    assert n == 1000 * m + r;
    assert 1000.0 * (0.5 - x) == 500.0 + 1000.0 * m as real + r as real;
    if r == 500 { assert 0.5 - x == (m + 1) as real; }
    if f as real == 0.5 - x { assert (1000 * f) as real == (500 + n) as real; }
  }

  lemma ForgivenessTwins(current: int, next: int)
    requires current >= FLOOR && next >= current - CAP
    ensures WebForgive(current, next) == Forgive(current, next) + if HalfLoss(current, next) then 1 else 0
  {
    hide Product, Factor;
    if next < current && FLOOR < current < FORGIVENESS_END {
      var loss := current - next;
      ShareBounds(current, loss);
      var x := Product(-loss as real, Factor(current));
      ShareInThousandths(current, loss);
      HalfOfThousandths(x, 2 * loss * (current - FLOOR));
      if x < 0.0 { RoundsPart(x); } else { RoundsAgree(x); }
    }
  }

  /** The rating before forgiveness, which both sides compute alike. */
  function Capped(k: Glicko, mmr: int, rd: real, otherMmr: int, otherRd: real, score: real): int
    requires IsGlicko(k)
  {
    CapDelta(mmr, RoundHalfAway(NextRating(k, mmr, rd, otherMmr, otherRd, score)))
  }

  /** From the floor up the web shows the server's change, or exactly one point more on an exact half. */
  lemma DeltaTwins(k: Glicko, p: Standing, rd: real, otherMmr: int, otherRd: real, score: real)
    requires IsGlicko(k) && 0.0 <= score <= 1.0 && p.mmr >= FLOOR
    ensures WebDelta(k, p.mmr, rd, otherMmr, otherRd, score)
            == Next(k, p, otherMmr, rd, otherRd, score).delta
               + if HalfLoss(p.mmr, Capped(k, p.mmr, rd, otherMmr, otherRd, score)) then 1 else 0
  {
    hide NextRating, Forgive, WebForgive, HalfLoss;
    NextRatingMoves(k, p.mmr, rd, otherMmr, otherRd, score);
    RoundsAgree(NextRating(k, p.mmr, rd, otherMmr, otherRd, score));
    var capped := Capped(k, p.mmr, rd, otherMmr, otherRd, score);
    ForgivenessTwins(p.mmr, capped);
    ForgiveBetween(p.mmr, capped);
  }

  function ServerWinner(winner: Winner): Outcome {
    match winner case Self => FirstWins case Opponent => SecondWins case Neither => Draw
  }

  /** The preview and the server's update, side by side. */
  lemma PreviewTwins(k: Glicko, self: Standing, opponent: Standing, winner: Winner, now: int)
    requires IsGlicko(k) && self.mmr >= FLOOR && opponent.mmr >= FLOOR
    ensures var web := CalculateDuelEloDeltas(k, self, opponent, winner, now);
            var (u1, u2) := CalculateDuelUpdates(k, self, opponent, ServerWinner(winner), now);
            && u1.delta <= web.self <= u1.delta + 1 && u2.delta <= web.opponent <= u2.delta + 1
            && (winner == Self ==> web.self == u1.delta) && (winner == Opponent ==> web.opponent == u2.delta)
            && web.selfRd == u1.rd && web.opponentRd == u2.rd
  {
    hide WebDelta, NextRD, HalfLoss, CapDelta;
    var rd1, rd2 := InflateRD(k, self.rd, self.updatedAt, now), InflateRD(k, opponent.rd, opponent.updatedAt, now);
    var score := match winner case Self => 1.0 case Opponent => 0.0 case Neither => 0.5;
    DeltaTwins(k, self, rd1, opponent.mmr, rd2, score);
    DeltaTwins(k, opponent, rd2, self.mmr, rd1, 1.0 - score);
    WinnersLoseNothing(k, self, rd1, opponent.mmr, rd2);
    WinnersLoseNothing(k, opponent, rd2, self.mmr, rd1);
  }

  lemma WinnersLoseNothing(k: Glicko, p: Standing, rd: real, otherMmr: int, otherRd: real)
    requires IsGlicko(k) && p.mmr >= FLOOR
    ensures !HalfLoss(p.mmr, Capped(k, p.mmr, rd, otherMmr, otherRd, 1.0))
  {
    hide NextRating;
    NextRatingMoves(k, p.mmr, rd, otherMmr, otherRd, 1.0);
  }

  // ----- a real input ------------------------------------------------------------------

  /** An outsider's loss, before rounding: more than half a point, less than one and a half. */
  lemma OutsiderStep(k: Glicko)
    requires NearGlicko(k) && 0.0166 <= k.expected(750, 1500, MIN_RD) <= 0.0168
    ensures 748.5 < NextRating(k, 750, MIN_RD, 1500, MIN_RD, 0.0) < 749.5
  {
    var e := k.expected(750, 1500, MIN_RD);
    var g, info := k.g(MIN_RD), Information(k.q, k.g(MIN_RD), e);
    InformationAbout(k.q, g, e, 0.0168);
    assert Product(MIN_RD, MIN_RD) == 12100.0;
    var b := Product(Product(k.q, Variance(MIN_RD, info)), g);
    assert Product(b, 0.0 - e) == -Product(b, e);
    hide Information, Product;
    SharpenedAtLeast(12100.0, info, 11000.0);
    StepAbout(k.q, Variance(MIN_RD, info), g, e, 11000.0, 12100.0, 0.0166, 0.0168);
  }

  /** A loser at 750 whose one lost point is halved: the server takes it, the web does not show it. */
  lemma PreviewErrs(k: Glicko, now: int)
    requires NearGlicko(k) && 0.0166 <= k.expected(750, 1500, MIN_RD) <= 0.0168
    ensures var self, opponent := Standing(750, MIN_RD, Some(now)), Standing(1500, MIN_RD, Some(now));
            && CalculateDuelUpdates(k, self, opponent, SecondWins, now).0.delta == -1
            && CalculateDuelEloDeltas(k, self, opponent, Opponent, now).self == 0
  {
    var self := Standing(750, MIN_RD, Some(now));
    assert Factor(750) == 0.5 && Product(-1 as real, Factor(750)) == -0.5;
    assert HalfLoss(750, 749);
    hide NextRating, Product, NextRD;
    OutsiderStep(k);
    assert RoundHalfAway(NextRating(k, 750, MIN_RD, 1500, MIN_RD, 0.0)) == 749;
    assert RoundHalfAway(-0.5) == -1;
    DeltaTwins(k, self, MIN_RD, 1500, MIN_RD, 0.0);
  }
}
