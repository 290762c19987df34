/**
 * Duel ratings: one step of Glickman's Glicko system over the reals, then a cap
 * on the change, forgiveness for low ratings, and a floor. The transcendental
 * parts of the system are given as functions of which only the range is known.
 */
module Rating {
  import opened Common

  const MIN_RD := 110.0
  const MAX_RD := 220.0
  const INITIAL_RD := 220.0
  const FLOOR := 500
  const CAP := 80
  const FORGIVENESS_END := 1000
  const DAY := 86_400_000_000_000
  /** The square of the inflation constant. */
  const C_SQUARED := (MAX_RD * MAX_RD - MIN_RD * MIN_RD) / 365.0

  datatype Glicko = Glicko(q: real, g: real -> real, expected: (int, int, real) -> real, sqrt: real -> real)

  ghost predicate IsSqrt(f: real -> real) {
    forall x | x >= 0.0 :: f(x) >= 0.0 && Product(f(x), f(x)) == x
  }

  /** The ranges of the system's functions; q is ln 10 / 400. */
  ghost predicate IsGlicko(k: Glicko) {
    && 0.0 < k.q <= 0.006
    && (forall rd :: 0.0 < k.g(rd) <= 1.0)
    && (forall a, b, rd :: 0.0 < k.expected(a, b, rd) < 1.0)
    && IsSqrt(k.sqrt)
  }

  datatype Standing = Standing(mmr: int, rd: real, updatedAt: Option<int>)
  datatype Update = Update(mmr: int, rd: real, delta: int)
  datatype Outcome = FirstWins | SecondWins | Draw

  function ClampRD(rd: real): (r: real)
    ensures MIN_RD <= r <= MAX_RD
    ensures MIN_RD <= rd <= MAX_RD ==> r == rd
  {
    if rd <= 0.0 then INITIAL_RD
    else if rd < MIN_RD then MIN_RD
    else if rd > MAX_RD then MAX_RD
    else rd
  }

  function InflateRD(k: Glicko, rd: real, last: Option<int>, now: int): real {
    var safe := ClampRD(rd);
    if last.None? || now <= last.value then safe
    else ClampRD(k.sqrt(Product(safe, safe) + Doubt(now - last.value)))
  }

  /** The variance that a span of inactivity adds. */
  function Doubt(span: int): (r: real)
    ensures span > 0 ==> r > 0.0
  {
    Product(C_SQUARED, span as real / DAY as real)
  }

  // ----- products, kept apart so that proofs need not multiply out -----------------

  function Product(x: real, y: real): (r: real)
    ensures x > 0.0 && y > 0.0 ==> r > 0.0
  {
    x * y
  }

  lemma ProductBounds(b: real, d: real, m: real)
    requires 0.0 < b
    ensures -m < d < m ==> -Product(b, m) < Product(b, d) < Product(b, m)
    ensures 0.0 < d ==> Product(b, d) > 0.0
    ensures d < 0.0 ==> Product(b, d) < 0.0
    ensures d <= m ==> Product(b, d) <= Product(b, m)
  {
    assert Product(b, m - d) == Product(b, m) - Product(b, d);
    assert Product(b, m + d) == Product(b, m) + Product(b, d);
    assert Product(b, -d) == -Product(b, d);
  }

  lemma ProductRange(x: real, y: real, xl: real, xh: real, yl: real, yh: real)
    requires 0.0 <= xl <= x <= xh && 0.0 <= yl <= y <= yh
    ensures xl * yl <= Product(x, y) <= xh * yh
  {
    assert xl * yl <= xl * y <= x * y;
    assert x * y <= x * yh <= xh * yh;
  }

  lemma ProductOne(b: real, d: real)
    ensures Product(b, 1.0) == b && Product(b, d) == Product(d, b) && Product(-b, d) == -Product(b, d)
  {
  }

  lemma SquareOrder(x: real, m: real)
    requires 0.0 <= x && 0.0 <= m
    ensures x < m ==> Product(x, x) < Product(m, m)
    ensures x <= m ==> Product(x, x) <= Product(m, m)
  {
    assert Product(m - x, m + x) == Product(m, m) - Product(x, x);
  }

  lemma InverseBound(p: real, x: real)
    requires x > 0.0 && p >= 1.0 / x > 0.0
    ensures 0.0 < 1.0 / p <= x
  {
    assert p * x >= (1.0 / x) * x == 1.0;
    assert (1.0 / p) * p == 1.0;
  }

  /** A variance, once a game has told this much more: never more than before. */
  function Sharpened(variance: real, information: real): (v: real)
    requires variance > 0.0 && information > 0.0
    ensures 0.0 < v <= variance
  {
    var dSquared := 1.0 / information;
    var known, told := 1.0 / variance, 1.0 / dSquared;
    assert known > 0.0 && told > 0.0;
    InverseBound(known + told, variance);
    1.0 / (known + told)
  }

  lemma SharpenedAtLeast(variance: real, information: real, m: real)
    requires variance > 0.0 && information > 0.0 && m > 0.0
    requires 1.0 / variance + information <= 1.0 / m
    ensures Sharpened(variance, information) >= m
  {
    assert 1.0 / (1.0 / information) == information;
    var p := 1.0 / variance + information;
    assert 1.0 / variance > 0.0;
    assert m * p <= m * (1.0 / m) == 1.0;
    assert (1.0 / p) * p == 1.0;
  }

  /** What one game tells: 1 over the system's d squared. */
  function Information(q: real, g: real, e: real): (d: real)
    requires 0.0 < q && 0.0 < g && 0.0 < e < 1.0
    ensures d > 0.0
  {
    Product(Product(Product(Product(Product(q, q), g), g), e), 1.0 - e)
  }

  /** The variance after a game never exceeds the one before. */
  function Variance(rd: real, information: real): (v: real)
    requires rd > 0.0 && information > 0.0
    ensures 0.0 < v <= Product(rd, rd)
  {
    Sharpened(Product(rd, rd), information)
  }

  // ----- one player's update -----------------------------------------------------

  /** The rating, before rounding, and the rating deviation that a score leads to. */
  function NextRating(k: Glicko, mmr: int, rd: real, otherMmr: int, otherRd: real, score: real): real
    requires IsGlicko(k)
  {
    var own, other := ClampRD(rd), ClampRD(otherRd);
    var e := k.expected(mmr, otherMmr, other);
    mmr as real + Product(Product(Product(k.q, Variance(own, Information(k.q, k.g(other), e))), k.g(other)), score - e)
  }

  function NextRD(k: Glicko, mmr: int, rd: real, otherMmr: int, otherRd: real): (r: real)
    requires IsGlicko(k)
    ensures MIN_RD <= r <= MAX_RD
  {
    var own, other := ClampRD(rd), ClampRD(otherRd);
    ClampRD(k.sqrt(Variance(own, Information(k.q, k.g(other), k.expected(mmr, otherMmr, other)))))
  }

  function CapDelta(current: int, next: int): (r: int)
    ensures current - CAP <= r <= current + CAP
    ensures current - CAP <= next <= current + CAP ==> r == next
  {
    if next - current > CAP then current + CAP
    else if next - current < -CAP then current - CAP
    else next
  }

  /** The fraction of a loss that a low rating bears. */
  function Factor(current: int): real {
    (current - FLOOR) as real / (FORGIVENESS_END - FLOOR) as real
  }

  function Forgive(current: int, next: int): int {
    var delta := next - current;
    if delta >= 0 || current >= FORGIVENESS_END then next
    else if current <= FLOOR then current
    else current + RoundHalfAway(Product(delta as real, Factor(current)))
  }

  function ClampMmr(mmr: int): int {
    if mmr < FLOOR then FLOOR else mmr
  }

  function Next(k: Glicko, p: Standing, otherMmr: int, ownRd: real, otherRd: real, score: real): Update
    requires IsGlicko(k)
  {
    var raw := RoundHalfAway(NextRating(k, p.mmr, ownRd, otherMmr, otherRd, score));
    var mmr := ClampMmr(Forgive(p.mmr, CapDelta(p.mmr, raw)));
    Update(mmr, NextRD(k, p.mmr, ownRd, otherMmr, otherRd), mmr - p.mmr)
  }

  function CalculateDuelUpdates(k: Glicko, p1: Standing, p2: Standing, winner: Outcome, now: int): (Update, Update)
    requires IsGlicko(k)
  {
    var rd1, rd2 := InflateRD(k, p1.rd, p1.updatedAt, now), InflateRD(k, p2.rd, p2.updatedAt, now);
    var score := match winner case FirstWins => 1.0 case SecondWins => 0.0 case Draw => 0.5;
    (Next(k, p1, p2.mmr, rd1, rd2, score), Next(k, p2, p1.mmr, rd2, rd1, 1.0 - score))
  }

  // ----- what a game is worth -------------------------------------------------------

  /** Before the cap, any rating moves less than 300 points, toward the score. */
  lemma StepBounds(q: real, v: real, g: real, d: real)
    requires 0.0 < q <= 0.006 && 0.0 < v <= 48400.0 && 0.0 < g <= 1.0 && -1.0 < d < 1.0
    ensures -300.0 < Product(Product(Product(q, v), g), d) < 300.0
    ensures d > 0.0 ==> Product(Product(Product(q, v), g), d) > 0.0
    ensures d < 0.0 ==> Product(Product(Product(q, v), g), d) < 0.0
  {
    ProductBounds(q, v, 48400.0);
    assert Product(q, 48400.0) <= 290.4;
    hide Product;
    ProductBounds(Product(q, v), g, 1.0);
    ProductOne(Product(q, v), g);
    var b := Product(Product(q, v), g);
    ProductBounds(b, d, 1.0);
    ProductOne(b, d);
  }

  lemma NextRatingMoves(k: Glicko, mmr: int, rd: real, otherMmr: int, otherRd: real, score: real)
    requires IsGlicko(k) && 0.0 <= score <= 1.0
    ensures var r := NextRating(k, mmr, rd, otherMmr, otherRd, score);
            && mmr as real - 300.0 < r < mmr as real + 300.0
            && var e := k.expected(mmr, otherMmr, ClampRD(otherRd));
               (score > e ==> r > mmr as real) && (score < e ==> r < mmr as real)
  {
    var own, other := ClampRD(rd), ClampRD(otherRd);
    assert Product(MAX_RD, MAX_RD) == 48400.0;
    hide Product, Information, Variance, ClampRD;
    var e := k.expected(mmr, otherMmr, other);
    var v := Variance(own, Information(k.q, k.g(other), e));
    SquareOrder(own, MAX_RD);
    StepBounds(k.q, v, k.g(other), score - e);
  }

  /** The share of a loss: no more than all of it, and at least half a point short of what is left above the floor. */
  lemma ShareBounds(current: int, loss: int)
    requires FLOOR < current < FORGIVENESS_END && 0 < loss <= CAP
    ensures var x := Product(-loss as real, Factor(current));
            && -loss as real <= x <= 0.0
            && -((current - FLOOR) as real) + 0.5 <= x
  {
    var f, l := Factor(current), loss as real;
    assert 0.0 < f < 1.0 && 80.0 * f + 0.5 <= (current - FLOOR) as real;
    assert Product(f, 80.0) == 80.0 * f;
    hide Product;
    ProductBounds(f, l, 80.0);
    ProductBounds(l, f, 1.0);
    ProductOne(l, f);
  }

  /** Forgiveness takes a part of a loss and nothing else. */
  lemma ForgiveBetween(current: int, next: int)
    requires current >= FLOOR && current - CAP <= next
    ensures next >= current ==> Forgive(current, next) == next
    ensures next < current ==> Max(FLOOR, next) <= Forgive(current, next) <= current
  {
    hide Product, Factor;
    if next < current && FLOOR < current < FORGIVENESS_END {
      ShareBounds(current, current - next);
    }
  }

  /**
   * From the floor up: the result stays within the cap and the floor, whoever
   * did better than expected never drops, whoever did worse never rises, and
   * the final clamp has nothing to do.
   */
  lemma NextBounds(k: Glicko, p: Standing, otherMmr: int, ownRd: real, otherRd: real, score: real)
    requires IsGlicko(k) && 0.0 <= score <= 1.0 && p.mmr >= FLOOR
    ensures var u := Next(k, p, otherMmr, ownRd, otherRd, score);
            && Max(FLOOR, p.mmr - CAP) <= u.mmr <= p.mmr + CAP
            && u.delta == u.mmr - p.mmr
            && var e := k.expected(p.mmr, otherMmr, ClampRD(otherRd));
               (score > e ==> u.delta >= 0) && (score < e ==> u.delta <= 0)
    ensures var raw := RoundHalfAway(NextRating(k, p.mmr, ownRd, otherMmr, otherRd, score));
            Next(k, p, otherMmr, ownRd, otherRd, score).mmr == Forgive(p.mmr, CapDelta(p.mmr, raw))
  {
    hide NextRating, Forgive;
    NextRatingMoves(k, p.mmr, ownRd, otherMmr, otherRd, score);
    var raw := RoundHalfAway(NextRating(k, p.mmr, ownRd, otherMmr, otherRd, score));
    ForgiveBetween(p.mmr, CapDelta(p.mmr, raw));
  }

  lemma RoundKeepsOrder(x: real, y: real)
    requires x <= y
    ensures RoundHalfAway(x) <= RoundHalfAway(y)
  {
  }

  lemma ForgiveKeepsOrder(current: int, a: int, b: int)
    requires current >= FLOOR && current - CAP <= a <= b
    ensures Forgive(current, a) <= Forgive(current, b)
  {
    hide Product, Factor;
    ForgiveBetween(current, a);
    ForgiveBetween(current, b);
    if b < current && FLOOR < current < FORGIVENESS_END {
      FactorPositive(current);
      ProductBounds(Factor(current), (a - current) as real, (b - current) as real);
      ProductOne(Factor(current), (a - current) as real);
      ProductOne(Factor(current), (b - current) as real);
      RoundKeepsOrder(Product((a - current) as real, Factor(current)), Product((b - current) as real, Factor(current)));
    }
  }

  lemma FactorPositive(current: int)
    ensures current > FLOOR ==> Factor(current) > 0.0
  {
  }

  /** Through rounding, cap, forgiveness and floor, a better score never leaves a player with less. */
  lemma BetterScoreNeverLess(k: Glicko, p: Standing, otherMmr: int, ownRd: real, otherRd: real, worse: real, better: real)
    requires IsGlicko(k) && 0.0 <= worse <= better <= 1.0 && p.mmr >= FLOOR
    ensures Next(k, p, otherMmr, ownRd, otherRd, worse).mmr <= Next(k, p, otherMmr, ownRd, otherRd, better).mmr
  {
    hide Product, Information, Variance, ClampRD, Forgive;
    var own, other := ClampRD(ownRd), ClampRD(otherRd);
    var e := k.expected(p.mmr, otherMmr, other);
    var b := Product(Product(k.q, Variance(own, Information(k.q, k.g(other), e))), k.g(other));
    ProductBounds(b, worse - e, better - e);
    var x, y := NextRating(k, p.mmr, ownRd, otherMmr, otherRd, worse), NextRating(k, p.mmr, ownRd, otherMmr, otherRd, better);
    RoundKeepsOrder(x, y);
    ForgiveKeepsOrder(p.mmr, CapDelta(p.mmr, RoundHalfAway(x)), CapDelta(p.mmr, RoundHalfAway(y)));
  }

  /** Both players of a duel at once. */
  lemma DuelBounds(k: Glicko, p1: Standing, p2: Standing, winner: Outcome, now: int)
    requires IsGlicko(k) && p1.mmr >= FLOOR && p2.mmr >= FLOOR
    ensures var (u1, u2) := CalculateDuelUpdates(k, p1, p2, winner, now);
            && Max(FLOOR, p1.mmr - CAP) <= u1.mmr <= p1.mmr + CAP
            && Max(FLOOR, p2.mmr - CAP) <= u2.mmr <= p2.mmr + CAP
            && (winner == FirstWins ==> u1.delta >= 0 >= u2.delta)
            && (winner == SecondWins ==> u1.delta <= 0 <= u2.delta)
  {
    hide Next;
    var rd1, rd2 := InflateRD(k, p1.rd, p1.updatedAt, now), InflateRD(k, p2.rd, p2.updatedAt, now);
    var score := match winner case FirstWins => 1.0 case SecondWins => 0.0 case Draw => 0.5;
    NextBounds(k, p1, p2.mmr, rd1, rd2, score);
    NextBounds(k, p2, p1.mmr, rd2, rd1, 1.0 - score);
  }

  function Reversed(winner: Outcome): Outcome {
    match winner case FirstWins => SecondWins case SecondWins => FirstWins case Draw => Draw
  }

  /** Naming the players the other way round names their updates the other way round. */
  lemma PlayersSwap(k: Glicko, p1: Standing, p2: Standing, winner: Outcome, now: int)
    requires IsGlicko(k)
    ensures var (u1, u2) := CalculateDuelUpdates(k, p1, p2, winner, now);
            CalculateDuelUpdates(k, p2, p1, Reversed(winner), now) == (u2, u1)
  {
    hide Next, InflateRD;
  }

  /** A loser below the floor does rise, to the floor: the guarantee holds from the floor up, and only there. */
  lemma LoserNeverRisesExactly(k: Glicko, p: Standing, otherMmr: int, ownRd: real, otherRd: real)
    requires IsGlicko(k)
    ensures Next(k, p, otherMmr, ownRd, otherRd, 0.0).delta <= 0 <==> p.mmr >= FLOOR
  {
    hide NextRating, Forgive;
    if p.mmr >= FLOOR {
      NextBounds(k, p, otherMmr, ownRd, otherRd, 0.0);
    }
  }

  // ----- rating deviations --------------------------------------------------------------

  lemma ClampKeepsOrder(x: real, m: real)
    requires x > 0.0 && MIN_RD <= m <= MAX_RD
    ensures x <= m ==> ClampRD(x) <= m
    ensures x >= m ==> ClampRD(x) >= m
  {
  }

  lemma SqrtOrder(f: real -> real, x: real, m: real)
    requires IsSqrt(f) && 0.0 < x && 0.0 <= m
    ensures f(x) > 0.0
    ensures x <= Product(m, m) ==> f(x) <= m
    ensures x >= Product(m, m) ==> f(x) >= m
  {
    var r := f(x);
    assert Product(r, r) == x;
    SquareOrder(r, m);
    SquareOrder(m, r);
    assert Product(0.0, 0.0) == 0.0;
  }

  /** A game never makes a rating less certain. */
  lemma GameSharpens(k: Glicko, mmr: int, rd: real, otherMmr: int, otherRd: real)
    requires IsGlicko(k)
    ensures MIN_RD <= NextRD(k, mmr, rd, otherMmr, otherRd) <= ClampRD(rd)
  {
    hide Information, Variance, ClampRD, Product;
    var own, other := ClampRD(rd), ClampRD(otherRd);
    var v := Variance(own, Information(k.q, k.g(other), k.expected(mmr, otherMmr, other)));
    SqrtOrder(k.sqrt, v, own);
    ClampKeepsOrder(k.sqrt(v), own);
  }

  /** Waiting never makes a rating more certain. */
  lemma WaitingBlurs(k: Glicko, rd: real, last: Option<int>, now: int)
    requires IsGlicko(k)
    ensures ClampRD(rd) <= InflateRD(k, rd, last, now) <= MAX_RD
  {
    hide ClampRD, Product, Doubt;
    if last.Some? && now > last.value {
      var own := ClampRD(rd);
      var more := Product(own, own) + Doubt(now - last.value);
      SqrtOrder(k.sqrt, more, own);
      ClampKeepsOrder(k.sqrt(more), own);
    }
  }

  // ----- the formulas themselves ------------------------------------------------------------

  /**
   * Step 2 of the Glicko system, with 1/d^2 told by the game: the variance is 1
   * over 1/RD^2 + 1/d^2, the rating moves by q times it, times g, times what
   * the score exceeds its expectation by, and the square of the deviation is
   * the variance, kept within its bounds.
   */
  lemma GameIsGlicko(k: Glicko, mmr: int, rd: real, otherMmr: int, otherRd: real, score: real) returns (variance: real, told: real)
    requires IsGlicko(k) && MIN_RD <= rd <= MAX_RD && MIN_RD <= otherRd <= MAX_RD
    ensures told == GameTells(k.q, k.g(otherRd), k.expected(mmr, otherMmr, otherRd))
    ensures variance > 0.0 && IsInverseSum(variance, rd, told)
    ensures NextRating(k, mmr, rd, otherMmr, otherRd, score) ==
              mmr as real + GameMoves(k.q, variance, k.g(otherRd), score - k.expected(mmr, otherMmr, otherRd))
    ensures IsDeviation(NextRD(k, mmr, rd, otherMmr, otherRd), variance)
  {
    hide Product, Sharpened, Information, GameTells, GameMoves, IsInverseSum, IsDeviation;
    var e, g := k.expected(mmr, otherMmr, otherRd), k.g(otherRd);
    told := Information(k.q, g, e);
    variance := Sharpened(Product(rd, rd), told);
    InformationIs(k.q, g, e);
    SharpenedIs(rd, told);
    StepIs(k.q, variance, g, score - e);
    DeviationIs(k, variance, rd);
  }

  /** 1/d^2 of a game. */
  function GameTells(q: real, g: real, e: real): real {
    q * q * g * g * e * (1.0 - e)
  }

  function GameMoves(q: real, variance: real, g: real, surprise: real): real {
    q * variance * g * surprise
  }

  predicate IsInverseSum(variance: real, rd: real, told: real)
    requires rd > 0.0
  {
    rd * rd > 0.0 && variance * (1.0 / (rd * rd) + told) == 1.0
  }

  predicate IsDeviation(r: real, variance: real) {
    && (variance >= MIN_RD * MIN_RD ==> r * r == variance)
    && (variance < MIN_RD * MIN_RD ==> r == MIN_RD)
  }

  lemma InformationIs(q: real, g: real, e: real)
    requires 0.0 < q && 0.0 < g && 0.0 < e < 1.0
    ensures Information(q, g, e) == GameTells(q, g, e)
  {
  }

  lemma StepIs(q: real, v: real, g: real, d: real)
    ensures Product(Product(Product(q, v), g), d) == GameMoves(q, v, g, d)
  {
  }

  lemma SharpenedIs(rd: real, told: real)
    requires rd > 0.0 && told > 0.0
    ensures IsInverseSum(Sharpened(Product(rd, rd), told), rd, told)
  {
    var x := Product(rd, rd);
    assert x == rd * rd;
    SharpenedInverse(x, told);
  }

  lemma SharpenedInverse(variance: real, told: real)
    requires variance > 0.0 && told > 0.0
    ensures Sharpened(variance, told) * (1.0 / variance + told) == 1.0
  {
    assert 1.0 / (1.0 / told) == told;
    var p := 1.0 / variance + told;
    assert 1.0 / variance > 0.0;
    assert (1.0 / p) * p == 1.0;
  }

  lemma DeviationIs(k: Glicko, variance: real, rd: real)
    requires IsGlicko(k) && 0.0 < variance <= Product(rd, rd) && MIN_RD <= rd <= MAX_RD
    ensures IsDeviation(ClampRD(k.sqrt(variance)), variance)
  {
    SqrtOrder(k.sqrt, variance, rd);
    SqrtOrder(k.sqrt, variance, MIN_RD);
    assert Product(k.sqrt(variance), k.sqrt(variance)) == variance;
    assert Product(rd, rd) == rd * rd && Product(MIN_RD, MIN_RD) == MIN_RD * MIN_RD;
  }

  /** Step 1: the square of the deviation grows by 99.45... a day, up to its bound. */
  lemma WaitingIsGlicko(k: Glicko, rd: real, last: int, now: int)
    requires IsGlicko(k) && MIN_RD <= rd <= MAX_RD && last < now
    ensures var r, grown := InflateRD(k, rd, Some(last), now), rd * rd + 36300.0 / 365.0 * ((now - last) as real / 86_400_000_000_000.0);
            (grown <= MAX_RD * MAX_RD ==> r * r == grown) && (grown > MAX_RD * MAX_RD ==> r == MAX_RD)
  {
    var grown := Product(rd, rd) + Doubt(now - last);
    assert Product(rd, rd) > 0.0 && Doubt(now - last) > 0.0;
    SqrtOrder(k.sqrt, grown, MAX_RD);
    SqrtOrder(k.sqrt, grown, rd);
    assert Product(k.sqrt(grown), k.sqrt(grown)) == grown;
    assert Product(MAX_RD, MAX_RD) == MAX_RD * MAX_RD;
    if grown > MAX_RD * MAX_RD { assert k.sqrt(grown) != MAX_RD || grown == Product(MAX_RD, MAX_RD); }
  }

  /** Between floor and full weight a loss counts in proportion to the rating's height above the floor, to the nearest point. */
  lemma ForgiveInProportion(current: int, next: int)
    requires 500 < current < 1000 && next < current
    ensures var share := (current - next) as real * ((current - 500) as real / 500.0);
            -0.5 <= (current - Forgive(current, next)) as real - share <= 0.5
  {
    var x := Product((next - current) as real, Factor(current));
    assert x == -((current - next) as real * ((current - 500) as real / 500.0));
    assert Forgive(current, next) == current + RoundHalfAway(x);
  }

  // ----- real inputs --------------------------------------------------------------------

  /** The system's constants, and its g at the least deviation, to a few digits. */
  ghost predicate NearGlicko(k: Glicko) {
    IsGlicko(k) && 0.005756 <= k.q <= 0.005757 && 0.944 <= k.g(MIN_RD) <= 0.9442
  }

  /** How far a game moves a rating of variance about `v`, in numbers. */
  lemma StepAbout(q: real, v: real, g: real, d: real, vl: real, vh: real, dl: real, dh: real)
    requires 0.005756 <= q <= 0.005757 && 0.944 <= g <= 0.9442 && 0.0 <= vl <= v <= vh && 0.0 <= dl <= d <= dh
    ensures 0.005756 * vl * 0.944 * dl <= Product(Product(Product(q, v), g), d) <= 0.005757 * vh * 0.9442 * dh
  {
    ProductRange(q, v, 0.005756, 0.005757, vl, vh);
    var a, al, ah := Product(q, v), 0.005756 * vl, 0.005757 * vh;
    hide Product;
    ProductRange(a, g, al, ah, 0.944, 0.9442);
    ProductRange(Product(a, g), d, al * 0.944, ah * 0.9442, dl, dh);
  }

  /** What a game tells when one side is a clear favourite. */
  lemma InformationAbout(q: real, g: real, e: real, h: real)
    requires 0.005756 <= q <= 0.005757 && 0.944 <= g <= 0.9442 && 0.0 < e < 1.0
    requires 0.0 <= h <= 0.02 && (e <= h || 1.0 - e <= h)
    ensures Information(q, g, e) <= 0.00002955 * h
  {
    ProductRange(q, q, 0.005756, 0.005757, 0.005756, 0.005757);
    var a := Product(q, q);
    var b := Product(a, g);
    var c := Product(b, g);
    hide Product;
    ProductRange(a, g, 0.0, 0.00003314305, 0.0, 0.9442);
    ProductRange(b, g, 0.0, 0.000031294, 0.0, 0.9442);
    assert c <= 0.00002955;
    if e <= h {
      ProductRange(c, e, 0.0, 0.00002955, 0.0, h);
      ProductRange(Product(c, e), 1.0 - e, 0.0, 0.00002955 * h, 0.0, 1.0);
    } else {
      ProductRange(c, e, 0.0, 0.00002955, 0.0, 1.0);
      ProductRange(Product(c, e), 1.0 - e, 0.0, 0.00002955, 0.0, h);
    }
  }
}
