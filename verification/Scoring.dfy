/** Points for a guess. The exponential enters only through its range and order. */
module Scoring {
  const MAX_SCORE := 5000
  const MAX_DISTANCE_KM := 20015.086796020572
  const PERFECT_GUESS_KM := 0.15
  const SCORE_DECAY_KM := 1494.52
  const SCORE_FLOOR := 0.033

  /** What is used of x => exp(-x) on x >= 0: it falls from 1 and stays positive. */
  ghost predicate IsDecay(f: real -> real) {
    forall x: real, y: real {:trigger f(x), f(y)} :: 0.0 <= x <= y ==> 0.0 < f(y) <= f(x) <= 1.0
  }

  type Decay = f: real -> real | IsDecay(f) witness (x: real) => 1.0

  function ClampDistanceKm(km: real): (r: real)
    ensures 0.0 <= r <= MAX_DISTANCE_KM
    ensures 0.0 <= km <= MAX_DISTANCE_KM ==> r == km
  {
    var low := if km > 0.0 then km else 0.0;
    if low < MAX_DISTANCE_KM then low else MAX_DISTANCE_KM
  }

  function RoundScore(decay: Decay, km: real): (r: int)
    ensures 0 <= r <= MAX_SCORE
  {
    var clamped := ClampDistanceKm(km);
    if clamped <= PERFECT_GUESS_KM then MAX_SCORE
    else
      var d := decay(clamped / SCORE_DECAY_KM);
      assert 0.0 < d <= 1.0;
      (MAX_SCORE as real * d + SCORE_FLOOR).Floor
  }

  /** A farther guess never scores more. */
  lemma FartherScoresNoMore(decay: Decay, near: real, far: real)
    requires near <= far
    ensures RoundScore(decay, far) <= RoundScore(decay, near)
  {
    var a, b := ClampDistanceKm(near) / SCORE_DECAY_KM, ClampDistanceKm(far) / SCORE_DECAY_KM;
    assert 0.0 <= a <= b;
    assert 0.0 < decay(b) <= decay(a);
  }

  /** Full marks within the perfect distance; beyond it, in whole points, what the decay over 1494.52 km leaves of them. */
  lemma ScoreExactly(decay: Decay, km: real)
    ensures km <= 0.15 ==> RoundScore(decay, km) == 5000
    ensures 0.15 < km <= MAX_DISTANCE_KM ==>
              var left := 5000.0 * decay(km / 1494.52) + 0.033;
              RoundScore(decay, km) as real <= left < RoundScore(decay, km) as real + 1.0
  {
  }
}
