/** How suspicious a guess is, and when recent guesses get a player banned automatically. */
module CheatEvidence {
  import opened Common

  const RECENT := 20

  /** A ranked guess: its score, the time it took, and the evidence stored with it. */
  datatype Event = Event(score: int, ms: int, evidence: real)

  // ----- one guess ------------------------------------------------------------------

  function Speed(ms: int): real {
    var speed := (15.0 - ms as real / 1000.0) / 12.0;
    if speed < 0.0 then 0.0 else if speed > 1.25 then 1.25 else speed
  }

  function Bonus(score: int, ms: int): real {
    if score >= 5000 && ms <= 3000 then 5.0
    else if score >= 4990 && ms <= 5000 then 3.0
    else if score >= 4950 && ms <= 5000 then 1.5
    else 0.0
  }

  function GuessEvidence(score: int, ms: int): real {
    if score < 4900 || ms <= 0 || ms > 15000 then 0.0
    else
      var excess := (score - 4900) as real / 100.0;
      (0.75 + excess * 4.0) * Speed(ms) + Bonus(score, ms)
  }

  lemma SpeedFalls(ms: int, faster: int)
    requires faster <= ms
    ensures 0.0 <= Speed(ms) <= Speed(faster)
  {
  }

  lemma Products(a: real, b: real, c: real, d: real)
    requires 0.0 <= a <= c && 0.0 <= b <= d
    ensures 0.0 <= a * b <= c * d
  {
    assert a * b <= c * b <= c * d;
  }

  /** A better score in less, but some, time is never less suspicious. */
  lemma EvidenceGrows(score: int, ms: int, better: int, faster: int)
    requires better >= score && 0 < faster <= ms
    ensures 0.0 <= GuessEvidence(score, ms) <= GuessEvidence(better, faster)
  {
    hide Speed;
    var a, b := 0.75 + (score - 4900) as real / 100.0 * 4.0, 0.75 + (better - 4900) as real / 100.0 * 4.0;
    SpeedFalls(ms, faster);
    if better >= 4900 && faster <= 15000 {
      SpeedFalls(faster, faster);
      Products(0.75, Speed(faster), b, Speed(faster));
      if score >= 4900 && ms <= 15000 {
        Products(a, Speed(ms), b, Speed(faster));
      }
    }
  }

  /** What the formula gives at the corners of its tiers. */
  lemma EvidenceCorners()
    ensures GuessEvidence(5000, 3000) == 9.75 && GuessEvidence(5000, 0) == 0.0 && GuessEvidence(5000, 15001) == 0.0
    ensures GuessEvidence(4899, 3000) == 0.0 && GuessEvidence(4900, 3000) == 0.75 && GuessEvidence(4900, 15000) == 0.0
    ensures GuessEvidence(4990, 3000) == 7.35 && GuessEvidence(4950, 3000) == 4.25
    ensures GuessEvidence(4950, 9000) == 1.375 && GuessEvidence(5000, 9000) == 2.375 && GuessEvidence(5000, 5000) == 4.75 * 10.0 / 12.0 + 3.0
  {
  }

  // ----- a player's recent guesses ------------------------------------------------------

  function EvidenceSum(events: seq<Event>): real {
    if events == [] then 0.0 else EvidenceSum(events[..|events| - 1]) + events[|events| - 1].evidence
  }

  function Count(events: seq<Event>, p: Event -> bool): nat {
    if events == [] then 0 else Count(events[..|events| - 1], p) + if p(events[|events| - 1]) then 1 else 0
  }

  function FastAbove(score: int): Event -> bool {
    (e: Event) => e.score >= score && e.ms <= 10000
  }

  function Extreme(): Event -> bool {
    (e: Event) => e.evidence >= 8.0
  }

  function First(events: seq<Event>): seq<Event> {
    if |events| <= 10 then events else events[..10]
  }

  datatype BanReason = Evidence10 | Evidence20 | RepeatedExtreme | FiveOfTen | NineteenOfTwenty

  function Verdict(events: seq<Event>): Option<BanReason> {
    if |events| < 10 then None
    else if EvidenceSum(First(events)) >= 18.0 then Some(Evidence10)
    else if |events| >= RECENT && EvidenceSum(events) >= 28.0 then Some(Evidence20)
    else if Count(events, Extreme()) >= 3 then Some(RepeatedExtreme)
    else if Count(First(events), FastAbove(4950)) >= 5 then Some(FiveOfTen)
    else if |events| >= RECENT && Count(events, FastAbove(4900)) >= 19 then Some(NineteenOfTwenty)
    else None
  }

  /** Why to ban a player with these guesses, newest first; one pass adds everything up. */
  method AutoCheatBanReason(events: seq<Event>) returns (reason: Option<BanReason>)
    ensures reason == Verdict(events)
  {
    if |events| < 10 {
      return None;
    }
    var evidence10, evidence20 := 0.0, 0.0;
    var fast4950In10, fast4900In20, high := 0, 0, 0;
    for i := 0 to |events|
      invariant evidence10 == EvidenceSum(First(events[..i])) && evidence20 == EvidenceSum(events[..i])
      invariant fast4950In10 == Count(First(events[..i]), FastAbove(4950))
      invariant fast4900In20 == Count(events[..i], FastAbove(4900))
      invariant high == Count(events[..i], Extreme())
    {
      var item := events[i];
      assert events[..i + 1][..i] == events[..i];
      assert First(events[..i + 1]) == if i < 10 then events[..i + 1] else First(events[..i]);
      if i < 10 {
        evidence10 := evidence10 + item.evidence;
        if item.score >= 4950 && item.ms <= 10000 {
          fast4950In10 := fast4950In10 + 1;
        }
      }
      evidence20 := evidence20 + item.evidence;
      if item.score >= 4900 && item.ms <= 10000 {
        fast4900In20 := fast4900In20 + 1;
      }
      if item.evidence >= 8.0 {
        high := high + 1;
      }
    }
    assert events[..|events|] == events;
    if evidence10 >= 18.0 {
      return Some(Evidence10);
    } else if |events| >= RECENT && evidence20 >= 28.0 {
      return Some(Evidence20);
    } else if high >= 3 {
      return Some(RepeatedExtreme);
    } else if fast4950In10 >= 5 {
      return Some(FiveOfTen);
    } else if |events| >= RECENT && fast4900In20 >= 19 {
      return Some(NineteenOfTwenty);
    } else {
      return None;
    }
  }

  // ----- monotonicity ---------------------------------------------------------------------

  /** As recorded: the evidence is that of the score and the time. */
  predicate Genuine(e: Event) {
    e.evidence == GuessEvidence(e.score, e.ms)
  }

  /** Scores no less, takes no longer, and does take some time if the other did. */
  predicate AsStrong(e: Event, f: Event) {
    f.score >= e.score && f.ms <= e.ms && (e.ms > 0 ==> f.ms > 0)
  }

  ghost predicate AllAsStrong(events: seq<Event>, others: seq<Event>) {
    && |events| == |others|
    && forall i | 0 <= i < |events| :: Genuine(events[i]) && Genuine(others[i]) && AsStrong(events[i], others[i])
  }

  lemma StrongerEvidence(e: Event, f: Event)
    requires Genuine(e) && Genuine(f) && AsStrong(e, f)
    ensures e.evidence <= f.evidence
  {
    hide GuessEvidence;
    if e.ms > 0 {
      EvidenceGrows(e.score, e.ms, f.score, f.ms);
    } else {
      NoTimeNoEvidence(e.score, e.ms);
      NoTimeNoEvidence(f.score, f.ms);
    }
  }

  lemma NoTimeNoEvidence(score: int, ms: int)
    requires ms <= 0
    ensures GuessEvidence(score, ms) == 0.0
  {
  }

  lemma {:induction false} SumsGrow(events: seq<Event>, others: seq<Event>)
    requires AllAsStrong(events, others)
    ensures EvidenceSum(events) <= EvidenceSum(others)
    ensures Count(events, Extreme()) <= Count(others, Extreme())
    ensures forall s :: Count(events, FastAbove(s)) <= Count(others, FastAbove(s))
  {
    hide Genuine;
    if events != [] {
      var n := |events| - 1;
      SumsGrow(events[..n], others[..n]);
      StrongerEvidence(events[n], others[n]);
    }
  }

  /** Making recent guesses stronger never lifts a ban. */
  lemma BanIsMonotone(events: seq<Event>, others: seq<Event>)
    requires AllAsStrong(events, others)
    ensures Verdict(events).Some? ==> Verdict(others).Some?
  {
    hide Genuine, EvidenceSum, Count, FastAbove, Extreme;
    SumsGrow(events, others);
    SumsGrow(First(events), First(others));
  }

  // ----- the tiers, guess by guess -----------------------------------------------------------

  ghost function Where(events: seq<Event>, n: nat, p: Event -> bool): set<int>
    requires n <= |events|
  {
    set i | 0 <= i < n && p(events[i])
  }

  lemma {:induction false} CountIsWhere(events: seq<Event>, p: Event -> bool)
    ensures Count(events, p) == |Where(events, |events|, p)|
  {
    if events != [] {
      var n := |events| - 1;
      CountIsWhere(events[..n], p);
      var before, all := Where(events[..n], n, p), Where(events, n + 1, p);
      assert before == Where(events, n, p);
      assert all == if p(events[n]) then before + {n} else before;
    }
  }

  lemma FirstWhere(events: seq<Event>, p: Event -> bool)
    requires |events| >= 10
    ensures Count(First(events), p) == |set i | 0 <= i < 10 && p(events[i])|
  {
    CountIsWhere(First(events), p);
    assert Where(First(events), |First(events)|, p) == set i | 0 <= i < 10 && p(events[i]);
  }

  /** The tiers in order: which of them a player's guesses meet, counted over the guesses themselves. */
  lemma TiersExactly(events: seq<Event>)
    ensures var n := |events|;
            var extreme := |set i | 0 <= i < n && events[i].evidence >= 8.0|;
            var fast := |set i | 0 <= i < n && events[i].score >= 4900 && events[i].ms <= 10000|;
            var fastFirst := |set i | 0 <= i < n && i < 10 && events[i].score >= 4950 && events[i].ms <= 10000|;
            var one := n >= 10 && EvidenceSum(events[..10]) >= 18.0;
            var two := n >= 20 && EvidenceSum(events) >= 28.0;
            var three, four, five := n >= 10 && extreme >= 3, n >= 10 && fastFirst >= 5, n >= 20 && fast >= 19;
            && (Verdict(events) == Some(Evidence10) <==> one)
            && (Verdict(events) == Some(Evidence20) <==> two && !one)
            && (Verdict(events) == Some(RepeatedExtreme) <==> three && !one && !two)
            && (Verdict(events) == Some(FiveOfTen) <==> four && !one && !two && !three)
            && (Verdict(events) == Some(NineteenOfTwenty) <==> five && !one && !two && !three && !four)
            && (Verdict(events).Some? <==> one || two || three || four || five)
  {
    hide EvidenceSum, Count;
    var n := |events|;
    CountIsWhere(events, Extreme());
    CountIsWhere(events, FastAbove(4900));
    assert Where(events, n, Extreme()) == set i | 0 <= i < n && events[i].evidence >= 8.0;
    assert Where(events, n, FastAbove(4900)) == set i | 0 <= i < n && events[i].score >= 4900 && events[i].ms <= 10000;
    if n >= 10 {
      FirstWhere(events, FastAbove(4950));
      assert (set i | 0 <= i < 10 && FastAbove(4950)(events[i])) == set i | 0 <= i < n && i < 10 && events[i].score >= 4950 && events[i].ms <= 10000;
      assert First(events) == events[..10];
    }
  }
}
