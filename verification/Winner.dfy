/** Who won, by remaining HP: the snapshot's single pass, and the record's two-player rule. */
module Winner {
  import opened Common
  import opened SortedSets
  import opened DuelModel
  import opened DuelInvariant
  import opened DuelSafety
  import opened DuelLedger

  /** `u` has more HP than everybody else, and not less than none. */
  ghost predicate StrictlyAhead(hp: map<UserId, int>, u: UserId) {
    u in hp && hp[u] >= 0 && forall v <- hp | v != u :: hp[v] < hp[u]
  }

  /** Seen so far: the best HP, who reached it, and whether it was reached again. */
  ghost predicate Leading(hp: map<UserId, int>, seen: set<UserId>, winner: Option<UserId>, best: int, tie: bool) {
    && best >= -1
    && (forall v <- seen | v in hp :: hp[v] <= best)
    && match winner
       case None => best == -1 && (tie <==> exists v <- seen :: v in hp && hp[v] == -1)
       case Some(u) => u in seen && u in hp && hp[u] == best >= 0 && (tie <==> exists v <- seen :: v in hp && v != u && hp[v] == best)
  }

  /** One pass over the players, in whatever order, names the strict leader or nobody. */
  method SnapshotWinner(singleplayer: bool, hp: map<UserId, int>) returns (winner: Option<UserId>)
    ensures winner.Some? ==> !singleplayer && StrictlyAhead(hp, winner.value)
    ensures !singleplayer ==> forall u | StrictlyAhead(hp, u) :: winner == Some(u)
  {
    if singleplayer {
      return None;
    }
    winner := None;
    var best, tie := -1, false;
    var todo := hp.Keys;
    while todo != {}
      invariant todo <= hp.Keys && Leading(hp, hp.Keys - todo, winner, best, tie)
      decreases todo
    {
      var u :| u in todo;
      assert hp.Keys - (todo - {u}) == hp.Keys - todo + {u};
      if hp[u] > best {
        winner, best, tie := Some(u), hp[u], false;
      } else if hp[u] == best {
        tie := true;
      }
      todo := todo - {u};
    }
    assert hp.Keys - {} == hp.Keys;
    if tie {
      winner := None;
    }
    forall u | StrictlyAhead(hp, u) && winner.Some? ensures winner == Some(u) {
      OneLeader(hp, u, winner.value);
    }
  }

  /** The rating record's rule for two players, whichever of them comes first. */
  function RecordedWinner(u: UserId, hpU: int, v: UserId, hpV: int): Option<UserId> {
    if hpU > hpV then Some(u) else if hpV > hpU then Some(v) else None
  }

  lemma OneLeader(hp: map<UserId, int>, u: UserId, v: UserId)
    requires StrictlyAhead(hp, u) && StrictlyAhead(hp, v)
    ensures u == v
  {
  }

  /** On two players the two rules agree exactly when somebody has HP left or it is a draw. */
  lemma RulesAgree(u: UserId, hpU: int, v: UserId, hpV: int, winner: Option<UserId>)
    requires u != v
    requires var hp := map[u := hpU, v := hpV];
             (winner.Some? ==> StrictlyAhead(hp, winner.value)) && (winner.None? ==> forall w <- hp :: !StrictlyAhead(hp, w))
    ensures winner == RecordedWinner(u, hpU, v, hpV) <==> hpU >= 0 || hpV >= 0 || hpU == hpV
    ensures RecordedWinner(u, hpU, v, hpV) == RecordedWinner(v, hpV, u, hpU)
  {
    var hp := map[u := hpU, v := hpV];
    assert StrictlyAhead(hp, u) <==> hpU >= 0 && hpV < hpU;
    assert StrictlyAhead(hp, v) <==> hpV >= 0 && hpU < hpV;
  }

  /** A duel that a round ends early has a winner by either rule: the player left standing. */
  lemma EarlyEndNamesWinner(w: World, m: MatchData, now: int, u: UserId, v: UserId) returns (winner: UserId)
    requires Valid(m) && Playable(m) && m.mode == Duel && m.state == Live && m.index + 1 < MAX_ROUNDS
    requires u != v && m.players.Keys == {u, v}
    ensures var r := Resolved(w, m, now);
            var hp := Hps(r.players);
            && u in hp && v in hp
            && (r.state == Ended ==> StrictlyAhead(hp, winner) && RecordedWinner(u, hp[u], v, hp[v]) == Some(winner))
  {
    hide Resolved;
    OneStanding(w, m, now, u, v);
    ResolvedValid(w, m, now);
    HpNotNegative(Resolved(w, m, now));
    var hp := Hps(Resolved(w, m, now).players);
    assert hp.Keys == {u, v};
    winner := if hp[u] > hp[v] then u else v;
  }
}
