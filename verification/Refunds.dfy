/**
 * Refunds to the victims of a cheater: for every match a victim lost to the
 * cheater, the points a win would have earned, at most the points lost.
 */
module Refunds {
  import opened Common
  import opened Rating

  datatype Row = Row(matchId: string, victim: string, cheaterMmr: int, cheaterRd: real, originalDelta: int)
  datatype Key = Key(user: string, matchId: string, cheater: string)
  datatype Refund = Refund(originalDelta: int, amount: int, before: int, after: int)
  datatype Summary = Summary(issued: nat, total: int)

  /** The rows the refunds read and write: rank rows of the season, and refunds already made. */
  datatype Books = Books(ranks: map<string, Standing>, refunds: map<Key, Refund>)

  /** A refund made, as the run made it. */
  datatype Entry = Entry(key: Key, refund: Refund)

  /** A row, with the clock reading its turn in the loop takes. */
  datatype Turn = Turn(row: Row, now: int)

  // ----- one candidate ------------------------------------------------------------

  /** The points a win against the cheater would earn the victim now. */
  function Gain(k: Glicko, s: Standing, t: Turn): int
    requires IsGlicko(k)
  {
    CalculateDuelUpdates(k, s, Standing(t.row.cheaterMmr, t.row.cheaterRd, Some(t.now)), FirstWins, t.now).0.delta
  }

  function KeyOf(cheater: string, r: Row): Key {
    Key(r.victim, r.matchId, cheater)
  }

  function RefundFor(k: Glicko, s: Standing, t: Turn): Refund
    requires IsGlicko(k)
  {
    var after := ClampMmr(s.mmr + Min(Gain(k, s, t), -t.row.originalDelta));
    Refund(t.row.originalDelta, after - s.mmr, s.mmr, after)
  }

  /** Nothing is refunded: no loss, no rank row, nothing to gain, or refunded before. */
  predicate Skips(k: Glicko, b: Books, cheater: string, t: Turn)
    requires IsGlicko(k)
  {
    || t.row.originalDelta >= 0
    || t.row.victim !in b.ranks
    || Gain(k, b.ranks[t.row.victim], t) <= 0
    || RefundFor(k, b.ranks[t.row.victim], t).amount <= 0
    || KeyOf(cheater, t.row) in b.refunds
  }

  function Made(k: Glicko, b: Books, cheater: string, t: Turn): Entry
    requires IsGlicko(k) && !Skips(k, b, cheater, t)
  {
    Entry(KeyOf(cheater, t.row), RefundFor(k, b.ranks[t.row.victim], t))
  }

  function Enter(b: Books, e: Entry, txNow: int): Books
    requires e.key.user in b.ranks
  {
    Books(b.ranks[e.key.user := b.ranks[e.key.user].(mmr := e.refund.after, updatedAt := Some(txNow))],
          b.refunds[e.key := e.refund])
  }

  // ----- a run --------------------------------------------------------------------

  /** The books after a run, and the refunds it made, in order. */
  function Run(k: Glicko, b: Books, cheater: string, turns: seq<Turn>, txNow: int): (Books, seq<Entry>)
    requires IsGlicko(k)
  {
    if turns == [] then (b, [])
    else
      var (done, log) := Run(k, b, cheater, turns[..|turns| - 1], txNow);
      var t := turns[|turns| - 1];
      if Skips(k, done, cheater, t) then (done, log)
      else (Enter(done, Made(k, done, cheater, t), txNow), log + [Made(k, done, cheater, t)])
  }

  function Total(log: seq<Entry>): int {
    if log == [] then 0 else Total(log[..|log| - 1]) + log[|log| - 1].refund.amount
  }

  /** What one user got back. */
  function Received(log: seq<Entry>, user: string): int {
    if log == [] then 0
    else
      var e := log[|log| - 1];
      Received(log[..|log| - 1], user) + if e.key.user == user then e.refund.amount else 0
  }

  class Ledger {
    const k: Glicko
    var ranks: map<string, Standing>
    var refunds: map<Key, Refund>

    function Data(): Books
      reads this
    {
      Books(ranks, refunds)
    }

    ghost predicate Valid() {
      IsGlicko(k)
    }

    constructor (k: Glicko, ranks: map<string, Standing>, refunds: map<Key, Refund>)
      requires IsGlicko(k)
      ensures Valid() && Data() == Books(ranks, refunds) && this.k == k
    {
      this.k, this.ranks, this.refunds := k, ranks, refunds;
    }

    /** One candidate's turn: how much it was refunded, zero if skipped. */
    method RefundOne(cheater: string, t: Turn, txNow: int) returns (amount: int)
      requires Valid() && t.row.originalDelta < 0
      modifies this
      ensures var b := old(Data());
              if Skips(k, b, cheater, t) then Data() == b && amount == 0
              else Data() == Enter(b, Made(k, b, cheater, t), txNow) && amount == Made(k, b, cheater, t).refund.amount > 0
    {
      hide CalculateDuelUpdates;
      var u := t.row.victim;
      if u !in ranks {
        return 0;
      }
      var current := ranks[u];
      var (win, _) := CalculateDuelUpdates(k, current, Standing(t.row.cheaterMmr, t.row.cheaterRd, Some(t.now)), FirstWins, t.now);
      var delta := win.delta;
      if delta <= 0 {
        return 0;
      }
      var loss := -t.row.originalDelta;
      if delta > loss {
        delta := loss;
      }
      var before := current.mmr;
      var after := ClampMmr(before + delta);
      delta := after - before;
      if delta <= 0 {
        return 0;
      }
      var key := Key(u, t.row.matchId, cheater);
      if key in refunds {
        return 0;
      }
      refunds := refunds[key := Refund(t.row.originalDelta, delta, before, after)];
      ranks := ranks[u := current.(mmr := after, updatedAt := Some(txNow))];
      return delta;
    }

    method IssueRefunds(cheater: string, turns: seq<Turn>, txNow: int) returns (summary: Summary)
      requires Valid()
      modifies this
      ensures var (b, log) := Run(k, old(Data()), cheater, turns, txNow);
              Data() == b && summary == Summary(|log|, Total(log))
    {
      hide Skips, Made, Enter;
      ghost var b0 := Data();
      summary := Summary(0, 0);
      for i := 0 to |turns|
        invariant var (b, log) := Run(k, b0, cheater, turns[..i], txNow);
                  Data() == b && summary == Summary(|log|, Total(log))
      {
        assert turns[..i + 1][..i] == turns[..i];
        var t := turns[i];
        LossNeeded(k, Data(), cheater, t);
        if t.row.originalDelta < 0 {
          var amount := RefundOne(cheater, t, txNow);
          TotalOneMore(Run(k, b0, cheater, turns[..i], txNow).1, Run(k, b0, cheater, turns[..i + 1], txNow).1);
          if amount > 0 {
            summary := Summary(summary.issued + 1, summary.total + amount);
          }
        }
      }
      assert turns[..|turns|] == turns;
    }
  }

  lemma LossNeeded(k: Glicko, b: Books, cheater: string, t: Turn)
    requires IsGlicko(k)
    ensures t.row.originalDelta >= 0 ==> Skips(k, b, cheater, t)
  {
  }

  lemma TotalOneMore(log: seq<Entry>, more: seq<Entry>)
    ensures forall e :: more == log + [e] ==> Total(more) == Total(log) + e.refund.amount
  {
    forall e | more == log + [e] ensures Total(more) == Total(log) + e.refund.amount {
      assert more[..|more| - 1] == log;
    }
  }

  // ----- what a refund is worth ------------------------------------------------------

  ghost predicate AtFloor(ranks: map<string, Standing>) {
    forall u <- ranks :: ranks[u].mmr >= FLOOR
  }

  lemma GainBounds(k: Glicko, s: Standing, t: Turn)
    requires IsGlicko(k) && s.mmr >= FLOOR
    ensures 0 <= Gain(k, s, t) <= CAP
  {
    hide NextRating, Forgive;
    var rd1, rd2 := InflateRD(k, s.rd, s.updatedAt, t.now), InflateRD(k, t.row.cheaterRd, Some(t.now), t.now);
    NextBounds(k, s, t.row.cheaterMmr, rd1, rd2, 1.0);
  }

  /** The gain is that of the victim's own win, from where the victim stands now, over the cheater as of that match. */
  lemma GainIsTheWin(k: Glicko, s: Standing, t: Turn)
    requires IsGlicko(k)
    ensures Gain(k, s, t) == Next(k, s, t.row.cheaterMmr, InflateRD(k, s.rd, s.updatedAt, t.now), ClampRD(t.row.cheaterRd), 1.0).delta
  {
    hide Next;
  }

  /** From the floor up a refund is positive, and at most the loss and the cap; it is skipped only for lack of gain. */
  lemma RefundBounds(k: Glicko, s: Standing, t: Turn)
    requires IsGlicko(k) && s.mmr >= FLOOR && t.row.originalDelta < 0
    ensures var r := RefundFor(k, s, t);
            && r.amount == Min(Gain(k, s, t), -t.row.originalDelta) <= Min(CAP, -t.row.originalDelta)
            && r.before == s.mmr && r.after == s.mmr + r.amount
            && (r.amount <= 0 <==> Gain(k, s, t) <= 0)
  {
    hide Gain;
    GainBounds(k, s, t);
  }

  // ----- what a run leaves in the books ------------------------------------------------

  ghost predicate Honest(e: Entry, cheater: string) {
    && e.key.cheater == cheater
    && 0 < e.refund.amount <= Min(CAP, -e.refund.originalDelta)
    && e.refund.after == e.refund.before + e.refund.amount
  }

  /** Each refund is recorded under its own key, which was free before. */
  ghost predicate Recorded(b: Books, done: Books, log: seq<Entry>) {
    && (forall key <- b.refunds :: key in done.refunds && done.refunds[key] == b.refunds[key])
    && (forall e <- log :: e.key !in b.refunds && e.key in done.refunds && done.refunds[e.key] == e.refund)
    && (forall key <- done.refunds :: key in b.refunds || exists e <- log :: e.key == key)
    && forall i, j | 0 <= i < j < |log| :: log[i].key != log[j].key
  }

  ghost predicate Paid(b: Books, done: Books, log: seq<Entry>) {
    && done.ranks.Keys == b.ranks.Keys
    && forall u <- b.ranks :: done.ranks[u].mmr == b.ranks[u].mmr + Received(log, u) && done.ranks[u].rd == b.ranks[u].rd
  }

  lemma MadeHonest(k: Glicko, b: Books, cheater: string, t: Turn)
    requires IsGlicko(k) && AtFloor(b.ranks) && !Skips(k, b, cheater, t)
    ensures var e := Made(k, b, cheater, t);
            && e.key.user in b.ranks && e.key !in b.refunds && Honest(e, cheater)
            && e.refund.before == b.ranks[e.key.user].mmr
  {
    hide Gain;
    RefundBounds(k, b.ranks[t.row.victim], t);
  }

  lemma EnterRecords(b: Books, done: Books, log: seq<Entry>, e: Entry, txNow: int)
    requires Recorded(b, done, log) && e.key.user in done.ranks && e.key !in done.refunds
    ensures Recorded(b, Enter(done, e, txNow), log + [e])
  {
    var r, more := Enter(done, e, txNow), log + [e];
    assert forall x <- log :: x in more && x.key != e.key;
    assert e in more;
    forall key <- r.refunds | key !in b.refunds ensures exists x <- more :: x.key == key {
      if key != e.key {
        var x :| x in log && x.key == key;
        assert x in more;
      }
    }
    forall i, j | 0 <= i < j < |more| ensures more[i].key != more[j].key {
      assert log[i] in log;
    }
  }

  lemma EnterPays(b: Books, done: Books, log: seq<Entry>, cheater: string, e: Entry, txNow: int)
    requires AtFloor(done.ranks) && Paid(b, done, log)
    requires e.key.user in done.ranks && Honest(e, cheater) && e.refund.before == done.ranks[e.key.user].mmr
    ensures AtFloor(Enter(done, e, txNow).ranks) && Paid(b, Enter(done, e, txNow), log + [e])
  {
    assert (log + [e])[..|log|] == log;
    forall u <- b.ranks ensures Received(log + [e], u) == Received(log, u) + if e.key.user == u then e.refund.amount else 0 {
    }
  }

  /**
   * Every refund of a run is positive and at most the loss and the cap, is
   * recorded once, and raises its victim's rating by just its amount.
   */
  lemma {:induction false} RunPays(k: Glicko, b: Books, cheater: string, turns: seq<Turn>, txNow: int)
    requires IsGlicko(k) && AtFloor(b.ranks)
    ensures var (done, log) := Run(k, b, cheater, turns, txNow);
            && AtFloor(done.ranks) && Recorded(b, done, log) && Paid(b, done, log)
            && forall e <- log :: Honest(e, cheater)
  {
    hide Skips, Made, Enter, AtFloor, Recorded, Paid, Honest;
    if turns == [] {
      NothingPaid(b);
    } else {
      var before, t := turns[..|turns| - 1], turns[|turns| - 1];
      RunPays(k, b, cheater, before, txNow);
      var (done, log) := Run(k, b, cheater, before, txNow);
      if !Skips(k, done, cheater, t) {
        MadeHonest(k, done, cheater, t);
        EnterRecords(b, done, log, Made(k, done, cheater, t), txNow);
        EnterPays(b, done, log, cheater, Made(k, done, cheater, t), txNow);
      }
    }
  }

  lemma NothingPaid(b: Books)
    ensures Recorded(b, b, []) && Paid(b, b, [])
  {
  }

  // ----- nobody is passed over ------------------------------------------------------------

  /** Refunds are kept apart by victim and match. */
  lemma KeysDiffer(cheater: string, r: Row, s: Row)
    ensures KeyOf(cheater, r) == KeyOf(cheater, s) <==> r.victim == s.victim && r.matchId == s.matchId
  {
  }

  lemma {:induction false} RunFrom(k: Glicko, b: Books, cheater: string, turns: seq<Turn>, txNow: int, i: nat)
    requires IsGlicko(k) && i <= |turns|
    ensures var (mid, log) := Run(k, b, cheater, turns[..i], txNow);
            var (done, all) := Run(k, b, cheater, turns, txNow);
            log <= all && forall key <- mid.refunds :: key in done.refunds
  {
    hide Skips, Made;
    if i == |turns| {
      assert turns[..i] == turns;
    } else {
      var before := turns[..|turns| - 1];
      assert before[..i] == turns[..i];
      RunFrom(k, b, cheater, before, txNow, i);
    }
  }

  lemma TurnPays(k: Glicko, b: Books, cheater: string, t: Turn)
    requires IsGlicko(k) && AtFloor(b.ranks) && t.row.originalDelta < 0 && t.row.victim in b.ranks && Gain(k, b.ranks[t.row.victim], t) > 0
    ensures Skips(k, b, cheater, t) <==> KeyOf(cheater, t.row) in b.refunds
    ensures !Skips(k, b, cheater, t) ==>
              var e, s := Made(k, b, cheater, t), b.ranks[t.row.victim];
              && e.key == KeyOf(cheater, t.row) && e.refund.originalDelta == t.row.originalDelta
              && e.refund.amount == Min(Gain(k, s, t), -t.row.originalDelta)
              && e.refund.before == s.mmr && e.refund.after == s.mmr + e.refund.amount
  {
    hide Gain;
    RefundBounds(k, b.ranks[t.row.victim], t);
  }

  /**
   * Every loss in the rows whose victim is ranked, and would gain from a win
   * at its turn, is on record afterwards. If it was not before its turn, the
   * run made that very refund: the gain, or the loss if that is less.
   */
  lemma RunPaysEveryone(k: Glicko, b: Books, cheater: string, turns: seq<Turn>, txNow: int, i: nat)
    requires IsGlicko(k) && AtFloor(b.ranks) && i < |turns| && turns[i].row.originalDelta < 0
    ensures var t := turns[i];
            var (mid, so) := Run(k, b, cheater, turns[..i], txNow);
            var (done, log) := Run(k, b, cheater, turns, txNow);
            t.row.victim in mid.ranks && Gain(k, mid.ranks[t.row.victim], t) > 0 ==>
              && KeyOf(cheater, t.row) in done.refunds
              && (KeyOf(cheater, t.row) !in mid.refunds ==>
                    && |so| < |log| && log[|so|].key == KeyOf(cheater, t.row)
                    && log[|so|].refund.originalDelta == t.row.originalDelta
                    && log[|so|].refund.amount == Min(Gain(k, mid.ranks[t.row.victim], t), -t.row.originalDelta)
                    && log[|so|].refund.before == mid.ranks[t.row.victim].mmr)
  {
    hide Skips, Made, Gain, AtFloor, Recorded, Paid;
    var t := turns[i];
    var upto := turns[..i + 1];
    assert upto[..i] == turns[..i];
    RunPays(k, b, cheater, turns[..i], txNow);
    RunFrom(k, b, cheater, turns, txNow, i);
    RunFrom(k, b, cheater, turns, txNow, i + 1);
    var mid := Run(k, b, cheater, turns[..i], txNow).0;
    if t.row.victim in mid.ranks && Gain(k, mid.ranks[t.row.victim], t) > 0 {
      TurnPays(k, mid, cheater, t);
    }
  }

  /** Exactly one refund is made under a key that was free and is taken afterwards. */
  lemma OneEntryEach(k: Glicko, b: Books, cheater: string, turns: seq<Turn>, txNow: int, key: Key)
    requires IsGlicko(k) && AtFloor(b.ranks) && key !in b.refunds
    ensures var (done, log) := Run(k, b, cheater, turns, txNow);
            key in done.refunds <==> exists i :: 0 <= i < |log| && log[i].key == key
    ensures var log := Run(k, b, cheater, turns, txNow).1;
            forall i, j | 0 <= i < j < |log| :: !(log[i].key == key && log[j].key == key)
  {
    hide AtFloor, Paid, Honest, Run;
    RunPays(k, b, cheater, turns, txNow);
    var (done, log) := Run(k, b, cheater, turns, txNow);
    if key in done.refunds {
      var e :| e in log && e.key == key;
    }
    forall i | 0 <= i < |log| && log[i].key == key ensures key in done.refunds {
      assert log[i] in log;
    }
  }

  /** Two different victims who each lost one match are both paid. */
  lemma BothPaid(k: Glicko, b: Books, cheater: string, first: Turn, second: Turn, txNow: int)
    requires IsGlicko(k) && AtFloor(b.ranks) && first.row.originalDelta < 0 && second.row.originalDelta < 0
    requires first.row.victim != second.row.victim && first.row.victim in b.ranks && second.row.victim in b.ranks
    requires KeyOf(cheater, first.row) !in b.refunds && KeyOf(cheater, second.row) !in b.refunds
    ensures Gain(k, b.ranks[first.row.victim], first) > 0 && Gain(k, b.ranks[second.row.victim], second) > 0 ==>
              var (done, log) := Run(k, b, cheater, [first, second], txNow);
              |log| == 2 && KeyOf(cheater, first.row) in done.refunds && KeyOf(cheater, second.row) in done.refunds
  {
    hide Gain, Skips, Made;
    var turns := [first, second];
    var one := [first];
    assert one[..|one| - 1] == [] && turns[..|turns| - 1] == one;
    assert Run(k, b, cheater, [], txNow) == (b, []);
    if Gain(k, b.ranks[first.row.victim], first) > 0 && Gain(k, b.ranks[second.row.victim], second) > 0 {
      TurnPays(k, b, cheater, first);
      var mid := Run(k, b, cheater, one, txNow).0;
      assert mid == Enter(b, Made(k, b, cheater, first), txNow);
      MadeHonest(k, b, cheater, first);
      RunPays(k, b, cheater, one, txNow);
      TurnPays(k, mid, cheater, second);
    }
  }

  /** A refund restarts the clock of its victim's deviation, and of nobody else's. */
  lemma {:induction false} RunStamps(k: Glicko, b: Books, cheater: string, turns: seq<Turn>, txNow: int, u: string)
    requires IsGlicko(k) && u in b.ranks
    ensures var (done, log) := Run(k, b, cheater, turns, txNow);
            && u in done.ranks
            && done.ranks[u].updatedAt == if exists e <- log :: e.key.user == u then Some(txNow) else b.ranks[u].updatedAt
  {
    hide Skips, Gain;
    if turns != [] {
      var before, t := turns[..|turns| - 1], turns[|turns| - 1];
      RunStamps(k, b, cheater, before, txNow, u);
      var (done, log) := Run(k, b, cheater, before, txNow);
      if !Skips(k, done, cheater, t) {
        var e := Made(k, done, cheater, t);
        assert forall x :: x in log + [e] <==> x in log || x == e;
      }
    }
  }

  // ----- conservation -----------------------------------------------------------------

  ghost function MmrSum(ranks: map<string, Standing>): int {
    if ranks == map[] then 0
    else
      var u :| u in ranks;
      ranks[u].mmr + MmrSum(ranks - {u})
  }

  lemma {:induction false} MmrSumWithout(ranks: map<string, Standing>, u: string)
    requires u in ranks
    ensures MmrSum(ranks) == ranks[u].mmr + MmrSum(ranks - {u})
  {
    var v :| v in ranks && MmrSum(ranks) == ranks[v].mmr + MmrSum(ranks - {v});
    if v != u {
      MmrSumWithout(ranks - {v}, u);
      MmrSumWithout(ranks - {u}, v);
      assert ranks - {v} - {u} == ranks - {u} - {v};
    }
  }

  lemma EnterAdds(b: Books, e: Entry, txNow: int)
    requires e.key.user in b.ranks && e.refund.after == b.ranks[e.key.user].mmr + e.refund.amount
    ensures MmrSum(Enter(b, e, txNow).ranks) == MmrSum(b.ranks) + e.refund.amount
  {
    var u, r := e.key.user, Enter(b, e, txNow).ranks;
    MmrSumWithout(b.ranks, u);
    MmrSumWithout(r, u);
    assert r - {u} == b.ranks - {u};
  }

  /** All ratings together rise by exactly the total refunded. */
  lemma {:induction false} RunConserves(k: Glicko, b: Books, cheater: string, turns: seq<Turn>, txNow: int)
    requires IsGlicko(k) && AtFloor(b.ranks)
    ensures var (done, log) := Run(k, b, cheater, turns, txNow); MmrSum(done.ranks) == MmrSum(b.ranks) + Total(log)
  {
    hide Skips, Made, Enter, AtFloor, Recorded, Paid, MmrSum;
    if turns != [] {
      var before, t := turns[..|turns| - 1], turns[|turns| - 1];
      RunConserves(k, b, cheater, before, txNow);
      RunPays(k, b, cheater, before, txNow);
      var (done, log) := Run(k, b, cheater, before, txNow);
      if !Skips(k, done, cheater, t) {
        var e := Made(k, done, cheater, t);
        MadeHonest(k, done, cheater, t);
        EnterAdds(done, e, txNow);
        TotalOneMore(log, log + [e]);
      }
    }
  }

  // ----- a second run -------------------------------------------------------------------

  /** A run makes no refund exactly when it skips every row as the books stand. */
  lemma {:induction false} IdleExactly(k: Glicko, b: Books, cheater: string, turns: seq<Turn>, txNow: int)
    requires IsGlicko(k)
    ensures Run(k, b, cheater, turns, txNow).1 == [] <==> forall t <- turns :: Skips(k, b, cheater, t)
    ensures Run(k, b, cheater, turns, txNow).1 == [] ==> Run(k, b, cheater, turns, txNow).0 == b
  {
    hide Skips, Made, Enter;
    if turns != [] {
      var before, t := turns[..|turns| - 1], turns[|turns| - 1];
      IdleExactly(k, b, cheater, before, txNow);
      assert turns == before + [t];
    }
  }

  /** No match is refunded twice to the same victim, whatever happened to the ranks in between. */
  lemma NothingTwice(k: Glicko, b: Books, cheater: string, first: seq<Turn>, tx1: int, later: Books, second: seq<Turn>, tx2: int)
    requires IsGlicko(k) && AtFloor(b.ranks) && AtFloor(later.ranks)
    requires Run(k, b, cheater, first, tx1).0.refunds.Keys <= later.refunds.Keys
    ensures var log1, log2 := Run(k, b, cheater, first, tx1).1, Run(k, later, cheater, second, tx2).1;
            forall e <- log1, f <- log2 :: e.key != f.key
  {
    hide AtFloor, Paid, Honest;
    RunPays(k, b, cheater, first, tx1);
    RunPays(k, later, cheater, second, tx2);
  }

  /**
   * A second run over the books the first one left makes no refund exactly
   * when every loss in its rows is refunded already, has no rank row, or
   * would gain nothing now.
   */
  lemma SecondRunExactly(k: Glicko, b: Books, cheater: string, first: seq<Turn>, tx1: int, second: seq<Turn>, tx2: int)
    requires IsGlicko(k) && AtFloor(b.ranks)
    ensures var (done, log) := Run(k, b, cheater, first, tx1);
            Run(k, done, cheater, second, tx2).1 == [] <==>
              forall t <- second | t.row.originalDelta < 0 && KeyOf(cheater, t.row) !in done.refunds ::
                t.row.victim in done.ranks ==> Gain(k, done.ranks[t.row.victim], t) <= 0
    ensures var (done, log) := Run(k, b, cheater, first, tx1);
            forall e <- log :: e.key in done.refunds
  {
    hide Gain, Paid, Recorded;
    RunPays(k, b, cheater, first, tx1);
    var (done, log) := Run(k, b, cheater, first, tx1);
    IdleExactly(k, done, cheater, second, tx2);
    forall t <- second | t.row.originalDelta < 0 && t.row.victim in done.ranks
      ensures RefundFor(k, done.ranks[t.row.victim], t).amount <= 0 <==> Gain(k, done.ranks[t.row.victim], t) <= 0
    {
      RefundBounds(k, done.ranks[t.row.victim], t);
    }
    RecordedLog(b, done, log);
  }

  lemma RecordedLog(b: Books, done: Books, log: seq<Entry>)
    requires Recorded(b, done, log)
    ensures forall e <- log :: e.key in done.refunds
  {
  }

  /** A loss still open is refunded exactly when its win would gain something. */
  lemma OpenLossPays(k: Glicko, b: Books, cheater: string, t: Turn, tx: int)
    requires IsGlicko(k) && AtFloor(b.ranks) && t.row.originalDelta < 0 && t.row.victim in b.ranks && KeyOf(cheater, t.row) !in b.refunds
    ensures Gain(k, b.ranks[t.row.victim], t) <= 0 <==> Run(k, b, cheater, [t], tx).1 == []
    ensures Gain(k, b.ranks[t.row.victim], t) <= 0 ==> Run(k, b, cheater, [t], tx).0 == b
  {
    hide Gain;
    RefundBounds(k, b.ranks[t.row.victim], t);
    assert t in [t];
    IdleExactly(k, b, cheater, [t], tx);
  }

  // ----- a year later ---------------------------------------------------------------------

  const YEAR := 365 * DAY

  /** A year without a game takes the deviation from its least to its greatest. */
  lemma YearOfDoubt(k: Glicko, since: int)
    requires IsGlicko(k)
    ensures InflateRD(k, MIN_RD, Some(since), since) == MIN_RD
    ensures InflateRD(k, MIN_RD, Some(since), since + YEAR) == MAX_RD
  {
    assert (YEAR as real) / (DAY as real) == 365.0;
    assert Product(MIN_RD, MIN_RD) + Doubt(YEAR) == 48400.0 == Product(MAX_RD, MAX_RD);
    SqrtOrder(k.sqrt, 48400.0, MAX_RD);
  }

  /** The step of a strong favourite's win, sharp and blurred. */
  lemma FavouriteSteps(k: Glicko)
    requires NearGlicko(k) && 0.9925 <= k.expected(1400, 500, MIN_RD) <= 0.9926
    ensures 1400.0 < NextRating(k, 1400, MIN_RD, 500, MIN_RD, 1.0) < 1400.5
    ensures NextRating(k, 1400, MAX_RD, 500, MIN_RD, 1.0) > 1401.0
  {
    var e := k.expected(1400, 500, MIN_RD);
    var info := Information(k.q, k.g(MIN_RD), e);
    InformationAbout(k.q, k.g(MIN_RD), e, 0.0075);
    assert Product(MIN_RD, MIN_RD) == 12100.0 && Product(MAX_RD, MAX_RD) == 48400.0;
    hide Information, Product;
    SharpenedAtLeast(48400.0, info, 40000.0);
    StepAbout(k.q, Variance(MIN_RD, info), k.g(MIN_RD), 1.0 - e, 0.0, 12100.0, 0.0074, 0.0075);
    StepAbout(k.q, Variance(MAX_RD, info), k.g(MIN_RD), 1.0 - e, 40000.0, 48400.0, 0.0074, 0.0075);
    NextRatingMoves(k, 1400, MIN_RD, 500, MIN_RD, 1.0);
  }

  /**
   * A second run can pay. A victim at 1400, just played, gains nothing from a
   * win over a cheater at 500; a year later, with nothing else changed, the
   * same row is refunded.
   */
  lemma LaterRefund(k: Glicko, cheater: string, loss: int, now: int, tx: int)
    requires NearGlicko(k) && 0.9925 <= k.expected(1400, 500, MIN_RD) <= 0.9926 && loss > 0
    ensures var b := Books(map["victim" := Standing(1400, MIN_RD, Some(now))], map[]);
            var row := Row("match", "victim", 500, MIN_RD, -loss);
            && Run(k, b, cheater, [Turn(row, now)], tx) == (b, [])
            && Run(k, b, cheater, [Turn(row, now + YEAR)], tx).1 != []
  {
    var s, row := Standing(1400, MIN_RD, Some(now)), Row("match", "victim", 500, MIN_RD, -loss);
    var b := Books(map["victim" := s], map[]);
    assert Gain(k, s, Turn(row, now)) <= 0 < Gain(k, s, Turn(row, now + YEAR)) by {
      hide NextRating, InflateRD, NextRD;
      YearOfDoubt(k, now);
      FavouriteSteps(k);
      assert InflateRD(k, MIN_RD, Some(now + YEAR), now + YEAR) == MIN_RD by { YearOfDoubt(k, now + YEAR); }
    }
    OpenLossPays(k, b, cheater, Turn(row, now), tx);
    OpenLossPays(k, b, cheater, Turn(row, now + YEAR), tx);
  }
}
