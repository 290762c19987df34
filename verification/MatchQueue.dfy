/**
 * One ranked queue: the Redis keys of one (pool, ruleset), and what each
 * atomic script or transaction does to them.
 */
module MatchQueue {
  import opened Common
  import opened SortedSets
  import opened Decimal

  const BASE_WINDOW := 150
  const EXPAND_EVERY_MS := 2000
  const EXPAND_STEP := 75
  const MAX_WINDOW := 500
  const MUTUAL_WAIT_MS := 1000

  datatype Pool = Guest | Registered
  datatype Ruleset = Moving | NMPZ
  datatype QueueKey = QueueKey(pool: Pool, ruleset: Ruleset)

  /** `serial` numbers the Join that wrote the ticket; the rest is the stored JSON. */
  datatype Ticket = Ticket(user: UserId, mmr: int, season: string, joinedAt: int, serial: nat)

  datatype MatchFound = MatchFound(id: string, ruleset: Ruleset, season: string, players: seq<UserId>, mmrs: map<UserId, int>)

  datatype Queue = Queue(
    members: map<UserId, int>,
    joined: map<UserId, int>,
    tickets: map<UserId, Ticket>,
    results: map<UserId, MatchFound>)

  /** What every step keeps: a live ticket is backed by both sorted sets. */
  ghost predicate Backed(q: Queue) {
    && (forall u <- q.tickets ::
          && q.tickets[u].user == u
          && u in q.members && q.members[u] == q.tickets[u].mmr
          && u in q.joined && q.joined[u] == q.tickets[u].joinedAt)
    && q.members.Keys <= q.joined.Keys
  }

  // ----- who may be paired -------------------------------------------------

  function Wait(q: Queue, u: UserId, now: int): int {
    if u in q.tickets then Max(0, now - q.tickets[u].joinedAt) else 0
  }

  /** The widening window after `wait` milliseconds. */
  function Window(wait: int): int
    requires wait >= 0
  {
    Min(MAX_WINDOW, BASE_WINDOW + wait / EXPAND_EVERY_MS * EXPAND_STEP)
  }

  lemma WindowWidens(w: int, v: int)
    requires 0 <= w <= v
    ensures Window(w) <= Window(v)
  {
    assert w / EXPAND_EVERY_MS <= v / EXPAND_EVERY_MS;
  }

  function Gap(q: Queue, mmr: int, c: UserId): int
    requires c in q.members
  {
    Abs(q.members[c] - mmr)
  }

  /** `c` may be paired with `self`, whose rating the matcher last read as `mmr`. */
  predicate Eligible(q: Queue, self: UserId, mmr: int, c: UserId, now: int) {
    && c != self
    && c in q.members && c in q.tickets
    && Wait(q, self, now) >= MUTUAL_WAIT_MS
    && Wait(q, c, now) >= MUTUAL_WAIT_MS
    && Gap(q, mmr, c) <= Window(Max(Wait(q, self, now), Wait(q, c, now)))
  }

  /** Smaller rating difference first; ties by scan order. */
  predicate Preferred(q: Queue, mmr: int, a: UserId, b: UserId)
    requires a in q.members && b in q.members
  {
    Gap(q, mmr, a) < Gap(q, mmr, b) || (Gap(q, mmr, a) == Gap(q, mmr, b) && ScanBefore(q.members, a, b))
  }

  /** The opponent the script must settle on, over the whole queue. */
  ghost predicate IsPick(q: Queue, self: UserId, mmr: int, now: int, pick: Option<UserId>) {
    match pick
    case None => forall c <- q.members :: !Eligible(q, self, mmr, c, now)
    case Some(b) =>
      && Eligible(q, self, mmr, b, now)
      && forall c <- q.members | Eligible(q, self, mmr, c, now) && c != b :: Preferred(q, mmr, b, c)
  }

  /** The specification leaves no choice: the pick is a function of the queue. */
  lemma PickUnique(q: Queue, self: UserId, mmr: int, now: int, p: Option<UserId>, r: Option<UserId>)
    requires IsPick(q, self, mmr, now, p) && IsPick(q, self, mmr, now, r)
    ensures p == r
  {
    if p.Some? && r.Some? && p != r {
      LexTotal(p.value, r.value);
    }
  }

  /** Two ticketed users who could be paired at `now`. */
  predicate PairAt(q: Queue, a: UserId, b: UserId, now: int) {
    a in q.tickets && Eligible(q, a, q.tickets[a].mmr, b, now)
  }

  lemma PairSymmetric(q: Queue, a: UserId, b: UserId, now: int)
    requires Backed(q) && PairAt(q, a, b, now)
    ensures PairAt(q, b, a, now)
  {
    assert Gap(q, q.tickets[a].mmr, b) == Gap(q, q.tickets[b].mmr, a);
  }

  /** Waiting longer never makes an admissible pair inadmissible, while both keep their tickets. */
  lemma PairStays(q: Queue, r: Queue, a: UserId, b: UserId, now: int, later: int)
    requires Backed(q) && Backed(r) && now <= later && a in r.tickets && b in r.tickets
    requires forall u <- r.tickets :: u in q.tickets && r.tickets[u] == q.tickets[u]
    ensures PairAt(q, a, b, now) ==> PairAt(r, a, b, later)
  {
    WindowWidens(Max(Wait(q, a, now), Wait(q, b, now)), Max(Wait(r, a, later), Wait(r, b, later)));
  }

  /** In numbers: both have waited a second, and their ratings are within 150, plus 75 for every two seconds of the longer wait, at most 500. */
  lemma PairAtExactly(q: Queue, a: UserId, b: UserId, now: int)
    requires Backed(q) && a in q.tickets && b in q.tickets && a != b
    ensures var waitA, waitB := now - q.tickets[a].joinedAt, now - q.tickets[b].joinedAt;
            var longer := if waitA > waitB then waitA else waitB;
            PairAt(q, a, b, now) <==>
              && waitA >= 1000 && waitB >= 1000
              && -500 <= q.tickets[a].mmr - q.tickets[b].mmr <= 500
              && (longer < 10_000 ==> var limit := 150 + 75 * (longer / 2000); -limit <= q.tickets[a].mmr - q.tickets[b].mmr <= limit)
  {
  }

  // ----- effects -----------------------------------------------------------

  function Unqueued(q: Queue, users: set<UserId>): Queue {
    q.(members := q.members - users, joined := q.joined - users, tickets := q.tickets - users)
  }

  function Left(q: Queue, u: UserId): Queue {
    Unqueued(q, {u}).(results := q.results - {u})
  }

  function WithTicket(q: Queue, t: Ticket): Queue {
    q.(members := q.members[t.user := t.mmr],
       joined := q.joined[t.user := t.joinedAt],
       tickets := q.tickets[t.user := t])
  }

  /** Ticketless candidates in range, which the script sweeps out of members. */
  function Stale(q: Queue, self: UserId, mmr: int): set<UserId> {
    set c | c in q.members && c != self && c !in q.tickets && Gap(q, mmr, c) <= MAX_WINDOW
  }

  /** The script's effect once `pick` is chosen, whatever state it started in. */
  function Scripted(q: Queue, self: UserId, mmr: int, pick: Option<UserId>): Queue {
    var swept := q.(members := q.members - Stale(q, self, mmr));
    match pick
    case None => swept
    case Some(b) =>
      if self in q.members && b in q.members
      then Unqueued(swept, {self, b})
      else swept.(members := swept.members - {self, b})
  }

  datatype Presence = Missing | Queueing | Matched

  function Beaten(q: Queue, u: UserId): (Queue, Presence) {
    if u in q.results then (q, Matched)
    else if u !in q.members then (q.(tickets := q.tickets - {u}, joined := q.joined - {u}), Missing)
    else if u !in q.tickets then (q.(members := q.members - {u}, joined := q.joined - {u}), Missing)
    else (q, Queueing)
  }

  /** A read that misses: the user leaves both sorted sets. */
  function Cleaned(q: Queue, u: UserId): Queue {
    q.(members := q.members - {u}, joined := q.joined - {u})
  }

  /** A match is named after the millisecond in which it was made. */
  function MatchId(stamp: int): string {
    "m-" + IntStr(stamp)
  }

  lemma MatchIdsDiffer(a: int, b: int)
    ensures MatchId(a) == MatchId(b) <==> a == b
  {
    assert IntStr(a) == MatchId(a)[2..] && IntStr(b) == MatchId(b)[2..];
    IntStrInjective(a, b);
  }

  function MatchOf(opponent: Ticket, self: Ticket, ruleset: Ruleset, stamp: int): MatchFound {
    MatchFound(
      MatchId(stamp),
      ruleset,
      if self.season == "" then opponent.season else self.season,
      [opponent.user, self.user],
      map[opponent.user := opponent.mmr][self.user := self.mmr])
  }

  // ----- the script --------------------------------------------------------

  /** Whoever the window admits lies inside the range query. */
  lemma RangeLosesNobody(q: Queue, self: UserId, mmr: int, c: UserId, now: int)
    requires Eligible(q, self, mmr, c, now)
    ensures mmr - MAX_WINDOW <= q.members[c] <= mmr + MAX_WINDOW
  {
  }

  /**
   * atomicMatchScript up to its final ZREM: scan the range, sweep stale
   * members, keep the closest admissible candidate.
   */
  method Choose(q: Queue, self: UserId, mmr: int, now: int) returns (members: map<UserId, int>, best: Option<UserId>)
    ensures IsPick(q, self, mmr, now, best)
    ensures members == q.members - Stale(q, self, mmr)
  {
    var candidates := ZRangeByScore(q.members, Some(mmr - MAX_WINDOW), mmr + MAX_WINDOW);
    members := q.members;
    best := None;
    var bestGap := MAX_WINDOW + 1;
    ghost var swept: set<UserId> := {};
    for i := 0 to |candidates|
      invariant members == q.members - swept
      invariant swept == set k | 0 <= k < i && candidates[k] in Stale(q, self, mmr) :: candidates[k]
      invariant bestGap == if best.None? then MAX_WINDOW + 1 else if best.value in q.members then Gap(q, mmr, best.value) else 0
      invariant best.Some? ==> best.value in candidates[..i] && Eligible(q, self, mmr, best.value, now)
      invariant forall k | 0 <= k < i && Eligible(q, self, mmr, candidates[k], now) ::
                  best.Some? && (candidates[k] == best.value || Preferred(q, mmr, best.value, candidates[k]))
    {
      var c := candidates[i];
      assert ScansDiffer(candidates, i) by { ScanDistinct(q.members, candidates, i); }
      if c != self {
        if c in members && c !in q.tickets {
          members := members - {c};
          swept := swept + {c};
        } else if c in members && c in q.tickets {
          var selfWait := Wait(q, self, now);
          var wait := Max(selfWait, Wait(q, c, now));
          var gap := Abs(members[c] - mmr);
          if selfWait >= MUTUAL_WAIT_MS && Wait(q, c, now) >= MUTUAL_WAIT_MS && gap <= Window(wait) && gap < bestGap {
            best, bestGap := Some(c), gap;
          }
        }
      }
    }
    forall c <- q.members | Eligible(q, self, mmr, c, now) ensures exists k :: 0 <= k < |candidates| && candidates[k] == c {
      RangeLosesNobody(q, self, mmr, c, now);
    }
    assert swept == Stale(q, self, mmr);
  }

  ghost predicate ScansDiffer(s: seq<UserId>, i: int)
    requires 0 <= i < |s|
  {
    forall k | 0 <= k < i :: s[k] != s[i]
  }

  lemma ScanDistinct(z: map<UserId, int>, s: seq<UserId>, i: int)
    requires 0 <= i < |s| && (forall u <- s :: u in z) && Sorted(z, s)
    ensures ScansDiffer(s, i)
  {
    forall k | 0 <= k < i ensures s[k] != s[i] {
      LexTotal(s[k], s[i]);
    }
  }

  /** From any backed queue the closing ZREM always removes exactly two. */
  lemma ScriptRemovesTwo(q: Queue, self: UserId, mmr: int, now: int, b: UserId)
    requires Backed(q) && IsPick(q, self, mmr, now, Some(b))
    ensures self in q.tickets && self in q.members && b in q.members && self != b
    ensures Scripted(q, self, mmr, Some(b)).tickets == q.tickets - {self, b}
    ensures |q.tickets| == |Scripted(q, self, mmr, Some(b)).tickets| + 2
  {
    var rest := q.tickets - {self, b};
    assert q.tickets.Keys == rest.Keys + {self, b};
    assert |rest.Keys| == |rest| && |q.tickets.Keys| == |q.tickets|;
  }

  lemma ScriptedBacked(q: Queue, self: UserId, mmr: int, now: int, pick: Option<UserId>)
    requires Backed(q) && IsPick(q, self, mmr, now, pick)
    ensures Backed(Scripted(q, self, mmr, pick))
  {
    if pick.Some? {
      ScriptRemovesTwo(q, self, mmr, now, pick.value);
    }
  }
}
