/** The store over all four queues, and its greedy matchmaking sweep. */
module MatchStore {
  import opened Common
  import opened SortedSets
  import opened MatchQueue

  const ALL_POOLS := [Guest, Registered]
  const ALL_RULESETS := [Moving, NMPZ]
  const DEFAULT_LIMIT := 50

  type Queues = map<QueueKey, Queue>

  ghost predicate Complete(queues: Queues) {
    forall k: QueueKey :: k in queues
  }

  ghost predicate AllBacked(queues: Queues) {
    Complete(queues) && forall k: QueueKey :: Backed(queues[k])
  }

  // ----- effects across queues ---------------------------------------------

  /** Join: leave the other pool altogether, take a ticket here. */
  function JoinedAll(queues: Queues, key: QueueKey, t: Ticket): Queues {
    map k | k in queues ::
      if k.pool != key.pool then Left(queues[k], t.user)
      else if k == key then WithTicket(queues[k], t)
      else queues[k]
  }

  function LeftAll(queues: Queues, pool: Pool, rulesets: set<Ruleset>, u: UserId): Queues {
    map k | k in queues :: if k.pool == pool && k.ruleset in rulesets then Left(queues[k], u) else queues[k]
  }

  /** The transaction after a script hit: both leave the pool, both get the match. */
  function Committed(queues: Queues, key: QueueKey, self: UserId, opp: UserId, found: MatchFound): Queues {
    map k | k in queues ::
      if k.pool != key.pool then queues[k]
      else
        var q := Unqueued(queues[k], {self, opp});
        q.(results := if k == key then q.results[self := found][opp := found] else q.results - {self, opp})
  }

  /** What a commit does to one queue of the pool, once the match is stored. */
  function ClearedPair(q: Queue, here: bool, self: UserId, opp: UserId): Queue {
    var p := Unqueued(q, {self, opp});
    if here then p else p.(results := p.results - {self, opp})
  }

  function ClearedUpTo(queues: Queues, key: QueueKey, self: UserId, opp: UserId, n: nat): Queues {
    map k | k in queues :: if k.pool == key.pool && Rank(k).1 < n then ClearedPair(queues[k], k == key, self, opp) else queues[k]
  }

  lemma ClearStep(queues: Queues, key: QueueKey, self: UserId, opp: UserId, n: nat)
    requires Complete(queues) && n < |ALL_RULESETS|
    ensures var k := QueueKey(key.pool, ALL_RULESETS[n]); var half := ClearedUpTo(queues, key, self, opp, n);
            half[k := ClearedPair(half[k], k == key, self, opp)] == ClearedUpTo(queues, key, self, opp, n + 1)
  {
  }

  lemma CommitMeets(queues: Queues, key: QueueKey, self: UserId, opp: UserId, found: MatchFound)
    requires Complete(queues)
    ensures var q := queues[key];
            ClearedUpTo(queues[key := q.(results := q.results[self := found][opp := found])], key, self, opp, |ALL_RULESETS|)
            == Committed(queues, key, self, opp, found)
  {
  }

  function LeftOn(queues: Queues, done: set<QueueKey>, u: UserId): Queues {
    map k | k in queues :: if k in done then Left(queues[k], u) else queues[k]
  }

  lemma LeftOnStep(queues: Queues, done: set<QueueKey>, k: QueueKey, u: UserId)
    requires k in queues && k !in done
    ensures LeftOn(queues, done, u)[k := Left(LeftOn(queues, done, u)[k], u)] == LeftOn(queues, done + {k}, u)
  {
  }

  function BeatenOn(queues: Queues, pool: Pool, done: set<Ruleset>, u: UserId): Queues {
    map k | k in queues :: if k.pool == pool && k.ruleset in done then Beaten(queues[k], u).0 else queues[k]
  }

  lemma BeatenOnNone(queues: Queues, pool: Pool, u: UserId)
    ensures BeatenOn(queues, pool, {}, u) == queues
  {
  }

  lemma BeatenOnStep(queues: Queues, pool: Pool, done: set<Ruleset>, u: UserId, r: Ruleset)
    requires Complete(queues) && r !in done
    ensures var k := QueueKey(pool, r);
            && BeatenOn(queues, pool, done, u)[k] == queues[k]
            && BeatenOn(queues, pool, done + {r}, u) == BeatenOn(queues, pool, done, u)[k := Beaten(queues[k], u).0]
  {
    hide Beaten;
  }

  predicate Absent(q: Queue, u: UserId) {
    u !in q.tickets && u !in q.members && u !in q.joined
  }

  lemma BeatenCases(q: Queue, u: UserId)
    requires Backed(q)
    ensures var (r, status) := Beaten(q, u);
            && Backed(r)
            && (status == Matched <==> u in q.results) && (status == Matched ==> r == q)
            && (status == Queueing ==> u in r.tickets && u in r.members && r == q)
            && (status == Missing ==> Absent(r, u))
  {
  }

  /** The heartbeat has gone through the first `i` rulesets and met no match. */
  ghost predicate Beating(before: Queues, now: Queues, pool: Pool, rs: seq<Ruleset>, user: UserId, i: nat, any: bool)
    requires Complete(before) && Complete(now) && i <= |rs|
  {
    && now == BeatenOn(before, pool, Upto(rs, i), user)
    && (forall j | 0 <= j < i :: user !in before[QueueKey(pool, rs[j])].results)
    && if any then exists j :: 0 <= j < i && user in now[QueueKey(pool, rs[j])].tickets
       else forall j | 0 <= j < i :: Absent(now[QueueKey(pool, rs[j])], user)
  }

  lemma BeatStart(before: Queues, pool: Pool, rs: seq<Ruleset>, user: UserId)
    requires Complete(before)
    ensures Beating(before, before, pool, rs, user, 0, false)
  {
    assert Upto(rs, 0) == {};
    BeatenOnNone(before, pool, user);
  }

  lemma BeatStep(before: Queues, now: Queues, pool: Pool, rs: seq<Ruleset>, user: UserId, i: nat, any: bool)
    requires Complete(before) && AllBacked(now) && i < |rs| && forall a, b | 0 <= a < b < |rs| :: rs[a] != rs[b]
    requires Beating(before, now, pool, rs, user, i, any)
    ensures var k := QueueKey(pool, rs[i]);
            var (q, status) := Beaten(now[k], user);
            && AllBacked(now[k := q])
            && (status == Matched ==> now[k := q] == now && FirstMatch(before, pool, rs, user, i))
            && (status != Matched ==> Beating(before, now[k := q], pool, rs, user, i + 1, any || status == Queueing))
  {
    hide Beaten, Backed;
    var k := QueueKey(pool, rs[i]);
    UptoMore(rs, i);
    BeatenOnStep(before, pool, Upto(rs, i), user, rs[i]);
    BeatenCases(now[k], user);
    forall j | 0 <= j < i ensures QueueKey(pool, rs[j]) != k {
    }
  }

  lemma BeatMatched(before: Queues, now: Queues, pool: Pool, rs: seq<Ruleset>, user: UserId, i: nat, any: bool)
    requires Complete(before) && Complete(now) && i < |rs|
    requires Beating(before, now, pool, rs, user, i, any) && FirstMatch(before, pool, rs, user, i)
    ensures forall j | FirstMatch(before, pool, rs, user, j) :: now == BeatenOn(before, pool, Upto(rs, j), user)
  {
    forall j | FirstMatch(before, pool, rs, user, j) ensures j == i {
    }
  }

  lemma BeatDone(before: Queues, now: Queues, pool: Pool, rs: seq<Ruleset>, user: UserId, any: bool)
    requires Complete(before) && Complete(now) && Beating(before, now, pool, rs, user, |rs|, any)
    ensures now == BeatenOn(before, pool, (set r | r in rs), user)
    ensures forall j :: !FirstMatch(before, pool, rs, user, j)
    ensures any ==> exists r <- rs :: user in now[QueueKey(pool, r)].tickets
    ensures !any ==> forall r <- rs :: Absent(now[QueueKey(pool, r)], user)
  {
    hide Beaten, Absent;
    assert rs[..|rs|] == rs;
  }

  /** Position of a key in the two constant lists the loops walk. */
  function Rank(k: QueueKey): (r: (nat, nat))
    ensures r.0 < |ALL_POOLS| && ALL_POOLS[r.0] == k.pool
    ensures r.1 < |ALL_RULESETS| && ALL_RULESETS[r.1] == k.ruleset
  {
    (if k.pool == Guest then 0 else 1, if k.ruleset == Moving then 0 else 1)
  }

  /** Each ruleset at its first mention. */
  function Firsts(raw: seq<Ruleset>): (r: seq<Ruleset>)
    ensures forall x :: x in r <==> x in raw
    ensures forall i, j | 0 <= i < j < |r| :: r[i] != r[j]
  {
    if raw == [] then []
    else
      var before, last := Firsts(raw[..|raw| - 1]), raw[|raw| - 1];
      if last in before then before else before + [last]
  }

  /** What comes earlier was first mentioned earlier. */
  lemma {:induction false} FirstsInOrder(raw: seq<Ruleset>, i: nat, j: nat) returns (a: nat)
    requires i < j < |Firsts(raw)|
    ensures a < |raw| && raw[a] == Firsts(raw)[i] && Firsts(raw)[j] !in raw[..a + 1]
  {
    var before := raw[..|raw| - 1];
    if j < |Firsts(before)| {
      a := FirstsInOrder(before, i, j);
      assert before[..a + 1] == raw[..a + 1];
    } else {
      assert Firsts(before)[i] in before;
      a :| 0 <= a < |before| && before[a] == Firsts(before)[i];
      forall x <- raw[..a + 1] ensures x in Firsts(before) {
        assert x in before;
      }
    }
  }

  /** The rulesets of a request, in order; an empty request means the moving one. */
  function Requested(raw: seq<Ruleset>): seq<Ruleset> {
    if raw == [] then [Moving] else Firsts(raw)
  }

  function RulesetsOf(raw: seq<Ruleset>): set<Ruleset> {
    set r | r in Requested(raw)
  }

  function Upto(rs: seq<Ruleset>, n: nat): set<Ruleset>
    requires n <= |rs|
  {
    set r | r in rs[..n]
  }

  lemma UptoMore(rs: seq<Ruleset>, n: nat)
    requires n < |rs| && forall i, j | 0 <= i < j < |rs| :: rs[i] != rs[j]
    ensures Upto(rs, n + 1) == Upto(rs, n) + {rs[n]} && rs[n] !in Upto(rs, n)
  {
    assert rs[..n + 1] == rs[..n] + [rs[n]];
  }

  lemma RequestedOnce(raw: seq<Ruleset>)
    ensures forall i, j | 0 <= i < j < |Requested(raw)| :: Requested(raw)[i] != Requested(raw)[j]
  {
  }

  /** The i-th ruleset is the first to hold a match for the user. */
  predicate FirstMatch(queues: Queues, pool: Pool, rs: seq<Ruleset>, user: UserId, i: nat)
    requires Complete(queues)
  {
    && i < |rs| && user in queues[QueueKey(pool, rs[i])].results
    && forall j | 0 <= j < i :: user !in queues[QueueKey(pool, rs[j])].results
  }

  /** Wall clock read by the matcher: it may advance between reads. */
  class Clock {
    var t: int

    constructor (start: int)
      ensures t == start
    {
      t := start;
    }

    method Now() returns (now: int)
      modifies this
      ensures now == t >= old(t)
    {
      var elapsed :| elapsed >= 0;
      t := t + elapsed;
      now := t;
    }
  }

  class Store {
    var queues: Queues
    var locks: map<QueueKey, nat>

    constructor ()
      ensures AllBacked(queues) && locks == map[]
      ensures forall k: QueueKey :: queues[k] == Queue(map[], map[], map[], map[])
    {
      var empty := Queue(map[], map[], map[], map[]);
      queues := map[QueueKey(Guest, Moving) := empty, QueueKey(Guest, NMPZ) := empty,
                    QueueKey(Registered, Moving) := empty, QueueKey(Registered, NMPZ) := empty];
      locks := map[];
      new;
      forall k: QueueKey ensures k in queues && queues[k] == empty {
        assert (k.pool == Guest || k.pool == Registered) && (k.ruleset == Moving || k.ruleset == NMPZ);
      }
    }

    method Join(key: QueueKey, t: Ticket)
      requires Complete(queues)
      modifies `queues
      ensures queues == JoinedAll(old(queues), key, t)
    {
      ghost var before := queues;
      ghost var done: set<QueueKey> := {};
      for i := 0 to |ALL_POOLS|
        invariant queues == LeftOn(before, done, t.user)
        invariant forall k: QueueKey :: k in done <==> k.pool != key.pool && Rank(k).0 < i
      {
        if ALL_POOLS[i] != key.pool {
          for j := 0 to |ALL_RULESETS|
            invariant queues == LeftOn(before, done, t.user)
            invariant forall k: QueueKey :: k in done <==> k.pool != key.pool && (Rank(k).0 < i || (Rank(k).0 == i && Rank(k).1 < j))
          {
            var k := QueueKey(ALL_POOLS[i], ALL_RULESETS[j]);
            LeftOnStep(before, done, k, t.user);
            queues := queues[k := Left(queues[k], t.user)];
            done := done + {k};
          }
        }
      }
      queues := queues[key := WithTicket(queues[key], t)];
    }

    method NormalizedRulesets(raw: seq<Ruleset>) returns (out: seq<Ruleset>)
      ensures out == Requested(raw)
    {
      if raw == [] {
        return [Moving];
      }
      out := [];
      for i := 0 to |raw|
        invariant out == Firsts(raw[..i])
      {
        assert raw[..i + 1][..i] == raw[..i];
        if raw[i] !in out {
          out := out + [raw[i]];
        }
      }
      assert raw[..|raw|] == raw;
    }

    method Leave(pool: Pool, rulesets: seq<Ruleset>, user: UserId)
      requires Complete(queues)
      modifies `queues
      ensures queues == LeftAll(old(queues), pool, RulesetsOf(rulesets), user)
    {
      var rs := NormalizedRulesets(rulesets);
      ghost var before := queues;
      ghost var done: set<QueueKey> := {};
      for i := 0 to |rs|
        invariant queues == LeftOn(before, done, user)
        invariant forall k: QueueKey :: k in done <==> k.pool == pool && exists j :: 0 <= j < i && rs[j] == k.ruleset
      {
        var k := QueueKey(pool, rs[i]);
        LeftOnStep(before, done, k, user);
        queues := queues[k := Left(queues[k], user)];
        done := done + {k};
      }
    }

    /** queueHeartbeatScript on one queue. */
    method Beat(key: QueueKey, user: UserId) returns (status: Presence)
      requires Complete(queues)
      modifies `queues
      ensures status == Beaten(old(queues)[key], user).1
      ensures queues == old(queues)[key := Beaten(old(queues)[key], user).0]
    {
      var q := queues[key];
      if user in q.results {
        return Matched;
      }
      if user !in q.members {
        if user in q.tickets {
          q := q.(tickets := q.tickets - {user});
        }
        assert q.tickets == queues[key].tickets - {user};
        queues := queues[key := q.(joined := q.joined - {user})];
        return Missing;
      }
      if user !in q.tickets {
        queues := queues[key := q.(members := q.members - {user}, joined := q.joined - {user})];
        return Missing;
      }
      return Queueing;
    }

    /**
     * A heartbeat goes through the rulesets one script at a time and stops at a
     * stored match. A user reported missing has nothing left in any of them.
     */
    method Heartbeat(pool: Pool, rulesets: seq<Ruleset>, user: UserId) returns (status: Presence)
      requires AllBacked(queues)
      modifies `queues
      ensures AllBacked(queues)
      ensures status == Matched <==> exists i :: FirstMatch(old(queues), pool, Requested(rulesets), user, i)
      ensures forall i | FirstMatch(old(queues), pool, Requested(rulesets), user, i) ::
                queues == BeatenOn(old(queues), pool, Upto(Requested(rulesets), i), user)
      ensures status != Matched ==> queues == BeatenOn(old(queues), pool, RulesetsOf(rulesets), user)
      ensures status == Queueing ==> exists r <- RulesetsOf(rulesets) :: user in queues[QueueKey(pool, r)].tickets
      ensures status == Missing ==> forall r <- RulesetsOf(rulesets) :: Absent(queues[QueueKey(pool, r)], user)
    {
      hide Beaten, Backed, Requested, Beating;
      var rs := NormalizedRulesets(rulesets);
      RequestedOnce(rulesets);
      ghost var before := queues;
      var anyQueueing := false;
      BeatStart(before, pool, rs, user);
      for i := 0 to |rs|
        invariant AllBacked(queues) && Beating(before, queues, pool, rs, user, i, anyQueueing)
      {
        BeatStep(before, queues, pool, rs, user, i, anyQueueing);
        var one := Beat(QueueKey(pool, rs[i]), user);
        if one == Matched {
          BeatMatched(before, queues, pool, rs, user, i, anyQueueing);
          return Matched;
        }
        if one == Queueing {
          anyQueueing := true;
        }
      }
      BeatDone(before, queues, pool, rs, user, anyQueueing);
      return if anyQueueing then Queueing else Missing;
    }

    /** The stored match is handed out once: that of the first ruleset, in the order asked for, that has one. */
    method Poll(pool: Pool, rulesets: seq<Ruleset>, user: UserId) returns (found: Option<MatchFound>)
      requires Complete(queues)
      modifies `queues
      ensures found.None? ==> queues == old(queues) && forall i :: !FirstMatch(queues, pool, Requested(rulesets), user, i)
      ensures found.Some? ==> exists i: nat ::
                && FirstMatch(old(queues), pool, Requested(rulesets), user, i)
                && var k := QueueKey(pool, Requested(rulesets)[i]);
                   var q := old(queues)[k];
                   found.value == q.results[user] && queues == old(queues)[k := q.(results := q.results - {user})]
    {
      hide Requested;
      var rs := NormalizedRulesets(rulesets);
      for i := 0 to |rs|
        invariant queues == old(queues)
        invariant forall j | 0 <= j < i :: user !in queues[QueueKey(pool, rs[j])].results
      {
        var k := QueueKey(pool, rs[i]);
        var q := queues[k];
        if user in q.results {
          assert FirstMatch(old(queues), pool, rs, user, i);
          queues := queues[k := q.(results := q.results - {user})];
          return Some(q.results[user]);
        }
      }
      return None;
    }

    /** atomicMatchScript; the hit's ticket is what the script returns. */
    method MatchScript(key: QueueKey, self: UserId, mmr: int, now: int) returns (hit: Option<Ticket>, ghost pick: Option<UserId>)
      requires Complete(queues)
      modifies `queues
      ensures IsPick(old(queues)[key], self, mmr, now, pick)
      ensures queues == old(queues)[key := Scripted(old(queues)[key], self, mmr, pick)]
      ensures hit == if pick.Some? && self in old(queues)[key].members then Some(old(queues)[key].tickets[pick.value]) else None
    {
      var q := queues[key];
      var members, best := Choose(q, self, mmr, now);
      pick := best;
      hit := None;
      if best.Some? {
        var removed := (if self in members then 1 else 0) + (if best.value in members then 1 else 0);
        members := members - {self, best.value};
        if removed == 2 {
          hit := Some(q.tickets[best.value]);
          queues := queues[key := q.(members := members,
                                     tickets := q.tickets - {self, best.value},
                                     joined := q.joined - {self, best.value})];
          return;
        }
      }
      queues := queues[key := q.(members := members)];
    }

    method Commit(key: QueueKey, self: UserId, opp: UserId, found: MatchFound)
      requires Complete(queues) && self != opp
      modifies `queues
      ensures queues == Committed(old(queues), key, self, opp, found)
    {
      ghost var before := queues;
      var q := queues[key];
      queues := queues[key := q.(results := q.results[self := found][opp := found])];
      ghost var stored := queues;
      for i := 0 to |ALL_RULESETS|
        invariant queues == ClearedUpTo(stored, key, self, opp, i)
      {
        ClearPair(QueueKey(key.pool, ALL_RULESETS[i]), key, self, opp);
        ClearStep(stored, key, self, opp, i);
      }
      CommitMeets(before, key, self, opp, found);
    }

    method ClearPair(k: QueueKey, key: QueueKey, self: UserId, opp: UserId)
      requires k in queues
      modifies `queues
      ensures queues == old(queues)[k := ClearedPair(old(queues)[k], k == key, self, opp)]
    {
      var p := Unqueued(queues[k], {self, opp});
      queues := queues[k := if k != key then p.(results := p.results - {self, opp}) else p];
    }

    /** One user of the sweep: read the ticket, run the script, store the match. */
    method TryMatch(key: QueueKey, user: UserId, clock: Clock) returns (ok: bool, ghost made: Made)
      requires AllBacked(queues)
      modifies `queues, clock
      ensures AllBacked(queues) && made.self == user && old(clock.t) <= made.at <= made.stamp <= clock.t
      ensures Tried(old(queues)[key], queues[key], key, made, ok)
      ensures forall k: QueueKey | k != key :: queues[k] == if ok then Elsewhere(old(queues)[k], key.pool == k.pool, {user, made.opp}) else old(queues)[k]
    {
      made := Made(user, user, clock.t, clock.t);
      ghost var q0 := queues[key];
      if user !in queues[key].tickets {
        queues := queues[key := Cleaned(queues[key], user)];
        return false, made;
      }
      var self := queues[key].tickets[user];
      var at := clock.Now();
      made := Made(user, user, at, at);
      ghost var pick;
      var hit;
      hit, pick := MatchScript(key, user, self.mmr, at);
      ScriptHits(q0, user, self.mmr, at, pick);
      if hit.None? {
        return false, made;
      }
      var stamp := clock.Now();
      made := Made(user, hit.value.user, at, stamp);
      var found := MatchOf(hit.value, self, key.ruleset, stamp);
      CommitHits(queues, q0, key, user, hit.value.user, stamp, found);
      Commit(key, user, hit.value.user, found);
      return true, made;
    }

    /**
     * The sweep: a bounded, maximal matching over those who had waited long
     * enough when it began. `made` lists the matches it stored, in order.
     */
    method RunMatchmaking(key: QueueKey, limit: int, owner: nat, clock: Clock)
      returns (matched: nat, ghost began: int, ghost made: seq<Made>)
      requires AllBacked(queues)
      modifies this, clock
      ensures AllBacked(queues) && locks == old(locks)
      ensures began >= old(clock.t)
      ensures key in old(locks) ==> matched == 0 && queues == old(queues)
      ensures matched <= if limit <= 0 then DEFAULT_LIMIT else limit
      ensures |made| == matched && Swept(old(queues)[key], queues[key], key, made, began, clock.t)
      ensures |old(queues)[key].tickets| == |queues[key].tickets| + 2 * matched
      ensures forall i, j | 0 <= i < j < |made| :: {made[i].self, made[i].opp} !! {made[j].self, made[j].opp}
      ensures forall k: QueueKey | k != key :: queues[k] == Elsewhere(old(queues)[k], key.pool == k.pool, Paired(made))
      ensures key !in old(locks) && matched < (if limit <= 0 then DEFAULT_LIMIT else limit) ==>
                Exhausted(old(queues)[key], queues[key].tickets.Keys, began)
    {
      hide Swept, Exhausted, Elsewhere, Backed, Paired, IsScan;
      began := clock.t;
      made := [];
      var bound := if limit <= 0 then DEFAULT_LIMIT else limit;
      if key in locks {
        NothingSwept(queues, key, began, clock.t);
        return 0, began, made;
      }
      locks := locks[key := owner];
      var start := clock.Now();
      began := start;
      var users := ZRangeByScore(queues[key].joined, None, start - MUTUAL_WAIT_MS);
      matched, made := Sweep(key, users, bound, start, clock);
      SweptPairs(old(queues)[key], queues[key], key, made, began, clock.t);
      locks := locks - {key};
    }

    method Sweep(key: QueueKey, users: seq<UserId>, bound: nat, start: int, clock: Clock) returns (matched: nat, ghost made: seq<Made>)
      requires AllBacked(queues) && clock.t >= start
      requires IsScan(queues[key].joined, None, start - MUTUAL_WAIT_MS, users)
      modifies `queues, clock
      ensures AllBacked(queues) && clock.t >= start && |made| == matched <= bound
      ensures Swept(old(queues)[key], queues[key], key, made, start, clock.t)
      ensures forall k: QueueKey | k != key :: queues[k] == Elsewhere(old(queues)[k], key.pool == k.pool, Paired(made))
      ensures matched < bound ==> Exhausted(old(queues)[key], queues[key].tickets.Keys, start)
    {
      hide Swept, Tried, Settled, Exhausted, Elsewhere, Paired, IsScan;
      ghost var before := queues;
      ghost var q0 := queues[key];
      matched, made := 0, [];
      NothingSwept(queues, key, start, clock.t);
      NobodySettled(q0, users, start);
      var i := 0;
      while i < |users| && matched < bound
        invariant 0 <= i <= |users| && |made| == matched <= bound
        invariant AllBacked(queues) && clock.t >= start
        invariant Swept(q0, queues[key], key, made, start, clock.t)
        invariant forall k: QueueKey | k != key :: queues[k] == Elsewhere(before[k], key.pool == k.pool, Paired(made))
        invariant Settled(q0, queues[key].tickets.Keys, users, i, start)
      {
        ghost var q1, done, since := queues[key], made, clock.t;
        var ok;
        ghost var one;
        ok, one := TryMatch(key, users[i], clock);
        SweepStep(q0, q1, queues[key], key, users, i, start, since, clock.t, done, one, ok);
        ElsewhereGrows(before, key, done, one);
        if ok {
          matched := matched + 1;
          made := made + [one];
        }
        i := i + 1;
      }
      if matched < bound {
        SweptShrinks(q0, queues[key], key, made, start, clock.t);
        SettledExhausted(q0, queues[key], users, start);
      }
    }
  }

  // ----- the sweep's argument ----------------------------------------------

  /** Nobody still ticketed had a partner among the others when the sweep began. */
  ghost predicate Exhausted(q0: Queue, left: set<UserId>, began: int) {
    forall a <- left, b <- left | a != b :: !PairAt(q0, a, b, began)
  }

  ghost predicate Stranded(q0: Queue, left: set<UserId>, a: UserId, began: int) {
    forall b <- left | b != a :: !PairAt(q0, a, b, began)
  }

  /** A match of the sweep: who was tried, who was picked, when, and the time it is named after. */
  datatype Made = Made(self: UserId, opp: UserId, at: int, stamp: int)

  ghost function Paired(made: seq<Made>): set<UserId> {
    if made == [] then {} else Paired(made[..|made| - 1]) + {made[|made| - 1].self, made[|made| - 1].opp}
  }

  /** Both were left, could be paired, and nobody else left suited the one tried better. */
  ghost predicate Chosen(q0: Queue, left: set<UserId>, m: Made) {
    && m.self in left && m.opp in left && m.self in q0.tickets && m.opp in q0.tickets && m.self != m.opp
    && PairAt(q0, m.self, m.opp, m.at)
    && forall c <- left | c != m.opp && PairAt(q0, m.self, c, m.at) :: Preferred(q0, q0.tickets[m.self].mmr, m.opp, c)
  }

  /**
   * Both users have one match stored: between just the two of them, opponent
   * first, with the ratings of their tickets, in this queue's ruleset, and in
   * the season of the one tried, or else of the other.
   */
  ghost predicate Stored(q0: Queue, q: Queue, key: QueueKey, m: Made) {
    && m.self in q0.tickets && m.opp in q0.tickets && m.self in q.results && m.opp in q.results
    && q.results[m.self] == q.results[m.opp]
    && var found, self, opp := q.results[m.self], q0.tickets[m.self], q0.tickets[m.opp];
       && found.players == [m.opp, m.self]
       && found.mmrs == map[m.opp := opp.mmr, m.self := self.mmr]
       && found.ruleset == key.ruleset
       && found.season == (if self.season != "" then self.season else opp.season)
       && found.id == MatchId(m.stamp)
  }

  ghost predicate SameResults(q: Queue, r: Queue, but: set<UserId>) {
    && q.results.Keys - but == r.results.Keys - but
    && forall u <- q.results | u !in but :: u in r.results && r.results[u] == q.results[u]
  }

  /**
   * The queue after the matches made: exactly their users' tickets are gone,
   * each match was the choice at its time among those then left, and its two
   * users, and nobody else, have it stored.
   */
  ghost predicate Swept(q0: Queue, q: Queue, key: QueueKey, made: seq<Made>, began: int, now: int) {
    && q.tickets == q0.tickets - Paired(made)
    && (forall i: nat | i < |made| :: MadeAt(q0, q, key, made, i, began, now))
    && SameResults(q0, q, Paired(made))
  }

  ghost predicate MadeAt(q0: Queue, q: Queue, key: QueueKey, made: seq<Made>, i: nat, began: int, now: int)
    requires i < |made|
  {
    && began <= made[i].at <= made[i].stamp <= now
    && Chosen(q0, q0.tickets.Keys - Paired(made[..i]), made[i])
    && Stored(q0, q, key, made[i])
  }

  /** Another queue: the matched users leave it if it is of the same pool. */
  function Elsewhere(q: Queue, samePool: bool, users: set<UserId>): Queue {
    if samePool then Unqueued(q, users).(results := q.results - users) else q
  }

  lemma NobodyLater(q0: Queue, q: Queue, a: UserId, began: int, now: int)
    requires Backed(q0) && Backed(q) && q.tickets.Keys <= q0.tickets.Keys
    requires forall u <- q.tickets :: q.tickets[u] == q0.tickets[u]
    requires a in q.tickets && began <= now
    requires forall c <- q.members :: !Eligible(q, a, q.tickets[a].mmr, c, now)
    ensures Stranded(q0, q.tickets.Keys, a, began)
  {
    forall b <- q.tickets.Keys | b != a ensures !PairAt(q0, a, b, began) {
      PairStays(q0, q, a, b, began, now);
      assert b in q.members;
    }
  }

  /** What one sweep step may do to the queue. */
  ghost predicate Tried(q: Queue, r: Queue, key: QueueKey, m: Made, ok: bool) {
    if ok then
      && m.self in q.tickets
      && IsPick(q, m.self, q.tickets[m.self].mmr, m.at, Some(m.opp))
      && PairedOff(q, r, key, m.self, m.opp, m.stamp)
    else
      && r.tickets == q.tickets && r.results == q.results
      && (m.self in q.tickets ==> IsPick(q, m.self, q.tickets[m.self].mmr, m.at, None))
  }

  /** Both tickets are gone, and both users, and nobody else, can now poll the match. */
  ghost predicate PairedOff(q: Queue, r: Queue, key: QueueKey, user: UserId, opp: UserId, stamp: int) {
    && user in q.tickets && opp in q.tickets && user != opp
    && r.tickets == q.tickets - {user, opp}
    && var found := MatchOf(q.tickets[opp], q.tickets[user], key.ruleset, stamp);
       r.results == q.results[user := found][opp := found]
  }

  lemma ScriptHits(q: Queue, self: UserId, mmr: int, now: int, pick: Option<UserId>)
    requires Backed(q) && IsPick(q, self, mmr, now, pick)
    ensures Backed(Scripted(q, self, mmr, pick))
    ensures Scripted(q, self, mmr, pick).results == q.results
    ensures pick.None? ==> Scripted(q, self, mmr, pick).tickets == q.tickets
    ensures pick.Some? ==>
              && self in q.members && pick.value in q.tickets && self != pick.value
              && q.tickets[pick.value].user == pick.value
              && Scripted(q, self, mmr, pick).tickets == q.tickets - {self, pick.value}
  {
    ScriptedBacked(q, self, mmr, now, pick);
    if pick.Some? {
      ScriptRemovesTwo(q, self, mmr, now, pick.value);
    }
  }

  lemma CommitHits(queues: Queues, q0: Queue, key: QueueKey, self: UserId, opp: UserId, stamp: int, found: MatchFound)
    requires AllBacked(queues) && self in q0.tickets && opp in q0.tickets && self != opp
    requires queues[key].tickets == q0.tickets - {self, opp} && queues[key].results == q0.results
    requires found == MatchOf(q0.tickets[opp], q0.tickets[self], key.ruleset, stamp)
    ensures AllBacked(Committed(queues, key, self, opp, found))
    ensures PairedOff(q0, Committed(queues, key, self, opp, found)[key], key, self, opp, stamp)
  {
    CommittedBacked(queues, key, self, opp, found);
  }

  /** The first `n` users are matched, gone, or stranded. */
  ghost predicate Settled(q0: Queue, left: set<UserId>, users: seq<UserId>, n: nat, began: int)
    requires n <= |users|
  {
    forall k | 0 <= k < n && users[k] in left :: Stranded(q0, left, users[k], began)
  }

  lemma NothingSwept(queues: Queues, key: QueueKey, began: int, now: int)
    requires Complete(queues)
    ensures Swept(queues[key], queues[key], key, [], began, now)
    ensures forall k: QueueKey :: queues[k] == Elsewhere(queues[k], key.pool == k.pool, Paired([]))
  {
  }

  lemma NobodySettled(q0: Queue, users: seq<UserId>, began: int)
    ensures Settled(q0, q0.tickets.Keys, users, 0, began)
  {
  }

  lemma PairedMore(made: seq<Made>, m: Made)
    ensures Paired(made + [m]) == Paired(made) + {m.self, m.opp}
  {
    assert (made + [m])[..|made|] == made;
  }

  lemma ElsewhereGrows(before: Queues, key: QueueKey, made: seq<Made>, m: Made)
    requires Complete(before)
    ensures forall k: QueueKey :: Elsewhere(Elsewhere(before[k], key.pool == k.pool, Paired(made)), key.pool == k.pool, {m.self, m.opp})
                                  == Elsewhere(before[k], key.pool == k.pool, Paired(made + [m]))
  {
    PairedMore(made, m);
  }

  lemma SweptShrinks(q0: Queue, q: Queue, key: QueueKey, made: seq<Made>, began: int, now: int)
    requires Swept(q0, q, key, made, began, now)
    ensures q.tickets.Keys <= q0.tickets.Keys && forall u <- q.tickets :: q.tickets[u] == q0.tickets[u]
  {
  }

  /** The script's pick over the queue as it stands is the choice among those left. */
  lemma PickIsChoice(q0: Queue, q1: Queue, m: Made)
    requires Backed(q0) && Backed(q1) && q1.tickets.Keys <= q0.tickets.Keys
    requires forall u <- q1.tickets :: q1.tickets[u] == q0.tickets[u]
    requires m.self in q1.tickets && IsPick(q1, m.self, q1.tickets[m.self].mmr, m.at, Some(m.opp))
    ensures Chosen(q0, q1.tickets.Keys, m)
  {
    forall c <- q1.tickets ensures c in q0.members && c in q1.members && q0.members[c] == q1.members[c] {
    }
  }

  /** A step that makes no match, at a later clock. */
  lemma SweptIdle(q0: Queue, q1: Queue, q2: Queue, key: QueueKey, made: seq<Made>, began: int, since: int, now: int)
    requires Swept(q0, q1, key, made, began, since) && since <= now && q2.tickets == q1.tickets && q2.results == q1.results
    ensures Swept(q0, q2, key, made, began, now)
  {
    hide Chosen;
    forall i: nat | i < |made| ensures MadeAt(q0, q2, key, made, i, began, now) {
      assert MadeAt(q0, q1, key, made, i, began, since);
    }
  }

  lemma StoredStays(q0: Queue, q1: Queue, q2: Queue, key: QueueKey, m0: Made, m: Made)
    requires Stored(q0, q1, key, m0) && PairedOff(q1, q2, key, m.self, m.opp, m.stamp)
    requires {m0.self, m0.opp} !! {m.self, m.opp}
    ensures Stored(q0, q2, key, m0)
  {
  }

  lemma StoredNow(q0: Queue, q1: Queue, q2: Queue, key: QueueKey, m: Made)
    requires PairedOff(q1, q2, key, m.self, m.opp, m.stamp)
    requires Backed(q0) && forall u <- q1.tickets :: u in q0.tickets && q1.tickets[u] == q0.tickets[u]
    ensures Stored(q0, q2, key, m)
  {
  }

  lemma OnlyTheirResults(q0: Queue, q1: Queue, q2: Queue, key: QueueKey, users: set<UserId>, m: Made)
    requires SameResults(q0, q1, users) && PairedOff(q1, q2, key, m.self, m.opp, m.stamp)
    ensures SameResults(q0, q2, users + {m.self, m.opp})
    ensures q2.tickets == q1.tickets - {m.self, m.opp} && m.self in q1.tickets && m.opp in q1.tickets
  {
    assert q0.results.Keys - (users + {m.self, m.opp}) == (q0.results.Keys - users) - {m.self, m.opp};
    assert q2.results.Keys - (users + {m.self, m.opp}) == (q1.results.Keys - users) - {m.self, m.opp};
  }

  lemma SweptMore(q0: Queue, q1: Queue, q2: Queue, key: QueueKey, made: seq<Made>, began: int, since: int, now: int, m: Made)
    requires Backed(q0) && Swept(q0, q1, key, made, began, since) && began <= since <= m.at <= m.stamp <= now
    requires Chosen(q0, q1.tickets.Keys, m) && PairedOff(q1, q2, key, m.self, m.opp, m.stamp)
    ensures Swept(q0, q2, key, made + [m], began, now)
  {
    hide PairedOff, Stored, Chosen, SameResults, Paired, Backed;
    var more := made + [m];
    PairedMore(made, m);
    OnlyTheirResults(q0, q1, q2, key, Paired(made), m);
    forall i: nat | i < |more| ensures MadeAt(q0, q2, key, more, i, began, now) {
      assert more[..i] == made[..i];
      if i < |made| {
        assert MadeAt(q0, q1, key, made, i, began, since);
        PairedHas(made, i);
        StoredStays(q0, q1, q2, key, made[i], m);
      } else {
        assert made[..i] == made && q0.tickets.Keys - Paired(made) == q1.tickets.Keys;
        StoredNow(q0, q1, q2, key, m);
      }
    }
  }

  lemma {:induction false} PairedHas(made: seq<Made>, i: nat)
    requires i < |made|
    ensures made[i].self in Paired(made) && made[i].opp in Paired(made)
  {
    if i < |made| - 1 { PairedHas(made[..|made| - 1], i); }
  }

  /** No user is in two matches, and every match costs two tickets. */
  lemma SweptPairs(q0: Queue, q: Queue, key: QueueKey, made: seq<Made>, began: int, now: int)
    requires Swept(q0, q, key, made, began, now)
    ensures forall i, j | 0 <= i < j < |made| :: {made[i].self, made[i].opp} !! {made[j].self, made[j].opp}
    ensures |q0.tickets| == |q.tickets| + 2 * |made|
  {
    hide Stored, Chosen, Apart, SameResults, Paired;
    forall i: nat | i < |made| ensures Apart(q0, made, i) {
      assert MadeAt(q0, q, key, made, i, began, now);
      ChosenApart(q0, made, i);
    }
    forall i, j | 0 <= i < j < |made| ensures {made[i].self, made[i].opp} !! {made[j].self, made[j].opp} {
      ApartDisjoint(q0, made, i, j);
    }
    PairedSize(q0, made);
    assert q0.tickets.Keys == q.tickets.Keys + Paired(made);
    assert |q0.tickets.Keys| == |q0.tickets| && |q.tickets.Keys| == |q.tickets|;
  }

  lemma ChosenApart(q0: Queue, made: seq<Made>, i: nat)
    requires i < |made| && Chosen(q0, q0.tickets.Keys - Paired(made[..i]), made[i])
    ensures Apart(q0, made, i)
  {
  }

  lemma ApartDisjoint(q0: Queue, made: seq<Made>, i: nat, j: nat)
    requires i < j < |made| && Apart(q0, made, j)
    ensures {made[i].self, made[i].opp} !! {made[j].self, made[j].opp}
  {
    PairedHas(made[..j], i);
  }

  /** Two matches of a sweep share an id exactly if they were made in the same millisecond. */
  lemma IdsClashExactly(q0: Queue, q: Queue, key: QueueKey, m: Made, n: Made)
    requires Stored(q0, q, key, m) && Stored(q0, q, key, n)
    ensures q.results[m.self].id == q.results[n.self].id <==> m.stamp == n.stamp
  {
    MatchIdsDiffer(m.stamp, n.stamp);
  }

  /**
   * After a sweep each matched user polls that match, whichever rulesets of
   * the pool are asked about along with its own.
   */
  lemma PollFindsTheMatch(before: Queues, after: Queues, key: QueueKey, made: seq<Made>, i: nat, u: UserId,
                          rulesets: seq<Ruleset>, began: int, now: int)
    requires Complete(before) && Complete(after) && Swept(before[key], after[key], key, made, began, now)
    requires forall k: QueueKey | k != key :: after[k] == Elsewhere(before[k], key.pool == k.pool, Paired(made))
    requires i < |made| && (u == made[i].self || u == made[i].opp) && key.ruleset in Requested(rulesets)
    ensures exists j: nat :: FirstMatch(after, key.pool, Requested(rulesets), u, j)
    ensures forall j: nat | FirstMatch(after, key.pool, Requested(rulesets), u, j) ::
              && Requested(rulesets)[j] == key.ruleset
              && u in after[key].results && after[key].results[u].players == [made[i].opp, made[i].self]
  {
    hide Requested, Chosen, SameResults;
    assert MadeAt(before[key], after[key], key, made, i, began, now);
    PairedHas(made, i);
    var rs := Requested(rulesets);
    RequestedOnce(rulesets);
    var j: nat :| j < |rs| && rs[j] == key.ruleset;
    forall l | 0 <= l < |rs| && l != j ensures u !in after[QueueKey(key.pool, rs[l])].results {
      assert QueueKey(key.pool, rs[l]) != key;
    }
    assert FirstMatch(after, key.pool, rs, u, j);
    forall l: nat | FirstMatch(after, key.pool, rs, u, l) ensures l == j {
    }
  }

  // ----- joining and leaving ---------------------------------------------------

  /** Nobody but the users named has any entry changed. */
  ghost predicate SameFor(q: Queue, r: Queue, but: set<UserId>) {
    && q.members - but == r.members - but && q.joined - but == r.joined - but
    && q.tickets - but == r.tickets - but && q.results - but == r.results - but
  }

  lemma LeftOne(q: Queue, u: UserId)
    ensures var r := Left(q, u); SameFor(q, r, {u}) && Absent(r, u) && u !in r.results
  {
  }

  ghost predicate Queued(r: Queue, t: Ticket) {
    && t.user in r.tickets && r.tickets[t.user] == t
    && t.user in r.members && r.members[t.user] == t.mmr
    && t.user in r.joined && r.joined[t.user] == t.joinedAt
  }

  lemma TicketOne(q: Queue, t: Ticket)
    ensures var r := WithTicket(q, t); SameFor(q, r, {t.user}) && Queued(r, t) && r.results == q.results
  {
  }

  lemma SameForSame(q: Queue, but: set<UserId>)
    ensures SameFor(q, q, but)
  {
  }

  /** Whoever joins is queued with that ticket, in that queue and no other pool's; nobody else notices. */
  lemma JoinQueues(queues: Queues, key: QueueKey, t: Ticket)
    requires Complete(queues)
    ensures var after := JoinedAll(queues, key, t);
            && Complete(after) && Queued(after[key], t) && after[key].results == queues[key].results
            && forall k: QueueKey ::
                 && SameFor(queues[k], after[k], {t.user})
                 && (k.pool != key.pool ==> Absent(after[k], t.user) && t.user !in after[k].results)
                 && (k.pool == key.pool && k != key ==> after[k] == queues[k])
  {
    hide Left, WithTicket, SameFor, Absent, Queued;
    var after := JoinedAll(queues, key, t);
    TicketOne(queues[key], t);
    forall k: QueueKey ensures SameFor(queues[k], after[k], {t.user}) && (k.pool != key.pool ==> Absent(after[k], t.user) && t.user !in after[k].results) {
      LeftOne(queues[k], t.user);
      SameForSame(queues[k], {t.user});
    }
  }

  /** Whoever leaves is gone from every queue named, matches included, and nobody else notices. */
  lemma LeaveLeaves(queues: Queues, pool: Pool, rulesets: set<Ruleset>, u: UserId)
    requires Complete(queues)
    ensures var after := LeftAll(queues, pool, rulesets, u);
            && Complete(after)
            && forall k: QueueKey ::
                 && SameFor(queues[k], after[k], {u})
                 && if k.pool == pool && k.ruleset in rulesets then Absent(after[k], u) && u !in after[k].results
                    else after[k] == queues[k]
  {
    hide Left, SameFor, Absent;
    var after := LeftAll(queues, pool, rulesets, u);
    forall k: QueueKey
      ensures SameFor(queues[k], after[k], {u})
      ensures k.pool == pool && k.ruleset in rulesets ==> Absent(after[k], u) && u !in after[k].results
    {
      LeftOne(queues[k], u);
      SameForSame(queues[k], {u});
    }
  }

  function Waiting(user: UserId, mmr: int): Ticket {
    Ticket(user, mmr, "", 0, 0)
  }

  /** Two pairs far apart in rating, all waiting since time 0. */
  function TwoPairs(): Queue {
    Queue(map["a" := 0, "b" := 0, "c" := 5000, "d" := 5000], map["a" := 0, "b" := 0, "c" := 0, "d" := 0],
          map["a" := Waiting("a", 0), "b" := Waiting("b", 0), "c" := Waiting("c", 5000), "d" := Waiting("d", 5000)], map[])
  }

  function WithMatch(q: Queue, key: QueueKey, m: Made): Queue
    requires m.self in q.tickets && m.opp in q.tickets
  {
    var found := MatchOf(q.tickets[m.opp], q.tickets[m.self], key.ruleset, m.stamp);
    q.(tickets := q.tickets - {m.self, m.opp}, results := q.results[m.self := found][m.opp := found])
  }

  /** Such a clash happens: two pairs that a sweep matches within one millisecond get one id. */
  lemma SameMillisecondClashes(key: QueueKey)
    ensures var q0, m, n := TwoPairs(), Made("a", "b", 1000, 1000), Made("c", "d", 1000, 1000);
            && Backed(q0)
            && var q1 := WithMatch(q0, key, m);
               "c" in q1.tickets && "d" in q1.tickets
               && var q2 := WithMatch(q1, key, n);
                  && Swept(q0, q2, key, [m, n], 1000, 1000)
                  && q2.results["a"].players != q2.results["c"].players && q2.results["a"].id == q2.results["c"].id
  {
    hide Swept, Chosen, PairedOff, MatchId;
    var q0, m, n := TwoPairs(), Made("a", "b", 1000, 1000), Made("c", "d", 1000, 1000);
    var q1 := WithMatch(q0, key, m);
    var q2 := WithMatch(q1, key, n);
    PairsBacked();
    FirstPairChosen();
    SecondPairChosen();
    SweptNothing(q0, key, 1000, 1000);
    PairedOffNow(q0, key, m);
    SweptMore(q0, q0, q1, key, [], 1000, 1000, 1000, m);
    assert q1.tickets.Keys == {"c", "d"} && [] + [m] == [m];
    PairedOffNow(q1, key, n);
    SweptMore(q0, q1, q2, key, [m], 1000, 1000, 1000, n);
    assert [m] + [n] == [m, n];
  }

  lemma PairsBacked()
    ensures Backed(TwoPairs())
  {
  }

  lemma FirstPairChosen()
    ensures Chosen(TwoPairs(), TwoPairs().tickets.Keys, Made("a", "b", 1000, 1000))
  {
  }

  lemma SecondPairChosen()
    ensures Chosen(TwoPairs(), {"c", "d"}, Made("c", "d", 1000, 1000))
  {
  }

  lemma SweptNothing(q: Queue, key: QueueKey, began: int, now: int)
    ensures Swept(q, q, key, [], began, now)
  {
  }

  lemma PairedOffNow(q: Queue, key: QueueKey, m: Made)
    requires m.self in q.tickets && m.opp in q.tickets && m.self != m.opp
    ensures PairedOff(q, WithMatch(q, key, m), key, m.self, m.opp, m.stamp)
  {
  }

  ghost predicate Apart(q0: Queue, made: seq<Made>, i: nat)
    requires i < |made|
  {
    made[i].self != made[i].opp && {made[i].self, made[i].opp} <= q0.tickets.Keys - Paired(made[..i])
  }

  lemma {:induction false} PairedSize(q0: Queue, made: seq<Made>)
    requires forall i: nat | i < |made| :: Apart(q0, made, i)
    ensures Paired(made) <= q0.tickets.Keys && |Paired(made)| == 2 * |made|
  {
    if made != [] {
      var n := |made| - 1;
      forall i: nat | i < n ensures Apart(q0, made[..n], i) {
        assert Apart(q0, made, i) && made[..n][..i] == made[..i];
      }
      PairedSize(q0, made[..n]);
      assert Apart(q0, made, n);
    }
  }

  lemma PairedOffLoses(q: Queue, r: Queue, key: QueueKey, m: Made)
    requires PairedOff(q, r, key, m.self, m.opp, m.stamp)
    ensures r.tickets == q.tickets - {m.self, m.opp}
  {
  }

  lemma SweepStep(q0: Queue, q1: Queue, q2: Queue, key: QueueKey, users: seq<UserId>, i: nat, began: int, since: int, now: int,
                  made: seq<Made>, m: Made, ok: bool)
    requires i < |users| && Backed(q0) && Backed(q1) && began <= since <= m.at <= m.stamp <= now && m.self == users[i]
    requires Swept(q0, q1, key, made, began, since) && Settled(q0, q1.tickets.Keys, users, i, began)
    requires Tried(q1, q2, key, m, ok)
    ensures Swept(q0, q2, key, if ok then made + [m] else made, began, now)
    ensures Settled(q0, q2.tickets.Keys, users, i + 1, began)
  {
    hide PairAt, Eligible, Backed, Swept, Chosen, PairedOff;
    SweptShrinks(q0, q1, key, made, began, since);
    if ok {
      PairedOffLoses(q1, q2, key, m);
      PickIsChoice(q0, q1, m);
      SweptMore(q0, q1, q2, key, made, began, since, now, m);
    } else {
      SweptIdle(q0, q1, q2, key, made, began, since, now);
      if users[i] in q1.tickets {
        NobodyLater(q0, q1, users[i], began, m.at);
      }
    }
  }

  lemma SettledExhausted(q0: Queue, q: Queue, users: seq<UserId>, began: int)
    requires Backed(q0) && q.tickets.Keys <= q0.tickets.Keys
    requires IsScan(q0.joined, None, began - MUTUAL_WAIT_MS, users)
    requires Settled(q0, q.tickets.Keys, users, |users|, began)
    ensures Exhausted(q0, q.tickets.Keys, began)
  {
    forall a <- q.tickets.Keys, b <- q.tickets.Keys | a != b ensures !PairAt(q0, a, b, began) {
      assert PairAt(q0, a, b, began) ==> a in users;
      if a in users {
        assert Stranded(q0, q.tickets.Keys, a, began);
      }
    }
  }

  lemma CommittedBacked(queues: Queues, key: QueueKey, self: UserId, opp: UserId, found: MatchFound)
    requires AllBacked(queues)
    ensures AllBacked(Committed(queues, key, self, opp, found))
  {
  }
}
