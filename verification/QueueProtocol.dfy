/**
 * Every interleaving of clients, ticket expiry and any number of matchers.
 * A matcher holds no lock here: it is suspended between its ticket read, its
 * script and its commit, and anything may happen in between.
 */
module QueueProtocol {
  import opened Common
  import opened SortedSets
  import opened MatchQueue
  import opened MatchStore

  datatype Matcher =
    | Idle
    | HasTicket(key: QueueKey, ticket: Ticket)
    | MustCommit(key: QueueKey, self: UserId, opp: UserId, found: MatchFound)

  /** The two tickets a script consumed. */
  datatype Pairing = Pairing(key: QueueKey, self: Ticket, opp: Ticket)

  datatype System = System(queues: Queues, matchers: map<nat, Matcher>, nextSerial: nat, formed: seq<Pairing>)

  datatype Step =
    | Join(key: QueueKey, user: UserId, mmr: int, season: string, now: int)
    | Heartbeat(key: QueueKey, user: UserId)
    | Leave(pool: Pool, rulesets: set<Ruleset>, user: UserId)
    | Poll(key: QueueKey, user: UserId)
    | ExpireTicket(key: QueueKey, user: UserId)
    | ExpireResult(key: QueueKey, user: UserId)
    | Read(matcher: nat, key: QueueKey, user: UserId)
    | Script(matcher: nat, now: int, pick: Option<UserId>, stamp: int)
    | Commit(matcher: nat)

  function At(s: System, m: nat): Matcher {
    if m in s.matchers then s.matchers[m] else Idle
  }

  ghost predicate Enabled(s: System, step: Step)
    requires Complete(s.queues)
  {
    match step
    case Read(m, _, _) => At(s, m).Idle?
    case Script(m, now, pick, stamp) =>
      At(s, m).HasTicket? && var h := At(s, m); IsPick(s.queues[h.key], h.ticket.user, h.ticket.mmr, now, pick)
    case Commit(m) => At(s, m).MustCommit?
    case _ => true
  }

  ghost function Next(s: System, step: Step): System
    requires Complete(s.queues) && Enabled(s, step)
  {
    match step
    case Join(key, u, mmr, season, now) =>
      s.(queues := JoinedAll(s.queues, key, Ticket(u, mmr, season, now, s.nextSerial)), nextSerial := s.nextSerial + 1)
    case Heartbeat(key, u) => s.(queues := s.queues[key := Beaten(s.queues[key], u).0])
    case Leave(pool, rulesets, u) => s.(queues := LeftAll(s.queues, pool, rulesets, u))
    case Poll(key, u) => s.(queues := s.queues[key := s.queues[key].(results := s.queues[key].results - {u})])
    case ExpireTicket(key, u) => s.(queues := s.queues[key := s.queues[key].(tickets := s.queues[key].tickets - {u})])
    case ExpireResult(key, u) => s.(queues := s.queues[key := s.queues[key].(results := s.queues[key].results - {u})])
    case Read(m, key, u) =>
      if u in s.queues[key].tickets
      then s.(matchers := s.matchers[m := HasTicket(key, s.queues[key].tickets[u])])
      else s.(queues := s.queues[key := Cleaned(s.queues[key], u)])
    case Script(m, now, pick, stamp) =>
      var h := At(s, m);
      var q := s.queues[h.key];
      var after := s.queues[h.key := Scripted(q, h.ticket.user, h.ticket.mmr, pick)];
      if pick.Some? && h.ticket.user in q.members then
        var opp := q.tickets[pick.value];
        s.(queues := after,
           matchers := s.matchers[m := MustCommit(h.key, h.ticket.user, opp.user, MatchOf(opp, h.ticket, h.key.ruleset, stamp))],
           formed := s.formed + [Pairing(h.key, q.tickets[h.ticket.user], opp)])
      else s.(queues := after, matchers := s.matchers[m := Idle])
    case Commit(m) =>
      var c := At(s, m);
      s.(queues := Committed(s.queues, c.key, c.self, c.opp, c.found), matchers := s.matchers[m := Idle])
  }

  // ----- what every reachable state satisfies -------------------------------

  /** A user's traces in one pool exclude the other. */
  ghost predicate OnePool(queues: Queues)
    requires Complete(queues)
  {
    forall k: QueueKey, l: QueueKey, u: UserId | k.pool != l.pool && u in queues[k].joined :: u !in queues[l].joined
  }

  predicate Spent(formed: seq<Pairing>, n: nat) {
    exists p <- formed :: p.self.serial == n || p.opp.serial == n
  }

  /** No live ticket stems from a Join that a match has consumed. */
  ghost predicate NoneSpent(queues: Queues, formed: seq<Pairing>, next: nat)
    requires Complete(queues)
  {
    forall k: QueueKey, u <- queues[k].tickets ::
      queues[k].tickets[u].serial < next && !Spent(formed, queues[k].tickets[u].serial)
  }

  /** Distinct live tickets stem from distinct Joins. */
  ghost predicate OwnJoin(queues: Queues)
    requires Complete(queues)
  {
    forall k: QueueKey, l: QueueKey, u <- queues[k].tickets, v <- queues[l].tickets ::
      queues[k].tickets[u].serial == queues[l].tickets[v].serial ==> k == l && u == v
  }

  /** No Join is consumed twice, by one pairing or by two. */
  ghost predicate EachJoinOnce(formed: seq<Pairing>) {
    && (forall p <- formed :: p.self.serial != p.opp.serial)
    && (forall i, j | 0 <= i < j < |formed| ::
          {formed[i].self.serial, formed[i].opp.serial} !! {formed[j].self.serial, formed[j].opp.serial})
  }

  ghost predicate SpentBelow(s: System) {
    forall p <- s.formed :: p.self.serial < s.nextSerial && p.opp.serial < s.nextSerial
  }

  ghost predicate Inv(s: System) {
    && AllBacked(s.queues)
    && OnePool(s.queues)
    && NoneSpent(s.queues, s.formed, s.nextSerial)
    && OwnJoin(s.queues)
    && SpentBelow(s)
    && EachJoinOnce(s.formed)
    && CommitsDiffer(s.matchers)
  }

  /** A step that only removes: the queue's tickets and joins shrink. */
  ghost predicate Shrinks(q: Queue, r: Queue) {
    && r.joined.Keys <= q.joined.Keys
    && r.tickets.Keys <= q.tickets.Keys
    && forall u <- r.tickets :: r.tickets[u] == q.tickets[u]
  }

  ghost predicate OnlyRemoves(before: Queues, after: Queues)
    requires Complete(before)
  {
    Complete(after) && forall k: QueueKey :: Shrinks(before[k], after[k])
  }

  ghost predicate CommitsDiffer(matchers: map<nat, Matcher>) {
    forall m <- matchers | matchers[m].MustCommit? :: matchers[m].self != matchers[m].opp
  }

  lemma RemovalKeepsInv(s: System, t: System)
    requires Inv(s) && AllBacked(t.queues) && OnlyRemoves(s.queues, t.queues)
    requires t.formed == s.formed && t.nextSerial == s.nextSerial && CommitsDiffer(t.matchers)
    ensures Inv(t)
  {
    forall k: QueueKey, l: QueueKey, u <- t.queues[k].tickets, v <- t.queues[l].tickets |
      t.queues[k].tickets[u].serial == t.queues[l].tickets[v].serial
      ensures k == l && u == v
    {
      assert s.queues[k].tickets[u].serial == s.queues[l].tickets[v].serial;
    }
    forall k: QueueKey, u <- t.queues[k].tickets
      ensures t.queues[k].tickets[u].serial < t.nextSerial && !Spent(t.formed, t.queues[k].tickets[u].serial)
    {
      assert t.queues[k].tickets[u] == s.queues[k].tickets[u];
    }
  }

  lemma OneQueueShrinks(queues: Queues, key: QueueKey, q: Queue)
    requires AllBacked(queues) && Backed(q) && Shrinks(queues[key], q)
    ensures AllBacked(queues[key := q]) && OnlyRemoves(queues, queues[key := q])
  {
  }

  lemma JoinBacked(queues: Queues, key: QueueKey, t: Ticket)
    requires AllBacked(queues)
    ensures AllBacked(JoinedAll(queues, key, t))
  {
    forall k: QueueKey ensures Backed(JoinedAll(queues, key, t)[k]) {
      assert Backed(queues[k]);
    }
  }

  lemma JoinOnePool(queues: Queues, key: QueueKey, t: Ticket)
    requires Complete(queues) && OnePool(queues)
    ensures Complete(JoinedAll(queues, key, t)) && OnePool(JoinedAll(queues, key, t))
  {
  }

  lemma JoinOwn(queues: Queues, key: QueueKey, t: Ticket, formed: seq<Pairing>)
    requires Complete(queues) && OwnJoin(queues) && NoneSpent(queues, formed, t.serial) && !Spent(formed, t.serial)
    ensures Complete(JoinedAll(queues, key, t)) && OwnJoin(JoinedAll(queues, key, t))
    ensures NoneSpent(JoinedAll(queues, key, t), formed, t.serial + 1)
  {
    var after := JoinedAll(queues, key, t);
    forall k: QueueKey, u <- after[k].tickets ensures
      if k == key && u == t.user then after[k].tickets[u] == t else u in queues[k].tickets && after[k].tickets[u] == queues[k].tickets[u]
    {
    }
    forall k: QueueKey, l: QueueKey, u <- after[k].tickets, v <- after[l].tickets |
      after[k].tickets[u].serial == after[l].tickets[v].serial
      ensures k == l && u == v
    {
      if !(k == key && u == t.user) && !(l == key && v == t.user) {
        assert queues[k].tickets[u].serial == queues[l].tickets[v].serial;
      }
    }
  }

  lemma JoinKeepsInv(s: System, step: Step)
    requires Inv(s) && step.Join?
    ensures Inv(Next(s, step))
  {
    var t := Ticket(step.user, step.mmr, step.season, step.now, s.nextSerial);
    JoinBacked(s.queues, step.key, t);
    JoinOnePool(s.queues, step.key, t);
    JoinOwn(s.queues, step.key, t, s.formed);
  }

  lemma PairingKeepsOnce(s: System, p: Pairing)
    requires SpentBelow(s) && EachJoinOnce(s.formed) && p.self.serial != p.opp.serial
    requires p.self.serial < s.nextSerial && p.opp.serial < s.nextSerial
    requires !Spent(s.formed, p.self.serial) && !Spent(s.formed, p.opp.serial)
    ensures EachJoinOnce(s.formed + [p]) && SpentBelow(s.(formed := s.formed + [p]))
  {
    forall i | 0 <= i < |s.formed|
      ensures {s.formed[i].self.serial, s.formed[i].opp.serial} !! {p.self.serial, p.opp.serial}
    {
      assert s.formed[i] in s.formed;
    }
  }

  /** Consuming the two tickets leaves nobody holding a spent one. */
  lemma ConsumedOnlyOnce(queues: Queues, key: QueueKey, r: Queue, formed: seq<Pairing>, p: Pairing, next: nat, a: UserId, b: UserId)
    requires Complete(queues) && NoneSpent(queues, formed, next) && OwnJoin(queues)
    requires a in queues[key].tickets && b in queues[key].tickets && r.tickets == queues[key].tickets - {a, b}
    requires p.self == queues[key].tickets[a] && p.opp == queues[key].tickets[b]
    ensures Complete(queues[key := r]) && NoneSpent(queues[key := r], formed + [p], next)
  {
    var after := queues[key := r];
    forall k: QueueKey, u <- after[k].tickets
      ensures after[k].tickets[u].serial < next && !Spent(formed + [p], after[k].tickets[u].serial)
    {
      var n := after[k].tickets[u].serial;
      assert n == queues[k].tickets[u].serial && !Spent(formed, n);
      assert !(k == key && (u == a || u == b));
      assert n != p.self.serial && n != p.opp.serial;
    }
  }

  lemma ScriptKeepsInv(s: System, step: Step)
    requires Inv(s) && step.Script? && Enabled(s, step)
    ensures Inv(Next(s, step))
  {
    var h := At(s, step.matcher);
    var q := s.queues[h.key];
    var r := Scripted(q, h.ticket.user, h.ticket.mmr, step.pick);
    var swept := s.(queues := s.queues[h.key := r]);
    assert Inv(swept) by {
      ScriptedBacked(q, h.ticket.user, h.ticket.mmr, step.now, step.pick);
      ScriptedShrinks(q, h.ticket.user, h.ticket.mmr, step.pick);
      OneQueueShrinks(s.queues, h.key, r);
      RemovalKeepsInv(s, swept);
    }
    if step.pick.Some? {
      var b := step.pick.value;
      ScriptRemovesTwo(q, h.ticket.user, h.ticket.mmr, step.now, b);
      var p := Pairing(h.key, q.tickets[h.ticket.user], q.tickets[b]);
      assert OwnJoin(s.queues) && NoneSpent(s.queues, s.formed, s.nextSerial);
      PairingKeepsOnce(s, p);
      ConsumedOnlyOnce(s.queues, h.key, r, s.formed, p, s.nextSerial, h.ticket.user, b);
    }
  }

  lemma ScriptedShrinks(q: Queue, self: UserId, mmr: int, pick: Option<UserId>)
    ensures Shrinks(q, Scripted(q, self, mmr, pick))
  {
  }

  lemma CommitKeepsInv(s: System, step: Step)
    requires Inv(s) && step.Commit? && Enabled(s, step)
    ensures Inv(Next(s, step))
  {
    var c := At(s, step.matcher);
    CommittedBacked(s.queues, c.key, c.self, c.opp, c.found);
    RemovalKeepsInv(s, Next(s, step));
  }

  lemma ReadKeepsInv(s: System, step: Step)
    requires Inv(s) && step.Read? && Enabled(s, step)
    ensures Inv(Next(s, step))
  {
    var q := s.queues[step.key];
    if step.user !in q.tickets {
      OneQueueShrinks(s.queues, step.key, Cleaned(q, step.user));
    }
    RemovalKeepsInv(s, Next(s, step));
  }

  lemma LeaveKeepsInv(s: System, step: Step)
    requires Inv(s) && step.Leave?
    ensures Inv(Next(s, step))
  {
    var after := LeftAll(s.queues, step.pool, step.rulesets, step.user);
    forall k: QueueKey ensures Backed(after[k]) {
      assert Backed(s.queues[k]);
    }
    RemovalKeepsInv(s, Next(s, step));
  }

  lemma BeatenBacked(q: Queue, u: UserId)
    requires Backed(q)
    ensures Backed(Beaten(q, u).0) && Shrinks(q, Beaten(q, u).0)
  {
  }

  lemma OneQueueKeepsInv(s: System, step: Step, q: Queue)
    requires Inv(s) && (step.Heartbeat? || step.Poll? || step.ExpireTicket? || step.ExpireResult?)
    requires Next(s, step) == s.(queues := s.queues[step.key := q]) && Backed(q) && Shrinks(s.queues[step.key], q)
    ensures Inv(Next(s, step))
  {
    OneQueueShrinks(s.queues, step.key, q);
    RemovalKeepsInv(s, Next(s, step));
  }

  lemma StepKeepsInv(s: System, step: Step)
    requires Inv(s) && Enabled(s, step)
    ensures Inv(Next(s, step))
  {
    match step {
      case Join(_, _, _, _, _) => JoinKeepsInv(s, step);
      case Script(_, _, _, _) => ScriptKeepsInv(s, step);
      case Commit(_) => CommitKeepsInv(s, step);
      case Read(_, _, _) => ReadKeepsInv(s, step);
      case Leave(_, _, _) => LeaveKeepsInv(s, step);
      case Heartbeat(key, u) =>
        BeatenBacked(s.queues[key], u);
        OneQueueKeepsInv(s, step, Beaten(s.queues[key], u).0);
      case Poll(key, u) => OneQueueKeepsInv(s, step, s.queues[key].(results := s.queues[key].results - {u}));
      case ExpireTicket(key, u) => OneQueueKeepsInv(s, step, s.queues[key].(tickets := s.queues[key].tickets - {u}));
      case ExpireResult(key, u) => OneQueueKeepsInv(s, step, s.queues[key].(results := s.queues[key].results - {u}));
    }
  }

  // ----- runs ---------------------------------------------------------------

  ghost predicate Initial(s: System) {
    && Complete(s.queues)
    && (forall k: QueueKey :: s.queues[k] == Queue(map[], map[], map[], map[]))
    && s.matchers == map[] && s.formed == [] && s.nextSerial == 0
  }

  /** `states` is a run that takes `steps`, one atomic step at a time. */
  ghost predicate IsRun(states: seq<System>, steps: seq<Step>) {
    && |states| == |steps| + 1
    && Initial(states[0])
    && forall i | 0 <= i < |steps| ::
         Complete(states[i].queues) && Enabled(states[i], steps[i]) && states[i + 1] == Next(states[i], steps[i])
  }

  lemma {:induction false} RunKeepsInv(states: seq<System>, steps: seq<Step>, n: nat)
    requires IsRun(states, steps) && n < |states|
    ensures Inv(states[n])
  {
    if n > 0 {
      RunKeepsInv(states, steps, n - 1);
      StepKeepsInv(states[n - 1], steps[n - 1]);
    }
  }

  /**
   * In every reachable state: live tickets are backed by members and joined,
   * members is part of joined, nobody is queued in two pools, and no Join has
   * been consumed by two matches.
   */
  lemma QueueSafety(states: seq<System>, steps: seq<Step>, n: nat)
    requires IsRun(states, steps) && n < |states|
    ensures AllBacked(states[n].queues)
    ensures forall k: QueueKey, l: QueueKey, u <- states[n].queues[k].members :: u in states[n].queues[l].members ==> k.pool == l.pool
    ensures EachJoinOnce(states[n].formed)
  {
    RunKeepsInv(states, steps, n);
  }

  // ----- every match stems from a pairing ------------------------------------------

  /** The match is between the two users of a pairing formed in that queue. */
  ghost predicate From(formed: seq<Pairing>, key: QueueKey, found: MatchFound) {
    exists p <- formed :: p.key == key && found.players == [p.opp.user, p.self.user]
  }

  /** Every match about to be stored, or stored, is that of a pairing, for its own two users. */
  ghost predicate Traced(s: System)
    requires Complete(s.queues)
  {
    && (forall m <- s.matchers | s.matchers[m].MustCommit? ::
          var c := s.matchers[m]; From(s.formed, c.key, c.found) && c.found.players == [c.opp, c.self])
    && forall k: QueueKey, u <- s.queues[k].results ::
         From(s.formed, k, s.queues[k].results[u]) && u in s.queues[k].results[u].players
  }

  /** A step that makes no pairing and stores no match. */
  lemma FewerTraced(s: System, t: System)
    requires Complete(s.queues) && Complete(t.queues) && Traced(s) && t.formed == s.formed
    requires forall m <- t.matchers | t.matchers[m].MustCommit? :: m in s.matchers && s.matchers[m] == t.matchers[m]
    requires forall k: QueueKey, u <- t.queues[k].results :: u in s.queues[k].results && t.queues[k].results[u] == s.queues[k].results[u]
    ensures Traced(t)
  {
    hide From;
  }

  lemma FormedMore(formed: seq<Pairing>, p: Pairing, key: QueueKey, found: MatchFound)
    ensures From(formed, key, found) ==> From(formed + [p], key, found)
    ensures p.key == key && found.players == [p.opp.user, p.self.user] ==> From(formed + [p], key, found)
  {
    assert p in formed + [p];
    assert forall q <- formed :: q in formed + [p];
  }

  /** A step that forms a pairing, whose matcher must commit it, and stores no match yet. */
  lemma OneMoreTraced(s: System, t: System, m0: nat, c: Matcher, p: Pairing)
    requires Complete(s.queues) && Complete(t.queues) && Traced(s) && t.formed == s.formed + [p] && t.matchers == s.matchers[m0 := c]
    requires c.MustCommit? && c.key == p.key && c.found.players == [p.opp.user, p.self.user] == [c.opp, c.self]
    requires forall k: QueueKey :: t.queues[k].results == s.queues[k].results
    ensures Traced(t)
  {
    hide From;
    forall m <- t.matchers | t.matchers[m].MustCommit?
      ensures From(t.formed, t.matchers[m].key, t.matchers[m].found) && t.matchers[m].found.players == [t.matchers[m].opp, t.matchers[m].self]
    {
      FormedMore(s.formed, p, t.matchers[m].key, t.matchers[m].found);
    }
    forall k: QueueKey, u <- t.queues[k].results ensures From(t.formed, k, t.queues[k].results[u]) && u in t.queues[k].results[u].players {
      FormedMore(s.formed, p, k, s.queues[k].results[u]);
    }
  }

  lemma ScriptedResults(q: Queue, self: UserId, mmr: int, pick: Option<UserId>)
    ensures Scripted(q, self, mmr, pick).results == q.results
  {
  }

  lemma PairNames(q: Queue, self: UserId, mmr: int, now: int, b: UserId)
    requires Backed(q) && IsPick(q, self, mmr, now, Some(b))
    ensures self in q.tickets && self in q.members && b in q.tickets && q.tickets[self].user == self && q.tickets[b].user == b
  {
    ScriptRemovesTwo(q, self, mmr, now, b);
  }

  lemma ScriptTraced(s: System, step: Step)
    requires AllBacked(s.queues) && Traced(s) && step.Script? && Enabled(s, step)
    ensures Complete(Next(s, step).queues) && Traced(Next(s, step))
  {
    hide From, Traced, Scripted, Backed, IsPick;
    var h := At(s, step.matcher);
    var q := s.queues[h.key];
    var t := Next(s, step);
    ScriptedResults(q, h.ticket.user, h.ticket.mmr, step.pick);
    assert Backed(q);
    if step.pick.Some? {
      PairNames(q, h.ticket.user, h.ticket.mmr, step.now, step.pick.value);
      var p := Pairing(h.key, q.tickets[h.ticket.user], q.tickets[step.pick.value]);
      OneMoreTraced(s, t, step.matcher, t.matchers[step.matcher], p);
    } else {
      FewerTraced(s, t);
    }
  }

  lemma CommitTraced(s: System, step: Step)
    requires Complete(s.queues) && Traced(s) && step.Commit? && Enabled(s, step)
    ensures Complete(Next(s, step).queues) && Traced(Next(s, step))
  {
    hide From;
  }

  lemma StepTraced(s: System, step: Step)
    requires Inv(s) && Traced(s) && Enabled(s, step)
    ensures Complete(Next(s, step).queues) && Traced(Next(s, step))
  {
    hide From, Inv;
    CompleteHere(s);
    match step {
      case Script(_, _, _, _) => ScriptTraced(s, step);
      case Commit(_) => CommitTraced(s, step);
      case _ => FewerTraced(s, Next(s, step));
    }
  }

  lemma CompleteHere(s: System)
    requires Inv(s)
    ensures Complete(s.queues) && AllBacked(s.queues)
  {
  }

  /** In every reachable state every stored match is that of a pairing formed there, so of two Joins no other match has used. */
  lemma {:induction false} MatchesTraced(states: seq<System>, steps: seq<Step>, n: nat)
    requires IsRun(states, steps) && n < |states|
    ensures Complete(states[n].queues) && Traced(states[n]) && EachJoinOnce(states[n].formed)
  {
    hide Inv, Traced, EachJoinOnce;
    QueueSafety(states, steps, n);
    CompleteNow(states[n]);
    if n == 0 {
      InitialTraced(states[0]);
    } else {
      MatchesTraced(states, steps, n - 1);
      RunKeepsInv(states, steps, n - 1);
      StepTraced(states[n - 1], steps[n - 1]);
    }
  }

  lemma CompleteNow(s: System)
    requires AllBacked(s.queues)
    ensures Complete(s.queues)
  {
  }

  lemma InitialTraced(s: System)
    requires Initial(s)
    ensures Traced(s)
  {
  }
}
