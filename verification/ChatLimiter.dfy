/**
 * The chat rate limiter: a burst of messages per sliding window, from a log of
 * send times that is compacted in place and shared with the map that holds it.
 */
module ChatLimiter {
  import opened Common

  const BURST := 5
  const WINDOW := 10_000_000_000

  // ----- the rule, over the whole history -------------------------------------

  /** The times newer than the cutoff, in order. */
  function Newer(times: seq<int>, cutoff: int): (r: seq<int>)
    ensures |r| <= |times|
  {
    if times == [] then []
    else
      var last := times[|times| - 1];
      Newer(times[..|times| - 1], cutoff) + if last > cutoff then [last] else []
  }

  predicate Ascending(times: seq<int>) {
    forall i, j | 0 <= i <= j < |times| :: times[i] <= times[j]
  }

  lemma NewerOneMore(times: seq<int>, i: nat, cutoff: int)
    requires i < |times|
    ensures Newer(times[..i + 1], cutoff) == Newer(times[..i], cutoff) + if times[i] > cutoff then [times[i]] else []
  {
    assert times[..i + 1][..i] == times[..i];
  }

  lemma {:induction false} NewerConcat(a: seq<int>, b: seq<int>, cutoff: int)
    ensures Newer(a + b, cutoff) == Newer(a, cutoff) + Newer(b, cutoff)
  {
    if b == [] {
      assert a + b == a;
    } else {
      var front, last := b[..|b| - 1], b[|b| - 1];
      NewerConcat(a, front, cutoff);
      assert (a + b)[..|a + b| - 1] == a + front;
    }
  }

  lemma {:induction false} NewerNone(times: seq<int>, cutoff: int)
    requires forall i | 0 <= i < |times| :: times[i] <= cutoff
    ensures Newer(times, cutoff) == []
  {
    if times != [] { NewerNone(times[..|times| - 1], cutoff); }
  }

  /** What compaction leaves of a sorted log is its tail past the last stale time. */
  lemma {:induction false} NewerIsTail(times: seq<int>, cutoff: int) returns (d: nat)
    requires Ascending(times)
    ensures d <= |times| && Newer(times, cutoff) == times[d..]
    ensures forall i | 0 <= i < d :: times[i] <= cutoff
    ensures forall i | d <= i < |times| :: times[i] > cutoff
  {
    d := 0;
    if times != [] {
      var n := |times| - 1;
      if times[n] <= cutoff {
        d := |times|;
        NewerNone(times, cutoff);
      } else {
        d := NewerIsTail(times[..n], cutoff);
        assert times[..n][d..] + [times[n]] == times[d..];
        assert forall i | 0 <= i < n :: times[..n][i] == times[i];
      }
    }
  }

  /** Any BURST + 1 sends in a row span at least the window. */
  predicate Spaced(times: seq<int>) {
    forall i | 0 <= i < |times| - BURST :: times[i + BURST] - times[i] >= WINDOW
  }

  lemma SpacedGrows(times: seq<int>, now: int)
    requires Ascending(times) && Spaced(times) && (forall i | 0 <= i < |times| :: times[i] <= now)
    requires |Newer(times, now - WINDOW)| < BURST
    ensures Ascending(times + [now]) && Spaced(times + [now])
  {
    hide Newer;
    var d := NewerIsTail(times, now - WINDOW);
    var more := times + [now];
    forall i | 0 <= i < |more| - BURST ensures more[i + BURST] - more[i] >= WINDOW {
      if i + BURST == |times| {
        assert i < d;
      }
    }
  }

  // ----- the key ----------------------------------------------------------------

  function Key(conversation: string, user: string): string {
    conversation + ":" + user
  }

  /** Users without a colon in their id share a log only with themselves. */
  lemma KeyInjective(c: string, u: string, d: string, v: string)
    requires ':' !in u && ':' !in v && Key(c, u) == Key(d, v)
    ensures c == d && u == v
  {
    SplitAtLastColon(c, u, d, v);
  }

  // ----- the limiter --------------------------------------------------------------

  /** A Go slice: the first `len` cells of a buffer. */
  datatype Slice = Slice(buf: array<int>, len: nat)

  // ----- what the limiter has decided -------------------------------------------------

  /** After some sends: the log the limiter holds, and every send it accepted. */
  datatype Play = Play(log: seq<int>, past: seq<int>)

  /** The clock readings of a key's sends, in the order in which they took the lock, played through the limiter. */
  function Played(readings: seq<int>): (p: Play)
    ensures readings == [] ==> p == Play([], [])
  {
    if readings == [] then Play([], [])
    else
      var p, now := Played(readings[..|readings| - 1]), readings[|readings| - 1];
      var kept := Newer(p.log, now - WINDOW);
      if |kept| < BURST then Play(kept + [now], p.past + [now]) else Play(kept, p.past)
  }

  lemma PlayedOneMore(readings: seq<int>, now: int)
    ensures var p, kept := Played(readings), Newer(Played(readings).log, now - WINDOW);
            Played(readings + [now]) == if |kept| < BURST then Play(kept + [now], p.past + [now]) else Play(kept, p.past)
  {
    assert (readings + [now])[..|readings|] == readings;
  }

  /** What the limiter answers to the next send. */
  predicate Allows(readings: seq<int>, now: int) {
    |Newer(Played(readings).log, now - WINDOW)| < BURST
  }

  /** What the whole history of accepted sends asks for. */
  predicate ShouldAllow(readings: seq<int>, now: int) {
    |Newer(Played(readings).past, now - WINDOW)| < BURST
  }

  /** The latest of the readings. */
  function Peak(readings: seq<int>): (t: int)
    requires readings != []
    ensures t in readings && forall r <- readings :: r <= t
  {
    var before, last := readings[..|readings| - 1], readings[|readings| - 1];
    assert readings == before + [last];
    if before == [] then last else Max(Peak(before), last)
  }

  // ----- when the answer is right ---------------------------------------------------------

  lemma {:induction false} NewerTwice(log: seq<int>, c: int, d: int)
    ensures |Newer(Newer(log, c), d)| <= |Newer(log, d)|
    ensures c <= d ==> Newer(Newer(log, c), d) == Newer(log, d)
  {
    if log != [] {
      var before, last := log[..|log| - 1], log[|log| - 1];
      NewerTwice(before, c, d);
      if last > c {
        NewerConcat(Newer(before, c), [last], d);
        assert Newer([last], d) == if last > d then [last] else [];
      } else {
        assert Newer(log, c) == Newer(before, c);
      }
    }
  }

  /** The log never shows more than the history, and all of it past the window of the latest reading. */
  ghost predicate Agrees(p: Play, peak: int) {
    && (forall c :: |Newer(p.log, c)| <= |Newer(p.past, c)|)
    && forall c | c >= peak - WINDOW :: Newer(p.log, c) == Newer(p.past, c)
  }

  lemma AgreesOn(p: Play, peak: int, now: int)
    requires Agrees(p, peak)
    ensures var kept := Newer(p.log, now - WINDOW);
            Agrees(Play(kept, p.past), Max(peak, now)) && Agrees(Play(kept + [now], p.past + [now]), Max(peak, now))
  {
    var kept := Newer(p.log, now - WINDOW);
    forall c ensures |Newer(kept, c)| <= |Newer(p.past, c)| && |Newer(kept + [now], c)| <= |Newer(p.past + [now], c)| {
      NewerTwice(p.log, now - WINDOW, c);
      NewerConcat(kept, [now], c);
      NewerConcat(p.past, [now], c);
    }
    forall c | c >= Max(peak, now) - WINDOW
      ensures Newer(kept, c) == Newer(p.past, c) && Newer(kept + [now], c) == Newer(p.past + [now], c)
    {
      NewerTwice(p.log, now - WINDOW, c);
      NewerConcat(kept, [now], c);
      NewerConcat(p.past, [now], c);
    }
  }

  lemma {:induction false} PlayedAgrees(readings: seq<int>)
    requires readings != []
    ensures Agrees(Played(readings), Peak(readings))
  {
    hide Newer, Agrees;
    var before, now := readings[..|readings| - 1], readings[|readings| - 1];
    if before == [] {
      NothingAgrees(now);
      AgreesOn(Play([], []), now, now);
    } else {
      PlayedAgrees(before);
      AgreesOn(Played(before), Peak(before), now);
    }
  }

  lemma NothingAgrees(now: int)
    ensures Agrees(Play([], []), now)
  {
  }

  /** A send the history allows is always allowed, and a reading no earlier than all before it is answered just as the history asks. */
  lemma RightFromPeak(readings: seq<int>, now: int)
    ensures ShouldAllow(readings, now) ==> Allows(readings, now)
    ensures readings == [] || now >= Peak(readings) ==> (Allows(readings, now) <==> ShouldAllow(readings, now))
  {
    hide Newer, Played;
    if readings != [] {
      PlayedAgrees(readings);
      AgreesAt(Played(readings), Peak(readings), now);
    }
  }

  lemma AgreesAt(p: Play, peak: int, now: int)
    requires Agrees(p, peak)
    ensures |Newer(p.log, now - WINDOW)| <= |Newer(p.past, now - WINDOW)|
    ensures now >= peak ==> Newer(p.log, now - WINDOW) == Newer(p.past, now - WINDOW)
  {
  }

  // ----- when it is wrong --------------------------------------------------------------------

  function Repeated(t: int, n: nat): (r: seq<int>)
    ensures |r| == n && forall i | 0 <= i < n :: r[i] == t
  {
    seq(n, _ => t)
  }

  lemma {:induction false} BurstPlayed(t: int, n: nat)
    requires n <= BURST
    ensures Played(Repeated(t, n)) == Play(Repeated(t, n), Repeated(t, n))
  {
    hide Newer, Played;
    if n == 0 {
      assert Repeated(t, 0) == [];
    } else {
      BurstPlayed(t, n - 1);
      NewerAll(Repeated(t, n - 1), t - WINDOW);
      PlayedOneMore(Repeated(t, n - 1), t);
      assert Repeated(t, n) == Repeated(t, n - 1) + [t];
    }
  }

  lemma BurstForgotten(peak: int)
    ensures var five := Repeated(peak - WINDOW, BURST); Played(five + [peak]) == Play([peak], five + [peak])
  {
    hide Newer, Played, Repeated;
    var five := Repeated(peak - WINDOW, BURST);
    BurstPlayed(peak - WINDOW, BURST);
    NewerNone(five, peak - WINDOW);
    PlayedOneMore(five, peak);
    assert [] + [peak] == [peak];
  }

  lemma PeakIs(readings: seq<int>, t: int)
    requires t in readings && forall i | 0 <= i < |readings| :: readings[i] <= t
    ensures Peak(readings) == t
  {
    hide Peak;
  }

  /**
   * A clock that runs backwards makes the limiter forget: after five sends a
   * window before the latest reading, and one at it, any earlier reading is
   * let through, though the five still count.
   */
  lemma BackwardsClockForgets(peak: int, now: int) returns (readings: seq<int>)
    requires now < peak
    ensures readings != [] && Peak(readings) == peak && Allows(readings, now) && !ShouldAllow(readings, now)
  {
    hide Newer, Played, Peak, Repeated;
    readings := Repeated(peak - WINDOW, BURST) + [peak];
    BurstForgotten(peak);
    assert readings[BURST] == peak;
    PeakIs(readings, peak);
    NewerAll(readings, now - WINDOW);
  }

  /** The answer to a reading is right after every run with this latest reading exactly if it is no earlier. */
  lemma RightExactlyFromPeak(peak: int, now: int)
    ensures (forall readings | readings != [] && Peak(readings) == peak :: Allows(readings, now) <==> ShouldAllow(readings, now)) <==> now >= peak
  {
    hide Allows, ShouldAllow, Peak;
    if now >= peak {
      forall readings | readings != [] && Peak(readings) == peak ensures Allows(readings, now) <==> ShouldAllow(readings, now) {
        RightFromPeak(readings, now);
      }
    } else {
      var readings := BackwardsClockForgets(peak, now);
      assert !(Allows(readings, now) <==> ShouldAllow(readings, now));
    }
  }

  // ----- spacing ------------------------------------------------------------------------------

  /** On a clock that never ran backwards, any BURST + 1 accepted sends in a row span at least the window. */
  lemma {:induction false} PlayedSpaced(readings: seq<int>)
    requires Ascending(readings)
    ensures var past := Played(readings).past;
            Ascending(past) && Spaced(past) && (readings != [] ==> forall i | 0 <= i < |past| :: past[i] <= readings[|readings| - 1])
  {
    hide Newer, Played, Spaced;
    if readings == [] {
      NothingSpaced();
    } else {
      var before, now := readings[..|readings| - 1], readings[|readings| - 1];
      PlayedSpaced(before);
      RightFromPeak(before, now);
      PlayedOneMore(before, now);
      assert before + [now] == readings;
      if before != [] {
        assert Peak(before) <= now;
        assert forall i | 0 <= i < |Played(before).past| :: Played(before).past[i] <= before[|before| - 1] <= now;
      }
      if Allows(before, now) { SpacedGrows(Played(before).past, now); }
    }
  }

  lemma NothingSpaced()
    ensures Played([]).past == [] && Spaced([])
  {
  }

  lemma {:induction false} NewerAll(times: seq<int>, cutoff: int)
    requires forall i | 0 <= i < |times| :: times[i] > cutoff
    ensures Newer(times, cutoff) == times
  {
    if times != [] { NewerAll(times[..|times| - 1], cutoff); }
  }

  class Limiter {
    var recent: map<string, Slice>
    /** The clock readings of each key's sends. */
    ghost var history: map<string, seq<int>>

    ghost function Buffers(): set<array<int>>
      reads this
    {
      set k | k in recent :: recent[k].buf
    }

    function Log(k: string): seq<int>
      requires k in recent && recent[k].len <= recent[k].buf.Length
      reads this, recent[k].buf
    {
      recent[k].buf[..recent[k].len]
    }

    /** No two keys share a buffer. */
    ghost predicate Apart()
      reads this
    {
      forall j <- recent, k <- recent | j != k :: recent[j].buf != recent[k].buf
    }

    ghost predicate KeyValid(k: string)
      requires k in recent
      reads this, recent[k].buf
    {
      && k in history
      && recent[k].len <= recent[k].buf.Length
      && Log(k) == Played(history[k]).log
    }

    ghost predicate Valid()
      reads this, Buffers()
    {
      && recent.Keys == history.Keys
      && Apart()
      && forall k <- recent :: KeyValid(k)
    }

    /** Everything but key k is in order, and buf is k's alone. */
    ghost predicate ValidBut(k: string, buf: array<int>)
      reads this, Buffers()
    {
      && recent.Keys == history.Keys
      && Apart()
      && forall j <- recent | j != k :: recent[j].buf != buf && KeyValid(j)
    }

    /** File k's log, with its history. */
    method Store(k: string, s: Slice, ghost readings: seq<int>)
      requires ValidBut(k, s.buf) && s.len <= s.buf.Length && s.buf[..s.len] == Played(readings).log
      modifies this
      ensures Valid()
      ensures recent == old(recent)[k := s] && history == old(history)[k := readings]
    {
      hide Played;
      recent := recent[k := s];
      history := history[k := readings];
    }

    ghost function Readings(k: string): seq<int>
      reads this
    {
      if k in history then history[k] else []
    }

    constructor ()
      ensures Valid() && recent == map[] && history == map[]
    {
      recent, history := map[], map[];
    }

    /** Moves the live entries to the front of the buffer and returns how many there are. */
    method Compact(buf: array<int>, len: nat, cutoff: int) returns (kept: nat)
      requires len <= buf.Length
      modifies buf
      ensures kept <= len && buf[..kept] == Newer(old(buf[..len]), cutoff)
    {
      kept := 0;
      ghost var log := buf[..len];
      for i := 0 to len
        invariant kept <= i && buf[..kept] == Newer(log[..i], cutoff)
        invariant forall j | i <= j < len :: buf[j] == log[j]
      {
        NewerOneMore(log, i, cutoff);
        var ts := buf[i];
        if ts > cutoff {
          buf[kept] := ts;
          kept := kept + 1;
        }
      }
      assert log[..len] == log;
    }

    /** Go's append: in place while the buffer has room, else in a larger copy. */
    method Append(s: Slice, x: int) returns (r: Slice)
      requires s.len <= s.buf.Length
      modifies s.buf
      ensures r.len == s.len + 1 <= r.buf.Length && (r.buf == s.buf || fresh(r.buf))
      ensures r.buf[..r.len] == old(s.buf[..s.len]) + [x]
    {
      if s.len < s.buf.Length {
        s.buf[s.len] := x;
        r := Slice(s.buf, s.len + 1);
      } else {
        var bigger := new int[2 * s.len + 1];
        for i := 0 to s.len
          modifies bigger
          invariant bigger[..i] == s.buf[..i]
        {
          bigger[i] := s.buf[i];
        }
        bigger[s.len] := x;
        r := Slice(bigger, s.len + 1);
      }
    }

    /**
     * A reading no earlier than all before it is accepted exactly when fewer
     * than BURST accepted sends are inside the window; on any reading, a send
     * that this rule allows is accepted.
     */
    method AllowChatSend(conversation: string, user: string, now: int) returns (ok: bool)
      requires Valid()
      modifies this, if Key(conversation, user) in recent then {recent[Key(conversation, user)].buf} else {}
      ensures Valid()
      ensures var k := Key(conversation, user);
              var readings := old(Readings(k));
              && history == old(history)[k := readings + [now]]
              && Played(readings + [now]).past == (if ok then Played(readings).past + [now] else Played(readings).past)
              && (ShouldAllow(readings, now) ==> ok)
              && (readings == [] || now >= Peak(readings) ==> (ok <==> ShouldAllow(readings, now)))
              && k in recent && recent == old(recent)[k := recent[k]]
    {
      hide Newer, Played;
      var k := Key(conversation, user);
      ghost var readings := Readings(k);
      var s: Slice;
      if k in recent {
        s := recent[k];
      } else {
        var none := new int[0];
        s := Slice(none, 0);
      }
      RightFromPeak(readings, now);
      PlayedOneMore(readings, now);
      assert ValidBut(k, s.buf);
      var kept := Compact(s.buf, s.len, now - WINDOW);
      assert ValidBut(k, s.buf);
      if kept >= BURST {
        Store(k, Slice(s.buf, kept), readings + [now]);
        return false;
      }
      var grown := Append(Slice(s.buf, kept), now);
      assert ValidBut(k, grown.buf);
      Store(k, grown, readings + [now]);
      return true;
    }

    /** On a clock that never ran backwards, any BURST + 1 accepted sends in a row span at least the window. */
    lemma SendsAreSpaced(k: string, i: nat)
      requires Valid()
      ensures k in history && Ascending(history[k]) && i + BURST < |Played(history[k]).past| ==>
                Played(history[k]).past[i + BURST] - Played(history[k]).past[i] >= WINDOW
    {
      hide Played;
      if k in history && Ascending(history[k]) { PlayedSpaced(history[k]); }
    }
  }
}
