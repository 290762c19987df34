/**
 * The location sampler: a pool drawn from by swapping the last row into the
 * gap, and a store that remembers each match's rounds and used locations under
 * string keys.
 */
module Sampler {
  import opened Common
  import opened Decimal

  datatype Place = Place(lat: real, lng: real)
  datatype Row = Row(id: int, place: Place)
  datatype SamplerError = MatchIdRequired | BadIndex | Database | NoCatalog | PoolEmpty
  datatype Settings = Settings(poolTarget: nat, lowWatermark: nat, refillBatch: nat)

  const ATTEMPTS := 12

  // ----- keys ---------------------------------------------------------------------

  function RoundKey(matchId: string, index: nat): string {
    "match:sampler:round:" + matchId + ":" + Dec(index)
  }

  function UsedKey(matchId: string): string {
    "match:sampler:used:" + matchId
  }

  lemma NoColon(n: nat)
    ensures ':' !in Dec(n)
  {
  }

  /** The last colon of a key separates the index, so no two rounds share a key. */
  lemma RoundKeyInjective(m: string, i: nat, n: string, j: nat)
    ensures RoundKey(m, i) == RoundKey(n, j) <==> m == n && i == j
  {
    if RoundKey(m, i) == RoundKey(n, j) {
      NoColon(i);
      NoColon(j);
      var p := "match:sampler:round:";
      var s, t := m + ":" + Dec(i), n + ":" + Dec(j);
      assert s == RoundKey(m, i)[|p|..] && t == RoundKey(n, j)[|p|..];
      SplitAtLastColon(m, Dec(i), n, Dec(j));
      DecInjective(i, j);
    }
  }

  lemma UsedKeyInjective(m: string, n: string)
    ensures UsedKey(m) == UsedKey(n) <==> m == n
  {
    var p := "match:sampler:used:";
    assert UsedKey(m)[|p|..] == m && UsedKey(n)[|p|..] == n;
  }

  // ----- the store -------------------------------------------------------------------

  class MemoryStore {
    var round: map<string, Place>
    var used: map<string, set<int>>

    function Saved(matchId: string, index: nat): Option<Place>
      reads `round
    {
      var k := RoundKey(matchId, index);
      if k in round then Some(round[k]) else None
    }

    function UsedBy(matchId: string): set<int>
      reads `used
    {
      var k := UsedKey(matchId);
      if k in used then used[k] else {}
    }

    constructor ()
      ensures forall m, i: nat :: Saved(m, i) == None
      ensures forall m :: UsedBy(m) == {}
    {
      round, used := map[], map[];
    }

    method GetRound(matchId: string, index: nat) returns (r: Option<Place>)
      ensures r == Saved(matchId, index)
    {
      var k := RoundKey(matchId, index);
      return if k in round then Some(round[k]) else None;
    }

    /** Saving one round leaves every other round of every match as it was. */
    method SaveRound(matchId: string, index: nat, p: Place)
      modifies `round
      ensures forall m, i: nat :: Saved(m, i) == if m == matchId && i == index then Some(p) else old(Saved(m, i))
    {
      forall m, i: nat ensures RoundKey(m, i) == RoundKey(matchId, index) <==> m == matchId && i == index {
        RoundKeyInjective(m, i, matchId, index);
      }
      round := round[RoundKey(matchId, index) := p];
    }

    /** True exactly when the match had not used the location before. */
    method MarkUsed(matchId: string, id: int) returns (isNew: bool)
      modifies `used
      ensures isNew == (id !in old(UsedBy(matchId)))
      ensures forall m :: UsedBy(m) == if m == matchId then old(UsedBy(m)) + {id} else old(UsedBy(m))
    {
      forall m ensures UsedKey(m) == UsedKey(matchId) <==> m == matchId {
        UsedKeyInjective(m, matchId);
      }
      var k := UsedKey(matchId);
      if k !in used {
        used := used[k := {}];
      }
      if id in used[k] {
        return false;
      }
      used := used[k := used[k] + {id}];
      return true;
    }
  }

  // ----- the pool ------------------------------------------------------------------------

  function Without(pool: seq<Row>, i: nat): seq<Row>
    requires i < |pool|
  {
    var last := |pool| - 1;
    pool[i := pool[last]][..last]
  }

  /** Swapping the last row into the gap loses nothing but the row drawn. */
  lemma WithoutKeeps(pool: seq<Row>, i: nat)
    requires i < |pool|
    ensures multiset(pool) == multiset(Without(pool, i)) + multiset{pool[i]}
  {
    var last := |pool| - 1;
    var swapped := pool[i := pool[last]];
    assert swapped == swapped[..last] + [pool[last]];
    assert multiset(swapped) == multiset(pool) - multiset{pool[i]} + multiset{pool[last]};
    assert pool[i] in multiset(pool);
  }

  /** What the database answers, query by query; None is an error. */
  datatype Answers = Answers(catalog: nat -> Option<string>, rows: nat -> Option<seq<Row>>)

  /** All rows of the first `n` answers. */
  ghost function Fetched(db: Answers, n: nat): multiset<Row> {
    if n == 0 then multiset{}
    else
      var rows := db.rows(n - 1);
      Fetched(db, n - 1) + if rows.Some? then multiset(rows.value) else multiset{}
  }

  type RoundOf = (string, nat)

  ghost predicate AllUsed(rows: seq<Row>, used: set<int>) {
    forall row <- rows :: row.id in used
  }

  /** The ATTEMPTS rows logged from `start` on are all used, and another one follows them. */
  ghost predicate JustifiedAt(log: seq<Row>, start: nat, used: set<int>) {
    start + ATTEMPTS < |log| && AllUsed(log[start..start + ATTEMPTS], used)
  }

  lemma JustifiedLater(log: seq<Row>, start: nat, used: set<int>, longer: seq<Row>, more: set<int>)
    requires JustifiedAt(log, start, used) && log <= longer && used <= more
    ensures JustifiedAt(longer, start, more)
  {
    assert longer[start..start + ATTEMPTS] == log[start..start + ATTEMPTS];
  }

  /** Two rounds of a match share a location only if one of them fell back. */
  ghost predicate NoRepeatsIn(served: map<RoundOf, Row>, fallbacks: map<RoundOf, nat>) {
    && fallbacks.Keys <= served.Keys
    && forall j <- served, k <- served | j != k && j.0 == k.0 && served[j].id == served[k].id :: j in fallbacks || k in fallbacks
  }

  lemma OneMoreServed(served: map<RoundOf, Row>, fallbacks: map<RoundOf, nat>, k: RoundOf, entry: Row, start: Option<nat>)
    requires NoRepeatsIn(served, fallbacks) && k !in served
    requires start.None? ==> forall j <- served | j.0 == k.0 :: served[j].id != entry.id
    ensures NoRepeatsIn(served[k := entry], if start.Some? then fallbacks[k := start.value] else fallbacks)
  {
  }

  /** Used rows only, up to the last, which is new unless ATTEMPTS rows came before it. */
  ghost predicate FirstNew(rows: seq<Row>, used: set<int>) {
    && 0 < |rows| <= ATTEMPTS + 1
    && AllUsed(rows[..|rows| - 1], used)
    && (|rows| <= ATTEMPTS ==> rows[|rows| - 1].id !in used)
  }

  /** ATTEMPTS draws without a repeat cannot all be used by a match with fewer locations: it does not fall back. */
  lemma {:induction false} FallbackNeedsRepeats(rows: seq<Row>, used: set<int>)
    requires AllUsed(rows, used) && (forall i, j | 0 <= i < j < |rows| :: rows[i].id != rows[j].id)
    ensures |rows| <= |used|
  {
    if rows != [] {
      var n := |rows| - 1;
      assert rows[n] in rows;
      forall row <- rows[..n] ensures row.id in used - {rows[n].id} {
        assert row in rows;
      }
      FallbackNeedsRepeats(rows[..n], used - {rows[n].id});
      assert |used - {rows[n].id}| == |used| - 1;
    }
  }

  lemma NoneTried(used: set<int>)
    ensures AllUsed([], used)
  {
  }

  lemma OneMoreTried(rows: seq<Row>, used: set<int>, entry: Row)
    requires AllUsed(rows, used) && |rows| <= ATTEMPTS
    ensures entry.id in used ==> AllUsed(rows + [entry], used)
    ensures entry.id !in used || |rows| == ATTEMPTS ==> FirstNew(rows + [entry], used)
  {
    assert (rows + [entry])[..|rows|] == rows;
  }

  lemma LastResort(log: seq<Row>, start: nat, used: set<int>, entry: Row, more: set<int>)
    requires |log| == start + ATTEMPTS && AllUsed(log[start..], used) && used <= more
    ensures JustifiedAt(log + [entry], start, more)
  {
    assert (log + [entry])[start..start + ATTEMPTS] == log[start..];
  }

  class LocationSampler {
    const settings: Settings
    const db: Answers
    const st: MemoryStore
    var catalogId: string
    var pool: seq<Row>
    var catalogsAsked: nat
    var rowsAsked: nat
    /** Set when a draw leaves the pool low: a background refill may follow. */
    var low: bool

    /** Every row ever drawn, in order. */
    ghost var drawn: seq<Row>
    /** The row behind every round served; for one that the last-resort draw served, where its attempts began. */
    ghost var served: map<RoundOf, Row>
    ghost var fallbacks: map<RoundOf, nat>

    /** All rows the database ever answered with are in the pool, or drawn. */
    ghost predicate Conserved()
      reads `pool, `drawn, `rowsAsked
    {
      Fetched(db, rowsAsked) == multiset(pool) + multiset(drawn)
    }

    /** The store answers for every round served, and only those, and knows their locations as used. */
    ghost predicate Remembered()
      reads `served, st
    {
      && (forall m, i: nat :: st.Saved(m, i) == if (m, i) in served then Some(served[(m, i)].place) else None)
      && (forall k <- served :: served[k].id in st.UsedBy(k.0))
    }

    /** A round fell back only after ATTEMPTS draws in a row of locations its match has used. */
    ghost predicate Justified(log: seq<Row>)
      reads `fallbacks, st`used
    {
      forall k <- fallbacks :: JustifiedAt(log, fallbacks[k], st.UsedBy(k.0))
    }

    ghost predicate NoRepeats()
      reads `served, `fallbacks
    {
      NoRepeatsIn(served, fallbacks)
    }

    ghost predicate Valid()
      reads this, st
    {
      Conserved() && Remembered() && NoRepeats() && Justified(drawn)
    }

    constructor (db: Answers, settings: Settings)
      ensures Valid() && fresh(st) && served == map[] && pool == []
      ensures this.db == db
    {
      this.db, this.settings := db, settings;
      st := new MemoryStore();
      catalogId, pool, catalogsAsked, rowsAsked, low := "", [], 0, 0, false;
      drawn, served, fallbacks := [], map[], map[];
    }

    /** Fetch rows into the pool; the background refill does just this too. */
    method RefillSync(want: nat) returns (e: Option<SamplerError>)
      modifies `pool, `rowsAsked
      requires Conserved()
      ensures Conserved() && old(pool) <= pool
      ensures e.Some? ==> pool == old(pool) && (e == Some(NoCatalog) <==> catalogId == "")
      ensures e.None? ==> catalogId != "" && db.rows(old(rowsAsked)).Some? && pool == old(pool) + db.rows(old(rowsAsked)).value
    {
      if catalogId == "" {
        return Some(NoCatalog);
      }
      var rows := db.rows(rowsAsked);
      rowsAsked := rowsAsked + 1;
      if rows.None? {
        return Some(Database);
      }
      pool := pool + rows.value;
      return None;
    }

    method EnsureInitialized() returns (e: Option<SamplerError>)
      requires Conserved()
      modifies `catalogId, `catalogsAsked, `pool, `rowsAsked
      ensures Conserved() && old(pool) <= pool
      ensures e.None? ==> catalogId != ""
      ensures old(catalogId) != "" ==> e.None? && catalogId == old(catalogId) && pool == old(pool)
    {
      if catalogId != "" {
        return None;
      }
      var id := db.catalog(catalogsAsked);
      catalogsAsked := catalogsAsked + 1;
      if id.None? {
        return Some(Database);
      }
      catalogId := id.value;
      e := RefillSync(settings.poolTarget);
    }

    method SwapOut(i: nat)
      requires i < |pool|
      modifies `pool
      ensures pool == Without(old(pool), i)
    {
      var last := |pool| - 1;
      pool := pool[i := pool[last]];
      pool := pool[..last];
    }

    /** A row drawn leaves the pool for good. */
    method Draw() returns (r: Result<Row, SamplerError>)
      requires Conserved()
      modifies `pool, `rowsAsked, `drawn, `low
      ensures Conserved()
      ensures r.Success? ==> drawn == old(drawn) + [r.value]
      ensures r.Failure? ==> drawn == old(drawn) && old(pool) == []
      ensures old(pool) != [] ==> r.Success? && rowsAsked == old(rowsAsked)
    {
      hide Without;
      if pool == [] {
        var e := RefillSync(settings.refillBatch);
        if e.Some? {
          return Failure(e.value);
        }
      }
      if pool == [] {
        return Failure(PoolEmpty);
      }
      var i :| 0 <= i < |pool|;
      var entry := pool[i];
      ghost var before := pool;
      WithoutKeeps(pool, i);
      SwapOut(i);
      drawn := drawn + [entry];
      assert multiset(before) == multiset(pool) + multiset{entry};
      low := |pool| < settings.lowWatermark;
      return Success(entry);
    }

    method Record(matchId: string, index: nat, entry: Row)
      requires Remembered() && entry.id in st.UsedBy(matchId)
      modifies `served, st`round
      ensures Remembered() && served == old(served)[(matchId, index) := entry]
    {
      st.SaveRound(matchId, index, entry.place);
      served := served[(matchId, index) := entry];
    }

    /** Save a round and remember the row behind it. */
    method Serve(matchId: string, index: nat, entry: Row, ghost fallback: Option<nat>)
      requires Valid() && (matchId, index) !in served
      requires entry.id in st.UsedBy(matchId)
      requires fallback.None? ==> forall k <- served | k.0 == matchId :: served[k].id != entry.id
      requires fallback.Some? ==> JustifiedAt(drawn, fallback.value, st.UsedBy(matchId))
      modifies `served, `fallbacks, st`round
      ensures Valid()
      ensures served == old(served)[(matchId, index) := entry]
      ensures fallbacks == if fallback.Some? then old(fallbacks)[(matchId, index) := fallback.value] else old(fallbacks)
    {
      hide Fetched, JustifiedAt, NoRepeatsIn, Remembered;
      OneMoreServed(served, fallbacks, (matchId, index), entry, fallback);
      Record(matchId, index, entry);
      if fallback.Some? {
        fallbacks := fallbacks[(matchId, index) := fallback.value];
      }
    }

    /**
     * A round served before is answered from memory, unchanged. Otherwise the
     * row served is the first one drawn that is new to the match, if there is
     * one among the first ATTEMPTS; else it is the row drawn after those.
     */
    method NextRound(matchId: string, roundIndex: int) returns (r: Result<Place, SamplerError>)
      requires Valid()
      modifies this, st
      ensures Valid() && old(drawn) <= drawn
      ensures matchId == "" ==> r == Failure(MatchIdRequired)
      ensures matchId != "" && roundIndex < 0 ==> r == Failure(BadIndex)
      ensures matchId == "" || roundIndex < 0 || r.Failure? ==> served == old(served) && fallbacks == old(fallbacks)
      ensures matchId != "" && roundIndex >= 0 && (matchId, roundIndex) in old(served) ==>
                served == old(served) && fallbacks == old(fallbacks) && drawn == old(drawn) && r == Success(served[(matchId, roundIndex)].place)
      ensures matchId != "" && roundIndex >= 0 && (matchId, roundIndex) !in old(served) ==>
                var k := (matchId, roundIndex);
                var tried, used := drawn[|old(drawn)|..], old(st.UsedBy(matchId));
                && (r.Failure? ==> |tried| <= ATTEMPTS && AllUsed(tried, used) && st.UsedBy(matchId) == used)
                && (r.Success? ==>
                      && FirstNew(tried, used)
                      && served == old(served)[k := tried[|tried| - 1]] && r.value == tried[|tried| - 1].place
                      && st.UsedBy(matchId) == used + {tried[|tried| - 1].id}
                      && fallbacks == if |tried| > ATTEMPTS then old(fallbacks)[k := |old(drawn)|] else old(fallbacks))
    {
      hide Fetched, Remembered, Justified, JustifiedAt, NoRepeatsIn, FirstNew, AllUsed;
      if matchId == "" {
        return Failure(MatchIdRequired);
      }
      if roundIndex < 0 {
        return Failure(BadIndex);
      }
      Answered(matchId, roundIndex);
      var known := st.GetRound(matchId, roundIndex);
      if known.Some? {
        return Success(known.value);
      }
      var e := EnsureInitialized();
      if e.Some? {
        NoneTried(st.UsedBy(matchId));
        return Failure(e.value);
      }
      NoneTried(st.UsedBy(matchId));
      ghost var d0, used := drawn, st.UsedBy(matchId);
      assert drawn[|d0|..] == [];
      for attempts := 0 to ATTEMPTS
        invariant Valid() && served == old(served) && fallbacks == old(fallbacks)
        invariant st.UsedBy(matchId) == used
        invariant d0 <= drawn && |drawn| == |d0| + attempts && AllUsed(drawn[|d0|..], used)
      {
        var d := Attempt(matchId, roundIndex, false, d0, used);
        if d.Some? {
          return d.value;
        }
      }
      var d := Attempt(matchId, roundIndex, true, d0, used);
      return d.value;
    }

    lemma Answered(matchId: string, index: nat)
      requires Remembered()
      ensures st.Saved(matchId, index) == if (matchId, index) in served then Some(served[(matchId, index)].place) else None
    {
    }

    /** Draw once, and serve the row if the match has not used it, or if this is the last resort. */
    method Attempt(matchId: string, index: nat, lastResort: bool, ghost d0: seq<Row>, ghost used: set<int>)
      returns (d: Option<Result<Place, SamplerError>>)
      requires Valid() && (matchId, index) !in served && used == st.UsedBy(matchId)
      requires d0 <= drawn && AllUsed(drawn[|d0|..], used)
      requires |drawn| <= |d0| + ATTEMPTS && (lastResort <==> |drawn| == |d0| + ATTEMPTS)
      modifies `pool, `rowsAsked, `drawn, `low, `served, `fallbacks, st
      ensures Valid() && d0 <= drawn
      ensures d.None? ==>
                && !lastResort && served == old(served) && fallbacks == old(fallbacks) && st.UsedBy(matchId) == used
                && |drawn| == |old(drawn)| + 1 && AllUsed(drawn[|d0|..], used)
      ensures d.Some? && d.value.Failure? ==>
                && served == old(served) && fallbacks == old(fallbacks) && st.UsedBy(matchId) == used
                && drawn == old(drawn)
      ensures d.Some? && d.value.Success? ==>
                var k, tried := (matchId, index), drawn[|d0|..];
                && FirstNew(tried, used) && |tried| == |old(drawn)| - |d0| + 1
                && served == old(served)[k := tried[|tried| - 1]] && d.value.value == tried[|tried| - 1].place
                && st.UsedBy(matchId) == used + {tried[|tried| - 1].id}
                && fallbacks == if lastResort then old(fallbacks)[k := |d0|] else old(fallbacks)
    {
      hide Fetched, Conserved, Remembered, NoRepeats, Justified, JustifiedAt, NoRepeatsIn, FirstNew, AllUsed;
      ghost var before := drawn;
      var r := Draw();
      if r.Failure? {
        return Some(Failure(r.error));
      }
      var entry := r.value;
      assert drawn[|d0|..] == before[|d0|..] + [entry];
      OneMoreTried(before[|d0|..], used, entry);
      NewToServed(matchId, entry.id);
      LongerLog(before);
      var isNew := Mark(matchId, entry.id);
      if !isNew && !lastResort {
        return None;
      }
      if lastResort {
        LastResort(before, |d0|, used, entry, st.UsedBy(matchId));
      }
      Serve(matchId, index, entry, if lastResort then Some(|d0|) else None);
      return Some(Success(entry.place));
    }

    lemma LongerLog(before: seq<Row>)
      requires Justified(before) && before <= drawn
      ensures Justified(drawn)
    {
      hide JustifiedAt;
      forall k <- fallbacks ensures JustifiedAt(drawn, fallbacks[k], st.UsedBy(k.0)) {
        JustifiedLater(before, fallbacks[k], st.UsedBy(k.0), drawn, st.UsedBy(k.0));
      }
    }

    lemma NewToServed(matchId: string, id: int)
      requires Remembered()
      ensures id !in st.UsedBy(matchId) ==> forall k <- served | k.0 == matchId :: served[k].id != id
    {
    }

    method Mark(matchId: string, id: int) returns (isNew: bool)
      requires Valid()
      modifies st`used
      ensures Valid() && id in st.UsedBy(matchId) && st.UsedBy(matchId) == old(st.UsedBy(matchId)) + {id}
      ensures isNew == (id !in old(st.UsedBy(matchId)))
    {
      hide Fetched, JustifiedAt, NoRepeatsIn;
      ghost var uses := map k | k in fallbacks :: st.UsedBy(k.0);
      isNew := st.MarkUsed(matchId, id);
      forall k <- fallbacks ensures JustifiedAt(drawn, fallbacks[k], st.UsedBy(k.0)) {
        JustifiedLater(drawn, fallbacks[k], uses[k], drawn, st.UsedBy(k.0));
      }
    }
  }
}
