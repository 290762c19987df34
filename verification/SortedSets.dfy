/** Byte order of Redis members, and the order in which a sorted set is scanned. */
module SortedSets {
  import opened Common

  /** User identifiers are never empty: the match script uses '' for "nobody". */
  type UserId = u: string | u != "" witness "u"

  predicate LexLess(a: string, b: string)
    decreases |a|
  {
    b != "" && (a == "" || a[0] < b[0] || (a[0] == b[0] && LexLess(a[1..], b[1..])))
  }

  lemma {:induction false} LexTotal(a: string, b: string)
    ensures a != b ==> LexLess(a, b) || LexLess(b, a)
    ensures !(LexLess(a, b) && LexLess(b, a))
    decreases |a|
  {
    if a != "" && b != "" {
      LexTotal(a[1..], b[1..]);
      if a[0] == b[0] && a != b {
        assert a == [a[0]] + a[1..] && b == [b[0]] + b[1..];
      }
    }
  }

  lemma {:induction false} LexTransitive(a: string, b: string, c: string)
    requires LexLess(a, b) && LexLess(b, c)
    ensures LexLess(a, c)
    decreases |a|
  {
    if a != "" && a[0] == b[0] == c[0] {
      LexTransitive(a[1..], b[1..], c[1..]);
    }
  }

  /** Scan order of a sorted set: by score, then by member. */
  predicate ScanBefore(z: map<UserId, int>, a: UserId, b: UserId)
    requires a in z && b in z
  {
    z[a] < z[b] || (z[a] == z[b] && LexLess(a, b))
  }

  predicate Sorted(z: map<UserId, int>, s: seq<UserId>)
    requires forall u <- s :: u in z
  {
    forall i, j | 0 <= i < j < |s| :: ScanBefore(z, s[i], s[j])
  }

  /** A missing lower bound is Redis's -inf. */
  predicate InRange(lo: Option<int>, x: int, hi: int) {
    (lo.Some? ==> lo.value <= x) && x <= hi
  }

  /** `s` is what ZRANGEBYSCORE z lo hi returns. */
  ghost predicate IsScan(z: map<UserId, int>, lo: Option<int>, hi: int, s: seq<UserId>)
  {
    && (forall u <- s :: u in z)
    && Sorted(z, s)
    && (forall u <- z :: u in s <==> InRange(lo, z[u], hi))
  }

  function Inserted(z: map<UserId, int>, s: seq<UserId>, u: UserId): (r: seq<UserId>)
    requires u in z && forall v <- s :: v in z
    ensures multiset(r) == multiset(s) + multiset{u}
    ensures forall v <- r :: v in z
  {
    if s == [] then [u]
    else if ScanBefore(z, u, s[0]) then [u] + s
    else
      assert s == [s[0]] + s[1..];
      [s[0]] + Inserted(z, s[1..], u)
  }

  lemma {:induction false} InsertedSorted(z: map<UserId, int>, s: seq<UserId>, u: UserId)
    requires u in z && (forall v <- s :: v in z) && Sorted(z, s) && u !in s
    ensures Sorted(z, Inserted(z, s, u))
  {
    var r := Inserted(z, s, u);
    if s == [] {
    } else if ScanBefore(z, u, s[0]) {
      forall j | 0 < j < |r| ensures ScanBefore(z, u, r[j]) {
        assert r[j] == s[j - 1];
        if j > 1 && z[u] == z[s[0]] == z[s[j - 1]] {
          LexTransitive(u, s[0], s[j - 1]);
        }
      }
    } else {
      InsertedSorted(z, s[1..], u);
      LexTotal(u, s[0]);
      var t := Inserted(z, s[1..], u);
      forall j | 0 < j < |r| ensures ScanBefore(z, s[0], r[j]) {
        assert r[j] == t[j - 1] && r[j] in multiset(t);
        if r[j] != u {
          assert r[j] in s[1..];
        }
      }
    }
  }

  method ZRangeByScore(z: map<UserId, int>, lo: Option<int>, hi: int) returns (s: seq<UserId>)
    ensures IsScan(z, lo, hi, s)
  {
    s := [];
    var todo := set u | u in z && InRange(lo, z[u], hi);
    ghost var all := todo;
    while todo != {}
      invariant todo <= all
      invariant forall u <- s :: u in all && u !in todo
      invariant forall u <- all :: u in todo || u in s
      invariant Sorted(z, s)
      decreases todo
    {
      var u :| u in todo;
      InsertedSorted(z, s, u);
      ghost var before := s;
      s := Inserted(z, s, u);
      assert forall v :: v in s <==> v in multiset(s);
      assert forall v :: v in before <==> v in multiset(before);
      todo := todo - {u};
    }
  }
}
