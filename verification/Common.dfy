/** Datatypes and arithmetic shared by the models. */
module Common {

  datatype Option<+T> = None | Some(value: T) {
    function GetOr(default: T): T {
      match this
      case Some(v) => v
      case None => default
    }
  }

  datatype Result<+T, +E> = Success(value: T) | Failure(error: E)

  function Abs(x: int): (r: int)
    ensures r >= 0 && (r == x || r == -x)
  {
    if x < 0 then -x else x
  }

  function Max(x: int, y: int): (r: int)
    ensures r >= x && r >= y && (r == x || r == y)
  {
    if x < y then y else x
  }

  function Min(x: int, y: int): (r: int)
    ensures r <= x && r <= y && (r == x || r == y)
  {
    if x < y then x else y
  }

  /** Go's `math.Round`: nearest integer, halves away from zero. */
  function RoundHalfAway(x: real): (r: int)
    ensures -0.5 <= r as real - x <= 0.5
    ensures x >= 0.0 ==> r >= 0
    ensures x <= 0.0 ==> r <= 0
  {
    if x >= 0.0 then (x + 0.5).Floor else -((0.5 - x).Floor)
  }

  /** JavaScript's `Math.round`: nearest integer, halves toward +infinity. */
  function RoundHalfUp(x: real): (r: int)
    ensures -0.5 < r as real - x <= 0.5
  {
    (x + 0.5).Floor
  }

  /** `items` lists `all`, each once, in some order. */
  ghost predicate Lists<T(!new)>(items: seq<T>, all: set<T>) {
    |items| == |all| && forall x :: x in items <==> x in all
  }

  lemma ListsNothing<T(!new)>()
    ensures Lists<T>([], {})
  {
  }

  lemma ListsOneMore<T(!new)>(items: seq<T>, all: set<T>, x: T)
    requires Lists(items, all) && x !in all
    ensures Lists(items + [x], all + {x})
  {
  }

  // ----- keys made of two strings and a colon ----------------------------------

  lemma ColonInside(m: string, s: string, n: string, t: string)
    requires m + ":" + s == n + ":" + t
    ensures |n| < |m| ==> ':' in t
  {
    var k := m + ":" + s;
    if |n| < |m| {
      assert k[|m|] == ':' && k[|m|] == t[|m| - |n| - 1];
    }
  }

  /** If the second parts hold no colon, the last colon tells the parts apart. */
  lemma SplitAtLastColon(m: string, s: string, n: string, t: string)
    requires m + ":" + s == n + ":" + t && ':' !in s && ':' !in t
    ensures m == n && s == t
  {
    ColonInside(m, s, n, t);
    ColonInside(n, t, m, s);
    var k := m + ":" + s;
    assert m == k[..|m|] && n == k[..|n|] && s == k[|m| + 1..] && t == k[|n| + 1..];
  }
}
