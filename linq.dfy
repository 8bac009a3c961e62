/**
 * The query operators the controllers apply to tables: `FirstOrDefault`,
 * `Where`, `All` and `OrderByDescending` on a DateTime key.
 */
module Linq {
  import opened Wrappers
  import opened Calendar

  /** `FirstOrDefault(p)`, as the index of the first row satisfying `p`. */
  function FirstWhere<T>(s: seq<T>, p: T -> bool): (r: Option<nat>)
    ensures r.Some? ==> r.value < |s| && p(s[r.value])
    ensures r.Some? ==> forall j | 0 <= j < r.value :: !p(s[j])
    ensures r.None? <==> forall j | 0 <= j < |s| :: !p(s[j])
    decreases |s|
  {
    if s == [] then None
    else if p(s[0]) then Some(0)
    else match FirstWhere(s[1..], p)
      case None => None
      case Some(k) => Some(k + 1)
  }

  /** `FirstOrDefault(p)`, as the row itself. */
  function FirstOrDefault<T>(s: seq<T>, p: T -> bool): (r: Option<T>)
    ensures r.Some? ==> r.value in s && p(r.value)
    ensures r.None? <==> forall j | 0 <= j < |s| :: !p(s[j])
  {
    match FirstWhere(s, p)
    case None => None
    case Some(i) => Some(s[i])
  }

  /** `Where(p)`. */
  function Where<T>(s: seq<T>, p: T -> bool): (r: seq<T>)
    ensures |r| <= |s|
    decreases |s|
  {
    if s == [] then [] else (if p(s[0]) then [s[0]] else []) + Where(s[1..], p)
  }

  /** `Where` keeps every row satisfying `p`, as often as it occurs, and nothing else. */
  lemma {:induction false} WhereCount<T>(s: seq<T>, p: T -> bool, x: T)
    ensures multiset(Where(s, p))[x] == if p(x) then multiset(s)[x] else 0
    decreases |s|
  {
    if s != [] {
      WhereCount(s[1..], p, x);
      assert s == [s[0]] + s[1..];
      assert multiset(s) == multiset{s[0]} + multiset(s[1..]);
    }
  }

  /** `All(p)`. */
  function All<T>(s: seq<T>, p: T -> bool): (b: bool)
    ensures b <==> forall i | 0 <= i < |s| :: p(s[i])
    decreases |s|
  {
    if s == [] then true else p(s[0]) && All(s[1..], p)
  }

  /** Newest first: no row has a key strictly after that of an earlier row. */
  ghost predicate SortedDescending<T>(s: seq<T>, key: T -> DateTime) {
    forall i, j | 0 <= i < j < |s| :: AtOrBefore(key(s[j]), key(s[i]))
  }

  /** Every row of `s` has a key at or before `k`. */
  ghost predicate NotAfter<T>(s: seq<T>, key: T -> DateTime, k: DateTime) {
    forall i | 0 <= i < |s| :: AtOrBefore(key(s[i]), k)
  }

  function InsertDescending<T>(x: T, s: seq<T>, key: T -> DateTime): (r: seq<T>)
    ensures multiset(r) == multiset(s) + multiset{x}
    decreases |s|
  {
    if s == [] then [x]
    else if AtOrBefore(key(s[0]), key(x)) then [x] + s
    else
      assert s == [s[0]] + s[1..];
      [s[0]] + InsertDescending(x, s[1..], key)
  }

  /** A bound on every key survives inserting a row within the bound. */
  lemma {:induction false} InsertNotAfter<T>(x: T, s: seq<T>, key: T -> DateTime, k: DateTime)
    requires NotAfter(s, key, k) && AtOrBefore(key(x), k)
    ensures NotAfter(InsertDescending(x, s, key), key, k)
    decreases |s|
  {
    if s != [] && !AtOrBefore(key(s[0]), key(x)) {
      InsertNotAfter(x, s[1..], key, k);
    }
  }

  /** Inserting into a sorted sequence keeps it sorted. */
  lemma {:induction false} InsertSorted<T>(x: T, s: seq<T>, key: T -> DateTime)
    requires SortedDescending(s, key)
    ensures SortedDescending(InsertDescending(x, s, key), key)
    decreases |s|
  {
    if s == [] {
    } else if AtOrBefore(key(s[0]), key(x)) {
      forall j | 0 <= j < |s| ensures AtOrBefore(key(s[j]), key(x)) {
        BeforeIsStrictTotalOrder(key(x), key(s[0]), key(s[j]));
      }
    } else {
      BeforeIsStrictTotalOrder(key(x), key(s[0]), key(x));
      InsertSorted(x, s[1..], key);
      InsertNotAfter(x, s[1..], key, key(s[0]));
    }
  }

  /** `OrderByDescending(key)`: the same rows, newest first (ties in no promised order). */
  function OrderByDescending<T>(s: seq<T>, key: T -> DateTime): (r: seq<T>)
    ensures multiset(r) == multiset(s)
    ensures SortedDescending(r, key)
    decreases |s|
  {
    if s == [] then []
    else
      assert s == [s[0]] + s[1..];
      InsertSorted(s[0], OrderByDescending(s[1..], key), key);
      InsertDescending(s[0], OrderByDescending(s[1..], key), key)
  }

  /**
   * `Where(p).OrderByDescending(key)`: every row satisfying `p`, as often as it
   * occurs, nothing else, newest first.
   */
  function WhereOrderedDescending<T(!new)>(s: seq<T>, p: T -> bool, key: T -> DateTime): (r: seq<T>)
    ensures forall x :: multiset(r)[x] == if p(x) then multiset(s)[x] else 0
    ensures SortedDescending(r, key)
  {
    WhereCountAll(s, p);
    OrderByDescending(Where(s, p), key)
  }

  lemma WhereCountAll<T(!new)>(s: seq<T>, p: T -> bool)
    ensures forall x :: multiset(Where(s, p))[x] == if p(x) then multiset(s)[x] else 0
  {
    forall x ensures multiset(Where(s, p))[x] == if p(x) then multiset(s)[x] else 0 {
      WhereCount(s, p, x);
    }
  }
}
