/**
 * The part of a SQLAlchemy query that the ledger uses, over a table held as a
 * sequence in storage order: `filter(...)` is Filter, `.first()` is FindIndex
 * and First, `.offset(skip).limit(limit)` is Page.
 */
module Query {
  import opened Wrappers

  /** The rows of `s` that satisfy `p`, in storage order. */
  function Filter<T>(s: seq<T>, p: T -> bool): (r: seq<T>)
    ensures |r| <= |s|
    ensures forall x :: x in r ==> x in s && p(x)
    ensures forall i :: 0 <= i < |s| && p(s[i]) ==> s[i] in r
  {
    if s == [] then []
    else if p(s[0]) then [s[0]] + Filter(s[1..], p)
    else Filter(s[1..], p)
  }

  /** `if applied: query = query.filter(p)` */
  function FilterIf<T>(s: seq<T>, applied: bool, p: T -> bool): seq<T>
  {
    if applied then Filter(s, p) else s
  }

  /** The condition of a query filtered by `p` and then, when `applied`, by `q`. */
  function AndIf<T>(p: T -> bool, applied: bool, q: T -> bool): T -> bool
  {
    x => p(x) && (applied ==> q(x))
  }

  /** Filtering keeps storage order: it distributes over concatenation. */
  lemma {:induction false} FilterAppend<T>(a: seq<T>, b: seq<T>, p: T -> bool)
    ensures Filter(a + b, p) == Filter(a, p) + Filter(b, p)
  {
    if a == [] {
      assert a + b == b;
    } else {
      assert (a + b)[0] == a[0];
      assert (a + b)[1..] == a[1..] + b;
      FilterAppend(a[1..], b, p);
    }
  }

  /** Two conditions that agree on every row of `s` select the same rows. */
  lemma {:induction false} FilterExt<T>(s: seq<T>, p: T -> bool, q: T -> bool)
    requires forall i :: 0 <= i < |s| ==> p(s[i]) == q(s[i])
    ensures Filter(s, p) == Filter(s, q)
  {
    if s != [] {
      FilterExt(s[1..], p, q);
    }
  }

  /** A second optional filter on a filtered query is one filter by the combined condition. */
  lemma {:induction false} FilterIfFilter<T>(s: seq<T>, p: T -> bool, applied: bool, q: T -> bool)
    ensures FilterIf(Filter(s, p), applied, q) == Filter(s, AndIf(p, applied, q))
  {
    if s != [] {
      FilterIfFilter(s[1..], p, applied, q);
    }
  }

  /** Filtering twice by the same condition changes nothing the second time. */
  lemma {:induction false} FilterIdempotent<T>(s: seq<T>, p: T -> bool)
    ensures Filter(Filter(s, p), p) == Filter(s, p)
  {
    if s != [] {
      FilterIdempotent(s[1..], p);
    }
  }

  /** The position of the first row satisfying `p`, if any (`query.filter(p).first()`). */
  function FindIndex<T>(s: seq<T>, p: T -> bool): (r: Option<nat>)
    ensures r.Some? ==> r.value < |s| && p(s[r.value])
    ensures r.Some? ==> forall j :: 0 <= j < r.value ==> !p(s[j])
    ensures r.None? <==> forall j :: 0 <= j < |s| ==> !p(s[j])
  {
    if s == [] then None
    else if p(s[0]) then Some(0)
    else match FindIndex(s[1..], p)
      case None => None
      case Some(i) => Some(i + 1)
  }

  /** The first row satisfying `p`, if any. */
  function First<T>(s: seq<T>, p: T -> bool): (r: Option<T>)
    ensures r.Some? ==> r.value in s && p(r.value)
    ensures r.Some? ==> FindIndex(s, p).Some? && r.value == s[FindIndex(s, p).value]
    ensures r.None? <==> forall x :: x in s ==> !p(x)
  {
    match FindIndex(s, p)
    case None => None
    case Some(i) => Some(s[i])
  }

  /**
   * Looking for a row that satisfies `q` among the rows satisfying `p` finds
   * the same row as looking in the whole table, when `q` implies `p`.
   */
  lemma {:induction false} FirstOfFilter<T>(s: seq<T>, p: T -> bool, q: T -> bool)
    requires forall i :: 0 <= i < |s| && q(s[i]) ==> p(s[i])
    ensures First(Filter(s, p), q) == First(s, q)
  {
    if s != [] {
      FirstOfFilter(s[1..], p, q);
      FirstStep(s, q);
      var f := Filter(s, p);
      if p(s[0]) {
        assert f[0] == s[0] && f[1..] == Filter(s[1..], p);
        FirstStep(f, q);
      } else {
        assert f == Filter(s[1..], p);
      }
    }
  }

  /** `first()` looks at the first row and, when it does not match, at the rest. */
  lemma FirstStep<T>(s: seq<T>, q: T -> bool)
    requires s != []
    ensures First(s, q) == if q(s[0]) then Some(s[0]) else First(s[1..], q)
  {
    if !q(s[0]) {
      match FindIndex(s[1..], q)
      case None =>
      case Some(i) => assert s[i + 1] == s[1..][i];
    }
  }

  /**
   * `.offset(skip).limit(limit)`: the rows of `s` after the first `skip`, at most
   * `limit` of them, in order.
   */
  function Page<T>(s: seq<T>, skip: nat, limit: nat): (r: seq<T>)
    ensures |r| <= limit
    ensures |r| == limit || skip + |r| >= |s|
    ensures forall i :: 0 <= i < |r| ==> skip + i < |s| && r[i] == s[skip + i]
    ensures forall x :: x in r ==> x in s
  {
    if skip >= |s| then []
    else if skip + limit <= |s| then s[skip..skip + limit]
    else s[skip..]
  }
}
