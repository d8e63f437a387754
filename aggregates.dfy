/**
 * The sums and averages the statistics routes compute: `sum(expense.amount ...)`,
 * `total / count if count else 0`, and the per-category breakdown built in a loop.
 */
module Aggregates {
  import opened Models
  import opened Query

  /** The sum of the amounts, in cents. */
  function Total(es: seq<Expense>): int
  {
    if es == [] then 0 else Total(es[..|es| - 1]) + es[|es| - 1].amount
  }

  lemma TotalSnoc(es: seq<Expense>, e: Expense)
    ensures Total(es + [e]) == Total(es) + e.amount
  {
    assert (es + [e])[..|es|] == es;
  }

  /** `r` is the mean of `count` amounts summing to `total`, and 0 when there are none. */
  predicate IsAverage(r: real, total: int, count: nat)
  {
    && (count > 0 ==> r * (count as real) == total as real)
    && (count == 0 ==> r == 0.0)
  }

  /** `total / count if count else 0`, on exact rationals. */
  function Average(total: int, count: nat): (r: real)
    ensures IsAverage(r, total, count)
  {
    if count > 0 then total as real / count as real else 0.0
  }

  /** `Expense.category == category` */
  function HasCategory(category: string): Expense -> bool
  {
    (e: Expense) => e.category == category
  }

  /** The categories that occur in `es`. */
  function Categories(es: seq<Expense>): set<string>
  {
    set e | e in es :: e.category
  }

  /** The sum of a map's values (the values of a breakdown). */
  ghost function MapTotal(m: map<string, int>): int
    decreases m.Keys
  {
    if m == map[] then 0
    else
      var k :| k in m;
      m[k] + MapTotal(m - {k})
  }

  /** The sum of a map's values may be taken starting from any key. */
  lemma {:induction false} MapTotalRemove(m: map<string, int>, k: string)
    requires k in m
    ensures MapTotal(m) == m[k] + MapTotal(m - {k})
    decreases m.Keys
  {
    var j :| j in m && MapTotal(m) == m[j] + MapTotal(m - {j});
    if j != k {
      MapTotalRemove(m - {j}, k);
      MapTotalRemove(m - {k}, j);
      assert m - {j} - {k} == m - {k} - {j};
    }
  }

  /** Setting one key of a map changes the sum of its values by the difference. */
  lemma MapTotalUpdate(m: map<string, int>, k: string, v: int)
    ensures MapTotal(m[k := v]) == MapTotal(m) - (if k in m then m[k] else 0) + v
  {
    MapTotalRemove(m[k := v], k);
    assert m[k := v] - {k} == m - {k};
    if k in m {
      MapTotalRemove(m, k);
    } else {
      assert m - {k} == m;
    }
  }

  /** The categories seen grow by the category of the next expense. */
  lemma CategoriesSnoc(seen: seq<Expense>, e: Expense)
    ensures Categories(seen + [e]) == Categories(seen) + {e.category}
  {
    assert forall x :: x in seen + [e] <==> x in seen || x == e;
  }

  /** The total of one category after one more expense. */
  lemma CategoryTotalSnoc(seen: seq<Expense>, e: Expense, c: string)
    ensures Total(Filter(seen + [e], HasCategory(c)))
         == Total(Filter(seen, HasCategory(c))) + (if c == e.category then e.amount else 0)
  {
    FilterAppend(seen, [e], HasCategory(c));
    if c == e.category {
      assert Filter([e], HasCategory(c)) == [e];
      TotalSnoc(Filter(seen, HasCategory(c)), e);
    } else {
      assert Filter([e], HasCategory(c)) == [];
      assert Filter(seen, HasCategory(c)) + [] == Filter(seen, HasCategory(c));
    }
  }

  /** A category that does not occur has no expenses. */
  lemma AbsentCategoryIsEmpty(seen: seq<Expense>, c: string)
    requires c !in Categories(seen)
    ensures Filter(seen, HasCategory(c)) == []
  {
  }

  /**
   * `breakdown` is the category breakdown of `seen`: its keys are the
   * categories that occur, each maps to that category's total, and its values
   * sum to the total of `seen`.
   */
  ghost predicate IsBreakdown(breakdown: map<string, int>, seen: seq<Expense>)
  {
    && breakdown.Keys == Categories(seen)
    && (forall c :: c in breakdown ==> breakdown[c] == Total(Filter(seen, HasCategory(c))))
    && MapTotal(breakdown) == Total(seen)
  }

  /** One step of the breakdown loop keeps its keys the categories seen. */
  lemma BreakdownKeysStep(seen: seq<Expense>, e: Expense, m: map<string, int>, previous: int)
    requires m.Keys == Categories(seen)
    ensures m[e.category := previous + e.amount].Keys == Categories(seen + [e])
  {
    CategoriesSnoc(seen, e);
  }

  /** One step of the breakdown loop keeps each value its category's total. */
  lemma BreakdownValuesStep(seen: seq<Expense>, e: Expense, m: map<string, int>, previous: int)
    requires m.Keys == Categories(seen)
    requires forall c :: c in m ==> m[c] == Total(Filter(seen, HasCategory(c)))
    requires previous == if e.category in m then m[e.category] else 0
    ensures var next := m[e.category := previous + e.amount];
      forall c :: c in next ==> next[c] == Total(Filter(seen + [e], HasCategory(c)))
  {
    var next := m[e.category := previous + e.amount];
    forall c | c in next
      ensures next[c] == Total(Filter(seen + [e], HasCategory(c)))
    {
      CategoryTotalSnoc(seen, e, c);
      if c == e.category && e.category !in m {
        AbsentCategoryIsEmpty(seen, c);
      }
    }
  }

  /** One step of the breakdown loop keeps the values summing to the total seen. */
  lemma BreakdownTotalStep(seen: seq<Expense>, e: Expense, m: map<string, int>, previous: int)
    requires MapTotal(m) == Total(seen)
    requires previous == if e.category in m then m[e.category] else 0
    ensures MapTotal(m[e.category := previous + e.amount]) == Total(seen + [e])
  {
    MapTotalUpdate(m, e.category, previous + e.amount);
    TotalSnoc(seen, e);
  }

  /** One step of the breakdown loop keeps it a breakdown. */
  lemma BreakdownStep(seen: seq<Expense>, e: Expense, m: map<string, int>, previous: int)
    requires IsBreakdown(m, seen)
    requires previous == if e.category in m then m[e.category] else 0
    ensures IsBreakdown(m[e.category := previous + e.amount], seen + [e])
  {
    BreakdownKeysStep(seen, e, m, previous);
    BreakdownValuesStep(seen, e, m, previous);
    BreakdownTotalStep(seen, e, m, previous);
  }

  /**
   * The breakdown loop: for each expense, `breakdown[category] =
   * breakdown.get(category, 0) + amount`. The result is the breakdown of
   * `es`: its keys are exactly the categories that occur, each maps to the
   * total of that category, and its values sum to the total of `es`.
   */
  method CategoryBreakdown(es: seq<Expense>) returns (breakdown: map<string, int>)
    ensures IsBreakdown(breakdown, es)
  {
    breakdown := map[];
    ghost var seen := [];
    for i := 0 to |es|
      invariant seen == es[..i]
      invariant IsBreakdown(breakdown, seen)
    {
      var e := es[i];
      var previous := if e.category in breakdown then breakdown[e.category] else 0;
      BreakdownStep(seen, e, breakdown, previous);
      breakdown := breakdown[e.category := previous + e.amount];
      seen := seen + [e];
    }
    assert seen == es;
  }
}
