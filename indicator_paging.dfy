/** The in-memory page cut of the indicator list: all rows are read, then one page is sliced out. */
module IndicatorPaging {

  /** The first position of a page. */
  function PageStart(page: int, limit: int): int
  {
    (page - 1) * limit
  }

  /**
   * The rows of one page: empty when the page starts at or after the end, otherwise
   * up to `limit` rows from its start, cut at the end of the list. A start below zero
   * or a negative limit would make the slice panic, hence the precondition.
   */
  function PageOf<T>(all: seq<T>, page: int, limit: int): (r: seq<T>)
    requires page >= 1 && limit >= 0
    ensures PageStart(page, limit) >= |all| ==> r == []
    ensures PageStart(page, limit) < |all| ==>
      |r| == (if PageStart(page, limit) + limit > |all| then |all| - PageStart(page, limit) else limit)
    ensures forall k :: 0 <= k < |r| ==> PageStart(page, limit) + k < |all| && r[k] == all[PageStart(page, limit) + k]
  {
    var start := PageStart(page, limit);
    var end := start + limit;
    if start >= |all| then []
    else if end > |all| then all[start..]
    else all[start..end]
  }

  /** Pages 1..n laid end to end are the first n * limit rows (or all of them). */
  function Pages<T>(all: seq<T>, n: nat, limit: nat): seq<T>
  {
    if n == 0 then [] else Pages(all, n - 1, limit) + PageOf(all, n, limit)
  }

  /** The row count of `all` that lies before position x. */
  function Cut(x: int, len: nat): nat
  {
    if x < 0 then 0 else if x > len then len else x
  }

  /** One page is the slice between its start and its end, both cut at the end of the list. */
  lemma PageIsSlice<T>(all: seq<T>, page: int, limit: int)
    requires page >= 1 && limit >= 0
    ensures PageStart(page, limit) >= 0
    ensures PageOf(all, page, limit) == all[Cut(PageStart(page, limit), |all|)..Cut(PageStart(page, limit) + limit, |all|)]
  {
    assert PageStart(page, limit) >= 0 by { MulNonNegative(page - 1, limit); }
  }

  lemma MulNonNegative(a: int, b: int)
    requires a >= 0 && b >= 0
    ensures a * b >= 0
  {
  }

  /** The next page starts where this one ends. */
  lemma PageStartStep(n: nat, limit: nat)
    requires n >= 1
    ensures PageStart(n, limit) + limit == n * limit
  {
  }

  lemma SlicesJoin<T>(all: seq<T>, front: seq<T>, page: seq<T>, lo: nat, hi: nat)
    requires lo <= hi <= |all|
    requires front == all[..lo] && page == all[lo..hi]
    ensures front + page == all[..hi]
  {
  }

  lemma {:induction false} PagesArePrefix<T>(all: seq<T>, n: nat, limit: nat)
    ensures Pages(all, n, limit) == all[..Cut(n * limit, |all|)]
  {
    if n > 0 {
      PagesArePrefix(all, n - 1, limit);
      PageStartStep(n, limit);
      PageIsSlice(all, n, limit);
      assert PageStart(n, limit) == (n - 1) * limit;
      SlicesJoin(all, Pages(all, n - 1, limit), PageOf(all, n, limit),
                 Cut((n - 1) * limit, |all|), Cut(n * limit, |all|));
    }
  }

  /** Every row lies on exactly the page its position says, for a positive limit. */
  lemma RowOnItsPage<T>(all: seq<T>, limit: nat, i: nat)
    requires limit > 0 && i < |all|
    ensures PageOf(all, i / limit + 1, limit)[i % limit] == all[i]
  {
    var page := i / limit + 1;
    assert PageStart(page, limit) == i - i % limit;
  }
}
